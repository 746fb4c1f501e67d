// Wilder's RSI(14) and ATR(14), computed in place over the derived bars.

module WilderIndicators {
  import opened Wrappers
  import opened Candles

  datatype Bar = Bar(start: int, candle: Ohlcv, rsi: Option<real>, atr: Option<real>)

  const PERIOD := 14

  function Abs(x: real): real {
    if x < 0.0 then -x else x
  }

  /** `round` to eight digits, halves upwards. */
  function Round(x: real): real {
    (x * 100000000.0 + 0.5).Floor as real / 100000000.0
  }

  // ---------------------------------------------------------------------
  // The three series: entry k is about bars k and k + 1

  function Change(rows: seq<Bar>, i: nat): real
    requires 1 <= i < |rows|
  {
    rows[i].candle.close - rows[i - 1].candle.close
  }

  function TrueRange(row: Ohlcv, previous: Ohlcv): (r: real)
    ensures r >= 0.0
  {
    Max(Max(row.high - row.low, Abs(row.high - previous.close)), Abs(row.low - previous.close))
  }

  function Gains(rows: seq<Bar>): (values: seq<real>)
    requires rows != []
    ensures |values| == |rows| - 1
    ensures forall k :: 0 <= k < |values| ==> values[k] == Max(Change(rows, k + 1), 0.0)
  {
    seq(|rows| - 1, k requires 0 <= k < |rows| - 1 => Max(Change(rows, k + 1), 0.0))
  }

  function Losses(rows: seq<Bar>): (values: seq<real>)
    requires rows != []
    ensures |values| == |rows| - 1
    ensures forall k :: 0 <= k < |values| ==> values[k] == Max(-Change(rows, k + 1), 0.0)
  {
    seq(|rows| - 1, k requires 0 <= k < |rows| - 1 => Max(-Change(rows, k + 1), 0.0))
  }

  function TrueRanges(rows: seq<Bar>): (values: seq<real>)
    requires rows != []
    ensures |values| == |rows| - 1
    ensures forall k :: 0 <= k < |values| ==> values[k] == TrueRange(rows[k + 1].candle, rows[k].candle)
  {
    seq(|rows| - 1, k requires 0 <= k < |rows| - 1 => TrueRange(rows[k + 1].candle, rows[k].candle))
  }

  // ---------------------------------------------------------------------
  // Wilder's moving average

  function Sum(values: seq<real>): real {
    if values == [] then 0.0 else Sum(values[..|values| - 1]) + values[|values| - 1]
  }

  function Average(values: seq<real>): real
    requires values != []
  {
    Sum(values) / |values| as real
  }

  /** The average after the first `n` values: the mean of the first fourteen, then 13/14 old and 1/14 new. */
  function Smoothed(values: seq<real>, n: nat): real
    requires PERIOD <= n <= |values|
  {
    if n == PERIOD then Average(values[..PERIOD])
    else (Smoothed(values, n - 1) * 13.0 + values[n - 1]) / 14.0
  }

  function RawRsi(gain: real, loss: real): real
    requires loss != 0.0 ==> 1.0 + gain / loss != 0.0
  {
    if loss == 0.0 then 100.0 else 100.0 - 100.0 / (1.0 + gain / loss)
  }

  function Rsi(gain: real, loss: real): real
    requires loss != 0.0 ==> 1.0 + gain / loss != 0.0
  {
    Round(RawRsi(gain, loss))
  }

  ghost predicate NonNegative(values: seq<real>) {
    forall k :: 0 <= k < |values| ==> values[k] >= 0.0
  }

  lemma {:induction false} SumIsNonNegative(values: seq<real>)
    requires NonNegative(values)
    ensures Sum(values) >= 0.0
  {
    if values != [] {
      SumIsNonNegative(values[..|values| - 1]);
    }
  }

  lemma {:induction false} SmoothedIsNonNegative(values: seq<real>, n: nat)
    requires PERIOD <= n <= |values| && NonNegative(values)
    ensures Smoothed(values, n) >= 0.0
  {
    if n == PERIOD {
      SumIsNonNegative(values[..PERIOD]);
    } else {
      SmoothedIsNonNegative(values, n - 1);
    }
  }

  /** The average depends on the values so far and on nothing later. */
  lemma {:induction false} SmoothedIsCausal(a: seq<real>, b: seq<real>, n: nat)
    requires PERIOD <= n <= |a| && n <= |b| && a[..n] == b[..n]
    ensures Smoothed(a, n) == Smoothed(b, n)
  {
    if n == PERIOD {
      assert a[..PERIOD] == b[..PERIOD];
    } else {
      assert a[n - 1] == a[..n][n - 1] && b[n - 1] == b[..n][n - 1];
      assert a[..n - 1] == a[..n][..n - 1] && b[..n - 1] == b[..n][..n - 1];
      SmoothedIsCausal(a, b, n - 1);
    }
  }

  lemma RsiRange(gain: real, loss: real)
    requires gain >= 0.0 && loss >= 0.0
    ensures loss != 0.0 ==> 1.0 + gain / loss != 0.0
    ensures 0.0 <= Rsi(gain, loss) <= 100.0
  {
  }

  /** Before rounding, the RSI is the gains' share of all movement, in per cent. */
  lemma RsiIsGainShare(gain: real, loss: real)
    requires gain >= 0.0 && loss >= 0.0
    ensures loss != 0.0 ==> 1.0 + gain / loss != 0.0
    ensures RawRsi(gain, loss) * (gain + loss) == 100.0 * gain
  {
  }

  // ---------------------------------------------------------------------
  // The enriched bars

  function AverageGain(rows: seq<Bar>, i: nat): (r: real)
    requires PERIOD <= i < |rows|
    ensures r >= 0.0
  {
    SmoothedIsNonNegative(Gains(rows), i);
    Smoothed(Gains(rows), i)
  }

  function AverageLoss(rows: seq<Bar>, i: nat): (r: real)
    requires PERIOD <= i < |rows|
    ensures r >= 0.0
  {
    SmoothedIsNonNegative(Losses(rows), i);
    Smoothed(Losses(rows), i)
  }

  function AverageTrueRange(rows: seq<Bar>, i: nat): (r: real)
    requires PERIOD <= i < |rows|
    ensures r >= 0.0
  {
    SmoothedIsNonNegative(TrueRanges(rows), i);
    Smoothed(TrueRanges(rows), i)
  }

  function EnrichedBar(rows: seq<Bar>, i: nat): Bar
    requires i < |rows|
  {
    if i < PERIOD then rows[i]
    else
      RsiRange(AverageGain(rows, i), AverageLoss(rows, i));
      rows[i].(rsi := Some(Rsi(AverageGain(rows, i), AverageLoss(rows, i))),
        atr := Some(Round(AverageTrueRange(rows, i))))
  }

  function Enriched(rows: seq<Bar>): (r: seq<Bar>)
    ensures |r| == |rows|
    ensures forall i :: 0 <= i < |rows| ==> r[i] == EnrichedBar(rows, i)
  {
    seq(|rows|, i requires 0 <= i < |rows| => EnrichedBar(rows, i))
  }

  /** Every RSI lies between 0 and 100 and every ATR is non-negative; the first fourteen bars have neither. */
  lemma IndicatorRanges(rows: seq<Bar>, i: nat)
    requires i < |rows| && rows[i].rsi.None? && rows[i].atr.None?
    ensures var bar := Enriched(rows)[i];
      && (bar.rsi.Some? <==> i >= PERIOD) && (bar.atr.Some? <==> i >= PERIOD)
      && (i >= PERIOD ==> 0.0 <= bar.rsi.value <= 100.0 && bar.atr.value >= 0.0)
      && bar.start == rows[i].start && bar.candle == rows[i].candle
  {
    if i >= PERIOD {
      RsiRange(AverageGain(rows, i), AverageLoss(rows, i));
      RoundIsNonNegative(AverageTrueRange(rows, i));
    }
  }

  lemma RoundIsNonNegative(x: real)
    requires x >= 0.0
    ensures Round(x) >= 0.0
  {
  }

  /** The three series up to a bar are those of any longer list of bars. */
  lemma SameSeries(rows: seq<Bar>, all: seq<Bar>, i: nat)
    requires PERIOD <= i < |rows| <= |all| && all[..|rows|] == rows
    ensures Gains(rows)[..i] == Gains(all)[..i]
    ensures Losses(rows)[..i] == Losses(all)[..i]
    ensures TrueRanges(rows)[..i] == TrueRanges(all)[..i]
  {
    forall k | 0 <= k < |rows| ensures all[k] == rows[k] {
      assert all[..|rows|][k] == all[k];
    }
  }

  lemma SameBar(rows: seq<Bar>, all: seq<Bar>, i: nat)
    requires i < |rows| <= |all| && all[..|rows|] == rows
    ensures EnrichedBar(rows, i) == EnrichedBar(all, i)
  {
    assert all[i] == all[..|rows|][i];
    if i >= PERIOD {
      SameSeries(rows, all, i);
      SmoothedIsCausal(Gains(rows), Gains(all), i);
      SmoothedIsCausal(Losses(rows), Losses(all), i);
      SmoothedIsCausal(TrueRanges(rows), TrueRanges(all), i);
    }
  }

  /** No look-ahead: the indicators of a bar are the same whatever bars follow. */
  lemma EnrichedIsCausal(rows: seq<Bar>, more: seq<Bar>)
    ensures Enriched(rows) <= Enriched(rows + more)
  {
    var all := rows + more;
    forall i | 0 <= i < |rows| ensures Enriched(rows)[i] == Enriched(all)[i] {
      SameBar(rows, all, i);
    }
  }

  // ---------------------------------------------------------------------
  // In place

  lemma NextAverage(values: seq<real>, soFar: seq<real>, n: nat)
    requires PERIOD <= n <= |values| && soFar == values[..n]
    ensures n == PERIOD ==> Smoothed(values, n) == Average(soFar[..PERIOD])
    ensures n > PERIOD ==> Smoothed(values, n) == (Smoothed(values, n - 1) * 13.0 + values[n - 1]) / 14.0
  {
    if n == PERIOD {
      assert soFar[..PERIOD] == values[..PERIOD];
    }
  }

  lemma OneMore(values: seq<real>, i: nat)
    requires 1 <= i <= |values|
    ensures values[..i] == values[..i - 1] + [values[i - 1]]
  {
  }

  lemma SeriesGrow(rows: seq<Bar>, i: nat)
    requires 1 <= i < |rows|
    ensures Gains(rows)[..i] == Gains(rows)[..i - 1] + [Max(Change(rows, i), 0.0)]
    ensures Losses(rows)[..i] == Losses(rows)[..i - 1] + [Max(-Change(rows, i), 0.0)]
    ensures TrueRanges(rows)[..i] == TrueRanges(rows)[..i - 1] + [TrueRange(rows[i].candle, rows[i - 1].candle)]
  {
    OneMore(Gains(rows), i);
    OneMore(Losses(rows), i);
    OneMore(TrueRanges(rows), i);
  }

  /** One step of one running average. */
  method Advance(ghost values: seq<real>, soFar: seq<real>, average: real, index: nat) returns (next: real)
    requires 1 <= index <= |values| && soFar == values[..index]
    requires index > PERIOD ==> average == Smoothed(values, index - 1)
    ensures index >= PERIOD ==> next == Smoothed(values, index)
  {
    next := average;
    if index >= PERIOD { NextAverage(values, soFar, index); }
    if index == PERIOD {
      next := Average(soFar[..PERIOD]);
    } else if index > PERIOD {
      next := (average * (PERIOD - 1) as real + soFar[index - 1]) / PERIOD as real;
    }
  }

  /** The lists and running averages of the loop, after bars 0, ..., n. */
  datatype Running = Running(
    gains: seq<real>, losses: seq<real>, trueRanges: seq<real>,
    averageGain: real, averageLoss: real, averageTrueRange: real)

  ghost predicate Follows(s: Running, rows: seq<Bar>, n: nat)
    requires n < |rows|
  {
    && s.gains == Gains(rows)[..n] && s.losses == Losses(rows)[..n] && s.trueRanges == TrueRanges(rows)[..n]
    && (n >= PERIOD ==>
          && s.averageGain == AverageGain(rows, n) && s.averageLoss == AverageLoss(rows, n)
          && s.averageTrueRange == AverageTrueRange(rows, n))
  }

  method Observe(ghost rows: seq<Bar>, index: nat, row: Ohlcv, previous: Ohlcv, s: Running) returns (next: Running)
    requires 1 <= index < |rows| && row == rows[index].candle && previous == rows[index - 1].candle
    requires Follows(s, rows, index - 1)
    ensures Follows(next, rows, index)
  {
    var change := row.close - previous.close;
    SeriesGrow(rows, index);
    var gains := s.gains + [Max(change, 0.0)];
    var losses := s.losses + [Max(-change, 0.0)];
    var trueRanges := s.trueRanges + [TrueRange(row, previous)];
    var averageGain := Advance(Gains(rows), gains, s.averageGain, index);
    var averageLoss := Advance(Losses(rows), losses, s.averageLoss, index);
    var averageTrueRange := Advance(TrueRanges(rows), trueRanges, s.averageTrueRange, index);
    next := Running(gains, losses, trueRanges, averageGain, averageLoss, averageTrueRange);
  }

  /** The bars when those before `n` have been dealt with. */
  ghost function EnrichedUpTo(rows: seq<Bar>, n: nat): seq<Bar>
    requires n <= |rows|
  {
    Enriched(rows)[..n] + rows[n..]
  }

  lemma EnrichedStep(rows: seq<Bar>, n: nat)
    requires n < |rows|
    ensures EnrichedUpTo(rows, n)[n] == rows[n]
    ensures EnrichedUpTo(rows, n)[n := EnrichedBar(rows, n)] == EnrichedUpTo(rows, n + 1)
    ensures n > 0 ==> EnrichedUpTo(rows, n)[n - 1].candle == rows[n - 1].candle
  {
  }

  method WriteIndicators(rows: array<Bar>, index: nat, s: Running, ghost was: seq<Bar>)
    requires index < |was| == rows.Length && Follows(s, was, index) && rows[index] == was[index]
    modifies rows
    ensures rows[..] == old(rows[..])[index := EnrichedBar(was, index)]
  {
    if index >= PERIOD {
      RsiRange(AverageGain(was, index), AverageLoss(was, index));
      rows[index] :=
        rows[index].(rsi := Some(Rsi(s.averageGain, s.averageLoss)), atr := Some(Round(s.averageTrueRange)));
    }
  }

  method EnrichWilderIndicators(rows: array<Bar>)
    modifies rows
    ensures rows[..] == Enriched(old(rows[..]))
  {
    if rows.Length == 0 { return; }
    ghost var was := rows[..];
    var s := Running([], [], [], 0.0, 0.0, 0.0);
    var index := 1;
    while index < rows.Length
      invariant 1 <= index <= rows.Length == |was|
      invariant Follows(s, was, index - 1)
      invariant rows[..] == EnrichedUpTo(was, index)
    {
      EnrichedStep(was, index);
      assert rows[..][index] == rows[index] && rows[..][index - 1] == rows[index - 1];
      s := Observe(was, index, rows[index].candle, rows[index - 1].candle, s);
      WriteIndicators(rows, index, s, was);
      index := index + 1;
    }
    assert was[rows.Length..] == [];
  }
}
