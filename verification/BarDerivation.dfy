// Which bars a collection of closed minutes determines: the aligned buckets all
// of whose minutes occur exactly once.

module BarDerivation {
  import opened Wrappers
  import opened Candles
  import opened WilderIndicators

  const MINUTE := 60_000

  /** A closed one-minute candle; `at` is its opening time. */
  datatype Minute = Minute(at: int, candle: Ohlcv)

  type Minutes = multiset<Minute>

  function Width(w: nat): nat {
    w * MINUTE
  }

  /** `Math.floor(at / bucketMs) * bucketMs`. */
  function BucketOf(at: int, w: nat): int
    requires w > 0
  {
    at / Width(w) * Width(w)
  }

  predicate AtMinute(at: int) {
    at % MINUTE == 0
  }

  predicate Aligned(start: int, w: nat) {
    w > 0 && start % Width(w) == 0
  }

  // ---------------------------------------------------------------------
  // Minutes that occur once

  ghost predicate Sole(m: Minutes, x: Minute) {
    m[x] == 1 && forall y :: y in m && y.at == x.at ==> y == x
  }

  ghost predicate Once(m: Minutes, t: int) {
    exists x: Minute :: x.at == t && Sole(m, x)
  }

  ghost function MinuteAt(m: Minutes, t: int): (x: Minute)
    requires Once(m, t)
    ensures x.at == t && Sole(m, x)
  {
    var x: Minute :| x.at == t && Sole(m, x);
    x
  }

  /** The time of the `k`-th minute of a bucket. */
  function Slot(start: int, k: int): int {
    start + k * MINUTE
  }

  ghost predicate Complete(m: Minutes, w: nat, start: int) {
    forall k: nat :: k < w ==> Once(m, Slot(start, k))
  }

  ghost function CandlesIn(m: Minutes, w: nat, start: int): (candles: seq<Ohlcv>)
    requires Complete(m, w, start)
    ensures |candles| == w
    ensures forall k: nat :: k < w ==> Once(m, Slot(start, k)) && candles[k] == MinuteAt(m, Slot(start, k)).candle
  {
    seq(w, k requires 0 <= k < w => MinuteAt(m, Slot(start, k)).candle)
  }

  // ---------------------------------------------------------------------
  // The derived bars

  ghost predicate Ascending(bars: seq<Bar>) {
    forall i, k :: 0 <= i < k < |bars| ==> bars[i].start < bars[k].start
  }

  ghost predicate Starts(bars: seq<Bar>, start: int) {
    exists i :: 0 <= i < |bars| && bars[i].start == start
  }

  ghost predicate GoodBar(m: Minutes, w: nat, bar: Bar) {
    && Aligned(bar.start, w) && Complete(m, w, bar.start)
    && bar == Bar(bar.start, Aggregate(CandlesIn(m, w, bar.start)), None, None)
  }

  /** `bars` are the complete aligned buckets, in strictly increasing time order, and nothing else. */
  ghost predicate IsDerivation(m: Minutes, w: nat, bars: seq<Bar>) {
    && Ascending(bars)
    && (forall i :: 0 <= i < |bars| ==> GoodBar(m, w, bars[i]))
    && (forall start :: Aligned(start, w) && Complete(m, w, start) ==> Starts(bars, start))
  }

  lemma {:induction false} AscendingIsDetermined(a: seq<Bar>, b: seq<Bar>)
    requires Ascending(a) && Ascending(b)
    requires forall i :: 0 <= i < |a| ==> a[i] in b
    requires forall i :: 0 <= i < |b| ==> b[i] in a
    ensures a == b
  {
    assert b != [] ==> b[0] in a;
    if a != [] {
      assert a[0] in b && b[0] in a;
      assert a[0] == b[0];
      forall i | 0 <= i < |a[1..]| ensures a[1..][i] in b[1..] {
        assert a[i + 1] in b;
      }
      forall i | 0 <= i < |b[1..]| ensures b[1..][i] in a[1..] {
        assert b[i + 1] in a;
      }
      AscendingIsDetermined(a[1..], b[1..]);
    }
  }

  /** The minutes determine the bars. */
  lemma DerivationIsUnique(m: Minutes, w: nat, a: seq<Bar>, b: seq<Bar>)
    requires IsDerivation(m, w, a) && IsDerivation(m, w, b)
    ensures a == b
  {
    SameBars(m, w, a, b);
    SameBars(m, w, b, a);
    AscendingIsDetermined(a, b);
  }

  lemma SameBars(m: Minutes, w: nat, a: seq<Bar>, b: seq<Bar>)
    requires IsDerivation(m, w, a) && IsDerivation(m, w, b)
    ensures forall i :: 0 <= i < |a| ==> a[i] in b
  {
  }

  // ---------------------------------------------------------------------
  // No look-ahead

  /** `early` holds the minutes of `late` that have closed by `cutoff`. */
  ghost predicate CutAt(early: Minutes, late: Minutes, cutoff: int) {
    forall x :: early[x] == if x.at + MINUTE <= cutoff then late[x] else 0
  }

  lemma CutMinute(early: Minutes, late: Minutes, cutoff: int, t: int)
    requires CutAt(early, late, cutoff)
    ensures Once(early, t) <==> Once(late, t) && t + MINUTE <= cutoff
    ensures Once(early, t) ==> MinuteAt(early, t) == MinuteAt(late, t)
  {
  }

  lemma CutBucket(early: Minutes, late: Minutes, cutoff: int, w: nat, start: int)
    requires CutAt(early, late, cutoff) && w > 0
    ensures Complete(early, w, start) <==> Complete(late, w, start) && start + Width(w) <= cutoff
    ensures Complete(early, w, start) ==> CandlesIn(early, w, start) == CandlesIn(late, w, start)
  {
    forall k: nat | k < w
      ensures Once(early, Slot(start, k)) <==> Once(late, Slot(start, k)) && Slot(start, k) + MINUTE <= cutoff
      ensures Once(early, Slot(start, k)) ==> MinuteAt(early, Slot(start, k)) == MinuteAt(late, Slot(start, k))
    {
      CutMinute(early, late, cutoff, Slot(start, k));
    }
    if Complete(early, w, start) {
      assert Once(early, Slot(start, w - 1));
      assert start + Width(w) <= cutoff;
    }
    if start + Width(w) <= cutoff {
      forall k: nat | k < w ensures Slot(start, k) + MINUTE <= cutoff {
        assert (k + 1) * MINUTE <= w * MINUTE;
      }
    }
  }

  function CountUpTo(bars: seq<Bar>, w: nat, cutoff: int): (n: nat)
    ensures n <= |bars|
    ensures forall i :: 0 <= i < n ==> bars[i].start + Width(w) <= cutoff
    ensures n < |bars| ==> bars[n].start + Width(w) > cutoff
  {
    if bars != [] && bars[0].start + Width(w) <= cutoff then 1 + CountUpTo(bars[1..], w, cutoff) else 0
  }

  lemma EarlyStart(bars: seq<Bar>, w: nat, cutoff: int, start: int)
    requires Ascending(bars) && Starts(bars, start) && start + Width(w) <= cutoff
    ensures Starts(bars[..CountUpTo(bars, w, cutoff)], start)
  {
  }

  lemma EarlyPrefix(early: Minutes, late: Minutes, cutoff: int, w: nat, bars: seq<Bar>)
    requires CutAt(early, late, cutoff) && w > 0 && IsDerivation(late, w, bars)
    ensures IsDerivation(early, w, bars[..CountUpTo(bars, w, cutoff)])
  {
    var n := CountUpTo(bars, w, cutoff);
    var prefix := bars[..n];
    forall i | 0 <= i < n ensures GoodBar(early, w, prefix[i]) {
      assert GoodBar(late, w, bars[i]);
      CutBucket(early, late, cutoff, w, bars[i].start);
    }
    forall start | Aligned(start, w) && Complete(early, w, start) ensures Starts(prefix, start) {
      CutBucket(early, late, cutoff, w, start);
      EarlyStart(bars, w, cutoff, start);
    }
  }

  /** The bars derivable at an earlier cutoff are an exact prefix of those derivable later. */
  lemma BarsAreCausal(early: Minutes, late: Minutes, cutoff: int, w: nat, a: seq<Bar>, b: seq<Bar>)
    requires CutAt(early, late, cutoff) && w > 0
    requires IsDerivation(early, w, a) && IsDerivation(late, w, b)
    ensures a <= b
  {
    EarlyPrefix(early, late, cutoff, w, b);
    DerivationIsUnique(early, w, a, b[..CountUpTo(b, w, cutoff)]);
  }

  // ---------------------------------------------------------------------
  // Composition: n buckets of w minutes make one bucket of n * w minutes

  lemma SlotOfPart(start: int, w: nat, n: nat, k: nat)
    requires w > 0 && k < n * w
    ensures k / w < n && k % w < w
    ensures Slot(start, k) == Slot(Slot(start, k / w * w), k % w)
  {
  }

  lemma SlotInWhole(start: int, w: nat, n: nat, j: nat, k: nat)
    requires j < n && k < w
    ensures j * w + k < n * w
    ensures Slot(Slot(start, j * w), k) == Slot(start, j * w + k)
  {
    assert (j + 1) * w <= n * w;
    assert j * w + k < (j + 1) * w;
  }

  ghost predicate AllParts(m: Minutes, w: nat, n: nat, start: int) {
    forall j: nat {:trigger Slot(start, j * w)} :: j < n ==> Complete(m, w, Slot(start, j * w))
  }

  lemma WholeGivesParts(m: Minutes, w: nat, n: nat, start: int)
    requires w > 0 && Complete(m, n * w, start)
    ensures AllParts(m, w, n, start)
  {
    forall j: nat | j < n ensures Complete(m, w, Slot(start, j * w)) {
      forall k: nat | k < w ensures Once(m, Slot(Slot(start, j * w), k)) {
        SlotInWhole(start, w, n, j, k);
        assert Once(m, Slot(start, j * w + k));
      }
    }
  }

  lemma PartsGiveWhole(m: Minutes, w: nat, n: nat, start: int)
    requires w > 0 && AllParts(m, w, n, start)
    ensures Complete(m, n * w, start)
  {
    forall k: nat | k < n * w ensures Once(m, Slot(start, k)) {
      SlotOfPart(start, w, n, k);
      assert Complete(m, w, Slot(start, k / w * w));
    }
  }

  ghost function Parts(m: Minutes, w: nat, n: nat, start: int): (parts: seq<seq<Ohlcv>>)
    requires AllParts(m, w, n, start)
    ensures |parts| == n
    ensures forall j: nat :: j < n ==> parts[j] == CandlesIn(m, w, Slot(start, j * w))
  {
    seq(n, j requires 0 <= j < n => CandlesIn(m, w, Slot(start, j * w)))
  }

  /** The `r`-th candle of part `q`. */
  lemma {:induction false} FlattenedSlot(parts: seq<seq<Ohlcv>>, w: nat, q: nat, r: nat, k: nat)
    requires forall i :: 0 <= i < |parts| ==> |parts[i]| == w
    requires q < |parts| && r < w && k == q * w + r
    ensures k < |Flatten(parts)| && Flatten(parts)[k] == parts[q][r]
  {
    if q > 0 {
      assert k - w == (q - 1) * w + r;
      FlattenedSlot(parts[1..], w, q - 1, r, k - w);
      assert k >= w && |parts[0]| == w;
    }
  }

  lemma QuotientBound(k: nat, w: nat, n: nat)
    requires w > 0 && k < n * w
    ensures k / w < n && k == k / w * w + k % w
  {
    MultiplyMonotone(n, k / w, w);
  }

  lemma MultiplyMonotone(a: nat, b: nat, w: nat)
    ensures a <= b ==> a * w <= b * w
  {
  }

  lemma DivMod(x: int, q: int, r: int, w: nat)
    requires w > 0 && 0 <= r < w && x == q * w + r
    ensures x / w == q && x % w == r
  {
    var d := x / w - q;
    assert x == x / w * w + x % w;
    assert d * w == r - x % w;
    assert d >= 1 ==> d * w >= w;
    assert d <= -1 ==> d * w + w <= 0;
  }

  lemma {:induction false} FlattenedLength(parts: seq<seq<Ohlcv>>, w: nat)
    requires forall i :: 0 <= i < |parts| ==> |parts[i]| == w
    ensures |Flatten(parts)| == |parts| * w
  {
    if parts != [] {
      FlattenedLength(parts[1..], w);
    }
  }

  /** Slot `r` of part `q` is slot `k`, that is `q * w + r`, of the whole. */
  lemma CandleOfPart(m: Minutes, w: nat, n: nat, start: int, q: nat, r: nat, k: nat)
    requires Complete(m, n * w, start) && AllParts(m, w, n, start)
    requires q < n && r < w && k == q * w + r && k < n * w
    ensures Parts(m, w, n, start)[q][r] == CandlesIn(m, n * w, start)[k]
  {
    SlotInWhole(start, w, n, q, r);
    var part := CandlesIn(m, w, Slot(start, q * w));
    assert part[r] == MinuteAt(m, Slot(Slot(start, q * w), r)).candle;
  }

  lemma PartsMakeWholeAt(m: Minutes, w: nat, n: nat, start: int, k: nat)
    requires w > 0 && Complete(m, n * w, start) && AllParts(m, w, n, start) && k < n * w
    ensures k < |Flatten(Parts(m, w, n, start))|
    ensures Flatten(Parts(m, w, n, start))[k] == CandlesIn(m, n * w, start)[k]
  {
    QuotientBound(k, w, n);
    CandleOfPart(m, w, n, start, k / w, k % w, k);
    FlattenedSlot(Parts(m, w, n, start), w, k / w, k % w, k);
  }

  lemma PartsMakeWhole(m: Minutes, w: nat, n: nat, start: int)
    requires w > 0 && Complete(m, n * w, start) && AllParts(m, w, n, start)
    ensures Flatten(Parts(m, w, n, start)) == CandlesIn(m, n * w, start)
  {
    var parts, whole := Parts(m, w, n, start), CandlesIn(m, n * w, start);
    FlattenedLength(parts, w);
    forall k | 0 <= k < n * w ensures Flatten(parts)[k] == whole[k] {
      PartsMakeWholeAt(m, w, n, start, k);
    }
  }

  lemma PartIsAligned(start: int, w: nat, n: nat, j: nat)
    requires w > 0 && n > 0 && Aligned(start, n * w)
    ensures Aligned(Slot(start, j * w), w)
  {
    var q := start / Width(n * w);
    assert start == q * Width(n * w);
    assert Slot(start, j * w) == (q * n + j) * Width(w);
    DivMod(Slot(start, j * w), q * n + j, 0, Width(w));
  }

  ghost function BarStarting(bars: seq<Bar>, start: int): (bar: Bar)
    requires Starts(bars, start)
    ensures bar in bars && bar.start == start
  {
    var i :| 0 <= i < |bars| && bars[i].start == start;
    bars[i]
  }

  lemma StartsExactly(m: Minutes, w: nat, bars: seq<Bar>, start: int)
    requires IsDerivation(m, w, bars)
    ensures Starts(bars, start) <==> Aligned(start, w) && Complete(m, w, start)
  {
  }

  lemma BarCandle(m: Minutes, w: nat, bars: seq<Bar>, start: int)
    requires IsDerivation(m, w, bars) && Starts(bars, start)
    ensures Complete(m, w, start) && w > 0
    ensures BarStarting(bars, start).candle == Aggregate(CandlesIn(m, w, start))
  {
  }

  ghost predicate AllStart(bars: seq<Bar>, w: nat, n: nat, start: int) {
    forall j: nat {:trigger Slot(start, j * w)} :: j < n ==> Starts(bars, Slot(start, j * w))
  }

  /** A bar of n * w minutes is emitted exactly when every bar of w minutes inside it is. */
  lemma CoarseBarsNeedFineBars(m: Minutes, w: nat, n: nat, fine: seq<Bar>, coarse: seq<Bar>, start: int)
    requires w > 0 && n > 0 && Aligned(start, n * w)
    requires IsDerivation(m, w, fine) && IsDerivation(m, n * w, coarse)
    ensures Starts(coarse, start) <==> AllStart(fine, w, n, start)
  {
    StartsExactly(m, n * w, coarse, start);
    forall j: nat | j < n
      ensures Starts(fine, Slot(start, j * w)) <==> Complete(m, w, Slot(start, j * w))
    {
      PartIsAligned(start, w, n, j);
      StartsExactly(m, w, fine, Slot(start, j * w));
    }
    if Complete(m, n * w, start) { WholeGivesParts(m, w, n, start); }
    if AllStart(fine, w, n, start) { PartsGiveWhole(m, w, n, start); }
  }

  ghost function FineCandles(bars: seq<Bar>, w: nat, n: nat, start: int): (candles: seq<Ohlcv>)
    requires AllStart(bars, w, n, start)
    ensures |candles| == n
    ensures forall j: nat :: j < n ==> candles[j] == BarStarting(bars, Slot(start, j * w)).candle
  {
    seq(n, j requires 0 <= j < n => BarStarting(bars, Slot(start, j * w)).candle)
  }

  /** Its prices and volume are the aggregate of those bars'. */
  lemma CoarseBarsAggregateFineBars(m: Minutes, w: nat, n: nat, fine: seq<Bar>, coarse: seq<Bar>, start: int)
    requires w > 0 && n > 0 && IsDerivation(m, w, fine) && IsDerivation(m, n * w, coarse)
    requires Starts(coarse, start)
    ensures AllStart(fine, w, n, start)
    ensures BarStarting(coarse, start).candle == Aggregate(FineCandles(fine, w, n, start))
  {
    StartsExactly(m, n * w, coarse, start);
    CoarseBarsNeedFineBars(m, w, n, fine, coarse, start);
    WholeGivesParts(m, w, n, start);
    var parts := Parts(m, w, n, start);
    PartsMakeWhole(m, w, n, start);
    AggregateOfAggregates(parts);
    BarCandle(m, n * w, coarse, start);
    var candles := FineCandles(fine, w, n, start);
    forall j: nat | j < n ensures candles[j] == Aggregates(parts)[j] {
      BarCandle(m, w, fine, Slot(start, j * w));
    }
    assert candles == Aggregates(parts);
  }
}
