// The two derivations, for the runtime and for the canonical M5 series, and what holds between them.

module MarketDerivation {
  import opened Wrappers
  import opened JsText
  import opened Candles
  import opened WilderIndicators
  import opened BarDerivation
  import opened ExtraMinutes
  import opened MarketResampler

  datatype Target = M5 | M15 | H1 | H4

  function MinutesIn(target: Target): nat {
    match target
    case M5 => 5
    case M15 => 15
    case H1 => 60
    case H4 => 240
  }

  datatype DerivationError = CutoffInvalid | TimeframeUnsupported | FeedIdRequired | SymbolRequired

  datatype Derivation =
    | Derived(bars: seq<Bar>, tally: Tally, counters: Counters)
    | Refused(error: DerivationError)

  /** Readers accept only whole minutes closed by the cutoff. */
  lemma ReadersTakeClosedMinutes(feedId: Text, symbol: Text, rows: seq<SourceRow>, cutoff: int)
    ensures
      var m := Accepted(RuntimeReader(), rows, cutoff);
      OnTheMinute(m) && ClosedBy(m, cutoff)
    ensures
      var m := Accepted(CanonicalReader(feedId, symbol), rows, cutoff);
      OnTheMinute(m) && ClosedBy(m, cutoff)
  {
    AcceptedAreClosedMinutes(RuntimeReader(), rows, cutoff);
    AcceptedAreClosedMinutes(CanonicalReader(feedId, symbol), rows, cutoff);
  }

  /** Bars, row counters and bucket counters, as the accepted minutes determine them. */
  ghost predicate Faithful(
    read: Reader, rows: seq<SourceRow>, cutoff: int, w: nat, bars: seq<Bar>, tally: Tally, counters: Counters)
    requires w > 0
  {
    var m := Accepted(read, rows, cutoff);
    && IsDerivation(m, w, bars)
    && tally == TallyOf(read, rows, cutoff)
    && CountsBuckets(counters, m, w, bars)
  }

  method DeriveTimeframeFromClosedM1(rows: seq<SourceRow>, cutoffUtc: Option<int>, target: Option<Target>)
    returns (r: Derivation)
    ensures r.Derived? <==> cutoffUtc.Some? && target.Some?
    ensures cutoffUtc.None? ==> r == Refused(CutoffInvalid)
    ensures r.Derived? ==>
      Faithful(RuntimeReader(), rows, cutoffUtc.value, MinutesIn(target.value), r.bars, r.tally, r.counters)
  {
    if cutoffUtc.None? { return Refused(CutoffInvalid); }
    if target.None? { return Refused(TimeframeUnsupported); }
    var cutoff, w := cutoffUtc.value, MinutesIn(target.value);
    var tally, buckets := FillBuckets(RuntimeReader(), rows, cutoff, w);
    ReadersTakeClosedMinutes([], [], rows, cutoff);
    var bars, counters := EmitBars(buckets, w, cutoff, Accepted(RuntimeReader(), rows, cutoff));
    return Derived(bars, tally, counters);
  }

  method EnrichRows(bars: seq<Bar>) returns (enriched: seq<Bar>)
    ensures enriched == Enriched(bars)
  {
    var derivedRows := new Bar[|bars|](i requires 0 <= i < |bars| => bars[i]);
    assert derivedRows[..] == bars;
    EnrichWilderIndicators(derivedRows);
    enriched := derivedRows[..];
  }

  method DeriveM5FromClosedM1(rows: seq<SourceRow>, cutoffUtc: Option<int>, feedId: Text, symbol: Text)
    returns (r: Derivation, ghost plain: seq<Bar>)
    ensures r.Derived? <==> cutoffUtc.Some? && feedId != [] && symbol != []
    ensures r.Derived? ==>
      && Faithful(CanonicalReader(feedId, symbol), rows, cutoffUtc.value, MinutesIn(M5), plain, r.tally, r.counters)
      && r.bars == Enriched(plain)
  {
    plain := [];
    if cutoffUtc.None? { return Refused(CutoffInvalid), plain; }
    if feedId == [] { return Refused(FeedIdRequired), plain; }
    if symbol == [] { return Refused(SymbolRequired), plain; }
    var cutoff := cutoffUtc.value;
    var tally, buckets := FillBuckets(CanonicalReader(feedId, symbol), rows, cutoff, MinutesIn(M5));
    ReadersTakeClosedMinutes(feedId, symbol, rows, cutoff);
    var bars, counters :=
      EmitBars(buckets, MinutesIn(M5), cutoff, Accepted(CanonicalReader(feedId, symbol), rows, cutoff));
    plain := bars;
    var enriched := EnrichRows(bars);
    return Derived(enriched, tally, counters), plain;
  }

  // ---------------------------------------------------------------------
  // Order of the input

  /** The order of the input rows changes neither the bars nor any counter. */
  lemma DerivationIgnoresOrder(
    read: Reader, a: seq<SourceRow>, b: seq<SourceRow>, cutoff: int, w: nat,
    barsA: seq<Bar>, tallyA: Tally, countersA: Counters, barsB: seq<Bar>, tallyB: Tally, countersB: Counters)
    requires w > 0 && multiset(a) == multiset(b)
    requires Faithful(read, a, cutoff, w, barsA, tallyA, countersA)
    requires Faithful(read, b, cutoff, w, barsB, tallyB, countersB)
    ensures barsA == barsB && tallyA == tallyB && countersA == countersB
  {
    OrderDoesNotMatter(read, a, b, cutoff);
    DerivationIsUnique(Accepted(read, a, cutoff), w, barsA, barsB);
  }

  // ---------------------------------------------------------------------
  // Look-ahead

  /** The M5 bars known at a cutoff, indicators included, are an exact prefix of those known later. */
  lemma NoLookAhead(
    feedId: Text, symbol: Text, rows: seq<SourceRow>, early: int, late: int, before: seq<Bar>, after: seq<Bar>)
    requires early <= late
    requires IsDerivation(Accepted(CanonicalReader(feedId, symbol), rows, early), MinutesIn(M5), before)
    requires IsDerivation(Accepted(CanonicalReader(feedId, symbol), rows, late), MinutesIn(M5), after)
    ensures Enriched(before) <= Enriched(after)
  {
    var read := CanonicalReader(feedId, symbol);
    ReadersAreCausal(feedId, symbol);
    AcceptedIsCut(read, rows, early, late);
    BarsAreCausal(Accepted(read, rows, early), Accepted(read, rows, late), early, MinutesIn(M5), before, after);
    EnrichedIsCausal(before, after[|before|..]);
    assert after == before + after[|before|..];
  }

  /** Rows that arrive later and have not closed by the cutoff change nothing either. */
  lemma {:induction false} FutureRowsAreIgnored(read: Reader, rows: seq<SourceRow>, later: seq<SourceRow>, cutoff: int)
    requires forall row :: row in later ==> read(row, cutoff).Ignored?
    ensures Accepted(read, rows + later, cutoff) == Accepted(read, rows, cutoff)
  {
    if later == [] {
      assert rows + later == rows;
    } else {
      var n := |later| - 1;
      assert (rows + later)[..|rows + later| - 1] == rows + later[..n];
      assert later[n] in later;
      FutureRowsAreIgnored(read, rows, later[..n], cutoff);
    }
  }

  // ---------------------------------------------------------------------
  // Coarser timeframes

  /** M15, H1 and H4 bars are emitted exactly when all their M5 bars are, and aggregate them. */
  lemma CoarseTimeframesCompose(
    rows: seq<SourceRow>, cutoff: int, target: Target, fine: seq<Bar>, coarse: seq<Bar>, start: int)
    requires Aligned(start, MinutesIn(target))
    requires IsDerivation(Accepted(RuntimeReader(), rows, cutoff), MinutesIn(M5), fine)
    requires IsDerivation(Accepted(RuntimeReader(), rows, cutoff), MinutesIn(target), coarse)
    ensures Starts(coarse, start) <==> AllStart(fine, MinutesIn(M5), MinutesIn(target) / MinutesIn(M5), start)
    ensures Starts(coarse, start) ==>
      BarStarting(coarse, start).candle
      == Aggregate(FineCandles(fine, MinutesIn(M5), MinutesIn(target) / MinutesIn(M5), start))
  {
    var m := Accepted(RuntimeReader(), rows, cutoff);
    var n := MinutesIn(target) / MinutesIn(M5);
    assert n * MinutesIn(M5) == MinutesIn(target);
    CoarseBarsNeedFineBars(m, MinutesIn(M5), n, fine, coarse, start);
    if Starts(coarse, start) {
      CoarseBarsAggregateFineBars(m, MinutesIn(M5), n, fine, coarse, start);
    }
  }

  // ---------------------------------------------------------------------
  // Runtime and canonical M5

  /** The row passes every filter of the canonical derivation, except perhaps the cutoff. */
  predicate Strict(feedId: Text, symbol: Text, row: SourceRow, cutoff: int) {
    var reading := ReadCanonical(row, feedId, symbol, cutoff);
    reading.Usable? || reading == Ignored(AfterCutoff)
  }

  /** On a row that passes the strict filters, the runtime reads the same minute unless `closed` denies it. */
  lemma RuntimeReadsStrictRow(feedId: Text, symbol: Text, row: SourceRow, cutoff: int)
    requires Strict(feedId, symbol, row, cutoff)
    ensures ReadRuntime(row, cutoff) == ReadCanonical(row, feedId, symbol, cutoff) <==> !row.closed.No?
  {
  }

  /** The minutes the canonical derivation accepts from rows whose `closed` field does not deny it, or does. */
  function MinutesWhere(
    feedId: Text, symbol: Text, rows: seq<SourceRow>, cutoff: int, denied: bool): Minutes
  {
    if rows == [] then multiset{}
    else
      var row := rows[|rows| - 1];
      MinutesWhere(feedId, symbol, rows[..|rows| - 1], cutoff, denied)
      + if row.closed.No? == denied then MinutesOf(ReadCanonical(row, feedId, symbol, cutoff)) else multiset{}
  }

  ghost predicate AllStrict(feedId: Text, symbol: Text, rows: seq<SourceRow>, cutoff: int) {
    forall row :: row in rows ==> Strict(feedId, symbol, row, cutoff)
  }

  /** The runtime accepts the undenied minutes; the canonical derivation those and the denied ones. */
  lemma {:induction false} AcceptedOfStrictRows(feedId: Text, symbol: Text, rows: seq<SourceRow>, cutoff: int)
    requires AllStrict(feedId, symbol, rows, cutoff)
    ensures Accepted(RuntimeReader(), rows, cutoff) == MinutesWhere(feedId, symbol, rows, cutoff, false)
    ensures Accepted(CanonicalReader(feedId, symbol), rows, cutoff)
         == MinutesWhere(feedId, symbol, rows, cutoff, false) + MinutesWhere(feedId, symbol, rows, cutoff, true)
  {
    if rows != [] {
      var n := |rows| - 1;
      assert rows[n] in rows;
      RuntimeReadsStrictRow(feedId, symbol, rows[n], cutoff);
      AcceptedOfStrictRows(feedId, symbol, rows[..n], cutoff);
    }
  }

  /**
   * On rows that pass the strict filters the two derivations give the same M5 bars exactly when no denied row falls
   * into a bucket that is complete with the denied rows or without them.
   */
  lemma RuntimeAgreesWithCanonical(
    feedId: Text, symbol: Text, rows: seq<SourceRow>, cutoff: int, runtime: seq<Bar>, canonical: seq<Bar>)
    requires AllStrict(feedId, symbol, rows, cutoff)
    requires IsDerivation(Accepted(RuntimeReader(), rows, cutoff), MinutesIn(M5), runtime)
    requires IsDerivation(Accepted(CanonicalReader(feedId, symbol), rows, cutoff), MinutesIn(M5), canonical)
    ensures
      var undenied := MinutesWhere(feedId, symbol, rows, cutoff, false);
      var denied := MinutesWhere(feedId, symbol, rows, cutoff, true);
      && (runtime == canonical <==> forall start :: !Disputed(undenied, denied, MinutesIn(M5), start))
      && forall start :: Disputed(undenied, denied, MinutesIn(M5), start) <==>
           (Starts(runtime, start) != Starts(canonical, start))
  {
    AcceptedOfStrictRows(feedId, symbol, rows, cutoff);
    var undenied := MinutesWhere(feedId, symbol, rows, cutoff, false);
    var denied := MinutesWhere(feedId, symbol, rows, cutoff, true);
    DerivationsAgreeExactly(undenied, denied, MinutesIn(M5), runtime, canonical);
    forall start
      ensures Disputed(undenied, denied, MinutesIn(M5), start) <==> (Starts(runtime, start) != Starts(canonical, start))
    {
      BucketDiffersExactly(undenied, denied, MinutesIn(M5), runtime, canonical, start);
    }
  }

  // ---------------------------------------------------------------------
  // Five minutes, one of them denied

  /** The `k`-th minute of the first bucket, closed by every account except perhaps its `closed` field. */
  function StrictRow(feedId: Text, symbol: Text, k: int, closed: Flag): SourceRow {
    SourceRow(feedId, symbol, OneMinute, NoFrame, Yes, closed, Read(k * MINUTE), Blank, Blank, [],
              Some(1.0), Some(1.0), Some(1.0), Some(1.0), None)
  }

  function UndeniedRows(feedId: Text, symbol: Text, n: nat): seq<SourceRow> {
    if n == 0 then [] else UndeniedRows(feedId, symbol, n - 1) + [StrictRow(feedId, symbol, n - 1, Unset)]
  }

  function FlatMinute(k: int): Minute {
    Minute(k * MINUTE, Ohlcv(1.0, 1.0, 1.0, 1.0, None))
  }

  function FlatMinutes(n: nat): Minutes {
    if n == 0 then multiset{} else FlatMinutes(n - 1) + multiset{FlatMinute(n - 1)}
  }

  lemma StrictRowIsRead(feedId: Text, symbol: Text, k: int, closed: Flag, cutoff: int)
    requires (k + 1) * MINUTE <= cutoff
    ensures ReadCanonical(StrictRow(feedId, symbol, k, closed), feedId, symbol, cutoff) == Usable(FlatMinute(k))
    ensures Strict(feedId, symbol, StrictRow(feedId, symbol, k, closed), cutoff)
  {
    assert k * MINUTE % MINUTE == 0;
  }

  lemma OneMoreRow(feedId: Text, symbol: Text, rows: seq<SourceRow>, k: int, closed: Flag, cutoff: int, denied: bool)
    requires (k + 1) * MINUTE <= cutoff
    ensures MinutesWhere(feedId, symbol, rows + [StrictRow(feedId, symbol, k, closed)], cutoff, denied)
         == MinutesWhere(feedId, symbol, rows, cutoff, denied)
            + if closed.No? == denied then multiset{FlatMinute(k)} else multiset{}
  {
    StrictRowIsRead(feedId, symbol, k, closed, cutoff);
    assert (rows + [StrictRow(feedId, symbol, k, closed)])[..|rows|] == rows;
  }

  /** Strict rows, read as these minutes, none of them denied. */
  ghost predicate ReadAs(feedId: Text, symbol: Text, rows: seq<SourceRow>, m: Minutes, cutoff: int) {
    && AllStrict(feedId, symbol, rows, cutoff)
    && MinutesWhere(feedId, symbol, rows, cutoff, false) == m
    && MinutesWhere(feedId, symbol, rows, cutoff, true) == multiset{}
  }

  lemma OneMoreUndenied(feedId: Text, symbol: Text, rows: seq<SourceRow>, k: int, m: Minutes, cutoff: int)
    requires (k + 1) * MINUTE <= cutoff && ReadAs(feedId, symbol, rows, m, cutoff)
    ensures ReadAs(feedId, symbol, rows + [StrictRow(feedId, symbol, k, Unset)], m + multiset{FlatMinute(k)}, cutoff)
  {
    StrictRowIsRead(feedId, symbol, k, Unset, cutoff);
    OneMoreRow(feedId, symbol, rows, k, Unset, cutoff, false);
    OneMoreRow(feedId, symbol, rows, k, Unset, cutoff, true);
  }

  lemma {:induction false} UndeniedMinutes(feedId: Text, symbol: Text, n: nat, cutoff: int)
    requires n * MINUTE <= cutoff
    ensures ReadAs(feedId, symbol, UndeniedRows(feedId, symbol, n), FlatMinutes(n), cutoff)
  {
    if n > 0 {
      UndeniedMinutes(feedId, symbol, n - 1, cutoff);
      UndeniedStep(feedId, symbol, n - 1, UndeniedRows(feedId, symbol, n - 1), FlatMinutes(n - 1), cutoff);
    }
  }

  lemma UndeniedStep(feedId: Text, symbol: Text, n: nat, rows: seq<SourceRow>, m: Minutes, cutoff: int)
    requires (n + 1) * MINUTE <= cutoff && rows == UndeniedRows(feedId, symbol, n) && m == FlatMinutes(n)
    requires ReadAs(feedId, symbol, rows, m, cutoff)
    ensures ReadAs(feedId, symbol, UndeniedRows(feedId, symbol, n + 1), FlatMinutes(n + 1), cutoff)
  {
    OneMoreUndenied(feedId, symbol, rows, n, m, cutoff);
    assert UndeniedRows(feedId, symbol, n + 1) == rows + [StrictRow(feedId, symbol, n, Unset)];
    assert FlatMinutes(n + 1) == m + multiset{FlatMinute(n)};
  }

  lemma {:induction false} FlatMember(n: nat, x: Minute)
    requires x in FlatMinutes(n)
    ensures exists k :: 0 <= k < n && x == FlatMinute(k)
  {
    if x != FlatMinute(n - 1) { FlatMember(n - 1, x); }
  }

  lemma {:induction false} FlatCount(n: nat, k: int)
    ensures FlatMinutes(n)[FlatMinute(k)] == if 0 <= k < n then 1 else 0
  {
    if n > 0 { FlatCount(n - 1, k); }
  }

  lemma FlatOnce(n: nat, k: nat)
    ensures Once(FlatMinutes(n), Slot(0, k)) <==> k < n
  {
    forall x | x in FlatMinutes(n) && x.at == Slot(0, k) ensures x == FlatMinute(k) {
      FlatMember(n, x);
    }
    FlatCount(n, k);
    if k < n { assert Sole(FlatMinutes(n), FlatMinute(k)); }
  }

  /** Five strict rows, of which the last one says `closed: false`. */
  function FiveRows(feedId: Text, symbol: Text): seq<SourceRow> {
    UndeniedRows(feedId, symbol, 4) + [StrictRow(feedId, symbol, 4, No)]
  }

  lemma OneMoreDenied(feedId: Text, symbol: Text, rows: seq<SourceRow>, k: int, m: Minutes, cutoff: int)
    requires (k + 1) * MINUTE <= cutoff && ReadAs(feedId, symbol, rows, m, cutoff)
    ensures Accepted(RuntimeReader(), rows + [StrictRow(feedId, symbol, k, No)], cutoff) == m
    ensures Accepted(CanonicalReader(feedId, symbol), rows + [StrictRow(feedId, symbol, k, No)], cutoff)
         == m + multiset{FlatMinute(k)}
  {
    StrictRowIsRead(feedId, symbol, k, No, cutoff);
    OneMoreRow(feedId, symbol, rows, k, No, cutoff, false);
    OneMoreRow(feedId, symbol, rows, k, No, cutoff, true);
    AcceptedOfStrictRows(feedId, symbol, rows + [StrictRow(feedId, symbol, k, No)], cutoff);
  }

  /** From them the canonical derivation has a bar, the runtime none. */
  lemma DeniedMinuteDivides(feedId: Text, symbol: Text, runtime: seq<Bar>, canonical: seq<Bar>)
    requires IsDerivation(Accepted(RuntimeReader(), FiveRows(feedId, symbol), 5 * MINUTE), MinutesIn(M5), runtime)
    requires IsDerivation(
      Accepted(CanonicalReader(feedId, symbol), FiveRows(feedId, symbol), 5 * MINUTE), MinutesIn(M5), canonical)
    ensures Starts(canonical, 0) && !Starts(runtime, 0)
  {
    UndeniedMinutes(feedId, symbol, 4, 5 * MINUTE);
    OneMoreDenied(feedId, symbol, UndeniedRows(feedId, symbol, 4), 4, FlatMinutes(4), 5 * MINUTE);
    FourAreNotEnough();
    assert FlatMinutes(5) == FlatMinutes(4) + multiset{FlatMinute(4)};
    StartsExactly(FlatMinutes(5), MinutesIn(M5), canonical, 0);
    StartsExactly(FlatMinutes(4), MinutesIn(M5), runtime, 0);
  }

  lemma FourAreNotEnough()
    ensures Complete(FlatMinutes(5), MinutesIn(M5), 0) && !Complete(FlatMinutes(4), MinutesIn(M5), 0)
  {
    forall k: nat | k < 5 ensures Once(FlatMinutes(5), Slot(0, k)) {
      FlatOnce(5, k);
    }
    FlatOnce(4, 4);
  }
}
