// Reading provider rows as closed minutes, filling the buckets, and emitting bars.

module MarketResampler {
  import opened Wrappers
  import opened JsText
  import opened Permutations
  import opened Candles
  import opened WilderIndicators
  import opened BarDerivation

  /** A timestamp field: missing or empty, present but not a date, or a date in milliseconds. */
  datatype Stamp = Blank | Unreadable | Read(ms: int)

  datatype Flag = Unset | No | Yes

  /** The `timeframe` and `interval` fields in canonical form. */
  datatype Frame = NoFrame | OneMinute | OtherFrame

  datatype SourceRow = SourceRow(
    feedId: Text,
    symbol: Text,
    timeframe: Frame,
    interval: Frame,
    isClosed: Flag,
    closed: Flag,
    timestampUtc: Stamp,
    timestampParis: Stamp,
    timestamp: Stamp,
    closeFields: seq<Stamp>,
    open: Option<real>,
    high: Option<real>,
    low: Option<real>,
    close: Option<real>,
    volume: Option<real>)

  datatype Reason = WrongFeed | WrongSymbol | WrongTimeframe | OpenRow | InvalidRow | AfterCutoff

  datatype Reading = Ignored(reason: Reason) | Usable(minute: Minute)

  function FirstGiven(stamps: seq<Stamp>): Stamp {
    if stamps == [] then Blank else if !stamps[0].Blank? then stamps[0] else FirstGiven(stamps[1..])
  }

  function TimeOf(stamp: Stamp): Option<int> {
    if stamp.Read? then Some(stamp.ms) else None
  }

  function ExplicitClose(row: SourceRow, at: Option<int>): Option<int> {
    var given := FirstGiven(row.closeFields);
    if !given.Blank? then TimeOf(given) else if at.Some? then Some(at.value + MINUTE) else None
  }

  predicate ValidOhlc(row: SourceRow) {
    row.open.Some? && row.high.Some? && row.low.Some? && row.close.Some?
  }

  /** The common end of both classifications: the row is a whole closed minute, known by the cutoff. */
  function ReadMinute(row: SourceRow, at: Option<int>, cutoff: int): Reading {
    var close := ExplicitClose(row, at);
    if at.None? || close.None? || !AtMinute(at.value) || close.value != at.value + MINUTE || !ValidOhlc(row) then
      Ignored(InvalidRow)
    else if close.value > cutoff then Ignored(AfterCutoff)
    else
      Usable(Minute(at.value, Ohlcv(row.open.value, row.high.value, row.low.value, row.close.value, row.volume)))
  }

  function ReadRuntime(row: SourceRow, cutoff: int): Reading {
    var frame := if row.timeframe.NoFrame? then row.interval else row.timeframe;
    if !frame.OneMinute? then Ignored(WrongTimeframe)
    else if row.isClosed.No? || row.closed.No? then Ignored(OpenRow)
    else ReadMinute(row, TimeOf(FirstGiven([row.timestampUtc, row.timestampParis, row.timestamp])), cutoff)
  }

  function ReadCanonical(row: SourceRow, feedId: Text, symbol: Text, cutoff: int): Reading {
    if row.feedId != feedId then Ignored(WrongFeed)
    else if row.symbol != symbol then Ignored(WrongSymbol)
    else if !row.timeframe.OneMinute? then Ignored(WrongTimeframe)
    else if !row.isClosed.Yes? then Ignored(OpenRow)
    else ReadMinute(row, TimeOf(row.timestampUtc), cutoff)
  }

  /** How a row is read at a cutoff; each derivation has its own reader. */
  type Reader = (SourceRow, int) -> Reading

  function RuntimeReader(): Reader {
    ReadRuntime
  }

  function CanonicalReader(feedId: Text, symbol: Text): Reader {
    (row, cutoff) => ReadCanonical(row, feedId, symbol, cutoff)
  }

  // ---------------------------------------------------------------------
  // Intake: counting rows and collecting minutes

  /** Rows accepted, and rows ignored for each reason. */
  datatype Tally = Tally(accepted: nat, ignored: multiset<Reason>)

  const NO_ROWS := Tally(0, multiset{})

  function Counted(t: Tally, reading: Reading): Tally {
    if reading.Usable? then t.(accepted := t.accepted + 1)
    else t.(ignored := t.ignored + multiset{reading.reason})
  }

  function Total(t: Tally): nat {
    t.accepted + |t.ignored|
  }

  function TallyOf(read: Reader, rows: seq<SourceRow>, cutoff: int): Tally {
    if rows == [] then NO_ROWS
    else Counted(TallyOf(read, rows[..|rows| - 1], cutoff), read(rows[|rows| - 1], cutoff))
  }

  function MinutesOf(reading: Reading): Minutes {
    if reading.Usable? then multiset{reading.minute} else multiset{}
  }

  /** The accepted minutes of some rows. */
  function Accepted(read: Reader, rows: seq<SourceRow>, cutoff: int): Minutes {
    if rows == [] then multiset{}
    else Accepted(read, rows[..|rows| - 1], cutoff) + MinutesOf(read(rows[|rows| - 1], cutoff))
  }

  /** Every row is counted once: accepted, or ignored for exactly one reason. */
  lemma {:induction false} RowsArePartitioned(read: Reader, rows: seq<SourceRow>, cutoff: int)
    ensures Total(TallyOf(read, rows, cutoff)) == |rows|
    ensures TallyOf(read, rows, cutoff).accepted == |Accepted(read, rows, cutoff)|
  {
    if rows != [] {
      RowsArePartitioned(read, rows[..|rows| - 1], cutoff);
    }
  }

  lemma CountsCommute(t: Tally, x: Reading, y: Reading)
    ensures Counted(Counted(t, x), y) == Counted(Counted(t, y), x)
  {
  }

  lemma {:induction false} CountTakenOut(read: Reader, rows: seq<SourceRow>, cutoff: int, i: nat)
    requires i < |rows|
    ensures TallyOf(read, rows, cutoff) == Counted(TallyOf(read, Without(rows, i), cutoff), read(rows[i], cutoff))
    decreases |rows|
  {
    var n := |rows| - 1;
    if i == n {
      assert Without(rows, i) == rows[..n];
    } else {
      WithoutLast(rows, i);
      CountTakenOut(read, rows[..n], cutoff, i);
      CountsCommute(TallyOf(read, Without(rows[..n], i), cutoff), read(rows[i], cutoff), read(rows[n], cutoff));
    }
  }

  lemma SumsCommute<T>(a: multiset<T>, b: multiset<T>, c: multiset<T>)
    ensures a + b + c == a + c + b
  {
  }

  lemma {:induction false} MinuteTakenOut(read: Reader, rows: seq<SourceRow>, cutoff: int, i: nat)
    requires i < |rows|
    ensures Accepted(read, rows, cutoff) == Accepted(read, Without(rows, i), cutoff) + MinutesOf(read(rows[i], cutoff))
    decreases |rows|
  {
    var n := |rows| - 1;
    if i == n {
      assert Without(rows, i) == rows[..n];
    } else {
      MinuteTakenOut(read, rows[..n], cutoff, i);
      var rest := Accepted(read, Without(rows[..n], i), cutoff);
      var x, y := MinutesOf(read(rows[i], cutoff)), MinutesOf(read(rows[n], cutoff));
      assert Accepted(read, Without(rows, i), cutoff) == rest + y by { WithoutLast(rows, i); }
      SumsCommute(rest, x, y);
    }
  }

  /** Counters and accepted minutes do not depend on the order of the rows. */
  lemma {:induction false} OrderDoesNotMatter(read: Reader, a: seq<SourceRow>, b: seq<SourceRow>, cutoff: int)
    requires multiset(a) == multiset(b)
    ensures TallyOf(read, a, cutoff) == TallyOf(read, b, cutoff)
    ensures Accepted(read, a, cutoff) == Accepted(read, b, cutoff)
    decreases |a|
  {
    if a == [] {
      assert |b| == |multiset(b)| == 0;
    } else {
      var i := LastIsThere(a, b);
      OrderDoesNotMatter(read, a[..|a| - 1], Without(b, i), cutoff);
      CountTakenOut(read, b, cutoff, i);
      MinuteTakenOut(read, b, cutoff, i);
    }
  }

  /** A later cutoff only adds minutes that close after the earlier one. */
  ghost predicate Causal(read: Reader) {
    forall row, early: int, late: int :: early <= late ==>
      (read(row, early).Usable? <==>
        read(row, late).Usable? && read(row, late).minute.at + MINUTE <= early)
      && (read(row, early).Usable? ==> read(row, early) == read(row, late))
  }

  lemma ReadersAreCausal(feedId: Text, symbol: Text)
    ensures Causal(RuntimeReader()) && Causal(CanonicalReader(feedId, symbol))
  {
  }

  lemma {:induction false} AcceptedIsCut(read: Reader, rows: seq<SourceRow>, early: int, late: int)
    requires Causal(read) && early <= late
    ensures CutAt(Accepted(read, rows, early), Accepted(read, rows, late), early)
  {
    if rows != [] {
      AcceptedIsCut(read, rows[..|rows| - 1], early, late);
    }
  }

  // ---------------------------------------------------------------------
  // Buckets

  /** The bucket that starts at `b` holds exactly the minutes of `m` that belong to it. */
  ghost predicate Holds(bucket: seq<Minute>, m: Minutes, w: nat, b: int)
    requires w > 0
  {
    forall x: Minute :: multiset(bucket)[x] == if BucketOf(x.at, w) == b then m[x] else 0
  }

  ghost predicate FiledIn(bucket: seq<Minute>, m: Minutes, w: nat, b: int)
    requires w > 0
  {
    bucket != [] && Holds(bucket, m, w, b)
  }

  ghost predicate Filed(buckets: map<int, seq<Minute>>, m: Minutes, w: nat)
    requires w > 0
  {
    && (forall b :: b in buckets ==> FiledIn(buckets[b], m, w, b))
    && (forall x :: x in m ==> BucketOf(x.at, w) in buckets)
  }

  ghost predicate OnTheMinute(m: Minutes) {
    forall x :: x in m ==> AtMinute(x.at)
  }

  ghost predicate ClosedBy(m: Minutes, cutoff: int) {
    forall x :: x in m ==> x.at + MINUTE <= cutoff
  }

  lemma {:induction false} AcceptedAreClosedMinutes(read: Reader, rows: seq<SourceRow>, cutoff: int)
    requires forall row :: read(row, cutoff).Usable? ==>
      AtMinute(read(row, cutoff).minute.at) && read(row, cutoff).minute.at + MINUTE <= cutoff
    ensures OnTheMinute(Accepted(read, rows, cutoff)) && ClosedBy(Accepted(read, rows, cutoff), cutoff)
  {
    if rows != [] {
      AcceptedAreClosedMinutes(read, rows[..|rows| - 1], cutoff);
    }
  }

  function BucketAt(buckets: map<int, seq<Minute>>, b: int): seq<Minute> {
    if b in buckets then buckets[b] else []
  }

  lemma HeldBefore(buckets: map<int, seq<Minute>>, m: Minutes, w: nat, b: int)
    requires w > 0 && Filed(buckets, m, w)
    ensures Holds(BucketAt(buckets, b), m, w, b)
  {
  }

  lemma HoldsOneMore(bucket: seq<Minute>, m: Minutes, w: nat, b: int, x: Minute)
    requires w > 0 && Holds(bucket, m, w, b)
    ensures Holds(if BucketOf(x.at, w) == b then bucket + [x] else bucket, m + multiset{x}, w, b)
  {
  }

  lemma FileOne(buckets: map<int, seq<Minute>>, m: Minutes, w: nat, x: Minute)
    requires w > 0 && Filed(buckets, m, w)
    ensures
      var b := BucketOf(x.at, w);
      Filed(buckets[b := BucketAt(buckets, b) + [x]], m + multiset{x}, w)
  {
    var b := BucketOf(x.at, w);
    var grown, more := buckets[b := BucketAt(buckets, b) + [x]], m + multiset{x};
    forall c | c in grown ensures FiledIn(grown[c], more, w, c) {
      HeldBefore(buckets, m, w, c);
      HoldsOneMore(BucketAt(buckets, c), m, w, c, x);
      if c != b { assert FiledIn(buckets[c], m, w, c); }
    }
  }

  lemma NextRow(read: Reader, rows: seq<SourceRow>, cutoff: int, i: nat)
    requires i < |rows|
    ensures TallyOf(read, rows[..i + 1], cutoff) == Counted(TallyOf(read, rows[..i], cutoff), read(rows[i], cutoff))
    ensures read(rows[i], cutoff).Ignored? ==>
      Accepted(read, rows[..i + 1], cutoff) == Accepted(read, rows[..i], cutoff)
    ensures read(rows[i], cutoff).Usable? ==>
      Accepted(read, rows[..i + 1], cutoff)
        == Accepted(read, rows[..i], cutoff) + multiset{read(rows[i], cutoff).minute}
  {
    assert rows[..i + 1][..i] == rows[..i];
  }

  method FillBuckets(read: Reader, rows: seq<SourceRow>, cutoff: int, w: nat)
    returns (tally: Tally, buckets: map<int, seq<Minute>>)
    requires w > 0
    ensures tally == TallyOf(read, rows, cutoff)
    ensures Filed(buckets, Accepted(read, rows, cutoff), w)
  {
    tally, buckets := NO_ROWS, map[];
    for i := 0 to |rows|
      invariant tally == TallyOf(read, rows[..i], cutoff)
      invariant Filed(buckets, Accepted(read, rows[..i], cutoff), w)
    {
      var reading := read(rows[i], cutoff);
      NextRow(read, rows, cutoff, i);
      tally := Counted(tally, reading);
      if reading.Usable? {
        FileOne(buckets, Accepted(read, rows[..i], cutoff), w, reading.minute);
        var bucketStart := BucketOf(reading.minute.at, w);
        buckets := buckets[bucketStart := BucketAt(buckets, bucketStart) + [reading.minute]];
      }
    }
    assert rows[..|rows|] == rows;
  }

  // ---------------------------------------------------------------------
  // One bucket

  /** Some minute of the bucket occurs more than once. */
  ghost predicate Clash(m: Minutes, w: nat, b: int)
    requires w > 0
  {
    exists x :: x in m && BucketOf(x.at, w) == b && !Sole(m, x)
  }

  ghost predicate Distinct(bucket: seq<Minute>, n: nat)
    requires n <= |bucket|
  {
    forall i, k :: 0 <= i < k < n ==> bucket[i].at != bucket[k].at
  }

  lemma CountOfDistinct(bucket: seq<Minute>, i: nat)
    requires i < |bucket| && Distinct(bucket, |bucket|)
    ensures multiset(bucket)[bucket[i]] == 1
  {
    assert bucket == bucket[..i] + ([bucket[i]] + bucket[i + 1..]);
    assert multiset(bucket) == multiset(bucket[..i]) + (multiset{bucket[i]} + multiset(bucket[i + 1..]));
    assert bucket[i] !in bucket[..i] && bucket[i] !in bucket[i + 1..];
  }

  lemma DistinctBucketHasNoClash(bucket: seq<Minute>, m: Minutes, w: nat, b: int)
    requires w > 0 && FiledIn(bucket, m, w, b) && Distinct(bucket, |bucket|)
    ensures !Clash(m, w, b)
  {
    forall x | x in m && BucketOf(x.at, w) == b ensures Sole(m, x) {
      assert multiset(bucket)[x] == m[x];
      assert x in multiset(bucket);
      var i :| 0 <= i < |bucket| && bucket[i] == x;
      CountOfDistinct(bucket, i);
      forall y | y in m && y.at == x.at ensures y == x {
        assert multiset(bucket)[y] == m[y];
        assert y in multiset(bucket);
      }
    }
  }

  lemma RepeatedMinuteClashes(bucket: seq<Minute>, m: Minutes, w: nat, b: int, i: nat, k: nat)
    requires w > 0 && FiledIn(bucket, m, w, b)
    requires i < k < |bucket| && bucket[i].at == bucket[k].at
    ensures Clash(m, w, b)
  {
    var x, y := bucket[i], bucket[k];
    assert x in multiset(bucket) && y in multiset(bucket);
    assert multiset(bucket)[x] > 0 && multiset(bucket)[y] > 0;
    assert x in m && y in m && BucketOf(x.at, w) == b;
    if x == y {
      assert bucket == bucket[..k] + bucket[k..];
      assert multiset(bucket) == multiset(bucket[..k]) + multiset(bucket[k..]);
      assert x == bucket[..k][i] && x == bucket[k..][0];
      assert x in multiset(bucket[..k]) && x in multiset(bucket[k..]);
    }
    assert !Sole(m, x);
  }

  lemma SlotOfMinute(at: int, w: nat) returns (k: nat)
    requires w > 0 && AtMinute(at)
    ensures k < w && at == Slot(BucketOf(at, w), k)
  {
    var b := BucketOf(at, w);
    var q := at / MINUTE;
    assert at == q * MINUTE;
    assert b == at / Width(w) * w * MINUTE;
    var d := q - at / Width(w) * w;
    assert at - b == d * MINUTE;
    assert 0 <= at - b < w * MINUTE;
    k := d;
  }

  lemma SlotIsInBucket(b: int, w: nat, k: nat)
    requires Aligned(b, w) && k < w
    ensures BucketOf(Slot(b, k), w) == b
  {
    assert 0 <= k * MINUTE < Width(w);
    var q := b / Width(w);
    assert b == q * Width(w);
    DivMod(Slot(b, k), q, k * MINUTE, Width(w));
  }

  lemma BucketIsAligned(at: int, w: nat)
    requires w > 0
    ensures Aligned(BucketOf(at, w), w)
  {
    DivMod(BucketOf(at, w), at / Width(w), 0, Width(w));
  }

  ghost function Slots(b: int, w: nat): set<int> {
    set k | 0 <= k < w :: Slot(b, k)
  }

  lemma {:induction false} SlotCount(b: int, w: nat)
    ensures |Slots(b, w)| == w
  {
    if w > 0 {
      SlotCount(b, w - 1);
      assert Slots(b, w) == Slots(b, w - 1) + {Slot(b, w - 1)};
    }
  }

  ghost predicate Indexed(byTimestamp: map<int, Minute>, bucket: seq<Minute>, n: nat)
    requires n <= |bucket|
  {
    && (forall i :: 0 <= i < n ==> bucket[i].at in byTimestamp)
    && (forall t :: t in byTimestamp ==> byTimestamp[t].at == t && byTimestamp[t] in bucket)
  }

  method IndexByTimestamp(bucket: seq<Minute>) returns (byTimestamp: map<int, Minute>, duplicate: bool)
    ensures Indexed(byTimestamp, bucket, |bucket|)
    ensures duplicate <==> !Distinct(bucket, |bucket|)
  {
    byTimestamp, duplicate := map[], false;
    for i := 0 to |bucket|
      invariant Indexed(byTimestamp, bucket, i)
      invariant forall t :: t in byTimestamp ==> exists k :: 0 <= k < i && bucket[k].at == t
      invariant duplicate <==> !Distinct(bucket, i)
    {
      if bucket[i].at in byTimestamp { duplicate := true; }
      byTimestamp := byTimestamp[bucket[i].at := bucket[i]];
    }
  }

  datatype Verdict = Duplicate | Incomplete | Whole(candles: seq<Ohlcv>)

  /** A bucket without repetition whose every slot is filled holds those slots and nothing else. */
  lemma FilledBucket(byTimestamp: map<int, Minute>, bucket: seq<Minute>, m: Minutes, w: nat, b: int)
    requires w > 0 && Aligned(b, w) && FiledIn(bucket, m, w, b) && OnTheMinute(m)
    requires Indexed(byTimestamp, bucket, |bucket|)
    requires forall k :: 0 <= k < w ==> Slot(b, k) in byTimestamp
    ensures |byTimestamp| == w
  {
    forall t | t in byTimestamp ensures t in Slots(b, w) {
      var x := byTimestamp[t];
      assert multiset(bucket)[x] > 0;
      var k := SlotOfMinute(x.at, w);
    }
    assert byTimestamp.Keys == Slots(b, w);
    SlotCount(b, w);
    assert |byTimestamp| == |byTimestamp.Keys|;
  }

  /** Without repetition, a slot is filled exactly when its minute occurs once. */
  lemma SlotFilled(byTimestamp: map<int, Minute>, bucket: seq<Minute>, m: Minutes, w: nat, b: int, k: nat)
    requires w > 0 && Aligned(b, w) && FiledIn(bucket, m, w, b) && k < w
    requires Indexed(byTimestamp, bucket, |bucket|) && Distinct(bucket, |bucket|)
    ensures Slot(b, k) in byTimestamp <==> Once(m, Slot(b, k))
    ensures Slot(b, k) in byTimestamp ==> MinuteAt(m, Slot(b, k)) == byTimestamp[Slot(b, k)]
  {
    SlotIsInBucket(b, w, k);
    DistinctBucketHasNoClash(bucket, m, w, b);
    if Slot(b, k) in byTimestamp {
      var x := byTimestamp[Slot(b, k)];
      assert multiset(bucket)[x] > 0;
      assert Sole(m, x);
    }
    if Once(m, Slot(b, k)) {
      var x := MinuteAt(m, Slot(b, k));
      assert multiset(bucket)[x] == m[x];
      assert x in bucket;
    }
  }

  lemma ClashIsNotComplete(m: Minutes, w: nat, b: int)
    requires w > 0 && OnTheMinute(m) && Clash(m, w, b)
    ensures !Complete(m, w, b)
  {
    var x :| x in m && BucketOf(x.at, w) == b && !Sole(m, x);
    var k := SlotOfMinute(x.at, w);
    assert Once(m, Slot(b, k)) ==> Sole(m, x);
  }

  lemma Verdicts(byTimestamp: map<int, Minute>, duplicate: bool, bucket: seq<Minute>, m: Minutes, w: nat, b: int)
    requires w > 0 && Aligned(b, w) && FiledIn(bucket, m, w, b) && OnTheMinute(m)
    requires Indexed(byTimestamp, bucket, |bucket|) && (duplicate <==> !Distinct(bucket, |bucket|))
    ensures duplicate <==> Clash(m, w, b)
    ensures duplicate ==> !Complete(m, w, b)
    ensures !duplicate ==> (Complete(m, w, b) <==> forall k :: 0 <= k < w ==> Slot(b, k) in byTimestamp)
    ensures Complete(m, w, b) ==> forall k :: 0 <= k < w ==>
      Slot(b, k) in byTimestamp && CandlesIn(m, w, b)[k] == byTimestamp[Slot(b, k)].candle
  {
    if duplicate {
      var i, k :| 0 <= i < k < |bucket| && bucket[i].at == bucket[k].at;
      RepeatedMinuteClashes(bucket, m, w, b, i, k);
      ClashIsNotComplete(m, w, b);
    } else {
      DistinctBucketHasNoClash(bucket, m, w, b);
      forall k | 0 <= k < w
        ensures Slot(b, k) in byTimestamp <==> Once(m, Slot(b, k))
        ensures Slot(b, k) in byTimestamp ==> MinuteAt(m, Slot(b, k)) == byTimestamp[Slot(b, k)]
      {
        SlotFilled(byTimestamp, bucket, m, w, b, k);
      }
    }
  }

  lemma BucketClosed(m: Minutes, w: nat, b: int, cutoff: int)
    requires w > 0 && ClosedBy(m, cutoff) && Complete(m, w, b)
    ensures b + Width(w) <= cutoff
  {
    assert Once(m, Slot(b, w - 1));
    assert Sole(m, MinuteAt(m, Slot(b, w - 1)));
  }

  method ExamineBucket(bucket: seq<Minute>, b: int, w: nat, cutoff: int, ghost m: Minutes) returns (verdict: Verdict)
    requires w > 0 && Aligned(b, w) && FiledIn(bucket, m, w, b) && OnTheMinute(m) && ClosedBy(m, cutoff)
    ensures verdict.Duplicate? <==> Clash(m, w, b)
    ensures verdict.Whole? <==> Complete(m, w, b)
    ensures verdict.Whole? ==> verdict.candles == CandlesIn(m, w, b)
  {
    var byTimestamp, duplicate := IndexByTimestamp(bucket);
    Verdicts(byTimestamp, duplicate, bucket, m, w, b);
    if duplicate { return Duplicate; }
    var filled := forall k :: 0 <= k < w ==> Slot(b, k) in byTimestamp;
    if filled { FilledBucket(byTimestamp, bucket, m, w, b); }
    var late := b + Width(w) > cutoff
      || exists k :: 0 <= k < w && Slot(b, k) in byTimestamp && byTimestamp[Slot(b, k)].at + MINUTE > cutoff;
    if filled {
      BucketClosed(m, w, b, cutoff);
      forall k | 0 <= k < w ensures byTimestamp[Slot(b, k)].at + MINUTE <= cutoff {
        assert (k + 1) * MINUTE <= w * MINUTE;
      }
    }
    if |byTimestamp| != w || !filled || late { return Incomplete; }
    return Whole(seq(w, k requires 0 <= k < w => byTimestamp[Slot(b, k)].candle));
  }

  // ---------------------------------------------------------------------
  // All buckets, in time order

  predicate Increasing(xs: seq<int>) {
    forall i, k :: 0 <= i < k < |xs| ==> xs[i] < xs[k]
  }

  function SetOf(xs: seq<int>): set<int> {
    set x | x in xs
  }

  lemma SetOfInserted(xs: seq<int>, i: nat, x: int)
    requires i <= |xs|
    ensures SetOf(xs[..i] + [x] + xs[i..]) == SetOf(xs) + {x}
  {
  }

  method InsertSorted(xs: seq<int>, x: int) returns (more: seq<int>)
    requires Increasing(xs) && x !in xs
    ensures Increasing(more) && SetOf(more) == SetOf(xs) + {x} && |more| == |xs| + 1
  {
    var i := 0;
    while i < |xs| && xs[i] < x
      invariant 0 <= i <= |xs|
      invariant forall k :: 0 <= k < i ==> xs[k] < x
    {
      i := i + 1;
    }
    more := xs[..i] + [x] + xs[i..];
    SetOfInserted(xs, i, x);
  }

  method SortedKeys(keys: set<int>) returns (sorted: seq<int>)
    ensures Increasing(sorted) && SetOf(sorted) == keys && |sorted| == |keys|
  {
    sorted := [];
    var rest := keys;
    while rest != {}
      invariant rest <= keys && Increasing(sorted)
      invariant SetOf(sorted) == keys - rest && |sorted| == |keys| - |rest|
      decreases |rest|
    {
      assert exists y :: y in rest by {
        assert (forall y :: y !in rest) ==> rest == {};
      }
      var x :| x in rest;
      assert x !in SetOf(sorted);
      sorted := InsertSorted(sorted, x);
      rest := rest - {x};
    }
  }

  ghost function ClashingAmong(m: Minutes, w: nat, starts: set<int>): set<int>
    requires w > 0
  {
    set b | b in starts && Clash(m, w, b)
  }

  datatype Counters = Counters(complete: nat, incomplete: nat, duplicate: nat)

  /** The bars derived from the buckets examined so far. */
  ghost predicate EmittedSoFar(m: Minutes, w: nat, starts: seq<int>, i: nat, bars: seq<Bar>, c: Counters)
    requires w > 0 && i <= |starts|
  {
    && BarDerivation.Ascending(bars)
    && (forall k :: 0 <= k < |bars| ==> GoodBar(m, w, bars[k]) && bars[k].start in starts[..i])
    && (forall k :: 0 <= k < i && Complete(m, w, starts[k]) ==> Starts(bars, starts[k]))
    && c.complete == |bars|
    && c.complete + c.incomplete + c.duplicate == i
    && c.duplicate == |ClashingAmong(m, w, SetOf(starts[..i]))|
  }

  lemma OneMoreStart(m: Minutes, w: nat, starts: seq<int>, i: nat)
    requires w > 0 && i < |starts| && Increasing(starts)
    ensures
      |ClashingAmong(m, w, SetOf(starts[..i + 1]))|
      == |ClashingAmong(m, w, SetOf(starts[..i]))| + if Clash(m, w, starts[i]) then 1 else 0
  {
    var before, after := SetOf(starts[..i]), SetOf(starts[..i + 1]);
    assert starts[..i + 1] == starts[..i] + [starts[i]];
    assert starts[i] !in before;
    assert after == before + {starts[i]};
    if Clash(m, w, starts[i]) {
      assert ClashingAmong(m, w, after) == ClashingAmong(m, w, before) + {starts[i]};
    } else {
      assert ClashingAmong(m, w, after) == ClashingAmong(m, w, before);
    }
  }

  lemma StillStarts(bars: seq<Bar>, bar: Bar, start: int)
    ensures Starts(bars + [bar], start) <==> Starts(bars, start) || bar.start == start
  {
    var more := bars + [bar];
    if Starts(bars, start) {
      var n :| 0 <= n < |bars| && bars[n].start == start;
      assert more[n].start == start;
    }
    assert more[|bars|] == bar;
  }

  lemma EarlierStart(starts: seq<int>, i: nat, start: int)
    requires Increasing(starts) && i < |starts| && start in starts[..i]
    ensures start < starts[i] && start in starts[..i + 1]
  {
  }

  lemma EmitWhole(m: Minutes, w: nat, starts: seq<int>, i: nat, bars: seq<Bar>, c: Counters)
    requires w > 0 && i < |starts| && Increasing(starts)
    requires EmittedSoFar(m, w, starts, i, bars, c)
    requires Aligned(starts[i], w) && Complete(m, w, starts[i]) && !Clash(m, w, starts[i])
    ensures
      var bar := Bar(starts[i], Aggregate(CandlesIn(m, w, starts[i])), None, None);
      EmittedSoFar(m, w, starts, i + 1, bars + [bar], c.(complete := c.complete + 1))
  {
    var bar := Bar(starts[i], Aggregate(CandlesIn(m, w, starts[i])), None, None);
    OneMoreStart(m, w, starts, i);
    GoodSoFar(m, w, starts, i, bars, bar);
    StartsSoFar(m, w, starts, i, bars, bar);
  }

  lemma GoodSoFar(m: Minutes, w: nat, starts: seq<int>, i: nat, bars: seq<Bar>, bar: Bar)
    requires w > 0 && i < |starts| && Increasing(starts) && bar.start == starts[i] && GoodBar(m, w, bar)
    requires BarDerivation.Ascending(bars)
    requires forall k :: 0 <= k < |bars| ==> GoodBar(m, w, bars[k]) && bars[k].start in starts[..i]
    ensures BarDerivation.Ascending(bars + [bar])
    ensures forall k :: 0 <= k <= |bars| ==>
      GoodBar(m, w, (bars + [bar])[k]) && (bars + [bar])[k].start in starts[..i + 1]
  {
    forall k | 0 <= k < |bars| ensures bars[k].start < starts[i] && bars[k].start in starts[..i + 1] {
      EarlierStart(starts, i, bars[k].start);
    }
    assert starts[..i + 1][i] == starts[i];
  }

  lemma StartsSoFar(m: Minutes, w: nat, starts: seq<int>, i: nat, bars: seq<Bar>, bar: Bar)
    requires i < |starts| && bar.start == starts[i]
    requires forall k :: 0 <= k < i && Complete(m, w, starts[k]) ==> Starts(bars, starts[k])
    ensures forall k :: 0 <= k < i + 1 && Complete(m, w, starts[k]) ==> Starts(bars + [bar], starts[k])
  {
    forall k | 0 <= k < i + 1 && Complete(m, w, starts[k]) ensures Starts(bars + [bar], starts[k]) {
      StillStarts(bars, bar, starts[k]);
    }
  }

  lemma SkipBucket(m: Minutes, w: nat, starts: seq<int>, i: nat, bars: seq<Bar>, c: Counters)
    requires w > 0 && i < |starts| && Increasing(starts)
    requires EmittedSoFar(m, w, starts, i, bars, c) && !Complete(m, w, starts[i])
    ensures EmittedSoFar(m, w, starts, i + 1, bars,
      if Clash(m, w, starts[i]) then c.(duplicate := c.duplicate + 1) else c.(incomplete := c.incomplete + 1))
  {
    OneMoreStart(m, w, starts, i);
    assert starts[..i + 1] == starts[..i] + [starts[i]];
  }

  /** Every bucket the minutes touch. */
  function BucketsOf(m: Minutes, w: nat): set<int>
    requires w > 0
  {
    set x | x in m :: BucketOf(x.at, w)
  }

  /** Each touched bucket is counted once: emitted, rejected for a repeated minute, or incomplete. */
  ghost predicate CountsBuckets(c: Counters, m: Minutes, w: nat, bars: seq<Bar>)
    requires w > 0
  {
    && c.complete == |bars|
    && c.duplicate == |ClashingAmong(m, w, BucketsOf(m, w))|
    && c.complete + c.incomplete + c.duplicate == |BucketsOf(m, w)|
  }

  lemma FiledKeys(buckets: map<int, seq<Minute>>, m: Minutes, w: nat)
    requires w > 0 && Filed(buckets, m, w)
    ensures buckets.Keys == BucketsOf(m, w)
    ensures forall b :: b in buckets ==> Aligned(b, w)
  {
    forall b | b in buckets ensures b in BucketsOf(m, w) && Aligned(b, w) {
      assert FiledIn(buckets[b], m, w, b);
      var x := buckets[b][0];
      assert multiset(buckets[b])[x] > 0;
      BucketIsAligned(x.at, w);
    }
    forall b | b in BucketsOf(m, w) ensures b in buckets {
      var x :| x in m && BucketOf(x.at, w) == b;
    }
    assert forall b :: b in buckets.Keys <==> b in BucketsOf(m, w);
  }

  lemma AllEmitted(m: Minutes, w: nat, starts: seq<int>, bars: seq<Bar>, c: Counters)
    requires w > 0 && EmittedSoFar(m, w, starts, |starts|, bars, c)
    requires SetOf(starts) == BucketsOf(m, w) && |starts| == |BucketsOf(m, w)|
    ensures IsDerivation(m, w, bars) && CountsBuckets(c, m, w, bars)
  {
    assert starts[..|starts|] == starts;
    forall start | Aligned(start, w) && Complete(m, w, start) ensures Starts(bars, start) {
      SlotIsInBucket(start, w, 0);
      var x := MinuteAt(m, Slot(start, 0));
      assert x in m && BucketOf(x.at, w) in BucketsOf(m, w);
      assert start in SetOf(starts);
      var k :| 0 <= k < |starts| && starts[k] == start;
    }
  }

  method EmitBars(buckets: map<int, seq<Minute>>, w: nat, cutoff: int, ghost m: Minutes)
    returns (bars: seq<Bar>, counters: Counters)
    requires w > 0 && Filed(buckets, m, w) && OnTheMinute(m) && ClosedBy(m, cutoff)
    ensures IsDerivation(m, w, bars) && CountsBuckets(counters, m, w, bars)
  {
    FiledKeys(buckets, m, w);
    var starts := SortedKeys(buckets.Keys);
    bars, counters := [], Counters(0, 0, 0);
    assert ClashingAmong(m, w, SetOf(starts[..0])) == {};
    for i := 0 to |starts|
      invariant EmittedSoFar(m, w, starts, i, bars, counters)
    {
      var b := starts[i];
      assert b in SetOf(starts);
      assert FiledIn(buckets[b], m, w, b);
      var verdict := ExamineBucket(buckets[b], b, w, cutoff, m);
      if verdict.Whole? {
        EmitWhole(m, w, starts, i, bars, counters);
        bars := bars + [Bar(b, Aggregate(verdict.candles), None, None)];
        counters := counters.(complete := counters.complete + 1);
      } else {
        SkipBucket(m, w, starts, i, bars, counters);
        if verdict.Duplicate? {
          counters := counters.(duplicate := counters.duplicate + 1);
        } else {
          counters := counters.(incomplete := counters.incomplete + 1);
        }
      }
    }
    AllEmitted(m, w, starts, bars, counters);
  }
}
