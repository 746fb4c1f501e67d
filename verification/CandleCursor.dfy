// Looking for the candle that ends a theoretical trade: batches past a cursor
// instead of one candle at a time.

module CandleCursor {
  import opened Wrappers

  const MINUTE := 60_000
  const BATCH_LIMIT := 500

  /** A closed one-minute candle; `at` is its opening time, `terms` everything the exit rule looks at. */
  datatype Candle = Candle(at: int, terms: nat)

  datatype Action = FillExit | ReviewExit | Hold

  /** The exit rule for a trade's fixed fields. */
  type Rule = Candle -> Action

  /** One candle per minute, in time order. */
  ghost predicate Chronological(candles: seq<Candle>) {
    forall i, k :: 0 <= i < k < |candles| ==> candles[i].at < candles[k].at
  }

  /** Candles after `from` that have closed by `now`, in order. */
  function After(candles: seq<Candle>, from: int, now: int): seq<Candle> {
    if candles == [] then []
    else if candles[0].at > from && candles[0].at + MINUTE <= now then [candles[0]] + After(candles[1..], from, now)
    else After(candles[1..], from, now)
  }

  function Limited(candles: seq<Candle>): seq<Candle> {
    if |candles| > BATCH_LIMIT then candles[..BATCH_LIMIT] else candles
  }

  /** The one-by-one scan. */
  function FirstTrigger(rule: Rule, candles: seq<Candle>): Option<Candle> {
    if candles == [] then None
    else if !rule(candles[0]).Hold? then Some(candles[0])
    else FirstTrigger(rule, candles[1..])
  }

  // ---------------------------------------------------------------------
  // The trade

  datatype Outcome = Scanning | Filled(candle: Candle) | UnderReview(candle: Candle)

  datatype State = State(cursor: Option<int>, outcome: Outcome)

  /** Where the next pass starts: the cursor, or the time the trade was opened. */
  function From(openedAt: int, cursor: Option<int>): int {
    if cursor.Some? then cursor.value else openedAt
  }

  function Pending(openedAt: int, s: State, candles: seq<Candle>, now: int): seq<Candle> {
    After(candles, From(openedAt, s.cursor), now)
  }

  /** The candle a pass evaluates: the first of the batch that triggers, or else the last. */
  function Selected(rule: Rule, batch: seq<Candle>): Option<Candle> {
    if FirstTrigger(rule, batch).Some? then FirstTrigger(rule, batch)
    else if batch == [] then None
    else Some(batch[|batch| - 1])
  }

  function PassOver(rule: Rule, openedAt: int, s: State, candles: seq<Candle>, now: int): State {
    var candle := Selected(rule, Limited(Pending(openedAt, s, candles, now)));
    if !s.outcome.Scanning? || candle.None? then s
    else match rule(candle.value)
      case FillExit => s.(outcome := Filled(candle.value))
      case ReviewExit => s.(outcome := UnderReview(candle.value))
      case Hold => s.(cursor := Some(candle.value.at))
  }

  class OpenTrade {
    const openedAt: int
    var cursor: Option<int>
    var outcome: Outcome

    constructor (openedAt: int)
      ensures this.openedAt == openedAt && StateNow() == State(None, Scanning)
    {
      this.openedAt := openedAt;
      cursor, outcome := None, Scanning;
    }

    function StateNow(): State
      reads this
    {
      State(cursor, outcome)
    }

    /** The guarded update: a closed trade, or a cursor already there, is left alone. */
    method AdvanceCursor(candleAt: int) returns (advanced: bool)
      modifies this`cursor
      ensures advanced <==> outcome.Scanning? && (old(cursor).None? || old(cursor).value < candleAt)
      ensures advanced ==> cursor.Some? && cursor.value >= candleAt && cursor.value >= From(openedAt, old(cursor))
      ensures advanced && candleAt > From(openedAt, old(cursor)) ==> cursor == Some(candleAt)
      ensures !advanced ==> cursor == old(cursor)
    {
      if !outcome.Scanning? || (cursor.Some? && cursor.value >= candleAt) { return false; }
      var base := From(openedAt, cursor);
      cursor := Some(if base > candleAt then base else candleAt);
      return true;
    }

    /** One pass of the exit driver over what the market shows now. */
    method ProcessExit(rule: Rule, candles: seq<Candle>, now: int)
      requires Chronological(candles)
      modifies this
      ensures StateNow() == PassOver(rule, openedAt, old(StateNow()), candles, now)
    {
      if !outcome.Scanning? { return; }
      var batch := Limited(After(candles, From(openedAt, cursor), now));
      var k := 0;
      while k < |batch| && rule(batch[k]).Hold?
        invariant 0 <= k <= |batch|
        invariant FirstTrigger(rule, batch) == FirstTrigger(rule, batch[k..])
      {
        k := k + 1;
      }
      if batch == [] { return; }
      var candle := if k < |batch| then batch[k] else batch[|batch| - 1];
      assert Selected(rule, batch) == Some(candle);
      match rule(candle) {
        case FillExit => outcome := Filled(candle);
        case ReviewExit => outcome := UnderReview(candle);
        case Hold =>
          AfterMeans(candles, From(openedAt, cursor), now, candle);
          var advanced := AdvanceCursor(candle.at);
      }
    }
  }

  // ---------------------------------------------------------------------
  // What a pass sees

  lemma {:induction false} AfterMeans(candles: seq<Candle>, from: int, now: int, x: Candle)
    ensures x in After(candles, from, now) <==> x in candles && x.at > from && x.at + MINUTE <= now
  {
    if candles != [] {
      AfterMeans(candles[1..], from, now, x);
      assert x in candles <==> x == candles[0] || x in candles[1..];
    }
  }

  lemma {:induction false} AfterIsChronological(candles: seq<Candle>, from: int, now: int)
    requires Chronological(candles)
    ensures Chronological(After(candles, from, now))
  {
    if candles != [] {
      AfterIsChronological(candles[1..], from, now);
      var rest := After(candles[1..], from, now);
      forall k | 0 <= k < |rest| ensures candles[0].at < rest[k].at {
        AfterMeans(candles[1..], from, now, rest[k]);
        var i :| 0 <= i < |candles[1..]| && candles[1..][i] == rest[k];
        assert candles[i + 1] == rest[k];
      }
    }
  }

  /** Moving the start to the `k`-th pending candle leaves exactly the candles after it. */
  lemma {:induction false} MovedPast(candles: seq<Candle>, from: int, now: int, k: nat)
    requires Chronological(candles) && k < |After(candles, from, now)|
    ensures After(candles, After(candles, from, now)[k].at, now) == After(candles, from, now)[k + 1..]
  {
    var xs, rest := After(candles, from, now), candles[1..];
    AfterMeans(candles, from, now, xs[k]);
    if candles[0].at > from && candles[0].at + MINUTE <= now {
      if k == 0 {
        SameAfter(rest, from, candles[0].at, now);
      } else {
        MovedPast(rest, from, now, k - 1);
        AfterMeans(rest, from, now, After(rest, from, now)[k - 1]);
        LaterThanFirst(candles, After(rest, from, now)[k - 1]);
      }
    } else {
      MovedPast(rest, from, now, k);
      AfterMeans(rest, from, now, xs[k]);
      LaterThanFirst(candles, xs[k]);
    }
  }

  lemma LaterThanFirst(candles: seq<Candle>, x: Candle)
    requires candles != [] && Chronological(candles) && x in candles[1..]
    ensures candles[0].at < x.at
  {
  }

  /** A start before all candles is as good as any other. */
  lemma {:induction false} SameAfter(candles: seq<Candle>, a: int, b: int, now: int)
    requires forall i :: 0 <= i < |candles| ==> candles[i].at > a && candles[i].at > b
    ensures After(candles, a, now) == After(candles, b, now)
  {
    if candles != [] {
      forall i | 0 <= i < |candles[1..]| ensures candles[1..][i].at > a && candles[1..][i].at > b {
        assert candles[i + 1].at > a && candles[i + 1].at > b;
      }
      SameAfter(candles[1..], a, b, now);
    }
  }

  // ---------------------------------------------------------------------
  // Passes over a market that stands still

  lemma {:induction false} FirstTriggerIn(rule: Rule, a: seq<Candle>, b: seq<Candle>)
    ensures FirstTrigger(rule, a + b) ==
      if FirstTrigger(rule, a).Some? then FirstTrigger(rule, a) else FirstTrigger(rule, b)
  {
    if a == [] {
      assert a + b == b;
    } else {
      assert (a + b)[0] == a[0] && (a + b)[1..] == a[1..] + b;
      FirstTriggerIn(rule, a[1..], b);
    }
  }

  lemma {:induction false} TriggerTriggers(rule: Rule, candles: seq<Candle>)
    ensures FirstTrigger(rule, candles).Some? ==>
      FirstTrigger(rule, candles).value in candles && !rule(FirstTrigger(rule, candles).value).Hold?
    ensures FirstTrigger(rule, candles).None? ==> forall x :: x in candles ==> rule(x).Hold?
  {
    if candles != [] {
      TriggerTriggers(rule, candles[1..]);
      assert forall x :: x in candles <==> x == candles[0] || x in candles[1..];
    }
  }

  predicate EndedBy(outcome: Outcome, rule: Rule, x: Candle) {
    || (outcome == Filled(x) && rule(x).FillExit?)
    || (outcome == UnderReview(x) && rule(x).ReviewExit?)
  }

  /** A pass with pending candles ends the scan at the first trigger, or leaves strictly fewer of them. */
  lemma PassShrinksOrEnds(rule: Rule, openedAt: int, s: State, candles: seq<Candle>, now: int)
    requires Chronological(candles) && s.outcome.Scanning? && Pending(openedAt, s, candles, now) != []
    ensures
      var xs := Pending(openedAt, s, candles, now);
      var next := PassOver(rule, openedAt, s, candles, now);
      if next.outcome.Scanning? then
        && Pending(openedAt, next, candles, now) == xs[|Limited(xs)|..]
        && |Pending(openedAt, next, candles, now)| < |xs|
        && FirstTrigger(rule, Pending(openedAt, next, candles, now)) == FirstTrigger(rule, xs)
      else
        FirstTrigger(rule, xs).Some? && EndedBy(next.outcome, rule, FirstTrigger(rule, xs).value)
  {
    var xs := Pending(openedAt, s, candles, now);
    var batch := Limited(xs);
    assert xs == batch + xs[|batch|..];
    FirstTriggerIn(rule, batch, xs[|batch|..]);
    TriggerTriggers(rule, batch);
    if FirstTrigger(rule, batch).None? {
      assert batch[|batch| - 1] in batch;
      MovedPast(candles, From(openedAt, s.cursor), now, |batch| - 1);
    }
  }

  /** Repeated passes end exactly where the one-by-one scan does. */
  method ScanByPasses(trade: OpenTrade, rule: Rule, candles: seq<Candle>, now: int)
    requires Chronological(candles) && trade.outcome.Scanning?
    modifies trade
    ensures
      var scan := FirstTrigger(rule, old(Pending(trade.openedAt, trade.StateNow(), candles, now)));
      if scan.Some? then EndedBy(trade.outcome, rule, scan.value)
      else trade.outcome.Scanning? && Pending(trade.openedAt, trade.StateNow(), candles, now) == []
  {
    while trade.outcome.Scanning? && After(candles, From(trade.openedAt, trade.cursor), now) != []
      invariant
        var scan := FirstTrigger(rule, old(Pending(trade.openedAt, trade.StateNow(), candles, now)));
        if trade.outcome.Scanning?
        then FirstTrigger(rule, Pending(trade.openedAt, trade.StateNow(), candles, now)) == scan
        else scan.Some? && EndedBy(trade.outcome, rule, scan.value)
      decreases trade.outcome.Scanning?, |Pending(trade.openedAt, trade.StateNow(), candles, now)|
    {
      PassShrinksOrEnds(rule, trade.openedAt, trade.StateNow(), candles, now);
      trade.ProcessExit(rule, candles, now);
    }
  }

  // ---------------------------------------------------------------------
  // Passes over a market that grows

  /** What the market shows at one pass. */
  datatype View = View(candles: seq<Candle>, now: int)

  function RunPasses(rule: Rule, openedAt: int, views: seq<View>): State {
    if views == [] then State(None, Scanning)
    else
      var last := views[|views| - 1];
      PassOver(rule, openedAt, RunPasses(rule, openedAt, views[..|views| - 1]), last.candles, last.now)
  }

  /** No candle of `later` at or before the cursor was missing from `earlier`. */
  ghost predicate NoneInserted(earlier: seq<Candle>, later: seq<Candle>, cursor: Option<int>) {
    cursor.Some? ==> forall x :: x in later && x.at <= cursor.value ==> x in earlier
  }

  /** Candles may arrive between passes, but not behind the cursor. */
  ghost predicate Steady(rule: Rule, openedAt: int, views: seq<View>) {
    && (forall i :: 0 <= i < |views| ==> Chronological(views[i].candles))
    && forall i :: 0 < i < |views| ==>
         NoneInserted(views[i - 1].candles, views[i].candles, RunPasses(rule, openedAt, views[..i]).cursor)
  }

  ghost predicate HoldsUpTo(rule: Rule, candles: seq<Candle>, openedAt: int, until: int) {
    forall x :: x in candles && openedAt < x.at <= until ==> rule(x).Hold?
  }

  lemma {:induction false} FirstTriggerIs(rule: Rule, candles: seq<Candle>, x: Candle)
    requires Chronological(candles) && x in candles && !rule(x).Hold?
    requires forall y :: y in candles && y.at < x.at ==> rule(y).Hold?
    ensures FirstTrigger(rule, candles) == Some(x)
  {
    if candles[0] != x {
      assert x in candles[1..];
      LaterThanFirst(candles, x);
      FirstTriggerIs(rule, candles[1..], x);
    }
  }

  lemma BeforeBatchEnd(candles: seq<Candle>, from: int, now: int, x: Candle, k: nat)
    requires Chronological(candles) && k < |After(candles, from, now)|
    requires x in candles && from < x.at <= After(candles, from, now)[k].at
    ensures x in After(candles, from, now)[..k + 1]
  {
    var xs := After(candles, from, now);
    AfterMeans(candles, from, now, xs[k]);
    AfterMeans(candles, from, now, x);
    AfterIsChronological(candles, from, now);
    var i :| 0 <= i < |xs| && xs[i] == x;
    assert xs[..k + 1][i] == x;
  }

  /** One more pass, when no candle up to the cursor triggers. */
  lemma PassKeepsScan(rule: Rule, openedAt: int, s: State, candles: seq<Candle>, now: int)
    requires Chronological(candles) && s.outcome.Scanning?
    requires s.cursor.Some? ==> openedAt <= s.cursor.value
    requires HoldsUpTo(rule, candles, openedAt, From(openedAt, s.cursor))
    ensures
      var next := PassOver(rule, openedAt, s, candles, now);
      if next.outcome.Scanning? then
        && (next.cursor.Some? ==> openedAt <= next.cursor.value)
        && HoldsUpTo(rule, candles, openedAt, From(openedAt, next.cursor))
      else
        var scan := FirstTrigger(rule, After(candles, openedAt, now));
        scan.Some? && EndedBy(next.outcome, rule, scan.value)
  {
    var from := From(openedAt, s.cursor);
    var xs := After(candles, from, now);
    var batch := Limited(xs);
    TriggerTriggers(rule, batch);
    if FirstTrigger(rule, batch).Some? {
      var x := FirstTrigger(rule, batch).value;
      AfterMeans(candles, from, now, x);
      AfterMeans(candles, openedAt, now, x);
      AfterIsChronological(candles, openedAt, now);
      forall y | y in After(candles, openedAt, now) && y.at < x.at ensures rule(y).Hold? {
        AfterMeans(candles, openedAt, now, y);
        AfterMeans(candles, from, now, y);
        if y.at > from { EarlierHolds(rule, candles, from, now, x, y); }
      }
      FirstTriggerIs(rule, After(candles, openedAt, now), x);
    } else if batch != [] {
      var k := |batch| - 1;
      AfterMeans(candles, from, now, xs[k]);
      forall x | x in candles && openedAt < x.at <= xs[k].at ensures rule(x).Hold? {
        if x.at > from { BeforeBatchEnd(candles, from, now, x, k); }
      }
    }
  }

  lemma EarlierHolds(rule: Rule, candles: seq<Candle>, from: int, now: int, x: Candle, y: Candle)
    requires Chronological(candles) && FirstTrigger(rule, Limited(After(candles, from, now))) == Some(x)
    requires y in After(candles, from, now) && y.at < x.at
    ensures rule(y).Hold?
  {
    var xs := After(candles, from, now);
    AfterIsChronological(candles, from, now);
    var batch := Limited(xs);
    TriggerTriggers(rule, batch);
    var i :| 0 <= i < |xs| && xs[i] == y;
    var k :| 0 <= k < |batch| && batch[k] == x;
    assert i < k;
    EarlierThanTrigger(rule, batch, i, k);
  }

  lemma {:induction false} EarlierThanTrigger(rule: Rule, candles: seq<Candle>, i: nat, k: nat)
    requires Chronological(candles) && i < k < |candles| && FirstTrigger(rule, candles) == Some(candles[k])
    ensures rule(candles[i]).Hold?
  {
    assert candles[0].at < candles[k].at;
    if i > 0 {
      EarlierThanTrigger(rule, candles[1..], i - 1, k - 1);
    }
  }

  /**
   * However the market grows between passes, as long as nothing is inserted behind the cursor: a pass that ends
   * the scan ends it at the first triggering candle of a one-by-one scan over the market it sees, and while no
   * pass has, nothing up to the cursor triggers.
   */
  lemma {:induction false} RunEndsAtFirstTrigger(rule: Rule, openedAt: int, views: seq<View>)
    requires Steady(rule, openedAt, views) && views != []
    requires RunPasses(rule, openedAt, views[..|views| - 1]).outcome.Scanning?
    ensures
      var s, last := RunPasses(rule, openedAt, views), views[|views| - 1];
      if s.outcome.Scanning? then
        && (s.cursor.Some? ==> openedAt <= s.cursor.value)
        && HoldsUpTo(rule, last.candles, openedAt, From(openedAt, s.cursor))
      else
        var scan := FirstTrigger(rule, After(last.candles, openedAt, last.now));
        scan.Some? && EndedBy(s.outcome, rule, scan.value)
  {
    var n := |views| - 1;
    var before := views[..n];
    var s := RunPasses(rule, openedAt, before);
    if n > 0 {
      assert before[..n - 1] == views[..n - 1];
      forall i | 0 < i < n
        ensures NoneInserted(before[i - 1].candles, before[i].candles, RunPasses(rule, openedAt, before[..i]).cursor)
      {
        assert before[..i] == views[..i];
      }
      ScanningBefore(rule, openedAt, before);
      RunEndsAtFirstTrigger(rule, openedAt, before);
      assert NoneInserted(views[n - 1].candles, views[n].candles, s.cursor);
    }
    assert HoldsUpTo(rule, views[n].candles, openedAt, From(openedAt, s.cursor));
    PassKeepsScan(rule, openedAt, s, views[n].candles, views[n].now);
  }

  lemma ScanningBefore(rule: Rule, openedAt: int, views: seq<View>)
    requires views != [] && RunPasses(rule, openedAt, views).outcome.Scanning?
    ensures RunPasses(rule, openedAt, views[..|views| - 1]).outcome.Scanning?
  {
  }
}
