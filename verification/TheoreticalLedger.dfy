// The theoretical life of an order intent: entry filled or expired, exits,
// reviews, over the intent, trade and event tables. Each method is one transaction.

module TheoreticalLedger {
  import opened Wrappers
  import opened TB = TradeBook

  /** Intents of either kind, and the trades named after them. */
  type Id = nat

  datatype IntentStatus = Pending | Acknowledged | Expired | Withdrawn

  /** A portfolio intent may be linked to a legacy one; `released` once administratively cancelled. */
  datatype PortfolioIntent = PortfolioIntent(status: IntentStatus, linked: Option<Id>, released: bool)

  datatype TheoreticalTrade = TheoreticalTrade(
    lots: Trade, entry: real, order: Option<Id>, portfolio: Option<Id>, theoretical: bool, underReview: bool)

  datatype EventKind = EntryFilled | EntryExpired | TargetHit | StopHit | ReviewRequired

  datatype Event = Event(kind: EventKind, order: Option<Id>, portfolio: Option<Id>, trade: Option<Id>, at: int)

  datatype Tables = Tables(
    legacy: map<Id, IntentStatus>,
    portfolio: map<Id, PortfolioIntent>,
    trades: map<Id, TheoreticalTrade>,
    events: seq<Event>,
    resolved: set<Id>)

  /** The engine's verdict on an entry; it names the portfolio intent, if there is one, but no link. */
  datatype EntryResult = EntryResult(order: Id, portfolio: Option<Id>, quantity: real, price: real, at: int)

  datatype ExitResult = ExitResult(trade: Id, quantity: real, price: real, at: int, target: bool)

  datatype Answer = Done | Idempotent | NoOpenTrade | UnderReview | NotFound | Refused

  // ---------------------------------------------------------------------
  // Events

  function TerminalKind(k: EventKind): bool {
    k.EntryFilled? || k.EntryExpired?
  }

  /** What the idempotency key is made of. */
  function KeyOf(e: Event): (EventKind, Option<Id>, int) {
    (e.kind, if e.portfolio.Some? then e.portfolio else if e.order.Some? then e.order else e.trade, e.at)
  }

  predicate OnFile(events: seq<Event>, e: Event) {
    exists i :: 0 <= i < |events| && KeyOf(events[i]) == KeyOf(e)
  }

  /** A known key only refreshes the row's payload. */
  function WithEvent(events: seq<Event>, e: Event): seq<Event> {
    if OnFile(events, e) then events else events + [e]
  }

  /** The columns `latestTheoreticalEntryTerminal` is asked about. */
  predicate Matches(e: Event, order: Option<Id>, portfolio: Option<Id>) {
    TerminalKind(e.kind) && ((order.Some? && e.order == order) || (portfolio.Some? && e.portfolio == portfolio))
  }

  predicate HasTerminal(events: seq<Event>, order: Option<Id>, portfolio: Option<Id>) {
    exists i :: 0 <= i < |events| && Matches(events[i], order, portfolio)
  }

  /** `legacyOrderIntentId(result)`: a result for a portfolio intent carries no legacy id. */
  function LegacyIdOfResult(r: EntryResult): Option<Id> {
    if r.portfolio.Some? then None else Some(r.order)
  }

  /** `legacyOrderIntentId(intent)`: the locked row knows its link. */
  function LegacyIdOfIntent(t: Tables, r: EntryResult): Option<Id> {
    if r.portfolio.None? then Some(r.order)
    else if r.portfolio.value in t.portfolio then t.portfolio[r.portfolio.value].linked else None
  }

  /** The id a trade is named after. */
  function IntentId(r: EntryResult): Id {
    if r.portfolio.Some? then r.portfolio.value else r.order
  }

  predicate Lockable(t: Tables, r: EntryResult) {
    if r.portfolio.Some? then r.portfolio.value in t.portfolio && !t.portfolio[r.portfolio.value].released
    else r.order in t.legacy
  }

  predicate AlreadyTerminal(t: Tables, r: EntryResult) {
    HasTerminal(t.events, LegacyIdOfResult(r), r.portfolio)
  }

  // ---------------------------------------------------------------------
  // Entry

  function EntryEvent(t: Tables, r: EntryResult, kind: EventKind, trade: Option<Id>): Event {
    Event(kind, LegacyIdOfIntent(t, r), r.portfolio, trade, r.at)
  }

  /** The upsert: an existing row is opened again and keeps its closed lots. */
  function UpsertedTrade(t: Tables, r: EntryResult): TheoreticalTrade {
    var id := IntentId(r);
    if id in t.trades then
      var trade := t.trades[id];
      trade.(lots := trade.lots.(status := Open, open := r.quantity, avgEntry := r.price), theoretical := true)
    else
      TheoreticalTrade(TB.Trade(Open, r.quantity, 0.0, r.price, None, None, 0), r.quantity,
                       LegacyIdOfIntent(t, r), r.portfolio, true, false)
  }

  /** Column checks and the resolution trigger let the rows in. */
  predicate Insertable(t: Tables, r: EntryResult) {
    r.quantity > 0.0 && r.price > 0.0 && IntentId(r) !in t.resolved
  }

  function FilledTables(t: Tables, r: EntryResult): Tables {
    var id := IntentId(r);
    t.(trades := t.trades[id := UpsertedTrade(t, r)],
       legacy := if r.portfolio.None? && id in t.legacy then t.legacy[id := Acknowledged] else t.legacy,
       events := WithEvent(t.events, EntryEvent(t, r, EntryFilled, Some(id))))
  }

  function EntryFillAnswer(t: Tables, r: EntryResult): Answer {
    if !Lockable(t, r) then NotFound
    else if AlreadyTerminal(t, r) then Idempotent
    else if !Insertable(t, r) then Refused
    else Done
  }

  function AfterEntryFill(t: Tables, r: EntryResult): Tables {
    if EntryFillAnswer(t, r).Done? then FilledTables(t, r) else t
  }

  function ExpiredTables(t: Tables, r: EntryResult): Tables {
    var id := IntentId(r);
    t.(
      legacy := if r.portfolio.None? && id in t.legacy && (t.legacy[id].Pending? || t.legacy[id].Acknowledged?)
                then t.legacy[id := Expired] else t.legacy,
      portfolio := if r.portfolio.Some? && id in t.portfolio
                     && (t.portfolio[id].status.Pending? || t.portfolio[id].status.Acknowledged?)
                   then t.portfolio[id := t.portfolio[id].(status := Expired)] else t.portfolio,
      events := WithEvent(t.events, EntryEvent(t, r, EntryExpired, None)))
  }

  function ExpiryAnswer(t: Tables, r: EntryResult): Answer {
    if !Lockable(t, r) then NotFound
    else if AlreadyTerminal(t, r) then Idempotent
    else if r.portfolio.Some? && IntentId(r) in t.resolved then Refused
    else Done
  }

  function AfterExpiry(t: Tables, r: EntryResult): Tables {
    if ExpiryAnswer(t, r).Done? then ExpiredTables(t, r) else t
  }

  // ---------------------------------------------------------------------
  // Exit and review

  predicate OpenTheoretical(trade: TheoreticalTrade) {
    trade.theoretical && Live(trade.lots.status) && trade.lots.open > 0.0
  }

  /** A resolved trade ends in an error on either path: nothing to close, or the trigger's refusal. */
  function ExitAnswer(t: Tables, r: ExitResult): Answer {
    if r.trade !in t.trades then NotFound
    else if r.trade in t.resolved then Refused
    else if !OpenTheoretical(t.trades[r.trade]) then NoOpenTrade
    else if t.trades[r.trade].underReview then UnderReview
    else if Min(t.trades[r.trade].lots.open, r.quantity) <= 0.0 || r.price <= 0.0 then Refused
    else Done
  }

  function TradeEvent(trade: TheoreticalTrade, id: Id, kind: EventKind, at: int): Event {
    Event(kind, trade.order, trade.portfolio, Some(id), at)
  }

  function AfterExit(t: Tables, r: ExitResult): Tables {
    if !ExitAnswer(t, r).Done? then t
    else
      var trade := t.trades[r.trade];
      var quantity := Min(trade.lots.open, r.quantity);
      t.(trades := t.trades[r.trade := trade.(lots := Exited(trade.lots, quantity, r.price, r.at))],
         events := WithEvent(t.events, TradeEvent(trade, r.trade, if r.target then TargetHit else StopHit, r.at)))
  }

  function ReviewAnswer(t: Tables, trade: Id): Answer {
    if trade !in t.trades then NotFound
    else if trade in t.resolved then Refused
    else if !OpenTheoretical(t.trades[trade]) then NoOpenTrade
    else Done
  }

  function AfterReview(t: Tables, trade: Id, at: int): Tables {
    if !ReviewAnswer(t, trade).Done? then t
    else
      t.(trades := t.trades[trade := t.trades[trade].(underReview := true)],
         events := WithEvent(t.events, TradeEvent(t.trades[trade], trade, ReviewRequired, at)))
  }

  // ---------------------------------------------------------------------
  // The transactions

  class Repository {
    var legacy: map<Id, IntentStatus>
    var portfolio: map<Id, PortfolioIntent>
    var trades: map<Id, TheoreticalTrade>
    var events: seq<Event>
    var resolved: set<Id>

    constructor (t: Tables)
      ensures Now() == t
    {
      legacy, portfolio, trades, events, resolved := t.legacy, t.portfolio, t.trades, t.events, t.resolved;
    }

    function Now(): Tables
      reads this
    {
      Tables(legacy, portfolio, trades, events, resolved)
    }

    method LatestEntryTerminal(order: Option<Id>, portfolioId: Option<Id>) returns (found: bool)
      ensures found <==> HasTerminal(events, order, portfolioId)
    {
      var i := 0;
      while i < |events| && !Matches(events[i], order, portfolioId)
        invariant 0 <= i <= |events|
        invariant forall k :: 0 <= k < i ==> !Matches(events[k], order, portfolioId)
      {
        i := i + 1;
      }
      return i < |events|;
    }

    method InsertEvent(e: Event)
      modifies this`events
      ensures events == WithEvent(old(events), e)
    {
      var i := 0;
      while i < |events| && KeyOf(events[i]) != KeyOf(e)
        invariant 0 <= i <= |events|
        invariant forall k :: 0 <= k < i ==> KeyOf(events[k]) != KeyOf(e)
      {
        i := i + 1;
      }
      if i == |events| { events := events + [e]; }
    }

    method RecordEntryFill(r: EntryResult) returns (answer: Answer)
      modifies this
      ensures answer == EntryFillAnswer(old(Now()), r)
      ensures Now() == AfterEntryFill(old(Now()), r)
    {
      if !Lockable(Now(), r) { return NotFound; }
      var existing := LatestEntryTerminal(LegacyIdOfResult(r), r.portfolio);
      if existing { return Idempotent; }
      if !Insertable(Now(), r) { return Refused; }
      var event := EntryEvent(Now(), r, EntryFilled, Some(IntentId(r)));
      trades := trades[IntentId(r) := UpsertedTrade(Now(), r)];
      if r.portfolio.None? { legacy := legacy[r.order := Acknowledged]; }
      InsertEvent(event);
      return Done;
    }

    method RecordEntryExpired(r: EntryResult) returns (answer: Answer)
      modifies this
      ensures answer == ExpiryAnswer(old(Now()), r)
      ensures Now() == AfterExpiry(old(Now()), r)
    {
      if !Lockable(Now(), r) { return NotFound; }
      var existing := LatestEntryTerminal(LegacyIdOfResult(r), r.portfolio);
      if existing { return Idempotent; }
      if r.portfolio.Some? && r.portfolio.value in resolved { return Refused; }
      var event := EntryEvent(Now(), r, EntryExpired, None);
      if r.portfolio.Some? {
        var row := portfolio[r.portfolio.value];
        if row.status.Pending? || row.status.Acknowledged? {
          portfolio := portfolio[r.portfolio.value := row.(status := Expired)];
        }
      } else if legacy[r.order].Pending? || legacy[r.order].Acknowledged? {
        legacy := legacy[r.order := Expired];
      }
      InsertEvent(event);
      return Done;
    }

    method RecordExitFill(r: ExitResult) returns (answer: Answer)
      modifies this
      ensures answer == ExitAnswer(old(Now()), r)
      ensures Now() == AfterExit(old(Now()), r)
    {
      if r.trade !in trades { return NotFound; }
      if r.trade in resolved { return Refused; }
      var trade := trades[r.trade];
      if !OpenTheoretical(trade) { return NoOpenTrade; }
      if trade.underReview { return UnderReview; }
      var quantity := Min(trade.lots.open, r.quantity);
      if quantity <= 0.0 || r.price <= 0.0 { return Refused; }
      trades := trades[r.trade := trade.(lots := Exited(trade.lots, quantity, r.price, r.at))];
      InsertEvent(TradeEvent(trade, r.trade, if r.target then TargetHit else StopHit, r.at));
      return Done;
    }

    method RecordReviewRequired(id: Id, at: int) returns (answer: Answer)
      modifies this
      ensures answer == ReviewAnswer(old(Now()), id)
      ensures Now() == AfterReview(old(Now()), id, at)
    {
      if id !in trades { return NotFound; }
      if id in resolved { return Refused; }
      var trade := trades[id];
      if !OpenTheoretical(trade) { return NoOpenTrade; }
      InsertEvent(TradeEvent(trade, id, ReviewRequired, at));
      trades := trades[id := trade.(underReview := true)];
      return Done;
    }
  }

  // ---------------------------------------------------------------------
  // Runs

  datatype Command =
    | Enter(entry: EntryResult)
    | Expire(entry: EntryResult)
    | Exit(exit: ExitResult)
    | Review(trade: Id, at: int)
    | Resolve(trade: Id)
    | Release(intent: Id)

  function Step(t: Tables, c: Command): Tables {
    match c
    case Enter(r) => AfterEntryFill(t, r)
    case Expire(r) => AfterExpiry(t, r)
    case Exit(r) => AfterExit(t, r)
    case Review(id, at) => AfterReview(t, id, at)
    case Resolve(id) => t.(resolved := t.resolved + {id})
    case Release(id) =>
      if id in t.portfolio then t.(portfolio := t.portfolio[id := t.portfolio[id].(released := true)]) else t
  }

  function Run(t: Tables, commands: seq<Command>): Tables {
    if commands == [] then t
    else Step(Run(t, commands[..|commands| - 1]), commands[|commands| - 1])
  }

  /** The intent an entry event is about: the portfolio intent, or else the legacy one. */
  function IdentityOf(e: Event): Option<Id> {
    if e.portfolio.Some? then e.portfolio else e.order
  }

  ghost predicate FilledFirst(events: seq<Event>, trade: Id) {
    exists i :: 0 <= i < |events| && events[i].kind.EntryFilled? && events[i].trade == Some(trade)
  }

  predicate LotsKept(trade: TheoreticalTrade) {
    && trade.theoretical
    && trade.lots.open >= 0.0 && trade.lots.open + trade.lots.closed == trade.entry
    && (trade.lots.status.Closed? <==> trade.lots.open == 0.0)
    && (trade.lots.open > 0.0 ==> Live(trade.lots.status))
  }

  /** A terminal event names an intent on file, and a fill the trade named after that intent. */
  predicate WellNamed(t: Tables, e: Event) {
    && (e.portfolio.Some? ==> e.portfolio.value in t.portfolio && e.order == t.portfolio[e.portfolio.value].linked)
    && (e.portfolio.None? ==> e.order.Some? && e.order.value in t.legacy)
    && (e.kind.EntryFilled? ==> e.trade == IdentityOf(e))
  }

  /** Legacy and portfolio intents have different ids, and links lead to legacy intents. */
  ghost predicate IdsApart(t: Tables) {
    && t.legacy.Keys !! t.portfolio.Keys
    && forall p :: p in t.portfolio && t.portfolio[p].linked.Some? ==> t.portfolio[p].linked.value in t.legacy
  }

  ghost predicate OnePerIdentity(events: seq<Event>) {
    forall i, k :: 0 <= i < k < |events| && TerminalKind(events[i].kind) && TerminalKind(events[k].kind) ==>
      IdentityOf(events[i]) != IdentityOf(events[k])
  }

  ghost predicate Sound(t: Tables) {
    && IdsApart(t)
    && (forall id :: id in t.trades ==> LotsKept(t.trades[id]) && FilledFirst(t.events, id))
    && (forall i :: 0 <= i < |t.events| && TerminalKind(t.events[i].kind) ==> WellNamed(t, t.events[i]))
    && OnePerIdentity(t.events)
  }

  ghost predicate IdentityTerminal(events: seq<Event>, id: Id) {
    exists i :: 0 <= i < |events| && TerminalKind(events[i].kind) && IdentityOf(events[i]) == Some(id)
  }

  /** An intent with a terminal event of its own is recognised as such. */
  lemma TerminalIsRecognised(t: Tables, r: EntryResult)
    requires Sound(t) && Lockable(t, r) && IdentityTerminal(t.events, IntentId(r))
    ensures AlreadyTerminal(t, r)
  {
  }

  lemma TradeMeansTerminal(t: Tables, id: Id)
    requires Sound(t) && id in t.trades
    ensures IdentityTerminal(t.events, id)
  {
  }

  /** So a result that is acted on is about an intent with no terminal event and no trade. */
  lemma NewEntryIsFirst(t: Tables, r: EntryResult)
    requires Sound(t) && Lockable(t, r) && !AlreadyTerminal(t, r)
    ensures !IdentityTerminal(t.events, IntentId(r)) && IntentId(r) !in t.trades
  {
    if IdentityTerminal(t.events, IntentId(r)) {
      TerminalIsRecognised(t, r);
    }
    if IntentId(r) in t.trades {
      TradeMeansTerminal(t, IntentId(r));
    }
  }

  lemma FilledStays(events: seq<Event>, e: Event, trade: Id)
    requires FilledFirst(events, trade)
    ensures FilledFirst(WithEvent(events, e), trade)
  {
    var i :| 0 <= i < |events| && events[i].kind.EntryFilled? && events[i].trade == Some(trade);
    assert WithEvent(events, e)[i] == events[i];
  }

  lemma NewTerminalFits(t: Tables, e: Event)
    requires Sound(t) && TerminalKind(e.kind) && WellNamed(t, e) && IdentityOf(e).Some?
    requires !IdentityTerminal(t.events, IdentityOf(e).value)
    ensures WithEvent(t.events, e) == t.events + [e]
    ensures OnePerIdentity(t.events + [e])
  {
  }

  lemma FillIsSound(t: Tables, r: EntryResult)
    requires Sound(t)
    ensures Sound(AfterEntryFill(t, r))
  {
    if EntryFillAnswer(t, r).Done? {
      var id, e, next := IntentId(r), EntryEvent(t, r, EntryFilled, Some(IntentId(r))), AfterEntryFill(t, r);
      NewEntryIsFirst(t, r);
      NewTerminalFits(t, e);
      assert next.events[|t.events|] == e;
      forall trade | trade in next.trades ensures FilledFirst(next.events, trade) {
        if trade != id { FilledStays(t.events, e, trade); }
      }
      forall i | 0 <= i < |next.events| && TerminalKind(next.events[i].kind) ensures WellNamed(next, next.events[i]) {
        if i < |t.events| { assert WellNamed(t, t.events[i]); }
      }
    }
  }

  lemma ExpiryIsSound(t: Tables, r: EntryResult)
    requires Sound(t)
    ensures Sound(AfterExpiry(t, r))
  {
    if ExpiryAnswer(t, r).Done? {
      var e, next := EntryEvent(t, r, EntryExpired, None), AfterExpiry(t, r);
      NewEntryIsFirst(t, r);
      NewTerminalFits(t, e);
      forall trade | trade in next.trades ensures FilledFirst(next.events, trade) {
        FilledStays(t.events, e, trade);
      }
      forall i | 0 <= i < |next.events| && TerminalKind(next.events[i].kind) ensures WellNamed(next, next.events[i]) {
        if i < |t.events| { assert WellNamed(t, t.events[i]); }
      }
    }
  }

  lemma OtherEventKeepsTerminals(t: Tables, id: Id, trade: TheoreticalTrade, e: Event)
    requires Sound(t) && id in t.trades && !TerminalKind(e.kind)
    ensures
      var next := t.(trades := t.trades[id := trade], events := WithEvent(t.events, e));
      forall i :: 0 <= i < |next.events| && TerminalKind(next.events[i].kind) ==>
        i < |t.events| && next.events[i] == t.events[i] && WellNamed(next, next.events[i])
  {
    var next := t.(trades := t.trades[id := trade], events := WithEvent(t.events, e));
    forall i | 0 <= i < |next.events| && TerminalKind(next.events[i].kind)
      ensures i < |t.events| && WellNamed(next, next.events[i])
    {
      assert WellNamed(t, t.events[i]);
    }
  }

  /** One trade's row replaced and one event that is not about the entry: what exits and reviews do. */
  lemma OtherEventIsSound(t: Tables, id: Id, trade: TheoreticalTrade, e: Event)
    requires Sound(t) && id in t.trades && LotsKept(trade) && !TerminalKind(e.kind)
    ensures Sound(t.(trades := t.trades[id := trade], events := WithEvent(t.events, e)))
  {
    var next := t.(trades := t.trades[id := trade], events := WithEvent(t.events, e));
    forall other | other in next.trades ensures FilledFirst(next.events, other) {
      FilledStays(t.events, e, other);
    }
    OtherEventKeepsTerminals(t, id, trade, e);
  }

  lemma ExitKeepsLots(trade: TheoreticalTrade, quantity: real, price: real, at: int)
    requires LotsKept(trade) && 0.0 < quantity <= trade.lots.open
    ensures LotsKept(trade.(lots := Exited(trade.lots, quantity, price, at)))
  {
  }

  lemma StepIsSound(t: Tables, c: Command)
    requires Sound(t)
    ensures Sound(Step(t, c))
  {
    match c
    case Enter(r) => FillIsSound(t, r);
    case Expire(r) => ExpiryIsSound(t, r);
    case Exit(r) =>
      if ExitAnswer(t, r).Done? {
        var trade := t.trades[r.trade];
        var quantity := Min(trade.lots.open, r.quantity);
        ExitKeepsLots(trade, quantity, r.price, r.at);
        OtherEventIsSound(t, r.trade, trade.(lots := Exited(trade.lots, quantity, r.price, r.at)),
          TradeEvent(trade, r.trade, if r.target then TargetHit else StopHit, r.at));
      }
    case Review(id, at) =>
      if ReviewAnswer(t, id).Done? {
        OtherEventIsSound(t, id, t.trades[id].(underReview := true), TradeEvent(t.trades[id], id, ReviewRequired, at));
      }
    case Resolve(id) =>
    case Release(id) =>
      forall i | 0 <= i < |t.events| && TerminalKind(t.events[i].kind) ensures WellNamed(Step(t, c), t.events[i]) {
        assert WellNamed(t, t.events[i]);
      }
  }

  /** Over every run: one terminal event per intent, trades only after their fill, lots conserved. */
  lemma {:induction false} RunIsSound(t: Tables, commands: seq<Command>)
    requires Sound(t)
    ensures Sound(Run(t, commands))
  {
    if commands != [] {
      var before := commands[..|commands| - 1];
      RunIsSound(t, before);
      StepIsSound(Run(t, before), commands[|commands| - 1]);
    }
  }

  /** What has ended stays ended: a closed trade is never opened again and one under review never fills. */
  ghost predicate Ended(before: TheoreticalTrade, after: TheoreticalTrade) {
    && (before.lots.status.Closed? || before.underReview ==> after.lots == before.lots)
    && (before.underReview ==> after.underReview)
    && after.entry == before.entry && after.lots.open <= before.lots.open
  }

  lemma StepKeepsEnded(t: Tables, c: Command, id: Id)
    requires Sound(t) && id in t.trades
    ensures id in Step(t, c).trades && Ended(t.trades[id], Step(t, c).trades[id])
    ensures id in t.resolved ==> Step(t, c).trades[id] == t.trades[id] && id in Step(t, c).resolved
  {
    if c.Enter? && EntryFillAnswer(t, c.entry).Done? {
      NewEntryIsFirst(t, c.entry);
    }
  }

  lemma {:induction false} RunKeepsEnded(t: Tables, commands: seq<Command>, id: Id)
    requires Sound(t) && id in t.trades
    ensures id in Run(t, commands).trades && Ended(t.trades[id], Run(t, commands).trades[id])
    ensures id in t.resolved ==> Run(t, commands).trades[id] == t.trades[id] && id in Run(t, commands).resolved
  {
    if commands != [] {
      var before := commands[..|commands| - 1];
      RunKeepsEnded(t, before, id);
      RunIsSound(t, before);
      StepKeepsEnded(Run(t, before), commands[|commands| - 1], id);
    }
  }

  // ---------------------------------------------------------------------
  // Terminal events by intent

  /** The event bears the intent's id in one of its two columns. */
  predicate Concerns(e: Event, id: Id) {
    TerminalKind(e.kind) && (e.order == Some(id) || e.portfolio == Some(id))
  }

  predicate Linked(t: Tables, id: Id) {
    exists p :: p in t.portfolio && t.portfolio[p].linked == Some(id)
  }

  /** The same intents, with the same links. */
  ghost predicate SameLinks(before: Tables, after: Tables) {
    && after.portfolio.Keys == before.portfolio.Keys && after.legacy.Keys == before.legacy.Keys
    && forall p :: p in before.portfolio ==> after.portfolio[p].linked == before.portfolio[p].linked
  }

  lemma StepKeepsLinks(t: Tables, c: Command)
    ensures SameLinks(t, Step(t, c))
  {
  }

  lemma {:induction false} LinksAreFixed(t: Tables, commands: seq<Command>)
    ensures SameLinks(t, Run(t, commands))
  {
    if commands != [] {
      var before := commands[..|commands| - 1];
      LinksAreFixed(t, before);
      StepKeepsLinks(Run(t, before), commands[|commands| - 1]);
    }
  }

  /** An intent no portfolio intent is linked to never has two terminal events, neither twice nor filled and expired. */
  lemma OneTerminalPerIntent(t: Tables, commands: seq<Command>, id: Id, i: nat, k: nat)
    requires Sound(t) && !Linked(t, id)
    requires i < |Run(t, commands).events| && k < |Run(t, commands).events|
    requires Concerns(Run(t, commands).events[i], id) && Concerns(Run(t, commands).events[k], id)
    ensures i == k
  {
    RunIsSound(t, commands);
    LinksAreFixed(t, commands);
    var now := Run(t, commands);
    assert WellNamed(now, now.events[i]) && WellNamed(now, now.events[k]);
    assert IdentityOf(now.events[i]) == Some(id) && IdentityOf(now.events[k]) == Some(id);
  }

  ghost predicate TwoTerminals(events: seq<Event>, id: Id) {
    exists i, k :: 0 <= i < k < |events| && Concerns(events[i], id) && Concerns(events[k], id)
  }

  ghost predicate SomeTerminal(events: seq<Event>, id: Id) {
    exists i :: 0 <= i < |events| && Concerns(events[i], id)
  }

  /** Filling or expiring an entry. */
  predicate IsEntry(c: Command) {
    c.Enter? || c.Expire?
  }

  predicate ActedOn(t: Tables, c: Command)
    requires IsEntry(c)
  {
    if c.Enter? then EntryFillAnswer(t, c.entry).Done? else ExpiryAnswer(t, c.entry).Done?
  }

  /** An entry acted on adds one terminal event, which bears the legacy id of the intent's own row. */
  lemma EntryAppends(t: Tables, c: Command) returns (e: Event)
    requires Sound(t) && IsEntry(c) && ActedOn(t, c)
    ensures Step(t, c).events == t.events + [e]
    ensures TerminalKind(e.kind) && e.order == LegacyIdOfIntent(t, c.entry) && e.portfolio == c.entry.portfolio
    ensures !IdentityTerminal(t.events, IntentId(c.entry))
  {
    var r := c.entry;
    e := if c.Enter? then EntryEvent(t, r, EntryFilled, Some(IntentId(r))) else EntryEvent(t, r, EntryExpired, None);
    NewEntryIsFirst(t, r);
    NewTerminalFits(t, e);
  }

  /**
   * A portfolio intent's entry is not checked against its linked legacy intent, because the engine's result does not
   * carry the link: filling or expiring it gives the legacy intent a second terminal event exactly when it had one.
   */
  lemma LinkedIntentTwiceTerminal(t: Tables, c: Command, legacy: Id)
    requires Sound(t) && IsEntry(c) && ActedOn(t, c) && c.entry.portfolio.Some?
    requires t.portfolio[c.entry.portfolio.value].linked == Some(legacy)
    ensures TwoTerminals(Step(t, c).events, legacy) <==> SomeTerminal(t.events, legacy)
  {
    var e := EntryAppends(t, c);
    LastTerminal(t.events, e, legacy);
  }

  lemma LastTerminal(events: seq<Event>, e: Event, id: Id)
    requires Concerns(e, id)
    ensures TwoTerminals(events + [e], id) <==> SomeTerminal(events, id)
  {
    var more := events + [e];
    assert more[|events|] == e;
    if SomeTerminal(events, id) {
      var i :| 0 <= i < |events| && Concerns(events[i], id);
      assert more[i] == events[i];
    }
    if TwoTerminals(more, id) {
      var i, k :| 0 <= i < k < |more| && Concerns(more[i], id) && Concerns(more[k], id);
      assert more[i] == events[i];
    }
  }

  lemma RunOfTwo(t: Tables, c: Command, d: Command)
    ensures Run(t, [c, d]) == Step(Step(t, c), d)
  {
    assert [c, d][..1] == [c] && [c][..0] == [];
    assert Run(t, [c]) == Step(Run(t, []), c);
  }

  /** An entry of a legacy intent does not stand in the way of a portfolio intent's. */
  lemma StillActedOn(t: Tables, first: Command, second: Command)
    requires Sound(t) && IsEntry(first) && IsEntry(second) && ActedOn(t, first) && ActedOn(t, second)
    requires first.entry.portfolio.None? && second.entry.portfolio.Some?
    ensures ActedOn(Step(t, first), second)
  {
    var e := EntryAppends(t, first);
    var one := Step(t, first);
    assert !AlreadyTerminal(one, second.entry) by {
      assert forall i :: 0 <= i < |t.events| ==> one.events[i] == t.events[i];
    }
  }

  /** A legacy intent filled or expired, then a portfolio intent linked to it: the legacy intent has ended twice. */
  lemma TerminatedThroughLink(t: Tables, first: Command, second: Command)
    requires Sound(t) && IsEntry(first) && IsEntry(second) && ActedOn(t, first) && ActedOn(t, second)
    requires first.entry.portfolio.None? && second.entry.portfolio.Some?
    requires t.portfolio[second.entry.portfolio.value].linked == Some(first.entry.order)
    ensures TwoTerminals(Run(t, [first, second]).events, first.entry.order)
  {
    var e := EntryAppends(t, first);
    var one := Step(t, first);
    assert one.events[|t.events|] == e;
    StepIsSound(t, first);
    StillActedOn(t, first, second);
    LinkedIntentTwiceTerminal(one, second, first.entry.order);
    RunOfTwo(t, first, second);
  }

  /** Such runs exist: legacy intent 1 filled, and portfolio intent 2, linked to it, filled or expired after that. */
  lemma LinkedIntentFilledTwice(a: EntryResult, b: EntryResult)
    requires a == EntryResult(1, None, 1.0, 100.0, 0) && b == EntryResult(2, Some(2), 1.0, 100.0, 60_000)
    ensures
      var t := Tables(map[1 := Pending], map[2 := PortfolioIntent(Pending, Some(1), false)], map[], [], {});
      && Sound(t)
      && TwoTerminals(Run(t, [Enter(a), Enter(b)]).events, 1) && TwoTerminals(Run(t, [Enter(a), Expire(b)]).events, 1)
  {
    var t := Tables(map[1 := Pending], map[2 := PortfolioIntent(Pending, Some(1), false)], map[], [], {});
    TerminatedThroughLink(t, Enter(a), Enter(b));
    TerminatedThroughLink(t, Enter(a), Expire(b));
  }
}
