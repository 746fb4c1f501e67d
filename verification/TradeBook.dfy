// One trade's row, its fills and the order events seen so far, and the four
// ways its open quantity goes down. Each method is one committed transaction.

module TradeBook {
  import opened Wrappers

  /** Broker orders and external event keys, by name. */
  type OrderId = nat
  type EventKey = nat

  type Quantity = x: real | x >= 0.0 witness 0.0

  datatype TradeStatus = Open | Scaling | Protected | Closed | OtherStatus

  datatype Trade = Trade(
    status: TradeStatus, open: real, closed: Quantity, avgEntry: real, avgExit: Option<real>, closedAt: Option<int>,
    revision: int)

  /** `broker_fill_ref`: the event's key, or a name made from the update's figures. */
  datatype FillRef =
    | Keyed(key: EventKey)
    | Numbered(filled: real, price: real)
    | Protective(filled: real, price: real)
    | Theoretical(at: int)

  datatype Fill = Fill(order: Option<OrderId>, ref: FillRef, quantity: real, price: real)

  /** A snapshot settlement's view of the trade, read before it writes. */
  datatype Read = Read(open: real, revision: int)

  datatype Book = Book(trade: Trade, fills: seq<Fill>, keys: map<EventKey, OrderId>, read: Option<Read>)

  function Min(a: real, b: real): real {
    if a <= b then a else b
  }

  function Max(a: real, b: real): real {
    if a >= b then a else b
  }

  predicate Live(status: TradeStatus) {
    status.Open? || status.Scaling? || status.Protected?
  }

  /** `COALESCE(avg_exit_price, 0)`. */
  function AverageExit(t: Trade): real {
    if t.avgExit.Some? then t.avgExit.value else 0.0
  }

  // ---------------------------------------------------------------------
  // Fills

  function Recorded(fills: seq<Fill>, order: OrderId): real {
    if fills == [] then 0.0
    else
      var last := fills[|fills| - 1];
      Recorded(fills[..|fills| - 1], order) + if last.order == Some(order) then last.quantity else 0.0
  }

  predicate HasRef(fills: seq<Fill>, order: OrderId, ref: FillRef) {
    exists i :: 0 <= i < |fills| && fills[i].order == Some(order) && fills[i].ref == ref
  }

  /** `ON CONFLICT (broker_order_id, broker_fill_ref) DO NOTHING`. */
  predicate Dropped(fills: seq<Fill>, fill: Fill) {
    fill.order.Some? && HasRef(fills, fill.order.value, fill.ref)
  }

  function WithFill(fills: seq<Fill>, fill: Fill): seq<Fill> {
    if Dropped(fills, fill) then fills else fills + [fill]
  }

  // ---------------------------------------------------------------------
  // The effect of each path on the book

  function NextStatus(open: real): TradeStatus {
    if open == 0.0 then Closed else Protected
  }

  /** The quantity-weighted average of the exits so far and one more. */
  function AverageAfter(t: Trade, quantity: real, price: real): Option<real>
    requires quantity > 0.0
  {
    Some((AverageExit(t) * t.closed + price * quantity) / (t.closed + quantity))
  }

  /** The priced update three of the four paths share. */
  function Exited(t: Trade, quantity: real, price: real, at: int): Trade
    requires quantity > 0.0
  {
    var open := Max(0.0, t.open - quantity);
    t.(
      open := open,
      closed := t.closed + quantity,
      status := NextStatus(open),
      avgExit := AverageAfter(t, quantity, price),
      closedAt := if open == 0.0 then Some(at) else t.closedAt,
      revision := t.revision + 1)
  }

  /** A broker update of a reduce or close order; `filled` is cumulative, `price` its average when usable. */
  datatype Update = Update(filled: real, price: Option<real>, at: int)

  /**
   * What an update's intent is for: closing lots, moving the stop of a trade it saw at some revision, once the broker
   * has the order, or nothing the book shows.
   */
  datatype Purpose = Reduce | MoveStop(expected: int) | Other

  datatype Delivery = Delivery(order: OrderId, key: Option<EventKey>, update: Update, purpose: Purpose)

  function DeliveredRef(key: Option<EventKey>, u: Update): FillRef {
    if key.Some? then Keyed(key.value) else Numbered(u.filled, if u.price.Some? then u.price.value else 0.0)
  }

  function ManagementDelta(b: Book, order: OrderId, u: Update): real {
    Min(b.trade.open, u.filled - Recorded(b.fills, order))
  }

  predicate ManagementApplies(b: Book, order: OrderId, u: Update) {
    ManagementDelta(b, order, u) > 0.0 && u.price.Some? && u.price.value > 0.0
  }

  function WithManagementFill(b: Book, order: OrderId, key: Option<EventKey>, u: Update): Book
  {
    if !ManagementApplies(b, order, u) then b
    else
      var delta := ManagementDelta(b, order, u);
      b.(trade := Exited(b.trade, delta, u.price.value, u.at),
         fills := WithFill(b.fills, Fill(Some(order), DeliveredRef(key, u), delta, u.price.value)))
  }

  /** A key already seen names the order; the fill is looked at again either way. */
  function OrderOf(b: Book, d: Delivery): OrderId {
    if d.key.Some? && d.key.value in b.keys then b.keys[d.key.value] else d.order
  }

  predicate Known(b: Book, d: Delivery) {
    d.key.Some? && d.key.value in b.keys
  }

  /** A moved stop is a new revision of the trade, unless the trade has changed since the intent was made. */
  function StopMoved(t: Trade, expected: int): Trade {
    if t.revision == expected then t.(revision := t.revision + 1) else t
  }

  function Delivered(b: Book, d: Delivery): Book
  {
    var order := OrderOf(b, d);
    var keyed := if d.key.Some? then b.(keys := b.keys[d.key.value := order]) else b;
    match d.purpose
    case Reduce => WithManagementFill(keyed, order, d.key, d.update)
    case MoveStop(expected) => if Known(b, d) then b else keyed.(trade := StopMoved(b.trade, expected))
    case Other => keyed
  }

  function ProtectiveDelta(b: Book, order: OrderId, maxQuantity: real, filled: real): real {
    Min(Min(b.trade.open, maxQuantity), Max(0.0, filled - Recorded(b.fills, order)))
  }

  function WithProtectiveFill(b: Book, order: OrderId, maxQuantity: real, filled: real, price: real, at: int): Book
  {
    var delta := ProtectiveDelta(b, order, maxQuantity, filled);
    if !Live(b.trade.status) || b.trade.open <= 0.0 || delta <= 0.0 then b
    else
      b.(trade := Exited(b.trade, delta, price, at),
         fills := WithFill(b.fills, Fill(Some(order), Protective(filled, price), delta, price)))
  }

  function WithTheoreticalExit(b: Book, quantity: real, price: real, at: int): Book
  {
    var exit := Min(b.trade.open, quantity);
    if !Live(b.trade.status) || b.trade.open <= 0.0 || exit <= 0.0 then b
    else
      b.(trade := Exited(b.trade, exit, price, at),
         fills := WithFill(b.fills, Fill(None, Theoretical(at), exit, price)))
  }

  /** The settlement's candidate query. */
  function WithRead(b: Book): Book {
    b.(read := if Live(b.trade.status) then Some(Read(b.trade.open, b.trade.revision)) else None)
  }

  predicate SettlementApplies(b: Book, brokerQuantity: real) {
    b.read.Some? && 0.0 <= brokerQuantity < b.read.value.open && b.trade.revision == b.read.value.revision
  }

  /** The settlement's unpriced write, guarded by the revision it read. */
  function WithSettlement(b: Book, brokerQuantity: real, at: int): Book {
    if !SettlementApplies(b, brokerQuantity) then b
    else
      b.(trade := b.trade.(
        open := brokerQuantity,
        closed := b.trade.closed + (b.read.value.open - brokerQuantity),
        status := NextStatus(brokerQuantity),
        closedAt := if brokerQuantity == 0.0 then Some(at) else b.trade.closedAt,
        revision := b.trade.revision + 1))
  }

  /** An entry fill sets the open quantity to the cumulative one and leaves the revision alone. */
  function WithEntryFill(b: Book, filled: real, average: real): Book {
    b.(trade := b.trade.(status := Open, open := filled, avgEntry := average))
  }

  // ---------------------------------------------------------------------
  // The transactions

  class Ledger {
    var trade: Trade
    var fills: seq<Fill>
    var keys: map<EventKey, OrderId>
    var read: Option<Read>

    constructor (trade: Trade)
      ensures BookNow() == Book(trade, [], map[], None)
    {
      this.trade := trade;
      fills, keys, read := [], map[], None;
    }

    function BookNow(): Book
      reads this
    {
      Book(trade, fills, keys, read)
    }

    /** `COALESCE(sum(quantity), 0)` over the order's fills. */
    method SumRecorded(order: OrderId) returns (quantity: real)
      ensures quantity == Recorded(fills, order)
    {
      quantity := 0.0;
      for i := 0 to |fills|
        invariant quantity == Recorded(fills[..i], order)
      {
        assert fills[..i + 1][..i] == fills[..i];
        if fills[i].order == Some(order) { quantity := quantity + fills[i].quantity; }
      }
      assert fills[..|fills|] == fills;
    }

    method InsertFill(fill: Fill)
      modifies this`fills
      ensures fills == WithFill(old(fills), fill)
    {
      if fill.order.Some? {
        var i := 0;
        while i < |fills| && !(fills[i].order == fill.order && fills[i].ref == fill.ref)
          invariant 0 <= i <= |fills|
          invariant forall k :: 0 <= k < i ==> !(fills[k].order == fill.order && fills[k].ref == fill.ref)
        {
          i := i + 1;
        }
        if i < |fills| { return; }
      }
      fills := fills + [fill];
    }

    /** Quantities, average, status, closing time and revision, in one UPDATE. */
    method ReduceTrade(quantity: real, price: real, at: int)
      requires quantity > 0.0
      modifies this`trade
      ensures trade == Exited(old(trade), quantity, price, at)
    {
      var nextQuantity := Max(0.0, trade.open - quantity);
      var average := AverageAfter(trade, quantity, price);
      trade := trade.(avgExit := average);
      trade := trade.(open := nextQuantity, closed := trade.closed + quantity, status := NextStatus(nextQuantity));
      if nextQuantity == 0.0 { trade := trade.(closedAt := Some(at)); }
      trade := trade.(revision := trade.revision + 1);
    }

    method PersistManagementFill(order: OrderId, key: Option<EventKey>, u: Update)
      modifies this`trade, this`fills
      ensures BookNow() == WithManagementFill(old(BookNow()), order, key, u)
    {
      var recorded := SumRecorded(order);
      var delta := Min(trade.open, u.filled - recorded);
      if !(delta > 0.0) || u.price.None? || u.price.value <= 0.0 { return; }
      ReduceTrade(delta, u.price.value, u.at);
      InsertFill(Fill(Some(order), DeliveredRef(key, u), delta, u.price.value));
    }

    method RecordManagementBrokerUpdate(d: Delivery)
      modifies this
      ensures BookNow() == Delivered(old(BookNow()), d)
    {
      if d.key.Some? && d.key.value in keys {
        var duplicate := keys[d.key.value];
        assert keys == keys[d.key.value := duplicate];
        if d.purpose.Reduce? { PersistManagementFill(duplicate, d.key, d.update); }
        return;
      }
      if d.key.Some? { keys := keys[d.key.value := d.order]; }
      if d.purpose.Reduce? { PersistManagementFill(d.order, d.key, d.update); }
      if d.purpose.MoveStop? && trade.revision == d.purpose.expected {
        trade := trade.(revision := trade.revision + 1);
      }
    }

    /** Returns the quantity closed. */
    method PersistProtectiveSnapshotFill(order: OrderId, maxQuantity: real, filled: real, price: real, at: int)
      returns (applied: real)
      modifies this`trade, this`fills
      ensures BookNow() == WithProtectiveFill(old(BookNow()), order, maxQuantity, filled, price, at)
      ensures applied == trade.closed - old(trade.closed)
    {
      if !Live(trade.status) || trade.open <= 0.0 { return 0.0; }
      var recorded := SumRecorded(order);
      var unrecorded := Max(0.0, filled - recorded);
      var delta := Min(Min(trade.open, maxQuantity), unrecorded);
      if !(delta > 0.0) { return 0.0; }
      ReduceTrade(delta, price, at);
      InsertFill(Fill(Some(order), Protective(filled, price), delta, price));
      return delta;
    }

    method RecordTheoreticalExit(quantity: real, price: real, at: int) returns (ok: bool)
      modifies this`trade, this`fills
      ensures BookNow() == WithTheoreticalExit(old(BookNow()), quantity, price, at)
      ensures !ok ==> BookNow() == old(BookNow())
    {
      if !Live(trade.status) || trade.open <= 0.0 { return false; }
      var exit := Min(trade.open, quantity);
      if !(exit > 0.0) { return false; }
      ReduceTrade(exit, price, at);
      InsertFill(Fill(None, Theoretical(at), exit, price));
      return true;
    }

    method RecordEntryFill(filled: real, average: real)
      modifies this`trade
      ensures BookNow() == WithEntryFill(old(BookNow()), filled, average)
    {
      trade := trade.(status := Open, open := filled);
      trade := trade.(avgEntry := average);
    }

    method ReadForSettlement()
      modifies this`read
      ensures BookNow() == WithRead(old(BookNow()))
    {
      read := None;
      if Live(trade.status) { read := Some(Read(trade.open, trade.revision)); }
    }

    method SettleFromSnapshot(brokerQuantity: real, at: int)
      modifies this`trade
      ensures BookNow() == WithSettlement(old(BookNow()), brokerQuantity, at)
    {
      if read.None? || brokerQuantity < 0.0 || brokerQuantity >= read.value.open { return; }
      var closedDelta := read.value.open - brokerQuantity;
      var nextStatus := NextStatus(brokerQuantity);
      if trade.revision == read.value.revision {
        if brokerQuantity == 0.0 { trade := trade.(closedAt := Some(at)); }
        trade := trade.(open := brokerQuantity, closed := trade.closed + closedDelta, status := nextStatus);
        trade := trade.(revision := trade.revision + 1);
      }
    }
  }

  // ---------------------------------------------------------------------
  // Runs of exits

  datatype Command =
    | Manage(delivery: Delivery)
    | Protect(order: OrderId, maxQuantity: real, filled: real, price: real, at: int)
    | Theory(quantity: real, price: real, at: int)
    | ReadSnapshot
    | Settle(brokerQuantity: real, at: int)

  function Step(b: Book, c: Command): Book
  {
    match c
    case Manage(d) => Delivered(b, d)
    case Protect(order, maxQuantity, filled, price, at) => WithProtectiveFill(b, order, maxQuantity, filled, price, at)
    case Theory(quantity, price, at) => WithTheoreticalExit(b, quantity, price, at)
    case ReadSnapshot => WithRead(b)
    case Settle(brokerQuantity, at) => WithSettlement(b, brokerQuantity, at)
  }

  /** The price a command's exit is counted at; none for a settlement. */
  function PriceOf(c: Command): Option<real> {
    match c
    case Manage(d) => d.update.price
    case Protect(_, _, _, price, _) => Some(price)
    case Theory(_, price, _) => Some(price)
    case ReadSnapshot => None
    case Settle(_, _) => None
  }

  /** A settlement's read is either out of date, and then its write is refused, or still shows the open quantity. */
  ghost predicate ReadIsGuarded(b: Book) {
    b.read.Some? ==>
      && b.read.value.revision <= b.trade.revision
      && (b.read.value.revision == b.trade.revision ==> b.read.value.open == b.trade.open)
  }

  /** A trade of `entry` lots under way: nothing lost, never oversold, closed exactly at zero. */
  ghost predicate Balanced(b: Book, entry: real) {
    && b.trade.open >= 0.0 && b.trade.closed >= 0.0
    && b.trade.open + b.trade.closed == entry
    && (b.trade.status.Closed? <==> b.trade.open == 0.0)
    && (b.trade.open > 0.0 ==> Live(b.trade.status))
  }

  ghost predicate Sound(b: Book, entry: real) {
    Balanced(b, entry) && ReadIsGuarded(b)
  }

  /** A trade exits lots under a new revision, or stays as it is. */
  ghost predicate MovesOn(before: Trade, after: Trade) {
    && after.open <= before.open && after.revision >= before.revision
    && (after.revision == before.revision ==> after == before)
  }

  lemma ManagementIsBalanced(b: Book, d: Delivery, entry: real)
    requires Balanced(b, entry)
    ensures Balanced(Delivered(b, d), entry) && MovesOn(b.trade, Delivered(b, d).trade)
  {
  }

  lemma StepIsBalanced(b: Book, c: Command, entry: real)
    requires Balanced(b, entry) && (c.Settle? ==> ReadIsGuarded(b))
    ensures Balanced(Step(b, c), entry) && MovesOn(b.trade, Step(b, c).trade)
  {
    if c.Manage? {
      ManagementIsBalanced(b, c.delivery, entry);
    }
  }

  /** Every exit path conserves lots, never opens any, and closes the trade exactly when none are left. */
  lemma StepIsSound(b: Book, c: Command, entry: real)
    requires Sound(b, entry)
    ensures Sound(Step(b, c), entry) && MovesOn(b.trade, Step(b, c).trade)
  {
    StepIsBalanced(b, c, entry);
    assert Step(b, c).read == if c.ReadSnapshot? then WithRead(b).read else b.read;
  }

  function Run(b: Book, commands: seq<Command>): Book {
    if commands == [] then b
    else Step(Run(b, commands[..|commands| - 1]), commands[|commands| - 1])
  }

  /** Over any run of the four exit paths no lot is lost and none comes back. */
  lemma {:induction false} RunIsSound(b: Book, commands: seq<Command>, entry: real)
    requires Sound(b, entry)
    ensures Sound(Run(b, commands), entry) && Run(b, commands).trade.open <= b.trade.open
  {
    if commands != [] {
      var before := commands[..|commands| - 1];
      RunIsSound(b, before, entry);
      StepIsSound(Run(b, before), commands[|commands| - 1], entry);
    }
  }

  // ---------------------------------------------------------------------
  // Entry fills among the exits

  /** Further entry fills among the exits; the settlement's guard on the revision does not see them. */
  datatype Movement = Out(command: Command) | In(filled: real, average: real)

  function AfterMovement(b: Book, e: Movement): Book {
    match e
    case Out(c) => Step(b, c)
    case In(filled, average) => WithEntryFill(b, filled, average)
  }

  function Movements(b: Book, movements: seq<Movement>): Book {
    if movements == [] then b
    else AfterMovement(Movements(b, movements[..|movements| - 1]), movements[|movements| - 1])
  }

  /** The quantity entered so far. */
  function Entered(entry: real, movements: seq<Movement>): real {
    if movements == [] then entry
    else
      var last := movements[|movements| - 1];
      if last.In? then last.filled else Entered(entry, movements[..|movements| - 1])
  }

  /** An entry fill comes before any exit; a settlement that writes has read the open quantity as it is. */
  predicate Lawful(b: Book, e: Movement) {
    match e
    case In(filled, _) => b.trade.closed == 0.0 && filled > 0.0
    case Out(c) => c.Settle? && SettlementApplies(b, c.brokerQuantity) ==> b.read.value.open == b.trade.open
  }

  ghost predicate LawfulRun(b: Book, movements: seq<Movement>) {
    forall i :: 0 <= i < |movements| ==> Lawful(Movements(b, movements[..i]), movements[i])
  }

  lemma MovementIsBalanced(b: Book, e: Movement, entry: real)
    requires Balanced(b, entry) && Lawful(b, e)
    ensures Balanced(AfterMovement(b, e), if e.In? then e.filled else entry)
  {
    if e.Out? && !e.command.Settle? {
      StepIsBalanced(b, e.command, entry);
    }
  }

  /** Entries and exits together conserve the quantity entered, as long as no settlement writes on an outdated read. */
  lemma {:induction false} EntriesAndExitsConserve(b: Book, movements: seq<Movement>, entry: real)
    requires Balanced(b, entry) && LawfulRun(b, movements)
    ensures Balanced(Movements(b, movements), Entered(entry, movements))
  {
    if movements != [] {
      var before := movements[..|movements| - 1];
      forall i | 0 <= i < |before| ensures Lawful(Movements(b, before[..i]), before[i]) {
        assert before[..i] == movements[..i];
      }
      EntriesAndExitsConserve(b, before, entry);
      assert Lawful(Movements(b, before), movements[|movements| - 1]);
      MovementIsBalanced(Movements(b, before), movements[|movements| - 1], Entered(entry, before));
    }
  }

  /** A settlement conserves lots exactly when the open quantity it read is still the open quantity. */
  lemma SettlementConservesExactly(b: Book, brokerQuantity: real, at: int)
    requires SettlementApplies(b, brokerQuantity)
    ensures
      var next := WithSettlement(b, brokerQuantity, at);
      next.trade.open + next.trade.closed == b.trade.open + b.trade.closed <==> b.trade.open == b.read.value.open
  {
  }

  /** A trade of ten lots under way. */
  function TenLots(price: real): Book {
    Book(Trade(Open, 10.0, 0.0, price, None, None, 0), [], map[], None)
  }

  /** Ten lots read, two more entered, then settled to three: seven count as closed, and two of twelve are lost. */
  lemma EntryBehindReadLosesLots(price: real)
    ensures
      var run := Movements(TenLots(price), [Out(ReadSnapshot), In(12.0, price), Out(Settle(3.0, 0))]);
      run.trade.open == 3.0 && run.trade.closed == 7.0
  {
    var es := [Out(ReadSnapshot), In(12.0, price), Out(Settle(3.0, 0))];
    assert es[..2][..1][..0] == [] && es[..2][..1] == es[..1];
    assert Movements(TenLots(price), es[..0]) == TenLots(price);
    assert Movements(TenLots(price), es[..1]) == WithRead(TenLots(price));
    assert Movements(TenLots(price), es[..2]) == WithEntryFill(WithRead(TenLots(price)), 12.0, price);
  }

  /** A filled protective order as a snapshot shows it. */
  datatype ProtectiveOrder = ProtectiveOrder(order: OrderId, filled: real, price: real, at: int)

  /** All filled protective orders of one snapshot together never close more than the broker no longer holds. */
  method SettleProtectiveExits(ledger: Ledger, orders: seq<ProtectiveOrder>, brokerQuantity: real, ghost entry: real)
    requires Sound(ledger.BookNow(), entry)
    modifies ledger
    ensures Sound(ledger.BookNow(), entry)
    ensures old(ledger.trade.open) > brokerQuantity ==> brokerQuantity <= ledger.trade.open <= old(ledger.trade.open)
    ensures old(ledger.trade.open) <= brokerQuantity ==> ledger.BookNow() == old(ledger.BookNow())
  {
    var remaining := ledger.trade.open - brokerQuantity;
    if !(remaining > 0.0) { return; }
    for i := 0 to |orders|
      invariant Sound(ledger.BookNow(), entry)
      invariant remaining >= 0.0 && ledger.trade.open == brokerQuantity + remaining <= old(ledger.trade.open)
    {
      if !(remaining > 0.0) { break; }
      var o := orders[i];
      if o.filled > 0.0 && o.price > 0.0 {
        ghost var before := ledger.BookNow();
        var applied := ledger.PersistProtectiveSnapshotFill(o.order, remaining, o.filled, o.price, o.at);
        StepIsSound(before, Protect(o.order, remaining, o.filled, o.price, o.at), entry);
        remaining := remaining - applied;
      }
    }
  }

  // ---------------------------------------------------------------------
  // The average exit price

  /** What a command's exit of some quantity is worth. */
  function Worth(c: Command, quantity: real): real {
    if PriceOf(c).Some? then PriceOf(c).value * quantity else 0.0
  }

  /** What the exits of a run are worth: each at its own price, settlements at nothing. */
  function ExitValue(b: Book, commands: seq<Command>): real {
    if commands == [] then 0.0
    else
      var before, c := commands[..|commands| - 1], commands[|commands| - 1];
      var quantity := Run(b, commands).trade.closed - Run(b, before).trade.closed;
      ExitValue(b, before) + Worth(c, quantity)
  }

  function BookValue(t: Trade): real {
    AverageExit(t) * t.closed
  }

  /** The trade is left alone but for its revision, or exits some quantity at the command's price. */
  ghost predicate ExitsAt(before: Trade, after: Trade, price: Option<real>) {
    after.(revision := before.revision) == before
    || (price.Some? && exists quantity, at: int ::
          quantity > 0.0 && after == Exited(before, quantity, price.value, at))
  }

  lemma StepExits(b: Book, c: Command)
    requires !c.Settle?
    ensures ExitsAt(b.trade, Step(b, c).trade, PriceOf(c))
  {
  }

  lemma ValueOfExit(before: Trade, after: Trade, c: Command)
    requires ExitsAt(before, after, PriceOf(c))
    ensures BookValue(after) == BookValue(before) + Worth(c, after.closed - before.closed)
  {
  }

  lemma StepKeepsAverage(b: Book, c: Command)
    requires !c.Settle?
    ensures
      var next := Step(b, c);
      BookValue(next.trade) == BookValue(b.trade) + Worth(c, next.trade.closed - b.trade.closed)
  {
    StepExits(b, c);
    ValueOfExit(b.trade, Step(b, c).trade, c);
  }

  /** In a run of priced exits the average price times the closed quantity is the sum of quantity times price. */
  lemma {:induction false} AverageIsWeighted(b: Book, commands: seq<Command>)
    requires forall i :: 0 <= i < |commands| ==> !commands[i].Settle?
    ensures BookValue(Run(b, commands).trade) == BookValue(b.trade) + ExitValue(b, commands)
  {
    if commands != [] {
      var before, c := commands[..|commands| - 1], commands[|commands| - 1];
      AverageIsWeighted(b, before);
      StepKeepsAverage(Run(b, before), c);
    }
  }

  /** A settlement closes lots at no price, so the average keeps its meaning only while it is zero. */
  lemma SettlementKeepsAverageExactly(b: Book, brokerQuantity: real, at: int)
    requires SettlementApplies(b, brokerQuantity)
    ensures BookValue(WithSettlement(b, brokerQuantity, at).trade) == BookValue(b.trade) <==>
      AverageExit(b.trade) == 0.0
  {
  }

  /** Four lots exited at a hundred, then four settled unpriced: the average counts eight lots at a hundred. */
  lemma SettledLotsCountedAtAverage(price: real)
    ensures
      var commands := [Theory(4.0, 100.0, 0), ReadSnapshot, Settle(2.0, 1)];
      && BookValue(Run(TenLots(price), commands).trade) == 800.0
      && ExitValue(TenLots(price), commands) == 400.0
  {
    var cs, start := [Theory(4.0, 100.0, 0), ReadSnapshot, Settle(2.0, 1)], TenLots(price);
    assert cs[..2][..1][..0] == [] && cs[..2][..1] == cs[..1] && Run(start, cs[..0]) == start;
    var one := Run(start, cs[..1]);
    assert one == WithTheoreticalExit(start, 4.0, 100.0, 0);
    assert one.trade.open == 6.0 && one.trade.closed == 4.0 && one.trade.avgExit == Some(100.0);
    var two := Run(start, cs[..2]);
    assert two == WithRead(one);
    assert Run(start, cs) == WithSettlement(two, 2.0, 1);
    assert ExitValue(start, cs[..1]) == 400.0;
    assert ExitValue(start, cs[..2]) == 400.0;
  }

  // ---------------------------------------------------------------------
  // Redelivered management updates

  lemma RecordedOfInserted(fills: seq<Fill>, fill: Fill, order: OrderId)
    ensures Recorded(fills + [fill], order)
         == Recorded(fills, order) + if fill.order == Some(order) then fill.quantity else 0.0
  {
  }

  predicate Told(commands: seq<Command>, d: Delivery) {
    Manage(d) in commands
  }

  /** One key always tells the same update of the same order and intent. */
  ghost predicate OneUpdatePerKey(commands: seq<Command>) {
    forall d, e :: Told(commands, d) && Told(commands, e) && d.key.Some? && d.key == e.key ==>
      d.order == e.order && d.update == e.update && d.purpose == e.purpose
  }

  /** A stop move was asked for at a revision the trade has reached, as its intent was made before. */
  predicate Timely(b: Book, c: Command) {
    c.Manage? && c.delivery.purpose.MoveStop? ==> c.delivery.purpose.expected <= b.trade.revision
  }

  ghost predicate TimelyRun(b: Book, commands: seq<Command>) {
    forall i :: 0 <= i < |commands| ==> Timely(Run(b, commands[..i]), commands[i])
  }

  predicate Usable(u: Update) {
    u.price.Some? && u.price.value > 0.0
  }

  /** Nothing more to give: the quantity is recorded or no lot is left to close, or the stop's revision has passed. */
  predicate Exhausted(b: Book, d: Delivery) {
    match d.purpose
    case Reduce => Usable(d.update) ==> b.trade.open <= 0.0 || Recorded(b.fills, d.order) >= d.update.filled
    case MoveStop(expected) => expected < b.trade.revision
    case Other => true
  }

  predicate FromUpdate(ref: FillRef) {
    ref.Keyed? || ref.Numbered?
  }

  /** The fill is the one an earlier delivery of the run made. */
  ghost predicate Explained(commands: seq<Command>, f: Fill) {
    exists d :: Told(commands, d) && d.purpose.Reduce? && Usable(d.update) && f.order == Some(d.order)
      && f.ref == DeliveredRef(d.key, d.update)
  }

  ghost predicate KeyTold(commands: seq<Command>, key: EventKey, order: OrderId) {
    exists d :: Told(commands, d) && d.key == Some(key) && d.order == order
  }

  /** After some commands, every delivery is exhausted and everything recorded goes back to one of them. */
  ghost predicate Settled(b: Book, commands: seq<Command>) {
    && (forall d :: Told(commands, d) ==> Exhausted(b, d))
    && (forall f :: f in b.fills && FromUpdate(f.ref) ==> Explained(commands, f))
    && (forall k :: k in b.keys ==> KeyTold(commands, k, b.keys[k]))
    && (forall d :: Told(commands, d) && d.key.Some? ==> d.key.value in b.keys)
  }

  lemma ToldMore(commands: seq<Command>, c: Command, d: Delivery)
    ensures Told(commands + [c], d) <==> Told(commands, d) || c == Manage(d)
  {
  }

  lemma KeyNamesOrder(b: Book, commands: seq<Command>, d: Delivery)
    requires Settled(b, commands) && OneUpdatePerKey(commands + [Manage(d)])
    ensures OrderOf(b, d) == d.order
  {
  }

  /** A reference already on file means the delivery has nothing more to give. */
  lemma RefMeansExhausted(b: Book, commands: seq<Command>, d: Delivery)
    requires Settled(b, commands) && OneUpdatePerKey(commands + [Manage(d)])
    requires d.purpose.Reduce? && Usable(d.update) && HasRef(b.fills, d.order, DeliveredRef(d.key, d.update))
    ensures Exhausted(b, d)
  {
  }

  /** Whether a delivery finds something to close. */
  predicate Bites(b: Book, d: Delivery) {
    d.purpose.Reduce? && ManagementApplies(b, OrderOf(b, d), d.update)
  }

  function FillOf(b: Book, d: Delivery): Fill {
    Fill(Some(OrderOf(b, d)), DeliveredRef(d.key, d.update), ManagementDelta(b, OrderOf(b, d), d.update),
         if d.update.price.Some? then d.update.price.value else 0.0)
  }

  /** In a run of consistent deliveries the conflict clause never drops a fill that closes something. */
  lemma NoFillIsDropped(b: Book, commands: seq<Command>, d: Delivery)
    requires Settled(b, commands) && OneUpdatePerKey(commands + [Manage(d)]) && Bites(b, d)
    ensures !Dropped(b.fills, FillOf(b, d))
  {
    KeyNamesOrder(b, commands, d);
    if HasRef(b.fills, d.order, DeliveredRef(d.key, d.update)) {
      RefMeansExhausted(b, commands, d);
    }
  }

  /** Replaying a delivery changes nothing at all. */
  lemma ReplayChangesNothing(b: Book, commands: seq<Command>, d: Delivery)
    requires Settled(b, commands) && OneUpdatePerKey(commands + [Manage(d)]) && Told(commands, d)
    ensures Delivered(b, d) == b
  {
  }

  lemma DeliveredFills(b: Book, commands: seq<Command>, d: Delivery)
    requires Settled(b, commands) && OneUpdatePerKey(commands + [Manage(d)])
    ensures
      var next := Delivered(b, d);
      if Bites(b, d) then
        && next.fills == b.fills + [FillOf(b, d)]
        && next.trade.open == b.trade.open - ManagementDelta(b, d.order, d.update)
        && (forall o :: Recorded(next.fills, o)
              == Recorded(b.fills, o) + if o == d.order then ManagementDelta(b, d.order, d.update) else 0.0)
      else next.fills == b.fills && next.trade.(revision := b.trade.revision) == b.trade
    ensures OrderOf(b, d) == d.order
  {
    KeyNamesOrder(b, commands, d);
    if Told(commands + [Manage(d)], d) && Bites(b, d) {
      NoFillIsDropped(b, commands, d);
      forall o ensures Recorded(b.fills + [FillOf(b, d)], o)
        == Recorded(b.fills, o) + if o == d.order then ManagementDelta(b, d.order, d.update) else 0.0
      {
        RecordedOfInserted(b.fills, FillOf(b, d), o);
      }
    }
  }

  /** Once delivered, an update has nothing more to give. */
  lemma DeliveryIsExhausted(b: Book, commands: seq<Command>, d: Delivery)
    requires Settled(b, commands) && OneUpdatePerKey(commands + [Manage(d)]) && Timely(b, Manage(d))
    ensures Exhausted(Delivered(b, d), d)
  {
    DeliveredFills(b, commands, d);
    if d.purpose.MoveStop? && Known(b, d) {
      assert KeyTold(commands, d.key.value, b.keys[d.key.value]);
      var e :| Told(commands, e) && e.key == d.key;
      ToldMore(commands, Manage(d), e);
      ToldMore(commands, Manage(d), d);
      assert Exhausted(b, e);
    }
  }

  lemma StaysExhausted(b: Book, next: Book, e: Delivery)
    requires Exhausted(b, e) && next.trade.open <= b.trade.open && next.trade.revision >= b.trade.revision
    requires Recorded(next.fills, e.order) >= Recorded(b.fills, e.order)
    ensures Exhausted(next, e)
  {
  }

  lemma DeliverySettles(b: Book, commands: seq<Command>, d: Delivery)
    requires Settled(b, commands) && OneUpdatePerKey(commands + [Manage(d)]) && Timely(b, Manage(d))
    ensures Settled(Delivered(b, d), commands + [Manage(d)])
  {
    var next, more := Delivered(b, d), commands + [Manage(d)];
    DeliveredFills(b, commands, d);
    forall e | Told(more, e) ensures Exhausted(next, e) {
      ToldMore(commands, Manage(d), e);
      if e == d { DeliveryIsExhausted(b, commands, d); } else { StaysExhausted(b, next, e); }
    }
    DeliveredFillsAreExplained(b, commands, d);
    DeliveredKeysAreTold(b, commands, d);
    ToldKeysAreKept(b, commands, d);
  }

  lemma FillStaysExplained(commands: seq<Command>, c: Command, f: Fill)
    requires Explained(commands, f)
    ensures Explained(commands + [c], f)
  {
    var d :| Told(commands, d) && d.purpose.Reduce? && Usable(d.update) && f.order == Some(d.order)
      && f.ref == DeliveredRef(d.key, d.update);
    ToldMore(commands, c, d);
  }

  lemma KeyStaysTold(commands: seq<Command>, c: Command, key: EventKey, order: OrderId)
    requires KeyTold(commands, key, order)
    ensures KeyTold(commands + [c], key, order)
  {
    var d :| Told(commands, d) && d.key == Some(key) && d.order == order;
    ToldMore(commands, c, d);
  }

  lemma DeliveredFillsAreExplained(b: Book, commands: seq<Command>, d: Delivery)
    requires Settled(b, commands) && OneUpdatePerKey(commands + [Manage(d)])
    ensures forall f :: f in Delivered(b, d).fills && FromUpdate(f.ref) ==> Explained(commands + [Manage(d)], f)
  {
    DeliveredFills(b, commands, d);
    ToldMore(commands, Manage(d), d);
    forall f | f in Delivered(b, d).fills && FromUpdate(f.ref) ensures Explained(commands + [Manage(d)], f) {
      if f in b.fills { FillStaysExplained(commands, Manage(d), f); }
    }
  }

  lemma DeliveredKeysAreTold(b: Book, commands: seq<Command>, d: Delivery)
    requires Settled(b, commands)
    ensures
      var keys := Delivered(b, d).keys;
      forall k :: k in keys ==> KeyTold(commands + [Manage(d)], k, keys[k])
  {
    var keys := Delivered(b, d).keys;
    ToldMore(commands, Manage(d), d);
    forall k | k in keys ensures KeyTold(commands + [Manage(d)], k, keys[k]) {
      if k in b.keys && d.key != Some(k) { KeyStaysTold(commands, Manage(d), k, b.keys[k]); }
    }
  }

  lemma ToldKeysAreKept(b: Book, commands: seq<Command>, d: Delivery)
    requires Settled(b, commands)
    ensures forall e :: Told(commands + [Manage(d)], e) && e.key.Some? ==> e.key.value in Delivered(b, d).keys
  {
    forall e | Told(commands + [Manage(d)], e) && e.key.Some? ensures e.key.value in Delivered(b, d).keys {
      ToldMore(commands, Manage(d), e);
    }
  }

  lemma RecordedOfMaybe(fills: seq<Fill>, fill: Fill, order: OrderId)
    requires fill.quantity > 0.0
    ensures Recorded(fills, order) <= Recorded(WithFill(fills, fill), order)
    ensures fill.order != Some(order) ==> Recorded(WithFill(fills, fill), order) == Recorded(fills, order)
    ensures fill.order == Some(order) ==>
      Recorded(WithFill(fills, fill), order) <= Recorded(fills, order) + fill.quantity
  {
  }

  lemma ProtectionRecords(
    b: Book, order: OrderId, maxQuantity: real, filled: real, price: real, at: int, o: OrderId)
    ensures
      var next := WithProtectiveFill(b, order, maxQuantity, filled, price, at);
      && Recorded(b.fills, o) <= Recorded(next.fills, o)
      && (o != order ==> Recorded(b.fills, o) == Recorded(next.fills, o))
      && (Recorded(next.fills, o) == Recorded(b.fills, o) || Recorded(next.fills, o) <= filled)
  {
    var delta := ProtectiveDelta(b, order, maxQuantity, filled);
    if delta > 0.0 {
      RecordedOfMaybe(b.fills, Fill(Some(order), Protective(filled, price), delta, price), o);
    }
  }

  lemma OthersSettle(b: Book, commands: seq<Command>, c: Command, entry: real)
    requires Sound(b, entry) && Settled(b, commands) && !c.Manage?
    ensures Settled(Step(b, c), commands + [c])
  {
    var next, more := Step(b, c), commands + [c];
    StepIsSound(b, c, entry);
    OthersRecord(b, c);
    forall d | Told(more, d) ensures Exhausted(next, d) && (d.key.Some? ==> d.key.value in next.keys) {
      ToldMore(commands, c, d);
      assert Exhausted(b, d);
    }
    forall f | f in next.fills && FromUpdate(f.ref) ensures Explained(more, f) {
      assert Explained(commands, f);
      var e :| Told(commands, e) && e.purpose.Reduce? && Usable(e.update) && f.order == Some(e.order)
        && f.ref == DeliveredRef(e.key, e.update);
      ToldMore(commands, c, e);
    }
    forall k | k in next.keys ensures KeyTold(more, k, next.keys[k]) {
      assert KeyTold(commands, k, b.keys[k]);
      var e :| Told(commands, e) && e.key == Some(k) && e.order == b.keys[k];
      ToldMore(commands, c, e);
    }
  }

  lemma OthersRecord(b: Book, c: Command)
    requires !c.Manage?
    ensures Step(b, c).keys == b.keys
    ensures forall o :: Recorded(b.fills, o) <= Recorded(Step(b, c).fills, o)
    ensures forall f :: f in Step(b, c).fills && FromUpdate(f.ref) ==> f in b.fills
    ensures !c.Protect? ==> forall o :: Recorded(b.fills, o) == Recorded(Step(b, c).fills, o)
  {
    match c
    case Protect(order, maxQuantity, filled, price, at) =>
      forall o ensures Recorded(b.fills, o) <= Recorded(Step(b, c).fills, o) {
        ProtectionRecords(b, order, maxQuantity, filled, price, at, o);
      }
    case Theory(quantity, price, at) =>
      forall o ensures Recorded(b.fills + [Fill(None, Theoretical(at), Min(b.trade.open, quantity), price)], o)
        == Recorded(b.fills, o)
      {
        RecordedOfInserted(b.fills, Fill(None, Theoretical(at), Min(b.trade.open, quantity), price), o);
      }
    case ReadSnapshot =>
    case Settle(_, _) =>
  }

  /** The cumulative quantity a command reports for an order. */
  ghost predicate Reports(c: Command, order: OrderId, filled: real) {
    || (c.Manage? && c.delivery.order == order && c.delivery.update.filled == filled)
    || (c.Protect? && c.order == order && c.filled == filled)
  }

  ghost predicate Reported(commands: seq<Command>, order: OrderId, quantity: real) {
    exists i, filled :: 0 <= i < |commands| && Reports(commands[i], order, filled) && quantity <= filled
  }

  /** No order has more recorded than some update of it reported. */
  ghost predicate WithinReports(b: Book, commands: seq<Command>) {
    forall o :: Recorded(b.fills, o) <= 0.0 || Reported(commands, o, Recorded(b.fills, o))
  }

  lemma ReportedMore(commands: seq<Command>, c: Command, order: OrderId, quantity: real)
    requires Reported(commands, order, quantity) || exists filled :: Reports(c, order, filled) && quantity <= filled
    ensures Reported(commands + [c], order, quantity)
  {
    var more := commands + [c];
    if Reported(commands, order, quantity) {
      var i, filled :| 0 <= i < |commands| && Reports(commands[i], order, filled) && quantity <= filled;
      assert more[i] == commands[i];
    } else {
      assert more[|commands|] == c;
    }
  }

  lemma StepStaysWithin(b: Book, commands: seq<Command>, c: Command)
    requires WithinReports(b, commands) && Settled(b, commands) && OneUpdatePerKey(commands + [c])
    ensures WithinReports(Step(b, c), commands + [c])
  {
    var next := Step(b, c);
    forall o ensures Recorded(next.fills, o) <= 0.0 || Reported(commands + [c], o, Recorded(next.fills, o)) {
      match c {
        case Manage(d) =>
          DeliveredFills(b, commands, d);
          if Bites(b, d) && o == d.order { assert Reports(c, o, d.update.filled); }
        case Protect(order, maxQuantity, filled, price, at) =>
          ProtectionRecords(b, order, maxQuantity, filled, price, at, o);
          if o == order { assert Reports(c, o, filled); }
        case _ =>
          OthersRecord(b, c);
      }
      if Recorded(next.fills, o) > 0.0 {
        ReportedMore(commands, c, o, Recorded(next.fills, o));
      }
    }
  }

  lemma TimelyPrefix(b: Book, commands: seq<Command>)
    requires TimelyRun(b, commands) && commands != []
    ensures TimelyRun(b, commands[..|commands| - 1])
    ensures Timely(Run(b, commands[..|commands| - 1]), commands[|commands| - 1])
  {
    var before := commands[..|commands| - 1];
    forall i | 0 <= i < |before| ensures Timely(Run(b, before[..i]), before[i]) {
      assert before[..i] == commands[..i];
    }
  }

  lemma ConsistentPrefix(commands: seq<Command>)
    requires OneUpdatePerKey(commands) && commands != []
    ensures OneUpdatePerKey(commands[..|commands| - 1])
    ensures commands == commands[..|commands| - 1] + [commands[|commands| - 1]]
  {
  }

  /**
   * Redelivery is safe over any run of the four exit paths without entry fills: what is recorded for an order
   * stays within what was reported for it, and every delivery so far is exhausted, so that a replay finds nothing.
   */
  lemma {:induction false} RunIsSettled(b: Book, commands: seq<Command>, entry: real)
    requires Sound(b, entry) && b.fills == [] && b.keys == map[]
    requires OneUpdatePerKey(commands) && TimelyRun(b, commands)
    ensures Settled(Run(b, commands), commands) && WithinReports(Run(b, commands), commands)
  {
    if commands != [] {
      var before, c := commands[..|commands| - 1], commands[|commands| - 1];
      ConsistentPrefix(commands);
      TimelyPrefix(b, commands);
      RunIsSettled(b, before, entry);
      RunIsSound(b, before, entry);
      StepStaysWithin(Run(b, before), before, c);
      if c.Manage? {
        DeliverySettles(Run(b, before), before, c.delivery);
      } else {
        OthersSettle(Run(b, before), before, c, entry);
      }
    }
  }

  /** So replaying any delivery of the run leaves the book as it is. */
  lemma ReplayAfterRun(b: Book, commands: seq<Command>, d: Delivery, entry: real)
    requires Sound(b, entry) && b.fills == [] && b.keys == map[]
    requires OneUpdatePerKey(commands) && TimelyRun(b, commands) && Told(commands, d)
    ensures Run(b, commands + [Manage(d)]) == Run(b, commands)
  {
    RunIsSettled(b, commands, entry);
    assert OneUpdatePerKey(commands + [Manage(d)]) by {
      assert forall e :: Told(commands + [Manage(d)], e) ==> Told(commands, e);
    }
    ReplayChangesNothing(Run(b, commands), commands, d);
    assert (commands + [Manage(d)])[..|commands|] == commands;
  }

  // ---------------------------------------------------------------------
  // Where the conflict clause does drop a fill

  /**
   * A delivery under a key already on file for its order drops its fill exactly when it still finds lots to
   * close, which takes a larger cumulative quantity under the same key. The trade moves, the fill is lost.
   */
  lemma KeyReusedDropsFill(b: Book, d: Delivery)
    requires d.key.Some? && d.purpose.Reduce? && HasRef(b.fills, OrderOf(b, d), Keyed(d.key.value))
    ensures Delivered(b, d).fills == b.fills
    ensures Delivered(b, d).trade.closed != b.trade.closed <==>
      Usable(d.update) && b.trade.open > 0.0 && d.update.filled > Recorded(b.fills, OrderOf(b, d))
  {
  }

  lemma RunOfTwo(b: Book, x: Command, y: Command)
    ensures Run(b, [x, y]) == Step(Step(b, x), y)
  {
    assert [x][..0] == [] && [x, y][..1] == [x];
    assert Run(b, [x]) == Step(Run(b, []), x);
  }

  lemma RunOfThree(b: Book, x: Command, y: Command, z: Command)
    ensures Run(b, [x, y, z]) == Step(Step(Step(b, x), y), z)
  {
    RunOfTwo(b, x, y);
    assert [x, y, z][..2] == [x, y];
  }

  /** Ten lots, and one key that first reports two and then five: five are closed, two are recorded. */
  lemma GrowingKeyLosesFill(price: real)
    requires price > 0.0
    ensures
      var d, e := Delivery(1, Some(1), Update(2.0, Some(price), 0), Reduce),
                  Delivery(1, Some(1), Update(5.0, Some(price), 1), Reduce);
      var run := Run(TenLots(price), [Manage(d), Manage(e)]);
      run.trade.closed == 5.0 && Recorded(run.fills, 1) == 2.0
  {
    var d, e := Delivery(1, Some(1), Update(2.0, Some(price), 0), Reduce),
                Delivery(1, Some(1), Update(5.0, Some(price), 1), Reduce);
    RunOfTwo(TenLots(price), Manage(d), Manage(e));
    var one := Delivered(TenLots(price), d);
    RecordedOfInserted([], Fill(Some(1), Keyed(1), 2.0, price), 1);
    assert one.fills == [] + [Fill(Some(1), Keyed(1), 2.0, price)] && one.trade.open == 8.0;
    assert one.fills[0].ref == Keyed(1);
    KeyReusedDropsFill(one, e);
  }

  /** The same for a protective fill, whose reference repeats when only the broker's position has moved on. */
  lemma ProtectiveRepeatDropsFill(b: Book, order: OrderId, maxQuantity: real, filled: real, price: real, at: int)
    requires HasRef(b.fills, order, Protective(filled, price))
    ensures
      var next := WithProtectiveFill(b, order, maxQuantity, filled, price, at);
      && next.fills == b.fills
      && (next.trade.closed != b.trade.closed <==>
            Live(b.trade.status) && b.trade.open > 0.0 && maxQuantity > 0.0 && filled > Recorded(b.fills, order))
  {
  }

  /** Ten lots, a protective order filled for five: three snapshots can close eight lots at that order's price. */
  lemma ProtectiveOrderOverApplied(price: real)
    ensures
      var start := Book(Trade(Protected, 10.0, 0.0, price, None, None, 0), [], map[], None);
      var run :=
        Run(start, [Protect(1, 2.0, 5.0, price, 0), Protect(1, 3.0, 5.0, price, 1), Protect(1, 3.0, 5.0, price, 2)]);
      run.trade.closed == 8.0 && Recorded(run.fills, 1) == 2.0
  {
    var start := Book(Trade(Protected, 10.0, 0.0, price, None, None, 0), [], map[], None);
    var x, y, z := Protect(1, 2.0, 5.0, price, 0), Protect(1, 3.0, 5.0, price, 1), Protect(1, 3.0, 5.0, price, 2);
    RunOfThree(start, x, y, z);
    var one := Step(start, x);
    assert one.trade.open == 8.0 && one.trade.closed == 2.0;
    RecordedOfInserted([], Fill(Some(1), Protective(5.0, price), 2.0, price), 1);
    assert one.fills == [] + [Fill(Some(1), Protective(5.0, price), 2.0, price)];
    assert one.fills[0].ref == Protective(5.0, price);
    ProtectiveRepeatDropsFill(one, 1, 3.0, 5.0, price, 1);
    var two := Step(one, y);
    assert two.trade.closed == 5.0 && two.fills == one.fills;
    ProtectiveRepeatDropsFill(two, 1, 3.0, 5.0, price, 2);
  }
}
