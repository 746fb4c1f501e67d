// Cumulative broker updates of one entry order, turned into incremental fills.

module EntryFills {
  import opened Wrappers

  type EventKey = nat

  datatype OrderStatus =
    | Submitted | Accepted | Working | PartiallyFilled | FullyFilled | Cancelled | Rejected | Expired | OtherOrderStatus

  predicate Terminal(s: OrderStatus) {
    s.FullyFilled? || s.Cancelled? || s.Rejected? || s.Expired?
  }

  /**
   * A figure under one name of an update's JSON: not there, null, the empty text, a text that is no finite number, or
   * a number or its text.
   */
  datatype Figure = Absent | Null | Blank | NoNumber | Number(value: real)

  /** Both names of the cumulative quantity and both of its average price. */
  datatype Raw = Raw(filledQuantity: Figure, filled: Figure, averageFillPrice: Figure, avgFillPrice: Figure)

  datatype Update = Update(key: Option<EventKey>, status: OrderStatus, raw: Raw)

  datatype OrderRow = OrderRow(status: OrderStatus, raw: Raw)

  datatype FillRef = Keyed(key: EventKey) | Numbered(filled: real, average: real)

  datatype Fill = Fill(ref: FillRef, quantity: real, price: real)

  datatype EntryTrade = EntryTrade(open: real, avgEntry: real)

  datatype Book = Book(order: Option<OrderRow>, trade: Option<EntryTrade>, fills: seq<Fill>, keys: set<EventKey>)

  const EMPTY := Book(None, None, [], {})

  // ---------------------------------------------------------------------
  // One update

  /** `??` lets neither a missing name nor null pass. */
  predicate Given(f: Figure) {
    !f.Absent? && !f.Null?
  }

  function Coalesce(f: Figure, other: Figure): Figure {
    if Given(f) then f else other
  }

  /** The bridge's reading of an update's own figure, `finite`. */
  function Finite(f: Figure): Option<real> {
    if f.Number? then Some(f.value) else None
  }

  /** The repository's reading of a stored figure, `Number(figure ?? 0)`; nothing for what is not a number. */
  function Stored(f: Figure): Option<real> {
    match f
    case Number(x) => Some(x)
    case NoNumber => None
    case _ => Some(0.0)
  }

  /** The cumulative quantity an update reports. */
  function Reported(u: Update): real {
    var own := Finite(Coalesce(u.raw.filledQuantity, u.raw.filled));
    if own.Some? then own.value else 0.0
  }

  function ReportedAverage(u: Update): Option<real> {
    Finite(Coalesce(u.raw.averageFillPrice, u.raw.avgFillPrice))
  }

  function StoredFilled(order: Option<OrderRow>): Option<real> {
    if order.None? then Some(0.0) else Stored(Coalesce(order.value.raw.filledQuantity, order.value.raw.filled))
  }

  function StoredAverage(order: Option<OrderRow>): Option<real> {
    if order.None? then Some(0.0) else Stored(Coalesce(order.value.raw.averageFillPrice, order.value.raw.avgFillPrice))
  }

  predicate Frozen(order: Option<OrderRow>) {
    order.Some? && Terminal(order.value.status)
  }

  /** A name the update carries, even as null, replaces the stored one. */
  function Over(stored: Figure, more: Figure): Figure {
    if more.Absent? then stored else more
  }

  /** jsonb concatenation, name by name. */
  function Merged(stored: Raw, more: Raw): Raw {
    Raw(Over(stored.filledQuantity, more.filledQuantity), Over(stored.filled, more.filled),
        Over(stored.averageFillPrice, more.averageFillPrice), Over(stored.avgFillPrice, more.avgFillPrice))
  }

  /** The upsert keeps status and raw of an order that has ended. */
  function UpsertedOrder(order: Option<OrderRow>, u: Update): OrderRow {
    if order.None? then OrderRow(u.status, u.raw)
    else if Frozen(order) then order.value
    else OrderRow(u.status, Merged(order.value.raw, u.raw))
  }

  predicate Fills(order: Option<OrderRow>, u: Update) {
    && StoredFilled(order).Some? && Reported(u) > StoredFilled(order).value
    && ReportedAverage(u).Some? && ReportedAverage(u).value > 0.0
  }

  function IncrementalPrice(order: Option<OrderRow>, u: Update): real
    requires Fills(order, u)
  {
    var previous, average := StoredFilled(order).value, ReportedAverage(u).value;
    if previous > 0.0 && StoredAverage(order).Some?
    then (average * Reported(u) - StoredAverage(order).value * previous) / (Reported(u) - previous)
    else average
  }

  function FillOf(order: Option<OrderRow>, u: Update): Fill
    requires Fills(order, u)
  {
    Fill(if u.key.Some? then Keyed(u.key.value) else Numbered(Reported(u), ReportedAverage(u).value),
         Reported(u) - StoredFilled(order).value, IncrementalPrice(order, u))
  }

  predicate HasRef(fills: seq<Fill>, ref: FillRef) {
    exists i :: 0 <= i < |fills| && fills[i].ref == ref
  }

  function WithFill(fills: seq<Fill>, fill: Fill): seq<Fill> {
    if HasRef(fills, fill.ref) then fills else fills + [fill]
  }

  predicate Duplicate(b: Book, u: Update) {
    u.key.Some? && u.key.value in b.keys
  }

  function Updated(b: Book, u: Update): Book {
    if Duplicate(b, u) then b
    else
      var filled := Fills(b.order, u);
      Book(
        Some(UpsertedOrder(b.order, u)),
        if filled then Some(EntryTrade(Reported(u), ReportedAverage(u).value)) else b.trade,
        if filled then WithFill(b.fills, FillOf(b.order, u)) else b.fills,
        if u.key.Some? then b.keys + {u.key.value} else b.keys)
  }

  class EntryLedger {
    var order: Option<OrderRow>
    var trade: Option<EntryTrade>
    var fills: seq<Fill>
    var keys: set<EventKey>

    constructor ()
      ensures BookNow() == EMPTY
    {
      order, trade, fills, keys := None, None, [], {};
    }

    function BookNow(): Book
      reads this
    {
      Book(order, trade, fills, keys)
    }

    method PersistEntryFillAndTrade(previousOrder: Option<OrderRow>, u: Update)
      modifies this`trade, this`fills
      ensures trade ==
        if Fills(previousOrder, u) then Some(EntryTrade(Reported(u), ReportedAverage(u).value)) else old(trade)
      ensures fills == if Fills(previousOrder, u) then WithFill(old(fills), FillOf(previousOrder, u)) else old(fills)
    {
      var filled, previousFilled := Reported(u), StoredFilled(previousOrder);
      if previousFilled.None? || !(filled - previousFilled.value > 0.0) { return; }
      var averagePrice := ReportedAverage(u);
      if averagePrice.None? || averagePrice.value <= 0.0 { return; }
      var fill := FillOf(previousOrder, u);
      trade := Some(EntryTrade(filled, averagePrice.value));
      var i := 0;
      while i < |fills| && fills[i].ref != fill.ref
        invariant 0 <= i <= |fills|
        invariant forall k :: 0 <= k < i ==> fills[k].ref != fill.ref
      {
        i := i + 1;
      }
      if i == |fills| { fills := fills + [fill]; }
    }

    method RecordBrokerUpdate(u: Update)
      modifies this
      ensures BookNow() == Updated(old(BookNow()), u)
    {
      if u.key.Some? && u.key.value in keys { return; }
      var previousOrder := order;
      order := Some(UpsertedOrder(order, u));
      if u.key.Some? { keys := keys + {u.key.value}; }
      PersistEntryFillAndTrade(previousOrder, u);
    }
  }

  // ---------------------------------------------------------------------
  // Runs

  function Run(updates: seq<Update>): Book {
    if updates == [] then EMPTY
    else Updated(Run(updates[..|updates| - 1]), updates[|updates| - 1])
  }

  /** A delivery under a known key changes nothing. */
  lemma DuplicateChangesNothing(updates: seq<Update>, u: Update)
    requires u in updates && u.key.Some?
    ensures Run(updates + [u]) == Run(updates)
  {
    KeysAreKept(updates, u);
    assert (updates + [u])[..|updates|] == updates;
  }

  lemma {:induction false} KeysAreKept(updates: seq<Update>, u: Update)
    requires u in updates && u.key.Some?
    ensures u.key.value in Run(updates).keys
  {
    var n := |updates| - 1;
    if updates[n] != u {
      assert u in updates[..n];
      KeysAreKept(updates[..n], u);
    }
  }

  function TotalQuantity(fills: seq<Fill>): real {
    if fills == [] then 0.0 else TotalQuantity(fills[..|fills| - 1]) + fills[|fills| - 1].quantity
  }

  function TotalValue(fills: seq<Fill>): real {
    if fills == [] then 0.0
    else TotalValue(fills[..|fills| - 1]) + fills[|fills| - 1].quantity * fills[|fills| - 1].price
  }

  // ---------------------------------------------------------------------
  // Which stored figure a later update will read

  /**
   * After the merge the lookup reads the update's own figure rather than an older one: it comes under the name looked
   * up first, or no older figure is under that name any more.
   */
  predicate OwnIsRead(first: Figure, own: Figure, other: Figure) {
    Given(own) || (Given(other) && (own.Null? || !Given(first)))
  }

  predicate FilledIsRead(order: Option<OrderRow>, u: Update) {
    order.None? || OwnIsRead(order.value.raw.filledQuantity, u.raw.filledQuantity, u.raw.filled)
  }

  predicate AverageIsRead(order: Option<OrderRow>, u: Update) {
    order.None? || OwnIsRead(order.value.raw.averageFillPrice, u.raw.averageFillPrice, u.raw.avgFillPrice)
  }

  lemma OwnFigureIsRead(first: Figure, second: Figure, own: Figure, other: Figure)
    requires OwnIsRead(first, own, other)
    ensures Coalesce(Over(first, own), Over(second, other)) == Coalesce(own, other)
  {
  }

  /** An older figure of the name looked up first hides the update's. */
  lemma OlderFigureIsRead(first: Figure, second: Figure, own: Figure, other: Figure)
    requires !OwnIsRead(first, own, other) && Given(Coalesce(own, other))
    ensures Coalesce(Over(first, own), Over(second, other)) == Coalesce(first, second)
  {
  }

  function AfterwardsOf(order: Option<OrderRow>, u: Update): Option<OrderRow> {
    Some(UpsertedOrder(order, u))
  }

  /** The quantity an increase reports is on file afterwards exactly when the order is live and the lookup reads it. */
  lemma IncreaseIsRemembered(order: Option<OrderRow>, u: Update)
    requires Fills(order, u) && StoredFilled(order).value >= 0.0
    ensures StoredFilled(AfterwardsOf(order, u)) == Some(Reported(u)) <==> !Frozen(order) && FilledIsRead(order, u)
    ensures (!Frozen(order) && FilledIsRead(order, u)) || StoredFilled(AfterwardsOf(order, u)) == StoredFilled(order)
  {
    if order.Some? && !Frozen(order) {
      var stored := order.value.raw;
      if FilledIsRead(order, u) {
        OwnFigureIsRead(stored.filledQuantity, stored.filled, u.raw.filledQuantity, u.raw.filled);
      } else {
        OlderFigureIsRead(stored.filledQuantity, stored.filled, u.raw.filledQuantity, u.raw.filled);
      }
    }
  }

  /**
   * Its average is on file afterwards exactly when the order is live and the lookup reads it, or it was there before.
   */
  lemma AverageIsRemembered(order: Option<OrderRow>, u: Update)
    requires Fills(order, u)
    ensures StoredAverage(AfterwardsOf(order, u)) == ReportedAverage(u) <==>
      (!Frozen(order) && AverageIsRead(order, u)) || StoredAverage(order) == ReportedAverage(u)
  {
    if order.Some? && !Frozen(order) {
      var stored := order.value.raw;
      if AverageIsRead(order, u) {
        OwnFigureIsRead(stored.averageFillPrice, stored.avgFillPrice, u.raw.averageFillPrice, u.raw.avgFillPrice);
      } else {
        OlderFigureIsRead(stored.averageFillPrice, stored.avgFillPrice, u.raw.averageFillPrice, u.raw.avgFillPrice);
      }
    }
  }

  // ---------------------------------------------------------------------
  // Telescoping

  /**
   * An increase with a positive average on an order that has not ended; later lookups will read its figures, and the
   * average stored so far, if it counts, is a number.
   */
  predicate RegularIncrease(order: Option<OrderRow>, u: Update) {
    && Fills(order, u) && !Frozen(order)
    && FilledIsRead(order, u) && AverageIsRead(order, u)
    && (StoredFilled(order).value == 0.0 || StoredAverage(order).Some?)
  }

  /** No increase, and the stored quantity stays, as when no quantity comes with the update or the same one. */
  predicate RegularLevel(order: Option<OrderRow>, u: Update) {
    && StoredFilled(order).Some? && Reported(u) <= StoredFilled(order).value
    && StoredFilled(AfterwardsOf(order, u)) == StoredFilled(order)
  }

  /** What telescoping asks of an update, all of it known before it is applied. */
  predicate Regular(b: Book, u: Update) {
    Duplicate(b, u) || RegularIncrease(b.order, u) || RegularLevel(b.order, u)
  }

  predicate RegularRun(updates: seq<Update>)
  {
    updates == []
    || (RegularRun(updates[..|updates| - 1]) && Regular(Run(updates[..|updates| - 1]), updates[|updates| - 1]))
  }

  function Quantity(order: Option<OrderRow>): real {
    if StoredFilled(order).Some? then StoredFilled(order).value else 0.0
  }

  function Average(order: Option<OrderRow>): real {
    if StoredAverage(order).Some? then StoredAverage(order).value else 0.0
  }

  /** A change of the stored average without new quantity: what it adds to average times quantity without a fill. */
  function Correction(b: Book, u: Update): real {
    if Duplicate(b, u) || Fills(b.order, u) then 0.0
    else (Average(AfterwardsOf(b.order, u)) - Average(b.order)) * Quantity(b.order)
  }

  function Corrections(updates: seq<Update>): real {
    if updates == [] then 0.0
    else
      var before := updates[..|updates| - 1];
      Corrections(before) + Correction(Run(before), updates[|updates| - 1])
  }

  /** Nothing on file yet stands for a larger quantity than the order's, and every keyed fill's key is known. */
  predicate RefsBehind(b: Book) {
    && StoredFilled(b.order).Some? && Quantity(b.order) >= 0.0
    && forall i :: 0 <= i < |b.fills| ==>
         match b.fills[i].ref
         case Keyed(k) => k in b.keys
         case Numbered(filled, _) => filled <= Quantity(b.order)
  }

  ghost predicate Telescoped(b: Book, corrections: real) {
    && RefsBehind(b)
    && TotalQuantity(b.fills) == Quantity(b.order)
    && TotalValue(b.fills) == Average(b.order) * Quantity(b.order) - corrections
  }

  lemma TotalsOfInserted(fills: seq<Fill>, fill: Fill)
    ensures TotalQuantity(fills + [fill]) == TotalQuantity(fills) + fill.quantity
    ensures TotalValue(fills + [fill]) == TotalValue(fills) + fill.quantity * fill.price
  {
  }

  lemma PriceTimesGrowth(average: real, filled: real, value: real, previous: real)
    requires filled > previous
    ensures (filled - previous) * ((average * filled - value * previous) / (filled - previous))
         == average * filled - value * previous
  {
  }

  /** The value of an increment is the growth of average times quantity. */
  lemma IncrementValue(order: Option<OrderRow>, u: Update)
    requires Fills(order, u) && StoredFilled(order).value >= 0.0
    requires StoredFilled(order).value == 0.0 || StoredAverage(order).Some?
    ensures FillOf(order, u).quantity * FillOf(order, u).price
         == ReportedAverage(u).value * Reported(u) - Average(order) * Quantity(order)
  {
    if StoredFilled(order).value > 0.0 {
      PriceTimesGrowth(ReportedAverage(u).value, Reported(u), Average(order), Quantity(order));
    }
  }

  lemma IncreaseIsNew(b: Book, u: Update)
    requires RefsBehind(b) && !Duplicate(b, u) && Fills(b.order, u)
    ensures WithFill(b.fills, FillOf(b.order, u)) == b.fills + [FillOf(b.order, u)]
  {
  }

  lemma UpdateTelescopes(b: Book, u: Update, corrections: real)
    requires Telescoped(b, corrections) && Regular(b, u)
    ensures Telescoped(Updated(b, u), corrections + Correction(b, u))
  {
    if !Duplicate(b, u) {
      if Fills(b.order, u) {
        IncreaseTelescopes(b, u, corrections);
      } else {
        LevelTelescopes(b, u, corrections);
      }
    }
  }

  lemma IncreaseIsStored(order: Option<OrderRow>, u: Update)
    requires RegularIncrease(order, u) && StoredFilled(order).value >= 0.0
    ensures Quantity(AfterwardsOf(order, u)) == Reported(u) && StoredFilled(AfterwardsOf(order, u)).Some?
    ensures Average(AfterwardsOf(order, u)) == ReportedAverage(u).value
  {
    IncreaseIsRemembered(order, u);
    AverageIsRemembered(order, u);
  }

  lemma TelescopedAfterIncrease(next: Book, order: Option<OrderRow>, u: Update, corrections: real)
    requires RegularIncrease(order, u) && StoredFilled(order).value >= 0.0
    requires next.order == AfterwardsOf(order, u) && RefsBehind(next)
    requires TotalQuantity(next.fills) == Reported(u)
    requires TotalValue(next.fills) == ReportedAverage(u).value * Reported(u) - corrections
    ensures Telescoped(next, corrections)
  {
    IncreaseIsStored(order, u);
  }

  lemma IncreaseKeepsRefs(b: Book, u: Update)
    requires RefsBehind(b) && !Duplicate(b, u) && RegularIncrease(b.order, u)
    ensures RefsBehind(Updated(b, u))
  {
    IncreaseIsNew(b, u);
    IncreaseIsStored(b.order, u);
  }

  lemma TotalsAfterIncrease(b: Book, u: Update, corrections: real)
    requires Telescoped(b, corrections) && !Duplicate(b, u) && RegularIncrease(b.order, u)
    ensures
      var next := Updated(b, u);
      && TotalQuantity(next.fills) == Reported(u)
      && TotalValue(next.fills) == ReportedAverage(u).value * Reported(u) - corrections
  {
    IncreaseIsNew(b, u);
    TotalsOfInserted(b.fills, FillOf(b.order, u));
    IncrementValue(b.order, u);
  }

  lemma IncreaseTelescopes(b: Book, u: Update, corrections: real)
    requires Telescoped(b, corrections) && !Duplicate(b, u) && RegularIncrease(b.order, u)
    ensures Telescoped(Updated(b, u), corrections)
  {
    IncreaseKeepsRefs(b, u);
    TotalsAfterIncrease(b, u, corrections);
    TelescopedAfterIncrease(Updated(b, u), b.order, u, corrections);
  }

  lemma LevelTelescopes(b: Book, u: Update, corrections: real)
    requires Telescoped(b, corrections) && !Duplicate(b, u) && RegularLevel(b.order, u)
    ensures Telescoped(Updated(b, u), corrections + Correction(b, u))
  {
    assert Updated(b, u).fills == b.fills && Quantity(Updated(b, u).order) == Quantity(b.order);
  }

  /**
   * Over every regular run the recorded quantities add up to the stored cumulative quantity, and quantity times price
   * to average times quantity, less what corrections of the average alone have moved.
   */
  lemma {:induction false} FillsTelescope(updates: seq<Update>)
    requires RegularRun(updates)
    ensures Telescoped(Run(updates), Corrections(updates))
  {
    if updates != [] {
      var before := updates[..|updates| - 1];
      FillsTelescope(before);
      UpdateTelescopes(Run(before), updates[|updates| - 1], Corrections(before));
    }
  }

  /** When no average changes without new quantity, value telescopes exactly. */
  lemma {:induction false} NoCorrections(updates: seq<Update>)
    requires forall i :: 0 <= i < |updates| ==> Correction(Run(updates[..i]), updates[i]) == 0.0
    ensures Corrections(updates) == 0.0
  {
    if updates != [] {
      var before := updates[..|updates| - 1];
      forall i | 0 <= i < |before| ensures Correction(Run(before[..i]), before[i]) == 0.0 {
        assert before[..i] == updates[..i];
        assert Correction(Run(updates[..i]), updates[i]) == 0.0;
      }
      assert Correction(Run(before), updates[|updates| - 1]) == 0.0;
      NoCorrections(before);
    }
  }

  /** Update `i` of a run is not a redelivery. */
  predicate Fresh(updates: seq<Update>, i: nat)
    requires i < |updates|
  {
    !Duplicate(Run(updates[..i]), updates[i])
  }

  /** No update has reported more than `total`, and one has reported it unless it is zero; redeliveries aside. */
  ghost predicate LargestReported(updates: seq<Update>, total: real) {
    && (forall i :: 0 <= i < |updates| && Fresh(updates, i) ==> Reported(updates[i]) <= total)
    && (total == 0.0 || exists i :: 0 <= i < |updates| && Fresh(updates, i) && Reported(updates[i]) == total)
  }

  lemma FreshInLonger(updates: seq<Update>, u: Update, i: nat)
    requires i <= |updates|
    ensures Fresh(updates + [u], i) <==> if i < |updates| then Fresh(updates, i) else !Duplicate(Run(updates), u)
  {
    assert (updates + [u])[..i] == updates[..i];
    assert updates[..|updates|] == updates;
  }

  lemma LargestOfMore(updates: seq<Update>, u: Update, total: real, next: real)
    requires LargestReported(updates, total)
    requires next == if !Duplicate(Run(updates), u) && Reported(u) > total then Reported(u) else total
    ensures LargestReported(updates + [u], next)
  {
    var more := updates + [u];
    forall i | 0 <= i <= |updates|
      ensures Fresh(more, i) <==> if i < |updates| then Fresh(updates, i) else !Duplicate(Run(updates), u)
    {
      FreshInLonger(updates, u, i);
    }
    if total != 0.0 {
      var i :| 0 <= i < |updates| && Fresh(updates, i) && Reported(updates[i]) == total;
      assert Fresh(more, i) && more[i] == updates[i];
    }
    assert more[|updates|] == u;
  }

  lemma NextQuantity(b: Book, u: Update, corrections: real)
    requires Telescoped(b, corrections) && Regular(b, u)
    ensures Quantity(Updated(b, u).order)
         == if !Duplicate(b, u) && Reported(u) > Quantity(b.order) then Reported(u) else Quantity(b.order)
  {
    if !Duplicate(b, u) && Fills(b.order, u) { IncreaseIsRemembered(b.order, u); }
  }

  /** What the fills of a regular run add up to is the largest cumulative quantity any update of it has reported. */
  lemma {:induction false} TotalIsLargestReported(updates: seq<Update>)
    requires RegularRun(updates)
    ensures LargestReported(updates, TotalQuantity(Run(updates).fills))
  {
    FillsTelescope(updates);
    if updates != [] {
      var before, u := updates[..|updates| - 1], updates[|updates| - 1];
      TotalIsLargestReported(before);
      FillsTelescope(before);
      NextQuantity(Run(before), u, Corrections(before));
      LargestOfMore(before, u, Quantity(Run(before).order), Quantity(Run(updates).order));
      assert updates == before + [u];
    }
  }

  // ---------------------------------------------------------------------
  // Where telescoping fails

  /**
   * An increase is recorded in full, but it is remembered exactly when the order has not ended and the lookup will
   * read the quantity just reported: otherwise the next update is measured against the older one.
   */
  lemma IncreaseForgottenExactly(b: Book, u: Update, corrections: real)
    requires Telescoped(b, corrections) && !Duplicate(b, u) && Fills(b.order, u)
    ensures TotalQuantity(Updated(b, u).fills) == Reported(u)
    ensures StoredFilled(Updated(b, u).order) == Some(TotalQuantity(Updated(b, u).fills)) <==>
      !Frozen(b.order) && FilledIsRead(b.order, u)
  {
    IncreaseIsNew(b, u);
    IncreaseIsRemembered(b.order, u);
    TotalsOfInserted(b.fills, FillOf(b.order, u));
  }

  /** An increase the lookup will read is recorded exactly when a positive average comes with it. */
  lemma IncreaseLostExactly(b: Book, u: Update, corrections: real)
    requires Telescoped(b, corrections) && !Duplicate(b, u)
    requires !Frozen(b.order) && FilledIsRead(b.order, u) && Reported(u) > Quantity(b.order)
    ensures StoredFilled(Updated(b, u).order) == Some(Reported(u))
    ensures TotalQuantity(Updated(b, u).fills) == Reported(u) <==>
      ReportedAverage(u).Some? && ReportedAverage(u).value > 0.0
  {
    if b.order.Some? {
      var stored := b.order.value.raw;
      OwnFigureIsRead(stored.filledQuantity, stored.filled, u.raw.filledQuantity, u.raw.filled);
    }
    if Fills(b.order, u) { IncreaseForgottenExactly(b, u, corrections); }
  }

  /** Under `filled_quantity` and `average_fill_price`. */
  function LongNames(filled: real, average: real): Raw {
    Raw(Number(filled), Absent, Number(average), Absent)
  }

  /** Under `filled` and `avg_fill_price`. */
  function ShortNames(filled: real, average: real): Raw {
    Raw(Absent, Number(filled), Absent, Number(average))
  }

  lemma RunOfThree(a: Update, b: Update, c: Update)
    ensures Run([a, b, c]) == Updated(Updated(Updated(EMPTY, a), b), c)
    ensures Run([a, b]) == Updated(Updated(EMPTY, a), b)
  {
    assert [a][..0] == [] && [a, b][..1] == [a] && [a, b, c][..2] == [a, b];
    assert Run([]) == EMPTY;
    assert Run([a]) == Updated(Run([]), a);
  }

  /** Two lots first, then one more reported twice and forgotten in between. */
  lemma CountedTwice(a: Update, b: Update, c: Update, price: real)
    requires price > 0.0 && Keys(a, b, c)
    requires Reported(a) == 2.0 && Reported(b) == 3.0 && Reported(c) == 3.0
    requires ReportedAverage(a) == ReportedAverage(b) == ReportedAverage(c) == Some(price)
    requires
      var one := AfterwardsOf(None, a);
      StoredFilled(one) == Some(2.0) && StoredFilled(AfterwardsOf(one, b)) == Some(2.0)
    ensures
      var run := Run([a, b, c]);
      TotalQuantity(run.fills) == 4.0 && run.trade == Some(EntryTrade(3.0, price))
  {
    RunOfThree(a, b, c);
    var one := Updated(EMPTY, a);
    var two := Updated(one, b);
    assert one.fills == [] + [FillOf(None, a)];
    assert two.fills == one.fills + [FillOf(one.order, b)];
    assert Updated(two, c).fills == two.fills + [FillOf(two.order, c)];
    TotalsOfInserted([], FillOf(None, a));
    TotalsOfInserted(one.fills, FillOf(one.order, b));
    TotalsOfInserted(two.fills, FillOf(two.order, c));
  }

  predicate Keys(a: Update, b: Update, c: Update) {
    a.key == Some(1) && b.key == Some(2) && c.key == Some(3)
  }

  /** Cancelled at two lots, then three reported twice under new keys: four lots are recorded. */
  lemma LateIncreaseCountedTwice(price: real)
    requires price > 0.0
    ensures
      var run := Run([Update(Some(1), Cancelled, LongNames(2.0, price)),
                      Update(Some(2), Cancelled, LongNames(3.0, price)),
                      Update(Some(3), Cancelled, LongNames(3.0, price))]);
      TotalQuantity(run.fills) == 4.0 && run.trade == Some(EntryTrade(3.0, price))
  {
    CountedTwice(
      Update(Some(1), Cancelled, LongNames(2.0, price)), Update(Some(2), Cancelled, LongNames(3.0, price)),
      Update(Some(3), Cancelled, LongNames(3.0, price)), price);
  }

  /** The same on a live order whose updates change from one spelling to the other. */
  lemma MixedSpellingCountedTwice(price: real)
    requires price > 0.0
    ensures
      var run := Run([Update(Some(1), Working, LongNames(2.0, price)),
                      Update(Some(2), Working, ShortNames(3.0, price)),
                      Update(Some(3), Working, ShortNames(3.0, price))]);
      TotalQuantity(run.fills) == 4.0 && run.trade == Some(EntryTrade(3.0, price))
  {
    CountedTwice(
      Update(Some(1), Working, LongNames(2.0, price)), Update(Some(2), Working, ShortNames(3.0, price)),
      Update(Some(3), Working, ShortNames(3.0, price)), price);
  }

  /** Two lots filled at a price: an update that reports no more of them leaves the fills alone. */
  lemma ValueOfLevelRun(a: Update, b: Update, price: real)
    requires a == Update(Some(1), Working, LongNames(2.0, price)) && price > 0.0
    requires b.key == Some(2) && Reported(b) <= 2.0
    ensures
      var run := Run([a, b]);
      && TotalValue(run.fills) == 2.0 * price && run.order == AfterwardsOf(AfterwardsOf(None, a), b)
      && run.trade == Some(EntryTrade(2.0, price))
  {
    RunOfThree(a, b, b);
    var one := Updated(EMPTY, a);
    assert FillOf(None, a) == Fill(Keyed(1), 2.0, price);
    assert one.fills == [] + [FillOf(None, a)];
    TotalsOfInserted([], FillOf(None, a));
    assert Updated(one, b).fills == one.fills;
  }

  /** Two lots, then their average corrected by one: average times quantity has moved by two, the fills have not. */
  lemma CorrectedAverageMovesValue(price: real)
    requires price > 0.0
    ensures
      var run := Run([Update(Some(1), Working, LongNames(2.0, price)),
                      Update(Some(2), Working, LongNames(2.0, price + 1.0))]);
      TotalValue(run.fills) == 2.0 * price && Average(run.order) * Quantity(run.order) == 2.0 * price + 2.0
  {
    ValueOfLevelRun(
      Update(Some(1), Working, LongNames(2.0, price)), Update(Some(2), Working, LongNames(2.0, price + 1.0)), price);
  }

  /** Two lots, then an empty text for their average: the stored average counts as zero from then on. */
  lemma BlankAverageIsForgotten(price: real)
    requires price > 0.0
    ensures
      var run := Run([Update(Some(1), Working, LongNames(2.0, price)),
                      Update(Some(2), Working, Raw(Number(2.0), Absent, Blank, Absent))]);
      TotalValue(run.fills) == 2.0 * price && Average(run.order) * Quantity(run.order) == 0.0
  {
    ValueOfLevelRun(
      Update(Some(1), Working, LongNames(2.0, price)),
      Update(Some(2), Working, Raw(Number(2.0), Absent, Blank, Absent)), price);
  }

  lemma OnlyFirstFills(a: Update, b: Update, c: Update)
    requires Keys(a, b, c) && Fills(None, a)
    requires !Fills(AfterwardsOf(None, a), b) && !Fills(AfterwardsOf(AfterwardsOf(None, a), b), c)
    ensures
      var run := Run([a, b, c]);
      && TotalQuantity(run.fills) == Reported(a)
      && run.trade == Some(EntryTrade(Reported(a), ReportedAverage(a).value))
      && run.order == AfterwardsOf(AfterwardsOf(AfterwardsOf(None, a), b), c)
  {
    RunOfThree(a, b, c);
    TotalsOfInserted([], FillOf(None, a));
    assert Updated(EMPTY, a).fills == [] + [FillOf(None, a)];
  }

  /** Two lots, then a third without a price: it is on file, so that no later report of three lots fills it. */
  lemma UnpricedIncreaseIsLost(price: real)
    requires price > 0.0
    ensures
      var run := Run([Update(Some(1), Working, LongNames(2.0, price)),
                      Update(Some(2), Working, Raw(Number(3.0), Absent, Absent, Absent)),
                      Update(Some(3), Working, LongNames(3.0, price))]);
      TotalQuantity(run.fills) == 2.0 && run.trade == Some(EntryTrade(2.0, price)) && Quantity(run.order) == 3.0
  {
    var a, b, c := Update(Some(1), Working, LongNames(2.0, price)),
                   Update(Some(2), Working, Raw(Number(3.0), Absent, Absent, Absent)),
                   Update(Some(3), Working, LongNames(3.0, price));
    var one := AfterwardsOf(None, a);
    assert ReportedAverage(b).None? && Reported(c) == 3.0;
    assert StoredFilled(AfterwardsOf(one, b)) == Some(3.0);
    OnlyFirstFills(a, b, c);
  }
}
