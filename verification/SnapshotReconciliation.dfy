// Desk and broker snapshots compared: order references as sets, positions as
// signed net quantities per account and instrument.

module SnapshotReconciliation {
  import opened Wrappers
  import opened JsText
  import opened Permutations
  import opened PositionKeys

  datatype Side = Long | Short | Flat | OtherSide

  /** A position as listed; `account` is empty when none is given, `quantity` counts lots. */
  datatype Position = Position(instrument: Text, account: Text, quantity: int, side: Side)

  datatype Snapshot = Snapshot(orders: seq<Text>, positions: seq<Position>)

  const STAR := Ascii("*")

  const LETTER: CodeUnit := 65

  function AccountKey(account: Text): Text {
    if Trim(account) == [] then STAR else Trim(account)
  }

  function AccountOf(p: Position, defaultAccount: Text): Text {
    AccountKey(if p.account == [] then defaultAccount else p.account)
  }

  function MapKey(account: Text, instrument: Text): Text {
    AccountKey(account) + [COLON, COLON] + PositionKey(instrument)
  }

  /** Sells are negative, flat positions and non-positive quantities nothing. */
  function SignedQuantity(p: Position): int {
    if p.quantity <= 0 || p.side.Flat? then 0 else if p.side.Short? then -p.quantity else p.quantity
  }

  /** Positions without an instrument are skipped. */
  predicate Counts(p: Position) {
    PositionKey(p.instrument) != []
  }

  function KeyOf(p: Position, defaultAccount: Text): Text {
    MapKey(AccountOf(p, defaultAccount), PositionKey(p.instrument))
  }

  /** Under which key a position is counted, if any. */
  type Keying = Position -> Option<Text>

  function KeyingFor(defaultAccount: Text): Keying {
    (p: Position) => if Counts(p) then Some(KeyOf(p, defaultAccount)) else None
  }

  // ---------------------------------------------------------------------
  // Net positions

  /** The signed net quantity listed under a key; zero when the key is absent. */
  function NetUnder(positions: seq<Position>, keying: Keying, key: Text): int {
    if positions == [] then 0
    else
      var last := positions[|positions| - 1];
      NetUnder(positions[..|positions| - 1], keying, key)
        + if keying(last) == Some(key) then SignedQuantity(last) else 0
  }

  predicate Listed(positions: seq<Position>, keying: Keying, key: Text) {
    exists i :: 0 <= i < |positions| && keying(positions[i]) == Some(key)
  }

  ghost predicate Distinct(keys: seq<Text>) {
    forall i, k :: 0 <= i < k < |keys| ==> keys[i] != keys[k]
  }

  /** One net per listed key, the keys in order of first appearance. */
  ghost predicate Aggregated(keys: seq<Text>, nets: map<Text, int>, positions: seq<Position>, keying: Keying) {
    && Distinct(keys)
    && (forall key :: key in keys <==> key in nets)
    && (forall key :: key in nets <==> Listed(positions, keying, key))
    && (forall key :: key in nets ==> nets[key] == NetUnder(positions, keying, key))
  }

  lemma OneMorePosition(positions: seq<Position>, p: Position, keying: Keying, key: Text)
    ensures Listed(positions + [p], keying, key) <==> Listed(positions, keying, key) || keying(p) == Some(key)
    ensures NetUnder(positions + [p], keying, key)
         == NetUnder(positions, keying, key) + if keying(p) == Some(key) then SignedQuantity(p) else 0
  {
    var more := positions + [p];
    assert more[..|positions|] == positions;
    if Listed(positions, keying, key) {
      var i :| 0 <= i < |positions| && keying(positions[i]) == Some(key);
      assert keying(more[i]) == Some(key);
    }
    assert more[|positions|] == p;
  }

  lemma {:induction false} NotListedIsZero(positions: seq<Position>, keying: Keying, key: Text)
    requires !Listed(positions, keying, key)
    ensures NetUnder(positions, keying, key) == 0
  {
    if positions != [] {
      var n := |positions| - 1;
      assert keying(positions[n]) != Some(key);
      assert forall i :: 0 <= i < n ==> positions[..n][i] == positions[i];
      NotListedIsZero(positions[..n], keying, key);
    }
  }

  lemma PositionIsAdded(keys: seq<Text>, nets: map<Text, int>, positions: seq<Position>, p: Position, keying: Keying)
    requires Aggregated(keys, nets, positions, keying)
    ensures keying(p).None? ==> Aggregated(keys, nets, positions + [p], keying)
    ensures keying(p).Some? ==>
      var key := keying(p).value;
      Aggregated(if key in nets then keys else keys + [key],
                 nets[key := (if key in nets then nets[key] else 0) + SignedQuantity(p)], positions + [p], keying)
  {
    forall key
      ensures Listed(positions + [p], keying, key) <==> Listed(positions, keying, key) || keying(p) == Some(key)
      ensures NetUnder(positions + [p], keying, key)
           == NetUnder(positions, keying, key) + if keying(p) == Some(key) then SignedQuantity(p) else 0
    {
      OneMorePosition(positions, p, keying, key);
    }
    if keying(p).Some? {
      var key := keying(p).value;
      if key !in nets {
        NotListedIsZero(positions, keying, key);
        DistinctWithNew(keys, key);
      }
    }
  }

  lemma DistinctWithNew(keys: seq<Text>, key: Text)
    requires Distinct(keys) && key !in keys
    ensures Distinct(keys + [key]) && forall other :: other in keys + [key] <==> other in keys || other == key
  {
  }

  method AggregateSignedPositions(positions: seq<Position>, keying: Keying)
    returns (keys: seq<Text>, nets: map<Text, int>)
    ensures Aggregated(keys, nets, positions, keying)
  {
    keys, nets := [], map[];
    for i := 0 to |positions|
      invariant Aggregated(keys, nets, positions[..i], keying)
    {
      var item := positions[i];
      assert positions[..i + 1] == positions[..i] + [item];
      PositionIsAdded(keys, nets, positions[..i], item, keying);
      if keying(item).Some? {
        var key := keying(item).value;
        var current := if key in nets then nets[key] else 0;
        if key !in nets { keys := keys + [key]; }
        nets := nets[key := current + SignedQuantity(item)];
      }
    }
    assert positions[..|positions|] == positions;
  }

  // ---------------------------------------------------------------------
  // Mismatches

  datatype Mismatch =
    | OrderMissingAtBroker(ref: Text)
    | OrderUnknownToDesk(ref: Text)
    | SideMismatch(key: Text, desk: int, broker: int)
    | QuantityMismatch(key: Text, desk: int, broker: int)
    | UnknownToDesk(key: Text, broker: int)

  function Abs(x: int): int {
    if x < 0 then -x else x
  }

  /** What two nets under one key call for. */
  function Expected(key: Text, listed: bool, desk: int, broker: int): Option<Mismatch> {
    if desk == broker then None
    else if !listed then Some(UnknownToDesk(key, broker))
    else if Abs(desk) == Abs(broker) && desk != 0 && broker != 0 then Some(SideMismatch(key, desk, broker))
    else Some(QuantityMismatch(key, desk, broker))
  }

  function ExpectedFor(desk: seq<Position>, broker: seq<Position>, keying: Keying, key: Text): Option<Mismatch> {
    Expected(key, Listed(desk, keying, key), NetUnder(desk, keying, key), NetUnder(broker, keying, key))
  }

  predicate AboutPosition(m: Mismatch) {
    m.SideMismatch? || m.QuantityMismatch? || m.UnknownToDesk?
  }

  /** The position mismatches are those expected, one for each key that calls for one. */
  ghost predicate ExactlyPositions(found: seq<Mismatch>, desk: seq<Position>, broker: seq<Position>, keying: Keying) {
    && (forall i :: 0 <= i < |found| ==>
          AboutPosition(found[i]) && ExpectedFor(desk, broker, keying, found[i].key) == Some(found[i]))
    && (forall key :: ExpectedFor(desk, broker, keying, key).Some? ==>
          ExpectedFor(desk, broker, keying, key).value in found)
    && (forall i, k :: 0 <= i < k < |found| ==> found[i].key != found[k].key)
  }

  /** References that are not empty. */
  function Refs(orders: seq<Text>): set<Text> {
    set ref | ref in orders && ref != []
  }

  method MissingRefs(from: seq<Text>, others: seq<Text>) returns (missing: seq<Text>)
    ensures Distinct(missing)
    ensures forall ref :: ref in missing <==> ref in Refs(from) - Refs(others)
  {
    missing := [];
    for i := 0 to |from|
      invariant Distinct(missing)
      invariant forall ref :: ref in missing <==> ref in Refs(from[..i]) - Refs(others)
    {
      assert from[..i + 1] == from[..i] + [from[i]];
      if from[i] != [] && from[i] !in others && from[i] !in missing { missing := missing + [from[i]]; }
    }
    assert from[..|from|] == from;
  }

  /** The mismatches called for by some keys, one for each that calls for one. */
  ghost predicate FoundFor(
    found: seq<Mismatch>, keys: seq<Text>, desk: seq<Position>, broker: seq<Position>, keying: Keying)
  {
    && (forall i :: 0 <= i < |found| ==>
          && AboutPosition(found[i]) && ExpectedFor(desk, broker, keying, found[i].key) == Some(found[i])
          && found[i].key in keys)
    && (forall key :: key in keys && ExpectedFor(desk, broker, keying, key).Some? ==>
          ExpectedFor(desk, broker, keying, key).value in found)
    && (forall i, k :: 0 <= i < k < |found| ==> found[i].key != found[k].key)
  }

  function Added(found: seq<Mismatch>, expected: Option<Mismatch>): seq<Mismatch> {
    if expected.Some? then found + [expected.value] else found
  }

  lemma OneMoreKey(
    found: seq<Mismatch>, keys: seq<Text>, key: Text, desk: seq<Position>, broker: seq<Position>, keying: Keying)
    requires FoundFor(found, keys, desk, broker, keying) && key !in keys
    ensures FoundFor(Added(found, ExpectedFor(desk, broker, keying, key)), keys + [key], desk, broker, keying)
  {
  }

  method CompareDeskPositions(
    keys: seq<Text>, nets: map<Text, int>, brokerNets: map<Text, int>, ghost brokerKeys: seq<Text>,
    ghost desk: seq<Position>, ghost broker: seq<Position>, ghost keying: Keying)
    returns (found: seq<Mismatch>)
    requires Aggregated(keys, nets, desk, keying) && Aggregated(brokerKeys, brokerNets, broker, keying)
    ensures FoundFor(found, keys, desk, broker, keying)
  {
    found := [];
    for i := 0 to |keys|
      invariant FoundFor(found, keys[..i], desk, broker, keying)
    {
      var key := keys[i];
      assert keys[..i + 1] == keys[..i] + [key];
      OneMoreKey(found, keys[..i], key, desk, broker, keying);
      var signed := nets[key];
      if key !in brokerNets { NotListedIsZero(broker, keying, key); }
      var brokerSigned := if key in brokerNets then brokerNets[key] else 0;
      if signed == brokerSigned { continue; }
      if Abs(signed) == Abs(brokerSigned) && signed != 0 && brokerSigned != 0 {
        found := found + [SideMismatch(key, signed, brokerSigned)];
        continue;
      }
      found := found + [QuantityMismatch(key, signed, brokerSigned)];
    }
    assert keys[..|keys|] == keys;
  }

  lemma KeyIsNew(keys: seq<Text>, i: nat)
    requires Distinct(keys) && i < |keys|
    ensures keys[i] !in keys[..i] && keys[..i + 1] == keys[..i] + [keys[i]]
  {
  }

  /** A key the desk does not list is expected to be flat at the broker. */
  lemma UnknownKey(
    net: int, key: Text, desk: seq<Position>, broker: seq<Position>, keying: Keying)
    requires !Listed(desk, keying, key) && net == NetUnder(broker, keying, key)
    ensures ExpectedFor(desk, broker, keying, key) == if net == 0 then None else Some(UnknownToDesk(key, net))
  {
    NotListedIsZero(desk, keying, key);
  }

  method CompareBrokerPositions(
    deskFound: seq<Mismatch>, ghost deskKeys: seq<Text>, deskNets: map<Text, int>,
    keys: seq<Text>, nets: map<Text, int>,
    ghost desk: seq<Position>, ghost broker: seq<Position>, ghost keying: Keying)
    returns (found: seq<Mismatch>)
    requires Aggregated(deskKeys, deskNets, desk, keying) && Aggregated(keys, nets, broker, keying)
    requires FoundFor(deskFound, deskKeys, desk, broker, keying)
    ensures ExactlyPositions(found, desk, broker, keying)
  {
    found := deskFound;
    ghost var seen := deskKeys;
    for i := 0 to |keys|
      invariant FoundFor(found, seen, desk, broker, keying)
      invariant forall key :: key in seen <==> key in deskKeys || key in keys[..i]
    {
      var key := keys[i];
      KeyIsNew(keys, i);
      if key !in deskNets {
        UnknownKey(nets[key], key, desk, broker, keying);
        OneMoreKey(found, seen, key, desk, broker, keying);
        if nets[key] != 0 { found := found + [UnknownToDesk(key, nets[key])]; }
        seen := seen + [key];
      }
    }
    assert keys[..|keys|] == keys;
    NothingElse(found, seen, desk, broker, keying);
  }

  /** A key neither side lists calls for nothing. */
  lemma NothingElse(found: seq<Mismatch>, keys: seq<Text>, desk: seq<Position>, broker: seq<Position>, keying: Keying)
    requires FoundFor(found, keys, desk, broker, keying)
    requires forall key :: Listed(desk, keying, key) || Listed(broker, keying, key) ==> key in keys
    ensures ExactlyPositions(found, desk, broker, keying)
  {
    forall key | ExpectedFor(desk, broker, keying, key).Some?
      ensures ExpectedFor(desk, broker, keying, key).value in found
    {
      if !Listed(desk, keying, key) { NotListedIsZero(desk, keying, key); }
      if !Listed(broker, keying, key) { NotListedIsZero(broker, keying, key); }
    }
  }

  method ComparePositions(desk: seq<Position>, broker: seq<Position>, keying: Keying) returns (found: seq<Mismatch>)
    ensures ExactlyPositions(found, desk, broker, keying)
  {
    var deskKeys, deskNets := AggregateSignedPositions(desk, keying);
    var brokerKeys, brokerNets := AggregateSignedPositions(broker, keying);
    var deskFound := CompareDeskPositions(deskKeys, deskNets, brokerNets, brokerKeys, desk, broker, keying);
    found := CompareBrokerPositions(deskFound, deskKeys, deskNets, brokerKeys, brokerNets, desk, broker, keying);
  }

  ghost predicate NetsAgree(desk: seq<Position>, broker: seq<Position>, keying: Keying) {
    forall key :: NetUnder(desk, keying, key) == NetUnder(broker, keying, key)
  }

  lemma NoneFoundMeansAgreement(found: seq<Mismatch>, desk: seq<Position>, broker: seq<Position>, keying: Keying)
    requires ExactlyPositions(found, desk, broker, keying)
    ensures found == [] <==> NetsAgree(desk, broker, keying)
  {
    if found == [] {
      forall key ensures NetUnder(desk, keying, key) == NetUnder(broker, keying, key) {
        assert ExpectedFor(desk, broker, keying, key).None?;
      }
    } else {
      assert ExpectedFor(desk, broker, keying, found[0].key) == Some(found[0]);
    }
  }

  function MissingAtBroker(refs: seq<Text>): (r: seq<Mismatch>)
    ensures |r| == |refs|
  {
    seq(|refs|, i requires 0 <= i < |refs| => OrderMissingAtBroker(refs[i]))
  }

  function UnknownOrders(refs: seq<Text>): (r: seq<Mismatch>)
    ensures |r| == |refs|
  {
    seq(|refs|, i requires 0 <= i < |refs| => OrderUnknownToDesk(refs[i]))
  }

  /** One mismatch per order reference known to one side only, and the position mismatches. */
  ghost predicate ExactlyMismatches(
    mismatches: seq<Mismatch>, missing: seq<Text>, unknown: seq<Text>, positions: seq<Mismatch>,
    desk: Snapshot, broker: Snapshot, keying: Keying)
  {
    && mismatches == MissingAtBroker(missing) + UnknownOrders(unknown) + positions
    && Distinct(missing) && (forall ref :: ref in missing <==> ref in Refs(desk.orders) - Refs(broker.orders))
    && Distinct(unknown) && (forall ref :: ref in unknown <==> ref in Refs(broker.orders) - Refs(desk.orders))
    && ExactlyPositions(positions, desk.positions, broker.positions, keying)
  }

  /** No mismatch exactly when the reference sets are equal and every key nets to the same on both sides. */
  method CompareSnapshots(desk: Snapshot, broker: Snapshot, accountId: Text) returns (mismatches: seq<Mismatch>)
    ensures mismatches == [] <==>
      Refs(desk.orders) == Refs(broker.orders)
      && NetsAgree(desk.positions, broker.positions, KeyingFor(AccountKey(accountId)))
    ensures exists missing, unknown, positions ::
      ExactlyMismatches(mismatches, missing, unknown, positions, desk, broker, KeyingFor(AccountKey(accountId)))
  {
    var missing := MissingRefs(desk.orders, broker.orders);
    var unknown := MissingRefs(broker.orders, desk.orders);
    var keying := KeyingFor(AccountKey(accountId));
    var found := ComparePositions(desk.positions, broker.positions, keying);
    NoneFoundMeansAgreement(found, desk.positions, broker.positions, keying);
    RefsDiffer(desk.orders, broker.orders, missing, unknown);
    mismatches := MissingAtBroker(missing) + UnknownOrders(unknown) + found;
    assert ExactlyMismatches(mismatches, missing, unknown, found, desk, broker, keying);
  }

  lemma RefsDiffer(a: seq<Text>, b: seq<Text>, missing: seq<Text>, unknown: seq<Text>)
    requires forall ref :: ref in missing <==> ref in Refs(a) - Refs(b)
    requires forall ref :: ref in unknown <==> ref in Refs(b) - Refs(a)
    ensures missing == [] && unknown == [] <==> Refs(a) == Refs(b)
  {
    if missing != [] { assert missing[0] in missing; }
    if unknown != [] { assert unknown[0] in unknown; }
    if missing == [] && unknown == [] {
      forall ref ensures ref in Refs(a) <==> ref in Refs(b) {
        assert ref !in missing && ref !in unknown;
      }
    }
  }

  // ---------------------------------------------------------------------
  // The order of positions

  lemma {:induction false} NetTakenOut(positions: seq<Position>, keying: Keying, key: Text, i: nat)
    requires i < |positions|
    ensures NetUnder(positions, keying, key)
         == NetUnder(Without(positions, i), keying, key)
          + if keying(positions[i]) == Some(key) then SignedQuantity(positions[i]) else 0
    decreases |positions|
  {
    var n := |positions| - 1;
    if i == n {
      assert Without(positions, i) == positions[..n];
    } else {
      WithoutLast(positions, i);
      NetTakenOut(positions[..n], keying, key, i);
    }
  }

  lemma {:induction false} NetIgnoresOrder(a: seq<Position>, b: seq<Position>, keying: Keying, key: Text)
    requires multiset(a) == multiset(b)
    ensures NetUnder(a, keying, key) == NetUnder(b, keying, key)
    decreases |a|
  {
    if a == [] {
      assert |b| == |multiset(b)| == 0;
    } else {
      var i := LastIsThere(a, b);
      NetIgnoresOrder(a[..|a| - 1], Without(b, i), keying, key);
      NetTakenOut(b, keying, key, i);
    }
  }

  lemma ListedIgnoresOrder(a: seq<Position>, b: seq<Position>, keying: Keying, key: Text)
    requires multiset(a) == multiset(b) && Listed(a, keying, key)
    ensures Listed(b, keying, key)
  {
    var i :| 0 <= i < |a| && keying(a[i]) == Some(key);
    assert a[i] in multiset(a);
    assert a[i] in b;
  }

  lemma PositionMismatchesIgnoreOrder(
    deskA: seq<Position>, brokerA: seq<Position>, foundA: seq<Mismatch>,
    deskB: seq<Position>, brokerB: seq<Position>, foundB: seq<Mismatch>, keying: Keying, m: Mismatch)
    requires multiset(deskA) == multiset(deskB) && multiset(brokerA) == multiset(brokerB)
    requires ExactlyPositions(foundA, deskA, brokerA, keying) && ExactlyPositions(foundB, deskB, brokerB, keying)
    ensures m in foundA <==> m in foundB
  {
    if AboutPosition(m) {
      NetIgnoresOrder(deskA, deskB, keying, m.key);
      NetIgnoresOrder(brokerA, brokerB, keying, m.key);
      if Listed(deskA, keying, m.key) { ListedIgnoresOrder(deskA, deskB, keying, m.key); }
      if Listed(deskB, keying, m.key) { ListedIgnoresOrder(deskB, deskA, keying, m.key); }
      assert ExpectedFor(deskA, brokerA, keying, m.key) == ExpectedFor(deskB, brokerB, keying, m.key);
    }
  }

  lemma AmongMismatches(
    mismatches: seq<Mismatch>, missing: seq<Text>, unknown: seq<Text>, positions: seq<Mismatch>,
    desk: Snapshot, broker: Snapshot, keying: Keying, m: Mismatch)
    requires ExactlyMismatches(mismatches, missing, unknown, positions, desk, broker, keying)
    ensures m in mismatches <==>
      if m.OrderMissingAtBroker? then m.ref in Refs(desk.orders) - Refs(broker.orders)
      else if m.OrderUnknownToDesk? then m.ref in Refs(broker.orders) - Refs(desk.orders)
      else m in positions
  {
    var atBroker, toDesk := MissingAtBroker(missing), UnknownOrders(unknown);
    assert m in mismatches <==> m in atBroker || m in toDesk || m in positions;
    if m.OrderMissingAtBroker? && m.ref in missing {
      var i :| 0 <= i < |missing| && missing[i] == m.ref;
      assert atBroker[i] == m;
    }
    if m.OrderUnknownToDesk? && m.ref in unknown {
      var i :| 0 <= i < |unknown| && unknown[i] == m.ref;
      assert toDesk[i] == m;
    }
  }

  /** Listing the same orders and positions in another order finds the same mismatches. */
  lemma MismatchesIgnoreOrder(
    a: seq<Mismatch>, missingA: seq<Text>, unknownA: seq<Text>, positionsA: seq<Mismatch>,
    deskA: Snapshot, brokerA: Snapshot,
    b: seq<Mismatch>, missingB: seq<Text>, unknownB: seq<Text>, positionsB: seq<Mismatch>,
    deskB: Snapshot, brokerB: Snapshot,
    keying: Keying, m: Mismatch)
    requires multiset(deskA.positions) == multiset(deskB.positions) && Refs(deskA.orders) == Refs(deskB.orders)
    requires multiset(brokerA.positions) == multiset(brokerB.positions) && Refs(brokerA.orders) == Refs(brokerB.orders)
    requires ExactlyMismatches(a, missingA, unknownA, positionsA, deskA, brokerA, keying)
    requires ExactlyMismatches(b, missingB, unknownB, positionsB, deskB, brokerB, keying)
    ensures m in a <==> m in b
  {
    AmongMismatches(a, missingA, unknownA, positionsA, deskA, brokerA, keying, m);
    AmongMismatches(b, missingB, unknownB, positionsB, deskB, brokerB, keying, m);
    PositionMismatchesIgnoreOrder(
      deskA.positions, brokerA.positions, positionsA, deskB.positions, brokerB.positions, positionsB, keying, m);
  }

  // ---------------------------------------------------------------------
  // Keys, accounts and instruments

  /** The signed net quantity of one account in one instrument. */
  function NetOf(positions: seq<Position>, defaultAccount: Text, account: Text, instrument: Text): int {
    if positions == [] then 0
    else
      var last := positions[|positions| - 1];
      NetOf(positions[..|positions| - 1], defaultAccount, account, instrument)
      + if Held(last, defaultAccount, account, instrument) then SignedQuantity(last) else 0
  }

  predicate Held(p: Position, defaultAccount: Text, account: Text, instrument: Text) {
    Counts(p) && AccountOf(p, defaultAccount) == account && PositionKey(p.instrument) == instrument
  }

  function Joined(account: Text, instrument: Text): Text {
    account + [COLON, COLON] + instrument
  }

  predicate Trimmed(t: Text) {
    t != [] && !IsSpace(t[0]) && !IsSpace(t[|t| - 1])
  }

  /** A name positions can be keyed under. */
  predicate KeyForm(instrument: Text) {
    instrument != [] && PositionKey(instrument) == instrument
  }

  lemma KeyFormIsNormal(t: Text)
    requires PositionKey(t) == t
    ensures Normal(t)
  {
    NormalizedIsNormal(t);
    match ContractOf(Normalized(t)) {
      case PlainName =>
      case Contract(root, year, month) => ContractKeyIsNormal(root, Digits(year), PadTwo(Digits(month)));
    }
  }

  lemma NoExpiry(root: Text, t: Text)
    requires t != [] ==> t[|t| - 1] == LETTER
    ensures Expiry(root, t).PlainName?
  {
    assert forall k :: 0 <= k < |t| ==> t[k..][|t[k..]| - 1] == LETTER;
  }

  lemma LetterEndsNoContract(t: Text)
    requires t != [] && t[|t| - 1] == LETTER
    ensures ContractOf(t).PlainName?
  {
    var i := SpaceAt(t);
    if i < |t| {
      assert t[i + 1..] != [] ==> t[i + 1..][|t[i + 1..]| - 1] == LETTER;
      NoExpiry(t[..i], t[i + 1..]);
    }
  }

  /** A name in normal form that ends in a letter is no contract and stays as it is. */
  lemma LetterEndsPlainName(t: Text)
    requires Normal(t) && t != [] && t[|t| - 1] == LETTER
    ensures KeyForm(t)
  {
    NormalizedOfNormal(t);
    LetterEndsNoContract(t);
  }

  // ---------------------------------------------------------------------
  // When a key can be read in two ways

  /** No lower-case letters, single spaces only, none in front: a name can go on after it. */
  ghost predicate Leading(t: Text) {
    && (t != [] ==> !IsSpace(t[0]))
    && (forall i :: 0 <= i < |t| ==> !Lower(t[i]))
    && Tidy(t)
  }

  /** The longer account is the shorter one, a separator, and something an instrument name can start with. */
  ghost predicate Shadows(a: Text, b: Text) {
    && |a| < |b| && b[..|a|] == a
    && var rest := b[|a|..];
       rest == [COLON] || (|rest| >= 2 && rest[..2] == [COLON, COLON] && Leading(rest[2..]))
  }

  lemma LeadingOfNormal(t: Text, name: Text)
    requires Normal(Joined(t, name))
    ensures Leading(t)
  {
    var whole := Joined(t, name);
    assert forall i :: 0 <= i < |t| ==> whole[i] == t[i];
  }

  lemma JoinedIsNormal(t: Text)
    requires Leading(t)
    ensures Normal(Joined(t, [LETTER]))
  {
    var whole := Joined(t, [LETTER]);
    assert whole == t + [COLON, COLON, LETTER];
    forall i | 0 <= i < |whole| && IsSpace(whole[i])
      ensures whole[i] == SPACE && (i + 1 < |whole| ==> !IsSpace(whole[i + 1]))
    {
      assert whole[i] == t[i];
    }
  }

  lemma LongerAccountShadowed(a: Text, x: Text, b: Text, y: Text)
    requires |a| < |b| && Normal(x) && Joined(a, x) == Joined(b, y)
    ensures Shadows(a, b)
  {
    var key, rest := Joined(a, x), b[|a|..];
    assert key[..|a|] == a && key[|a|..] == [COLON, COLON] + x;
    assert key == a + (rest + [COLON, COLON] + y) by { assert b[..|a|] == key[..|a|]; }
    assert [COLON, COLON] + x == rest + [COLON, COLON] + y;
    if |rest| == 1 {
      assert rest[0] == ([COLON, COLON] + x)[0];
    } else {
      assert rest[..2] == ([COLON, COLON] + x)[..2];
      assert x == ([COLON, COLON] + x)[2..] == Joined(rest[2..], y);
      LeadingOfNormal(rest[2..], y);
    }
  }

  lemma LongerKeyShadowed(a: Text, x: Text, b: Text, y: Text)
    requires |a| < |b| && KeyForm(x) && Joined(a, x) == Joined(b, y)
    ensures Shadows(a, b)
  {
    KeyFormIsNormal(x);
    LongerAccountShadowed(a, x, b, y);
  }

  lemma KeyIsUnambiguous(a: Text, x: Text, b: Text, y: Text)
    requires !Shadows(a, b) && !Shadows(b, a) && KeyForm(x) && KeyForm(y) && Joined(a, x) == Joined(b, y)
    ensures a == b && x == y
  {
    if |a| < |b| { LongerKeyShadowed(a, x, b, y); }
    if |b| < |a| { LongerKeyShadowed(b, y, a, x); }
    SplitAtAccount(a, x);
    SplitAtAccount(b, y);
  }

  lemma SplitAtAccount(a: Text, x: Text)
    ensures Joined(a, x)[..|a|] == a && Joined(a, x)[|a| + 2..] == x
  {
  }

  // ---------------------------------------------------------------------
  // Accounts none of which shadows another

  ghost predicate NoneShadows(accounts: set<Text>) {
    forall a, b :: a in accounts && b in accounts ==> !Shadows(a, b)
  }

  ghost predicate Among(p: Position, defaultAccount: Text, accounts: set<Text>) {
    Counts(p) ==> AccountOf(p, defaultAccount) in accounts
  }

  ghost predicate Within(positions: seq<Position>, defaultAccount: Text, accounts: set<Text>) {
    forall i :: 0 <= i < |positions| ==> Among(positions[i], defaultAccount, accounts)
  }

  /** The key is built from an account and an instrument that are already normal, so building it twice is safe. */
  lemma KeyIsJoined(p: Position, defaultAccount: Text)
    ensures KeyOf(p, defaultAccount) == Joined(AccountOf(p, defaultAccount), PositionKey(p.instrument))
  {
    var account := if p.account == [] then defaultAccount else p.account;
    TrimOfTrimmed(Trim(account));
    TrimOfTrimmed(STAR);
    PositionKeyIsIdempotent(p.instrument);
  }

  lemma KeyedMeansHeld(p: Position, defaultAccount: Text, accounts: set<Text>, account: Text, instrument: Text)
    requires NoneShadows(accounts) && account in accounts && KeyForm(instrument) && Among(p, defaultAccount, accounts)
    ensures KeyingFor(defaultAccount)(p) == Some(Joined(account, instrument)) <==>
      Held(p, defaultAccount, account, instrument)
  {
    KeyIsJoined(p, defaultAccount);
    if Counts(p) && KeyOf(p, defaultAccount) == Joined(account, instrument) {
      PositionKeyIsIdempotent(p.instrument);
      KeyIsUnambiguous(AccountOf(p, defaultAccount), PositionKey(p.instrument), account, instrument);
    }
  }

  lemma WithinParts(positions: seq<Position>, defaultAccount: Text, accounts: set<Text>)
    requires positions != [] && Within(positions, defaultAccount, accounts)
    ensures Within(positions[..|positions| - 1], defaultAccount, accounts)
    ensures Among(positions[|positions| - 1], defaultAccount, accounts)
  {
  }

  lemma {:induction false} NetOfIsNetUnder(
    positions: seq<Position>, defaultAccount: Text, accounts: set<Text>, account: Text, instrument: Text)
    requires NoneShadows(accounts) && Within(positions, defaultAccount, accounts)
    requires account in accounts && KeyForm(instrument)
    ensures NetOf(positions, defaultAccount, account, instrument)
         == NetUnder(positions, KeyingFor(defaultAccount), Joined(account, instrument))
  {
    if positions != [] {
      var n := |positions| - 1;
      WithinParts(positions, defaultAccount, accounts);
      NetOfIsNetUnder(positions[..n], defaultAccount, accounts, account, instrument);
      KeyedMeansHeld(positions[n], defaultAccount, accounts, account, instrument);
    }
  }

  lemma {:induction false} NothingElseHeld(
    positions: seq<Position>, defaultAccount: Text, accounts: set<Text>, account: Text, instrument: Text)
    requires Within(positions, defaultAccount, accounts) && (account !in accounts || !KeyForm(instrument))
    ensures NetOf(positions, defaultAccount, account, instrument) == 0
  {
    if positions != [] {
      var n := |positions| - 1;
      WithinParts(positions, defaultAccount, accounts);
      NothingElseHeld(positions[..n], defaultAccount, accounts, account, instrument);
      PositionKeyIsIdempotent(positions[n].instrument);
    }
  }

  ghost predicate AccountsAgree(desk: seq<Position>, broker: seq<Position>, defaultAccount: Text) {
    forall account, instrument ::
      NetOf(desk, defaultAccount, account, instrument) == NetOf(broker, defaultAccount, account, instrument)
  }

  lemma ListedKeyIsJoined(positions: seq<Position>, defaultAccount: Text, accounts: set<Text>, key: Text)
    returns (account: Text, instrument: Text)
    requires Within(positions, defaultAccount, accounts) && Listed(positions, KeyingFor(defaultAccount), key)
    ensures account in accounts && KeyForm(instrument) && key == Joined(account, instrument)
  {
    var i :| 0 <= i < |positions| && KeyingFor(defaultAccount)(positions[i]) == Some(key);
    KeyIsJoined(positions[i], defaultAccount);
    PositionKeyIsIdempotent(positions[i].instrument);
    assert Among(positions[i], defaultAccount, accounts);
    account, instrument := AccountOf(positions[i], defaultAccount), PositionKey(positions[i].instrument);
  }

  lemma AgreesUnder(desk: seq<Position>, broker: seq<Position>, defaultAccount: Text, accounts: set<Text>, key: Text)
    requires NoneShadows(accounts)
    requires Within(desk, defaultAccount, accounts) && Within(broker, defaultAccount, accounts)
    requires AccountsAgree(desk, broker, defaultAccount)
    ensures NetUnder(desk, KeyingFor(defaultAccount), key) == NetUnder(broker, KeyingFor(defaultAccount), key)
  {
    var keying := KeyingFor(defaultAccount);
    if Listed(desk, keying, key) || Listed(broker, keying, key) {
      var account, instrument := [], [];
      if Listed(desk, keying, key) {
        account, instrument := ListedKeyIsJoined(desk, defaultAccount, accounts, key);
      } else {
        account, instrument := ListedKeyIsJoined(broker, defaultAccount, accounts, key);
      }
      NetOfIsNetUnder(desk, defaultAccount, accounts, account, instrument);
      NetOfIsNetUnder(broker, defaultAccount, accounts, account, instrument);
    } else {
      NotListedIsZero(desk, keying, key);
      NotListedIsZero(broker, keying, key);
    }
  }

  lemma AgreesFor(
    desk: seq<Position>, broker: seq<Position>, defaultAccount: Text, accounts: set<Text>, account: Text,
    instrument: Text)
    requires NoneShadows(accounts)
    requires Within(desk, defaultAccount, accounts) && Within(broker, defaultAccount, accounts)
    requires NetsAgree(desk, broker, KeyingFor(defaultAccount))
    ensures NetOf(desk, defaultAccount, account, instrument) == NetOf(broker, defaultAccount, account, instrument)
  {
    if account in accounts && KeyForm(instrument) {
      NetOfIsNetUnder(desk, defaultAccount, accounts, account, instrument);
      NetOfIsNetUnder(broker, defaultAccount, accounts, account, instrument);
    } else {
      NothingElseHeld(desk, defaultAccount, accounts, account, instrument);
      NothingElseHeld(broker, defaultAccount, accounts, account, instrument);
    }
  }

  /** When no account shadows another, agreement under every key is agreement for every account and instrument. */
  lemma KeysStandForAccounts(desk: seq<Position>, broker: seq<Position>, defaultAccount: Text, accounts: set<Text>)
    requires NoneShadows(accounts)
    requires Within(desk, defaultAccount, accounts) && Within(broker, defaultAccount, accounts)
    ensures NetsAgree(desk, broker, KeyingFor(defaultAccount)) <==> AccountsAgree(desk, broker, defaultAccount)
  {
    var keying := KeyingFor(defaultAccount);
    if NetsAgree(desk, broker, keying) {
      forall account, instrument
        ensures NetOf(desk, defaultAccount, account, instrument) == NetOf(broker, defaultAccount, account, instrument)
      {
        AgreesFor(desk, broker, defaultAccount, accounts, account, instrument);
      }
    }
    if AccountsAgree(desk, broker, defaultAccount) {
      forall key ensures NetUnder(desk, keying, key) == NetUnder(broker, keying, key) {
        AgreesUnder(desk, broker, defaultAccount, accounts, key);
      }
    }
  }

  // ---------------------------------------------------------------------
  // Accounts one of which shadows another

  lemma NetOfOne(p: Position, keying: Keying, key: Text)
    ensures NetUnder([p], keying, key) == if keying(p) == Some(key) then SignedQuantity(p) else 0
  {
  }

  lemma AccountNetOfOne(p: Position, defaultAccount: Text, account: Text, instrument: Text)
    ensures NetOf([p], defaultAccount, account, instrument)
         == if Held(p, defaultAccount, account, instrument) then SignedQuantity(p) else 0
  {
  }

  /** The same net under the same key, held by different accounts. */
  predicate ShareKey(d: Position, b: Position, defaultAccount: Text) {
    && Counts(d) && Counts(b) && SignedQuantity(d) == SignedQuantity(b) != 0
    && KeyOf(d, defaultAccount) == KeyOf(b, defaultAccount)
    && AccountOf(d, defaultAccount) != AccountOf(b, defaultAccount)
  }

  lemma SharedKeyAgrees(d: Position, b: Position, defaultAccount: Text)
    requires ShareKey(d, b, defaultAccount)
    ensures NetsAgree([d], [b], KeyingFor(defaultAccount))
  {
    forall key ensures NetUnder([d], KeyingFor(defaultAccount), key) == NetUnder([b], KeyingFor(defaultAccount), key) {
      NetOfOne(d, KeyingFor(defaultAccount), key);
      NetOfOne(b, KeyingFor(defaultAccount), key);
    }
  }

  /** One position a side: the same key hides two accounts from each other. */
  lemma SharedKeyHidesDifference(d: Position, b: Position, defaultAccount: Text)
    requires ShareKey(d, b, defaultAccount)
    ensures NetsAgree([d], [b], KeyingFor(defaultAccount)) && !AccountsAgree([d], [b], defaultAccount)
  {
    SharedKeyAgrees(d, b, defaultAccount);
    var account, instrument := AccountOf(d, defaultAccount), PositionKey(d.instrument);
    AccountNetOfOne(d, defaultAccount, account, instrument);
    AccountNetOfOne(b, defaultAccount, account, instrument);
    assert NetOf([d], defaultAccount, account, instrument) != NetOf([b], defaultAccount, account, instrument);
  }

  /** One lot on account `a`, in the instrument that completes the key of one lot on account `b` in `A`. */
  function Shadowing(a: Text, b: Text): Position
    requires |a| < |b|
  {
    Position((b[|a|..] + [COLON, COLON, LETTER])[2..], a, 1, Long)
  }

  function Shadowed(b: Text): Position {
    Position([LETTER], b, 1, Long)
  }

  lemma ShadowingInstrument(a: Text, b: Text)
    requires Shadows(a, b)
    ensures
      var instrument := Shadowing(a, b).instrument;
      KeyForm(instrument) && Joined(a, instrument) == Joined(b, [LETTER])
  {
    var rest := b[|a|..];
    if rest == [COLON] {
      assert Shadowing(a, b).instrument == [COLON, LETTER];
    } else {
      assert Shadowing(a, b).instrument == Joined(rest[2..], [LETTER]);
      JoinedIsNormal(rest[2..]);
    }
    LetterEndsPlainName(Shadowing(a, b).instrument);
    KeysMeet(a, rest, b);
  }

  lemma KeysMeet(a: Text, rest: Text, b: Text)
    requires rest != [] && b == a + rest && (rest == [COLON] || (|rest| >= 2 && rest[..2] == [COLON, COLON]))
    ensures Joined(a, (rest + [COLON, COLON, LETTER])[2..]) == Joined(b, [LETTER])
  {
    var tail := rest + [COLON, COLON, LETTER];
    assert tail[0] == COLON && tail[1] == COLON;
    assert tail == [COLON, COLON] + tail[2..];
    assert Joined(b, [LETTER]) == a + tail;
  }

  lemma KeyOfTrimmed(p: Position, defaultAccount: Text)
    requires Trimmed(p.account) && KeyForm(p.instrument)
    ensures Counts(p) && AccountOf(p, defaultAccount) == p.account
    ensures KeyOf(p, defaultAccount) == Joined(p.account, p.instrument)
  {
    TrimOfTrimmed(p.account);
    KeyIsJoined(p, defaultAccount);
  }

  /** An account in the shadow of another shares a key with it, so a difference between them is not found. */
  lemma ShadowsCollide(a: Text, b: Text, d: Position, p: Position, defaultAccount: Text)
    requires Trimmed(a) && Trimmed(b) && Shadows(a, b) && d == Shadowing(a, b) && p == Shadowed(b)
    ensures AccountOf(d, defaultAccount) == a && AccountOf(p, defaultAccount) == b
    ensures NetsAgree([d], [p], KeyingFor(defaultAccount)) && !AccountsAgree([d], [p], defaultAccount)
  {
    KeysOfShadows(a, b, d, p, defaultAccount);
    SharedKeyHidesDifference(d, p, defaultAccount);
  }

  lemma KeysOfShadows(a: Text, b: Text, d: Position, p: Position, defaultAccount: Text)
    requires Trimmed(a) && Trimmed(b) && Shadows(a, b) && d == Shadowing(a, b) && p == Shadowed(b)
    ensures ShareKey(d, p, defaultAccount) && AccountOf(d, defaultAccount) == a && AccountOf(p, defaultAccount) == b
  {
    ShadowingKey(a, b, d, defaultAccount);
    ShadowedKey(b, p, defaultAccount);
  }

  lemma ShadowingKey(a: Text, b: Text, d: Position, defaultAccount: Text)
    requires Trimmed(a) && Shadows(a, b) && d == Shadowing(a, b)
    ensures Counts(d) && SignedQuantity(d) == 1
    ensures AccountOf(d, defaultAccount) == a && KeyOf(d, defaultAccount) == Joined(b, [LETTER])
  {
    ShadowingInstrument(a, b);
    KeyOfTrimmed(d, defaultAccount);
  }

  lemma ShadowedKey(b: Text, p: Position, defaultAccount: Text)
    requires Trimmed(b) && p == Shadowed(b)
    ensures Counts(p) && SignedQuantity(p) == 1
    ensures AccountOf(p, defaultAccount) == b && KeyOf(p, defaultAccount) == Joined(b, [LETTER])
  {
    LetterEndsPlainName([LETTER]);
    KeyOfTrimmed(p, defaultAccount);
  }

  /** Whatever positions these accounts hold, agreeing under every key means agreeing for every account. */
  ghost predicate Faithful(accounts: set<Text>, defaultAccount: Text) {
    forall desk, broker ::
      Within(desk, defaultAccount, accounts) && Within(broker, defaultAccount, accounts) ==>
        (NetsAgree(desk, broker, KeyingFor(defaultAccount)) <==> AccountsAgree(desk, broker, defaultAccount))
  }

  lemma WithinOne(p: Position, defaultAccount: Text, accounts: set<Text>)
    requires AccountOf(p, defaultAccount) in accounts
    ensures Within([p], defaultAccount, accounts)
  {
  }

  lemma DifferenceNotFound(desk: seq<Position>, broker: seq<Position>, accounts: set<Text>, defaultAccount: Text)
    requires Within(desk, defaultAccount, accounts) && Within(broker, defaultAccount, accounts)
    requires NetsAgree(desk, broker, KeyingFor(defaultAccount)) && !AccountsAgree(desk, broker, defaultAccount)
    ensures !Faithful(accounts, defaultAccount)
  {
  }

  lemma ShadowsAreUnfaithful(accounts: set<Text>, a: Text, b: Text, d: Position, p: Position, defaultAccount: Text)
    requires a in accounts && b in accounts && Trimmed(a) && Trimmed(b)
    requires Shadows(a, b) && d == Shadowing(a, b) && p == Shadowed(b)
    ensures !Faithful(accounts, defaultAccount)
  {
    ShadowsCollide(a, b, d, p, defaultAccount);
    WithinOne(d, defaultAccount, accounts);
    WithinOne(p, defaultAccount, accounts);
    DifferenceNotFound([d], [p], accounts, defaultAccount);
  }

  /**
   * Keys stand for accounts exactly when no account is another one, a separator and the start of an instrument name.
   */
  lemma FaithfulExactly(accounts: set<Text>, defaultAccount: Text)
    requires forall a :: a in accounts ==> Trimmed(a)
    ensures Faithful(accounts, defaultAccount) <==> NoneShadows(accounts)
  {
    if NoneShadows(accounts) {
      forall desk, broker | Within(desk, defaultAccount, accounts) && Within(broker, defaultAccount, accounts)
        ensures NetsAgree(desk, broker, KeyingFor(defaultAccount)) <==> AccountsAgree(desk, broker, defaultAccount)
      {
        KeysStandForAccounts(desk, broker, defaultAccount, accounts);
      }
    } else {
      var a, b :| a in accounts && b in accounts && Shadows(a, b);
      ShadowsAreUnfaithful(accounts, a, b, Shadowing(a, b), Shadowed(b), defaultAccount);
    }
  }

  /** For instance one lot on account A in B::A and one on account A::B in A: no mismatch is found. */
  lemma CollisionExample(defaultAccount: Text)
    ensures
      var d, b := Position([66, 58, 58, 65], [65], 1, Long), Position([65], [65, 58, 58, 66], 1, Long);
      NetsAgree([d], [b], KeyingFor(defaultAccount)) && !AccountsAgree([d], [b], defaultAccount)
  {
    var a, b: Text := [65], [65, 58, 58, 66];
    assert b[..1] == a && b[1..][..2] == [COLON, COLON] && b[1..][2..] == [66];
    assert Shadowing(a, b).instrument == [66, 58, 58, 65];
    ShadowsCollide(a, b, Shadowing(a, b), Shadowed(b), defaultAccount);
  }
}
