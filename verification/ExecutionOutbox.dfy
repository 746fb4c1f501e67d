// The command outbox: approvals put one row per intent into it, bridges lease and
// complete rows, operators reject, the broker acknowledges, in any interleaving.

module ExecutionOutbox {
  import opened Wrappers

  type IntentId = nat
  type OutboxId = nat
  type BridgeId = nat
  type Token = nat

  datatype IntentStatus =
    | PendingApproval | ApprovedIntent | Queued | Sent | AcknowledgedIntent | RejectedIntent | EndedIntent

  /** `outboxId` is what the first 24 characters of the intent's idempotency key make of it. */
  datatype Intent = Intent(status: IntentStatus, expiresAt: Option<int>, outboxId: OutboxId)

  datatype RowStatus = Pending | Leased | Rendered | Delivered | Acknowledged | Failed | Cancelled

  datatype Row = Row(
    intent: IntentId, status: RowStatus, holder: Option<(BridgeId, Token)>, leaseExpiresAt: Option<int>, attempts: nat)

  /** A lease as it was granted. */
  datatype Grant = Grant(row: OutboxId, bridge: BridgeId, token: Token, at: int, expiresAt: int)

  datatype Tables = Tables(
    intents: map<IntentId, Intent>, approvals: set<nat>, outbox: map<OutboxId, Row>, grants: seq<Grant>)

  /** Milliseconds a lease lasts: the requested seconds, 30 when not given, kept between 5 and 120. */
  function LeaseTime(seconds: Option<int>): (ms: int)
    ensures 5_000 <= ms <= 120_000
  {
    var wanted := if seconds.Some? && seconds.value != 0 then seconds.value else 30;
    (if wanted > 120 then 120 else if wanted < 5 then 5 else wanted) * 1_000
  }

  // ---------------------------------------------------------------------
  // The effect of each operation

  predicate HasRowFor(outbox: map<OutboxId, Row>, intent: IntentId) {
    exists id :: id in outbox && outbox[id].intent == intent
  }

  predicate Approvable(t: Tables, intent: IntentId, now: int) {
    && intent in t.intents
    && (t.intents[intent].expiresAt.Some? ==> t.intents[intent].expiresAt.value > now)
    && (t.intents[intent].status.PendingApproval? || t.intents[intent].status.ApprovedIntent?)
    && (HasRowFor(t.outbox, intent) || t.intents[intent].outboxId !in t.outbox)
  }

  function Approved(t: Tables, intent: IntentId, approval: nat, now: int): Tables {
    if approval in t.approvals || !Approvable(t, intent, now) then t
    else
      var row := t.intents[intent];
      t.(approvals := t.approvals + {approval},
         intents := t.intents[intent := row.(status := Queued)],
         outbox := if HasRowFor(t.outbox, intent) then t.outbox
                   else t.outbox[row.outboxId := Row(intent, Pending, None, None, 0)])
  }

  predicate Leasable(t: Tables, id: OutboxId, now: int) {
    && id in t.outbox
    && (|| t.outbox[id].status.Pending?
        || (t.outbox[id].status.Leased? && t.outbox[id].leaseExpiresAt.Some?
          && t.outbox[id].leaseExpiresAt.value < now))
  }

  function LeasedOut(t: Tables, id: OutboxId, bridge: BridgeId, token: Token, seconds: Option<int>, now: int): Tables {
    if !Leasable(t, id, now) then t
    else
      var until := now + LeaseTime(seconds);
      t.(outbox := t.outbox[id := t.outbox[id].(
           status := Leased, holder := Some((bridge, token)), leaseExpiresAt := Some(until),
           attempts := t.outbox[id].attempts + 1)],
         grants := t.grants + [Grant(id, bridge, token, now, until)])
  }

  /** The statuses a bridge may report. */
  predicate Reportable(s: RowStatus) {
    s.Rendered? || s.Delivered? || s.Acknowledged? || s.Failed?
  }

  predicate Completable(t: Tables, id: OutboxId, bridge: BridgeId, token: Token, status: RowStatus) {
    Reportable(status) && id in t.outbox && t.outbox[id].holder == Some((bridge, token))
  }

  function WithIntentStatus(intents: map<IntentId, Intent>, id: IntentId, status: IntentStatus): map<IntentId, Intent> {
    if id in intents then intents[id := intents[id].(status := status)] else intents
  }

  function Completed(t: Tables, id: OutboxId, bridge: BridgeId, token: Token, status: RowStatus): Tables {
    if !Completable(t, id, bridge, token, status) then t
    else
      var row := t.outbox[id];
      t.(outbox := t.outbox[id := row.(status := status, leaseExpiresAt := None)],
         intents := if status.Delivered? then WithIntentStatus(t.intents, row.intent, Sent)
                    else if status.Acknowledged? then WithIntentStatus(t.intents, row.intent, AcknowledgedIntent)
                    else t.intents)
  }

  /** A rejection is noted under its key, then reaches the intent, then the outbox: three statements of their own. */
  function RejectionNoted(t: Tables, approval: nat): Tables {
    t.(approvals := t.approvals + {approval})
  }

  function RejectedIntentRow(t: Tables, intent: IntentId): Tables {
    if intent !in t.intents then t
    else
      var s := t.intents[intent].status;
      if s.PendingApproval? || s.ApprovedIntent? || s.Queued?
      then t.(intents := WithIntentStatus(t.intents, intent, RejectedIntent)) else t
  }

  /** Moves the rows of one intent that are in some of the statuses to another one. */
  function Moved(
    outbox: map<OutboxId, Row>, intent: IntentId, from: set<RowStatus>, to: RowStatus): map<OutboxId, Row> {
    map id | id in outbox ::
      if outbox[id].intent == intent && outbox[id].status in from then outbox[id].(status := to) else outbox[id]
  }

  function CancelledRows(t: Tables, intent: IntentId): Tables {
    t.(outbox := Moved(t.outbox, intent, {Pending, Leased, Rendered}, Cancelled))
  }

  function BrokerAcknowledged(t: Tables, intent: IntentId): Tables {
    t.(intents := WithIntentStatus(t.intents, intent, AcknowledgedIntent),
       outbox := Moved(t.outbox, intent, {Pending, Leased, Rendered, Delivered}, Acknowledged))
  }

  // ---------------------------------------------------------------------
  // The repository

  class Outbox {
    var intents: map<IntentId, Intent>
    var approvals: set<nat>
    var outbox: map<OutboxId, Row>
    var grants: seq<Grant>

    constructor (intents: map<IntentId, Intent>)
      ensures Now() == Tables(intents, {}, map[], [])
    {
      this.intents, approvals, outbox, grants := intents, {}, map[], [];
    }

    function Now(): Tables
      reads this
    {
      Tables(intents, approvals, outbox, grants)
    }

    /** Any error rolls the whole transaction back. */
    method ApproveIntent(intent: IntentId, approval: nat, now: int) returns (ok: bool)
      modifies this
      ensures Now() == Approved(old(Now()), intent, approval, now)
      ensures ok <==> old(approval in approvals || Approvable(Now(), intent, now))
    {
      if approval in approvals { return true; }
      if intent !in intents { return false; }
      var row := intents[intent];
      if row.expiresAt.Some? && row.expiresAt.value <= now { return false; }
      if !row.status.PendingApproval? && !row.status.ApprovedIntent? { return false; }
      var present := exists id :: id in outbox && outbox[id].intent == intent;
      if !present && row.outboxId in outbox { return false; }
      approvals := approvals + {approval};
      intents := intents[intent := row.(status := Queued)];
      if !present { outbox := outbox[row.outboxId := Row(intent, Pending, None, None, 0)]; }
      return true;
    }

    method LeaseOutbox(
      id: OutboxId, bridge: BridgeId, token: Token, seconds: Option<int>, now: int)
      returns (leased: bool)
      modifies this`outbox, this`grants
      ensures Now() == LeasedOut(old(Now()), id, bridge, token, seconds, now)
      ensures leased <==> Leasable(old(Now()), id, now)
    {
      if id !in outbox { return false; }
      var row := outbox[id];
      var lapsed := row.status.Leased? && row.leaseExpiresAt.Some? && row.leaseExpiresAt.value < now;
      if !row.status.Pending? && !lapsed { return false; }
      var until := now + LeaseTime(seconds);
      row := row.(status := Leased, holder := Some((bridge, token)));
      row := row.(leaseExpiresAt := Some(until), attempts := row.attempts + 1);
      outbox := outbox[id := row];
      grants := grants + [Grant(id, bridge, token, now, until)];
      return true;
    }

    method CompleteOutbox(id: OutboxId, bridge: BridgeId, token: Token, status: RowStatus) returns (ok: bool)
      modifies this`outbox, this`intents
      ensures Now() == Completed(old(Now()), id, bridge, token, status)
      ensures ok <==> Completable(old(Now()), id, bridge, token, status)
    {
      if !Reportable(status) { return false; }
      if id !in outbox || outbox[id].holder != Some((bridge, token)) { return false; }
      var row := outbox[id];
      outbox := outbox[id := row.(status := status, leaseExpiresAt := None)];
      if status.Delivered? || status.Acknowledged? {
        intents := WithIntentStatus(intents, row.intent, if status.Delivered? then Sent else AcknowledgedIntent);
      }
      return true;
    }

    method NoteRejection(approval: nat)
      modifies this`approvals
      ensures Now() == RejectionNoted(old(Now()), approval)
    {
      approvals := approvals + {approval};
    }

    method RejectIntentRow(intent: IntentId)
      modifies this`intents
      ensures Now() == RejectedIntentRow(old(Now()), intent)
    {
      if intent in intents {
        var row := intents[intent];
        if row.status.PendingApproval? || row.status.ApprovedIntent? || row.status.Queued? {
          intents := intents[intent := row.(status := RejectedIntent)];
        }
      }
    }

    method CancelRows(intent: IntentId)
      modifies this`outbox
      ensures Now() == CancelledRows(old(Now()), intent)
    {
      outbox := Moved(outbox, intent, {Pending, Leased, Rendered}, Cancelled);
    }

    method AcknowledgeFromBroker(intent: IntentId)
      modifies this`intents, this`outbox
      ensures Now() == BrokerAcknowledged(old(Now()), intent)
    {
      intents := WithIntentStatus(intents, intent, AcknowledgedIntent);
      outbox := Moved(outbox, intent, {Pending, Leased, Rendered, Delivered}, Acknowledged);
    }
  }

  // ---------------------------------------------------------------------
  // Interleavings

  /** One statement or transaction of any actor, at some time. */
  datatype Command =
    | Approve(intent: IntentId, approval: nat, at: int)
    | Lease(row: OutboxId, bridge: BridgeId, token: Token, seconds: Option<int>, at: int)
    | Complete(row: OutboxId, bridge: BridgeId, token: Token, status: RowStatus, at: int)
    | RejectNote(approval: nat, at: int)
    | RejectIntentHalf(intent: IntentId, at: int)
    | RejectOutboxHalf(intent: IntentId, at: int)
    | Acknowledge(intent: IntentId, at: int)

  function Step(t: Tables, c: Command): Tables {
    match c
    case Approve(intent, approval, at) => Approved(t, intent, approval, at)
    case Lease(row, bridge, token, seconds, at) => LeasedOut(t, row, bridge, token, seconds, at)
    case Complete(row, bridge, token, status, _) => Completed(t, row, bridge, token, status)
    case RejectNote(approval, _) => RejectionNoted(t, approval)
    case RejectIntentHalf(intent, _) => RejectedIntentRow(t, intent)
    case RejectOutboxHalf(intent, _) => CancelledRows(t, intent)
    case Acknowledge(intent, _) => BrokerAcknowledged(t, intent)
  }

  function Run(t: Tables, commands: seq<Command>): Tables {
    if commands == [] then t
    else Step(Run(t, commands[..|commands| - 1]), commands[|commands| - 1])
  }

  /** The newest lease granted on a row. */
  function Newest(grants: seq<Grant>, row: OutboxId): Option<Grant> {
    if grants == [] then None
    else if grants[|grants| - 1].row == row then Some(grants[|grants| - 1])
    else Newest(grants[..|grants| - 1], row)
  }

  /** The row remembers exactly its newest lease, and is pending only before the first. */
  ghost predicate Remembers(grants: seq<Grant>, id: OutboxId, row: Row) {
    var newest := Newest(grants, id);
    && row.holder == (if newest.Some? then Some((newest.value.bridge, newest.value.token)) else None)
    && (row.status.Pending? ==> newest.None?)
    && (row.status.Leased? ==> newest.Some? && row.leaseExpiresAt == Some(newest.value.expiresAt))
  }

  ghost predicate OneRowPerIntent(outbox: map<OutboxId, Row>) {
    forall a, b :: a in outbox && b in outbox && outbox[a].intent == outbox[b].intent ==> a == b
  }

  /** Of two leases of one row the first has expired when the second is granted. */
  ghost predicate LeasesApart(grants: seq<Grant>) {
    forall i, k :: 0 <= i < k < |grants| && grants[i].row == grants[k].row ==> grants[i].expiresAt < grants[k].at
  }

  ghost predicate Expiring(grants: seq<Grant>) {
    forall i :: 0 <= i < |grants| ==> grants[i].at < grants[i].expiresAt
  }

  ghost predicate Sound(t: Tables) {
    && OneRowPerIntent(t.outbox)
    && (forall id :: id in t.outbox ==> Remembers(t.grants, id, t.outbox[id]))
    && (forall i :: 0 <= i < |t.grants| ==> t.grants[i].row in t.outbox)
    && LeasesApart(t.grants) && Expiring(t.grants)
  }

  lemma {:induction false} NewestIsLast(grants: seq<Grant>, row: OutboxId)
    ensures Newest(grants, row).Some? ==> Newest(grants, row).value in grants && Newest(grants, row).value.row == row
    ensures Newest(grants, row).None? ==> forall i :: 0 <= i < |grants| ==> grants[i].row != row
    ensures (Newest(grants, row).Some? && LeasesApart(grants) && Expiring(grants)) ==>
      forall i :: 0 <= i < |grants| && grants[i].row == row ==>
        grants[i].expiresAt <= Newest(grants, row).value.expiresAt
  {
    if grants != [] && grants[|grants| - 1].row != row {
      NewestIsLast(grants[..|grants| - 1], row);
    }
  }

  lemma NewestOfGranted(grants: seq<Grant>, g: Grant, row: OutboxId)
    ensures Newest(grants + [g], row) == if g.row == row then Some(g) else Newest(grants, row)
  {
  }

  lemma LeaseIsSound(t: Tables, id: OutboxId, bridge: BridgeId, token: Token, seconds: Option<int>, now: int)
    requires Sound(t)
    ensures Sound(LeasedOut(t, id, bridge, token, seconds, now))
  {
    if Leasable(t, id, now) {
      var g := Grant(id, bridge, token, now, now + LeaseTime(seconds));
      var next := LeasedOut(t, id, bridge, token, seconds, now);
      assert Remembers(t.grants, id, t.outbox[id]);
      NewestIsLast(t.grants, id);
      forall other | other in next.outbox ensures Remembers(next.grants, other, next.outbox[other]) {
        NewestOfGranted(t.grants, g, other);
        assert Remembers(t.grants, other, t.outbox[other]);
      }
    }
  }

  lemma MoveIsSound(t: Tables, intent: IntentId, from: set<RowStatus>, to: RowStatus)
    requires Sound(t) && !to.Pending? && !to.Leased?
    ensures Sound(t.(outbox := Moved(t.outbox, intent, from, to)))
  {
  }

  lemma CompletionIsSound(t: Tables, id: OutboxId, bridge: BridgeId, token: Token, status: RowStatus)
    requires Sound(t)
    ensures Sound(Completed(t, id, bridge, token, status))
  {
  }

  lemma ApprovalIsSound(t: Tables, intent: IntentId, approval: nat, now: int)
    requires Sound(t)
    ensures Sound(Approved(t, intent, approval, now))
  {
    var next := Approved(t, intent, approval, now);
    forall other | other in next.outbox ensures Remembers(next.grants, other, next.outbox[other]) {
      if other in t.outbox {
        assert Remembers(t.grants, other, t.outbox[other]);
      } else {
        NewestIsLast(t.grants, other);
      }
    }
  }

  lemma StepIsSound(t: Tables, c: Command)
    requires Sound(t)
    ensures Sound(Step(t, c))
  {
    match c
    case Approve(intent, approval, at) => ApprovalIsSound(t, intent, approval, at);
    case Lease(row, bridge, token, seconds, at) => LeaseIsSound(t, row, bridge, token, seconds, at);
    case Complete(row, bridge, token, status, _) => CompletionIsSound(t, row, bridge, token, status);
    case RejectNote(approval, _) =>
      assert Step(t, c).outbox == t.outbox && Step(t, c).grants == t.grants;
    case RejectIntentHalf(intent, _) =>
      assert Step(t, c).outbox == t.outbox && Step(t, c).grants == t.grants;
    case RejectOutboxHalf(intent, _) => MoveIsSound(t, intent, {Pending, Leased, Rendered}, Cancelled);
    case Acknowledge(intent, _) => MoveIsSound(t, intent, {Pending, Leased, Rendered, Delivered}, Acknowledged);
  }

  /** Whatever the interleaving: one row per intent, and never two unexpired leases of a row. */
  lemma {:induction false} RunIsSound(t: Tables, commands: seq<Command>)
    requires Sound(t)
    ensures Sound(Run(t, commands))
  {
    if commands != [] {
      RunIsSound(t, commands[..|commands| - 1]);
      StepIsSound(Run(t, commands[..|commands| - 1]), commands[|commands| - 1]);
    }
  }

  predicate Left(s: RowStatus) {
    !s.Pending? && !s.Leased?
  }

  /** Once a row has left pending and leased it never comes back, so no lease of it is granted any more. */
  lemma {:induction false} LeftForGood(t: Tables, commands: seq<Command>, id: OutboxId)
    requires Sound(t) && id in t.outbox && Left(t.outbox[id].status)
    ensures
      var now := Run(t, commands);
      && id in now.outbox && Left(now.outbox[id].status) && now.outbox[id].intent == t.outbox[id].intent
      && now.outbox[id].holder == t.outbox[id].holder && Newest(now.grants, id) == Newest(t.grants, id)
      && forall at :: !Leasable(now, id, at)
  {
    if commands != [] {
      var before := commands[..|commands| - 1];
      LeftForGood(t, before, id);
      RunIsSound(t, before);
      StaysLeft(Run(t, before), commands[|commands| - 1], id);
    }
  }

  lemma StaysLeft(t: Tables, c: Command, id: OutboxId)
    requires id in t.outbox && Left(t.outbox[id].status)
    requires OneRowPerIntent(t.outbox)
    ensures
      var now := Step(t, c);
      && id in now.outbox && Left(now.outbox[id].status) && now.outbox[id].intent == t.outbox[id].intent
      && now.outbox[id].holder == t.outbox[id].holder && Newest(now.grants, id) == Newest(t.grants, id)
  {
    if c.Lease? && Leasable(t, c.row, c.at) {
      NewestOfGranted(t.grants, Grant(c.row, c.bridge, c.token, c.at, c.at + LeaseTime(c.seconds)), id);
    }
  }

  // ---------------------------------------------------------------------
  // Rejection, cancellation and acknowledgement are final

  predicate Settled(s: IntentStatus) {
    !s.PendingApproval? && !s.ApprovedIntent?
  }

  /** An intent past approval is never approved again. */
  lemma {:induction false} SettledForGood(t: Tables, commands: seq<Command>, intent: IntentId)
    requires intent in t.intents && Settled(t.intents[intent].status)
    ensures
      var now := Run(t, commands);
      && intent in now.intents && Settled(now.intents[intent].status)
      && forall at :: !Approvable(now, intent, at)
  {
    if commands != [] {
      SettledForGood(t, commands[..|commands| - 1], intent);
    }
  }

  ghost predicate OnlyStatusOf(a: Tables, b: Tables, intent: IntentId, status: IntentStatus) {
    && b.outbox == a.outbox && b.approvals == a.approvals && b.grants == a.grants
    && b.intents.Keys == a.intents.Keys
    && forall id :: id in a.intents ==>
      b.intents[id] == a.intents[id] || (id == intent && b.intents[id] == a.intents[id].(status := status))
  }

  /** A rejection touches its own intent only, not once it was sent, and no later approval of it goes through. */
  lemma RejectionIsFinal(t: Tables, intent: IntentId, commands: seq<Command>)
    requires intent in t.intents
    ensures
      var rejected := RejectedIntentRow(t, intent);
      && OnlyStatusOf(t, rejected, intent, RejectedIntent)
      && (rejected.intents[intent].status.RejectedIntent? <==>
            !t.intents[intent].status.Sent? && !t.intents[intent].status.AcknowledgedIntent?
            && !t.intents[intent].status.EndedIntent?)
      && forall at :: !Approvable(Run(rejected, commands), intent, at)
  {
    SettledForGood(RejectedIntentRow(t, intent), commands, intent);
  }

  /** `a` has become `b` by moving some of one intent's rows to a status. */
  ghost predicate OnlyRowsOf(a: map<OutboxId, Row>, b: map<OutboxId, Row>, intent: IntentId, status: RowStatus) {
    && b.Keys == a.Keys
    && forall id :: id in a ==>
      b[id] == a[id] || (a[id].intent == intent && b[id] == a[id].(status := status))
  }

  /**
   * A cancellation touches its own intent's rows only, none a bridge has reported done, and none is leased after it.
   */
  lemma CancellationIsFinal(t: Tables, intent: IntentId, commands: seq<Command>, id: OutboxId)
    requires Sound(t) && id in t.outbox && t.outbox[id].intent == intent
    ensures
      var cancelled := CancelledRows(t, intent);
      && cancelled.intents == t.intents && OnlyRowsOf(t.outbox, cancelled.outbox, intent, Cancelled)
      && (cancelled.outbox[id].status.Cancelled? <==>
            !t.outbox[id].status.Delivered? && !t.outbox[id].status.Acknowledged? && !t.outbox[id].status.Failed?)
      && forall at :: !Leasable(Run(cancelled, commands), id, at)
  {
    var cancelled := CancelledRows(t, intent);
    StepIsSound(t, RejectOutboxHalf(intent, 0));
    assert Left(cancelled.outbox[id].status);
    LeftForGood(cancelled, commands, id);
  }

  /** After the broker's acknowledgement the intent is never approved and its row never leased again. */
  lemma AcknowledgementIsFinal(t: Tables, intent: IntentId, commands: seq<Command>, id: OutboxId)
    requires Sound(t) && intent in t.intents && id in t.outbox && t.outbox[id].intent == intent
    ensures
      var done := BrokerAcknowledged(t, intent);
      && done.intents[intent].status.AcknowledgedIntent?
      && OnlyRowsOf(t.outbox, done.outbox, intent, Acknowledged)
      && (done.outbox[id].status.Acknowledged? <==> !t.outbox[id].status.Failed? && !t.outbox[id].status.Cancelled?)
      && forall at :: !Leasable(Run(done, commands), id, at) && !Approvable(Run(done, commands), intent, at)
  {
    var done := BrokerAcknowledged(t, intent);
    StepIsSound(t, Acknowledge(intent, 0));
    assert Left(done.outbox[id].status);
    LeftForGood(done, commands, id);
    SettledForGood(done, commands, intent);
  }

  /** A completion succeeds exactly with the bridge and token of the newest lease; nothing else is looked at. */
  lemma CompletesExactly(
    t: Tables, commands: seq<Command>, id: OutboxId, bridge: BridgeId, token: Token, status: RowStatus)
    requires Sound(t) && Reportable(status)
    ensures
      var now := Run(t, commands);
      Completable(now, id, bridge, token, status) <==>
        && Newest(now.grants, id).Some?
        && Newest(now.grants, id).value.bridge == bridge
        && Newest(now.grants, id).value.token == token
  {
    RunIsSound(t, commands);
    var now := Run(t, commands);
    if id in now.outbox {
      assert Remembers(now.grants, id, now.outbox[id]);
    } else {
      NewestIsLast(now.grants, id);
    }
  }

  /**
   * The status is not looked at either: a row cancelled by a rejection can still be completed, exactly when it had
   * been leased, by the bridge that held its newest lease.
   */
  lemma CancelledRowCompletesExactly(t: Tables, id: OutboxId, bridge: BridgeId, token: Token)
    requires Sound(t) && id in t.outbox && t.outbox[id].status.Cancelled? && t.outbox[id].intent in t.intents
    ensures
      var next := Completed(t, id, bridge, token, Delivered);
      next.intents[t.outbox[id].intent].status.Sent? <==>
        t.intents[t.outbox[id].intent].status.Sent?
        || (exists g :: Newest(t.grants, id) == Some(g) && g.bridge == bridge && g.token == token)
  {
  }

  /** Approved, leased, rejected, delivered: the rejected intent ends up sent. */
  lemma RejectedIntentIsSent()
    ensures
      var t := Tables(map[1 := Intent(PendingApproval, None, 7)], {}, map[], []);
      var approved := Step(t, Approve(1, 1, 0));
      var leased := Step(approved, Lease(7, 2, 3, None, 0));
      var rejected := Step(Step(leased, RejectIntentHalf(1, 1)), RejectOutboxHalf(1, 1));
      var completed := Step(rejected, Complete(7, 2, 3, Delivered, 2));
      && Sound(t)
      && 7 in rejected.outbox && rejected.outbox[7].status.Cancelled?
      && 1 in completed.intents && completed.intents[1].status.Sent?
  {
    var t := Tables(map[1 := Intent(PendingApproval, None, 7)], {}, map[], []);
    var approved := Approved(t, 1, 1, 0);
    assert !HasRowFor(t.outbox, 1) && approved.outbox == map[7 := Row(1, Pending, None, None, 0)];
    var leased := LeasedOut(approved, 7, 2, 3, None, 0);
    assert leased.outbox[7].holder == Some((2, 3)) && leased.outbox[7].status.Leased?;
  }
}
