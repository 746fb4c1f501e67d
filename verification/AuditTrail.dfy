// The audit trail as an event source: folding it rebuilds a reachable journey,
// and with collision-free hashes the last event hash determines the journey.

module AuditTrail {
  import opened Wrappers
  import opened JsText
  import opened AnalyticalCatalog
  import opened AnalyticalEvidence
  import opened AnalyticalJourney
  import opened JourneyOperations
  import opened JourneyInvariants

  datatype PhaseView = PhaseView(
    status: PhaseStatus, startedAt: Option<int>, completedAt: Option<int>,
    summaryHash: Option<Hash>, receiptIds: seq<Text>, reasonCodes: seq<Text>)

  datatype ReceiptRef = ReceiptRef(
    phase: Phase, kind: EvidenceKind, availability: Availability, id: Text, hash: Hash)

  datatype View = Blank | View(
    journeyId: Text, scope: Scope, workflow: Text, cutoff: int, identityHash: Hash, phaseOrder: seq<Phase>,
    phases: seq<PhaseView>, receipts: seq<ReceiptRef>, revision: int, createdAt: int, updatedAt: int)

  const UNVISITED := PhaseView(NotStarted, None, None, None, [], [])

  function UpdatePhase(v: View, p: Phase, view: PhaseView): View
    requires v.View?
  {
    if Index(p) < |v.phases| then v.(phases := v.phases[Index(p) := view]) else v
  }

  function PhaseOf(v: View, p: Phase): PhaseView
    requires v.View?
  {
    if Index(p) < |v.phases| then v.phases[Index(p)] else UNVISITED
  }

  /** What one event says about the journey. */
  function Apply(v: View, e: EventCore): View {
    if e.details.JourneyCreated? then
      View(e.journeyId, e.details.scope, e.details.workflow, e.details.cutoff, e.details.identityHash,
           e.details.phaseOrder, seq(PHASE_COUNT, _ => UNVISITED), [], 0, e.occurredAt, e.occurredAt)
    else if v.Blank? then Blank
    else
      var next := v.(revision := v.revision + 1, updatedAt := e.occurredAt);
      match e.details
      case PhaseStarted(p, _) =>
        UpdatePhase(next, p, PhaseOf(v, p).(status := InProgress, startedAt := Some(e.occurredAt)))
      case EvidenceRecorded(p, kind, availability, id, hash) =>
        next.(receipts := v.receipts + [ReceiptRef(p, kind, availability, id, hash)])
      case PhaseCompleted(p, status, summaryHash, ids, _, codes) =>
        UpdatePhase(next, p, PhaseOf(v, p).(
          status := status, completedAt := Some(e.occurredAt), summaryHash := Some(summaryHash),
          receiptIds := ids, reasonCodes := codes))
  }

  function Replay(events: seq<Event>): View {
    if events == [] then Blank else Apply(Replay(events[..|events| - 1]), events[|events| - 1].core)
  }

  // ---------------------------------------------------------------------
  // The same view read off the journey itself

  function ViewOfEntry(d: Digests, e: PhaseEntry): PhaseView {
    PhaseView(e.status, e.startedAt, e.completedAt,
      if e.summary.Some? then Some(StringHash(d.evidence, e.summary.value)) else None, e.receiptIds, e.reasonCodes)
  }

  function ViewsOfEntries(d: Digests, entries: seq<PhaseEntry>): (views: seq<PhaseView>)
    ensures |views| == |entries|
    ensures forall i :: 0 <= i < |entries| ==> views[i] == ViewOfEntry(d, entries[i])
  {
    seq(|entries|, i requires 0 <= i < |entries| => ViewOfEntry(d, entries[i]))
  }

  function RefOf(r: Receipt): ReceiptRef {
    ReceiptRef(r.core.phase, r.core.kind, r.core.availability, r.id, r.hash)
  }

  function RefsOf(receipts: seq<Receipt>): (refs: seq<ReceiptRef>)
    ensures |refs| == |receipts|
    ensures forall i :: 0 <= i < |receipts| ==> refs[i] == RefOf(receipts[i])
  {
    seq(|receipts|, i requires 0 <= i < |receipts| => RefOf(receipts[i]))
  }

  function ViewOf(d: Digests, j: JourneyCore): View {
    View(j.journeyId, j.scope, j.workflow, j.cutoff, d.evidence.payload(j.identity), j.phaseOrder,
         ViewsOfEntries(d, j.phases), RefsOf(j.receipts), j.revision, j.createdAt, j.updatedAt)
  }

  // ---------------------------------------------------------------------
  // The trail is a complete event source

  lemma ReplayOfAppended(d: Digests, core: JourneyCore, actor: Text, at: int, details: EventDetails)
    ensures Replay(Append(d, core, actor, at, details).core.events)
         == Apply(Replay(core.events), NextEvent(d, core, actor, at, details).core)
  {
  }

  lemma CreatedIsReplayed(d: Digests, c: Creation)
    requires CreateJourney(d, c).Ok?
    ensures var j := CreateJourney(d, c).value.core; Replay(j.events) == ViewOf(d, j)
  {
    var j := CreateJourney(d, c).value.core;
    assert j.events[..0] == [];
    assert Replay(j.events) == Apply(Blank, j.events[0].core);
    assert ViewsOfEntries(d, j.phases) == seq(PHASE_COUNT, _ => UNVISITED);
  }

  lemma EntryChangeIsApplied(d: Digests, j: JourneyCore, i: nat, target: PhaseEntry)
    requires i < |j.phases|
    ensures ViewsOfEntries(d, j.phases[i := target]) == ViewsOfEntries(d, j.phases)[i := ViewOfEntry(d, target)]
  {
  }

  lemma OpeningIsApplied(d: Digests, j: JourneyCore, i: nat, actor: Text, at: int)
    requires i < PHASE_COUNT && |j.phases| == PHASE_COUNT && DefinitionKept(j.phases[i], i)
    ensures
      var core := ChangedCore(j, Opened(i), at);
      Apply(ViewOf(d, j), NextEvent(d, core, actor, at, ChangeDetails(d, j, Opened(i))).core)
      == ViewOf(d, Append(d, core, actor, at, ChangeDetails(d, j, Opened(i))).core)
  {
    IndexOfPhaseAt(i);
    EntryChangeIsApplied(d, j, i, OpenedEntry(j.phases[i], at));
  }

  lemma SealingIsApplied(d: Digests, j: JourneyCore, i: nat, text: Text, actor: Text, at: int)
    requires i < PHASE_COUNT && |j.phases| == PHASE_COUNT && DefinitionKept(j.phases[i], i)
    ensures
      var core := ChangedCore(j, Sealed(i, text), at);
      Apply(ViewOf(d, j), NextEvent(d, core, actor, at, ChangeDetails(d, j, Sealed(i, text))).core)
      == ViewOf(d, Append(d, core, actor, at, ChangeDetails(d, j, Sealed(i, text))).core)
  {
    IndexOfPhaseAt(i);
    var e := j.phases[i];
    EntryChangeIsApplied(d, j, i, SealedEntry(e, ReceiptsOf(j.receipts, e.phase), text, at));
  }

  lemma AttachingIsApplied(d: Digests, j: JourneyCore, r: Receipt, actor: Text, at: int)
    ensures
      var core := ChangedCore(j, Attached(r), at);
      Apply(ViewOf(d, j), NextEvent(d, core, actor, at, ChangeDetails(d, j, Attached(r))).core)
      == ViewOf(d, Append(d, core, actor, at, ChangeDetails(d, j, Attached(r))).core)
  {
  }

  lemma ChangeIsReplayed(d: Digests, j: Journey, ch: Change, actor: Text, at: int)
    requires PhasesOk(j.core.phases, j.core.receipts) && Permitted(d, j, ch, at)
    requires Replay(j.core.events) == ViewOf(d, j.core)
    ensures var next := Changed(d, j, ch, actor, at).core; Replay(next.events) == ViewOf(d, next)
  {
    if !ch.Unchanged? {
      ReplayOfAppended(d, ChangedCore(j.core, ch, at), actor, at, ChangeDetails(d, j.core, ch));
      match ch {
        case Opened(i) =>
          assert DefinitionKept(j.core.phases[i], i);
          OpeningIsApplied(d, j.core, i, actor, at);
        case Attached(r) =>
          AttachingIsApplied(d, j.core, r, actor, at);
        case Sealed(i, text) =>
          assert DefinitionKept(j.core.phases[i], i);
          SealingIsApplied(d, j.core, i, text, actor, at);
      }
    }
  }

  /** Folding the trail of any reachable journey rebuilds its phases, receipts, revision and clock. */
  lemma {:induction false} ReachableIsReplayed(d: Digests, c: Creation, commands: seq<Command>)
    requires CreateJourney(d, c).Ok?
    ensures var j := Run(d, CreateJourney(d, c).value, commands).core; Replay(j.events) == ViewOf(d, j)
  {
    if commands == [] {
      CreatedIsReplayed(d, c);
    } else {
      var before := commands[..|commands| - 1];
      var j := Run(d, CreateJourney(d, c).value, before);
      ReachableIsReplayed(d, c, before);
      ReachableIsSound(d, c, before);
      var ch, actor, t := StepIsChange(d, j, commands[|commands| - 1]);
      ChangeIsReplayed(d, j, ch, actor, t);
    }
  }

  // ---------------------------------------------------------------------
  // The last hash determines the trail, and the trail the journey

  ghost predicate CollisionFree(d: Digests) {
    && (forall a, b :: d.event(a) == d.event(b) ==> a == b)
    && (forall a, b :: d.evidence.receipt(a) == d.evidence.receipt(b) ==> a == b)
    && (forall a, b :: d.evidence.payload(a) == d.evidence.payload(b) ==> a == b)
  }

  lemma ChainPrefix(d: Digests, journeyId: Text, events: seq<Event>)
    requires ChainOk(d, journeyId, events) && |events| > 1
    ensures ChainOk(d, journeyId, events[..|events| - 1])
  {
    var prefix := events[..|events| - 1];
    forall i | 0 <= i < |prefix| ensures Linked(d, journeyId, prefix, i) {
      assert Linked(d, journeyId, events, i);
    }
  }

  /** Two verified chains that end in the same hash are equal event by event. */
  lemma {:induction false} ChainsAgree(d: Digests, idA: Text, a: seq<Event>, idB: Text, b: seq<Event>)
    requires forall x, y :: d.event(x) == d.event(y) ==> x == y
    requires ChainOk(d, idA, a) && ChainOk(d, idB, b)
    requires a[|a| - 1].hash == b[|b| - 1].hash
    ensures a == b
    decreases |a|
  {
    var m, n := |a| - 1, |b| - 1;
    assert Linked(d, idA, a, m) && Linked(d, idB, b, n);
    assert a[m].core == b[n].core;
    assert a[m] == b[n] && m == n;
    if m > 0 {
      ChainPrefix(d, idA, a);
      ChainPrefix(d, idB, b);
      ChainsAgree(d, idA, a[..m], idB, b[..m]);
    }
    assert a == a[..m] + [a[m]] && b == b[..m] + [b[m]];
  }

  lemma EntriesAgree(d: Digests, a: JourneyCore, b: JourneyCore)
    requires CollisionFree(d)
    requires PhasesOk(a.phases, a.receipts) && PhasesOk(b.phases, b.receipts)
    requires ViewsOfEntries(d, a.phases) == ViewsOfEntries(d, b.phases)
    ensures a.phases == b.phases
  {
    forall i | 0 <= i < PHASE_COUNT ensures a.phases[i] == b.phases[i] {
      var x, y := a.phases[i], b.phases[i];
      assert DefinitionKept(x, i) && DefinitionKept(y, i) && ViewOfEntry(d, x) == ViewOfEntry(d, y);
      if x.summary.Some? { StringHashTellsApart(d.evidence, x.summary.value, y.summary.value); }
    }
  }

  lemma ReceiptsAgree(d: Digests, a: JourneyCore, b: JourneyCore)
    requires CollisionFree(d)
    requires ReceiptsOk(d, a) && ReceiptsOk(d, b) && RefsOf(a.receipts) == RefsOf(b.receipts)
    ensures a.receipts == b.receipts
  {
  }

  lemma SameTrailSameJourney(d: Digests, a: Journey, b: Journey)
    requires CollisionFree(d) && Integrity(d, a) && Integrity(d, b)
    requires ViewOf(d, a.core) == ViewOf(d, b.core) && a.core.events == b.core.events
    ensures a == b
  {
    EntriesAgree(d, a.core, b.core);
    ReceiptsAgree(d, a.core, b.core);
  }

  /** With collision-free hashes the last event hash determines a reachable journey completely. */
  lemma HeadDeterminesJourney(
    d: Digests, c1: Creation, commands1: seq<Command>, c2: Creation, commands2: seq<Command>)
    requires CollisionFree(d) && CreateJourney(d, c1).Ok? && CreateJourney(d, c2).Ok?
    requires
      var a := Run(d, CreateJourney(d, c1).value, commands1).core.events;
      var b := Run(d, CreateJourney(d, c2).value, commands2).core.events;
      a != [] && b != [] ==> a[|a| - 1].hash == b[|b| - 1].hash
    ensures Run(d, CreateJourney(d, c1).value, commands1) == Run(d, CreateJourney(d, c2).value, commands2)
  {
    ReachableIsSound(d, c1, commands1);
    ReachableIsSound(d, c2, commands2);
    ReachableIsReplayed(d, c1, commands1);
    ReachableIsReplayed(d, c2, commands2);
    var a := Run(d, CreateJourney(d, c1).value, commands1);
    var b := Run(d, CreateJourney(d, c2).value, commands2);
    ChainsAgree(d, a.core.journeyId, a.core.events, b.core.journeyId, b.core.events);
    SameTrailSameJourney(d, a, b);
  }
}
