// The analytical journey: a frozen record advanced by start, record and
// complete, each of which first re-checks the whole record.

module AnalyticalJourney {
  import opened Wrappers
  import opened JsText
  import opened AnalyticalCatalog
  import opened AnalyticalEvidence

  datatype Scope = Live | Replay

  datatype PhaseEntry = PhaseEntry(
    phase: Phase,
    ordinal: int,
    criticality: Criticality,
    requiredKinds: seq<EvidenceKind>,
    status: PhaseStatus,
    startedAt: Option<int>,
    completedAt: Option<int>,
    summary: Option<Text>,
    receiptIds: seq<Text>,
    reasonCodes: seq<Text>)

  /** An audit event's type together with its details. */
  datatype EventDetails =
    | JourneyCreated(scope: Scope, workflow: Text, cutoff: int, identityHash: Hash, phaseOrder: seq<Phase>)
    | PhaseStarted(startedPhase: Phase, ordinal: int)
    | EvidenceRecorded(
        evidencePhase: Phase, kind: EvidenceKind, availability: Availability, receiptId: Text, receiptHash: Hash)
    | PhaseCompleted(
        completedPhase: Phase, status: PhaseStatus, summaryHash: Hash,
        receiptIds: seq<Text>, receiptHashes: seq<Hash>, reasonCodes: seq<Text>)

  datatype EventCore = EventCore(
    journeyId: Text, sequence: int, actor: Text, occurredAt: int, previousHash: Option<Hash>, details: EventDetails)

  datatype Event = Event(core: EventCore, id: Text, hash: Hash)

  datatype JourneyCore = JourneyCore(
    journeyId: Text,
    scope: Scope,
    workflow: Text,
    cutoff: int,
    identity: Text,
    phaseOrder: seq<Phase>,
    status: PhaseStatus,
    phases: seq<PhaseEntry>,
    receipts: seq<Receipt>,
    events: seq<Event>,
    revision: int,
    createdAt: int,
    updatedAt: int)

  datatype Journey = Journey(core: JourneyCore, hash: Hash)

  datatype Digests = Digests(
    evidence: ReceiptDigests,
    event: EventCore -> Hash,
    eventId: Hash -> Text,
    journey: JourneyCore -> Hash)

  datatype JourneyError =
    | ScopeInvalid | FieldRequired | TimestampInvalid | IntegrityFailed | PhaseInvalid | PhaseMissing
    | PhaseAlreadyClosed | PhaseOrderViolation | PhaseEvidenceClosed | TimeRegression
    | EvidenceRefused(cause: EvidenceError) | ReceiptCollision | SummaryTooLong
    | PhaseNotInProgress | EvidenceIncomplete | StatusForgery | IdentityInvalid

  datatype Result<+T> = Ok(value: T) | Err(error: JourneyError)

  // ---------------------------------------------------------------------
  // `Array.prototype.some` and `every`

  predicate Any<T>(xs: seq<T>, p: T -> bool) {
    xs != [] && (p(xs[0]) || Any(xs[1..], p))
  }

  predicate Every<T>(xs: seq<T>, p: T -> bool) {
    xs == [] || (p(xs[0]) && Every(xs[1..], p))
  }

  lemma {:induction false} AnyMeans<T>(xs: seq<T>, p: T -> bool)
    ensures Any(xs, p) <==> exists i :: 0 <= i < |xs| && p(xs[i])
  {
    if xs != [] {
      AnyMeans(xs[1..], p);
      if i :| 0 <= i < |xs| && p(xs[i]) {
        assert i == 0 || p(xs[1..][i - 1]);
      }
    }
  }

  // ---------------------------------------------------------------------
  // Derived values

  function ReceiptsOf(receipts: seq<Receipt>, p: Phase): seq<Receipt> {
    if receipts == [] then []
    else if receipts[0].core.phase == p then [receipts[0]] + ReceiptsOf(receipts[1..], p)
    else ReceiptsOf(receipts[1..], p)
  }

  lemma {:induction false} ReceiptsOfMembers(receipts: seq<Receipt>, p: Phase, r: Receipt)
    ensures r in ReceiptsOf(receipts, p) <==> r in receipts && r.core.phase == p
  {
    if receipts != [] {
      ReceiptsOfMembers(receipts[1..], p, r);
      assert r in receipts <==> r == receipts[0] || r in receipts[1..];
    }
  }

  function IdsOf(receipts: seq<Receipt>): (ids: seq<Text>)
    ensures |ids| == |receipts|
    ensures forall i :: 0 <= i < |ids| ==> ids[i] == receipts[i].id
  {
    seq(|receipts|, i requires 0 <= i < |receipts| => receipts[i].id)
  }

  function HashesOf(receipts: seq<Receipt>): seq<Hash> {
    seq(|receipts|, i requires 0 <= i < |receipts| => receipts[i].hash)
  }

  function AllReasonCodes(receipts: seq<Receipt>): seq<Text> {
    if receipts == [] then [] else receipts[0].core.reasonCodes + AllReasonCodes(receipts[1..])
  }

  function OfKind(kind: EvidenceKind): Receipt -> bool {
    (r: Receipt) => r.core.kind == kind
  }

  function MissingKinds(required: seq<EvidenceKind>, receipts: seq<Receipt>): seq<EvidenceKind> {
    if required == [] then []
    else
      var rest := MissingKinds(required[1..], receipts);
      if Any(receipts, OfKind(required[0])) then rest else [required[0]] + rest
  }

  ghost predicate HasKind(receipts: seq<Receipt>, kind: EvidenceKind) {
    exists i :: 0 <= i < |receipts| && receipts[i].core.kind == kind
  }

  /** A kind is reported missing exactly when it is required and no receipt is of it. */
  lemma {:induction false} MissingMeans(required: seq<EvidenceKind>, receipts: seq<Receipt>, kind: EvidenceKind)
    ensures kind in MissingKinds(required, receipts) <==> kind in required && !HasKind(receipts, kind)
  {
    if required != [] {
      MissingMeans(required[1..], receipts, kind);
      AnyMeans(receipts, OfKind(required[0]));
      assert Any(receipts, OfKind(required[0])) <==> HasKind(receipts, required[0]);
      assert kind in required <==> kind == required[0] || kind in required[1..];
    }
  }

  /** Nothing is reported missing exactly when every required kind has a receipt. */
  lemma NothingMissing(required: seq<EvidenceKind>, receipts: seq<Receipt>)
    ensures MissingKinds(required, receipts) == [] <==> forall kind :: kind in required ==> HasKind(receipts, kind)
  {
    var missing := MissingKinds(required, receipts);
    forall kind ensures kind in missing <==> kind in required && !HasKind(receipts, kind) {
      MissingMeans(required, receipts, kind);
    }
    if missing != [] { assert missing[0] in missing; }
  }

  datatype Assessment = Assessment(status: PhaseStatus, missing: seq<EvidenceKind>, reasonCodes: seq<Text>)

  function AssessPhaseEvidence(required: seq<EvidenceKind>, receipts: seq<Receipt>): Assessment {
    var status :=
      if Any(receipts, (r: Receipt) => r.core.availability.Barred?) then PhaseStatus.Blocked
      else if Any(receipts, (r: Receipt) => r.core.kind in required && r.core.availability.NotAvailable?)
      then PhaseStatus.Unavailable
      else if Any(receipts, (r: Receipt) => r.core.availability.PartlyAvailable? || r.core.availability.NotAvailable?)
      then PhaseStatus.Degraded
      else PhaseStatus.Complete;
    Assessment(status, MissingKinds(required, receipts), SortedUnique(AllReasonCodes(receipts)))
  }

  function DeriveStatus(phases: seq<PhaseEntry>): PhaseStatus {
    if Any(phases, (e: PhaseEntry) => e.status.InProgress?) then InProgress
    else if Every(phases, (e: PhaseEntry) => e.status.NotStarted?) then NotStarted
    else if !Every(phases, (e: PhaseEntry) => Terminal(e.status)) then InProgress
    else if Any(phases, (e: PhaseEntry) => e.status.Blocked?) then PhaseStatus.Blocked
    else if Any(phases, (e: PhaseEntry) => e.status.Degraded? || e.status.Unavailable?) then PhaseStatus.Degraded
    else PhaseStatus.Complete
  }

  function Finalize(d: Digests, core: JourneyCore): Journey {
    var normalized := core.(status := DeriveStatus(core.phases));
    Journey(normalized, d.journey(normalized))
  }

  function BuildEvent(d: Digests, core: EventCore): Event {
    Event(core, d.eventId(d.event(core)), d.event(core))
  }

  function NextEvent(d: Digests, j: JourneyCore, actor: Text, at: int, details: EventDetails): Event {
    var previous := if j.events == [] then None else Some(j.events[|j.events| - 1].hash);
    BuildEvent(d, EventCore(j.journeyId, |j.events| + 1, actor, at, previous, details))
  }

  function FindPhase(phases: seq<PhaseEntry>, p: Phase): (i: nat)
    ensures i <= |phases|
    ensures i < |phases| ==> phases[i].phase == p
    ensures forall k :: 0 <= k < i ==> phases[k].phase != p
  {
    if phases == [] || phases[0].phase == p then 0 else 1 + FindPhase(phases[1..], p)
  }

  function FindReceipt(receipts: seq<Receipt>, id: Text): (i: nat)
    ensures i <= |receipts|
    ensures i < |receipts| ==> receipts[i].id == id
    ensures forall k :: 0 <= k < i ==> receipts[k].id != id
  {
    if receipts == [] || receipts[0].id == id then 0 else 1 + FindReceipt(receipts[1..], id)
  }

  // ---------------------------------------------------------------------
  // Integrity

  ghost predicate DefinitionKept(e: PhaseEntry, i: nat)
    requires i < PHASE_COUNT
  {
    && e.phase == PhaseAt(i)
    && e.ordinal == i + 1
    && e.criticality == CriticalityOf(e.phase)
    && e.requiredKinds == RequiredKinds(e.phase)
  }

  /** An empty summary counts as none. */
  predicate NoSummary(e: PhaseEntry) {
    e.summary.None? || e.summary.value == []
  }

  /** What each status demands of an entry's other fields. */
  ghost predicate EntryShape(e: PhaseEntry, receipts: seq<Receipt>) {
    if e.status.NotStarted? then
      e.startedAt.None? && e.completedAt.None? && NoSummary(e) && e.receiptIds == []
    else if e.status.InProgress? then
      e.startedAt.Some? && e.completedAt.None? && NoSummary(e) && e.receiptIds == []
    else
      && e.startedAt.Some? && e.completedAt.Some? && !NoSummary(e)
      && e.receiptIds == IdsOf(ReceiptsOf(receipts, e.phase))
  }

  ghost predicate EntriesKept(phases: seq<PhaseEntry>, receipts: seq<Receipt>, n: nat)
    requires n <= |phases| && n <= PHASE_COUNT
  {
    forall i :: 0 <= i < n ==> DefinitionKept(phases[i], i) && EntryShape(phases[i], receipts)
  }

  /** No terminal phase among the first `n` comes after an open one. */
  ghost predicate SequenceKept(phases: seq<PhaseEntry>, n: nat)
    requires n <= |phases|
  {
    forall i, k :: 0 <= i < k < n && Terminal(phases[k].status) ==> Terminal(phases[i].status)
  }

  ghost predicate OneActive(phases: seq<PhaseEntry>, n: nat)
    requires n <= |phases|
  {
    forall i, k :: 0 <= i < k < n ==> !(phases[i].status.InProgress? && phases[k].status.InProgress?)
  }

  ghost predicate PhasesOk(phases: seq<PhaseEntry>, receipts: seq<Receipt>) {
    && |phases| == PHASE_COUNT
    && EntriesKept(phases, receipts, PHASE_COUNT)
    && SequenceKept(phases, PHASE_COUNT)
    && OneActive(phases, PHASE_COUNT)
  }

  ghost predicate ReceiptsOk(d: Digests, j: JourneyCore) {
    && (forall i :: 0 <= i < |j.receipts| ==> Genuine(d.evidence, j.receipts[i], j.journeyId, None, j.cutoff))
    && (forall i, k :: 0 <= i < k < |j.receipts| ==> j.receipts[i].id != j.receipts[k].id)
  }

  ghost predicate Bound(receipts: seq<Receipt>, id: Text, p: Phase) {
    var k := FindReceipt(receipts, id);
    k < |receipts| && receipts[k].core.phase == p
  }

  ghost predicate BindingsOk(j: JourneyCore) {
    forall e, id :: e in j.phases && id in e.receiptIds ==> Bound(j.receipts, id, e.phase)
  }

  ghost predicate Linked(d: Digests, journeyId: Text, events: seq<Event>, i: nat)
    requires i < |events|
  {
    var e := events[i];
    && e.core.journeyId == journeyId
    && e.core.sequence == i + 1
    && e.core.previousHash == (if i == 0 then None else Some(events[i - 1].hash))
    && e.hash == d.event(e.core)
    && e.id == d.eventId(d.event(e.core))
    && (i > 0 ==> events[i - 1].core.occurredAt <= e.core.occurredAt)
  }

  ghost predicate ChainOk(d: Digests, journeyId: Text, events: seq<Event>) {
    && events != []
    && forall i :: 0 <= i < |events| ==> Linked(d, journeyId, events, i)
  }

  ghost predicate HeaderOk(d: Digests, j: Journey) {
    && j.core.phaseOrder == PhaseOrder()
    && j.core.status == DeriveStatus(j.core.phases)
    && (j.core.events != [] ==>
          && j.core.revision == |j.core.events| - 1
          && j.core.updatedAt == j.core.events[|j.core.events| - 1].core.occurredAt)
    && j.hash == d.journey(j.core)
  }

  /** Everything the integrity check demands of a journey. */
  ghost predicate Integrity(d: Digests, j: Journey) {
    && PhasesOk(j.core.phases, j.core.receipts)
    && ReceiptsOk(d, j.core)
    && BindingsOk(j.core)
    && ChainOk(d, j.core.journeyId, j.core.events)
    && HeaderOk(d, j)
  }

  datatype Violation =
    | PhaseOrderMismatch | PhasesInvalid | DefinitionMismatch(p: Phase) | SequenceInvalid(p: Phase)
    | NotStartedDirty(p: Phase) | InProgressInvalid(p: Phase) | TerminalInvalid(p: Phase)
    | MultipleActivePhases | EvidenceInvalid(id: Text) | EvidenceDuplicate(id: Text)
    | BindingInvalid(p: Phase, id: Text) | TrailMissing | ChainInvalid(sequence: int)
    | TimeOrderInvalid(sequence: int) | RevisionMismatch | StatusMismatch | UpdatedAtMismatch | HashMismatch

  method CheckEntry(e: PhaseEntry, i: nat, receipts: seq<Receipt>) returns (violations: seq<Violation>)
    requires i < PHASE_COUNT
    ensures violations == [] <==> DefinitionKept(e, i) && EntryShape(e, receipts)
  {
    violations := [];
    var p := PhaseAt(i);
    if e.phase != p || e.ordinal != i + 1 || e.criticality != CriticalityOf(p) || e.requiredKinds != RequiredKinds(p) {
      violations := violations + [DefinitionMismatch(p)];
    }
    if e.status.NotStarted? && (e.startedAt.Some? || e.completedAt.Some? || !NoSummary(e) || e.receiptIds != []) {
      violations := violations + [NotStartedDirty(e.phase)];
    }
    if e.status.InProgress? && (e.startedAt.None? || e.completedAt.Some? || !NoSummary(e) || e.receiptIds != []) {
      violations := violations + [InProgressInvalid(e.phase)];
    }
    if Terminal(e.status)
      && (e.startedAt.None? || e.completedAt.None? || NoSummary(e)
          || e.receiptIds != IdsOf(ReceiptsOf(receipts, e.phase)))
    {
      violations := violations + [TerminalInvalid(e.phase)];
    }
  }

  lemma EntriesStep(phases: seq<PhaseEntry>, receipts: seq<Receipt>, n: nat)
    requires n < |phases| && n < PHASE_COUNT
    ensures EntriesKept(phases, receipts, n + 1) <==>
      EntriesKept(phases, receipts, n) && DefinitionKept(phases[n], n) && EntryShape(phases[n], receipts)
  {
  }

  lemma SequenceStep(phases: seq<PhaseEntry>, n: nat, openSeen: bool)
    requires n < |phases|
    requires openSeen <==> exists i :: 0 <= i < n && !Terminal(phases[i].status)
    ensures SequenceKept(phases, n + 1) <==> SequenceKept(phases, n) && !(openSeen && Terminal(phases[n].status))
  {
  }

  function ActiveCount(phases: seq<PhaseEntry>, n: nat): nat
    requires n <= |phases|
  {
    if n == 0 then 0 else ActiveCount(phases, n - 1) + if phases[n - 1].status.InProgress? then 1 else 0
  }

  lemma {:induction false} ActiveCountMeaning(phases: seq<PhaseEntry>, n: nat)
    requires n <= |phases|
    ensures ActiveCount(phases, n) == 0 <==> forall i :: 0 <= i < n ==> !phases[i].status.InProgress?
    ensures ActiveCount(phases, n) <= 1 <==> OneActive(phases, n)
  {
    if n > 0 {
      ActiveCountMeaning(phases, n - 1);
      if ActiveCount(phases, n - 1) > 0 && phases[n - 1].status.InProgress? {
        var i :| 0 <= i < n - 1 && phases[i].status.InProgress?;
        assert phases[n - 1].status.InProgress?;
      }
    }
  }

  method CheckEntries(phases: seq<PhaseEntry>, receipts: seq<Receipt>)
    returns (violations: seq<Violation>, inProgressCount: nat)
    requires |phases| == PHASE_COUNT
    ensures violations == [] <==> EntriesKept(phases, receipts, PHASE_COUNT) && SequenceKept(phases, PHASE_COUNT)
    ensures inProgressCount == ActiveCount(phases, PHASE_COUNT)
  {
    violations, inProgressCount := [], 0;
    var openPhaseSeen := false;
    for index := 0 to PHASE_COUNT
      invariant openPhaseSeen <==> exists i :: 0 <= i < index && !Terminal(phases[i].status)
      invariant inProgressCount == ActiveCount(phases, index)
      invariant violations == [] <==> EntriesKept(phases, receipts, index) && SequenceKept(phases, index)
    {
      var entry := phases[index];
      SequenceStep(phases, index, openPhaseSeen);
      EntriesStep(phases, receipts, index);
      if entry.status.InProgress? { inProgressCount := inProgressCount + 1; }
      if !Terminal(entry.status) { openPhaseSeen := true; }
      if openPhaseSeen && Terminal(entry.status) {
        violations := violations + [SequenceInvalid(entry.phase)];
      }
      var own := CheckEntry(entry, index, receipts);
      violations := violations + own;
    }
  }

  method CheckPhases(phases: seq<PhaseEntry>, receipts: seq<Receipt>) returns (violations: seq<Violation>)
    ensures violations == [] <==> PhasesOk(phases, receipts)
  {
    if |phases| != PHASE_COUNT {
      return [PhasesInvalid];
    }
    var inProgressCount;
    violations, inProgressCount := CheckEntries(phases, receipts);
    if inProgressCount > 1 {
      violations := violations + [MultipleActivePhases];
    }
    ActiveCountMeaning(phases, PHASE_COUNT);
  }

  method CheckReceipts(d: Digests, j: JourneyCore) returns (violations: seq<Violation>)
    ensures violations == [] <==> ReceiptsOk(d, j)
  {
    violations := [];
    var seen: set<Text> := {};
    for index := 0 to |j.receipts|
      invariant seen == set i | 0 <= i < index :: j.receipts[i].id
      invariant violations == [] <==>
        && (forall i :: 0 <= i < index ==> Genuine(d.evidence, j.receipts[i], j.journeyId, None, j.cutoff))
        && (forall i, k :: 0 <= i < k < index ==> j.receipts[i].id != j.receipts[k].id)
    {
      var receipt := j.receipts[index];
      var verification := VerifyReceipt(d.evidence, receipt, j.journeyId, None, j.cutoff);
      if verification != [] { violations := violations + [EvidenceInvalid(receipt.id)]; }
      if receipt.id in seen { violations := violations + [EvidenceDuplicate(receipt.id)]; }
      seen := seen + {receipt.id};
    }
  }

  method CheckBindings(j: JourneyCore) returns (violations: seq<Violation>)
    ensures violations == [] <==> BindingsOk(j)
  {
    violations := [];
    for index := 0 to |j.phases|
      invariant violations == [] <==>
        forall i, id :: 0 <= i < index && id in j.phases[i].receiptIds ==> Bound(j.receipts, id, j.phases[i].phase)
    {
      var entry := j.phases[index];
      for n := 0 to |entry.receiptIds|
        invariant violations == [] <==>
          && (forall i, id :: 0 <= i < index && id in j.phases[i].receiptIds ==>
                Bound(j.receipts, id, j.phases[i].phase))
          && (forall m :: 0 <= m < n ==> Bound(j.receipts, entry.receiptIds[m], entry.phase))
      {
        var k := FindReceipt(j.receipts, entry.receiptIds[n]);
        if k == |j.receipts| || j.receipts[k].core.phase != entry.phase {
          violations := violations + [BindingInvalid(entry.phase, entry.receiptIds[n])];
        }
      }
    }
  }

  method VerifyAuditChain(d: Digests, journeyId: Text, events: seq<Event>) returns (violations: seq<Violation>)
    ensures violations == [] <==> ChainOk(d, journeyId, events)
  {
    if events == [] {
      return [TrailMissing];
    }
    violations := [];
    var previousHash: Option<Hash>, previousTimestamp: Option<int> := None, None;
    for index := 0 to |events|
      invariant previousHash == if index == 0 then None else Some(events[index - 1].hash)
      invariant previousTimestamp == if index == 0 then None else Some(events[index - 1].core.occurredAt)
      invariant violations == [] <==> forall i :: 0 <= i < index ==> Linked(d, journeyId, events, i)
    {
      var event := events[index];
      var expectedHash := d.event(event.core);
      var wasClean := violations == [];
      if event.core.journeyId != journeyId || event.core.sequence != index + 1
        || event.core.previousHash != previousHash
        || event.hash != expectedHash || event.id != d.eventId(expectedHash)
      {
        violations := violations + [ChainInvalid(index + 1)];
      }
      if previousTimestamp.Some? && event.core.occurredAt < previousTimestamp.value {
        violations := violations + [TimeOrderInvalid(index + 1)];
      }
      assert violations == [] <==> wasClean && Linked(d, journeyId, events, index);
      previousHash, previousTimestamp := Some(event.hash), Some(event.core.occurredAt);
    }
  }

  /** `assertAnalyticalJourneyIntegrity`: no violation is pushed exactly for sound journeys. */
  method CheckIntegrity(d: Digests, j: Journey) returns (violations: seq<Violation>)
    ensures violations == [] <==> Integrity(d, j)
  {
    violations := [];
    if j.core.phaseOrder != PhaseOrder() { violations := violations + [PhaseOrderMismatch]; }
    var phases := CheckPhases(j.core.phases, j.core.receipts);
    var receipts := CheckReceipts(d, j.core);
    var bindings := CheckBindings(j.core);
    var chain := VerifyAuditChain(d, j.core.journeyId, j.core.events);
    violations := violations + phases + receipts + bindings + chain;
    var events := j.core.events;
    if events != [] && j.core.revision != |events| - 1 { violations := violations + [RevisionMismatch]; }
    if |j.core.phases| == PHASE_COUNT && j.core.status != DeriveStatus(j.core.phases) {
      violations := violations + [StatusMismatch];
    }
    if events != [] && j.core.updatedAt != events[|events| - 1].core.occurredAt {
      violations := violations + [UpdatedAtMismatch];
    }
    if j.hash != d.journey(j.core) { violations := violations + [HashMismatch]; }
  }
}
