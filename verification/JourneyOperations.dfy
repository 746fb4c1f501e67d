// Creating a journey, starting a phase, recording evidence, completing a phase.
// A journey is frozen, so each operation returns a new one; each method builds
// it step by step on a local copy and is tied to the function that specifies it.

module JourneyOperations {
  import opened Wrappers
  import opened JsText
  import opened AnalyticalCatalog
  import opened AnalyticalEvidence
  import opened AnalyticalJourney

  const SUMMARY_LIMIT := 8_000

  datatype Creation = Creation(
    journeyId: Text,
    scope: Option<Scope>,
    workflow: Text,
    cutoff: Option<int>,
    identity: Option<Text>,
    actor: Text,
    createdAt: Option<int>)

  datatype StatusClaim = NoClaim | Claim(status: PhaseStatus) | UnknownClaim

  datatype Command =
    | Start(phase: Option<Phase>, actor: Text, at: Option<int>)
    | Record(phase: Option<Phase>, evidence: Evidence, actor: Text, at: Option<int>)
    | Close(phase: Option<Phase>, summary: Text, claim: StatusClaim, actor: Text, at: Option<int>)

  function FreshEntry(p: Phase): PhaseEntry {
    PhaseEntry(p, Ordinal(p), CriticalityOf(p), RequiredKinds(p), NotStarted, None, None, None, [], [])
  }

  function FreshEntries(): (entries: seq<PhaseEntry>)
    ensures |entries| == PHASE_COUNT
    ensures forall i :: 0 <= i < PHASE_COUNT ==> entries[i] == FreshEntry(PhaseAt(i))
  {
    seq(PHASE_COUNT, i requires 0 <= i < PHASE_COUNT => FreshEntry(PhaseAt(i)))
  }

  /** A journey with one more audit event, its revision, clock, status and hash brought up to date. */
  function Append(d: Digests, core: JourneyCore, actor: Text, at: int, details: EventDetails): Journey {
    Finalize(d, core.(
      events := core.events + [NextEvent(d, core, actor, at, details)],
      revision := core.revision + 1,
      updatedAt := at))
  }

  /** Bumps revision and clock, pushes the event and finalizes the local copy. */
  method AppendAuditEvent(d: Digests, core: JourneyCore, actor: Text, at: int, details: EventDetails)
    returns (j: Journey)
    ensures j == Append(d, core, actor, at, details)
  {
    var next := core;
    next := next.(updatedAt := at);
    next := next.(revision := next.revision + 1);
    next := next.(events := next.events + [NextEvent(d, core, actor, at, details)]);
    j := Finalize(d, next);
  }

  /** One more event, linked to the last, leaves a verified chain and a header that agrees with it; the rest stays. */
  lemma AppendKeepsChain(d: Digests, core: JourneyCore, actor: Text, at: int, details: EventDetails)
    requires ChainOk(d, core.journeyId, core.events) && core.events[|core.events| - 1].core.occurredAt <= at
    requires core.phaseOrder == PhaseOrder() && core.revision == |core.events| - 1
    ensures
      var j := Append(d, core, actor, at, details);
      && ChainOk(d, j.core.journeyId, j.core.events) && HeaderOk(d, j)
      && |j.core.events| == |core.events| + 1 && j.core.events[..|core.events|] == core.events
      && j.core.events[|core.events|].core.details == details && j.core.events[|core.events|].core.actor == actor
      && j.core.journeyId == core.journeyId && j.core.cutoff == core.cutoff
      && j.core.phases == core.phases && j.core.receipts == core.receipts && j.core.identity == core.identity
  {
    var events := Append(d, core, actor, at, details).core.events;
    forall i | 0 <= i < |events| ensures Linked(d, core.journeyId, events, i) {
      if i < |core.events| {
        assert Linked(d, core.journeyId, core.events, i);
      }
    }
  }

  function CreateJourney(d: Digests, c: Creation): Result<Journey> {
    if c.scope.None? then Err(ScopeInvalid)
    else if Trim(c.workflow) == [] || Trim(c.journeyId) == [] then Err(FieldRequired)
    else if c.cutoff.None? || c.createdAt.None? then Err(JourneyError.TimestampInvalid)
    else if c.identity.None? then Err(IdentityInvalid)
    else if Trim(c.actor) == [] then Err(FieldRequired)
    else
      var details := JourneyCreated(
        c.scope.value, Trim(c.workflow), c.cutoff.value, d.evidence.payload(c.identity.value), PhaseOrder());
      var created := BuildEvent(d, EventCore(Trim(c.journeyId), 1, Trim(c.actor), c.createdAt.value, None, details));
      Ok(Finalize(d, JourneyCore(
        Trim(c.journeyId), c.scope.value, Trim(c.workflow), c.cutoff.value, c.identity.value, PhaseOrder(),
        NotStarted, FreshEntries(), [], [created], 0, c.createdAt.value, c.createdAt.value)))
  }

  // ---------------------------------------------------------------------
  // The four ways a command can change a journey

  datatype Change = Unchanged | Opened(i: nat) | Attached(receipt: Receipt) | Sealed(i: nat, text: Text)

  function OpenedEntry(e: PhaseEntry, at: int): PhaseEntry {
    e.(status := InProgress, startedAt := Some(at))
  }

  function SealedEntry(e: PhaseEntry, receipts: seq<Receipt>, text: Text, at: int): PhaseEntry {
    var a := AssessPhaseEvidence(e.requiredKinds, receipts);
    e.(status := a.status, completedAt := Some(at), summary := Some(text),
       receiptIds := IdsOf(receipts), reasonCodes := a.reasonCodes)
  }

  function ChangedCore(j: JourneyCore, ch: Change, at: int): JourneyCore {
    match ch
    case Unchanged => j
    case Opened(i) =>
      if i < |j.phases| then j.(phases := j.phases[i := OpenedEntry(j.phases[i], at)]) else j
    case Attached(r) => j.(receipts := j.receipts + [r])
    case Sealed(i, text) =>
      if i < |j.phases| then
        var e := j.phases[i];
        j.(phases := j.phases[i := SealedEntry(e, ReceiptsOf(j.receipts, e.phase), text, at)])
      else j
  }

  function ChangeDetails(d: Digests, j: JourneyCore, ch: Change): EventDetails
    requires !ch.Unchanged? && (ch.Attached? || ch.i < |j.phases|)
  {
    match ch
    case Opened(i) => PhaseStarted(j.phases[i].phase, j.phases[i].ordinal)
    case Attached(r) => EvidenceRecorded(r.core.phase, r.core.kind, r.core.availability, r.id, r.hash)
    case Sealed(i, text) =>
      var receipts := ReceiptsOf(j.receipts, j.phases[i].phase);
      var a := AssessPhaseEvidence(j.phases[i].requiredKinds, receipts);
      PhaseCompleted(
        j.phases[i].phase, a.status, StringHash(d.evidence, text),
        IdsOf(receipts), HashesOf(receipts), a.reasonCodes)
  }

  // ---------------------------------------------------------------------
  // Start

  predicate PriorPhaseOpen(phases: seq<PhaseEntry>, ordinal: int) {
    Any(phases, (e: PhaseEntry) => e.ordinal < ordinal && !Terminal(e.status))
  }

  lemma PriorPhaseOpenMeans(phases: seq<PhaseEntry>, ordinal: int)
    ensures PriorPhaseOpen(phases, ordinal) <==>
      exists i :: 0 <= i < |phases| && phases[i].ordinal < ordinal && !Terminal(phases[i].status)
  {
    AnyMeans(phases, (e: PhaseEntry) => e.ordinal < ordinal && !Terminal(e.status));
  }

  /** The start of a phase once the journey has passed the integrity check. */
  function StartedChecked(d: Digests, j: Journey, phase: Option<Phase>, actor: Text, at: Option<int>)
    : Result<Journey>
  {
    if phase.None? then Err(PhaseInvalid)
    else
      var i := FindPhase(j.core.phases, phase.value);
      if i == |j.core.phases| then Err(PhaseMissing)
      else
        var current := j.core.phases[i];
        if current.status.InProgress? then Ok(j)
        else if Terminal(current.status) then Err(PhaseAlreadyClosed)
        else if PriorPhaseOpen(j.core.phases, current.ordinal) then Err(PhaseOrderViolation)
        else if at.None? then Err(JourneyError.TimestampInvalid)
        else if at.value < j.core.updatedAt then Err(TimeRegression)
        else if Trim(actor) == [] then Err(FieldRequired)
        else
          Ok(Append(d, ChangedCore(j.core, Opened(i), at.value), Trim(actor), at.value,
                    ChangeDetails(d, j.core, Opened(i))))
  }

  ghost function StartedPhase(d: Digests, j: Journey, phase: Option<Phase>, actor: Text, at: Option<int>)
    : Result<Journey>
  {
    if !Integrity(d, j) then Err(IntegrityFailed) else StartedChecked(d, j, phase, actor, at)
  }

  method UnfinishedPriorPhases(phases: seq<PhaseEntry>, ordinal: int) returns (unfinished: seq<Phase>)
    ensures unfinished == [] <==> !PriorPhaseOpen(phases, ordinal)
  {
    unfinished := [];
    for k := 0 to |phases|
      invariant unfinished == [] <==>
        forall m :: 0 <= m < k ==> !(phases[m].ordinal < ordinal && !Terminal(phases[m].status))
    {
      if phases[k].ordinal < ordinal && !Terminal(phases[k].status) { unfinished := unfinished + [phases[k].phase]; }
    }
    PriorPhaseOpenMeans(phases, ordinal);
  }

  method StartAnalyticalPhase(d: Digests, j: Journey, phase: Option<Phase>, actor: Text, at: Option<int>)
    returns (r: Result<Journey>)
    ensures r == StartedPhase(d, j, phase, actor, at)
  {
    var violations := CheckIntegrity(d, j);
    if violations != [] { return Err(IntegrityFailed); }
    r := StartChecked(d, j, phase, actor, at);
  }

  method StartChecked(d: Digests, j: Journey, phase: Option<Phase>, actor: Text, at: Option<int>)
    returns (r: Result<Journey>)
    ensures r == StartedChecked(d, j, phase, actor, at)
  {
    if phase.None? { return Err(PhaseInvalid); }
    var i := FindPhase(j.core.phases, phase.value);
    if i == |j.core.phases| { return Err(PhaseMissing); }
    var current := j.core.phases[i];
    if current.status.InProgress? { return Ok(j); }
    if Terminal(current.status) { return Err(PhaseAlreadyClosed); }
    var unfinishedPriorPhases := UnfinishedPriorPhases(j.core.phases, current.ordinal);
    if unfinishedPriorPhases != [] { return Err(PhaseOrderViolation); }
    if at.None? { return Err(JourneyError.TimestampInvalid); }
    if at.value < j.core.updatedAt { return Err(TimeRegression); }
    if Trim(actor) == [] { return Err(FieldRequired); }
    var next := j.core;
    var target := next.phases[i];
    target := target.(status := InProgress, startedAt := Some(at.value));
    next := next.(phases := next.phases[i := target]);
    var started := AppendAuditEvent(d, next, Trim(actor), at.value, PhaseStarted(phase.value, target.ordinal));
    return Ok(started);
  }

  // ---------------------------------------------------------------------
  // Record

  datatype Recorded = Recorded(journey: Journey, receipt: Receipt, replayed: bool)

  /** The recording of evidence once the journey has passed the integrity check. */
  function RecordedChecked(
    d: Digests, j: Journey, phase: Option<Phase>, evidence: Evidence, actor: Text, at: Option<int>): Result<Recorded>
  {
    if phase.None? then Err(PhaseInvalid)
    else
      var i := FindPhase(j.core.phases, phase.value);
      if i == |j.core.phases| then Err(PhaseMissing)
      else if Terminal(j.core.phases[i].status) then Err(PhaseEvidenceClosed)
      else if at.None? then Err(JourneyError.TimestampInvalid)
      else if at.value < j.core.updatedAt then Err(TimeRegression)
      else
        var issued := IssueReceipt(d.evidence, j.core.journeyId, phase.value, j.core.cutoff, evidence, at.value);
        if issued.Refused? then Err(EvidenceRefused(issued.error))
        else
          var k := FindReceipt(j.core.receipts, issued.receipt.id);
          if k < |j.core.receipts| then
            if j.core.receipts[k].hash != issued.receipt.hash then Err(ReceiptCollision)
            else Ok(Recorded(j, j.core.receipts[k], true))
          else if Trim(actor) == [] then Err(FieldRequired)
          else
            var ch := Attached(issued.receipt);
            Ok(Recorded(
              Append(d, ChangedCore(j.core, ch, at.value), Trim(actor), at.value, ChangeDetails(d, j.core, ch)),
              issued.receipt, false))
  }

  ghost function RecordedEvidence(
    d: Digests, j: Journey, phase: Option<Phase>, evidence: Evidence, actor: Text, at: Option<int>): Result<Recorded>
  {
    if !Integrity(d, j) then Err(IntegrityFailed) else RecordedChecked(d, j, phase, evidence, actor, at)
  }

  method RecordAnalyticalEvidence(
    d: Digests, j: Journey, phase: Option<Phase>, evidence: Evidence, actor: Text, at: Option<int>)
    returns (r: Result<Recorded>)
    ensures r == RecordedEvidence(d, j, phase, evidence, actor, at)
  {
    var violations := CheckIntegrity(d, j);
    if violations != [] { return Err(IntegrityFailed); }
    r := RecordChecked(d, j, phase, evidence, actor, at);
  }

  method RecordChecked(
    d: Digests, j: Journey, phase: Option<Phase>, evidence: Evidence, actor: Text, at: Option<int>)
    returns (r: Result<Recorded>)
    ensures r == RecordedChecked(d, j, phase, evidence, actor, at)
  {
    if phase.None? { return Err(PhaseInvalid); }
    var i := FindPhase(j.core.phases, phase.value);
    if i == |j.core.phases| { return Err(PhaseMissing); }
    if Terminal(j.core.phases[i].status) { return Err(PhaseEvidenceClosed); }
    if at.None? { return Err(JourneyError.TimestampInvalid); }
    if at.value < j.core.updatedAt { return Err(TimeRegression); }
    var issued := IssueReceipt(d.evidence, j.core.journeyId, phase.value, j.core.cutoff, evidence, at.value);
    if issued.Refused? { return Err(EvidenceRefused(issued.error)); }
    var receipt := issued.receipt;
    var k := FindReceipt(j.core.receipts, receipt.id);
    if k < |j.core.receipts| {
      var existing := j.core.receipts[k];
      if existing.hash != receipt.hash { return Err(ReceiptCollision); }
      return Ok(Recorded(j, existing, true));
    }
    if Trim(actor) == [] { return Err(FieldRequired); }
    var next := j.core;
    next := next.(receipts := next.receipts + [receipt]);
    var recorded := AppendAuditEvent(d, next, Trim(actor), at.value,
      EvidenceRecorded(phase.value, receipt.core.kind, receipt.core.availability, receipt.id, receipt.hash));
    return Ok(Recorded(recorded, receipt, false));
  }

  // ---------------------------------------------------------------------
  // Complete

  /** The completion of phase `i`, which is in progress. */
  function SealedChecked(d: Digests, j: Journey, i: nat, text: Text, claim: StatusClaim, actor: Text, at: Option<int>)
    : Result<Journey>
    requires i < |j.core.phases|
  {
    var current := j.core.phases[i];
    var assessment := AssessPhaseEvidence(current.requiredKinds, ReceiptsOf(j.core.receipts, current.phase));
    if assessment.missing != [] then Err(EvidenceIncomplete)
    else if !claim.NoClaim? && claim != Claim(assessment.status) then Err(StatusForgery)
    else if at.None? then Err(JourneyError.TimestampInvalid)
    else if at.value < j.core.updatedAt then Err(TimeRegression)
    else if Trim(actor) == [] then Err(FieldRequired)
    else
      var ch := Sealed(i, text);
      Ok(Append(d, ChangedCore(j.core, ch, at.value), Trim(actor), at.value, ChangeDetails(d, j.core, ch)))
  }

  /** The completion of a phase once the journey has passed the integrity check. */
  function CompletedChecked(
    d: Digests, j: Journey, phase: Option<Phase>, summary: Text, claim: StatusClaim, actor: Text, at: Option<int>)
    : Result<Journey>
  {
    if phase.None? then Err(PhaseInvalid)
    else
      var i := FindPhase(j.core.phases, phase.value);
      if i == |j.core.phases| then Err(PhaseMissing)
      else
        var current := j.core.phases[i];
        var text := Trim(summary);
        if text == [] then Err(FieldRequired)
        else if |text| > SUMMARY_LIMIT then Err(SummaryTooLong)
        else if Terminal(current.status) then
          if current.summary == Some(text) && (claim.NoClaim? || claim == Claim(current.status)) then Ok(j)
          else Err(PhaseAlreadyClosed)
        else if !current.status.InProgress? then Err(PhaseNotInProgress)
        else SealedChecked(d, j, i, text, claim, actor, at)
  }

  ghost function CompletedPhase(
    d: Digests, j: Journey, phase: Option<Phase>, summary: Text, claim: StatusClaim, actor: Text, at: Option<int>)
    : Result<Journey>
  {
    if !Integrity(d, j) then Err(IntegrityFailed) else CompletedChecked(d, j, phase, summary, claim, actor, at)
  }

  method CompleteAnalyticalPhase(
    d: Digests, j: Journey, phase: Option<Phase>, summary: Text, claim: StatusClaim, actor: Text, at: Option<int>)
    returns (r: Result<Journey>)
    ensures r == CompletedPhase(d, j, phase, summary, claim, actor, at)
  {
    var violations := CheckIntegrity(d, j);
    if violations != [] { return Err(IntegrityFailed); }
    r := CompleteChecked(d, j, phase, summary, claim, actor, at);
  }

  method CompleteChecked(
    d: Digests, j: Journey, phase: Option<Phase>, summary: Text, claim: StatusClaim, actor: Text, at: Option<int>)
    returns (r: Result<Journey>)
    ensures r == CompletedChecked(d, j, phase, summary, claim, actor, at)
  {
    if phase.None? { return Err(PhaseInvalid); }
    var i := FindPhase(j.core.phases, phase.value);
    if i == |j.core.phases| { return Err(PhaseMissing); }
    var current := j.core.phases[i];
    var text := Trim(summary);
    if text == [] { return Err(FieldRequired); }
    if |text| > SUMMARY_LIMIT { return Err(SummaryTooLong); }
    if Terminal(current.status) {
      if current.summary == Some(text) && (claim.NoClaim? || claim == Claim(current.status)) { return Ok(j); }
      return Err(PhaseAlreadyClosed);
    }
    if !current.status.InProgress? { return Err(PhaseNotInProgress); }
    r := SealPhase(d, j, i, text, claim, actor, at);
  }

  method SealPhase(d: Digests, j: Journey, i: nat, text: Text, claim: StatusClaim, actor: Text, at: Option<int>)
    returns (r: Result<Journey>)
    requires i < |j.core.phases|
    ensures r == SealedChecked(d, j, i, text, claim, actor, at)
  {
    var current := j.core.phases[i];
    var receipts := ReceiptsOf(j.core.receipts, current.phase);
    var assessment := AssessPhaseEvidence(current.requiredKinds, receipts);
    if assessment.missing != [] { return Err(EvidenceIncomplete); }
    if !claim.NoClaim? && claim != Claim(assessment.status) { return Err(StatusForgery); }
    if at.None? { return Err(JourneyError.TimestampInvalid); }
    if at.value < j.core.updatedAt { return Err(TimeRegression); }
    if Trim(actor) == [] { return Err(FieldRequired); }
    var next := j.core;
    var target := next.phases[i];
    target := target.(status := assessment.status);
    target := target.(completedAt := Some(at.value), summary := Some(text));
    target := target.(receiptIds := IdsOf(receipts), reasonCodes := assessment.reasonCodes);
    next := next.(phases := next.phases[i := target]);
    var completed := AppendAuditEvent(d, next, Trim(actor), at.value,
      PhaseCompleted(current.phase, assessment.status, StringHash(d.evidence, text),
                     target.receiptIds, HashesOf(receipts), target.reasonCodes));
    return Ok(completed);
  }

  // ---------------------------------------------------------------------
  // Every successful command is one of those changes

  ghost predicate Permitted(d: Digests, j: Journey, ch: Change, at: int) {
    match ch
    case Unchanged => true
    case Opened(i) =>
      && j.core.updatedAt <= at && i < |j.core.phases|
      && j.core.phases[i].status.NotStarted?
      && !PriorPhaseOpen(j.core.phases, j.core.phases[i].ordinal)
    case Attached(r) =>
      && j.core.updatedAt <= at
      && FindPhase(j.core.phases, r.core.phase) < |j.core.phases|
      && !Terminal(j.core.phases[FindPhase(j.core.phases, r.core.phase)].status)
      && Genuine(d.evidence, r, j.core.journeyId, None, j.core.cutoff)
      && FindReceipt(j.core.receipts, r.id) == |j.core.receipts|
    case Sealed(i, text) =>
      && j.core.updatedAt <= at && i < |j.core.phases| && text != []
      && j.core.phases[i].status.InProgress?
      && var e := j.core.phases[i];
      AssessPhaseEvidence(e.requiredKinds, ReceiptsOf(j.core.receipts, e.phase)).missing == []
  }

  ghost function Changed(d: Digests, j: Journey, ch: Change, actor: Text, at: int): Journey
    requires Permitted(d, j, ch, at)
  {
    if ch.Unchanged? then j
    else Append(d, ChangedCore(j.core, ch, at), actor, at, ChangeDetails(d, j.core, ch))
  }

  lemma StartChange(d: Digests, j: Journey, phase: Option<Phase>, actor: Text, at: Option<int>)
    returns (ch: Change, t: int)
    requires StartedPhase(d, j, phase, actor, at).Ok?
    ensures Permitted(d, j, ch, t) && StartedPhase(d, j, phase, actor, at).value == Changed(d, j, ch, Trim(actor), t)
    ensures ch.Unchanged? || (ch.Opened? && j.core.phases[ch.i].phase == phase.value)
  {
    var i := FindPhase(j.core.phases, phase.value);
    if j.core.phases[i].status.InProgress? {
      ch, t := Unchanged, 0;
    } else {
      ch, t := Opened(i), at.value;
    }
  }

  lemma RecordChange(d: Digests, j: Journey, phase: Option<Phase>, evidence: Evidence, actor: Text, at: Option<int>)
    returns (ch: Change, t: int)
    requires RecordedEvidence(d, j, phase, evidence, actor, at).Ok?
    ensures Permitted(d, j, ch, t)
    ensures RecordedEvidence(d, j, phase, evidence, actor, at).value.journey == Changed(d, j, ch, Trim(actor), t)
    ensures
      var recorded := RecordedEvidence(d, j, phase, evidence, actor, at).value;
      if recorded.replayed then ch.Unchanged? && recorded.receipt in j.core.receipts
      else ch == Attached(recorded.receipt) && recorded.receipt.core.phase == phase.value
  {
    var recorded := RecordedEvidence(d, j, phase, evidence, actor, at).value;
    if recorded.replayed {
      ch, t := Unchanged, 0;
    } else {
      ch, t := Attached(recorded.receipt), at.value;
      IssuedIsGenuine(d.evidence, j.core.journeyId, phase.value, j.core.cutoff, evidence, at.value);
    }
  }

  lemma CompleteChange(
    d: Digests, j: Journey, phase: Option<Phase>, summary: Text, claim: StatusClaim, actor: Text, at: Option<int>)
    returns (ch: Change, t: int)
    requires CompletedPhase(d, j, phase, summary, claim, actor, at).Ok?
    ensures Permitted(d, j, ch, t)
    ensures CompletedPhase(d, j, phase, summary, claim, actor, at).value == Changed(d, j, ch, Trim(actor), t)
    ensures ch.Unchanged? || (ch.Sealed? && j.core.phases[ch.i].phase == phase.value)
  {
    var i := FindPhase(j.core.phases, phase.value);
    if Terminal(j.core.phases[i].status) {
      ch, t := Unchanged, 0;
    } else {
      ch, t := Sealed(i, Trim(summary)), at.value;
    }
  }

  // ---------------------------------------------------------------------
  // Runs

  /** The journey a caller holds after a command: an error leaves it with the one it had. */
  ghost function Step(d: Digests, j: Journey, c: Command): Journey {
    match c
    case Start(phase, actor, at) =>
      var r := StartedPhase(d, j, phase, actor, at);
      if r.Ok? then r.value else j
    case Record(phase, evidence, actor, at) =>
      var r := RecordedEvidence(d, j, phase, evidence, actor, at);
      if r.Ok? then r.value.journey else j
    case Close(phase, summary, claim, actor, at) =>
      var r := CompletedPhase(d, j, phase, summary, claim, actor, at);
      if r.Ok? then r.value else j
  }

  ghost function Run(d: Digests, j: Journey, commands: seq<Command>): Journey {
    if commands == [] then j
    else Step(d, Run(d, j, commands[..|commands| - 1]), commands[|commands| - 1])
  }

  /** Every command leaves the journey alone, opens a phase, attaches a receipt or seals a phase. */
  lemma StepIsChange(d: Digests, j: Journey, c: Command) returns (ch: Change, actor: Text, t: int)
    ensures Permitted(d, j, ch, t) && Step(d, j, c) == Changed(d, j, ch, actor, t)
  {
    ch, actor, t := Unchanged, Trim(c.actor), 0;
    match c
    case Start(phase, _, at) =>
      if StartedPhase(d, j, phase, c.actor, at).Ok? {
        ch, t := StartChange(d, j, phase, c.actor, at);
      }
    case Record(phase, evidence, _, at) =>
      if RecordedEvidence(d, j, phase, evidence, c.actor, at).Ok? {
        ch, t := RecordChange(d, j, phase, evidence, c.actor, at);
      }
    case Close(phase, summary, claim, _, at) =>
      if CompletedPhase(d, j, phase, summary, claim, c.actor, at).Ok? {
        ch, t := CompleteChange(d, j, phase, summary, claim, c.actor, at);
      }
  }
}
