// The coverage matrix and the decision gate built on it.

module DecisionGate {
  import opened Wrappers
  import opened JsText
  import opened AnalyticalCatalog
  import opened AnalyticalEvidence
  import opened AnalyticalJourney
  import opened JourneyOperations
  import opened JourneyInvariants

  datatype Intent = NoRiskChange | RiskIncreasing | RiskReducing | PositionManagement

  // ---------------------------------------------------------------------
  // Coverage matrix

  datatype Row = Row(
    phase: Phase, criticality: Criticality, status: PhaseStatus, visited: bool, terminal: bool,
    accounted: seq<EvidenceKind>, usable: seq<EvidenceKind>, missing: seq<EvidenceKind>,
    receiptCount: nat, reasonCodes: seq<Text>)

  datatype Matrix = Matrix(
    rows: seq<Row>,
    traversalComplete: bool,
    evidenceAccounted: bool,
    decisionReady: bool,
    riskIncreaseReady: bool,
    blocked: seq<Phase>,
    unavailableHard: seq<Phase>,
    degraded: seq<Phase>,
    pending: seq<Phase>)

  function KindsWith(required: seq<EvidenceKind>, receipts: seq<Receipt>, usable: bool): seq<EvidenceKind> {
    if required == [] then []
    else
      var rest := KindsWith(required[1..], receipts, usable);
      if Any(receipts, (r: Receipt) => r.core.kind == required[0]
                     && (usable ==> r.core.availability.Available? || r.core.availability.PartlyAvailable?))
      then [required[0]] + rest else rest
  }

  function RowOf(e: PhaseEntry, receipts: seq<Receipt>): Row {
    var own := ReceiptsOf(receipts, e.phase);
    var a := AssessPhaseEvidence(e.requiredKinds, own);
    Row(e.phase, e.criticality, e.status, !e.status.NotStarted?, Terminal(e.status),
        KindsWith(e.requiredKinds, own, false), KindsWith(e.requiredKinds, own, true), a.missing,
        |own|, a.reasonCodes)
  }

  function RowsOf(phases: seq<PhaseEntry>, receipts: seq<Receipt>): (rows: seq<Row>)
    ensures |rows| == |phases|
    ensures forall i :: 0 <= i < |phases| ==> rows[i] == RowOf(phases[i], receipts)
  {
    seq(|phases|, i requires 0 <= i < |phases| => RowOf(phases[i], receipts))
  }

  /** The phases of the rows a condition selects, in catalog order. */
  function Named(rows: seq<Row>, selected: Row -> bool): (names: seq<Phase>)
    ensures names == [] <==> forall i :: 0 <= i < |rows| ==> !selected(rows[i])
  {
    if rows == [] then []
    else
      var rest := Named(rows[1..], selected);
      assert forall i :: 0 < i < |rows| ==> rows[i] == rows[1..][i - 1];
      if selected(rows[0]) then [rows[0].phase] + rest else rest
  }

  function ConclusionStatus(rows: seq<Row>): Option<PhaseStatus> {
    if rows == [] then None
    else if rows[0].phase.Conclusion? then Some(rows[0].status)
    else ConclusionStatus(rows[1..])
  }

  predicate Usable(s: Option<PhaseStatus>) {
    s.Some? && (s.value.Complete? || s.value.Degraded?)
  }

  function CoverageMatrix(j: JourneyCore): Matrix {
    var rows := RowsOf(j.phases, j.receipts);
    var traversalComplete := forall i :: 0 <= i < |rows| ==> rows[i].terminal;
    var evidenceAccounted := forall i :: 0 <= i < |rows| ==> rows[i].missing == [];
    var blocked := Named(rows, (r: Row) => r.status.Blocked?);
    var unavailableHard := Named(rows, (r: Row) => r.criticality.Hard? && r.status.Unavailable?);
    var degraded := Named(rows, (r: Row) => r.status.Degraded? || r.status.Unavailable?);
    var decisionReady := traversalComplete && evidenceAccounted && Usable(ConclusionStatus(rows));
    Matrix(rows, traversalComplete, evidenceAccounted, decisionReady,
           decisionReady && blocked == [] && unavailableHard == [],
           blocked, unavailableHard, degraded, Named(rows, (r: Row) => !r.terminal))
  }

  // ---------------------------------------------------------------------
  // Decision validation

  datatype Violation =
    | TraversalIncomplete(phases: seq<Phase>) | EvidenceIncomplete(phases: seq<Phase>)
    | ConclusionNotCompleted | ReceiptMismatch | ReceiptInvalid
    | BlockedPhase(phases: seq<Phase>) | HardEvidenceUnavailable(phases: seq<Phase>)

  datatype Warning =
    | BlockedForbidsRiskIncrease(phases: seq<Phase>) | UnavailableForbidsRiskIncrease(phases: seq<Phase>)
    | DegradedContext(phases: seq<Phase>)

  datatype Verdict = Rejected | ApprovedDegraded | Approved

  datatype Validation = Validation(
    structural: seq<Violation>, policy: seq<Violation>, warnings: seq<Warning>,
    allowed: bool, verdict: Verdict, receipt: Option<Receipt>)

  datatype Outcome =
    | Validated(validation: Validation)
    | IntegrityRefused | DecisionRequired | IntentInvalid | TimeInvalid | DecisionNotJson

  /** The receipt proves exactly this decision: a usable conclusion whose payload the backend hashed. */
  predicate ProvesDecision(r: Receipt, listed: seq<Text>, decisionHash: Hash) {
    && r.id in listed
    && r.core.phase.Conclusion?
    && r.core.kind.AnalyticalConclusion?
    && !r.core.availability.NotAvailable? && !r.core.availability.Barred?
    && r.core.contentHash == decisionHash
    && r.core.contentOrigin.BackendHashedPayload?
  }

  function FindProof(receipts: seq<Receipt>, listed: seq<Text>, decisionHash: Hash): (r: Option<Receipt>)
    ensures r.Some? ==> r.value in receipts && ProvesDecision(r.value, listed, decisionHash)
    ensures r.None? ==> forall x :: x in receipts ==> !ProvesDecision(x, listed, decisionHash)
  {
    if receipts == [] then None
    else if ProvesDecision(receipts[0], listed, decisionHash) then Some(receipts[0])
    else FindProof(receipts[1..], listed, decisionHash)
  }

  ghost predicate HasProof(d: Digests, j: Journey, decision: Text)
    requires |j.core.phases| == PHASE_COUNT
  {
    exists r :: r in j.core.receipts
      && ProvesDecision(r, j.core.phases[Index(Conclusion)].receiptIds, d.evidence.payload(decision))
  }

  /** What the gate demands of the journey and the decision, whatever the intent. */
  ghost predicate Structural(d: Digests, j: Journey, decision: Text)
    requires |j.core.phases| == PHASE_COUNT
  {
    CoverageMatrix(j.core).decisionReady && HasProof(d, j, decision)
  }

  ghost predicate RiskPolicy(j: Journey) {
    CoverageMatrix(j.core).blocked == [] && CoverageMatrix(j.core).unavailableHard == []
  }

  method CheckStructure(d: Digests, j: Journey, matrix: Matrix, decision: Text)
    returns (structural: seq<Violation>, proof: Option<Receipt>)
    requires Integrity(d, j) && matrix == CoverageMatrix(j.core)
    ensures structural == [] <==> Structural(d, j, decision)
  {
    structural := [];
    if !matrix.traversalComplete { structural := structural + [TraversalIncomplete(matrix.pending)]; }
    if !matrix.evidenceAccounted {
      structural := structural + [Violation.EvidenceIncomplete(Named(matrix.rows, (row: Row) => row.missing != []))];
    }
    ConclusionRow(j.core);
    FindPhaseIsIndex(j.core.phases, j.core.receipts, Conclusion);
    var conclusion := j.core.phases[FindPhase(j.core.phases, Conclusion)];
    if !Usable(Some(conclusion.status)) { structural := structural + [ConclusionNotCompleted]; }
    proof := FindProof(j.core.receipts, conclusion.receiptIds, d.evidence.payload(decision));
    if proof.None? {
      structural := structural + [ReceiptMismatch];
    } else {
      var verification := VerifyReceipt(d.evidence, proof.value, j.core.journeyId, Some(Conclusion), j.core.cutoff);
      HeldReceiptIsGenuine(d, j, proof.value);
      if verification != [] { structural := structural + [ReceiptInvalid]; }
    }
  }

  method CheckPolicy(matrix: Matrix, intent: Intent) returns (policy: seq<Violation>, warnings: seq<Warning>)
    ensures policy == [] <==> (intent.RiskIncreasing? ==> matrix.blocked == [] && matrix.unavailableHard == [])
    ensures warnings == [] <==>
      && matrix.degraded == []
      && (intent.RiskIncreasing? || (matrix.blocked == [] && matrix.unavailableHard == []))
  {
    policy, warnings := [], [];
    if intent.RiskIncreasing? {
      if matrix.blocked != [] { policy := policy + [BlockedPhase(matrix.blocked)]; }
      if matrix.unavailableHard != [] { policy := policy + [HardEvidenceUnavailable(matrix.unavailableHard)]; }
    } else {
      if matrix.blocked != [] { warnings := warnings + [BlockedForbidsRiskIncrease(matrix.blocked)]; }
      if matrix.unavailableHard != [] {
        warnings := warnings + [UnavailableForbidsRiskIncrease(matrix.unavailableHard)];
      }
    }
    if matrix.degraded != [] { warnings := warnings + [DegradedContext(matrix.degraded)]; }
  }

  /** `decision` is missing when it is not an object. */
  method ValidateAnalyticalDecision(
    d: Digests, j: Journey, decision: Option<Payload>, intent: Option<Intent>, at: Option<int>)
    returns (r: Outcome)
    ensures r.IntegrityRefused? <==> !Integrity(d, j)
    ensures r.Validated? <==>
      Integrity(d, j) && decision.Some? && decision.value.Canonical? && intent.Some? && at.Some?
    ensures r.Validated? ==> |j.core.phases| == PHASE_COUNT
    ensures r.Validated? ==>
      var v := r.validation;
      && (v.structural == [] <==> Structural(d, j, decision.value.text))
      && (v.policy == [] <==> (intent.value.RiskIncreasing? ==> RiskPolicy(j)))
      && (v.allowed <==> Allowed(d, j, decision.value.text, intent.value))
      && (v.verdict.Rejected? <==> !v.allowed)
      && (v.verdict.Approved? <==> v.allowed && v.warnings == [])
      && (v.warnings == [] <==>
            && CoverageMatrix(j.core).degraded == []
            && (intent.value.RiskIncreasing? || RiskPolicy(j)))
  {
    var broken := CheckIntegrity(d, j);
    if broken != [] { return IntegrityRefused; }
    if decision.None? { return DecisionRequired; }
    if intent.None? { return IntentInvalid; }
    if at.None? { return TimeInvalid; }
    if decision.value.NotJson? { return DecisionNotJson; }
    var matrix := CoverageMatrix(j.core);
    var structural, proof := CheckStructure(d, j, matrix, decision.value.text);
    var policy, warnings := CheckPolicy(matrix, intent.value);
    var allowed := structural + policy == [];
    var verdict := if !allowed then Rejected else if warnings != [] then ApprovedDegraded else Approved;
    return Validated(Validation(structural, policy, warnings, allowed, verdict, proof));
  }

  lemma HeldReceiptIsGenuine(d: Digests, j: Journey, r: Receipt)
    requires ReceiptsOk(d, j.core) && r in j.core.receipts
    ensures Genuine(d.evidence, r, j.core.journeyId, Some(r.core.phase), j.core.cutoff)
  {
  }

  lemma {:induction false} ConclusionStatusAt(rows: seq<Row>, k: nat)
    requires k < |rows| && rows[k].phase.Conclusion?
    requires forall i :: 0 <= i < k ==> !rows[i].phase.Conclusion?
    ensures ConclusionStatus(rows) == Some(rows[k].status)
  {
    if k > 0 {
      ConclusionStatusAt(rows[1..], k - 1);
    }
  }

  lemma ConclusionRow(j: JourneyCore)
    requires PhasesOk(j.phases, j.receipts)
    ensures ConclusionStatus(RowsOf(j.phases, j.receipts)) == Some(j.phases[Index(Conclusion)].status)
  {
    var rows := RowsOf(j.phases, j.receipts);
    forall i | 0 <= i < PHASE_COUNT ensures rows[i].phase == PhaseAt(i) {
      assert DefinitionKept(j.phases[i], i);
    }
    ConclusionStatusAt(rows, Index(Conclusion));
  }

  // ---------------------------------------------------------------------
  // What approval means

  /** The gate's answer for a journey that passes the integrity check. */
  ghost predicate Allowed(d: Digests, j: Journey, decision: Text, intent: Intent)
    requires |j.core.phases| == PHASE_COUNT
  {
    Structural(d, j, decision) && (intent.RiskIncreasing? ==> RiskPolicy(j))
  }

  /** A risk increase is allowed exactly when the matrix is ready for one and the decision is proved. */
  lemma RiskIncreaseNeedsReadiness(d: Digests, j: Journey, decision: Text)
    requires |j.core.phases| == PHASE_COUNT
    ensures Allowed(d, j, decision, RiskIncreasing) <==>
      CoverageMatrix(j.core).riskIncreaseReady && HasProof(d, j, decision)
    ensures Allowed(d, j, decision, RiskIncreasing) ==> forall intent :: Allowed(d, j, decision, intent)
  {
  }

  /** No receipt bars the desk, and no hard phase rests on evidence that could not be had. */
  ghost predicate EvidencePermitsRisk(receipts: seq<Receipt>) {
    forall r :: r in receipts ==>
      && !r.core.availability.Barred?
      && !(r.core.availability.NotAvailable? && CriticalityOf(r.core.phase).Hard?
        && r.core.kind == RequiredKind(r.core.phase))
  }

  lemma SealedPhasePermitsRisk(d: Digests, j: Journey, i: nat)
    requires Sound(d, j) && i < PHASE_COUNT && Terminal(j.core.phases[i].status)
    ensures j.core.phases[i].status.Blocked? <==>
      exists r :: r in j.core.receipts && r.core.phase == PhaseAt(i) && r.core.availability.Barred?
    ensures !j.core.phases[i].status.Blocked? ==>
      (j.core.phases[i].status.Unavailable? <==>
        exists r :: r in j.core.receipts && r.core.phase == PhaseAt(i)
          && r.core.kind == RequiredKind(PhaseAt(i)) && r.core.availability.NotAvailable?)
    ensures AssessPhaseEvidence(j.core.phases[i].requiredKinds, ReceiptsOf(j.core.receipts, PhaseAt(i))).missing == []
  {
    var e := j.core.phases[i];
    assert DefinitionKept(e, i) && Assessed(e, j.core.receipts);
    AssessmentMeaning(j.core.receipts, PhaseAt(i));
  }

  lemma AssessmentMeaning(receipts: seq<Receipt>, p: Phase)
    ensures
      var status := AssessPhaseEvidence(RequiredKinds(p), ReceiptsOf(receipts, p)).status;
      && (status.Blocked? <==> exists r :: r in receipts && r.core.phase == p && r.core.availability.Barred?)
      && (!status.Blocked? ==>
            (status.Unavailable? <==>
              exists r :: r in receipts && r.core.phase == p
                && r.core.kind == RequiredKind(p) && r.core.availability.NotAvailable?))
  {
    var own := ReceiptsOf(receipts, p);
    forall r ensures r in own <==> r in receipts && r.core.phase == p {
      ReceiptsOfMembers(receipts, p, r);
    }
    AnyMeans(own, (r: Receipt) => r.core.availability.Barred?);
    AnyMeans(own, (r: Receipt) => r.core.kind in RequiredKinds(p) && r.core.availability.NotAvailable?);
  }

  lemma RowsAreTerminal(d: Digests, j: Journey)
    requires Sound(d, j)
    ensures
      var rows := RowsOf(j.core.phases, j.core.receipts);
      && (forall i :: 0 <= i < |rows| ==>
        rows[i].phase == PhaseAt(i) && rows[i].criticality == CriticalityOf(PhaseAt(i)))
      && (forall i :: 0 <= i < |rows| && rows[i].terminal ==> rows[i].missing == [])
  {
  }

  ghost predicate AllClosed(j: JourneyCore) {
    forall i :: 0 <= i < |j.phases| ==> Terminal(j.phases[i].status)
  }

  lemma PolicyMeaning(d: Digests, j: Journey)
    requires Sound(d, j) && AllClosed(j.core)
    ensures RiskPolicy(j) <==> EvidencePermitsRisk(j.core.receipts)
  {
    var rows := RowsOf(j.core.phases, j.core.receipts);
    RowsAreTerminal(d, j);
    assert RiskPolicy(j) <==> forall i :: 0 <= i < |rows| ==>
      !rows[i].status.Blocked? && !(rows[i].criticality.Hard? && rows[i].status.Unavailable?);
    if RiskPolicy(j) {
      forall r | r in j.core.receipts
        ensures !r.core.availability.Barred?
        ensures !(r.core.availability.NotAvailable? && CriticalityOf(r.core.phase).Hard?
          && r.core.kind == RequiredKind(r.core.phase))
      {
        SealedPhasePermitsRisk(d, j, Index(r.core.phase));
        assert !rows[Index(r.core.phase)].status.Blocked?;
      }
    }
    if EvidencePermitsRisk(j.core.receipts) {
      forall i | 0 <= i < |rows|
        ensures !rows[i].status.Blocked? && !(rows[i].criticality.Hard? && rows[i].status.Unavailable?)
      {
        SealedPhasePermitsRisk(d, j, i);
      }
    }
  }

  lemma DecisionReadyMeaning(d: Digests, j: Journey)
    requires Sound(d, j)
    ensures CoverageMatrix(j.core).decisionReady
        <==> AllClosed(j.core) && Usable(Some(j.core.phases[Index(Conclusion)].status))
  {
    ConclusionRow(j.core);
    RowsAreTerminal(d, j);
    var rows := RowsOf(j.core.phases, j.core.receipts);
    assert CoverageMatrix(j.core).traversalComplete <==> AllClosed(j.core) by {
      assert forall i :: 0 <= i < |rows| ==> (rows[i].terminal <==> Terminal(j.core.phases[i].status));
    }
  }

  lemma ReadinessMeaning(d: Digests, j: Journey)
    requires Sound(d, j)
    ensures CoverageMatrix(j.core).riskIncreaseReady <==> AllClosed(j.core) && EvidencePermitsRisk(j.core.receipts)
  {
    ConclusionRow(j.core);
    RowsAreTerminal(d, j);
    var rows := RowsOf(j.core.phases, j.core.receipts);
    var last := Index(Conclusion);
    assert CoverageMatrix(j.core).traversalComplete <==> AllClosed(j.core) by {
      assert forall i :: 0 <= i < |rows| ==> (rows[i].terminal <==> Terminal(j.core.phases[i].status));
    }
    if AllClosed(j.core) {
      PolicyMeaning(d, j);
      assert CoverageMatrix(j.core).evidenceAccounted;
      if RiskPolicy(j) {
        assert !rows[last].status.Blocked? && !(rows[last].criticality.Hard? && rows[last].status.Unavailable?);
        assert Terminal(j.core.phases[last].status);
      }
    }
  }

  /**
   * For every reachable journey, a risk-increasing decision passes the gate exactly when all ten phases are
   * closed, no held receipt is blocked, no hard phase rests on unavailable required evidence, and a usable
   * backend-hashed conclusion receipt carries the decision's own hash.
   */
  lemma RiskIncreaseExactly(d: Digests, c: Creation, commands: seq<Command>, decision: Text)
    requires CreateJourney(d, c).Ok?
    ensures
      var j := Run(d, CreateJourney(d, c).value, commands);
      && |j.core.phases| == PHASE_COUNT
      && (Allowed(d, j, decision, RiskIncreasing) <==>
            AllClosed(j.core) && EvidencePermitsRisk(j.core.receipts) && HasProof(d, j, decision))
  {
    ReachableIsSound(d, c, commands);
    var j := Run(d, CreateJourney(d, c).value, commands);
    ReadinessMeaning(d, j);
    RiskIncreaseNeedsReadiness(d, j, decision);
  }
}
