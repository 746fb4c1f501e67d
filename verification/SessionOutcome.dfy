// The whole research session: capability and protocol checks, the context
// journey, the validated output phases, and what the decision gate says at the end.

module SessionOutcome {
  import opened Wrappers
  import opened JsText
  import opened AnalyticalCatalog
  import opened AnalyticalEvidence
  import opened AnalyticalJourney
  import opened JourneyOperations
  import opened JourneyInvariants
  import opened PhaseTraversal
  import opened ContextReceipts
  import opened GreedySelection
  import opened ResearchSession
  import opened DecisionGate
  import opened AnalysisOutputs

  const MAX_SAFE_INTEGER := 0x1F_FFFF_FFFF_FFFF

  /** No JavaScript array is longer. */
  const MAX_ARRAY_LENGTH := 0xFFFF_FFFF

  const OUTPUT_SUMMARY_LIMIT := 2_000

  const STRUCTURAL_PREFIX := Ascii("structural_")

  const VALIDATION_PREFIX := Ascii("validation:")

  const OPPORTUNITY_SUMMARY := Ascii("Opportunity set evaluated.")

  const CONCLUSION_SUMMARY := Ascii("Analytical conclusion produced.")

  datatype SessionError =
    | EnvelopeInvalid | OutputInvalid | CapabilityRequired | CapabilityMismatch
    | ProtocolFailed(protocol: ProtocolResult) | CutoffMissing | SourceIdRequired | ConversionThrew
    | JourneyFailed(cause: JourneyError)

  datatype ContextResult =
    | ContextBuilt(journey: Journey, clock: int, catalogComplete: bool)
    | ContextFailed(error: SessionError)

  ghost predicate Belongs(c: Capability, env: Envelope) {
    c.jobId == env.jobId && c.envelopeHash == env.envelopeHash && c.scope == env.scopeText && c.workflow == env.workflow
  }

  /** What building the context journey needs: nothing depends on which phases the receipts serve. */
  ghost predicate Buildable(sign: Signer, env: Envelope, c: Option<Capability>, receipts: seq<ContextReceipt>) {
    && c.Some? && Belongs(c.value, env) && Accepted(sign, receipts, c.value)
    && env.cutoff.Some? && env.scope.Some? && Trim(env.workflow) != []
  }

  /** The first `q` context phases have primary receipts, in phase order, after a complete catalog at index 0. */
  ghost predicate Traversable(receipts: seq<ContextReceipt>, q: nat) {
    q == 0 || (CatalogComplete(receipts) && Embeds(receipts, 0, q, 0))
  }

  function CreationFor(env: Envelope, startedAt: int): Creation {
    Creation(
      JOURNEY_PREFIX + env.jobId, env.scope, env.workflow, env.cutoff, Some(env.identity), WORKER_ACTOR,
      Some(startedAt))
  }

  lemma JourneyIdIsNamed(jobId: Text)
    ensures Trim(JOURNEY_PREFIX + jobId) != [] && Trim(Trim(JOURNEY_PREFIX + jobId)) != []
  {
  }

  lemma CreationSucceeds(d: Digests, env: Envelope, startedAt: int)
    ensures CreateJourney(d, CreationFor(env, startedAt)).Ok?
        <==> env.scope.Some? && env.cutoff.Some? && Trim(env.workflow) != []
  {
    MetMcpActor();
    JourneyIdIsNamed(env.jobId);
  }

  lemma CreationStands(d: Digests, env: Envelope, receipts: seq<ContextReceipt>, startedAt: int)
    requires CreateJourney(d, CreationFor(env, startedAt)).Ok?
    ensures Built(d, env, receipts, [], CreateJourney(d, CreationFor(env, startedAt)).value, startedAt)
  {
    JourneyIdIsNamed(env.jobId);
    CreatedStands(d, CreationFor(env, startedAt));
    CreatedShape(d, CreationFor(env, startedAt));
  }

  lemma StartPastTheEnd(receipts: seq<ContextReceipt>, q: nat)
    requires |receipts| <= MAX_ARRAY_LENGTH
    ensures Embeds(receipts, 0, q, MAX_SAFE_INTEGER) <==> q == 0
  {
  }

  /** The session's context journey has one closed phase and one receipt for each pick. */
  ghost predicate Built(
    d: Digests, env: Envelope, receipts: seq<ContextReceipt>, picked: seq<nat>, j: Journey, clock: int) {
    env.cutoff.Some? && Advanced(d, Trim(JOURNEY_PREFIX + env.jobId), env.cutoff.value, receipts, picked, j, clock)
  }

  lemma PicksAscend(receipts: seq<ContextReceipt>, start: nat, firsts: seq<nat>, picked: seq<nat>)
    requires GreedyTrail(receipts, start, firsts, picked)
    ensures forall k, m :: 0 <= k < m < |picked| ==> picked[k] < picked[m]
  {
    forall k, m | 0 <= k < m < |picked| ensures picked[k] < picked[m] {
      PicksIncrease(receipts, start, firsts, picked, k, m);
    }
  }

  lemma LongestTraversal(receipts: seq<ContextReceipt>, catalogComplete: bool, start: nat, n: nat)
    requires |receipts| <= MAX_ARRAY_LENGTH && (catalogComplete <==> CatalogComplete(receipts))
    requires start == if catalogComplete then 0 else MAX_SAFE_INTEGER
    requires forall q :: 0 <= q <= CONTEXT_COUNT ==> (q <= n <==> Embeds(receipts, 0, q, start))
    ensures forall q :: 0 <= q <= CONTEXT_COUNT ==> (q <= n <==> Traversable(receipts, q))
  {
    if !catalogComplete {
      forall q | 0 <= q <= CONTEXT_COUNT ensures q <= n <==> Traversable(receipts, q) {
        StartPastTheEnd(receipts, q);
      }
    }
  }

  /** The greedy choice in a receipt list, phase after phase, as far as it goes. */
  ghost predicate GreedyPicks(receipts: seq<ContextReceipt>, picked: seq<nat>) {
    && |picked| <= CONTEXT_COUNT
    && (exists firsts :: GreedyTrail(receipts, 0, firsts, picked))
    && (forall q :: 0 <= q <= CONTEXT_COUNT ==> (q <= |picked| <==> Traversable(receipts, q)))
  }

  /** The receipt list alone determines the picks. */
  lemma PicksAreDetermined(receipts: seq<ContextReceipt>, p: seq<nat>, q: seq<nat>)
    requires GreedyPicks(receipts, p) && GreedyPicks(receipts, q)
    ensures p == q
  {
    var a :| GreedyTrail(receipts, 0, a, p);
    var b :| GreedyTrail(receipts, 0, b, q);
    assert Traversable(receipts, |p|) && Traversable(receipts, |q|);
    forall k | 0 <= k < |p| ensures p[k] == q[k] {
      TrailIsDetermined(receipts, 0, a, p, b, q, k);
    }
  }

  /** Without a complete catalog there are no picks, so every trail may be said to start at index 0. */
  lemma TrailFromCatalog(receipts: seq<ContextReceipt>, start: nat, firsts: seq<nat>, picked: seq<nat>)
    requires GreedyTrail(receipts, start, firsts, picked) && (start == 0 || picked == [])
    ensures exists from :: GreedyTrail(receipts, 0, from, picked)
  {
    assert start != 0 ==> firsts == [];
    assert GreedyTrail(receipts, 0, firsts, picked);
  }

  lemma PicksAreGreedy(
    receipts: seq<ContextReceipt>, catalogComplete: bool, start: nat, firsts: seq<nat>, picked: seq<nat>)
    requires |receipts| <= MAX_ARRAY_LENGTH && (catalogComplete <==> CatalogComplete(receipts))
    requires start == if catalogComplete then 0 else MAX_SAFE_INTEGER
    requires GreedyTrail(receipts, start, firsts, picked)
    requires forall q :: 0 <= q <= CONTEXT_COUNT ==> (q <= |picked| <==> Embeds(receipts, 0, q, start))
    ensures GreedyPicks(receipts, picked)
    ensures forall k, m :: 0 <= k < m < |picked| ==> picked[k] < picked[m]
  {
    PicksAscend(receipts, start, firsts, picked);
    LongestTraversal(receipts, catalogComplete, start, |picked|);
    if !catalogComplete { assert !Traversable(receipts, 1); }
    TrailFromCatalog(receipts, start, firsts, picked);
  }

  method TraverseReceipts(
    d: Digests, f: Formatting, sign: Signer, env: Envelope, c: Capability, created: Journey,
    receipts: seq<ContextReceipt>, protocol: ProtocolResult, startedAt: int, updatedAt: int)
    returns (r: ContextResult, ghost picked: seq<nat>)
    requires DistinctIds(d) && Legible(f) && |receipts| <= MAX_ARRAY_LENGTH && Accepted(sign, receipts, c)
    requires protocol.Protocol? && (protocol.catalogComplete <==> CatalogComplete(receipts))
    requires protocol.catalogComplete ==> protocol.catalogIndex == Some(0)
    requires Built(d, env, receipts, [], created, startedAt)
    ensures r.ContextBuilt? && startedAt <= r.clock && Built(d, env, receipts, picked, r.journey, r.clock)
    ensures r.catalogComplete <==> CatalogComplete(receipts)
    ensures GreedyPicks(receipts, picked)
    ensures forall k, m :: 0 <= k < m < |picked| ==> picked[k] < picked[m]
  {
    var receiptCursor := if protocol.catalogComplete then protocol.catalogIndex.value else MAX_SAFE_INTEGER;
    var journey, journeyClock, firsts, chosen :=
      TraverseContext(d, f, env, sign, c, created, receipts, receiptCursor, updatedAt, startedAt);
    picked := chosen;
    PicksAreGreedy(receipts, protocol.catalogComplete, receiptCursor, firsts, picked);
    return ContextBuilt(journey, journeyClock, protocol.catalogComplete), picked;
  }

  /**
   * Building the context journey succeeds for every receipt list the protocol accepts, whatever the receipts
   * are about; the receipts it rests on keep their order, and it closes as many phases as can be traversed.
   */
  method BuildContextJourney(
    d: Digests, f: Formatting, sign: Signer, env: Envelope, capability: Option<Capability>,
    receipts: seq<ContextReceipt>, startedAt: int, updatedAt: int)
    returns (r: ContextResult, ghost picked: seq<nat>)
    requires DistinctIds(d) && Legible(f) && |receipts| <= MAX_ARRAY_LENGTH
    ensures r.ContextBuilt? <==> Buildable(sign, env, capability, receipts)
    ensures r.ContextBuilt? ==> startedAt <= r.clock && Built(d, env, receipts, picked, r.journey, r.clock)
    ensures r.ContextBuilt? ==> (r.catalogComplete <==> CatalogComplete(receipts))
    ensures r.ContextBuilt? ==> GreedyPicks(receipts, picked)
    ensures r.ContextBuilt? ==> forall k, m :: 0 <= k < m < |picked| ==> picked[k] < picked[m]
  {
    picked := [];
    if capability.None? { return ContextFailed(CapabilityRequired), picked; }
    var c := capability.value;
    if || c.jobId != env.jobId || c.envelopeHash != env.envelopeHash
       || c.scope != env.scopeText || c.workflow != env.workflow
    {
      return ContextFailed(CapabilityMismatch), picked;
    }
    var protocol := ValidateEvidenceProtocol(sign, receipts, c);
    if !protocol.Protocol? { return ContextFailed(ProtocolFailed(protocol)), picked; }
    if env.cutoff.None? { return ContextFailed(CutoffMissing), picked; }
    var created := CreateJourney(d, CreationFor(env, startedAt));
    CreationSucceeds(d, env, startedAt);
    if created.Err? { return ContextFailed(JourneyFailed(created.error)), picked; }
    CreationStands(d, env, receipts, startedAt);
    r, picked := TraverseReceipts(d, f, sign, env, c, created.value, receipts, protocol, startedAt, updatedAt);
  }

  // ---------------------------------------------------------------------
  // The validated output phases

  /** `String(decision_summary || fallback).slice(0, 2000)`; nothing when the conversion throws. */
  function OutputSummary(c: Conversions, output: Value, fallback: Text): (r: Option<Text>)
    ensures r.Some? ==> |r.value| <= OUTPUT_SUMMARY_LIMIT
  {
    var given := Field(output, DecisionSummary);
    var text := if Truthy(given) then AsText(c, given) else Some(fallback);
    if text.Some? && |text.value| > OUTPUT_SUMMARY_LIMIT then Some(text.value[..OUTPUT_SUMMARY_LIMIT]) else text
  }

  /** The summary converts to text and leaves some ink, or gives way to the fallback. */
  predicate SummaryLegible(c: Conversions, output: Value) {
    var summary := OutputSummary(c, output, OPPORTUNITY_SUMMARY);
    summary.Some? && Trim(summary.value) != []
  }

  /**
   * What closing the output phases needs besides a standing journey: a source id, a legible summary, and a decision
   * that JSON can carry and that lacks none of the fields the opportunity output copies.
   */
  predicate OutputUsable(c: Conversions, env: Envelope, output: Value) {
    Trim(env.jobId) != [] && SummaryLegible(c, output) && JsonSafe(output) && AllGiven(output)
  }

  lemma FallbacksAreLegible()
    ensures Trim(OPPORTUNITY_SUMMARY) != [] && Trim(CONCLUSION_SUMMARY) != []
  {
    TrimOfNonBlank(OPPORTUNITY_SUMMARY, 0);
    TrimOfNonBlank(CONCLUSION_SUMMARY, 0);
  }

  /** A fallback of some ink and within the limit is as good as another. */
  lemma SummariesAgree(c: Conversions, output: Value, a: Text, b: Text)
    requires Trim(a) != [] && Trim(b) != [] && |a| <= OUTPUT_SUMMARY_LIMIT && |b| <= OUTPUT_SUMMARY_LIMIT
    ensures
      var one, other := OutputSummary(c, output, a), OutputSummary(c, output, b);
      && (one.Some? <==> other.Some?)
      && (one.Some? ==> (Trim(one.value) != [] <==> Trim(other.value) != []))
  {
  }

  function OutputEvidence(
    f: Formatting, env: Envelope, cutoff: int, p: Phase, payload: Payload, degraded: bool): Evidence {
    var validationId := STRUCTURAL_PREFIX + env.envelopeHash;
    Evidence(
      false,
      At(cutoff),
      Some(RequiredKind(p)),
      Some(if degraded then PartlyAvailable else Available),
      Some(Source(OUTPUT_SOURCE, Trim(env.jobId), Some(validationId), Some(VALIDATION_PREFIX + validationId))),
      Some([]),
      Some(if degraded then [OUTPUT_DEGRADED] else []),
      Some(payload),
      NoSourceHash,
      Some(f.validationMetadata(validationId)))
  }

  /** Receipt `r` carries the payload's own hash, computed by the backend, and is usable. */
  ghost predicate Carries(d: Digests, r: Receipt, p: Phase, payload: Text) {
    && r.core.phase == p && r.core.kind == RequiredKind(p)
    && !r.core.availability.NotAvailable? && !r.core.availability.Barred?
    && r.core.contentHash == d.evidence.payload(payload) && r.core.contentOrigin.BackendHashedPayload?
  }

  lemma OutputEvidenceIssues(
    d: Digests, f: Formatting, env: Envelope, cutoff: int, journeyId: Text, p: Phase, payload: Text, degraded: bool,
    at: int)
    requires Trim(journeyId) != []
    ensures
      var e := OutputEvidence(f, env, cutoff, p, Canonical(payload), degraded);
      var issued := IssueReceipt(d.evidence, journeyId, p, cutoff, e, at);
      issued.Issued? && Carries(d, issued.receipt, p, payload)
  {
  }

  lemma NotJsonIsRefused(d: ReceiptDigests, journeyId: Text, p: Phase, cutoff: int, e: Evidence, at: int)
    requires e.payload == Some(NotJson)
    ensures IssueReceipt(d, journeyId, p, cutoff, e, at).Refused?
  {
  }

  lemma RefusedEvidenceFails(d: Digests, j: Journey, p: Phase, e: Evidence, actor: Text, at: int)
    requires IssueReceipt(d.evidence, j.core.journeyId, p, j.core.cutoff, e, at).Refused?
    ensures RecordedEvidence(d, j, Some(p), e, actor, Some(at)).Err?
  {
  }

  lemma FailedRecordFails(
    d: Digests, j: Journey, p: Phase, e: Evidence, summary: Text, actor: Text, at: int, started: Journey)
    requires StartedPhase(d, j, Some(p), actor, Some(at)) == Ok(started)
    requires RecordedEvidence(d, started, Some(p), e, actor, Some(at)).Err?
    ensures Traversed(d, j, p, e, summary, actor, at).Err?
  {
  }

  /** A payload JSON cannot carry is never recorded. */
  lemma RefusedPayloadFails(d: Digests, j: Journey, p: Phase, e: Evidence, summary: Text, actor: Text, at: int)
    requires e.payload == Some(NotJson)
    ensures Traversed(d, j, p, e, summary, actor, at).Err?
  {
    var started := StartedPhase(d, j, Some(p), actor, Some(at));
    if started.Ok? {
      NotJsonIsRefused(d.evidence, started.value.core.journeyId, p, started.value.core.cutoff, e, at);
      RefusedEvidenceFails(d, started.value, p, e, actor, at);
      FailedRecordFails(d, j, p, e, summary, actor, at, started.value);
    }
  }

  lemma BlankSummaryFails(d: Digests, j: Journey, p: Phase, e: Evidence, summary: Text, actor: Text, at: int)
    requires Trim(summary) == []
    ensures Traversed(d, j, p, e, summary, actor, at).Err?
  {
  }

  datatype OutputResult = OutputApplied(journey: Journey) | OutputFailed(error: SessionError)

  method ApplyValidatedOutputPhase(
    d: Digests, f: Formatting, env: Envelope, j: Journey, ghost n: nat,
    p: Phase, payload: Payload, summary: Text, degraded: bool, at: int)
    returns (r: OutputResult)
    requires n < PHASE_COUNT && p == PhaseAt(n) && Standing(d, j, n, at) && DistinctIds(d)
    requires |summary| <= OUTPUT_SUMMARY_LIMIT
    ensures r.OutputApplied? <==> Trim(env.jobId) != [] && Trim(summary) != [] && payload.Canonical?
    ensures r.OutputApplied? ==>
      && Standing(d, r.journey, n + 1, at)
      && |r.journey.core.receipts| == |j.core.receipts| + 1
      && r.journey.core.receipts[..|j.core.receipts|] == j.core.receipts
      && Carries(d, r.journey.core.receipts[|j.core.receipts|], p, payload.text)
  {
    if Trim(env.jobId) == [] { return OutputFailed(SourceIdRequired); }
    var e := OutputEvidence(f, env, j.core.cutoff, p, payload, degraded);
    MetMcpActor();
    if payload.NotJson? {
      RefusedPayloadFails(d, j, p, e, summary, OUTPUT_ACTOR, at);
    } else if Trim(summary) == [] {
      BlankSummaryFails(d, j, p, e, summary, OUTPUT_ACTOR, at);
    } else {
      OutputEvidenceIssues(d, f, env, j.core.cutoff, j.core.journeyId, p, payload.text, degraded, at);
      TraversalSucceeds(d, j, n, e, summary, OUTPUT_ACTOR, at);
    }
    var applied := AdvancePhase(d, j, p, e, summary, OUTPUT_ACTOR, at);
    r := if applied.Ok? then OutputApplied(applied.value) else OutputFailed(JourneyFailed(applied.error));
  }

  // ---------------------------------------------------------------------
  // The session

  predicate ContextTraversed(phases: seq<PhaseEntry>) {
    forall k :: 0 <= k < CONTEXT_COUNT ==>
      var i := FindPhase(phases, PhaseAt(k)); i < |phases| ==> !phases[i].status.NotStarted?
  }

  lemma ContextTraversedMeans(d: Digests, j: Journey, n: nat, clock: int)
    requires Standing(d, j, n, clock) && n <= CONTEXT_COUNT
    ensures ContextTraversed(j.core.phases) <==> n == CONTEXT_COUNT
  {
    forall k | 0 <= k < CONTEXT_COUNT ensures FindPhase(j.core.phases, PhaseAt(k)) == k {
      IndexOfPhaseAt(k);
      FindPhaseIsIndex(j.core.phases, j.core.receipts, PhaseAt(k));
    }
    if n < CONTEXT_COUNT {
      assert j.core.phases[FindPhase(j.core.phases, PhaseAt(n))].status.NotStarted?;
    }
  }

  /** The canonical texts of the two validated outputs. */
  datatype OutputTexts = OutputTexts(opportunity: Text, decision: Text)

  function TextsOf(c: Conversions, output: Value): OutputTexts {
    OutputTexts(c.canonicalText(OpportunityOutput(output)), c.canonicalText(output))
  }

  /** All ten phases closed: eight context receipts as picked, then the opportunity set and the conclusion. */
  ghost predicate Concluded(
    d: Digests, receipts: seq<ContextReceipt>, picked: seq<nat>, texts: OutputTexts, j: Journey, clock: int)
  {
    && |picked| == CONTEXT_COUNT && Standing(d, j, PHASE_COUNT, clock)
    && |j.core.receipts| == PHASE_COUNT && Rests(receipts, picked, j.core.receipts[..CONTEXT_COUNT])
    && Carries(d, j.core.receipts[CONTEXT_COUNT], Opportunity, texts.opportunity)
    && Carries(d, j.core.receipts[CONTEXT_COUNT + 1], Conclusion, texts.decision)
  }

  lemma LastPhases()
    ensures PhaseAt(CONTEXT_COUNT) == Opportunity && PhaseAt(CONTEXT_COUNT + 1) == Conclusion
  {
  }

  const DEGRADED: Value := String(Ascii("degraded"))

  /** What the two output phases ask of what they are given. */
  predicate OutputsClose(
    env: Envelope, opportunity: Payload, opportunitySummary: Text, decision: Payload, conclusionSummary: Text)
  {
    && Trim(env.jobId) != []
    && Trim(opportunitySummary) != [] && opportunity.Canonical?
    && Trim(conclusionSummary) != [] && decision.Canonical?
  }

  lemma PayloadsAreGivenExactly(c: Conversions, output: Value)
    ensures PayloadOf(c, output).Canonical? && PayloadOf(c, OpportunityOutput(output)).Canonical?
        <==> JsonSafe(output) && AllGiven(output)
  {
    if JsonSafe(output) { OpportunityIsSafeExactly(output); }
  }

  /** Both outputs close their phases exactly when the output is usable. */
  lemma OutputsUsableExactly(c: Conversions, env: Envelope, output: Value)
    ensures
      var opportunity := OutputSummary(c, output, OPPORTUNITY_SUMMARY);
      var conclusion := OutputSummary(c, output, CONCLUSION_SUMMARY);
      && (opportunity.Some? <==> conclusion.Some?)
      && (OutputUsable(c, env, output) <==>
            && opportunity.Some?
            && OutputsClose(env, PayloadOf(c, OpportunityOutput(output)), opportunity.value,
                            PayloadOf(c, output), conclusion.value))
  {
    FallbacksAreLegible();
    SummariesAgree(c, output, OPPORTUNITY_SUMMARY, CONCLUSION_SUMMARY);
    PayloadsAreGivenExactly(c, output);
  }

  method ConcludeSession(
    d: Digests, f: Formatting, c: Conversions, env: Envelope, j: Journey, output: Value, completedAt: int, clock: int,
    ghost receipts: seq<ContextReceipt>, ghost picked: seq<nat>)
    returns (r: OutputResult, ghost finalClock: int)
    requires DistinctIds(d) && Built(d, env, receipts, picked, j, clock) && |picked| == CONTEXT_COUNT
    ensures r.OutputApplied? <==> OutputUsable(c, env, output)
    ensures r.OutputApplied? ==> Concluded(d, receipts, picked, TextsOf(c, output), r.journey, finalClock)
  {
    var outputAt := if completedAt > clock then completedAt else clock;
    finalClock := outputAt;
    OutputsUsableExactly(c, env, output);
    var degraded := Field(output, DataQualityStatus) == DEGRADED;
    var summary := OutputSummary(c, output, OPPORTUNITY_SUMMARY);
    if summary.None? { return OutputFailed(ConversionThrew), finalClock; }
    var opportunity, decision := PayloadOf(c, OpportunityOutput(output)), PayloadOf(c, output);
    r := ApplyBothOutputs(
      d, f, env, j, opportunity, summary.value, decision, OutputSummary(c, output, CONCLUSION_SUMMARY).value,
      degraded, outputAt, receipts, picked);
    if r.OutputApplied? {
      assert OutputTexts(opportunity.text, decision.text) == TextsOf(c, output);
    }
  }

  /** The opportunity set, then the conclusion. */
  method ApplyBothOutputs(
    d: Digests, f: Formatting, env: Envelope, j: Journey,
    opportunity: Payload, opportunitySummary: Text, decision: Payload, conclusionSummary: Text, degraded: bool, at: int,
    ghost receipts: seq<ContextReceipt>, ghost picked: seq<nat>)
    returns (r: OutputResult)
    requires DistinctIds(d) && Built(d, env, receipts, picked, j, at) && |picked| == CONTEXT_COUNT
    requires |opportunitySummary| <= OUTPUT_SUMMARY_LIMIT && |conclusionSummary| <= OUTPUT_SUMMARY_LIMIT
    ensures r.OutputApplied? <==> OutputsClose(env, opportunity, opportunitySummary, decision, conclusionSummary)
    ensures r.OutputApplied? ==>
      Concluded(d, receipts, picked, OutputTexts(opportunity.text, decision.text), r.journey, at)
  {
    LastPhases();
    var first := ApplyValidatedOutputPhase(
      d, f, env, j, CONTEXT_COUNT, Opportunity, opportunity, opportunitySummary, degraded, at);
    if first.OutputFailed? { return first; }
    r := ApplyValidatedOutputPhase(
      d, f, env, first.journey, CONTEXT_COUNT + 1, Conclusion, decision, conclusionSummary, degraded, at);
    if r.OutputApplied? {
      IsConcluded(
        d, receipts, picked, OutputTexts(opportunity.text, decision.text),
        j.core.receipts, first.journey.core.receipts, r.journey, at);
    }
  }

  lemma IsConcluded(
    d: Digests, receipts: seq<ContextReceipt>, picked: seq<nat>, texts: OutputTexts,
    a: seq<Receipt>, b: seq<Receipt>, j: Journey, clock: int)
    requires |picked| == CONTEXT_COUNT && Standing(d, j, PHASE_COUNT, clock) && Rests(receipts, picked, a)
    requires |b| == |a| + 1 && b[..|a|] == a && Carries(d, b[|a|], Opportunity, texts.opportunity)
    requires
      var c := j.core.receipts;
      |c| == |b| + 1 && c[..|b|] == b && Carries(d, c[|b|], Conclusion, texts.decision)
    ensures Concluded(d, receipts, picked, texts, j, clock)
  {
    ConcludedReceipts(a, b, j.core.receipts);
  }

  lemma ConcludedReceipts(a: seq<Receipt>, b: seq<Receipt>, c: seq<Receipt>)
    requires |a| == CONTEXT_COUNT && |b| == |a| + 1 && b[..|a|] == a && |c| == |b| + 1 && c[..|b|] == b
    ensures c[..CONTEXT_COUNT] == a && c[CONTEXT_COUNT] == b[CONTEXT_COUNT]
  {
  }

  /** No picked receipt is blocked, and none of a hard phase is unavailable. */
  ghost predicate PicksPermitRisk(receipts: seq<ContextReceipt>, picked: seq<nat>) {
    forall k :: 0 <= k < |picked| && k < CONTEXT_COUNT && picked[k] < |receipts| ==>
      && !receipts[picked[k]].body.status.StatusBlocked?
      && !(receipts[picked[k]].body.status.StatusUnavailable? && CriticalityOf(PhaseAt(k)).Hard?)
  }

  /** The conclusion receipt is listed by its phase and proves the decision. */
  lemma ConclusionIsProved(d: Digests, j: Journey, r: Receipt, decision: Text)
    requires Integrity(d, j) && Terminal(j.core.phases[Index(Conclusion)].status)
    requires r in j.core.receipts && Carries(d, r, Conclusion, decision)
    ensures HasProof(d, j, decision)
  {
    var entry := j.core.phases[Index(Conclusion)];
    assert DefinitionKept(entry, Index(Conclusion)) && EntryShape(entry, j.core.receipts);
    var own := ReceiptsOf(j.core.receipts, Conclusion);
    ReceiptsOfMembers(j.core.receipts, Conclusion, r);
    var k :| 0 <= k < |own| && own[k] == r;
    assert IdsOf(own)[k] == r.id;
    assert ProvesDecision(r, entry.receiptIds, d.evidence.payload(decision));
  }

  /** The held receipts permit a risk increase exactly when the picked context receipts do. */
  lemma PicksDecideRisk(
    d: Digests, receipts: seq<ContextReceipt>, picked: seq<nat>, texts: OutputTexts, held: seq<Receipt>)
    requires |picked| == CONTEXT_COUNT && |held| == PHASE_COUNT && Rests(receipts, picked, held[..CONTEXT_COUNT])
    requires Carries(d, held[CONTEXT_COUNT], Opportunity, texts.opportunity)
    requires Carries(d, held[CONTEXT_COUNT + 1], Conclusion, texts.decision)
    ensures EvidencePermitsRisk(held) <==> PicksPermitRisk(receipts, picked)
  {
    forall i | 0 <= i < CONTEXT_COUNT ensures held[i] == held[..CONTEXT_COUNT][i] && held[i] in held {
    }
    if PicksPermitRisk(receipts, picked) {
      forall i | 0 <= i < PHASE_COUNT ensures !held[i].core.availability.Barred? {
      }
    }
  }

  lemma ConclusionIsUsable(d: Digests, j: Journey)
    requires Sound(d, j) && AllClosed(j.core)
    requires forall r :: r in j.core.receipts && r.core.phase == Conclusion ==>
      !r.core.availability.NotAvailable? && !r.core.availability.Barred?
    ensures Usable(Some(j.core.phases[Index(Conclusion)].status))
  {
    SealedPhasePermitsRisk(d, j, Index(Conclusion));
    assert Terminal(j.core.phases[Index(Conclusion)].status);
  }

  lemma OnlyOneConclusion(
    d: Digests, receipts: seq<ContextReceipt>, picked: seq<nat>, texts: OutputTexts, held: seq<Receipt>, r: Receipt)
    requires |picked| == CONTEXT_COUNT && |held| == PHASE_COUNT && Rests(receipts, picked, held[..CONTEXT_COUNT])
    requires Carries(d, held[CONTEXT_COUNT], Opportunity, texts.opportunity)
    requires r in held && r.core.phase == Conclusion
    ensures r == held[CONTEXT_COUNT + 1]
  {
  }

  lemma GateOfClosed(d: Digests, j: Journey, decision: Text, intent: Intent)
    requires Sound(d, j) && AllClosed(j.core) && HasProof(d, j, decision)
    requires Usable(Some(j.core.phases[Index(Conclusion)].status))
    ensures Allowed(d, j, decision, intent) <==> (intent.RiskIncreasing? ==> EvidencePermitsRisk(j.core.receipts))
  {
    DecisionReadyMeaning(d, j);
    PolicyMeaning(d, j);
  }

  lemma ConcludedGate(
    d: Digests, receipts: seq<ContextReceipt>, picked: seq<nat>, texts: OutputTexts, j: Journey, clock: int,
    intent: Intent)
    requires Concluded(d, receipts, picked, texts, j, clock)
    ensures Allowed(d, j, texts.decision, intent) <==> (intent.RiskIncreasing? ==> PicksPermitRisk(receipts, picked))
  {
    PicksDecideRisk(d, receipts, picked, texts, j.core.receipts);
    ConclusionIsProved(d, j, j.core.receipts[CONTEXT_COUNT + 1], texts.decision);
    forall r | r in j.core.receipts && r.core.phase == Conclusion
      ensures !r.core.availability.NotAvailable? && !r.core.availability.Barred?
    {
      OnlyOneConclusion(d, receipts, picked, texts, j.core.receipts, r);
    }
    ConclusionIsUsable(d, j);
    GateOfClosed(d, j, texts.decision, intent);
  }

  lemma UnfinishedGate(d: Digests, j: Journey, n: nat, clock: int, decision: Text, intent: Intent)
    requires Standing(d, j, n, clock) && n < PHASE_COUNT
    ensures !Allowed(d, j, decision, intent)
  {
    DecisionReadyMeaning(d, j);
    assert j.core.phases[n].status.NotStarted?;
  }

  // ---------------------------------------------------------------------
  // End to end

  datatype SessionResult =
    | Session(journey: Journey, catalogVerified: bool, intent: Intent)
    | SessionFailed(error: SessionError)

  ghost predicate Materializable(
    sign: Signer, c: Conversions, env: Envelope, capability: Option<Capability>, receipts: seq<ContextReceipt>,
    output: Value)
  {
    && env.jobId != [] && env.scopeText != [] && env.workflow != []
    && IsObject(output) && Buildable(sign, env, capability, receipts)
    && (Traversable(receipts, CONTEXT_COUNT) ==> OutputUsable(c, env, output))
    && ClassifyIntent(c, output).Some?
  }

  /** The gate's answer to the session's own decision, in terms of the receipt list alone. */
  ghost predicate GateAnswers(
    d: Digests, c: Conversions, receipts: seq<ContextReceipt>, picked: seq<nat>, j: Journey, output: Value,
    intent: Intent)
  {
    && |j.core.phases| == PHASE_COUNT
    && (JsonSafe(output) && Allowed(d, j, c.canonicalText(output), intent) <==>
          Traversable(receipts, CONTEXT_COUNT) && (intent.RiskIncreasing? ==> PicksPermitRisk(receipts, picked)))
  }

  /** The session's journey rests on the greedy picks, one receipt each, in their order. */
  ghost predicate RestsOnPicks(receipts: seq<ContextReceipt>, picked: seq<nat>, j: Journey) {
    |picked| <= |j.core.receipts| && Rests(receipts, picked, j.core.receipts[..|picked|])
  }

  lemma WholeIsPrefix(receipts: seq<Receipt>)
    ensures receipts[..|receipts|] == receipts
  {
  }

  /** A sound journey resting on the picks, and the gate's answer to its decision under every intent. */
  ghost predicate Answered(
    d: Digests, c: Conversions, receipts: seq<ContextReceipt>, picked: seq<nat>, j: Journey, output: Value)
  {
    && Sound(d, j) && RestsOnPicks(receipts, picked, j)
    && forall intent :: GateAnswers(d, c, receipts, picked, j, output, intent)
  }

  /** Opportunity and conclusion are closed when all context phases are; otherwise the journey stays as it is. */
  method CloseOutputPhases(
    d: Digests, f: Formatting, c: Conversions, env: Envelope, output: Value, journey: Journey, clock: int,
    completedAt: int, ghost receipts: seq<ContextReceipt>, ghost picked: seq<nat>)
    returns (r: OutputResult)
    requires DistinctIds(d) && Built(d, env, receipts, picked, journey, clock) && GreedyPicks(receipts, picked)
    ensures r.OutputApplied? <==> (Traversable(receipts, CONTEXT_COUNT) ==> OutputUsable(c, env, output))
    ensures r.OutputApplied? ==> Answered(d, c, receipts, picked, r.journey, output)
  {
    ContextTraversedMeans(d, journey, |picked|, clock);
    if !ContextTraversed(journey.core.phases) {
      WholeIsPrefix(journey.core.receipts);
      forall intent ensures GateAnswers(d, c, receipts, picked, journey, output, intent) {
        UnfinishedGate(d, journey, |picked|, clock, c.canonicalText(output), intent);
      }
      return OutputApplied(journey);
    }
    ghost var finalClock;
    r, finalClock := ConcludeSession(d, f, c, env, journey, output, completedAt, clock, receipts, picked);
    if r.OutputApplied? {
      forall intent ensures GateAnswers(d, c, receipts, picked, r.journey, output, intent) {
        ConcludedGate(d, receipts, picked, TextsOf(c, output), r.journey, finalClock, intent);
      }
    }
  }

  /** The output phases, then the intent. */
  method FinishSession(
    d: Digests, f: Formatting, c: Conversions, env: Envelope, output: Value, journey: Journey, clock: int,
    completedAt: int, catalogComplete: bool, ghost receipts: seq<ContextReceipt>, ghost picked: seq<nat>)
    returns (r: SessionResult)
    requires DistinctIds(d) && Built(d, env, receipts, picked, journey, clock) && GreedyPicks(receipts, picked)
    ensures r.Session? <==>
      (Traversable(receipts, CONTEXT_COUNT) ==> OutputUsable(c, env, output)) && ClassifyIntent(c, output).Some?
    ensures r.Session? ==> Answered(d, c, receipts, picked, r.journey, output)
    ensures r.Session? ==> r.catalogVerified == catalogComplete && ClassifyIntent(c, output) == Some(r.intent)
  {
    var concluded := CloseOutputPhases(d, f, c, env, output, journey, clock, completedAt, receipts, picked);
    if concluded.OutputFailed? { return SessionFailed(concluded.error); }
    var intent := ClassifyIntent(c, output);
    if intent.None? { return SessionFailed(ConversionThrew); }
    return Session(concluded.journey, catalogComplete, intent.value);
  }

  /**
   * The session exists for every accepted receipt list, as long as a traversal finds an output whose copied fields are
   * all there. Its decision passes the gate exactly when the eight primary receipts follow a complete catalog in phase
   * order and, for a risk increase, the greedy picks, which the list determines, permit risk.
   */
  method BuildResearchSession(
    d: Digests, f: Formatting, c: Conversions, sign: Signer, env: Envelope, output: Value,
    capability: Option<Capability>, receipts: seq<ContextReceipt>, startedAt: int, completedAt: int)
    returns (r: SessionResult, ghost picked: seq<nat>)
    requires DistinctIds(d) && Legible(f) && |receipts| <= MAX_ARRAY_LENGTH
    ensures r.Session? <==> Materializable(sign, c, env, capability, receipts, output)
    ensures r.Session? ==> GreedyPicks(receipts, picked) && Answered(d, c, receipts, picked, r.journey, output)
    ensures r.Session? ==>
      (r.catalogVerified <==> CatalogComplete(receipts)) && ClassifyIntent(c, output) == Some(r.intent)
  {
    picked := [];
    if env.jobId == [] || env.scopeText == [] || env.workflow == [] { return SessionFailed(EnvelopeInvalid), picked; }
    if !IsObject(output) { return SessionFailed(OutputInvalid), picked; }
    var context, chosen := BuildContextJourney(d, f, sign, env, capability, receipts, startedAt, completedAt);
    if context.ContextFailed? { return SessionFailed(context.error), picked; }
    picked := chosen;
    r := FinishSession(
      d, f, c, env, output, context.journey, context.clock, completedAt, context.catalogComplete, receipts, picked);
  }

  /** An output that is fine but for a copied field makes a session fail exactly when the context is traversed. */
  lemma IncompleteOutputFailsExactly(
    sign: Signer, c: Conversions, env: Envelope, capability: Option<Capability>, receipts: seq<ContextReceipt>,
    output: Value)
    requires env.jobId != [] && env.scopeText != [] && env.workflow != [] && Buildable(sign, env, capability, receipts)
    requires IsObject(output) && ClassifyIntent(c, output).Some? && Trim(env.jobId) != [] && SummaryLegible(c, output)
    ensures Materializable(sign, c, env, capability, receipts, output) <==>
      (Traversable(receipts, CONTEXT_COUNT) ==> JsonSafe(output) && JsonSafe(OpportunityOutput(output)))
  {
    if JsonSafe(output) { OpportunityIsSafeExactly(output); }
  }

  /** For instance a plan given as a proposal, or a summary alone: no session once the whole context is traversed. */
  lemma ProposalMakesSessionFail(
    sign: Signer, c: Conversions, env: Envelope, capability: Option<Capability>, receipts: seq<ContextReceipt>)
    requires env.jobId != [] && env.scopeText != [] && env.workflow != [] && Buildable(sign, env, capability, receipts)
    ensures Materializable(sign, c, env, capability, receipts, PROPOSAL_ONLY) <==> !Traversable(receipts, CONTEXT_COUNT)
    ensures Materializable(sign, c, env, capability, receipts, SUMMARY_ONLY) <==> !Traversable(receipts, CONTEXT_COUNT)
  {
    ProposalIsRefused();
    SummaryAloneIsRefused();
    RefusedOutputsAreClassified(c);
  }
}
