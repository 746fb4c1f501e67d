// A research session: the context journey driven from a verified receipt list,
// then the validated opportunity and conclusion phases.

module ResearchSession {
  import opened Wrappers
  import opened JsText
  import opened AnalyticalCatalog
  import opened AnalyticalEvidence
  import opened AnalyticalJourney
  import opened JourneyOperations
  import opened PhaseTraversal
  import opened ContextReceipts
  import opened GreedySelection

  const JOURNEY_PREFIX := Ascii("analytical_journey_")

  const WORKER_ACTOR := Ascii("desk_backend:ai_worker")

  const MCP_ACTOR := Ascii("desk_backend:mcp_context")

  const OUTPUT_ACTOR := Ascii("desk_backend:validated_output")

  const MCP_SOURCE := Ascii("MCP_TOOL_RESULT")

  const OUTPUT_SOURCE := Ascii("VALIDATED_ANALYTICAL_OUTPUT")

  const SOURCE_VERSION := Ascii("1.0.0")

  const CONTEXT_PARTIAL := Ascii("CONTEXT_PARTIAL")

  const OUTPUT_DEGRADED := Ascii("ANALYSIS_DATA_QUALITY_DEGRADED")

  datatype Envelope = Envelope(
    jobId: Text, envelopeHash: Text, scopeText: Text, scope: Option<Scope>, workflow: Text,
    cutoff: Option<int>, identity: Text)

  /** Texts assembled from a receipt by string formatting. */
  datatype Formatting = Formatting(
    summary: (Phase, ContextReceipt) -> Text,
    reasonCode: ReceiptBody -> Text,
    metadata: ContextReceipt -> Text,
    toolName: Tool -> Text,
    sourceRef: Envelope -> Text,
    validationMetadata: Text -> Text)

  /** Context summaries are non-blank and short, as `contextPhaseSummary` makes them. */
  ghost predicate Legible(f: Formatting) {
    forall p, r :: Trim(f.summary(p, r)) != [] && |Trim(f.summary(p, r))| <= SUMMARY_LIMIT
  }

  function AvailabilityOf(s: ContextStatus): Option<Availability> {
    match s
    case StatusComplete => Some(Available)
    case StatusDegraded => Some(PartlyAvailable)
    case StatusUnavailable => Some(NotAvailable)
    case StatusBlocked => Some(Barred)
    case StatusUnknown => None
  }

  /** The evidence a context receipt contributes to phase `p`. */
  function ContextEvidence(f: Formatting, env: Envelope, cutoff: int, p: Phase, r: ContextReceipt): Evidence {
    Evidence(
      false,
      At(cutoff),
      Some(RequiredKind(p)),
      AvailabilityOf(r.body.status),
      Some(Source(MCP_SOURCE, f.toolName(r.body.tool), Some(SOURCE_VERSION), Some(f.sourceRef(env)))),
      Some(if r.body.status.StatusDegraded? then [CONTEXT_PARTIAL] else []),
      Some(if r.body.status.StatusComplete? then [] else [f.reasonCode(r.body)]),
      None,
      r.body.result,
      Some(f.metadata(r)))
  }

  lemma ContextEvidenceIssues(
    d: Digests, f: Formatting, env: Envelope, cutoff: int, sign: Signer, c: Capability,
    journeyId: Text, p: Phase, r: ContextReceipt, at: int)
    requires Valid(sign, r, c) && Trim(journeyId) != []
    ensures IssueReceipt(d.evidence, journeyId, p, cutoff, ContextEvidence(f, env, cutoff, p, r), at).Issued?
    ensures
      var q := IssueReceipt(d.evidence, journeyId, p, cutoff, ContextEvidence(f, env, cutoff, p, r), at).receipt;
      && q.core.phase == p && q.core.kind == RequiredKind(p)
      && AvailabilityOf(r.body.status) == Some(q.core.availability)
  {
    CompleteEvidenceIssues(d.evidence, journeyId, p, cutoff, ContextEvidence(f, env, cutoff, p, r), at);
  }

  lemma TrimOfNonBlank(t: Text, i: nat)
    requires i < |t| && !IsSpace(t[i])
    ensures Trim(t) != []
  {
  }

  // ---------------------------------------------------------------------
  // The context journey

  /** Receipt `k` of the journey came from the receipt the session picked for phase `k`. */
  ghost predicate Rests(receipts: seq<ContextReceipt>, picked: seq<nat>, held: seq<Receipt>) {
    && |held| == |picked| <= CONTEXT_COUNT
    && (forall k :: 0 <= k < |picked| ==> picked[k] < |receipts| && Primary(receipts[picked[k]], k))
    && (forall k :: 0 <= k < |picked| ==>
          && held[k].core.phase == PhaseAt(k) && held[k].core.kind == RequiredKind(PhaseAt(k))
          && AvailabilityOf(receipts[picked[k]].body.status) == Some(held[k].core.availability))
  }

  function Cursor(start: nat, picked: seq<nat>, k: nat): nat
    requires k <= |picked|
  {
    if k == 0 then start else picked[k - 1]
  }

  ghost predicate GreedyPick(receipts: seq<ContextReceipt>, start: nat, firsts: seq<nat>, picked: seq<nat>, k: nat)
    requires k < |firsts| && k < |picked|
  {
    && FirstPrimary(receipts, k, Cursor(start, picked, k), firsts[k])
    && Chosen(receipts, k, firsts[k], picked[k])
  }

  /** Each pick is the greedy choice after the one before it. */
  ghost predicate GreedyTrail(receipts: seq<ContextReceipt>, start: nat, firsts: seq<nat>, picked: seq<nat>) {
    && |firsts| == |picked| <= CONTEXT_COUNT
    && forall k :: 0 <= k < |picked| ==> GreedyPick(receipts, start, firsts, picked, k)
  }

  lemma TrailGrows(
    receipts: seq<ContextReceipt>, start: nat, firsts: seq<nat>, picked: seq<nat>, first: nat, chosen: nat)
    requires GreedyTrail(receipts, start, firsts, picked) && |picked| < CONTEXT_COUNT
    requires FirstPrimary(receipts, |picked|, Cursor(start, picked, |picked|), first)
    requires Chosen(receipts, |picked|, first, chosen)
    ensures GreedyTrail(receipts, start, firsts + [first], picked + [chosen])
  {
    var firsts', picked' := firsts + [first], picked + [chosen];
    forall k | 0 <= k < |picked'| ensures GreedyPick(receipts, start, firsts', picked', k) {
      assert Cursor(start, picked', k) == Cursor(start, picked, k);
      if k < |picked| {
        assert GreedyPick(receipts, start, firsts, picked, k);
      }
    }
  }

  /** Two greedy trails through a list agree as far as both go. */
  lemma {:induction false} TrailIsDetermined(
    receipts: seq<ContextReceipt>, start: nat, a: seq<nat>, p: seq<nat>, b: seq<nat>, q: seq<nat>, k: nat)
    requires GreedyTrail(receipts, start, a, p) && GreedyTrail(receipts, start, b, q)
    requires k < |p| && k < |q|
    ensures a[k] == b[k] && p[k] == q[k]
  {
    if k > 0 { TrailIsDetermined(receipts, start, a, p, b, q, k - 1); }
    assert GreedyPick(receipts, start, a, p, k) && GreedyPick(receipts, start, b, q, k);
    ChoiceIsUnique(receipts, k, Cursor(start, p, k), a[k], p[k], b[k], q[k]);
  }

  /** What remains to embed after `n` greedy picks is what had to be embedded before them. */
  lemma {:induction false} TrailLosesNothing(
    receipts: seq<ContextReceipt>, start: nat, firsts: seq<nat>, picked: seq<nat>, n: nat, q: nat)
    requires GreedyTrail(receipts, start, firsts, picked) && n <= |picked| && n <= q
    ensures Embeds(receipts, 0, q, start) <==> Embeds(receipts, n, q, Cursor(start, picked, n))
  {
    if n > 0 {
      TrailLosesNothing(receipts, start, firsts, picked, n - 1, q);
      assert GreedyPick(receipts, start, firsts, picked, n - 1);
      GreedyStep(receipts, n - 1, q, Cursor(start, picked, n - 1), firsts[n - 1], picked[n - 1]);
    }
  }

  ghost predicate Stuck(receipts: seq<ContextReceipt>, start: nat, picked: seq<nat>) {
    |picked| < CONTEXT_COUNT ==>
      forall k :: Cursor(start, picked, |picked|) < k < |receipts| ==> !Primary(receipts[k], |picked|)
  }

  lemma StuckMeans(receipts: seq<ContextReceipt>, start: nat, picked: seq<nat>)
    requires Stuck(receipts, start, picked) && |picked| < CONTEXT_COUNT
    ensures !Embeds(receipts, |picked|, |picked| + 1, Cursor(start, picked, |picked|))
  {
  }

  lemma TrailEnds(receipts: seq<ContextReceipt>, start: nat, firsts: seq<nat>, picked: seq<nat>)
    requires GreedyTrail(receipts, start, firsts, picked) && Stuck(receipts, start, picked)
    ensures Embeds(receipts, 0, |picked|, start)
    ensures |picked| < CONTEXT_COUNT ==> !Embeds(receipts, 0, |picked| + 1, start)
  {
    var n := |picked|;
    TrailLosesNothing(receipts, start, firsts, picked, n, n);
    if n < CONTEXT_COUNT {
      TrailLosesNothing(receipts, start, firsts, picked, n, n + 1);
      StuckMeans(receipts, start, picked);
    }
  }

  /** A greedy trail that cannot be continued is as long as the longest embeddable prefix. */
  lemma TrailIsLongest(receipts: seq<ContextReceipt>, start: nat, firsts: seq<nat>, picked: seq<nat>)
    requires GreedyTrail(receipts, start, firsts, picked) && Stuck(receipts, start, picked)
    ensures forall q :: 0 <= q <= CONTEXT_COUNT ==> (q <= |picked| <==> Embeds(receipts, 0, q, start))
  {
    TrailEnds(receipts, start, firsts, picked);
    LongestPrefix(receipts, start, |picked|);
  }

  lemma {:induction false} EmbedsShorter(receipts: seq<ContextReceipt>, p: nat, q: nat, shorter: nat, after: int)
    requires Embeds(receipts, p, q, after) && shorter <= q
    ensures Embeds(receipts, p, shorter, after)
    decreases q - p
  {
    if p < shorter {
      var i: nat :| after < i < |receipts| && Primary(receipts[i], p) && Embeds(receipts, p + 1, q, i);
      EmbedsShorter(receipts, p + 1, q, shorter, i);
    }
  }

  /** Once the next phase cannot be embedded, the closed count is exactly the longest embeddable prefix. */
  lemma LongestPrefix(receipts: seq<ContextReceipt>, start: nat, n: nat)
    requires Embeds(receipts, 0, n, start) && (n < CONTEXT_COUNT ==> !Embeds(receipts, 0, n + 1, start))
    requires n <= CONTEXT_COUNT
    ensures forall q :: 0 <= q <= CONTEXT_COUNT ==> (q <= n <==> Embeds(receipts, 0, q, start))
  {
    forall q | 0 <= q <= CONTEXT_COUNT ensures q <= n <==> Embeds(receipts, 0, q, start) {
      if q <= n {
        EmbedsShorter(receipts, 0, n, q, start);
      } else if Embeds(receipts, 0, q, start) {
        EmbedsShorter(receipts, 0, q, n + 1, start);
      }
    }
  }

  /** Start, record and complete one phase; the first error ends the attempt. */
  method AdvancePhase(d: Digests, j: Journey, p: Phase, e: Evidence, summary: Text, actor: Text, at: int)
    returns (next: Result<Journey>)
    ensures next == Traversed(d, j, p, e, summary, actor, at)
  {
    var started := StartAnalyticalPhase(d, j, Some(p), actor, Some(at));
    if started.Err? { return Err(started.error); }
    var recorded := RecordAnalyticalEvidence(d, started.value, Some(p), e, actor, Some(at));
    if recorded.Err? { return Err(recorded.error); }
    next := CompleteAnalyticalPhase(d, recorded.value.journey, Some(p), summary, NoClaim, actor, Some(at));
  }

  /** The loop body of the context journey: one verified receipt closes the next phase. */
  method AdvanceContextPhase(
    d: Digests, f: Formatting, env: Envelope, ghost sign: Signer, ghost c: Capability,
    j: Journey, n: nat, receipt: ContextReceipt, at: int)
    returns (next: Journey)
    requires n < CONTEXT_COUNT && DistinctIds(d) && Legible(f)
    requires Standing(d, j, n, at) && Valid(sign, receipt, c)
    ensures Standing(d, next, n + 1, at)
    ensures next.core.cutoff == j.core.cutoff && next.core.journeyId == j.core.journeyId
    ensures |next.core.receipts| == |j.core.receipts| + 1
    ensures next.core.receipts[..|j.core.receipts|] == j.core.receipts
    ensures
      var r := next.core.receipts[|j.core.receipts|].core;
      && r.phase == PhaseAt(n) && r.kind == RequiredKind(PhaseAt(n))
      && AvailabilityOf(receipt.body.status) == Some(r.availability)
  {
    var p, cutoff := PhaseAt(n), j.core.cutoff;
    var e := ContextEvidence(f, env, cutoff, p, receipt);
    MetMcpActor();
    ContextEvidenceIssues(d, f, env, cutoff, sign, c, j.core.journeyId, p, receipt, at);
    TraversalSucceeds(d, j, n, e, f.summary(p, receipt), MCP_ACTOR, at);
    var advanced := AdvancePhase(d, j, p, e, f.summary(p, receipt), MCP_ACTOR, at);
    next := advanced.value;
  }

  lemma RestsOnOneMore(
    receipts: seq<ContextReceipt>, picked: seq<nat>, held: seq<Receipt>, k: nat, more: seq<Receipt>)
    requires Rests(receipts, picked, held) && |picked| < CONTEXT_COUNT
    requires k < |receipts| && Primary(receipts[k], |picked|)
    requires |more| == |held| + 1 && more[..|held|] == held
    requires
      var r := more[|held|].core;
      && r.phase == PhaseAt(|picked|) && r.kind == RequiredKind(PhaseAt(|picked|))
      && AvailabilityOf(receipts[k].body.status) == Some(r.availability)
    ensures Rests(receipts, picked + [k], more)
  {
  }

  /** The journey after some greedy picks: one closed phase and one receipt for each of them. */
  ghost predicate Advanced(
    d: Digests, journeyId: Text, cutoff: int, receipts: seq<ContextReceipt>, picked: seq<nat>, journey: Journey,
    clock: int)
  {
    && |picked| <= CONTEXT_COUNT
    && Standing(d, journey, |picked|, clock)
    && journey.core.cutoff == cutoff && journey.core.journeyId == journeyId
    && Rests(receipts, picked, journey.core.receipts)
  }

  lemma AcceptedIsValid(sign: Signer, receipts: seq<ContextReceipt>, c: Capability, k: nat)
    requires Accepted(sign, receipts, c) && k < |receipts|
    ensures Valid(sign, receipts[k], c)
  {
    assert InOrder(sign, receipts, c, k);
  }

  /** One turn of the context loop, once a receipt has been selected for phase `closed`. */
  method CloseContextPhase(
    d: Digests, f: Formatting, env: Envelope, ghost sign: Signer, ghost c: Capability,
    ghost journeyId: Text, ghost cutoff: int, receipts: seq<ContextReceipt>, j: Journey, clock: int, closed: nat,
    index: nat, updatedAt: int, ghost picked: seq<nat>)
    returns (journey: Journey, journeyClock: int)
    requires DistinctIds(d) && Legible(f)
    requires closed == |picked| < CONTEXT_COUNT && Advanced(d, journeyId, cutoff, receipts, picked, j, clock)
    requires index < |receipts| && Primary(receipts[index], closed) && Valid(sign, receipts[index], c)
    ensures clock <= journeyClock && Advanced(d, journeyId, cutoff, receipts, picked + [index], journey, journeyClock)
  {
    var receipt := receipts[index];
    var recordedAt := if receipt.body.recordedAt.Some? then receipt.body.recordedAt.value else updatedAt;
    journeyClock := if recordedAt > clock then recordedAt else clock;
    StandingLater(d, j, closed, clock, journeyClock);
    journey := AdvanceContextPhase(d, f, env, sign, c, j, closed, receipt, journeyClock);
    RestsOnOneMore(receipts, picked, j.core.receipts, index, journey.core.receipts);
  }

  /** Phase after phase, the greedy selection closes as many context phases as the receipt list allows. */
  method TraverseContext(
    d: Digests, f: Formatting, env: Envelope, sign: Signer, c: Capability,
    created: Journey, receipts: seq<ContextReceipt>, start: nat, updatedAt: int, clock: int)
    returns (journey: Journey, journeyClock: int, ghost firsts: seq<nat>, ghost picked: seq<nat>)
    requires DistinctIds(d) && Legible(f) && Accepted(sign, receipts, c)
    requires Advanced(d, created.core.journeyId, created.core.cutoff, receipts, [], created, clock)
    ensures clock <= journeyClock
      && Advanced(d, created.core.journeyId, created.core.cutoff, receipts, picked, journey, journeyClock)
    ensures GreedyTrail(receipts, start, firsts, picked)
    ensures forall q :: 0 <= q <= CONTEXT_COUNT ==> (q <= |picked| <==> Embeds(receipts, 0, q, start))
  {
    var receiptCursor, closed := start, 0;
    journey, journeyClock, firsts, picked := created, clock, [], [];
    while closed < CONTEXT_COUNT
      invariant closed == |picked| <= CONTEXT_COUNT && receiptCursor == Cursor(start, picked, closed)
      invariant clock <= journeyClock
        && Advanced(d, created.core.journeyId, created.core.cutoff, receipts, picked, journey, journeyClock)
      invariant GreedyTrail(receipts, start, firsts, picked)
      decreases CONTEXT_COUNT - closed
    {
      var selected, first := SelectOrderedPrimary(receipts, closed, receiptCursor);
      if selected.None? {
        break;
      }
      receiptCursor := selected.value;
      AcceptedIsValid(sign, receipts, c, receiptCursor);
      journey, journeyClock := CloseContextPhase(
        d, f, env, sign, c, created.core.journeyId, created.core.cutoff, receipts, journey, journeyClock, closed,
        receiptCursor, updatedAt, picked);
      TrailGrows(receipts, start, firsts, picked, first, receiptCursor);
      closed := closed + 1;
      firsts, picked := firsts + [first], picked + [receiptCursor];
    }
    TrailIsLongest(receipts, start, firsts, picked);
  }

  /** Indices selected for successive phases strictly increase. */
  lemma {:induction false} PicksIncrease(
    receipts: seq<ContextReceipt>, start: nat, firsts: seq<nat>, picked: seq<nat>, k: nat, m: nat)
    requires GreedyTrail(receipts, start, firsts, picked) && k < m < |picked|
    ensures start < picked[k] < picked[m]
    decreases k + m
  {
    assert GreedyPick(receipts, start, firsts, picked, k) && GreedyPick(receipts, start, firsts, picked, m);
    if k > 0 {
      PicksIncrease(receipts, start, firsts, picked, k - 1, k);
    }
    if k + 1 < m {
      PicksIncrease(receipts, start, firsts, picked, k, m - 1);
    }
  }

  lemma MetMcpActor()
    ensures Trim(MCP_ACTOR) != [] && Trim(OUTPUT_ACTOR) != [] && Trim(WORKER_ACTOR) != []
  {
    TrimOfNonBlank(MCP_ACTOR, 0);
    TrimOfNonBlank(OUTPUT_ACTOR, 0);
    TrimOfNonBlank(WORKER_ACTOR, 0);
  }
}
