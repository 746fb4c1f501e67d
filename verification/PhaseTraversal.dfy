// One phase from start to close: when start, record and complete in a row succeed.

module PhaseTraversal {
  import opened Wrappers
  import opened JsText
  import opened AnalyticalCatalog
  import opened AnalyticalEvidence
  import opened AnalyticalJourney
  import opened JourneyOperations
  import opened JourneyInvariants

  /** The first `n` phases are closed, the others untouched, and every receipt belongs to a closed phase. */
  ghost predicate Frontier(phases: seq<PhaseEntry>, receipts: seq<Receipt>, n: nat) {
    && n <= PHASE_COUNT == |phases|
    && (forall i :: 0 <= i < n ==> Terminal(phases[i].status))
    && (forall i :: n <= i < PHASE_COUNT ==> phases[i].status.NotStarted?)
    && (forall r :: r in receipts ==> Index(r.core.phase) < n)
  }

  ghost predicate Standing(d: Digests, j: Journey, n: nat, now: int) {
    && Sound(d, j)
    && Frontier(j.core.phases, j.core.receipts, n)
    && j.core.updatedAt <= now
    && Trim(j.core.journeyId) != []
  }

  lemma CreatedShape(d: Digests, c: Creation)
    requires CreateJourney(d, c).Ok?
    ensures
      var j := CreateJourney(d, c).value.core;
      && j.phases == FreshEntries() && j.receipts == [] && j.updatedAt == c.createdAt.value
      && j.journeyId == Trim(c.journeyId) && j.cutoff == c.cutoff.value
  {
  }

  lemma CreatedStands(d: Digests, c: Creation)
    requires CreateJourney(d, c).Ok? && Trim(Trim(c.journeyId)) != []
    ensures Standing(d, CreateJourney(d, c).value, 0, c.createdAt.value)
  {
    CreatedShape(d, c);
    CreatedIsSound(d, c);
  }

  lemma StandingLater(d: Digests, j: Journey, n: nat, earlier: int, later: int)
    requires Standing(d, j, n, earlier) && earlier <= later
    ensures Standing(d, j, n, later)
  {
  }

  /** Receipt identifiers, truncated hashes that they are, tell issued receipts apart. */
  ghost predicate DistinctIds(d: Digests) {
    forall a, b :: d.evidence.receiptId(d.evidence.receipt(a)) == d.evidence.receiptId(d.evidence.receipt(b)) ==> a == b
  }

  lemma {:induction false} NoReceiptsOf(receipts: seq<Receipt>, p: Phase)
    requires forall r :: r in receipts ==> r.core.phase != p
    ensures ReceiptsOf(receipts, p) == []
  {
    if receipts != [] {
      assert receipts[0] in receipts;
      forall r | r in receipts[1..] ensures r.core.phase != p { assert r in receipts; }
      NoReceiptsOf(receipts[1..], p);
    }
  }

  lemma IdIsNew(d: Digests, j: JourneyCore, r: Receipt)
    requires DistinctIds(d) && ReceiptsOk(d, j)
    requires Genuine(d.evidence, r, j.journeyId, None, j.cutoff)
    requires forall x :: x in j.receipts ==> x.core.phase != r.core.phase
    ensures FindReceipt(j.receipts, r.id) == |j.receipts|
  {
  }

  lemma StandingEntry(d: Digests, j: Journey, n: nat, now: int)
    requires Standing(d, j, n, now) && n < PHASE_COUNT
    ensures FindPhase(j.core.phases, PhaseAt(n)) == n
    ensures DefinitionKept(j.core.phases[n], n)
    ensures !PriorPhaseOpen(j.core.phases, j.core.phases[n].ordinal)
  {
    IndexOfPhaseAt(n);
    FindPhaseIsIndex(j.core.phases, j.core.receipts, PhaseAt(n));
    PriorPhasesClosed(j.core, n);
  }

  // ---------------------------------------------------------------------
  // The three operations succeed in turn

  lemma RecordCheckedSucceeds(d: Digests, j: Journey, p: Phase, e: Evidence, actor: Text, at: int)
    requires Trim(actor) != [] && j.core.updatedAt <= at
    requires FindPhase(j.core.phases, p) < |j.core.phases|
    requires !Terminal(j.core.phases[FindPhase(j.core.phases, p)].status)
    requires IssueReceipt(d.evidence, j.core.journeyId, p, j.core.cutoff, e, at).Issued?
    requires
      var r := IssueReceipt(d.evidence, j.core.journeyId, p, j.core.cutoff, e, at).receipt;
      FindReceipt(j.core.receipts, r.id) == |j.core.receipts|
    ensures
      var r := IssueReceipt(d.evidence, j.core.journeyId, p, j.core.cutoff, e, at).receipt;
      && Permitted(d, j, Attached(r), at)
      && RecordedChecked(d, j, Some(p), e, actor, Some(at))
         == Ok(Recorded(Changed(d, j, Attached(r), Trim(actor), at), r, false))
  {
    IssuedIsGenuine(d.evidence, j.core.journeyId, p, j.core.cutoff, e, at);
  }

  lemma RecordSucceeds(d: Digests, j: Journey, p: Phase, e: Evidence, actor: Text, at: int)
    requires Integrity(d, j) && Trim(actor) != [] && j.core.updatedAt <= at
    requires FindPhase(j.core.phases, p) < |j.core.phases|
    requires !Terminal(j.core.phases[FindPhase(j.core.phases, p)].status)
    requires IssueReceipt(d.evidence, j.core.journeyId, p, j.core.cutoff, e, at).Issued?
    requires
      var r := IssueReceipt(d.evidence, j.core.journeyId, p, j.core.cutoff, e, at).receipt;
      FindReceipt(j.core.receipts, r.id) == |j.core.receipts|
    ensures
      var r := IssueReceipt(d.evidence, j.core.journeyId, p, j.core.cutoff, e, at).receipt;
      && Permitted(d, j, Attached(r), at)
      && RecordedEvidence(d, j, Some(p), e, actor, Some(at))
         == Ok(Recorded(Changed(d, j, Attached(r), Trim(actor), at), r, false))
  {
    RecordCheckedSucceeds(d, j, p, e, actor, at);
  }

  lemma SealSucceeds(d: Digests, j: Journey, i: nat, text: Text, actor: Text, at: int)
    requires Trim(actor) != [] && i < |j.core.phases| && Permitted(d, j, Sealed(i, text), at)
    ensures SealedChecked(d, j, i, text, NoClaim, actor, Some(at))
      == Ok(Changed(d, j, Sealed(i, text), Trim(actor), at))
  {
  }

  lemma CompletionReachesSeal(d: Digests, j: Journey, p: Phase, summary: Text, actor: Text, at: int)
    requires Trim(summary) != [] && |Trim(summary)| <= SUMMARY_LIMIT
    requires FindPhase(j.core.phases, p) < |j.core.phases|
    requires j.core.phases[FindPhase(j.core.phases, p)].status.InProgress?
    ensures CompletedChecked(d, j, Some(p), summary, NoClaim, actor, Some(at))
         == SealedChecked(d, j, FindPhase(j.core.phases, p), Trim(summary), NoClaim, actor, Some(at))
  {
  }

  lemma CompleteSucceeds(d: Digests, j: Journey, p: Phase, summary: Text, actor: Text, at: int)
    requires Integrity(d, j) && Trim(actor) != [] && j.core.updatedAt <= at
    requires Trim(summary) != [] && |Trim(summary)| <= SUMMARY_LIMIT
    requires FindPhase(j.core.phases, p) < |j.core.phases|
    requires Permitted(d, j, Sealed(FindPhase(j.core.phases, p), Trim(summary)), at)
    ensures CompletedPhase(d, j, Some(p), summary, NoClaim, actor, Some(at))
         == Ok(Changed(d, j, Sealed(FindPhase(j.core.phases, p), Trim(summary)), Trim(actor), at))
  {
    CompletionReachesSeal(d, j, p, summary, actor, at);
    SealSucceeds(d, j, FindPhase(j.core.phases, p), Trim(summary), actor, at);
  }

  ghost function Started(d: Digests, j: Journey, n: nat, actor: Text, at: int): Journey
    requires Permitted(d, j, Opened(n), at)
  {
    Changed(d, j, Opened(n), Trim(actor), at)
  }

  lemma StartStanding(d: Digests, j: Journey, n: nat, actor: Text, at: int)
    requires Standing(d, j, n, at) && n < PHASE_COUNT && Trim(actor) != []
    ensures Permitted(d, j, Opened(n), at)
    ensures StartedPhase(d, j, Some(PhaseAt(n)), actor, Some(at)) == Ok(Started(d, j, n, actor, at))
    ensures
      var k := Started(d, j, n, actor, at);
      && Sound(d, k) && k.core.updatedAt == at
      && k.core.journeyId == j.core.journeyId && k.core.cutoff == j.core.cutoff
      && k.core.receipts == j.core.receipts
      && k.core.phases == j.core.phases[n := OpenedEntry(j.core.phases[n], at)]
  {
    StandingEntry(d, j, n, at);
    StartSucceeds(d, j, PhaseAt(n), actor, at);
    ChangeIsSound(d, j, Opened(n), Trim(actor), at);
  }

  /** The journey with phase `n` open and one receipt for it attached. */
  ghost predicate Attending(d: Digests, j: Journey, n: nat, before: Journey, r: Receipt, at: int)
    requires n < PHASE_COUNT
  {
    && Sound(d, j) && j.core.updatedAt == at
    && |before.core.phases| == PHASE_COUNT
    && j.core.journeyId == before.core.journeyId && j.core.cutoff == before.core.cutoff
    && j.core.receipts == before.core.receipts + [r]
    && j.core.phases == before.core.phases[n := OpenedEntry(before.core.phases[n], at)]
  }

  lemma AttachStanding(d: Digests, j: Journey, n: nat, e: Evidence, actor: Text, at: int)
    requires Standing(d, j, n, at) && n < PHASE_COUNT && Trim(actor) != [] && DistinctIds(d)
    requires Permitted(d, j, Opened(n), at) && Sound(d, Started(d, j, n, actor, at))
    requires IssueReceipt(d.evidence, j.core.journeyId, PhaseAt(n), j.core.cutoff, e, at).Issued?
    ensures
      var s := Started(d, j, n, actor, at);
      var r := IssueReceipt(d.evidence, j.core.journeyId, PhaseAt(n), j.core.cutoff, e, at).receipt;
      var q := RecordedEvidence(d, s, Some(PhaseAt(n)), e, actor, Some(at));
      && q.Ok? && q.value.receipt == r && Attending(d, q.value.journey, n, j, r, at)
  {
    var s := Started(d, j, n, actor, at);
    var r := IssueReceipt(d.evidence, j.core.journeyId, PhaseAt(n), j.core.cutoff, e, at).receipt;
    IssuedIsGenuine(d.evidence, j.core.journeyId, PhaseAt(n), j.core.cutoff, e, at);
    IndexOfPhaseAt(n);
    IdIsNew(d, s.core, r);
    FindPhaseIsIndex(s.core.phases, s.core.receipts, PhaseAt(n));
    RecordSucceeds(d, s, PhaseAt(n), e, actor, at);
    ChangeIsSound(d, s, Attached(r), Trim(actor), at);
  }

  lemma OpenAndAttach(d: Digests, j: Journey, n: nat, e: Evidence, actor: Text, at: int)
    returns (started: Journey, recorded: Recorded)
    requires Standing(d, j, n, at) && n < PHASE_COUNT && Trim(actor) != [] && DistinctIds(d)
    requires IssueReceipt(d.evidence, j.core.journeyId, PhaseAt(n), j.core.cutoff, e, at).Issued?
    ensures StartedPhase(d, j, Some(PhaseAt(n)), actor, Some(at)) == Ok(started)
    ensures RecordedEvidence(d, started, Some(PhaseAt(n)), e, actor, Some(at)) == Ok(recorded)
    ensures recorded.receipt == IssueReceipt(d.evidence, j.core.journeyId, PhaseAt(n), j.core.cutoff, e, at).receipt
    ensures Attending(d, recorded.journey, n, j, recorded.receipt, at)
  {
    StartStanding(d, j, n, actor, at);
    AttachStanding(d, j, n, e, actor, at);
    started := Started(d, j, n, actor, at);
    recorded := RecordedEvidence(d, started, Some(PhaseAt(n)), e, actor, Some(at)).value;
  }

  lemma OnlyReceipt(j: JourneyCore, p: Phase, r: Receipt, before: seq<Receipt>)
    requires j.receipts == before + [r] && r.core.phase == p
    requires forall x :: x in before ==> x.core.phase != p
    ensures ReceiptsOf(j.receipts, p) == [r]
  {
    NoReceiptsOf(before, p);
    ReceiptsOfExtension(before, r, p);
  }

  lemma RequiredReceiptSuffices(r: Receipt)
    requires r.core.kind == RequiredKind(r.core.phase)
    ensures AssessPhaseEvidence(RequiredKinds(r.core.phase), [r]).missing == []
  {
    assert [r][0].core.kind == RequiredKind(r.core.phase);
    NothingMissing(RequiredKinds(r.core.phase), [r]);
  }

  lemma SealMovesFrontier(
    phases: seq<PhaseEntry>, receipts: seq<Receipt>, n: nat, open: PhaseEntry, sealed: PhaseEntry, r: Receipt)
    requires Frontier(phases, receipts, n) && n < PHASE_COUNT
    requires Terminal(sealed.status) && r.core.phase == PhaseAt(n)
    ensures Frontier(phases[n := open][n := sealed], receipts + [r], n + 1)
  {
    IndexOfPhaseAt(n);
  }

  lemma SealPermitted(d: Digests, j: Journey, n: nat, before: Journey, r: Receipt, text: Text, at: int)
    requires n < PHASE_COUNT && Frontier(before.core.phases, before.core.receipts, n)
      && Attending(d, j, n, before, r, at)
    requires r.core.phase == PhaseAt(n) && r.core.kind == RequiredKind(PhaseAt(n)) && text != []
    ensures FindPhase(j.core.phases, PhaseAt(n)) == n
    ensures Permitted(d, j, Sealed(n, text), at)
  {
    IndexOfPhaseAt(n);
    FindPhaseIsIndex(j.core.phases, j.core.receipts, PhaseAt(n));
    assert DefinitionKept(j.core.phases[n], n);
    OnlyReceipt(j.core, PhaseAt(n), r, before.core.receipts);
    RequiredReceiptSuffices(r);
  }

  lemma SealedIsStanding(d: Digests, j: Journey, n: nat, before: Journey, r: Receipt, text: Text, actor: Text, at: int)
    requires n < PHASE_COUNT && Frontier(before.core.phases, before.core.receipts, n)
      && Attending(d, j, n, before, r, at)
    requires Trim(before.core.journeyId) != [] && r.core.phase == PhaseAt(n)
    requires Permitted(d, j, Sealed(n, text), at)
    ensures
      var next := Changed(d, j, Sealed(n, text), actor, at);
      && Standing(d, next, n + 1, at) && next.core.receipts == before.core.receipts + [r]
      && next.core.journeyId == before.core.journeyId && next.core.cutoff == before.core.cutoff
  {
    var next := Changed(d, j, Sealed(n, text), actor, at);
    ChangeIsSound(d, j, Sealed(n, text), actor, at);
    SealMovesFrontier(before.core.phases, before.core.receipts, n, j.core.phases[n], next.core.phases[n], r);
    assert next.core.phases == before.core.phases[n := j.core.phases[n]][n := next.core.phases[n]];
  }

  lemma SealAttending(d: Digests, j: Journey, n: nat, before: Journey, r: Receipt, summary: Text, actor: Text, at: int)
    requires n < PHASE_COUNT && Frontier(before.core.phases, before.core.receipts, n)
      && Attending(d, j, n, before, r, at)
    requires Trim(before.core.journeyId) != []
    requires r.core.phase == PhaseAt(n) && r.core.kind == RequiredKind(PhaseAt(n))
    requires Trim(actor) != [] && Trim(summary) != [] && |Trim(summary)| <= SUMMARY_LIMIT
    ensures
      var q := CompletedPhase(d, j, Some(PhaseAt(n)), summary, NoClaim, actor, Some(at));
      && q.Ok? && Standing(d, q.value, n + 1, at) && q.value.core.receipts == before.core.receipts + [r]
      && q.value.core.journeyId == before.core.journeyId && q.value.core.cutoff == before.core.cutoff
  {
    SealPermitted(d, j, n, before, r, Trim(summary), at);
    CompleteSucceeds(d, j, PhaseAt(n), summary, actor, at);
    SealedIsStanding(d, j, n, before, r, Trim(summary), Trim(actor), at);
  }

  // ---------------------------------------------------------------------
  // The three in a row

  ghost function Traversed(
    d: Digests, j: Journey, p: Phase, e: Evidence, summary: Text, actor: Text, at: int): Result<Journey>
  {
    var started := StartedPhase(d, j, Some(p), actor, Some(at));
    if started.Err? then Err(started.error)
    else
      var recorded := RecordedEvidence(d, started.value, Some(p), e, actor, Some(at));
      if recorded.Err? then Err(recorded.error)
      else CompletedPhase(d, recorded.value.journey, Some(p), summary, NoClaim, actor, Some(at))
  }

  lemma TraversedIsCompleted(
    d: Digests, j: Journey, p: Phase, e: Evidence, summary: Text, actor: Text, at: int, started: Journey,
    recorded: Recorded)
    requires StartedPhase(d, j, Some(p), actor, Some(at)) == Ok(started)
    requires RecordedEvidence(d, started, Some(p), e, actor, Some(at)) == Ok(recorded)
    ensures Traversed(d, j, p, e, summary, actor, at)
         == CompletedPhase(d, recorded.journey, Some(p), summary, NoClaim, actor, Some(at))
  {
  }

  /** A standing journey takes its next phase from start to close in one go, leaving one receipt behind. */
  lemma TraversalSucceeds(d: Digests, j: Journey, n: nat, e: Evidence, summary: Text, actor: Text, at: int)
    requires Standing(d, j, n, at) && n < PHASE_COUNT && DistinctIds(d)
    requires Trim(actor) != [] && Trim(summary) != [] && |Trim(summary)| <= SUMMARY_LIMIT
    requires IssueReceipt(d.evidence, j.core.journeyId, PhaseAt(n), j.core.cutoff, e, at).Issued?
    requires e.kind == Some(RequiredKind(PhaseAt(n)))
    ensures
      var r := IssueReceipt(d.evidence, j.core.journeyId, PhaseAt(n), j.core.cutoff, e, at).receipt;
      var q := Traversed(d, j, PhaseAt(n), e, summary, actor, at);
      && q.Ok? && Standing(d, q.value, n + 1, at) && q.value.core.receipts == j.core.receipts + [r]
      && q.value.core.journeyId == j.core.journeyId && q.value.core.cutoff == j.core.cutoff
  {
    var started, recorded := OpenAndAttach(d, j, n, e, actor, at);
    TraversedIsCompleted(d, j, PhaseAt(n), e, summary, actor, at, started, recorded);
    IssuedKind(d, j, n, e, at);
    SealAttending(d, recorded.journey, n, j, recorded.receipt, summary, actor, at);
  }

  lemma IssuedKind(d: Digests, j: Journey, n: nat, e: Evidence, at: int)
    requires n < PHASE_COUNT
    requires IssueReceipt(d.evidence, j.core.journeyId, PhaseAt(n), j.core.cutoff, e, at).Issued?
    ensures
      var r := IssueReceipt(d.evidence, j.core.journeyId, PhaseAt(n), j.core.cutoff, e, at).receipt;
      && r.core.phase == PhaseAt(n) && e.kind == Some(r.core.kind) && e.availability == Some(r.core.availability)
  {
  }
}
