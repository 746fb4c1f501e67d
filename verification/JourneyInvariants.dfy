// Every journey reachable by start, record and complete passes the integrity
// check; closed phases form a prefix, never change again, and carry the status
// their receipts imply.

module JourneyInvariants {
  import opened Wrappers
  import opened JsText
  import opened AnalyticalCatalog
  import opened AnalyticalEvidence
  import opened AnalyticalJourney
  import opened JourneyOperations

  /** A closed phase says what its receipts, as held now, imply; an open one has no reason codes. */
  ghost predicate Assessed(e: PhaseEntry, receipts: seq<Receipt>) {
    if Terminal(e.status) then
      var a := AssessPhaseEvidence(e.requiredKinds, ReceiptsOf(receipts, e.phase));
      a.missing == [] && e.status == a.status && e.reasonCodes == a.reasonCodes
    else e.reasonCodes == []
  }

  ghost predicate AllAssessed(j: JourneyCore) {
    forall i :: 0 <= i < |j.phases| ==> Assessed(j.phases[i], j.receipts)
  }

  /** The active phase is the one right after the closed prefix. */
  ghost predicate ActiveIsNext(phases: seq<PhaseEntry>) {
    forall i, k :: 0 <= i < k < |phases| && phases[k].status.InProgress? ==> Terminal(phases[i].status)
  }

  /** What the integrity check sees, and the one thing it misses. */
  ghost predicate Orderly(d: Digests, j: Journey) {
    Integrity(d, j) && ActiveIsNext(j.core.phases)
  }

  ghost predicate Sound(d: Digests, j: Journey) {
    Orderly(d, j) && AllAssessed(j.core)
  }

  // ---------------------------------------------------------------------
  // Lookups

  lemma FindPhaseIsIndex(phases: seq<PhaseEntry>, receipts: seq<Receipt>, p: Phase)
    requires PhasesOk(phases, receipts)
    ensures FindPhase(phases, p) == Index(p)
  {
    assert DefinitionKept(phases[Index(p)], Index(p));
    var i := FindPhase(phases, p);
    assert i <= Index(p);
    assert DefinitionKept(phases[i], i);
    IndexOfPhaseAt(i);
  }

  lemma FindReceiptOfMember(receipts: seq<Receipt>, r: Receipt)
    requires r in receipts
    requires forall i, k :: 0 <= i < k < |receipts| ==> receipts[i].id != receipts[k].id
    ensures FindReceipt(receipts, r.id) < |receipts| && receipts[FindReceipt(receipts, r.id)] == r
  {
  }

  lemma {:induction false} FindReceiptInExtension(receipts: seq<Receipt>, r: Receipt, id: Text)
    requires FindReceipt(receipts, id) < |receipts|
    ensures FindReceipt(receipts + [r], id) == FindReceipt(receipts, id)
  {
    assert (receipts + [r])[0] == receipts[0];
    if receipts[0].id != id {
      assert (receipts + [r])[1..] == receipts[1..] + [r];
      FindReceiptInExtension(receipts[1..], r, id);
    }
  }

  lemma {:induction false} ReceiptsOfExtension(receipts: seq<Receipt>, r: Receipt, p: Phase)
    ensures ReceiptsOf(receipts + [r], p) == ReceiptsOf(receipts, p) + if r.core.phase == p then [r] else []
  {
    if receipts == [] {
      assert receipts + [r] == [r];
    } else {
      assert (receipts + [r])[0] == receipts[0] && (receipts + [r])[1..] == receipts[1..] + [r];
      ReceiptsOfExtension(receipts[1..], r, p);
    }
  }

  // ---------------------------------------------------------------------
  // One more event

  /** `core` is an orderly journey's record with some phases or receipts replaced, its trail untouched. */
  ghost predicate Pending(d: Digests, core: JourneyCore, at: int) {
    && PhasesOk(core.phases, core.receipts)
    && ReceiptsOk(d, core)
    && BindingsOk(core)
    && ActiveIsNext(core.phases)
    && ChainOk(d, core.journeyId, core.events)
    && core.phaseOrder == PhaseOrder()
    && core.revision == |core.events| - 1
    && core.events[|core.events| - 1].core.occurredAt <= at
  }

  lemma AppendIsOrderly(d: Digests, core: JourneyCore, actor: Text, at: int, details: EventDetails)
    requires Pending(d, core, at)
    ensures Orderly(d, Append(d, core, actor, at, details))
  {
    var j := Append(d, core, actor, at, details);
    AppendKeepsChain(d, core, actor, at, details);
    assert ReceiptsOk(d, j.core) by {
      forall i | 0 <= i < |core.receipts|
        ensures Genuine(d.evidence, j.core.receipts[i], j.core.journeyId, None, j.core.cutoff)
      {
        assert Genuine(d.evidence, core.receipts[i], core.journeyId, None, core.cutoff);
      }
    }
  }

  // ---------------------------------------------------------------------
  // Each operation keeps the order of phases, and with it the integrity check

  lemma FreshEntriesFit()
    ensures PhasesOk(FreshEntries(), []) && ActiveIsNext(FreshEntries())
    ensures forall i :: 0 <= i < PHASE_COUNT ==> Assessed(FreshEntries()[i], [])
  {
    var entries := FreshEntries();
    forall i | 0 <= i < PHASE_COUNT
      ensures DefinitionKept(entries[i], i) && EntryShape(entries[i], []) && Assessed(entries[i], [])
    {
      IndexOfPhaseAt(i);
    }
  }

  lemma FirstEventIsChain(d: Digests, core: EventCore)
    requires core.sequence == 1 && core.previousHash.None?
    ensures ChainOk(d, core.journeyId, [BuildEvent(d, core)])
  {
  }

  /** Ten untouched phases, no receipt and one first event make a sound journey. */
  lemma FirstJourneyIsSound(d: Digests, core: JourneyCore, first: EventCore)
    requires core.phases == FreshEntries() && core.receipts == [] && core.phaseOrder == PhaseOrder()
    requires core.events == [BuildEvent(d, first)] && core.revision == 0 && core.updatedAt == first.occurredAt
    requires first.sequence == 1 && first.previousHash.None? && first.journeyId == core.journeyId
    ensures Sound(d, Finalize(d, core))
  {
    FreshEntriesFit();
    FirstEventIsChain(d, first);
  }

  lemma CreatedIsSound(d: Digests, c: Creation)
    requires CreateJourney(d, c).Ok?
    ensures Sound(d, CreateJourney(d, c).value)
  {
    var core := CreateJourney(d, c).value.core;
    FirstJourneyIsSound(d, core.(status := NotStarted), core.events[0].core);
  }

  /** Replacing the first open entry by an entry of the right shape keeps the phase list in order. */
  lemma ReplaceEntry(j: JourneyCore, i: nat, target: PhaseEntry)
    requires PhasesOk(j.phases, j.receipts) && ActiveIsNext(j.phases) && i < PHASE_COUNT
    requires !Terminal(j.phases[i].status)
    requires DefinitionKept(target, i) && EntryShape(target, j.receipts)
    requires target.status.InProgress? || Terminal(target.status)
    requires forall k :: 0 <= k < i ==> Terminal(j.phases[k].status)
    ensures PhasesOk(j.phases[i := target], j.receipts)
    ensures ActiveIsNext(j.phases[i := target])
  {
  }

  lemma PriorPhasesClosed(j: JourneyCore, i: nat)
    requires PhasesOk(j.phases, j.receipts) && i < PHASE_COUNT
    ensures !PriorPhaseOpen(j.phases, j.phases[i].ordinal) <==> forall k :: 0 <= k < i ==> Terminal(j.phases[k].status)
  {
    assert DefinitionKept(j.phases[i], i);
    forall k | 0 <= k < PHASE_COUNT ensures j.phases[k].ordinal == k + 1 {
      assert DefinitionKept(j.phases[k], k);
    }
    PriorPhaseOpenMeans(j.phases, j.phases[i].ordinal);
  }

  lemma OpeningIsPending(d: Digests, j: Journey, i: nat, at: int)
    requires Orderly(d, j) && Permitted(d, j, Opened(i), at)
    ensures Pending(d, ChangedCore(j.core, Opened(i), at), at)
  {
    var current := j.core.phases[i];
    assert DefinitionKept(current, i) && EntryShape(current, j.core.receipts);
    PriorPhasesClosed(j.core, i);
    ReplaceEntry(j.core, i, OpenedEntry(current, at));
    ReplaceKeepsBindings(j.core, i, OpenedEntry(current, at));
  }

  lemma ReplaceKeepsBindings(j: JourneyCore, i: nat, target: PhaseEntry)
    requires BindingsOk(j) && i < |j.phases|
    requires forall id :: id in target.receiptIds ==> Bound(j.receipts, id, target.phase)
    ensures BindingsOk(j.(phases := j.phases[i := target]))
  {
  }

  /** A receipt for a phase that is still open leaves the receipts of every closed phase as they were. */
  lemma NewReceiptKeepsEntry(j: JourneyCore, r: Receipt, i: nat)
    requires PhasesOk(j.phases, j.receipts) && i < PHASE_COUNT
    requires !Terminal(j.phases[Index(r.core.phase)].status)
    ensures EntryShape(j.phases[i], j.receipts + [r])
    ensures Assessed(j.phases[i], j.receipts) ==> Assessed(j.phases[i], j.receipts + [r])
  {
    assert DefinitionKept(j.phases[i], i) && EntryShape(j.phases[i], j.receipts);
    IndexOfPhaseAt(i);
    ReceiptsOfExtension(j.receipts, r, j.phases[i].phase);
    if Terminal(j.phases[i].status) {
      assert r.core.phase != j.phases[i].phase;
      assert ReceiptsOf(j.receipts + [r], j.phases[i].phase) == ReceiptsOf(j.receipts, j.phases[i].phase);
    }
  }

  lemma NewReceiptKeepsBindings(j: JourneyCore, r: Receipt)
    requires BindingsOk(j)
    ensures BindingsOk(j.(receipts := j.receipts + [r]))
  {
    forall e, id | e in j.phases && id in e.receiptIds ensures Bound(j.receipts + [r], id, e.phase) {
      assert Bound(j.receipts, id, e.phase);
      FindReceiptInExtension(j.receipts, r, id);
    }
  }

  lemma NewReceiptKeepsReceipts(d: Digests, j: JourneyCore, r: Receipt)
    requires ReceiptsOk(d, j) && Genuine(d.evidence, r, j.journeyId, None, j.cutoff)
    requires FindReceipt(j.receipts, r.id) == |j.receipts|
    ensures ReceiptsOk(d, j.(receipts := j.receipts + [r]))
  {
  }

  lemma AttachingIsPending(d: Digests, j: Journey, r: Receipt, at: int)
    requires Orderly(d, j) && Permitted(d, j, Attached(r), at)
    ensures Pending(d, ChangedCore(j.core, Attached(r), at), at)
  {
    FindPhaseIsIndex(j.core.phases, j.core.receipts, r.core.phase);
    forall i | 0 <= i < PHASE_COUNT
      ensures DefinitionKept(j.core.phases[i], i) && EntryShape(j.core.phases[i], j.core.receipts + [r])
    {
      NewReceiptKeepsEntry(j.core, r, i);
    }
    NewReceiptKeepsBindings(j.core, r);
    NewReceiptKeepsReceipts(d, j.core, r);
  }

  lemma SealedIdsAreBound(d: Digests, j: JourneyCore, p: Phase)
    requires ReceiptsOk(d, j)
    ensures forall id :: id in IdsOf(ReceiptsOf(j.receipts, p)) ==> Bound(j.receipts, id, p)
  {
    var receipts := ReceiptsOf(j.receipts, p);
    forall id | id in IdsOf(receipts) ensures Bound(j.receipts, id, p) {
      var k :| 0 <= k < |receipts| && receipts[k].id == id;
      ReceiptsOfMembers(j.receipts, p, receipts[k]);
      FindReceiptOfMember(j.receipts, receipts[k]);
    }
  }

  lemma SealedEntryFits(j: JourneyCore, i: nat, text: Text, at: int)
    requires PhasesOk(j.phases, j.receipts) && i < PHASE_COUNT && text != []
    requires j.phases[i].status.InProgress?
    requires AssessPhaseEvidence(j.phases[i].requiredKinds, ReceiptsOf(j.receipts, j.phases[i].phase)).missing == []
    ensures
      var target := SealedEntry(j.phases[i], ReceiptsOf(j.receipts, j.phases[i].phase), text, at);
      && DefinitionKept(target, i) && EntryShape(target, j.receipts) && Assessed(target, j.receipts)
      && Terminal(target.status)
  {
  }

  lemma SealingIsPending(d: Digests, j: Journey, i: nat, text: Text, at: int)
    requires Orderly(d, j) && Permitted(d, j, Sealed(i, text), at)
    ensures Pending(d, ChangedCore(j.core, Sealed(i, text), at), at)
  {
    var e := j.core.phases[i];
    var target := SealedEntry(e, ReceiptsOf(j.core.receipts, e.phase), text, at);
    SealedEntryFits(j.core, i, text, at);
    ReplaceEntry(j.core, i, target);
    SealedIdsAreBound(d, j.core, e.phase);
    ReplaceKeepsBindings(j.core, i, target);
  }

  lemma ChangeIsOrderly(d: Digests, j: Journey, ch: Change, actor: Text, at: int)
    requires Orderly(d, j) && Permitted(d, j, ch, at)
    ensures Orderly(d, Changed(d, j, ch, actor, at))
  {
    match ch {
      case Unchanged =>
      case Opened(i) => OpeningIsPending(d, j, i, at);
      case Attached(r) => AttachingIsPending(d, j, r, at);
      case Sealed(i, text) => SealingIsPending(d, j, i, text, at);
    }
    if !ch.Unchanged? {
      AppendIsOrderly(d, ChangedCore(j.core, ch, at), actor, at, ChangeDetails(d, j.core, ch));
    }
  }

  lemma ChangeIsAssessed(d: Digests, j: Journey, ch: Change, at: int)
    requires PhasesOk(j.core.phases, j.core.receipts) && AllAssessed(j.core) && Permitted(d, j, ch, at)
    ensures AllAssessed(ChangedCore(j.core, ch, at))
  {
    match ch {
      case Unchanged =>
      case Opened(i) => assert Assessed(j.core.phases[i], j.core.receipts);
      case Attached(r) =>
        FindPhaseIsIndex(j.core.phases, j.core.receipts, r.core.phase);
        forall i | 0 <= i < PHASE_COUNT ensures Assessed(j.core.phases[i], j.core.receipts + [r]) {
          NewReceiptKeepsEntry(j.core, r, i);
        }
      case Sealed(i, text) => SealedEntryFits(j.core, i, text, at);
    }
  }

  lemma AppendKeepsAssessed(d: Digests, core: JourneyCore, actor: Text, at: int, details: EventDetails)
    requires AllAssessed(core)
    ensures AllAssessed(Append(d, core, actor, at, details).core)
  {
    forall i | 0 <= i < |core.phases| ensures Assessed(core.phases[i], core.receipts) {
    }
  }

  lemma ChangeIsSound(d: Digests, j: Journey, ch: Change, actor: Text, at: int)
    requires Sound(d, j) && Permitted(d, j, ch, at)
    ensures Sound(d, Changed(d, j, ch, actor, at))
  {
    ChangeIsOrderly(d, j, ch, actor, at);
    if !ch.Unchanged? {
      ChangeIsAssessed(d, j, ch, at);
      AppendKeepsAssessed(d, ChangedCore(j.core, ch, at), actor, at, ChangeDetails(d, j.core, ch));
    }
  }

  /** Each command keeps a sound journey sound. */
  lemma StepIsSound(d: Digests, j: Journey, c: Command)
    requires Sound(d, j)
    ensures Sound(d, Step(d, j, c))
  {
    var ch, actor, t := StepIsChange(d, j, c);
    ChangeIsSound(d, j, ch, actor, t);
  }

  // ---------------------------------------------------------------------
  // Runs

  lemma {:induction false} RunIsSound(d: Digests, j: Journey, commands: seq<Command>)
    requires Sound(d, j)
    ensures Sound(d, Run(d, j, commands))
  {
    if commands != [] {
      RunIsSound(d, j, commands[..|commands| - 1]);
      StepIsSound(d, Run(d, j, commands[..|commands| - 1]), commands[|commands| - 1]);
    }
  }

  /** Safety over whole runs: no sequence of commands leads to a journey the integrity check rejects. */
  lemma ReachableIsSound(d: Digests, c: Creation, commands: seq<Command>)
    requires CreateJourney(d, c).Ok?
    ensures Sound(d, Run(d, CreateJourney(d, c).value, commands))
  {
    CreatedIsSound(d, c);
    RunIsSound(d, CreateJourney(d, c).value, commands);
  }

  function ClosedCount(phases: seq<PhaseEntry>): (n: nat)
    ensures n <= |phases|
    ensures forall i :: 0 <= i < n ==> Terminal(phases[i].status)
    ensures n < |phases| ==> !Terminal(phases[n].status)
  {
    if phases != [] && Terminal(phases[0].status) then 1 + ClosedCount(phases[1..]) else 0
  }

  lemma ShapeOf(phases: seq<PhaseEntry>, i: nat)
    requires |phases| == PHASE_COUNT && SequenceKept(phases, PHASE_COUNT) && ActiveIsNext(phases)
    requires i < PHASE_COUNT
    ensures Terminal(phases[i].status) <==> i < ClosedCount(phases)
    ensures i > ClosedCount(phases) ==> phases[i].status.NotStarted?
  {
  }

  /** Closed phases are a prefix of the catalog; only the phase after it may be active; the rest is untouched. */
  lemma ReachableShape(d: Digests, c: Creation, commands: seq<Command>)
    requires CreateJourney(d, c).Ok?
    ensures
      var phases := Run(d, CreateJourney(d, c).value, commands).core.phases;
      var n := ClosedCount(phases);
      && |phases| == PHASE_COUNT
      && (forall i :: 0 <= i < PHASE_COUNT ==> (Terminal(phases[i].status) <==> i < n))
      && (forall i :: n < i < PHASE_COUNT ==> phases[i].status.NotStarted?)
  {
    ReachableIsSound(d, c, commands);
    var j := Run(d, CreateJourney(d, c).value, commands);
    forall i | 0 <= i < PHASE_COUNT
      ensures Terminal(j.core.phases[i].status) <==> i < ClosedCount(j.core.phases)
      ensures i > ClosedCount(j.core.phases) ==> j.core.phases[i].status.NotStarted?
    {
      ShapeOf(j.core.phases, i);
    }
  }

  /** The status and reason codes of a closed phase are those of the receipts the journey holds for it now. */
  lemma ReachableStatusesAreEarned(d: Digests, c: Creation, commands: seq<Command>, i: nat)
    requires CreateJourney(d, c).Ok? && i < PHASE_COUNT
    ensures
      var j := Run(d, CreateJourney(d, c).value, commands);
      && |j.core.phases| == PHASE_COUNT
      && var e := j.core.phases[i];
      var a := AssessPhaseEvidence(RequiredKinds(PhaseAt(i)), ReceiptsOf(j.core.receipts, PhaseAt(i)));
      Terminal(e.status) ==> e.status == a.status && e.reasonCodes == a.reasonCodes && a.missing == []
  {
    ReachableIsSound(d, c, commands);
    var j := Run(d, CreateJourney(d, c).value, commands);
    assert DefinitionKept(j.core.phases[i], i) && Assessed(j.core.phases[i], j.core.receipts);
  }

  lemma ChangeKeepsClosed(d: Digests, j: Journey, ch: Change, actor: Text, at: int, i: nat)
    requires PhasesOk(j.core.phases, j.core.receipts) && Permitted(d, j, ch, at)
    requires i < PHASE_COUNT && Terminal(j.core.phases[i].status)
    ensures
      var next := Changed(d, j, ch, actor, at);
      && |next.core.phases| == PHASE_COUNT && next.core.phases[i] == j.core.phases[i]
      && ReceiptsOf(next.core.receipts, PhaseAt(i)) == ReceiptsOf(j.core.receipts, PhaseAt(i))
  {
    if ch.Attached? {
      FindPhaseIsIndex(j.core.phases, j.core.receipts, ch.receipt.core.phase);
      IndexOfPhaseAt(i);
      ReceiptsOfExtension(j.core.receipts, ch.receipt, PhaseAt(i));
    }
  }

  lemma StepKeepsClosed(d: Digests, j: Journey, c: Command, i: nat)
    requires Sound(d, j) && i < PHASE_COUNT && Terminal(j.core.phases[i].status)
    ensures |Step(d, j, c).core.phases| == PHASE_COUNT && Step(d, j, c).core.phases[i] == j.core.phases[i]
    ensures ReceiptsOf(Step(d, j, c).core.receipts, PhaseAt(i)) == ReceiptsOf(j.core.receipts, PhaseAt(i))
  {
    var ch, actor, t := StepIsChange(d, j, c);
    ChangeKeepsClosed(d, j, ch, actor, t, i);
  }

  /** The phase and the receipts it rests on are the same in both journeys. */
  ghost predicate PhaseKept(j: Journey, k: Journey, i: nat) {
    && i < PHASE_COUNT == |j.core.phases| == |k.core.phases|
    && k.core.phases[i] == j.core.phases[i]
    && ReceiptsOf(k.core.receipts, PhaseAt(i)) == ReceiptsOf(j.core.receipts, PhaseAt(i))
  }

  lemma {:induction false} RunKeepsClosed(d: Digests, j: Journey, commands: seq<Command>, i: nat)
    requires Sound(d, j) && i < PHASE_COUNT && Terminal(j.core.phases[i].status)
    ensures PhaseKept(j, Run(d, j, commands), i)
  {
    if commands != [] {
      var before := commands[..|commands| - 1];
      RunKeepsClosed(d, j, before, i);
      RunIsSound(d, j, before);
      StepKeepsClosed(d, Run(d, j, before), commands[|commands| - 1], i);
    }
  }

  lemma {:induction false} RunInTwoParts(d: Digests, j: Journey, earlier: seq<Command>, later: seq<Command>)
    ensures Run(d, j, earlier + later) == Run(d, Run(d, j, earlier), later)
  {
    if later == [] {
      assert earlier + later == earlier;
    } else {
      var n := |later| - 1;
      assert (earlier + later)[..|earlier + later| - 1] == earlier + later[..n];
      RunInTwoParts(d, j, earlier, later[..n]);
    }
  }

  /** Once closed, a phase never changes again, and neither do the receipts it rests on. */
  lemma ClosedForever(d: Digests, c: Creation, earlier: seq<Command>, later: seq<Command>, i: nat)
    requires CreateJourney(d, c).Ok? && i < PHASE_COUNT
    requires
      var j := Run(d, CreateJourney(d, c).value, earlier);
      |j.core.phases| == PHASE_COUNT && Terminal(j.core.phases[i].status)
    ensures PhaseKept(
      Run(d, CreateJourney(d, c).value, earlier), Run(d, CreateJourney(d, c).value, earlier + later), i)
  {
    ReachableIsSound(d, c, earlier);
    RunInTwoParts(d, CreateJourney(d, c).value, earlier, later);
    RunKeepsClosed(d, Run(d, CreateJourney(d, c).value, earlier), later, i);
  }

  // ---------------------------------------------------------------------
  // What the integrity check alone is worth

  /** The integrity check is inductive together with the order of the active phase. */
  lemma StepIsOrderly(d: Digests, j: Journey, c: Command)
    requires Orderly(d, j)
    ensures Orderly(d, Step(d, j, c))
  {
    var ch, actor, t := StepIsChange(d, j, c);
    ChangeIsOrderly(d, j, ch, actor, t);
  }

  lemma StartCheckedSucceeds(d: Digests, j: Journey, p: Phase, actor: Text, at: int)
    requires Trim(actor) != [] && j.core.updatedAt <= at
    requires FindPhase(j.core.phases, p) < |j.core.phases|
    requires Permitted(d, j, Opened(FindPhase(j.core.phases, p)), at)
    ensures StartedChecked(d, j, Some(p), actor, Some(at))
         == Ok(Changed(d, j, Opened(FindPhase(j.core.phases, p)), Trim(actor), at))
  {
  }

  lemma StartSucceeds(d: Digests, j: Journey, p: Phase, actor: Text, at: int)
    requires Integrity(d, j) && Trim(actor) != [] && j.core.updatedAt <= at
    requires FindPhase(j.core.phases, p) < |j.core.phases|
    requires Permitted(d, j, Opened(FindPhase(j.core.phases, p)), at)
    ensures StartedPhase(d, j, Some(p), actor, Some(at))
         == Ok(Changed(d, j, Opened(FindPhase(j.core.phases, p)), Trim(actor), at))
  {
    StartCheckedSucceeds(d, j, p, actor, at);
  }

  lemma TwoActivePhasesFail(d: Digests, j: Journey, i: nat, k: nat)
    requires i < k < |j.core.phases| && j.core.phases[i].status.InProgress? && j.core.phases[k].status.InProgress?
    ensures !Integrity(d, j)
  {
  }

  /** The command that brings a journey active out of turn down: start its first open phase. */
  ghost function StartFirstOpen(j: Journey, actor: Text): Command
    requires ClosedCount(j.core.phases) < PHASE_COUNT
  {
    Start(Some(PhaseAt(ClosedCount(j.core.phases))), actor, Some(j.core.updatedAt))
  }

  lemma FirstOpenIsIdle(d: Digests, j: Journey) returns (k: nat)
    requires Integrity(d, j) && !ActiveIsNext(j.core.phases)
    ensures ClosedCount(j.core.phases) < k < PHASE_COUNT == |j.core.phases| && j.core.phases[k].status.InProgress?
    ensures j.core.phases[ClosedCount(j.core.phases)].status.NotStarted?
  {
    var i: nat, m: nat :| i < m < |j.core.phases| && j.core.phases[m].status.InProgress?
      && !Terminal(j.core.phases[i].status);
    k := m;
  }

  lemma OutOfTurnBreaks(d: Digests, j: Journey, actor: Text)
    requires Integrity(d, j) && !ActiveIsNext(j.core.phases) && Trim(actor) != []
    ensures ClosedCount(j.core.phases) < PHASE_COUNT
    ensures !Integrity(d, Step(d, j, StartFirstOpen(j, actor)))
  {
    var k := FirstOpenIsIdle(d, j);
    var n := ClosedCount(j.core.phases);
    IndexOfPhaseAt(n);
    FindPhaseIsIndex(j.core.phases, j.core.receipts, PhaseAt(n));
    PriorPhasesClosed(j.core, n);
    StartSucceeds(d, j, PhaseAt(n), actor, j.core.updatedAt);
    TwoActivePhasesFail(d, Step(d, j, StartFirstOpen(j, actor)), n, k);
  }

  /**
   * The integrity check alone survives every command exactly when the active phase, if there is one, comes right
   * after the closed ones.
   */
  lemma IntegrityIsKeptExactly(d: Digests, j: Journey)
    requires Integrity(d, j)
    ensures (forall c: Command :: Integrity(d, Step(d, j, c))) <==> ActiveIsNext(j.core.phases)
  {
    if ActiveIsNext(j.core.phases) {
      forall c: Command ensures Integrity(d, Step(d, j, c)) {
        StepIsOrderly(d, j, c);
      }
    } else {
      var actor: Text := [65];
      OutOfTurnBreaks(d, j, actor);
      var c := StartFirstOpen(j, actor);
      assert !Integrity(d, Step(d, j, c));
    }
  }

  /** A created journey whose second phase was made active. */
  function ActiveOutOfTurn(d: Digests, j: Journey): Journey
    requires |j.core.phases| == PHASE_COUNT
  {
    Finalize(d, j.core.(phases := j.core.phases[1 := OpenedEntry(j.core.phases[1], 0)]))
  }

  lemma OutOfTurnEntriesFit()
    ensures PhasesOk(FreshEntries()[1 := OpenedEntry(FreshEntries()[1], 0)], [])
  {
    var entries := FreshEntries()[1 := OpenedEntry(FreshEntries()[1], 0)];
    forall i | 0 <= i < PHASE_COUNT ensures DefinitionKept(entries[i], i) && EntryShape(entries[i], []) {
      IndexOfPhaseAt(i);
    }
  }

  lemma ActiveOutOfTurnPasses(d: Digests, c: Creation)
    requires CreateJourney(d, c).Ok?
    ensures
      var j := ActiveOutOfTurn(d, CreateJourney(d, c).value);
      && Integrity(d, j)
      && j.core.phases[0].status.NotStarted? && j.core.phases[1].status.InProgress?
  {
    OutOfTurnEntriesFit();
    FirstEventIsChain(d, CreateJourney(d, c).value.core.events[0].core);
  }

  /** Such journeys exist: one whose second phase is active while its first was never started passes the check. */
  lemma IntegrityAloneIsNotInductive(d: Digests, c: Creation, actor: Text)
    requires CreateJourney(d, c).Ok? && Trim(actor) != []
    ensures
      var j := ActiveOutOfTurn(d, CreateJourney(d, c).value);
      && Integrity(d, j) && ClosedCount(j.core.phases) == 0
      && !Integrity(d, Step(d, j, StartFirstOpen(j, actor)))
  {
    ActiveOutOfTurnPasses(d, c);
    OutOfTurnBreaks(d, ActiveOutOfTurn(d, CreateJourney(d, c).value), actor);
  }
}
