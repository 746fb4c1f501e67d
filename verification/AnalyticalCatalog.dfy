// The ten analytical phases, their order, criticality and required evidence.

module AnalyticalCatalog {
  datatype Phase =
    | Continuity | CoreMarket | IndexConfirmation | CrossAsset | Megacaps
    | Macro | News | ThesisEvolution | Opportunity | Conclusion

  datatype Criticality = Hard | Context

  /** Evidence kinds: the ten the catalog requires, and any other symbolic name. */
  datatype EvidenceKind =
    | ContinuityState | CanonicalMarket | IndexConfirmationKind | CrossAssetContext | MegacapContext
    | MacroContext | NewsContext | ThesisState | OpportunitySet | AnalyticalConclusion
    | OtherKind(id: nat)

  datatype PhaseStatus = NotStarted | InProgress | Complete | Degraded | Unavailable | Blocked

  datatype Availability = Available | PartlyAvailable | NotAvailable | Barred

  const PHASE_COUNT := 10

  function PhaseAt(i: nat): Phase
    requires i < PHASE_COUNT
  {
    if i == 0 then Continuity else if i == 1 then CoreMarket else if i == 2 then IndexConfirmation
    else if i == 3 then CrossAsset else if i == 4 then Megacaps else if i == 5 then Macro
    else if i == 6 then News else if i == 7 then ThesisEvolution else if i == 8 then Opportunity
    else Conclusion
  }

  /** Position in the catalog; the source's `ordinal` is this plus one. */
  function Index(p: Phase): (i: nat)
    ensures i < PHASE_COUNT && PhaseAt(i) == p
  {
    match p
    case Continuity => 0
    case CoreMarket => 1
    case IndexConfirmation => 2
    case CrossAsset => 3
    case Megacaps => 4
    case Macro => 5
    case News => 6
    case ThesisEvolution => 7
    case Opportunity => 8
    case Conclusion => 9
  }

  lemma IndexOfPhaseAt(i: nat)
    requires i < PHASE_COUNT
    ensures Index(PhaseAt(i)) == i
  {
  }

  function Ordinal(p: Phase): nat {
    Index(p) + 1
  }

  function CriticalityOf(p: Phase): Criticality {
    if p.Continuity? || p.CoreMarket? || p.ThesisEvolution? || p.Opportunity? || p.Conclusion?
    then Hard else Context
  }

  function RequiredKind(p: Phase): EvidenceKind {
    match p
    case Continuity => ContinuityState
    case CoreMarket => CanonicalMarket
    case IndexConfirmation => IndexConfirmationKind
    case CrossAsset => CrossAssetContext
    case Megacaps => MegacapContext
    case Macro => MacroContext
    case News => NewsContext
    case ThesisEvolution => ThesisState
    case Opportunity => OpportunitySet
    case Conclusion => AnalyticalConclusion
  }

  function RequiredKinds(p: Phase): seq<EvidenceKind> {
    [RequiredKind(p)]
  }

  function PhaseOrder(): (order: seq<Phase>)
    ensures |order| == PHASE_COUNT
    ensures forall i :: 0 <= i < PHASE_COUNT ==> order[i] == PhaseAt(i)
  {
    seq(PHASE_COUNT, i requires 0 <= i < PHASE_COUNT => PhaseAt(i))
  }

  predicate Terminal(s: PhaseStatus) {
    s.Complete? || s.Degraded? || s.Unavailable? || s.Blocked?
  }
}
