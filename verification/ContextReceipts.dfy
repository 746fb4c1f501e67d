// Claim-scoped context receipts: which phase a call serves, what makes a
// receipt valid, and the protocol a receipt list must follow.

module ContextReceipts {
  import opened Wrappers
  import opened JsText
  import opened AnalyticalCatalog
  import opened AnalyticalEvidence

  datatype Tool =
    | GetContextCatalog | GetContinuityContext | GetMarketContext | GetMacroContext | GetNewsContext
    | GetThesisEvolutionContext | GetReplaySectionPage | GetMarketDataset | UnknownTool

  datatype Domain = CoreMarketDomain | IndexConfirmationDomain | CrossAssetDomain | MegacapsDomain | UnknownDomain

  datatype Section = ReplayLineage | ReplanContext | MacroCalendar | NewsDigest | OtherSection

  datatype ContextStatus = StatusComplete | StatusDegraded | StatusUnavailable | StatusBlocked | StatusUnknown

  datatype Capability = Capability(
    id: Text, jobId: Text, envelopeHash: Text, scope: Text, workflow: Text,
    createdAt: Option<int>, expiresAt: Option<int>, signingKey: Option<Text>)

  datatype ReceiptBody = ReceiptBody(
    schemaMatches: bool,
    capabilityId: Text, jobId: Text, envelopeHash: Text, scope: Text, workflow: Text,
    tool: Tool, domain: Domain, section: Section,
    phase: Option<Phase>,
    status: ContextStatus,
    result: SourceHash,
    evidenceCount: Option<int>,
    sequence: Option<int>,
    recordedAt: Option<int>,
    receiptId: Text,
    errorCode: Text)

  datatype ContextReceipt = ContextReceipt(body: ReceiptBody, hmac: Text)

  /** `createHmac` over the canonical text of the unsigned receipt. */
  type Signer = (Text, ReceiptBody) -> Text

  function PhaseOfDomain(domain: Domain): Option<Phase> {
    match domain
    case CoreMarketDomain => Some(CoreMarket)
    case IndexConfirmationDomain => Some(IndexConfirmation)
    case CrossAssetDomain => Some(CrossAsset)
    case MegacapsDomain => Some(Megacaps)
    case UnknownDomain => None
  }

  function PhaseForCall(tool: Tool, domain: Domain, section: Section): Option<Phase> {
    match tool
    case GetMarketContext => PhaseOfDomain(domain)
    case GetMarketDataset => PhaseOfDomain(domain)
    case GetReplaySectionPage =>
      (match section
       case ReplayLineage => Some(Continuity)
       case ReplanContext => Some(Continuity)
       case MacroCalendar => Some(Macro)
       case NewsDigest => Some(News)
       case OtherSection => None)
    case GetContinuityContext => Some(Continuity)
    case GetMacroContext => Some(Macro)
    case GetNewsContext => Some(News)
    case GetThesisEvolutionContext => Some(ThesisEvolution)
    case GetContextCatalog => None
    case UnknownTool => None
  }

  ghost predicate ScopeMatches(b: ReceiptBody, c: Capability) {
    && b.schemaMatches
    && c.id != [] && b.capabilityId == c.id
    && c.jobId != [] && b.jobId == c.jobId
    && c.envelopeHash != [] && b.envelopeHash == c.envelopeHash
    && c.scope != [] && b.scope == c.scope
    && c.workflow != [] && b.workflow == c.workflow
  }

  ghost predicate TimelyFor(b: ReceiptBody, c: Capability) {
    && b.recordedAt.Some? && c.createdAt.Some? && c.expiresAt.Some?
    && c.createdAt.value <= b.recordedAt.value <= c.expiresAt.value
  }

  /** The receipt was signed for this capability and describes the call it claims to describe. */
  ghost predicate Valid(sign: Signer, r: ContextReceipt, c: Capability) {
    && ScopeMatches(r.body, c)
    && !r.body.tool.UnknownTool?
    && r.body.phase == PhaseForCall(r.body.tool, r.body.domain, r.body.section)
    && !r.body.status.StatusUnknown?
    && (r.body.result.Sha? || (r.body.result.NoSourceHash? && r.body.status.StatusBlocked?))
    && r.body.evidenceCount.Some? && r.body.evidenceCount.value >= 0
    && r.body.sequence.Some? && r.body.sequence.value >= 1
    && TimelyFor(r.body, c)
    && c.signingKey.Some? && r.hmac != [] && r.hmac == sign(c.signingKey.value, r.body)
  }

  datatype ReceiptFault =
    | ScopeFault | ToolForbidden | PhaseMismatch | StatusInvalid | ResultHashInvalid | ResultHashRequired
    | CountInvalid | SequenceInvalid | TimestampOutOfCapability | SigningKeyInvalid | HmacInvalid

  method VerifyContextReceipt(sign: Signer, r: ContextReceipt, c: Capability) returns (faults: seq<ReceiptFault>)
    ensures faults == [] <==> Valid(sign, r, c)
  {
    faults := [];
    var b := r.body;
    var fields := [(c.id, b.capabilityId), (c.jobId, b.jobId), (c.envelopeHash, b.envelopeHash),
                   (c.scope, b.scope), (c.workflow, b.workflow)];
    if !b.schemaMatches { faults := faults + [ScopeFault]; }
    for i := 0 to |fields|
      invariant faults == [] <==>
        b.schemaMatches && forall k :: 0 <= k < i ==> fields[k].0 != [] && fields[k].1 == fields[k].0
    {
      if fields[i].0 == [] || fields[i].1 != fields[i].0 { faults := faults + [ScopeFault]; }
    }
    assert faults == [] <==> ScopeMatches(b, c) by {
      assert fields[0] == (c.id, b.capabilityId) && fields[1] == (c.jobId, b.jobId);
      assert fields[2] == (c.envelopeHash, b.envelopeHash);
      assert fields[3] == (c.scope, b.scope) && fields[4] == (c.workflow, b.workflow);
    }
    if b.tool.UnknownTool? { faults := faults + [ToolForbidden]; }
    if b.phase != PhaseForCall(b.tool, b.domain, b.section) { faults := faults + [ReceiptFault.PhaseMismatch]; }
    if b.status.StatusUnknown? { faults := faults + [StatusInvalid]; }
    if b.result.MalformedSourceHash? { faults := faults + [ResultHashInvalid]; }
    if !b.status.StatusBlocked? && !b.result.Sha? { faults := faults + [ResultHashRequired]; }
    if b.evidenceCount.None? || b.evidenceCount.value < 0 { faults := faults + [CountInvalid]; }
    if b.sequence.None? || b.sequence.value < 1 { faults := faults + [SequenceInvalid]; }
    if b.recordedAt.None? || c.createdAt.None? || c.expiresAt.None?
      || b.recordedAt.value < c.createdAt.value || b.recordedAt.value > c.expiresAt.value
    {
      faults := faults + [TimestampOutOfCapability];
    }
    if c.signingKey.None? {
      faults := faults + [SigningKeyInvalid];
    } else if r.hmac == [] || r.hmac != sign(c.signingKey.value, b) {
      faults := faults + [HmacInvalid];
    }
  }

  // ---------------------------------------------------------------------
  // The receipt protocol

  /** Receipt `i` is valid, numbered `i + 1` and not older than the one before it. */
  ghost predicate InOrder(sign: Signer, receipts: seq<ContextReceipt>, c: Capability, i: nat)
    requires i < |receipts|
  {
    && Valid(sign, receipts[i], c)
    && receipts[i].body.sequence == Some(i + 1)
    && (i > 0 && receipts[i - 1].body.recordedAt.Some? ==>
          receipts[i - 1].body.recordedAt.value <= receipts[i].body.recordedAt.value)
  }

  ghost predicate Accepted(sign: Signer, receipts: seq<ContextReceipt>, c: Capability) {
    forall i :: 0 <= i < |receipts| ==> InOrder(sign, receipts, c, i)
  }

  ghost predicate CatalogComplete(receipts: seq<ContextReceipt>) {
    receipts != [] && receipts[0].body.tool.GetContextCatalog? && receipts[0].body.status.StatusComplete?
  }

  datatype ProtocolResult =
    | Protocol(catalogIndex: Option<nat>, catalogComplete: bool)
    | ReceiptInvalid(index: nat) | ReceiptOrderInvalid(index: nat) | ReceiptSequenceInvalid(index: nat)

  method ValidateEvidenceProtocol(
    sign: Signer, receipts: seq<ContextReceipt>, c: Capability)
    returns (r: ProtocolResult)
    ensures r.Protocol? <==> Accepted(sign, receipts, c)
    ensures r.Protocol? ==> (r.catalogComplete <==> CatalogComplete(receipts))
    ensures r.Protocol? && r.catalogComplete ==> r.catalogIndex == Some(0)
  {
    var previousTimestamp: Option<int> := None;
    var expectedSequence := 1;
    for i := 0 to |receipts|
      invariant expectedSequence == i + 1
      invariant previousTimestamp == if i == 0 then None else receipts[i - 1].body.recordedAt
      invariant forall k :: 0 <= k < i ==> InOrder(sign, receipts, c, k)
    {
      var faults := VerifyContextReceipt(sign, receipts[i], c);
      if faults != [] {
        assert !InOrder(sign, receipts, c, i);
        return ReceiptInvalid(i);
      }
      var recordedAt := receipts[i].body.recordedAt.value;
      if previousTimestamp.Some? && recordedAt < previousTimestamp.value {
        assert !InOrder(sign, receipts, c, i);
        return ReceiptOrderInvalid(i);
      }
      if receipts[i].body.sequence != Some(expectedSequence) {
        assert !InOrder(sign, receipts, c, i);
        return ReceiptSequenceInvalid(i);
      }
      expectedSequence := expectedSequence + 1;
      previousTimestamp := Some(recordedAt);
    }
    var k := 0;
    while k < |receipts| && !receipts[k].body.tool.GetContextCatalog?
      invariant k <= |receipts|
      invariant forall m :: 0 <= m < k ==> !receipts[m].body.tool.GetContextCatalog?
    {
      k := k + 1;
    }
    var catalogIndex := if k < |receipts| then Some(k) else None;
    return Protocol(catalogIndex, k == 0 && |receipts| > 0 && receipts[0].body.status.StatusComplete?);
  }
}
