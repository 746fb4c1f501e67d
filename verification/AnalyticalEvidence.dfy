// Backend-issued evidence receipts: issuing, content resolution and verification.

module AnalyticalEvidence {
  import opened Wrappers
  import opened JsText
  import opened AnalyticalCatalog
  import CanonicalJson

  /** A SHA-256 value in lower-case hexadecimal. */
  type Hash = nat

  datatype HashOrigin = BackendHashedPayload | ImmutableSourceHash | BackendAbsenceAssertion

  datatype Source = Source(sourceType: Text, sourceId: Text, version: Option<Text>, ref: Option<Text>)

  datatype ReceiptCore = ReceiptCore(
    journeyId: Text,
    phase: Phase,
    phaseOrdinal: int,
    kind: EvidenceKind,
    source: Source,
    availability: Availability,
    effectiveAt: int,
    cutoff: int,
    contentHash: Hash,
    contentOrigin: HashOrigin,
    qualityFlags: seq<Text>,
    reasonCodes: seq<Text>,
    metadata: Text,
    issuedAt: int)

  datatype Receipt = Receipt(core: ReceiptCore, id: Text, hash: Hash)

  /** What is hashed when unavailable evidence carries neither payload nor source hash. */
  datatype AbsenceClaim = AbsenceClaim(
    kind: EvidenceKind, source: Source, availability: Availability, effectiveAt: int, reasonCodes: seq<Text>)

  /**
   * The hash of each kind of record, a payload's of its JSON text, and the identifier built from 32 digits of a hash.
   */
  datatype ReceiptDigests = ReceiptDigests(
    payload: Text -> Hash,
    receipt: ReceiptCore -> Hash,
    absence: AbsenceClaim -> Hash,
    receiptId: Hash -> Text)

  /** A string is hashed as the JSON text it prints as. */
  function StringHash(d: ReceiptDigests, s: Text): Hash {
    d.payload(CanonicalJson.Quoted(s))
  }

  lemma StringHashTellsApart(d: ReceiptDigests, a: Text, b: Text)
    requires forall x, y :: d.payload(x) == d.payload(y) ==> x == y
    requires StringHash(d, a) == StringHash(d, b)
    ensures a == b
  {
    assert CanonicalJson.Quoted(a) + [] == CanonicalJson.Quoted(b) + [];
    CanonicalJson.QuotedIsUnambiguous(a, b, [], []);
  }

  datatype TimeInput = Missing | Unparsable | At(ms: int)

  datatype SourceHash = NoSourceHash | MalformedSourceHash | Sha(hash: Hash)

  /** A payload as canonicalized before hashing: its JSON text, or a value that JSON cannot carry. */
  datatype Payload = Canonical(text: Text) | NotJson

  /** Caller-supplied evidence; `None` stands for a value its normalizer rejects. */
  datatype Evidence = Evidence(
    claimsReceiptFields: bool,
    effectiveAt: TimeInput,
    kind: Option<EvidenceKind>,
    availability: Option<Availability>,
    source: Option<Source>,
    qualityFlags: Option<seq<Text>>,
    reasonCodes: Option<seq<Text>>,
    payload: Option<Payload>,
    sourceHash: SourceHash,
    metadata: Option<Text>)

  datatype EvidenceError =
    | JourneyIdRequired | ReceiptForgeryAttempt | TimestampInvalid | Lookahead | KindInvalid
    | AvailabilityInvalid | SourceRequired | CodeListInvalid | ReasonRequired | SourceHashInvalid
    | JsonInvalid | SourceHashMismatch | ContentRequired | MetadataInvalid

  datatype Issued = Issued(receipt: Receipt) | Refused(error: EvidenceError)

  datatype Content = Content(hash: Hash, origin: HashOrigin) | NoContent(error: EvidenceError)

  function ResolveContent(d: ReceiptDigests, e: Evidence, absence: AbsenceClaim): Content {
    if e.sourceHash.MalformedSourceHash? then NoContent(SourceHashInvalid)
    else if e.payload == Some(NotJson) then NoContent(JsonInvalid)
    else if e.payload.Some? then
      var h := d.payload(e.payload.value.text);
      if e.sourceHash.Sha? && e.sourceHash.hash != h then NoContent(SourceHashMismatch)
      else Content(h, BackendHashedPayload)
    else if e.sourceHash.Sha? then Content(e.sourceHash.hash, ImmutableSourceHash)
    else if absence.availability.Available? then NoContent(ContentRequired)
    else Content(d.absence(absence), BackendAbsenceAssertion)
  }

  function IssueReceipt(
    d: ReceiptDigests, journeyId: Text, phase: Phase, cutoff: int, e: Evidence, issuedAt: int): Issued
  {
    if Trim(journeyId) == [] then Refused(JourneyIdRequired)
    else if e.claimsReceiptFields then Refused(ReceiptForgeryAttempt)
    else if e.effectiveAt.Unparsable? then Refused(TimestampInvalid)
    else
      var effectiveAt := if e.effectiveAt.At? then e.effectiveAt.ms else cutoff;
      if effectiveAt > cutoff then Refused(Lookahead)
      else if e.kind.None? then Refused(KindInvalid)
      else if e.availability.None? then Refused(AvailabilityInvalid)
      else if e.source.None? then Refused(SourceRequired)
      else if e.qualityFlags.None? || e.reasonCodes.None? then Refused(CodeListInvalid)
      else
        var codes := SortedUnique(e.reasonCodes.value);
        if !e.availability.value.Available? && codes == [] then Refused(ReasonRequired)
        else
          var claim := AbsenceClaim(e.kind.value, e.source.value, e.availability.value, effectiveAt, codes);
          var content := ResolveContent(d, e, claim);
          if content.NoContent? then Refused(content.error)
          else if e.metadata.None? then Refused(MetadataInvalid)
          else
            var core := ReceiptCore(
              journeyId, phase, Ordinal(phase), e.kind.value, e.source.value, e.availability.value,
              effectiveAt, cutoff, content.hash, content.origin,
              SortedUnique(e.qualityFlags.value), codes, e.metadata.value, issuedAt);
            Issued(Receipt(core, d.receiptId(d.receipt(core)), d.receipt(core)))
  }

  datatype ReceiptViolation =
    | PhaseMismatch | JourneyMismatch | PhaseScopeMismatch | CutoffMismatch
    | MissingReason | LookaheadFound | ReceiptHashMismatch | ReceiptIdMismatch

  /** A receipt the backend issued for this journey, and nobody has altered since. */
  ghost predicate Genuine(d: ReceiptDigests, r: Receipt, journeyId: Text, phase: Option<Phase>, cutoff: int) {
    && r.core.phaseOrdinal == Ordinal(r.core.phase)
    && (journeyId != [] ==> r.core.journeyId == journeyId)
    && (phase.Some? ==> r.core.phase == phase.value)
    && r.core.cutoff == cutoff
    && (r.core.availability.Available? || r.core.reasonCodes != [])
    && r.core.effectiveAt <= r.core.cutoff
    && r.hash == d.receipt(r.core)
    && r.id == d.receiptId(d.receipt(r.core))
  }

  method VerifyReceipt(d: ReceiptDigests, r: Receipt, journeyId: Text, phase: Option<Phase>, cutoff: int)
    returns (violations: seq<ReceiptViolation>)
    ensures violations == [] <==> Genuine(d, r, journeyId, phase, cutoff)
  {
    violations := [];
    if r.core.phaseOrdinal != Ordinal(r.core.phase) { violations := violations + [PhaseMismatch]; }
    if journeyId != [] && r.core.journeyId != journeyId { violations := violations + [JourneyMismatch]; }
    if phase.Some? && r.core.phase != phase.value { violations := violations + [PhaseScopeMismatch]; }
    if r.core.cutoff != cutoff { violations := violations + [CutoffMismatch]; }
    if !r.core.availability.Available? && r.core.reasonCodes == [] { violations := violations + [MissingReason]; }
    if r.core.effectiveAt > r.core.cutoff { violations := violations + [LookaheadFound]; }
    if r.hash != d.receipt(r.core) { violations := violations + [ReceiptHashMismatch]; }
    if r.id != d.receiptId(d.receipt(r.core)) { violations := violations + [ReceiptIdMismatch]; }
  }

  /** Whatever is issued verifies, for the phase and cutoff it was issued for. */
  lemma IssuedIsGenuine(
    d: ReceiptDigests, journeyId: Text, phase: Phase, cutoff: int, e: Evidence, issuedAt: int)
    requires IssueReceipt(d, journeyId, phase, cutoff, e, issuedAt).Issued?
    ensures
      var r := IssueReceipt(d, journeyId, phase, cutoff, e, issuedAt).receipt;
      && Genuine(d, r, journeyId, Some(phase), cutoff)
      && Genuine(d, r, journeyId, None, cutoff)
      && (r.core.contentOrigin.BackendHashedPayload? <==> e.payload.Some?)
      && (e.payload.Some? ==>
            e.payload.value.Canonical? && r.core.contentHash == d.payload(e.payload.value.text))
      && (r.core.contentOrigin.BackendAbsenceAssertion? ==> !r.core.availability.Available?)
  {
  }

  /** Complete evidence at the cutoff is issued exactly when JSON can carry its payload, if it has one. */
  lemma CompleteEvidenceIssues(
    d: ReceiptDigests, journeyId: Text, phase: Phase, cutoff: int, e: Evidence, issuedAt: int)
    requires Trim(journeyId) != [] && !e.claimsReceiptFields && e.effectiveAt == At(cutoff)
    requires e.kind.Some? && e.availability.Some? && e.source.Some? && e.metadata.Some?
    requires e.qualityFlags.Some? && e.reasonCodes.Some?
    requires e.availability.value.Available? || e.reasonCodes.value != []
    requires !e.sourceHash.MalformedSourceHash? && (e.payload.Some? ==> e.sourceHash.NoSourceHash?)
    requires e.payload.Some? || e.sourceHash.Sha? || !e.availability.value.Available?
    ensures IssueReceipt(d, journeyId, phase, cutoff, e, issuedAt).Issued? <==> e.payload != Some(NotJson)
    ensures e.payload != Some(NotJson) ==>
      var r := IssueReceipt(d, journeyId, phase, cutoff, e, issuedAt).receipt;
      r.core.phase == phase && e.kind == Some(r.core.kind) && e.availability == Some(r.core.availability)
  {
  }
}
