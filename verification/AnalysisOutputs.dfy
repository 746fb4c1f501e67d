// The analytical output a session is built from: which values JSON can carry,
// the opportunity view copied out of it, its summary and its intent.

module AnalysisOutputs {
  import opened Wrappers
  import opened JsText
  import opened AnalyticalEvidence
  import opened DecisionGate

  /** The property names the session reads or writes; any other name is its text. */
  datatype Key =
    | SavePayload | AnalysisOutputKey | MonitorOutput | DecisionSummary | DataQualityStatus
    | WorkflowOutput | OpportunityView
    | ExecutionPlan | Disposition | PrimarySetupId | Setups | NoSetupProof
    | Command | RequestedAction | SetupTransition | Transformation | ReplanRequest | ManagementRequest
    | DeltaSummary | NewOpportunities | CommandType | SetupCommand | PositionTransition
    | OtherKey(name: Text)

  /**
   * A JavaScript value: `Instance` is an object of a class, `Callable` a function, symbol or big integer, `Circular`
   * a reference back to an object or array around it. Finite numbers are given by the literal they print as.
   */
  datatype Value =
    | Undefined
    | Null
    | Boolean(flag: bool)
    | Number(literal: Text)
    | NotFinite(nan: bool)
    | String(text: Text)
    | Array(items: seq<Value>)
    | Object(fields: map<Key, Value>)
    | Instance(fields: map<Key, Value>)
    | Callable
    | Circular

  /** What printing and converting values gives; a conversion that throws gives nothing. */
  datatype Conversions = Conversions(
    canonicalText: Value -> Text,
    asText: Value -> Option<Text>,
    upper: Text -> Text)

  /** `canonicalizeJson` accepts the value. */
  predicate JsonSafe(v: Value) {
    match v
    case Null => true
    case Boolean(_) => true
    case Number(_) => true
    case String(_) => true
    case Array(items) => forall i :: 0 <= i < |items| ==> JsonSafe(items[i])
    case Object(fields) => forall key :: key in fields ==> JsonSafe(fields[key])
    case Undefined => false
    case NotFinite(_) => false
    case Instance(_) => false
    case Callable => false
    case Circular => false
  }

  function PayloadOf(c: Conversions, v: Value): Payload {
    if JsonSafe(v) then Canonical(c.canonicalText(v)) else NotJson
  }

  /** An object, and no array. */
  predicate IsObject(v: Value) {
    v.Object? || v.Instance?
  }

  /** Reading a property of a value that may be nullish: `value?.key`. */
  function Field(v: Value, key: Key): Value {
    if IsObject(v) && key in v.fields then v.fields[key] else Undefined
  }

  predicate Given(v: Value) {
    !v.Undefined?
  }

  const ZERO := Ascii("0")

  predicate Truthy(v: Value) {
    match v
    case Undefined => false
    case Null => false
    case Boolean(flag) => flag
    case Number(literal) => literal != ZERO
    case NotFinite(nan) => !nan
    case String(text) => text != []
    case _ => true
  }

  /** `a || b` */
  function OrElse(a: Value, b: Value): Value {
    if Truthy(a) then a else b
  }

  const EMPTY := Object(map[])

  function AsText(c: Conversions, v: Value): Option<Text> {
    if v.String? then Some(v.text) else c.asText(v)
  }

  // ---------------------------------------------------------------------
  // The opportunity view

  function Native(output: Value): Value {
    var saved := Field(output, SavePayload);
    OrElse(OrElse(Field(saved, AnalysisOutputKey), Field(saved, MonitorOutput)), EMPTY)
  }

  function PlanView(plan: Value): Value {
    Object(map[
      Disposition := Field(plan, Disposition),
      PrimarySetupId := Field(plan, PrimarySetupId),
      Setups := Field(plan, Setups),
      NoSetupProof := Field(plan, NoSetupProof)])
  }

  function CommandView(command: Value, opportunities: Value): Value {
    Object(map[
      RequestedAction := Field(command, RequestedAction),
      SetupTransition := Field(command, SetupTransition),
      Transformation := Field(command, Transformation),
      ReplanRequest := Field(command, ReplanRequest),
      ManagementRequest := Field(command, ManagementRequest),
      NewOpportunities := opportunities])
  }

  function OpportunityViewOf(native: Value): Value {
    var plan := Field(native, ExecutionPlan);
    if Truthy(plan) then PlanView(plan)
    else CommandView(Field(native, Command), Field(Field(native, DeltaSummary), NewOpportunities))
  }

  /** `extractOpportunityOutput`: fields are copied whether they are there or not. */
  function OpportunityOutput(output: Value): Value {
    Object(map[
      WorkflowOutput := Field(output, SavePayload),
      DecisionSummary := Field(output, DecisionSummary),
      DataQualityStatus := Field(output, DataQualityStatus),
      OpportunityView := OpportunityViewOf(Native(output))])
  }

  predicate CommandGiven(command: Value) {
    && Given(Field(command, RequestedAction)) && Given(Field(command, SetupTransition))
    && Given(Field(command, Transformation)) && Given(Field(command, ReplanRequest))
    && Given(Field(command, ManagementRequest))
  }

  /** Every field the view copies is there, though it may be null. */
  predicate ViewGiven(native: Value) {
    var plan := Field(native, ExecutionPlan);
    if Truthy(plan) then
      && Given(Field(plan, Disposition)) && Given(Field(plan, PrimarySetupId))
      && Given(Field(plan, Setups)) && Given(Field(plan, NoSetupProof))
    else CommandGiven(Field(native, Command)) && Given(Field(Field(native, DeltaSummary), NewOpportunities))
  }

  predicate AllGiven(output: Value) {
    && Given(Field(output, SavePayload))
    && Given(Field(output, DecisionSummary))
    && Given(Field(output, DataQualityStatus))
    && ViewGiven(Native(output))
  }

  /** A field of a value JSON can carry is missing or can be carried too. */
  lemma FieldIsSafe(v: Value, key: Key)
    requires JsonSafe(v) || v.Undefined?
    ensures Given(Field(v, key)) <==> JsonSafe(Field(v, key))
  {
  }

  lemma NativeIsSafe(output: Value)
    requires JsonSafe(output)
    ensures JsonSafe(Native(output))
  {
    var saved := Field(output, SavePayload);
    FieldIsSafe(output, SavePayload);
    FieldIsSafe(saved, AnalysisOutputKey);
    FieldIsSafe(saved, MonitorOutput);
  }

  lemma OneMoreField(fields: map<Key, Value>, key: Key, v: Value)
    requires key !in fields
    ensures JsonSafe(Object(fields[key := v])) <==> JsonSafe(Object(fields)) && JsonSafe(v)
  {
    var more := fields[key := v];
    assert more[key] == v && forall other :: other in fields ==> other in more && more[other] == fields[other];
  }

  lemma FourFields(k: seq<Key>, v: seq<Value>)
    requires |k| == |v| == 4 && forall i, m :: 0 <= i < m < 4 ==> k[i] != k[m]
    ensures JsonSafe(Object(map[k[0] := v[0], k[1] := v[1], k[2] := v[2], k[3] := v[3]]))
      <==> JsonSafe(v[0]) && JsonSafe(v[1]) && JsonSafe(v[2]) && JsonSafe(v[3])
  {
    OneMoreField(map[], k[0], v[0]);
    OneMoreField(map[k[0] := v[0]], k[1], v[1]);
    OneMoreField(map[k[0] := v[0], k[1] := v[1]], k[2], v[2]);
    OneMoreField(map[k[0] := v[0], k[1] := v[1], k[2] := v[2]], k[3], v[3]);
  }

  lemma ViewIsSafeExactly(native: Value)
    requires JsonSafe(native)
    ensures JsonSafe(OpportunityViewOf(native)) <==> ViewGiven(native)
  {
    var plan, command, delta := Field(native, ExecutionPlan), Field(native, Command), Field(native, DeltaSummary);
    FieldIsSafe(native, ExecutionPlan);
    FieldIsSafe(native, Command);
    FieldIsSafe(native, DeltaSummary);
    if Truthy(plan) {
      PlanViewIsSafeExactly(plan);
    } else {
      CommandViewIsSafeExactly(command, Field(delta, NewOpportunities));
      FieldIsSafe(delta, NewOpportunities);
    }
  }

  lemma PlanViewIsSafeExactly(plan: Value)
    requires JsonSafe(plan) || plan.Undefined?
    ensures JsonSafe(PlanView(plan)) <==>
      Given(Field(plan, Disposition)) && Given(Field(plan, PrimarySetupId))
      && Given(Field(plan, Setups)) && Given(Field(plan, NoSetupProof))
  {
    FourFields([Disposition, PrimarySetupId, Setups, NoSetupProof],
               [Field(plan, Disposition), Field(plan, PrimarySetupId), Field(plan, Setups), Field(plan, NoSetupProof)]);
    FieldIsSafe(plan, Disposition);
    FieldIsSafe(plan, PrimarySetupId);
    FieldIsSafe(plan, Setups);
    FieldIsSafe(plan, NoSetupProof);
  }

  lemma CommandViewIsSafeExactly(command: Value, opportunities: Value)
    requires JsonSafe(command) || command.Undefined?
    ensures JsonSafe(CommandView(command, opportunities)) <==> CommandGiven(command) && JsonSafe(opportunities)
  {
    CommandFields(
      Field(command, RequestedAction), Field(command, SetupTransition), Field(command, Transformation),
      Field(command, ReplanRequest), Field(command, ManagementRequest), opportunities);
    CommandGivenMeans(command);
  }

  lemma CommandFields(a: Value, b: Value, c: Value, d: Value, e: Value, f: Value)
    ensures
      JsonSafe(Object(map[
        RequestedAction := a, SetupTransition := b, Transformation := c, ReplanRequest := d,
        ManagementRequest := e, NewOpportunities := f]))
      <==> JsonSafe(a) && JsonSafe(b) && JsonSafe(c) && JsonSafe(d) && JsonSafe(e) && JsonSafe(f)
  {
    var four := map[RequestedAction := a, SetupTransition := b, Transformation := c, ReplanRequest := d];
    FourFields([RequestedAction, SetupTransition, Transformation, ReplanRequest], [a, b, c, d]);
    OneMoreField(four, ManagementRequest, e);
    OneMoreField(four[ManagementRequest := e], NewOpportunities, f);
  }

  lemma CommandGivenMeans(command: Value)
    requires JsonSafe(command) || command.Undefined?
    ensures CommandGiven(command) <==>
      JsonSafe(Field(command, RequestedAction)) && JsonSafe(Field(command, SetupTransition))
      && JsonSafe(Field(command, Transformation)) && JsonSafe(Field(command, ReplanRequest))
      && JsonSafe(Field(command, ManagementRequest))
  {
    FieldIsSafe(command, RequestedAction);
    FieldIsSafe(command, SetupTransition);
    FieldIsSafe(command, Transformation);
    FieldIsSafe(command, ReplanRequest);
    FieldIsSafe(command, ManagementRequest);
  }

  /** JSON can carry the opportunity output of a decision it can carry exactly when no copied field is missing. */
  lemma OpportunityIsSafeExactly(output: Value)
    requires JsonSafe(output)
    ensures JsonSafe(OpportunityOutput(output)) <==> AllGiven(output)
  {
    NativeIsSafe(output);
    ViewIsSafeExactly(Native(output));
    FourFields([WorkflowOutput, DecisionSummary, DataQualityStatus, OpportunityView],
               [Field(output, SavePayload), Field(output, DecisionSummary), Field(output, DataQualityStatus),
                OpportunityViewOf(Native(output))]);
    FieldIsSafe(output, SavePayload);
    FieldIsSafe(output, DecisionSummary);
    FieldIsSafe(output, DataQualityStatus);
  }

  const PROPOSAL := OtherKey(Ascii("execution_plan_proposal"))

  const SUMMARY := String(Ascii("x"))

  const QUALITY := String(Ascii("ok"))

  const PROPOSED := Object(map[PROPOSAL := EMPTY])

  const PROPOSAL_SAVED := Object(map[AnalysisOutputKey := PROPOSED])

  /** A quality status, a summary and, under `save_payload`, a plan given as a proposal. */
  const PROPOSAL_ONLY := Object(map[
    SavePayload := PROPOSAL_SAVED, DecisionSummary := SUMMARY, DataQualityStatus := QUALITY])

  const SUMMARY_ONLY := Object(map[DecisionSummary := SUMMARY])

  lemma ProposalIsRefused()
    ensures IsObject(PROPOSAL_ONLY) && JsonSafe(PROPOSAL_ONLY) && !AllGiven(PROPOSAL_ONLY)
    ensures !JsonSafe(OpportunityOutput(PROPOSAL_ONLY))
  {
    OneMoreField(map[], PROPOSAL, EMPTY);
    OneMoreField(map[], AnalysisOutputKey, PROPOSED);
    OneMoreField(map[], SavePayload, PROPOSAL_SAVED);
    OneMoreField(map[SavePayload := PROPOSAL_SAVED], DecisionSummary, SUMMARY);
    OneMoreField(map[SavePayload := PROPOSAL_SAVED, DecisionSummary := SUMMARY], DataQualityStatus, QUALITY);
    assert Native(PROPOSAL_ONLY) == PROPOSED;
    assert !ViewGiven(PROPOSED);
    OpportunityIsSafeExactly(PROPOSAL_ONLY);
  }

  lemma SummaryAloneIsRefused()
    ensures IsObject(SUMMARY_ONLY) && JsonSafe(SUMMARY_ONLY) && !AllGiven(SUMMARY_ONLY)
    ensures !JsonSafe(OpportunityOutput(SUMMARY_ONLY))
  {
    OneMoreField(map[], DecisionSummary, SUMMARY);
    OpportunityIsSafeExactly(SUMMARY_ONLY);
  }

  // ---------------------------------------------------------------------
  // Intent

  const ARM := Ascii("ARM")
  const PRE_ARM := Ascii("PRE_ARM")
  const UPSERT_CANDIDATE := Ascii("UPSERT_CANDIDATE")
  const REPLACE := Ascii("REPLACE")
  const CANCEL := Ascii("CANCEL")
  const EXPIRE := Ascii("EXPIRE")
  const INVALIDATE := Ascii("INVALIDATE")

  predicate HasSetups(native: Value) {
    var setups := Field(Field(native, ExecutionPlan), Setups);
    setups.Array? && setups.items != []
  }

  function CommandOf(native: Value): Value {
    OrElse(Field(native, Command), EMPTY)
  }

  /** The name of the setup command, before it is converted to text. */
  function SetupName(command: Value): Value {
    var transition := Field(command, SetupTransition);
    OrElse(OrElse(OrElse(Field(transition, Command), Field(transition, CommandType)),
                  Field(Field(command, SetupCommand), CommandType)),
           String([]))
  }

  function IntentOfCommand(command: Value, name: Text): Intent {
    if name in {ARM, PRE_ARM, UPSERT_CANDIDATE, REPLACE} then RiskIncreasing
    else if name in {CANCEL, EXPIRE, INVALIDATE} then RiskReducing
    else if Truthy(Field(command, ManagementRequest)) || Truthy(Field(command, PositionTransition))
    then PositionManagement
    else NoRiskChange
  }

  /** `classifyDeskAiDecisionIntent`; nothing when the conversion of the command's name throws. */
  function ClassifyIntent(c: Conversions, output: Value): Option<Intent> {
    var native := Native(output);
    if HasSetups(native) then Some(RiskIncreasing)
    else
      var command := CommandOf(native);
      var name := AsText(c, SetupName(command));
      if name.None? then None else Some(IntentOfCommand(command, c.upper(name.value)))
  }

  lemma RefusedOutputsAreClassified(c: Conversions)
    ensures ClassifyIntent(c, PROPOSAL_ONLY).Some? && ClassifyIntent(c, SUMMARY_ONLY).Some?
  {
    assert Native(PROPOSAL_ONLY) == PROPOSED && Native(SUMMARY_ONLY) == EMPTY;
    assert CommandOf(PROPOSED) == EMPTY && CommandOf(EMPTY) == EMPTY;
    assert SetupName(EMPTY) == String([]);
  }
}
