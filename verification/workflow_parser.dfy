/**
 * Validation of a workflow definition read from YAML or received as JSON: the step and
 * definition schemas as predicates over JSON values, and the decoder that returns the
 * typed definition (unknown keys are dropped, as an object schema does by default).
 */
module WorkflowParser {
  import opened Wrappers
  import opened Json
  import opened WorkflowTypes

  /** The single error a failed validation reports (the schema library's issue list is not modelled). */
  const ValidationError := "Invalid workflow definition"

  /** The keys the step schema knows; any other key of a step object is dropped. */
  const StepKeys: set<string> := {"id", "name", "type", "action", "args", "next", "on_approve", "on_reject"}

  function KindName(k: StepKind): string
  {
    match k
    case Action => "action"
    case Approval => "approval"
    case Conditional => "conditional"
  }

  /** The step `type` enum: exactly the three names, each decoding to its own kind. */
  function KindFromName(s: string): (r: Option<StepKind>)
    ensures r.Some? <==> s in {"action", "approval", "conditional"}
    ensures r.Some? ==> KindName(r.value) == s
  {
    if s == "action" then Some(Action)
    else if s == "approval" then Some(Approval)
    else if s == "conditional" then Some(Conditional)
    else None
  }

  lemma KindRoundTrip(k: StepKind)
    ensures KindFromName(KindName(k)) == Some(k)
  {
  }

  /** `z.string()` on a required key. */
  predicate RequiredString(o: Object, key: string)
  {
    key in o && o[key].Str?
  }

  /** `z.string().optional()`: absent, or a string (`null` is not accepted). */
  predicate OptionalString(o: Object, key: string)
  {
    key !in o || o[key].Str?
  }

  /** `WorkflowStepSchema` as a predicate. */
  predicate ValidStep(v: Value)
  {
    v.Obj? &&
    RequiredString(v.fields, "id") && RequiredString(v.fields, "name") &&
    RequiredString(v.fields, "type") && v.fields["type"].s in {"action", "approval", "conditional"} &&
    OptionalString(v.fields, "action") &&
    ("args" !in v.fields || v.fields["args"].Obj?) &&
    OptionalString(v.fields, "next") &&
    OptionalString(v.fields, "on_approve") &&
    OptionalString(v.fields, "on_reject")
  }

  /** `WorkflowDefinitionSchema` as a predicate: at least one step, every step valid. */
  predicate ValidDefinition(v: Value)
  {
    v.Obj? &&
    RequiredString(v.fields, "name") && RequiredString(v.fields, "description") &&
    "steps" in v.fields && v.fields["steps"].Arr? && |v.fields["steps"].items| >= 1 &&
    forall i :: 0 <= i < |v.fields["steps"].items| ==> ValidStep(v.fields["steps"].items[i])
  }

  function OptionalField(o: Object, key: string): Option<string>
    requires OptionalString(o, key)
  {
    if key in o then Some(o[key].s) else None
  }

  /** Parsing one step. */
  function DecodeStep(v: Value): (r: Result<Step>)
    ensures r.Ok? <==> ValidStep(v)
  {
    if !ValidStep(v) then Err(ValidationError)
    else
      var f := v.fields;
      Ok(Step(f["id"].s, f["name"].s, KindFromName(f["type"].s).value,
              OptionalField(f, "action"),
              if "args" in f then Some(f["args"].fields) else None,
              OptionalField(f, "next"), OptionalField(f, "on_approve"), OptionalField(f, "on_reject")))
  }

  /** Parsing the step array, element by element. */
  function DecodeSteps(items: seq<Value>): (r: Result<seq<Step>>)
    ensures r.Ok? ==> |r.value| == |items|
    ensures r.Ok? ==> forall i :: 0 <= i < |items| ==> DecodeStep(items[i]) == Ok(r.value[i])
  {
    if items == [] then Ok([])
    else
      match DecodeStep(items[0])
      case Err(e) => Err(e)
      case Ok(st) =>
        match DecodeSteps(items[1..])
        case Err(e) => Err(e)
        case Ok(rest) => Ok([st] + rest)
  }

  /** `validateWorkflow(definition)`. */
  function ValidateWorkflow(v: Value): (r: Result<Definition>)
  {
    if !v.Obj? || !RequiredString(v.fields, "name") || !RequiredString(v.fields, "description") ||
       !("steps" in v.fields && v.fields["steps"].Arr?)
    then Err(ValidationError)
    else if |v.fields["steps"].items| == 0 then Err(ValidationError)
    else
      match DecodeSteps(v.fields["steps"].items)
      case Err(e) => Err(e)
      case Ok(steps) => Ok(Definition(v.fields["name"].s, v.fields["description"].s, steps))
  }

  /** `parseWorkflowYaml(text)`: the YAML loader is a parameter; its failure propagates. */
  function ParseWorkflowYaml(text: string, load: string -> Result<Value>): (r: Result<Definition>)
    ensures load(text).Err? ==> r == Err(load(text).message)
    ensures load(text).Ok? ==> r == ValidateWorkflow(load(text).value)
  {
    match load(text)
    case Err(e) => Err(e)
    case Ok(raw) => ValidateWorkflow(raw)
  }

  /** The step array parses exactly when every element is a valid step. */
  lemma {:induction false} DecodeStepsOk(items: seq<Value>)
    ensures DecodeSteps(items).Ok? <==> forall i :: 0 <= i < |items| ==> ValidStep(items[i])
  {
    if items != [] {
      DecodeStepsOk(items[1..]);
      if DecodeSteps(items).Ok? {
        forall i | 0 <= i < |items| ensures ValidStep(items[i]) {
          assert DecodeStep(items[i]).Ok?;
        }
      } else if ValidStep(items[0]) {
        var i :| 0 <= i < |items[1..]| && !ValidStep(items[1..][i]);
        assert items[i + 1] == items[1..][i];
      }
    }
  }

  /** A value passes validation exactly when it satisfies the definition schema; a definition with no steps is rejected. */
  lemma ValidateIffValid(v: Value)
    ensures ValidateWorkflow(v).Ok? <==> ValidDefinition(v)
    ensures v.Obj? && "steps" in v.fields && v.fields["steps"] == Arr([]) ==> ValidateWorkflow(v).Err?
  {
    if v.Obj? && "steps" in v.fields && v.fields["steps"].Arr? {
      DecodeStepsOk(v.fields["steps"].items);
    }
  }

  // ---------------------------------------------------------------------------------
  // The document a definition is written as, and the round trip.
  // ---------------------------------------------------------------------------------

  /** Adds `key` to the object when the optional field is present. */
  function WithOptional(o: Object, key: string, value: Option<string>): Object
  {
    if value.Some? then o[key := Str(value.value)] else o
  }

  /** A step as a JSON object: absent optional fields are absent keys. */
  function EncodeStep(st: Step): Value
  {
    var required := map["id" := Str(st.id), "name" := Str(st.name), "type" := Str(KindName(st.kind))];
    var withArgs := if st.args.Some? then required["args" := Obj(st.args.value)] else required;
    Obj(WithOptional(WithOptional(WithOptional(WithOptional(withArgs, "action", st.action),
                                                "next", st.next), "on_approve", st.onApprove),
                     "on_reject", st.onReject))
  }

  function EncodeDefinition(d: Definition): Value
  {
    Obj(map["name" := Str(d.name), "description" := Str(d.description),
             "steps" := Arr(seq(|d.steps|, i requires 0 <= i < |d.steps| => EncodeStep(d.steps[i])))])
  }

  /** The part of an object the step schema keeps. */
  function Known(o: Object): Object
  {
    map k | k in o && k in StepKeys :: o[k]
  }

  /** The required keys and `args` of an encoded step hold the step's own fields. */
  lemma EncodedRequiredFields(st: Step)
    ensures var f := EncodeStep(st).fields;
      f["id"] == Str(st.id) && f["name"] == Str(st.name) && f["type"] == Str(KindName(st.kind)) &&
      ("args" in f <==> st.args.Some?) && ("args" in f ==> f["args"] == Obj(st.args.value))
  {
  }

  /** The optional string keys of an encoded step are present exactly for the step's present fields. */
  lemma EncodedOptionalFields(st: Step)
    ensures var f := EncodeStep(st).fields;
      OptionalString(f, "action") && OptionalField(f, "action") == st.action &&
      OptionalString(f, "next") && OptionalField(f, "next") == st.next &&
      OptionalString(f, "on_approve") && OptionalField(f, "on_approve") == st.onApprove &&
      OptionalString(f, "on_reject") && OptionalField(f, "on_reject") == st.onReject
  {
  }

  /** Decoding an encoded step gives the step back. */
  lemma StepRoundTrip(st: Step)
    ensures DecodeStep(EncodeStep(st)) == Ok(st)
  {
    var v := EncodeStep(st);
    EncodedRequiredFields(st);
    EncodedOptionalFields(st);
    KindRoundTrip(st.kind);
    assert ValidStep(v);
  }

  /** The keys of an encoded step: the required ones, and each optional one whose field is present. */
  lemma EncodedKeys(st: Step, key: string)
    ensures key in EncodeStep(st).fields <==>
      key == "id" || key == "name" || key == "type" ||
      (key == "args" && st.args.Some?) || (key == "action" && st.action.Some?) ||
      (key == "next" && st.next.Some?) || (key == "on_approve" && st.onApprove.Some?) ||
      (key == "on_reject" && st.onReject.Some?)
  {
  }

  /** A parsed step, re-encoded, has exactly the known keys of the object it came from. */
  lemma DecodedStepKeys(v: Value, key: string)
    requires ValidStep(v)
    ensures key in EncodeStep(DecodeStep(v).value).fields <==> key in Known(v.fields)
  {
    EncodedKeys(DecodeStep(v).value, key);
  }

  /** A parsed step, re-encoded, holds the object's own value at each of its keys. */
  lemma DecodedStepValues(v: Value, key: string)
    requires ValidStep(v) && key in EncodeStep(DecodeStep(v).value).fields
    ensures key in v.fields && EncodeStep(DecodeStep(v).value).fields[key] == v.fields[key]
  {
    var st := DecodeStep(v).value;
    EncodedKeys(st, key);
    assert KindName(st.kind) == v.fields["type"].s;
    EncodedRequiredFields(st);
    EncodedOptionalFields(st);
  }

  /** A step that parses is exactly its known keys: nothing is lost or invented but the unknown keys. */
  lemma DecodedStepIsKnownPart(v: Value)
    requires ValidStep(v)
    ensures EncodeStep(DecodeStep(v).value) == Obj(Known(v.fields))
  {
    var e := EncodeStep(DecodeStep(v).value).fields;
    var k := Known(v.fields);
    forall key ensures key in e <==> key in k {
      DecodedStepKeys(v, key);
    }
    forall key | key in e ensures e[key] == k[key] {
      DecodedStepKeys(v, key);
      DecodedStepValues(v, key);
    }
    assert e == k;
  }

  /** Validating the document of a definition with at least one step returns that definition. */
  lemma {:induction false} DefinitionRoundTrip(d: Definition)
    requires |d.steps| >= 1
    ensures ValidateWorkflow(EncodeDefinition(d)) == Ok(d)
  {
    var items := EncodeDefinition(d).fields["steps"].items;
    forall i | 0 <= i < |items| ensures ValidStep(items[i]) && DecodeStep(items[i]) == Ok(d.steps[i]) {
      StepRoundTrip(d.steps[i]);
    }
    DecodeStepsOk(items);
    var steps := DecodeSteps(items).value;
    assert steps == d.steps;
  }

  /**
   * A definition that validates keeps the name and description and has one step per element
   * of `steps`, each the known part of its element.
   */
  lemma ValidatedDefinition(v: Value)
    requires ValidateWorkflow(v).Ok?
    ensures var d := ValidateWorkflow(v).value;
      d.name == v.fields["name"].s && d.description == v.fields["description"].s &&
      |d.steps| == |v.fields["steps"].items| >= 1 &&
      forall i :: 0 <= i < |d.steps| ==> EncodeStep(d.steps[i]) == Obj(Known(v.fields["steps"].items[i].fields))
  {
    var d := ValidateWorkflow(v).value;
    var items := v.fields["steps"].items;
    forall i | 0 <= i < |d.steps| ensures EncodeStep(d.steps[i]) == Obj(Known(items[i].fields)) {
      DecodedStepIsKnownPart(items[i]);
    }
  }
}
