/** The workflow vocabulary shared by the parser, the freeze store and the engine. */
module WorkflowTypes {
  import opened Wrappers
  import Json

  /** `WorkflowStep.type`. */
  datatype StepKind = Action | Approval | Conditional

  /** `WorkflowStep`: the optional fields are `None` when absent. */
  datatype Step = Step(
    id: string,
    name: string,
    kind: StepKind,
    action: Option<string>,
    args: Option<Json.Object>,
    next: Option<string>,
    onApprove: Option<string>,
    onReject: Option<string>)

  /** `WorkflowDefinition`. */
  datatype Definition = Definition(name: string, description: string, steps: seq<Step>)

  /** `WorkflowStatus`. */
  datatype Status = Pending | Running | WaitingApproval | Completed | Failed

  /** `WorkflowState`: `frozenAt` is present only on documents written by a freeze. */
  datatype State = State(
    workflowName: string,
    currentStep: string,
    status: Status,
    context: Json.Object,
    frozenAt: Option<string>)

  /** The wire spelling of a status, as it appears in the state document and in messages. */
  function StatusName(s: Status): (r: string)
    ensures r != ""
  {
    match s
    case Pending => "pending"
    case Running => "running"
    case WaitingApproval => "waiting_approval"
    case Completed => "completed"
    case Failed => "failed"
  }

  /** An optional string field used as a branch target: `undefined` and `""` are both falsy. */
  predicate Present(target: Option<string>)
  {
    target.Some? && target.value != ""
  }
}
