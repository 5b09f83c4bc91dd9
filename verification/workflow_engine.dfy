/**
 * The workflow engine: `run` starts a definition at its first step, the step loop executes
 * action, approval and conditional steps until the workflow suspends, completes or fails,
 * and `approve` resumes a workflow suspended at an approval gate.
 *
 * The action handler is a parameter (a function of the step and the current context), the
 * clock reading a freeze stamps is a parameter, and the file system is a `FileStore`.
 * Because the step graph may contain cycles, the step loop is bounded by `fuel`: a run that
 * would go on past `fuel` iterations ends with `OutOfFuel`.
 */
module WorkflowEngine {
  import opened Wrappers
  import Json
  import opened WorkflowTypes
  import WorkflowFreeze

  /** What the action handler's promise settles with. */
  datatype HandlerResult = Resolved(result: Json.Object) | Rejected(message: string)

  type ActionHandler = (Step, Json.Object) -> HandlerResult

  /** The events the engine emits, each with its payload at the time of emission. */
  datatype Event =
    | StartEvent(state: State)
    | StepEvent(step: Step)
    | WaitingApprovalEvent(step: Step)
    | CompleteEvent(state: State)
    | FailedEvent(state: State)
    | ApprovedEvent(approved: bool, nextStep: string)

  /** How a call ends: it returns a state, it throws, or it runs out of fuel. */
  datatype Outcome = Returned(state: State) | Threw(message: string) | OutOfFuel

  /** A snapshot of the engine: its definition and state fields, the files, the events so far. */
  datatype Machine = Machine(definition: Option<Definition>, state: Option<State>,
                             files: WorkflowFreeze.Files, events: seq<Event>)

  /** A call's end: the machine it leaves and its outcome. */
  datatype Ending = Ending(machine: Machine, outcome: Outcome)

  /** One pass of the step loop either goes round again or stops with an outcome. */
  datatype Iteration = Continue(machine: Machine) | Stop(machine: Machine, outcome: Outcome)

  const NoStepsMessage := "Workflow has no steps"
  const NoStateMessage := "No workflow state to approve. Call run() first or thaw a frozen state."
  const NotApprovalMessage := "Current step is not an approval step"

  function StepNotFoundMessage(id: string): string
  {
    "Step not found: " + id
  }

  function BadStatusMessage(s: Status): string
  {
    "Cannot approve workflow in status: " + StatusName(s)
  }

  /** `steps.find(s => s.id === id)`: the FIRST step with that id. */
  function FindIn(steps: seq<Step>, id: string): (r: Option<Step>)
    ensures r.None? <==> forall i :: 0 <= i < |steps| ==> steps[i].id != id
    ensures r.Some? ==> exists i :: 0 <= i < |steps| && steps[i] == r.value &&
                                    r.value.id == id && forall j :: 0 <= j < i ==> steps[j].id != id
  {
    if steps == [] then None
    else if steps[0].id == id then Some(steps[0])
    else
      var r := FindIn(steps[1..], id);
      if r.Some? then
        ghost var i :| 0 <= i < |steps[1..]| && steps[1..][i] == r.value &&
                       r.value.id == id && forall j :: 0 <= j < i ==> steps[1..][j].id != id;
        assert steps[i + 1] == r.value;
        r
      else r
  }

  /** `findStep(id)`: no step is found while no definition is loaded. */
  function FindStep(definition: Option<Definition>, id: string): Option<Step>
  {
    if definition.None? then None else FindIn(definition.value.steps, id)
  }

  /** The step ends the workflow as completed. */
  function Complete(m: Machine, st: State): (r: Iteration)
    ensures r.Stop? && r.outcome.Returned? && r.outcome.state.status == Completed
  {
    var done := st.(status := Completed);
    Stop(m.(state := Some(done), events := m.events + [CompleteEvent(done)]), Returned(done))
  }

  /** Follow an optional branch target: go to it when it is present, complete otherwise. */
  function Follow(m: Machine, st: State, target: Option<string>): (r: Iteration)
  {
    if Present(target) then Continue(m.(state := Some(st.(currentStep := target.value))))
    else Complete(m, st)
  }

  /** The branch a conditional step takes: `context[action ?? '']` decides. */
  function ConditionalTarget(step: Step, context: Json.Object): Option<string>
  {
    var key := if step.action.Some? then step.action.value else "";
    if Json.PropertyTruthy(context, key) then step.onApprove else step.onReject
  }

  /** One pass of the body of the step loop on a running state. */
  function Iterate(m: Machine, path: string, handler: ActionHandler, now: string): (r: Iteration)
    requires m.state.Some?
    ensures r.machine.state.Some? && r.machine.definition == m.definition
    ensures r.machine.state.value.workflowName == m.state.value.workflowName
    ensures |r.machine.events| > |m.events| && r.machine.events[..|m.events|] == m.events
    ensures forall p :: p != path ==> (p in r.machine.files <==> p in m.files)
    ensures forall p :: p != path && p in m.files ==> r.machine.files[p] == m.files[p]
    ensures r.Continue? ==> r.machine.state.value.status == m.state.value.status
    ensures r.Stop? && r.outcome.Returned? ==>
              r.machine.state == Some(r.outcome.state) &&
              r.outcome.state.status in {WaitingApproval, Completed, Failed}
    ensures r.Stop? && r.outcome.Threw? ==>
              r.outcome.message == StepNotFoundMessage(m.state.value.currentStep) &&
              r.machine.state.value.status == Failed
    ensures r.Stop? ==> !r.outcome.OutOfFuel?
  {
    var st := m.state.value;
    match FindStep(m.definition, st.currentStep)
    case None =>
      var failed := st.(status := Failed);
      Stop(m.(state := Some(failed), events := m.events + [FailedEvent(failed)]),
           Threw(StepNotFoundMessage(st.currentStep)))
    case Some(step) =>
      var seen := m.(events := m.events + [StepEvent(step)]);
      match step.kind
      case Approval =>
        var waiting := st.(status := WaitingApproval);
        Stop(seen.(state := Some(waiting), files := WorkflowFreeze.Freeze(m.files, waiting, path, now),
                   events := seen.events + [WaitingApprovalEvent(step)]),
             Returned(waiting))
      case Action =>
        (match handler(step, st.context)
         case Rejected(message) =>
           var failed := st.(status := Failed, context := st.context["error" := Json.Str(message)]);
           Stop(seen.(state := Some(failed), events := seen.events + [FailedEvent(failed)]), Returned(failed))
         case Resolved(result) =>
           Follow(seen, st.(context := Json.Spread(st.context, result)), step.next))
      case Conditional =>
        Follow(seen, st, ConditionalTarget(step, st.context))
  }

  /** `executeFromCurrentStep()`: iterate while the status is running, for at most `fuel` passes. */
  function Exec(m: Machine, path: string, handler: ActionHandler, now: string, fuel: nat): (r: Ending)
    requires m.state.Some?
    ensures r.machine.state.Some? && r.machine.definition == m.definition
    ensures r.machine.state.value.workflowName == m.state.value.workflowName
    ensures |m.events| <= |r.machine.events| && r.machine.events[..|m.events|] == m.events
    ensures forall p :: p != path ==> (p in r.machine.files <==> p in m.files)
    ensures forall p :: p != path && p in m.files ==> r.machine.files[p] == m.files[p]
    ensures r.outcome.Returned? ==> r.machine.state == Some(r.outcome.state)
    ensures r.outcome.Returned? && m.state.value.status == Running ==> r.outcome.state.status != Running
    ensures r.outcome.Threw? ==> r.machine.state.value.status == Failed &&
                                 exists id :: r.outcome.message == StepNotFoundMessage(id)
    decreases fuel
  {
    if m.state.value.status != Running then Ending(m, Returned(m.state.value))
    else if fuel == 0 then Ending(m, OutOfFuel)
    else
      match Iterate(m, path, handler, now)
      case Stop(next, outcome) => Ending(next, outcome)
      case Continue(next) =>
        var r := Exec(next, path, handler, now, fuel - 1);
        assert r.machine.events[..|m.events|] == r.machine.events[..|next.events|][..|m.events|];
        r
  }

  /** Running the rest of the loop from `m` with `fuel` passes ends in `goal`. */
  ghost predicate Leads(m: Machine, path: string, handler: ActionHandler, now: string, fuel: nat, goal: Ending)
  {
    m.state.Some? && Exec(m, path, handler, now, fuel) == goal
  }

  /** The loop ends at once on a machine that is no longer running or has no fuel left. */
  lemma LeadsIdle(m: Machine, path: string, handler: ActionHandler, now: string, fuel: nat, goal: Ending)
    requires Leads(m, path, handler, now, fuel, goal) && (fuel == 0 || m.state.value.status != Running)
    ensures goal == Ending(m, if m.state.value.status == Running then OutOfFuel else Returned(m.state.value))
  {
  }

  /** A pass of the loop that stops ends the loop there. */
  lemma ExecStops(m: Machine, path: string, handler: ActionHandler, now: string, fuel: nat, next: Machine, outcome: Outcome)
    requires m.state.Some? && m.state.value.status == Running && fuel > 0
    requires Iterate(m, path, handler, now) == Stop(next, outcome)
    ensures Exec(m, path, handler, now, fuel) == Ending(next, outcome)
  {
  }

  /** A pass of the loop that moves on leaves the rest of the loop to the next machine. */
  lemma ExecContinues(m: Machine, path: string, handler: ActionHandler, now: string, fuel: nat, next: Machine)
    requires m.state.Some? && m.state.value.status == Running && fuel > 0
    requires Iterate(m, path, handler, now) == Continue(next)
    ensures Exec(m, path, handler, now, fuel) == Exec(next, path, handler, now, fuel - 1)
  {
  }

  /** `run(definition, initialContext)`. */
  function AfterRun(m: Machine, d: Definition, initialContext: Json.Object, path: string,
               handler: ActionHandler, now: string, fuel: nat): Ending
  {
    var loaded := m.(definition := Some(d));
    if |d.steps| == 0 then Ending(loaded, Threw(NoStepsMessage))
    else
      var st := State(d.name, d.steps[0].id, Running, initialContext, None);
      Exec(loaded.(state := Some(st), events := loaded.events + [StartEvent(st)]), path, handler, now, fuel)
  }

  /** `approve(approved)`. */
  function AfterApprove(m: Machine, approved: bool, path: string, handler: ActionHandler,
                   now: string, fuel: nat): Ending
  {
    if m.definition.None? || m.state.None? then Ending(m, Threw(NoStateMessage))
    else
      var st := m.state.value;
      if st.status != WaitingApproval then Ending(m, Threw(BadStatusMessage(st.status)))
      else
        var step := FindStep(m.definition, st.currentStep);
        if step.None? || step.value.kind != Approval then Ending(m, Threw(NotApprovalMessage))
        else
          var target := if approved then step.value.onApprove else step.value.onReject;
          if !Present(target) then
            var done := st.(status := if approved then Completed else Failed);
            var event := if approved then CompleteEvent(done) else FailedEvent(done);
            Ending(m.(state := Some(done), events := m.events + [event]), Returned(done))
          else
            var resumed := st.(currentStep := target.value, status := Running);
            Exec(m.(state := Some(resumed), events := m.events + [ApprovedEvent(approved, target.value)]),
                 path, handler, now, fuel)
  }

  /** `loadFrozenState(definition)`: the definition is set even when reading the file fails. */
  function AfterLoad(m: Machine, d: Definition, path: string): Ending
  {
    var loaded := m.(definition := Some(d));
    match WorkflowFreeze.Thaw(m.files, path)
    case Err(e) => Ending(loaded, Threw(e))
    case Ok(st) => Ending(loaded.(state := Some(st)), Returned(st))
  }

  // ---------------------------------------------------------------------------------
  // What `run` and `approve` promise.
  // ---------------------------------------------------------------------------------

  /** `run` on a definition with no steps throws after recording the definition, changing nothing else. */
  lemma RunWithoutSteps(m: Machine, d: Definition, ctx: Json.Object, path: string,
                        handler: ActionHandler, now: string, fuel: nat)
    requires |d.steps| == 0
    ensures AfterRun(m, d, ctx, path, handler, now, fuel) == Ending(m.(definition := Some(d)), Threw(NoStepsMessage))
  {
  }

  /**
   * `run` on a definition with steps emits `start` with a running state at the first
   * step's id carrying a copy of the initial context, and keeps the definition.
   */
  lemma RunStartsAtFirstStep(m: Machine, d: Definition, ctx: Json.Object, path: string,
                             handler: ActionHandler, now: string, fuel: nat)
    requires |d.steps| > 0
    ensures var r := AfterRun(m, d, ctx, path, handler, now, fuel);
      |r.machine.events| > |m.events| &&
      r.machine.events[|m.events|] == StartEvent(State(d.name, d.steps[0].id, Running, ctx, None)) &&
      r.machine.events[..|m.events|] == m.events &&
      r.machine.definition == Some(d)
  {
    var st := State(d.name, d.steps[0].id, Running, ctx, None);
    var started := m.(definition := Some(d), state := Some(st), events := m.events + [StartEvent(st)]);
    var r := Exec(started, path, handler, now, fuel);
    assert r.machine.events[..|started.events|] == started.events;
    assert r.machine.events[|m.events|] == r.machine.events[..|started.events|][|m.events|];
  }

  /** Whenever `run` returns normally, the state it returns is the engine's and is not running. */
  lemma RunReturnsSettled(m: Machine, d: Definition, ctx: Json.Object, path: string,
                          handler: ActionHandler, now: string, fuel: nat)
    ensures var r := AfterRun(m, d, ctx, path, handler, now, fuel);
      r.outcome.Returned? ==> r.machine.state == Some(r.outcome.state) && r.outcome.state.status != Running
  {
  }

  /** Whenever `approve` returns normally, the state it returns is the engine's and is not running. */
  lemma ApproveReturnsSettled(m: Machine, approved: bool, path: string, handler: ActionHandler,
                              now: string, fuel: nat)
    ensures var r := AfterApprove(m, approved, path, handler, now, fuel);
      r.outcome.Returned? ==> r.machine.state == Some(r.outcome.state) && r.outcome.state.status != Running
  {
  }

  // ---------------------------------------------------------------------------------
  // One pass of the step loop, case by case.
  // ---------------------------------------------------------------------------------

  /** The state of a machine that is running the step loop with some fuel left. */
  predicate Looping(m: Machine, fuel: nat)
  {
    m.state.Some? && m.state.value.status == Running && fuel > 0
  }

  /**
   * Reaching an approval step suspends the workflow: status `waiting_approval`, the state
   * frozen to the freeze path, `step` then `waiting_approval` emitted once each with that
   * step, and no further step run.
   */
  lemma SuspendsAtApproval(m: Machine, path: string, handler: ActionHandler, now: string, fuel: nat)
    requires Looping(m, fuel)
    requires var step := FindStep(m.definition, m.state.value.currentStep);
      step.Some? && step.value.kind == Approval
    ensures var step := FindStep(m.definition, m.state.value.currentStep).value;
      var waiting := m.state.value.(status := WaitingApproval);
      Exec(m, path, handler, now, fuel) ==
        Ending(m.(state := Some(waiting), files := WorkflowFreeze.Freeze(m.files, waiting, path, now),
                  events := m.events + [StepEvent(step), WaitingApprovalEvent(step)]),
               Returned(waiting))
  {
  }

  /**
   * A successful action overlays the handler's result on the context and moves to `next`,
   * or completes with the merged context when `next` is absent or empty.
   */
  lemma ActionMergesResult(m: Machine, path: string, handler: ActionHandler, now: string, fuel: nat)
    requires Looping(m, fuel)
    requires var step := FindStep(m.definition, m.state.value.currentStep);
      step.Some? && step.value.kind == Action &&
      handler(step.value, m.state.value.context).Resolved?
    ensures var st := m.state.value;
      var step := FindStep(m.definition, st.currentStep).value;
      var merged := st.(context := Json.Spread(st.context, handler(step, st.context).result));
      var seen := m.(events := m.events + [StepEvent(step)]);
      Exec(m, path, handler, now, fuel) ==
        if Present(step.next) then
          Exec(seen.(state := Some(merged.(currentStep := step.next.value))), path, handler, now, fuel - 1)
        else
          Ending(seen.(state := Some(merged.(status := Completed)),
                       events := seen.events + [CompleteEvent(merged.(status := Completed))]),
                 Returned(merged.(status := Completed)))
  {
  }

  /**
   * A failing action ends the workflow as failed with the error message under `error` in
   * the context, returning normally and running no further step.
   */
  lemma ActionFailureFails(m: Machine, path: string, handler: ActionHandler, now: string, fuel: nat)
    requires Looping(m, fuel)
    requires var step := FindStep(m.definition, m.state.value.currentStep);
      step.Some? && step.value.kind == Action &&
      handler(step.value, m.state.value.context).Rejected?
    ensures var st := m.state.value;
      var step := FindStep(m.definition, st.currentStep).value;
      var failed := st.(status := Failed,
                        context := st.context["error" := Json.Str(handler(step, st.context).message)]);
      Exec(m, path, handler, now, fuel) ==
        Ending(m.(state := Some(failed), events := m.events + [StepEvent(step), FailedEvent(failed)]),
               Returned(failed))
  {
  }

  /** A current step that matches no step id fails the workflow and throws `Step not found`. */
  lemma MissingStepThrows(m: Machine, path: string, handler: ActionHandler, now: string, fuel: nat)
    requires Looping(m, fuel)
    requires FindStep(m.definition, m.state.value.currentStep).None?
    ensures var failed := m.state.value.(status := Failed);
      Exec(m, path, handler, now, fuel) ==
        Ending(m.(state := Some(failed), events := m.events + [FailedEvent(failed)]),
               Threw(StepNotFoundMessage(m.state.value.currentStep)))
  {
  }

  /**
   * A conditional step goes to `on_approve` when `context[action]` is truthy and to
   * `on_reject` otherwise; a missing target completes the workflow.
   */
  lemma ConditionalBranches(m: Machine, path: string, handler: ActionHandler, now: string, fuel: nat)
    requires Looping(m, fuel)
    requires var step := FindStep(m.definition, m.state.value.currentStep);
      step.Some? && step.value.kind == Conditional
    ensures var st := m.state.value;
      var step := FindStep(m.definition, st.currentStep).value;
      var key := if step.action.Some? then step.action.value else "";
      var target := if Json.PropertyTruthy(st.context, key) then step.onApprove else step.onReject;
      var seen := m.(events := m.events + [StepEvent(step)]);
      Exec(m, path, handler, now, fuel) ==
        if Present(target) then
          Exec(seen.(state := Some(st.(currentStep := target.value))), path, handler, now, fuel - 1)
        else
          Ending(seen.(state := Some(st.(status := Completed)),
                       events := seen.events + [CompleteEvent(st.(status := Completed))]),
                 Returned(st.(status := Completed)))
  {
  }

  /**
   * `approve` throws, changing nothing, unless the workflow is waiting for approval at an
   * approval step; the message says which check failed.
   */
  lemma ApproveGuards(m: Machine, approved: bool, path: string, handler: ActionHandler, now: string, fuel: nat)
    ensures var r := AfterApprove(m, approved, path, handler, now, fuel);
      (m.definition.None? || m.state.None? ==> r == Ending(m, Threw(NoStateMessage))) &&
      (m.definition.Some? && m.state.Some? && m.state.value.status != WaitingApproval ==>
         r == Ending(m, Threw(BadStatusMessage(m.state.value.status)))) &&
      (m.definition.Some? && m.state.Some? && m.state.value.status == WaitingApproval &&
       (FindStep(m.definition, m.state.value.currentStep).None? ||
        FindStep(m.definition, m.state.value.currentStep).value.kind != Approval) ==>
         r == Ending(m, Threw(NotApprovalMessage)))
  {
  }

  /** The precondition under which `approve` acts on an approval gate. */
  predicate AtGate(m: Machine)
  {
    m.definition.Some? && m.state.Some? && m.state.value.status == WaitingApproval &&
    FindStep(m.definition, m.state.value.currentStep).Some? &&
    FindStep(m.definition, m.state.value.currentStep).value.kind == Approval
  }

  /**
   * At a gate, `approve` follows `on_approve` or `on_reject`. An absent branch ends the
   * workflow completed (approved) or failed (rejected) without running any step; a present
   * one resumes the step loop there with status running.
   */
  lemma ApproveFollowsBranch(m: Machine, approved: bool, path: string, handler: ActionHandler, now: string, fuel: nat)
    requires AtGate(m)
    ensures var st := m.state.value;
      var step := FindStep(m.definition, st.currentStep).value;
      var target := if approved then step.onApprove else step.onReject;
      var r := AfterApprove(m, approved, path, handler, now, fuel);
      (!Present(target) ==>
         var done := st.(status := if approved then Completed else Failed);
         r == Ending(m.(state := Some(done),
                        events := m.events + [if approved then CompleteEvent(done) else FailedEvent(done)]),
                     Returned(done))) &&
      (Present(target) ==>
         r == Exec(m.(state := Some(st.(currentStep := target.value, status := Running)),
                      events := m.events + [ApprovedEvent(approved, target.value)]),
                   path, handler, now, fuel))
  {
  }

  // ---------------------------------------------------------------------------------
  // A prepare / review / execute-or-abort workflow.
  // ---------------------------------------------------------------------------------

  function ApprovalFlow(): Definition
  {
    Definition("approval-flow", "Workflow with approval", [
      Step("prepare", "Prepare", Action, Some("prepare"), None, Some("review"), None, None),
      Step("review", "Review", Approval, None, None, None, Some("execute"), Some("abort")),
      Step("execute", "Execute", Action, Some("execute"), None, None, None, None),
      Step("abort", "Abort", Action, Some("abort"), None, None, None, None)])
  }

  function Fresh(): Machine
  {
    Machine(None, None, map[], [])
  }

  /** An action handler that resolves every action with an empty result. */
  function NoResult(step: Step, context: Json.Object): HandlerResult
  {
    Resolved(map[])
  }

  function Waiting(): State
  {
    State("approval-flow", "review", WaitingApproval, map[], None)
  }

  /** The engine after running the flow: suspended at `review`, its state frozen at `path`. */
  function Suspended(path: string, now: string): Machine
  {
    var d := ApprovalFlow();
    var started := State("approval-flow", "prepare", Running, map[], None);
    Machine(Some(d), Some(Waiting()), map[path := WorkflowFreeze.Stamped(Waiting(), now)],
            [StartEvent(started), StepEvent(d.steps[0]), StepEvent(d.steps[1]), WaitingApprovalEvent(d.steps[1])])
  }

  /** Running the flow runs `prepare`, then suspends at `review` and freezes the state. */
  lemma ApprovalFlowSuspends(path: string, now: string)
    ensures AfterRun(Fresh(), ApprovalFlow(), map[], path, NoResult, now, 3) == Ending(Suspended(path, now), Returned(Waiting()))
  {
    var d := ApprovalFlow();
    var st := State("approval-flow", "prepare", Running, map[], None);
    var m0 := Fresh().(definition := Some(d), state := Some(st), events := [StartEvent(st)]);
    assert FindStep(Some(d), "prepare") == Some(d.steps[0]);
    assert Json.Spread(map[], map[]) == map[];
    ActionMergesResult(m0, path, NoResult, now, 3);
    var m1 := m0.(events := m0.events + [StepEvent(d.steps[0])], state := Some(st.(currentStep := "review")));
    assert FindStep(Some(d), "review") == Some(d.steps[1]);
    SuspendsAtApproval(m1, path, NoResult, now, 2);
  }

  /** Approving the suspended flow resumes at `execute`, runs it, and completes there. */
  lemma ApprovalFlowApproved(path: string, now: string, fuel: nat)
    requires fuel > 0
    ensures var a := AfterApprove(Suspended(path, now), true, path, NoResult, now, fuel);
      a.outcome == Returned(Waiting().(currentStep := "execute", status := Completed))
  {
    var d := ApprovalFlow();
    var m := Suspended(path, now);
    assert FindStep(Some(d), "review") == Some(d.steps[1]);
    ApproveFollowsBranch(m, true, path, NoResult, now, fuel);
    assert FindStep(Some(d), "execute") == Some(d.steps[2]);
    assert Json.Spread(map[], map[]) == map[];
    var e := m.(state := Some(Waiting().(currentStep := "execute", status := Running)),
                events := m.events + [ApprovedEvent(true, "execute")]);
    ActionMergesResult(e, path, NoResult, now, fuel);
  }

  /** Rejecting the suspended flow resumes at `abort`, runs it, and completes there (not failed). */
  lemma ApprovalFlowRejected(path: string, now: string, fuel: nat)
    requires fuel > 0
    ensures var a := AfterApprove(Suspended(path, now), false, path, NoResult, now, fuel);
      a.outcome == Returned(Waiting().(currentStep := "abort", status := Completed))
  {
    var d := ApprovalFlow();
    var m := Suspended(path, now);
    assert FindStep(Some(d), "review") == Some(d.steps[1]);
    ApproveFollowsBranch(m, false, path, NoResult, now, fuel);
    assert FindStep(Some(d), "abort") == Some(d.steps[3]);
    assert Json.Spread(map[], map[]) == map[];
    var b := m.(state := Some(Waiting().(currentStep := "abort", status := Running)),
                events := m.events + [ApprovedEvent(false, "abort")]);
    ActionMergesResult(b, path, NoResult, now, fuel);
  }

  /**
   * A second engine that thaws the frozen file sees the suspended state (stamped with the
   * freeze time) and can approve it to completion.
   */
  lemma ApprovalFlowThawed(path: string, now: string, fuel: nat)
    requires fuel > 0
    ensures var l := AfterLoad(Fresh().(files := Suspended(path, now).files), ApprovalFlow(), path);
      l.outcome == Returned(WorkflowFreeze.Stamped(Waiting(), now)) &&
      AfterApprove(l.machine, true, path, NoResult, now, fuel).outcome ==
        Returned(WorkflowFreeze.Stamped(Waiting(), now).(currentStep := "execute", status := Completed))
  {
    var d := ApprovalFlow();
    var thawed := WorkflowFreeze.Stamped(Waiting(), now);
    var files := map[path := thawed];
    var m := Machine(Some(d), Some(thawed), files, []);
    assert AfterLoad(Fresh().(files := files), d, path) == Ending(m, Returned(thawed));
    ThawedApproves(m, path, now, fuel);
  }

  /** The thawed machine approves to completion like the one that froze it. */
  lemma ThawedApproves(m: Machine, path: string, now: string, fuel: nat)
    requires fuel > 0
    requires m == Machine(Some(ApprovalFlow()), Some(WorkflowFreeze.Stamped(Waiting(), now)), m.files, [])
    ensures AfterApprove(m, true, path, NoResult, now, fuel).outcome ==
              Returned(WorkflowFreeze.Stamped(Waiting(), now).(currentStep := "execute", status := Completed))
  {
    var d := ApprovalFlow();
    var thawed := WorkflowFreeze.Stamped(Waiting(), now);
    assert FindStep(Some(d), "review") == Some(d.steps[1]);
    ApproveFollowsBranch(m, true, path, NoResult, now, fuel);
    assert FindStep(Some(d), "execute") == Some(d.steps[2]);
    assert Json.Spread(map[], map[]) == map[];
    var e := m.(state := Some(thawed.(currentStep := "execute", status := Running)),
                events := m.events + [ApprovedEvent(true, "execute")]);
    ActionMergesResult(e, path, NoResult, now, fuel);
  }

  // ---------------------------------------------------------------------------------
  // The engine object.
  // ---------------------------------------------------------------------------------

  /**
   * `WorkflowEngine`: the definition and state fields change in place, the emitted events
   * are recorded in order, and frozen states go to the file store.
   */
  class Engine {
    const freezePath: string
    const handler: ActionHandler
    const store: WorkflowFreeze.FileStore
    var definition: Option<Definition>
    var state: Option<State>
    var events: seq<Event>

    function Model(): Machine
      reads this, store
    {
      Machine(definition, state, store.files, events)
    }

    constructor (freezePath: string, handler: ActionHandler, store: WorkflowFreeze.FileStore)
      ensures this.freezePath == freezePath && this.handler == handler && this.store == store
      ensures definition == None && state == None && events == []
    {
      this.freezePath := freezePath;
      this.handler := handler;
      this.store := store;
      definition := None;
      state := None;
      events := [];
    }

    /** `getState()`. */
    function GetState(): Option<State>
      reads this
    {
      state
    }

    method Run(d: Definition, initialContext: Json.Object, now: string, fuel: nat) returns (outcome: Outcome)
      modifies this, store
      ensures Ending(Model(), outcome) == AfterRun(old(Model()), d, initialContext, freezePath, handler, now, fuel)
    {
      definition := Some(d);
      if |d.steps| == 0 {
        return Threw(NoStepsMessage);
      }
      state := Some(State(d.name, d.steps[0].id, Running, initialContext, None));
      events := events + [StartEvent(state.value)];
      outcome := ExecuteFromCurrentStep(now, fuel);
    }

    method Approve(approved: bool, now: string, fuel: nat) returns (outcome: Outcome)
      modifies this, store
      ensures Ending(Model(), outcome) == AfterApprove(old(Model()), approved, freezePath, handler, now, fuel)
    {
      if definition.None? || state.None? {
        return Threw(NoStateMessage);
      }
      if state.value.status != WaitingApproval {
        return Threw(BadStatusMessage(state.value.status));
      }
      var current := FindStep(definition, state.value.currentStep);
      if current.None? || current.value.kind != Approval {
        return Threw(NotApprovalMessage);
      }
      var target := if approved then current.value.onApprove else current.value.onReject;
      if !Present(target) {
        state := Some(state.value.(status := if approved then Completed else Failed));
        events := events + [if approved then CompleteEvent(state.value) else FailedEvent(state.value)];
        return Returned(state.value);
      }
      state := Some(state.value.(currentStep := target.value, status := Running));
      events := events + [ApprovedEvent(approved, target.value)];
      outcome := ExecuteFromCurrentStep(now, fuel);
    }

    method LoadFrozenState(d: Definition) returns (outcome: Outcome)
      modifies this
      ensures Ending(Model(), outcome) == AfterLoad(old(Model()), d, freezePath)
    {
      definition := Some(d);
      var thawed := store.ThawState(freezePath);
      if thawed.Err? {
        return Threw(thawed.message);
      }
      state := Some(thawed.value);
      outcome := Returned(thawed.value);
    }

    /** One pass of the body of the step loop: it either stops with an outcome or moves to the next step. */
    method RunStep(now: string) returns (stopped: bool, outcome: Outcome)
      requires state.Some?
      modifies this, store
      ensures state.Some?
      ensures Iterate(old(Model()), freezePath, handler, now) == if stopped then Stop(Model(), outcome) else Continue(Model())
    {
      var st := state.value;
      var step := FindStep(definition, st.currentStep);
      if step.None? {
        state := Some(st.(status := Failed));
        events := events + [FailedEvent(state.value)];
        return true, Threw(StepNotFoundMessage(st.currentStep));
      }
      events := events + [StepEvent(step.value)];
      if step.value.kind == Approval {
        state := Some(st.(status := WaitingApproval));
        store.FreezeState(state.value, freezePath, now);
        events := events + [WaitingApprovalEvent(step.value)];
        return true, Returned(state.value);
      }
      if step.value.kind == Action {
        var result := handler(step.value, st.context);
        if result.Rejected? {
          state := Some(st.(status := Failed, context := st.context["error" := Json.Str(result.message)]));
          events := events + [FailedEvent(state.value)];
          return true, Returned(state.value);
        }
        state := Some(st.(context := Json.Spread(st.context, result.result)));
      }
      var target := if step.value.kind == Conditional then ConditionalTarget(step.value, st.context) else step.value.next;
      if !Present(target) {
        state := Some(state.value.(status := Completed));
        events := events + [CompleteEvent(state.value)];
        return true, Returned(state.value);
      }
      state := Some(state.value.(currentStep := target.value));
      stopped, outcome := false, OutOfFuel;
    }

    /** One pass of the step loop, stated as what it leaves for the rest of the loop to do. */
    method Advance(now: string, ghost fuel: nat, ghost goal: Ending) returns (stopped: bool, outcome: Outcome)
      requires state.Some? && state.value.status == Running && fuel > 0
      requires Leads(Model(), freezePath, handler, now, fuel, goal)
      modifies this, store
      ensures state.Some?
      ensures stopped ==> Ending(Model(), outcome) == goal
      ensures !stopped ==> Leads(Model(), freezePath, handler, now, fuel - 1, goal)
    {
      ghost var before := Model();
      stopped, outcome := RunStep(now);
      if stopped {
        ExecStops(before, freezePath, handler, now, fuel, Model(), outcome);
      } else {
        ExecContinues(before, freezePath, handler, now, fuel, Model());
      }
    }

    /** The step loop. */
    method ExecuteFromCurrentStep(now: string, fuel: nat) returns (outcome: Outcome)
      requires state.Some?
      modifies this, store
      ensures Ending(Model(), outcome) == Exec(old(Model()), freezePath, handler, now, fuel)
    {
      ghost var goal := Exec(Model(), freezePath, handler, now, fuel);
      var f := fuel;
      while f > 0 && state.value.status == Running
        invariant state.Some?
        invariant Leads(Model(), freezePath, handler, now, f, goal)
        decreases f
      {
        var stopped, o := Advance(now, f, goal);
        if stopped {
          return o;
        }
        f := f - 1;
      }
      LeadsIdle(Model(), freezePath, handler, now, f, goal);
      outcome := if state.value.status == Running then OutOfFuel else Returned(state.value);
    }
  }
}
