# crevnclaw kernel core, modelled in Dafny

This project models the decision-making core of the crevnclaw agent kernel and proves properties of it. The modelled parts are:

- **Priority-lane scheduler.** Three FIFO lanes (System, Interactive, Background). Background work is preempted through abort flags. A flush drains the lanes in priority order.
- **Workflow engine.** It steps through `action`, `approval` and `conditional` steps. It suspends at approval gates by freezing its state to a file, and it can resume, approve or reject later. The workflow parser's schemas and the freeze store are modelled with it.
- **Circuit breaker.** It trips on daily spend or hourly loop counts.
- **WebSocket gateway.** Modelled parts: client admission (origin allow-list, `Bearer` token), the client set, broadcast and shutdown.
- **Message router.** It validates incoming messages and dispatches them to the handlers registered for each type and for `*`.
- **MCP host.** It spawns tool servers and performs the JSON-RPC handshake: `initialize`, the `initialized` notification, then `tools/list`. It registers tools under `<server>:<tool>`, routes `tools/call` and disconnects. It matches replies to requests by id over the servers' stdout.
- **Sandbox tool registry.** A name-keyed map of container-run tools.
- **Docker executor's bookkeeping.** The memory-limit parser, the container options, and the set of running containers (including the panic kill).
- **Bedrock provider's message shaping.** The request body and the reading of a reply.
- **Provider factory.**

Classes whose methods update fields in place are Dafny classes: `Scheduler`, `Engine`, `FileStore`, `MessageRouter`, `GatewayServer`, `McpHost`, `ToolRegistry` and `DockerExecutor`. Each method is specified against a pure function of the object's previous state (for example `Model() == Enqueued(old(Model()), lane, work)`). The properties are proved as lemmas about those functions.

Pure code is datatypes and functions: parsing, schema validation, request shaping and the factory. The following are parameters rather than parts of the model:

- clocks, Docker, child processes, sockets and the AWS client;
- JSON and YAML parsers and serialisers;
- JWT verification;
- a task body's or action handler's outcome.

JavaScript semantics the code depends on are modelled explicitly:

- truthiness (`""`, `0`, `null` and `undefined` are falsy; empty arrays and objects are truthy);
- `Map` and `Set` iteration in insertion order;
- `split('\n').filter(Boolean)`;
- `?.` and `??`;
- string conversion of arbitrary values;
- `for … of` over a non-array (it throws).

Files:

| file | contents |
|---|---|
| `wrappers.dfy`, `decimal.dfy`, `json.dfy`, `ordered_map.dfy`, `tool_types.dfy`, `workflow_types.dfy` | shared vocabulary: `Option`/`Result`, decimal digits, JSON values, insertion-ordered maps, tool definitions, workflow records |
| `scheduling.dfy` | `packages/kernel/src/scheduler.ts` |
| `workflow_parser.dfy`, `workflow_freeze.dfy`, `workflow_engine.dfy` | `packages/kernel/src/workflow/` |
| `circuit_breaker.dfy` | `packages/kernel/src/circuit-breaker.ts` |
| `messages.dfy`, `router.dfy` | `packages/types/src/messages.ts`, `packages/kernel/src/router.ts` |
| `gateway.dfy` | `packages/kernel/src/server.ts` |
| `json_rpc.dfy`, `mcp_host.dfy` | `packages/kernel/src/mcp.ts` |
| `sandbox_tools.dfy`, `executor.dfy` | `packages/sandbox/src/tools.ts`, `packages/sandbox/src/executor.ts` |
| `bedrock.dfy`, `providers.dfy` | `packages/kernel/src/providers/` |

## Model

| member | source | states |
|---|---|---|
| Scheduling.InitialWf | packages/kernel/src/scheduler.ts:16-21 | A new scheduler (three empty lanes, no running task) is well formed. |
| Scheduling.Enqueued | packages/kernel/src/scheduler.ts:23-32 | `enqueue` appends exactly one fresh, non-aborted task to the named lane and leaves the other lanes alone. It emits one `enqueue` event carrying the lane. An Interactive enqueue while a Background task is marked running aborts that task and clears the marker; other enqueues abort nothing. Well-formedness is preserved. |
| Scheduling.EnqueuedAll | packages/kernel/src/scheduler.ts:23-32 | A sequence of enqueues adds one task per call and runs nothing. |
| Scheduling.EnqueuedAllAppends | packages/kernel/src/scheduler.ts:23-32 | A sequence of enqueues only appends to each lane (old queues are prefixes) and keeps the state well formed. |
| Scheduling.Begin | packages/kernel/src/scheduler.ts:38-42 | Starting a task marks it running exactly when it came from the Background lane, invokes its body, and changes no queue. |
| Scheduling.Settle | packages/kernel/src/scheduler.ts:41-47 | A failure other than `Preempted by interactive task` emits exactly one `error` event; the sentinel and success emit none. The running marker is cleared only if it still refers to this task. |
| Scheduling.RunTask | packages/kernel/src/scheduler.ts:38-47 | Running a task records it as run, grows the queues by exactly the concurrent enqueues, and leaves it unmarked. |
| Scheduling.ShiftWf | packages/kernel/src/scheduler.ts:36-38 | `shift` takes the head of the lane, which belongs to that lane, and keeps the state well formed. |
| Scheduling.RunTaskWf | packages/kernel/src/scheduler.ts:38-47 | Running a task keeps the state well formed. |
| Scheduling.FlushFromOrdered | packages/kernel/src/scheduler.ts:35-49 | From a given lane on, a flush starts only tasks of that lane or later lanes, in lane order, and keeps earlier runs. |
| Scheduling.FlushLaneOrder | packages/kernel/src/scheduler.ts:35-49 | Whatever is enqueued during it, a flush starts every System task before any Interactive task and every Interactive task before any Background task. |
| Scheduling.FlushFromKeepsPassedLanes | packages/kernel/src/scheduler.ts:35-49 | Lanes a flush has already passed are only appended to, and the Background lane ends empty. |
| Scheduling.FlushPassedLanes | packages/kernel/src/scheduler.ts:35-49 | After any flush, whatever is enqueued during it, the Background lane is empty. The concrete example of retention is `PreemptionDuringFlush`. |
| Scheduling.EnqueuedAllNewer | packages/kernel/src/scheduler.ts:23-32 | A sequence of enqueues advances the identity counter by one per call and queues nothing older than the counter it started from. |
| Scheduling.EnqueuedAllPlaces | packages/kernel/src/scheduler.ts:23-32 | The m-th of several enqueues gets identity `nextId + m` and is queued in its own lane. |
| Scheduling.RunTaskNewer | packages/kernel/src/scheduler.ts:38-47 | Running a task advances the counter by the number of concurrent enqueues and queues nothing older. |
| Scheduling.RunTaskPlaces | packages/kernel/src/scheduler.ts:38-47 | The m-th enqueue during a task's run is queued in its lane under identity `nextId + m`. |
| Scheduling.FlushFromKeepsRuns | packages/kernel/src/scheduler.ts:35-49 | A flush keeps the earlier runs and only appends to them. |
| Scheduling.FlushFromLeavesNewer | packages/kernel/src/scheduler.ts:35-49 | From a given lane on, a flush leaves queued only tasks that were queued before or enqueued during it. The lane being drained and every later lane hold only tasks enqueued during it: their earlier contents are all taken off. |
| Scheduling.FlushFromArrivals | packages/kernel/src/scheduler.ts:35-49 | The inductive form of `ArrivalsStayQueuedIffPassed` for a flush from a given lane after a given number of starts. |
| Scheduling.ArrivalDuringRun | packages/kernel/src/scheduler.ts:37-47 | Work enqueued while the task just taken from the lane being drained runs stays queued after the flush exactly when its lane was already passed. |
| Scheduling.ArrivalsStayQueuedIffPassed | packages/kernel/src/scheduler.ts:34-50 | For every flush of a well-formed state and every concurrent enqueue, consider the m-th request arriving while the k-th started task runs. Its task gets the identity after all earlier arrivals. It is still queued after the flush exactly when its lane ranks before the lane of the k-th started task, i.e. a lane `for … of` has already passed. Work for the lane being drained or a later lane is taken off its queue in the same flush. |
| Scheduling.QuietFlushFrom | packages/kernel/src/scheduler.ts:35-49 | With no concurrent enqueues, a flush from a given lane on runs exactly the remaining non-aborted tasks, lane after lane, and empties those lanes. |
| Scheduling.QuietFlush | packages/kernel/src/scheduler.ts:34-50 | With no concurrent enqueues a flush runs every non-aborted task in priority order and each lane in FIFO order, skipping aborted ones. All three queues end empty and nothing is aborted. There is one `error` event per non-sentinel failure, in run order. |
| Scheduling.PreemptionDuringFlush | packages/kernel/src/scheduler.ts:27-30 | An Interactive enqueue during a running Background task aborts that task's flag before it settles. Its preemption failure is swallowed, and the new tasks stay queued for the next flush. |
| Scheduling.PreemptedTaskSettles | packages/kernel/src/scheduler.ts:27-47 | The preempted Background task runs once. The Interactive enqueue aborts its flag and clears the marker, and its sentinel failure emits no event. |
| Scheduling.InitialAscending | packages/kernel/src/scheduler.ts:16-21 | In a new scheduler every lane's identities ascend from head to tail (vacuously). |
| Scheduling.EnqueuedAscending | packages/kernel/src/scheduler.ts:23-32 | `enqueue` only appends, with a fresh identity, so each lane stays in ascending identity order. Every task queued afterwards was queued before or is new. |
| Scheduling.EnqueuedAllAscending | packages/kernel/src/scheduler.ts:23-32 | The same for any sequence of enqueues. |
| Scheduling.RunTaskAscending | packages/kernel/src/scheduler.ts:38-47 | Running a task keeps every lane in ascending identity order. It only adds tasks newer than the state it started from. |
| Scheduling.ShiftAscending | packages/kernel/src/scheduler.ts:36-38 | `shift` keeps every lane ascending and leaves only tasks that were queued before. |
| Scheduling.FlushFromFifo | packages/kernel/src/scheduler.ts:35-49 | From a given lane on, whatever is enqueued meanwhile, a flush keeps earlier runs. It starts the tasks of any one lane in increasing identity order. Each task it starts was queued at the start or enqueued during the flush. Well-formedness and ascending lanes are preserved. |
| Scheduling.FlushLaneFifo | packages/kernel/src/scheduler.ts:34-50 | For every pattern of concurrent enqueues, two tasks of the same lane started by one flush start in enqueue order. This includes tasks pushed onto the lane being drained. The state after the flush is again well formed and ascending. |
| Scheduling.Scheduler.constructor | packages/kernel/src/scheduler.ts:16-21 | The new object's state is the initial state. |
| Scheduling.Scheduler.Push | packages/kernel/src/scheduler.ts:26 | `push` appends the task to its lane's queue and changes nothing else. |
| Scheduling.Scheduler.Shift | packages/kernel/src/scheduler.ts:38 | `shift` returns the head of the lane and removes it, changing nothing else. |
| Scheduling.Scheduler.Enqueue | packages/kernel/src/scheduler.ts:23-32 | The object moves to `Enqueued` of its previous state, and the task returned is fresh and not aborted. |
| Scheduling.Scheduler.RunOne | packages/kernel/src/scheduler.ts:38-47 | One loop iteration of `flush` moves the object to `RunTask` of its previous state. |
| Scheduling.Scheduler.Flush | packages/kernel/src/scheduler.ts:34-50 | The object moves to `Flushed` of its previous state, so every property proved about `Flushed` holds of the object. |
| WorkflowTypes.StatusName | packages/types/src/workflow.ts:1 | Each status has a non-empty wire spelling. |
| WorkflowParser.KindFromName | packages/kernel/src/workflow/parser.ts:8 | The step-type enum accepts exactly `action`, `approval` and `conditional`, and each decodes to the kind it spells. |
| WorkflowParser.KindRoundTrip | packages/kernel/src/workflow/parser.ts:8 | Every kind's name decodes back to it. |
| WorkflowParser.DecodeStep | packages/kernel/src/workflow/parser.ts:5-14 | A value parses as a step exactly when it satisfies the step schema: the required strings and the type enum; `action`, `next`, `on_approve` and `on_reject` absent or strings, and `args` absent or an object. |
| WorkflowParser.DecodeSteps | packages/kernel/src/workflow/parser.ts:19 | A parsed step array has one step per element, each the element's own parse. |
| WorkflowParser.DecodeStepsOk | packages/kernel/src/workflow/parser.ts:19 | The step array parses exactly when every element is a valid step. |
| WorkflowParser.ValidateIffValid | packages/kernel/src/workflow/parser.ts:16-20 | `validateWorkflow` succeeds exactly when the value satisfies the definition schema. A definition with an empty step list is rejected. |
| WorkflowParser.ParseWorkflowYaml | packages/kernel/src/workflow/parser.ts:22-25 | A loader failure propagates; otherwise the loaded value is validated. |
| WorkflowParser.StepRoundTrip | packages/kernel/src/workflow/parser.ts:5-14 | Parsing the JSON object of a step gives the step back. |
| WorkflowParser.DecodedStepIsKnownPart | packages/kernel/src/workflow/parser.ts:5-14 | A parsed step is exactly the object's known keys; only unknown keys are dropped. |
| WorkflowParser.DefinitionRoundTrip | packages/kernel/src/workflow/parser.ts:27-29 | Validating the document of a definition with at least one step returns that definition. |
| WorkflowParser.ValidatedDefinition | packages/kernel/src/workflow/parser.ts:27-29 | A validated definition has at least one step, and each step's fields come from the input. |
| WorkflowFreeze.Stamped | packages/kernel/src/workflow/freeze.ts:6-9 | The frozen document is the state with every field kept and `frozen_at` set to the freeze time. |
| WorkflowFreeze.Freeze | packages/kernel/src/workflow/freeze.ts:5-13 | Freezing writes the stamped document at the path and leaves every other file as it was. |
| WorkflowFreeze.MissingFileMessage | packages/kernel/src/workflow/freeze.ts:16 | The read error of a missing file ends with the path in single quotes. |
| WorkflowFreeze.MissingFileMessageNamesPath | packages/kernel/src/workflow/freeze.ts:16 | Two paths give the same read error only if they are the same path, so the error identifies the missing file. |
| WorkflowFreeze.Thaw | packages/kernel/src/workflow/freeze.ts:15-19 | Thawing returns the stored document exactly when the file exists, and the read error otherwise. |
| WorkflowFreeze.ThawAfterFreeze | packages/kernel/src/workflow/freeze.ts:5-19 | Thawing a just-frozen path gives back the state's fields, stamped with the freeze time. |
| WorkflowFreeze.HasFrozenAfterFreeze | packages/kernel/src/workflow/freeze.ts:21-23 | A path reads as frozen after a freeze to it; another path never written does not. |
| WorkflowFreeze.LastFreezeWins | packages/kernel/src/workflow/freeze.ts:12 | A second freeze to a path replaces the first entirely. |
| WorkflowFreeze.FileStore.constructor | packages/kernel/src/workflow/freeze.ts:1-2 | The store starts with no files. |
| WorkflowFreeze.FileStore.FreezeState | packages/kernel/src/workflow/freeze.ts:5-13 | The files become `Freeze` of the previous files. |
| WorkflowFreeze.FileStore.ThawState | packages/kernel/src/workflow/freeze.ts:15-19 | Returns `Thaw` of the current files. |
| WorkflowFreeze.FileStore.HasFrozenState | packages/kernel/src/workflow/freeze.ts:21-23 | True exactly when a file exists at the path. |
| WorkflowEngine.FindIn | packages/kernel/src/workflow/engine.ts:142-144 | `find` returns the first step with the id, or nothing exactly when no step has it. |
| WorkflowEngine.Complete | packages/kernel/src/workflow/engine.ts:133-135 | Completing stops the loop and returns the state with status `completed`. |
| WorkflowEngine.Iterate | packages/kernel/src/workflow/engine.ts:85-136 | One pass of the step loop never loses the state or the definition. It only appends events and touches no file but the freeze path. A normal stop returns the engine's own, non-running state. A throw leaves the state failed. |
| WorkflowEngine.Exec | packages/kernel/src/workflow/engine.ts:84-140 | The step loop only appends events and writes only the freeze path. A normal return is the engine's own state. Starting from running, it returns a non-running state. A throw leaves the state failed. |
| WorkflowEngine.RunWithoutSteps | packages/kernel/src/workflow/engine.ts:25-30 | `run` on a definition with no steps records the definition, throws `Workflow has no steps`, and changes nothing else. |
| WorkflowEngine.RunStartsAtFirstStep | packages/kernel/src/workflow/engine.ts:25-41 | `run` emits `start` with a running state at the first step's id, carrying a copy of the initial context, then runs the step loop. |
| WorkflowEngine.RunReturnsSettled | packages/kernel/src/workflow/engine.ts:25-41 | When `run` returns normally, the state returned is the engine's and is not running. |
| WorkflowEngine.ApproveReturnsSettled | packages/kernel/src/workflow/engine.ts:44-72 | When `approve` returns normally, the state returned is the engine's and is not running. |
| WorkflowEngine.SuspendsAtApproval | packages/kernel/src/workflow/engine.ts:94-101 | An approval step sets `waiting_approval` and freezes the state to the freeze path. It emits `step` then `waiting_approval` with that step and runs nothing further. |
| WorkflowEngine.ActionMergesResult | packages/kernel/src/workflow/engine.ts:103-136 | A successful action overlays the handler's result on the context. It then moves to `next`, or completes when `next` is absent or empty. |
| WorkflowEngine.ActionFailureFails | packages/kernel/src/workflow/engine.ts:107-112 | A failing action sets status failed and stores the error message under `error`. It returns normally and runs no further step. |
| WorkflowEngine.MissingStepThrows | packages/kernel/src/workflow/engine.ts:88-92 | A current step that matches no id sets status failed, emits `failed` and throws `Step not found: <id>`. |
| WorkflowEngine.ConditionalBranches | packages/kernel/src/workflow/engine.ts:115-127 | A conditional step goes to `on_approve` when `context[action ?? '']` is truthy and to `on_reject` otherwise. A missing target completes the workflow. |
| WorkflowEngine.ApproveGuards | packages/kernel/src/workflow/engine.ts:44-57 | `approve` throws and changes nothing when there is no state, the status is not `waiting_approval`, or the current step is not an approval step. The message says which check failed. |
| WorkflowEngine.ApproveFollowsBranch | packages/kernel/src/workflow/engine.ts:59-71 | At a gate, approval follows `on_approve` and rejection `on_reject`. An absent branch ends completed (approved) or failed (rejected) without running a step. A present branch resumes the loop there. |
| WorkflowEngine.ApprovalFlowSuspends | packages/kernel/src/__tests__/workflow.test.ts:181-190 | Running the prepare/review/execute-or-abort flow runs `prepare`, then suspends at `review` and freezes the state. |
| WorkflowEngine.ApprovalFlowApproved | packages/kernel/src/__tests__/workflow.test.ts:192-202 | Approving the suspended flow runs `execute` and completes. |
| WorkflowEngine.ApprovalFlowRejected | packages/kernel/src/__tests__/workflow.test.ts:204-214 | Rejecting the suspended flow runs `abort` and completes, not fails. |
| WorkflowEngine.ApprovalFlowThawed | packages/kernel/src/__tests__/workflow.test.ts:216-233 | A second engine that thaws the frozen file sees the suspended state, and approving completes it. |
| WorkflowEngine.Engine.constructor | packages/kernel/src/workflow/engine.ts:20-23 | A new engine has no definition, no state and no events. |
| WorkflowEngine.Engine.Run | packages/kernel/src/workflow/engine.ts:25-42 | The object and the outcome are `AfterRun` of the previous state. |
| WorkflowEngine.Engine.Approve | packages/kernel/src/workflow/engine.ts:44-72 | The object and the outcome are `AfterApprove` of the previous state. |
| WorkflowEngine.Engine.LoadFrozenState | packages/kernel/src/workflow/engine.ts:74-78 | The object and the outcome are `AfterLoad` of the previous state: the definition is set even when the read fails. |
| WorkflowEngine.Engine.RunStep | packages/kernel/src/workflow/engine.ts:85-136 | One pass of the loop body on the object moves it exactly as `Iterate` says. It either stops with that outcome or continues at the next step. |
| WorkflowEngine.Engine.ExecuteFromCurrentStep | packages/kernel/src/workflow/engine.ts:84-140 | The loop moves the object to `Exec` of its previous state. |
| CircuitBreaker.TripReason | packages/kernel/src/circuit-breaker.ts:19-31 | There is no reason exactly when both values are below their limits. Spend is checked first and both bounds are inclusive. |
| CircuitBreaker.Check | packages/kernel/src/circuit-breaker.ts:33-39 | `check` throws exactly when the breaker is tripped, emitting one `tripped` event with the reason, and the error carries that reason. Otherwise it emits nothing. |
| CircuitBreaker.ReasonNamesValueAndLimit | packages/kernel/src/circuit-breaker.ts:22-27 | Each reason names the observed value and the limit it reached. |
| CircuitBreaker.IdleNeverTrips | packages/kernel/src/circuit-breaker.ts:19-31 | With positive limits, zero spend and zero loops never trip. |
| CircuitBreaker.TrippedStaysTripped | packages/kernel/src/circuit-breaker.ts:19-31 | More spend or more loops never un-trip the breaker. |
| CircuitBreaker.TestLimits | packages/kernel/src/circuit-breaker.ts:19-31 | With $10 a day and 100 loops an hour, the boundary values trip, and so do values above them. The values just below both limits ($9.99 and 99 loops) do not trip, and neither do the tests' under-limit values ($5 and 50 loops). |
| Messages.TypeFromName | packages/types/src/messages.ts:3-6 | The type enum accepts exactly the nine names, each decoding to the type it spells. |
| Messages.TypeNamesRoundTrip | packages/types/src/messages.ts:3-6 | Every type is listed, and its name decodes back to it. |
| Messages.ParseMessage | packages/types/src/messages.ts:8-13 | A value parses exactly when it is an object with a valid type, a string id, a date-time timestamp and an object payload. The message carries those fields. |
| Messages.MessageRoundTrip | packages/types/src/messages.ts:8-13 | Parsing the object of a message with a date-time timestamp gives the message back. |
| Messages.MissingFieldInvalid | packages/types/src/messages.ts:8-13 | An object lacking any of the four fields fails validation. |
| Router.Route | packages/kernel/src/router.ts:5-15 | A message goes unhandled exactly when it is invalid and nobody listens to `error`. An invalid message makes one call per `error` listener. A valid one makes one call per listener of its type plus one per `*` listener. |
| Router.Emit | packages/kernel/src/router.ts:13-14 | Emitting calls every listener of the event once, in registration order, with the payload. |
| Router.Added | packages/kernel/src/router.ts:17-19 | `on` appends the handler to that event's listeners and leaves other events alone. |
| Router.LastIndex | packages/kernel/src/router.ts:21-23 | The index `off` removes is the last occurrence of the handler. |
| Router.Removed | packages/kernel/src/router.ts:21-23 | `off` removes the most recently added instance of the handler from that event only. An emptied event is dropped. |
| Router.RemoveLastRemovesOne | packages/kernel/src/router.ts:21-23 | `off` removes exactly one instance of a registered handler and keeps the rest. |
| Router.OffRemovesHandler | packages/kernel/src/router.ts:21-23 | After `off`, a handler registered at most once is no longer a listener. |
| Router.InvalidEmitsOnlyError | packages/kernel/src/router.ts:6-10 | An invalid message calls only the `error` listeners, each once with the `Invalid message` error. It throws when there are none. |
| Router.ValidDispatchesTypeThenWildcard | packages/kernel/src/router.ts:12-14 | A valid message goes to the listeners of its type, then to the `*` listeners, each with the parsed message. |
| Router.OtherTypeNotCalled | packages/kernel/src/router.ts:12-14 | A handler listening neither to the message's type nor to `*` is not called. |
| Router.EachTypeReachesItsHandler | packages/kernel/src/router.ts:5-19 | With one distinct handler per type, a message of each type reaches exactly its own handler, once. |
| Router.OffTypeStopsCalls | packages/kernel/src/router.ts:21-23 | After `offType`, the handler is no longer called for messages of that type. |
| Router.MessageRouter.constructor | packages/kernel/src/router.ts:4 | A new router has no listeners. |
| Router.MessageRouter.On | packages/kernel/src/router.ts:18 | The listeners become `Added` of the previous listeners. |
| Router.MessageRouter.Off | packages/kernel/src/router.ts:22 | The listeners become `Removed` of the previous listeners. |
| Router.MessageRouter.OnType | packages/kernel/src/router.ts:17-19 | `onType` registers under the type's name. |
| Router.MessageRouter.OffType | packages/kernel/src/router.ts:21-23 | `offType` unregisters under the type's name. |
| Router.MessageRouter.Dispatch | packages/kernel/src/router.ts:5-15 | Routing calls the handlers `Route` names, reading the registry without changing it. |
| Gateway.VerifyClient | packages/kernel/src/server.ts:74-95 | A client is admitted exactly when its origin is absent, empty or allowed (or the list is empty), the header starts with `Bearer `, and the rest is a valid token. Each refusal carries its own message. |
| Gateway.OriginCheckedFirst | packages/kernel/src/server.ts:76-81 | A disallowed origin is refused whatever the credentials. |
| Gateway.BearerRequired | packages/kernel/src/server.ts:84-87 | A missing header, or one not starting with exactly `Bearer ` (so `bearer` fails), is refused with the header message. |
| Gateway.TokenIsRestOfHeader | packages/kernel/src/server.ts:89-94 | The token checked is the header without its first seven characters. |
| Gateway.AdmissionOf | packages/kernel/src/server.ts:36-43 | A refusal is answered with 401 and the check's message, or `Unauthorized` when it is empty. |
| Gateway.TokenClaims | packages/kernel/src/server.ts:23-27 | The signed claims are the caller's with `iss` forced to `crevnclaw`. |
| Gateway.WithClient | packages/kernel/src/server.ts:47 | Adding a client keeps the set without repeats and grows it by one exactly when the client is new. |
| Gateway.WithoutClient | packages/kernel/src/server.ts:60 | Deleting a client removes exactly it. |
| Gateway.BroadcastOutputs | packages/kernel/src/server.ts:97-104 | Broadcast sends the same payload to every open client and to no one else. |
| Gateway.BroadcastOncePerOpenClient | packages/kernel/src/server.ts:99-103 | Each open client receives the payload exactly once and a closed one never. |
| Gateway.ShutdownOutputs | packages/kernel/src/server.ts:111-113 | Shutdown closes every client with 1001 and `Server shutting down`, in set order. |
| Gateway.ClientCountTracksSet | packages/kernel/src/server.ts:106-108 | The count grows by one on a new client's connection and drops by one on its close. |
| Gateway.GatewayServer.GetClientCount | packages/kernel/src/server.ts:106-108 | The count is the size of the set of connected sockets: with distinct entries, the list's length equals the size of the set it stands for. |
| Gateway.GatewayServer.constructor | packages/kernel/src/server.ts:18-21 | A new server is not listening and has no clients, events or outputs. |
| Gateway.GatewayServer.Start | packages/kernel/src/server.ts:33-44 | The server starts listening and nothing else changes. |
| Gateway.GatewayServer.Upgrade | packages/kernel/src/server.ts:36-48 | The handshake answer is `AdmissionOf(VerifyClient(...))`. Only an admitted client joins the set and emits `connection`. |
| Gateway.GatewayServer.Receive | packages/kernel/src/server.ts:50-57 | A JSON frame is re-emitted as `message`. Anything else gets the `Invalid JSON` reply and no event. |
| Gateway.GatewayServer.Close | packages/kernel/src/server.ts:59-62 | A closing client leaves the set and `disconnect` is emitted. |
| Gateway.GatewayServer.Broadcast | packages/kernel/src/server.ts:97-104 | The outputs grow by `BroadcastOutputs` for the serialised data. |
| Gateway.GatewayServer.Shutdown | packages/kernel/src/server.ts:110-126 | Every client is closed, the set is emptied and the server stops listening. |
| OrderedMap.Set | packages/sandbox/src/tools.ts:7 | `Map.set` stores the value under the key. A new key is appended to the iteration order; an existing key keeps its place. |
| OrderedMap.Delete | packages/kernel/src/mcp.ts:76 | `Map.delete` removes the key and its value; deleting the first key leaves the rest in order. |
| JsonRpc.Split | packages/kernel/src/mcp.ts:87 | `split('\n')` yields at least one piece. |
| JsonRpc.SplitPiecesHaveNoNewline | packages/kernel/src/mcp.ts:87 | No piece of a split holds a newline. |
| JsonRpc.JoinSplit | packages/kernel/src/mcp.ts:87 | Joining the pieces with newlines gives the text back. |
| JsonRpc.SplitJoin | packages/kernel/src/mcp.ts:87 | Splitting newline-free pieces joined by newlines gives the pieces back. |
| JsonRpc.NonEmpty | packages/kernel/src/mcp.ts:87 | `filter(Boolean)` keeps no empty string. |
| JsonRpc.NonEmptyCounts | packages/kernel/src/mcp.ts:87 | Filtering keeps every non-empty piece as often as it occurs and drops every empty one (multiset equality). |
| JsonRpc.NonEmptyKeeps | packages/kernel/src/mcp.ts:87 | Filtering keeps exactly the non-empty pieces: every kept piece is a piece of the input, and every non-empty input piece is kept, as often as it occurs. `NonEmptyAppend` gives the order. |
| JsonRpc.LinesAreLines | packages/kernel/src/mcp.ts:87 | Every line of a chunk is non-empty and newline-free. |
| JsonRpc.ReplyOf | packages/kernel/src/mcp.ts:93-97 | A truthy `error` rejects with its message; otherwise `result` resolves. |
| JsonRpc.MatchLine | packages/kernel/src/mcp.ts:89-100 | A line answers the request exactly when it parses to an object whose `id` is the request's id. |
| JsonRpc.MatchLines | packages/kernel/src/mcp.ts:88-101 | The first answering line decides; lines that fail to parse or carry another id are skipped. |
| JsonRpc.MatchLinesAppend | packages/kernel/src/mcp.ts:88-101 | Matching a concatenation looks at the second part only when the first does not answer. |
| JsonRpc.HandleData | packages/kernel/src/mcp.ts:86-102 | The handler's loop settles the request with what `MatchChunk` decides for the chunk. |
| JsonRpc.FirstAnsweringChunkSettles | packages/kernel/src/mcp.ts:86-102 | The first chunk that answers the request settles it with that chunk's reply, whatever comes after. |
| JsonRpc.NoAnswerTimesOut | packages/kernel/src/mcp.ts:107-110 | When no chunk answers, the request is rejected with `MCP request timeout: <method>`. |
| JsonRpc.Await | packages/kernel/src/mcp.ts:86-110 | Feeding the chunks to the handler in turn gives `AwaitPerChunk`, the per-chunk matching the two lemmas above characterise. |
| JsonRpc.CompleteLinesAfter | packages/kernel/src/mcp.ts:87 | The complete lines of a longer stream are those of a prefix, then those its unterminated tail starts. |
| JsonRpc.BufferedIgnoresChunking | packages/kernel/src/mcp.ts:86-102 | A matcher that buffers the unterminated tail decides the same reply however the stream is cut into chunks. |
| JsonRpc.SplitReplyTimesOut | packages/kernel/src/mcp.ts:86-110 | Sent whole, a reply line settles the request. Cut into two chunks whose halves do not parse, the as-written handler times out, while the buffering matcher still settles with the reply. |
| JsonRpc.ResponseCutAfterId | packages/kernel/src/mcp.ts:86-110 | The concrete case: `{"jsonrpc":"2.0","id":1,"result":{}}` cut after `"id":1,`. |
| Mcp.Initial | packages/kernel/src/mcp.ts:15-17 | A new host has no servers, no tools, the counter at 1 and nothing written. |
| Mcp.RequestIdsIncrease | packages/kernel/src/mcp.ts:81-84 | Request ids are distinct, increase in writing order, and stay below the counter. |
| Mcp.RequestTakesNextId | packages/kernel/src/mcp.ts:81-105 | A request is written with the current counter value as its id, and the counter increments. |
| Mcp.NotificationKeepsIds | packages/kernel/src/mcp.ts:114-117 | A notification is written without an id and leaves the counter alone. |
| Mcp.ToolsOf | packages/kernel/src/mcp.ts:39-41 | `result?.tools \|\| []`: a truthy `tools` array's items, no items for a falsy one or a non-object result, and the not-iterable error for a truthy non-array. |
| Mcp.NormaliseDefaults | packages/kernel/src/mcp.ts:42-46 | The name is kept. A falsy description becomes `''` and a falsy input schema `{}`; truthy ones are kept. |
| Mcp.NormalisedPrefix | packages/kernel/src/mcp.ts:41-48 | The items are normalised in order up to the first malformed one. |
| Mcp.Registered | packages/kernel/src/mcp.ts:41-48 | Registering a server's tools keeps the tool map well formed. |
| Mcp.RegisteredLeavesOthers | packages/kernel/src/mcp.ts:47 | Registering leaves every other key's entry, or absence, alone. |
| Mcp.RegisteredLastWins | packages/kernel/src/mcp.ts:47 | Each tool is found under `<server>:<name>`, and the last tool of a repeated name wins. |
| Mcp.KeyDeterminesTool | packages/kernel/src/mcp.ts:47 | One server's keys for two tools are equal exactly when the names are. |
| Mcp.KeyDeterminesServerAndTool | packages/kernel/src/mcp.ts:47 | Server names without a colon make the key determine both the server and the tool. |
| Mcp.ColonInServerNameCollides | packages/kernel/src/mcp.ts:47 | With a colon in a server name, tools of two servers share one key. |
| Mcp.Handshake | packages/kernel/src/mcp.ts:25-38 | The server is recorded, then `initialize`, `initialized` and `tools/list` follow; the tools are not touched. |
| Mcp.Discover | packages/kernel/src/mcp.ts:39-54 | Discovery keeps the tool map well formed. |
| Mcp.HandshakeOrder | packages/kernel/src/mcp.ts:25-38 | The server is recorded before anything is written. If `initialize` fails, nothing else is written. Otherwise `initialize`, `initialized` and `tools/list` are written in that order with consecutive ids. |
| Mcp.ConnectKeepsInvariant | packages/kernel/src/mcp.ts:19-55 | `connect` keeps the host invariant. The tools change only after both requests resolved. |
| Mcp.DiscoverRegistersTools | packages/kernel/src/mcp.ts:41-54 | A successful discovery returns the normalised tools, each registered under `<server>:<name>` unless a later tool of that name replaced it. |
| Mcp.CallToolGuard | packages/kernel/src/mcp.ts:57-67 | Exactly an unknown server is refused with `MCP server not connected: <name>`, and refusing changes nothing. Otherwise one `tools/call` request goes to that server's process. |
| Mcp.ToolList | packages/kernel/src/mcp.ts:69-71 | Every registered definition is listed, in registration order. |
| Mcp.DisconnectClears | packages/kernel/src/mcp.ts:73-79 | After `disconnectAll` every process has been killed, no tool is listed, and every call is refused. |
| Mcp.PrefixStops | packages/kernel/src/mcp.ts:41-46 | The first malformed item ends the registration loop. |
| Mcp.McpHost.constructor | packages/kernel/src/mcp.ts:15-17 | A new host is `Initial()`. |
| Mcp.McpHost.SendRequest | packages/kernel/src/mcp.ts:81-112 | The host moves to `AfterRequest` of its previous state, and the reply is the awaited one. |
| Mcp.McpHost.SendNotification | packages/kernel/src/mcp.ts:114-117 | The host moves to `AfterNotify`. |
| Mcp.McpHost.Connect | packages/kernel/src/mcp.ts:19-55 | The host and result are `AfterConnect` of the previous state. |
| Mcp.McpHost.RegisterTools | packages/kernel/src/mcp.ts:39-54 | The loop leaves the tools and the result `Discover` computes. |
| Mcp.McpHost.CallTool | packages/kernel/src/mcp.ts:57-67 | The host and result are `AfterCallTool` of the previous state. |
| Mcp.McpHost.DisconnectAll | packages/kernel/src/mcp.ts:73-79 | The host becomes `AfterDisconnect` of its previous state. |
| Mcp.McpHost.KillAll | packages/kernel/src/mcp.ts:74-77 | Every server is killed in connection order and the server map ends empty. |
| SandboxTools.WithTool | packages/sandbox/src/tools.ts:6-8 | Registering keeps the registry well formed. |
| SandboxTools.Definitions | packages/sandbox/src/tools.ts:14-20 | `listTools` gives one definition per entry, in registration order, with name, description and input schema. |
| SandboxTools.LookupAfterRegister | packages/sandbox/src/tools.ts:6-12 | After `register(t)`, `get(t.name)` is `t` and every other name reads as before. |
| SandboxTools.ContainsIffLookup | packages/sandbox/src/tools.ts:10-24 | `has` holds exactly when `get` returns an entry. |
| SandboxTools.ListAfterRegister | packages/sandbox/src/tools.ts:6-20 | A new name's definition is appended to the list. An existing name's definition is replaced in place. |
| SandboxTools.ToolRegistry.constructor | packages/sandbox/src/tools.ts:4 | A new registry is empty. |
| SandboxTools.ToolRegistry.Register | packages/sandbox/src/tools.ts:6-8 | The map becomes `WithTool` of the previous map. |
| Executor.ParseMemoryLimit | packages/sandbox/src/executor.ts:76-81 | `<digits>g` or `G` gives the number times 1024³. `<digits>m` or `M` gives it times 1024². Anything else gives 512·1024·1024. |
| Executor.MegabytesRoundTrip | packages/sandbox/src/executor.ts:77-80 | Writing n followed by `m` or `M` parses back to n·1024·1024. |
| Executor.GigabytesRoundTrip | packages/sandbox/src/executor.ts:77-80 | Writing n followed by `g` or `G` parses back to n·1024³. |
| Executor.UnitCaseInsensitive | packages/sandbox/src/executor.ts:77-80 | The unit letter's case does not matter. |
| Executor.OthersUseDefault | packages/sandbox/src/executor.ts:77-78 | A missing unit, another unit, a sign, a space or a missing number give the default. |
| Executor.EnvLineRoundTrip | packages/sandbox/src/executor.ts:35 | A `k=v` entry splits back into its key and value at the first `=` when the key holds none. |
| Executor.EnvLines | packages/sandbox/src/executor.ts:35 | One `k=v` string per entry, in entry order. |
| Executor.ContainerOptionsOf | packages/sandbox/src/executor.ts:32-43 | The container gets the image, command and working directory, and the parsed memory limit with auto-remove off. Networking is disabled unless `hostNetwork` is true. `Env` is absent exactly when no env was given. |
| Executor.EnvPassedInOrder | packages/sandbox/src/executor.ts:35 | Each env entry is passed on at its position and can be read back. |
| Executor.Outcome | packages/sandbox/src/executor.ts:47-61 | An exited run returns its logs as stdout, empty stderr and its status code. A timeout throws `Execution timeout`, and a failure throws its own error. |
| Executor.Added | packages/sandbox/src/executor.ts:45 | `Set.add` keeps every member and adds the container. |
| Executor.Removed | packages/sandbox/src/executor.ts:63 | `Set.delete` removes exactly the container. |
| Executor.AddThenRemove | packages/sandbox/src/executor.ts:45-63 | An `execute` leaves the active set as it found it. |
| Executor.DockerExecutor.constructor | packages/sandbox/src/executor.ts:23-26 | A new executor has no active containers. |
| Executor.DockerExecutor.Create | packages/sandbox/src/executor.ts:30-45 | The container is created with `ContainerOptionsOf` and joins the active set. |
| Executor.DockerExecutor.Finish | packages/sandbox/src/executor.ts:46-65 | However the run ends, the container leaves the active set and is removed by force; the result is `Outcome`. |
| Executor.DockerExecutor.Execute | packages/sandbox/src/executor.ts:28-66 | The active set is unchanged afterwards and the container has been removed once. |
| Executor.DockerExecutor.PanicKill | packages/sandbox/src/executor.ts:68-74 | Every active container is removed by force, in set order, and the set ends empty. |
| Bedrock.Wire | packages/kernel/src/providers/bedrock.ts:95-100 | Role `tool` goes on the wire as `user`. A message with a non-empty `tool_call_id` becomes one `tool_result` block with that id and its content; others keep their text. |
| Bedrock.BuildRequestBody | packages/kernel/src/providers/bedrock.ts:88-116 | The body has `anthropic_version` `bedrock-2023-05-31` and `max_tokens` 4096. It has one wire message per non-system message, in order, and `system` exactly when there are system messages. `tools` appears exactly for a non-empty list. |
| Bedrock.FiltersAppend | packages/kernel/src/providers/bedrock.ts:89-90 | Both filters distribute over concatenation, so each keeps the messages' order. |
| Bedrock.FiltersPartition | packages/kernel/src/providers/bedrock.ts:89-90 | Every message lands in exactly one of the two filters. |
| Bedrock.NoSystemOnTheWire | packages/kernel/src/providers/bedrock.ts:95-96 | No wire message has role `system`. |
| Bedrock.SystemFieldIffSystemMessage | packages/kernel/src/providers/bedrock.ts:103-105 | `system` is present exactly when some message has role `system`. |
| Bedrock.SystemContentsRecoverable | packages/kernel/src/providers/bedrock.ts:103-105 | `system` is the system contents joined by `\n`. When they hold no newline, splitting gives them back in order. |
| Bedrock.SystemAndUserExample | packages/kernel/src/__tests__/bedrock.test.ts:70-93 | A system message and a user message give `system` and one `user` message. |
| Bedrock.Count | packages/kernel/src/providers/bedrock.ts:143-144 | `usage?.x ?? 0` passes a non-null count of an object `usage` through unchanged. A null or missing count, or a `usage` that is missing or not an object, gives 0. The result is never null. |
| Bedrock.Parsed | packages/kernel/src/providers/bedrock.ts:118-149 | Parsing fails exactly when a content block is `null`. A success carries the instance's model and `bedrock`. |
| Bedrock.ParseResponse | packages/kernel/src/providers/bedrock.ts:118-149 | The loop's result is `Parsed`. |
| Bedrock.TextOfAppend | packages/kernel/src/providers/bedrock.ts:124-127 | Text blocks are concatenated in order. |
| Bedrock.CallsOfAppend | packages/kernel/src/providers/bedrock.ts:124-133 | `tool_use` blocks are collected in order. |
| Bedrock.OtherBlockIgnored | packages/kernel/src/providers/bedrock.ts:125-134 | Other block kinds add neither text nor calls. |
| Bedrock.CallsCountToolUses | packages/kernel/src/providers/bedrock.ts:127-133 | No calls are collected exactly when no block is `tool_use`. |
| Bedrock.ToolCallsAbsentIffNoToolUse | packages/kernel/src/providers/bedrock.ts:141 | `tool_calls` is absent exactly when the reply has no `tool_use` block. |
| Bedrock.UsageDefaultsToZero | packages/kernel/src/providers/bedrock.ts:137-145 | Missing usage gives zero counts. |
| Bedrock.ParsedUsage | packages/kernel/src/providers/bedrock.ts:137-145 | For every parsed response, each reported count is the non-null count given in an object `usage`, and 0 otherwise. |
| Bedrock.TextReplyExample | packages/kernel/src/__tests__/bedrock.test.ts:15-37 | A single text block with usage 10/5 gives that text and those counts. |
| Bedrock.ToolUseReplyExample | packages/kernel/src/__tests__/bedrock.test.ts:39-68 | A text block and a `tool_use` block give the text and one call with the block's id, name and serialised input. |
| Providers.CreateProvider | packages/kernel/src/providers/index.ts:4-24 | A provider is created exactly for `bedrock` with a non-empty region, using the configured model. `bedrock` without a region throws `Bedrock provider requires a region`. `anthropic` and `openai` throw their "not yet implemented" errors. Any other type throws `Unknown provider type: <type>`. |
| Providers.UnimplementedTypes | packages/kernel/src/providers/index.ts:15-19 | Both unimplemented types fail with a message ending in `not yet implemented`. |

## Left out

- **Real I/O and timers.** Processes, sockets, Docker, AWS and timers are parameters or left out:
  - `spawn`, stdin writes (kept as a trace of messages) and the 10-second request timer; a request whose chunks all fail to answer times out;
  - the WebSocket server and socket events;
  - Docker calls;
  - the AWS client, `streamChat` and `embed`;
  - the process environment passed to MCP servers.
- **Concurrency.** It is modelled as explicit interleaving:
  - the enqueues that arrive while a scheduler task body runs are a `during` parameter;
  - abort-signal listeners, real promises and event-loop timing are not modelled.
- **Oracles.** JSON parsing and serialisation, YAML loading, JWT signing and verification, zod's date-time grammar, task bodies and workflow action handlers are oracles given as parameters.
- **Error texts.** Zod's issue lists and the exact text of JavaScript `TypeError`s are not modelled. The one `TypeError` that matters (a `null` Bedrock content block) has a fixed message.
- **Number formats.** Floating point and formatting are not modelled:
  - `toFixed` renderings in the breaker's reasons (a reason records both numbers);
  - `cpuLimit * 1e9`;
  - integer precision of `parseInt` on very long digit strings;
  - JSON numbers are integers.
- **Clock values.** Times (`Date.now()`, `frozen_at`, durations) are parameters.
- WorkflowEngine.Exec: the step loop is bounded by a fuel count, and running out is a separate outcome. A workflow whose steps form a cycle loops forever in the source.
- Mcp.Discover: an item that is not an object with a string name, a string or falsy description and an object or falsy schema stops discovery with an error. The source throws only for `null` or `undefined` items and registers other odd values as they are.
- Mcp.ToolsOf: a truthy `tools` string is treated as not iterable. The source would iterate over its characters.
- Mcp.ColonInServerNameCollides: a colon in a server name can make two tools share a key. This is recorded as a property, not corrected.
- Executor.EnvLines: a key that contains `=` makes `k=v` ambiguous. The model does not correct this.
- Executor.DockerExecutor.Create: a failing `createContainer` adds nothing to the set, so it is not modelled as a call. `container.remove` errors are swallowed, and removals are kept as a trace.
- Bedrock.Parsed: a response body that is not a JSON object is not modelled.
- A chat message's own `tool_calls` are not part of the message model, because the request builder never reads them.
- Gateway: `validateToken` and `generateToken`'s signing and expiry are outside the model; only the claims are shaped.
- The Node event emitter's delivery semantics beyond ordered listener lists are not modelled: no `once` and no listener limits. `removeListener` matches by handler identity. A listener that throws is not modelled either: in `GatewayServer.Receive` a throwing `message` listener would also get the `Invalid JSON` reply, because the emit sits inside the `try`.
- WorkflowEngine.Engine: the engine emits and returns its live `this.state` object, so a listener or caller that keeps the reference sees every later change. The model's event payloads and results are value snapshots of the state, not the live state object.
- WorkflowEngine.HandlerResult: only `Error` rejections are modelled. The source stores `err.message` for any thrown value: a thrown string stores `undefined`, and a thrown `null` raises a `TypeError` out of the `catch`. `Rejected(message)` carries a string message and represents neither case.
- Scheduling.Settle: a reported failure always appends an `error` event and the flush goes on. With no `error` listener, the source's `emit('error', err)` throws out of the `catch`: the marker is still cleared, `flush()` rejects, and the remaining tasks stay queued. The scheduler state has no listener registry, so this path is not modelled; every flush lemma assumes an `error` listener is registered.
- `packages/kernel/src/pairing.ts`, the memory packages, the dashboard, the CLI and configuration loading are not part of this model.

## Findings

| source | as written | input that shows it | evidently intended | confidence | as-written member | corrected member |
|---|---|---|---|---|---|---|
| packages/kernel/src/mcp.ts:86-101 | The `data` handler splits each stdout chunk into lines on its own. A reply line cut across two chunks never parses in either, so the request times out. | `{"jsonrpc":"2.0","id":1,"result":{}}` followed by a newline, delivered as two chunks cut after `"id":1,` | Lines are buffered across chunks, so the reply settles the request however the stream is chunked | not executed | JsonRpc.SplitReplyTimesOut | JsonRpc.BufferedIgnoresChunking |
