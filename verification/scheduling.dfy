/**
 * The priority-lane scheduler of the kernel (packages/kernel/src/scheduler.ts).
 *
 * Three FIFO queues, one per lane, a marker for the Background task that is running,
 * and one abort flag per task (the task's AbortController). A task body is an oracle:
 * given whether its signal is aborted when it settles, it completes or fails with a
 * message. Work that arrives while a task body is awaiting (the only way anything can
 * happen "during" a task in a single-threaded program) is given to `Flush` explicitly:
 * `during[k]` is the list of enqueues that happen while the k-th started task runs.
 */
module Scheduling {
  import opened Wrappers
  import opened Seqs

  datatype Lane = System | Interactive | Background

  /** The enum's numeric value; a lower value runs first. */
  function Rank(l: Lane): nat
  {
    match l
    case System => 0
    case Interactive => 1
    case Background => 2
  }

  /** The fixed order in which `flush` visits the lanes. */
  const LaneOrder: seq<Lane> := [System, Interactive, Background]

  /** A handle naming a task's work function. */
  type Work = nat

  /** The identity of a task (and of its AbortController). */
  type TaskId = nat

  datatype Task = Task(id: TaskId, lane: Lane, work: Work)

  /** How a task body settles: it resolves, or it rejects with an error message. */
  datatype Outcome = Completed | Failed(message: string)

  /** The message of the error a preempted background task is aborted with. */
  const PreemptedMessage: string := "Preempted by interactive task"

  /** Events the scheduler emits, in emission order. */
  datatype Event = EnqueueEvent(lane: Lane) | ErrorEvent(message: string)

  /** One call `enqueue(lane, work)`. */
  datatype Request = Request(lane: Lane, work: Work)

  /**
   * The scheduler's whole state as a value. `ran` is the order in which task bodies were
   * invoked (what the tests observe through the bodies' own side effects).
   */
  datatype SchedulerState = SchedulerState(
    system: seq<Task>,
    interactive: seq<Task>,
    background: seq<Task>,
    runningBackground: Option<TaskId>,
    aborted: set<TaskId>,
    nextId: TaskId,
    events: seq<Event>,
    ran: seq<Task>)
  {
    function Queue(l: Lane): seq<Task>
    {
      match l
      case System => system
      case Interactive => interactive
      case Background => background
    }

    function WithQueue(l: Lane, q: seq<Task>): (r: SchedulerState)
      ensures r.Queue(l) == q
      ensures forall l' :: l' != l ==> r.Queue(l') == Queue(l')
      ensures r.runningBackground == runningBackground && r.aborted == aborted
      ensures r.nextId == nextId && r.events == events && r.ran == ran
    {
      match l
      case System => this.(system := q)
      case Interactive => this.(interactive := q)
      case Background => this.(background := q)
    }

    /** The total number of queued tasks. */
    function Size(): nat
    {
      |system| + |interactive| + |background|
    }
  }

  function Initial(): SchedulerState
  {
    SchedulerState([], [], [], None, {}, 0, [], [])
  }

  /** Every queued task sits in its own lane's queue, and every identity in use is below `nextId`. */
  ghost predicate QueueWf(q: seq<Task>, l: Lane, nextId: TaskId)
  {
    forall i :: 0 <= i < |q| ==> q[i].lane == l && q[i].id < nextId
  }

  ghost predicate Wf(s: SchedulerState)
  {
    QueueWf(s.system, System, s.nextId) &&
    QueueWf(s.interactive, Interactive, s.nextId) &&
    QueueWf(s.background, Background, s.nextId) &&
    (forall id :: id in s.aborted ==> id < s.nextId) &&
    (s.runningBackground.Some? ==> s.runningBackground.value < s.nextId)
  }

  lemma InitialWf()
    ensures Wf(Initial())
  {
  }

  /**
   * `enqueue(lane, work)`: append one fresh task to that lane; an Interactive enqueue
   * while a Background task is marked running aborts that task and clears the marker;
   * emit one `enqueue` event carrying the lane.
   */
  function Enqueued(s: SchedulerState, lane: Lane, work: Work): (r: SchedulerState)
    ensures r.Queue(lane) == s.Queue(lane) + [Task(s.nextId, lane, work)]
    ensures forall l :: l != lane ==> r.Queue(l) == s.Queue(l)
    ensures r.events == s.events + [EnqueueEvent(lane)]
    ensures r.nextId == s.nextId + 1 && r.ran == s.ran
    ensures lane == Interactive && s.runningBackground.Some? ==>
              r.aborted == s.aborted + {s.runningBackground.value} && r.runningBackground == None
    ensures !(lane == Interactive && s.runningBackground.Some?) ==>
              r.aborted == s.aborted && r.runningBackground == s.runningBackground
    ensures Wf(s) ==> Wf(r) && s.nextId !in r.aborted
  {
    var task := Task(s.nextId, lane, work);
    var pushed := s.WithQueue(lane, s.Queue(lane) + [task]).(nextId := s.nextId + 1);
    var preempted :=
      if lane == Interactive && s.runningBackground.Some? then
        pushed.(aborted := s.aborted + {s.runningBackground.value}, runningBackground := None)
      else pushed;
    preempted.(events := s.events + [EnqueueEvent(lane)])
  }

  /** Several enqueues, in order. */
  function EnqueuedAll(s: SchedulerState, reqs: seq<Request>): (r: SchedulerState)
    ensures r.Size() == s.Size() + |reqs|
    ensures r.ran == s.ran
    decreases |reqs|
  {
    if reqs == [] then s
    else EnqueuedAll(Enqueued(s, reqs[0].lane, reqs[0].work), reqs[1..])
  }

  /** Enqueues only append to the lanes and keep the state well formed. */
  lemma {:induction false} EnqueuedAllAppends(s: SchedulerState, reqs: seq<Request>)
    ensures var r := EnqueuedAll(s, reqs);
      (Wf(s) ==> Wf(r)) &&
      forall l :: |s.Queue(l)| <= |r.Queue(l)| && r.Queue(l)[..|s.Queue(l)|] == s.Queue(l)
    decreases |reqs|
  {
    if reqs != [] {
      var s' := Enqueued(s, reqs[0].lane, reqs[0].work);
      EnqueuedAllAppends(s', reqs[1..]);
      var r := EnqueuedAll(s, reqs);
      forall l ensures |s.Queue(l)| <= |r.Queue(l)| && r.Queue(l)[..|s.Queue(l)|] == s.Queue(l) {
        assert s'.Queue(l)[..|s.Queue(l)|] == s.Queue(l);
        PrefixTrans(s.Queue(l), s'.Queue(l), r.Queue(l));
      }
    }
  }

  /** The enqueues that arrive while the k-th started task runs. */
  function Arrivals(during: seq<seq<Request>>, k: nat): seq<Request>
  {
    if k < |during| then during[k] else []
  }

  /** The number of enqueues still to arrive from the k-th started task on. */
  function Pending(during: seq<seq<Request>>, k: nat): nat
    decreases |during| - k
  {
    if k >= |during| then 0 else |during[k]| + Pending(during, k + 1)
  }

  /** A task starts: it is marked running if it was taken from the Background lane, and its body is invoked. */
  function Begin(s: SchedulerState, lane: Lane, task: Task): (r: SchedulerState)
    ensures r.runningBackground == if lane == Background then Some(task.id) else s.runningBackground
    ensures r.ran == s.ran + [task]
    ensures forall l :: r.Queue(l) == s.Queue(l)
    ensures r.aborted == s.aborted && r.nextId == s.nextId && r.events == s.events
  {
    var marked := if lane == Background then s.(runningBackground := Some(task.id)) else s;
    marked.(ran := s.ran + [task])
  }

  /** Whether a failure is reported: every failure except the preemption sentinel. */
  predicate Reported(outcome: Outcome)
  {
    outcome.Failed? && outcome.message != PreemptedMessage
  }

  /**
   * A task's body settles: a failure other than the preemption sentinel emits one `error`
   * event; the marker is cleared if (and only if) it still refers to this task.
   */
  function Settle(s: SchedulerState, task: Task, outcome: Outcome): (r: SchedulerState)
    ensures Reported(outcome) ==> r.events == s.events + [ErrorEvent(outcome.message)]
    ensures !Reported(outcome) ==> r.events == s.events
    ensures r.runningBackground != Some(task.id)
    ensures s.runningBackground != Some(task.id) ==> r.runningBackground == s.runningBackground
    ensures forall l :: r.Queue(l) == s.Queue(l)
    ensures r.aborted == s.aborted && r.nextId == s.nextId && r.ran == s.ran
  {
    var reported := if Reported(outcome) then s.(events := s.events + [ErrorEvent(outcome.message)]) else s;
    if reported.runningBackground == Some(task.id) then reported.(runningBackground := None) else reported
  }

  /**
   * Running one dequeued, non-aborted task: begin it, let the concurrent enqueues arrive,
   * and settle it with the body's outcome for its abort flag at that moment.
   */
  function RunTask(s: SchedulerState, lane: Lane, task: Task, body: (Work, bool) -> Outcome,
                   arrivals: seq<Request>): (r: SchedulerState)
    ensures r.Size() == s.Size() + |arrivals|
    ensures r.ran == s.ran + [task]
    ensures r.runningBackground != Some(task.id)
  {
    var running := EnqueuedAll(Begin(s, lane, task), arrivals);
    Settle(running, task, body(task.work, task.id in running.aborted))
  }

  /**
   * The remainder of `flush` from lane index `i`, after `k` task bodies have started:
   * drain lane i head first, skipping aborted tasks, then move to lane i + 1.
   */
  function FlushFrom(s: SchedulerState, i: nat, k: nat, body: (Work, bool) -> Outcome,
                     during: seq<seq<Request>>): SchedulerState
    requires i <= 3
    decreases 3 - i, Pending(during, k) + s.Size()
  {
    if i == 3 then s
    else
      var lane := LaneOrder[i];
      var q := s.Queue(lane);
      if q == [] then FlushFrom(s, i + 1, k, body, during)
      else
        var task := q[0];
        var shifted := s.WithQueue(lane, q[1..]);
        if task.id in shifted.aborted then FlushFrom(shifted, i, k, body, during)
        else FlushFrom(RunTask(shifted, lane, task, body, Arrivals(during, k)), i, k + 1, body, during)
  }

  /** `flush()`: the state after one complete pass over the three lanes. */
  function Flushed(s: SchedulerState, body: (Work, bool) -> Outcome, during: seq<seq<Request>>): SchedulerState
  {
    FlushFrom(s, 0, 0, body, during)
  }

  // ---------------------------------------------------------------------------------
  // Properties of a flush pass, whatever arrives while it runs.
  // ---------------------------------------------------------------------------------

  /** Task lanes never go back to a higher priority along a sequence of runs. */
  ghost predicate LaneSorted(ts: seq<Task>)
  {
    forall a, b :: 0 <= a < b < |ts| ==> Rank(ts[a].lane) <= Rank(ts[b].lane)
  }

  /**
   * `after` extends `before` by tasks of lane index i or later, in lane order.
   */
  ghost predicate StartsInOrder(before: seq<Task>, after: seq<Task>, i: nat)
  {
    |before| <= |after| && after[..|before|] == before &&
    LaneSorted(after[|before|..]) &&
    (forall t :: t in after[|before|..] ==> i <= Rank(t.lane))
  }

  lemma StartsInOrderStep(before: seq<Task>, task: Task, after: seq<Task>, i: nat)
    requires Rank(task.lane) == i
    requires StartsInOrder(before + [task], after, i)
    ensures StartsInOrder(before, after, i)
  {
    assert after[|before|..] == [task] + after[|before| + 1..];
    assert after[..|before|] == (before + [task])[..|before|];
  }

  /** Taking the head of a lane keeps the state well formed; the head belongs to that lane. */
  lemma ShiftWf(s: SchedulerState, lane: Lane)
    requires Wf(s) && s.Queue(lane) != []
    ensures Wf(s.WithQueue(lane, s.Queue(lane)[1..]))
    ensures s.Queue(lane)[0].lane == lane && s.Queue(lane)[0].id < s.nextId
  {
    var shifted := s.WithQueue(lane, s.Queue(lane)[1..]);
    assert forall l :: QueueWf(s.Queue(l), l, s.nextId) ==> QueueWf(shifted.Queue(l), l, s.nextId);
    assert QueueWf(s.Queue(lane), lane, s.nextId);
  }

  lemma RunTaskWf(s: SchedulerState, lane: Lane, task: Task, body: (Work, bool) -> Outcome, arrivals: seq<Request>)
    requires Wf(s) && task.id < s.nextId
    ensures Wf(RunTask(s, lane, task, body, arrivals))
  {
    var begun := Begin(s, lane, task);
    assert Wf(begun) by {
      assert forall l :: begun.Queue(l) == s.Queue(l);
    }
    EnqueuedAllAppends(begun, arrivals);
  }

  /**
   * From lane index i on, a flush only starts tasks of lane i or later, in lane order,
   * and never forgets a task that had already run.
   */
  lemma {:induction false} FlushFromOrdered(s: SchedulerState, i: nat, k: nat,
                                             body: (Work, bool) -> Outcome, during: seq<seq<Request>>)
    requires i <= 3 && Wf(s)
    ensures StartsInOrder(s.ran, FlushFrom(s, i, k, body, during).ran, i)
    decreases 3 - i, Pending(during, k) + s.Size()
  {
    if i == 3 {
      assert s.ran[|s.ran|..] == [];
    } else {
      var lane := LaneOrder[i];
      var q := s.Queue(lane);
      if q == [] {
        FlushFromOrdered(s, i + 1, k, body, during);
      } else {
        var task := q[0];
        var shifted := s.WithQueue(lane, q[1..]);
        ShiftWf(s, lane);
        if task.id in shifted.aborted {
          FlushFromOrdered(shifted, i, k, body, during);
        } else {
          var next := RunTask(shifted, lane, task, body, Arrivals(during, k));
          RunTaskWf(shifted, lane, task, body, Arrivals(during, k));
          FlushFromOrdered(next, i, k + 1, body, during);
          assert Rank(lane) == i;
          StartsInOrderStep(s.ran, task, FlushFrom(next, i, k + 1, body, during).ran, i);
        }
      }
    }
  }

  /** A full flush starts tasks in lane order: System, then Interactive, then Background. */
  lemma FlushLaneOrder(s: SchedulerState, body: (Work, bool) -> Outcome, during: seq<seq<Request>>)
    requires Wf(s)
    ensures StartsInOrder(s.ran, Flushed(s, body, during).ran, 0)
  {
    FlushFromOrdered(s, 0, 0, body, during);
  }

  /**
   * From lane index i on, the lanes already passed are only appended to (work arriving
   * there waits for the next flush), and the Background lane ends empty.
   */
  lemma {:induction false} FlushFromKeepsPassedLanes(s: SchedulerState, i: nat, k: nat,
                                                      body: (Work, bool) -> Outcome, during: seq<seq<Request>>)
    requires i <= 3
    ensures var r := FlushFrom(s, i, k, body, during);
      (forall j :: 0 <= j < i ==>
         |s.Queue(LaneOrder[j])| <= |r.Queue(LaneOrder[j])| &&
         r.Queue(LaneOrder[j])[..|s.Queue(LaneOrder[j])|] == s.Queue(LaneOrder[j])) &&
      (i < 3 ==> r.background == [])
    decreases 3 - i, Pending(during, k) + s.Size()
  {
    if i < 3 {
      var lane := LaneOrder[i];
      var q := s.Queue(lane);
      if q == [] {
        FlushFromKeepsPassedLanes(s, i + 1, k, body, during);
        KeepsAfterEmptyLane(s, i, k, body, during);
      } else {
        var shifted := s.WithQueue(lane, q[1..]);
        if q[0].id in shifted.aborted {
          FlushFromKeepsPassedLanes(shifted, i, k, body, during);
          KeepsAfterSkip(s, i, k, body, during);
        } else {
          var next := RunTask(shifted, lane, q[0], body, Arrivals(during, k));
          FlushFromKeepsPassedLanes(next, i, k + 1, body, during);
          KeepsAfterRun(s, i, k, body, during);
        }
      }
    }
  }

  /** `FlushFromKeepsPassedLanes`'s conclusion: lanes before `i` were only appended to, and Background ends empty. */
  ghost predicate KeepsPassedLanes(s: SchedulerState, r: SchedulerState, i: nat)
    requires i <= 3
  {
    (forall j :: 0 <= j < i ==>
       |s.Queue(LaneOrder[j])| <= |r.Queue(LaneOrder[j])| &&
       r.Queue(LaneOrder[j])[..|s.Queue(LaneOrder[j])|] == s.Queue(LaneOrder[j])) &&
    (i < 3 ==> r.background == [])
  }

  /** The step past an empty lane. */
  lemma KeepsAfterEmptyLane(s: SchedulerState, i: nat, k: nat, body: (Work, bool) -> Outcome, during: seq<seq<Request>>)
    requires i < 3 && s.Queue(LaneOrder[i]) == []
    requires KeepsPassedLanes(s, FlushFrom(s, i + 1, k, body, during), i + 1)
    ensures KeepsPassedLanes(s, FlushFrom(s, i, k, body, during), i)
  {
    assert FlushFrom(s, i, k, body, during) == FlushFrom(s, i + 1, k, body, during);
    if i == 2 {
      assert FlushFrom(s, i + 1, k, body, during) == s;
    }
  }

  /** The step past an aborted task, which is dropped from its lane. */
  lemma KeepsAfterSkip(s: SchedulerState, i: nat, k: nat, body: (Work, bool) -> Outcome, during: seq<seq<Request>>)
    requires i < 3 && s.Queue(LaneOrder[i]) != []
    requires var q := s.Queue(LaneOrder[i]); q[0].id in s.aborted
    requires var q := s.Queue(LaneOrder[i]); var shifted := s.WithQueue(LaneOrder[i], q[1..]);
      KeepsPassedLanes(shifted, FlushFrom(shifted, i, k, body, during), i)
    ensures KeepsPassedLanes(s, FlushFrom(s, i, k, body, during), i)
  {
    var q := s.Queue(LaneOrder[i]);
    var shifted := s.WithQueue(LaneOrder[i], q[1..]);
    assert FlushFrom(s, i, k, body, during) == FlushFrom(shifted, i, k, body, during);
    assert forall j :: 0 <= j < i ==> shifted.Queue(LaneOrder[j]) == s.Queue(LaneOrder[j]);
  }

  /** The step that runs a task: the run only appends to queues. */
  lemma KeepsAfterRun(s: SchedulerState, i: nat, k: nat, body: (Work, bool) -> Outcome, during: seq<seq<Request>>)
    requires i < 3 && s.Queue(LaneOrder[i]) != []
    requires var q := s.Queue(LaneOrder[i]); q[0].id !in s.aborted
    requires var q := s.Queue(LaneOrder[i]); var shifted := s.WithQueue(LaneOrder[i], q[1..]);
      var next := RunTask(shifted, LaneOrder[i], q[0], body, Arrivals(during, k));
      KeepsPassedLanes(next, FlushFrom(next, i, k + 1, body, during), i)
    ensures KeepsPassedLanes(s, FlushFrom(s, i, k, body, during), i)
  {
    var lane := LaneOrder[i];
    var q := s.Queue(lane);
    var shifted := s.WithQueue(lane, q[1..]);
    var next := RunTask(shifted, lane, q[0], body, Arrivals(during, k));
    var r := FlushFrom(next, i, k + 1, body, during);
    assert FlushFrom(s, i, k, body, during) == r;
    RunTaskAppends(shifted, lane, q[0], body, Arrivals(during, k));
    forall j | 0 <= j < i
      ensures |s.Queue(LaneOrder[j])| <= |r.Queue(LaneOrder[j])|
      ensures r.Queue(LaneOrder[j])[..|s.Queue(LaneOrder[j])|] == s.Queue(LaneOrder[j])
    {
      var l := LaneOrder[j];
      assert shifted.Queue(l) == s.Queue(l);
      PrefixTrans(s.Queue(l), next.Queue(l), r.Queue(l));
    }
  }

  lemma RunTaskAppends(s: SchedulerState, lane: Lane, task: Task, body: (Work, bool) -> Outcome, arrivals: seq<Request>)
    ensures var r := RunTask(s, lane, task, body, arrivals);
      forall l :: |s.Queue(l)| <= |r.Queue(l)| && r.Queue(l)[..|s.Queue(l)|] == s.Queue(l)
  {
    EnqueuedAllAppends(Begin(s, lane, task), arrivals);
  }

  lemma PrefixTrans(a: seq<Task>, b: seq<Task>, c: seq<Task>)
    requires |a| <= |b| && b[..|a|] == a
    requires |b| <= |c| && c[..|b|] == b
    ensures |a| <= |c| && c[..|a|] == a
  {
    assert c[..|a|] == c[..|b|][..|a|];
  }

  /**
   * After any flush the Background lane is empty. Which arrivals stay queued in System or
   * Interactive is stated by `ArrivalsStayQueuedIffPassed`.
   */
  lemma FlushPassedLanes(s: SchedulerState, body: (Work, bool) -> Outcome, during: seq<seq<Request>>)
    ensures Flushed(s, body, during).background == []
  {
    FlushFromKeepsPassedLanes(s, 0, 0, body, during);
  }

  // ---------------------------------------------------------------------------------
  // Where the work enqueued during a flush ends up.
  // ---------------------------------------------------------------------------------

  /** The number of enqueues that arrive while the started tasks lo, ..., hi - 1 run. */
  function Between(during: seq<seq<Request>>, lo: nat, hi: nat): nat
    decreases hi - lo
  {
    if hi <= lo then 0 else |Arrivals(during, lo)| + Between(during, lo + 1, hi)
  }

  /** Every task queued in `c` was queued in `a` or is newer than `a`, if that holds step by step. */
  lemma QueuedOrNewerTrans(a: SchedulerState, b: SchedulerState, c: SchedulerState)
    requires QueuedOrNewer(a, b) && QueuedOrNewer(b, c)
    ensures QueuedOrNewer(a, c)
  {
  }

  /** A task in a queue is still there after the queue is appended to. */
  lemma StaysQueued(t: Task, q: seq<Task>, q': seq<Task>)
    requires t in q && |q| <= |q'| && q'[..|q|] == q
    ensures t in q'
  {
    var j :| 0 <= j < |q| && q[j] == t;
    assert q'[..|q|][j] == t;
  }

  /** Enqueues hand out the next identities and add nothing older. */
  lemma {:induction false} EnqueuedAllNewer(s: SchedulerState, reqs: seq<Request>)
    ensures var r := EnqueuedAll(s, reqs);
      r.nextId == s.nextId + |reqs| && QueuedOrNewer(s, r)
    decreases |reqs|
  {
    if reqs != [] {
      var s' := Enqueued(s, reqs[0].lane, reqs[0].work);
      EnqueuedAllNewer(s', reqs[1..]);
      QueuedOrNewerTrans(s, s', EnqueuedAll(s, reqs));
    }
  }

  /** The m-th of several enqueues gets identity `nextId + m` and is queued in its lane. */
  lemma {:induction false} EnqueuedAllPlaces(s: SchedulerState, reqs: seq<Request>, m: nat)
    requires m < |reqs|
    ensures Task(s.nextId + m, reqs[m].lane, reqs[m].work) in EnqueuedAll(s, reqs).Queue(reqs[m].lane)
    decreases |reqs|
  {
    var s' := Enqueued(s, reqs[0].lane, reqs[0].work);
    var r := EnqueuedAll(s, reqs);
    assert r == EnqueuedAll(s', reqs[1..]);
    if m == 0 {
      var q := s'.Queue(reqs[0].lane);
      assert q[|q| - 1] == Task(s.nextId, reqs[0].lane, reqs[0].work);
      EnqueuedAllAppends(s', reqs[1..]);
      StaysQueued(Task(s.nextId, reqs[0].lane, reqs[0].work), q, r.Queue(reqs[0].lane));
    } else {
      EnqueuedAllPlaces(s', reqs[1..], m - 1);
      assert reqs[1..][m - 1] == reqs[m];
    }
  }

  /** The same for the enqueues that arrive while one task runs. */
  lemma RunTaskNewer(s: SchedulerState, lane: Lane, task: Task, body: (Work, bool) -> Outcome, arrivals: seq<Request>)
    ensures var r := RunTask(s, lane, task, body, arrivals);
      r.nextId == s.nextId + |arrivals| && QueuedOrNewer(s, r)
  {
    var begun := Begin(s, lane, task);
    var running := EnqueuedAll(begun, arrivals);
    EnqueuedAllNewer(begun, arrivals);
    var r := Settle(running, task, body(task.work, task.id in running.aborted));
    assert forall l :: r.Queue(l) == running.Queue(l);
  }

  /** Running a task advances the identity counter by the number of arrivals. */
  lemma RunTaskCounter(s: SchedulerState, lane: Lane, task: Task, body: (Work, bool) -> Outcome, arrivals: seq<Request>)
    ensures RunTask(s, lane, task, body, arrivals).nextId == s.nextId + |arrivals|
  {
    RunTaskNewer(s, lane, task, body, arrivals);
  }

  lemma RunTaskPlaces(s: SchedulerState, lane: Lane, task: Task, body: (Work, bool) -> Outcome,
                      arrivals: seq<Request>, m: nat)
    requires m < |arrivals|
    ensures Task(s.nextId + m, arrivals[m].lane, arrivals[m].work) in
              RunTask(s, lane, task, body, arrivals).Queue(arrivals[m].lane)
  {
    var begun := Begin(s, lane, task);
    var running := EnqueuedAll(begun, arrivals);
    EnqueuedAllPlaces(begun, arrivals, m);
    var r := Settle(running, task, body(task.work, task.id in running.aborted));
    assert r.Queue(arrivals[m].lane) == running.Queue(arrivals[m].lane);
  }

  /** A flush keeps the earlier runs and only appends to them. */
  lemma {:induction false} FlushFromKeepsRuns(s: SchedulerState, i: nat, k: nat,
                                              body: (Work, bool) -> Outcome, during: seq<seq<Request>>)
    requires i <= 3
    ensures var r := FlushFrom(s, i, k, body, during);
      |s.ran| <= |r.ran| && r.ran[..|s.ran|] == s.ran
    decreases 3 - i, Pending(during, k) + s.Size()
  {
    if i < 3 {
      var lane := LaneOrder[i];
      var q := s.Queue(lane);
      if q == [] {
        FlushFromKeepsRuns(s, i + 1, k, body, during);
      } else {
        var shifted := s.WithQueue(lane, q[1..]);
        if q[0].id in shifted.aborted {
          FlushFromKeepsRuns(shifted, i, k, body, during);
        } else {
          var next := RunTask(shifted, lane, q[0], body, Arrivals(during, k));
          FlushFromKeepsRuns(next, i, k + 1, body, during);
          PrefixTrans(s.ran, next.ran, FlushFrom(next, i, k + 1, body, during).ran);
        }
      }
    }
  }

  /**
   * From lane index i on, a flush leaves in each lane only tasks that were queued before or
   * are newer, and in lane i and later lanes only newer ones: those lanes are drained.
   */
  lemma {:induction false} FlushFromLeavesNewer(s: SchedulerState, i: nat, k: nat,
                                                body: (Work, bool) -> Outcome, during: seq<seq<Request>>)
    requires i <= 3
    ensures var r := FlushFrom(s, i, k, body, during);
      QueuedOrNewer(s, r) &&
      forall j, t :: i <= j < 3 && t in r.Queue(LaneOrder[j]) ==> s.nextId <= t.id
    decreases 3 - i, Pending(during, k) + s.Size()
  {
    if i < 3 {
      var lane := LaneOrder[i];
      var q := s.Queue(lane);
      if q == [] {
        FlushFromLeavesNewer(s, i + 1, k, body, during);
      } else {
        var shifted := s.WithQueue(lane, q[1..]);
        assert QueuedOrNewer(s, shifted) by {
          forall l, t | t in shifted.Queue(l) ensures t in s.Queue(l) {
            if l == lane {
              var j :| 0 <= j < |q[1..]| && q[1..][j] == t;
              assert q[j + 1] == t;
            }
          }
        }
        if q[0].id in shifted.aborted {
          FlushFromLeavesNewer(shifted, i, k, body, during);
          QueuedOrNewerTrans(s, shifted, FlushFrom(shifted, i, k, body, during));
        } else {
          var next := RunTask(shifted, lane, q[0], body, Arrivals(during, k));
          RunTaskNewer(shifted, lane, q[0], body, Arrivals(during, k));
          FlushFromLeavesNewer(next, i, k + 1, body, during);
          QueuedOrNewerTrans(shifted, next, FlushFrom(next, i, k + 1, body, during));
          QueuedOrNewerTrans(s, shifted, FlushFrom(next, i, k + 1, body, during));
        }
      }
    }
  }

  /** From lane index i on, a flush drains lane i and every later lane of what they held. */
  lemma FlushFromDrains(s: SchedulerState, i: nat, k: nat, body: (Work, bool) -> Outcome, during: seq<seq<Request>>)
    requires i <= 3
    ensures forall j, t :: i <= j < 3 && t in FlushFrom(s, i, k, body, during).Queue(LaneOrder[j]) ==> s.nextId <= t.id
  {
    FlushFromLeavesNewer(s, i, k, body, during);
  }

  /** What `ArrivalsStayQueuedIffPassed` says, for a flush from lane index i after k0 starts. */
  ghost predicate ArrivalPlaced(s: SchedulerState, r: SchedulerState, during: seq<seq<Request>>, k0: nat, k: nat, m: nat)
  {
    k0 <= k && |s.ran| + (k - k0) < |r.ran| && m < |Arrivals(during, k)| &&
    var req := Arrivals(during, k)[m];
    var drained := r.ran[|s.ran| + (k - k0)].lane;
    var t := Task(s.nextId + Between(during, k0, k) + m, req.lane, req.work);
    (t in r.Queue(req.lane) <==> Rank(req.lane) < Rank(drained))
  }

  /** `ArrivalPlaced`, provided the flush from `s` started at least k - k0 + 1 tasks. */
  ghost predicate Placed(s: SchedulerState, r: SchedulerState, during: seq<seq<Request>>, k0: nat, k: nat, m: nat)
  {
    k0 <= k && m < |Arrivals(during, k)| && |s.ran| + (k - k0) < |r.ran| ==> ArrivalPlaced(s, r, during, k0, k, m)
  }

  lemma {:induction false} FlushFromArrivals(s: SchedulerState, i: nat, k0: nat, body: (Work, bool) -> Outcome,
                                             during: seq<seq<Request>>, k: nat, m: nat)
    requires i <= 3 && Wf(s) && k0 <= k && m < |Arrivals(during, k)|
    ensures Placed(s, FlushFrom(s, i, k0, body, during), during, k0, k, m)
    decreases 3 - i, Pending(during, k0) + s.Size(), 1
  {
    if i < 3 {
      var lane := LaneOrder[i];
      var q := s.Queue(lane);
      if q == [] {
        FlushFromArrivals(s, i + 1, k0, body, during, k, m);
        PlacedAfterEmptyLane(s, i, k0, body, during, k, m);
      } else {
        var shifted := s.WithQueue(lane, q[1..]);
        if q[0].id in shifted.aborted {
          ShiftWf(s, lane);
          FlushFromArrivals(shifted, i, k0, body, during, k, m);
          PlacedAfterSkip(s, i, k0, body, during, k, m);
        } else if k == k0 {
          ShiftWf(s, lane);
          ArrivalsRunNow(s, i, k0, body, during, m);
        } else {
          ArrivalsRunLater(s, i, k0, body, during, k, m);
        }
      }
    }
  }

  /** The step that runs the head of lane i, for the arrivals while it runs. */
  lemma ArrivalsRunNow(s: SchedulerState, i: nat, k0: nat, body: (Work, bool) -> Outcome,
                       during: seq<seq<Request>>, m: nat)
    requires i < 3 && s.Queue(LaneOrder[i]) != [] && m < |Arrivals(during, k0)|
    requires var q := s.Queue(LaneOrder[i]); q[0].id !in s.aborted && q[0].lane == LaneOrder[i]
    ensures Placed(s, FlushFrom(s, i, k0, body, during), during, k0, k0, m)
  {
    var lane := LaneOrder[i];
    var q := s.Queue(lane);
    var shifted := s.WithQueue(lane, q[1..]);
    var next := RunTask(shifted, lane, q[0], body, Arrivals(during, k0));
    RunTaskCounter(shifted, lane, q[0], body, Arrivals(during, k0));
    RunTaskPlaces(shifted, lane, q[0], body, Arrivals(during, k0), m);
    ArrivalRestOfFlush(s, q[0], next, i, k0, body, during, m);
    PlacedAfterRunStep(s, i, k0, body, during, k0, m);
  }

  /** The step that runs the head of lane i, for the arrivals during a later start. */
  lemma {:induction false} ArrivalsRunLater(s: SchedulerState, i: nat, k0: nat, body: (Work, bool) -> Outcome,
                                            during: seq<seq<Request>>, k: nat, m: nat)
    requires i < 3 && Wf(s) && s.Queue(LaneOrder[i]) != [] && k0 < k && m < |Arrivals(during, k)|
    requires var q := s.Queue(LaneOrder[i]); q[0].id !in s.aborted
    ensures Placed(s, FlushFrom(s, i, k0, body, during), during, k0, k, m)
    decreases 3 - i, Pending(during, k0) + s.Size(), 0
  {
    var lane := LaneOrder[i];
    var q := s.Queue(lane);
    var shifted := s.WithQueue(lane, q[1..]);
    var next := RunTask(shifted, lane, q[0], body, Arrivals(during, k0));
    ShiftWf(s, lane);
    RunTaskNewer(shifted, lane, q[0], body, Arrivals(during, k0));
    RunTaskWf(shifted, lane, q[0], body, Arrivals(during, k0));
    PendingStep(during, k0);
    FlushFromArrivals(next, i, k0 + 1, body, during, k, m);
    PlacedAfterRun(s, next, FlushFrom(next, i, k0 + 1, body, during), during, k0, k, m);
    PlacedAfterRunStep(s, i, k0, body, during, k, m);
  }

  lemma PlacedAfterEmptyLane(s: SchedulerState, i: nat, k0: nat, body: (Work, bool) -> Outcome,
                             during: seq<seq<Request>>, k: nat, m: nat)
    requires i < 3 && s.Queue(LaneOrder[i]) == [] && k0 <= k && m < |Arrivals(during, k)|
    requires Placed(s, FlushFrom(s, i + 1, k0, body, during), during, k0, k, m)
    ensures Placed(s, FlushFrom(s, i, k0, body, during), during, k0, k, m)
  {
    assert FlushFrom(s, i, k0, body, during) == FlushFrom(s, i + 1, k0, body, during);
  }

  lemma PlacedAfterSkip(s: SchedulerState, i: nat, k0: nat, body: (Work, bool) -> Outcome,
                        during: seq<seq<Request>>, k: nat, m: nat)
    requires i < 3 && s.Queue(LaneOrder[i]) != [] && k0 <= k && m < |Arrivals(during, k)|
    requires var q := s.Queue(LaneOrder[i]); q[0].id in s.aborted
    requires var q := s.Queue(LaneOrder[i]); var shifted := s.WithQueue(LaneOrder[i], q[1..]);
      Placed(shifted, FlushFrom(shifted, i, k0, body, during), during, k0, k, m)
    ensures Placed(s, FlushFrom(s, i, k0, body, during), during, k0, k, m)
  {
    var q := s.Queue(LaneOrder[i]);
    var shifted := s.WithQueue(LaneOrder[i], q[1..]);
    var r := FlushFrom(shifted, i, k0, body, during);
    assert FlushFrom(s, i, k0, body, during) == r;
    PlacedSameStart(s, shifted, r, during, k0, k, m);
  }

  /** Only the runs and the identity counter of the start state matter. */
  lemma PlacedSameStart(s: SchedulerState, s': SchedulerState, r: SchedulerState,
                        during: seq<seq<Request>>, k0: nat, k: nat, m: nat)
    requires k0 <= k && m < |Arrivals(during, k)|
    requires s'.ran == s.ran && s'.nextId == s.nextId
    requires Placed(s', r, during, k0, k, m)
    ensures Placed(s, r, during, k0, k, m)
  {
  }

  lemma PlacedAfterRunStep(s: SchedulerState, i: nat, k0: nat, body: (Work, bool) -> Outcome,
                           during: seq<seq<Request>>, k: nat, m: nat)
    requires i < 3 && s.Queue(LaneOrder[i]) != [] && k0 <= k && m < |Arrivals(during, k)|
    requires var q := s.Queue(LaneOrder[i]); q[0].id !in s.aborted
    requires var q := s.Queue(LaneOrder[i]); var shifted := s.WithQueue(LaneOrder[i], q[1..]);
      var next := RunTask(shifted, LaneOrder[i], q[0], body, Arrivals(during, k0));
      Placed(s, FlushFrom(next, i, k0 + 1, body, during), during, k0, k, m)
    ensures Placed(s, FlushFrom(s, i, k0, body, during), during, k0, k, m)
  {
    var q := s.Queue(LaneOrder[i]);
    var shifted := s.WithQueue(LaneOrder[i], q[1..]);
    var next := RunTask(shifted, LaneOrder[i], q[0], body, Arrivals(during, k0));
    assert FlushFrom(s, i, k0, body, during) == FlushFrom(next, i, k0 + 1, body, during);
  }

  lemma PendingStep(during: seq<seq<Request>>, k: nat)
    ensures Pending(during, k) == |Arrivals(during, k)| + Pending(during, k + 1)
  {
  }

  /** Moving the start of the count past one run. */
  lemma PlacedAfterRun(s: SchedulerState, next: SchedulerState, r: SchedulerState,
                       during: seq<seq<Request>>, k0: nat, k: nat, m: nat)
    requires k0 < k && m < |Arrivals(during, k)|
    requires |next.ran| == |s.ran| + 1 && next.nextId == s.nextId + |Arrivals(during, k0)|
    requires Placed(next, r, during, k0 + 1, k, m)
    ensures Placed(s, r, during, k0, k, m)
  {
    assert Between(during, k0, k) == |Arrivals(during, k0)| + Between(during, k0 + 1, k);
  }

  /** The arrivals while the task being started now runs, after the rest of the flush from `next`. */
  lemma ArrivalRestOfFlush(s: SchedulerState, task: Task, next: SchedulerState, i: nat, k0: nat,
                           body: (Work, bool) -> Outcome, during: seq<seq<Request>>, m: nat)
    requires i < 3 && task.lane == LaneOrder[i] && m < |Arrivals(during, k0)|
    requires next.ran == s.ran + [task] && next.nextId == s.nextId + |Arrivals(during, k0)|
    requires var req := Arrivals(during, k0)[m];
      Task(s.nextId + m, req.lane, req.work) in next.Queue(req.lane)
    ensures Placed(s, FlushFrom(next, i, k0 + 1, body, during), during, k0, k0, m)
  {
    var r := FlushFrom(next, i, k0 + 1, body, during);
    FlushFromKeepsRuns(next, i, k0 + 1, body, during);
    FlushFromKeepsPassedLanes(next, i, k0 + 1, body, during);
    FlushFromDrains(next, i, k0 + 1, body, during);
    ArrivalDuringRun(s, task, next, r, i, k0, during, m);
  }

  /**
   * The arrivals while the task being started now runs, given what the rest of the flush
   * (from `next` to `r`) keeps: they stay queued exactly in passed lanes.
   */
  lemma ArrivalDuringRun(s: SchedulerState, task: Task, next: SchedulerState, r: SchedulerState,
                         i: nat, k0: nat, during: seq<seq<Request>>, m: nat)
    requires i < 3 && task.lane == LaneOrder[i] && m < |Arrivals(during, k0)|
    requires next.ran == s.ran + [task] && next.nextId == s.nextId + |Arrivals(during, k0)|
    requires var req := Arrivals(during, k0)[m];
      Task(s.nextId + m, req.lane, req.work) in next.Queue(req.lane)
    requires |next.ran| <= |r.ran| && r.ran[..|next.ran|] == next.ran
    requires KeepsPassedLanes(next, r, i)
    requires forall j, t :: i <= j < 3 && t in r.Queue(LaneOrder[j]) ==> next.nextId <= t.id
    ensures Placed(s, r, during, k0, k0, m)
  {
    assert r.ran[|s.ran|] == r.ran[..|next.ran|][|s.ran|];
    assert Rank(task.lane) == i;
    var req := Arrivals(during, k0)[m];
    var t := Task(s.nextId + m, req.lane, req.work);
    assert LaneOrder[Rank(req.lane)] == req.lane;
    if Rank(req.lane) < i {
      StaysQueued(t, next.Queue(req.lane), r.Queue(req.lane));
    }
  }

  /**
   * Work enqueued while a flush runs its k-th task is queued under the next fresh identities.
   * It waits for the next flush exactly when its lane has a higher priority than the lane
   * being drained: such a lane was passed. Work for the lane being drained or a later lane is
   * taken off its queue in the same flush.
   */
  lemma ArrivalsStayQueuedIffPassed(s: SchedulerState, body: (Work, bool) -> Outcome,
                                    during: seq<seq<Request>>, k: nat, m: nat)
    requires Wf(s)
    requires |s.ran| + k < |Flushed(s, body, during).ran| && m < |Arrivals(during, k)|
    ensures var r := Flushed(s, body, during);
      var req := Arrivals(during, k)[m];
      var t := Task(s.nextId + Between(during, 0, k) + m, req.lane, req.work);
      t in r.Queue(req.lane) <==> Rank(req.lane) < Rank(r.ran[|s.ran| + k].lane)
  {
    var r := Flushed(s, body, during);
    FlushFromArrivals(s, 0, 0, body, during, k, m);
    assert ArrivalPlaced(s, r, during, 0, k, m);
  }

  // ---------------------------------------------------------------------------------
  // FIFO within a lane, whatever arrives during a flush.
  // ---------------------------------------------------------------------------------

  /** Identities increase from head to tail: `enqueue` hands them out in order and only appends. */
  ghost predicate IdsAscending(q: seq<Task>)
  {
    forall a, b :: 0 <= a < b < |q| ==> q[a].id < q[b].id
  }

  ghost predicate Ascending(s: SchedulerState)
  {
    IdsAscending(s.system) && IdsAscending(s.interactive) && IdsAscending(s.background)
  }

  /** Any two tasks of one lane appear in increasing identity order, that is, in enqueue order. */
  ghost predicate LaneFifo(ts: seq<Task>)
  {
    forall a, b :: 0 <= a < b < |ts| && ts[a].lane == ts[b].lane ==> ts[a].id < ts[b].id
  }

  /** Every task queued in `r` was already queued in `s`, or was enqueued after `s`. */
  ghost predicate QueuedOrNewer(s: SchedulerState, r: SchedulerState)
  {
    s.nextId <= r.nextId &&
    forall l, t :: t in r.Queue(l) ==> t in s.Queue(l) || s.nextId <= t.id
  }

  /** An enqueue keeps the lanes ascending; its task is newer than everything queued before. */
  lemma EnqueuedAscending(s: SchedulerState, lane: Lane, work: Work)
    requires Wf(s) && Ascending(s)
    ensures var r := Enqueued(s, lane, work);
      Ascending(r) && QueuedOrNewer(s, r)
  {
    var r := Enqueued(s, lane, work);
    var q := s.Queue(lane);
    assert QueueWf(q, lane, s.nextId);
    assert IdsAscending(q + [Task(s.nextId, lane, work)]);
    forall l ensures IdsAscending(r.Queue(l)) {
      assert IdsAscending(s.Queue(l));
    }
  }

  lemma {:induction false} EnqueuedAllAscending(s: SchedulerState, reqs: seq<Request>)
    requires Wf(s) && Ascending(s)
    ensures var r := EnqueuedAll(s, reqs);
      Ascending(r) && QueuedOrNewer(s, r)
    decreases |reqs|
  {
    if reqs != [] {
      var s' := Enqueued(s, reqs[0].lane, reqs[0].work);
      EnqueuedAscending(s, reqs[0].lane, reqs[0].work);
      EnqueuedAllAscending(s', reqs[1..]);
    }
  }

  /** Running a task keeps the lanes ascending and only adds newer tasks to them. */
  lemma RunTaskAscending(s: SchedulerState, lane: Lane, task: Task, body: (Work, bool) -> Outcome, arrivals: seq<Request>)
    requires Wf(s) && Ascending(s) && task.id < s.nextId
    ensures var r := RunTask(s, lane, task, body, arrivals);
      Ascending(r) && QueuedOrNewer(s, r)
  {
    var begun := Begin(s, lane, task);
    assert Wf(begun) by {
      assert forall l :: begun.Queue(l) == s.Queue(l);
    }
    assert Ascending(begun) by {
      assert forall l :: begun.Queue(l) == s.Queue(l);
    }
    EnqueuedAllAscending(begun, arrivals);
    var running := EnqueuedAll(begun, arrivals);
    var r := Settle(running, task, body(task.work, task.id in running.aborted));
    assert forall l :: r.Queue(l) == running.Queue(l);
  }

  /** Taking the head of a lane keeps the lanes ascending; what remains was queued before. */
  lemma ShiftAscending(s: SchedulerState, lane: Lane)
    requires Ascending(s) && s.Queue(lane) != []
    ensures var shifted := s.WithQueue(lane, s.Queue(lane)[1..]);
      Ascending(shifted) && QueuedOrNewer(s, shifted)
  {
    var shifted := s.WithQueue(lane, s.Queue(lane)[1..]);
    forall l ensures IdsAscending(shifted.Queue(l)) {
      assert IdsAscending(s.Queue(l));
    }
  }

  /** Together with `EnqueuedAscending` and `FlushLaneFifo`, every reachable state is ascending. */
  lemma InitialAscending()
    ensures Ascending(Initial())
  {
  }

  /**
   * What a flush from `s` has run so far, in `after`: the earlier runs are kept, the new runs
   * keep FIFO order within each lane, and each new run was queued in `s` or enqueued later.
   */
  ghost predicate FifoFrom(s: SchedulerState, after: seq<Task>)
  {
    |s.ran| <= |after| && after[..|s.ran|] == s.ran &&
    LaneFifo(after[|s.ran|..]) &&
    forall t :: t in after[|s.ran|..] ==> t in s.Queue(t.lane) || s.nextId <= t.id
  }

  /** Dropping an aborted head: what is true from the shifted state is true from the state itself. */
  lemma FifoAfterSkip(s: SchedulerState, shifted: SchedulerState, after: seq<Task>)
    requires shifted.ran == s.ran && QueuedOrNewer(s, shifted) && shifted.nextId == s.nextId
    requires FifoFrom(shifted, after)
    ensures FifoFrom(s, after)
  {
  }

  /** A task that precedes every later task of its lane can be put in front. */
  lemma LaneFifoCons(task: Task, rest: seq<Task>)
    requires LaneFifo(rest)
    requires forall t :: t in rest && t.lane == task.lane ==> task.id < t.id
    ensures LaneFifo([task] + rest)
  {
    var ts := [task] + rest;
    forall a, b | 0 <= a < b < |ts| && ts[a].lane == ts[b].lane
      ensures ts[a].id < ts[b].id
    {
      assert ts[b] == rest[b - 1];
      if a > 0 {
        assert ts[a] == rest[a - 1];
      }
    }
  }

  /**
   * A task run after the head of `lane` was taken: it was queued before, or enqueued later;
   * if it belongs to `lane` it is newer than that head.
   */
  lemma NewerThanHead(s: SchedulerState, lane: Lane, next: SchedulerState, t: Task)
    requires Wf(s) && Ascending(s) && s.Queue(lane) != []
    requires QueuedOrNewer(s.WithQueue(lane, s.Queue(lane)[1..]), next)
    requires t in next.Queue(t.lane) || next.nextId <= t.id
    ensures t in s.Queue(t.lane) || s.nextId <= t.id
    ensures t.lane == lane ==> s.Queue(lane)[0].id < t.id
  {
    var q := s.Queue(lane);
    assert QueueWf(q, lane, s.nextId);
    if t.lane == lane && t in q[1..] {
      var j :| 0 <= j < |q[1..]| && q[1..][j] == t;
      assert q[j + 1] == t;
    }
  }

  /** Running the head of a lane: it precedes every later run of its lane. */
  lemma FifoAfterRun(s: SchedulerState, lane: Lane, next: SchedulerState, after: seq<Task>)
    requires Wf(s) && Ascending(s) && s.Queue(lane) != []
    requires next.ran == s.ran + [s.Queue(lane)[0]]
    requires QueuedOrNewer(s.WithQueue(lane, s.Queue(lane)[1..]), next)
    requires FifoFrom(next, after)
    ensures FifoFrom(s, after)
  {
    var task := s.Queue(lane)[0];
    var n := |s.ran|;
    assert after[..n] == after[..n + 1][..n];
    assert after[n] == after[..n + 1][n];
    var rest := after[n + 1..];
    assert after[n..] == [task] + rest;
    forall t | t in rest
      ensures t in s.Queue(t.lane) || s.nextId <= t.id
      ensures t.lane == lane ==> task.id < t.id
    {
      NewerThanHead(s, lane, next, t);
    }
    LaneFifoCons(task, rest);
  }

  /** From lane index i on, a flush runs each lane's tasks in FIFO order, whatever arrives. */
  lemma {:induction false} FlushFromFifo(s: SchedulerState, i: nat, k: nat,
                                         body: (Work, bool) -> Outcome, during: seq<seq<Request>>)
    requires i <= 3 && Wf(s) && Ascending(s)
    ensures var r := FlushFrom(s, i, k, body, during);
      FifoFrom(s, r.ran) && Wf(r) && Ascending(r)
    decreases 3 - i, Pending(during, k) + s.Size()
  {
    if i == 3 {
      assert s.ran[|s.ran|..] == [];
    } else {
      var lane := LaneOrder[i];
      var q := s.Queue(lane);
      if q == [] {
        FlushFromFifo(s, i + 1, k, body, during);
      } else {
        var task := q[0];
        var shifted := s.WithQueue(lane, q[1..]);
        ShiftWf(s, lane);
        ShiftAscending(s, lane);
        if task.id in shifted.aborted {
          FlushFromFifo(shifted, i, k, body, during);
          FifoAfterSkip(s, shifted, FlushFrom(shifted, i, k, body, during).ran);
        } else {
          var next := RunTask(shifted, lane, task, body, Arrivals(during, k));
          RunTaskWf(shifted, lane, task, body, Arrivals(during, k));
          RunTaskAscending(shifted, lane, task, body, Arrivals(during, k));
          FlushFromFifo(next, i, k + 1, body, during);
          FifoAfterRun(s, lane, next, FlushFrom(next, i, k + 1, body, during).ran);
        }
      }
    }
  }

  /**
   * Within one flush, tasks of the same lane start in the order they were enqueued, including
   * tasks enqueued into the lane being drained while the flush runs.
   */
  lemma FlushLaneFifo(s: SchedulerState, body: (Work, bool) -> Outcome, during: seq<seq<Request>>)
    requires Wf(s) && Ascending(s)
    ensures Wf(Flushed(s, body, during)) && Ascending(Flushed(s, body, during))
    ensures |s.ran| <= |Flushed(s, body, during).ran|
    ensures LaneFifo(Flushed(s, body, during).ran[|s.ran|..])
  {
    FlushFromFifo(s, 0, 0, body, during);
  }

  // ---------------------------------------------------------------------------------
  // A flush during which nothing is enqueued.
  // ---------------------------------------------------------------------------------

  /** No enqueue arrives while any task runs. */
  predicate Quiet(during: seq<seq<Request>>)
  {
    forall j :: 0 <= j < |during| ==> during[j] == []
  }

  /** The tasks of a queue that are not aborted, in queue order. */
  function Runnable(q: seq<Task>, aborted: set<TaskId>): seq<Task>
  {
    if q == [] then []
    else (if q[0].id in aborted then [] else [q[0]]) + Runnable(q[1..], aborted)
  }

  /** The tasks still to run from lane index i on, lane after lane. */
  function Remaining(s: SchedulerState, i: nat): seq<Task>
    decreases 3 - i
  {
    if i >= 3 then [] else Runnable(s.Queue(LaneOrder[i]), s.aborted) + Remaining(s, i + 1)
  }

  /** The `error` events that running these tasks, none of them aborted, emits. */
  function ErrorsOf(ts: seq<Task>, body: (Work, bool) -> Outcome): seq<Event>
  {
    if ts == [] then []
    else
      var o := body(ts[0].work, false);
      (if Reported(o) then [ErrorEvent(o.message)] else []) + ErrorsOf(ts[1..], body)
  }

  lemma {:induction false} RemainingFrame(s: SchedulerState, s': SchedulerState, i: nat)
    requires s.aborted == s'.aborted
    requires forall j :: i <= j < 3 ==> s.Queue(LaneOrder[j]) == s'.Queue(LaneOrder[j])
    ensures Remaining(s, i) == Remaining(s', i)
    decreases 3 - i
  {
    if i < 3 {
      RemainingFrame(s, s', i + 1);
    }
  }

  /**
   * What a quiet flush from lane index i leaves behind: exactly the remaining non-aborted
   * tasks ran, lane after lane; lanes i and later are empty, earlier lanes untouched;
   * nothing is aborted; the errors are those of the tasks that ran; the marker ends
   * cleared if a Background task ran.
   */
  ghost predicate QuietResult(s: SchedulerState, r: SchedulerState, i: nat, body: (Work, bool) -> Outcome)
  {
    r.ran == s.ran + Remaining(s, i) &&
    (forall j :: i <= j < 3 ==> r.Queue(LaneOrder[j]) == []) &&
    (forall j :: 0 <= j < i && j < 3 ==> r.Queue(LaneOrder[j]) == s.Queue(LaneOrder[j])) &&
    r.aborted == s.aborted && r.nextId == s.nextId &&
    r.events == s.events + ErrorsOf(Remaining(s, i), body) &&
    (s.runningBackground == None ==> r.runningBackground == None)
  }

  lemma QuietEmptyLane(s: SchedulerState, r: SchedulerState, i: nat, body: (Work, bool) -> Outcome)
    requires i < 3 && s.Queue(LaneOrder[i]) == []
    requires QuietResult(s, r, i + 1, body)
    ensures QuietResult(s, r, i, body)
  {
    assert Remaining(s, i) == Remaining(s, i + 1);
  }

  /** A quiet result carries over to a state that agrees on everything a quiet flush from lane i reads. */
  lemma QuietTransfer(s: SchedulerState, t: SchedulerState, r: SchedulerState, i: nat, body: (Work, bool) -> Outcome)
    requires QuietResult(t, r, i, body)
    requires t.ran == s.ran && t.aborted == s.aborted && t.nextId == s.nextId
    requires t.events == s.events && t.runningBackground == s.runningBackground
    requires forall j :: 0 <= j < i && j < 3 ==> t.Queue(LaneOrder[j]) == s.Queue(LaneOrder[j])
    requires Remaining(t, i) == Remaining(s, i)
    ensures QuietResult(s, r, i, body)
  {
  }

  lemma QuietSkip(s: SchedulerState, r: SchedulerState, i: nat, body: (Work, bool) -> Outcome)
    requires i < 3 && s.Queue(LaneOrder[i]) != [] && s.Queue(LaneOrder[i])[0].id in s.aborted
    requires QuietResult(s.WithQueue(LaneOrder[i], s.Queue(LaneOrder[i])[1..]), r, i, body)
    ensures QuietResult(s, r, i, body)
  {
    var lane := LaneOrder[i];
    var q := s.Queue(lane);
    var shifted := s.WithQueue(lane, q[1..]);
    RemainingFrame(s, shifted, i + 1);
    assert Runnable(q, s.aborted) == Runnable(q[1..], s.aborted);
    assert Remaining(shifted, i) == Remaining(s, i);
    assert forall j :: 0 <= j < i ==> LaneOrder[j] != lane;
    QuietTransfer(s, shifted, r, i, body);
  }

  lemma QuietRun(s: SchedulerState, r: SchedulerState, i: nat, body: (Work, bool) -> Outcome)
    requires i < 3 && s.Queue(LaneOrder[i]) != [] && s.Queue(LaneOrder[i])[0].id !in s.aborted
    requires var lane := LaneOrder[i];
      var task := s.Queue(lane)[0];
      QuietResult(Settle(Begin(s.WithQueue(lane, s.Queue(lane)[1..]), lane, task), task, body(task.work, false)), r, i, body)
    ensures QuietResult(s, r, i, body)
  {
    var lane := LaneOrder[i];
    var q := s.Queue(lane);
    var task := q[0];
    var shifted := s.WithQueue(lane, q[1..]);
    var begun := Begin(shifted, lane, task);
    var next := Settle(begun, task, body(task.work, false));
    assert next.Queue(lane) == q[1..];
    assert forall j :: 0 <= j < 3 && j != i ==> next.Queue(LaneOrder[j]) == s.Queue(LaneOrder[j]);
    assert next.events == s.events + ErrorsOf([task], body);
    QuietRunCombine(s, next, r, i, body);
  }

  lemma QuietRunCombine(s: SchedulerState, next: SchedulerState, r: SchedulerState, i: nat, body: (Work, bool) -> Outcome)
    requires i < 3 && s.Queue(LaneOrder[i]) != [] && s.Queue(LaneOrder[i])[0].id !in s.aborted
    requires next.ran == s.ran + [s.Queue(LaneOrder[i])[0]]
    requires next.events == s.events + ErrorsOf([s.Queue(LaneOrder[i])[0]], body)
    requires next.aborted == s.aborted && next.nextId == s.nextId
    requires s.runningBackground == None ==> next.runningBackground == None
    requires next.Queue(LaneOrder[i]) == s.Queue(LaneOrder[i])[1..]
    requires forall j :: 0 <= j < 3 && j != i ==> next.Queue(LaneOrder[j]) == s.Queue(LaneOrder[j])
    requires QuietResult(next, r, i, body)
    ensures QuietResult(s, r, i, body)
  {
    var task := s.Queue(LaneOrder[i])[0];
    var rest := Remaining(next, i);
    QuietRunRemaining(s, next, i);
    AppendAssoc(s.ran, [task], rest);
    ErrorsOfCons(task, rest, body);
    AppendAssoc(s.events, ErrorsOf([task], body), ErrorsOf(rest, body));
  }

  /** The errors of a leading task come before those of the rest. */
  lemma ErrorsOfCons(task: Task, rest: seq<Task>, body: (Work, bool) -> Outcome)
    ensures ErrorsOf([task] + rest, body) == ErrorsOf([task], body) + ErrorsOf(rest, body)
  {
    DropAppend([task], rest);
    assert ErrorsOf([task], body) == (if Reported(body(task.work, false)) then [ErrorEvent(body(task.work, false).message)] else []) + ErrorsOf([], body);
  }

  /** Running the head of lane i leaves the rest of the remaining tasks, and nothing else, to run. */
  lemma QuietRunRemaining(s: SchedulerState, next: SchedulerState, i: nat)
    requires i < 3 && s.Queue(LaneOrder[i]) != [] && s.Queue(LaneOrder[i])[0].id !in s.aborted
    requires next.aborted == s.aborted
    requires next.Queue(LaneOrder[i]) == s.Queue(LaneOrder[i])[1..]
    requires forall j :: i < j < 3 ==> next.Queue(LaneOrder[j]) == s.Queue(LaneOrder[j])
    ensures Remaining(s, i) == [s.Queue(LaneOrder[i])[0]] + Remaining(next, i)
  {
    var q := s.Queue(LaneOrder[i]);
    RemainingFrame(s, next, i + 1);
    assert Runnable(q, s.aborted) == [q[0]] + Runnable(q[1..], s.aborted);
  }

  /** From lane index i on, a quiet flush runs exactly the remaining non-aborted tasks, lane after lane, and empties those lanes. */
  lemma {:induction false} QuietFlushFrom(s: SchedulerState, i: nat, k: nat,
                                          body: (Work, bool) -> Outcome, during: seq<seq<Request>>)
    requires i <= 3 && Quiet(during)
    ensures QuietResult(s, FlushFrom(s, i, k, body, during), i, body)
    decreases 3 - i, Pending(during, k) + s.Size()
  {
    if i == 3 {
      assert Remaining(s, i) == [];
    } else {
      var lane := LaneOrder[i];
      var q := s.Queue(lane);
      if q == [] {
        QuietFlushFrom(s, i + 1, k, body, during);
        QuietEmptyLane(s, FlushFrom(s, i, k, body, during), i, body);
      } else {
        var task := q[0];
        var shifted := s.WithQueue(lane, q[1..]);
        if task.id in shifted.aborted {
          QuietFlushFrom(shifted, i, k, body, during);
          QuietSkip(s, FlushFrom(s, i, k, body, during), i, body);
        } else {
          assert Arrivals(during, k) == [];
          var next := RunTask(shifted, lane, task, body, Arrivals(during, k));
          assert next == Settle(Begin(shifted, lane, task), task, body(task.work, false));
          QuietFlushFrom(next, i, k + 1, body, during);
          QuietRun(s, FlushFrom(s, i, k, body, during), i, body);
        }
      }
    }
  }

  /**
   * A flush with no concurrent enqueues runs every non-aborted System task, then every
   * non-aborted Interactive task, then every non-aborted Background task, each lane in
   * enqueue order; it leaves all three queues empty, aborts nothing, and emits one
   * `error` event per failure other than the preemption sentinel, in run order.
   */
  lemma QuietFlush(s: SchedulerState, body: (Work, bool) -> Outcome, during: seq<seq<Request>>)
    requires Quiet(during)
    ensures var r := Flushed(s, body, during);
      var order := Runnable(s.system, s.aborted) + Runnable(s.interactive, s.aborted) +
                   Runnable(s.background, s.aborted);
      r.ran == s.ran + order &&
      r.system == [] && r.interactive == [] && r.background == [] &&
      r.aborted == s.aborted && r.nextId == s.nextId &&
      r.events == s.events + ErrorsOf(order, body) &&
      (s.runningBackground == None ==> r.runningBackground == None)
  {
    QuietFlushFrom(s, 0, 0, body, during);
    assert LaneOrder[0] == System && LaneOrder[1] == Interactive && LaneOrder[2] == Background;
    assert Remaining(s, 2) == Runnable(s.background, s.aborted);
    assert Remaining(s, 1) == Runnable(s.interactive, s.aborted) + Runnable(s.background, s.aborted);
    assert Remaining(s, 0) == Runnable(s.system, s.aborted) + Remaining(s, 1);
    assert Remaining(s, 0) == Runnable(s.system, s.aborted) + Runnable(s.interactive, s.aborted) +
                              Runnable(s.background, s.aborted);
  }

  // ---------------------------------------------------------------------------------
  // Preemption, as a flush in which an Interactive enqueue arrives during a Background task.
  // ---------------------------------------------------------------------------------

  /** A body that observes its abort signal: it rejects with the sentinel once aborted. */
  function ObservingBody(w: Work, isAborted: bool): Outcome
  {
    if isAborted then Failed(PreemptedMessage) else Completed
  }

  /**
   * The preempted task's own run: the Interactive enqueue aborts its flag and clears the
   * marker, the System enqueue follows, and the sentinel failure settles without an event.
   */
  lemma PreemptedTaskSettles()
    ensures var s0 := Enqueued(Initial(), Background, 7);
      var r := RunTask(s0.WithQueue(Background, []), Background, Task(0, Background, 7), ObservingBody,
                       [Request(Interactive, 8), Request(System, 9)]);
      r.ran == [Task(0, Background, 7)] &&
      r.aborted == {0} &&
      r.runningBackground == None &&
      r.interactive == [Task(1, Interactive, 8)] &&
      r.system == [Task(2, System, 9)] &&
      r.background == [] &&
      r.events == [EnqueueEvent(Background), EnqueueEvent(Interactive), EnqueueEvent(System)]
  {
    var t := Task(0, Background, 7);
    var arrivals := [Request(Interactive, 8), Request(System, 9)];
    var eb, ei, es := EnqueueEvent(Background), EnqueueEvent(Interactive), EnqueueEvent(System);
    var s0 := Enqueued(Initial(), Background, 7);
    assert s0 == SchedulerState([], [], [t], None, {}, 1, [eb], []);
    var begun := Begin(s0.WithQueue(Background, []), Background, t);
    assert begun == SchedulerState([], [], [], Some(0), {}, 1, [eb], [t]);
    var a1 := Enqueued(begun, Interactive, 8);
    assert a1 == SchedulerState([], [Task(1, Interactive, 8)], [], None, {0}, 2, [eb, ei], [t]);
    var a2 := Enqueued(a1, System, 9);
    assert a2 == SchedulerState([Task(2, System, 9)], [Task(1, Interactive, 8)], [], None, {0}, 3, [eb, ei, es], [t]);
    assert EnqueuedAll(begun, arrivals) == a2 by {
      assert arrivals[1..] == [Request(System, 9)] && arrivals[1..][1..] == [];
    }
    assert Settle(a2, t, Failed(PreemptedMessage)) == a2;
  }

  /**
   * One Background task is running when an Interactive task (and then a System task) is
   * enqueued: the Background task's flag is aborted before it settles, its preemption
   * failure is swallowed, and both new tasks stay queued for the next flush because
   * their lanes were already passed.
   */
  lemma PreemptionDuringFlush()
    ensures var s0 := Enqueued(Initial(), Background, 7);
      var r := Flushed(s0, ObservingBody, [[Request(Interactive, 8), Request(System, 9)]]);
      r.ran == [Task(0, Background, 7)] &&
      r.aborted == {0} &&
      r.runningBackground == None &&
      r.interactive == [Task(1, Interactive, 8)] &&
      r.system == [Task(2, System, 9)] &&
      r.background == [] &&
      r.events == [EnqueueEvent(Background), EnqueueEvent(Interactive), EnqueueEvent(System)]
  {
    var s0 := Enqueued(Initial(), Background, 7);
    var during := [[Request(Interactive, 8), Request(System, 9)]];
    var t := Task(0, Background, 7);
    assert FlushFrom(s0, 0, 0, ObservingBody, during) == FlushFrom(s0, 2, 0, ObservingBody, during);
    var shifted := s0.WithQueue(Background, []);
    PreemptedTaskSettles();
    var next := RunTask(shifted, Background, t, ObservingBody, during[0]);
    assert Arrivals(during, 0) == during[0];
    assert FlushFrom(s0, 2, 0, ObservingBody, during) == FlushFrom(next, 2, 1, ObservingBody, during);
    assert FlushFrom(next, 2, 1, ObservingBody, during) == FlushFrom(next, 3, 1, ObservingBody, during) == next;
  }

  // ---------------------------------------------------------------------------------
  // The scheduler object.
  // ---------------------------------------------------------------------------------

  class Scheduler {
    var system: seq<Task>
    var interactive: seq<Task>
    var background: seq<Task>
    var runningBackground: Option<TaskId>
    var aborted: set<TaskId>
    var nextId: TaskId
    var events: seq<Event>
    var ran: seq<Task>

    /** The object's state as a value. */
    function Model(): SchedulerState
      reads this
    {
      SchedulerState(system, interactive, background, runningBackground, aborted, nextId, events, ran)
    }

    ghost predicate Valid()
      reads this
    {
      Wf(Model())
    }

    constructor ()
      ensures Model() == Initial() && Valid()
    {
      system, interactive, background := [], [], [];
      runningBackground := None;
      aborted := {};
      nextId := 0;
      events, ran := [], [];
    }

    function Queue(lane: Lane): seq<Task>
      reads this
    {
      Model().Queue(lane)
    }

    method Push(lane: Lane, task: Task)
      modifies this
      ensures Model() == old(Model()).WithQueue(lane, old(Queue(lane)) + [task])
    {
      match lane
      case System => system := system + [task];
      case Interactive => interactive := interactive + [task];
      case Background => background := background + [task];
    }

    /** `queue.shift()` on a non-empty lane. */
    method Shift(lane: Lane) returns (task: Task)
      requires Queue(lane) != []
      modifies this
      ensures task == old(Queue(lane))[0]
      ensures Model() == old(Model()).WithQueue(lane, old(Queue(lane))[1..])
    {
      match lane
      case System => task := system[0]; system := system[1..];
      case Interactive => task := interactive[0]; interactive := interactive[1..];
      case Background => task := background[0]; background := background[1..];
    }

    /** `enqueue(lane, fn)`: see `Enqueued` for what it does. */
    method Enqueue(lane: Lane, work: Work) returns (task: Task)
      requires Valid()
      modifies this
      ensures Valid()
      ensures task == Task(old(nextId), lane, work) && task.id !in aborted
      ensures Model() == Enqueued(old(Model()), lane, work)
    {
      task := Task(nextId, lane, work);
      Push(lane, task);
      nextId := nextId + 1;
      if lane == Interactive && runningBackground.Some? {
        aborted := aborted + {runningBackground.value};
        runningBackground := None;
      }
      events := events + [EnqueueEvent(lane)];
    }

    /**
     * Run one dequeued, non-aborted task taken from `lane`: mark it if it is a Background
     * task, invoke its body (during which `arrivals` are enqueued), report its failure
     * unless it is the preemption sentinel, and clear the marker if it still refers to it.
     */
    method RunOne(lane: Lane, task: Task, body: (Work, bool) -> Outcome, arrivals: seq<Request>)
      requires Valid() && task.id < nextId
      modifies this
      ensures Valid()
      ensures Model() == RunTask(old(Model()), lane, task, body, arrivals)
    {
      RunTaskWf(Model(), lane, task, body, arrivals);
      if lane == Background {
        runningBackground := Some(task.id);
      }
      ran := ran + [task];
      ghost var begun := Model();
      assert Valid() by { RunTaskWf(old(Model()), lane, task, body, []); }
      for j := 0 to |arrivals|
        invariant Valid()
        invariant EnqueuedAll(Model(), arrivals[j..]) == EnqueuedAll(begun, arrivals)
      {
        assert arrivals[j..][1..] == arrivals[j + 1..];
        var _ := Enqueue(arrivals[j].lane, arrivals[j].work);
      }
      var outcome := body(task.work, task.id in aborted);
      if outcome.Failed? && outcome.message != PreemptedMessage {
        events := events + [ErrorEvent(outcome.message)];
      }
      if runningBackground == Some(task.id) {
        runningBackground := None;
      }
    }

    /**
     * `flush()`: visit System, Interactive and Background in that order; drain each lane
     * head first; skip a task whose flag is already aborted; run the others.
     */
    method Flush(body: (Work, bool) -> Outcome, during: seq<seq<Request>>)
      requires Valid()
      modifies this
      ensures Valid()
      ensures Model() == Flushed(old(Model()), body, during)
    {
      ghost var target := Flushed(Model(), body, during);
      var k := 0;
      for i := 0 to 3
        invariant Valid()
        invariant FlushFrom(Model(), i, k, body, during) == target
      {
        var lane := LaneOrder[i];
        while Queue(lane) != []
          invariant Valid()
          invariant FlushFrom(Model(), i, k, body, during) == target
          decreases Pending(during, k) + Model().Size()
        {
          ShiftWf(Model(), lane);
          var task := Shift(lane);
          if task.id in aborted {
            continue;
          }
          var arrivals := if k < |during| then during[k] else [];
          RunOne(lane, task, body, arrivals);
          k := k + 1;
        }
      }
    }
  }
}
