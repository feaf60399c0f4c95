/** Any sequence of task operations and stream events, taken one at a time. */
module TaskRuns {
  import opened Common
  import opened Tasks
  import opened TaskTrail

  function RunOps(agents: set<string>, ops: seq<Op>): Manager {
    if ops == [] then NoTasks
    else Apply(agents, RunOps(agents, ops[..|ops| - 1]), ops[|ops| - 1])
  }

  /** A new task gets a local id that no task has. */
  ghost predicate FreshIds(agents: set<string>, ops: seq<Op>) {
    forall i | 0 <= i < |ops| && ops[i].Create? :: ops[i].id !in RunOps(agents, ops[..i]).tasks
  }

  lemma FreshPrefix(agents: set<string>, ops: seq<Op>, n: nat)
    requires FreshIds(agents, ops) && n <= |ops|
    ensures FreshIds(agents, ops[..n])
  {
    forall i | 0 <= i < n && ops[..n][i].Create? ensures ops[..n][i].id !in RunOps(agents, ops[..n][..i]).tasks {
      assert ops[..n][..i] == ops[..i];
    }
  }

  // ---- The trail of a task

  /** The events that name a task, in order. */
  function TrailOf(events: seq<TaskEvent>, id: string): seq<TaskEvent> {
    if events == [] then []
    else
      var last := events[|events| - 1];
      TrailOf(events[..|events| - 1], id) + if last.id == id then [last] else []
  }

  function Target(event: TaskEvent): TaskState {
    match event
    case TaskCreated(_, state) => state
    case StateChanged(_, _, to) => to
  }

  predicate Moves(a: TaskEvent, b: TaskEvent) {
    b.StateChanged? && b.from == Target(a) && b.from != b.to
  }

  /** A creation, and then changes that each start where the one before ended, none staying where it was. */
  ghost predicate Leads(trail: seq<TaskEvent>, state: TaskState) {
    && trail != [] && trail[0].TaskCreated? && Target(trail[|trail| - 1]) == state
    && forall i, j | 0 <= i && j == i + 1 < |trail| :: Moves(trail[i], trail[j])
  }

  ghost predicate TrailHolds(m: Manager, id: string) {
    if id in m.tasks then m.tasks[id].id == id && Leads(TrailOf(m.events, id), m.tasks[id].state)
    else TrailOf(m.events, id) == []
  }

  lemma TrailNext(events: seq<TaskEvent>, event: TaskEvent, id: string)
    ensures TrailOf(events + [event], id) == TrailOf(events, id) + if event.id == id then [event] else []
  {
    assert (events + [event])[..|events|] == events;
  }

  lemma LeadsOn(trail: seq<TaskEvent>, state: TaskState, event: TaskEvent)
    requires Leads(trail, state) && event.StateChanged? && event.from == state && event.to != state
    ensures Leads(trail + [event], event.to)
  {
  }

  /** Storing a task notes the change of its state, and of no other. */
  lemma SaveKeepsTrail(m: Manager, id: string, task: Task, other: string)
    requires id in m.tasks && task.id == id && TrailHolds(m, id) && TrailHolds(m, other)
    ensures TrailHolds(Save(m, id, task), other)
  {
    var from := m.tasks[id].state;
    if from != task.state {
      var event := StateChanged(id, from, task.state);
      TrailNext(m.events, event, other);
      if other == id {
        LeadsOn(TrailOf(m.events, id), from, event);
      }
    }
  }

  /** The version of a stored task that an operation writes, if it writes one. */
  function Version(op: Op, existing: Task): Task {
    match op
    case Create(_, _, _, _, _) => existing
    case Respond(_, answer, now) => Responded(existing, answer, now)
    case Cancel(_, answer, now) =>
      if answer.task.None? then existing else Adopted(existing, answer.task.value, now).(lastStateChange := now)
    case Refresh(_, answer, now) =>
      if answer.task.None? then existing else Adopted(existing, answer.task.value, now)
    case Reconcile(_, answer, now) =>
      if answer.ok && answer.task.Some? then Adopted(existing, answer.task.value, now)
      else existing.(error := "reconciliation failed: " + answer.error)
    case Streamed(_, event, now) =>
      if UpdateOf(event).None? then existing else Merged(existing, UpdateOf(event).value, now)
  }

  lemma VersionKeepsIdentity(op: Op, existing: Task)
    ensures SameIdentity(Version(op, existing), existing)
  {
  }

  /** An operation on a stored task writes nothing, or one version of that task. */
  lemma OneTaskWritten(agents: set<string>, m: Manager, op: Op)
    requires !op.Create?
    ensures Apply(agents, m, op) == m
         || (op.id in m.tasks && Apply(agents, m, op) == Save(m, op.id, Version(op, m.tasks[op.id])))
  {
    match op
    case Respond(_, _, _) =>
    case Cancel(_, _, _) =>
    case Refresh(_, _, _) =>
    case Reconcile(_, _, _) =>
    case Streamed(_, _, _) =>
  }

  predicate SameIdentity(a: Task, b: Task) {
    a.id == b.id && a.agent == b.agent && a.title == b.title && a.cwd == b.cwd && a.createdAt == b.createdAt
  }

  lemma CreateEffect(agents: set<string>, m: Manager, op: Op)
    requires op.Create?
    ensures var task := Started(op.req, op.answer, op.id, op.replyId, op.now);
            && task.id == op.id && task.agent == op.req.agent
            && (op.answer.task.Some? ==> task.state == op.answer.task.value.state)
            && Apply(agents, m, op)
               == if op.req.agent !in agents || !op.answer.ok then m
                  else Manager(m.tasks[op.id := Saved(task)], m.events + [TaskCreated(op.id, task.state)])
  {
  }

  lemma AddKeepsTrail(m: Manager, task: Task, other: string)
    requires task.id !in m.tasks && TrailHolds(m, task.id) && TrailHolds(m, other)
    ensures TrailHolds(Manager(m.tasks[task.id := Saved(task)], m.events + [TaskCreated(task.id, task.state)]), other)
  {
    TrailNext(m.events, TaskCreated(task.id, task.state), other);
  }

  lemma CreateKeepsTrail(agents: set<string>, m: Manager, op: Op, id: string)
    requires op.Create? && op.id !in m.tasks && TrailHolds(m, op.id) && TrailHolds(m, id)
    ensures TrailHolds(Apply(agents, m, op), id)
  {
    CreateEffect(agents, m, op);
    AddKeepsTrail(m, Started(op.req, op.answer, op.id, op.replyId, op.now), id);
  }

  lemma ApplyKeepsTrail(agents: set<string>, m: Manager, op: Op, id: string)
    requires op.Create? ==> op.id !in m.tasks
    requires TrailHolds(m, op.id) && TrailHolds(m, id)
    ensures TrailHolds(Apply(agents, m, op), id)
  {
    if op.Create? {
      CreateKeepsTrail(agents, m, op, id);
    } else {
      OneTaskWritten(agents, m, op);
      if op.id in m.tasks {
        VersionKeepsIdentity(op, m.tasks[op.id]);
        SaveKeepsTrail(m, op.id, Version(op, m.tasks[op.id]), id);
      }
    }
  }

  /** The events of a task form one path from the state it was created in to the state that is stored. */
  lemma {:induction false} TrailsConnect(agents: set<string>, ops: seq<Op>, id: string)
    requires FreshIds(agents, ops)
    ensures TrailHolds(RunOps(agents, ops), id)
  {
    if ops != [] {
      var n := |ops| - 1;
      FreshPrefix(agents, ops, n);
      TrailsConnect(agents, ops[..n], id);
      TrailsConnect(agents, ops[..n], ops[n].id);
      ApplyKeepsTrail(agents, RunOps(agents, ops[..n]), ops[n], id);
    }
  }

  // ---- What can change a task

  ghost predicate ApplyKeeps(agents: set<string>, m: Manager, op: Op, id: string)
    requires id in m.tasks
  {
    var m' := Apply(agents, m, op);
    id in m'.tasks && SameIdentity(m'.tasks[id], m.tasks[id])
  }

  lemma ApplyKeepsIdentity(agents: set<string>, m: Manager, op: Op, id: string)
    requires id in m.tasks && TrailHolds(m, op.id) && (op.Create? ==> op.id !in m.tasks)
    ensures ApplyKeeps(agents, m, op, id)
  {
    if !op.Create? {
      OneTaskWritten(agents, m, op);
      if op.id in m.tasks {
        VersionKeepsIdentity(op, m.tasks[op.id]);
      }
    }
  }

  /** Tasks stay, and keep their ids, agents, titles, directories and creation times. */
  ghost predicate KeepsTasks(a: Manager, b: Manager) {
    forall id | id in a.tasks :: id in b.tasks && SameIdentity(b.tasks[id], a.tasks[id])
  }

  lemma StepKeepsTasks(agents: set<string>, ops: seq<Op>, n: nat)
    requires n < |ops| && FreshIds(agents, ops)
    ensures KeepsTasks(RunOps(agents, ops[..n]), RunOps(agents, ops[..n + 1]))
  {
    var m := RunOps(agents, ops[..n]);
    FreshPrefix(agents, ops, n);
    TrailsConnect(agents, ops[..n], ops[n].id);
    RunNext(agents, ops[..n], ops[n]);
    assert ops[..n] + [ops[n]] == ops[..n + 1];
    forall id | id in m.tasks ensures ApplyKeeps(agents, m, ops[n], id) {
      ApplyKeepsIdentity(agents, m, ops[n], id);
    }
  }

  lemma {:induction false} HistoryKeepsTasks(history: seq<Manager>, i: nat, j: nat)
    requires i <= j < |history|
    requires forall k | 0 <= k < |history| - 1 :: KeepsTasks(history[k], history[k + 1])
    ensures KeepsTasks(history[i], history[j])
    decreases j
  {
    if i < j {
      HistoryKeepsTasks(history, i, j - 1);
      assert KeepsTasks(history[j - 1], history[j - 1 + 1]);
    }
  }

  /** Between any two moments, whatever operations come in between. */
  lemma IdentityStays(agents: set<string>, ops: seq<Op>, i: nat, j: nat)
    requires i <= j <= |ops| && FreshIds(agents, ops)
    ensures KeepsTasks(RunOps(agents, ops[..i]), RunOps(agents, ops[..j]))
  {
    var history := seq(|ops| + 1, k requires 0 <= k <= |ops| => RunOps(agents, ops[..k]));
    forall k | 0 <= k < |history| - 1 ensures KeepsTasks(history[k], history[k + 1]) {
      StepKeepsTasks(agents, ops, k);
    }
    HistoryKeepsTasks(history, i, j);
  }

  lemma NoTaskAtStep(agents: set<string>, ops: seq<Op>, n: nat)
    requires n < |ops| && !ops[n].Create?
    ensures RunOps(agents, ops[..n + 1]).tasks.Keys == RunOps(agents, ops[..n]).tasks.Keys
  {
    RunNext(agents, ops[..n], ops[n]);
    assert ops[..n] + [ops[n]] == ops[..n + 1];
    OneTaskWritten(agents, RunOps(agents, ops[..n]), ops[n]);
  }

  /** Only a creation adds a task. */
  lemma {:induction false} NoTaskIsAdded(agents: set<string>, ops: seq<Op>, m: nat, n: nat)
    requires m <= n <= |ops| && forall k | m <= k < n :: !ops[k].Create?
    ensures RunOps(agents, ops[..n]).tasks.Keys == RunOps(agents, ops[..m]).tasks.Keys
    decreases n
  {
    if m < n {
      NoTaskIsAdded(agents, ops, m, n - 1);
      NoTaskAtStep(agents, ops, n - 1);
    }
  }

  /** The state that an operation brings: an answer or event carries it, or a direct reply completes the task. */
  function Carried(op: Op): Option<TaskState> {
    match op
    case Create(_, _, _, _, _) => None
    case Respond(_, answer, _) =>
      if !answer.ok then None
      else if answer.task.Some? then Some(answer.task.value.state)
      else if answer.message.Some? then Some(Completed)
      else None
    case Cancel(_, answer, _) => AnsweredState(answer)
    case Refresh(_, answer, _) => AnsweredState(answer)
    case Reconcile(_, answer, _) => AnsweredState(answer)
    case Streamed(_, TaskSnapshot(w), _) => Some(w.state)
    case Streamed(_, StatusUpdate(_, _, status, _), _) => Some(status.state)
    case Streamed(_, _, _) => None
  }

  function AnsweredState(answer: Answer): Option<TaskState> {
    if answer.ok && answer.task.Some? then Some(answer.task.value.state) else None
  }

  /** Whether the operation goes to the agent at all; only reconciliation passes over terminal tasks. */
  predicate Reaches(agents: set<string>, task: Task, op: Op) {
    match op
    case Create(_, _, _, _, _) => false
    case Respond(_, _, _) => task.agent in agents
    case Cancel(_, _, _) => task.agent in agents && task.remoteId.Some?
    case Refresh(_, _, _) => task.agent in agents && task.remoteId.Some?
    case Reconcile(_, _, _) => task.agent in agents && task.remoteId.Some? && !IsTerminal(task.state)
    case Streamed(_, _, _) => true
  }

  function StateAfter(agents: set<string>, task: Task, op: Op, id: string): TaskState {
    if op.id == id && Reaches(agents, task, op) && Carried(op).Some? then Carried(op).value else task.state
  }

  lemma ApplyCarries(agents: set<string>, m: Manager, op: Op, id: string)
    requires id in m.tasks && (op.Create? ==> op.id !in m.tasks)
    ensures id in Apply(agents, m, op).tasks
    ensures Apply(agents, m, op).tasks[id].state == StateAfter(agents, m.tasks[id], op, id)
  {
    match op
    case Create(_, _, _, _, _) =>
    case Respond(_, _, _) =>
    case Cancel(_, _, _) =>
    case Refresh(_, _, _) =>
    case Reconcile(_, _, _) =>
    case Streamed(_, event, _) =>
  }

  /**
   * At every step of a run a task takes exactly the state that an operation on it brings, and keeps its own when the
   * operation does not reach an agent or brings none. So a terminal state is left exactly when another is brought.
   */
  lemma StatesAreCarriedExactly(agents: set<string>, ops: seq<Op>, n: nat, id: string)
    requires n < |ops| && FreshIds(agents, ops) && id in RunOps(agents, ops[..n]).tasks
    ensures id in RunOps(agents, ops[..n + 1]).tasks
    ensures RunOps(agents, ops[..n + 1]).tasks[id].state
         == StateAfter(agents, RunOps(agents, ops[..n]).tasks[id], ops[n], id)
  {
    RunNext(agents, ops[..n], ops[n]);
    assert ops[..n] + [ops[n]] == ops[..n + 1];
    ApplyCarries(agents, RunOps(agents, ops[..n]), ops[n], id);
  }

  /** The operation created the task in this state, or carried the state to it. */
  predicate Source(op: Op, id: string, state: TaskState) {
    && op.id == id
    && if !op.Create? then Carried(op) == Some(state)
       else op.answer.ok && state == if op.answer.task.Some? then op.answer.task.value.state else Completed
  }

  lemma CreatedState(agents: set<string>, m: Manager, op: Op, id: string)
    requires id !in m.tasks && id in Apply(agents, m, op).tasks
    ensures Source(op, id, Apply(agents, m, op).tasks[id].state)
  {
  }

  /** Every stored state was brought by some operation of the run. */
  lemma {:induction false} StoredStatesHaveASource(agents: set<string>, ops: seq<Op>, id: string)
    requires FreshIds(agents, ops) && id in RunOps(agents, ops).tasks
    ensures exists i | 0 <= i < |ops| :: Source(ops[i], id, RunOps(agents, ops).tasks[id].state)
  {
    var n := |ops| - 1;
    var before := RunOps(agents, ops[..n]);
    assert ops[..n + 1] == ops;
    FreshPrefix(agents, ops, n);
    if id !in before.tasks {
      CreatedState(agents, before, ops[n], id);
    } else {
      StatesAreCarriedExactly(agents, ops, n, id);
      if RunOps(agents, ops).tasks[id].state == before.tasks[id].state {
        StoredStatesHaveASource(agents, ops[..n], id);
        var i :| 0 <= i < n && Source(ops[..n][i], id, before.tasks[id].state);
        assert Source(ops[i], id, before.tasks[id].state);
      }
    }
  }

  lemma ApplyFailed(agents: set<string>, m: Manager, op: Op)
    requires !op.Streamed? && !op.answer.ok
    ensures FailureLeaves(m, Apply(agents, m, op), op)
  {
    match op
    case Create(_, _, _, _, _) =>
    case Respond(_, _, _) =>
    case Cancel(_, _, _) =>
    case Refresh(_, _, _) =>
    case Reconcile(_, _, _) =>
  }

  /** All is as it was, except that a failed reconciliation notes its error. */
  ghost predicate FailureLeaves(m: Manager, m': Manager, op: Op)
    requires !op.Streamed?
  {
    && m'.events == m.events && m'.tasks.Keys == m.tasks.Keys
    && forall id | id in m.tasks ::
         m'.tasks[id] == m.tasks[id]
         || (op.Reconcile? && op.id == id && !op.answer.network
             && m'.tasks[id] == Saved(m.tasks[id].(error := m'.tasks[id].error)))
  }

  /** A failed call leaves every task and the trail as they were; a failed reconciliation only notes its error. */
  lemma FailedCallsChangeNothing(agents: set<string>, ops: seq<Op>, n: nat)
    requires n < |ops| && !ops[n].Streamed? && !ops[n].answer.ok
    ensures FailureLeaves(RunOps(agents, ops[..n]), RunOps(agents, ops[..n + 1]), ops[n])
  {
    RunNext(agents, ops[..n], ops[n]);
    assert ops[..n] + [ops[n]] == ops[..n + 1];
    ApplyFailed(agents, RunOps(agents, ops[..n]), ops[n]);
  }

  lemma AfterCreate(agents: set<string>, m: Manager, op: Op)
    requires op.Create? && op.req.agent in agents && op.answer.ok && op.answer.task.Some?
    ensures var tasks := Apply(agents, m, op).tasks;
            op.id in tasks && tasks[op.id].state == op.answer.task.value.state && tasks[op.id].agent == op.req.agent
  {
    CreateEffect(agents, m, op);
  }

  lemma AfterResponse(agents: set<string>, m: Manager, op: Op)
    requires op.Respond? && op.id in m.tasks && m.tasks[op.id].agent in agents
    requires op.answer.ok && op.answer.task.Some?
    ensures var tasks := Apply(agents, m, op).tasks;
            op.id in tasks && tasks[op.id].state == op.answer.task.value.state
  {
  }

  /** Terminal states are not final: an answer to a completed task can put it back to work. */
  lemma CompletedTasksReopen() returns (agents: set<string>, ops: seq<Op>)
    ensures FreshIds(agents, ops) && |ops| == 2
    ensures var before, after := RunOps(agents, ops[..1]).tasks, RunOps(agents, ops).tasks;
            && "t" in before && IsTerminal(before["t"].state)
            && "t" in after && !IsTerminal(after["t"].state)
  {
    var done := Wire("r", "", Completed, "", "", [], [], map[]);
    var first := Create(NewTask("a", "", "", ""), Answer(true, false, "", Some(done), None, "", ""), "t", "m", "");
    var second := Respond("t", Answer(true, false, "", Some(done.(state := Working)), None, "", ""), "");
    agents, ops := {"a"}, [first] + [second];
    TwoOps(agents, first, second);
    AfterCreate(agents, NoTasks, first);
    AfterResponse(agents, Apply(agents, NoTasks, first), second);
  }

  lemma TwoOps(agents: set<string>, first: Op, second: Op)
    requires first.Create? && !second.Create?
    ensures var ops := [first] + [second];
            && FreshIds(agents, ops)
            && RunOps(agents, ops[..1]) == Apply(agents, NoTasks, first)
            && RunOps(agents, ops) == Apply(agents, Apply(agents, NoTasks, first), second)
  {
    var ops := [first] + [second];
    RunNext(agents, [], first);
    RunNext(agents, [first], second);
    assert ops[..0] == [] && ops[..1] == [first] && [] + [first] == [first];
  }

  lemma RunNext(agents: set<string>, ops: seq<Op>, op: Op)
    ensures RunOps(agents, ops + [op]) == Apply(agents, RunOps(agents, ops), op)
  {
    assert (ops + [op])[..|ops|] == ops;
  }
}
