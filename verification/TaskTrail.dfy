/** The task operations, and the trail of events that they leave for every task. */
module TaskTrail {
  import opened Common
  import opened Tasks

  datatype TaskEvent =
    | TaskCreated(id: string, state: TaskState)
    | StateChanged(id: string, from: TaskState, to: TaskState)

  /** What a call to an agent returned; `network` marks an agent that could not be reached. */
  datatype Answer = Answer(
    ok: bool, network: bool, error: string, task: Option<Wire>, message: Option<Message>,
    contextId: string, text: string)

  datatype NewTask = NewTask(agent: string, message: string, cwd: string, contextId: string)

  /** Each operation with the answer it received; `id` is the local task id, `now` the time of the writing. */
  datatype Op =
    | Create(req: NewTask, answer: Answer, id: string, replyId: string, now: string)
    | Respond(id: string, answer: Answer, now: string)
    | Cancel(id: string, answer: Answer, now: string)
    | Refresh(id: string, answer: Answer, now: string)
    | Reconcile(id: string, answer: Answer, now: string)
    | Streamed(id: string, event: StreamEvent, now: string)

  datatype Manager = Manager(tasks: map<string, Task>, events: seq<TaskEvent>)

  const NoTasks := Manager(map[], [])

  // ---- The title of a new task

  predicate Blank(c: char) {
    c == ' ' || c == '\t'
  }

  function FirstLine(s: string): string {
    if s == "" || s[0] == '\n' then "" else [s[0]] + FirstLine(s[1..])
  }

  function TrimStart(s: string): string {
    if s != "" && Blank(s[0]) then TrimStart(s[1..]) else s
  }

  function TrimEnd(s: string): string {
    if s != "" && Blank(s[|s| - 1]) then TrimEnd(s[..|s| - 1]) else s
  }

  /** The three bytes of an ellipsis in UTF-8. */
  const Ellipsis: string := ['\U{e2}', '\U{80}', '\U{a6}']

  /** The first line of the message without blanks around it, cut to 48 bytes. */
  function TitleOf(message: string): string {
    var line := TrimEnd(TrimStart(FirstLine(message)));
    if line == "" then "(untitled)" else if |line| > 48 then line[..48] + Ellipsis else line
  }

  lemma {:induction false} FirstLineIsOne(s: string)
    ensures '\n' !in FirstLine(s)
  {
    if s != "" && s[0] != '\n' {
      FirstLineIsOne(s[1..]);
    }
  }

  lemma {:induction false} TrimStartKeeps(s: string)
    ensures forall c | c in TrimStart(s) :: c in s
  {
    if s != "" && Blank(s[0]) {
      TrimStartKeeps(s[1..]);
    }
  }

  lemma {:induction false} TrimEndKeeps(s: string)
    ensures forall c | c in TrimEnd(s) :: c in s
  {
    if s != "" && Blank(s[|s| - 1]) {
      TrimEndKeeps(s[..|s| - 1]);
    }
  }

  /** A title is one short line that is not empty. */
  lemma TitleIsOneShortLine(message: string)
    ensures TitleOf(message) != "" && '\n' !in TitleOf(message) && |TitleOf(message)| <= 51
  {
    FirstLineIsOne(message);
    TrimStartKeeps(FirstLine(message));
    TrimEndKeeps(TrimStart(FirstLine(message)));
  }

  predicate AllBlank(s: string) {
    forall i | 0 <= i < |s| :: Blank(s[i])
  }

  lemma {:induction false} FirstLineEnds(line: string, rest: string)
    requires '\n' !in line && (rest == "" || rest[0] == '\n')
    ensures FirstLine(line + rest) == line
  {
    if line == "" {
      assert line + rest == rest;
    } else {
      assert (line + rest)[1..] == line[1..] + rest;
      FirstLineEnds(line[1..], rest);
      assert line == [line[0]] + line[1..];
    }
  }

  lemma {:induction false} TrimStartDrops(blanks: string, s: string)
    requires AllBlank(blanks) && (s == "" || !Blank(s[0]))
    ensures TrimStart(blanks + s) == s
  {
    if blanks == "" {
      assert blanks + s == s;
    } else {
      assert (blanks + s)[1..] == blanks[1..] + s;
      TrimStartDrops(blanks[1..], s);
    }
  }

  lemma {:induction false} TrimEndDrops(s: string, blanks: string)
    requires AllBlank(blanks) && (s == "" || !Blank(s[|s| - 1]))
    ensures TrimEnd(s + blanks) == s
  {
    if blanks == "" {
      assert s + blanks == s;
    } else {
      var n := |blanks| - 1;
      assert (s + blanks)[..|s + blanks| - 1] == s + blanks[..n];
      TrimEndDrops(s, blanks[..n]);
    }
  }

  /** A message is titled by its first line without the blanks around it, cut after 48 bytes. */
  lemma TitleIsFirstLine(before: string, line: string, after: string, rest: string)
    requires AllBlank(before) && AllBlank(after) && '\n' !in line && (rest == "" || rest[0] == '\n')
    requires line != "" ==> !Blank(line[0]) && !Blank(line[|line| - 1])
    requires line == "" ==> after == ""
    ensures var title := TitleOf(before + line + after + rest);
            if line == "" then title == "(untitled)"
            else if |line| <= 48 then title == line
            else title == line[..48] + Ellipsis
  {
    FirstLineEnds(before + line + after, rest);
    assert before + line + after == before + (line + after);
    TrimStartDrops(before, line + after);
    TrimEndDrops(line, after);
  }

  // ---- What each operation stores

  /** An empty remote id is stored as none. */
  function Saved(task: Task): Task {
    if task.remoteId == Some("") then task.(remoteId := None) else task
  }

  function Noted(events: seq<TaskEvent>, id: string, from: TaskState, to: TaskState): seq<TaskEvent> {
    if from == to then events else events + [StateChanged(id, from, to)]
  }

  function Save(m: Manager, id: string, task: Task): Manager
    requires id in m.tasks
  {
    Manager(m.tasks[id := Saved(task)], Noted(m.events, id, m.tasks[id].state, task.state))
  }

  /** The agent's task with the local fields of the stored one. */
  function Adopted(existing: Task, w: Wire, now: string): Task {
    FromWire(w).(id := existing.id, agent := existing.agent, title := existing.title, cwd := existing.cwd,
                 createdAt := existing.createdAt, updatedAt := now)
  }

  function OrElse(text: string, other: string): string {
    if text == "" then other else text
  }

  /** A reply without a task is a finished interaction. */
  function Reply(req: NewTask, answer: Answer, id: string, replyId: string, now: string): Task {
    var m := answer.message.GetOr(Message("", "", "", "", []));
    var message := m.(role := OrElse(m.role, "agent"), id := OrElse(m.id, replyId),
                      parts := if m.parts == [] then [Part(answer.text, "", "", "", "", "")] else m.parts);
    Task(id, None, req.agent, answer.contextId, Completed, "", TitleOf(req.message), req.cwd, now, now, now,
         [message], [], map[], "")
  }

  function Started(req: NewTask, answer: Answer, id: string, replyId: string, now: string): Task {
    match answer.task
    case Some(w) =>
      FromWire(w).(id := id, agent := req.agent, context := OrElse(w.context, req.contextId),
                   title := TitleOf(req.message),
                   cwd := req.cwd, createdAt := now, updatedAt := now, lastStateChange := now)
    case None => Reply(req, answer, id, replyId, now)
  }

  function Responded(existing: Task, answer: Answer, now: string): Task {
    if answer.task.Some? then Adopted(existing, answer.task.value, now).(lastStateChange := now)
    else
      var task := existing.(updatedAt := now, lastStateChange := now);
      match answer.message
      case None => task
      case Some(message) =>
        task.(messages := existing.messages + [message], state := Completed,
              context := OrElse(answer.contextId, existing.context))
  }

  function Apply(agents: set<string>, m: Manager, op: Op): Manager {
    if op.Create? then
      if op.req.agent !in agents || !op.answer.ok then m
      else
        var task := Started(op.req, op.answer, op.id, op.replyId, op.now);
        Manager(m.tasks[op.id := Saved(task)], m.events + [TaskCreated(op.id, task.state)])
    else if op.id !in m.tasks then m
    else
      var existing := m.tasks[op.id];
      match op
      case Respond(id, answer, now) =>
        if existing.agent !in agents || !answer.ok then m else Save(m, id, Responded(existing, answer, now))
      case Cancel(id, answer, now) =>
        if existing.agent !in agents || existing.remoteId.None? || !answer.ok || answer.task.None? then m
        else Save(m, id, Adopted(existing, answer.task.value, now).(lastStateChange := now))
      case Refresh(id, answer, now) =>
        if existing.agent !in agents || existing.remoteId.None? || !answer.ok || answer.task.None? then m
        else Save(m, id, Adopted(existing, answer.task.value, now))
      case Reconcile(id, answer, now) =>
        if IsTerminal(existing.state) || existing.agent !in agents || existing.remoteId.None? then m
        else if answer.ok && answer.task.Some? then Save(m, id, Adopted(existing, answer.task.value, now))
        else if answer.network then m
        else Save(m, id, existing.(error := "reconciliation failed: " + answer.error))
      case Streamed(id, event, now) =>
        if UpdateOf(event).None? then m else Save(m, id, Merged(existing, UpdateOf(event).value, now))
  }

  // ---- The task manager

  class TaskManager {
    const agents: set<string>
    var tasks: map<string, Task>
    var events: seq<TaskEvent>

    function Contents(): Manager
      reads this
    {
      Manager(tasks, events)
    }

    constructor (agents: set<string>, stored: Manager)
      ensures this.agents == agents && Contents() == stored
    {
      this.agents, tasks, events := agents, stored.tasks, stored.events;
    }

    method WriteTask(task: Task)
      modifies this`tasks
      ensures tasks == old(tasks)[task.id := Saved(task)]
    {
      var row := task;
      if row.remoteId.Some? && row.remoteId.value == "" {
        row := row.(remoteId := None);
      }
      tasks := tasks[task.id := row];
    }

    method EmitStateChanged(id: string, from: TaskState, to: TaskState)
      modifies this`events
      ensures events == Noted(old(events), id, from, to)
    {
      if from != to {
        events := events + [StateChanged(id, from, to)];
      }
    }

    method CreateTask(req: NewTask, answer: Answer, id: string, replyId: string, now: string) returns (ok: bool)
      modifies this
      ensures Contents() == Apply(agents, old(Contents()), Create(req, answer, id, replyId, now))
      ensures ok <==> req.agent in agents && answer.ok
    {
      if req.agent !in agents || !answer.ok {
        return false;
      }
      var t: Task;
      match answer.task {
        case Some(w) =>
          t := FromWire(w);
          t := t.(id := id, agent := req.agent);
          if t.context == "" {
            t := t.(context := req.contextId);
          }
          t := t.(title := TitleOf(req.message), cwd := req.cwd, createdAt := now);
        case None =>
          var m := answer.message.GetOr(Message("", "", "", "", []));
          if m.role == "" {
            m := m.(role := "agent");
          }
          if m.id == "" {
            m := m.(id := replyId);
          }
          if m.parts == [] {
            m := m.(parts := [Part(answer.text, "", "", "", "", "")]);
          }
          t := Task(id, None, req.agent, answer.contextId, Completed, "", TitleOf(req.message), req.cwd, now, "", "",
                    [m], [], map[], "");
      }
      t := t.(updatedAt := now, lastStateChange := now);
      WriteTask(t);
      events := events + [TaskCreated(id, t.state)];
      return true;
    }

    method RespondToTask(id: string, answer: Answer, now: string) returns (ok: bool)
      requires id in tasks ==> tasks[id].id == id
      modifies this
      ensures Contents() == Apply(agents, old(Contents()), Respond(id, answer, now))
      ensures ok <==> id in old(tasks) && old(tasks)[id].agent in agents && answer.ok
    {
      if id !in tasks || tasks[id].agent !in agents || !answer.ok {
        return false;
      }
      var existing := tasks[id];
      var t := existing;
      if answer.task.Some? {
        t := FromWire(answer.task.value);
        t := t.(id := existing.id, title := existing.title, cwd := existing.cwd);
        t := t.(createdAt := existing.createdAt, agent := existing.agent);
      } else if answer.message.Some? {
        t := t.(messages := t.messages + [answer.message.value], state := Completed);
        if answer.contextId != "" {
          t := t.(context := answer.contextId);
        }
      }
      t := t.(updatedAt := now, lastStateChange := now);
      WriteTask(t);
      EmitStateChanged(id, existing.state, t.state);
      return true;
    }

    method CancelTask(id: string, answer: Answer, now: string) returns (ok: bool)
      requires id in tasks ==> tasks[id].id == id
      modifies this
      ensures Contents() == Apply(agents, old(Contents()), Cancel(id, answer, now))
      ensures ok <==> id in old(tasks) && old(tasks)[id].agent in agents && old(tasks)[id].remoteId.Some? && answer.ok
    {
      if id !in tasks || tasks[id].agent !in agents || tasks[id].remoteId.None? {
        return false;
      }
      if answer.ok && answer.task.Some? {
        AdoptAnswer(id, answer.task.value, now, true);
      }
      return answer.ok;
    }

    method RefreshTask(id: string, answer: Answer, now: string) returns (ok: bool)
      requires id in tasks ==> tasks[id].id == id
      modifies this
      ensures Contents() == Apply(agents, old(Contents()), Refresh(id, answer, now))
      ensures ok <==> id in old(tasks) && old(tasks)[id].agent in agents
                      && (old(tasks)[id].remoteId.Some? ==> answer.ok)
    {
      if id !in tasks || tasks[id].agent !in agents {
        return false;
      }
      if tasks[id].remoteId.None? {
        return true;
      }
      if answer.ok && answer.task.Some? {
        AdoptAnswer(id, answer.task.value, now, false);
      }
      return answer.ok;
    }

    method AdoptAnswer(id: string, w: Wire, now: string, stamp: bool)
      requires id in tasks && tasks[id].id == id
      modifies this
      ensures Contents() ==
              var task := Adopted(old(tasks)[id], w, now);
              Save(old(Contents()), id, if stamp then task.(lastStateChange := now) else task)
    {
      var existing := tasks[id];
      var t := FromWire(w);
      t := t.(id := existing.id, agent := existing.agent, title := existing.title);
      t := t.(cwd := existing.cwd, createdAt := existing.createdAt);
      t := t.(updatedAt := now);
      if stamp {
        t := t.(lastStateChange := now);
      }
      WriteTask(t);
      EmitStateChanged(id, existing.state, t.state);
    }

    method ReconcileTask(id: string, answer: Answer, now: string)
      requires id in tasks ==> tasks[id].id == id
      modifies this
      ensures Contents() == Apply(agents, old(Contents()), Reconcile(id, answer, now))
    {
      if id !in tasks || IsTerminal(tasks[id].state) || tasks[id].agent !in agents || tasks[id].remoteId.None? {
        return;
      }
      if answer.ok && answer.task.Some? {
        AdoptAnswer(id, answer.task.value, now, false);
      } else if !answer.network {
        WriteTask(tasks[id].(error := "reconciliation failed: " + answer.error));
      }
    }

    /** The callback of a subscription. */
    method OnStreamEvent(id: string, event: StreamEvent, now: string)
      requires id in tasks ==> tasks[id].id == id
      modifies this
      ensures Contents() == Apply(agents, old(Contents()), Streamed(id, event, now))
    {
      var update := UpdateOf(event);
      if update.None? || id !in tasks {
        return;
      }
      var existing := tasks[id];
      var merged := MergeUpdate(existing, update.value, now);
      WriteTask(merged);
      EmitStateChanged(id, existing.state, merged.state);
    }
  }
}
