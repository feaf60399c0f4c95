/** What the events of a subscription, and the answers to calls, mean for a task: one by one, and in any sequence. */
module EventFold {
  import opened Common
  import opened Tasks
  import opened TaskTrail
  import opened TaskRuns

  /** The fields of a task that an agent tells; the others are kept by the daemon. */
  datatype Content = Content(
    state: TaskState, text: string, stamp: string, context: string, messages: seq<Message>,
    artifacts: seq<Artifact>, metadata: map<string, string>, error: string)

  function ContentOf(t: Task): Content {
    Content(t.state, t.stateMessage, t.lastStateChange, t.context, t.messages, t.artifacts, t.metadata, t.error)
  }

  // ---- Artifacts

  /** The artifact that is shown under the id: the first one that has it. */
  ghost predicate ShownAs(artifacts: seq<Artifact>, id: string, a: Artifact) {
    exists k | 0 <= k < |artifacts| :: FirstAt(artifacts, id, k) && artifacts[k] == a
  }

  ghost predicate FirstAt(artifacts: seq<Artifact>, id: string, k: nat) {
    k < |artifacts| && artifacts[k].id == id && forall i | 0 <= i < k :: artifacts[i].id != id
  }

  ghost predicate Absent(artifacts: seq<Artifact>, id: string) {
    forall i | 0 <= i < |artifacts| :: artifacts[i].id != id
  }

  /** All stay in their places but the one that is shown under the id, which becomes this one. */
  ghost predicate OnlyChanged(before: seq<Artifact>, after: seq<Artifact>, id: string, a: Artifact) {
    && |after| == |before|
    && forall k | 0 <= k < |before| :: after[k] == if FirstAt(before, id, k) then a else before[k]
  }

  /** An artifact that nobody had is added last; a shown one is continued, or replaced when it is sent anew. */
  ghost predicate ArtifactTaken(before: seq<Artifact>, after: seq<Artifact>, sent: Artifact, append: bool) {
    && (Absent(before, sent.id) ==> after == before + [sent])
    && (!append && !Absent(before, sent.id) ==> OnlyChanged(before, after, sent.id, sent))
    && forall a | append && ShownAs(before, sent.id, a) ::
         OnlyChanged(before, after, sent.id, Artifact(a.id, a.name, a.description, a.parts + sent.parts))
  }

  // ---- Events

  /** What an event makes of a content. */
  ghost predicate Took(before: Content, after: Content, event: StreamEvent) {
    match event
    case TaskSnapshot(w) =>
      after == Content(w.state, w.stateMessage, w.timestamp, w.context, w.messages, w.artifacts, w.metadata, "")
    case StatusUpdate(_, context, s, metadata) =>
      && after == before.(state := s.state, text := s.text, stamp := s.timestamp, messages := after.messages,
                          context := after.context, metadata := after.metadata)
      && after.messages == before.messages + s.messages
      && after.context == (if context == "" then before.context else context)
      && after.metadata == before.metadata + metadata
    case ArtifactUpdate(_, context, sent, append, metadata) =>
      && after == before.(artifacts := after.artifacts, context := after.context, metadata := after.metadata)
      && ArtifactTaken(before.artifacts, after.artifacts, sent, append)
      && after.context == (if context == "" then before.context else context)
      && after.metadata == before.metadata + metadata
    case MessageEvent(m) =>
      if m.taskId == "" then after == before
      else
        && after == before.(messages := after.messages, context := after.context)
        && after.messages == before.messages + [m]
        && after.context == (if m.contextId == "" then before.context else m.contextId)
    case OtherEvent => after == before
  }

  lemma FirstIsIndex(artifacts: seq<Artifact>, id: string, k: nat)
    ensures FirstAt(artifacts, id, k) <==> k < |artifacts| && IndexOf(artifacts, id) == k
    ensures Absent(artifacts, id) <==> IndexOf(artifacts, id) == |artifacts|
  {
    if FirstAt(artifacts, id, k) {
      IndexIs(artifacts, id, k);
    }
    if Absent(artifacts, id) {
      IndexIs(artifacts, id, |artifacts|);
    }
  }

  lemma PlaceTakes(artifacts: seq<Artifact>, sent: Artifact, append: bool)
    ensures ArtifactTaken(artifacts, Place(artifacts, Chunk(sent, append)), sent, append)
  {
    var n := IndexOf(artifacts, sent.id);
    forall k: nat
      ensures FirstAt(artifacts, sent.id, k) <==> k < |artifacts| && n == k
      ensures Absent(artifacts, sent.id) <==> n == |artifacts|
    {
      FirstIsIndex(artifacts, sent.id, k);
    }
  }

  lemma PlacedAlone(artifacts: seq<Artifact>, sent: Artifact, append: bool)
    ensures PlaceAll(artifacts, Chunks([], append)) == artifacts
    ensures PlaceAll(artifacts, Chunks([sent], append)) == Place(artifacts, Chunk(sent, append))
  {
    assert Chunks([sent], append)[..0] == [];
  }

  /** The update that an event is turned into does what the event means. */
  lemma UpdatesMean(task: Task, event: StreamEvent, now: string)
    ensures Took(ContentOf(task),
                 ContentOf(match UpdateOf(event) case None => task case Some(u) => Merged(task, u, now)), event)
  {
    match event
    case TaskSnapshot(_) =>
    case StatusUpdate(_, _, s, _) => assert PlaceAll(task.artifacts, Chunks([], false)) == task.artifacts;
    case ArtifactUpdate(_, _, sent, append, _) =>
      PlacedAlone(task.artifacts, sent, append);
      PlaceTakes(task.artifacts, sent, append);
      assert task.messages + [] == task.messages;
    case MessageEvent(_) =>
      assert PlaceAll(task.artifacts, Chunks([], false)) == task.artifacts;
      assert task.metadata + map[] == task.metadata;
    case OtherEvent =>
  }

  /** An event does what it means to its task, and nothing to any other. */
  lemma EventsArrive(agents: set<string>, m: Manager, id: string, event: StreamEvent, now: string)
    requires id in m.tasks
    ensures var tasks := Apply(agents, m, Streamed(id, event, now)).tasks;
            && tasks.Keys == m.tasks.Keys && Took(ContentOf(m.tasks[id]), ContentOf(tasks[id]), event)
            && forall other | other in m.tasks && other != id :: tasks[other] == m.tasks[other]
  {
    UpdatesMean(m.tasks[id], event, now);
  }

  /** What is found under the id of a streamed artifact: the stored one with its parts added, or the one sent. */
  lemma ArtifactsArrive(agents: set<string>, m: Manager, id: string, event: StreamEvent, now: string)
    requires id in m.tasks && event.ArtifactUpdate?
    ensures var tasks, sent := Apply(agents, m, Streamed(id, event, now)).tasks, event.artifact;
            && id in tasks
            && var before, after := m.tasks[id].artifacts, tasks[id].artifacts;
               && Find(after, sent.id) ==
                    (if event.append && Find(before, sent.id).Some? then
                       Some(Extended(Find(before, sent.id).value, sent.parts))
                     else Some(sent))
               && forall other | other != sent.id :: Find(after, other) == Find(before, other)
  {
    var before, chunk := m.tasks[id].artifacts, Chunk(event.artifact, event.append);
    PlacedAlone(before, event.artifact, event.append);
    FindPlaced(before, chunk, event.artifact.id);
    forall other | other != event.artifact.id ensures Find(Place(before, chunk), other) == Find(before, other) {
      FindPlaced(before, chunk, other);
    }
  }

  /** The id under which the agent knows the task; an empty one is none. */
  function KnownAs(id: string): Option<string> {
    if id == "" then None else Some(id)
  }

  /** A whole task brings its id; an event that only tells a part names the task where it had no id before. */
  ghost predicate LinkTaken(before: Task, after: Task, event: StreamEvent, now: string) {
    match event
    case TaskSnapshot(w) => after.remoteId == KnownAs(w.id) && after.updatedAt == now
    case StatusUpdate(taskId, _, _, _) => LinkFilled(before, after, taskId) && after.updatedAt == now
    case ArtifactUpdate(taskId, _, _, _, _) => LinkFilled(before, after, taskId) && after.updatedAt == now
    case MessageEvent(m) =>
      if m.taskId == "" then after == before else LinkFilled(before, after, m.taskId) && after.updatedAt == now
    case OtherEvent => after == before
  }

  ghost predicate LinkFilled(before: Task, after: Task, taskId: string) {
    after.remoteId == KnownAs(if before.remoteId.Some? then before.remoteId.value else taskId)
  }

  lemma LinksArrive(agents: set<string>, m: Manager, id: string, event: StreamEvent, now: string)
    requires id in m.tasks
    ensures id in Apply(agents, m, Streamed(id, event, now)).tasks
    ensures LinkTaken(m.tasks[id], Apply(agents, m, Streamed(id, event, now)).tasks[id], event, now)
  {
  }

  // ---- Answers

  /** What the answer to a call makes of the content of its task. */
  ghost predicate Answered(before: Content, after: Content, op: Op)
    requires !op.Create? && !op.Streamed?
  {
    if op.answer.ok && op.answer.task.Some? then
      var w := op.answer.task.value;
      after == Content(w.state, w.stateMessage, if op.Respond? || op.Cancel? then op.now else w.timestamp,
                       w.context, w.messages, w.artifacts, w.metadata, "")
    else if op.answer.ok && op.Respond? && op.answer.message.Some? then
      && after == before.(state := Completed, stamp := op.now, messages := after.messages, context := after.context)
      && after.messages == before.messages + [op.answer.message.value]
      && after.context == (if op.answer.contextId == "" then before.context else op.answer.contextId)
    else if op.answer.ok && op.Respond? then after == before.(stamp := op.now)
    else if op.Reconcile? && !op.answer.network then
      after == before.(error := "reconciliation failed: " + op.answer.error)
    else after == before
  }

  /** An answer does what it means to a task that the call reaches, and nothing to any other. */
  lemma AnswersArrive(agents: set<string>, m: Manager, op: Op)
    requires !op.Create? && !op.Streamed? && op.id in m.tasks
    ensures var tasks := Apply(agents, m, op).tasks;
            && tasks.Keys == m.tasks.Keys
            && (if Reaches(agents, m.tasks[op.id], op) then
                  Answered(ContentOf(m.tasks[op.id]), ContentOf(tasks[op.id]), op)
                else tasks[op.id] == m.tasks[op.id])
            && forall other | other in m.tasks && other != op.id :: tasks[other] == m.tasks[other]
  {
    match op
    case Respond(_, _, _) =>
    case Cancel(_, _, _) =>
    case Refresh(_, _, _) =>
    case Reconcile(_, _, _) =>
  }

  /** The content of a new task: what the agent answered, or one finished message when it answered without a task. */
  ghost predicate Opened(after: Content, op: Op)
    requires op.Create?
  {
    match op.answer.task
    case Some(w) =>
      after == Content(w.state, w.stateMessage, op.now, if w.context == "" then op.req.contextId else w.context,
                       w.messages, w.artifacts, w.metadata, "")
    case None =>
      && after == Content(Completed, "", op.now, op.answer.contextId, after.messages, [], map[], "")
      && |after.messages| == 1
      && var first := after.messages[0];
         match op.answer.message
         case Some(m) =>
           && first.role == (if m.role == "" then "agent" else m.role)
           && first.id == (if m.id == "" then op.replyId else m.id)
           && first.parts == (if m.parts == [] then [Part(op.answer.text, "", "", "", "", "")] else m.parts)
         case None =>
           first.role == "agent" && first.id == op.replyId
           && first.parts == [Part(op.answer.text, "", "", "", "", "")]
  }

  /** A creation that succeeds adds the task, and one that fails nothing; the local fields are the request's. */
  lemma CreationsOpen(agents: set<string>, m: Manager, op: Op)
    requires op.Create?
    ensures var m' := Apply(agents, m, op);
            if op.req.agent in agents && op.answer.ok then
              && m'.tasks.Keys == m.tasks.Keys + {op.id} && Opened(ContentOf(m'.tasks[op.id]), op)
              && m'.events == m.events + [TaskCreated(op.id, m'.tasks[op.id].state)]
              && m'.tasks[op.id].agent == op.req.agent && m'.tasks[op.id].cwd == op.req.cwd
              && m'.tasks[op.id].createdAt == m'.tasks[op.id].updatedAt == op.now
            else m' == m
  {
    CreateEffect(agents, m, op);
  }

  /** What one step of a run makes of a stored task. */
  ghost predicate StepMeans(agents: set<string>, before: Task, after: Task, op: Op, id: string) {
    if op.id == id && op.Streamed? then Took(ContentOf(before), ContentOf(after), op.event)
    else if op.id == id && !op.Create? && Reaches(agents, before, op) then
      Answered(ContentOf(before), ContentOf(after), op)
    else after == before
  }

  /** At every step of a run a task has exactly the content that its creation, an answer or an event gives it. */
  lemma ContentsAreCarriedExactly(agents: set<string>, ops: seq<Op>, n: nat, id: string)
    requires n < |ops| && FreshIds(agents, ops)
    ensures var before, after := RunOps(agents, ops[..n]).tasks, RunOps(agents, ops[..n + 1]).tasks;
            if id in before then id in after && StepMeans(agents, before[id], after[id], ops[n], id)
            else id in after ==> ops[n].Create? && ops[n].id == id && Opened(ContentOf(after[id]), ops[n])
  {
    var m := RunOps(agents, ops[..n]);
    RunNext(agents, ops[..n], ops[n]);
    assert ops[..n] + [ops[n]] == ops[..n + 1];
    if ops[n].Create? {
      CreationsOpen(agents, m, ops[n]);
      CreateEffect(agents, m, ops[n]);
    } else if ops[n].id in m.tasks {
      if ops[n].Streamed? {
        EventsArrive(agents, m, ops[n].id, ops[n].event, ops[n].now);
      } else {
        AnswersArrive(agents, m, ops[n]);
      }
    }
  }

  // ---- Any sequence of events

  /** The contents between the events, from the first to the last. */
  ghost predicate Follows(contents: seq<Content>, events: seq<StreamEvent>) {
    |contents| == |events| + 1 && forall k | 0 <= k < |events| :: Took(contents[k], contents[k + 1], events[k])
  }

  lemma FollowsOn(contents: seq<Content>, events: seq<StreamEvent>, next: Content, event: StreamEvent)
    requires Follows(contents, events) && Took(contents[|events|], next, event)
    ensures Follows(contents + [next], events + [event])
  {
  }

  /** The streamed artifacts, each with the flag of its own event. */
  function ChunksIn(events: seq<StreamEvent>): seq<Chunk> {
    if events == [] then []
    else
      ChunksIn(events[..|events| - 1]) +
      match events[|events| - 1]
      case ArtifactUpdate(_, _, sent, append, _) => [Chunk(sent, append)]
      case _ => []
  }

  /** The messages of the status updates, and those that come alone and name a task. */
  function MessagesIn(events: seq<StreamEvent>): seq<Message> {
    if events == [] then []
    else
      MessagesIn(events[..|events| - 1]) +
      match events[|events| - 1]
      case StatusUpdate(_, _, status, _) => status.messages
      case MessageEvent(m) => if m.taskId == "" then [] else [m]
      case _ => []
  }

  /** The state that the last status update tells. */
  function StateIn(events: seq<StreamEvent>): Option<TaskState> {
    if events == [] then None
    else
      match events[|events| - 1]
      case StatusUpdate(_, _, status, _) => Some(status.state)
      case _ => StateIn(events[..|events| - 1])
  }

  lemma TakenIsPlaced(before: seq<Artifact>, after: seq<Artifact>, sent: Artifact, append: bool)
    requires ArtifactTaken(before, after, sent, append)
    ensures after == Place(before, Chunk(sent, append))
  {
    var k := IndexOf(before, sent.id);
    FirstIsIndex(before, sent.id, k);
    if k < |before| {
      assert ShownAs(before, sent.id, before[k]);
      forall i: nat | i < |before| ensures FirstAt(before, sent.id, i) <==> i == k {
        FirstIsIndex(before, sent.id, i);
      }
    }
  }

  /** What one event adds to a fold. */
  ghost predicate Folded(first: Content, last: Content, events: seq<StreamEvent>) {
    && last.artifacts == PlaceAll(first.artifacts, ChunksIn(events))
    && last.messages == first.messages + MessagesIn(events)
    && last.state == StateIn(events).GetOr(first.state)
  }

  lemma FoldedOn(first: Content, before: Content, after: Content, events: seq<StreamEvent>)
    requires events != [] && !events[|events| - 1].TaskSnapshot?
    requires Folded(first, before, events[..|events| - 1]) && Took(before, after, events[|events| - 1])
    ensures Folded(first, after, events)
  {
    var rest, last := events[..|events| - 1], events[|events| - 1];
    var chunks, messages := ChunksIn(rest), first.messages + MessagesIn(rest);
    match last
    case StatusUpdate(_, _, status, _) =>
      assert chunks + [] == chunks;
      assert first.messages + (MessagesIn(rest) + status.messages) == messages + status.messages;
    case ArtifactUpdate(_, _, sent, append, _) =>
      assert first.messages + (MessagesIn(rest) + []) == messages;
      TakenIsPlaced(before.artifacts, after.artifacts, sent, append);
      PlaceLast(first.artifacts, chunks, Chunk(sent, append));
    case MessageEvent(m) =>
      assert chunks + [] == chunks;
      assert first.messages + (MessagesIn(rest) + [m]) == messages + [m];
      assert first.messages + (MessagesIn(rest) + []) == messages;
    case OtherEvent =>
      assert chunks + [] == chunks && MessagesIn(rest) + [] == MessagesIn(rest);
  }

  /** Without snapshots, the artifacts are the chunks placed in order, and the messages only grow. */
  lemma {:induction false} EventsFold(contents: seq<Content>, events: seq<StreamEvent>)
    requires Follows(contents, events) && forall k | 0 <= k < |events| :: !events[k].TaskSnapshot?
    ensures Folded(contents[0], contents[|events|], events)
  {
    if events == [] {
      assert contents[0].messages + [] == contents[0].messages;
    } else {
      var n := |events| - 1;
      EventsFold(contents[..n + 1], events[..n]);
      FoldedOn(contents[0], contents[n], contents[n + 1], events);
    }
  }

  /** A snapshot starts anew: whatever was before it does not matter. */
  lemma EventsFoldSinceSnapshot(contents: seq<Content>, events: seq<StreamEvent>, k: nat)
    requires Follows(contents, events) && k < |events| && events[k].TaskSnapshot?
    requires forall m | k < m < |events| :: !events[m].TaskSnapshot?
    ensures var w := events[k].wire;
            Folded(ContentOf(FromWire(w)), contents[|events|], events[k + 1..])
  {
    assert Took(contents[k], contents[k + 1], events[k]);
    EventsFold(contents[k + 1..], events[k + 1..]);
  }
}
