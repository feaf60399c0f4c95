/** Tasks, and how the updates of a subscription are folded into the stored task. */
module Tasks {
  import opened Common

  datatype TaskState =
    | StateUnknown | Submitted | Working | InputNeeded | AuthNeeded | Completed | TaskFailed | Canceled | Rejected

  predicate IsTerminal(state: TaskState) {
    state == Completed || state == TaskFailed || state == Canceled || state == Rejected
  }

  datatype Part = Part(text: string, raw: string, url: string, data: string, mediaType: string, filename: string)

  datatype Message = Message(id: string, role: string, taskId: string, contextId: string, parts: seq<Part>)

  datatype Artifact = Artifact(id: string, name: string, description: string, parts: seq<Part>)

  datatype Task = Task(
    id: string, remoteId: Option<string>, agent: string, context: string, state: TaskState, stateMessage: string,
    title: string, cwd: string, createdAt: string, updatedAt: string, lastStateChange: string,
    messages: seq<Message>, artifacts: seq<Artifact>, metadata: map<string, string>, error: string)

  /** A task as an agent sends it. */
  datatype Wire = Wire(
    id: string, context: string, state: TaskState, stateMessage: string, timestamp: string,
    messages: seq<Message>, artifacts: seq<Artifact>, metadata: map<string, string>)

  /** What `parseTask` makes of it: nothing of the local bookkeeping is filled in. */
  function FromWire(w: Wire): Task {
    Task(w.id, Some(w.id), "", w.context, w.state, w.stateMessage, "", "", "", "", w.timestamp,
         w.messages, w.artifacts, w.metadata, "")
  }

  /** An update carries a whole task, or only some of its fields. */
  datatype Update = Update(wire: Wire, partial: bool, hasState: bool, append: bool)

  // ---- Events of a subscription

  datatype Status = Status(state: TaskState, text: string, messages: seq<Message>, timestamp: string)

  datatype StreamEvent =
    | TaskSnapshot(wire: Wire)
    | StatusUpdate(taskId: string, contextId: string, status: Status, metadata: map<string, string>)
    | ArtifactUpdate(taskId: string, contextId: string, artifact: Artifact, append: bool, metadata: map<string, string>)
    | MessageEvent(message: Message)
    | OtherEvent

  function UpdateOf(event: StreamEvent): Option<Update> {
    match event
    case TaskSnapshot(wire) => Some(Update(wire, false, true, false))
    case StatusUpdate(id, context, s, metadata) =>
      Some(Update(Wire(id, context, s.state, s.text, s.timestamp, s.messages, [], metadata), true, true, false))
    case ArtifactUpdate(id, context, artifact, append, metadata) =>
      Some(Update(Wire(id, context, Submitted, "", "", [], [artifact], metadata), true, false, append))
    case MessageEvent(m) =>
      if m.taskId == "" then None
      else Some(Update(Wire(m.taskId, m.contextId, Submitted, "", "", [m], [], map[]), true, false, false))
    case OtherEvent => None
  }

  // ---- Merging

  /** One streamed artifact: it extends or replaces the artifact with its id, or becomes a new one. */
  datatype Chunk = Chunk(artifact: Artifact, append: bool)

  /** The index of the first artifact with the id, or the length. */
  function IndexOf(artifacts: seq<Artifact>, id: string): (k: nat)
    ensures k <= |artifacts| && (k < |artifacts| ==> artifacts[k].id == id)
    ensures forall i | 0 <= i < k :: artifacts[i].id != id
  {
    if artifacts == [] || artifacts[0].id == id then 0 else 1 + IndexOf(artifacts[1..], id)
  }

  function Place(artifacts: seq<Artifact>, chunk: Chunk): seq<Artifact> {
    var k := IndexOf(artifacts, chunk.artifact.id);
    if k == |artifacts| then artifacts + [chunk.artifact]
    else artifacts[k := Continued(artifacts[k], chunk)]
  }

  function Continued(held: Artifact, chunk: Chunk): Artifact {
    if chunk.append then held.(parts := held.parts + chunk.artifact.parts) else chunk.artifact
  }

  function PlaceAll(artifacts: seq<Artifact>, chunks: seq<Chunk>): seq<Artifact> {
    if chunks == [] then artifacts
    else Place(PlaceAll(artifacts, chunks[..|chunks| - 1]), chunks[|chunks| - 1])
  }

  function Chunks(artifacts: seq<Artifact>, append: bool): seq<Chunk> {
    seq(|artifacts|, i requires 0 <= i < |artifacts| => Chunk(artifacts[i], append))
  }

  /** The local fields of the stored task survive every update. */
  function Localized(task: Task, existing: Task, w: Wire, now: string): Task {
    task.(remoteId := if task.remoteId.None? then Some(w.id) else task.remoteId,
          id := existing.id, agent := existing.agent, title := existing.title, cwd := existing.cwd,
          createdAt := existing.createdAt, updatedAt := now)
  }

  function Merged(existing: Task, update: Update, now: string): Task {
    var w := update.wire;
    if !update.partial then Localized(FromWire(w), existing, w, now)
    else
      var merged := existing.(
        context := if w.context == "" then existing.context else w.context,
        messages := existing.messages + w.messages,
        artifacts := PlaceAll(existing.artifacts, Chunks(w.artifacts, update.append)),
        metadata := existing.metadata + w.metadata);
      Localized(
        if update.hasState then
          merged.(state := w.state, stateMessage := w.stateMessage, lastStateChange := w.timestamp)
        else merged,
        existing, w, now)
  }

  method FindArtifact(artifacts: seq<Artifact>, id: string) returns (k: nat)
    ensures k == IndexOf(artifacts, id)
  {
    k := 0;
    while k < |artifacts| && artifacts[k].id != id
      invariant k <= |artifacts| && IndexOf(artifacts, id) == k + IndexOf(artifacts[k..], id)
    {
      assert artifacts[k..][1..] == artifacts[k + 1..];
      k := k + 1;
    }
  }

  method MergeArtifacts(stored: seq<Artifact>, streamed: seq<Artifact>, append: bool) returns (out: seq<Artifact>)
    ensures out == PlaceAll(stored, Chunks(streamed, append))
  {
    out := stored;
    ghost var chunks := Chunks(streamed, append);
    for i := 0 to |streamed|
      invariant out == PlaceAll(stored, chunks[..i])
    {
      assert chunks[..i + 1][..i] == chunks[..i];
      var artifact := streamed[i];
      var found := FindArtifact(out, artifact.id);
      if found == |out| {
        out := out + [artifact];
      } else if append {
        out := out[found := out[found].(parts := out[found].parts + artifact.parts)];
      } else {
        out := out[found := artifact];
      }
    }
    assert chunks[..|streamed|] == chunks;
  }

  method MergeMessages(stored: seq<Message>, streamed: seq<Message>) returns (out: seq<Message>)
    ensures out == stored + streamed
  {
    out := stored;
    for i := 0 to |streamed|
      invariant out == stored + streamed[..i]
    {
      assert streamed[..i + 1] == streamed[..i] + [streamed[i]];
      out := out + [streamed[i]];
    }
    assert streamed[..|streamed|] == streamed;
  }

  /** What the subscription's callback stores. */
  method MergeUpdate(existing: Task, update: Update, now: string) returns (merged: Task)
    ensures merged == Merged(existing, update, now)
  {
    var w := update.wire;
    merged := if update.partial then existing else FromWire(w);
    if update.partial {
      if update.hasState {
        merged := merged.(state := w.state, stateMessage := w.stateMessage, lastStateChange := w.timestamp);
      }
      if w.context != "" {
        merged := merged.(context := w.context);
      }
      var messages := MergeMessages(merged.messages, w.messages);
      var artifacts := MergeArtifacts(merged.artifacts, w.artifacts, update.append);
      merged := merged.(messages := messages, artifacts := artifacts, metadata := merged.metadata + w.metadata);
    }
    if merged.remoteId.None? {
      merged := merged.(remoteId := Some(w.id));
    }
    merged := merged.(id := existing.id);
    merged := merged.(agent := existing.agent, title := existing.title);
    merged := merged.(cwd := existing.cwd, createdAt := existing.createdAt);
    merged := merged.(updatedAt := now);
  }

  // ---- What a streamed artifact contains

  function Find(artifacts: seq<Artifact>, id: string): Option<Artifact> {
    var k := IndexOf(artifacts, id);
    if k < |artifacts| then Some(artifacts[k]) else None
  }

  function Taken(held: Option<Artifact>, chunk: Chunk): Option<Artifact> {
    match held
    case None => Some(chunk.artifact)
    case Some(artifact) => Some(Continued(artifact, chunk))
  }

  lemma IndexIs(artifacts: seq<Artifact>, id: string, k: nat)
    requires k <= |artifacts| && (k < |artifacts| ==> artifacts[k].id == id)
    requires forall i | 0 <= i < k :: artifacts[i].id != id
    ensures IndexOf(artifacts, id) == k
  {
  }

  lemma FindPlaced(artifacts: seq<Artifact>, chunk: Chunk, id: string)
    ensures Find(Place(artifacts, chunk), id)
         == if id == chunk.artifact.id then Taken(Find(artifacts, id), chunk) else Find(artifacts, id)
  {
    var placed := Place(artifacts, chunk);
    var k := IndexOf(artifacts, id);
    if k < |artifacts| || id == chunk.artifact.id {
      IndexIs(placed, id, k);
    } else {
      IndexIs(placed, id, |placed|);
    }
  }

  /** The parts of the chunks with the id, in order. */
  function PartsFor(chunks: seq<Chunk>, id: string): seq<Part> {
    if chunks == [] then []
    else
      var last := chunks[|chunks| - 1];
      PartsFor(chunks[..|chunks| - 1], id) + if last.artifact.id == id then last.artifact.parts else []
  }

  ghost predicate OnlyAppends(chunks: seq<Chunk>, id: string) {
    forall i | 0 <= i < |chunks| :: chunks[i].artifact.id == id ==> chunks[i].append
  }

  function Extended(artifact: Artifact, parts: seq<Part>): Artifact {
    artifact.(parts := artifact.parts + parts)
  }

  lemma {:induction false} AppendsExtend(artifacts: seq<Artifact>, chunks: seq<Chunk>, id: string)
    requires OnlyAppends(chunks, id) && Find(artifacts, id).Some?
    ensures Find(PlaceAll(artifacts, chunks), id) == Some(Extended(Find(artifacts, id).value, PartsFor(chunks, id)))
  {
    if chunks == [] {
      assert Find(artifacts, id).value.parts + [] == Find(artifacts, id).value.parts;
    } else {
      var n := |chunks| - 1;
      AppendsExtend(artifacts, chunks[..n], id);
      FindPlaced(PlaceAll(artifacts, chunks[..n]), chunks[n], id);
      var parts, before := Find(artifacts, id).value.parts, PartsFor(chunks[..n], id);
      assert parts + (before + chunks[n].artifact.parts) == parts + before + chunks[n].artifact.parts;
      assert parts + (before + []) == parts + before;
    }
  }

  lemma {:induction false} PlaceInTwo(artifacts: seq<Artifact>, a: seq<Chunk>, b: seq<Chunk>)
    ensures PlaceAll(artifacts, a + b) == PlaceAll(PlaceAll(artifacts, a), b)
    decreases |b|
  {
    if b == [] {
      assert a + b == a;
    } else {
      var n := |b| - 1;
      PlaceInTwo(artifacts, a, b[..n]);
      assert (a + b)[..|a + b| - 1] == a + b[..n];
    }
  }

  lemma {:induction false} OthersKeep(artifacts: seq<Artifact>, chunks: seq<Chunk>, id: string)
    requires forall i | 0 <= i < |chunks| :: chunks[i].artifact.id != id
    ensures Find(PlaceAll(artifacts, chunks), id) == Find(artifacts, id)
  {
    if chunks != [] {
      var n := |chunks| - 1;
      OthersKeep(artifacts, chunks[..n], id);
      FindPlaced(PlaceAll(artifacts, chunks[..n]), chunks[n], id);
    }
  }

  /** Chunk `i` gives the artifact anew: it replaces what was there, or nothing was there. */
  ghost predicate Restarts(artifacts: seq<Artifact>, chunks: seq<Chunk>, id: string, i: nat)
    requires i < |chunks|
  {
    && chunks[i].artifact.id == id
    && (!chunks[i].append
        || (Find(artifacts, id).None? && forall j | 0 <= j < i :: chunks[j].artifact.id != id))
  }

  lemma RestartPlaced(artifacts: seq<Artifact>, chunks: seq<Chunk>, id: string, i: nat)
    requires i < |chunks| && Restarts(artifacts, chunks, id, i)
    ensures Find(PlaceAll(artifacts, chunks[..i + 1]), id) == Some(chunks[i].artifact)
  {
    FindPlaced(PlaceAll(artifacts, chunks[..i]), chunks[i], id);
    if chunks[i].append {
      OthersKeep(artifacts, chunks[..i], id);
    }
    assert chunks[..i + 1][..i] == chunks[..i];
  }

  /** Once a chunk gives an artifact anew, it holds that chunk's parts and then all parts appended later, in order. */
  lemma ContentsSinceRestart(artifacts: seq<Artifact>, chunks: seq<Chunk>, id: string, i: nat)
    requires i < |chunks| && Restarts(artifacts, chunks, id, i) && OnlyAppends(chunks[i + 1..], id)
    ensures Find(PlaceAll(artifacts, chunks), id)
         == Some(Extended(chunks[i].artifact, PartsFor(chunks[i + 1..], id)))
  {
    RestartPlaced(artifacts, chunks, id, i);
    AppendsExtend(PlaceAll(artifacts, chunks[..i + 1]), chunks[i + 1..], id);
    PlaceInTwo(artifacts, chunks[..i + 1], chunks[i + 1..]);
    assert chunks[..i + 1] + chunks[i + 1..] == chunks;
  }

  /** A later chunk that appends, or that is for another id, leaves the last restart where it is. */
  lemma RestartStays(artifacts: seq<Artifact>, chunks: seq<Chunk>, id: string, i: nat)
    requires chunks != [] && LastRestart(artifacts, chunks[..|chunks| - 1], id, i)
    requires chunks[|chunks| - 1].artifact.id == id ==> chunks[|chunks| - 1].append
    ensures LastRestart(artifacts, chunks, id, i)
  {
    var n := |chunks| - 1;
    var front, rest := chunks[..n], chunks[i + 1..];
    assert forall j | 0 <= j <= i :: front[j] == chunks[j];
    forall j | 0 <= j < |rest| ensures rest[j].artifact.id == id ==> rest[j].append {
      assert i + 1 + j < n ==> front[i + 1..][j] == rest[j];
    }
  }

  lemma RestartsNow(artifacts: seq<Artifact>, chunks: seq<Chunk>, id: string)
    requires chunks != [] && Restarts(artifacts, chunks, id, |chunks| - 1)
    ensures LastRestart(artifacts, chunks, id, |chunks| - 1)
  {
    assert chunks[|chunks|..] == [];
  }

  /** Every artifact is covered: a last chunk gives it anew, or the stored one is only extended. */
  lemma {:induction false} RestartOrAppends(artifacts: seq<Artifact>, chunks: seq<Chunk>, id: string)
    ensures || (exists i | 0 <= i < |chunks| :: LastRestart(artifacts, chunks, id, i))
            || (Find(artifacts, id).Some? && OnlyAppends(chunks, id))
            || (Find(artifacts, id).None? && forall i | 0 <= i < |chunks| :: chunks[i].artifact.id != id)
  {
    if chunks != [] {
      var n := |chunks| - 1;
      var front := chunks[..n];
      RestartOrAppends(artifacts, front, id);
      assert forall j | 0 <= j < n :: front[j] == chunks[j];
      if Restarts(artifacts, chunks, id, n) {
        RestartsNow(artifacts, chunks, id);
      } else if i :| 0 <= i < |front| && LastRestart(artifacts, front, id, i) {
        RestartStays(artifacts, chunks, id, i);
      }
    }
  }

  ghost predicate LastRestart(artifacts: seq<Artifact>, chunks: seq<Chunk>, id: string, i: nat) {
    i < |chunks| && Restarts(artifacts, chunks, id, i) && OnlyAppends(chunks[i + 1..], id)
  }

  /**
   * What any sequence of chunks leaves under an id: the parts since the chunk that last gave the artifact anew; or
   * the stored artifact with all parts appended; or nothing, when there was nothing.
   */
  lemma ArtifactContents(artifacts: seq<Artifact>, chunks: seq<Chunk>, id: string)
    ensures var found := Find(PlaceAll(artifacts, chunks), id);
            || (exists i | 0 <= i < |chunks| ::
                  LastRestart(artifacts, chunks, id, i)
                  && found == Some(Extended(chunks[i].artifact, PartsFor(chunks[i + 1..], id))))
            || (OnlyAppends(chunks, id) && Find(artifacts, id).Some?
                && found == Some(Extended(Find(artifacts, id).value, PartsFor(chunks, id))))
            || (Find(artifacts, id).None? && found.None?)
  {
    RestartOrAppends(artifacts, chunks, id);
    if i :| 0 <= i < |chunks| && LastRestart(artifacts, chunks, id, i) {
      ContentsSinceRestart(artifacts, chunks, id, i);
    } else if Find(artifacts, id).Some? {
      AppendsExtend(artifacts, chunks, id);
    } else {
      OthersKeep(artifacts, chunks, id);
    }
  }

  /** The chunks with the id, in order. */
  function Only(chunks: seq<Chunk>, id: string): seq<Chunk> {
    if chunks == [] then []
    else
      var last := chunks[|chunks| - 1];
      Only(chunks[..|chunks| - 1], id) + if last.artifact.id == id then [last] else []
  }

  lemma PlaceLast(artifacts: seq<Artifact>, chunks: seq<Chunk>, last: Chunk)
    ensures PlaceAll(artifacts, chunks + [last]) == Place(PlaceAll(artifacts, chunks), last)
  {
    assert (chunks + [last])[..|chunks|] == chunks;
  }

  /** What is found under an id depends on the chunks with that id alone. */
  lemma {:induction false} OnlyOwnChunksMatter(artifacts: seq<Artifact>, chunks: seq<Chunk>, id: string)
    ensures Find(PlaceAll(artifacts, chunks), id) == Find(PlaceAll(artifacts, Only(chunks, id)), id)
  {
    if chunks != [] {
      var rest, last := chunks[..|chunks| - 1], chunks[|chunks| - 1];
      OnlyOwnChunksMatter(artifacts, rest, id);
      FindPlaced(PlaceAll(artifacts, rest), last, id);
      if last.artifact.id == id {
        PlaceLast(artifacts, Only(rest, id), last);
        FindPlaced(PlaceAll(artifacts, Only(rest, id)), last, id);
      } else {
        assert Only(chunks, id) == Only(rest, id);
      }
    }
  }

  /** So chunks of distinct ids may come in any order: all contents are the same. */
  lemma ReorderingIdsKeepsContents(artifacts: seq<Artifact>, a: seq<Chunk>, b: seq<Chunk>, id: string)
    requires Only(a, id) == Only(b, id)
    ensures Find(PlaceAll(artifacts, a), id) == Find(PlaceAll(artifacts, b), id)
  {
    OnlyOwnChunksMatter(artifacts, a, id);
    OnlyOwnChunksMatter(artifacts, b, id);
  }

  lemma DistinctIdsCommute(artifacts: seq<Artifact>, a: Chunk, b: Chunk, id: string)
    requires a.artifact.id != b.artifact.id
    ensures Find(Place(Place(artifacts, a), b), id) == Find(Place(Place(artifacts, b), a), id)
  {
    FindPlaced(artifacts, a, id);
    FindPlaced(artifacts, b, id);
    FindPlaced(Place(artifacts, a), b, id);
    FindPlaced(Place(artifacts, b), a, id);
  }

  ghost predicate UniqueIds(artifacts: seq<Artifact>) {
    forall i, j | 0 <= i < j < |artifacts| :: artifacts[i].id != artifacts[j].id
  }

  lemma {:induction false} IdsStayUnique(artifacts: seq<Artifact>, chunks: seq<Chunk>)
    requires UniqueIds(artifacts)
    ensures UniqueIds(PlaceAll(artifacts, chunks))
  {
    if chunks != [] {
      var n := |chunks| - 1;
      IdsStayUnique(artifacts, chunks[..n]);
      var before, id := PlaceAll(artifacts, chunks[..n]), chunks[n].artifact.id;
      assert forall i | 0 <= i < |before| :: Place(before, chunks[n])[i].id == before[i].id;
    }
  }

  // ---- Any sequence of updates

  function MergedAll(task: Task, updates: seq<Update>, now: nat -> string): Task {
    if updates == [] then task
    else
      var n := |updates| - 1;
      Merged(MergedAll(task, updates[..n], now), updates[n], now(n))
  }

  function AllChunks(updates: seq<Update>): seq<Chunk> {
    if updates == [] then []
    else
      var last := updates[|updates| - 1];
      AllChunks(updates[..|updates| - 1]) + Chunks(last.wire.artifacts, last.append)
  }

  function AllMessages(updates: seq<Update>): seq<Message> {
    if updates == [] then []
    else AllMessages(updates[..|updates| - 1]) + updates[|updates| - 1].wire.messages
  }

  lemma MergedContents(task: Task, update: Update, now: string)
    ensures var merged := Merged(task, update, now);
            if update.partial then
              && merged.artifacts == PlaceAll(task.artifacts, Chunks(update.wire.artifacts, update.append))
              && merged.messages == task.messages + update.wire.messages
            else
              merged.artifacts == update.wire.artifacts && merged.messages == update.wire.messages
  {
  }

  /** The artifacts and messages of a task are what these updates make of the given ones. */
  ghost predicate Folds(task: Task, artifacts: seq<Artifact>, messages: seq<Message>, updates: seq<Update>) {
    task.artifacts == PlaceAll(artifacts, AllChunks(updates)) && task.messages == messages + AllMessages(updates)
  }

  lemma FoldsNothing(task: Task)
    ensures Folds(task, task.artifacts, task.messages, [])
  {
    assert task.messages + [] == task.messages;
  }

  lemma ArtifactsNext(artifacts: seq<Artifact>, updates: seq<Update>, update: Update)
    ensures PlaceAll(artifacts, AllChunks(updates + [update]))
         == PlaceAll(PlaceAll(artifacts, AllChunks(updates)), Chunks(update.wire.artifacts, update.append))
  {
    assert (updates + [update])[..|updates|] == updates;
    PlaceInTwo(artifacts, AllChunks(updates), Chunks(update.wire.artifacts, update.append));
  }

  lemma MessagesNext(messages: seq<Message>, updates: seq<Update>, update: Update)
    ensures messages + AllMessages(updates + [update]) == messages + AllMessages(updates) + update.wire.messages
  {
    assert (updates + [update])[..|updates|] == updates;
    assert messages + (AllMessages(updates) + update.wire.messages)
        == messages + AllMessages(updates) + update.wire.messages;
  }

  lemma FoldsNext(artifacts: seq<Artifact>, messages: seq<Message>, updates: seq<Update>, task: Task,
                  update: Update, now: string)
    requires update.partial && Folds(task, artifacts, messages, updates)
    ensures Folds(Merged(task, update, now), artifacts, messages, updates + [update])
  {
    MergedContents(task, update, now);
    ArtifactsNext(artifacts, updates, update);
    MessagesNext(messages, updates, update);
  }

  ghost predicate Inherits(holds: seq<Update> -> bool, us: seq<Update>, u: Update) {
    u.partial && holds(us) ==> holds(us + [u])
  }

  /** What every partial update hands on holds after any number of them. */
  lemma {:induction false} Onwards(holds: seq<Update> -> bool, later: seq<Update>)
    requires holds([]) && forall us, u :: Inherits(holds, us, u)
    requires forall i | 0 <= i < |later| :: later[i].partial
    ensures holds(later)
  {
    if later != [] {
      var rest, last := later[..|later| - 1], later[|later| - 1];
      Onwards(holds, rest);
      assert Inherits(holds, rest, last) && rest + [last] == later;
    }
  }

  lemma MergedNext(task: Task, base: seq<Update>, us: seq<Update>, u: Update, now: nat -> string)
    ensures MergedAll(task, base + (us + [u]), now) == Merged(MergedAll(task, base + us, now), u, now(|base + us|))
  {
    assert base + (us + [u]) == base + us + [u];
    assert (base + us + [u])[..|base + us|] == base + us;
  }

  /** Partial updates behind `base` only add messages at the end, and fold their artifacts in the order of arrival. */
  lemma FoldsBehind(task: Task, base: seq<Update>, later: seq<Update>, now: nat -> string)
    requires forall i | 0 <= i < |later| :: later[i].partial
    ensures var before := MergedAll(task, base, now);
            Folds(MergedAll(task, base + later, now), before.artifacts, before.messages, later)
  {
    var before := MergedAll(task, base, now);
    var holds := (us: seq<Update>) =>
      Folds(MergedAll(task, base + us, now), before.artifacts, before.messages, us);
    assert base + [] == base;
    FoldsNothing(before);
    forall us, u ensures Inherits(holds, us, u) {
      if u.partial && holds(us) {
        MergedNext(task, base, us, u, now);
        FoldsNext(before.artifacts, before.messages, us, MergedAll(task, base + us, now), u, now(|base + us|));
      }
    }
    Onwards(holds, later);
  }

  /** Partial updates only add messages at the end, and fold their artifacts in the order of arrival. */
  lemma PartialUpdatesFold(task: Task, updates: seq<Update>, now: nat -> string)
    requires forall i | 0 <= i < |updates| :: updates[i].partial
    ensures Folds(MergedAll(task, updates, now), task.artifacts, task.messages, updates)
  {
    FoldsBehind(task, [], updates, now);
    assert [] + updates == updates;
  }

  lemma SnapshotContents(task: Task, updates: seq<Update>, k: nat, now: nat -> string)
    requires k < |updates| && !updates[k].partial
    ensures var after := MergedAll(task, updates[..k + 1], now);
            after.artifacts == updates[k].wire.artifacts && after.messages == updates[k].wire.messages
  {
    MergedContents(MergedAll(task, updates[..k], now), updates[k], now(k));
    assert updates[..k + 1][..k] == updates[..k];
  }

  /** A whole task replaces artifacts and messages; what follows it is folded into its own. */
  lemma ContentsSinceSnapshot(task: Task, updates: seq<Update>, k: nat, now: nat -> string)
    requires k < |updates| && !updates[k].partial
    requires forall i | k < i < |updates| :: updates[i].partial
    ensures Folds(MergedAll(task, updates, now), updates[k].wire.artifacts, updates[k].wire.messages, updates[k + 1..])
  {
    SnapshotContents(task, updates, k, now);
    FoldsBehind(task, updates[..k + 1], updates[k + 1..], now);
    assert updates[..k + 1] + updates[k + 1..] == updates;
  }
}
