/** From the chunks of a subscription to the stored task: decoder, updates and fold together. */
module Subscription {
  import opened Common
  import opened EventStream
  import opened EventStops
  import opened Tasks
  import opened TaskTrail
  import opened TaskRuns
  import opened EventFold

  /** The updates in a list of event texts; `parse` reads one, and a malformed text is some other event. */
  function UpdatesOf(texts: seq<string>, parse: string -> StreamEvent): seq<Update> {
    if texts == [] then []
    else UpdatesOf(texts[..|texts| - 1], parse) + OneUpdate(parse(texts[|texts| - 1]))
  }

  function OneUpdate(event: StreamEvent): seq<Update> {
    match UpdateOf(event)
    case None => []
    case Some(update) => [update]
  }

  /** The operations on one task, in order. */
  function OnTask(ops: seq<Op>, id: string): seq<Op> {
    if ops == [] then []
    else
      var last := ops[|ops| - 1];
      OnTask(ops[..|ops| - 1], id) + if last.id == id then [last] else []
  }

  /** All that happens to the task is that the callback has these texts, at any times. */
  ghost predicate Receives(ops: seq<Op>, id: string, texts: seq<string>, parse: string -> StreamEvent) {
    var own := OnTask(ops, id);
    |own| == |texts| && forall i | 0 <= i < |own| :: own[i].Streamed? && own[i].event == parse(texts[i])
  }

  /** Equal but for the time of writing and the remote id, which is dropped from a row when it is empty. */
  ghost predicate SameContents(a: Task, b: Task) {
    a == b.(remoteId := a.remoteId, updatedAt := a.updatedAt)
  }

  lemma MergeSame(a: Task, b: Task, update: Update, now: string, time: string)
    requires SameContents(a, b)
    ensures SameContents(Saved(Merged(a, update, now)), Merged(b, update, time))
  {
  }

  lemma MergedAllNext(task: Task, updates: seq<Update>, event: StreamEvent, now: nat -> string)
    ensures MergedAll(task, updates + OneUpdate(event), now)
         == match UpdateOf(event)
            case None => MergedAll(task, updates, now)
            case Some(update) => Merged(MergedAll(task, updates, now), update, now(|updates|))
  {
    match UpdateOf(event)
    case None => assert updates + [] == updates;
    case Some(update) => assert (updates + [update])[..|updates|] == updates;
  }

  lemma StreamedOnce(agents: set<string>, m: Manager, id: string, event: StreamEvent, now: string,
                     task: Task, time: string)
    requires id in m.tasks && SameContents(m.tasks[id], task)
    ensures var m' := Apply(agents, m, Streamed(id, event, now));
            id in m'.tasks && SameContents(m'.tasks[id], match UpdateOf(event)
                                                         case None => task
                                                         case Some(update) => Merged(task, update, time))
  {
    if UpdateOf(event).Some? {
      MergeSame(m.tasks[id], task, UpdateOf(event).value, now, time);
    }
  }

  ghost predicate HoldsFold(m: Manager, id: string, task: Task, updates: seq<Update>, clock: nat -> string) {
    id in m.tasks && SameContents(m.tasks[id], MergedAll(task, updates, clock))
  }

  lemma FoldGrows(agents: set<string>, m: Manager, id: string, event: StreamEvent, now: string,
                  task: Task, updates: seq<Update>, clock: nat -> string)
    requires HoldsFold(m, id, task, updates, clock)
    ensures HoldsFold(Apply(agents, m, Streamed(id, event, now)), id, task, updates + OneUpdate(event), clock)
  {
    StreamedOnce(agents, m, id, event, now, MergedAll(task, updates, clock), clock(|updates|));
    MergedAllNext(task, updates, event, clock);
  }

  lemma OthersKeepTask(agents: set<string>, m: Manager, op: Op, id: string)
    requires op.id != id && id in m.tasks
    ensures id in Apply(agents, m, op).tasks && Apply(agents, m, op).tasks[id] == m.tasks[id]
  {
    if op.Create? {
      CreateEffect(agents, m, op);
    } else {
      OneTaskWritten(agents, m, op);
    }
  }

  lemma ReceivesLast(ops: seq<Op>, id: string, texts: seq<string>, parse: string -> StreamEvent)
    requires ops != [] && Receives(ops, id, texts, parse)
    ensures var rest, last := ops[..|ops| - 1], ops[|ops| - 1];
            if last.id != id then Receives(rest, id, texts, parse)
            else
              && texts != [] && Receives(rest, id, texts[..|texts| - 1], parse)
              && last.Streamed? && last.event == parse(texts[|texts| - 1])
  {
    var rest, last := ops[..|ops| - 1], ops[|ops| - 1];
    var own, before := OnTask(ops, id), OnTask(rest, id);
    if last.id == id {
      assert own == before + [last];
      assert forall i | 0 <= i < |before| :: before[i] == own[i];
      assert own[|own| - 1] == last;
    } else {
      assert own == before;
    }
  }

  /** After the callback has had these texts, and whatever else other tasks had, the task is their fold. */
  lemma {:induction false} StoredTaskIsTheFold(agents: set<string>, ops: seq<Op>, later: seq<Op>, id: string,
                                               texts: seq<string>, parse: string -> StreamEvent, clock: nat -> string)
    requires id in RunOps(agents, ops).tasks && Receives(later, id, texts, parse)
    ensures HoldsFold(RunOps(agents, ops + later), id, RunOps(agents, ops).tasks[id], UpdatesOf(texts, parse), clock)
    decreases |later|
  {
    if later == [] {
      assert ops + [] == ops && texts == [];
    } else {
      var rest, last := later[..|later| - 1], later[|later| - 1];
      ReceivesLast(later, id, texts, parse);
      RunNext(agents, ops + rest, last);
      assert ops + later == ops + rest + [last];
      var m, task := RunOps(agents, ops + rest), RunOps(agents, ops).tasks[id];
      if last.id != id {
        StoredTaskIsTheFold(agents, ops, rest, id, texts, parse, clock);
        OthersKeepTask(agents, m, last, id);
      } else {
        var before := texts[..|texts| - 1];
        StoredTaskIsTheFold(agents, ops, rest, id, before, parse, clock);
        FoldGrows(agents, m, id, last.event, last.now, task, UpdatesOf(before, parse), clock);
      }
    }
  }

  // ---- From events to the stored task

  function EventsOf(texts: seq<string>, parse: string -> StreamEvent): seq<StreamEvent> {
    seq(|texts|, i requires 0 <= i < |texts| => parse(texts[i]))
  }

  lemma {:induction false} MergedAllFollows(task: Task, texts: seq<string>, parse: string -> StreamEvent,
                                            clock: nat -> string) returns (contents: seq<Content>)
    ensures var merged := MergedAll(task, UpdatesOf(texts, parse), clock);
            && Follows(contents, EventsOf(texts, parse)) && contents[0] == ContentOf(task)
            && contents[|texts|] == ContentOf(merged) && SameIdentity(merged, task)
  {
    if texts == [] {
      contents := [ContentOf(task)];
    } else {
      var n := |texts| - 1;
      var front := MergedAllFollows(task, texts[..n], parse, clock);
      var updates, event := UpdatesOf(texts[..n], parse), parse(texts[n]);
      var before, after := MergedAll(task, updates, clock), MergedAll(task, updates + OneUpdate(event), clock);
      MergedAllNext(task, updates, event, clock);
      UpdatesMean(before, event, clock(|updates|));
      FollowsOn(front, EventsOf(texts[..n], parse), ContentOf(after), event);
      assert EventsOf(texts, parse) == EventsOf(texts[..n], parse) + [event];
      contents := front + [ContentOf(after)];
    }
  }

  /** The stored task keeps what is its own, and its content came about by these events, one after the other. */
  ghost predicate CameAbout(m: Manager, id: string, task: Task, events: seq<StreamEvent>) {
    && id in m.tasks && SameIdentity(m.tasks[id], task)
    && exists contents ::
         Follows(contents, events) && contents[0] == ContentOf(task) && contents[|events|] == ContentOf(m.tasks[id])
  }

  /** After the callback has had these texts, and whatever else other tasks had, each event did what it means. */
  lemma StoredTaskFollowsEvents(agents: set<string>, ops: seq<Op>, later: seq<Op>, id: string,
                                texts: seq<string>, parse: string -> StreamEvent)
    requires id in RunOps(agents, ops).tasks && Receives(later, id, texts, parse)
    ensures CameAbout(RunOps(agents, ops + later), id, RunOps(agents, ops).tasks[id], EventsOf(texts, parse))
  {
    var clock := (k: nat) => "";
    StoredTaskIsTheFold(agents, ops, later, id, texts, parse, clock);
    var contents := MergedAllFollows(RunOps(agents, ops).tasks[id], texts, parse, clock);
  }

  /**
   * Whatever the chunks, the content of the stored task comes about by all events of the stream, provided that none
   * but the last asks to stop, as a terminal state does.
   */
  lemma ChunksReachTheTask(agents: set<string>, ops: seq<Op>, later: seq<Op>, id: string, chunks: seq<string>,
                           wants: string -> bool, parse: string -> StreamEvent)
    requires id in RunOps(agents, ops).tasks
    requires var r := Receiver(EventTexts, wants);
             && StopsOnlyAtEnd(wants, Decode(r, Concat(chunks)))
             && Receives(later, id, FedAll(r, Start, chunks).delivered, parse)
    ensures CameAbout(RunOps(agents, ops + later), id, RunOps(agents, ops).tasks[id],
                      EventsOf(Decode(Receiver(EventTexts, wants), Concat(chunks)), parse))
  {
    var r := Receiver(EventTexts, wants);
    LateStopDeliversAll(r, chunks);
    StoredTaskFollowsEvents(agents, ops, later, id, Decode(r, Concat(chunks)), parse);
  }

  /**
   * When no event is a snapshot, the artifacts are the stored ones with the stream's placed in order, each by the
   * flag of its own event; the messages of the stream are added; and the state is the last one told.
   */
  lemma ChunksFoldArtifacts(agents: set<string>, ops: seq<Op>, later: seq<Op>, id: string, chunks: seq<string>,
                            wants: string -> bool, parse: string -> StreamEvent)
    requires id in RunOps(agents, ops).tasks
    requires var r := Receiver(EventTexts, wants);
             && StopsOnlyAtEnd(wants, Decode(r, Concat(chunks)))
             && Receives(later, id, FedAll(r, Start, chunks).delivered, parse)
    requires forall text | text in Decode(Receiver(EventTexts, wants), Concat(chunks)) :: !parse(text).TaskSnapshot?
    ensures var before, after := RunOps(agents, ops).tasks[id], RunOps(agents, ops + later);
            && id in after.tasks
            && Folded(ContentOf(before), ContentOf(after.tasks[id]),
                      EventsOf(Decode(Receiver(EventTexts, wants), Concat(chunks)), parse))
  {
    var texts := Decode(Receiver(EventTexts, wants), Concat(chunks));
    var task, after := RunOps(agents, ops).tasks[id], RunOps(agents, ops + later);
    ChunksReachTheTask(agents, ops, later, id, chunks, wants, parse);
    var contents :| Follows(contents, EventsOf(texts, parse)) && contents[0] == ContentOf(task)
                    && contents[|texts|] == ContentOf(after.tasks[id]);
    assert forall i | 0 <= i < |texts| :: texts[i] in texts;
    EventsFold(contents, EventsOf(texts, parse));
  }

  // ---- Answers and events together

  /** What an operation contributes to artifacts and messages, as an update: an answered task is a whole one. */
  function Contribution(agents: set<string>, task: Task, op: Op): seq<Update> {
    if !Reaches(agents, task, op) then []
    else
      match op
      case Create(_, _, _, _, _) => []
      case Respond(_, answer, _) => if answer.task.None? then DirectReply(answer) else AnsweredTask(answer)
      case Cancel(_, answer, _) => AnsweredTask(answer)
      case Refresh(_, answer, _) => AnsweredTask(answer)
      case Reconcile(_, answer, _) => AnsweredTask(answer)
      case Streamed(_, event, _) => OneUpdate(event)
  }

  function AnsweredTask(answer: Answer): seq<Update> {
    if answer.ok && answer.task.Some? then [Update(answer.task.value, false, true, false)] else []
  }

  function DirectReply(answer: Answer): seq<Update> {
    if answer.ok && answer.message.Some? then
      [Update(Wire("", "", Completed, "", "", [answer.message.value], [], map[]), true, true, false)]
    else []
  }

  /** The contributions of the operations from `k` on. */
  function Contributions(agents: set<string>, ops: seq<Op>, k: nat, id: string): seq<Update>
    requires k <= |ops|
    decreases |ops|
  {
    if k == |ops| then []
    else
      var n := |ops| - 1;
      var tasks := RunOps(agents, ops[..n]).tasks;
      Contributions(agents, ops[..n], k, id)
      + if ops[n].id == id && id in tasks then Contribution(agents, tasks[id], ops[n]) else []
  }

  ghost predicate SameFiles(a: Task, b: Task) {
    a.artifacts == b.artifacts && a.messages == b.messages
  }

  /** One update, or none, gives the task that an operation writes its artifacts and messages. */
  lemma Contributes(agents: set<string>, m: Manager, op: Op, task: Task, time: string)
    requires !op.Create? && op.id in m.tasks && SameFiles(m.tasks[op.id], task)
    ensures var updates := Contribution(agents, m.tasks[op.id], op);
            && |updates| <= 1 && op.id in Apply(agents, m, op).tasks
            && SameFiles(Apply(agents, m, op).tasks[op.id],
                         if updates == [] then task else Merged(task, updates[0], time))
  {
    match op
    case Respond(_, answer, _) =>
      assert PlaceAll(task.artifacts, Chunks([], false)) == task.artifacts;
    case Cancel(_, _, _) =>
    case Refresh(_, _, _) =>
    case Reconcile(_, _, _) =>
    case Streamed(_, event, _) =>
  }

  lemma MergedAllMore(task: Task, updates: seq<Update>, more: seq<Update>, clock: nat -> string)
    requires |more| <= 1
    ensures MergedAll(task, updates + more, clock)
         == if more == [] then MergedAll(task, updates, clock)
            else Merged(MergedAll(task, updates, clock), more[0], clock(|updates|))
  {
    if more == [] {
      assert updates + more == updates;
    } else {
      assert (updates + more)[..|updates|] == updates;
    }
  }

  ghost predicate FilesFold(m: Manager, id: string, task: Task, updates: seq<Update>, clock: nat -> string) {
    id in m.tasks && SameFiles(m.tasks[id], MergedAll(task, updates, clock))
  }

  lemma FilesGrow(agents: set<string>, m: Manager, op: Op, task: Task, updates: seq<Update>, clock: nat -> string)
    requires !op.Create? && FilesFold(m, op.id, task, updates, clock)
    ensures FilesFold(Apply(agents, m, op), op.id, task, updates + Contribution(agents, m.tasks[op.id], op), clock)
  {
    var more := Contribution(agents, m.tasks[op.id], op);
    Contributes(agents, m, op, MergedAll(task, updates, clock), clock(|updates|));
    MergedAllMore(task, updates, more, clock);
  }

  /** Any operations on any tasks: artifacts and messages are the fold of answers and events in the order they came. */
  lemma {:induction false} AnswersAndEventsFold(agents: set<string>, ops: seq<Op>, k: nat, id: string,
                                                clock: nat -> string)
    requires k <= |ops| && FreshIds(agents, ops) && id in RunOps(agents, ops[..k]).tasks
    ensures FilesFold(RunOps(agents, ops), id, RunOps(agents, ops[..k]).tasks[id],
                      Contributions(agents, ops, k, id), clock)
    decreases |ops|
  {
    if k == |ops| {
      assert ops[..k] == ops;
    } else {
      var rest, last := ops[..|ops| - 1], ops[|ops| - 1];
      assert rest[..k] == ops[..k] && rest + [last] == ops;
      FreshPrefix(agents, ops, |rest|);
      AnswersAndEventsFold(agents, rest, k, id, clock);
      RunNext(agents, rest, last);
      var m := RunOps(agents, rest);
      if last.id == id {
        FilesGrow(agents, m, last, RunOps(agents, ops[..k]).tasks[id], Contributions(agents, rest, k, id), clock);
      } else {
        OthersKeepTask(agents, m, last, id);
        assert Contributions(agents, ops, k, id) == Contributions(agents, rest, k, id);
      }
    }
  }
}
