/** How often a continuation can be dispatched. */
module Continuations {
  import opened Common
  import opened Records
  import opened Protocol
  import opened Runs
  import opened Admission
  import opened Quarantine

  /** A new continuation is created under this id. */
  ghost predicate Creates(w: World, s: System, l: Label, c: Id) {
    l.ControlStep? && PlanFor(s.db, l.command, l.env).write.WriteContinuation?
    && PlanFor(s.db, l.command, l.env).write.continuationId == c
  }

  /** The step finishes a dispatch that was bound to the continuation, with success. */
  ghost predicate Delivers(s: System, l: Label, c: Id) {
    && l.FinishStep? && l.id in s.inflight && l.id in s.db.executions
    && l.result.ok && s.db.executions[l.id].continuationId == c
  }

  /** Since the continuation was last created, some dispatch bound to it has been delivered. */
  ghost predicate Delivered(w: World, labels: seq<Label>, c: Id) {
    labels != [] &&
    var n := |labels| - 1;
    var s := Run(w, labels[..n]);
    !Creates(w, s, labels[n], c) && (Delivers(s, labels[n], c) || Delivered(w, labels[..n], c))
  }

  ghost predicate RecordAgrees(db: Db, c: Id, delivered: bool) {
    if c in db.continuations then db.continuations[c].state == Answered <==> delivered else !delivered
  }

  lemma StoreOnContinuations(db: Db, write: Write)
    ensures Store(db, write).continuations ==
            match write
            case WriteContinuation(id, c) => db.continuations[id := c]
            case _ => db.continuations
  {
  }

  lemma PlansAwait(db: Db, command: Command, env: Env)
    ensures var write := PlanFor(db, command, env).write;
            write.WriteContinuation? ==> write.continuation.state == Awaiting
  {
  }

  lemma FinishOnContinuations(w: World, db: Db, id: Id, result: Result, env: Env)
    requires id in db.executions
    ensures var db' := Finish(w, db, id, result, env);
            var key := db.executions[id].continuationId;
            if key != "" && result.ok then
              && db'.continuations.Keys == db.continuations.Keys + {key} && db'.continuations[key].state == Answered
              && forall c | c in db.continuations && c != key :: db'.continuations[c] == db.continuations[c]
            else db'.continuations == db.continuations
  {
  }

  lemma FinishAgrees(w: World, s: System, l: Label, c: Id, delivered: bool)
    requires l.FinishStep? && c != "" && RecordAgrees(s.db, c, delivered)
    ensures RecordAgrees(Next(w, s, l).db, c, Delivers(s, l, c) || delivered)
  {
    if l.id in s.inflight && l.id in s.db.executions {
      FinishOnContinuations(w, s.db, l.id, l.result.(executionId := l.id), l.env);
    }
  }

  lemma NextAgrees(w: World, s: System, l: Label, c: Id, delivered: bool)
    requires c != "" && RecordAgrees(s.db, c, delivered)
    ensures RecordAgrees(Next(w, s, l).db, c, !Creates(w, s, l, c) && (Delivers(s, l, c) || delivered))
  {
    match l
    case ControlStep(command, env) =>
      PlansAwait(s.db, command, env);
      StoreOnContinuations(s.db, PlanFor(s.db, command, env).write);
    case BeginStep(req, env) => BeginCases(w, s.enforce, s.db, req, env);
    case FinishStep(_, _, _) => FinishAgrees(w, s, l, c, delivered);
    case AbandonStep(_, _) =>
    case OutsideStep(_, _) =>
    case RestartStep(_, env) => RecoverFrame(w, s.db, env.now);
  }

  lemma {:induction false} RunAgrees(w: World, labels: seq<Label>, c: Id)
    requires c != ""
    ensures RecordAgrees(Run(w, labels).db, c, Delivered(w, labels, c))
  {
    if labels != [] {
      var n := |labels| - 1;
      RunLast(w, labels);
      RunAgrees(w, labels[..n], c);
      NextAgrees(w, Run(w, labels[..n]), labels[n], c, Delivered(w, labels[..n], c));
    }
  }

  /**
   * A request may answer a continuation of its task exactly as long as no dispatch bound to it has been delivered;
   * dispatches that are in flight, failed or lost do not count.
   */
  lemma OpenUntilDelivered(w: World, labels: seq<Label>, req: Request)
    requires req.continuationId != "" && req.continuationId in Run(w, labels).db.continuations
    ensures ContinuationOpen(Run(w, labels).db, req) <==>
              && Run(w, labels).db.continuations[req.continuationId].taskId == req.taskId
              && !Delivered(w, labels, req.continuationId)
  {
    RunAgrees(w, labels, req.continuationId);
  }

  /** So after a delivered answer no further request is dispatched for the continuation. */
  lemma NoDispatchAfterDelivery(w: World, labels: seq<Label>, j: nat)
    requires j < |labels| && Admits(w, labels, j) && labels[j].req.continuationId != ""
    ensures !Delivered(w, labels[..j], labels[j].req.continuationId)
  {
    var s := Run(w, labels[..j]);
    AdmissionExactly(w, s.enforce, s.db, labels[j].req, labels[j].env);
    OpenUntilDelivered(w, labels[..j], labels[j].req);
  }

  /** A new continuation may be answered for its own task, and for no other. */
  lemma CreatedIsOpen(w: World, db: Db, taskId: string, kind: ContinuationKind, env: Env, req: Request)
    requires req.continuationId == env.newId
    ensures var (db', reply) := Control(w, db, CreateContinuation(taskId, kind), env);
            if reply.Failure? then db' == db && (kind.OtherKind? || !Proper(taskId))
            else (ContinuationOpen(db', req) <==> req.taskId == taskId) && reply.ContinuationReply?
                 && reply.continuationId == env.newId && reply.continuation == db'.continuations[env.newId]
  {
  }

  // ---- Before the first delivery the same continuation can be dispatched again

  const Stopped := (k: nat) => 0

  function Answer(id: Id): Request {
    Request(Some(id), Respond, "agent", "task", "", None, "", "c", "", None, "")
  }

  const TwoAnswers: seq<Label> :=
    [ControlStep(CreateContinuation("task", Handoff), Env(Stopped, "c")),
     BeginStep(Answer("a"), Env(Stopped, "")), BeginStep(Answer("b"), Env(Stopped, ""))]

  lemma AfterCreation(w: World)
    ensures Fresh(Run(w, TwoAnswers[..1]))
  {
    RunStep(w, TwoAnswers, 0);
    assert Run(w, TwoAnswers[..0]) == Initial;
    assert Run(w, TwoAnswers[..1]).db == Control(w, EmptyDb, TwoAnswers[0].command, TwoAnswers[0].env).0;
  }

  lemma AnswerAt(w: World, labels: seq<Label>, i: nat, id: Id)
    requires i < |labels| && labels[i] == BeginStep(Answer(id), Env(Stopped, ""))
    requires var s := Run(w, labels[..i]); Admissible(w, s.enforce, s.db, Answer(id), Env(Stopped, ""))
    ensures Admits(w, labels, i)
    ensures var s, s' := Run(w, labels[..i]), Run(w, labels[..i + 1]);
            && s'.db.continuations == s.db.continuations && s'.db.health == s.db.health && s'.enforce == s.enforce
            && s'.db.executions.Keys == s.db.executions.Keys + {id} && id in s'.inflight
            && s'.db.executions[id].continuationId == "c" && s'.db.executions[id].agent == "agent"
  {
    var s := Run(w, labels[..i]);
    RunStep(w, labels, i);
    AdmissionExactly(w, s.enforce, s.db, Answer(id), Env(Stopped, ""));
  }

  /** The state in which a continuation has just been created and nothing else has happened. */
  ghost predicate Fresh(s: System) {
    && s.db.continuations == map["c" := Continuation("task", Handoff, Awaiting, None)]
    && s.db.executions == map[] && s.db.health == map[] && !s.enforce
  }

  lemma FirstAnswerAt(w: World, labels: seq<Label>, i: nat)
    requires i < |labels| && labels[i] == BeginStep(Answer("a"), Env(Stopped, "")) && Fresh(Run(w, labels[..i]))
    ensures Admits(w, labels, i)
    ensures var s, s' := Run(w, labels[..i]), Run(w, labels[..i + 1]);
            && s'.db.continuations == s.db.continuations && s'.db.executions.Keys == {"a"} && "a" in s'.inflight
            && s'.db.executions["a"].continuationId == "c" && s'.db.executions["a"].agent == "agent"
            && s'.db.health == map[] && !s'.enforce
  {
    AnswerIsAdmissible(w, Run(w, labels[..i]).db, "a");
    AnswerAt(w, labels, i, "a");
  }

  lemma AfterFirstAnswer(w: World)
    ensures Admits(w, TwoAnswers, 1)
    ensures var s, s' := Run(w, TwoAnswers[..1]), Run(w, TwoAnswers[..2]);
            && s'.db.continuations == s.db.continuations && s'.db.executions.Keys == {"a"} && "a" in s'.inflight
            && s'.db.executions["a"].continuationId == "c" && s'.db.executions["a"].agent == "agent"
            && s'.db.health == map[] && !s'.enforce
  {
    AfterCreation(w);
    FirstAnswerAt(w, TwoAnswers, 1);
  }

  /** Two request ids bound to one pending continuation are both dispatched when neither has finished yet. */
  lemma OneContinuationTwoDispatches(w: World)
    ensures Admits(w, TwoAnswers, 1) && Admits(w, TwoAnswers, 2)
    ensures TwoAnswers[1].req.continuationId == TwoAnswers[2].req.continuationId == "c"
  {
    AfterCreation(w);
    AfterFirstAnswer(w);
    var s := Run(w, TwoAnswers[..2]);
    assert "b" !in s.db.executions by { assert "b"[0] != "a"[0]; }
    AnswerIsAdmissible(w, s.db, "b");
    AdmissionExactly(w, false, s.db, Answer("b"), Env(Stopped, ""));
  }

  lemma AnswerIsAdmissible(w: World, db: Db, id: Id)
    requires |id| == 1 && id !in db.executions && !HealthOf(db, "agent").quarantined
    requires "c" in db.continuations && db.continuations["c"] == Continuation("task", Handoff, Awaiting, None)
    ensures Admissible(w, false, db, Answer(id), Env(Stopped, ""))
  {
  }

  // ---- One after the other, when the first outcome stays unknown

  const Unreachable := Result(false, LocalNetwork, None, None, "", "")

  const OneByOne: seq<Label> :=
    TwoAnswers[..2] + [FinishStep("a", Unreachable, Env(Stopped, "")), BeginStep(Answer("b"), Env(Stopped, ""))]

  /** An unknown outcome leaves the continuation pending, and one failure does not quarantine the agent. */
  lemma FinishUnknown(w: World, s: System)
    requires "a" in s.inflight && "a" in s.db.executions && s.db.executions["a"].agent == "agent"
    requires s.db.health == map[]
    ensures var s' := Next(w, s, FinishStep("a", Unreachable, Env(Stopped, "")));
            && s'.db.continuations == s.db.continuations && s'.db.executions.Keys == s.db.executions.Keys
            && !HealthOf(s'.db, "agent").quarantined && s'.enforce == s.enforce
  {
    var result := Unreachable.(executionId := "a");
    FinishOnContinuations(w, s.db, "a", result, Env(Stopped, ""));
    FinishOnHealth(w, s.db, "a", result, Env(Stopped, ""));
    FinishFrame(w, s.db, "a", result, Env(Stopped, ""));
  }

  lemma UnknownAt(w: World, labels: seq<Label>, i: nat)
    requires i < |labels| && labels[i] == FinishStep("a", Unreachable, Env(Stopped, ""))
    requires var s := Run(w, labels[..i]);
             && "a" in s.inflight && "a" in s.db.executions && s.db.executions["a"].agent == "agent"
             && s.db.health == map[]
    ensures var s, s' := Run(w, labels[..i]), Run(w, labels[..i + 1]);
            && s'.db.continuations == s.db.continuations && s'.db.executions.Keys == s.db.executions.Keys
            && !HealthOf(s'.db, "agent").quarantined && s'.enforce == s.enforce
  {
    RunStep(w, labels, i);
    FinishUnknown(w, Run(w, labels[..i]));
  }

  lemma SameStart()
    ensures OneByOne[..1] == TwoAnswers[..1] && OneByOne[..2] == TwoAnswers[..2]
    ensures OneByOne[1] == TwoAnswers[1] && OneByOne[2] == FinishStep("a", Unreachable, Env(Stopped, ""))
  {
  }

  lemma AfterUnknown(w: World)
    ensures var s := Run(w, OneByOne[..3]);
            && s.db.continuations == map["c" := Continuation("task", Handoff, Awaiting, None)]
            && s.db.executions.Keys == {"a"} && !HealthOf(s.db, "agent").quarantined && !s.enforce
  {
    AfterCreation(w);
    AfterFirstAnswer(w);
    SameStart();
    UnknownAt(w, OneByOne, 2);
  }

  /** The same continuation is dispatched again after a first answer whose outcome stayed unknown. */
  lemma UnknownOutcomesLeaveItOpen(w: World)
    ensures Admits(w, OneByOne, 1) && Admits(w, OneByOne, 3)
    ensures OneByOne[1].req.continuationId == OneByOne[3].req.continuationId == "c"
  {
    AfterFirstAnswer(w);
    SameStart();
    AfterUnknown(w);
    var s := Run(w, OneByOne[..3]);
    assert "b" !in s.db.executions by { assert "b"[0] != "a"[0]; }
    AnswerIsAdmissible(w, s.db, "b");
    AdmissionExactly(w, false, s.db, Answer("b"), Env(Stopped, ""));
  }
}
