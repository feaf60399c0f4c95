/** Which answers leave the outcome unknown, and what an unknown outcome means for the rest of a run. */
module UnknownOutcomes {
  import opened Common
  import opened Records
  import opened Protocol
  import opened Runs
  import opened Admission
  import opened Quarantine

  // ---- One answer

  /** The agent may have acted: it was not reached, its answer was not understood, or the dispatch broke off. */
  predicate MayHaveActed(kind: ErrorKind) {
    match kind
    case NoError => false
    case LocalNetwork => true
    case MalformedResponse => true
    case DispatchException => true
    case OtherError(_) => false
  }

  /** The record after an answer: without a response if the agent may have acted, else with this one and its verdict. */
  ghost predicate Concluded(before: Execution, after: Execution, result: Result, now: int) {
    && after == before.(state := after.state, result := after.result, finishedAt := Some(now),
                        taskId := after.taskId, contextId := after.contextId)
    && (if MayHaveActed(result.kind) then after.state == Uncertain && after.result == before.result
        else after.result == Some(result) && (if result.ok then after.state == Delivered else after.state == Failed))
    && after.taskId == (if result.taskId.Some? then result.taskId.value else before.taskId)
    && after.contextId == (if result.contextId.Some? then result.contextId else before.contextId)
  }

  lemma FinishConcludes(w: World, db: Db, id: Id, result: Result, env: Env)
    requires id in db.executions
    ensures var db' := Finish(w, db, id, result, env);
            && db'.executions.Keys == db.executions.Keys
            && Concluded(db.executions[id], db'.executions[id], result, env.now(0))
            && forall other | other in db.executions && other != id ::
                 db'.executions[other] == db.executions[other]
  {
    FinishFrame(w, db, id, result, env);
  }

  /** A dispatch that raises may have acted; one that returns is answered with what it returned, under its id. */
  lemma SettleConcludes(w: World, db: Db, id: Id, dispatched: Dispatched, env: Env)
    requires id in db.executions
    ensures var (db', reply) := Settle(w, db, id, dispatched, env);
            && id in db'.executions && reply.Answer? && reply.result.executionId == id
            && Concluded(db.executions[id], db'.executions[id], reply.result, env.now(0))
            && match dispatched
               case Returned(result) => reply.result == result.(executionId := id)
               case Raised =>
                 && !reply.result.ok && db'.executions[id].state == Uncertain
                 && db'.executions[id].result == db.executions[id].result
  {
    FinishConcludes(w, db, id, DispatchResult(dispatched, id), env);
  }

  // ---- The rest of the run

  /** Step `i` is the return of a dispatch in flight. */
  ghost predicate Returns(w: World, labels: seq<Label>, i: nat, kind: ErrorKind) {
    i < |labels| && labels[i].FinishStep? && labels[i].id in Run(w, labels[..i]).inflight
    && labels[i].result.kind == kind
  }

  lemma AfterReturn(w: World, labels: seq<Label>, i: nat, kind: ErrorKind)
    requires Returns(w, labels, i, kind)
    ensures var id := labels[i].id;
            var before, after := Run(w, labels[..i]).db.executions, Run(w, labels[..i + 1]).db.executions;
            && id in before && id in after && before[id].state == Dispatching
            && Concluded(before[id], after[id], labels[i].result.(executionId := id), labels[i].env.now(0))
  {
    var s := Run(w, labels[..i]);
    RunBasics(w, labels[..i]);
    RunStep(w, labels, i);
    FinishConcludes(w, s.db, labels[i].id, labels[i].result.(executionId := labels[i].id), labels[i].env);
  }

  lemma ClosedStays(a: Db, b: Db, id: Id)
    requires Evolves(a, b) && id in a.executions && a.executions[id].state != Dispatching
    ensures id in b.executions && b.executions[id] == a.executions[id]
  {
    assert ExecutionLater(a.executions[id], b.executions[id]);
  }

  function StateFor(kind: ErrorKind, ok: bool): ExecutionState {
    if MayHaveActed(kind) then Uncertain else if ok then Delivered else Failed
  }

  /** What an answer concludes stays for good, restarts included. */
  lemma ConclusionsStay(w: World, labels: seq<Label>, i: nat, j: nat, kind: ErrorKind)
    requires Returns(w, labels, i, kind) && i < j <= |labels|
    ensures var executions := Run(w, labels[..j]).db.executions;
            labels[i].id in executions && executions[labels[i].id].state == StateFor(kind, labels[i].result.ok)
  {
    AfterReturn(w, labels, i, kind);
    RunEvolves(w, labels, i + 1, j);
    ClosedStays(Run(w, labels[..i + 1]).db, Run(w, labels[..j]).db, labels[i].id);
  }

  /** So a request is retried only when its agent certainly answered that it failed. */
  lemma OnlyAnsweredFailuresAreRetried(w: World, labels: seq<Label>, i: nat, j: nat, kind: ErrorKind)
    requires Returns(w, labels, i, kind) && i < j < |labels| && labels[i].id != ""
    requires Admits(w, labels, j) && labels[j].req.retryOf == labels[i].id
    ensures !MayHaveActed(kind) && !labels[i].result.ok
  {
    ConclusionsStay(w, labels, i, j, kind);
    var s := Run(w, labels[..j]);
    AdmissionExactly(w, s.enforce, s.db, labels[j].req, labels[j].env);
  }

  /** A request id that may have acted is not dispatched, or retried, once more in the whole run. */
  lemma UnknownIsNeverRepeated(w: World, labels: seq<Label>, i: nat, j: nat, kind: ErrorKind)
    requires Returns(w, labels, i, kind) && i < j < |labels| && labels[i].id != "" && MayHaveActed(kind)
    ensures Admits(w, labels, j) ==>
              labels[j].req.retryOf != labels[i].id && labels[j].req.requestId != Some(labels[i].id)
  {
    if Admits(w, labels, j) {
      ConclusionsStay(w, labels, i, j, kind);
      var s := Run(w, labels[..j]);
      AdmissionExactly(w, s.enforce, s.db, labels[j].req, labels[j].env);
    }
  }

  lemma HealthByKind(w: World, db: Db, id: Id, result: Result, env: Env)
    requires id in db.executions
    ensures var agent := db.executions[id].agent;
            var before, after := HealthOf(db, agent).failures, HealthOf(Finish(w, db, id, result, env), agent).failures;
            agent != "" ==>
              after == if MayHaveActed(result.kind) then before + 1 else if result.ok then 0 else before
  {
    FinishOnHealth(w, db, id, result, env);
  }

  /** The agent's streak of unknown outcomes grows, ends, or stays, by the kind of the answer. */
  lemma StreakCountsByKind(w: World, labels: seq<Label>, i: nat, kind: ErrorKind)
    requires Returns(w, labels, i, kind)
    ensures var db, db' := Run(w, labels[..i]).db, Run(w, labels[..i + 1]).db;
            && labels[i].id in db.executions
            && var agent := db.executions[labels[i].id].agent;
               agent != "" ==>
                 Streak(db'.log, agent) == if MayHaveActed(kind) then Streak(db.log, agent) + 1
                                           else if labels[i].result.ok then 0 else Streak(db.log, agent)
  {
    var s := Run(w, labels[..i]);
    RunBasics(w, labels[..i]);
    RunStep(w, labels, i);
    HealthByKind(w, s.db, labels[i].id, labels[i].result.(executionId := labels[i].id), labels[i].env);
    var agent := s.db.executions[labels[i].id].agent;
    if agent != "" {
      FailuresCountStreak(w, labels[..i], agent);
      FailuresCountStreak(w, labels[..i + 1], agent);
    }
  }
}
