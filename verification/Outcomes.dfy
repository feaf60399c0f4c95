/** One dispatch per request id, and outcomes that never change once they are definite. */
module Outcomes {
  import opened Common
  import opened Records
  import opened Protocol
  import opened Runs

  /** Over any run, no two admissions carry the same request id. */
  lemma AtMostOneDispatch(w: World, labels: seq<Label>, i: nat, j: nat)
    requires i < j < |labels|
    ensures Admits(w, labels, i) && Admits(w, labels, j) ==> labels[i].req.requestId != labels[j].req.requestId
  {
    if Admits(w, labels, i) && Admits(w, labels, j) {
      var s, t := Run(w, labels[..i]), Run(w, labels[..j]);
      BeginCases(w, s.enforce, s.db, labels[i].req, labels[i].env);
      BeginCases(w, t.enforce, t.db, labels[j].req, labels[j].env);
      RunStep(w, labels, i);
      assert labels[i].req.requestId.GetOr("") in Run(w, labels[..i + 1]).db.executions;
      RunEvolves(w, labels, i + 1, j);
    }
  }

  /** A record carries a response exactly when its outcome is definite. */
  ghost predicate OutcomeRecorded(e: Execution, id: Id) {
    match e.result
    case None => e.state == Dispatching || e.state == Uncertain
    case Some(result) => e.state == Outcome(result) && !IsUncertain(result) && result.executionId == id
  }

  ghost predicate OutcomesRecorded(db: Db) {
    forall id | id in db.executions :: OutcomeRecorded(db.executions[id], id)
  }

  lemma BeginKeepsOutcomes(w: World, enforce: bool, db: Db, req: Request, env: Env)
    requires OutcomesRecorded(db)
    ensures OutcomesRecorded(Begin(w, enforce, db, req, env).0)
  {
    BeginCases(w, enforce, db, req, env);
  }

  lemma NextKeepsOutcomes(w: World, s: System, l: Label)
    requires OutcomesRecorded(s.db) && InflightOpen(s)
    ensures OutcomesRecorded(Next(w, s, l).db)
  {
    match l
    case ControlStep(command, env) => PerformKeepsExecutions(w, s.db, PlanFor(s.db, command, env));
    case BeginStep(req, env) => BeginKeepsOutcomes(w, s.enforce, s.db, req, env);
    case FinishStep(id, result, env) =>
      if id in s.inflight {
        FinishKeepsOutcomes(w, s.db, id, result.(executionId := id), env);
      }
    case AbandonStep(_, _) =>
    case OutsideStep(_, _) =>
    case RestartStep(_, env) => RecoverFrame(w, s.db, env.now);
  }

  lemma FinishKeepsOutcomes(w: World, db: Db, id: Id, result: Result, env: Env)
    requires OutcomesRecorded(db) && id in db.executions && db.executions[id].state == Dispatching
    requires result.executionId == id
    ensures OutcomesRecorded(Finish(w, db, id, result, env))
  {
    FinishFrame(w, db, id, result, env);
    assert OutcomeRecorded(db.executions[id], id);
  }

  lemma {:induction false} RunOutcomes(w: World, labels: seq<Label>)
    ensures OutcomesRecorded(Run(w, labels).db)
  {
    if labels != [] {
      var n := |labels| - 1;
      RunLast(w, labels);
      RunOutcomes(w, labels[..n]);
      RunBasics(w, labels[..n]);
      NextKeepsOutcomes(w, Run(w, labels[..n]), labels[n]);
    }
  }

  /**
   * After a definite outcome every later repeat, restarts included, gets the response of the first dispatch
   * if its hash is the same and a conflict if it is not; the database stays as it is.
   */
  lemma RepeatsGetTheFirstResponse(w: World, labels: seq<Label>, i: nat, j: nat, req: Request, env: Env, enforce: bool)
    requires i < j <= |labels| && labels[i].FinishStep?
    requires labels[i].id in Run(w, labels[..i]).inflight && !IsUncertain(labels[i].result)
    requires req.requestId == Some(labels[i].id) && Proper(labels[i].id)
    ensures var id := labels[i].id;
            var db := Run(w, labels[..j]).db;
            && id in db.executions
            && Begin(w, enforce, db, req, env) == (db, Some(
                 if db.executions[id].requestHash == RequestHash(w, req)
                 then Answer(labels[i].result.(executionId := id)) else Failure(IdempotencyConflict)))
  {
    RunBasics(w, labels[..i]);
    RunStep(w, labels, i);
    var s := Run(w, labels[..i]);
    var id, result := labels[i].id, labels[i].result.(executionId := labels[i].id);
    FinishFrame(w, s.db, id, result, labels[i].env);
    var e := Run(w, labels[..i + 1]).db.executions[id];
    assert e.result == Some(result) && e.state != Dispatching;
    RunEvolves(w, labels, i + 1, j);
    assert Run(w, labels[..j]).db.executions[id] == e;
  }

  /** While the outcome is open or unknown a repeat is turned away and never dispatched. */
  lemma RepeatsOfOpenOutcomes(w: World, labels: seq<Label>, req: Request, env: Env, enforce: bool)
    requires req.requestId.Some? && Proper(req.requestId.value)
    requires req.requestId.value in Run(w, labels).db.executions
    ensures var db := Run(w, labels).db;
            var e := db.executions[req.requestId.value];
            e.state == Dispatching || e.state == Uncertain ==>
              Begin(w, enforce, db, req, env) == (db, Some(
                if e.requestHash == RequestHash(w, req) then OutcomeUncertain(req.requestId.value)
                else Failure(IdempotencyConflict)))
  {
    RunOutcomes(w, labels);
    assert OutcomeRecorded(Run(w, labels).db.executions[req.requestId.value], req.requestId.value);
  }

  /** A crash leaves nothing in flight: after any restart every execution has left DISPATCHING. */
  lemma RestartLeavesNothingOpen(w: World, labels: seq<Label>, i: nat)
    requires i < |labels| && labels[i].RestartStep?
    ensures var s := Run(w, labels[..i + 1]);
            s.inflight == {} && forall id | id in s.db.executions :: s.db.executions[id].state != Dispatching
  {
    RunStep(w, labels, i);
    RecoverFrame(w, Run(w, labels[..i]).db, labels[i].env.now);
  }

  // ---- Retry links

  /** The number of steps after which an execution was first on record. */
  ghost function Born(w: World, labels: seq<Label>, id: Id): nat {
    if labels != [] && id in Run(w, labels[..|labels| - 1]).db.executions
    then Born(w, labels[..|labels| - 1], id) else |labels|
  }

  ghost predicate RetryLinkOk(w: World, labels: seq<Label>, id: Id, e: Execution) {
    e.retryOf != "" ==>
      && e.retryOf in Run(w, labels).db.executions && Run(w, labels).db.executions[e.retryOf].state == Failed
      && Born(w, labels, e.retryOf) < Born(w, labels, id)
  }

  /** A new execution is younger than what it retries, which had failed when it was admitted. */
  lemma NewRetryLink(w: World, labels: seq<Label>, id: Id)
    requires labels != [] && id in Run(w, labels).db.executions
    requires id !in Run(w, labels[..|labels| - 1]).db.executions
    ensures RetryLinkOk(w, labels, id, Run(w, labels).db.executions[id])
  {
    var n := |labels| - 1;
    var s := Run(w, labels[..n]);
    RunLast(w, labels);
    NewExecutionsComeFromBegin(w, s, labels[n], id);
    BeginCases(w, s.enforce, s.db, labels[n].req, labels[n].env);
    BornBound(w, labels[..n], Run(w, labels).db.executions[id].retryOf);
  }

  lemma OldRetryLink(w: World, labels: seq<Label>, id: Id)
    requires labels != [] && id in Run(w, labels).db.executions
    requires var before := Run(w, labels[..|labels| - 1]).db.executions;
             id in before && RetryLinkOk(w, labels[..|labels| - 1], id, before[id])
    ensures RetryLinkOk(w, labels, id, Run(w, labels).db.executions[id])
  {
    var n := |labels| - 1;
    StepEvolves(w, labels, n);
    assert labels[..n + 1] == labels;
  }

  /** A retry points at an older execution that has failed and stays failed. */
  lemma {:induction false} RetriesPointAtOlderFailures(w: World, labels: seq<Label>, id: Id)
    requires id in Run(w, labels).db.executions
    ensures RetryLinkOk(w, labels, id, Run(w, labels).db.executions[id])
  {
    if labels != [] {
      if id in Run(w, labels[..|labels| - 1]).db.executions {
        RetriesPointAtOlderFailures(w, labels[..|labels| - 1], id);
        OldRetryLink(w, labels, id);
      } else {
        NewRetryLink(w, labels, id);
      }
    }
  }

  lemma {:induction false} BornBound(w: World, labels: seq<Label>, id: Id)
    ensures Born(w, labels, id) <= |labels|
  {
    if labels != [] {
      BornBound(w, labels[..|labels| - 1], id);
    }
  }

  /** Following `retry_of` ends: the links visited, each older than the one before and all but the first failed. */
  ghost function RetryPath(w: World, labels: seq<Label>, id: Id): (path: seq<Id>)
    requires id in Run(w, labels).db.executions
    ensures path != [] && path[0] == id
    ensures forall k | 0 <= k < |path| :: path[k] in Run(w, labels).db.executions
    ensures forall k | 1 <= k < |path| :: Run(w, labels).db.executions[path[k]].state == Failed
    ensures forall k, m | 0 <= k < m < |path| :: Born(w, labels, path[m]) < Born(w, labels, path[k])
    ensures Run(w, labels).db.executions[path[|path| - 1]].retryOf == ""
    decreases Born(w, labels, id)
  {
    RetriesPointAtOlderFailures(w, labels, id);
    var next := Run(w, labels).db.executions[id].retryOf;
    if next == "" then [id] else [id] + RetryPath(w, labels, next)
  }
}
