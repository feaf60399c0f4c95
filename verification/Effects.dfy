/** Which effects a request asks for: those it names and the one that its operation implies, recorded for ever. */
module Effects {
  import opened Common
  import opened Records
  import opened Protocol
  import opened Runs
  import opened Admission
  import opened Delegation

  /** Work on an agent executes remotely, a change of what it holds writes remotely, a download stores. */
  predicate Implies(op: Operation, f: Effect) {
    || (f == ExecuteRemote && (op == Submit || op == Respond || op == StreamSubmit))
    || (f == WriteRemote && (op == Cancel || op == PushCreate || op == PushDelete))
    || (f == StoreExternal && op == Materialize)
  }

  predicate AsksFor(req: Request, f: Effect) {
    Known(f) in req.effects.GetOr([]) || Implies(req.op, f)
  }

  ghost predicate AskedEffects(effects: set<Effect>, req: Request) {
    forall f: Effect :: f in effects <==> AsksFor(req, f)
  }

  lemma RequestedExactly(req: Request)
    ensures AskedEffects(RequestedEffects(req), req)
  {
    forall f: Effect ensures f in RequestedEffects(req) <==> AsksFor(req, f) {
      assert Known(f) in req.effects.GetOr([]) ==> Known(f).effect in RequestedEffects(req);
    }
  }

  // ---- What is recorded for a request

  /** The execution is the record of the request, whatever became of it since. */
  ghost predicate Executes(w: World, e: Execution, req: Request) {
    && e.requestHash == RequestHash(w, req) && AskedEffects(e.effects, req)
    && e.op == req.op && e.agent == req.agent && e.sessionId == req.sessionId && e.parentId == req.parentId
    && e.continuationId == req.continuationId && e.retryOf == req.retryOf
  }

  /** The approval shows the owner the request, whatever was decided since. */
  ghost predicate Shows(w: World, a: Approval, req: Request) {
    && a.requestHash == RequestHash(w, req) && AskedEffects(a.effects, req)
    && a.op == req.op && a.agent == req.agent && a.taskId == req.taskId
  }

  /** An admitted request is recorded as it is, open and without an outcome. */
  lemma AdmittedAsAsked(w: World, enforce: bool, db: Db, req: Request, env: Env)
    ensures var (db', reply) := Begin(w, enforce, db, req, env);
            var id := req.requestId.GetOr("");
            reply.None? ==>
              && id in db'.executions && Executes(w, db'.executions[id], req)
              && db'.executions[id].taskId == req.taskId && db'.executions[id].state == Dispatching
              && db'.executions[id].result == None && db'.executions[id].finishedAt == None
  {
    RequestedExactly(req);
    AdmissionExactly(w, enforce, db, req, env);
  }

  /** An approval that a request leaves behind is pending and shows that request. */
  lemma ApprovalAsAsked(w: World, enforce: bool, db: Db, req: Request, env: Env, id: Id)
    requires id !in db.approvals
    ensures var (db', reply) := Begin(w, enforce, db, req, env);
            id in db'.approvals ==>
              && req.requestId == Some(id) && Shows(w, db'.approvals[id], req)
              && db'.approvals[id].state == Pending && db'.approvals[id].expiresAt == None
              && reply == Some(ApprovalNeeded(false, db'.approvals[id]))
  {
    RequestedExactly(req);
    ScreenExactly(w, db, req, env.now);
    BeginCases(w, enforce, db, req, env);
  }

  // ---- Over runs

  ghost predicate Admitted(w: World, labels: seq<Label>, i: nat, id: Id, e: Execution) {
    i < |labels| && Admits(w, labels, i) && labels[i].req.requestId == Some(id) && Executes(w, e, labels[i].req)
  }

  lemma AdmitsEarlier(w: World, labels: seq<Label>, n: nat, i: nat)
    requires i < n <= |labels|
    ensures Admits(w, labels[..n], i) == Admits(w, labels, i)
  {
    assert labels[..n][..i] == labels[..i];
  }

  lemma NewExecutionAdmitted(w: World, labels: seq<Label>, n: nat, id: Id)
    requires n < |labels| && id !in Run(w, labels[..n]).db.executions
    requires id in Run(w, labels[..n + 1]).db.executions
    ensures Admitted(w, labels, n, id, Run(w, labels[..n + 1]).db.executions[id])
  {
    var s := Run(w, labels[..n]);
    RunStep(w, labels, n);
    NewExecutionsComeFromBegin(w, s, labels[n], id);
    AdmittedAsAsked(w, s.enforce, s.db, labels[n].req, labels[n].env);
    BeginCases(w, s.enforce, s.db, labels[n].req, labels[n].env);
  }

  /** Every stored execution is the record of a request that was admitted under its id. */
  lemma {:induction false} ExecutionsWereAdmitted(w: World, labels: seq<Label>, id: Id)
    requires id in Run(w, labels).db.executions
    ensures exists i :: Admitted(w, labels, i, id, Run(w, labels).db.executions[id])
  {
    if labels != [] {
      var n := |labels| - 1;
      assert labels[..n + 1] == labels;
      if id in Run(w, labels[..n]).db.executions {
        ExecutionsWereAdmitted(w, labels[..n], id);
        StepEvolves(w, labels, n);
        var i: nat :| Admitted(w, labels[..n], i, id, Run(w, labels[..n]).db.executions[id]);
        AdmitsEarlier(w, labels, n, i);
        assert Admitted(w, labels, i, id, Run(w, labels).db.executions[id]);
      } else {
        NewExecutionAdmitted(w, labels, n, id);
        assert Admitted(w, labels, n, id, Run(w, labels).db.executions[id]);
      }
    }
  }

  /** No execution, and no ancestor of one at any depth, is without the effect of its own operation or its child's. */
  lemma ChainsHoldImpliedEffects(w: World, labels: seq<Label>, id: Id, k: nat, f: Effect)
    requires id in Run(w, labels).db.executions && k < |Run(w, labels).db.executions[id].chain|
    ensures var db := Run(w, labels).db;
            var a := db.executions[id].chain[k].executionId;
            && a in db.executions
            && (Implies(db.executions[a].op, f) || Implies(db.executions[id].op, f) ==> f in db.executions[a].effects)
  {
    RunChains(w, labels);
    var db := Run(w, labels).db;
    assert ChainOk(db, id, db.executions[id]);
    assert AncestorOk(db, db.executions[id], k);
    ExecutionsWereAdmitted(w, labels, id);
    ExecutionsWereAdmitted(w, labels, db.executions[id].chain[k].executionId);
  }

  /** A parent without an effect that the child names, or that its operation implies, delegates nothing to it. */
  lemma ParentMustHoldEffects(w: World, labels: seq<Label>, j: nat, f: Effect)
    requires j < |labels| && Admits(w, labels, j) && labels[j].req.parentId != "" && AsksFor(labels[j].req, f)
    ensures var parents := Run(w, labels[..j]).db.executions;
            labels[j].req.parentId in parents && f in parents[labels[j].req.parentId].effects
  {
    var s := Run(w, labels[..j]);
    AdmissionExactly(w, s.enforce, s.db, labels[j].req, labels[j].env);
    RequestedExactly(labels[j].req);
  }
}
