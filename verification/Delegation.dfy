/** Identity chains: who delegated to whom, with effects that only shrink. */
module Delegation {
  import opened Records
  import opened Protocol
  import opened Runs
  import opened Admission

  /** `executions[id]` names an ancestor (or itself) at position `k` of its chain, whose own chain is the prefix. */
  ghost predicate AncestorOk(db: Db, e: Execution, k: nat)
    requires k < |e.chain|
  {
    var a := e.chain[k].executionId;
    && a in db.executions
    && db.executions[a].agent == e.chain[k].agent
    && db.executions[a].chain == e.chain[..k + 1]
    && e.effects <= db.executions[a].effects
    && (k < |e.chain| - 1 ==> Delegate in db.executions[a].effects)
  }

  ghost predicate ApprovedExactly(db: Db, id: Id, e: Execution) {
    id in db.approvals && db.approvals[id].requestHash == e.requestHash
  }

  ghost predicate ChainOk(db: Db, id: Id, e: Execution) {
    && 1 <= |e.chain| <= 16
    && e.chain[|e.chain| - 1] == Link(e.agent, id)
    && (if e.parentId == "" then |e.chain| == 1
        else |e.chain| >= 2 && e.chain[|e.chain| - 2].executionId == e.parentId)
    && (forall k | 0 <= k < |e.chain| :: AncestorOk(db, e, k))
    && (e.parentId != "" || Delegate in e.effects ==> ApprovedExactly(db, id, e))
  }

  ghost predicate ChainsOk(db: Db) {
    forall id | id in db.executions :: ChainOk(db, id, db.executions[id])
  }

  lemma ChainEvolves(db: Db, db': Db, id: Id, e: Execution, e': Execution)
    requires Evolves(db, db') && ChainOk(db, id, e) && ExecutionLater(e, e')
    ensures ChainOk(db', id, e')
  {
    forall k | 0 <= k < |e'.chain| ensures AncestorOk(db', e', k) {
      assert AncestorOk(db, e, k);
    }
  }

  /** An ancestor of the parent stays one of the child, which can only have fewer effects. */
  lemma AncestorOfChild(db: Db, db': Db, parent: Execution, child: Execution, k: nat)
    requires k < |parent.chain| && AncestorOk(db, parent, k)
    requires forall id | id in db.executions :: id in db'.executions && db'.executions[id] == db.executions[id]
    requires parent.chain <= child.chain && |child.chain| == |parent.chain| + 1
    requires child.effects <= parent.effects && Delegate in parent.effects
    requires k == |parent.chain| - 1 ==> db.executions[parent.chain[k].executionId] == parent
    ensures AncestorOk(db', child, k)
  {
    assert child.chain[k] == parent.chain[k] && child.chain[..k + 1] == parent.chain[..k + 1];
  }

  lemma RootChainOk(db: Db, id: Id, e: Execution)
    requires id in db.executions && db.executions[id] == e && e.parentId == "" && e.chain == [Link(e.agent, id)]
    requires Delegate in e.effects ==> ApprovedExactly(db, id, e)
    ensures ChainOk(db, id, e)
  {
    assert e.chain[..1] == e.chain;
  }

  lemma ChildChainOk(db: Db, db': Db, id: Id, e: Execution, parent: Execution)
    requires e.parentId != "" && e.parentId in db.executions && db.executions[e.parentId] == parent
    requires ChainOk(db, e.parentId, parent) && |parent.chain| < 16
    requires id !in db.executions && db'.executions == db.executions[id := e]
    requires e.chain == parent.chain + [Link(e.agent, id)]
    requires e.effects <= parent.effects && Delegate in parent.effects && ApprovedExactly(db', id, e)
    ensures ChainOk(db', id, e)
  {
    forall k | 0 <= k < |parent.chain| ensures AncestorOk(db', e, k) {
      assert AncestorOk(db, parent, k);
      AncestorOfChild(db, db', parent, e, k);
    }
    assert e.chain[..|e.chain|] == e.chain;
  }

  /** The new execution extends the chain of its parent. */
  lemma NewChainOk(w: World, s: System, req: Request, env: Env)
    requires ChainsOk(s.db) && Admissible(w, s.enforce, s.db, req, env)
    ensures var id := req.requestId.GetOr("");
            var db' := Start(w, s.db, req, id, RequestedEffects(req), NewChain(s.db, req), env);
            ChainOk(db', id, db'.executions[id])
  {
    var id := req.requestId.GetOr("");
    var db' := Start(w, s.db, req, id, RequestedEffects(req), NewChain(s.db, req), env);
    NewApproved(w, s, req, env);
    if req.parentId == "" {
      RootChainOk(db', id, db'.executions[id]);
    } else {
      assert ChainOk(s.db, req.parentId, s.db.executions[req.parentId]);
      ChildChainOk(s.db, db', id, db'.executions[id], s.db.executions[req.parentId]);
    }
  }

  /** A request that has a parent or asks for DELEGATE is gated, so its own hash was approved. */
  lemma NewApproved(w: World, s: System, req: Request, env: Env)
    requires Admissible(w, s.enforce, s.db, req, env)
    ensures var id := req.requestId.GetOr("");
            var db' := Start(w, s.db, req, id, RequestedEffects(req), NewChain(s.db, req), env);
            req.parentId != "" || Delegate in RequestedEffects(req) ==> ApprovedExactly(db', id, db'.executions[id])
  {
    if req.effects.None? {
      assert Delegate !in RequestedEffects(req);
    }
  }

  lemma NextKeepsChains(w: World, s: System, l: Label)
    requires ChainsOk(s.db) && Evolves(s.db, Next(w, s, l).db)
    ensures ChainsOk(Next(w, s, l).db)
  {
    var db' := Next(w, s, l).db;
    forall id | id in db'.executions ensures ChainOk(db', id, db'.executions[id]) {
      if id in s.db.executions {
        ChainEvolves(s.db, db', id, s.db.executions[id], db'.executions[id]);
      } else {
        NewExecutionsComeFromBegin(w, s, l, id);
        AdmissionExactly(w, s.enforce, s.db, l.req, l.env);
        NewChainOk(w, s, l.req, l.env);
      }
    }
  }

  /** In every reachable state every identity chain is well formed. */
  lemma {:induction false} RunChains(w: World, labels: seq<Label>)
    ensures ChainsOk(Run(w, labels).db)
  {
    if labels != [] {
      var n := |labels| - 1;
      RunLast(w, labels);
      RunChains(w, labels[..n]);
      RunBasics(w, labels[..n]);
      NextEvolves(w, Run(w, labels[..n]), labels[n]);
      NextKeepsChains(w, Run(w, labels[..n]), labels[n]);
    }
  }

  /** No execution is its own ancestor: a chain never names an id twice. */
  lemma ChainsHaveNoRepeats(w: World, labels: seq<Label>, id: Id, i: nat, j: nat)
    requires id in Run(w, labels).db.executions
    requires i < j < |Run(w, labels).db.executions[id].chain|
    ensures var chain := Run(w, labels).db.executions[id].chain;
            chain[i].executionId != chain[j].executionId
  {
    RunChains(w, labels);
    var db := Run(w, labels).db;
    assert ChainOk(db, id, db.executions[id]);
    assert AncestorOk(db, db.executions[id], i) && AncestorOk(db, db.executions[id], j);
  }

  /** Effects only shrink down the chain, from any ancestor to any of its descendants. */
  lemma EffectsOnlyShrink(w: World, labels: seq<Label>, id: Id, i: nat, j: nat)
    requires id in Run(w, labels).db.executions
    requires i < j < |Run(w, labels).db.executions[id].chain|
    ensures var db := Run(w, labels).db;
            var upper, lower := db.executions[id].chain[i].executionId, db.executions[id].chain[j].executionId;
            && upper in db.executions && lower in db.executions
            && db.executions[lower].effects <= db.executions[upper].effects
            && Delegate in db.executions[upper].effects
            && ApprovedExactly(db, upper, db.executions[upper])
  {
    RunChains(w, labels);
    var db := Run(w, labels).db;
    var chain := db.executions[id].chain;
    assert ChainOk(db, id, db.executions[id]);
    assert AncestorOk(db, db.executions[id], i) && AncestorOk(db, db.executions[id], j);
    var lower := db.executions[chain[j].executionId];
    assert ChainOk(db, chain[j].executionId, lower) && AncestorOk(db, lower, i);
    assert lower.chain[i] == chain[i];
    assert ChainOk(db, chain[i].executionId, db.executions[chain[i].executionId]);
  }
}
