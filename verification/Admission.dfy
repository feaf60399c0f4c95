/** Exactly when a request is admitted, stated as one flat condition on the database. */
module Admission {
  import opened Common
  import opened Records
  import opened Protocol
  import opened Runs

  ghost predicate LeaseHeld(db: Db, claim: LeaseClaim, now: int) {
    && Proper(claim.resource) && Proper(claim.owner) && Proper(claim.token)
    && claim.resource in db.leases
    && var lease := db.leases[claim.resource];
    && lease.owner == claim.owner && lease.token == claim.token && lease.fence == claim.fence
    && lease.expiresAt > now
  }

  ghost predicate ContinuationOpen(db: Db, req: Request) {
    && req.continuationId in db.continuations
    && db.continuations[req.continuationId].state == Awaiting
    && db.continuations[req.continuationId].taskId == req.taskId
  }

  ghost predicate ParentDelegates(db: Db, req: Request, now: nat -> int) {
    && req.parentId in db.executions
    && var parent := db.executions[req.parentId];
    && Delegate in parent.effects && RequestedEffects(req) <= parent.effects && |parent.chain| < 16
    && forall i: nat | i < |parent.chain| :: Granted(db.approvals, parent.chain[i].executionId, now(1 + i))
  }

  ghost predicate OwnerApproved(w: World, db: Db, req: Request, now: int) {
    && req.requestId.GetOr("") in db.approvals
    && var approval := db.approvals[req.requestId.GetOr("")];
    && approval.state == Approved && approval.requestHash == RequestHash(w, req)
    && approval.expiresAt.Some? && approval.expiresAt.value > now
  }

  ghost function NewChain(db: Db, req: Request): seq<Link> {
    (if req.parentId != "" && req.parentId in db.executions then db.executions[req.parentId].chain else [])
    + [Link(req.agent, req.requestId.GetOr(""))]
  }

  /** Everything that is demanded before the owner's approval. */
  ghost predicate PassesScreen(db: Db, req: Request, now: nat -> int) {
    && Proper(req.requestId.GetOr("")) && req.requestId.GetOr("") !in db.executions
    && (req.lease.Some? ==> LeaseHeld(db, req.lease.value, now(0)))
    && (req.continuationId != "" ==> ContinuationOpen(db, req))
    && (req.retryOf != "" ==> req.retryOf in db.executions && db.executions[req.retryOf].state == Failed)
    && (req.agent in db.health && db.health[req.agent].quarantined ==> req.agent == "")
    && EffectsKnown(req)
    && (req.parentId != "" ==> ParentDelegates(db, req, now))
    && (req.sessionId != "" ==> req.sessionId in db.sessions)
  }

  ghost predicate Admissible(w: World, enforce: bool, db: Db, req: Request, env: Env) {
    && PassesScreen(db, req, env.now)
    && (Gated(enforce, req) ==> OwnerApproved(w, db, req, env.now(|NewChain(db, req)|)))
  }

  lemma ScreenExactly(w: World, db: Db, req: Request, now: nat -> int)
    ensures Screen(w, db, req, now).Cleared? <==> PassesScreen(db, req, now)
    ensures Screen(w, db, req, now).Cleared? ==>
              Screen(w, db, req, now) == Cleared(RequestedEffects(req), NewChain(db, req))
  {
    var id := req.requestId.GetOr("");
    var effects := RequestedEffects(req);
    assert req.lease.Some? ==> (LeaseProblem(db, req.lease.value, now(0)).None? <==>
                                LeaseHeld(db, req.lease.value, now(0)));
    LineageExactly(db, req, id, effects, now);
  }

  lemma LineageExactly(db: Db, req: Request, id: Id, effects: set<Effect>, now: nat -> int)
    requires id == req.requestId.GetOr("") && effects == RequestedEffects(req)
    ensures Lineage(db, req, id, effects, now).Cleared? <==> (req.parentId != "" ==> ParentDelegates(db, req, now))
    ensures Lineage(db, req, id, effects, now).Cleared? ==>
              Lineage(db, req, id, effects, now) == Cleared(effects, NewChain(db, req))
  {
  }

  /** A request is dispatched if and only if it is admissible, and then its execution is recorded and journalled. */
  lemma AdmissionExactly(w: World, enforce: bool, db: Db, req: Request, env: Env)
    ensures Begin(w, enforce, db, req, env).1.None? <==> Admissible(w, enforce, db, req, env)
    ensures Admissible(w, enforce, db, req, env) ==>
              Begin(w, enforce, db, req, env).0 ==
              Start(w, db, req, req.requestId.value, RequestedEffects(req), NewChain(db, req), env)
  {
    ScreenExactly(w, db, req, env.now);
    BeginCases(w, enforce, db, req, env);
  }
}
