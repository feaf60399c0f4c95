/** A request that is not dispatched is told a reason, and the reason is true. */
module Refusals {
  import opened Common
  import opened Records
  import opened Protocol
  import opened Admission
  import opened Effects
  import opened UnknownOutcomes

  /** Some effect that the child asks for, or DELEGATE, or an ancestor's grant is missing. */
  ghost predicate MayNotDelegate(db: Db, req: Request, now: nat -> int) {
    && req.parentId in db.executions
    && var parent := db.executions[req.parentId];
       || Delegate !in parent.effects
       || (exists f: Effect :: AsksFor(req, f) && f !in parent.effects)
       || exists i: nat :: i < |parent.chain| && !Granted(db.approvals, parent.chain[i].executionId, now(1 + i))
  }

  predicate ImproperLease(claim: LeaseClaim) {
    !Proper(claim.resource) || !Proper(claim.owner) || !Proper(claim.token)
  }

  /** What each failure of a request says about it and the database. */
  ghost predicate Because(w: World, db: Db, req: Request, env: Env, kind: FailureKind) {
    var id := req.requestId.GetOr("");
    match kind
    case ControlError =>
      || !Proper(id) || !EffectsKnown(req) || (req.lease.Some? && ImproperLease(req.lease.value))
      || (id in db.approvals && db.approvals[id].expiresAt.None?)
    case IdempotencyConflict =>
      || (id in db.executions && db.executions[id].requestHash != RequestHash(w, req))
      || (id in db.approvals && db.approvals[id].requestHash != RequestHash(w, req))
    case LeaseLost => req.lease.Some? && !LeaseHeld(db, req.lease.value, env.now(0))
    case InvalidContinuation => req.continuationId != "" && !ContinuationOpen(db, req)
    case InvalidRetry =>
      req.retryOf != "" && (req.retryOf in db.executions ==> db.executions[req.retryOf].state != Failed)
    case AgentIsQuarantined => req.agent != "" && req.agent in db.health && db.health[req.agent].quarantined
    case InvalidDelegation =>
      req.parentId != "" && (req.parentId in db.executions ==> |db.executions[req.parentId].chain| >= 16)
    case PermissionDenied => req.parentId != "" && MayNotDelegate(db, req, env.now)
    case NotFound => req.sessionId != "" && req.sessionId !in db.sessions
    case GrantExpired =>
      && id in db.approvals && db.approvals[id].state == Approved
      && exists k: nat :: db.approvals[id].expiresAt.GetOr(0) <= env.now(k)
    case _ => false
  }

  /** What each reply but an admission says. */
  ghost predicate Truthful(w: World, db: Db, req: Request, env: Env, reply: Reply) {
    var id := req.requestId.GetOr("");
    match reply
    case Failure(kind) => Because(w, db, req, env, kind)
    case OutcomeUncertain(known) => known == id && id in db.executions && db.executions[id].result == None
    case Answer(result) => id in db.executions && db.executions[id].result == Some(result)
    case ApprovalNeeded(denied, a) =>
      && id !in db.executions && a.state != Approved && a.requestHash == RequestHash(w, req)
      && (denied <==> a.state == Denied) && (id in db.approvals ==> a == db.approvals[id])
    case _ => false
  }

  lemma LineageTruthful(w: World, db: Db, req: Request, id: Id, env: Env)
    ensures var verdict := Lineage(db, req, id, RequestedEffects(req), env.now);
            verdict.Refused? ==> Truthful(w, db, req, env, verdict.reply)
  {
    RequestedExactly(req);
  }

  lemma ScreenTruthful(w: World, db: Db, req: Request, env: Env)
    ensures var verdict := Screen(w, db, req, env.now);
            verdict.Refused? ==> Truthful(w, db, req, env, verdict.reply)
  {
    LineageTruthful(w, db, req, req.requestId.GetOr(""), env);
  }

  /** Whatever `begin` answers instead of admitting a request is true, and changes no record but a new approval. */
  lemma RefusalsAreTruthful(w: World, enforce: bool, db: Db, req: Request, env: Env)
    ensures var (db', reply) := Begin(w, enforce, db, req, env);
            reply.Some? ==>
              && Truthful(w, db, req, env, reply.value)
              && db' == db.(approvals := db'.approvals, log := db'.log)
              && (db' == db || (reply.value.ApprovalNeeded? && req.requestId.GetOr("") !in db.approvals))
  {
    ScreenTruthful(w, db, req, env);
    BeginCases(w, enforce, db, req, env);
  }

  // ---- A whole call

  /**
   * A call without an id is refused when it is governed, and is given one otherwise. Then it is either refused for a
   * true reason, with every execution as it was, or dispatched once: the answer is what the dispatch returned, under
   * its id, and the record is concluded by it.
   */
  lemma CallsAreAnswered(w: World, enforce: bool, db: Db, req: Request, first: Env, dispatched: Dispatched, last: Env)
    ensures var (db', reply) := Handle(w, enforce, db, req, first, dispatched, last);
            var request := req.(requestId := Some(req.requestId.GetOr(first.newId)));
            var id := request.requestId.value;
            if req.requestId.None? && (enforce || req.effects.Some?) then
              db' == db && reply == Failure(InvalidRequest)
            else if !Admissible(w, enforce, db, request, first) then
              db'.executions == db.executions && Truthful(w, db, request, first, reply)
            else
              && id !in db.executions && id in db'.executions && db'.executions[id].state != Dispatching
              && Executes(w, db'.executions[id], request)
              && reply.Answer? && reply.result.executionId == id
              && (dispatched.Returned? ==> reply.result == dispatched.result.(executionId := id))
              && db'.executions[id].state == StateFor(reply.result.kind, reply.result.ok)
              && (dispatched.Raised? ==> db'.executions[id].state == Uncertain)
  {
    var request := req.(requestId := Some(req.requestId.GetOr(first.newId)));
    AdmissionExactly(w, enforce, db, request, first);
    RefusalsAreTruthful(w, enforce, db, request, first);
    AdmittedAsAsked(w, enforce, db, request, first);
    var (db1, reply) := Begin(w, enforce, db, request, first);
    if reply.None? {
      SettleConcludes(w, db1, request.requestId.value, dispatched, last);
    }
  }
}
