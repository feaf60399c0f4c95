/**
 * What each transaction of the control plane does to the database and what it answers.
 * The class ControlPlane.Plane is proved to do exactly this; the theorems are about these functions.
 */
module Protocol {
  import opened Common
  import opened Ordering
  import opened Records
  import opened Audit

  datatype FailureKind =
    | ControlError | InvalidRequest | NotFound | Conflict | LeaseBusy | LeaseLost | InvalidCursor
    | IdempotencyConflict | InvalidContinuation | InvalidRetry | AgentIsQuarantined | InvalidDelegation
    | PermissionDenied | GrantExpired

  datatype Numbered = Numbered(sequence: int, row: Row)

  datatype Reply =
    | Failure(kind: FailureKind)
    | OutcomeUncertain(id: Id)
    | Answer(result: Result)
    | ApprovalNeeded(denied: bool, approval: Approval)
    | SessionReply(sessionId: Id, name: string)
    | ContinuationReply(continuationId: Id, continuation: Continuation)
    | LeaseReply(lease: Lease)
    | ApprovalReply(approval: Approval)
    | HealthReply(health: Health)
    | ProvenanceReply(record: Provenance)
    | ChannelReply(channel: Channel)
    | Page(rows: seq<Numbered>, next: int, more: bool)

  /** The operations that `control` serves in one transaction. */
  datatype Command =
    | CreateContinuation(taskId: string, kind: ContinuationKind)
    | CreateSession(session: Option<Id>, name: string)
    | AcquireLease(resource: string, owner: string, ttl: int)
    | ExtendLease(release: bool, resource: string, owner: string, token: string, ttl: int)
    | RevokeApproval(id: Id)
    | DecideApproval(id: Id, allow: Option<bool>, ttl: int)
    | AgentHealth(agent: string)
    | QuarantineAgent(agent: string)
    | ReleaseAgent(agent: string)
    | RecordProvenance(agent: string, sha256: string, source: string, version: string)
    | OpenChannel(id: Id, after: int)
    | ReadChannel(id: Id, limit: int)
    | ReadEvents(after: int, limit: int)
    | AckChannel(id: Id, cursor: int)

  /** The texts that `required` accepts; it throws on every other, which rolls the transaction back. */
  predicate Proper(text: string) {
    1 <= |text| <= 256
  }

  // ---- Admission

  function RequestHash(w: World, req: Request): string {
    w.requestHash(req.(requestId := None))
  }

  function RequestedEffects(req: Request): set<Effect> {
    (set name | name in req.effects.GetOr([]) && name.Known? :: name.effect)
    + match req.op {
      case Submit | Respond | StreamSubmit => {ExecuteRemote}
      case Cancel | PushCreate | PushDelete => {WriteRemote}
      case Materialize => {StoreExternal}
    }
  }

  predicate EffectsKnown(req: Request) {
    forall name | name in req.effects.GetOr([]) :: name.Known?
  }

  /** A request without effects and parent passes without approval while policy is not enforced. */
  predicate Gated(enforce: bool, req: Request) {
    enforce || req.effects.Some? || req.parentId != ""
  }

  function HealthOf(db: Db, agent: string): Health {
    if agent in db.health then db.health[agent] else Health(0, false)
  }

  function PriorReply(w: World, prior: Execution, id: Id, req: Request): Reply {
    if prior.requestHash != RequestHash(w, req) then Failure(IdempotencyConflict)
    else match prior.result
      case Some(result) => Answer(result)
      case None => OutcomeUncertain(id)
  }

  /** Why a dispatch may not rely on the lease it names. */
  function LeaseProblem(db: Db, claim: LeaseClaim, now: int): Option<FailureKind> {
    if !Proper(claim.resource) then Some(ControlError)
    else if claim.resource !in db.leases || db.leases[claim.resource].expiresAt <= now then Some(LeaseLost)
    else
      var lease := db.leases[claim.resource];
      if !Proper(claim.owner) then Some(ControlError)
      else if lease.owner != claim.owner then Some(LeaseLost)
      else if !Proper(claim.token) then Some(ControlError)
      else if lease.token != claim.token || lease.fence != claim.fence then Some(LeaseLost)
      else None
  }

  predicate Granted(approvals: map<Id, Approval>, id: Id, now: int) {
    id in approvals && approvals[id].state == Approved && approvals[id].expiresAt.GetOr(0) > now
  }

  /** The clock is read once for each ancestor, after the lease was checked. */
  predicate AncestorsGranted(approvals: map<Id, Approval>, chain: seq<Link>, now: nat -> int) {
    forall i: nat | i < |chain| :: Granted(approvals, chain[i].executionId, now(1 + i))
  }

  datatype Verdict = Refused(reply: Reply) | Cleared(effects: set<Effect>, chain: seq<Link>)

  /** The identity chain of a new execution, or why its parent cannot delegate to it. */
  function Lineage(db: Db, req: Request, id: Id, requested: set<Effect>, now: nat -> int): Verdict {
    if req.parentId == "" then Cleared(requested, [Link(req.agent, id)])
    else if req.parentId !in db.executions then Refused(Failure(InvalidDelegation))
    else
      var parent := db.executions[req.parentId];
      if Delegate !in parent.effects || !(requested <= parent.effects) then Refused(Failure(PermissionDenied))
      else if !AncestorsGranted(db.approvals, parent.chain, now) then Refused(Failure(PermissionDenied))
      else if |parent.chain| >= 16 then Refused(Failure(InvalidDelegation))
      else Cleared(requested, parent.chain + [Link(req.agent, id)])
  }

  /** Everything `begin` checks before it looks at the approval. */
  function Screen(w: World, db: Db, req: Request, now: nat -> int): Verdict {
    var id := req.requestId.GetOr("");
    if !Proper(id) then Refused(Failure(ControlError))
    else if id in db.executions then Refused(PriorReply(w, db.executions[id], id, req))
    else if req.lease.Some? && LeaseProblem(db, req.lease.value, now(0)).Some? then
      Refused(Failure(LeaseProblem(db, req.lease.value, now(0)).value))
    else if req.continuationId != "" && !(
         && req.continuationId in db.continuations
         && db.continuations[req.continuationId].state == Awaiting
         && db.continuations[req.continuationId].taskId == req.taskId) then
      Refused(Failure(InvalidContinuation))
    else if req.retryOf != "" && !(req.retryOf in db.executions && db.executions[req.retryOf].state == Failed) then
      Refused(Failure(InvalidRetry))
    else if req.agent != "" && HealthOf(db, req.agent).quarantined then Refused(Failure(AgentIsQuarantined))
    else if !EffectsKnown(req) then Refused(Failure(ControlError))
    else
      var lineage := Lineage(db, req, id, RequestedEffects(req), now);
      if lineage.Refused? then lineage
      else if req.sessionId != "" && req.sessionId !in db.sessions then Refused(Failure(NotFound))
      else lineage
  }

  function NewApproval(w: World, req: Request, effects: set<Effect>): Approval {
    Approval(Pending, RequestHash(w, req), req.agent, req.op, effects, req.taskId, None)
  }

  /** Why an existing approval does not admit the request. */
  function GrantProblem(w: World, approval: Approval, req: Request, now: int): Option<Reply> {
    if approval.requestHash != RequestHash(w, req) then Some(Failure(IdempotencyConflict))
    else if approval.state != Approved then Some(ApprovalNeeded(approval.state == Denied, approval))
    else if approval.expiresAt == None then Some(Failure(ControlError))
    else if approval.expiresAt.value <= now then Some(Failure(GrantExpired))
    else None
  }

  function NewExecution(w: World, req: Request, effects: set<Effect>, chain: seq<Link>, now: int): Execution {
    Execution(Dispatching, RequestHash(w, req), req.agent, req.op, req.sessionId, effects, chain, req.parentId,
              req.continuationId, req.retryOf, now, req.taskId, None, None, None)
  }

  function Start(w: World, db: Db, req: Request, id: Id, effects: set<Effect>, chain: seq<Link>, env: Env): Db {
    db.(executions := db.executions[id := NewExecution(w, req, effects, chain, env.now(|chain| + 1))],
        log := Append(w, db.log, ExecutionStarted(id, req.agent, req.sessionId, RequestHash(w, req), effects, chain),
                      env.now(|chain| + 2)))
  }

  function Ask(w: World, db: Db, req: Request, id: Id, effects: set<Effect>, chain: seq<Link>, env: Env): Db {
    db.(approvals := db.approvals[id := NewApproval(w, req, effects)],
        log := Append(w, db.log, ApprovalRequired(id, effects, req.agent), env.now(|chain|)))
  }

  /** `begin`: no reply means that the request is admitted and must now be dispatched. */
  function Begin(w: World, enforce: bool, db: Db, req: Request, env: Env): (Db, Option<Reply>) {
    match Screen(w, db, req, env.now)
    case Refused(reply) => (db, Some(reply))
    case Cleared(effects, chain) =>
      var id := req.requestId.GetOr("");
      if !Gated(enforce, req) then
        (Start(w, db, req, id, effects, chain, env), None)
      else if id !in db.approvals then
        (Ask(w, db, req, id, effects, chain, env), Some(ApprovalNeeded(false, NewApproval(w, req, effects))))
      else
        match GrantProblem(w, db.approvals[id], req, env.now(|chain|))
        case Some(reply) => (db, Some(reply))
        case None => (Start(w, db, req, id, effects, chain, env), None)
  }

  /** What an admission and a refusal leave behind. */
  lemma BeginCases(w: World, enforce: bool, db: Db, req: Request, env: Env)
    ensures var (db', reply) := Begin(w, enforce, db, req, env);
            var id := req.requestId.GetOr("");
            var verdict := Screen(w, db, req, env.now);
            if reply.None? then
              && verdict.Cleared? && id !in db.executions && Proper(id)
              && db' == Start(w, db, req, id, verdict.effects, verdict.chain, env)
            else
              || db' == db
              || (&& verdict.Cleared? && id !in db.executions && Proper(id) && id !in db.approvals
                  && db' == Ask(w, db, req, id, verdict.effects, verdict.chain, env))
  {
    match Screen(w, db, req, env.now)
    case Refused(_) =>
    case Cleared(_, _) =>
  }

  // ---- Completion

  predicate IsUncertain(result: Result) {
    result.kind == LocalNetwork || result.kind == MalformedResponse || result.kind == DispatchException
  }

  function Outcome(result: Result): ExecutionState {
    if IsUncertain(result) then Uncertain else if result.ok then Delivered else Failed
  }

  function Finished(execution: Execution, result: Result, now: int): Execution {
    execution.(state := Outcome(result),
               result := if IsUncertain(result) then execution.result else Some(result),
               finishedAt := Some(now),
               taskId := result.taskId.GetOr(execution.taskId),
               contextId := if result.contextId.Some? then result.contextId else execution.contextId)
  }

  function HealthAfter(health: Health, outcome: ExecutionState): Health {
    var failures := match outcome {
      case Uncertain => health.failures + 1
      case Delivered => 0
      case _ => health.failures
    };
    Health(failures, health.quarantined || failures >= 3)
  }

  /** A delivered answer closes its continuation; writing to a missing record creates a bare one. */
  function CloseContinuation(w: World, db: Db, execution: Execution, id: Id, ok: bool, now: int): Db {
    var key := execution.continuationId;
    if key == "" || !ok then db
    else
      var continuation := if key in db.continuations then db.continuations[key]
                          else Continuation("", OtherKind(""), Awaiting, None);
      db.(continuations := db.continuations[key := continuation.(state := Answered, executionId := Some(id))],
          log := Append(w, db.log, ContinuationDelivered(key, id), now))
  }

  function Conclude(w: World, db: Db, execution: Execution, id: Id, now: int): Db {
    var agent := execution.agent;
    db.(health := if agent == "" then db.health
                  else db.health[agent := HealthAfter(HealthOf(db, agent), execution.state)],
        log := Append(w, db.log, ExecutionFinished(id, execution.state, execution.taskId), now))
  }

  /** `finish`, called by the thread whose request was admitted. */
  function Finish(w: World, db: Db, id: Id, result: Result, env: Env): Db
    requires id in db.executions
  {
    var execution := Finished(db.executions[id], result, env.now(0));
    var db1 := db.(executions := db.executions[id := execution]);
    var db2 := CloseContinuation(w, db1, execution, id, result.ok, env.now(1));
    Conclude(w, db2, execution, id, env.now(2))
  }

  // ---- The whole call

  /** What became of the dispatch: it returned, or it raised an exception. */
  datatype Dispatched = Returned(result: Result) | Raised

  function DispatchResult(dispatched: Dispatched, id: Id): Result {
    match dispatched
    case Returned(result) => result.(executionId := id)
    case Raised => Result(false, DispatchException, None, None, id, "")
  }

  lemma AdmittedIsRecorded(w: World, enforce: bool, db: Db, req: Request, env: Env)
    ensures Begin(w, enforce, db, req, env).1.None? ==>
              req.requestId.GetOr("") in Begin(w, enforce, db, req, env).0.executions
  {
    BeginCases(w, enforce, db, req, env);
  }

  function Settle(w: World, db: Db, id: Id, dispatched: Dispatched, env: Env): (Db, Reply)
    requires id in db.executions
  {
    var result := DispatchResult(dispatched, id);
    (Finish(w, db, id, result, env), Answer(result))
  }

  /** `handle` for a mutating request, when no other transaction comes between its own two. */
  function Handle(w: World, enforce: bool, db: Db, req: Request, first: Env, dispatched: Dispatched, last: Env)
    : (Db, Reply)
  {
    if req.requestId.None? && (enforce || req.effects.Some?) then (db, Failure(InvalidRequest))
    else
      var request := req.(requestId := Some(req.requestId.GetOr(first.newId)));
      var (db1, reply) := Begin(w, enforce, db, request, first);
      if reply.Some? then (db1, reply.value)
      else
        AdmittedIsRecorded(w, enforce, db, request, first);
        Settle(w, db1, request.requestId.value, dispatched, last)
  }

  // ---- Recovery

  /** A dispatch that the previous process left open has an unknown outcome. */
  function MarkUncertain(w: World, db: Db, id: Id, now: int): Db {
    if id in db.executions && db.executions[id].state == Dispatching then
      db.(executions := db.executions[id := db.executions[id].(state := Uncertain)],
          log := Append(w, db.log, ExecutionUncertain(id), now))
    else db
  }

  function MarkAll(w: World, db: Db, ids: seq<Id>, now: nat -> int): Db {
    if ids == [] then db
    else
      var n := |ids| - 1;
      MarkUncertain(w, MarkAll(w, db, ids[..n], now), ids[n], now(n))
  }

  /** The constructor's recovery transaction. */
  ghost function Recover(w: World, db: Db, now: nat -> int): Db {
    MarkAll(w, db, Ascending(db.executions.Keys), now)
  }

  // ---- Control operations

  /** The one record that a control operation stores. */
  datatype Write =
    | Nothing
    | WriteContinuation(continuationId: Id, continuation: Continuation)
    | WriteSession(sessionId: Id, name: string)
    | WriteLease(resource: string, lease: Lease)
    | WriteApproval(approvalId: Id, approval: Approval)
    | WriteHealth(agent: string, health: Health)
    | WriteProvenance(source: string, record: Provenance)
    | WriteChannel(channelId: Id, channel: Channel)

  /** What a control operation stores, what it journals and when, and what it answers. */
  datatype Plan = Plan(write: Write, event: Option<Event>, time: int, reply: Reply)

  function Refuse(kind: FailureKind): Plan {
    Plan(Nothing, None, 0, Failure(kind))
  }

  function PlanContinuation(taskId: string, kind: ContinuationKind, env: Env): Plan {
    if !Proper(taskId) || (kind.OtherKind? && !Proper(kind.name)) then Refuse(ControlError)
    else if kind.OtherKind? then Refuse(InvalidRequest)
    else
      var continuation := Continuation(taskId, kind, Awaiting, None);
      Plan(WriteContinuation(env.newId, continuation), Some(ContinuationRequired(env.newId, taskId, kind)), env.now(0),
           ContinuationReply(env.newId, continuation))
  }

  function PlanSession(db: Db, session: Option<Id>, name: string, env: Env): Plan {
    var id := session.GetOr(env.newId);
    if session.Some? && !Proper(id) then Refuse(ControlError)
    else if id in db.sessions then Refuse(Conflict)
    else Plan(WriteSession(id, name), Some(SessionCreated(id)), env.now(0), SessionReply(id, name))
  }

  function StoreLease(action: LeaseAction, resource: string, lease: Lease, time: int): Plan {
    Plan(WriteLease(resource, lease), Some(LeaseChanged(action, resource, lease.owner, lease.fence)), time,
         LeaseReply(lease))
  }

  /** The clock is read to judge the old lease, then to date the new one, then to stamp the event. */
  function PlanAcquire(db: Db, resource: string, owner: string, ttl: int, env: Env): Plan {
    if !Proper(resource) || !Proper(owner) then Refuse(ControlError)
    else if !(1 <= ttl <= 3600) then Refuse(InvalidRequest)
    else if resource in db.leases && db.leases[resource].expiresAt > env.now(0) then Refuse(LeaseBusy)
    else
      var fence := if resource in db.leases then db.leases[resource].fence + 1 else 1;
      StoreLease(Acquire, resource, Lease(owner, env.newId, fence, env.now(1) + ttl), env.now(2))
  }

  function PlanExtend(db: Db, release: bool, resource: string, owner: string, token: string, ttl: int, env: Env): Plan {
    if !Proper(resource) || !Proper(owner) then Refuse(ControlError)
    else if !(1 <= ttl <= 3600) then Refuse(InvalidRequest)
    else if resource !in db.leases || db.leases[resource].expiresAt <= env.now(0) then Refuse(LeaseLost)
    else if db.leases[resource].owner != owner then Refuse(LeaseLost)
    else if !Proper(token) then Refuse(ControlError)
    else if db.leases[resource].token != token then Refuse(LeaseLost)
    else
      var until := if release then env.now(1) else env.now(1) + ttl;
      StoreLease(if release then Release else Renew, resource, db.leases[resource].(expiresAt := until), env.now(2))
  }

  function PlanRevoke(db: Db, id: Id, env: Env): Plan {
    if !Proper(id) then Refuse(ControlError)
    else if id !in db.approvals then Refuse(NotFound)
    else
      var approval := db.approvals[id].(state := Revoked);
      Plan(WriteApproval(id, approval), Some(ApprovalRevoked(id)), env.now(0), ApprovalReply(approval))
  }

  function PlanDecide(db: Db, id: Id, allow: Option<bool>, ttl: int, env: Env): Plan {
    if !Proper(id) then Refuse(ControlError)
    else if id !in db.approvals then Refuse(NotFound)
    else if db.approvals[id].state != Pending then Refuse(Conflict)
    else if allow.None? || !(1 <= ttl <= 3600) then Refuse(InvalidRequest)
    else
      var decision := if allow.value then Approved else Denied;
      var until := env.now(0) + ttl;
      var approval := db.approvals[id].(state := decision, expiresAt := Some(until));
      Plan(WriteApproval(id, approval), Some(ApprovalDecided(id, decision, until)), env.now(1), ApprovalReply(approval))
  }

  function PlanQuarantine(db: Db, agent: string, env: Env): Plan {
    if !Proper(agent) then Refuse(ControlError)
    else
      var health := HealthOf(db, agent).(quarantined := true);
      Plan(WriteHealth(agent, health), Some(AgentQuarantined(agent)), env.now(0), HealthReply(health))
  }

  function PlanRelease(agent: string, env: Env): Plan {
    if !Proper(agent) then Refuse(ControlError)
    else
      var health := Health(0, false);
      Plan(WriteHealth(agent, health), Some(AgentReleased(agent)), env.now(0), HealthReply(health))
  }

  predicate HexDigit(c: char) {
    '0' <= c <= '9' || 'a' <= c <= 'f'
  }

  predicate HexText(text: string) {
    |text| == 64 && forall i | 0 <= i < |text| :: HexDigit(text[i])
  }

  function PlanProvenance(agent: string, sha256: string, source: string, version: string, env: Env): Plan {
    if !Proper(agent) || !Proper(sha256) then Refuse(ControlError)
    else if !HexText(sha256) then Refuse(InvalidRequest)
    else if !Proper(source) then Refuse(ControlError)
    else
      var record := Provenance(sha256, source, version);
      Plan(WriteProvenance(agent, record), Some(ProvenanceRecorded(agent, sha256)), env.now(0), ProvenanceReply(record))
  }

  function PlanOpen(db: Db, id: Id, after: int): Plan {
    if !Proper(id) then Refuse(ControlError)
    else if id in db.channels then Plan(Nothing, None, 0, ChannelReply(db.channels[id]))
    else if after < 0 then Refuse(InvalidRequest)
    else Plan(WriteChannel(id, Channel(after, after)), None, 0, ChannelReply(Channel(after, after)))
  }

  /** The numbered rows `lo < sequence <= hi`. */
  function Rows(log: seq<Row>, lo: nat, hi: nat): (rows: seq<Numbered>)
    requires lo <= hi <= |log|
    ensures |rows| == hi - lo
    ensures forall i | 0 <= i < |rows| :: rows[i] == Numbered(lo + i + 1, log[lo + i])
  {
    seq(hi - lo, i requires 0 <= i < hi - lo => Numbered(lo + i + 1, log[lo + i]))
  }

  /** The first `limit` rows with a sequence number above `after`. */
  function PageAfter(log: seq<Row>, after: nat, limit: nat): Reply {
    if after >= |log| then Page([], after, false)
    else
      var hi := Min(after + limit, |log|);
      Page(Rows(log, after, hi), hi, hi - after == limit)
  }

  function PlanEvents(db: Db, after: int, limit: int): Plan {
    if after < 0 || !(1 <= limit <= 500) then Refuse(InvalidRequest)
    else Plan(Nothing, None, 0, PageAfter(db.log, after, limit))
  }

  function PlanRead(db: Db, id: Id, limit: int): Plan {
    if !Proper(id) then Refuse(ControlError)
    else if id !in db.channels then Refuse(NotFound)
    else
      var channel := db.channels[id];
      if channel.cursor < 0 || !(1 <= limit <= 500) then Refuse(InvalidRequest)
      else
        var page := PageAfter(db.log, channel.cursor, limit);
        Plan(WriteChannel(id, channel.(delivered := Max(channel.delivered, page.next))), None, 0, page)
  }

  function PlanAck(db: Db, id: Id, cursor: int): Plan {
    if !Proper(id) then Refuse(ControlError)
    else if id !in db.channels then Refuse(NotFound)
    else if cursor < db.channels[id].cursor || cursor > db.channels[id].delivered then Refuse(InvalidCursor)
    else
      var channel := db.channels[id].(cursor := cursor);
      Plan(WriteChannel(id, channel), None, 0, ChannelReply(channel))
  }

  function PlanFor(db: Db, command: Command, env: Env): Plan {
    match command
    case CreateContinuation(taskId, kind) => PlanContinuation(taskId, kind, env)
    case CreateSession(session, name) => PlanSession(db, session, name, env)
    case AcquireLease(resource, owner, ttl) => PlanAcquire(db, resource, owner, ttl, env)
    case ExtendLease(release, resource, owner, token, ttl) => PlanExtend(db, release, resource, owner, token, ttl, env)
    case RevokeApproval(id) => PlanRevoke(db, id, env)
    case DecideApproval(id, allow, ttl) => PlanDecide(db, id, allow, ttl, env)
    case AgentHealth(agent) =>
      if Proper(agent) then Plan(Nothing, None, 0, HealthReply(HealthOf(db, agent))) else Refuse(ControlError)
    case QuarantineAgent(agent) => PlanQuarantine(db, agent, env)
    case ReleaseAgent(agent) => PlanRelease(agent, env)
    case RecordProvenance(agent, sha256, source, version) => PlanProvenance(agent, sha256, source, version, env)
    case OpenChannel(id, after) => PlanOpen(db, id, after)
    case ReadChannel(id, limit) => PlanRead(db, id, limit)
    case ReadEvents(after, limit) => PlanEvents(db, after, limit)
    case AckChannel(id, cursor) => PlanAck(db, id, cursor)
  }

  function Store(db: Db, write: Write): Db {
    match write
    case Nothing => db
    case WriteContinuation(id, continuation) => db.(continuations := db.continuations[id := continuation])
    case WriteSession(id, name) => db.(sessions := db.sessions[id := name])
    case WriteLease(resource, lease) => db.(leases := db.leases[resource := lease])
    case WriteApproval(id, approval) => db.(approvals := db.approvals[id := approval])
    case WriteHealth(agent, health) => db.(health := db.health[agent := health])
    case WriteProvenance(agent, record) => db.(provenance := db.provenance[agent := record])
    case WriteChannel(id, channel) => db.(channels := db.channels[id := channel])
  }

  function Journalled(w: World, log: seq<Row>, event: Option<Event>, time: int): seq<Row> {
    match event
    case None => log
    case Some(e) => Append(w, log, e, time)
  }

  /** One transaction stores the record and appends the event. */
  function Perform(w: World, db: Db, plan: Plan): Db {
    Store(db, plan.write).(log := Journalled(w, db.log, plan.event, plan.time))
  }

  function Control(w: World, db: Db, command: Command, env: Env): (Db, Reply) {
    var plan := PlanFor(db, command, env);
    (Perform(w, db, plan), plan.reply)
  }
}
