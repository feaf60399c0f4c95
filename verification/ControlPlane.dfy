/** The control plane as the daemon runs it: one object over one database, changed transaction by transaction. */
module ControlPlane {
  import opened Common
  import opened Ordering
  import opened Records
  import opened Audit
  import opened Protocol

  datatype Verification = Verified(count: nat, head: string) | Mismatch

  class Plane {
    const world: World
    const enforce: bool
    var executions: map<Id, Execution>
    var approvals: map<Id, Approval>
    var leases: map<string, Lease>
    var continuations: map<Id, Continuation>
    var sessions: map<Id, string>
    var health: map<string, Health>
    var provenance: map<string, Provenance>
    var channels: map<Id, Channel>
    var log: seq<Row>

    function Contents(): Db
      reads this
    {
      Db(executions, approvals, leases, continuations, sessions, health, provenance, channels, log)
    }

    /** Opens the database and recovers; `listed` is the result of the query that lists the executions. */
    constructor (world: World, enforce: bool, stored: Db, listed: seq<Id>, now: nat -> int)
      requires listed == Ascending(stored.executions.Keys)
      ensures this.world == world && this.enforce == enforce
      ensures Contents() == Recover(world, stored, now)
    {
      this.world, this.enforce := world, enforce;
      executions, approvals, leases := stored.executions, stored.approvals, stored.leases;
      continuations, sessions, health := stored.continuations, stored.sessions, stored.health;
      provenance, channels, log := stored.provenance, stored.channels, stored.log;
      new;
      MarkOpen(listed, now);
    }

    method MarkOpen(listed: seq<Id>, now: nat -> int)
      modifies this`executions, this`log
      ensures Contents() == MarkAll(world, old(Contents()), listed, now)
    {
      for i := 0 to |listed|
        invariant Contents() == MarkAll(world, old(Contents()), listed[..i], now)
      {
        assert listed[..i + 1][..i] == listed[..i];
        MarkOne(listed[i], now(i));
      }
      assert listed[..|listed|] == listed;
    }

    method MarkOne(id: Id, time: int)
      modifies this`executions, this`log
      ensures Contents() == MarkUncertain(world, old(Contents()), id, time)
    {
      if id in executions && executions[id].state == Dispatching {
        executions := executions[id := executions[id].(state := Uncertain)];
        AppendEvent(ExecutionUncertain(id), time);
      }
    }

    method AppendEvent(event: Event, time: int)
      modifies this`log
      ensures log == Append(world, old(log), event, time)
    {
      var previous := if log == [] then "" else log[|log| - 1].hash;
      log := log + [Row(time, event, previous, world.rowHash(previous, time, event))];
    }

    /** Events of the task manager enter the same log. */
    method NoteOutside(text: string, time: int)
      modifies this`log
      ensures Contents() == old(Contents()).(log := Append(world, old(log), Outside(text), time))
    {
      AppendEvent(Outside(text), time);
    }

    // ---- Control operations

    method ServeContinuation(taskId: string, kind: ContinuationKind, env: Env) returns (reply: Reply)
      modifies this`continuations, this`log
      ensures (Contents(), reply) == Control(world, old(Contents()), CreateContinuation(taskId, kind), env)
    {
      if !Proper(taskId) || (kind.OtherKind? && !Proper(kind.name)) {
        return Failure(ControlError);
      }
      if kind.OtherKind? {
        return Failure(InvalidRequest);
      }
      var continuation := Continuation(taskId, kind, Awaiting, None);
      continuations := continuations[env.newId := continuation];
      AppendEvent(ContinuationRequired(env.newId, taskId, kind), env.now(0));
      return ContinuationReply(env.newId, continuation);
    }

    method ServeSession(session: Option<Id>, name: string, env: Env) returns (reply: Reply)
      modifies this`sessions, this`log
      ensures (Contents(), reply) == Control(world, old(Contents()), CreateSession(session, name), env)
    {
      var id := env.newId;
      if session.Some? {
        if !Proper(session.value) {
          return Failure(ControlError);
        }
        id := session.value;
      }
      if id in sessions {
        return Failure(Conflict);
      }
      sessions := sessions[id := name];
      AppendEvent(SessionCreated(id), env.now(0));
      return SessionReply(id, name);
    }

    /** Stores a lease and journals it, as all three lease operations end. */
    method PutLease(action: LeaseAction, resource: string, lease: Lease, time: int) returns (reply: Reply)
      modifies this`leases, this`log
      ensures Contents() == Perform(world, old(Contents()), StoreLease(action, resource, lease, time))
      ensures reply == LeaseReply(lease)
    {
      leases := leases[resource := lease];
      AppendEvent(LeaseChanged(action, resource, lease.owner, lease.fence), time);
      return LeaseReply(lease);
    }

    method ServeAcquire(resource: string, owner: string, ttl: int, env: Env) returns (reply: Reply)
      modifies this`leases, this`log
      ensures (Contents(), reply) == Control(world, old(Contents()), AcquireLease(resource, owner, ttl), env)
    {
      if !Proper(resource) || !Proper(owner) {
        return Failure(ControlError);
      }
      if ttl < 1 || ttl > 3600 {
        return Failure(InvalidRequest);
      }
      var fence := 1;
      if resource in leases {
        if leases[resource].expiresAt > env.now(0) {
          return Failure(LeaseBusy);
        }
        fence := leases[resource].fence + 1;
      }
      reply := PutLease(Acquire, resource, Lease(owner, env.newId, fence, env.now(1) + ttl), env.now(2));
    }

    method ServeExtend(release: bool, resource: string, owner: string, token: string, ttl: int, env: Env)
      returns (reply: Reply)
      modifies this`leases, this`log
      ensures (Contents(), reply) ==
              Control(world, old(Contents()), ExtendLease(release, resource, owner, token, ttl), env)
    {
      if !Proper(resource) || !Proper(owner) {
        return Failure(ControlError);
      }
      if ttl < 1 || ttl > 3600 {
        return Failure(InvalidRequest);
      }
      if resource !in leases || leases[resource].expiresAt <= env.now(0) || leases[resource].owner != owner {
        return Failure(LeaseLost);
      }
      if !Proper(token) {
        return Failure(ControlError);
      }
      if leases[resource].token != token {
        return Failure(LeaseLost);
      }
      var lease := leases[resource];
      lease := lease.(expiresAt := if release then env.now(1) else env.now(1) + ttl);
      reply := PutLease(if release then Release else Renew, resource, lease, env.now(2));
    }

    method PutApproval(id: Id, approval: Approval, event: Event, time: int) returns (reply: Reply)
      modifies this`approvals, this`log
      ensures Contents() == Perform(world, old(Contents()),
                                    Plan(WriteApproval(id, approval), Some(event), time, ApprovalReply(approval)))
      ensures reply == ApprovalReply(approval)
    {
      approvals := approvals[id := approval];
      AppendEvent(event, time);
      return ApprovalReply(approval);
    }

    method ServeRevoke(id: Id, env: Env) returns (reply: Reply)
      modifies this`approvals, this`log
      ensures (Contents(), reply) == Control(world, old(Contents()), RevokeApproval(id), env)
    {
      if !Proper(id) {
        return Failure(ControlError);
      }
      if id !in approvals {
        return Failure(NotFound);
      }
      var approval := approvals[id].(state := Revoked);
      reply := PutApproval(id, approval, ApprovalRevoked(id), env.now(0));
    }

    method ServeDecide(id: Id, allow: Option<bool>, ttl: int, env: Env) returns (reply: Reply)
      modifies this`approvals, this`log
      ensures (Contents(), reply) == Control(world, old(Contents()), DecideApproval(id, allow, ttl), env)
    {
      if !Proper(id) {
        return Failure(ControlError);
      }
      if id !in approvals {
        return Failure(NotFound);
      }
      var approval := approvals[id];
      if approval.state != Pending {
        return Failure(Conflict);
      }
      if allow.None? {
        return Failure(InvalidRequest);
      }
      var decision := if allow.value then Approved else Denied;
      approval := approval.(state := decision);
      if ttl < 1 || ttl > 3600 {
        return Failure(InvalidRequest);
      }
      var until := env.now(0) + ttl;
      approval := approval.(expiresAt := Some(until));
      assert approval == approvals[id].(state := decision, expiresAt := Some(until));
      reply := PutApproval(id, approval, ApprovalDecided(id, decision, until), env.now(1));
    }

    method HealthRecord(agent: string) returns (h: Health)
      ensures h == HealthOf(Contents(), agent)
    {
      h := if agent in health then health[agent] else Health(0, false);
    }

    method ServeHealth(agent: string, env: Env) returns (reply: Reply)
      ensures (Contents(), reply) == Control(world, Contents(), AgentHealth(agent), env)
    {
      if !Proper(agent) {
        return Failure(ControlError);
      }
      var h := HealthRecord(agent);
      return HealthReply(h);
    }

    method PutHealth(agent: string, h: Health, event: Event, time: int) returns (reply: Reply)
      modifies this`health, this`log
      ensures Contents() == Perform(world, old(Contents()),
                                    Plan(WriteHealth(agent, h), Some(event), time, HealthReply(h)))
      ensures reply == HealthReply(h)
    {
      health := health[agent := h];
      AppendEvent(event, time);
      return HealthReply(h);
    }

    method ServeQuarantine(agent: string, env: Env) returns (reply: Reply)
      modifies this`health, this`log
      ensures (Contents(), reply) == Control(world, old(Contents()), QuarantineAgent(agent), env)
    {
      if !Proper(agent) {
        return Failure(ControlError);
      }
      var h := HealthRecord(agent);
      h := h.(quarantined := true);
      reply := PutHealth(agent, h, AgentQuarantined(agent), env.now(0));
    }

    method ServeRelease(agent: string, env: Env) returns (reply: Reply)
      modifies this`health, this`log
      ensures (Contents(), reply) == Control(world, old(Contents()), ReleaseAgent(agent), env)
    {
      if !Proper(agent) {
        return Failure(ControlError);
      }
      var h := HealthRecord(agent);
      h := h.(quarantined := false);
      h := h.(failures := 0);
      assert h == Health(0, false);
      reply := PutHealth(agent, h, AgentReleased(agent), env.now(0));
    }

    method ServeProvenance(agent: string, sha256: string, source: string, version: string, env: Env)
      returns (reply: Reply)
      modifies this`provenance, this`log
      ensures (Contents(), reply) ==
              Control(world, old(Contents()), RecordProvenance(agent, sha256, source, version), env)
    {
      if !Proper(agent) || !Proper(sha256) {
        return Failure(ControlError);
      }
      if !HexText(sha256) {
        return Failure(InvalidRequest);
      }
      if !Proper(source) {
        return Failure(ControlError);
      }
      var record := Provenance(sha256, source, version);
      provenance := provenance[agent := record];
      AppendEvent(ProvenanceRecorded(agent, sha256), env.now(0));
      return ProvenanceReply(record);
    }

    method ServeOpen(id: Id, after: int, env: Env) returns (reply: Reply)
      modifies this`channels
      ensures (Contents(), reply) == Control(world, old(Contents()), OpenChannel(id, after), env)
    {
      if !Proper(id) {
        return Failure(ControlError);
      }
      if id !in channels {
        if after < 0 {
          return Failure(InvalidRequest);
        }
        channels := channels[id := Channel(after, after)];
      }
      return ChannelReply(channels[id]);
    }

    /** Steps through the rows above `after`, at most `limit` of them. */
    method ReadRows(after: nat, limit: nat) returns (rows: seq<Numbered>, next: nat)
      ensures Page(rows, next, |rows| == limit) == PageAfter(log, after, limit) || limit == 0
    {
      rows, next := [], after;
      while next < |log| && |rows| < limit
        invariant next == after + |rows| && |rows| <= limit && (rows != [] ==> next <= |log|)
        invariant forall i | 0 <= i < |rows| :: rows[i] == Numbered(after + i + 1, log[after + i])
      {
        rows := rows + [Numbered(next + 1, log[next])];
        next := next + 1;
      }
    }

    method ServeEvents(after: int, limit: int, env: Env) returns (reply: Reply)
      ensures (Contents(), reply) == Control(world, Contents(), ReadEvents(after, limit), env)
    {
      if after < 0 || limit < 1 || limit > 500 {
        return Failure(InvalidRequest);
      }
      var rows, next := ReadRows(after, limit);
      return Page(rows, next, |rows| == limit);
    }

    method ServeRead(id: Id, limit: int, env: Env) returns (reply: Reply)
      modifies this`channels
      ensures (Contents(), reply) == Control(world, old(Contents()), ReadChannel(id, limit), env)
    {
      if !Proper(id) {
        return Failure(ControlError);
      }
      if id !in channels {
        return Failure(NotFound);
      }
      var channel := channels[id];
      if channel.cursor < 0 || limit < 1 || limit > 500 {
        return Failure(InvalidRequest);
      }
      var rows, next := ReadRows(channel.cursor, limit);
      channels := channels[id := channel.(delivered := Max(channel.delivered, next))];
      return Page(rows, next, |rows| == limit);
    }

    method ServeAck(id: Id, cursor: int, env: Env) returns (reply: Reply)
      modifies this`channels
      ensures (Contents(), reply) == Control(world, old(Contents()), AckChannel(id, cursor), env)
    {
      if !Proper(id) {
        return Failure(ControlError);
      }
      if id !in channels {
        return Failure(NotFound);
      }
      var channel := channels[id];
      if cursor < channel.cursor || cursor > channel.delivered {
        return Failure(InvalidCursor);
      }
      channels := channels[id := channel.(cursor := cursor)];
      return ChannelReply(channels[id]);
    }

    /** `audit.verify` accepts the log exactly when every row is linked and hashed as `append` would have done. */
    method AuditVerify() returns (v: Verification)
      ensures v.Verified? <==> Chained(world, log)
      ensures v.Verified? ==> v == Verified(|log|, Head(log))
    {
      var previous := "";
      for i := 0 to |log|
        invariant previous == Head(log[..i])
        invariant forall k | 0 <= k < i :: Linked(world, log, k)
      {
        var row := log[i];
        var expected := world.rowHash(previous, row.time, row.event);
        if previous != row.previousHash || expected != row.hash {
          assert !Linked(world, log, i);
          return Mismatch;
        }
        previous := row.hash;
        assert log[..i + 1][i] == row;
      }
      assert log[..|log|] == log;
      return Verified(|log|, previous);
    }

    // ---- Dispatch

    /** Builds the set of requested effects; an unknown name throws. */
    method EffectSet(names: seq<EffectName>) returns (effects: Option<set<Effect>>)
      ensures effects.Some? <==> forall name | name in names :: name.Known?
      ensures effects.Some? ==> effects.value == set name | name in names && name.Known? :: name.effect
    {
      var out := {};
      for i := 0 to |names|
        invariant forall name | name in names[..i] :: name.Known?
        invariant out == set name | name in names[..i] && name.Known? :: name.effect
      {
        assert names[i] in names;
        if names[i].Unknown? {
          return None;
        }
        out := out + {names[i].effect};
        assert names[..i + 1] == names[..i] + [names[i]];
      }
      assert names[..|names|] == names;
      return Some(out);
    }

    /** The named effects and the one that the operation implies. */
    method Requested(req: Request) returns (effects: Option<set<Effect>>)
      ensures effects == if EffectsKnown(req) then Some(RequestedEffects(req)) else None
    {
      effects := EffectSet(req.effects.GetOr([]));
      if effects.None? {
        return;
      }
      var requested := effects.value;
      if req.op == Submit || req.op == Respond || req.op == StreamSubmit {
        requested := requested + {ExecuteRemote};
      }
      if req.op == Cancel || req.op == PushCreate || req.op == PushDelete {
        requested := requested + {WriteRemote};
      }
      if req.op == Materialize {
        requested := requested + {StoreExternal};
      }
      return Some(requested);
    }

    /** Walks the parent's chain and looks up the grant of every ancestor. */
    method AncestorsHold(chain: seq<Link>, now: nat -> int) returns (ok: bool)
      ensures ok <==> AncestorsGranted(approvals, chain, now)
    {
      for i := 0 to |chain|
        invariant forall k: nat | k < i :: Granted(approvals, chain[k].executionId, now(1 + k))
      {
        var id := chain[i].executionId;
        if id !in approvals || approvals[id].state != Approved || approvals[id].expiresAt.GetOr(0) <= now(1 + i) {
          assert !Granted(approvals, chain[i].executionId, now(1 + i));
          return false;
        }
      }
      return true;
    }

    method CheckLineage(req: Request, id: Id, requested: set<Effect>, now: nat -> int) returns (v: Verdict)
      ensures v == Lineage(Contents(), req, id, requested, now)
    {
      var chain := [];
      if req.parentId != "" {
        if req.parentId !in executions {
          return Refused(Failure(InvalidDelegation));
        }
        var parent := executions[req.parentId];
        if Delegate !in parent.effects || !(requested <= parent.effects) {
          return Refused(Failure(PermissionDenied));
        }
        chain := parent.chain;
        var ok := AncestorsHold(chain, now);
        if !ok {
          return Refused(Failure(PermissionDenied));
        }
        if |chain| >= 16 {
          return Refused(Failure(InvalidDelegation));
        }
      }
      return Cleared(requested, chain + [Link(req.agent, id)]);
    }

    /** A repeated request id gets the stored response, if its parameters are the same. */
    method AnswerRepeat(prior: Execution, id: Id, req: Request) returns (reply: Reply)
      ensures reply == PriorReply(world, prior, id, req)
    {
      var hash := RequestHash(world, req);
      if prior.requestHash != hash {
        return Failure(IdempotencyConflict);
      }
      if prior.result.Some? {
        return Answer(prior.result.value);
      }
      return OutcomeUncertain(id);
    }

    /** The lease must be live and match in owner, token and fence; a missing text throws where it is compared. */
    method CheckLease(claim: LeaseClaim, now: int) returns (problem: Option<FailureKind>)
      ensures problem == LeaseProblem(Contents(), claim, now)
    {
      if !Proper(claim.resource) {
        return Some(ControlError);
      }
      if claim.resource !in leases || leases[claim.resource].expiresAt <= now {
        return Some(LeaseLost);
      }
      var lease := leases[claim.resource];
      if !Proper(claim.owner) {
        return Some(ControlError);
      }
      if lease.owner != claim.owner {
        return Some(LeaseLost);
      }
      if !Proper(claim.token) {
        return Some(ControlError);
      }
      if lease.token != claim.token || lease.fence != claim.fence {
        return Some(LeaseLost);
      }
      return None;
    }

    /** An approval must be for this request, granted, and not expired. */
    method CheckGrant(approval: Approval, req: Request, now: int) returns (problem: Option<Reply>)
      ensures problem == GrantProblem(world, approval, req, now)
    {
      var hash := RequestHash(world, req);
      if approval.requestHash != hash {
        return Some(Failure(IdempotencyConflict));
      }
      if approval.state != Approved {
        return Some(ApprovalNeeded(approval.state == Denied, approval));
      }
      if approval.expiresAt.None? {
        return Some(Failure(ControlError));
      }
      if approval.expiresAt.value <= now {
        return Some(Failure(GrantExpired));
      }
      return None;
    }

    method CheckRequest(req: Request, now: nat -> int) returns (v: Verdict)
      ensures v == Screen(world, Contents(), req, now)
    {
      var id := req.requestId.GetOr("");
      if !Proper(id) {
        return Refused(Failure(ControlError));
      }
      if id in executions {
        var reply := AnswerRepeat(executions[id], id, req);
        return Refused(reply);
      }
      if req.lease.Some? {
        var problem := CheckLease(req.lease.value, now(0));
        if problem.Some? {
          return Refused(Failure(problem.value));
        }
      }
      if req.continuationId != "" {
        if req.continuationId !in continuations || continuations[req.continuationId].state != Awaiting
           || continuations[req.continuationId].taskId != req.taskId {
          return Refused(Failure(InvalidContinuation));
        }
      }
      if req.retryOf != "" && (req.retryOf !in executions || executions[req.retryOf].state != Failed) {
        return Refused(Failure(InvalidRetry));
      }
      if req.agent != "" {
        var h := HealthRecord(req.agent);
        if h.quarantined {
          return Refused(Failure(AgentIsQuarantined));
        }
      }
      var effects := Requested(req);
      if effects.None? {
        return Refused(Failure(ControlError));
      }
      v := CheckLineage(req, id, effects.value, now);
      if v.Cleared? && req.sessionId != "" && req.sessionId !in sessions {
        return Refused(Failure(NotFound));
      }
    }

    method StartDispatch(req: Request, id: Id, effects: set<Effect>, chain: seq<Link>, env: Env)
      modifies this`executions, this`log
      ensures Contents() == Start(world, old(Contents()), req, id, effects, chain, env)
    {
      var t := |chain|;
      executions := executions[id := NewExecution(world, req, effects, chain, env.now(t + 1))];
      AppendEvent(ExecutionStarted(id, req.agent, req.sessionId, RequestHash(world, req), effects, chain),
                  env.now(t + 2));
    }

    /** Looks up the approval of a gated request, or asks for one. */
    method CheckApproval(req: Request, id: Id, effects: set<Effect>, chain: seq<Link>, env: Env)
      returns (reply: Option<Reply>)
      modifies this`approvals, this`log
      ensures id in old(approvals) ==>
                Contents() == old(Contents()) && reply == GrantProblem(world, approvals[id], req, env.now(|chain|))
      ensures id !in old(approvals) ==>
                && Contents() == Ask(world, old(Contents()), req, id, effects, chain, env)
                && reply == Some(ApprovalNeeded(false, NewApproval(world, req, effects)))
    {
      if id !in approvals {
        approvals := approvals[id := NewApproval(world, req, effects)];
        AppendEvent(ApprovalRequired(id, effects, req.agent), env.now(|chain|));
        return Some(ApprovalNeeded(false, approvals[id]));
      }
      reply := CheckGrant(approvals[id], req, env.now(|chain|));
    }

    method BeginDispatch(req: Request, env: Env) returns (reply: Option<Reply>)
      modifies this`executions, this`approvals, this`log
      ensures (Contents(), reply) == Begin(world, enforce, old(Contents()), req, env)
    {
      var verdict := CheckRequest(req, env.now);
      if verdict.Refused? {
        return Some(verdict.reply);
      }
      var id := req.requestId.GetOr("");
      if enforce || req.effects.Some? || req.parentId != "" {
        reply := CheckApproval(req, id, verdict.effects, verdict.chain, env);
        if reply.Some? {
          return;
        }
      }
      StartDispatch(req, id, verdict.effects, verdict.chain, env);
      return None;
    }

    method RecordOutcome(id: Id, result: Result, now: int) returns (execution: Execution)
      requires id in executions
      modifies this`executions
      ensures execution == Finished(old(executions)[id], result, now)
      ensures executions == old(executions)[id := execution]
    {
      var uncertain := IsUncertain(result);
      execution := executions[id].(state := if uncertain then Uncertain else if result.ok then Delivered else Failed);
      if !uncertain {
        execution := execution.(result := Some(result));
      }
      execution := execution.(finishedAt := Some(now));
      if result.taskId.Some? {
        execution := execution.(taskId := result.taskId.value);
      }
      if result.contextId.Some? {
        execution := execution.(contextId := result.contextId);
      }
      executions := executions[id := execution];
    }

    method Close(execution: Execution, id: Id, ok: bool, now: int)
      modifies this`continuations, this`log
      ensures Contents() == CloseContinuation(world, old(Contents()), execution, id, ok, now)
    {
      var key := execution.continuationId;
      if key != "" && ok {
        var continuation := if key in continuations then continuations[key]
                            else Continuation("", OtherKind(""), Awaiting, None);
        continuation := continuation.(state := Answered, executionId := Some(id));
        continuations := continuations[key := continuation];
        AppendEvent(ContinuationDelivered(key, id), now);
      }
    }

    method CountOutcome(agent: string, uncertain: bool, ok: bool)
      modifies this`health
      ensures health == if agent == "" then old(health)
                        else old(health)[agent := HealthAfter(HealthOf(old(Contents()), agent),
                                           if uncertain then Uncertain else if ok then Delivered else Failed)]
    {
      if agent != "" {
        var h := HealthRecord(agent);
        if uncertain {
          h := h.(failures := h.failures + 1);
        } else if ok {
          h := h.(failures := 0);
        }
        if h.failures >= 3 {
          h := h.(quarantined := true);
        }
        health := health[agent := h];
      }
    }

    method FinishDispatch(id: Id, result: Result, env: Env)
      requires id in executions
      modifies this`executions, this`continuations, this`health, this`log
      ensures Contents() == Finish(world, old(Contents()), id, result, env)
    {
      var execution := RecordOutcome(id, result, env.now(0));
      Close(execution, id, result.ok, env.now(1));
      CountOutcome(execution.agent, IsUncertain(result), result.ok);
      AppendEvent(ExecutionFinished(id, execution.state, execution.taskId), env.now(2));
    }

    method SettleDispatch(id: Id, dispatched: Dispatched, env: Env) returns (reply: Reply)
      requires id in executions
      modifies this`executions, this`continuations, this`health, this`log
      ensures (Contents(), reply) == Settle(world, old(Contents()), id, dispatched, env)
    {
      var result := match dispatched {
        case Returned(r) => r
        case Raised => Result(false, DispatchException, None, None, "", "")
      };
      result := result.(executionId := id);
      FinishDispatch(id, result, env);
      return Answer(result);
    }

    /** One mutating request from end to end, with no other thread in between. */
    method HandleMutation(req: Request, first: Env, dispatched: Dispatched, last: Env) returns (reply: Reply)
      modifies this
      ensures (Contents(), reply) == Handle(world, enforce, old(Contents()), req, first, dispatched, last)
    {
      var request := req;
      if request.requestId.None? {
        if enforce || request.effects.Some? {
          return Failure(InvalidRequest);
        }
        request := request.(requestId := Some(first.newId));
      }
      assert request == req.(requestId := Some(req.requestId.GetOr(first.newId)));
      var refusal := BeginDispatch(request, first);
      if refusal.Some? {
        return refusal.value;
      }
      AdmittedIsRecorded(world, enforce, old(Contents()), request, first);
      reply := SettleDispatch(request.requestId.value, dispatched, last);
    }
  }
}
