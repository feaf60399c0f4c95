/** The log is a complete journal: it passes verification, and replaying it rebuilds the records. */
module Journal {
  import opened Common
  import opened Ordering
  import opened Records
  import opened Audit
  import opened Protocol
  import opened Runs

  // ---- Every reachable log passes audit.verify

  lemma {:induction false} MarkAllKeepsChain(w: World, db: Db, ids: seq<Id>, now: nat -> int)
    requires Chained(w, db.log)
    ensures Chained(w, MarkAll(w, db, ids, now).log)
  {
    if ids != [] {
      var n := |ids| - 1;
      MarkAllKeepsChain(w, db, ids[..n], now);
      AppendKeepsChain(w, MarkAll(w, db, ids[..n], now).log, ExecutionUncertain(ids[n]), now(n));
    }
  }

  lemma BeginKeepsChain(w: World, enforce: bool, db: Db, req: Request, env: Env)
    requires Chained(w, db.log)
    ensures Chained(w, Begin(w, enforce, db, req, env).0.log)
  {
    BeginCases(w, enforce, db, req, env);
    var v := Screen(w, db, req, env.now);
    if v.Cleared? {
      var id := req.requestId.GetOr("");
      AppendKeepsChain(w, db.log, ApprovalRequired(id, v.effects, req.agent), env.now(|v.chain|));
      var started := ExecutionStarted(id, req.agent, req.sessionId, RequestHash(w, req), v.effects, v.chain);
      AppendKeepsChain(w, db.log, started, env.now(|v.chain| + 2));
    }
  }

  lemma FinishKeepsChain(w: World, db: Db, id: Id, result: Result, env: Env)
    requires id in db.executions && Chained(w, db.log)
    ensures Chained(w, Finish(w, db, id, result, env).log)
  {
    var e := Finished(db.executions[id], result, env.now(0));
    var db1 := db.(executions := db.executions[id := e]);
    AppendKeepsChain(w, db1.log, ContinuationDelivered(e.continuationId, id), env.now(1));
    var db2 := CloseContinuation(w, db1, e, id, result.ok, env.now(1));
    AppendKeepsChain(w, db2.log, ExecutionFinished(id, e.state, e.taskId), env.now(2));
  }

  lemma PerformKeepsChain(w: World, db: Db, plan: Plan)
    requires Chained(w, db.log)
    ensures Chained(w, Perform(w, db, plan).log)
  {
    if plan.event.Some? {
      AppendKeepsChain(w, db.log, plan.event.value, plan.time);
    }
  }

  lemma NextKeepsChain(w: World, s: System, l: Label)
    requires Chained(w, s.db.log)
    ensures Chained(w, Next(w, s, l).db.log)
  {
    match l
    case ControlStep(command, env) => PerformKeepsChain(w, s.db, PlanFor(s.db, command, env));
    case BeginStep(req, env) => BeginKeepsChain(w, s.enforce, s.db, req, env);
    case FinishStep(id, result, env) =>
      if id in s.inflight && id in s.db.executions {
        FinishKeepsChain(w, s.db, id, result.(executionId := id), env);
      }
    case AbandonStep(_, _) =>
    case OutsideStep(text, env) => AppendKeepsChain(w, s.db.log, Outside(text), env.now(0));
    case RestartStep(_, env) => MarkAllKeepsChain(w, s.db, Ascending(s.db.executions.Keys), env.now);
  }

  /** Whatever happened, `audit.verify` accepts the log. */
  lemma {:induction false} ReachableLogsVerify(w: World, labels: seq<Label>)
    ensures Chained(w, Run(w, labels).db.log)
  {
    if labels != [] {
      var n := |labels| - 1;
      RunLast(w, labels);
      ReachableLogsVerify(w, labels[..n]);
      NextKeepsChain(w, Run(w, labels[..n]), labels[n]);
    }
  }

  // ---- Replaying the log

  datatype ExecutionView = ExecutionView(
    state: ExecutionState, agent: string, sessionId: Id, requestHash: string, effects: set<Effect>, chain: seq<Link>,
    finishedTask: Option<string>)

  datatype ApprovalView = ApprovalView(
    state: ApprovalState, effects: set<Effect>, agent: string, expiresAt: Option<int>)

  datatype LeaseView = LeaseView(owner: string, fence: int)

  /** What the events say about the records. */
  datatype View = View(
    executions: map<Id, ExecutionView>, approvals: map<Id, ApprovalView>, leases: map<string, LeaseView>,
    continuations: map<Id, Continuation>, sessions: set<Id>, provenance: map<string, string>,
    health: map<string, Health>)

  const EmptyView := View(map[], map[], map[], map[], {}, map[], map[])

  function ViewHealth(v: View, agent: string): Health {
    if agent in v.health then v.health[agent] else Health(0, false)
  }

  /** An outcome counts against, or in favour of, the agent that was dispatched to. */
  function ApplyOutcome(v: View, id: Id, state: ExecutionState, taskId: string): View {
    if id !in v.executions then v
    else
      var agent := v.executions[id].agent;
      v.(executions := v.executions[id := v.executions[id].(state := state, finishedTask := Some(taskId))],
         health := if agent == "" then v.health
                   else v.health[agent := HealthAfter(ViewHealth(v, agent), state)])
  }

  /** A delivery closes its continuation; one that was never recorded is bare. */
  function ApplyDelivery(continuations: map<Id, Continuation>, id: Id, executionId: Id): map<Id, Continuation> {
    var known := if id in continuations then continuations[id] else Continuation("", OtherKind(""), Awaiting, None);
    continuations[id := known.(state := Answered, executionId := Some(executionId))]
  }

  function Apply(v: View, event: Event): View {
    match event
    case ExecutionStarted(id, agent, sessionId, hash, effects, chain) =>
      v.(executions := v.executions[id := ExecutionView(Dispatching, agent, sessionId, hash, effects, chain, None)])
    case ExecutionUncertain(id) =>
      if id in v.executions then v.(executions := v.executions[id := v.executions[id].(state := Uncertain)]) else v
    case ExecutionFinished(id, state, taskId) => ApplyOutcome(v, id, state, taskId)
    case ContinuationRequired(id, taskId, kind) =>
      v.(continuations := v.continuations[id := Continuation(taskId, kind, Awaiting, None)])
    case ContinuationDelivered(id, executionId) =>
      v.(continuations := ApplyDelivery(v.continuations, id, executionId))
    case SessionCreated(id) => v.(sessions := v.sessions + {id})
    case LeaseChanged(_, resource, owner, fence) => v.(leases := v.leases[resource := LeaseView(owner, fence)])
    case ApprovalRequired(id, effects, agent) =>
      v.(approvals := v.approvals[id := ApprovalView(Pending, effects, agent, None)])
    case ApprovalDecided(id, decision, until) =>
      if id !in v.approvals then v
      else v.(approvals := v.approvals[id := v.approvals[id].(state := decision, expiresAt := Some(until))])
    case ApprovalRevoked(id) =>
      if id in v.approvals then v.(approvals := v.approvals[id := v.approvals[id].(state := Revoked)]) else v
    case AgentQuarantined(agent) =>
      v.(health := v.health[agent := ViewHealth(v, agent).(quarantined := true)])
    case AgentReleased(agent) => v.(health := v.health[agent := Health(0, false)])
    case ProvenanceRecorded(agent, sha256) => v.(provenance := v.provenance[agent := sha256])
    case Outside(_) => v
  }

  function Replay(log: seq<Row>): View {
    if log == [] then EmptyView else Apply(Replay(log[..|log| - 1]), log[|log| - 1].event)
  }

  lemma ReplayAppend(w: World, log: seq<Row>, event: Event, time: int)
    ensures Replay(Append(w, log, event, time)) == Apply(Replay(log), event)
  {
  }

  function SeeExecution(e: Execution): ExecutionView {
    ExecutionView(e.state, e.agent, e.sessionId, e.requestHash, e.effects, e.chain,
                  if e.finishedAt.Some? then Some(e.taskId) else None)
  }

  function SeeApproval(a: Approval): ApprovalView { ApprovalView(a.state, a.effects, a.agent, a.expiresAt) }
  function SeeLease(l: Lease): LeaseView { LeaseView(l.owner, l.fence) }
  function SeeProvenance(p: Provenance): string { p.sha256 }

  /** The same facts, read off the records. */
  function ViewOf(db: Db): View {
    View(Project(db.executions, SeeExecution), Project(db.approvals, SeeApproval), Project(db.leases, SeeLease),
         db.continuations, db.sessions.Keys, Project(db.provenance, SeeProvenance), db.health)
  }

  ghost predicate Complete(db: Db) {
    Replay(db.log) == ViewOf(db)
  }

  /** The event of a control operation tells what its write does. */
  ghost predicate Tells(db: Db, write: Write, event: Option<Event>) {
    match write
    case Nothing => event == None
    case WriteChannel(_, _) => event == None
    case WriteContinuation(id, c) =>
      && event.Some? && event.value.ContinuationRequired? && event.value.id == id
      && c == Continuation(event.value.taskId, event.value.kind, Awaiting, None)
    case WriteSession(id, _) => event == Some(SessionCreated(id))
    case WriteLease(r, l) =>
      event.Some? && event.value.LeaseChanged? && event.value.resource == r && event.value.owner == l.owner
      && event.value.fence == l.fence
    case WriteApproval(id, a) =>
      && event.Some? && (event.value.ApprovalDecided? || event.value.ApprovalRevoked?) && event.value.id == id
      && id in db.approvals
      && a == if event.value.ApprovalRevoked? then db.approvals[id].(state := Revoked)
              else db.approvals[id].(state := event.value.decision, expiresAt := Some(event.value.expiresAt))
    case WriteHealth(agent, h) =>
      || (event == Some(AgentQuarantined(agent)) && h == HealthOf(db, agent).(quarantined := true))
      || (event == Some(AgentReleased(agent)) && h == Health(0, false))
    case WriteProvenance(agent, p) => event == Some(ProvenanceRecorded(agent, p.sha256))
  }

  lemma PlansTell(db: Db, command: Command, env: Env)
    ensures Tells(db, PlanFor(db, command, env).write, PlanFor(db, command, env).event)
  {
  }

  lemma StoreApplies(db: Db, write: Write, event: Option<Event>)
    requires Tells(db, write, event)
    ensures ViewOf(Store(db, write)) == match event case None => ViewOf(db) case Some(e) => Apply(ViewOf(db), e)
  {
    match write
    case Nothing =>
    case WriteChannel(_, _) =>
    case WriteContinuation(_, _) =>
    case WriteSession(id, name) => assert db.sessions[id := name].Keys == db.sessions.Keys + {id};
    case WriteLease(r, l) => ProjectUpdate(db.leases, r, l, SeeLease);
    case WriteApproval(id, a) => ApprovalApplies(db, id, a, event.value);
    case WriteHealth(agent, h) => HealthApplies(db, agent, h, event.value);
    case WriteProvenance(agent, p) => ProjectUpdate(db.provenance, agent, p, SeeProvenance);
  }

  lemma ApprovalApplies(db: Db, id: Id, a: Approval, event: Event)
    requires Tells(db, WriteApproval(id, a), Some(event))
    ensures ViewOf(Store(db, WriteApproval(id, a))) == Apply(ViewOf(db), event)
  {
    ProjectUpdate(db.approvals, id, a, SeeApproval);
  }

  lemma HealthApplies(db: Db, agent: string, h: Health, event: Event)
    requires Tells(db, WriteHealth(agent, h), Some(event))
    ensures ViewOf(Store(db, WriteHealth(agent, h))) == Apply(ViewOf(db), event)
  {
  }

  lemma ControlIsComplete(w: World, db: Db, command: Command, env: Env)
    requires Complete(db)
    ensures Complete(Control(w, db, command, env).0)
  {
    var plan := PlanFor(db, command, env);
    PlansTell(db, command, env);
    StoreApplies(db, plan.write, plan.event);
    StoreFrame(db, plan.write);
    assert ViewOf(Control(w, db, command, env).0) == ViewOf(Store(db, plan.write));
    if plan.event.Some? {
      ReplayAppend(w, db.log, plan.event.value, plan.time);
    }
  }

  lemma BeginIsComplete(w: World, enforce: bool, db: Db, req: Request, env: Env)
    requires Complete(db)
    ensures Complete(Begin(w, enforce, db, req, env).0)
  {
    BeginCases(w, enforce, db, req, env);
    var v := Screen(w, db, req, env.now);
    if v.Cleared? {
      var id := req.requestId.GetOr("");
      StartIsComplete(w, db, req, id, v.effects, v.chain, env);
      AskIsComplete(w, db, req, id, v.effects, v.chain, env);
    }
  }

  lemma StartIsComplete(w: World, db: Db, req: Request, id: Id, effects: set<Effect>, chain: seq<Link>, env: Env)
    requires Complete(db)
    ensures Complete(Start(w, db, req, id, effects, chain, env))
  {
    var e := NewExecution(w, req, effects, chain, env.now(|chain| + 1));
    ProjectUpdate(db.executions, id, e, SeeExecution);
    ReplayAppend(w, db.log, ExecutionStarted(id, req.agent, req.sessionId, RequestHash(w, req), effects, chain),
                 env.now(|chain| + 2));
  }

  lemma AskIsComplete(w: World, db: Db, req: Request, id: Id, effects: set<Effect>, chain: seq<Link>, env: Env)
    requires Complete(db)
    ensures Complete(Ask(w, db, req, id, effects, chain, env))
  {
    ProjectUpdate(db.approvals, id, NewApproval(w, req, effects), SeeApproval);
    ReplayAppend(w, db.log, ApprovalRequired(id, effects, req.agent), env.now(|chain|));
  }

  lemma FinishIsComplete(w: World, db: Db, id: Id, result: Result, env: Env)
    requires Complete(db) && id in db.executions
    ensures Complete(Finish(w, db, id, result, env))
  {
    var e := Finished(db.executions[id], result, env.now(0));
    var db1 := db.(executions := db.executions[id := e]);
    var db2 := CloseContinuation(w, db1, e, id, result.ok, env.now(1));
    ProjectUpdate(db.executions, id, e, SeeExecution);
    CloseApplies(w, db1, e, id, result.ok, env.now(1), ViewOf(db));
    ReplayAppend(w, db2.log, ExecutionFinished(id, e.state, e.taskId), env.now(2));
  }

  /** Closing the continuation is journalled; the pending outcome of the execution is not yet. */
  lemma CloseApplies(w: World, db: Db, e: Execution, id: Id, ok: bool, now: int, v: View)
    requires Replay(db.log) == v && ViewOf(db) == v.(executions := ViewOf(db).executions)
    ensures var db2 := CloseContinuation(w, db, e, id, ok, now);
            && Replay(db2.log).executions == v.executions
            && ViewOf(db2) == Replay(db2.log).(executions := ViewOf(db).executions)
            && db2.executions == db.executions && db2.health == db.health
  {
    var db2 := CloseContinuation(w, db, e, id, ok, now);
    if e.continuationId != "" && ok {
      ReplayAppend(w, db.log, ContinuationDelivered(e.continuationId, id), now);
    }
  }

  lemma {:induction false} MarkAllIsComplete(w: World, db: Db, ids: seq<Id>, now: nat -> int)
    requires Complete(db)
    ensures Complete(MarkAll(w, db, ids, now))
  {
    if ids != [] {
      var n := |ids| - 1;
      MarkAllIsComplete(w, db, ids[..n], now);
      MarkIsComplete(w, MarkAll(w, db, ids[..n], now), ids[n], now(n));
    }
  }

  lemma MarkIsComplete(w: World, db: Db, id: Id, now: int)
    requires Complete(db)
    ensures Complete(MarkUncertain(w, db, id, now))
  {
    if id in db.executions && db.executions[id].state == Dispatching {
      ProjectUpdate(db.executions, id, db.executions[id].(state := Uncertain), SeeExecution);
      ReplayAppend(w, db.log, ExecutionUncertain(id), now);
    }
  }

  lemma NextIsComplete(w: World, s: System, l: Label)
    requires Complete(s.db)
    ensures Complete(Next(w, s, l).db)
  {
    match l
    case ControlStep(command, env) => ControlIsComplete(w, s.db, command, env);
    case BeginStep(req, env) => BeginIsComplete(w, s.enforce, s.db, req, env);
    case FinishStep(id, result, env) =>
      if id in s.inflight && id in s.db.executions {
        FinishIsComplete(w, s.db, id, result.(executionId := id), env);
      }
    case AbandonStep(_, _) =>
    case OutsideStep(text, env) => ReplayAppend(w, s.db.log, Outside(text), env.now(0));
    case RestartStep(_, env) => MarkAllIsComplete(w, s.db, Ascending(s.db.executions.Keys), env.now);
  }

  /** In every reachable state, replaying the log rebuilds the records, quarantine and failure counts included. */
  lemma {:induction false} LogIsACompleteJournal(w: World, labels: seq<Label>)
    ensures Complete(Run(w, labels).db)
  {
    if labels != [] {
      var n := |labels| - 1;
      RunLast(w, labels);
      LogIsACompleteJournal(w, labels[..n]);
      NextIsComplete(w, Run(w, labels[..n]), labels[n]);
    }
  }
}
