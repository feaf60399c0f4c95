/**
 * Whole runs: any interleaving of transactions by any number of threads, dispatches that end late or never,
 * crashes and restarts. A run is a sequence of labels; the state after it is computed by `Run`.
 */
module Runs {
  import opened Common
  import opened Ordering
  import opened Records
  import opened Audit
  import opened Protocol

  /** `inflight` holds the ids whose thread is between `begin` and `finish`; a crash forgets them. */
  datatype System = System(enforce: bool, db: Db, inflight: set<Id>)

  datatype Label =
    | ControlStep(command: Command, env: Env)
    | BeginStep(req: Request, env: Env)
    | FinishStep(id: Id, result: Result, env: Env)
    | AbandonStep(id: Id, env: Env)
    | OutsideStep(text: string, env: Env)
    | RestartStep(policy: bool, env: Env)

  const Initial := System(false, EmptyDb, {})

  ghost function Next(w: World, s: System, l: Label): System {
    match l
    case ControlStep(command, env) => s.(db := Control(w, s.db, command, env).0)
    case BeginStep(req, env) =>
      var (db, reply) := Begin(w, s.enforce, s.db, req, env);
      s.(db := db, inflight := if reply.None? then s.inflight + {req.requestId.GetOr("")} else s.inflight)
    case FinishStep(id, result, env) =>
      if id in s.inflight && id in s.db.executions then
        s.(db := Finish(w, s.db, id, result.(executionId := id), env), inflight := s.inflight - {id})
      else s
    case AbandonStep(id, _) => s.(inflight := s.inflight - {id})
    case OutsideStep(text, env) => s.(db := s.db.(log := Append(w, s.db.log, Outside(text), env.now(0))))
    case RestartStep(policy, env) => System(policy, Recover(w, s.db, env.now), {})
  }

  ghost function Run(w: World, labels: seq<Label>): System
    decreases |labels|, 1
  {
    if labels == [] then Initial else LastStep(w, labels)
  }

  ghost function LastStep(w: World, labels: seq<Label>): System
    requires labels != []
    decreases |labels|, 0
  {
    Next(w, Run(w, labels[..|labels| - 1]), labels[|labels| - 1])
  }

  /** The request of label `i` is admitted, so its thread invokes the dispatch. */
  ghost predicate Admits(w: World, labels: seq<Label>, i: nat)
    requires i < |labels|
  {
    labels[i].BeginStep? && AdmitsNow(w, Run(w, labels[..i]), labels[i].req, labels[i].env)
  }

  ghost predicate AdmitsNow(w: World, s: System, req: Request, env: Env) {
    Begin(w, s.enforce, s.db, req, env).1.None?
  }

  /** The clock does not go backwards, neither within a transaction nor from one to the next. */
  ghost predicate Timely(labels: seq<Label>) {
    && (forall i, k: nat, m: nat | 0 <= i < |labels| && k <= m :: labels[i].env.now(k) <= labels[i].env.now(m))
    && (forall i, j, k: nat, m: nat | 0 <= i < j < |labels| :: labels[i].env.now(k) <= labels[j].env.now(m))
  }

  lemma RunLast(w: World, labels: seq<Label>)
    requires labels != []
    ensures Run(w, labels) == Next(w, Run(w, labels[..|labels| - 1]), labels[|labels| - 1])
  {
  }

  lemma RunStep(w: World, labels: seq<Label>, i: nat)
    requires i < |labels|
    ensures Run(w, labels[..i + 1]) == Next(w, Run(w, labels[..i]), labels[i])
  {
    RunLast(w, labels[..i + 1]);
    assert labels[..i + 1][..i] == labels[..i];
  }

  // ---- What never changes

  /** An execution leaves DISPATCHING at most once, and only its outcome fields move. */
  ghost predicate ExecutionLater(x: Execution, y: Execution) {
    || y == x
    || (&& x.state == Dispatching && y.state != Dispatching
        && y == x.(state := y.state, result := y.result, finishedAt := y.finishedAt, taskId := y.taskId,
                   contextId := y.contextId))
  }

  /** An approval keeps what it is bound to; a decision is only ever followed by a revocation. */
  ghost predicate ApprovalLater(x: Approval, y: Approval) {
    && y == x.(state := y.state, expiresAt := y.expiresAt)
    && (x.state != Pending ==> y.expiresAt == x.expiresAt && (y.state == x.state || y.state == Revoked))
  }

  ghost predicate ChannelLater(x: Channel, y: Channel) {
    x.cursor <= y.cursor && x.delivered <= y.delivered
  }

  ghost predicate LeaseLater(x: Lease, y: Lease) {
    x.fence <= y.fence && (x.fence == y.fence ==> x.owner == y.owner && x.token == y.token)
  }

  /** The kinds whose contents are free: no record of them disappears. */
  ghost predicate KeepsRecords(a: Db, b: Db) {
    && a.continuations.Keys <= b.continuations.Keys && a.sessions.Keys <= b.sessions.Keys
    && a.health.Keys <= b.health.Keys && a.provenance.Keys <= b.provenance.Keys
  }

  ghost predicate Evolves(a: Db, b: Db) {
    && KeepsRecords(a, b)
    && (forall id | id in a.executions :: id in b.executions && ExecutionLater(a.executions[id], b.executions[id]))
    && (forall id | id in a.approvals :: id in b.approvals && ApprovalLater(a.approvals[id], b.approvals[id]))
    && (forall id | id in a.channels :: id in b.channels && ChannelLater(a.channels[id], b.channels[id]))
    && (forall r | r in a.leases :: r in b.leases && LeaseLater(a.leases[r], b.leases[r]))
    && |a.log| <= |b.log| && b.log[..|a.log|] == a.log
  }

  lemma EvolvesReflexive(a: Db)
    ensures Evolves(a, a)
  {
  }

  lemma EvolvesTransitive(a: Db, b: Db, c: Db)
    requires Evolves(a, b) && Evolves(b, c)
    ensures Evolves(a, c)
  {
    assert c.log[..|a.log|] == c.log[..|b.log|][..|a.log|];
  }

  lemma PutExecution(db: Db, id: Id, e: Execution, log: seq<Row>)
    requires id in db.executions ==> ExecutionLater(db.executions[id], e)
    requires |db.log| <= |log| && log[..|db.log|] == db.log
    ensures Evolves(db, db.(executions := db.executions[id := e], log := log))
  {
  }

  lemma PutApproval(db: Db, id: Id, a: Approval, log: seq<Row>)
    requires id in db.approvals ==> ApprovalLater(db.approvals[id], a)
    requires |db.log| <= |log| && log[..|db.log|] == db.log
    ensures Evolves(db, db.(approvals := db.approvals[id := a], log := log))
  {
  }

  lemma PutLease(db: Db, r: string, lease: Lease, log: seq<Row>)
    requires r in db.leases ==> LeaseLater(db.leases[r], lease)
    requires |db.log| <= |log| && log[..|db.log|] == db.log
    ensures Evolves(db, db.(leases := db.leases[r := lease], log := log))
  {
  }

  lemma PutChannel(db: Db, id: Id, c: Channel)
    requires id in db.channels ==> ChannelLater(db.channels[id], c)
    ensures Evolves(db, db.(channels := db.channels[id := c]))
  {
  }

  /** The other record kinds are not constrained. */
  lemma PutOther(db: Db, db': Db)
    requires db'.executions == db.executions && db'.approvals == db.approvals
    requires db'.channels == db.channels && db'.leases == db.leases && KeepsRecords(db, db')
    requires |db.log| <= |db'.log| && db'.log[..|db.log|] == db.log
    ensures Evolves(db, db')
  {
  }

  lemma StartEvolves(w: World, db: Db, req: Request, id: Id, effects: set<Effect>, chain: seq<Link>, env: Env)
    ensures id !in db.executions ==> Evolves(db, Start(w, db, req, id, effects, chain, env))
  {
    if id !in db.executions {
      var db' := Start(w, db, req, id, effects, chain, env);
      PutExecution(db, id, db'.executions[id], db'.log);
    }
  }

  lemma AskEvolves(w: World, db: Db, req: Request, id: Id, effects: set<Effect>, chain: seq<Link>, env: Env)
    ensures id !in db.approvals ==> Evolves(db, Ask(w, db, req, id, effects, chain, env))
  {
    if id !in db.approvals {
      var db' := Ask(w, db, req, id, effects, chain, env);
      PutApproval(db, id, db'.approvals[id], db'.log);
    }
  }

  lemma BeginEvolves(w: World, enforce: bool, db: Db, req: Request, env: Env)
    ensures Evolves(db, Begin(w, enforce, db, req, env).0)
  {
    var id := req.requestId.GetOr("");
    PutOther(db, db);
    BeginCases(w, enforce, db, req, env);
    match Screen(w, db, req, env.now)
    case Refused(_) =>
    case Cleared(effects, chain) =>
      StartEvolves(w, db, req, id, effects, chain, env);
      AskEvolves(w, db, req, id, effects, chain, env);
  }

  lemma CloseEvolves(w: World, db: Db, e: Execution, id: Id, ok: bool, now: int)
    ensures Evolves(db, CloseContinuation(w, db, e, id, ok, now))
  {
    PutOther(db, CloseContinuation(w, db, e, id, ok, now));
  }

  lemma NoteEvolves(w: World, db: Db, e: Execution, id: Id, now: int)
    ensures Evolves(db, Conclude(w, db, e, id, now))
  {
    PutOther(db, Conclude(w, db, e, id, now));
  }

  lemma FinishEvolves(w: World, db: Db, id: Id, result: Result, env: Env)
    requires id in db.executions && db.executions[id].state == Dispatching
    ensures Evolves(db, Finish(w, db, id, result, env))
  {
    var e := Finished(db.executions[id], result, env.now(0));
    var db1 := db.(executions := db.executions[id := e]);
    PutExecution(db, id, e, db.log);
    var db2 := CloseContinuation(w, db1, e, id, result.ok, env.now(1));
    CloseEvolves(w, db1, e, id, result.ok, env.now(1));
    EvolvesTransitive(db, db1, db2);
    NoteEvolves(w, db2, e, id, env.now(2));
    EvolvesTransitive(db, db2, Conclude(w, db2, e, id, env.now(2)));
  }

  lemma {:induction false} RecoverEvolves(w: World, db: Db, ids: seq<Id>, now: nat -> int)
    ensures Evolves(db, MarkAll(w, db, ids, now))
  {
    if ids == [] {
      PutOther(db, db);
    } else {
      var n := |ids| - 1;
      RecoverEvolves(w, db, ids[..n], now);
      var db1 := MarkAll(w, db, ids[..n], now);
      if ids[n] in db1.executions && db1.executions[ids[n]].state == Dispatching {
        PutExecution(db1, ids[n], db1.executions[ids[n]].(state := Uncertain),
                     Append(w, db1.log, ExecutionUncertain(ids[n]), now(n)));
      } else {
        PutOther(db1, db1);
      }
      EvolvesTransitive(db, db1, MarkAll(w, db, ids, now));
    }
  }

  /** What a control operation stores continues the record that it replaces. */
  ghost predicate Continues(db: Db, write: Write) {
    match write
    case WriteLease(r, lease) => r in db.leases ==> LeaseLater(db.leases[r], lease)
    case WriteApproval(id, a) => id in db.approvals && ApprovalLater(db.approvals[id], a)
    case WriteChannel(id, c) => 0 <= c.cursor <= c.delivered && (id in db.channels ==> ChannelLater(db.channels[id], c))
    case _ => true
  }

  lemma PlansContinue(db: Db, command: Command, env: Env)
    requires ChannelsOrdered(db)
    ensures Continues(db, PlanFor(db, command, env).write)
  {
  }

  lemma StoreEvolves(db: Db, write: Write)
    requires Continues(db, write)
    ensures Evolves(db, Store(db, write))
  {
    match write
    case WriteLease(r, lease) => PutLease(db, r, lease, db.log);
    case WriteApproval(id, a) => PutApproval(db, id, a, db.log);
    case WriteChannel(id, c) => PutChannel(db, id, c);
    case _ => PutOther(db, Store(db, write));
  }

  lemma StoreFrame(db: Db, write: Write)
    ensures Store(db, write).executions == db.executions && Store(db, write).log == db.log
  {
  }

  lemma PerformEvolves(w: World, db: Db, plan: Plan)
    requires Continues(db, plan.write)
    ensures Evolves(db, Perform(w, db, plan))
  {
    StoreEvolves(db, plan.write);
    StoreFrame(db, plan.write);
    PutOther(Store(db, plan.write), Perform(w, db, plan));
    EvolvesTransitive(db, Store(db, plan.write), Perform(w, db, plan));
  }

  lemma ControlEvolves(w: World, db: Db, command: Command, env: Env)
    requires ChannelsOrdered(db)
    ensures Evolves(db, Control(w, db, command, env).0)
  {
    PlansContinue(db, command, env);
    PerformEvolves(w, db, PlanFor(db, command, env));
  }

  /** A reader never acknowledges what it was not given. */
  ghost predicate ChannelsOrdered(db: Db) {
    forall id | id in db.channels :: 0 <= db.channels[id].cursor <= db.channels[id].delivered
  }

  /** Threads between `begin` and `finish` own an execution that is still DISPATCHING. */
  ghost predicate InflightOpen(s: System) {
    forall id | id in s.inflight :: id in s.db.executions && s.db.executions[id].state == Dispatching
  }

  lemma NextEvolves(w: World, s: System, l: Label)
    requires ChannelsOrdered(s.db) && InflightOpen(s)
    ensures Evolves(s.db, Next(w, s, l).db)
  {
    match l
    case ControlStep(command, env) => ControlEvolves(w, s.db, command, env);
    case BeginStep(req, env) => BeginEvolves(w, s.enforce, s.db, req, env);
    case FinishStep(id, result, env) =>
      if id in s.inflight {
        FinishEvolves(w, s.db, id, result.(executionId := id), env);
      } else {
        EvolvesReflexive(s.db);
      }
    case AbandonStep(id, _) => EvolvesReflexive(s.db);
    case OutsideStep(text, env) => PutOther(s.db, Next(w, s, l).db);
    case RestartStep(_, env) => RecoverEvolves(w, s.db, Ascending(s.db.executions.Keys), env.now);
  }

  // ---- Which records a transaction may touch

  lemma FinishFrame(w: World, db: Db, id: Id, result: Result, env: Env)
    requires id in db.executions
    ensures var db' := Finish(w, db, id, result, env);
            db' == db.(executions := db.executions[id := Finished(db.executions[id], result, env.now(0))],
                       continuations := db'.continuations, health := db'.health, log := db'.log)
  {
  }

  function AfterRecovery(e: Execution): Execution {
    if e.state == Dispatching then e.(state := Uncertain) else e
  }

  ghost predicate OnlyExecutions(db: Db, db': Db) {
    db' == db.(executions := db'.executions, log := db'.log)
  }

  lemma {:induction false} MarkAllFrame(w: World, db: Db, ids: seq<Id>, now: nat -> int)
    ensures var db' := MarkAll(w, db, ids, now);
            && OnlyExecutions(db, db')
            && db'.executions.Keys == db.executions.Keys
            && forall id | id in db.executions ::
                 db'.executions[id] == if id in ids then AfterRecovery(db.executions[id]) else db.executions[id]
  {
    if ids != [] {
      var n := |ids| - 1;
      MarkAllFrame(w, db, ids[..n], now);
      var db1 := MarkAll(w, db, ids[..n], now);
      MarkOneFrame(w, db1, ids[n], now(n));
      assert ids == ids[..n] + [ids[n]];
    }
  }

  lemma MarkOneFrame(w: World, db: Db, id: Id, now: int)
    ensures var db' := MarkUncertain(w, db, id, now);
            && OnlyExecutions(db, db')
            && db'.executions.Keys == db.executions.Keys
            && forall k | k in db.executions ::
                 db'.executions[k] == if k == id then AfterRecovery(db.executions[k]) else db.executions[k]
  {
    if id in db.executions && db.executions[id].state == Dispatching {
      var e := db.executions[id].(state := Uncertain);
      assert MarkUncertain(w, db, id, now).executions == db.executions[id := e];
    } else {
      assert MarkUncertain(w, db, id, now) == db;
    }
  }

  /** After recovery no execution is left DISPATCHING, and nothing else has changed. */
  lemma RecoverFrame(w: World, db: Db, now: nat -> int)
    ensures var db' := Recover(w, db, now);
            && OnlyExecutions(db, db')
            && db'.executions.Keys == db.executions.Keys
            && forall id | id in db.executions :: db'.executions[id] == AfterRecovery(db.executions[id])
  {
    MarkAllFrame(w, db, Ascending(db.executions.Keys), now);
  }

  /** No control operation writes an execution. */
  lemma PerformKeepsExecutions(w: World, db: Db, plan: Plan)
    ensures Perform(w, db, plan).executions == db.executions
  {
    StoreFrame(db, plan.write);
  }

  lemma StoreKeepsChannels(db: Db, write: Write)
    requires ChannelsOrdered(db) && Continues(db, write)
    ensures ChannelsOrdered(Store(db, write))
  {
  }

  lemma NextKeepsChannels(w: World, s: System, l: Label)
    requires ChannelsOrdered(s.db)
    ensures ChannelsOrdered(Next(w, s, l).db)
  {
    match l
    case ControlStep(command, env) =>
      PlansContinue(s.db, command, env);
      StoreKeepsChannels(s.db, PlanFor(s.db, command, env).write);
    case BeginStep(req, env) => BeginCases(w, s.enforce, s.db, req, env);
    case FinishStep(id, result, env) =>
      if id in s.inflight && id in s.db.executions {
        FinishFrame(w, s.db, id, result.(executionId := id), env);
      }
    case AbandonStep(_, _) =>
    case OutsideStep(_, _) =>
    case RestartStep(_, env) => RecoverFrame(w, s.db, env.now);
  }

  lemma NextKeepsInflight(w: World, s: System, l: Label)
    requires InflightOpen(s)
    ensures InflightOpen(Next(w, s, l))
  {
    match l
    case ControlStep(command, env) => PerformKeepsExecutions(w, s.db, PlanFor(s.db, command, env));
    case BeginStep(req, env) => BeginCases(w, s.enforce, s.db, req, env);
    case FinishStep(id, result, env) =>
      if id in s.inflight && id in s.db.executions {
        FinishFrame(w, s.db, id, result.(executionId := id), env);
      }
    case AbandonStep(_, _) =>
    case OutsideStep(_, _) =>
    case RestartStep(_, _) =>
  }

  lemma OtherStepsKeepIds(w: World, s: System, l: Label)
    requires !l.BeginStep?
    ensures Next(w, s, l).db.executions.Keys == s.db.executions.Keys
  {
    match l
    case ControlStep(command, env) => PerformKeepsExecutions(w, s.db, PlanFor(s.db, command, env));
    case FinishStep(f, result, env) =>
      if f in s.inflight && f in s.db.executions {
        FinishFrame(w, s.db, f, result.(executionId := f), env);
      }
    case AbandonStep(_, _) =>
    case OutsideStep(_, _) =>
    case RestartStep(_, env) => RecoverFrame(w, s.db, env.now);
  }

  lemma BeginKeys(w: World, enforce: bool, db: Db, req: Request, env: Env)
    ensures var (db', reply) := Begin(w, enforce, db, req, env);
            db'.executions.Keys == db.executions.Keys + if reply.None? then {req.requestId.GetOr("")} else {}
  {
    BeginCases(w, enforce, db, req, env);
  }

  lemma NewExecutionsComeFromBegin(w: World, s: System, l: Label, id: Id)
    requires id !in s.db.executions && id in Next(w, s, l).db.executions
    ensures l.BeginStep? && AdmitsNow(w, s, l.req, l.env) && l.req.requestId.GetOr("") == id
  {
    match l
    case BeginStep(req, env) =>
      assert Next(w, s, l).db == Begin(w, s.enforce, s.db, req, env).0;
      BeginKeys(w, s.enforce, s.db, req, env);
    case _ => OtherStepsKeepIds(w, s, l);
  }

  // ---- Runs

  lemma {:induction false} RunBasics(w: World, labels: seq<Label>)
    ensures ChannelsOrdered(Run(w, labels).db) && InflightOpen(Run(w, labels))
  {
    if labels != [] {
      var n := |labels| - 1;
      RunLast(w, labels);
      RunBasics(w, labels[..n]);
      NextKeepsChannels(w, Run(w, labels[..n]), labels[n]);
      NextKeepsInflight(w, Run(w, labels[..n]), labels[n]);
    }
  }

  lemma StepEvolves(w: World, labels: seq<Label>, i: nat)
    requires i < |labels|
    ensures Evolves(Run(w, labels[..i]).db, Run(w, labels[..i + 1]).db)
  {
    RunStep(w, labels, i);
    RunBasics(w, labels[..i]);
    NextEvolves(w, Run(w, labels[..i]), labels[i]);
  }

  lemma {:induction false} HistoryEvolves(history: seq<Db>, i: nat, j: nat)
    requires i <= j < |history|
    requires forall k | 0 <= k < |history| - 1 :: Evolves(history[k], history[k + 1])
    ensures Evolves(history[i], history[j])
    decreases j
  {
    if i == j {
      EvolvesReflexive(history[i]);
    } else {
      HistoryEvolves(history, i, j - 1);
      assert Evolves(history[j - 1], history[j - 1 + 1]);
      EvolvesTransitive(history[i], history[j - 1], history[j]);
    }
  }

  /** Whatever happens between two moments of a run, the database only evolves. */
  lemma RunEvolves(w: World, labels: seq<Label>, i: nat, j: nat)
    requires i <= j <= |labels|
    ensures Evolves(Run(w, labels[..i]).db, Run(w, labels[..j]).db)
  {
    var history := seq(|labels| + 1, k requires 0 <= k <= |labels| => Run(w, labels[..k]).db);
    forall k | 0 <= k < |history| - 1 ensures Evolves(history[k], history[k + 1]) {
      StepEvolves(w, labels, k);
    }
    HistoryEvolves(history, i, j);
  }
}
