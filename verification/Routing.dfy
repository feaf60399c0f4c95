/** Which agent a request names when it reaches the control plane, and which agent its dispatch contacts. */
module Routing {
  import opened Common
  import opened Records
  import opened Protocol
  import opened Runs
  import opened Admission
  import opened Quarantine
  import Tasks
  import TaskTrail
  import TaskRuns

  /** What the daemon routes by: the configured agents, the project rule for a directory, and the stored tasks. */
  datatype Front = Front(agents: set<string>, route: string -> Option<string>, tasks: map<string, Tasks.Task>)

  predicate OfTask(op: Operation) {
    op == Respond || op == Cancel || op == Materialize
  }

  /** The request as it is handed to the control plane: the agent is filled in before anything is hashed. */
  function Routed(front: Front, req: Request, cwd: string): Request {
    if req.op == Submit && req.agent == "" then req.(agent := front.route(cwd).GetOr(""))
    else if OfTask(req.op) && req.taskId in front.tasks then req.(agent := front.tasks[req.taskId].agent)
    else req
  }

  function Known(front: Front, agent: string): Option<string> {
    if agent in front.agents then Some(agent) else None
  }

  /** The only agent whose endpoint the dispatch can resolve, if any; it looks at the stores again. */
  function Target(front: Front, req: Request, cwd: string): Option<string> {
    match req.op
    case Submit =>
      if req.agent != "" then Known(front, req.agent)
      else if front.route(cwd).Some? then Known(front, front.route(cwd).value)
      else None
    case StreamSubmit | PushCreate | PushDelete => Known(front, req.agent)
    case Respond | Cancel | Materialize =>
      if req.taskId !in front.tasks || (req.op == Cancel && front.tasks[req.taskId].remoteId.None?) then None
      else Known(front, front.tasks[req.taskId].agent)
  }

  /**
   * The daemon serves one request to its end before it reads the next, so no task is added between routing and
   * dispatch; but project rules are matched against the file system each time, so another rule may match.
   */
  ghost predicate Later(a: Front, b: Front) {
    && b.agents == a.agents && b.tasks.Keys == a.tasks.Keys
    && forall id | id in a.tasks :: b.tasks[id].agent == a.tasks[id].agent
  }

  /** A submit has an agent once it is routed. */
  predicate Named(front: Front, req: Request, cwd: string) {
    req.op == Submit ==> Routed(front, req, cwd).agent != ""
  }

  ghost predicate OnlyNamed(front: Front, req: Request, cwd: string) {
    Target(front, req, cwd).Some? ==> Target(front, req, cwd).value == req.agent
  }

  lemma TargetIsNamed(front: Front, later: Front, req: Request, cwd: string)
    requires Later(front, later) && Named(front, req, cwd)
    ensures OnlyNamed(later, Routed(front, req, cwd), cwd)
  {
  }

  /** A later state in which the dispatch contacts an agent that the request does not name. */
  lemma Diverted(front: Front, req: Request, cwd: string, agent: string) returns (later: Front)
    requires !Named(front, req, cwd) && agent in front.agents && agent != Routed(front, req, cwd).agent
    ensures Later(front, later) && !OnlyNamed(later, Routed(front, req, cwd), cwd)
  {
    later := front.(route := (path: string) => Some(agent));
  }

  /**
   * A dispatch can contact only the agent that the request names if and only if a submit got one by routing, or there
   * is no other agent.
   */
  lemma NamesTargetExactly(front: Front, req: Request, cwd: string)
    ensures (forall later | Later(front, later) :: OnlyNamed(later, Routed(front, req, cwd), cwd))
       <==> Named(front, req, cwd) || front.agents <= {Routed(front, req, cwd).agent}
  {
    if Named(front, req, cwd) {
      forall later | Later(front, later) ensures OnlyNamed(later, Routed(front, req, cwd), cwd) {
        TargetIsNamed(front, later, req, cwd);
      }
    } else if agent :| agent in front.agents && agent != Routed(front, req, cwd).agent {
      var later := Diverted(front, req, cwd, agent);
    }
  }

  // ---- Quarantine reaches the agents that dispatches contact

  function FrontAt(agents: set<string>, route: string -> Option<string>, ops: seq<TaskTrail.Op>, n: nat): Front
    requires n <= |ops|
  {
    Front(agents, route, TaskRuns.RunOps(agents, ops[..n]).tasks)
  }

  lemma StoresAreLater(agents: set<string>, route: string -> Option<string>, route': string -> Option<string>,
                       ops: seq<TaskTrail.Op>, m: nat, n: nat)
    requires m <= n <= |ops| && TaskRuns.FreshIds(agents, ops)
    requires forall k | m <= k < n :: !ops[k].Create?
    ensures Later(FrontAt(agents, route, ops, m), FrontAt(agents, route', ops, n))
  {
    TaskRuns.IdentityStays(agents, ops, m, n);
    TaskRuns.NoTaskIsAdded(agents, ops, m, n);
    var a, b := TaskRuns.RunOps(agents, ops[..m]).tasks, TaskRuns.RunOps(agents, ops[..n]).tasks;
    forall id | id in a ensures b[id].agent == a[id].agent {
      assert TaskRuns.SameIdentity(b[id], a[id]);
    }
  }

  /**
   * A request that was routed after `m` task operations and is dispatched after `n` does not contact an agent that was
   * quarantined when it was admitted, whatever operation it is and whether or not its sender named an agent.
   */
  lemma QuarantineCoversTargets(w: World, labels: seq<Label>, i: nat, j: nat, agent: string,
                                agents: set<string>, route: string -> Option<string>,
                                route': string -> Option<string>, ops: seq<TaskTrail.Op>, m: nat, n: nat,
                                req: Request, cwd: string)
    requires i <= j < |labels| && agent != "" && Quarantined(Run(w, labels[..i]).db, agent)
    requires forall k | i <= k < j :: !IsRelease(labels[k], agent)
    requires m <= n <= |ops| && TaskRuns.FreshIds(agents, ops) && forall k | m <= k < n :: !ops[k].Create?
    requires labels[j].BeginStep? && labels[j].req == Routed(FrontAt(agents, route, ops, m), req, cwd)
    requires Named(FrontAt(agents, route, ops, m), req, cwd)
    ensures Admits(w, labels, j) ==> Target(FrontAt(agents, route', ops, n), labels[j].req, cwd) != Some(agent)
  {
    QuarantinedAgentsGetNothing(w, labels, i, j, agent);
    StoresAreLater(agents, route, route', ops, m, n);
    TargetIsNamed(FrontAt(agents, route, ops, m), FrontAt(agents, route', ops, n), req, cwd);
  }

  // ---- A project rule that matches only after the request was routed

  const Stopped := (k: nat) => 0
  const NoRule := (path: string) => None
  const RuleForA := (path: string) => Some("a")

  const Nameless := Request(Some("r"), Submit, "", "", "", None, "", "", "", None, "")

  const Quarantining := ControlStep(QuarantineAgent("a"), Env(Stopped, ""))
  const Submitting := BeginStep(Nameless, Env(Stopped, ""))

  const LateRule: seq<Label> := [Quarantining, Submitting]

  lemma QuarantinePlan(db: Db, env: Env)
    requires db.health == map[]
    ensures PlanFor(db, QuarantineAgent("a"), env).write == WriteHealth("a", Health(0, true))
  {
  }

  lemma PerformOnHealth(w: World, db: Db, plan: Plan)
    ensures Perform(w, db, plan).health == Store(db, plan.write).health
  {
  }

  lemma QuarantineEffect(w: World, db: Db, env: Env)
    requires db.health == map[]
    ensures var db' := Control(w, db, QuarantineAgent("a"), env).0;
            db'.health == map["a" := Health(0, true)] && db'.executions == db.executions
  {
    var plan := PlanFor(db, QuarantineAgent("a"), env);
    QuarantinePlan(db, env);
    StoreOnHealth(db, plan.write);
    PerformOnHealth(w, db, plan);
    PerformKeepsExecutions(w, db, plan);
  }

  lemma QuarantineStep(w: World, s: System, env: Env)
    requires s.db.health == map[]
    ensures var s' := Next(w, s, ControlStep(QuarantineAgent("a"), env));
            && s'.db.executions == s.db.executions && s'.db.health == map["a" := Health(0, true)]
            && s'.enforce == s.enforce
  {
    QuarantineEffect(w, s.db, env);
  }

  lemma QuarantineAt(w: World, labels: seq<Label>, i: nat, env: Env)
    requires i < |labels| && labels[i] == ControlStep(QuarantineAgent("a"), env)
    requires Run(w, labels[..i]).db.health == map[]
    ensures var s, s' := Run(w, labels[..i]), Run(w, labels[..i + 1]);
            && s'.db.executions == s.db.executions && s'.db.health == map["a" := Health(0, true)]
            && s'.enforce == s.enforce
  {
    RunStep(w, labels, i);
    QuarantineStep(w, Run(w, labels[..i]), env);
  }

  lemma AfterQuarantine(w: World)
    ensures var s := Run(w, LateRule[..1]);
            s.db.executions == map[] && s.db.health == map["a" := Health(0, true)] && !s.enforce
  {
    assert Run(w, LateRule[..0]) == Initial;
    QuarantineAt(w, LateRule, 0, Env(Stopped, ""));
  }

  /**
   * A submit for which no rule matches is admitted without an agent; when a rule matches at dispatch, it contacts the
   * agent of that rule.
   */
  lemma LateRuleSlipsThrough(w: World, tasks: map<string, Tasks.Task>)
    ensures Quarantined(Run(w, LateRule[..1]).db, "a") && Admits(w, LateRule, 1)
    ensures var front := Front({"a"}, NoRule, tasks);
            && LateRule[1].req == Routed(front, Nameless, "") && Later(front, front.(route := RuleForA))
            && Target(front.(route := RuleForA), LateRule[1].req, "") == Some("a")
  {
    AfterQuarantine(w);
    var s := Run(w, LateRule[..1]);
    AdmissionExactly(w, false, s.db, Nameless, Env(Stopped, ""));
    NamelessIsAdmissible(w, s.db);
  }

  lemma NamelessIsAdmissible(w: World, db: Db)
    requires db.executions == map[]
    ensures Admissible(w, false, db, Nameless, Env(Stopped, ""))
  {
  }
}
