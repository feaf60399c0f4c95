/** An agent's failure count is its streak of unknown outcomes, and quarantine holds until it is released. */
module Quarantine {
  import opened Common
  import opened Records
  import opened Protocol
  import opened Runs
  import opened Journal

  /** The agent named by the last start of an execution in the log. */
  function AgentOf(log: seq<Row>, id: Id): Option<string> {
    if log == [] then None
    else
      var event := log[|log| - 1].event;
      if event.ExecutionStarted? && event.id == id then Some(event.agent) else AgentOf(log[..|log| - 1], id)
  }

  /** Counting back from the end of the log: unknown outcomes since the last delivered one or the last release. */
  function Streak(log: seq<Row>, agent: string): nat {
    if log == [] then 0
    else
      var rest := log[..|log| - 1];
      match log[|log| - 1].event
      case ExecutionFinished(id, Uncertain, _) =>
        Streak(rest, agent) + if AgentOf(rest, id) == Some(agent) then 1 else 0
      case ExecutionFinished(id, Delivered, _) => if AgentOf(rest, id) == Some(agent) then 0 else Streak(rest, agent)
      case AgentReleased(name) => if name == agent then 0 else Streak(rest, agent)
      case _ => Streak(rest, agent)
  }

  lemma {:induction false} ReplayKnowsAgents(log: seq<Row>, id: Id)
    ensures AgentOf(log, id) ==
            if id in Replay(log).executions then Some(Replay(log).executions[id].agent) else None
  {
    if log != [] {
      ReplayKnowsAgents(log[..|log| - 1], id);
      var event := log[|log| - 1].event;
      ApplyAgents(Replay(log[..|log| - 1]), event, id);
    }
  }

  lemma ApplyAgents(v: View, event: Event, id: Id)
    ensures var v' := Apply(v, event);
            && (id in v'.executions <==> id in v.executions || (event.ExecutionStarted? && event.id == id))
            && (event.ExecutionStarted? && event.id == id ==> v'.executions[id].agent == event.agent)
            && (id in v.executions && !(event.ExecutionStarted? && event.id == id) ==>
                  v'.executions[id].agent == v.executions[id].agent)
  {
  }

  ghost predicate CountsStreak(v: View, log: seq<Row>, agent: string) {
    && ViewHealth(v, agent).failures == Streak(log, agent)
    && (ViewHealth(v, agent).failures >= 3 ==> ViewHealth(v, agent).quarantined)
  }

  /** What one more event does to the streak. */
  function StreakAfter(streak: int, event: Event, concerns: bool, agent: string): int {
    match event
    case ExecutionFinished(_, Uncertain, _) => streak + if concerns then 1 else 0
    case ExecutionFinished(_, Delivered, _) => if concerns then 0 else streak
    case AgentReleased(name) => if name == agent then 0 else streak
    case _ => streak
  }

  ghost predicate Concerns(log: seq<Row>, event: Event, agent: string) {
    event.ExecutionFinished? && AgentOf(log, event.id) == Some(agent)
  }

  lemma StreakNext(rest: seq<Row>, row: Row, agent: string)
    ensures Streak(rest + [row], agent)
         == StreakAfter(Streak(rest, agent), row.event, Concerns(rest, row.event, agent), agent)
  {
    var log := rest + [row];
    assert log[..|log| - 1] == rest && log[|log| - 1] == row;
  }

  /** The health that an event leaves, told only whether it finishes a dispatch to the agent. */
  lemma HealthNext(v: View, event: Event, agent: string, concerns: bool)
    requires agent != ""
    requires concerns <==> event.ExecutionFinished? && event.id in v.executions && v.executions[event.id].agent == agent
    ensures var h, h' := ViewHealth(v, agent), ViewHealth(Apply(v, event), agent);
            && h'.failures == StreakAfter(h.failures, event, concerns, agent)
            && ((h.failures >= 3 ==> h.quarantined) ==> (h'.failures >= 3 ==> h'.quarantined))
  {
    match event
    case ExecutionFinished(id, state, taskId) => OutcomeHealth(v, id, state, taskId, agent);
    case AgentReleased(_) =>
    case AgentQuarantined(_) =>
    case _ => OtherEventsKeepHealth(v, event);
  }

  lemma OutcomeHealth(v: View, id: Id, state: ExecutionState, taskId: string, agent: string)
    requires agent != ""
    ensures ViewHealth(ApplyOutcome(v, id, state, taskId), agent)
         == if id in v.executions && v.executions[id].agent == agent then HealthAfter(ViewHealth(v, agent), state)
            else ViewHealth(v, agent)
  {
  }

  lemma OtherEventsKeepHealth(v: View, event: Event)
    requires !event.ExecutionFinished? && !event.AgentReleased? && !event.AgentQuarantined?
    ensures Apply(v, event).health == v.health
  {
  }

  lemma ApplyCounts(v: View, rest: seq<Row>, row: Row, agent: string)
    requires v == Replay(rest) && CountsStreak(v, rest, agent) && agent != ""
    ensures CountsStreak(Apply(v, row.event), rest + [row], agent)
  {
    StreakNext(rest, row, agent);
    if row.event.ExecutionFinished? {
      ReplayKnowsAgents(rest, row.event.id);
    }
    HealthNext(v, row.event, agent, Concerns(rest, row.event, agent));
  }

  lemma {:induction false} ReplayCounts(log: seq<Row>, agent: string)
    requires agent != ""
    ensures CountsStreak(Replay(log), log, agent)
  {
    if log != [] {
      var rest := log[..|log| - 1];
      ReplayCounts(rest, agent);
      assert log == rest + [log[|log| - 1]];
      ApplyCounts(Replay(rest), rest, log[|log| - 1], agent);
    }
  }

  /** The stored count is the streak in the log; three unknown outcomes in a row always mean quarantine. */
  lemma FailuresCountStreak(w: World, labels: seq<Label>, agent: string)
    requires agent != ""
    ensures var db := Run(w, labels).db;
            && HealthOf(db, agent).failures == Streak(db.log, agent)
            && (Streak(db.log, agent) >= 3 ==> HealthOf(db, agent).quarantined)
  {
    LogIsACompleteJournal(w, labels);
    ReplayCounts(Run(w, labels).db.log, agent);
  }

  // ---- Quarantine lasts

  ghost predicate Quarantined(db: Db, agent: string) {
    HealthOf(db, agent).quarantined
  }

  ghost predicate IsRelease(l: Label, agent: string) {
    l.ControlStep? && l.command == ReleaseAgent(agent)
  }

  lemma StoreOnHealth(db: Db, write: Write)
    ensures Store(db, write).health ==
            match write
            case WriteHealth(agent, h) => db.health[agent := h]
            case _ => db.health
  {
  }

  lemma PlansKeepQuarantine(db: Db, command: Command, env: Env, agent: string)
    requires HealthOf(db, agent).quarantined && command != ReleaseAgent(agent)
    ensures var write := PlanFor(db, command, env).write;
            write.WriteHealth? && write.agent == agent ==> write.health.quarantined
  {
  }

  lemma FinishOnHealth(w: World, db: Db, id: Id, result: Result, env: Env)
    requires id in db.executions
    ensures var agent := db.executions[id].agent;
            Finish(w, db, id, result, env).health ==
            if agent == "" then db.health
            else db.health[agent := HealthAfter(HealthOf(db, agent), Outcome(result))]
  {
  }

  lemma NextKeepsQuarantine(w: World, s: System, l: Label, agent: string)
    requires Quarantined(s.db, agent) && !IsRelease(l, agent)
    ensures Quarantined(Next(w, s, l).db, agent)
  {
    match l
    case ControlStep(command, env) =>
      PlansKeepQuarantine(s.db, command, env, agent);
      StoreOnHealth(s.db, PlanFor(s.db, command, env).write);
    case BeginStep(req, env) => BeginCases(w, s.enforce, s.db, req, env);
    case FinishStep(id, result, env) =>
      if id in s.inflight && id in s.db.executions {
        FinishOnHealth(w, s.db, id, result.(executionId := id), env);
      }
    case AbandonStep(_, _) =>
    case OutsideStep(_, _) =>
    case RestartStep(_, env) => RecoverFrame(w, s.db, env.now);
  }

  lemma StepKeepsQuarantine(w: World, labels: seq<Label>, n: nat, agent: string)
    requires n < |labels| && Quarantined(Run(w, labels[..n]).db, agent) && !IsRelease(labels[n], agent)
    ensures Quarantined(Run(w, labels[..n + 1]).db, agent)
  {
    RunStep(w, labels, n);
    NextKeepsQuarantine(w, Run(w, labels[..n]), labels[n], agent);
  }

  lemma {:induction false} HistoryKeepsQuarantine(history: seq<Db>, i: nat, j: nat, agent: string)
    requires i <= j < |history| && Quarantined(history[i], agent)
    requires forall k | i <= k < j && Quarantined(history[k], agent) :: Quarantined(history[k + 1], agent)
    ensures Quarantined(history[j], agent)
    decreases j
  {
    if i < j {
      HistoryKeepsQuarantine(history, i, j - 1, agent);
      assert Quarantined(history[j - 1 + 1], agent);
    }
  }

  /** Once quarantined, an agent stays quarantined until its owner releases it, restarts included. */
  lemma QuarantineLasts(w: World, labels: seq<Label>, i: nat, j: nat, agent: string)
    requires i <= j <= |labels| && Quarantined(Run(w, labels[..i]).db, agent)
    requires forall m | i <= m < j :: !IsRelease(labels[m], agent)
    ensures Quarantined(Run(w, labels[..j]).db, agent)
  {
    var history := seq(|labels| + 1, k requires 0 <= k <= |labels| => Run(w, labels[..k]).db);
    forall k | i <= k < j && Quarantined(history[k], agent) ensures Quarantined(history[k + 1], agent) {
      StepKeepsQuarantine(w, labels, k, agent);
    }
    HistoryKeepsQuarantine(history, i, j, agent);
  }

  /** Between becoming quarantined and the next release nothing is dispatched to an agent. */
  lemma QuarantinedAgentsGetNothing(w: World, labels: seq<Label>, i: nat, j: nat, agent: string)
    requires i <= j < |labels| && agent != "" && Quarantined(Run(w, labels[..i]).db, agent)
    requires forall m | i <= m < j :: !IsRelease(labels[m], agent)
    ensures Admits(w, labels, j) ==> labels[j].req.agent != agent
  {
    QuarantineLasts(w, labels, i, j, agent);
    if labels[j].BeginStep? {
      var s := Run(w, labels[..j]);
      BeginCases(w, s.enforce, s.db, labels[j].req, labels[j].env);
    }
  }

  // ---- Exactly when an agent is quarantined

  /** Since its last release the owner quarantined the agent, or three unknown outcomes came in a row. */
  function Barred(log: seq<Row>, agent: string): bool {
    if log == [] then false
    else
      match log[|log| - 1].event
      case AgentQuarantined(name) => name == agent || Barred(log[..|log| - 1], agent)
      case AgentReleased(name) => name != agent && Barred(log[..|log| - 1], agent)
      case _ => Barred(log[..|log| - 1], agent) || Streak(log, agent) >= 3
  }

  lemma BarredNext(rest: seq<Row>, row: Row, agent: string)
    ensures Barred(rest + [row], agent) ==
            match row.event
            case AgentQuarantined(name) => name == agent || Barred(rest, agent)
            case AgentReleased(name) => name != agent && Barred(rest, agent)
            case _ => Barred(rest, agent) || Streak(rest + [row], agent) >= 3
  {
    var log := rest + [row];
    assert log[..|log| - 1] == rest && log[|log| - 1] == row;
  }

  lemma FlagNext(v: View, event: Event, agent: string)
    requires agent != ""
    ensures var h, h' := ViewHealth(v, agent), ViewHealth(Apply(v, event), agent);
            h'.quarantined ==
            match event
            case AgentQuarantined(name) => name == agent || h.quarantined
            case AgentReleased(name) => name != agent && h.quarantined
            case ExecutionFinished(_, _, _) => h.quarantined || (h' != h && h'.failures >= 3)
            case _ => h.quarantined
  {
    match event
    case ExecutionFinished(id, state, taskId) => OutcomeHealth(v, id, state, taskId, agent);
    case AgentReleased(_) =>
    case AgentQuarantined(_) =>
    case _ => OtherEventsKeepHealth(v, event);
  }

  lemma {:induction false} ReplayBars(log: seq<Row>, agent: string)
    requires agent != ""
    ensures ViewHealth(Replay(log), agent).quarantined == Barred(log, agent)
  {
    if log != [] {
      var rest, row := log[..|log| - 1], log[|log| - 1];
      assert log == rest + [row];
      ReplayBars(rest, agent);
      ReplayCounts(rest, agent);
      ReplayCounts(log, agent);
      BarredNext(rest, row, agent);
      FlagNext(Replay(rest), row.event, agent);
    }
  }

  /** An agent is quarantined if and only if the log says why, and that it was not released since. */
  lemma QuarantinedExactly(w: World, labels: seq<Label>, agent: string)
    requires agent != ""
    ensures Quarantined(Run(w, labels).db, agent) <==> Barred(Run(w, labels).db.log, agent)
  {
    LogIsACompleteJournal(w, labels);
    ReplayBars(Run(w, labels).db.log, agent);
  }

  /** The owner's orders are carried out: quarantine bars the agent, release clears it, count included. */
  lemma OrdersTakeEffect(w: World, db: Db, agent: string, env: Env)
    requires Proper(agent)
    ensures Quarantined(Control(w, db, QuarantineAgent(agent), env).0, agent)
    ensures HealthOf(Control(w, db, QuarantineAgent(agent), env).0, agent).failures == HealthOf(db, agent).failures
    ensures HealthOf(Control(w, db, ReleaseAgent(agent), env).0, agent) == Health(0, false)
  {
  }

  /** After the owner quarantined an agent nothing is dispatched to it until the owner releases it. */
  lemma OrderedQuarantineHolds(w: World, labels: seq<Label>, i: nat, j: nat, agent: string)
    requires i < j < |labels| && Proper(agent)
    requires labels[i].ControlStep? && labels[i].command == QuarantineAgent(agent)
    requires forall m | i < m < j :: !IsRelease(labels[m], agent)
    ensures Admits(w, labels, j) ==> labels[j].req.agent != agent
  {
    RunStep(w, labels, i);
    OrdersTakeEffect(w, Run(w, labels[..i]).db, agent, labels[i].env);
    QuarantinedAgentsGetNothing(w, labels, i + 1, j, agent);
  }

  /** The health that the owner asks for is what the log says, and asking changes nothing. */
  lemma HealthIsTold(w: World, labels: seq<Label>, agent: string, env: Env)
    requires Proper(agent)
    ensures var db := Run(w, labels).db;
            Control(w, db, AgentHealth(agent), env) ==
            (db, HealthReply(Health(Streak(db.log, agent), Barred(db.log, agent))))
  {
    FailuresCountStreak(w, labels, agent);
    QuarantinedExactly(w, labels, agent);
  }
}
