/** Acknowledged event channels lose nothing. */
module Channels {
  import opened Records
  import opened Protocol
  import opened Runs

  function EventAt(log: seq<Row>, k: int): Numbered
    requires 1 <= k <= |log|
  {
    Numbered(k, log[k - 1])
  }

  /** Step `m` is a committed read of channel `c` whose page holds the event. */
  ghost predicate ReadShows(w: World, labels: seq<Label>, m: nat, c: Id, event: Numbered)
    requires m < |labels|
  {
    && labels[m].ControlStep? && labels[m].command.ReadChannel? && labels[m].command.id == c
    && var reply := Control(w, Run(w, labels[..m]).db, labels[m].command, labels[m].env).1;
    reply.Page? && event in reply.rows
  }

  /** Between the two moments, event `k` of the log was in the page of some committed read of the channel. */
  ghost predicate Shown(w: World, labels: seq<Label>, i: nat, j: nat, c: Id, k: int)
    requires i <= j <= |labels|
  {
    var log := Run(w, labels[..j]).db.log;
    1 <= k <= |log| && ShownEvent(w, labels, i, j, c, EventAt(log, k))
  }

  ghost predicate ShownEvent(w: World, labels: seq<Label>, i: nat, j: nat, c: Id, event: Numbered)
    requires i <= j <= |labels|
  {
    exists m | i <= m < j :: ReadShows(w, labels, m, c, event)
  }

  ghost predicate InPage(log: seq<Row>, reply: Reply, k: int) {
    reply.Page? && 1 <= k <= |log| && EventAt(log, k) in reply.rows
  }

  /** A step moves `delivered` only over events that it returns. */
  ghost predicate ShowsUpTo(db: Db, command: Command, plan: Plan, c: Id) {
    plan.write.WriteChannel? && plan.write.channelId == c && c in db.channels
    && db.channels[c].delivered < plan.write.channel.delivered ==>
      && command.ReadChannel? && command.id == c
      && forall k | db.channels[c].delivered < k <= plan.write.channel.delivered :: InPage(db.log, plan.reply, k)
  }

  lemma PlansShow(db: Db, command: Command, env: Env, c: Id)
    requires ChannelsOrdered(db)
    ensures ShowsUpTo(db, command, PlanFor(db, command, env), c)
  {
    if command.ReadChannel? && command.id == c && c in db.channels && PlanFor(db, command, env).reply.Page? {
      PageShows(db.log, db.channels[c].cursor, command.limit);
    }
  }

  lemma PageShows(log: seq<Row>, after: nat, limit: nat)
    ensures forall k | after < k <= PageAfter(log, after, limit).next :: InPage(log, PageAfter(log, after, limit), k)
  {
    var page := PageAfter(log, after, limit);
    forall k | after < k <= page.next ensures InPage(log, page, k) {
      assert page.rows[k - 1 - after] == EventAt(log, k);
    }
  }

  lemma StoreOnChannels(db: Db, write: Write)
    ensures Store(db, write).channels ==
            match write
            case WriteChannel(id, channel) => db.channels[id := channel]
            case _ => db.channels
  {
  }

  lemma OtherStepsKeepChannels(w: World, s: System, l: Label)
    requires !l.ControlStep?
    ensures Next(w, s, l).db.channels == s.db.channels
  {
    match l
    case BeginStep(req, env) => BeginCases(w, s.enforce, s.db, req, env);
    case FinishStep(id, result, env) =>
      if id in s.inflight && id in s.db.executions {
        FinishFrame(w, s.db, id, result.(executionId := id), env);
      }
    case AbandonStep(_, _) =>
    case OutsideStep(_, _) =>
    case RestartStep(_, env) => RecoverFrame(w, s.db, env.now);
  }

  lemma StepShows(w: World, labels: seq<Label>, m: nat, c: Id, k: int)
    requires m < |labels| && c in Run(w, labels[..m]).db.channels && c in Run(w, labels[..m + 1]).db.channels
    requires Run(w, labels[..m]).db.channels[c].delivered < k <= Run(w, labels[..m + 1]).db.channels[c].delivered
    ensures var log := Run(w, labels[..m]).db.log;
            1 <= k <= |log| && ReadShows(w, labels, m, c, EventAt(log, k))
  {
    RunStep(w, labels, m);
    RunBasics(w, labels[..m]);
    var s := Run(w, labels[..m]);
    match labels[m]
    case ControlStep(command, env) =>
      PlansShow(s.db, command, env, c);
      StoreOnChannels(s.db, PlanFor(s.db, command, env).write);
      assert InPage(s.db.log, PlanFor(s.db, command, env).reply, k);
    case _ => OtherStepsKeepChannels(w, s, labels[m]);
  }

  ghost function DeliveredAt(w: World, labels: seq<Label>, c: Id, n: nat): int
    requires n <= |labels|
  {
    var db := Run(w, labels[..n]).db;
    if c in db.channels then db.channels[c].delivered else 0
  }

  /** `delivered` climbs past `k` at some step. */
  lemma {:induction false} Crossing(w: World, labels: seq<Label>, i: nat, j: nat, c: Id, k: int) returns (m: nat)
    requires i <= j <= |labels| && DeliveredAt(w, labels, c, i) < k <= DeliveredAt(w, labels, c, j)
    ensures i <= m < j && DeliveredAt(w, labels, c, m) < k <= DeliveredAt(w, labels, c, m + 1)
    decreases j
  {
    if DeliveredAt(w, labels, c, j - 1) < k {
      m := j - 1;
    } else {
      m := Crossing(w, labels, i, j - 1, c, k);
    }
  }

  lemma SamePrefix(before: seq<Row>, after: seq<Row>, k: int)
    requires |before| <= |after| && after[..|before|] == before && 1 <= k <= |before|
    ensures EventAt(before, k) == EventAt(after, k)
  {
    assert after[..|before|][k - 1] == after[k - 1];
  }

  /** An event shown at step `m` is still the same event of the log at any later moment. */
  lemma ShownSince(w: World, labels: seq<Label>, i: nat, m: nat, j: nat, c: Id, k: int)
    requires i <= m < j <= |labels| && 1 <= k <= |Run(w, labels[..m]).db.log|
    requires ReadShows(w, labels, m, c, EventAt(Run(w, labels[..m]).db.log, k))
    ensures Shown(w, labels, i, j, c, k)
  {
    RunEvolves(w, labels, m, j);
    SamePrefix(Run(w, labels[..m]).db.log, Run(w, labels[..j]).db.log, k);
  }

  /**
   * Between any two moments of a run, across restarts and with any other readers, `delivered` passes only over
   * events that a committed read of the channel in between has returned, with the row the log still holds.
   */
  lemma DeliveredWasShown(w: World, labels: seq<Label>, i: nat, j: nat, c: Id, k: int)
    requires i <= j <= |labels| && c in Run(w, labels[..i]).db.channels
    requires DeliveredAt(w, labels, c, i) < k <= DeliveredAt(w, labels, c, j)
    ensures Shown(w, labels, i, j, c, k)
  {
    var m := Crossing(w, labels, i, j, c, k);
    RunEvolves(w, labels, i, m);
    RunEvolves(w, labels, i, m + 1);
    StepShows(w, labels, m, c, k);
    ShownSince(w, labels, i, m, j, c, k);
  }

  /** No event between the opening of a channel and its cursor goes unseen, and the cursor never moves back. */
  lemma AcknowledgedWasShown(w: World, labels: seq<Label>, i: nat, j: nat, c: Id)
    requires i <= j <= |labels| && c in Run(w, labels[..i]).db.channels
    ensures c in Run(w, labels[..j]).db.channels
    ensures var x, y := Run(w, labels[..i]).db.channels[c], Run(w, labels[..j]).db.channels[c];
            && 0 <= x.cursor <= y.cursor <= y.delivered && x.delivered <= y.delivered
            && forall k | x.delivered < k <= y.cursor :: Shown(w, labels, i, j, c, k)
  {
    RunEvolves(w, labels, i, j);
    RunBasics(w, labels[..i]);
    RunBasics(w, labels[..j]);
    var x, y := Run(w, labels[..i]).db.channels[c], Run(w, labels[..j]).db.channels[c];
    forall k | x.delivered < k <= y.cursor ensures Shown(w, labels, i, j, c, k) {
      DeliveredWasShown(w, labels, i, j, c, k);
    }
  }

  /** A channel starts with nothing delivered beyond the point it was opened at. */
  lemma ChannelsStartClean(w: World, labels: seq<Label>, i: nat, c: Id)
    requires i < |labels| && c !in Run(w, labels[..i]).db.channels && c in Run(w, labels[..i + 1]).db.channels
    ensures labels[i].ControlStep? && labels[i].command.OpenChannel?
    ensures Run(w, labels[..i + 1]).db.channels[c] == Channel(labels[i].command.after, labels[i].command.after)
  {
    RunStep(w, labels, i);
    var s := Run(w, labels[..i]);
    match labels[i]
    case ControlStep(command, env) =>
      StoreOnChannels(s.db, PlanFor(s.db, command, env).write);
      PlansOpen(s.db, command, env, c);
    case _ => OtherStepsKeepChannels(w, s, labels[i]);
  }

  lemma PlansOpen(db: Db, command: Command, env: Env, c: Id)
    requires c !in db.channels
    ensures var write := PlanFor(db, command, env).write;
            write.WriteChannel? && write.channelId == c ==>
              command.OpenChannel? && write.channel == Channel(command.after, command.after)
  {
  }

  ghost predicate AllShown(w: World, labels: seq<Label>, i: nat, j: nat, c: Id, after: int, upTo: int)
    requires i <= j <= |labels|
  {
    forall k | after < k <= upTo :: Shown(w, labels, i, j, c, k)
  }

  /** From its opening on, every event between the starting point of a channel and its cursor has been shown. */
  lemma NothingIsSkipped(w: World, labels: seq<Label>, i: nat, c: Id)
    requires i < |labels| && c !in Run(w, labels[..i]).db.channels && c in Run(w, labels[..i + 1]).db.channels
    ensures labels[i].ControlStep? && labels[i].command.OpenChannel? && c in Run(w, labels).db.channels
    ensures AllShown(w, labels, i + 1, |labels|, c, labels[i].command.after, Run(w, labels).db.channels[c].cursor)
  {
    ChannelsStartClean(w, labels, i, c);
    assert labels[..|labels|] == labels;
    AcknowledgedWasShown(w, labels, i + 1, |labels|, c);
  }

  /** A page begins right behind the cursor, is full unless the log ends, and says whether it is full. */
  ghost predicate PageBehind(db: Db, cursor: int, limit: int, reply: Reply) {
    && reply.Page? && 0 <= cursor
    && |reply.rows| == (if |db.log| <= cursor then 0
                        else if |db.log| <= cursor + limit then |db.log| - cursor
                        else limit)
    && (forall i | 0 <= i < |reply.rows| :: reply.rows[i] == Numbered(cursor + 1 + i, db.log[cursor + i]))
    && reply.next == cursor + |reply.rows| && (reply.more <==> |reply.rows| == limit)
  }

  /** In every reachable state a read is answered exactly when the channel exists and the limit is in bounds. */
  lemma ReadsExactly(w: World, labels: seq<Label>, id: Id, limit: int, env: Env)
    ensures var db := Run(w, labels).db;
            var reply := Control(w, db, ReadChannel(id, limit), env).1;
            if Proper(id) && id in db.channels && 1 <= limit <= 500 then
              PageBehind(db, db.channels[id].cursor, limit, reply)
            else reply.Failure?
  {
    RunBasics(w, labels);
  }

  /** Reading without a channel is answered from any place, and remembers nothing. */
  lemma EventsExactly(w: World, db: Db, after: int, limit: int, env: Env)
    ensures var (db', reply) := Control(w, db, ReadEvents(after, limit), env);
            && db' == db
            && if 0 <= after && 1 <= limit <= 500 then PageBehind(db, after, limit, reply) else reply.Failure?
  {
  }
}
