/** The frontend that reads a durable event channel, prints every event and acknowledges what it printed. */
module EventsClient {
  import opened Common
  import opened Records
  import opened Protocol
  import opened Runs
  import opened Channels
  import opened ControlPlane

  /** A session ends by itself, is cut off between two actions, or stops at an error reply. */
  datatype End = Ended | Interrupted | Died(kind: FailureKind)

  ghost predicate Extends(log: seq<Row>, log': seq<Row>) {
    |log| <= |log'| && log'[..|log|] == log
  }

  ghost predicate Sound(c: Id, channels: map<Id, Channel>) {
    c in channels ==> 0 <= channels[c].cursor <= channels[c].delivered
  }

  /** What any other threads may do: extend the log and move the channel on, as other readers of it would. */
  ghost predicate ContinuesChannel(c: Id, db: Db, db': Db) {
    && Extends(db.log, db'.log)
    && (c in db.channels ==> c in db'.channels && ChannelLater(db.channels[c], db'.channels[c]))
    && (Sound(c, db.channels) ==> Sound(c, db'.channels))
  }

  /** What they do when nobody else uses this channel. */
  ghost predicate LeavesChannel(c: Id, db: Db, db': Db) {
    && Extends(db.log, db'.log)
    && (c in db.channels <==> c in db'.channels)
    && (c in db.channels ==> db'.channels[c] == db.channels[c])
  }

  /** `others(k, db)` is the database that the client's call `k` finds, when its previous call left `db`. */
  ghost predicate OthersContinue(c: Id, others: (nat, Db) -> Db) {
    forall k: nat, db: Db :: ContinuesChannel(c, db, others(k, db))
  }

  ghost predicate OthersLeave(c: Id, others: (nat, Db) -> Db) {
    forall k: nat, db: Db :: LeavesChannel(c, db, others(k, db))
  }

  /** The log stops growing at `bound` rows. */
  ghost predicate Bounded(others: (nat, Db) -> Db, bound: nat) {
    forall k: nat, db: Db :: |db.log| <= bound ==> |others(k, db).log| <= bound
  }

  predicate IsEvent(log: seq<Row>, position: nat, event: Numbered) {
    position < |log| && event == Numbered(position + 1, log[position])
  }

  /** The events right after position `start`, in order and once each. */
  ghost predicate Follows(printed: seq<Numbered>, log: seq<Row>, start: nat) {
    forall i | 0 <= i < |printed| :: IsEvent(log, start + i, printed[i])
  }

  /** Events of the log behind position `start`, in order and none twice. */
  ghost predicate Rising(printed: seq<Numbered>, log: seq<Row>, start: nat) {
    && (forall i | 0 <= i < |printed| :: InLog(log, printed[i]) && start < printed[i].sequence)
    && (forall i, j | 0 <= i < j < |printed| :: printed[i].sequence < printed[j].sequence)
  }

  predicate InLog(log: seq<Row>, event: Numbered) {
    event.sequence >= 1 && IsEvent(log, event.sequence - 1, event)
  }

  ghost predicate UpTo(printed: seq<Numbered>, cursor: int) {
    forall i | 0 <= i < |printed| :: printed[i].sequence <= cursor
  }

  lemma FollowsLonger(printed: seq<Numbered>, log: seq<Row>, log': seq<Row>, start: nat)
    requires Follows(printed, log, start) && Extends(log, log')
    ensures Follows(printed, log', start)
  {
    forall i | 0 <= i < |printed| ensures IsEvent(log', start + i, printed[i]) {
      assert IsEvent(log, start + i, printed[i]) && log'[..|log|][start + i] == log[start + i];
    }
  }

  lemma RisingLonger(printed: seq<Numbered>, log: seq<Row>, log': seq<Row>, start: nat)
    requires Rising(printed, log, start) && Extends(log, log')
    ensures Rising(printed, log', start)
  {
    forall i | 0 <= i < |printed| ensures InLog(log', printed[i]) && start < printed[i].sequence {
      assert InLog(log, printed[i]);
      assert log'[..|log|][printed[i].sequence - 1] == log[printed[i].sequence - 1];
    }
  }

  lemma RiseMore(printed: seq<Numbered>, rows: seq<Numbered>, log: seq<Row>, start: nat, after: nat)
    requires Rising(printed, log, start) && UpTo(printed, after) && start <= after && Follows(rows, log, after)
    ensures Rising(printed + rows, log, start) && UpTo(printed + rows, after + |rows|)
  {
    var all := printed + rows;
    forall i | 0 <= i < |all|
      ensures InLog(log, all[i]) && start < all[i].sequence <= after + |rows|
      ensures i >= |printed| ==> all[i].sequence == after + (i - |printed|) + 1
    {
      if i >= |printed| {
        assert IsEvent(log, after + (i - |printed|), rows[i - |printed|]);
      }
    }
  }

  /** What `channel.open` and `channel.read` answer, and that they leave the log alone. */
  lemma OpenEffect(w: World, db: Db, c: Id, env: Env)
    ensures var (db', reply) := Control(w, db, OpenChannel(c, 0), env);
            if Proper(c) then
              && reply.ChannelReply?
              && db' == if c in db.channels then db else db.(channels := db.channels[c := Channel(0, 0)])
            else reply == Failure(ControlError) && db' == db
  {
  }

  lemma ReadEffect(w: World, db: Db, c: Id, limit: int, env: Env)
    requires Proper(c) && c in db.channels && db.channels[c].cursor >= 0
    ensures var (db', reply) := Control(w, db, ReadChannel(c, limit), env);
            if 1 <= limit <= 500 then
              && reply == PageAfter(db.log, db.channels[c].cursor, limit) && db'.log == db.log
              && c in db'.channels && db'.channels[c].cursor == db.channels[c].cursor
              && reply.next <= db'.channels[c].delivered && db.channels[c].delivered <= db'.channels[c].delivered
            else reply == Failure(InvalidRequest) && db' == db
  {
  }

  lemma PageEffect(log: seq<Row>, after: nat, limit: nat)
    requires limit > 0
    ensures var page := PageAfter(log, after, limit);
            && page.Page? && Follows(page.rows, log, after) && page.next == after + |page.rows|
            && |page.rows| <= limit
            && (page.more <==> |page.rows| == limit) && (page.more ==> page.next <= |log|)
            && (!page.more ==> page.next >= |log|)
  {
  }

  lemma AckPlan(db: Db, c: Id, cursor: int, env: Env)
    requires Proper(c) && c in db.channels && cursor <= db.channels[c].delivered
    ensures var channel := db.channels[c].(cursor := cursor);
            PlanFor(db, AckChannel(c, cursor), env) ==
            if db.channels[c].cursor <= cursor then Plan(WriteChannel(c, channel), None, 0, ChannelReply(channel))
            else Refuse(InvalidCursor)
  {
  }

  lemma PerformOnChannel(w: World, db: Db, c: Id, channel: Channel, reply: Reply)
    ensures Perform(w, db, Plan(WriteChannel(c, channel), None, 0, reply))
         == db.(channels := db.channels[c := channel])
    ensures Perform(w, db, Plan(Nothing, None, 0, reply)) == db
  {
  }

  lemma AckEffect(w: World, db: Db, c: Id, cursor: int, env: Env)
    requires Proper(c) && c in db.channels && cursor <= db.channels[c].delivered
    ensures var (db', reply) := Control(w, db, AckChannel(c, cursor), env);
            && db'.log == db.log && c in db'.channels && db'.channels[c].delivered == db.channels[c].delivered
            && if db.channels[c].cursor <= cursor then reply.ChannelReply? && db'.channels[c].cursor == cursor
               else reply == Failure(InvalidCursor) && db' == db
  {
    var channel := db.channels[c].(cursor := cursor);
    AckPlan(db, c, cursor, env);
    PerformOnChannel(w, db, c, channel, ChannelReply(channel));
    PerformOnChannel(w, db, c, channel, Failure(InvalidCursor));
  }

  function CursorOf(channels: map<Id, Channel>, c: Id): int {
    if c in channels then channels[c].cursor else 0
  }

  /** The other threads run. */
  method Yield(plane: Plane, others: (nat, Db) -> Db, k: nat)
    modifies plane
    ensures plane.Contents() == others(k, old(plane.Contents()))
  {
    var db := others(k, plane.Contents());
    plane.executions, plane.approvals, plane.leases := db.executions, db.approvals, db.leases;
    plane.continuations, plane.sessions, plane.health := db.continuations, db.sessions, db.health;
    plane.provenance, plane.channels, plane.log := db.provenance, db.channels, db.log;
  }

  /** Prints the rows of a page one by one; it is cut off when `fuel` runs out. */
  method PrintRows(rows: seq<Numbered>, fuel: nat) returns (printed: seq<Numbered>, left: nat)
    ensures printed == rows[..Min(|rows|, fuel)] && left == fuel - |printed|
  {
    printed, left := [], fuel;
    while |printed| < |rows| && left > 0
      invariant |printed| <= |rows| && printed == rows[..|printed|] && left == fuel - |printed|
    {
      printed := printed + [rows[|printed|]];
      left := left - 1;
    }
  }

  lemma PrintMore(printed: seq<Numbered>, rows: seq<Numbered>, log: seq<Row>, start: nat)
    requires Follows(printed, log, start) && Follows(rows, log, start + |printed|)
    ensures Follows(printed + rows, log, start)
  {
    var more := printed + rows;
    forall i | 0 <= i < |more| ensures IsEvent(log, start + i, more[i]) {
      if i >= |printed| {
        assert IsEvent(log, start + |printed| + (i - |printed|), rows[i - |printed|]);
      }
    }
  }

  /** A round reads a page, prints it and acknowledges it; it is cut off when `fuel` runs out. */
  datatype RoundEnd = More | Last | Cut | Stopped(kind: FailureKind)

  /** Asks for the page behind the cursor, which others may have moved on to `after`. */
  method ReadPage(plane: Plane, c: Id, limit: int, others: (nat, Db) -> Db, turn: nat, env: Env, ghost bound: nat)
    returns (page: Reply, ghost after: nat)
    requires OthersContinue(c, others) && Proper(c) && c in plane.channels && Sound(c, plane.channels)
    modifies plane
    ensures Extends(old(plane.log), plane.log) && c in plane.channels && Sound(c, plane.channels)
    ensures old(plane.channels[c].cursor) <= after == plane.channels[c].cursor
    ensures OthersLeave(c, others) ==> after == old(plane.channels[c].cursor)
    ensures if page.Failure? then !(1 <= limit <= 500)
            else 1 <= limit && page == PageAfter(plane.log, after, limit) && page.next <= plane.channels[c].delivered
    ensures Bounded(others, bound) && |old(plane.log)| <= bound ==> |plane.log| <= bound
  {
    Yield(plane, others, turn);
    after := plane.channels[c].cursor;
    ReadEffect(plane.world, plane.Contents(), c, limit, env);
    page := plane.ServeRead(c, limit, env);
  }

  /** Acknowledges a page; it is refused only if somebody else has acknowledged more. */
  method AckPage(plane: Plane, c: Id, next: int, others: (nat, Db) -> Db, turn: nat, env: Env, ghost bound: nat)
    returns (ack: Reply)
    requires OthersContinue(c, others) && Proper(c) && c in plane.channels && Sound(c, plane.channels)
    requires plane.channels[c].cursor <= next <= plane.channels[c].delivered
    modifies plane
    ensures Extends(old(plane.log), plane.log) && c in plane.channels && Sound(c, plane.channels)
    ensures plane.channels[c].cursor >= next && (!ack.Failure? ==> plane.channels[c].cursor == next)
    ensures ack.Failure? ==> !OthersLeave(c, others)
    ensures Bounded(others, bound) && |old(plane.log)| <= bound ==> |plane.log| <= bound
  {
    Yield(plane, others, turn);
    AckEffect(plane.world, plane.Contents(), c, next, env);
    ack := plane.ServeAck(c, next, env);
  }

  method Round(plane: Plane, c: Id, limit: int, fuel: nat, others: (nat, Db) -> Db, turn: nat, env: Env,
               ghost bound: nat)
    returns (shown: seq<Numbered>, left: nat, end: RoundEnd, ghost after: nat)
    requires OthersContinue(c, others) && Proper(c) && c in plane.channels && Sound(c, plane.channels) && fuel > 0
    modifies plane
    ensures Extends(old(plane.log), plane.log) && c in plane.channels && Sound(c, plane.channels)
    ensures Follows(shown, plane.log, after) && (shown != [] ==> |shown| <= limit)
    ensures old(plane.channels[c].cursor) <= after <= plane.channels[c].cursor
    ensures match end
            case More =>
              && plane.channels[c].cursor == after + |shown| && |shown| == limit && left == fuel - 2 - limit
              && after + |shown| <= |plane.log|
            case Last => plane.channels[c].cursor == after + |shown| >= |old(plane.log)| && left == fuel - 2 - |shown|
            case Cut => left == 0 && fuel <= 1 + Max(0, |plane.log| - after)
            case Stopped(_) => !(1 <= limit <= 500) || !OthersLeave(c, others)
    ensures end.More? || end.Last? ==> limit > 0
    ensures OthersLeave(c, others) ==>
              && after == old(plane.channels[c].cursor)
              && (end.Cut? || end.Stopped? ==> plane.channels[c].cursor == after)
              && (end.Stopped? ==> shown == [])
    ensures Bounded(others, bound) && |old(plane.log)| <= bound ==> |plane.log| <= bound
  {
    shown, left := [], fuel;
    var page;
    page, after := ReadPage(plane, c, limit, others, turn, env, bound);
    left := left - 1;
    if page.Failure? {
      return shown, left, Stopped(page.kind), after;
    }
    PageEffect(plane.log, after, limit);
    ghost var log := plane.log;
    shown, left := PrintRows(page.rows, left);
    if |shown| < |page.rows| || left == 0 {
      return shown, left, Cut, after;
    }
    var ack := AckPage(plane, c, page.next, others, turn + 1, env, bound);
    FollowsLonger(shown, log, plane.log, after);
    left := left - 1;
    return shown, left, if ack.Failure? then Stopped(ack.kind) else if page.more then More else Last, after;
  }

  method Open(plane: Plane, c: Id, others: (nat, Db) -> Db, env: Env, ghost bound: nat) returns (reply: Reply)
    requires OthersContinue(c, others) && Sound(c, plane.channels)
    modifies plane
    ensures Extends(old(plane.log), plane.log) && Sound(c, plane.channels)
    ensures CursorOf(plane.channels, c) >= CursorOf(old(plane.channels), c)
    ensures OthersLeave(c, others) ==> CursorOf(plane.channels, c) == CursorOf(old(plane.channels), c)
    ensures if Proper(c) then !reply.Failure? && c in plane.channels else reply == Failure(ControlError)
    ensures Bounded(others, bound) && |old(plane.log)| <= bound ==> |plane.log| <= bound
  {
    Yield(plane, others, 0);
    OpenEffect(plane.world, plane.Contents(), c, env);
    reply := plane.ServeOpen(c, 0, env);
  }

  lemma RiseOver(printed: seq<Numbered>, shown: seq<Numbered>, log: seq<Row>, log': seq<Row>, start: nat, after: nat)
    requires Rising(printed, log, start) && Extends(log, log')
    requires UpTo(printed, after) && start <= after && Follows(shown, log', after)
    ensures Rising(printed + shown, log', start) && UpTo(printed + shown, after + |shown|)
  {
    RisingLonger(printed, log, log', start);
    RiseMore(printed, shown, log', start, after);
  }

  lemma PrintOver(printed: seq<Numbered>, shown: seq<Numbered>, log: seq<Row>, log': seq<Row>, start: nat)
    requires Extends(log, log')
    ensures Follows(printed, log, start) && Follows(shown, log', start + |printed|) ==>
              Follows(printed + shown, log', start)
  {
    if Follows(printed, log, start) && Follows(shown, log', start + |printed|) {
      FollowsLonger(printed, log, log', start);
      PrintMore(printed, shown, log', start);
    }
  }

  /** What a session without other readers leaves: the cursor lies within what it printed, at most a page behind. */
  ghost predicate Alone(printed: seq<Numbered>, log: seq<Row>, start: nat, cursor: int, limit: int) {
    && Follows(printed, log, start) && start <= cursor <= start + |printed|
    && (printed != [] ==> start + |printed| <= cursor + limit)
  }

  /** Between two rounds; `alone` says that nobody else uses the channel. */
  ghost predicate Between(printed: seq<Numbered>, log: seq<Row>, start: nat, cursor: int, alone: bool, limit: int) {
    && start <= cursor && Rising(printed, log, start) && UpTo(printed, cursor) && (printed != [] ==> limit > 0)
    && (alone ==> Follows(printed, log, start) && cursor == start + |printed|)
  }

  /** After the session, however it ended. */
  ghost predicate Over(printed: seq<Numbered>, log: seq<Row>, start: nat, cursor: int, alone: bool, limit: int) {
    && start <= cursor && Rising(printed, log, start)
    && (alone ==> Alone(printed, log, start, cursor, limit))
  }

  lemma RoundOver(printed: seq<Numbered>, shown: seq<Numbered>, log: seq<Row>, log': seq<Row>,
                  start: nat, cursor: int, cursor': int, after: nat, alone: bool, limit: int)
    requires Between(printed, log, start, cursor, alone, limit) && Extends(log, log') && Follows(shown, log', after)
    requires cursor <= after && cursor <= cursor' && (shown != [] ==> 0 < |shown| <= limit)
    requires alone ==> after == cursor && (cursor' == cursor || cursor' == after + |shown|)
    ensures after + |shown| <= cursor' ==> Between(printed + shown, log', start, cursor', alone, limit)
    ensures Over(printed + shown, log', start, cursor', alone, limit)
  {
    RiseOver(printed, shown, log, log', start, after);
    PrintOver(printed, shown, log, log', start);
  }

  /** Rounds until the log is read, or for ever when following, or until the session is cut off. */
  method Rounds(plane: Plane, c: Id, limit: int, follow: bool, fuel: nat, others: (nat, Db) -> Db, env: Env,
                ghost bound: nat)
    returns (printed: seq<Numbered>, end: End)
    requires OthersContinue(c, others) && Proper(c) && c in plane.channels && Sound(c, plane.channels)
    modifies plane
    ensures Extends(old(plane.log), plane.log) && c in plane.channels && Sound(c, plane.channels)
    ensures Over(printed, plane.log, old(plane.channels[c].cursor), plane.channels[c].cursor,
                 OthersLeave(c, others), limit)
    ensures end.Ended? ==>
              && plane.channels[c].cursor >= |old(plane.log)| && !follow
              && (OthersLeave(c, others) ==> plane.channels[c].cursor == old(plane.channels[c].cursor) + |printed|)
    ensures end.Died? ==> !(1 <= limit <= 500) || !OthersLeave(c, others)
    ensures !follow && |old(plane.log)| <= bound && Bounded(others, bound) && fuel >= 3 * bound + 2 ==>
              !end.Interrupted?
  {
    printed := [];
    var left, turn := fuel, 1;
    ghost var start: nat, log0, alone := plane.channels[c].cursor, plane.log, OthersLeave(c, others);
    ghost var enough := !follow && |plane.log| <= bound && Bounded(others, bound) && fuel >= 3 * bound + 2;
    while left > 0
      invariant c in plane.channels && Sound(c, plane.channels) && Extends(log0, plane.log)
      invariant Between(printed, plane.log, start, plane.channels[c].cursor, alone, limit)
      invariant enough ==> |plane.log| <= bound && left >= 2 + 3 * Max(0, bound - plane.channels[c].cursor)
      decreases left
    {
      ghost var log, cursor := plane.log, plane.channels[c].cursor;
      var shown, rest, roundEnd;
      ghost var after;
      shown, rest, roundEnd, after := Round(plane, c, limit, left, others, turn, env, bound);
      RoundOver(printed, shown, log, plane.log, start, cursor, plane.channels[c].cursor, after, alone, limit);
      printed, left, turn := printed + shown, rest, turn + 2;
      match roundEnd {
        case More =>
        case Last =>
          if !follow {
            return printed, Ended;
          }
        case Cut =>
          return printed, Interrupted;
        case Stopped(kind) =>
          return printed, Died(kind);
      }
    }
    return printed, Interrupted;
  }

  /**
   * One session against a running control plane. `fuel` counts the calls and the printed lines that happen before
   * the session is cut off, so that every place of an interruption is covered. Other readers of the same channel can
   * take events away, but never bring one back.
   */
  method Session(plane: Plane, c: Id, limit: int, follow: bool, fuel: nat, others: (nat, Db) -> Db, env: Env,
                 ghost bound: nat)
    returns (printed: seq<Numbered>, end: End)
    requires OthersContinue(c, others) && Sound(c, plane.channels)
    modifies plane
    ensures Extends(old(plane.log), plane.log) && Sound(c, plane.channels)
    ensures CursorOf(old(plane.channels), c) <= CursorOf(plane.channels, c)
    ensures Rising(printed, plane.log, CursorOf(old(plane.channels), c))
    ensures end.Ended? ==> CursorOf(plane.channels, c) >= |old(plane.log)| && !follow
    ensures end.Died? ==> !Proper(c) || !(1 <= limit <= 500) || !OthersLeave(c, others)
    ensures !follow && |old(plane.log)| <= bound && Bounded(others, bound) && fuel >= 3 * bound + 3 ==>
              !end.Interrupted?
    ensures OthersLeave(c, others) ==>
              var start, cursor := CursorOf(old(plane.channels), c), CursorOf(plane.channels, c);
              && Alone(printed, plane.log, start, cursor, limit)
              && (end.Ended? ==> cursor == start + |printed|)
  {
    printed := [];
    if fuel == 0 {
      return printed, Interrupted;
    }
    ghost var start: nat := CursorOf(plane.channels, c);
    var answer := Open(plane, c, others, env, bound);
    if answer.Failure? {
      return printed, Died(answer.kind);
    }
    ghost var first: nat := plane.channels[c].cursor;
    printed, end := Rounds(plane, c, limit, follow, fuel - 1, others, env, bound);
    RisingSooner(printed, plane.log, start, first);
  }

  lemma RisingSooner(printed: seq<Numbered>, log: seq<Row>, start: nat, later: nat)
    requires start <= later && Rising(printed, log, later)
    ensures Rising(printed, log, start)
  {
  }

  /** A session that stops on a log which holds nothing further has printed the whole rest of the log. */
  lemma WholeSuffix(printed: seq<Numbered>, log: seq<Row>, start: nat)
    requires Follows(printed, log, start) && start <= |log| <= start + |printed|
    ensures printed == Rows(log, start, |log|)
  {
    if printed != [] {
      assert IsEvent(log, start + (|printed| - 1), printed[|printed| - 1]);
    }
    forall i | 0 <= i < |printed| ensures printed[i] == Rows(log, start, |log|)[i] {
      assert IsEvent(log, start + i, printed[i]);
    }
  }

  // ---- Sessions that are cut off and resumed

  /** Where a session started, what it printed, and the cursor it left. */
  datatype Past = Past(start: nat, printed: seq<Numbered>, next: nat)

  ghost predicate PastOf(p: Past, log: seq<Row>, limit: int) {
    Alone(p.printed, log, p.start, p.next, limit)
  }

  /** With other readers: every session prints rising events, and none starts behind where an earlier one ended. */
  ghost predicate Onward(history: seq<Past>, log: seq<Row>) {
    && (forall i | 0 <= i < |history| ::
          Rising(history[i].printed, log, history[i].start) && history[i].start <= history[i].next)
    && (forall i, j | 0 <= i < |history| && j == i + 1 < |history| :: history[i].next <= history[j].start)
  }

  /** Each session starts at the cursor that the one before it left. */
  ghost predicate Resumed(history: seq<Past>, log: seq<Row>, start: nat, limit: int) {
    && (forall i | 0 <= i < |history| :: PastOf(history[i], log, limit))
    && (history != [] ==> history[0].start == start)
    && (forall i, j | 0 <= i < |history| && j == i + 1 < |history| :: history[j].start == history[i].next)
  }

  function CursorAfter(history: seq<Past>, start: nat): nat {
    if history == [] then start else history[|history| - 1].next
  }

  lemma ResumedLonger(history: seq<Past>, log: seq<Row>, log': seq<Row>, start: nat, limit: int)
    requires Resumed(history, log, start, limit) && Extends(log, log')
    ensures Resumed(history, log', start, limit)
  {
    forall i | 0 <= i < |history| ensures PastOf(history[i], log', limit) {
      FollowsLonger(history[i].printed, log, log', history[i].start);
    }
  }

  lemma OnwardLonger(history: seq<Past>, log: seq<Row>, log': seq<Row>)
    requires Onward(history, log) && Extends(log, log')
    ensures Onward(history, log')
  {
    forall i | 0 <= i < |history| ensures Rising(history[i].printed, log', history[i].start) {
      RisingLonger(history[i].printed, log, log', history[i].start);
    }
  }

  lemma OnwardMore(history: seq<Past>, log: seq<Row>, p: Past)
    requires Onward(history, log) && Rising(p.printed, log, p.start) && p.start <= p.next
    requires history != [] ==> history[|history| - 1].next <= p.start
    ensures Onward(history + [p], log)
  {
  }

  lemma ResumedMore(history: seq<Past>, log: seq<Row>, start: nat, limit: int, p: Past)
    requires Resumed(history, log, start, limit) && PastOf(p, log, limit) && p.start == CursorAfter(history, start)
    ensures Resumed(history + [p], log, start, limit)
  {
  }

  /**
   * Any number of sessions on one channel, cut off anywhere, with restarts and other threads in between; `others(n)`
   * is what they do before and during session `n`.
   */
  method Sessions(plane: Plane, c: Id, limit: int, follow: bool, fuels: seq<nat>, others: nat -> (nat, Db) -> Db,
                  env: Env)
    returns (history: seq<Past>)
    requires (forall n: nat :: OthersContinue(c, others(n))) && Sound(c, plane.channels)
    modifies plane
    ensures |history| == |fuels| && Extends(old(plane.log), plane.log)
    ensures Onward(history, plane.log)
    ensures (forall n: nat :: OthersLeave(c, others(n))) ==>
              && Resumed(history, plane.log, CursorOf(old(plane.channels), c), limit)
              && CursorOf(plane.channels, c) == CursorAfter(history, CursorOf(old(plane.channels), c))
  {
    history := [];
    ghost var first: nat := CursorOf(plane.channels, c);
    ghost var log0, alone := plane.log, forall n: nat :: OthersLeave(c, others(n));
    for n := 0 to |fuels|
      invariant |history| == n && Extends(log0, plane.log) && Sound(c, plane.channels)
      invariant Onward(history, plane.log)
      invariant history != [] ==> history[n - 1].next == CursorOf(plane.channels, c)
      invariant alone ==>
                  && Resumed(history, plane.log, first, limit)
                  && CursorOf(plane.channels, c) == CursorAfter(history, first)
    {
      ghost var log := plane.log;
      var start := CursorOf(plane.channels, c);
      var printed, _ := Session(plane, c, limit, follow, fuels[n], others(n), env, 0);
      var past := Past(start, printed, CursorOf(plane.channels, c));
      OnwardLonger(history, log, plane.log);
      OnwardMore(history, plane.log, past);
      if alone {
        ResumedLonger(history, log, plane.log, first, limit);
        ResumedMore(history, plane.log, first, limit, past);
      }
      history := history + [past];
    }
  }

  ghost predicate Prints(p: Past, position: nat) {
    p.start <= position < p.start + |p.printed|
  }

  lemma {:induction false} StartsIncrease(history: seq<Past>, log: seq<Row>, start: nat, limit: int, i: nat, j: nat)
    requires Resumed(history, log, start, limit) && i < j < |history|
    ensures history[i].next <= history[j].start
    decreases j
  {
    if i + 1 < j {
      StartsIncrease(history, log, start, limit, i, j - 1);
      assert PastOf(history[j - 1], log, limit);
    }
  }

  /** Whatever the last session reached, every event from the first start on was printed by some session. */
  lemma {:induction false} NothingSkipped(history: seq<Past>, log: seq<Row>, start: nat, limit: int, position: nat)
    requires Resumed(history, log, start, limit) && history != []
    requires start <= position < history[|history| - 1].start + |history[|history| - 1].printed|
    ensures exists i | 0 <= i < |history| :: Prints(history[i], position)
  {
    var n := |history| - 1;
    if Prints(history[n], position) {
    } else {
      var rest := history[..n];
      assert rest[n - 1] == history[n - 1] && PastOf(history[n - 1], log, limit);
      NothingSkipped(rest, log, start, limit, position);
      var i :| 0 <= i < |rest| && Prints(rest[i], position);
      assert Prints(history[i], position);
    }
  }

  /** An event is printed again only if its session was cut off before acknowledging it: at most one page. */
  lemma RepeatsOnlyUnacknowledged(history: seq<Past>, log: seq<Row>, start: nat, limit: int,
                                  i: nat, j: nat, position: nat)
    requires Resumed(history, log, start, limit) && i < j < |history|
    requires Prints(history[i], position) && Prints(history[j], position)
    ensures history[i].next <= position < history[i].next + limit
  {
    StartsIncrease(history, log, start, limit, i, j);
    assert PastOf(history[i], log, limit);
  }

  // ---- Why the other threads leave the channel alone

  predicate Touches(l: Label, c: Id) {
    && l.ControlStep?
    && match l.command
       case OpenChannel(id, _) => id == c
       case ReadChannel(id, _) => id == c
       case AckChannel(id, _) => id == c
       case _ => false
  }

  lemma StepLeaves(w: World, labels: seq<Label>, k: nat, c: Id)
    requires k < |labels| && !Touches(labels[k], c)
    ensures LeavesChannel(c, Run(w, labels[..k]).db, Run(w, labels[..k + 1]).db)
  {
    StepEvolves(w, labels, k);
    RunStep(w, labels, k);
    var s := Run(w, labels[..k]);
    match labels[k]
    case ControlStep(command, env) =>
      StoreOnChannels(s.db, PlanFor(s.db, command, env).write);
      PlanLeaves(s.db, command, env, c);
    case _ => OtherStepsKeepChannels(w, s, labels[k]);
  }

  lemma PlanLeaves(db: Db, command: Command, env: Env, c: Id)
    requires !Touches(ControlStep(command, env), c)
    ensures var write := PlanFor(db, command, env).write; write.WriteChannel? ==> write.channelId != c
  {
  }

  lemma LeavesTransitive(c: Id, a: Db, b: Db, d: Db)
    requires LeavesChannel(c, a, b) && LeavesChannel(c, b, d)
    ensures LeavesChannel(c, a, d)
  {
    assert d.log[..|a.log|] == d.log[..|b.log|][..|a.log|];
  }

  /** Any steps of any threads, restarts included, leave a channel alone that they do not name. */
  lemma {:induction false} RunLeavesChannel(w: World, labels: seq<Label>, i: nat, j: nat, c: Id)
    requires i <= j <= |labels| && forall k | i <= k < j :: !Touches(labels[k], c)
    ensures LeavesChannel(c, Run(w, labels[..i]).db, Run(w, labels[..j]).db)
    decreases j
  {
    if i < j {
      RunLeavesChannel(w, labels, i, j - 1, c);
      StepLeaves(w, labels, j - 1, c);
      LeavesTransitive(c, Run(w, labels[..i]).db, Run(w, labels[..j - 1]).db, Run(w, labels[..j]).db);
    }
  }

  /** And any steps at all only continue it. */
  lemma RunContinuesChannel(w: World, labels: seq<Label>, i: nat, j: nat, c: Id)
    requires i <= j <= |labels|
    ensures ContinuesChannel(c, Run(w, labels[..i]).db, Run(w, labels[..j]).db)
  {
    RunEvolves(w, labels, i, j);
    RunBasics(w, labels[..j]);
  }
}
