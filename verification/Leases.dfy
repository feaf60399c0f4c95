/** Leases: fences count up from one, and the live periods of different fences never overlap. */
module Leases {
  import opened Records
  import opened Protocol
  import opened Runs
  import opened Admission

  /** One acquisition of a resource: who holds it, from when, and until when as last agreed. */
  datatype Grant = Grant(owner: string, token: string, start: int, end: int)

  /** What an answered step does to the acquisitions of one resource, told by its command and the clock. */
  ghost function AfterStep(db: Db, l: Label, resource: string, grants: seq<Grant>): seq<Grant> {
    if !l.ControlStep? || !PlanFor(db, l.command, l.env).reply.LeaseReply? then grants
    else
      var now := l.env.now(1);
      match l.command
      case AcquireLease(r, owner, ttl) =>
        if r == resource then grants + [Grant(owner, l.env.newId, now, now + ttl)] else grants
      case ExtendLease(release, r, _, _, ttl) =>
        if r != resource || grants == [] then grants
        else
          var end := if release then now else now + ttl;
          grants[|grants| - 1 := grants[|grants| - 1].(end := end)]
      case _ => grants
  }

  /** The acquisitions of a resource over a run, in order. */
  ghost function Grants(w: World, labels: seq<Label>, resource: string): seq<Grant> {
    if labels == [] then []
    else
      var n := |labels| - 1;
      AfterStep(Run(w, labels[..n]).db, labels[n], resource, Grants(w, labels[..n], resource))
  }

  /** The stored lease is the last acquisition, and its fence is the number of acquisitions. */
  ghost predicate LeaseIsLastGrant(db: Db, resource: string, grants: seq<Grant>) {
    if grants == [] then resource !in db.leases
    else
      var last := grants[|grants| - 1];
      resource in db.leases && db.leases[resource] == Lease(last.owner, last.token, |grants|, last.end)
  }

  predicate WellFormed(resource: string, owner: string, ttl: int) {
    Proper(resource) && Proper(owner) && 1 <= ttl <= 3600
  }

  predicate Live(db: Db, resource: string, now: int) {
    resource in db.leases && db.leases[resource].expiresAt > now
  }

  /** The caller names the owner and the token of a lease that has not ended. */
  predicate Holds(db: Db, resource: string, owner: string, token: string, now: int) {
    && Live(db, resource, now) && Proper(token)
    && db.leases[resource].owner == owner && db.leases[resource].token == token
  }

  lemma AcquirePlan(db: Db, resource: string, owner: string, ttl: int, env: Env)
    ensures var plan := PlanFor(db, AcquireLease(resource, owner, ttl), env);
            if WellFormed(resource, owner, ttl) && !Live(db, resource, env.now(0)) then
              && plan.write.WriteLease? && plan.write.resource == resource
              && plan.write.lease == Lease(owner, env.newId, plan.write.lease.fence, env.now(1) + ttl)
              && plan.write.lease.fence == (if resource in db.leases then db.leases[resource].fence + 1 else 1)
              && plan.reply == LeaseReply(plan.write.lease)
            else plan.write.Nothing? && plan.event.None? && plan.reply.Failure?
  {
  }

  lemma ExtendPlan(db: Db, release: bool, resource: string, owner: string, token: string, ttl: int, env: Env)
    ensures var plan := PlanFor(db, ExtendLease(release, resource, owner, token, ttl), env);
            if WellFormed(resource, owner, ttl) && Holds(db, resource, owner, token, env.now(0)) then
              && plan.write.WriteLease? && plan.write.resource == resource
              && plan.write.lease == db.leases[resource].(expiresAt := env.now(1) + if release then 0 else ttl)
              && plan.reply == LeaseReply(plan.write.lease)
            else plan.write.Nothing? && plan.event.None? && plan.reply.Failure?
  {
  }

  lemma PerformOnLeases(w: World, db: Db, plan: Plan)
    ensures plan.write.WriteLease? ==>
              Perform(w, db, plan).leases == db.leases[plan.write.resource := plan.write.lease]
    ensures plan.write.Nothing? && plan.event.None? ==> Perform(w, db, plan) == db
  {
  }

  /** A free resource, and no other, is acquired: under the next fence, with a new token, until a time. */
  lemma AcquireExactly(w: World, db: Db, resource: string, owner: string, ttl: int, env: Env)
    ensures var (db', reply) := Control(w, db, AcquireLease(resource, owner, ttl), env);
            if WellFormed(resource, owner, ttl) && !Live(db, resource, env.now(0)) then
              && resource in db'.leases && reply == LeaseReply(db'.leases[resource])
              && db'.leases == db.leases[resource := db'.leases[resource]]
              && db'.leases[resource].owner == owner && db'.leases[resource].token == env.newId
              && db'.leases[resource].expiresAt == env.now(1) + ttl
              && db'.leases[resource].fence ==
                   (if resource in db.leases then db.leases[resource].fence + 1 else 1)
            else db' == db && reply.Failure?
  {
    AcquirePlan(db, resource, owner, ttl, env);
    PerformOnLeases(w, db, PlanFor(db, AcquireLease(resource, owner, ttl), env));
  }

  /** A holder, and nobody else, extends its lease or gives it up; only the end moves. */
  lemma ExtendExactly(w: World, db: Db, release: bool, resource: string, owner: string, token: string, ttl: int,
                      env: Env)
    ensures var (db', reply) := Control(w, db, ExtendLease(release, resource, owner, token, ttl), env);
            if WellFormed(resource, owner, ttl) && Holds(db, resource, owner, token, env.now(0)) then
              && resource in db'.leases && reply == LeaseReply(db'.leases[resource])
              && db'.leases == db.leases[resource := db'.leases[resource]]
              && db'.leases[resource] == db.leases[resource].(expiresAt := db'.leases[resource].expiresAt)
              && db'.leases[resource].expiresAt == env.now(1) + if release then 0 else ttl
            else db' == db && reply.Failure?
  {
    ExtendPlan(db, release, resource, owner, token, ttl, env);
    PerformOnLeases(w, db, PlanFor(db, ExtendLease(release, resource, owner, token, ttl), env));
  }

  /** The journal tells an acquisition, a renewal and a release apart, and under which fence they were. */
  lemma LeaseStepsAreJournalled(w: World, db: Db, command: Command, env: Env)
    ensures var (db', reply) := Control(w, db, command, env);
            reply.LeaseReply? ==>
              && |db'.log| == |db.log| + 1 && db'.log[|db.log|].event.LeaseChanged?
              && var event := db'.log[|db.log|].event;
                 && (event.action == Acquire <==> command.AcquireLease?)
                 && (event.action == Release <==> command.ExtendLease? && command.release)
                 && event.owner == reply.lease.owner && event.fence == reply.lease.fence
                 && (command.AcquireLease? || command.ExtendLease?) && event.resource == command.resource
  {
  }

  /** What a control operation does to the lease table. */
  lemma LeaseWrites(db: Db, command: Command, env: Env)
    ensures var plan := PlanFor(db, command, env);
            if plan.write.WriteLease? then
              && (command.AcquireLease? || command.ExtendLease?) && 1 <= command.ttl
              && plan.write.resource == command.resource && plan.reply == LeaseReply(plan.write.lease)
              && var lease := plan.write.lease;
                 if command.AcquireLease? then
                   && lease.owner == command.owner && lease.token == env.newId
                   && lease.expiresAt == env.now(1) + command.ttl
                   && lease.fence ==
                        (if command.resource in db.leases then db.leases[command.resource].fence + 1 else 1)
                   && !Live(db, command.resource, env.now(0))
                 else
                   && Holds(db, command.resource, command.owner, command.token, env.now(0))
                   && lease == db.leases[command.resource].(expiresAt := lease.expiresAt)
                   && lease.expiresAt == env.now(1) + if command.release then 0 else command.ttl
            else !plan.reply.LeaseReply?
  {
  }

  lemma StoreOnLeases(db: Db, write: Write)
    ensures Store(db, write).leases ==
            match write
            case WriteLease(r, lease) => db.leases[r := lease]
            case _ => db.leases
  {
  }

  lemma CommandKeepsGrants(w: World, db: Db, command: Command, env: Env, resource: string, grants: seq<Grant>)
    requires LeaseIsLastGrant(db, resource, grants)
    ensures LeaseIsLastGrant(Control(w, db, command, env).0, resource,
                             AfterStep(db, ControlStep(command, env), resource, grants))
  {
    LeaseWrites(db, command, env);
    StoreOnLeases(db, PlanFor(db, command, env).write);
  }

  lemma OtherStepsKeepLeases(w: World, s: System, l: Label)
    requires !l.ControlStep?
    ensures Next(w, s, l).db.leases == s.db.leases
  {
    match l
    case BeginStep(req, env) => BeginCases(w, s.enforce, s.db, req, env);
    case FinishStep(id, result, env) =>
      if id in s.inflight && id in s.db.executions {
        FinishFrame(w, s.db, id, result.(executionId := id), env);
      }
    case AbandonStep(_, _) =>
    case OutsideStep(_, _) =>
    case RestartStep(_, env) => RecoverFrame(w, s.db, env.now);
  }

  /** Acquisition number `n` of a resource has fence `n`: fences are 1, 2, 3, ... over the whole run. */
  lemma {:induction false} FencesCountAcquisitions(w: World, labels: seq<Label>, resource: string)
    ensures LeaseIsLastGrant(Run(w, labels).db, resource, Grants(w, labels, resource))
  {
    if labels != [] {
      var n := |labels| - 1;
      RunLast(w, labels);
      FencesCountAcquisitions(w, labels[..n], resource);
      var s := Run(w, labels[..n]);
      match labels[n] {
        case ControlStep(command, env) =>
          CommandKeepsGrants(w, s.db, command, env, resource, Grants(w, labels[..n], resource));
        case _ => OtherStepsKeepLeases(w, s, labels[n]);
      }
    }
  }

  /** A step appends an acquisition, moves the end of the last one, or leaves them alone. */
  ghost predicate Moves(before: seq<Grant>, after: seq<Grant>, now: nat -> int) {
    || after == before
    || (&& before != [] && |after| == |before|
        && after == before[|before| - 1 := before[|before| - 1].(end := after[|before| - 1].end)]
        && after[|before| - 1].end >= now(1))
    || (&& |after| == |before| + 1 && after[..|before|] == before
        && after[|before|].start == now(1) <= after[|before|].end
        && (before != [] ==> before[|before| - 1].end <= now(0)))
  }

  lemma LastStepMoves(w: World, labels: seq<Label>, resource: string)
    requires labels != []
    ensures var n := |labels| - 1;
            Moves(Grants(w, labels[..n], resource), Grants(w, labels, resource), labels[n].env.now)
  {
    var n := |labels| - 1;
    FencesCountAcquisitions(w, labels[..n], resource);
    if labels[n].ControlStep? {
      LeaseWrites(Run(w, labels[..n]).db, labels[n].command, labels[n].env);
    }
  }

  /** Acquisitions start when the clock was read, so no later than any bound on the readings of the run. */
  lemma {:induction false} GrantsAreOld(w: World, labels: seq<Label>, resource: string, t: int)
    requires forall i | 0 <= i < |labels| :: labels[i].env.now(1) <= t
    ensures forall g | 0 <= g < |Grants(w, labels, resource)| :: Grants(w, labels, resource)[g].start <= t
  {
    if labels != [] {
      GrantsAreOld(w, labels[..|labels| - 1], resource, t);
      LastStepMoves(w, labels, resource);
    }
  }

  ghost predicate Disjoint(grants: seq<Grant>) {
    && (forall g | 0 <= g < |grants| :: grants[g].start <= grants[g].end)
    && (forall a, b | 0 <= a < b < |grants| :: grants[a].end <= grants[b].start)
  }

  lemma MovesKeepDisjoint(before: seq<Grant>, after: seq<Grant>, now: nat -> int)
    requires Disjoint(before) && Moves(before, after, now) && now(0) <= now(1)
    requires forall g | 0 <= g < |before| :: before[g].start <= now(1)
    ensures Disjoint(after)
  {
    var n := |before|;
    if |after| == n + 1 {
      assert forall g | 0 <= g < n :: after[g] == before[g];
      assert forall a | 0 <= a < n - 1 :: before[a].end <= before[n - 1].start <= before[n - 1].end;
    }
  }

  /** While the clock does not go backwards, an acquisition starts only after all earlier ones have ended. */
  lemma {:induction false} PeriodsNeverOverlap(w: World, labels: seq<Label>, resource: string)
    requires Timely(labels)
    ensures Disjoint(Grants(w, labels, resource))
  {
    if labels != [] {
      var n := |labels| - 1;
      RunLast(w, labels);
      assert Timely(labels[..n]);
      PeriodsNeverOverlap(w, labels[..n], resource);
      GrantsAreOld(w, labels[..n], resource, labels[n].env.now(1));
      LastStepMoves(w, labels, resource);
      assert labels[n].env.now(0) <= labels[n].env.now(1);
      MovesKeepDisjoint(Grants(w, labels[..n], resource), Grants(w, labels, resource), labels[n].env.now);
    }
  }

  /** Dispatches admitted under leases on one resource carry non-decreasing fences; one fence has one holder. */
  lemma DispatchFencesNeverDecrease(w: World, labels: seq<Label>, i: nat, j: nat)
    requires i < j < |labels| && Admits(w, labels, i) && Admits(w, labels, j)
    requires labels[i].req.lease.Some? && labels[j].req.lease.Some?
    requires labels[i].req.lease.value.resource == labels[j].req.lease.value.resource
    ensures var x, y := labels[i].req.lease.value, labels[j].req.lease.value;
            && x.fence <= y.fence
            && (x.fence == y.fence ==> x.owner == y.owner && x.token == y.token)
  {
    var s, t := Run(w, labels[..i]), Run(w, labels[..j]);
    AdmissionExactly(w, s.enforce, s.db, labels[i].req, labels[i].env);
    AdmissionExactly(w, t.enforce, t.db, labels[j].req, labels[j].env);
    RunEvolves(w, labels, i, j);
  }

  // ---- After the end of a lease

  /** The lease with this fence had ended at the time, or a later one has taken its place. */
  ghost predicate Over(db: Db, resource: string, fence: int, t: int) {
    && resource in db.leases
    && (fence < db.leases[resource].fence || (fence == db.leases[resource].fence && !Live(db, resource, t)))
  }

  /** What has ended is not extended any more. */
  lemma NextKeepsOver(w: World, s: System, l: Label, resource: string, fence: int, t: int)
    requires Over(s.db, resource, fence, t) && t <= l.env.now(0)
    ensures Over(Next(w, s, l).db, resource, fence, t)
  {
    if l.ControlStep? {
      LeaseWrites(s.db, l.command, l.env);
      StoreOnLeases(s.db, PlanFor(s.db, l.command, l.env).write);
    } else {
      OtherStepsKeepLeases(w, s, l);
    }
  }

  lemma {:induction false} RunKeepsOver(w: World, labels: seq<Label>, i: nat, j: nat, resource: string, fence: int,
                                        t: int)
    requires i <= j <= |labels| && Over(Run(w, labels[..i]).db, resource, fence, t)
    requires forall k | i <= k < j :: t <= labels[k].env.now(0)
    ensures Over(Run(w, labels[..j]).db, resource, fence, t)
    decreases j
  {
    if i < j {
      RunKeepsOver(w, labels, i, j - 1, resource, fence, t);
      RunStep(w, labels, j - 1);
      NextKeepsOver(w, Run(w, labels[..j - 1]), labels[j - 1], resource, fence, t);
    }
  }

  /** While the clock does not go backwards, no request is ever dispatched again under a lease that has ended. */
  lemma EndedLeasesAdmitNothing(w: World, labels: seq<Label>, i: nat, j: nat, m: nat, resource: string, fence: int)
    requires Timely(labels) && i < j < |labels|
    requires Over(Run(w, labels[..i + 1]).db, resource, fence, labels[i].env.now(m))
    requires labels[j].BeginStep? && labels[j].req.lease.Some?
    requires labels[j].req.lease.value.resource == resource && labels[j].req.lease.value.fence == fence
    ensures !Admits(w, labels, j)
  {
    var t, s := labels[i].env.now(m), Run(w, labels[..j]);
    RunKeepsOver(w, labels, i + 1, j, resource, fence, t);
    AdmissionExactly(w, s.enforce, s.db, labels[j].req, labels[j].env);
    assert t <= labels[j].env.now(0);
  }

  /** Step `i` is an answered release, which gave up the lease with this fence. */
  ghost predicate Releases(w: World, labels: seq<Label>, i: nat, resource: string, fence: int) {
    && i < |labels| && labels[i].ControlStep? && labels[i].command.ExtendLease? && labels[i].command.release
    && labels[i].command.resource == resource
    && var reply := Control(w, Run(w, labels[..i]).db, labels[i].command, labels[i].env).1;
    && reply.LeaseReply? && reply.lease.fence == fence
  }

  lemma ReleaseEnds(w: World, labels: seq<Label>, i: nat, resource: string, fence: int)
    requires Releases(w, labels, i, resource, fence)
    ensures Over(Run(w, labels[..i + 1]).db, resource, fence, labels[i].env.now(1))
  {
    var c, db := labels[i].command, Run(w, labels[..i]).db;
    RunStep(w, labels, i);
    ExtendExactly(w, db, true, resource, c.owner, c.token, c.ttl, labels[i].env);
  }

  /** A lease that was given up protects nothing any more: its holder cannot use it either. */
  lemma ReleasedLeasesAdmitNothing(w: World, labels: seq<Label>, i: nat, j: nat, resource: string, fence: int)
    requires Timely(labels) && i < j < |labels| && Releases(w, labels, i, resource, fence)
    requires labels[j].BeginStep? && labels[j].req.lease.Some?
    requires labels[j].req.lease.value.resource == resource && labels[j].req.lease.value.fence == fence
    ensures !Admits(w, labels, j)
  {
    ReleaseEnds(w, labels, i, resource, fence);
    EndedLeasesAdmitNothing(w, labels, i, j, 1, resource, fence);
  }

  /**
   * A resource that was given up is free at once: whoever asks next, properly, gets it under the next fence. It is
   * refused only when somebody else acquired it in between, which the stored fence then tells.
   */
  lemma ReleasedResourceIsFree(w: World, labels: seq<Label>, i: nat, j: nat, resource: string, fence: int)
    requires Timely(labels) && i < j < |labels| && Releases(w, labels, i, resource, fence)
    requires labels[j].ControlStep? && labels[j].command.AcquireLease? && labels[j].command.resource == resource
    requires WellFormed(resource, labels[j].command.owner, labels[j].command.ttl)
    ensures var db := Run(w, labels[..j]).db;
            var reply := Control(w, db, labels[j].command, labels[j].env).1;
            && resource in db.leases
            && (db.leases[resource].fence > fence
                || (reply.LeaseReply? && reply.lease.owner == labels[j].command.owner
                    && reply.lease.fence == fence + 1))
  {
    var c, db := labels[j].command, Run(w, labels[..j]).db;
    ReleaseEnds(w, labels, i, resource, fence);
    RunKeepsOver(w, labels, i + 1, j, resource, fence, labels[i].env.now(1));
    assert labels[i].env.now(1) <= labels[j].env.now(0);
    AcquireExactly(w, db, resource, c.owner, c.ttl, labels[j].env);
  }
}
