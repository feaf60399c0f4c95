/** What the owner decides about a request, what the owner was shown, and for how long a decision holds. */
module Approvals {
  import opened Common
  import opened Records
  import opened Protocol
  import opened Runs
  import opened Admission
  import opened Effects

  // ---- One decision

  predicate Decidable(db: Db, id: Id, ttl: int) {
    Proper(id) && id in db.approvals && db.approvals[id].state == Pending && 1 <= ttl <= 3600
  }

  /** A decision on a pending approval allows or denies it until a time; any other decision changes nothing. */
  lemma DecisionTakesEffect(w: World, db: Db, id: Id, allow: bool, ttl: int, env: Env)
    ensures var (db', reply) := Control(w, db, DecideApproval(id, Some(allow), ttl), env);
            if Decidable(db, id, ttl) then
              && id in db'.approvals && reply == ApprovalReply(db'.approvals[id])
              && db'.approvals == db.approvals[id := db'.approvals[id]]
              && (db'.approvals[id].state == Approved <==> allow) && (db'.approvals[id].state == Denied <==> !allow)
              && db'.approvals[id].expiresAt == Some(env.now(0) + ttl)
            else db' == db && reply.Failure?
  {
  }

  // ---- Decisions over runs

  /** The step decides the approval, one way or the other. */
  ghost predicate Decides(db: Db, l: Label, id: Id) {
    && l.ControlStep? && l.command.DecideApproval? && l.command.id == id && l.command.allow.Some?
    && Decidable(db, id, l.command.ttl)
  }

  ghost predicate IsRevocation(l: Label, id: Id) {
    l.ControlStep? && l.command == RevokeApproval(id)
  }

  lemma StoreOnApprovals(db: Db, write: Write)
    ensures Store(db, write).approvals ==
            match write
            case WriteApproval(id, a) => db.approvals[id := a]
            case _ => db.approvals
  {
  }

  /** Only decisions and revocations write approvals. */
  lemma ApprovalWrites(db: Db, command: Command, env: Env, id: Id)
    ensures var write := PlanFor(db, command, env).write;
            write.WriteApproval? && write.approvalId == id ==>
              && id in db.approvals && Proper(id)
              && match command
                 case RevokeApproval(_) => command.id == id && write.approval == db.approvals[id].(state := Revoked)
                 case DecideApproval(_, allow, ttl) =>
                   && command.id == id && Decidable(db, id, ttl) && allow.Some?
                   && write.approval == db.approvals[id].(state := if allow.value then Approved else Denied,
                                                          expiresAt := Some(env.now(0) + ttl))
                 case _ => false
    ensures command == RevokeApproval(id) && Proper(id) && id in db.approvals ==>
              PlanFor(db, command, env).write.WriteApproval? && PlanFor(db, command, env).write.approvalId == id
    ensures command.DecideApproval? && command.id == id && command.allow.Some? && Decidable(db, id, command.ttl) ==>
              PlanFor(db, command, env).write.WriteApproval? && PlanFor(db, command, env).write.approvalId == id
  {
  }

  function At(approvals: map<Id, Approval>, id: Id): Option<Approval> {
    if id in approvals then Some(approvals[id]) else None
  }

  /** What one step does to one approval. */
  ghost predicate Moves(s: System, l: Label, id: Id, before: Option<Approval>, after: Option<Approval>) {
    if before.None? then after.Some? ==> l.BeginStep? && after.value.state == Pending
    else
      var a := before.value;
      after == Some(
        if Decides(s.db, l, id) then
          a.(state := if l.command.allow.value then Approved else Denied,
             expiresAt := Some(l.env.now(0) + l.command.ttl))
        else if IsRevocation(l, id) && Proper(id) then a.(state := Revoked)
        else a)
  }

  lemma NextMoves(w: World, s: System, l: Label, id: Id)
    ensures Moves(s, l, id, At(s.db.approvals, id), At(Next(w, s, l).db.approvals, id))
  {
    match l
    case ControlStep(command, env) =>
      ApprovalWrites(s.db, command, env, id);
      StoreOnApprovals(s.db, PlanFor(s.db, command, env).write);
    case BeginStep(req, env) => BeginCases(w, s.enforce, s.db, req, env);
    case FinishStep(f, result, env) =>
      if f in s.inflight && f in s.db.executions {
        FinishFrame(w, s.db, f, result.(executionId := f), env);
      }
    case AbandonStep(_, _) =>
    case OutsideStep(_, _) =>
    case RestartStep(_, env) => RecoverFrame(w, s.db, env.now);
  }

  /** Step `i` allows the request until then, and no step after it revokes that. */
  ghost predicate Allows(w: World, labels: seq<Label>, i: nat, id: Id, until: int) {
    && i < |labels| && Decides(Run(w, labels[..i]).db, labels[i], id)
    && labels[i].command.allow == Some(true) && until == labels[i].env.now(0) + labels[i].command.ttl
    && forall k | i < k < |labels| :: !IsRevocation(labels[k], id)
  }

  lemma AllowsEarlier(w: World, labels: seq<Label>, n: nat, i: nat, id: Id, until: int)
    requires i < n <= |labels| && Allows(w, labels, i, id, until)
    ensures Allows(w, labels[..n], i, id, until)
  {
    assert labels[..n][..i] == labels[..i];
  }

  lemma AllowsOn(w: World, labels: seq<Label>, i: nat, id: Id, until: int)
    requires labels != [] && Allows(w, labels[..|labels| - 1], i, id, until)
    requires IsRevocation(labels[|labels| - 1], id) ==> !Proper(id)
    ensures Allows(w, labels, i, id, until)
  {
    assert labels[..|labels| - 1][..i] == labels[..i];
  }

  lemma AllowsNow(w: World, labels: seq<Label>, id: Id)
    requires labels != [] && Decides(Run(w, labels[..|labels| - 1]).db, labels[|labels| - 1], id)
    requires labels[|labels| - 1].command.allow == Some(true)
    ensures var l := labels[|labels| - 1];
            Allows(w, labels, |labels| - 1, id, l.env.now(0) + l.command.ttl)
  {
  }

  lemma StepMoves(w: World, labels: seq<Label>, n: nat, id: Id)
    requires n < |labels|
    ensures Moves(Run(w, labels[..n]), labels[n], id, At(Run(w, labels[..n]).db.approvals, id),
                  At(Run(w, labels[..n + 1]).db.approvals, id))
  {
    RunStep(w, labels, n);
    NextMoves(w, Run(w, labels[..n]), labels[n], id);
  }

  ghost predicate InForce(db: Db, id: Id, until: int) {
    id in db.approvals && db.approvals[id].state == Approved && db.approvals[id].expiresAt == Some(until)
  }

  lemma {:induction false} AllowedIsInForce(w: World, labels: seq<Label>, i: nat, id: Id, until: int)
    requires Allows(w, labels, i, id, until)
    ensures InForce(Run(w, labels).db, id, until)
  {
    var n := |labels| - 1;
    StepMoves(w, labels, n, id);
    assert labels[..n + 1] == labels;
    if i < n {
      AllowsEarlier(w, labels, n, i, id, until);
      AllowedIsInForce(w, labels[..n], i, id, until);
    }
  }

  /** An approval that no decision has just put in force was in force before, and is not revoked now. */
  lemma ApprovedBefore(w: World, labels: seq<Label>, n: nat, id: Id)
    requires n < |labels| && !Decides(Run(w, labels[..n]).db, labels[n], id)
    requires id in Run(w, labels[..n + 1]).db.approvals && Run(w, labels[..n + 1]).db.approvals[id].state == Approved
    ensures id in Run(w, labels[..n]).db.approvals && Run(w, labels[..n]).db.approvals[id].state == Approved
    ensures IsRevocation(labels[n], id) ==> !Proper(id)
  {
    StepMoves(w, labels, n, id);
  }

  /** Only a decision to allow puts an approval in force. */
  lemma ApprovedNow(w: World, labels: seq<Label>, n: nat, id: Id)
    requires n < |labels| && Decides(Run(w, labels[..n]).db, labels[n], id)
    requires id in Run(w, labels[..n + 1]).db.approvals && Run(w, labels[..n + 1]).db.approvals[id].state == Approved
    ensures labels[n].command.allow == Some(true)
  {
    StepMoves(w, labels, n, id);
  }

  lemma {:induction false} ApprovedWasAllowed(w: World, labels: seq<Label>, id: Id) returns (i: nat, until: int)
    requires id in Run(w, labels).db.approvals && Run(w, labels).db.approvals[id].state == Approved
    ensures Allows(w, labels, i, id, until)
  {
    var n := |labels| - 1;
    assert labels[..n + 1] == labels;
    if Decides(Run(w, labels[..n]).db, labels[n], id) {
      ApprovedNow(w, labels, n, id);
      AllowsNow(w, labels, id);
      i, until := n, labels[n].env.now(0) + labels[n].command.ttl;
    } else {
      ApprovedBefore(w, labels, n, id);
      i, until := ApprovedWasAllowed(w, labels[..n], id);
      AllowsOn(w, labels, i, id, until);
    }
  }

  /** An approval is in force until a time if and only if the owner allowed it until then and never revoked it since. */
  lemma InForceExactly(w: World, labels: seq<Label>, id: Id, until: int)
    ensures InForce(Run(w, labels).db, id, until) <==> exists i :: Allows(w, labels, i, id, until)
  {
    if InForce(Run(w, labels).db, id, until) {
      var i, t := ApprovedWasAllowed(w, labels, id);
      AllowedIsInForce(w, labels, i, id, t);
    }
    if i: nat :| Allows(w, labels, i, id, until) {
      AllowedIsInForce(w, labels, i, id, until);
    }
  }

  /** The owner must be asked: policy demands it, or the request names effects or a parent. */
  predicate NeedsOwner(enforce: bool, req: Request) {
    enforce || req.effects != None || req.parentId != ""
  }

  ghost predicate AllowedPast(w: World, labels: seq<Label>, id: Id, now: int) {
    exists i, until :: Allows(w, labels, i, id, until) && until > now
  }

  /**
   * A request that needs its owner is dispatched if and only if it passes every other check and its owner allowed
   * exactly it, until after this moment, and did not revoke that. Other requests need no approval.
   */
  lemma DispatchNeedsOwnerExactly(w: World, labels: seq<Label>, j: nat)
    requires j < |labels| && labels[j].BeginStep?
    ensures var s, req, env := Run(w, labels[..j]), labels[j].req, labels[j].env;
            var id := req.requestId.GetOr("");
            Admits(w, labels, j) <==>
              && PassesScreen(s.db, req, env.now)
              && (NeedsOwner(s.enforce, req) ==>
                    && id in s.db.approvals && s.db.approvals[id].requestHash == RequestHash(w, req)
                    && AllowedPast(w, labels[..j], id, env.now(|NewChain(s.db, req)|)))
  {
    var s, req, env := Run(w, labels[..j]), labels[j].req, labels[j].env;
    var id, now := req.requestId.GetOr(""), env.now(|NewChain(s.db, req)|);
    AdmissionExactly(w, s.enforce, s.db, req, env);
    if OwnerApproved(w, s.db, req, now) {
      InForceExactly(w, labels[..j], id, s.db.approvals[id].expiresAt.value);
    }
    if i: nat, until :| Allows(w, labels[..j], i, id, until) && until > now {
      AllowedIsInForce(w, labels[..j], i, id, until);
    }
  }

  /** The owner also allowed every ancestor, past the moment at which it is looked up. */
  lemma AncestorsWereAllowed(w: World, labels: seq<Label>, j: nat, k: nat)
    requires j < |labels| && Admits(w, labels, j) && labels[j].req.parentId != ""
    requires k < |NewChain(Run(w, labels[..j]).db, labels[j].req)| - 1
    ensures var chain := NewChain(Run(w, labels[..j]).db, labels[j].req);
            AllowedPast(w, labels[..j], chain[k].executionId, labels[j].env.now(1 + k))
  {
    var s := Run(w, labels[..j]);
    var chain := NewChain(s.db, labels[j].req);
    AdmissionExactly(w, s.enforce, s.db, labels[j].req, labels[j].env);
    assert Granted(s.db.approvals, chain[k].executionId, labels[j].env.now(1 + k));
    var i, until := ApprovedWasAllowed(w, labels[..j], chain[k].executionId);
    AllowedIsInForce(w, labels[..j], i, chain[k].executionId, until);
  }

  // ---- What the owner was shown

  /** Step `i` asked the owner, who was shown this request. */
  ghost predicate Asked(w: World, labels: seq<Label>, i: nat, id: Id, a: Approval) {
    && i < |labels| && labels[i].BeginStep? && labels[i].req.requestId == Some(id) && !Admits(w, labels, i)
    && Shows(w, a, labels[i].req)
  }

  lemma NewApprovalAsked(w: World, labels: seq<Label>, n: nat, id: Id)
    requires n < |labels| && id !in Run(w, labels[..n]).db.approvals
    requires id in Run(w, labels[..n + 1]).db.approvals
    ensures Asked(w, labels, n, id, Run(w, labels[..n + 1]).db.approvals[id])
  {
    var s := Run(w, labels[..n]);
    RunStep(w, labels, n);
    StepMoves(w, labels, n, id);
    ApprovalAsAsked(w, s.enforce, s.db, labels[n].req, labels[n].env, id);
  }

  /** Every stored approval shows the request by which it came about. */
  lemma {:induction false} ApprovalsShowRequests(w: World, labels: seq<Label>, id: Id)
    requires id in Run(w, labels).db.approvals
    ensures exists i :: Asked(w, labels, i, id, Run(w, labels).db.approvals[id])
  {
    if labels != [] {
      var n := |labels| - 1;
      assert labels[..n + 1] == labels;
      if id in Run(w, labels[..n]).db.approvals {
        ApprovalsShowRequests(w, labels[..n], id);
        StepEvolves(w, labels, n);
        var i: nat :| Asked(w, labels[..n], i, id, Run(w, labels[..n]).db.approvals[id]);
        AdmitsEarlier(w, labels, n, i);
        assert Asked(w, labels, i, id, Run(w, labels).db.approvals[id]);
      } else {
        NewApprovalAsked(w, labels, n, id);
        assert Asked(w, labels, n, id, Run(w, labels).db.approvals[id]);
      }
    }
  }

  /** Two requests with one hash; requests are hashed without their ids. */
  ghost predicate Collide(w: World, a: Request, b: Request) {
    a != b && a.requestId == b.requestId == None && w.requestHash(a) == w.requestHash(b)
  }

  lemma HashBindsRequest(w: World, a: Request, b: Request)
    ensures a.(requestId := b.requestId) == b ==> RequestHash(w, a) == RequestHash(w, b)
    ensures RequestHash(w, a) == RequestHash(w, b) ==>
              a.(requestId := b.requestId) == b || Collide(w, a.(requestId := None), b.(requestId := None))
  {
  }

  /**
   * What is dispatched is what the owner was shown: the same request, field by field, unless the two are a collision
   * of the hash.
   */
  lemma OwnerSawTheRequest(w: World, labels: seq<Label>, j: nat)
    requires j < |labels| && Admits(w, labels, j) && NeedsOwner(Run(w, labels[..j]).enforce, labels[j].req)
    ensures exists i | 0 <= i < j ::
              && labels[i].BeginStep? && !Admits(w, labels, i)
              && labels[j].req.requestId == labels[i].req.requestId
              && Shows(w, Run(w, labels[..j]).db.approvals[labels[j].req.requestId.GetOr("")], labels[i].req)
              && (labels[i].req == labels[j].req
                  || Collide(w, labels[i].req.(requestId := None), labels[j].req.(requestId := None)))
  {
    var req := labels[j].req;
    var id := req.requestId.GetOr("");
    var s := Run(w, labels[..j]);
    DispatchNeedsOwnerExactly(w, labels, j);
    ApprovalsShowRequests(w, labels[..j], id);
    var a := s.db.approvals[id];
    var i: nat :| Asked(w, labels[..j], i, id, a);
    AdmitsEarlier(w, labels, j, i);
    HashBindsRequest(w, labels[i].req, req);
  }

  /** So what is recorded and journalled of a dispatch is what its approval lists. */
  lemma RecordedAsShown(w: World, labels: seq<Label>, j: nat)
    requires j < |labels| && Admits(w, labels, j) && NeedsOwner(Run(w, labels[..j]).enforce, labels[j].req)
    ensures var id := labels[j].req.requestId.GetOr("");
            var approvals, executions := Run(w, labels[..j]).db.approvals, Run(w, labels[..j + 1]).db.executions;
            && id in approvals && id in executions
            && (SameDetails(approvals[id], executions[id])
                || exists i | 0 <= i < j ::
                     labels[i].BeginStep?
                     && Collide(w, labels[i].req.(requestId := None), labels[j].req.(requestId := None)))
  {
    var s, req := Run(w, labels[..j]), labels[j].req;
    var id := req.requestId.GetOr("");
    DispatchNeedsOwnerExactly(w, labels, j);
    OwnerSawTheRequest(w, labels, j);
    RunStep(w, labels, j);
    AdmittedAsAsked(w, s.enforce, s.db, req, labels[j].env);
    if Shows(w, s.db.approvals[id], req) {
      SameRequestSameDetails(w, s.db.approvals[id], Run(w, labels[..j + 1]).db.executions[id], req);
    }
  }

  ghost predicate SameDetails(a: Approval, e: Execution) {
    a.effects == e.effects && a.op == e.op && a.agent == e.agent && a.taskId == e.taskId
  }

  lemma SameRequestSameDetails(w: World, a: Approval, e: Execution, req: Request)
    requires Shows(w, a, req) && Executes(w, e, req) && e.taskId == req.taskId
    ensures SameDetails(a, e)
  {
    assert forall f: Effect :: (f in a.effects) == (f in e.effects);
  }
}
