/** Revocation, denial and expiry are final for a request and for everything delegated below it. */
module Grants {
  import opened Common
  import opened Records
  import opened Protocol
  import opened Runs
  import opened Admission

  ghost predicate Withdrawn(approval: Approval) {
    approval.state == Revoked || approval.state == Denied
  }

  /** The approval gives no permission at this time. */
  ghost predicate Dead(approval: Approval, now: int) {
    Withdrawn(approval) || (approval.state == Approved && approval.expiresAt.GetOr(0) <= now)
  }

  lemma DeadStaysDead(x: Approval, y: Approval, before: int, after: int)
    requires ApprovalLater(x, y) && Dead(x, before) && (Withdrawn(x) || before <= after)
    ensures Dead(y, after)
  {
  }

  /** The request needs the approval `id`: for itself, or for an ancestor at any depth. */
  ghost predicate Needs(db: Db, enforce: bool, req: Request, id: Id) {
    || (req.requestId == Some(id) && Gated(enforce, req))
    || exists k | 0 <= k < |NewChain(db, req)| - 1 :: NewChain(db, req)[k].executionId == id
  }

  lemma DeadBlocks(w: World, enforce: bool, db: Db, req: Request, env: Env, id: Id)
    requires id in db.approvals && forall k: nat :: Dead(db.approvals[id], env.now(k))
    requires Needs(db, enforce, req, id)
    ensures !Admissible(w, enforce, db, req, env)
  {
    if !(req.requestId == Some(id) && Gated(enforce, req)) {
      var n: nat :| n < |NewChain(db, req)| - 1 && NewChain(db, req)[n].executionId == id;
      assert !Granted(db.approvals, db.executions[req.parentId].chain[n].executionId, env.now(1 + n));
    }
  }

  /**
   * Once an approval is revoked or denied, or has expired while the clock does not go backwards,
   * no later step admits a request that depends on it.
   */
  lemma DeadGrantsAdmitNothing(w: World, labels: seq<Label>, i: nat, j: nat, id: Id, k: nat)
    requires i < j < |labels| && id in Run(w, labels[..i + 1]).db.approvals
    requires Dead(Run(w, labels[..i + 1]).db.approvals[id], labels[i].env.now(k))
    requires Timely(labels) || Withdrawn(Run(w, labels[..i + 1]).db.approvals[id])
    requires labels[j].BeginStep? && Needs(Run(w, labels[..j]).db, Run(w, labels[..j]).enforce, labels[j].req, id)
    ensures !Admits(w, labels, j)
  {
    RunEvolves(w, labels, i + 1, j);
    var s := Run(w, labels[..j]);
    forall n: nat ensures Dead(s.db.approvals[id], labels[j].env.now(n)) {
      DeadStaysDead(Run(w, labels[..i + 1]).db.approvals[id], s.db.approvals[id],
                    labels[i].env.now(k), labels[j].env.now(n));
    }
    DeadBlocks(w, s.enforce, s.db, labels[j].req, labels[j].env, id);
    AdmissionExactly(w, s.enforce, s.db, labels[j].req, labels[j].env);
  }

  /** `NewChain` is the chain that the admitted execution is recorded with. */
  lemma AdmittedChain(w: World, labels: seq<Label>, j: nat)
    requires j < |labels| && Admits(w, labels, j)
    ensures var id := labels[j].req.requestId.GetOr("");
            && id in Run(w, labels[..j + 1]).db.executions
            && Run(w, labels[..j + 1]).db.executions[id].chain == NewChain(Run(w, labels[..j]).db, labels[j].req)
  {
    var s := Run(w, labels[..j]);
    RunStep(w, labels, j);
    AdmissionExactly(w, s.enforce, s.db, labels[j].req, labels[j].env);
  }

  /**
   * A gated dispatch carries exactly the hash that its approval records, whenever one looks at the approval:
   * when the owner was asked, when the owner decided, or later.
   */
  lemma ApprovalBindsRequest(w: World, labels: seq<Label>, j: nat, m: nat)
    requires j < |labels| && m <= |labels| && Admits(w, labels, j)
    requires Gated(Run(w, labels[..j]).enforce, labels[j].req)
    requires labels[j].req.requestId.GetOr("") in Run(w, labels[..m]).db.approvals
    ensures Run(w, labels[..m]).db.approvals[labels[j].req.requestId.GetOr("")].requestHash ==
            RequestHash(w, labels[j].req)
  {
    var s := Run(w, labels[..j]);
    AdmissionExactly(w, s.enforce, s.db, labels[j].req, labels[j].env);
    if j <= m {
      RunEvolves(w, labels, j, m);
    } else {
      RunEvolves(w, labels, m, j);
    }
  }
}
