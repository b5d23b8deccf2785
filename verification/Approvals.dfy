/** Approval uses: a finite allowance, spent once per task at its first dispatch. */
module Approvals {
  import opened Common
  import opened Tables
  import opened Admission

  function UsesOf(uses: set<(Id, Id)>, p: Id): set<(Id, Id)> {
    set u | u in uses && u.0 == p
  }

  /** What remains of an approval plus the distinct tasks that used it is what was granted. */
  predicate ApprovalBalanced(db: Db, p: Id)
    requires p in db.approvals
  {
    db.approvals[p].remaining + |UsesOf(db.uses, p)| == db.approvals[p].granted
  }

  /** Every dispatched attempt's task holds a use of each of its local tools. */
  predicate AttemptPaid(db: Db, a: Attempt) {
    a.call < |db.calls| && db.calls[a.call].task < |db.tasks| &&
    forall p :: p in db.tasks[db.calls[a.call].task].pins ==> (p, db.calls[a.call].task) in db.uses
  }

  ghost predicate ApprovalsHold(db: Db) {
    && (forall p :: p in db.approvals ==> ApprovalBalanced(db, p))
    && (forall u :: u in db.uses ==> u.0 in db.approvals && u.1 < |db.tasks|)
    && (forall i :: 0 <= i < |db.attempts| ==> AttemptPaid(db, db.attempts[i]))
  }

  lemma SpendOne(uses: set<(Id, Id)>, unpaid: seq<Id>, t: Id, p: Id)
    requires forall q :: q in unpaid ==> (q, t) !in uses
    ensures |UsesOf(uses + set q | q in unpaid :: (q, t), p)| == |UsesOf(uses, p)| + (if p in unpaid then 1 else 0)
  {
    var after := uses + set q | q in unpaid :: (q, t);
    if p in unpaid {
      assert UsesOf(after, p) == UsesOf(uses, p) + {(p, t)};
    } else {
      assert UsesOf(after, p) == UsesOf(uses, p);
    }
  }

  /** Spending conserves every approval, pays each pin of the task exactly once, and succeeds exactly
      when every pin is approved, unexpired and either already paid or still available. */
  lemma SpendConserves(db: Db, t: Id, now: int)
    requires t < |db.tasks| && forall p :: p in db.approvals ==> ApprovalBalanced(db, p)
    ensures SpendUses(db, t, now).Some? <==> forall p :: p in db.tasks[t].pins ==> PinUsable(db, t, p, now)
    ensures SpendUses(db, t, now).Some? ==>
              var paid := SpendUses(db, t, now).value;
              && (forall p :: p in paid.approvals ==> ApprovalBalanced(paid, p))
              && (forall p :: p in db.tasks[t].pins ==> (p, t) in paid.uses)
              && paid.uses - db.uses == (set p | p in db.tasks[t].pins && (p, t) !in db.uses :: (p, t))
              && db.uses <= paid.uses
  {
    if SpendUses(db, t, now).Some? {
      var paid := SpendUses(db, t, now).value;
      var unpaid := Unpaid(db.uses, t, db.tasks[t].pins);
      forall p | p in paid.approvals ensures ApprovalBalanced(paid, p) {
        SpendOne(db.uses, unpaid, t, p);
        assert ApprovalBalanced(db, p);
        if p in unpaid {
          assert PinUsable(db, t, p, now);
        }
      }
    }
  }
}
