/** What no later step undoes: finished calls and attempts, and what a denied admission leaves alone. */
module History {
  import opened Common
  import opened Tables
  import opened Sums
  import opened Quota
  import opened Admission
  import opened Steps
  import opened Discipline
  import opened Invariant
  import opened StepsInv
  import opened AdmissionInv
  import opened Runs
  import opened Books
  import opened Fairness
  import opened Stillness

  predicate FreshAttempt(calls: seq<Call>, a: Attempt) {
    a.call < |calls| ==> !Closed(calls[a.call].state)
  }

  /** Outcomes stand, and new requests are only made for calls that are not finished. */
  ghost predicate Remembers(db: Db, db': Db) {
    && CallsRemembered(db.calls, db'.calls)
    && |db.attempts| <= |db'.attempts|
    && (forall i :: 0 <= i < |db.attempts| ==> AttemptRemembered(db.attempts[i], db'.attempts[i]))
    && (forall i :: |db.attempts| <= i < |db'.attempts| ==> FreshAttempt(db.calls, db'.attempts[i]))
  }

  lemma RemembersSelf(db: Db)
    ensures Remembers(db, db)
  {
  }

  lemma RemembersTransitive(a: Db, b: Db, c: Db)
    requires Remembers(a, b) && Remembers(b, c)
    ensures Remembers(a, c)
  {
    forall i | 0 <= i < |a.calls| ensures CallRemembered(a.calls[i], c.calls[i]) {
      assert CallRemembered(a.calls[i], b.calls[i]) && CallRemembered(b.calls[i], c.calls[i]);
    }
    forall i | 0 <= i < |a.attempts| ensures AttemptRemembered(a.attempts[i], c.attempts[i]) {
      assert AttemptRemembered(a.attempts[i], b.attempts[i]) && AttemptRemembered(b.attempts[i], c.attempts[i]);
    }
    forall i | |a.attempts| <= i < |c.attempts| ensures FreshAttempt(a.calls, c.attempts[i]) {
      if i < |b.attempts| {
        assert FreshAttempt(a.calls, b.attempts[i]) && AttemptRemembered(b.attempts[i], c.attempts[i]);
      } else {
        assert FreshAttempt(b.calls, c.attempts[i]);
        if c.attempts[i].call < |a.calls| {
          assert CallRemembered(a.calls[c.attempts[i].call], b.calls[c.attempts[i].call]);
        }
      }
    }
  }

  lemma PassOverRemembers(db: Db, c: Id, v: Verdict)
    requires IsQueued(db, c)
    ensures Remembers(db, PassOver(db, c, v))
    ensures forall d: Id :: d != c && IsQueued(db, d) ==> IsQueued(PassOver(db, c, v), d)
  {
  }

  lemma GrantRemembers(cfg: Config, db: Db, c: Id, now: int)
    requires Refs(cfg, db) && IsQueued(db, c) && Grant(cfg, db, c, now).Some?
    ensures Remembers(db, Grant(cfg, db, c, now).value)
  {
    hide DispatchAt, SpendUses, Charge, GoalRefs, AgentForest, TaskForest, AgentRefs, TaskRefs, UsageRefs;
    SpendTouches(db, db.calls[c].task, now);
  }

  lemma {:induction false} ScanRemembers(cfg: Config, db: Db, ids: seq<Id>, caller: Id, now: int, denied: set<Id>)
    requires ValidConfig(cfg) && Refs(cfg, db) && Distinct(ids)
    requires forall i :: 0 <= i < |ids| ==> ids[i] < |db.calls| && IsQueued(db, ids[i])
    ensures Remembers(db, Scan(cfg, db, ids, caller, now, denied).0)
    decreases |ids|
  {
    hide ValidConfig, VerdictOf, Grant, PassOver, Refs, Remembers;
    if ids == [] {
      RemembersSelf(db);
    } else {
      var c := ids[0];
      var v := VerdictOf(cfg, db, c, now, denied);
      var next := PassOver(db, c, v);
      PassOverRefs(cfg, db, c, v);
      PassOverRemembers(db, c, v);
      if !v.Ready? {
        ScanRemembers(cfg, next, ids[1..], caller, now, denied);
        RemembersTransitive(db, next, Scan(cfg, next, ids[1..], caller, now, denied).0);
      } else if c == caller {
        ReadyRemembers(cfg, db, ids, caller, now, denied);
      }
    }
  }

  lemma ReadyRemembers(cfg: Config, db: Db, ids: seq<Id>, caller: Id, now: int, denied: set<Id>)
    requires ValidConfig(cfg) && Refs(cfg, db) && Distinct(ids) && ids != [] && ids[0] == caller
    requires forall i :: 0 <= i < |ids| ==> ids[i] < |db.calls| && IsQueued(db, ids[i])
    requires VerdictOf(cfg, db, caller, now, denied).Ready?
    ensures Remembers(db, Scan(cfg, db, ids, caller, now, denied).0)
    decreases |ids|, 0
  {
    hide ValidConfig, VerdictOf, Grant;
    var v := VerdictOf(cfg, db, caller, now, denied);
    var next := PassOver(db, caller, v);
    PassOverRefs(cfg, db, caller, v);
    PassOverRemembers(db, caller, v);
    assert IsQueued(next, caller);
    match Grant(cfg, next, caller, now)
    case None =>
      var rejected := Reject(next, caller);
      PassOverRefs(cfg, next, caller, Refused(ApprovalDenied));
      PassOverRemembers(next, caller, Refused(ApprovalDenied));
      ScanRemembers(cfg, rejected, ids[1..], caller, now, denied);
      RemembersTransitive(db, next, rejected);
      RemembersTransitive(db, rejected, Scan(cfg, rejected, ids[1..], caller, now, denied).0);
    case Some(granted) =>
      GrantRemembers(cfg, next, caller, now);
      RemembersTransitive(db, next, granted);
  }

  lemma AdmitRemembers(cfg: Config, db: Db, session: Session, now: int, denied: set<Id>)
    requires ValidConfig(cfg) && Refs(cfg, db)
    ensures Remembers(db, Admit(cfg, db, session, now, denied).0)
  {
    hide ValidConfig, Refs, Scan;
    CandidatesAreFairOrder(db);
    if Authorized(db, session) {
      ScanRemembers(cfg, db, Candidates(db), session.call, now, denied);
    }
  }

  lemma NextRemembers(cfg: Config, db: Db, step: Step)
    requires ValidConfig(cfg) && Refs(cfg, db)
    ensures Remembers(db, Next(cfg, db, step))
  {
    hide ValidConfig, Refs, Admit, CallsRemembered;
    if step.DoAdmit? {
      AdmitRemembers(cfg, db, step.session, step.now, step.denied);
    } else {
      StepStill(cfg, db, step);
    }
  }

  lemma {:induction false} RunRemembers(cfg: Config, states: seq<Db>, steps: seq<Step>, i: nat, j: nat)
    requires ValidConfig(cfg) && IsRun(cfg, states, steps) && i <= j <= |steps|
    ensures Remembers(states[i], states[j])
  {
    hide Next, Plausible, Refs, ValidConfig;
    if i < j {
      RunRemembers(cfg, states, steps, i, j - 1);
      NextRemembers(cfg, states[j - 1], steps[j - 1]);
      RemembersTransitive(states[i], states[j - 1], states[j]);
    }
  }

  /** A finished call stays finished: whatever happens later, restarts included, it keeps its state
      and is never dispatched again. In particular an outcome that a crash left unknown is never replayed. */
  lemma FinalityTheorem(cfg: Config, states: seq<Db>, steps: seq<Step>, i: nat, j: nat, c: Id)
    requires ValidConfig(cfg) && IsRun(cfg, states, steps) && i <= j <= |steps|
    requires c < |states[i].calls| && Closed(states[i].calls[c].state)
    ensures c < |states[j].calls| && states[j].calls[c].state == states[i].calls[c].state
    ensures |states[i].attempts| <= |states[j].attempts|
    ensures forall k :: |states[i].attempts| <= k < |states[j].attempts| ==> states[j].attempts[k].call != c
  {
    hide Next, Plausible, Refs, ValidConfig;
    RunRemembers(cfg, states, steps, i, j);
    assert CallRemembered(states[i].calls[c], states[j].calls[c]);
    forall k | |states[i].attempts| <= k < |states[j].attempts| ensures states[j].attempts[k].call != c {
      assert FreshAttempt(states[i].calls, states[j].attempts[k]);
    }
  }

  /** A worker's call joins the queue: it is a candidate from then on unless 64 queued calls precede it, and
      nobody who was queued already changes places. */
  lemma QueueJoins(db: Db, session: Session)
    requires Authorized(db, session) && db.calls[session.call].state == Awaiting
    ensures var db', c := QueueCall(db, session), session.call;
            && IsQueued(db', c)
            && (c in Candidates(db') || (|Candidates(db')| == MAX_CANDIDATES && forall i :: 0 <= i < MAX_CANDIDATES ==> Before(db', Candidates(db')[i], c)))
            && (forall d: Id :: d != c ==> IsQueued(db', d) == IsQueued(db, d))
            && (forall d, e :: 0 <= d < |db.calls| && 0 <= e < |db.calls| ==> Before(db', d, e) == Before(db, d, e))
  {
    hide Candidates;
    CandidatesAreFairOrder(QueueCall(db, session));
  }

  /** A worker gives up: a request that was dispatched is never canceled, and a call that was canceled stays so
      and is never dispatched. */
  lemma CancelTheorem(cfg: Config, states: seq<Db>, steps: seq<Step>, i: nat, j: nat)
    requires ValidConfig(cfg) && IsRun(cfg, states, steps) && i < j <= |steps| && steps[i].DoCancel? && Authorized(states[i], steps[i].session)
    ensures var c := steps[i].session.call;
            if states[i].calls[c].state == Awaiting || states[i].calls[c].state == Queued then
              && c < |states[j].calls| && states[j].calls[c].state == Canceled && |states[i].attempts| <= |states[j].attempts|
              && forall k :: |states[i].attempts| <= k < |states[j].attempts| ==> states[j].attempts[k].call != c
            else states[i + 1] == states[i]
  {
    hide Plausible, Refs, ValidConfig;
    var c := steps[i].session.call;
    if states[i].calls[c].state == Awaiting || states[i].calls[c].state == Queued {
      FinalityTheorem(cfg, states, steps, i + 1, j, c);
    }
  }

  predicate TaskStopped(tasks: seq<Task>, t: Id) { t < |tasks| && tasks[t].stopped }

  lemma ReadyNotStopped(cfg: Config, db: Db, c: Id, now: int, denied: set<Id>)
    requires ValidConfig(cfg) && Refs(cfg, db) && c < |db.calls| && VerdictOf(cfg, db, c, now, denied).Ready?
    ensures !TaskStopped(db.tasks, db.calls[c].task)
  {
    hide AllFit, PollAll, PayersAfford, GoalRefs, AgentForest, TaskForest, UsageRefs;
  }

  /** A new request is for an existing call of a task that is not stopped. */
  lemma NewRequest(cfg: Config, db: Db, step: Step, k: nat)
    requires ValidConfig(cfg) && Inv(cfg, db) && |db.attempts| <= k < |Next(cfg, db, step).attempts|
    ensures var c := Next(cfg, db, step).attempts[k].call; c < |db.calls| && !TaskStopped(db.tasks, db.calls[c].task)
  {
    hide Refs, ValidConfig, Balanced, Capped, Disciplined, Approvals.ApprovalsHold, Work.WorkHolds, Limits.Limited, Admit, VerdictOf;
    if step.DoAdmit? {
      AdmissionExactly(cfg, db, step.session, step.now, step.denied);
      ReadyNotStopped(cfg, db, step.session.call, step.now, step.denied);
    } else {
      StepStill(cfg, db, step);
      assert false;
    }
  }

  /** Once a task is marked as stopped, no later step makes a request for any of its calls, whenever the
      call was created. */
  lemma {:induction false} StoppedTheorem(cfg: Config, states: seq<Db>, steps: seq<Step>, i: nat, j: nat, t: Id)
    requires ValidConfig(cfg) && IsRun(cfg, states, steps) && states[0] == EMPTY && i <= j <= |steps| && TaskStopped(states[i].tasks, t)
    ensures TaskStopped(states[j].tasks, t) && |states[i].attempts| <= |states[j].attempts|
    ensures forall k :: |states[i].attempts| <= k < |states[j].attempts| ==>
              states[j].attempts[k].call < |states[j].calls| && states[j].calls[states[j].attempts[k].call].task != t
  {
    hide Next, Plausible, ValidConfig, Inv, Refs;
    if i < j {
      StoppedTheorem(cfg, states, steps, i, j - 1, t);
      EmptyInv(cfg);
      RunInv(cfg, states, steps, j - 1);
      NextInv(cfg, states[j - 1], steps[j - 1]);
      NextRemembers(cfg, states[j - 1], steps[j - 1]);
      forall k | |states[i].attempts| <= k < |states[j].attempts|
        ensures states[j].attempts[k].call < |states[j].calls| && states[j].calls[states[j].attempts[k].call].task != t
      {
        if k >= |states[j - 1].attempts| {
          NewRequest(cfg, states[j - 1], steps[j - 1], k);
        } else {
          assert AttemptRemembered(states[j - 1].attempts[k], states[j].attempts[k]);
        }
        assert CallKeeps(states[j - 1].calls[states[j].attempts[k].call], states[j].calls[states[j].attempts[k].call]);
      }
    }
  }
}
