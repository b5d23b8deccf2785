/** Termination and stopping keep the invariant of the delivery protocol. */
module TaskEnds {
  import opened Common
  import opened Sums
  import opened Team
  import opened Mailbox
  import opened TeamInvariant

  // ----- switches -----

  /** Only states, controls and closings of systems, goals and agents differ. */
  ghost predicate Switched(db: Store, db': Store) {
    && db' == db.(systems := db'.systems, goals := db'.goals, agents := db'.agents)
    && |db'.systems| == |db.systems| && |db'.goals| == |db.goals| && |db'.agents| == |db.agents|
    && (forall s :: 0 <= s < |db.systems| ==> db'.systems[s] == db.systems[s].(state := db'.systems[s].state))
    && (forall g :: 0 <= g < |db.goals| ==> db'.goals[g].system == db.goals[g].system)
    && (forall a :: 0 <= a < |db.agents| ==> db'.agents[a].system == db.agents[a].system && db'.agents[a].goal == db.agents[a].goal)
  }

  lemma SwitchedShape(db: Store, db': Store)
    requires Shape(db) && Switched(db, db')
    ensures Shape(db')
  {
    forall t | 0 <= t < |db'.tasks| ensures TaskFits(db', t) { assert TaskFits(db, t); }
    forall m | 0 <= m < |db'.mails| ensures MailFits(db', m) { assert MailFits(db, m); }
    forall a | 0 <= a < |db'.agents| ensures AgentFits(db', a) { assert AgentFits(db, a); }
  }

  lemma SwitchedInv(db: Store, db': Store, x: int, astray: set<Id>)
    requires InvBut(db, x, astray) && Switched(db, db')
    ensures InvBut(db', x, astray) && Keeps(db, db', {})
  {
    hide Shape;
    SwitchedShape(db, db');
    assert forall s: Id :: SystemLoad(db', s) == SystemLoad(db, s);
    assert forall g: Id :: GoalLoad(db', g) == GoalLoad(db, g);
    forall t | 0 <= t < |db'.tasks| && t != x && t !in astray ensures PledgeHolds(db', t) {
      assert PledgeHolds(db, t) && Pledges(db', t) == Pledges(db, t);
    }
    forall t | 0 <= t < |db'.tasks| && t != x && t !in astray ensures TaskWaits(db', t) { assert TaskWaits(db, t); }
  }

  lemma SetSystemSwitches(db: Store, s: Id, state: SystemState)
    ensures Switched(db, SetSystem(db, s, state))
  {
  }

  lemma CloseGoalSwitches(db: Store, s: Id, g: Id)
    ensures Switched(db, CloseGoal(db, s, g))
  {
  }

  lemma SweepSwitches(db: Store)
    ensures Switched(db, SweepSystems(db))
  {
  }

  // ----- one task ends -----

  lemma MarkDoneShape(db: Store, t: Id, outcome: Outcome)
    requires Shape(db) && LiveTask(db, t)
    ensures Shape(MarkDone(db, t, outcome))
  {
    var db' := MarkDone(db, t, outcome);
    forall k | 0 <= k < |db'.tasks| ensures TaskFits(db', k) { assert TaskFits(db, k); }
    forall m | 0 <= m < |db'.mails| ensures MailFits(db', m) { assert MailFits(db, m); }
    forall a | 0 <= a < |db'.agents| ensures AgentFits(db', a) { assert AgentFits(db, a); }
  }

  /** Ending a task frees the capacity that was reserved for its report. */
  lemma MarkDoneLoads(db: Store, t: Id, outcome: Outcome, s: Id, g: Id)
    requires LiveTask(db, t)
    ensures SystemLoad(MarkDone(db, t, outcome), s) == SystemLoad(db, s) - (if db.tasks[t].system == s then 1 else 0)
    ensures GoalLoad(MarkDone(db, t, outcome), g) == GoalLoad(db, g) - (if db.tasks[t].goal == g then 1 else 0)
  {
    var db' := MarkDone(db, t, outcome);
    SumSame(db'.mails, db.mails, MailInSystem(s), MailInSystem(s));
    SumSame(db'.mails, db.mails, MailInGoal(g), MailInGoal(g));
    SumUpdate(db.tasks, t, db'.tasks[t], LiveInSystem(s));
    SumUpdate(db.tasks, t, db'.tasks[t], LiveInGoal(g));
  }

  lemma MarkDonePledges(db: Store, t: Id, outcome: Outcome, x: Id)
    requires LiveTask(db, t) && x != t
    ensures Pledges(MarkDone(db, t, outcome), x)
            == Pledges(db, x) - (if db.tasks[t].parent == Some(x) && !db.tasks[t].evaluation then 1 else 0)
  {
    var db' := MarkDone(db, t, outcome);
    SumSame(db'.mails, db.mails, ReplyTo(x), ReplyTo(x));
    SumUpdate(db.tasks, t, db'.tasks[t], DelegateOf(x));
  }

  lemma MarkDoneTalks(db: Store, t: Id, outcome: Outcome, astray: set<Id>)
    requires TalkBut(db, t, astray) && WaitsBut(db, t, astray) && Requests(db, astray) && LiveTask(db, t)
    ensures var db' := MarkDone(db, t, outcome); TalkBut(db', -1, astray) && WaitsBut(db', -1, astray) && Requests(db', astray)
  {
    var db' := MarkDone(db, t, outcome);
    forall k | 0 <= k < |db'.tasks| && k !in astray ensures TaskWaits(db', k) && TaskTalks(db'.tasks[k]) {
      if k != t { assert TaskWaits(db, k) && TaskTalks(db.tasks[k]); }
    }
  }

  lemma MarkDoneDeliveries(db: Store, t: Id, outcome: Outcome)
    requires Deliveries(db) && LiveTask(db, t)
    ensures Deliveries(MarkDone(db, t, outcome)) && Keeps(db, MarkDone(db, t, outcome), {})
  {
    var db' := MarkDone(db, t, outcome);
    forall m | 0 <= m < |db'.mails| ensures MailCounted(db'.mails[m]) { assert MailCounted(db.mails[m]); }
  }

  /** The parent of a live delegate that keeps its pledge is waiting for exactly this one. */
  lemma DelegateIsThePledge(db: Store, t: Id, p: Id)
    requires LiveTask(db, t) && LiveTask(db, p) && PledgeHolds(db, p) && !db.tasks[p].stopped
    requires db.tasks[t].parent == Some(p) && !db.tasks[t].evaluation
    ensures db.tasks[p].waitingTool.Some? && Pledges(db, p) == 1
  {
    SumMember(db.tasks, t, DelegateOf(p));
    SumNonnegative(db.mails, ReplyTo(p));
  }

  /** The task is in order but for its pledge: the delegate it waits for has just ended. */
  predicate Bereft(db: Store, p: Id)
    requires p < |db.tasks|
  {
    && TaskTalks(db.tasks[p]) && TaskWaits(db, p)
    && (LiveTask(db, p) && !db.tasks[p].stopped ==> Pledges(db, p) == 0 && db.tasks[p].waitingTool.Some?)
  }

  /** After its end is recorded the only open account is the parent's, which lost its pledge. */
  lemma MarkDoneInv(db: Store, t: Id, outcome: Outcome, astray: set<Id>)
    requires InvBut(db, t, astray) && LiveTask(db, t)
    ensures var db' := MarkDone(db, t, outcome);
            var r := db.tasks[t];
            && Keeps(db, db', {})
            && (r.parent.None? || r.evaluation ==> Inv(db', astray))
            && (r.parent.Some? && !r.evaluation ==>
                  && r.parent.value < t && InvBut(db', r.parent.value, astray)
                  && (r.parent.value !in astray ==> Bereft(db', r.parent.value)))
  {
    hide TaskTalks, TaskWaits, Requests, Deliveries, Pledges, SystemLoad, GoalLoad;
    var db' := MarkDone(db, t, outcome);
    var r := db.tasks[t];
    assert TaskFits(db, t);
    MarkDoneShape(db, t, outcome);
    MarkDoneTalks(db, t, outcome, astray);
    MarkDoneDeliveries(db, t, outcome);
    forall s: Id ensures SystemLoad(db', s) <= MAX_SYSTEM_EVENTS { MarkDoneLoads(db, t, outcome, s, 0); }
    forall g: Id ensures GoalLoad(db', g) <= MAX_GOAL_EVENTS { MarkDoneLoads(db, t, outcome, 0, g); }
    forall k | 0 <= k < |db'.tasks| && k !in astray && !(r.parent == Some(k) && !r.evaluation) ensures PledgeHolds(db', k) {
      if k != t {
        assert PledgeHolds(db, k);
        MarkDonePledges(db, t, outcome, k);
      }
    }
    if r.parent.Some? && !r.evaluation {
      var p := r.parent.value;
      MarkDonePledges(db, t, outcome, p);
      if LiveTask(db, p) && !db.tasks[p].stopped && p !in astray {
        assert PledgeHolds(db, p);
        DelegateIsThePledge(db, t, p);
      }
    }
  }

  lemma NoOpenAccount(db: Store, x: int, astray: set<Id>)
    requires InvBut(db, x, astray)
    requires 0 <= x < |db.tasks| && x !in astray ==> TaskHolds(db, x)
    ensures Inv(db, astray)
  {
    hide Shape, Reserve, Requests, Deliveries;
  }

  lemma OneExcepted(db: Store, x: int, astray: set<Id>)
    requires Inv(db, astray)
    ensures InvBut(db, x, astray)
  {
    hide Shape, Reserve, Requests, Deliveries;
  }

  lemma RootEnds(db: Store, s: Id, g: Id, astray: set<Id>)
    requires Inv(db, astray)
    ensures Inv(CloseGoal(db, s, g), astray) && Keeps(db, CloseGoal(db, s, g), {})
  {
    CloseGoalSwitches(db, s, g);
    SwitchedInv(db, CloseGoal(db, s, g), -1, astray);
  }

  /** Termination closes the task's own account and settles its parent's, by a reply or, when the reply
      is refused, by ending the parent too, up to the root. */
  lemma {:induction false} TerminateInv(db: Store, t: Id, outcome: Outcome, source: Source, cause: Option<Id>, now: int, astray: set<Id>)
    requires InvBut(db, t, astray)
    ensures var db' := Terminate(db, t, outcome, source, cause, now);
            Inv(db', astray) && Keeps(db, db', {}) && !LiveTask(db', t)
    decreases t
  {
    hide InvBut, Keeps, Pledges, Refuses, MarkDone, CloseGoal, TaskHolds, TaskTalks, TaskWaits;
    if !LiveTask(db, t) {
      DoneHolds(db, t);
      NoOpenAccount(db, t, astray);
      KeepsSelf(db, {});
    } else {
      var ended := MarkDone(db, t, outcome);
      var r := db.tasks[t];
      MarkDoneInv(db, t, outcome, astray);
      MarkedDone(db, t, outcome);
      if r.evaluation {
      } else if r.parent.None? {
        RootEnds(ended, r.system, r.goal, astray);
        KeepsTransitive(db, ended, CloseGoal(ended, r.system, r.goal), {});
        KeepsDone(ended, CloseGoal(ended, r.system, r.goal), t);
      } else {
        ParentTold(db, ended, t, source, cause, now, astray);
      }
    }
  }

  lemma MarkedDone(db: Store, t: Id, outcome: Outcome)
    requires LiveTask(db, t)
    ensures t < |MarkDone(db, t, outcome).tasks| && !LiveTask(MarkDone(db, t, outcome), t)
    ensures MarkDone(db, t, outcome).tasks[t].parent == db.tasks[t].parent
    ensures MarkDone(db, t, outcome).tasks[t].evaluation == db.tasks[t].evaluation
  {
  }

  lemma DoneHolds(db: Store, t: Id)
    requires !LiveTask(db, t)
    ensures t < |db.tasks| ==> TaskHolds(db, t)
  {
  }

  lemma KeepsDone(db: Store, db': Store, t: Id)
    requires Keeps(db, db', {}) && t < |db.tasks| && !LiveTask(db, t)
    ensures !LiveTask(db', t)
  {
    assert TaskKeeps(db.tasks[t], db'.tasks[t]);
  }

  lemma ParentTold(was: Store, ended: Store, t: Id, source: Source, cause: Option<Id>, now: int, astray: set<Id>)
    requires Keeps(was, ended, {}) && t < |ended.tasks| && !LiveTask(ended, t)
    requires ended.tasks[t].parent.Some? && !ended.tasks[t].evaluation
    requires var p := ended.tasks[t].parent.value;
             p < t && InvBut(ended, p, astray) && (p !in astray ==> Bereft(ended, p))
    ensures var p := ended.tasks[t].parent.value;
            var db' := if LiveTask(ended, p) && !ended.tasks[p].stopped then
                         match Emit(ended, p, Result(t), source, cause, now)
                         case Some(told) => told
                         case None => Terminate(ended, p, Rejected, Runtime, cause, now)
                       else ended;
            Inv(db', astray) && Keeps(was, db', {}) && !LiveTask(db', t)
    decreases t, 0
  {
    hide InvBut, Keeps, Pledges, Refuses, Emit, TaskTalks, TaskWaits;
    var p := ended.tasks[t].parent.value;
    if LiveTask(ended, p) && !ended.tasks[p].stopped {
      match Emit(ended, p, Result(t), source, cause, now)
      case Some(told) =>
        EmitInv(ended, p, Result(t), source, cause, now, p, astray);
        EmitSame(ended, p, Result(t), source, cause, now);
        NoOpenAccount(told, p, astray);
        KeepsTransitive(was, ended, told, {});
      case None =>
        TerminateInv(ended, p, Rejected, Runtime, cause, now, astray);
        KeepsDone(ended, Terminate(ended, p, Rejected, Runtime, cause, now), t);
        KeepsTransitive(was, ended, Terminate(ended, p, Rejected, Runtime, cause, now), {});
    } else {
      NoOpenAccount(ended, p, astray);
    }
  }

  lemma EmitSame(db: Store, t: Id, kind: Kind, source: Source, cause: Option<Id>, now: int)
    requires t < |db.tasks| && Emit(db, t, kind, source, cause, now).Some?
    ensures Emit(db, t, kind, source, cause, now).value.tasks == db.tasks
  {
  }

  /** A child's report is never refused for want of shared capacity or time: only the recipient's
      queue, the length of the causal chain or the sender's rate can turn it away. */
  lemma ReplyHasRoom(db: Store, t: Id, outcome: Outcome, source: Source, cause: Option<Id>, now: int)
    requires Shape(db) && Reserve(db) && LiveTask(db, t) && db.tasks[t].parent.Some? && db.tasks[t].parent.value < |db.tasks|
    ensures var refusal := Refuses(MarkDone(db, t, outcome), db.tasks[t].parent.value, Result(t), source, cause, now);
            refusal.Some? ==> refusal.value == RecipientQueue || refusal.value == TooDeep || refusal.value == SourceRate
  {
    assert TaskFits(db, t);
    MarkDoneLoads(db, t, outcome, db.tasks[t].system, db.tasks[t].goal);
    var p := db.tasks[t].parent.value;
    assert db.tasks[p].system == db.tasks[t].system && db.tasks[p].goal == db.tasks[t].goal;
    assert SystemLoad(db, db.tasks[t].system) <= MAX_SYSTEM_EVENTS && GoalLoad(db, db.tasks[t].goal) <= MAX_GOAL_EVENTS;
  }
}
