/** Rewriting single rows, and stopping: what each change keeps. */
module Rewrites {
  import opened Common
  import opened Sums
  import opened Team
  import opened Mailbox
  import opened TeamInvariant
  import opened TaskEnds

  // ----- one task row -----

  predicate SameTask(t: Task, t': Task) {
    && t'.system == t.system && t'.goal == t.goal && t'.agent == t.agent && t'.parent == t.parent && t'.evaluation == t.evaluation
    && (Live(t') <==> Live(t)) && (t.stopped ==> t'.stopped)
  }

  function SetTask(db: Store, t: Id, r: Task): Store
    requires t < |db.tasks|
  {
    db.(tasks := db.tasks[t := r])
  }

  lemma TaskSums(db: Store, t: Id, r: Task, k: Id)
    requires t < |db.tasks| && SameTask(db.tasks[t], r)
    ensures Pledges(SetTask(db, t, r), k) == Pledges(db, k)
    ensures SystemLoad(SetTask(db, t, r), k) == SystemLoad(db, k) && GoalLoad(SetTask(db, t, r), k) == GoalLoad(db, k)
  {
    SumUpdate(db.tasks, t, r, DelegateOf(k));
    SumUpdate(db.tasks, t, r, LiveInSystem(k));
    SumUpdate(db.tasks, t, r, LiveInGoal(k));
  }

  lemma TaskShape(db: Store, t: Id, r: Task)
    requires Shape(db) && t < |db.tasks| && SameTask(db.tasks[t], r) && r.call < |db.calls| && db.calls[r.call].task == t
    ensures Shape(SetTask(db, t, r))
  {
    var db' := SetTask(db, t, r);
    forall k | 0 <= k < |db'.tasks| ensures TaskFits(db', k) { assert TaskFits(db, k); }
    forall m | 0 <= m < |db'.mails| ensures MailFits(db', m) { assert MailFits(db, m); }
    forall a | 0 <= a < |db'.agents| ensures AgentFits(db', a) { assert AgentFits(db, a); }
  }

  /** A rewritten task keeps everyone else's accounts; its own is the caller's to settle. */
  lemma RewriteTask(db: Store, t: Id, r: Task, x: int, astray: set<Id>)
    requires InvBut(db, x, astray) && t < |db.tasks| && SameTask(db.tasks[t], r) && (x == -1 || x == t)
    requires r.call < |db.calls| && db.calls[r.call].task == t
    requires t !in astray ==> TaskTalks(r) && TaskWaits(SetTask(db, t, r), t)
    ensures InvBut(SetTask(db, t, r), t, astray)
    ensures (r.waitingTool.Some? ==> db.tasks[t].waitingTool.Some?) && (r.phase == Waiting ==> db.tasks[t].phase == Waiting) ==>
              Keeps(db, SetTask(db, t, r), {})
    ensures Pledges(SetTask(db, t, r), t) == Pledges(db, t)
    ensures t in astray || PledgeHolds(SetTask(db, t, r), t) ==> Inv(SetTask(db, t, r), astray)
  {
    hide Pledges, SystemLoad, GoalLoad, Shape;
    var db' := SetTask(db, t, r);
    TaskShape(db, t, r);
    forall k: Id ensures SystemLoad(db', k) <= MAX_SYSTEM_EVENTS && GoalLoad(db', k) <= MAX_GOAL_EVENTS { TaskSums(db, t, r, k); }
    forall k | 0 <= k < |db'.tasks| && k != t && k !in astray ensures PledgeHolds(db', k) {
      assert PledgeHolds(db, k);
      TaskSums(db, t, r, k);
    }
    TaskSums(db, t, r, t);
    forall k | 0 <= k < |db'.tasks| && k !in astray ensures TaskWaits(db', k) {
      if k != t { assert TaskWaits(db, k); }
    }
    forall k | 0 <= k < |db'.tasks| && k !in astray ensures TaskTalks(db'.tasks[k]) {
      if k != t { assert TaskTalks(db.tasks[k]); }
    }
  }

  // ----- one mail row -----

  lemma MailSums(db: Store, m: Id, v: Mail, k: Id)
    requires m < |db.mails| && v.system == db.mails[m].system && v.goal == db.mails[m].goal
    ensures Pledges(SetMail(db, m, v), k)
            == Pledges(db, k) - (if AwaitsReply(db.mails[m], k) then 1 else 0) + (if AwaitsReply(v, k) then 1 else 0)
    ensures SystemLoad(SetMail(db, m, v), k) == SystemLoad(db, k) && GoalLoad(SetMail(db, m, v), k) == GoalLoad(db, k)
  {
    SumUpdate(db.mails, m, v, ReplyTo(k));
    SumUpdate(db.mails, m, v, MailInSystem(k));
    SumUpdate(db.mails, m, v, MailInGoal(k));
  }

  predicate SameMail(v: Mail, v': Mail) {
    v'.task == v.task && v'.agent == v.agent && v'.system == v.system && v'.goal == v.goal && v'.kind == v.kind
  }

  lemma MailShape(db: Store, m: Id, v: Mail)
    requires Shape(db) && m < |db.mails| && SameMail(db.mails[m], v)
    ensures Shape(SetMail(db, m, v))
  {
    var db' := SetMail(db, m, v);
    forall k | 0 <= k < |db'.tasks| ensures TaskFits(db', k) { assert TaskFits(db, k); }
    forall k | 0 <= k < |db'.mails| ensures MailFits(db', k) { assert MailFits(db, k) && MailFits(db, m); }
    forall a | 0 <= a < |db'.agents| ensures AgentFits(db', a) { assert AgentFits(db, a); }
  }

  /** A rewritten delivery that is not leased anew moves only its own task's account, and only if it is a
      reply that stops or starts to be awaited. */
  lemma RewriteMail(db: Store, m: Id, v: Mail, x: int, astray: set<Id>)
    requires m < |db.mails| && InvBut(db, x, astray) && SameMail(db.mails[m], v) && (x == -1 || x == db.mails[m].task)
    requires MailCounted(v) && (v.state == Leased ==> db.mails[m].state == Leased)
    ensures InvBut(SetMail(db, m, v), v.task, astray)
    ensures Pledges(SetMail(db, m, v), v.task)
            == Pledges(db, v.task) - (if AwaitsReply(db.mails[m], v.task) then 1 else 0) + (if AwaitsReply(v, v.task) then 1 else 0)
    ensures (AwaitsReply(v, v.task) == AwaitsReply(db.mails[m], v.task) || v.task in astray) && x == -1 ==> Inv(SetMail(db, m, v), astray)
    ensures v.attempts == db.mails[m].attempts && (v.state == Leased <==> db.mails[m].state == Leased) && v.state != Pending ==> Keeps(db, SetMail(db, m, v), {m})
  {
    hide Pledges, SystemLoad, GoalLoad, Shape;
    var db' := SetMail(db, m, v);
    MailShape(db, m, v);
    forall k: Id ensures SystemLoad(db', k) <= MAX_SYSTEM_EVENTS && GoalLoad(db', k) <= MAX_GOAL_EVENTS { MailSums(db, m, v, k); }
    forall k | 0 <= k < |db'.tasks| && k != v.task && k !in astray ensures PledgeHolds(db', k) {
      assert PledgeHolds(db, k);
      MailSums(db, m, v, k);
    }
    MailSums(db, m, v, v.task);
    forall k | 0 <= k < |db'.tasks| && k != x && k !in astray ensures TaskWaits(db', k) { assert TaskWaits(db, k); }
    if AwaitsReply(v, v.task) == AwaitsReply(db.mails[m], v.task) && x == -1 && v.task < |db.tasks| && v.task !in astray {
      assert PledgeHolds(db, v.task);
    }
  }

  // ----- one call row -----

  function SetCall(db: Store, c: Id, e: Call): Store
    requires c < |db.calls|
  {
    db.(calls := db.calls[c := e])
  }

  lemma CallShape(db: Store, c: Id, e: Call)
    requires Shape(db) && c < |db.calls| && e.task == db.calls[c].task
    ensures Shape(SetCall(db, c, e))
  {
    var db' := SetCall(db, c, e);
    forall k | 0 <= k < |db'.tasks| ensures TaskFits(db', k) { assert TaskFits(db, k); }
    forall k | 0 <= k < |db'.mails| ensures MailFits(db', k) { assert MailFits(db, k); }
    forall a | 0 <= a < |db'.agents| ensures AgentFits(db', a) { assert AgentFits(db, a); }
  }

  /** A call may move as long as an answer stands and its request stays well formed. */
  lemma RewriteCall(db: Store, c: Id, e: Call, x: int, astray: set<Id>)
    requires InvBut(db, x, astray) && c < |db.calls| && e.task == db.calls[c].task && (e.task in astray || WellPaired(e.request))
    requires db.calls[c].state.Answered? ==> e.state == db.calls[c].state
    ensures InvBut(SetCall(db, c, e), x, astray) && Keeps(db, SetCall(db, c, e), {})
  {
    hide Shape;
    var db' := SetCall(db, c, e);
    CallShape(db, c, e);
    forall k: Id ensures SystemLoad(db', k) == SystemLoad(db, k) && GoalLoad(db', k) == GoalLoad(db, k) && Pledges(db', k) == Pledges(db, k) {
    }
    forall k | 0 <= k < |db'.tasks| && k != x && k !in astray ensures PledgeHolds(db', k) && TaskWaits(db', k) { assert PledgeHolds(db, k) && TaskWaits(db, k); }
  }

  // ----- stopping -----

  lemma MarkStoppedInv(db: Store, t: Id, astray: set<Id>)
    requires Inv(db, astray)
    ensures Inv(MarkStopped(db, t), astray) && Keeps(db, MarkStopped(db, t), {}) && |MarkStopped(db, t).tasks| == |db.tasks|
    ensures t < |db.tasks| ==> MarkStopped(db, t).tasks[t].stopped
  {
    hide Reserve, PledgesBut, Deliveries, Keeps;
    if t < |db.tasks| {
      assert TaskFits(db, t);
      assert t !in astray ==> TaskTalks(db.tasks[t]) && TaskWaits(db, t);
      RewriteTask(db, t, db.tasks[t].(stopped := true), -1, astray);
    } else {
      KeepsSelf(db, {});
    }
  }

  lemma {:induction false} MarkAllInv(db: Store, ids: seq<Id>, astray: set<Id>)
    requires Inv(db, astray)
    ensures Inv(MarkAll(db, ids), astray) && Keeps(db, MarkAll(db, ids), {}) && |MarkAll(db, ids).tasks| == |db.tasks|
    ensures forall i :: 0 <= i < |ids| && ids[i] < |db.tasks| ==> MarkAll(db, ids).tasks[ids[i]].stopped
  {
    hide Inv, Keeps, MarkStopped;
    if ids == [] {
      KeepsSelf(db, {});
    } else {
      var n := |ids| - 1;
      var mid := MarkAll(db, ids[..n]);
      MarkAllInv(db, ids[..n], astray);
      MarkStoppedInv(mid, ids[n], astray);
      KeepsTransitive(db, mid, MarkStopped(mid, ids[n]), {});
      forall i | 0 <= i < n && ids[i] < |db.tasks| ensures MarkStopped(mid, ids[n]).tasks[ids[i]].stopped {
        assert ids[..n][i] == ids[i];
        KeepsStopped(mid, MarkStopped(mid, ids[n]), ids[i]);
      }
    }
  }

  lemma KeepsStopped(db: Store, db': Store, t: Id)
    requires Keeps(db, db', {}) && t < |db.tasks| && db.tasks[t].stopped
    ensures t < |db'.tasks| && db'.tasks[t].stopped
  {
    assert TaskKeeps(db.tasks[t], db'.tasks[t]);
  }

  lemma {:induction false} TerminateLength(db: Store, t: Id, outcome: Outcome, source: Source, cause: Option<Id>, now: int)
    ensures |Terminate(db, t, outcome, source, cause, now).tasks| == |db.tasks|
    decreases t
  {
    hide Refuses;
    if LiveTask(db, t) {
      var ended := MarkDone(db, t, outcome);
      var r := db.tasks[t];
      if !r.evaluation && r.parent.Some? && r.parent.value < t {
        TerminateLength(ended, r.parent.value, Rejected, Runtime, cause, now);
      }
    }
  }

  /** A halted task is over, or its worker still holds a delivery. */
  predicate Halted(db: Store, t: Id) { LiveTask(db, t) ==> TaskLeased(db, t) }

  lemma KeepsHalted(db: Store, db': Store, t: Id)
    requires Keeps(db, db', {}) && Halted(db, t) && t < |db.tasks|
    ensures Halted(db', t)
  {
    assert TaskKeeps(db.tasks[t], db'.tasks[t]);
    if LiveTask(db', t) {
      var m :| 0 <= m < |db.mails| && db.mails[m].task == t && db.mails[m].state == Leased;
      assert MailKeeps(db.mails[m], db'.mails[m], false);
    }
  }

  lemma HaltTaskInv(db: Store, t: Id, source: Source, now: int, astray: set<Id>)
    requires Inv(db, astray)
    ensures var db' := HaltTask(db, t, source, now);
            Inv(db', astray) && Keeps(db, db', {}) && |db'.tasks| == |db.tasks| && Halted(db', t)
  {
    hide Inv, InvBut, Keeps, Terminate, TaskLeased;
    if t >= |db.tasks| {
      KeepsSelf(db, {});
    } else {
      var halting := if db.tasks[t].parent.None? then SetSystem(db, db.tasks[t].system, Stopping) else db;
      HaltingInv(db, t, astray);
      if !TaskLeased(halting, t) {
        InvExcepts(halting, t, astray);
        TerminateInv(halting, t, Canceled, source, None, now, astray);
        TerminateLength(halting, t, Canceled, source, None, now);
        KeepsTransitive(db, halting, Terminate(halting, t, Canceled, source, None, now), {});
      }
    }
  }

  lemma InvExcepts(db: Store, x: int, astray: set<Id>)
    requires Inv(db, astray)
    ensures InvBut(db, x, astray)
  {
    OneExcepted(db, x, astray);
  }

  lemma HaltingInv(db: Store, t: Id, astray: set<Id>)
    requires Inv(db, astray) && t < |db.tasks|
    ensures var halting := if db.tasks[t].parent.None? then SetSystem(db, db.tasks[t].system, Stopping) else db;
            Inv(halting, astray) && Keeps(db, halting, {}) && halting.tasks == db.tasks && halting.mails == db.mails
  {
    KeepsSelf(db, {});
    SetSystemSwitches(db, db.tasks[t].system, Stopping);
    SwitchedInv(db, SetSystem(db, db.tasks[t].system, Stopping), -1, astray);
  }

  lemma {:induction false} HaltAllInv(db: Store, ids: seq<Id>, source: Source, now: int, astray: set<Id>)
    requires Inv(db, astray)
    ensures var db' := HaltAll(db, ids, source, now);
            && Inv(db', astray) && Keeps(db, db', {}) && |db'.tasks| == |db.tasks|
            && forall i :: 0 <= i < |ids| && ids[i] < |db.tasks| ==> Halted(db', ids[i])
  {
    hide Inv, Keeps, HaltTask, Halted;
    if ids == [] {
      KeepsSelf(db, {});
    } else {
      var n := |ids| - 1;
      var mid := HaltAll(db, ids[..n], source, now);
      HaltAllInv(db, ids[..n], source, now, astray);
      HaltTaskInv(mid, ids[n], source, now, astray);
      var db' := HaltTask(mid, ids[n], source, now);
      KeepsTransitive(db, mid, db', {});
      forall i | 0 <= i < n && ids[i] < |db.tasks| ensures Halted(db', ids[i]) {
        assert ids[..n][i] == ids[i];
        KeepsHalted(mid, db', ids[i]);
      }
    }
  }

  lemma StopTasksInv(db: Store, ids: seq<Id>, source: Source, now: int, astray: set<Id>)
    requires Inv(db, astray)
    ensures var db' := StopTasks(db, ids, source, now);
            Inv(db', astray) && Keeps(db, db', {}) && |db'.tasks| == |db.tasks|
  {
    hide Inv, Keeps, MarkAll, HaltAll;
    MarkAllInv(db, ids, astray);
    HaltAllInv(MarkAll(db, ids), ids, source, now, astray);
    KeepsTransitive(db, MarkAll(db, ids), StopTasks(db, ids, source, now), {});
  }

  lemma {:induction false} ClosureStable(tasks: seq<Task>, tasks': seq<Task>, scope: Scope, t: Id)
    requires |tasks'| == |tasks| && forall k :: 0 <= k < |tasks| ==> TaskKeeps(tasks[k], tasks'[k])
    ensures InClosure(tasks', scope, t) == InClosure(tasks, scope, t)
    decreases t
  {
    if t < |tasks| && tasks[t].parent.Some? && tasks[t].parent.value < t {
      ClosureStable(tasks, tasks', scope, tasks[t].parent.value);
    }
  }

  /** After a stop, every task of the selection and of everything delegated from it is over, or it is
      marked as stopped and its worker still holds a delivery. */
  lemma StopClosure(db: Store, scope: Scope, ids: seq<Id>, source: Source, now: int, t: Id, astray: set<Id>)
    requires Inv(db, astray) && StopList(db, scope, ids)
    requires var db' := StopTasks(db, ids, source, now); LiveTask(db', t) && InClosure(db'.tasks, scope, t)
    ensures var db' := StopTasks(db, ids, source, now); db'.tasks[t].stopped && TaskLeased(db', t)
  {
    hide Inv, MarkAll, HaltAll, TaskLeased;
    var marked := MarkAll(db, ids);
    var db' := StopTasks(db, ids, source, now);
    StopTasksInv(db, ids, source, now, astray);
    ClosureStable(db.tasks, db'.tasks, scope, t);
    assert TaskKeeps(db.tasks[t], db'.tasks[t]);
    assert t in ids;
    var i :| 0 <= i < |ids| && ids[i] == t;
    MarkAllInv(db, ids, astray);
    HaltAllInv(marked, ids, source, now, astray);
    assert Halted(db', ids[i]);
    assert TaskKeeps(marked.tasks[t], db'.tasks[t]);
  }
}
