/** Crash recovery, new goals and administration keep the invariant. */
module DeliverRestart {
  import opened Common
  import opened Sums
  import opened Team
  import opened Mailbox
  import opened TeamSteps
  import opened TeamInvariant
  import opened TaskEnds
  import opened Rewrites
  import opened Turns
  import opened ToolCalls
  import opened DeliverClaim

  // ----- recovery -----

  lemma AbandonShape(db: Store)
    requires Shape(db)
    ensures Shape(Abandon(db))
  {
    var db' := Abandon(db);
    forall k | 0 <= k < |db'.tasks| ensures TaskFits(db', k) { assert TaskFits(db, k); }
    forall k | 0 <= k < |db'.mails| ensures MailFits(db', k) { assert MailFits(db, k); }
    forall a | 0 <= a < |db'.agents| ensures AgentFits(db', a) { assert AgentFits(db, a); }
  }

  lemma AbandonSums(db: Store, k: Id)
    requires Deliveries(db)
    ensures var db' := Abandon(db);
            Pledges(db', k) == Pledges(db, k) && SystemLoad(db', k) == SystemLoad(db, k) && GoalLoad(db', k) == GoalLoad(db, k)
  {
    var db' := Abandon(db);
    forall m | 0 <= m < |db.mails| ensures ReplyTo(k)(db'.mails[m]) == ReplyTo(k)(db.mails[m]) { assert MailCounted(db.mails[m]); }
    SumSame(db'.mails, db.mails, ReplyTo(k), ReplyTo(k));
    SumSame(db'.mails, db.mails, MailInSystem(k), MailInSystem(k));
    SumSame(db'.mails, db.mails, MailInGoal(k), MailInGoal(k));
    SumSame(db'.tasks, db.tasks, DelegateOf(k), DelegateOf(k));
    SumSame(db'.tasks, db.tasks, LiveInSystem(k), LiveInSystem(k));
    SumSame(db'.tasks, db.tasks, LiveInGoal(k), LiveInGoal(k));
  }

  /** Returning leases and losing requests settles nobody's account and opens none. */
  lemma AbandonInv(db: Store, astray: set<Id>)
    requires Inv(db, astray)
    ensures Inv(Abandon(db), astray)
  {
    hide Shape, Pledges, SystemLoad, GoalLoad;
    var db' := Abandon(db);
    AbandonShape(db);
    forall k: Id ensures SystemLoad(db', k) <= MAX_SYSTEM_EVENTS && GoalLoad(db', k) <= MAX_GOAL_EVENTS { AbandonSums(db, k); }
    forall k | 0 <= k < |db'.tasks| && k !in astray ensures PledgeHolds(db', k) && TaskWaits(db', k) && TaskTalks(db'.tasks[k]) {
      assert PledgeHolds(db, k) && TaskWaits(db, k) && TaskTalks(db.tasks[k]);
      AbandonSums(db, k);
    }
    forall m | 0 <= m < |db'.mails| ensures MailCounted(db'.mails[m]) { assert MailCounted(db.mails[m]); }
  }

  /** No reply that was applied before is left pending for a task that waits on a tool. */
  ghost predicate NothingStale(db: Store, astray: set<Id>) {
    forall m: Id :: m < |db.mails| && db.mails[m].state == Pending && LiveTask(db, db.mails[m].task) && db.mails[m].task !in astray ==>
      !Stale(db, m)
  }

  /** A reply to the task that was applied before is waiting for its retry. */
  predicate Lingers(db: Store, t: Id) {
    exists m :: 0 <= m < |db.mails| && LingeringReply(db.mails[m], t)
  }

  predicate LingeringReply(v: Mail, t: Id) { v.task == t && v.kind.Result? && v.state == Pending && v.applied }

  predicate PendingAsBefore(v: Mail, v': Mail) {
    v'.state == Pending ==> v.state == Pending && v'.applied == v.applied && v'.kind == v.kind && v'.task == v.task
  }

  /** No delivery but those in `except` becomes pending or is applied while it stays pending. */
  ghost predicate PendingKept(db: Store, db': Store, except: set<Id>) {
    && |db.mails| <= |db'.mails|
    && (forall m :: 0 <= m < |db.mails| && m !in except ==> PendingAsBefore(db.mails[m], db'.mails[m]))
    && (forall m :: |db.mails| <= m < |db'.mails| ==> NewMailOk(db'.mails[m]))
  }

  lemma MailsPending(db: Store, db': Store)
    requires MailsKeep(db, db')
    ensures PendingKept(db, db', {})
  {
    forall m | 0 <= m < |db.mails| ensures PendingAsBefore(db.mails[m], db'.mails[m]) { assert MailKeeps(db.mails[m], db'.mails[m], false); }
  }

  /** Where stale replies come from: only a task that starts to wait on a tool while an applied reply lingers. */
  lemma ClearKept(db: Store, db': Store, waits: set<Id>, except: set<Id>, astray: set<Id>)
    requires Shape(db) && NothingStale(db, astray) && PendingKept(db, db', except) && NoNewWaits(db, db', waits)
    requires forall t :: t in waits ==> t in astray || !Lingers(db, t)
    requires forall m: Id :: m in except && m < |db'.mails| && db'.mails[m].state == Pending ==> !Stale(db', m) || db'.mails[m].task in astray
    ensures NothingStale(db', astray)
  {
    forall m: Id | m < |db'.mails| && db'.mails[m].state == Pending && LiveTask(db', db'.mails[m].task) && db'.mails[m].task !in astray
      ensures !Stale(db', m)
    {
      if m >= |db.mails| {
        assert NewMailOk(db'.mails[m]);
      } else if m !in except {
        var t := db'.mails[m].task;
        assert PendingAsBefore(db.mails[m], db'.mails[m]) && MailFits(db, m);
        if t in waits {
          assert !LingeringReply(db.mails[m], t);
        } else {
          assert WaitsLess(db.tasks[t], db'.tasks[t]) && !Stale(db, m);
        }
      }
    }
  }

  lemma AbandonClears(db: Store, astray: set<Id>)
    requires Inv(db, astray)
    ensures NothingStale(Abandon(db), astray)
  {
    var db' := Abandon(db);
    forall m: Id | m < |db'.mails| && db'.mails[m].state == Pending && LiveTask(db', db'.mails[m].task) && db'.mails[m].task !in astray
      ensures !Stale(db', m)
    {
      assert TaskWaits(db, db.mails[m].task);
      assert MailCounted(db.mails[m]);
    }
  }

  lemma FailOneInv(db: Store, t: Id, now: int, astray: set<Id>)
    requires Inv(db, astray)
    ensures var db' := FailOne(db, t, now); Inv(db', astray) && Keeps(db, db', {})
  {
    hide InvBut, Keeps, Terminate, SetSystem;
    if t >= |db.tasks| {
      KeepsSelf(db, {});
    } else {
      OneExcepted(db, t, astray);
      var ended := Terminate(db, t, Failed, Runtime, None, now);
      TerminateInv(db, t, Failed, Runtime, None, now, astray);
      SetSystemSwitches(ended, db.tasks[t].system, Stopped);
      SwitchedInv(ended, SetSystem(ended, db.tasks[t].system, Stopped), -1, astray);
      KeepsTransitive(db, ended, SetSystem(ended, db.tasks[t].system, Stopped), {});
    }
  }

  lemma {:induction false} FailAllInv(db: Store, ids: seq<Id>, now: int, astray: set<Id>)
    requires Inv(db, astray)
    ensures var db' := FailAll(db, ids, now); Inv(db', astray) && Keeps(db, db', {})
  {
    hide InvBut, Keeps, FailOne;
    if ids == [] {
      KeepsSelf(db, {});
    } else {
      var n := |ids| - 1;
      FailAllInv(db, ids[..n], now, astray);
      FailOneInv(FailAll(db, ids[..n], now), ids[n], now, astray);
      KeepsTransitive(db, FailAll(db, ids[..n], now), FailAll(db, ids, now), {});
    }
  }

  lemma StopIdleInv(db: Store, astray: set<Id>)
    requires Inv(db, astray)
    ensures Inv(StopIdle(db), astray) && Keeps(db, StopIdle(db), {})
  {
    assert Switched(db, StopIdle(db));
    SwitchedInv(db, StopIdle(db), -1, astray);
  }

  /** Recovery at any crash point keeps everything, and afterwards no stale reply is left to claim. */
  lemma RecoverInv(db: Store, ids: seq<Id>, now: int, astray: set<Id>)
    requires Inv(db, astray)
    ensures var db' := Recover(db, ids, now);
            Inv(db', astray) && NothingStale(db', astray) && Keeps(Abandon(db), db', {})
  {
    hide PledgesBut, TalkBut, WaitsBut, Requests, Deliveries, Reserve, Shape, Keeps, Abandon, FailAll, StopIdle, NothingStale;
    var base := Abandon(db);
    AbandonInv(db, astray);
    AbandonClears(db, astray);
    FailAllInv(base, ids, now, astray);
    var failed := FailAll(base, ids, now);
    StopIdleInv(failed, astray);
    KeepsTransitive(base, failed, StopIdle(failed), {});
    KeepsMails(base, StopIdle(failed));
    MailsPending(base, StopIdle(failed));
    KeepsNoNewWaits(base, StopIdle(failed), {});
    ClearKept(base, StopIdle(failed), {}, {}, astray);
  }

  // ----- what recovery is for -----

  /** A task that is still live kept its call, and the call its state. */
  predicate Untouched(db: Store, db': Store, k: Id)
    requires k < |db.tasks| && k < |db'.tasks| && |db'.calls| == |db.calls|
  {
    var c := db.tasks[k].call;
    Live(db.tasks[k]) && db'.tasks[k].call == c && (c < |db.calls| && db.calls[c].task == k ==> db'.calls[c] == db.calls[c])
  }

  /** Ending tasks revives none and concerns nobody who is left. */
  ghost predicate Spares(db: Store, db': Store) {
    && |db'.tasks| == |db.tasks| && |db'.calls| == |db.calls| && db'.receipts == db.receipts
    && (forall c :: 0 <= c < |db.calls| ==> db'.calls[c].task == db.calls[c].task)
    && (forall k :: 0 <= k < |db.tasks| && Live(db'.tasks[k]) ==> Untouched(db, db', k))
  }

  lemma SparesTransitive(a: Store, b: Store, c: Store)
    requires Spares(a, b) && Spares(b, c)
    ensures Spares(a, c)
  {
    forall k | 0 <= k < |a.tasks| && Live(c.tasks[k]) ensures Untouched(a, c, k) {
      assert Untouched(b, c, k) && Untouched(a, b, k);
    }
  }

  lemma {:induction false} TerminateSpares(db: Store, t: Id, outcome: Outcome, source: Source, cause: Option<Id>, now: int)
    ensures var db' := Terminate(db, t, outcome, source, cause, now); Spares(db, db') && !LiveTask(db', t)
    decreases t
  {
    hide Refuses, HasLease;
    if LiveTask(db, t) {
      var ended := MarkDone(db, t, outcome);
      var r := db.tasks[t];
      assert Spares(db, ended);
      if !r.evaluation && r.parent.Some? && r.parent.value < t {
        TerminateSpares(ended, r.parent.value, Rejected, Runtime, cause, now);
        SparesTransitive(db, ended, Terminate(ended, r.parent.value, Rejected, Runtime, cause, now));
      }
    }
  }

  lemma {:induction false} FailAllEnds(db: Store, ids: seq<Id>, now: int)
    ensures var db' := FailAll(db, ids, now); Spares(db, db') && forall i :: 0 <= i < |ids| ==> !LiveTask(db', ids[i])
  {
    hide Terminate;
    if ids != [] {
      var n := |ids| - 1;
      var mid, db' := FailAll(db, ids[..n], now), FailAll(db, ids, now);
      FailAllEnds(db, ids[..n], now);
      TerminateSpares(mid, ids[n], Failed, Runtime, None, now);
      assert Spares(mid, db');
      SparesTransitive(db, mid, db');
      forall i | 0 <= i < |ids| ensures !LiveTask(db', ids[i]) {
        if i < n {
          assert ids[..n][i] == ids[i] && !LiveTask(mid, ids[i]);
        }
      }
    }
  }

  /** Nothing of the task's last call is in doubt: no request is on the network or lost, it did not end but in
      an answer, and no tool of it is running or uncertain. */
  predicate Certain(db: Store, t: Id)
    requires t < |db.tasks|
  {
    var c := db.tasks[t].call;
    && c < |db.calls| && db.calls[c].state != OnWire && db.calls[c].state != Lost && !(db.calls[c].state.Closed? && db.calls[c].state.outcome != Completed)
    && ReceiptOf(db, c) != Some(Begun) && ReceiptOf(db, c) != Some(Uncertain)
  }

  /** What a restart is for: when it works through the tasks its query returns, every task that is still live
      afterwards can go on without doing anything twice. */
  lemma RecoveryTheorem(db: Store, ids: seq<Id>, now: int)
    requires Shape(db) && UnrecoverableList(Abandon(db), ids)
    ensures forall t: Id :: LiveTask(Recover(db, ids, now), t) ==> Certain(Recover(db, ids, now), t)
  {
    hide FailAll;
    var base, db' := Abandon(db), Recover(db, ids, now);
    FailAllEnds(base, ids, now);
    forall t: Id | LiveTask(db', t) ensures Certain(db', t) {
      assert TaskFits(db, t) && Untouched(base, FailAll(base, ids, now), t);
      assert t !in ids;
      assert !Unrecoverable(base, t);
    }
  }

  // ----- new rows -----

  lemma CreateSystemInv(db: Store, maxActive: nat, astray: set<Id>)
    requires Inv(db, astray)
    ensures Inv(CreateSystem(db, maxActive), astray) && MailsKeep(db, CreateSystem(db, maxActive))
  {
    hide Deliveries;
    var db' := CreateSystem(db, maxActive);
    assert Shape(db') by { CreateSystemShape(db, maxActive); }
    SameTables(db, db', astray);
  }

  lemma CreateSystemShape(db: Store, maxActive: nat)
    requires Shape(db)
    ensures Shape(CreateSystem(db, maxActive))
  {
    var db' := CreateSystem(db, maxActive);
    forall k | 0 <= k < |db'.tasks| ensures TaskFits(db', k) { assert TaskFits(db, k); }
    forall k | 0 <= k < |db'.mails| ensures MailFits(db', k) { assert MailFits(db, k); }
    forall a | 0 <= a < |db'.agents| ensures AgentFits(db', a) { if a < |db.agents| { assert AgentFits(db, a); } }
  }

  /** The accounts read only tasks, calls, receipts and mail. */
  lemma SameTables(db: Store, db': Store, astray: set<Id>)
    requires Inv(db, astray) && Shape(db') && db' == db.(systems := db'.systems, goals := db'.goals, agents := db'.agents)
    requires |db.systems| <= |db'.systems| && forall s :: 0 <= s < |db.systems| ==> db'.systems[s].maxActive == db.systems[s].maxActive
    ensures Inv(db', astray) && MailsKeep(db, db')
  {
    hide Shape;
    forall k: Id ensures SystemLoad(db', k) == SystemLoad(db, k) && GoalLoad(db', k) == GoalLoad(db, k) && Pledges(db', k) == Pledges(db, k) {
    }
    forall k | 0 <= k < |db'.tasks| && k !in astray ensures PledgeHolds(db', k) && TaskWaits(db', k) { assert PledgeHolds(db, k) && TaskWaits(db, k); }
  }

  lemma CreateAgentInv(db: Store, t: Id, astray: set<Id>)
    requires Inv(db, astray)
    ensures Inv(CreateAgent(db, t), astray) && MailsKeep(db, CreateAgent(db, t))
  {
    hide Deliveries;
    var db' := CreateAgent(db, t);
    assert Shape(db') by { CreateAgentShape(db, t); }
    SameTables(db, db', astray);
  }

  lemma CreateAgentShape(db: Store, t: Id)
    requires Shape(db)
    ensures Shape(CreateAgent(db, t))
  {
    var db' := CreateAgent(db, t);
    if t < |db.tasks| { assert TaskFits(db, t); }
    forall k | 0 <= k < |db'.tasks| ensures TaskFits(db', k) { assert TaskFits(db, k); }
    forall k | 0 <= k < |db'.mails| ensures MailFits(db', k) { assert MailFits(db, k); }
    forall a | 0 <= a < |db'.agents| ensures AgentFits(db', a) { if a < |db.agents| { assert AgentFits(db, a); } }
  }

  /** A new goal's rows before its first delivery. */
  function RootRows(db: Store, s: Id, a: Id, deadline: int): Store {
    db.(goals := db.goals + [Goal(s, On, deadline, false)],
        tasks := db.tasks + [Task(s, |db.goals|, a, None, false, Queued, false, [User], 1, |db.calls|, None)],
        calls := db.calls + [Call(|db.tasks|, Awaiting, 0, [User])])
  }

  lemma RootShape(db: Store, s: Id, a: Id, deadline: int)
    requires Shape(db) && s < |db.systems| && a < |db.agents| && db.agents[a].system == s
    ensures Shape(RootRows(db, s, a, deadline))
  {
    var db' := RootRows(db, s, a, deadline);
    forall k | 0 <= k < |db'.tasks| ensures TaskFits(db', k) { if k < |db.tasks| { assert TaskFits(db, k); } }
    forall k | 0 <= k < |db'.mails| ensures MailFits(db', k) { assert MailFits(db, k); }
    forall x | 0 <= x < |db'.agents| ensures AgentFits(db', x) { assert AgentFits(db, x); }
  }

  lemma RootSums(db: Store, s: Id, a: Id, deadline: int, k: Id)
    ensures var db' := RootRows(db, s, a, deadline);
            && Pledges(db', k) == Pledges(db, k)
            && (k != s ==> SystemLoad(db', k) == SystemLoad(db, k))
            && (k != |db.goals| ==> GoalLoad(db', k) == GoalLoad(db, k))
  {
    var root := RootRows(db, s, a, deadline).tasks[|db.tasks|];
    SumAppend(db.tasks, root, DelegateOf(k));
    SumAppend(db.tasks, root, LiveInSystem(k));
    SumAppend(db.tasks, root, LiveInGoal(k));
  }

  lemma RootRest(db: Store, s: Id, a: Id, deadline: int, astray: set<Id>)
    requires Inv(db, astray) && s < |db.systems| && a < |db.agents| && db.agents[a].system == s
    ensures RestBut(RootRows(db, s, a, deadline), -1, astray)
  {
    hide Shape, Pledges;
    var db' := RootRows(db, s, a, deadline);
    RootShape(db, s, a, deadline);
    NobodyExpects(db, |db.tasks|);
    forall k | 0 <= k < |db'.tasks| && k !in astray ensures PledgeHolds(db', k) && TaskWaits(db', k) && TaskTalks(db'.tasks[k]) {
      RootSums(db, s, a, deadline, k);
      if k < |db.tasks| {
        assert PledgeHolds(db, k) && TaskWaits(db, k) && TaskTalks(db.tasks[k]);
      }
    }
  }

  lemma StartGoalInv(db: Store, s: Id, deadline: int, now: int, astray: set<Id>)
    requires Inv(db, astray) && StartGoal(db, s, deadline, now).Some?
    ensures var db' := StartGoal(db, s, deadline, now).value; Inv(db', astray) && MailsKeep(db, db')
  {
    hide InvBut, RestBut, Keeps, Pledges, SystemLoad, GoalLoad, Emit;
    var a, t := db.systems[s].operator, |db.tasks|;
    var lit := SetSystem(db, s, SystemState.Active);
    var staffed := SetAgent(lit, a, On);
    SetSystemSwitches(db, s, SystemState.Active);
    SwitchedInv(db, lit, -1, astray);
    SetAgentSwitches(lit, a, On);
    SwitchedInv(lit, staffed, -1, astray);
    KeepsTransitive(db, lit, staffed, {});
    KeepsMails(db, staffed);
    OperatorFits(staffed, s, astray);
    var rows := RootRows(staffed, s, a, deadline);
    RootRest(staffed, s, a, deadline, astray);
    var db' := StartGoal(db, s, deadline, now).value;
    assert Emit(rows, t, Ready, Administrator, None, now) == Some(db');
    EmitRest(rows, t, Ready, Administrator, None, now, -1, astray);
    assert Reserve(staffed) by { InvReserve(staffed, astray); }
    forall k: Id | k != s ensures SystemLoad(rows, k) <= MAX_SYSTEM_EVENTS { RootSums(staffed, s, a, deadline, k); }
    forall k: Id | k != |db.goals| ensures GoalLoad(rows, k) <= MAX_GOAL_EVENTS { RootSums(staffed, s, a, deadline, k); }
    EmitReserve(rows, t, Ready, Administrator, None, now);
    KeepsMails(rows, db');
    assert MailsKeep(staffed, rows);
    MailsKeepTransitive(db, staffed, rows);
    MailsKeepTransitive(db, rows, db');
    assert InvBut(db', -1, astray) by { Assemble(db', astray); }
  }

  lemma Assemble(db: Store, astray: set<Id>)
    requires RestBut(db, -1, astray) && Reserve(db)
    ensures InvBut(db, -1, astray)
  {
  }

  lemma InvReserve(db: Store, astray: set<Id>)
    requires Inv(db, astray)
    ensures Reserve(db)
  {
  }

  lemma OperatorFits(db: Store, s: Id, astray: set<Id>)
    requires Inv(db, astray) && s < |db.systems|
    ensures db.systems[s].operator < |db.agents| && db.agents[db.systems[s].operator].system == s
  {
  }

  // ----- administration -----

  lemma PauseInv(db: Store, scope: Scope, hold: bool, astray: set<Id>)
    requires Inv(db, astray)
    ensures Inv(Pause(db, scope, hold), astray) && Keeps(db, Pause(db, scope, hold), {})
  {
    assert Switched(db, Pause(db, scope, hold));
    SwitchedInv(db, Pause(db, scope, hold), -1, astray);
  }

  lemma BeginStopInv(db: Store, scope: Scope, astray: set<Id>)
    requires Inv(db, astray) && BeginStop(db, scope).Some?
    ensures Inv(BeginStop(db, scope).value, astray) && Keeps(db, BeginStop(db, scope).value, {})
  {
    assert Switched(db, BeginStop(db, scope).value);
    SwitchedInv(db, BeginStop(db, scope).value, -1, astray);
  }

  lemma ShutSystemInv(db: Store, s: Id, astray: set<Id>)
    requires Inv(db, astray)
    ensures Inv(ShutSystem(db, s), astray) && Keeps(db, ShutSystem(db, s), {})
  {
    assert Switched(db, ShutSystem(db, s));
    SwitchedInv(db, ShutSystem(db, s), -1, astray);
  }

  lemma StopInv(db: Store, begun: Store, ids: seq<Id>, now: int, astray: set<Id>)
    requires Inv(begun, astray) && Keeps(db, begun, {})
    ensures Inv(StopTasks(begun, ids, Administrator, now), astray) && Keeps(db, StopTasks(begun, ids, Administrator, now), {})
  {
    hide InvBut, Keeps, StopTasks;
    StopTasksInv(begun, ids, Administrator, now, astray);
    KeepsTransitive(db, begun, StopTasks(begun, ids, Administrator, now), {});
  }

  lemma AdvanceInv(db: Store, c: Id, move: Move, astray: set<Id>)
    requires Inv(db, astray)
    ensures Inv(Advance(db, c, move), astray) && Keeps(db, Advance(db, c, move), {})
  {
    if c < |db.calls| {
      RewriteCall(db, c, MoveCall(db.calls[c], move), -1, astray);
    } else {
      KeepsSelf(db, {});
    }
  }

  lemma AddInputInv(db: Store, t: Id, source: Source, cause: Option<Id>, now: int, astray: set<Id>)
    requires Inv(db, astray)
    ensures Inv(AddInput(db, t, source, cause, now), astray) && Keeps(db, AddInput(db, t, source, cause, now), {})
  {
    hide InvBut, Keeps, Emit;
    KeepsSelf(db, {});
    if LiveTask(db, t) && Emit(db, t, Input, source, cause, now).Some? {
      EmitInv(db, t, Input, source, cause, now, -1, astray);
    }
  }

  lemma NoticeInv(db: Store, t: Id, now: int, astray: set<Id>)
    requires Inv(db, astray)
    ensures Inv(NoticeEvaluation(db, t, now), astray) && Keeps(db, NoticeEvaluation(db, t, now), {})
  {
    hide InvBut, Keeps, Emit, Terminate;
    KeepsSelf(db, {});
    if LiveTask(db, t) {
      OneExcepted(db, t, astray);
      TerminateInv(db, t, Rejected, Runtime, None, now, astray);
      if Emit(db, t, Input, Runtime, None, now).Some? {
        EmitInv(db, t, Input, Runtime, None, now, -1, astray);
      }
    }
  }

  lemma ExpireInv(db: Store, t: Id, now: int, astray: set<Id>)
    requires Inv(db, astray)
    ensures Inv(Expire(db, t, now), astray) && Keeps(db, Expire(db, t, now), {})
  {
    hide InvBut, Keeps, Terminate, TaskLeased;
    KeepsSelf(db, {});
    OneExcepted(db, t, astray);
    TerminateInv(db, t, Failed, Runtime, None, now, astray);
  }
}
