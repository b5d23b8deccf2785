/** On every run a task that is ready to go on is served, and a task is completed only by an answer. */
module Service {
  import opened Common
  import opened Sums
  import opened Team
  import opened Mailbox
  import opened TeamSteps
  import opened TeamInvariant
  import opened TaskEnds
  import opened Rewrites
  import opened Turns
  import opened ToolCalls
  import opened DeliverClaim
  import opened DeliverFinish
  import opened DeliverRestart
  import opened TeamRuns
  import opened TeamTheorems
  import opened Courses
  import ClaimRows

  // ----- claims serve -----

  /** A claimed task ends, or runs with its delivery leased. */
  lemma DeliverServes(db: Store, t: Id, m: Id, d: Doubt, now: int, astray: set<Id>)
    requires Inv(db, astray) && t !in astray && Deliverable(db, t, m) && Awaited(db, t, m) && db.mails[m].kind != Progress
    ensures var db' := Deliver(db, t, m, d, now).db; t < |db'.tasks| && Served(db', t)
    ensures Deliver(db, t, m, d, now).Passed? ==> !LiveTask(Deliver(db, t, m, d, now).db, t)
  {
    hide InvBut, Course, Resume, Refresh, Terminate, Served, Pledges;
    var r := db.tasks[t];
    var applied := ApplyMail(db, t, m, d, now);
    var db' := Deliver(db, t, m, d, now).db;
    DeliverCourse(db, t, m, d, now);
    CourseRows(db, db', {t}, {});
    if r.waitingTool.Some? {
      ReplyIsExpected(db, t, m, astray);
      ResumeCourse(db, t, m, r.conversation + [Reply(r.waitingTool.value)], Some(m), d, now);
    } else {
      NoReplyAwaited(db, t, m, astray);
      ResumeCourse(db, t, m, r.conversation, None, d, now);
    }
    SameCourse(db, db);
    CourseWider(db, db, {}, {}, {t}, {});
    assert Course(db, applied.db, {t}, {}) && (applied.Halt? ==> !LiveTask(applied.db, t)) && (applied.Go? ==> LiveTask(applied.db, t));
    if applied.Go? {
      MailStaysWith(db, applied.db, {t}, m);
      TerminateCourse(applied.db, t, Rejected, Runtime, Some(m), now);
      RefreshCourse(applied.db, t, m, d, now);
      var asked := Refresh(applied.db, t, m, d, now);
      MailStaysWith(applied.db, asked.db, {t}, m);
      if !d.blocked && asked.Go? { LeaseServes(asked.db, t, m); }
    }
    if !LiveTask(db', t) { DoneServed(db', t); }
  }

  lemma LeaseServes(db: Store, t: Id, m: Id)
    requires LiveTask(db, t) && m < |db.mails| && db.mails[m].task == t && db.mails[m].kind != Progress
    ensures Served(Lease(db, t, m), t) && LiveTask(Lease(db, t, m), t)
  {
    assert Serves(Lease(db, t, m).mails[m], t, Leased);
  }

  lemma ConsiderServes(db: Store, active: map<Id, Activation>, m: Id, d: Doubt, now: int, astray: set<Id>)
    requires Inv(db, astray) && OfferedMail(db, m) && db.mails[m].task !in astray && !MeetsStale(db, active, m, d, now)
    requires Served(db, db.mails[m].task)
    ensures var db', t := Consider(db, active, m, d, now).db, db.mails[m].task; t < |db'.tasks| && Served(db', t)
  {
    hide InvBut, Course, Deliver, Terminate, Served;
    var v, t := db.mails[m], db.mails[m].task;
    var db' := Consider(db, active, m, d, now).db;
    ConsiderCourse(db, active, m, d, now);
    CourseRows(db, db', {t}, {});
    var dropped := SetMail(db, m, v.(state := Dead));
    TerminateCourse(dropped, t, if StoppedFor(db, t) then Canceled else Failed, Runtime, Some(m), now);
    if !LiveTask(db', t) {
      DoneServed(db', t);
    } else if Reached(db, active, m, now) {
      if Stale(db, m) {
        StaleBlocked(db, t, m, d, now, astray);
        TerminateCourse(db, t, Rejected, Runtime, Some(m), now);
      } else {
        TaskAnswers(db, t, astray);
        DeliverServes(db, t, m, d, now, astray);
      }
    } else if v.kind == Progress {
      SetMailCourse(db, m, v.(state := Acked, applied := true));
      SameCourse(db, db);
      ServedKept(db, db', {}, {}, t);
    }
  }

  // ----- the invariant -----

  ghost predicate AllServed(db: Store, astray: set<Id>) {
    forall t :: 0 <= t < |db.tasks| && t !in astray ==> Served(db, t)
  }

  /** A worker serves the call its task is at. */
  predicate AtCall(db: Store, a: Id, x: Activation) {
    x.task < |db.tasks| && db.tasks[x.task].agent == a && (Live(db.tasks[x.task]) ==> db.tasks[x.task].call == x.call)
  }

  ghost predicate AllAtCall(db: Store, active: map<Id, Activation>) {
    forall a :: a in active ==> AtCall(db, a, active[a])
  }

  ghost predicate Attended(r: Daemon, astray: set<Id>) { AllServed(r.db, astray) && AllAtCall(r.db, r.active) }

  /** A step that moves no task, or only one whose agent has no worker. */
  lemma CourseAttends(db: Store, db': Store, active: map<Id, Activation>, moved: set<Id>, completed: set<Id>, astray: set<Id>)
    requires Course(db, db', moved, completed) && AllServed(db, astray) && AllAtCall(db, active)
    requires forall t: Id :: t in moved && t < |db'.tasks| && t !in astray ==> Served(db', t)
    requires forall t: Id :: t in moved && t < |db.tasks| ==> db.tasks[t].agent !in active || db'.tasks[t].call == db.tasks[t].call
    ensures AllServed(db', astray) && AllAtCall(db', active)
  {
    hide Served;
    forall t | 0 <= t < |db'.tasks| && t !in astray ensures Served(db', t) {
      if t < |db.tasks| && t !in moved { ServedKept(db, db', moved, completed, t); }
    }
    forall a | a in active ensures AtCall(db', a, active[a]) {
      assert AtCall(db, a, active[a]);
      var t := active[a].task;
      assert TaskCourse(db.tasks[t], db'.tasks[t], t in moved, t in completed);
    }
  }

  lemma {:induction false} ClaimFromServes(r: Daemon, ids: seq<Id>, doubts: Id -> Doubt, now: int, astray: set<Id>)
    requires Inv(r.db, astray) && Offered(r.db, ids) && Misled(r, ids, doubts, now) <= astray && Attended(r, astray)
    ensures Attended(ClaimFrom(r, ids, doubts, now), astray)
    decreases |ids|
  {
    hide InvBut, Course, Consider, Keeps, Takes, OfferedMail, MeetsStale, Unleased, Served, AllServed, AllAtCall;
    if ids != [] {
      var m := ids[0];
      OfferedRow(r.db, m);
      ConsiderInv(r.db, r.active, m, doubts(m), now, astray);
      var verdict, t := Consider(r.db, r.active, m, doubts(m), now), r.db.mails[m].task;
      ConsiderCourse(r.db, r.active, m, doubts(m), now);
      if t !in astray { ServedNow(r.db, t, astray); ConsiderServes(r.db, r.active, m, doubts(m), now, astray); }
      CourseAttends(r.db, verdict.db, r.active, {t}, {}, astray);
      if verdict.Passed? {
        forall i | 0 <= i < |ids[1..]| ensures OfferedMail(verdict.db, ids[1..][i]) {
          assert ids[1..][i] == ids[i + 1];
          OfferedStays(r.db, verdict.db, ids[i + 1], {m});
        }
        ClaimFromServes(r.(db := verdict.db), ids[1..], doubts, now, astray);
      } else {
        NewAtCall(r, verdict.db, m, astray);
      }
    }
  }

  lemma ServedNow(db: Store, t: Id, astray: set<Id>)
    requires AllServed(db, astray) && t < |db.tasks| && t !in astray
    ensures Served(db, t)
  {
  }

  lemma NewAtCall(r: Daemon, db': Store, m: Id, astray: set<Id>)
    requires Inv(db', astray) && Takes(r.db, db', m) && AllAtCall(db', r.active)
    ensures m < |db'.mails| && db'.mails[m].task < |db'.tasks|
    ensures var v := db'.mails[m]; AllAtCall(db', r.active[v.agent := Activation(v.system, m, v.task, db'.tasks[v.task].call)])
  {
    assert MailFits(db', m);
  }

  // ----- steps -----

  lemma AdministrationCourse(r: Daemon, step: Step)
    requires step.DoCreateSystem? || step.DoStartGoal? || step.DoCreateAgent? || step.DoPause? || step.DoStop? || step.DoShutSystem? || step.DoSwitchOff?
    ensures var r' := Next(r, step); Course(r.db, r'.db, {}, {}) && r'.active == r.active
  {
    hide Course, StopTasks, StartGoal;
    var db, db' := r.db, Next(r, step).db;
    SameCourse(db, db);
    match step {
      case DoCreateSystem(n) => SameCourse(db, db');
      case DoStartGoal(s, deadline, now) => if StartGoal(db, s, deadline, now).Some? { StartGoalCourse(db, s, deadline, now); }
      case DoCreateAgent(t) => SameCourse(db, db');
      case DoPause(scope, hold) => SameCourse(db, db');
      case DoStop(scope, ids, now) =>
        if BeginStop(db, scope).Some? {
          var begun := BeginStop(db, scope).value;
          SameCourse(db, begun);
          StopTasksCourse(begun, ids, Administrator, now);
          CourseTransitive(db, begun, db', {}, {});
        }
      case DoShutSystem(s, ids, now) =>
        var begun := ShutSystem(db, s);
        SameCourse(db, begun);
        StopTasksCourse(begun, ids, Administrator, now);
        CourseTransitive(db, begun, db', {}, {});
      case DoSwitchOff(a) => SameCourse(db, db');
    }
  }

  lemma WorldCourse(r: Daemon, step: Step)
    requires step.DoMoveCall? || step.DoInput? || step.DoNotice? || step.DoExpire? || step.DoCompleteTool? || step.DoShutdown?
    ensures var r' := Next(r, step); Course(r.db, r'.db, {}, {}) && r'.active == r.active
  {
    hide Course, Emit, Terminate, TaskLeased;
    var db, db' := r.db, Next(r, step).db;
    SameCourse(db, db);
    match step {
      case DoMoveCall(c, move) => SameCourse(db, db');
      case DoInput(t, source, cause, now) =>
        if LiveTask(db, t) && Emit(db, t, Input, source, cause, now).Some? { EmitCourse(db, t, Input, source, cause, now); }
      case DoNotice(t, now) =>
        TerminateCourse(db, t, Rejected, Runtime, None, now);
        if LiveTask(db, t) && Emit(db, t, Input, Runtime, None, now).Some? { EmitCourse(db, t, Input, Runtime, None, now); }
      case DoExpire(t, now) => TerminateCourse(db, t, Failed, Runtime, None, now);
      case DoCompleteTool(c, known) => SameCourse(db, db');
      case DoShutdown =>
    }
  }

  lemma ToolAttends(r: Daemon, step: Step, astray: set<Id>)
    requires step.DoPrepareTool? && Attended(r, astray)
    ensures Attended(Next(r, step), astray) && exists moved :: Course(r.db, Next(r, step).db, moved, {})
  {
    hide Course, PrepareTool, AllServed, AllAtCall;
    var a := step.agent;
    var r' := PrepareTool(r, a, step.tool, step.now);
    assert r'.active == r.active by { ToolActive(r, a, step.tool, step.now); }
    PrepareToolCourse(r, a, step.tool, step.now);
    if r' == r {
      SameCourse(r.db, r.db);
    } else {
      var t := r.active[a].task;
      if Course(r.db, r'.db, {}, {}) {
        CourseAttends(r.db, r'.db, r.active, {}, {}, astray);
      } else {
        CourseAttends(r.db, r'.db, r.active, {t}, {}, astray);
      }
    }
  }

  lemma ToolActive(r: Daemon, a: Id, tool: Tool, now: int)
    ensures PrepareTool(r, a, tool, now).active == r.active
  {
    hide Handle;
  }

  lemma ClaimAttends(r: Daemon, step: Step, astray: set<Id>)
    requires DaemonInv(r, astray) && Sensible(r, step) && step.DoClaim? && Led(r, step) <= astray && Attended(r, astray)
    ensures Attended(Next(r, step), astray)
  {
    hide InvBut, Holding, Course, ClaimFrom, AllServed, AllAtCall, Misled, Offered;
    if !r.down && |r.active| < MAX_ACTIVATIONS {
      var claimed := ClaimFrom(r, step.list, step.doubts, step.now);
      OfferedAtStart(r, step.list, step.now);
      ClaimFromServes(r, step.list, step.doubts, step.now, astray);
      SameCourse(claimed.db, SweepSystems(claimed.db));
      CourseAttends(claimed.db, SweepSystems(claimed.db), claimed.active, {}, {}, astray);
    }
  }

  lemma FinishAttends(r: Daemon, step: Step, astray: set<Id>)
    requires DaemonInv(r, astray) && step.DoFinish? && Attended(r, astray)
    ensures Attended(Next(r, step), astray)
  {
    hide InvBut, Holding, Course, FinishDelivery, AllServed, Served;
    var a := step.agent;
    if a in r.active {
      var s, rest := r.active[a], r.active - {a};
      HeldBy(r, a, astray);
      FewerAtCall(r.db, r.active, a);
      if FinishDelivery(r.db, s, step.finish, r.down, step.now).Some? {
        var db' := FinishDelivery(r.db, s, step.finish, r.down, step.now).value;
        FinishDeliveryCourse(r.db, s, step.finish, r.down, step.now);
        CourseRows(r.db, db', {s.task}, FinishedBy(r.db, s, step.finish));
        if s.task !in astray { ServedNow(r.db, s.task, astray); FinishServes(r, a, step.finish, step.now, astray); }
        assert AtCall(r.db, a, s);
        CourseAttends(r.db, db', rest, {s.task}, FinishedBy(r.db, s, step.finish), astray);
      }
    }
  }

  lemma FewerAtCall(db: Store, active: map<Id, Activation>, a: Id)
    requires AllAtCall(db, active)
    ensures AllAtCall(db, active - {a})
  {
    forall b | b in active - {a} ensures AtCall(db, b, (active - {a})[b]) { assert AtCall(db, b, active[b]); }
  }

  lemma FinishServes(r: Daemon, a: Id, f: Finish, now: int, astray: set<Id>)
    requires DaemonInv(r, astray) && a in r.active && AllAtCall(r.db, r.active) && r.active[a].task < |r.db.tasks| && r.active[a].task !in astray
    requires var s := r.active[a];
             && s.call < |r.db.calls| && s.mail < |r.db.mails| && r.db.mails[s.mail].state == Leased && r.db.mails[s.mail].task == s.task
             && Served(r.db, s.task) && FinishDelivery(r.db, s, f, r.down, now).Some?
    ensures var s := r.active[a];
            var db' := FinishDelivery(r.db, s, f, r.down, now).value;
            s.task < |db'.tasks| && Served(db', s.task)
  {
    hide FinishDelivery, Course, Served, PledgesBut, TalkBut, Requests, Reserve;
    var s, db := r.active[a], r.db;
    var db' := FinishDelivery(db, s, f, r.down, now).value;
    assert AtCall(db, a, s);
    if LiveTask(db, s.task) {
      forall k | 0 <= k < |db.mails| && k != s.mail && db.mails[k].task == s.task ensures db.mails[k].state != Leased {
        assert MailFits(db, k) && MailFits(db, s.mail);
      }
      if Undispatched(db.calls[s.call]) { NotWaiting(db, s.task, astray); }
      FinishDeliveryServes(db, s, f, r.down, now);
    } else {
      FinishDeliveryCourse(db, s, f, r.down, now);
      EndKept(db, db', {s.task}, FinishedBy(db, s, f), s.task);
      DoneServed(db', s.task);
    }
  }

  lemma EndKept(db: Store, db': Store, moved: set<Id>, completed: set<Id>, t: Id)
    requires Course(db, db', moved, completed) && t < |db.tasks| && !LiveTask(db, t)
    ensures t < |db'.tasks| && !LiveTask(db', t)
  {
    assert TaskCourse(db.tasks[t], db'.tasks[t], t in moved, t in completed);
  }

  lemma RestartAttends(r: Daemon, step: Step, astray: set<Id>)
    requires step.DoRestart? && Attended(r, astray)
    ensures Attended(Next(r, step), astray)
  {
    hide Course, FailAll, Served, Abandon;
    var base := Abandon(r.db);
    AbandonEnds(r.db);
    forall t | 0 <= t < |base.tasks| && t !in astray ensures Served(base, t) { AbandonServes(r.db, t); }
    var failed := FailAll(base, step.list, step.now);
    FailAllCourse(base, step.list, step.now);
    CourseAttends(base, failed, map[], {}, {}, astray);
    SameCourse(failed, StopIdle(failed));
    CourseAttends(failed, StopIdle(failed), map[], {}, {}, astray);
  }

  /** Every step keeps the tasks that it does not lead astray served. */
  lemma StepAttends(r: Daemon, step: Step, astray: set<Id>)
    requires DaemonInv(r, astray) && Sensible(r, step) && Led(r, step) <= astray && Attended(r, astray)
    ensures Attended(Next(r, step), astray)
  {
    hide DaemonInv, Sensible, Led, Course, Next, AllServed, AllAtCall;
    if step.DoClaim? {
      ClaimAttends(r, step, astray);
    } else if step.DoFinish? {
      FinishAttends(r, step, astray);
    } else if step.DoPrepareTool? {
      ToolAttends(r, step, astray);
    } else if step.DoRestart? {
      RestartAttends(r, step, astray);
    } else {
      if step.DoMoveCall? || step.DoInput? || step.DoNotice? || step.DoExpire? || step.DoCompleteTool? || step.DoShutdown? {
        WorldCourse(r, step);
      } else {
        AdministrationCourse(r, step);
      }
      CourseAttends(r.db, Next(r, step).db, r.active, {}, {}, astray);
    }
  }

  // ----- runs -----

  lemma AttendedWider(r: Daemon, astray: set<Id>, more: set<Id>)
    requires Attended(r, astray) && astray <= more
    ensures Attended(r, more)
  {
    hide Served;
  }

  lemma {:induction false} RunAttends(states: seq<Daemon>, steps: seq<Step>, i: nat)
    requires IsRun(states, steps) && i <= |steps|
    ensures Attended(states[i], Astray(states, steps, i))
  {
    hide DaemonInv, Attended, Next, Sensible, Led;
    if i == 0 {
      BootAttended();
    } else {
      var more := Astray(states, steps, i);
      RunAttends(states, steps, i - 1);
      RunInv(states, steps, i - 1);
      AttendedWider(states[i - 1], Astray(states, steps, i - 1), more);
      DaemonWider(states[i - 1], Astray(states, steps, i - 1), more);
      StepAttends(states[i - 1], steps[i - 1], more);
    }
  }

  lemma BootAttended()
    ensures Attended(BOOT, {})
  {
  }

  /** No task is forgotten: in every state of every run a queued task that was not led astray has a pending
      delivery that will start it, and a running one a leased delivery. */
  lemma ServiceTheorem(states: seq<Daemon>, steps: seq<Step>, i: nat, t: Id)
    requires IsRun(states, steps) && i <= |steps| && t < |states[i].db.tasks| && t !in Astray(states, steps, i)
    ensures var db := states[i].db;
            && (db.tasks[t].phase == Queued ==>
                  exists m :: 0 <= m < |db.mails| && db.mails[m].task == t && db.mails[m].state == Pending && db.mails[m].kind != Progress)
            && (db.tasks[t].phase == Running ==>
                  exists m :: 0 <= m < |db.mails| && db.mails[m].task == t && db.mails[m].state == Leased && db.mails[m].kind != Progress)
  {
    hide Next, Sensible, Led, AllAtCall;
    RunAttends(states, steps, i);
    var db := states[i].db;
    ServedNow(db, t, Astray(states, steps, i));
    if db.tasks[t].phase == Queued { var m :| 0 <= m < |db.mails| && Serves(db.mails[m], t, Pending); }
    if db.tasks[t].phase == Running { var m :| 0 <= m < |db.mails| && Serves(db.mails[m], t, Leased); }
  }

  /** The delivery starts its task as soon as nothing but time, pauses, capacity or a doubt about the request is in
      the way. */
  ghost predicate WillStart(r: Daemon, m: Id) {
    CandidateRow(r.db, m) && forall d: Doubt, now: int :: Clears(r, m, d, now) ==> Consider(r.db, r.active, m, d, now).Leasing?
  }

  predicate Clears(r: Daemon, m: Id, d: Doubt, now: int)
    requires CandidateRow(r.db, m)
  {
    var t := r.db.mails[m].task;
    && r.db.tasks[t].agent !in r.active && !ClaimRows.Hopeless(r.db, m, now) && ClaimRows.Open(r.db, t) && ClaimRows.Room(r.db, r.active, t)
    && !d.blocked && !d.inputs && !d.request
  }

  lemma StarterStarts(r: Daemon, t: Id, m: Id, astray: set<Id>)
    requires Inv(r.db, astray) && t !in astray && LiveTask(r.db, t) && !r.db.tasks[t].stopped && r.db.tasks[t].phase == Queued
    requires m < |r.db.mails| && Serves(r.db.mails[m], t, Pending)
    ensures WillStart(r, m)
  {
    hide Consider, RestBut, ClaimRows.LeasedRows, ClaimRows.GivenUp, ClaimRows.Buried, ClaimRows.Hopeless, ClaimRows.Open, ClaimRows.Room;
    assert TaskWaits(r.db, t) by { TaskAnswers(r.db, t, astray); }
    NoReplyAwaited(r.db, t, m, astray);
    forall d: Doubt, now: int | Clears(r, m, d, now) ensures Consider(r.db, r.active, m, d, now).Leasing? {
      ClaimRows.ConsiderExactly(r.db, r.active, m, d, now);
    }
  }

  /** In every state of every run a queued task that nobody stopped or led astray has a pending delivery that a claim
      will lease as soon as its goal, system and agent let it. */
  lemma ReadyTheorem(states: seq<Daemon>, steps: seq<Step>, i: nat, t: Id) returns (m: Id)
    requires IsRun(states, steps) && i <= |steps| && t < |states[i].db.tasks| && t !in Astray(states, steps, i)
    requires states[i].db.tasks[t].phase == Queued && !states[i].db.tasks[t].stopped
    ensures m < |states[i].db.mails| && states[i].db.mails[m].task == t && states[i].db.mails[m].state == Pending && WillStart(states[i], m)
  {
    hide Next, Sensible, Led, AllAtCall, WillStart, Consider, RestBut, Holding, Planned;
    RunAttends(states, steps, i);
    RunInv(states, steps, i);
    var db := states[i].db;
    ServedNow(db, t, Astray(states, steps, i));
    m :| 0 <= m < |db.mails| && Serves(db.mails[m], t, Pending);
    StarterStarts(states[i], t, m, Astray(states, steps, i));
  }

  // ----- how tasks come to be completed -----

  /** The step finishes the task's call, which was answered without a tool, by a worker that did not fail, while
      nobody stops the task. */
  predicate CompletesTask(r: Daemon, step: Step, t: Id) {
    step.DoFinish? && step.agent in r.active && r.active[step.agent].task == t && FinishCompletes(r.db, r.active[step.agent], step.finish)
  }

  lemma {:induction false} ClaimFromEnds(r: Daemon, ids: seq<Id>, doubts: Id -> Doubt, now: int)
    ensures var db' := ClaimFrom(r, ids, doubts, now).db; |r.db.tasks| <= |db'.tasks| && NoneCompleted(r.db, db', {})
    decreases |ids|
  {
    hide Course, Consider;
    if ids != [] {
      if !CandidateRow(r.db, ids[0]) {
        ClaimFromEnds(r, ids[1..], doubts, now);
      } else {
        var verdict, t := Consider(r.db, r.active, ids[0], doubts(ids[0]), now), r.db.mails[ids[0]].task;
        ConsiderCourse(r.db, r.active, ids[0], doubts(ids[0]), now);
        CourseCompletes(r.db, verdict.db, {t}, {});
        if verdict.Passed? { ClaimFromEnds(r.(db := verdict.db), ids[1..], doubts, now); }
      }
    }
  }

  ghost predicate NoneCompleted(db: Store, db': Store, but: set<Id>) {
    forall t: Id :: t < |db'.tasks| && db'.tasks[t].phase == Done(Completed) && t !in but ==> t < |db.tasks| && db.tasks[t].phase == Done(Completed)
  }

  lemma CourseCompletes(db: Store, db': Store, moved: set<Id>, completed: set<Id>)
    requires Course(db, db', moved, completed)
    ensures NoneCompleted(db, db', completed) && |db.tasks| <= |db'.tasks|
  {
    hide Served;
    forall t: Id | t < |db'.tasks| && db'.tasks[t].phase == Done(Completed) && t !in completed
      ensures t < |db.tasks| && db.tasks[t].phase == Done(Completed)
    {
      if t < |db.tasks| { assert TaskCourse(db.tasks[t], db'.tasks[t], t in moved, t in completed); }
    }
  }

  lemma RestartEnds(r: Daemon, step: Step)
    requires step.DoRestart?
    ensures NoneCompleted(r.db, Next(r, step).db, {})
  {
    hide Course, FailAll, Abandon;
    AbandonEnds(r.db);
    FailAllCourse(Abandon(r.db), step.list, step.now);
    CourseCompletes(Abandon(r.db), FailAll(Abandon(r.db), step.list, step.now), {}, {});
  }

  lemma FinishEnds(r: Daemon, step: Step, astray: set<Id>)
    requires DaemonInv(r, astray) && step.DoFinish?
    ensures NoneCompleted(r.db, Next(r, step).db, if step.agent in r.active then FinishedBy(r.db, r.active[step.agent], step.finish) else {})
  {
    hide DaemonInv, Course, FinishDelivery;
    if step.agent in r.active {
      var s := r.active[step.agent];
      HeldBy(r, step.agent, astray);
      if FinishDelivery(r.db, s, step.finish, r.down, step.now).Some? {
        FinishDeliveryCourse(r.db, s, step.finish, r.down, step.now);
        CourseCompletes(r.db, FinishDelivery(r.db, s, step.finish, r.down, step.now).value, {s.task}, FinishedBy(r.db, s, step.finish));
      }
    }
  }

  lemma StepCompletes(r: Daemon, step: Step, t: Id, astray: set<Id>)
    requires DaemonInv(r, astray) && t < |Next(r, step).db.tasks| && Next(r, step).db.tasks[t].phase == Done(Completed)
    ensures t < |r.db.tasks| && (r.db.tasks[t].phase == Done(Completed) || CompletesTask(r, step, t))
  {
    hide DaemonInv, Course, ClaimFrom, FinishCompletes, PrepareTool, FinishStep, Recover;
    var db' := Next(r, step).db;
    if step.DoClaim? {
      ClaimFromEnds(r, step.list, step.doubts, step.now);
    } else if step.DoFinish? {
      FinishEnds(r, step, astray);
      FinishCompletesLive(r, step);
    } else if step.DoRestart? {
      RestartEnds(r, step);
    } else if step.DoPrepareTool? {
      PrepareToolCourse(r, step.agent, step.tool, step.now);
      if db' != r.db {
        var u := r.active[step.agent].task;
        if Course(r.db, db', {}, {}) { CourseCompletes(r.db, db', {}, {}); } else { CourseCompletes(r.db, db', {u}, {}); }
      }
    } else {
      if step.DoMoveCall? || step.DoInput? || step.DoNotice? || step.DoExpire? || step.DoCompleteTool? || step.DoShutdown? {
        WorldCourse(r, step);
      } else {
        AdministrationCourse(r, step);
      }
      CourseCompletes(r.db, db', {}, {});
    }
  }

  lemma FinishCompletesLive(r: Daemon, step: Step)
    requires step.DoFinish?
    ensures forall t :: step.agent in r.active && t in FinishedBy(r.db, r.active[step.agent], step.finish) ==>
              t < |r.db.tasks| && CompletesTask(r, step, t)
  {
  }

  /** A task is completed only by a finish whose call was answered without a tool: on every run, for every
      completed task there is the step that did it. */
  lemma {:induction false} CompletedTheorem(states: seq<Daemon>, steps: seq<Step>, j: nat, t: Id) returns (i: nat)
    requires IsRun(states, steps) && j <= |steps| && t < |states[j].db.tasks| && states[j].db.tasks[t].phase == Done(Completed)
    ensures i < j && steps[i].DoFinish? && steps[i].agent in states[i].active
    ensures var s, db := states[i].active[steps[i].agent], states[i].db;
            && s.task == t && LiveTask(db, t) && db.tasks[t].call == s.call && s.call < |db.calls| && db.calls[s.call].state == Answered(None)
            && !steps[i].finish.workerFailed && !steps[i].finish.canceled && !db.tasks[t].stopped
  {
    hide DaemonInv, Next, Sensible, Led;
    if j == 0 {
      assert false;
    } else {
      RunInv(states, steps, j - 1);
      StepCompletes(states[j - 1], steps[j - 1], t, Astray(states, steps, j - 1));
      if states[j - 1].db.tasks[t].phase == Done(Completed) {
        i := CompletedTheorem(states, steps, j - 1, t);
      } else {
        i := j - 1;
      }
    }
  }
}
