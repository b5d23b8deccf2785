/** The course of tasks: which step may move, complete or serve which task. A task that is ready to go on is
    always served, by a delivery that will start it or by the one its worker holds. */
module Courses {
  import opened Common
  import opened Sums
  import opened Team
  import opened Mailbox
  import opened TeamSteps

  // ----- service -----

  predicate Serves(v: Mail, t: Id, state: MailState) { v.task == t && v.kind != Progress && v.state == state }

  /** A queued task has a pending delivery that will start it, a running one a leased delivery. */
  predicate Served(db: Store, t: Id)
    requires t < |db.tasks|
  {
    && (db.tasks[t].phase == Queued ==> exists m :: 0 <= m < |db.mails| && Serves(db.mails[m], t, Pending))
    && (db.tasks[t].phase == Running ==> exists m :: 0 <= m < |db.mails| && Serves(db.mails[m], t, Leased))
  }

  // ----- courses -----

  /** An end stands; nobody is completed unless `completes`; and a live task that is not `moved` stays in its phase
      and with its call. */
  predicate TaskCourse(t: Task, t': Task, moved: bool, completes: bool) {
    && t'.agent == t.agent && (t.phase.Done? ==> t'.phase == t.phase)
    && (t'.phase == Done(Completed) ==> t.phase == Done(Completed) || completes)
    && (!moved && Live(t') ==> Live(t) && t'.phase == t.phase && t'.call == t.call)
  }

  predicate MailCourse(v: Mail, v': Mail, held: bool) {
    v'.task == v.task && v'.kind == v.kind && (held && v.kind != Progress ==> v'.state == v.state)
  }

  predicate Stays(db: Store, db': Store, t: Id, moved: set<Id>) { t < |db.tasks| && LiveTask(db', t) && t !in moved }

  /** Tasks outside `moved` stay where they are, or end, and keep their deliveries while they live; new tasks are
      served; only tasks in `completed` may be completed. */
  ghost predicate Course(db: Store, db': Store, moved: set<Id>, completed: set<Id>) {
    && |db.tasks| <= |db'.tasks| && |db.mails| <= |db'.mails|
    && (forall k :: 0 <= k < |db.tasks| ==> TaskCourse(db.tasks[k], db'.tasks[k], k in moved, k in completed))
    && (forall k :: |db.tasks| <= k < |db'.tasks| ==> (db'.tasks[k].phase == Done(Completed) ==> k in completed) && (k in moved || Served(db', k)))
    && (forall m :: 0 <= m < |db.mails| ==> MailCourse(db.mails[m], db'.mails[m], Stays(db, db', db.mails[m].task, moved)))
  }

  lemma ServedKept(db: Store, db': Store, moved: set<Id>, completed: set<Id>, k: Id)
    requires Course(db, db', moved, completed) && k < |db.tasks| && k !in moved && Served(db, k)
    ensures Served(db', k)
  {
    assert TaskCourse(db.tasks[k], db'.tasks[k], false, k in completed);
    if db'.tasks[k].phase == Queued {
      var m :| 0 <= m < |db.mails| && Serves(db.mails[m], k, Pending);
      assert MailCourse(db.mails[m], db'.mails[m], true);
      assert Serves(db'.mails[m], k, Pending);
    }
    if db'.tasks[k].phase == Running {
      var m :| 0 <= m < |db.mails| && Serves(db.mails[m], k, Leased);
      assert MailCourse(db.mails[m], db'.mails[m], true);
      assert Serves(db'.mails[m], k, Leased);
    }
  }

  lemma CourseTransitive(a: Store, b: Store, c: Store, moved: set<Id>, completed: set<Id>)
    requires Course(a, b, moved, completed) && Course(b, c, moved, completed)
    ensures Course(a, c, moved, completed)
  {
    hide Served;
    forall k | 0 <= k < |a.tasks| ensures TaskCourse(a.tasks[k], c.tasks[k], k in moved, k in completed) {
      assert TaskCourse(a.tasks[k], b.tasks[k], k in moved, k in completed) && TaskCourse(b.tasks[k], c.tasks[k], k in moved, k in completed);
    }
    forall k | |a.tasks| <= k < |c.tasks| ensures (c.tasks[k].phase == Done(Completed) ==> k in completed) && (k in moved || Served(c, k)) {
      if k < |b.tasks| {
        assert TaskCourse(b.tasks[k], c.tasks[k], k in moved, k in completed);
        if k !in moved { ServedKept(b, c, moved, completed, k); }
      }
    }
    forall m | 0 <= m < |a.mails| ensures MailCourse(a.mails[m], c.mails[m], Stays(a, c, a.mails[m].task, moved)) {
      var t := a.mails[m].task;
      assert MailCourse(a.mails[m], b.mails[m], Stays(a, b, t, moved)) && MailCourse(b.mails[m], c.mails[m], Stays(b, c, t, moved));
      if Stays(a, c, t, moved) { assert TaskCourse(b.tasks[t], c.tasks[t], false, t in completed); }
    }
  }

  lemma CourseWider(a: Store, b: Store, moved: set<Id>, completed: set<Id>, moved': set<Id>, completed': set<Id>)
    requires Course(a, b, moved, completed) && moved <= moved' && completed <= completed'
    ensures Course(a, b, moved', completed')
  {
    hide Served;
    forall k | 0 <= k < |a.tasks| ensures TaskCourse(a.tasks[k], b.tasks[k], k in moved', k in completed') {
      assert TaskCourse(a.tasks[k], b.tasks[k], k in moved, k in completed);
    }
    forall m | 0 <= m < |a.mails| ensures MailCourse(a.mails[m], b.mails[m], Stays(a, b, a.mails[m].task, moved')) {
      assert MailCourse(a.mails[m], b.mails[m], Stays(a, b, a.mails[m].task, moved));
    }
  }

  /** Tasks and deliveries are as before. */
  predicate SameWork(db: Store, db': Store) { db'.tasks == db.tasks && db'.mails == db.mails }

  lemma SameCourse(db: Store, db': Store)
    requires SameWork(db, db')
    ensures Course(db, db', {}, {})
  {
  }

  // ----- events and ends -----

  lemma EmitCourse(db: Store, t: Id, kind: Kind, source: Source, cause: Option<Id>, now: int)
    requires t < |db.tasks| && Emit(db, t, kind, source, cause, now).Some?
    ensures Course(db, Emit(db, t, kind, source, cause, now).value, {}, {})
  {
    hide Refuses, Depth;
  }

  lemma MarkDoneCourse(db: Store, t: Id, outcome: Outcome)
    requires LiveTask(db, t)
    ensures Course(db, MarkDone(db, t, outcome), {}, if outcome == Completed then {t} else {})
  {
  }

  function CompletedBy(t: Id, outcome: Outcome): set<Id> { if outcome == Completed then {t} else {} }

  lemma {:induction false} TerminateCourse(db: Store, t: Id, outcome: Outcome, source: Source, cause: Option<Id>, now: int)
    ensures var db' := Terminate(db, t, outcome, source, cause, now);
            Course(db, db', {}, CompletedBy(t, outcome)) && |db'.tasks| == |db.tasks| && !LiveTask(db', t)
    decreases t
  {
    hide Refuses, MarkDone, Emit, Served, Course, CloseGoal;
    var db' := Terminate(db, t, outcome, source, cause, now);
    var completed := CompletedBy(t, outcome);
    SameCourse(db, db);
    CourseWider(db, db, {}, {}, {}, completed);
    if LiveTask(db, t) {
      var ended := MarkDone(db, t, outcome);
      var r := db.tasks[t];
      MarkDoneCourse(db, t, outcome);
      MarkDoneRows(db, t, outcome);
      if r.evaluation {
      } else if r.parent.None? {
        CloseGoalSame(ended, r.system, r.goal);
        SameCourse(ended, db');
        CourseWider(ended, db', {}, {}, {}, completed);
        CourseTransitive(db, ended, db', {}, completed);
      } else {
        var p := r.parent.value;
        if p < t && LiveTask(ended, p) && !ended.tasks[p].stopped {
          if Emit(ended, p, Result(t), source, cause, now).Some? {
            EmitCourse(ended, p, Result(t), source, cause, now);
            EmitRows(ended, p, Result(t), source, cause, now);
          } else {
            TerminateCourse(ended, p, Rejected, Runtime, cause, now);
          }
          CourseWider(ended, db', {}, {}, {}, completed);
          CourseTransitive(db, ended, db', {}, completed);
          EndStands(ended, db', completed, t);
        }
      }
    }
  }

  lemma EndStands(db: Store, db': Store, completed: set<Id>, t: Id)
    requires Course(db, db', {}, completed) && t < |db.tasks| && !LiveTask(db, t)
    ensures !LiveTask(db', t)
  {
    assert TaskCourse(db.tasks[t], db'.tasks[t], false, t in completed);
  }

  lemma MarkDoneRows(db: Store, t: Id, outcome: Outcome)
    requires LiveTask(db, t)
    ensures var db' := MarkDone(db, t, outcome); |db'.tasks| == |db.tasks| && !LiveTask(db', t)
  {
  }

  lemma CloseGoalSame(db: Store, s: Id, g: Id)
    ensures SameWork(db, CloseGoal(db, s, g))
  {
  }

  lemma EmitRows(db: Store, t: Id, kind: Kind, source: Source, cause: Option<Id>, now: int)
    requires t < |db.tasks| && Emit(db, t, kind, source, cause, now).Some?
    ensures Emit(db, t, kind, source, cause, now).value.tasks == db.tasks
  {
  }

  lemma MarkStoppedCourse(db: Store, t: Id)
    ensures Course(db, MarkStopped(db, t), {}, {}) && |MarkStopped(db, t).tasks| == |db.tasks|
  {
  }

  lemma {:induction false} MarkAllCourse(db: Store, ids: seq<Id>)
    ensures Course(db, MarkAll(db, ids), {}, {}) && |MarkAll(db, ids).tasks| == |db.tasks|
  {
    hide Course, MarkStopped;
    if ids == [] {
      SameCourse(db, db);
    } else {
      var mid := MarkAll(db, ids[..|ids| - 1]);
      MarkAllCourse(db, ids[..|ids| - 1]);
      MarkStoppedCourse(mid, ids[|ids| - 1]);
      CourseTransitive(db, mid, MarkAll(db, ids), {}, {});
    }
  }

  lemma HaltTaskCourse(db: Store, t: Id, source: Source, now: int)
    ensures Course(db, HaltTask(db, t, source, now), {}, {}) && |HaltTask(db, t, source, now).tasks| == |db.tasks|
  {
    hide Course, Terminate, TaskLeased;
    SameCourse(db, db);
    if t < |db.tasks| {
      var halting := if db.tasks[t].parent.None? then SetSystem(db, db.tasks[t].system, Stopping) else db;
      SameCourse(db, halting);
      TerminateCourse(halting, t, Canceled, source, None, now);
      CourseTransitive(db, halting, Terminate(halting, t, Canceled, source, None, now), {}, {});
    }
  }

  lemma {:induction false} HaltAllCourse(db: Store, ids: seq<Id>, source: Source, now: int)
    ensures Course(db, HaltAll(db, ids, source, now), {}, {}) && |HaltAll(db, ids, source, now).tasks| == |db.tasks|
  {
    hide Course, HaltTask;
    if ids == [] {
      SameCourse(db, db);
    } else {
      var mid := HaltAll(db, ids[..|ids| - 1], source, now);
      HaltAllCourse(db, ids[..|ids| - 1], source, now);
      HaltTaskCourse(mid, ids[|ids| - 1], source, now);
      CourseTransitive(db, mid, HaltAll(db, ids, source, now), {}, {});
    }
  }

  lemma StopTasksCourse(db: Store, ids: seq<Id>, source: Source, now: int)
    ensures Course(db, StopTasks(db, ids, source, now), {}, {}) && |StopTasks(db, ids, source, now).tasks| == |db.tasks|
  {
    hide Course, MarkAll, HaltAll;
    MarkAllCourse(db, ids);
    HaltAllCourse(MarkAll(db, ids), ids, source, now);
    CourseTransitive(db, MarkAll(db, ids), StopTasks(db, ids, source, now), {}, {});
  }

  // ----- claims -----

  lemma ConsumeCourse(db: Store, t: Id, conversation: seq<Message>, exclude: Option<Id>)
    requires t < |db.tasks|
    ensures Course(db, ConsumeInputs(db, t, conversation, exclude), {t}, {})
  {
  }

  lemma TakeTurnCourse(db: Store, t: Id, conversation: seq<Message>)
    requires LiveTask(db, t)
    ensures Course(db, TakeTurn(db, t, conversation), {t}, {})
  {
  }

  lemma ResumeCourse(db: Store, t: Id, m: Id, conversation: seq<Message>, exclude: Option<Id>, d: Doubt, now: int)
    requires LiveTask(db, t)
    ensures var r := Resume(db, t, m, conversation, exclude, d, now);
            Course(db, r.db, {t}, {}) && |r.db.tasks| == |db.tasks| && (r.Halt? ==> !LiveTask(r.db, t)) && (r.Go? ==> LiveTask(r.db, t))
  {
    hide Course, ConsumeInputs, TakeTurn, Terminate, MayTurn;
    if d.inputs {
      TerminateCourse(db, t, Rejected, Runtime, Some(m), now);
      CourseWider(db, Resume(db, t, m, conversation, exclude, d, now).db, {}, {}, {t}, {});
    } else {
      var fed := ConsumeInputs(db, t, conversation, exclude);
      ConsumeCourse(db, t, conversation, exclude);
      FedRows(db, t, conversation, exclude);
      if MayTurn(fed, t, d, now) {
        TakeTurnCourse(fed, t, fed.tasks[t].conversation);
        TurnRows(fed, t, fed.tasks[t].conversation);
      } else {
        TerminateCourse(fed, t, Rejected, Runtime, Some(m), now);
        CourseWider(fed, Resume(db, t, m, conversation, exclude, d, now).db, {}, {}, {t}, {});
      }
      CourseTransitive(db, fed, Resume(db, t, m, conversation, exclude, d, now).db, {t}, {});
    }
  }

  lemma FedRows(db: Store, t: Id, conversation: seq<Message>, exclude: Option<Id>)
    requires LiveTask(db, t)
    ensures var db' := ConsumeInputs(db, t, conversation, exclude); |db'.tasks| == |db.tasks| && LiveTask(db', t)
  {
  }

  lemma TurnRows(db: Store, t: Id, conversation: seq<Message>)
    requires LiveTask(db, t)
    ensures var db' := TakeTurn(db, t, conversation); |db'.tasks| == |db.tasks| && LiveTask(db', t)
  {
  }

  lemma SetMailCourse(db: Store, m: Id, v: Mail)
    requires m < |db.mails| && v.task == db.mails[m].task && v.kind == db.mails[m].kind
    ensures Course(db, SetMail(db, m, v), {v.task}, {})
    ensures v.kind == Progress ==> Course(db, SetMail(db, m, v), {}, {})
  {
  }

  lemma ApplyReplyCourse(db: Store, t: Id, m: Id, child: Id, d: Doubt, now: int)
    requires LiveTask(db, t) && (m < |db.mails| ==> db.mails[m].task == t)
    ensures var r := ApplyReply(db, t, m, child, d, now);
            Course(db, r.db, {t}, {}) && |r.db.tasks| == |db.tasks| && (r.Go? ==> LiveTask(r.db, t))
  {
    hide Course, Resume;
    var r := db.tasks[t];
    if r.waitingTool.None? || child >= |db.tasks| || db.tasks[child].parent != Some(t) || db.tasks[child].goal != r.goal || Live(db.tasks[child]) {
      SameCourse(db, db);
      CourseWider(db, db, {}, {}, {t}, {});
      if m < |db.mails| { SetMailCourse(db, m, db.mails[m].(state := Dead)); }
    } else {
      ResumeCourse(db, t, m, r.conversation + [Reply(r.waitingTool.value)], Some(m), d, now);
    }
  }

  lemma MailStaysWith(db: Store, db': Store, moved: set<Id>, m: Id)
    requires Course(db, db', moved, {}) && m < |db.mails|
    ensures m < |db'.mails| && db'.mails[m].task == db.mails[m].task && db'.mails[m].kind == db.mails[m].kind
  {
  }

  lemma ApplyMailCourse(db: Store, t: Id, m: Id, d: Doubt, now: int)
    requires LiveTask(db, t) && m < |db.mails| && db.mails[m].task == t
    ensures var r := ApplyMail(db, t, m, d, now); Course(db, r.db, {t}, {}) && |r.db.tasks| == |db.tasks| && (r.Go? ==> LiveTask(r.db, t))
  {
    hide Course, Resume, ApplyReply;
    var r := db.tasks[t];
    SameCourse(db, db);
    CourseWider(db, db, {}, {}, {t}, {});
    ResumeCourse(db, t, m, r.conversation, None, d, now);
    var woken := if r.phase == Waiting && r.waitingTool.None? then Resume(db, t, m, r.conversation, None, d, now) else Go(db);
    if woken.Go? && db.mails[m].kind.Result? && !db.mails[m].applied {
      MailStaysWith(db, woken.db, {t}, m);
      ApplyReplyCourse(woken.db, t, m, db.mails[m].kind.child, d, now);
      CourseTransitive(db, woken.db, ApplyMail(db, t, m, d, now).db, {t}, {});
    }
  }

  lemma RefreshCourse(db: Store, t: Id, m: Id, d: Doubt, now: int)
    requires LiveTask(db, t)
    ensures var r := Refresh(db, t, m, d, now);
            Course(db, r.db, {t}, {}) && |r.db.tasks| == |db.tasks| && (r.Go? ==> LiveTask(r.db, t)) && (r.Halt? ==> !LiveTask(r.db, t))
  {
    hide Course, ConsumeInputs, Terminate;
    var c := db.tasks[t].call;
    SameCourse(db, db);
    CourseWider(db, db, {}, {}, {t}, {});
    if c < |db.calls| && db.calls[c].state == Awaiting && db.calls[c].attempts == 0 {
      var db' := Refresh(db, t, m, d, now).db;
      if d.inputs {
        TerminateCourse(db, t, Rejected, Runtime, Some(m), now);
        CourseWider(db, db', {}, {}, {t}, {});
      } else {
        var fed := ConsumeInputs(db, t, db.tasks[t].conversation, None);
        ConsumeCourse(db, t, db.tasks[t].conversation, None);
        FedRows(db, t, db.tasks[t].conversation, None);
        if d.request {
          TerminateCourse(fed, t, Rejected, Runtime, Some(m), now);
          CourseWider(fed, db', {}, {}, {t}, {});
        } else {
          SameCourse(fed, db');
          CourseWider(fed, db', {}, {}, {t}, {});
        }
        CourseTransitive(db, fed, db', {t}, {});
      }
    }
  }

  lemma LeaseCourse(db: Store, t: Id, m: Id)
    requires LiveTask(db, t) && m < |db.mails| && db.mails[m].task == t
    ensures Course(db, Lease(db, t, m), {t}, {})
  {
  }

  lemma DeliverCourse(db: Store, t: Id, m: Id, d: Doubt, now: int)
    requires LiveTask(db, t) && m < |db.mails| && db.mails[m].task == t
    ensures Course(db, Deliver(db, t, m, d, now).db, {t}, {})
  {
    hide Course, ApplyMail, Refresh, Lease, Terminate;
    var applied := ApplyMail(db, t, m, d, now);
    var db' := Deliver(db, t, m, d, now).db;
    ApplyMailCourse(db, t, m, d, now);
    if applied.Go? {
      MailStaysWith(db, applied.db, {t}, m);
      if d.blocked {
        TerminateCourse(applied.db, t, Rejected, Runtime, Some(m), now);
        CourseWider(applied.db, db', {}, {}, {t}, {});
        CourseTransitive(db, applied.db, db', {t}, {});
      } else {
        var asked := Refresh(applied.db, t, m, d, now);
        RefreshCourse(applied.db, t, m, d, now);
        CourseTransitive(db, applied.db, asked.db, {t}, {});
        if asked.Go? {
          MailStaysWith(applied.db, asked.db, {t}, m);
          LeaseCourse(asked.db, t, m);
          CourseTransitive(db, asked.db, db', {t}, {});
        }
      }
    }
  }

  lemma ConsiderCourse(db: Store, active: map<Id, Activation>, m: Id, d: Doubt, now: int)
    requires CandidateRow(db, m)
    ensures var db', t := Consider(db, active, m, d, now).db, db.mails[m].task;
            Course(db, db', {t}, {}) && (db.tasks[t].agent in active ==> db' == db)
  {
    hide Course, Terminate, Deliver;
    var v, t := db.mails[m], db.mails[m].task;
    SameCourse(db, db);
    CourseWider(db, db, {}, {}, {t}, {});
    SetMailCourse(db, m, v.(state := Dead));
    SetMailCourse(db, m, v.(state := Acked, applied := true));
    var dropped := SetMail(db, m, v.(state := Dead));
    var outcome := if StoppedFor(db, t) then Canceled else Failed;
    TerminateCourse(dropped, t, outcome, Runtime, Some(m), now);
    CourseWider(dropped, Terminate(dropped, t, outcome, Runtime, Some(m), now), {}, {}, {t}, {});
    CourseTransitive(db, dropped, Terminate(dropped, t, outcome, Runtime, Some(m), now), {t}, {});
    if Live(db.tasks[t]) { DeliverCourse(db, t, m, d, now); }
  }

  // ----- tools -----

  /** A new child is served by its first delivery. */
  lemma SpawnCourse(db: Store, p: Id, agent: Id, evaluation: bool, source: Source, cause: Option<Id>, now: int)
    requires p < |db.tasks| && Spawn(db, p, agent, evaluation, source, cause, now).Some?
    ensures var db' := Spawn(db, p, agent, evaluation, source, cause, now).value;
            Course(db, db', {}, {}) && |db'.tasks| == |db.tasks| + 1 && db'.tasks[..|db.tasks|] == db.tasks
  {
    hide Refuses, Depth;
    var db' := Spawn(db, p, agent, evaluation, source, cause, now).value;
    assert Serves(db'.mails[|db.mails|], |db.tasks|, Pending);
  }

  lemma {:induction false} SpawnCasesCourse(db: Store, t: Id, agent: Id, cases: nat, source: Source, now: int)
    requires t < |db.tasks| && SpawnCases(db, t, agent, cases, source, now).Some?
    ensures var db' := SpawnCases(db, t, agent, cases, source, now).value;
            Course(db, db', {}, {}) && |db'.tasks| == |db.tasks| + cases && db'.tasks[..|db.tasks|] == db.tasks
  {
    hide Course, Spawn;
    if cases == 0 {
      SameCourse(db, db);
    } else {
      SpawnCasesCourse(db, t, agent, cases - 1, source, now);
      var some := SpawnCases(db, t, agent, cases - 1, source, now).value;
      SpawnCourse(some, t, agent, true, source, None, now);
      CourseTransitive(db, some, SpawnCases(db, t, agent, cases, source, now).value, {}, {});
    }
  }

  lemma WaitCourse(db: Store, t: Id, r: Task)
    requires LiveTask(db, t) && r.phase == Waiting && r.agent == db.tasks[t].agent
    ensures Course(db, db.(tasks := db.tasks[t := r]), {t}, {})
  {
  }

  lemma DelegateCourse(db: Store, t: Id, m: Id, tool: Id, recipient: Id, now: int)
    requires LiveTask(db, t) && DelegateTask(db, t, m, tool, recipient, now).Some?
    ensures var db' := DelegateTask(db, t, m, tool, recipient, now).value;
            Course(db, db', {t}, {}) && db'.tasks[t].phase == Waiting && db'.tasks[t].call == db.tasks[t].call
  {
    hide Course, Spawn;
    var source := FromAgent(db.tasks[t].agent);
    var spawned := Spawn(db, t, recipient, false, source, Some(m), now).value;
    SpawnCourse(db, t, recipient, false, source, Some(m), now);
    CourseWider(db, spawned, {}, {}, {t}, {});
    assert spawned.tasks[t] == db.tasks[t];
    WaitCourse(spawned, t, Suspend(spawned, t, tool).tasks[t]);
    CourseTransitive(db, spawned, Suspend(spawned, t, tool), {t}, {});
  }

  lemma EvaluateCourse(db: Store, t: Id, tool: Id, evaluator: Id, cases: nat, now: int)
    requires LiveTask(db, t) && EvaluateTool(db, t, tool, evaluator, cases, now).Some?
    ensures var db' := EvaluateTool(db, t, tool, evaluator, cases, now).value;
            Course(db, db', {t}, {}) && db'.tasks[t].phase == Waiting && db'.tasks[t].call == db.tasks[t].call
  {
    hide Course, SpawnCases;
    var source := FromAgent(db.tasks[t].agent);
    var spawned := SpawnCases(db, t, evaluator, cases, source, now).value;
    SpawnCasesCourse(db, t, evaluator, cases, source, now);
    CourseWider(db, spawned, {}, {}, {t}, {});
    assert spawned.tasks[t] == db.tasks[t];
    WaitCourse(spawned, t, Idle(spawned, t, tool).tasks[t]);
    CourseTransitive(db, spawned, Idle(spawned, t, tool), {t}, {});
  }

  lemma {:induction false} RetireCourse(db: Store, agents: seq<Id>, lists: seq<seq<Id>>, source: Source, now: int)
    requires |lists| == |agents|
    ensures Course(db, RetireAll(db, agents, lists, source, now), {}, {}) && |RetireAll(db, agents, lists, source, now).tasks| == |db.tasks|
    decreases |agents|
  {
    hide Course, StopTasks;
    if agents == [] {
      SameCourse(db, db);
    } else {
      var n := |agents| - 1;
      var before := RetireAll(db, agents[..n], lists[..n], source, now);
      var off := SetAgent(before, agents[n], Off);
      RetireCourse(db, agents[..n], lists[..n], source, now);
      SameCourse(before, off);
      CourseTransitive(db, before, off, {}, {});
      StopTasksCourse(off, lists[n], source, now);
      CourseTransitive(db, off, RetireAll(db, agents, lists, source, now), {}, {});
    }
  }

  /** The tool leaves its task where it is, or waiting with the call that asked for it. */
  ghost predicate ToolCourse(db: Store, db': Store, t: Id) {
    t < |db.tasks| && t < |db'.tasks|
    && (Course(db, db', {}, {}) || (Course(db, db', {t}, {}) && db'.tasks[t].phase == Waiting && db'.tasks[t].call == db.tasks[t].call))
  }

  lemma HandleCourse(db: Store, t: Id, m: Id, tool: Id, kind: Tool, now: int)
    requires LiveTask(db, t) && Handle(db, t, m, tool, kind, now).Some?
    ensures ToolCourse(db, Handle(db, t, m, tool, kind, now).value, t)
  {
    hide Course, DelegateTask, EvaluateTool, RetireAll, Emit;
    SameCourse(db, db);
    match kind
    case Delegate(recipient, denied) => DelegateCourse(db, t, m, tool, recipient, now); DelegateKeeps(db, t, m, tool, recipient, now);
    case Evaluate(evaluator, cases, denied) => EvaluateCourse(db, t, tool, evaluator, cases, now); EvaluateKeeps(db, t, tool, evaluator, cases, now);
    case WaitForInput => WaitCourse(db, t, Idle(db, t, tool).tasks[t]);
    case Report =>
      var p := db.tasks[t].parent.value;
      EmitCourse(db, p, Progress, FromAgent(db.tasks[t].agent), Some(m), now);
      EmitRows(db, p, Progress, FromAgent(db.tasks[t].agent), Some(m), now);
    case Retire(agents, lists) => RetireCourse(db, agents, lists, FromAgent(db.tasks[t].agent), now);
    case Dispatched =>
    case Plain =>
  }

  lemma DelegateKeeps(db: Store, t: Id, m: Id, tool: Id, recipient: Id, now: int)
    requires t < |db.tasks| && DelegateTask(db, t, m, tool, recipient, now).Some?
    ensures t < |DelegateTask(db, t, m, tool, recipient, now).value.tasks|
  {
    hide Refuses, Depth;
  }

  lemma EvaluateKeeps(db: Store, t: Id, tool: Id, evaluator: Id, cases: nat, now: int)
    requires t < |db.tasks| && EvaluateTool(db, t, tool, evaluator, cases, now).Some?
    ensures t < |EvaluateTool(db, t, tool, evaluator, cases, now).value.tasks|
  {
    hide SpawnCases;
  }

  lemma RecordCourse(db: Store, mid: Store, db': Store, t: Id)
    requires ToolCourse(db, mid, t) && SameWork(mid, db')
    ensures ToolCourse(db, db', t)
  {
    hide Course;
    SameCourse(mid, db');
    CourseWider(mid, db', {}, {}, {t}, {});
    if Course(db, mid, {}, {}) { CourseTransitive(db, mid, db', {}, {}); } else { CourseTransitive(db, mid, db', {t}, {}); }
  }

  lemma PrepareToolCourse(r: Daemon, a: Id, kind: Tool, now: int)
    ensures PrepareTool(r, a, kind, now) != r ==> a in r.active && ToolCourse(r.db, PrepareTool(r, a, kind, now).db, r.active[a].task)
  {
    hide Course, ToolCourse, Handle;
    if MayInvoke(r, a) && r.active[a].call !in r.db.receipts {
      var s := r.active[a];
      var started := Record(r.db, s.call, Begun);
      var tool := r.db.calls[s.call].state.tool.value;
      if Handle(started, s.task, s.mail, tool, kind, now).Some? {
        var db' := Handle(started, s.task, s.mail, tool, kind, now).value;
        HandleCourse(started, s.task, s.mail, tool, kind, now);
        StartedCourse(r.db, started, db', s.task);
        RecordCourse(r.db, db', Record(db', s.call, Finished), s.task);
      }
    }
  }

  lemma StartedCourse(db: Store, started: Store, db': Store, t: Id)
    requires SameWork(db, started) && ToolCourse(started, db', t)
    ensures ToolCourse(db, db', t)
  {
    hide Course;
    SameCourse(db, started);
    CourseWider(db, started, {}, {}, {t}, {});
    if Course(started, db', {}, {}) { CourseTransitive(db, started, db', {}, {}); } else { CourseTransitive(db, started, db', {t}, {}); }
  }

  // ----- finishing -----

  lemma EndTaskCourse(db: Store, t: Id, m: Id, outcome: Outcome, stopping: bool, now: int)
    requires t < |db.tasks|
    ensures var db' := EndTask(db, t, m, outcome, stopping, now); Course(db, db', {}, CompletedBy(t, outcome)) && !LiveTask(db', t)
  {
    hide Course, Terminate, HasLease;
    var ended := Terminate(db, t, outcome, FromAgent(db.tasks[t].agent), Some(m), now);
    var db' := EndTask(db, t, m, outcome, stopping, now);
    TerminateCourse(db, t, outcome, FromAgent(db.tasks[t].agent), Some(m), now);
    SameCourse(ended, db');
    CourseWider(ended, db', {}, {}, {}, CompletedBy(t, outcome));
    CourseTransitive(db, ended, db', {}, CompletedBy(t, outcome));
  }

  lemma ContinueTaskCourse(db: Store, t: Id, m: Id, conversation: seq<Message>, f: Finish, now: int)
    requires LiveTask(db, t)
    ensures var db' := ContinueTask(db, t, m, conversation, f, now); Course(db, db', {t}, {}) && t < |db'.tasks| && Served(db', t)
  {
    hide Course, Terminate, TakeTurn, MayTurn, EndTask, Emit;
    var db' := ContinueTask(db, t, m, conversation, f, now);
    if !MayTurn(db, t, f.doubt, now) {
      EndTaskCourse(db, t, m, Rejected, false, now);
      CourseWider(db, db', {}, {}, {t}, {});
      CourseRows(db, db', {t}, {});
    } else {
      var next := TakeTurn(db, t, conversation);
      TakeTurnCourse(db, t, conversation);
      TurnRows(db, t, conversation);
      TurnQueued(db, t, conversation);
      if Sum(next.mails, PendingFor(t)) > 0 {
        var i := SumWitness(next.mails, PendingFor(t));
        assert Serves(next.mails[i], t, Pending);
      } else {
        var source := FromAgent(db.tasks[t].agent);
        if Emit(next, t, Continue, source, Some(m), now).Some? {
          EmitCourse(next, t, Continue, source, Some(m), now);
          EmitServes(next, t, Continue, source, Some(m), now);
        } else {
          TerminateCourse(next, t, Rejected, Runtime, Some(m), now);
        }
        CourseWider(next, db', {}, {}, {t}, {});
        CourseTransitive(db, next, db', {t}, {});
      }
    }
  }

  lemma CourseRows(db: Store, db': Store, moved: set<Id>, completed: set<Id>)
    requires Course(db, db', moved, completed)
    ensures |db.tasks| <= |db'.tasks| && |db.mails| <= |db'.mails|
  {
  }

  lemma TurnQueued(db: Store, t: Id, conversation: seq<Message>)
    requires t < |db.tasks|
    ensures TakeTurn(db, t, conversation).tasks[t].phase == Queued
  {
  }

  lemma {:induction false} SumWitness(mails: seq<Mail>, w: Mail -> int) returns (i: nat)
    requires Sum(mails, w) > 0
    ensures i < |mails| && w(mails[i]) > 0
  {
    var n := |mails| - 1;
    if w(mails[n]) > 0 { i := n; } else { i := SumWitness(mails[..n], w); }
  }

  lemma EmitServes(db: Store, t: Id, kind: Kind, source: Source, cause: Option<Id>, now: int)
    requires t < |db.tasks| && kind != Progress && db.tasks[t].phase == Queued && Emit(db, t, kind, source, cause, now).Some?
    ensures var db' := Emit(db, t, kind, source, cause, now).value; db'.tasks == db.tasks && Served(db', t)
  {
    hide Refuses, Depth;
    var db' := Emit(db, t, kind, source, cause, now).value;
    assert Serves(db'.mails[|db.mails|], t, Pending);
  }

  /** A finish completes its task only when its call was answered without a tool, the worker did not fail and nobody
      stops the task. */
  predicate FinishCompletes(db: Store, s: Activation, f: Finish) {
    && s.task < |db.tasks| && s.call < |db.calls| && Live(db.tasks[s.task]) && db.tasks[s.task].call == s.call
    && db.calls[s.call].state == Answered(None) && !f.workerFailed && !StopsWith(db, s.task, f.canceled)
  }

  function FinishedBy(db: Store, s: Activation, f: Finish): set<Id> { if FinishCompletes(db, s, f) then {s.task} else {} }

  lemma FinishAnsweredCourse(db: Store, s: Activation, f: Finish, now: int)
    requires LiveTask(db, s.task) && s.call < |db.calls| && db.calls[s.call].state.Answered? && FinishAnswered(db, s, f, now).Some?
    ensures var db' := FinishAnswered(db, s, f, now).value;
            Course(db, db', {s.task}, if db.calls[s.call].state.tool.None? then {s.task} else {}) && s.task < |db'.tasks| && Served(db', s.task)
  {
    hide Course, ContinueTask, EndTask;
    var t := db.tasks[s.task];
    var db' := FinishAnswered(db, s, f, now).value;
    SameCourse(db, db);
    match db.calls[s.call].state.tool
    case Some(tool) =>
      if t.phase == Waiting {
        CourseWider(db, db, {}, {}, {s.task}, {});
      } else {
        ContinueTaskCourse(db, s.task, s.mail, t.conversation + [Assistant(Some(tool)), Reply(tool)], f, now);
      }
    case None =>
      if Sum(db.mails, InputsFor(s.task)) > 0 {
        ContinueTaskCourse(db, s.task, s.mail, t.conversation + [Assistant(None)], f, now);
        CourseWider(db, db', {s.task}, {}, {s.task}, {s.task});
      } else if f.triggers {
        WaitCourse(db, s.task, db'.tasks[s.task]);
        CourseWider(db, db', {s.task}, {}, {s.task}, {s.task});
      } else {
        EndTaskCourse(db, s.task, s.mail, Completed, false, now);
        CourseWider(db, db', {}, {s.task}, {s.task}, {s.task});
        CourseRows(db, db', {s.task}, {s.task});
      }
  }

  /** A released delivery: the task is queued again, or waits as before. */
  lemma HandBackCourse(db: Store, db': Store, t: Id, m: Id, phase: Phase)
    requires LiveTask(db, t) && m < |db.mails| && db.mails[m].task == t && !phase.Done?
    requires db'.tasks == db.tasks[t := db.tasks[t].(phase := phase)]
    requires |db'.mails| == |db.mails| && db'.mails == db.mails[m := db'.mails[m]] && db'.mails[m].task == t && db'.mails[m].kind == db.mails[m].kind
    ensures Course(db, db', {t}, {})
  {
  }

  lemma HandBackServes(db: Store, db': Store, t: Id, m: Id, phase: Phase)
    requires LiveTask(db, t) && m < |db.mails| && db.mails[m].task == t && db.mails[m].state == Leased && Served(db, t)
    requires forall k :: 0 <= k < |db.mails| && k != m && db.mails[k].task == t ==> db.mails[k].state != Leased
    requires phase == Waiting || (phase == Queued && db.tasks[t].phase != Waiting)
    requires db'.tasks == db.tasks[t := db.tasks[t].(phase := phase)]
    requires |db'.mails| == |db.mails| && db'.mails == db.mails[m := db'.mails[m]]
    requires db'.mails[m].task == t && db'.mails[m].kind == db.mails[m].kind && db'.mails[m].state == Pending
    ensures Served(db', t)
  {
    if phase == Queued {
      if db.tasks[t].phase == Queued {
        var k :| 0 <= k < |db.mails| && Serves(db.mails[k], t, Pending);
        assert Serves(db'.mails[k], t, Pending);
      } else {
        var k :| 0 <= k < |db.mails| && Serves(db.mails[k], t, Leased);
        assert Serves(db'.mails[m], t, Pending);
      }
    }
  }

  lemma FinishDeliveryCourse(db: Store, s: Activation, f: Finish, down: bool, now: int)
    requires s.task < |db.tasks| && s.call < |db.calls| && s.mail < |db.mails| && db.mails[s.mail].task == s.task
    requires FinishDelivery(db, s, f, down, now).Some?
    ensures Course(db, FinishDelivery(db, s, f, down, now).value, {s.task}, FinishedBy(db, s, f))
  {
    hide Course, FinishAnswered, EndTask, HandsBack, HasLease;
    var t, c, v := db.tasks[s.task], db.calls[s.call], db.mails[s.mail];
    var db' := FinishDelivery(db, s, f, down, now).value;
    var stopping := StopsWith(db, s.task, f.canceled);
    var completed := FinishedBy(db, s, f);
    if t.call != s.call || !Live(t) {
      SetMailCourse(db, s.mail, v.(state := Dead));
      SameCourse(db, db);
      CourseWider(db, db, {}, {}, {s.task}, {});
      var told := if v.state == Leased then SetMail(db, s.mail, v.(state := Dead)) else db;
      SameCourse(told, db');
      CourseWider(told, db', {}, {}, {s.task}, {});
      CourseTransitive(db, told, db', {s.task}, {});
    } else if HandsBack(db, s, down) {
      HandBackCourse(db, db', s.task, s.mail, if t.phase == Waiting then Waiting else Queued);
    } else if f.workerFailed && !stopping && Undispatched(c) && v.attempts < MAX_DELIVERIES {
      HandBackCourse(db, db', s.task, s.mail, Queued);
    } else {
      var told := SetMail(db, s.mail, v.(state := if f.workerFailed then Dead else Acked));
      SetMailCourse(db, s.mail, v.(state := if f.workerFailed then Dead else Acked));
      if !f.workerFailed && c.state.Answered? && !stopping {
        FinishAnsweredCourse(told, s, f, now);
      } else {
        EndTaskCourse(told, s.task, s.mail, FinishOutcome(c, stopping), stopping, now);
        CourseWider(told, db', {}, {}, {s.task}, {});
      }
      CourseWider(db, told, {s.task}, {}, {s.task}, completed);
      CourseWider(told, db', {s.task}, if !f.workerFailed && c.state.Answered? && !stopping && c.state.tool.None? then {s.task} else {}, {s.task}, completed);
      CourseTransitive(db, told, db', {s.task}, completed);
    }
    CourseWider(db, db', {s.task}, if FinishesPlainly(db, s, f, down) then {} else completed, {s.task}, completed);
  }

  predicate FinishesPlainly(db: Store, s: Activation, f: Finish, down: bool)
    requires s.task < |db.tasks| && s.call < |db.calls| && s.mail < |db.mails|
  {
    var t, c := db.tasks[s.task], db.calls[s.call];
    t.call != s.call || !Live(t) || HandsBack(db, s, down)
    || (f.workerFailed && !StopsWith(db, s.task, f.canceled) && Undispatched(c) && db.mails[s.mail].attempts < MAX_DELIVERIES)
  }

  lemma FinishDeliveryServes(db: Store, s: Activation, f: Finish, down: bool, now: int)
    requires LiveTask(db, s.task) && s.call < |db.calls| && s.mail < |db.mails| && db.tasks[s.task].call == s.call
    requires db.mails[s.mail].task == s.task && db.mails[s.mail].state == Leased && Served(db, s.task)
    requires forall k :: 0 <= k < |db.mails| && k != s.mail && db.mails[k].task == s.task ==> db.mails[k].state != Leased
    requires f.workerFailed && Undispatched(db.calls[s.call]) ==> db.tasks[s.task].phase != Waiting
    requires FinishDelivery(db, s, f, down, now).Some?
    ensures var db' := FinishDelivery(db, s, f, down, now).value; s.task < |db'.tasks| && Served(db', s.task)
  {
    hide Course, FinishAnswered, EndTask, HandsBack, Served;
    var t, c, v := db.tasks[s.task], db.calls[s.call], db.mails[s.mail];
    var db' := FinishDelivery(db, s, f, down, now).value;
    var stopping := StopsWith(db, s.task, f.canceled);
    if HandsBack(db, s, down) {
      HandBackServes(db, db', s.task, s.mail, if t.phase == Waiting then Waiting else Queued);
    } else if f.workerFailed && !stopping && Undispatched(c) && v.attempts < MAX_DELIVERIES {
      HandBackServes(db, db', s.task, s.mail, Queued);
    } else {
      var told := SetMail(db, s.mail, v.(state := if f.workerFailed then Dead else Acked));
      if !f.workerFailed && c.state.Answered? && !stopping {
        FinishAnsweredCourse(told, s, f, now);
      } else {
        EndTaskCourse(told, s.task, s.mail, FinishOutcome(c, stopping), stopping, now);
        CourseRows(told, db', {}, CompletedBy(s.task, FinishOutcome(c, stopping)));
        DoneServed(db', s.task);
      }
    }
  }

  lemma DoneServed(db: Store, t: Id)
    requires t < |db.tasks| && !LiveTask(db, t)
    ensures Served(db, t)
  {
  }

  // ----- restart -----

  lemma {:induction false} FailAllCourse(db: Store, ids: seq<Id>, now: int)
    ensures Course(db, FailAll(db, ids, now), {}, {})
  {
    hide Course, Terminate;
    SameCourse(db, db);
    if ids != [] {
      var n := |ids| - 1;
      var mid, db' := FailAll(db, ids[..n], now), FailAll(db, ids, now);
      FailAllCourse(db, ids[..n], now);
      TerminateCourse(mid, ids[n], Failed, Runtime, None, now);
      var ended := Terminate(mid, ids[n], Failed, Runtime, None, now);
      SameCourse(mid, mid);
      if ids[n] < |mid.tasks| {
        SameCourse(ended, db');
        CourseTransitive(mid, ended, db', {}, {});
      }
      CourseTransitive(db, mid, db', {}, {});
    }
  }

  lemma AbandonServes(db: Store, t: Id)
    requires t < |db.tasks| && Served(db, t)
    ensures Served(Abandon(db), t)
  {
    var db' := Abandon(db);
    if db.tasks[t].phase == Queued {
      var m :| 0 <= m < |db.mails| && Serves(db.mails[m], t, Pending);
      assert Serves(db'.mails[m], t, Pending);
    }
    if db.tasks[t].phase == Running {
      var m :| 0 <= m < |db.mails| && Serves(db.mails[m], t, Leased);
      assert Serves(db'.mails[m], t, Pending);
    }
  }

  lemma AbandonEnds(db: Store)
    ensures |Abandon(db).tasks| == |db.tasks|
    ensures forall k :: 0 <= k < |db.tasks| ==> TaskCourse(db.tasks[k], Abandon(db).tasks[k], true, false)
  {
  }

  lemma StartGoalCourse(db: Store, s: Id, deadline: int, now: int)
    requires StartGoal(db, s, deadline, now).Some?
    ensures Course(db, StartGoal(db, s, deadline, now).value, {}, {})
  {
    hide Refuses, Depth, LoadOf;
    var db' := StartGoal(db, s, deadline, now).value;
    assert Serves(db'.mails[|db.mails|], |db.tasks|, Pending);
  }
}
