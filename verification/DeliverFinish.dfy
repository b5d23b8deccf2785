/** Finishing a delivery keeps the invariant, whatever the worker reports. */
module DeliverFinish {
  import opened Common
  import opened Sums
  import opened Team
  import opened Mailbox
  import opened TeamInvariant
  import opened TaskEnds
  import opened Rewrites
  import opened Turns
  import opened ToolCalls

  lemma SweepInv(db: Store, astray: set<Id>)
    requires Inv(db, astray)
    ensures Inv(SweepSystems(db), astray) && Keeps(db, SweepSystems(db), {})
  {
    SweepSwitches(db);
    SwitchedInv(db, SweepSystems(db), -1, astray);
  }

  lemma EndTaskInv(db: Store, t: Id, m: Id, outcome: Outcome, stopping: bool, now: int, astray: set<Id>)
    requires InvBut(db, t, astray) && t < |db.tasks|
    ensures var db' := EndTask(db, t, m, outcome, stopping, now); Inv(db', astray) && Keeps(db, db', {})
  {
    hide InvBut, Keeps, Terminate, SweepSystems, SetSystem, Rest;
    var r := db.tasks[t];
    var ended := Terminate(db, t, outcome, FromAgent(r.agent), Some(m), now);
    TerminateInv(db, t, outcome, FromAgent(r.agent), Some(m), now, astray);
    var settled := SetSystem(ended, r.system, Rest(ended, r.system));
    SetSystemSwitches(ended, r.system, Rest(ended, r.system));
    SwitchedInv(ended, settled, -1, astray);
    SweepInv(ended, astray);
    SweepInv(settled, astray);
    KeepsTransitive(db, ended, SweepSystems(ended), {});
    KeepsTransitive(db, ended, settled, {});
    KeepsTransitive(db, settled, SweepSystems(settled), {});
  }

  lemma ContinueTaskInv(db: Store, t: Id, m: Id, conversation: seq<Message>, f: Finish, now: int, astray: set<Id>)
    requires Inv(db, astray) && LiveTask(db, t) && (t in astray || (Pledges(db, t) == 0 && WellPaired(conversation)))
    ensures var db' := ContinueTask(db, t, m, conversation, f, now); Inv(db', astray) && Keeps(db, db', {})
  {
    hide InvBut, Keeps, Pledges, WellPaired, Terminate, EndTask, TakeTurn, MayTurn, Ongoing, Emit;
    OneExcepted(db, t, astray);
    if !MayTurn(db, t, f.doubt, now) {
      EndTaskInv(db, t, m, Rejected, false, now, astray);
    } else {
      var next := TakeTurn(db, t, conversation);
      TakeTurnInv(db, t, conversation, astray);
      if t !in astray { OngoingTask(next, t); }
      NoOpenAccount(next, t, astray);
      if Sum(next.mails, PendingFor(t)) <= 0 {
        var source := FromAgent(db.tasks[t].agent);
        match Emit(next, t, Continue, source, Some(m), now)
        case Some(told) =>
          EmitInv(next, t, Continue, source, Some(m), now, -1, astray);
          KeepsTransitive(db, next, told, {});
        case None =>
          TerminateInv(next, t, Rejected, Runtime, Some(m), now, astray);
          KeepsTransitive(db, next, Terminate(next, t, Rejected, Runtime, Some(m), now), {});
      }
    }
  }

  lemma OngoingTask(db: Store, t: Id)
    requires Ongoing(db, t) && Pledges(db, t) == 0
    ensures t < |db.tasks| && TaskHolds(db, t)
  {
    OngoingHolds(db, t);
  }

  /** What one finish does to the deliveries: only its own is released. */
  ghost predicate Releases(db: Store, db': Store, m: Id) {
    && m < |db.mails| <= |db'.mails|
    && (forall k :: 0 <= k < |db.mails| && k != m ==> MailKeeps(db.mails[k], db'.mails[k], false))
    && SameMail(db.mails[m], db'.mails[m]) && db'.mails[m].attempts == db.mails[m].attempts && (Final(db.mails[m]) ==> Final(db'.mails[m]))
    && (forall k :: |db.mails| <= k < |db'.mails| ==> NewMailOk(db'.mails[k]))
    && |db.calls| <= |db'.calls| && (forall c :: 0 <= c < |db.calls| ==> db'.calls[c].task == db.calls[c].task)
    && |db'.systems| == |db.systems| && (forall s :: 0 <= s < |db.systems| ==> db'.systems[s].maxActive == db.systems[s].maxActive)
    && db'.receipts == db.receipts && NoNewWaits(db, db', {})
  }

  lemma ReleasesThen(a: Store, b: Store, c: Store, m: Id)
    requires Releases(a, b, m) && Keeps(b, c, {})
    ensures Releases(a, c, m)
  {
    forall k | 0 <= k < |a.mails| && k != m ensures MailKeeps(a.mails[k], c.mails[k], false) {
      assert MailKeeps(a.mails[k], b.mails[k], false) && MailKeeps(b.mails[k], c.mails[k], k in {});
    }
    assert MailKeeps(b.mails[m], c.mails[m], m in {});
    forall k | 0 <= k < |a.tasks| ensures WaitsLess(a.tasks[k], c.tasks[k]) {
      assert WaitsLess(a.tasks[k], b.tasks[k]) && TaskKeeps(b.tasks[k], c.tasks[k]);
    }
    forall k | |a.mails| <= k < |c.mails| ensures NewMailOk(c.mails[k]) {
      if k < |b.mails| { assert MailKeeps(b.mails[k], c.mails[k], k in {}) && NewMailOk(b.mails[k]); }
    }
  }

  /** Releasing a leased delivery concerns no account: an applied delivery is not awaited. */
  lemma ReleaseMail(db: Store, m: Id, state: MailState, notBefore: int, astray: set<Id>)
    requires Inv(db, astray) && m < |db.mails| && db.mails[m].state == Leased && state != Leased
    ensures var db' := SetMail(db, m, db.mails[m].(state := state, notBefore := notBefore));
            Inv(db', astray) && Releases(db, db', m) && db'.tasks == db.tasks && db'.calls == db.calls && db'.receipts == db.receipts
  {
    hide InvBut, Pledges, Keeps;
    assert MailCounted(db.mails[m]) && db.mails[m].applied by { LeasedApplied(db, m, astray); }
    RewriteMail(db, m, db.mails[m].(state := state, notBefore := notBefore), -1, astray);
  }

  lemma LeasedApplied(db: Store, m: Id, astray: set<Id>)
    requires Inv(db, astray) && m < |db.mails|
    ensures MailCounted(db.mails[m])
  {
  }

  /** A worker lets go of its task: queued again, or still waiting if it was. */
  predicate LetsGo(t: Task, phase: Phase, astray: bool) {
    if astray then phase == Queued || phase == t.phase == Waiting else phase == if t.phase == Waiting then Waiting else Queued
  }

  lemma RequeueTask(db: Store, t: Id, phase: Phase, astray: set<Id>)
    requires Inv(db, astray) && LiveTask(db, t) && LetsGo(db.tasks[t], phase, t in astray)
    ensures var db' := SetTask(db, t, db.tasks[t].(phase := phase)); Inv(db', astray) && Keeps(db, db', {})
  {
    hide Shape, Reserve, Deliveries, Pledges;
    var r := db.tasks[t].(phase := phase);
    assert t !in astray ==> TaskHolds(db, t);
    FitsOf(db, t, astray);
    RewriteTask(db, t, r, -1, astray);
    assert t !in astray ==> PledgeHolds(SetTask(db, t, r), t);
  }

  lemma NotWaiting(db: Store, t: Id, astray: set<Id>)
    requires Inv(db, astray) && t !in astray && LiveTask(db, t) && db.tasks[t].call < |db.calls| && !db.calls[db.tasks[t].call].state.Answered?
    ensures db.tasks[t].phase != Waiting && db.tasks[t].waitingTool.None?
  {
    assert TaskWaits(db, t);
  }

  lemma HandBackInv(db: Store, s: Activation, phase: Phase, state: MailState, notBefore: int, astray: set<Id>)
    requires Inv(db, astray) && LiveTask(db, s.task) && LetsGo(db.tasks[s.task], phase, s.task in astray)
    requires s.mail < |db.mails| && db.mails[s.mail].state == Leased && state != Leased
    ensures var queued := SetTask(db, s.task, db.tasks[s.task].(phase := phase));
            var db' := SetMail(queued, s.mail, db.mails[s.mail].(state := state, notBefore := notBefore));
            Inv(db', astray) && Releases(db, db', s.mail)
  {
    hide InvBut, Keeps, Releases;
    var queued := SetTask(db, s.task, db.tasks[s.task].(phase := phase));
    RequeueTask(db, s.task, phase, astray);
    ReleaseMail(queued, s.mail, state, notBefore, astray);
    KeptThenReleases(db, queued, SetMail(queued, s.mail, db.mails[s.mail].(state := state, notBefore := notBefore)), s.mail);
  }

  lemma KeptThenReleases(a: Store, b: Store, c: Store, m: Id)
    requires Keeps(a, b, {}) && b.mails == a.mails && Releases(b, c, m)
    ensures Releases(a, c, m)
  {
    forall k | 0 <= k < |a.tasks| ensures WaitsLess(a.tasks[k], c.tasks[k]) {
      assert TaskKeeps(a.tasks[k], b.tasks[k]) && WaitsLess(b.tasks[k], c.tasks[k]);
    }
  }

  lemma RetryInv(db: Store, s: Activation, notBefore: int, astray: set<Id>)
    requires Inv(db, astray) && LiveTask(db, s.task) && s.call < |db.calls| && db.tasks[s.task].call == s.call
    requires s.mail < |db.mails| && db.mails[s.mail].state == Leased && Undispatched(db.calls[s.call])
    ensures var db' := SetMail(db.(calls := db.calls[s.call := db.calls[s.call].(state := Awaiting)],
                                   tasks := db.tasks[s.task := db.tasks[s.task].(phase := Queued)]),
                         s.mail, db.mails[s.mail].(state := Pending, notBefore := notBefore));
            Inv(db', astray) && Releases(db, db', s.mail) && (s.task in astray || db'.tasks[s.task].waitingTool.None?)
  {
    hide InvBut, Keeps, Releases;
    if s.task !in astray { NotWaiting(db, s.task, astray); }
    var e := db.calls[s.call].(state := Awaiting);
    var called := SetCall(db, s.call, e);
    RequestsPaired(db, s.call, astray);
    RewriteCall(db, s.call, e, -1, astray);
    HandBackInv(called, s, Queued, Pending, notBefore, astray);
    var db' := SetMail(SetTask(called, s.task, db.tasks[s.task].(phase := Queued)), s.mail, db.mails[s.mail].(state := Pending, notBefore := notBefore));
    KeptThenReleases(db, called, db', s.mail);
  }

  lemma RequestsPaired(db: Store, c: Id, astray: set<Id>)
    requires Inv(db, astray) && c < |db.calls|
    ensures db.calls[c].task in astray || WellPaired(db.calls[c].request)
  {
  }

  /** A task whose call was answered and which is not waiting on its tool has nothing open. */
  lemma AnsweredTask(db: Store, t: Id, astray: set<Id>)
    requires Inv(db, astray) && t !in astray && LiveTask(db, t) && !db.tasks[t].stopped && db.tasks[t].call < |db.calls|
    requires db.tasks[t].phase != Waiting || db.calls[db.tasks[t].call].state == Answered(None)
    ensures db.tasks[t].waitingTool.None? && WellPaired(db.tasks[t].conversation) && Pledges(db, t) == 0
  {
    assert TaskHolds(db, t);
  }

  lemma PairPaired(tool: Id)
    ensures WellPaired([Assistant(Some(tool)), Reply(tool)]) && WellPaired([Assistant(None)])
  {
  }

  lemma AwaitTriggersInv(db: Store, t: Id, astray: set<Id>)
    requires Inv(db, astray) && LiveTask(db, t) && !db.tasks[t].stopped && db.tasks[t].call < |db.calls|
    requires db.calls[db.tasks[t].call].state == Answered(None)
    ensures var r := db.tasks[t];
            var db' := SetTask(db, t, r.(phase := Waiting, waitingTool := None, conversation := r.conversation + [Assistant(None)]));
            Inv(db', astray) && NoNewWaits(db, db', {})
  {
    hide Shape, Reserve, Deliveries, Pledges;
    var r := db.tasks[t];
    var r' := r.(phase := Waiting, waitingTool := None, conversation := r.conversation + [Assistant(None)]);
    FitsOf(db, t, astray);
    if t !in astray {
      AnsweredTask(db, t, astray);
      PairPaired(0);
      PairedConcat(r.conversation, [Assistant(None)]);
    }
    RewriteTask(db, t, r', -1, astray);
    assert t !in astray ==> PledgeHolds(SetTask(db, t, r'), t);
  }

  lemma FinishAnsweredInv(db: Store, s: Activation, f: Finish, now: int, astray: set<Id>)
    requires Inv(db, astray) && LiveTask(db, s.task) && !db.tasks[s.task].stopped && s.call < |db.calls| && db.tasks[s.task].call == s.call
    requires db.calls[s.call].state.Answered? && FinishAnswered(db, s, f, now).Some?
    ensures var db' := FinishAnswered(db, s, f, now).value;
            Inv(db', astray) && (Keeps(db, db', {}) || (db' == db.(tasks := db'.tasks) && NoNewWaits(db, db', {})))
  {
    hide InvBut, Keeps, Pledges, WellPaired, ContinueTask, EndTask;
    var t := db.tasks[s.task];
    KeepsSelf(db, {});
    match db.calls[s.call].state.tool
    case Some(tool) =>
      if t.phase != Waiting {
        if s.task !in astray {
          AnsweredTask(db, s.task, astray);
          PairPaired(tool);
          PairedConcat(t.conversation, [Assistant(Some(tool)), Reply(tool)]);
        }
        ContinueTaskInv(db, s.task, s.mail, t.conversation + [Assistant(Some(tool)), Reply(tool)], f, now, astray);
      }
    case None =>
      if s.task !in astray {
        AnsweredTask(db, s.task, astray);
        PairPaired(0);
        PairedConcat(t.conversation, [Assistant(None)]);
      }
      if Sum(db.mails, InputsFor(s.task)) > 0 {
        ContinueTaskInv(db, s.task, s.mail, t.conversation + [Assistant(None)], f, now, astray);
      } else if f.triggers {
        AwaitTriggersInv(db, s.task, astray);
      } else {
        OneExcepted(db, s.task, astray);
        EndTaskInv(db, s.task, s.mail, Completed, false, now, astray);
      }
  }

  lemma FinishDeliveryInv(db: Store, s: Activation, f: Finish, down: bool, now: int, astray: set<Id>)
    requires Inv(db, astray) && s.task < |db.tasks| && s.call < |db.calls| && s.mail < |db.mails| && db.mails[s.mail].state == Leased
    requires FinishDelivery(db, s, f, down, now).Some?
    ensures var db' := FinishDelivery(db, s, f, down, now).value;
            && Inv(db', astray) && Releases(db, db', s.mail) && db'.mails[s.mail].state != Leased
            && (db'.mails[s.mail].state == Pending ==>
                  down || s.task in astray || (s.task < |db'.tasks| && db'.tasks[s.task].waitingTool.None?))
  {
    hide InvBut, Keeps, Releases, FinishAnswered, EndTask, SweepSystems;
    var t, c, v := db.tasks[s.task], db.calls[s.call], db.mails[s.mail];
    var stopping := StopsWith(db, s.task, f.canceled);
    if t.call != s.call || !Live(t) {
      ReleaseMail(db, s.mail, Dead, v.notBefore, astray);
      SweepAfter(db, SetMail(db, s.mail, v.(state := Dead)), s.mail, astray);
    } else if HandsBack(db, s, down) {
      HandBackInv(db, s, if t.phase == Waiting then Waiting else Queued, Pending, v.notBefore, astray);
      StateReleased(db, FinishDelivery(db, s, f, down, now).value, s.mail);
    } else if f.workerFailed && !stopping && Undispatched(c) && v.attempts < MAX_DELIVERIES {
      RetryInv(db, s, now + RetryDelay(v.attempts), astray);
    } else {
      FinishTold(db, s, f, down, now, astray);
    }
  }

  lemma StateReleased(db: Store, db': Store, m: Id)
    requires Releases(db, db', m)
    ensures m < |db'.mails|
  {
  }

  lemma SweepAfter(db: Store, told: Store, m: Id, astray: set<Id>)
    requires Releases(db, told, m) && Inv(told, astray) && told.mails[m].state != Leased
    ensures Inv(SweepSystems(told), astray) && Releases(db, SweepSystems(told), m) && SweepSystems(told).mails[m].state == told.mails[m].state
  {
    SweepInv(told, astray);
    ReleasesThen(db, told, SweepSystems(told), m);
  }

  lemma KeptRelease(db: Store, told: Store, db': Store, m: Id)
    requires Releases(db, told, m) && Final(told.mails[m])
    requires Keeps(told, db', {}) || (db' == told.(tasks := db'.tasks) && NoNewWaits(told, db', {}))
    ensures Releases(db, db', m) && Final(db'.mails[m])
  {
    if Keeps(told, db', {}) {
      ReleasesThen(db, told, db', m);
      assert MailKeeps(told.mails[m], db'.mails[m], m in {});
    } else {
      forall k | 0 <= k < |db.tasks| ensures WaitsLess(db.tasks[k], db'.tasks[k]) {
        assert WaitsLess(db.tasks[k], told.tasks[k]) && WaitsLess(told.tasks[k], db'.tasks[k]);
      }
    }
  }

  lemma FinishTold(db: Store, s: Activation, f: Finish, down: bool, now: int, astray: set<Id>)
    requires Inv(db, astray) && LiveTask(db, s.task) && s.call < |db.calls| && s.mail < |db.mails| && db.mails[s.mail].state == Leased
    requires db.tasks[s.task].call == s.call
    requires var c := db.calls[s.call];
             var told := SetMail(db, s.mail, db.mails[s.mail].(state := if f.workerFailed then Dead else Acked));
             var stopping := StopsWith(db, s.task, f.canceled);
             (!f.workerFailed && c.state.Answered? && !stopping) ==> FinishAnswered(told, s, f, now).Some?
    ensures var c := db.calls[s.call];
            var told := SetMail(db, s.mail, db.mails[s.mail].(state := if f.workerFailed then Dead else Acked));
            var stopping := StopsWith(db, s.task, f.canceled);
            var db' := if !f.workerFailed && c.state.Answered? && !stopping then FinishAnswered(told, s, f, now).value
                       else EndTask(told, s.task, s.mail, FinishOutcome(c, stopping), stopping, now);
            Inv(db', astray) && Releases(db, db', s.mail) && Final(db'.mails[s.mail])
  {
    hide InvBut, Keeps, Releases, FinishAnswered, EndTask;
    var c, v := db.calls[s.call], db.mails[s.mail];
    var stopping := StopsWith(db, s.task, f.canceled);
    var told := SetMail(db, s.mail, v.(state := if f.workerFailed then Dead else Acked));
    ReleaseMail(db, s.mail, if f.workerFailed then Dead else Acked, v.notBefore, astray);
    if !f.workerFailed && c.state.Answered? && !stopping {
      FinishAnsweredInv(told, s, f, now, astray);
      KeptRelease(db, told, FinishAnswered(told, s, f, now).value, s.mail);
    } else {
      OneExcepted(told, s.task, astray);
      EndTaskInv(told, s.task, s.mail, FinishOutcome(c, stopping), stopping, now, astray);
      KeptRelease(db, told, EndTask(told, s.task, s.mail, FinishOutcome(c, stopping), stopping, now), s.mail);
    }
  }
}
