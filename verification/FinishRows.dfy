/** What the end of a worker's session does, case by case, to the rows of its task. */
module FinishRows {
  import opened Common
  import opened Sums
  import opened Team
  import opened Mailbox
  import opened TaskEnds
  import opened TaskFates
  import opened EventRows
  import opened ClaimRows

  // ----- ends -----

  /** Where a system comes to rest when a task of it, a stopped root perhaps, ends in a finish. */
  predicate FinishSystem(db: Store, db': Store, s: Id, t: Id, stopping: bool)
    requires s < |db.systems| && s < |db'.systems| && t < |db.tasks|
  {
    var x := db.systems[s];
    var root := stopping && db.tasks[t].parent.None? && db.tasks[t].system == s;
    var settled := if WorkEnded(db, db', s) then RestState(db, s, x.state) else x.state;
    var rested := if root then if StillHeld(db, s) then Stopping else Stopped else settled;
    db'.systems[s] == x.(state := if rested == Stopping && !StillHeld(db, s) then Stopped else rested)
  }

  /** The task ends with the outcome and all that its end entails; systems come to rest. */
  ghost predicate EndedRows(db: Store, db': Store, t: Id, outcome: Outcome, stopping: bool) {
    && LiveTask(db, t) && WorkFates(db, db', {t}, outcome) && GoalFates(db, db')
    && t < |db'.tasks| && db'.tasks[t] == db.tasks[t].(phase := Done(outcome)) && |db'.systems| == |db.systems|
    && forall s :: 0 <= s < |db.systems| ==> FinishSystem(db, db', s, t, stopping)
  }

  lemma EndTaskExactly(db: Store, t: Id, m: Id, outcome: Outcome, stopping: bool, now: int)
    requires LiveTask(db, t)
    ensures EndedRows(db, EndTask(db, t, m, outcome, stopping, now), t, outcome, stopping)
  {
    hide Terminate, RowFates, ToldFate, GoalFates, WorkEnded;
    var ended := Terminate(db, t, outcome, FromAgent(db.tasks[t].agent), Some(m), now);
    var db' := EndTask(db, t, m, outcome, stopping, now);
    TerminateWork(db, t, outcome, FromAgent(db.tasks[t].agent), Some(m), now);
    TerminateGoals(db, t, outcome, FromAgent(db.tasks[t].agent), Some(m), now);
    assert db' == ended.(systems := db'.systems);
    EndsSame(db, ended, db', t, outcome);
    forall s | 0 <= s < |db.systems| ensures FinishSystem(db, db', s, t, stopping) {
      EndedSame(db, ended, db', s);
      assert SystemFate(db, ended, s);
      HeldStays(db, ended, {t}, outcome, s);
      assert HasLease(ended, s) == StillHeld(ended, s);
      assert HasLease(db', s) == StillHeld(ended, s);
    }
  }

  lemma EndedSame(db: Store, ended: Store, db': Store, x: Id)
    requires db'.tasks == ended.tasks
    ensures GoalEnded(db, db', x) == GoalEnded(db, ended, x) && WorkEnded(db, db', x) == WorkEnded(db, ended, x)
  {
    forall k | 0 <= k < |db.tasks| ensures RootEnded(db, db', k) == RootEnded(db, ended, k) {}
  }

  lemma EndsSame(db: Store, ended: Store, db': Store, t: Id, outcome: Outcome)
    requires db' == ended.(systems := db'.systems) && WorkFates(db, ended, {t}, outcome) && GoalFates(db, ended)
    ensures WorkFates(db, db', {t}, outcome) && GoalFates(db, db')
  {
    hide AboveOne, GoalEnded;
    forall k | 0 <= k < |db.tasks| ensures TaskFate(db, db', k, {t}, outcome) && ToldFate(db, db', k) {
      assert TaskFate(db, ended, k, {t}, outcome) && ToldFate(db, ended, k);
    }
    forall c | 0 <= c < |db.calls| ensures CallFate(db, db', c) { assert CallFate(db, ended, c); }
    forall m | 0 <= m < |db.mails| ensures MailFate(db, db', m) { assert MailFate(db, ended, m); }
    forall m | |db.mails| <= m < |db'.mails| ensures ReportFate(db, db', m) { assert ReportFate(db, ended, m); }
    forall g: Id ensures GoalEnded(db, db', g) == GoalEnded(db, ended, g) { EndedSame(db, ended, db', g); }
    forall a | 0 <= a < |db.agents| ensures AgentFate(db, db', a) { assert AgentFate(db, ended, a); }
  }

  // ----- going on -----

  /** A task with its next call sends itself a delivery, or gives up when that is refused. */
  ghost predicate SetOff(db: Store, next: Store, db': Store, t: Id, m: Id, now: int)
    requires t < |db.tasks| && m < |db.mails| && t < |next.tasks|
  {
    var r := db.tasks[t];
    if HasRoom(next, t) && db.mails[m].depth + 1 <= 16 && |SentSince(db, r.system, FromAgent(r.agent), now - 60000)| < 32
    then db' == next.(mails := db.mails + [Mail(r.system, r.goal, t, r.agent, Continue, FromAgent(r.agent), db.mails[m].depth + 1, now,
                        if r.goal < |db.goals| then db.goals[r.goal].deadline else 0, Pending, 0, false, 0)])
    else Rejects(next, db', t)
  }

  /** The call that was just answered lets the task go on: it gets its next call and, unless something else will start
      it, a delivery to itself; without room for that delivery, or without a turn, it gives up. */
  ghost predicate WentOn(db: Store, db': Store, t: Id, m: Id, conversation: seq<Message>, d: Doubt, now: int)
    requires t < |db.tasks| && m < |db.mails|
  {
    if !TurnAllowed(db, t, d, now) then EndedRows(db, db', t, Rejected, false)
    else if StartersOf(db, t) != {} then Turned(db, db', t, conversation) && db'.mails == db.mails
    else exists next: Store :: Turned(db, next, t, conversation) && next.mails == db.mails && SetOff(db, next, db', t, m, now)
  }

  lemma SetOffExactly(db: Store, next: Store, t: Id, m: Id, conversation: seq<Message>, now: int)
    requires t < |db.tasks| && m < |db.mails| && Turned(db, next, t, conversation) && next.mails == db.mails && now < DeadlineOf(db, db.tasks[t].goal)
    ensures var told := Emit(next, t, Continue, FromAgent(db.tasks[t].agent), Some(m), now);
            SetOff(db, next, if told.Some? then told.value else Terminate(next, t, Rejected, Runtime, Some(m), now), t, m, now)
  {
    hide Terminate, Rejects, Emit, Refuses, HasRoom;
    var r := db.tasks[t];
    var depth := EmitExactly(next, t, Continue, FromAgent(r.agent), Some(m), now);
    assert SentSince(next, r.system, FromAgent(r.agent), now - 60000) == SentSince(db, r.system, FromAgent(r.agent), now - 60000);
    NextRejects(next, t, m, now);
  }

  lemma ContinueExactly(db: Store, t: Id, m: Id, conversation: seq<Message>, f: Finish, now: int)
    requires LiveTask(db, t) && m < |db.mails|
    ensures WentOn(db, ContinueTask(db, t, m, conversation, f, now), t, m, conversation, f.doubt, now)
  {
    hide EndTask, Terminate, EndedRows, SetOff, Emit, MayTurn;
    var next, db' := TakeTurn(db, t, conversation), ContinueTask(db, t, m, conversation, f, now);
    MayTurnExactly(db, t, f.doubt, now);
    EndTaskExactly(db, t, m, Rejected, false, now);
    MailCounts(next, 0, 0, 0, Runtime, 0, t);
    assert StartersOf(next, t) == StartersOf(db, t);
    if MayTurn(db, t, f.doubt, now) {
      assert Turned(db, next, t, conversation);
      SetOffExactly(db, next, t, m, conversation, now);
    }
  }

  lemma NextRejects(next: Store, t: Id, m: Id, now: int)
    requires LiveTask(next, t)
    ensures Rejects(next, Terminate(next, t, Rejected, Runtime, Some(m), now), t)
  {
    hide WorkFates, GoalFates, SystemFates;
    TerminateWork(next, t, Rejected, Runtime, Some(m), now);
    TerminateGoals(next, t, Rejected, Runtime, Some(m), now);
  }

  // ----- the finish -----

  predicate FinishRow(db: Store, s: Activation) { s.task < |db.tasks| && s.call < |db.calls| && s.mail < |db.mails| }

  /** The session's task ended, or went on to another call, in the meantime. */
  predicate Outdated(db: Store, s: Activation)
    requires FinishRow(db, s)
  {
    db.tasks[s.task].call != s.call || db.tasks[s.task].phase.Done?
  }

  predicate SystemHalts(db: Store, s: Id) { s >= |db.systems| || db.systems[s].state == Stopping || db.systems[s].state == Stopped }

  predicate GoalOff(db: Store, g: Id) { g >= |db.goals| || db.goals[g].control == Off }

  /** A shutdown hands the delivery back when what was done so far can be repeated or is durable. */
  predicate HandedBack(db: Store, s: Activation, down: bool)
    requires FinishRow(db, s)
  {
    var t, c := db.tasks[s.task], db.calls[s.call];
    && down && !t.stopped && !SystemHalts(db, t.system) && !GoalOff(db, t.goal)
    && (c.state == Awaiting || (c.state == InQueue && c.attempts == 0) || c.state.Answered?)
    && (s.call in db.receipts ==> db.receipts[s.call] == Finished)
  }

  predicate CutShort(db: Store, s: Activation, f: Finish)
    requires FinishRow(db, s)
  {
    var t := db.tasks[s.task];
    f.canceled || t.stopped || SystemHalts(db, t.system) || GoalOff(db, t.goal)
  }

  /** The worker failed before its call went out, and may try again. */
  predicate TriesAgain(db: Store, s: Activation, f: Finish)
    requires FinishRow(db, s)
  {
    var c := db.calls[s.call];
    f.workerFailed && c.attempts == 0 && (c.state == Awaiting || c.state == InQueue) && db.mails[s.mail].attempts < 3
  }

  predicate OutdatedRows(db: Store, db': Store, s: Activation)
    requires FinishRow(db, s)
  {
    var v := db.mails[s.mail];
    var dropped := if v.state == Leased then db.mails[s.mail := v.(state := Dead)] else db.mails;
    && db' == db.(mails := dropped, systems := db'.systems) && |db'.systems| == |db.systems|
    && (forall k :: 0 <= k < |db.systems| ==> SweptSystem(db', db.systems[k], k, db'.systems[k]))
  }

  function ToldOf(db: Store, s: Activation, f: Finish): Store
    requires FinishRow(db, s)
  {
    db.(mails := db.mails[s.mail := db.mails[s.mail].(state := if f.workerFailed then Dead else Acked)])
  }

  /** What follows from an answer without a tool: input that arrived meanwhile is worked on, a task with triggers waits
      for them, and otherwise the work is complete. */
  ghost predicate SpokenRows(db: Store, db': Store, s: Activation, f: Finish, now: int)
    requires FinishRow(db, s)
  {
    var t := db.tasks[s.task];
    var conversation := t.conversation + [Assistant(None)];
    if InputsTo(db, s.task) != {} then WentOn(db, db', s.task, s.mail, conversation, f.doubt, now)
    else if f.triggers then db' == db.(tasks := db.tasks[s.task := t.(phase := Waiting, waitingTool := None, conversation := conversation)])
    else EndedRows(db, db', s.task, Completed, false)
  }

  /** What follows from an answer that called a tool: a task the tool suspended waits, any other goes on with the
      tool's result. */
  ghost predicate ToolRows(db: Store, db': Store, s: Activation, tool: Id, f: Finish, now: int)
    requires FinishRow(db, s)
  {
    var t := db.tasks[s.task];
    if t.phase == Waiting then db' == db
    else WentOn(db, db', s.task, s.mail, t.conversation + [Assistant(Some(tool)), Reply(tool)], f.doubt, now)
  }

  /** An answered call of a task nobody stops. The transaction fails only when the tool left no durable receipt, or the
      waiting conversation has grown too long. */
  lemma AnsweredExactly(db: Store, s: Activation, f: Finish, now: int)
    requires FinishRow(db, s) && db.calls[s.call].state.Answered? && LiveTask(db, s.task)
    ensures var x := FinishAnswered(db, s, f, now);
            match db.calls[s.call].state.tool
            case Some(tool) =>
              x.None? == (s.call !in db.receipts || db.receipts[s.call] != Finished) && (x.Some? ==> ToolRows(db, x.value, s, tool, f, now))
            case None =>
              x.None? == (InputsTo(db, s.task) == {} && f.triggers && f.overflow) && (x.Some? ==> SpokenRows(db, x.value, s, f, now))
  {
    hide ContinueTask, EndTask, WentOn, EndedRows;
    var t := db.tasks[s.task];
    MailCounts(db, 0, 0, 0, Runtime, 0, s.task);
    EndTaskExactly(db, s.task, s.mail, Completed, false, now);
    ContinueExactly(db, s.task, s.mail, t.conversation + [Assistant(None)], f, now);
    if db.calls[s.call].state.tool.Some? {
      var tool := db.calls[s.call].state.tool.value;
      ContinueExactly(db, s.task, s.mail, t.conversation + [Assistant(Some(tool)), Reply(tool)], f, now);
    }
  }

  /** How a session ends. If its task ended or went on meanwhile, the delivery is dropped. A shutdown hands it back. A
      worker that failed before its call went out is tried again, later each time. An answer is acted on. Everything
      else ends the task: canceled when it is called off, rejected when its call was, and failed otherwise. */
  lemma FinishExactly(db: Store, s: Activation, f: Finish, down: bool, now: int)
    requires FinishRow(db, s)
    ensures var t, c, v, x := db.tasks[s.task], db.calls[s.call], db.mails[s.mail], FinishDelivery(db, s, f, down, now);
            if Outdated(db, s) then x.Some? && OutdatedRows(db, x.value, s)
            else if HandedBack(db, s, down) then
              x == Some(db.(tasks := db.tasks[s.task := t.(phase := if t.phase == Waiting then Waiting else Queued)],
                            mails := db.mails[s.mail := v.(state := Pending)]))
            else if CutShort(db, s, f) then x.Some? && EndedRows(ToldOf(db, s, f), x.value, s.task, Canceled, true)
            else if TriesAgain(db, s, f) then
              var delay := if v.attempts == 0 then 1000 else if v.attempts == 1 then 2000 else 4000;
              x == Some(db.(tasks := db.tasks[s.task := t.(phase := Queued)], calls := db.calls[s.call := c.(state := Awaiting)],
                            mails := db.mails[s.mail := v.(state := Pending, notBefore := now + delay)]))
            else if c.state.Answered? && !f.workerFailed then x == FinishAnswered(ToldOf(db, s, f), s, f, now)
            else x.Some? && EndedRows(ToldOf(db, s, f), x.value, s.task, if c.state == Closed(Rejected) then Rejected else Failed, false)
  {
    hide EndTask, EndedRows, FinishAnswered;
    var t, c, v := db.tasks[s.task], db.calls[s.call], db.mails[s.mail];
    var told := ToldOf(db, s, f);
    if Outdated(db, s) {
      OutdatedExactly(db, s);
    } else {
      EndTaskExactly(told, s.task, s.mail, Canceled, true, now);
      EndTaskExactly(told, s.task, s.mail, Rejected, false, now);
      EndTaskExactly(told, s.task, s.mail, Failed, false, now);
      if v.attempts < 3 { Delays(v.attempts); }
    }
  }

  lemma Delays(n: nat)
    requires n < 3
    ensures RetryDelay(n) == if n == 0 then 1000 else if n == 1 then 2000 else 4000
  {
    assert RetryDelay(1) == 2 * RetryDelay(0);
  }

  lemma OutdatedExactly(db: Store, s: Activation)
    requires FinishRow(db, s)
    ensures var v := db.mails[s.mail];
            OutdatedRows(db, SweepSystems(if v.state == Leased then SetMail(db, s.mail, v.(state := Dead)) else db), s)
  {
    var v := db.mails[s.mail];
    var dropped := if v.state == Leased then SetMail(db, s.mail, v.(state := Dead)) else db;
    var db' := SweepSystems(dropped);
    forall k | 0 <= k < |db.systems| ensures SweptSystem(db', db.systems[k], k, db'.systems[k]) {
      assert HasLease(dropped, k) == StillHeld(dropped, k);
      assert StillHeld(db', k) == StillHeld(dropped, k);
    }
  }
}
