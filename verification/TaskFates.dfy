/** How tasks end: exactly which rows a termination, a stop and a recovery change, and to what. */
module TaskFates {
  import opened Common
  import opened Sums
  import opened Team
  import opened Mailbox
  import opened TeamSteps
  import opened TeamInvariant
  import opened TaskEnds

  // ----- fates of rows -----

  /** Task `a` is reached from `t` by parent links. */
  predicate Above(tasks: seq<Task>, a: Id, t: Id)
    decreases t
  {
    t < |tasks| && tasks[t].parent.Some? && tasks[t].parent.value < t && (tasks[t].parent.value == a || Above(tasks, a, tasks[t].parent.value))
  }

  ghost predicate AboveOne(tasks: seq<Task>, a: Id, ids: set<Id>) { exists t :: t in ids && Above(tasks, a, t) }

  predicate Ends(db: Store, db': Store, k: Id) { LiveTask(db, k) && k < |db'.tasks| && !Live(db'.tasks[k]) }

  /** Only the given tasks end with the outcome; beside them only ancestors of theirs that nobody stopped end, rejected. */
  ghost predicate TaskFate(db: Store, db': Store, k: Id, ids: set<Id>, outcome: Outcome)
    requires k < |db.tasks| && k < |db'.tasks|
  {
    var r, r' := db.tasks[k], db'.tasks[k];
    || r' == r
    || (Live(r) && k in ids && r' == r.(phase := Done(outcome)))
    || (Live(r) && !r.stopped && AboveOne(db.tasks, k, ids) && r' == r.(phase := Done(Rejected)))
  }

  /** A call that was not dispatched closes with its task, as its task ended. */
  predicate CallFate(db: Store, db': Store, c: Id)
    requires c < |db.calls| && c < |db'.calls|
  {
    var x := db.calls[c];
    db'.calls[c] == if Ends(db, db', x.task) && (x.state == Awaiting || x.state == InQueue)
                    then x.(state := Closed(db'.tasks[x.task].phase.outcome)) else x
  }

  /** A pending delivery dies with its task. */
  predicate MailFate(db: Store, db': Store, m: Id)
    requires m < |db.mails| && m < |db'.mails|
  {
    var v := db.mails[m];
    db'.mails[m] == if Ends(db, db', v.task) && v.state == Pending then v.(state := Dead) else v
  }

  /** A new delivery reports a task that just ended to its parent. */
  predicate ReportFate(db: Store, db': Store, m: Id)
    requires m < |db'.mails|
  {
    var v := db'.mails[m];
    && v.kind.Result? && Ends(db, db', v.kind.child) && !db.tasks[v.kind.child].evaluation && db.tasks[v.kind.child].parent == Some(v.task)
    && LiveTask(db, v.task) && !db.tasks[v.task].stopped && v.task < |db'.tasks|
    && v.agent == db.tasks[v.task].agent && v.system == db.tasks[v.task].system && v.goal == db.tasks[v.task].goal
    && v.attempts == 0 && !v.applied && v.notBefore == 0 && v.state == if LiveTask(db', v.task) then Pending else Dead
  }

  predicate Report(v: Mail, k: Id, p: Id) { v.kind == Result(k) && v.task == p && v.state == Pending }

  /** A task's end is never lost: its parent, if it goes on and nobody stops it, is told. */
  ghost predicate ToldFate(db: Store, db': Store, k: Id)
    requires k < |db.tasks|
  {
    var r := db.tasks[k];
    Ends(db, db', k) && !r.evaluation && r.parent.Some? && r.parent.value < k && LiveTask(db', r.parent.value) && !db.tasks[r.parent.value].stopped ==>
      exists m :: |db.mails| <= m < |db'.mails| && Report(db'.mails[m], k, r.parent.value)
  }

  /** What happens to tasks, calls, deliveries and receipts when the given tasks end. */
  ghost predicate RowFates(db: Store, db': Store, ids: set<Id>, outcome: Outcome) {
    && |db'.tasks| == |db.tasks| && |db'.calls| == |db.calls| && |db.mails| <= |db'.mails| && db'.receipts == db.receipts
    && (forall k :: 0 <= k < |db.tasks| ==> TaskFate(db, db', k, ids, outcome))
    && (forall c :: 0 <= c < |db.calls| ==> CallFate(db, db', c))
    && (forall m :: 0 <= m < |db.mails| ==> MailFate(db, db', m))
    && (forall m :: |db.mails| <= m < |db'.mails| ==> ReportFate(db, db', m))
  }

  ghost predicate WorkFates(db: Store, db': Store, ids: set<Id>, outcome: Outcome) {
    RowFates(db, db', ids, outcome) && forall k :: 0 <= k < |db.tasks| ==> ToldFate(db, db', k)
  }

  // ----- fates of goals -----

  predicate RootEnded(db: Store, db': Store, k: Id) { Ends(db, db', k) && db.tasks[k].parent.None? && !db.tasks[k].evaluation }

  predicate GoalEnded(db: Store, db': Store, g: Id) { exists k :: 0 <= k < |db.tasks| && RootEnded(db, db', k) && db.tasks[k].goal == g }

  predicate WorkEnded(db: Store, db': Store, s: Id) { exists k :: 0 <= k < |db.tasks| && RootEnded(db, db', k) && db.tasks[k].system == s }

  predicate StillHeld(db: Store, s: Id) { exists m :: 0 <= m < |db.mails| && db.mails[m].system == s && db.mails[m].state == Leased }

  /** A system whose root task ended: a stop is over once no delivery is leased, otherwise there is nothing to do. */
  function RestState(db: Store, s: Id, state: SystemState): SystemState {
    if state == Stopping || state == Stopped then if StillHeld(db, s) then Stopping else Stopped else Inactive
  }

  ghost predicate GoalFates(db: Store, db': Store) {
    && |db'.goals| == |db.goals| && |db'.agents| == |db.agents|
    && (forall g :: 0 <= g < |db.goals| ==> db'.goals[g] == db.goals[g].(closed := db.goals[g].closed || GoalEnded(db, db', g)))
    && (forall a :: 0 <= a < |db.agents| ==> AgentFate(db, db', a))
  }

  predicate AgentFate(db: Store, db': Store, a: Id)
    requires a < |db.agents| && a < |db'.agents|
  {
    var x := db.agents[a];
    db'.agents[a] == if x.goal.Some? && GoalEnded(db, db', x.goal.value) then x.(state := Off) else x
  }

  predicate SystemFate(db: Store, db': Store, s: Id)
    requires s < |db.systems| && s < |db'.systems|
  {
    var x := db.systems[s];
    db'.systems[s] == if WorkEnded(db, db', s) then x.(state := RestState(db, s, x.state)) else x
  }

  ghost predicate SystemFates(db: Store, db': Store) {
    |db'.systems| == |db.systems| && forall s :: 0 <= s < |db.systems| ==> SystemFate(db, db', s)
  }

  // ----- composition -----

  lemma {:induction false} AboveStable(tasks: seq<Task>, tasks': seq<Task>, a: Id, t: Id)
    requires |tasks'| == |tasks| && forall k :: 0 <= k < |tasks| ==> tasks'[k].parent == tasks[k].parent
    ensures Above(tasks', a, t) == Above(tasks, a, t)
    decreases t
  {
    if t < |tasks| && tasks[t].parent.Some? && tasks[t].parent.value < t { AboveStable(tasks, tasks', a, tasks[t].parent.value); }
  }

  lemma FateParents(db: Store, db': Store, ids: set<Id>, outcome: Outcome)
    requires RowFates(db, db', ids, outcome)
    ensures forall k :: 0 <= k < |db.tasks| ==> db'.tasks[k].parent == db.tasks[k].parent
  {
    hide AboveOne, CallFate, MailFate, ReportFate;
    forall k | 0 <= k < |db.tasks| ensures db'.tasks[k].parent == db.tasks[k].parent { assert TaskFate(db, db', k, ids, outcome); }
  }

  /** Rows of a task keep all but phase; an end stands. */
  lemma FateRow(db: Store, db': Store, ids: set<Id>, outcome: Outcome, k: Id)
    requires RowFates(db, db', ids, outcome) && k < |db.tasks|
    ensures db'.tasks[k] == db.tasks[k].(phase := db'.tasks[k].phase)
    ensures (!Live(db.tasks[k]) || Live(db'.tasks[k])) ==> db'.tasks[k] == db.tasks[k]
  {
    hide AboveOne, CallFate, MailFate, ReportFate;
    assert TaskFate(db, db', k, ids, outcome);
  }

  lemma TaskFateThen(a: Store, b: Store, c: Store, ids: set<Id>, outcome: Outcome, k: Id)
    requires RowFates(a, b, ids, outcome) && RowFates(b, c, ids, outcome) && k < |a.tasks|
    ensures TaskFate(a, c, k, ids, outcome)
  {
    hide CallFate, MailFate, ReportFate, Above;
    assert TaskFate(a, b, k, ids, outcome) && TaskFate(b, c, k, ids, outcome);
    FateParents(a, b, ids, outcome);
    if AboveOne(b.tasks, k, ids) {
      var t :| t in ids && Above(b.tasks, k, t);
      AboveStable(a.tasks, b.tasks, k, t);
    }
  }

  lemma CallFateThen(a: Store, b: Store, c: Store, ids: set<Id>, outcome: Outcome, x: Id)
    requires RowFates(a, b, ids, outcome) && RowFates(b, c, ids, outcome) && x < |a.calls|
    ensures CallFate(a, c, x)
  {
    hide TaskFate, MailFate, ReportFate;
    assert CallFate(a, b, x) && CallFate(b, c, x);
    var t := a.calls[x].task;
    if t < |a.tasks| { FateRow(a, b, ids, outcome, t); FateRow(b, c, ids, outcome, t); }
  }

  lemma MailFateThen(a: Store, b: Store, c: Store, ids: set<Id>, outcome: Outcome, m: Id)
    requires RowFates(a, b, ids, outcome) && RowFates(b, c, ids, outcome) && m < |a.mails|
    ensures MailFate(a, c, m)
  {
    hide TaskFate, CallFate, ReportFate;
    assert MailFate(a, b, m) && MailFate(b, c, m);
    var t := a.mails[m].task;
    if t < |a.tasks| { FateRow(a, b, ids, outcome, t); FateRow(b, c, ids, outcome, t); }
  }

  lemma ReportFateThen(a: Store, b: Store, c: Store, ids: set<Id>, outcome: Outcome, m: Id)
    requires RowFates(a, b, ids, outcome) && RowFates(b, c, ids, outcome) && |a.mails| <= m < |c.mails|
    ensures ReportFate(a, c, m)
  {
    hide TaskFate, CallFate;
    if m < |b.mails| {
      assert ReportFate(a, b, m) && MailFate(b, c, m);
      var v := b.mails[m];
      FateRow(a, b, ids, outcome, v.task);
      FateRow(b, c, ids, outcome, v.task);
      FateRow(b, c, ids, outcome, v.kind.child);
    } else {
      assert ReportFate(b, c, m);
      var v := c.mails[m];
      FateRow(a, b, ids, outcome, v.task);
      FateRow(a, b, ids, outcome, v.kind.child);
    }
  }

  lemma ToldFateThen(a: Store, b: Store, c: Store, ids: set<Id>, outcome: Outcome, k: Id)
    requires RowFates(a, b, ids, outcome) && RowFates(b, c, ids, outcome) && k < |a.tasks|
    requires ToldFate(a, b, k) && ToldFate(b, c, k)
    ensures ToldFate(a, c, k)
  {
    hide TaskFate, CallFate, ReportFate;
    var r := a.tasks[k];
    FateRow(a, b, ids, outcome, k);
    FateRow(b, c, ids, outcome, k);
    if Ends(a, c, k) && !r.evaluation && r.parent.Some? && r.parent.value < k && LiveTask(c, r.parent.value) && !a.tasks[r.parent.value].stopped {
      var p := r.parent.value;
      FateRow(a, b, ids, outcome, p);
      FateRow(b, c, ids, outcome, p);
      if Ends(a, b, k) {
        var m :| |a.mails| <= m < |b.mails| && Report(b.mails[m], k, p);
        assert MailFate(b, c, m);
        assert Report(c.mails[m], k, p);
      } else {
        var m :| |b.mails| <= m < |c.mails| && Report(c.mails[m], k, p);
      }
    }
  }

  lemma RowFatesThen(a: Store, b: Store, c: Store, ids: set<Id>, outcome: Outcome)
    requires RowFates(a, b, ids, outcome) && RowFates(b, c, ids, outcome)
    ensures RowFates(a, c, ids, outcome)
  {
    hide TaskFate, CallFate, MailFate, ReportFate;
    forall k | 0 <= k < |a.tasks| ensures TaskFate(a, c, k, ids, outcome) { TaskFateThen(a, b, c, ids, outcome, k); }
    forall x | 0 <= x < |a.calls| ensures CallFate(a, c, x) { CallFateThen(a, b, c, ids, outcome, x); }
    forall m | 0 <= m < |a.mails| ensures MailFate(a, c, m) { MailFateThen(a, b, c, ids, outcome, m); }
    forall m | |a.mails| <= m < |c.mails| ensures ReportFate(a, c, m) { ReportFateThen(a, b, c, ids, outcome, m); }
  }

  lemma FatesThen(a: Store, b: Store, c: Store, ids: set<Id>, outcome: Outcome)
    requires WorkFates(a, b, ids, outcome) && WorkFates(b, c, ids, outcome)
    ensures WorkFates(a, c, ids, outcome)
  {
    hide RowFates, ToldFate;
    RowFatesThen(a, b, c, ids, outcome);
    assert |b.tasks| == |a.tasks| by { FateSizes(a, b, ids, outcome); }
    forall k | 0 <= k < |a.tasks| ensures ToldFate(a, c, k) { ToldFateThen(a, b, c, ids, outcome, k); }
  }

  lemma FateSizes(a: Store, b: Store, ids: set<Id>, outcome: Outcome)
    requires RowFates(a, b, ids, outcome)
    ensures |b.tasks| == |a.tasks| && |b.calls| == |a.calls| && |a.mails| <= |b.mails|
  {
  }

  lemma SameFates(db: Store, db': Store, ids: set<Id>, outcome: Outcome)
    requires db'.tasks == db.tasks && db'.calls == db.calls && db'.mails == db.mails && db'.receipts == db.receipts
    ensures WorkFates(db, db', ids, outcome)
  {
  }

  // ----- termination -----

  lemma MarkDoneFates(db: Store, t: Id, outcome: Outcome)
    requires LiveTask(db, t)
    ensures RowFates(db, MarkDone(db, t, outcome), {t}, outcome)
    ensures forall k :: 0 <= k < |db.tasks| && k != t ==> ToldFate(db, MarkDone(db, t, outcome), k)
    ensures MarkDone(db, t, outcome).tasks == db.tasks[t := db.tasks[t].(phase := Done(outcome))]
  {
    hide AboveOne;
  }

  /** The report of the end is the one new delivery. */
  lemma TellFates(db: Store, t: Id, outcome: Outcome, p: Id, source: Source, cause: Option<Id>, now: int)
    requires LiveTask(db, t) && db.tasks[t].parent == Some(p) && p < t && !db.tasks[t].evaluation && LiveTask(db, p) && !db.tasks[p].stopped
    requires Emit(MarkDone(db, t, outcome), p, Result(t), source, cause, now).Some?
    ensures var db' := Emit(MarkDone(db, t, outcome), p, Result(t), source, cause, now).value;
            && WorkFates(db, db', {t}, outcome) && |db'.mails| == |db.mails| + 1
            && db'.tasks == db.tasks[t := db.tasks[t].(phase := Done(outcome))]
  {
    hide Refuses, Depth, RowFates, ToldFate;
    var ended := MarkDone(db, t, outcome);
    var db' := Emit(ended, p, Result(t), source, cause, now).value;
    MarkDoneFates(db, t, outcome);
    FateSizes(db, ended, {t}, outcome);
    ToldRows(db, ended, db', t, p, outcome);
  }

  lemma ToldRows(db: Store, ended: Store, db': Store, t: Id, p: Id, outcome: Outcome)
    requires RowFates(db, ended, {t}, outcome) && db' == ended.(mails := db'.mails) && |db'.mails| == |ended.mails| + 1 && |ended.mails| == |db.mails|
    requires db'.mails[..|ended.mails|] == ended.mails
    requires forall k :: 0 <= k < |db.tasks| && k != t ==> ToldFate(db, ended, k)
    requires LiveTask(db, t) && t < |ended.tasks| && !Live(ended.tasks[t]) && db.tasks[t].parent == Some(p) && p < t && !db.tasks[t].evaluation
    requires LiveTask(db, p) && !db.tasks[p].stopped && LiveTask(ended, p)
    requires var v := db'.mails[|db.mails|];
             && v.kind == Result(t) && v.task == p && v.state == Pending && v.attempts == 0 && !v.applied && v.notBefore == 0
             && v.agent == db.tasks[p].agent && v.system == db.tasks[p].system && v.goal == db.tasks[p].goal
    ensures WorkFates(db, db', {t}, outcome)
  {
    hide TaskFate;
    assert Report(db'.mails[|db.mails|], t, p);
    forall k | 0 <= k < |db.tasks| ensures TaskFate(db, db', k, {t}, outcome) && ToldFate(db, db', k) {
      SameTaskFate(db, ended, db', k, {t}, outcome);
      if k != t { assert ToldFate(db, ended, k); }
    }
    forall c | 0 <= c < |db.calls| ensures CallFate(db, db', c) { assert CallFate(db, ended, c); }
    forall m | 0 <= m < |db.mails| ensures MailFate(db, db', m) { assert MailFate(db, ended, m); }
  }

  lemma SameTaskFate(db: Store, ended: Store, db': Store, k: Id, ids: set<Id>, outcome: Outcome)
    requires k < |db.tasks| == |ended.tasks| && db'.tasks == ended.tasks && TaskFate(db, ended, k, ids, outcome)
    ensures TaskFate(db, db', k, ids, outcome)
  {
  }

  /** What happens to an ancestor because of the parent happens because of the child. */
  lemma FatesRaised(db: Store, db': Store, p: Id, t: Id, outcome: Outcome)
    requires RowFates(db, db', {p}, Rejected) && t < |db.tasks| && db.tasks[t].parent == Some(p) && p < t && !db.tasks[p].stopped
    ensures RowFates(db, db', {t}, outcome)
  {
    hide CallFate, MailFate, ReportFate;
    forall k | 0 <= k < |db.tasks| ensures TaskFate(db, db', k, {t}, outcome) {
      assert TaskFate(db, db', k, {p}, Rejected);
      assert t in {t};
      if db'.tasks[k] != db.tasks[k] { assert Above(db.tasks, k, t); }
    }
  }

  /** A termination ends a live task with its outcome and nobody else but, rejected, ancestors nobody told; the
      undispatched calls of what ends close with it, pending deliveries to it die, and nothing else changes. */
  lemma {:induction false} TerminateWork(db: Store, t: Id, outcome: Outcome, source: Source, cause: Option<Id>, now: int)
    ensures var db' := Terminate(db, t, outcome, source, cause, now); WorkFates(db, db', {t}, outcome)
    ensures var db' := Terminate(db, t, outcome, source, cause, now);
            if LiveTask(db, t) then t < |db'.tasks| && db'.tasks[t] == db.tasks[t].(phase := Done(outcome)) else db' == db
    decreases t
  {
    hide RowFates, ToldFate, MarkDone, CloseGoal, Emit, TaskFate;
    var db' := Terminate(db, t, outcome, source, cause, now);
    SameFates(db, db, {t}, outcome);
    if LiveTask(db, t) {
      var ended := MarkDone(db, t, outcome);
      var r := db.tasks[t];
      MarkDoneFates(db, t, outcome);
      FateSizes(db, ended, {t}, outcome);
      if r.evaluation || r.parent.None? {
        CloseGoalWork(ended, r.system, r.goal);
        SameFates(ended, db', {t}, outcome);
        RowFatesThen(db, ended, db', {t}, outcome);
        forall k | 0 <= k < |db.tasks| ensures ToldFate(db, db', k) { NobodyTold(db, ended, db', k, t, outcome); }
      } else {
        var p := r.parent.value;
        if p < t && LiveTask(ended, p) && !ended.tasks[p].stopped {
          if Emit(ended, p, Result(t), source, cause, now).Some? {
            TellFates(db, t, outcome, p, source, cause, now);
          } else {
            TerminateWork(ended, p, Rejected, Runtime, cause, now);
            FatesRaised(ended, db', p, t, outcome);
            RowFatesThen(db, ended, db', {t}, outcome);
            FateSizes(ended, db', {p}, Rejected);
            FateRow(ended, db', {p}, Rejected, t);
            forall k | 0 <= k < |db.tasks| ensures ToldFate(db, db', k) {
              if k == t { ParentOver(db, db', t); } else { ToldFateThen(db, ended, db', {t}, outcome, k); }
            }
          }
        } else {
          forall k | 0 <= k < |db.tasks| ensures ToldFate(db, db', k) { if k == t { ParentOver(db, db', t); } }
        }
      }
    }
  }

  lemma CloseGoalWork(db: Store, s: Id, g: Id)
    ensures var db' := CloseGoal(db, s, g); db'.tasks == db.tasks && db'.calls == db.calls && db'.mails == db.mails && db'.receipts == db.receipts
  {
  }

  lemma NobodyTold(db: Store, ended: Store, db': Store, k: Id, t: Id, outcome: Outcome)
    requires RowFates(db, ended, {t}, outcome) && k < |db.tasks| && t < |db.tasks| && db'.tasks == ended.tasks && db'.mails == ended.mails
    requires k != t ==> ToldFate(db, ended, k)
    requires db.tasks[t].evaluation || db.tasks[t].parent.None?
    ensures ToldFate(db, db', k)
  {
  }

  lemma ParentOver(db: Store, db': Store, t: Id)
    requires t < |db.tasks| && db.tasks[t].parent.Some?
    requires var p := db.tasks[t].parent.value; p >= t || !LiveTask(db', p) || (p < |db.tasks| && db.tasks[p].stopped)
    ensures ToldFate(db, db', t)
  {
  }

  lemma HeldStays(db: Store, db': Store, ids: set<Id>, outcome: Outcome, s: Id)
    requires RowFates(db, db', ids, outcome)
    ensures StillHeld(db', s) == StillHeld(db, s)
  {
    hide TaskFate, CallFate;
    if StillHeld(db, s) {
      var m :| 0 <= m < |db.mails| && db.mails[m].system == s && db.mails[m].state == Leased;
      assert MailFate(db, db', m);
    }
    if StillHeld(db', s) {
      var m :| 0 <= m < |db'.mails| && db'.mails[m].system == s && db'.mails[m].state == Leased;
      if m < |db.mails| { assert MailFate(db, db', m); } else { assert ReportFate(db, db', m); }
    }
  }

  lemma RootEndedThen(a: Store, b: Store, c: Store, ids: set<Id>, outcome: Outcome, k: Id)
    requires RowFates(a, b, ids, outcome) && RowFates(b, c, ids, outcome) && k < |a.tasks|
    ensures RootEnded(a, c, k) == (RootEnded(a, b, k) || RootEnded(b, c, k))
    ensures b.tasks[k].goal == a.tasks[k].goal && b.tasks[k].system == a.tasks[k].system
  {
    hide RowFates;
    FateSizes(a, b, ids, outcome);
    FateSizes(b, c, ids, outcome);
    FateRow(a, b, ids, outcome, k);
    FateRow(b, c, ids, outcome, k);
  }

  lemma EndedThen(a: Store, b: Store, c: Store, ids: set<Id>, outcome: Outcome, x: Id)
    requires RowFates(a, b, ids, outcome) && RowFates(b, c, ids, outcome)
    ensures GoalEnded(a, c, x) == (GoalEnded(a, b, x) || GoalEnded(b, c, x))
    ensures WorkEnded(a, c, x) == (WorkEnded(a, b, x) || WorkEnded(b, c, x))
  {
    hide RowFates, RootEnded;
    FateSizes(a, b, ids, outcome);
    forall k | 0 <= k < |a.tasks|
      ensures RootEnded(a, c, k) == (RootEnded(a, b, k) || RootEnded(b, c, k)) && b.tasks[k].goal == a.tasks[k].goal && b.tasks[k].system == a.tasks[k].system
    {
      RootEndedThen(a, b, c, ids, outcome, k);
    }
  }

  lemma GoalFatesThen(a: Store, b: Store, c: Store, ids: set<Id>, outcome: Outcome)
    requires RowFates(a, b, ids, outcome) && RowFates(b, c, ids, outcome) && GoalFates(a, b) && GoalFates(b, c)
    ensures GoalFates(a, c)
  {
    hide RowFates, GoalEnded;
    forall g | 0 <= g < |a.goals| ensures c.goals[g] == a.goals[g].(closed := a.goals[g].closed || GoalEnded(a, c, g)) { EndedThen(a, b, c, ids, outcome, g); }
    forall x | 0 <= x < |a.agents| ensures AgentFate(a, c, x) {
      assert AgentFate(a, b, x) && AgentFate(b, c, x);
      if a.agents[x].goal.Some? { EndedThen(a, b, c, ids, outcome, a.agents[x].goal.value); }
    }
  }

  lemma SystemFatesThen(a: Store, b: Store, c: Store, ids: set<Id>, outcome: Outcome)
    requires RowFates(a, b, ids, outcome) && RowFates(b, c, ids, outcome) && SystemFates(a, b) && SystemFates(b, c)
    ensures SystemFates(a, c)
  {
    hide RowFates, WorkEnded, StillHeld;
    forall s | 0 <= s < |a.systems| ensures SystemFate(a, c, s) {
      assert SystemFate(a, b, s) && SystemFate(b, c, s);
      EndedThen(a, b, c, ids, outcome, s);
      HeldStays(a, b, ids, outcome, s);
    }
  }

  /** The root of a goal takes the goal, its agents and its system with it. */
  lemma RootFates(db: Store, ended: Store, t: Id, outcome: Outcome)
    requires LiveTask(db, t) && db.tasks[t].parent.None? && !db.tasks[t].evaluation && RowFates(db, ended, {t}, outcome)
    requires ended == db.(tasks := db.tasks[t := db.tasks[t].(phase := Done(outcome))], calls := ended.calls, mails := ended.mails)
    ensures var db' := CloseGoal(ended, db.tasks[t].system, db.tasks[t].goal); GoalFates(db, db') && SystemFates(db, db')
  {
    hide RowFates;
    var db' := CloseGoal(ended, db.tasks[t].system, db.tasks[t].goal);
    assert RootEnded(db, db', t);
    forall g: Id ensures GoalEnded(db, db', g) == (g == db.tasks[t].goal) && WorkEnded(db, db', g) == (g == db.tasks[t].system) {}
    forall s | 0 <= s < |db.systems| ensures SystemFate(db, db', s) { HeldStays(db, ended, {t}, outcome, s); }
  }

  lemma NoRootEnds(db: Store, db': Store, t: Id, outcome: Outcome)
    requires LiveTask(db, t) && (db.tasks[t].parent.Some? || db.tasks[t].evaluation)
    requires db'.tasks == db.tasks[t := db.tasks[t].(phase := Done(outcome))]
    requires db'.systems == db.systems && db'.goals == db.goals && db'.agents == db.agents
    ensures GoalFates(db, db') && SystemFates(db, db')
  {
    forall g: Id ensures !GoalEnded(db, db', g) && !WorkEnded(db, db', g) {}
  }

  lemma SameGoals(db: Store)
    ensures GoalFates(db, db) && SystemFates(db, db)
  {
  }

  /** A root that ends closes its goal, retires the goal's agents and settles its system; no other end does. */
  lemma {:induction false} TerminateGoals(db: Store, t: Id, outcome: Outcome, source: Source, cause: Option<Id>, now: int)
    ensures var db' := Terminate(db, t, outcome, source, cause, now); GoalFates(db, db') && SystemFates(db, db')
    decreases t
  {
    hide RowFates, MarkDone, CloseGoal, Emit, GoalFates, SystemFates, ToldFate;
    var db' := Terminate(db, t, outcome, source, cause, now);
    SameGoals(db);
    if LiveTask(db, t) {
      var ended := MarkDone(db, t, outcome);
      var r := db.tasks[t];
      MarkDoneFates(db, t, outcome);
      MarkDoneElse(db, t, outcome);
      if !r.evaluation && r.parent.None? {
        RootFates(db, ended, t, outcome);
      } else {
        NoRootEnds(db, ended, t, outcome);
        if !r.evaluation && r.parent.value < t && LiveTask(ended, r.parent.value) && !ended.tasks[r.parent.value].stopped {
          var p := r.parent.value;
          if Emit(ended, p, Result(t), source, cause, now).Some? {
            EmitElse(ended, p, Result(t), source, cause, now);
            NoRootEnds(db, db', t, outcome);
          } else {
            TerminateGoals(ended, p, Rejected, Runtime, cause, now);
            TerminateWork(ended, p, Rejected, Runtime, cause, now);
            FatesRaised(ended, db', p, t, outcome);
            GoalFatesThen(db, ended, db', {t}, outcome);
            SystemFatesThen(db, ended, db', {t}, outcome);
          }
        }
      }
    }
  }

  lemma MarkDoneElse(db: Store, t: Id, outcome: Outcome)
    requires t < |db.tasks|
    ensures var db' := MarkDone(db, t, outcome); db' == db.(tasks := db'.tasks, calls := db'.calls, mails := db'.mails)
  {
  }

  lemma EmitElse(db: Store, t: Id, kind: Kind, source: Source, cause: Option<Id>, now: int)
    requires t < |db.tasks| && Emit(db, t, kind, source, cause, now).Some?
    ensures var db' := Emit(db, t, kind, source, cause, now).value; db' == db.(mails := db'.mails)
  {
  }

  /** The parent, if it is live and not stopped, is told of the end, or it is rejected: the latter iff the event is
      refused. */
  lemma TerminateTells(db: Store, t: Id, outcome: Outcome, source: Source, cause: Option<Id>, now: int)
    requires LiveTask(db, t) && !db.tasks[t].evaluation && db.tasks[t].parent.Some?
    requires var p := db.tasks[t].parent.value; p < t && LiveTask(db, p) && !db.tasks[p].stopped
    ensures var db', p := Terminate(db, t, outcome, source, cause, now), db.tasks[t].parent.value;
            var refusal := Refuses(MarkDone(db, t, outcome), p, Result(t), source, cause, now);
            if refusal.None? then
              && p < |db'.tasks| && db'.tasks[p] == db.tasks[p] && |db'.mails| == |db.mails| + 1
              && db'.mails[|db.mails|].depth == Depth(db, cause) && db'.mails[|db.mails|].source == source
              && db'.mails[|db.mails|].created == now && db'.mails[|db.mails|].expires == DeadlineOf(db, db.tasks[p].goal)
            else p < |db'.tasks| && db'.tasks[p] == db.tasks[p].(phase := Done(Rejected))
  {
    hide RowFates, ToldFate, CloseGoal;
    var ended, p := MarkDone(db, t, outcome), db.tasks[t].parent.value;
    MarkDoneFates(db, t, outcome);
    if Emit(ended, p, Result(t), source, cause, now).Some? {
      TellFates(db, t, outcome, p, source, cause, now);
    } else {
      TerminateWork(ended, p, Rejected, Runtime, cause, now);
    }
  }

  // ----- stops -----

  predicate HaltsSystem(db: Store, ids: set<Id>, s: Id) {
    exists t :: t in ids && t < |db.tasks| && db.tasks[t].parent.None? && db.tasks[t].system == s
  }

  /** A system whose root is stopped is stopping until no delivery of it is leased. */
  predicate HaltSystemFate(db: Store, db': Store, ids: set<Id>, s: Id)
    requires s < |db.systems| && s < |db'.systems|
  {
    if HaltsSystem(db, ids, s) then
      db'.systems[s] == db.systems[s].(state := if !StillHeld(db, s) && WorkEnded(db, db', s) then Stopped else Stopping)
    else SystemFate(db, db', s)
  }

  ghost predicate HaltFates(db: Store, db': Store, ids: set<Id>) {
    && WorkFates(db, db', ids, Canceled) && GoalFates(db, db') && |db'.systems| == |db.systems|
    && (forall s :: 0 <= s < |db.systems| ==> HaltSystemFate(db, db', ids, s))
  }

  lemma FatesWider(db: Store, db': Store, ids: set<Id>, more: set<Id>, outcome: Outcome)
    requires WorkFates(db, db', ids, outcome) && ids <= more
    ensures WorkFates(db, db', more, outcome)
  {
    hide CallFate, MailFate, ReportFate, ToldFate, Above;
    forall k | 0 <= k < |db.tasks| ensures TaskFate(db, db', k, more, outcome) {
      assert TaskFate(db, db', k, ids, outcome);
      if AboveOne(db.tasks, k, ids) { var t :| t in ids && Above(db.tasks, k, t); assert AboveOne(db.tasks, k, more); }
    }
  }

  lemma SameStart(db: Store, halting: Store, db': Store, ids: set<Id>, outcome: Outcome)
    requires halting == db.(systems := halting.systems) && WorkFates(halting, db', ids, outcome) && GoalFates(halting, db')
    ensures WorkFates(db, db', ids, outcome) && GoalFates(db, db')
  {
    hide Above, GoalEnded;
    forall k | 0 <= k < |db.tasks| ensures TaskFate(db, db', k, ids, outcome) && ToldFate(db, db', k) {
      assert TaskFate(halting, db', k, ids, outcome) && ToldFate(halting, db', k);
    }
    forall c | 0 <= c < |db.calls| ensures CallFate(db, db', c) { assert CallFate(halting, db', c); }
    forall m | 0 <= m < |db.mails| ensures MailFate(db, db', m) { assert MailFate(halting, db', m); }
    forall m | |db.mails| <= m < |db'.mails| ensures ReportFate(db, db', m) { assert ReportFate(halting, db', m); }
    forall g: Id ensures GoalEnded(db, db', g) == GoalEnded(halting, db', g) { SameEnds(db, halting, db', g); }
    forall a | 0 <= a < |db.agents| ensures AgentFate(db, db', a) { assert AgentFate(halting, db', a); }
  }

  lemma SameEnds(db: Store, halting: Store, db': Store, x: Id)
    requires halting.tasks == db.tasks
    ensures GoalEnded(db, db', x) == GoalEnded(halting, db', x) && WorkEnded(db, db', x) == WorkEnded(halting, db', x)
  {
    forall k | 0 <= k < |db.tasks| ensures RootEnded(db, db', k) == RootEnded(halting, db', k) {}
  }

  lemma HaltTaskFates(db: Store, t: Id, source: Source, now: int)
    requires LiveTask(db, t) && (db.tasks[t].evaluation ==> db.tasks[t].parent.Some?)
    requires TaskLeased(db, t) ==> StillHeld(db, db.tasks[t].system)
    ensures var db' := HaltTask(db, t, source, now);
            && HaltFates(db, db', {t}) && |db'.tasks| == |db.tasks|
            && db'.tasks[t] == if TaskLeased(db, t) then db.tasks[t] else db.tasks[t].(phase := Done(Canceled))
  {
    hide RowFates, ToldFate, GoalFates, Terminate, TaskLeased, StillHeld, GoalEnded, WorkEnded;
    var r := db.tasks[t];
    var halting := if r.parent.None? then SetSystem(db, r.system, Stopping) else db;
    var db' := HaltTask(db, t, source, now);
    assert TaskLeased(halting, t) == TaskLeased(db, t) by { SameLeased(db, halting, t); }
    if TaskLeased(db, t) {
      SameFates(db, db', {t}, Canceled);
      SameGoals(db);
      SameGoalsBut(db, db');
    } else {
      TerminateWork(halting, t, Canceled, source, None, now);
      TerminateGoals(halting, t, Canceled, source, None, now);
      SameStart(db, halting, db', {t}, Canceled);
    }
    FateSizes(db, db', {t}, Canceled);
    forall s | 0 <= s < |db.systems| ensures HaltSystemFate(db, db', {t}, s) {
      SameEnds(db, halting, db', s);
      assert StillHeld(db, s) == StillHeld(halting, s) by { SameHeld(db, halting, s); }
      assert HaltsSystem(db, {t}, s) == (r.parent.None? && r.system == s);
      if TaskLeased(db, t) { NothingEnded(db, db', s); } else {
        assert SystemFate(halting, db', s);
        if r.parent.None? && r.system == s { assert WorkEnded(db, db', s) by { OneEnded(db, db', t); } }
      }
    }
  }

  lemma SameLeased(db: Store, db': Store, t: Id)
    requires db'.mails == db.mails
    ensures TaskLeased(db', t) == TaskLeased(db, t)
  {
  }

  lemma SameHeld(db: Store, db': Store, s: Id)
    requires db'.mails == db.mails
    ensures StillHeld(db', s) == StillHeld(db, s)
  {
  }

  lemma SameGoalsBut(db: Store, db': Store)
    requires db' == db.(systems := db'.systems)
    ensures GoalFates(db, db')
  {
  }

  lemma NothingEnded(db: Store, db': Store, s: Id)
    requires db'.tasks == db.tasks
    ensures !WorkEnded(db, db', s)
  {
  }

  lemma OneEnded(db: Store, db': Store, t: Id)
    requires Ends(db, db', t) && db.tasks[t].parent.None? && !db.tasks[t].evaluation
    ensures WorkEnded(db, db', db.tasks[t].system)
  {
    assert RootEnded(db, db', t);
  }

  lemma LeaseStays(db: Store, db': Store, ids: set<Id>, outcome: Outcome, t: Id)
    requires RowFates(db, db', ids, outcome)
    ensures TaskLeased(db', t) == TaskLeased(db, t)
  {
    hide TaskFate, CallFate;
    if TaskLeased(db, t) {
      var m :| 0 <= m < |db.mails| && db.mails[m].task == t && db.mails[m].state == Leased;
      assert MailFate(db, db', m);
    }
    if TaskLeased(db', t) {
      var m :| 0 <= m < |db'.mails| && db'.mails[m].task == t && db'.mails[m].state == Leased;
      if m < |db.mails| { assert MailFate(db, db', m); } else { assert ReportFate(db, db', m); }
    }
  }

  lemma LeasedIsHeld(db: Store, t: Id)
    requires Shape(db) && t < |db.tasks| && TaskLeased(db, t)
    ensures StillHeld(db, db.tasks[t].system)
  {
    var m :| 0 <= m < |db.mails| && db.mails[m].task == t && db.mails[m].state == Leased;
    assert MailFits(db, m);
  }

  /** A task that is stopped already ends only on its own account. */
  lemma StoppedStays(db: Store, db': Store, ids: set<Id>, outcome: Outcome, t: Id)
    requires RowFates(db, db', ids, outcome) && t < |db.tasks| && (!Live(db.tasks[t]) || (db.tasks[t].stopped && t !in ids))
    ensures db'.tasks[t] == db.tasks[t]
  {
    hide AboveOne;
    assert TaskFate(db, db', t, ids, outcome);
  }

  lemma HaltSystemThen(a: Store, b: Store, c: Store, ids: set<Id>, t: Id, s: Id)
    requires RowFates(a, b, ids, Canceled) && RowFates(b, c, {t}, Canceled) && s < |a.systems| == |b.systems| == |c.systems|
    requires HaltSystemFate(a, b, ids, s) && HaltSystemFate(b, c, {t}, s)
    requires t < |a.tasks| && (a.tasks[t].parent.None? && a.tasks[t].system == s ==> StillHeld(b, s) || WorkEnded(b, c, s))
    ensures HaltSystemFate(a, c, ids + {t}, s)
  {
    hide RowFates, WorkEnded, StillHeld;
    FatesGrow(a, b, ids, ids + {t});
    FatesGrow(b, c, {t}, ids + {t});
    EndedThen(a, b, c, ids + {t}, Canceled, s);
    HeldStays(a, b, ids, Canceled, s);
    FateRow(a, b, ids, Canceled, t);
    FateSizes(a, b, ids, Canceled);
    var hit := a.tasks[t].parent.None? && a.tasks[t].system == s;
    assert HaltsSystem(b, {t}, s) == hit;
    assert HaltsSystem(a, ids + {t}, s) == (HaltsSystem(a, ids, s) || hit) by { HaltsOneMore(a, ids, t, s); }
  }

  lemma HaltsOneMore(db: Store, ids: set<Id>, t: Id, s: Id)
    requires t < |db.tasks|
    ensures HaltsSystem(db, ids + {t}, s) == (HaltsSystem(db, ids, s) || (db.tasks[t].parent.None? && db.tasks[t].system == s))
  {
    if HaltsSystem(db, ids, s) {
      var k :| k in ids && k < |db.tasks| && db.tasks[k].parent.None? && db.tasks[k].system == s;
      assert k in ids + {t};
    }
    assert t in ids + {t};
  }

  lemma FatesGrow(db: Store, db': Store, ids: set<Id>, more: set<Id>)
    requires RowFates(db, db', ids, Canceled) && ids <= more
    ensures RowFates(db, db', more, Canceled)
  {
    hide CallFate, MailFate, ReportFate, Above;
    forall k | 0 <= k < |db.tasks| ensures TaskFate(db, db', k, more, Canceled) {
      assert TaskFate(db, db', k, ids, Canceled);
      if AboveOne(db.tasks, k, ids) { var t :| t in ids && Above(db.tasks, k, t); assert AboveOne(db.tasks, k, more); }
    }
  }

  lemma HaltsThen(a: Store, b: Store, c: Store, ids: set<Id>, t: Id)
    requires HaltFates(a, b, ids) && HaltFates(b, c, {t}) && Shape(a) && LiveTask(a, t)
    requires |b.tasks| == |c.tasks| && (TaskLeased(b, t) || Ends(b, c, t))
    ensures HaltFates(a, c, ids + {t})
  {
    hide Shape, RowFates, ToldFate, GoalFates, HaltSystemFate, TaskLeased;
    FatesWider(a, b, ids, ids + {t}, Canceled);
    FatesWider(b, c, {t}, ids + {t}, Canceled);
    FatesThen(a, b, c, ids + {t}, Canceled);
    GoalFatesThen(a, b, c, ids + {t}, Canceled);
    FateRow(a, b, ids, Canceled, t);
    FateSizes(a, b, ids, Canceled);
    forall s | 0 <= s < |a.systems| ensures HaltSystemFate(a, c, ids + {t}, s) {
      if a.tasks[t].parent.None? && a.tasks[t].system == s { RootHalted(a, b, c, ids, t); }
      HaltSystemThen(a, b, c, ids, t, s);
    }
  }

  lemma RootHalted(a: Store, b: Store, c: Store, ids: set<Id>, t: Id)
    requires RowFates(a, b, ids, Canceled) && Shape(a) && t < |a.tasks| && a.tasks[t].parent.None? && (TaskLeased(b, t) || Ends(b, c, t))
    ensures StillHeld(b, a.tasks[t].system) || WorkEnded(b, c, a.tasks[t].system)
  {
    hide RowFates, TaskLeased, StillHeld, WorkEnded;
    FateRow(a, b, ids, Canceled, t);
    FateSizes(a, b, ids, Canceled);
    LeaseStays(a, b, ids, Canceled, t);
    HeldStays(a, b, ids, Canceled, a.tasks[t].system);
    if TaskLeased(b, t) { LeasedIsHeld(a, t); } else { assert TaskFits(a, t); OneEnded(b, c, t); }
  }

  /** What a stop does to a marked task: it waits for its worker, or it is canceled. */
  predicate HaltRow(db: Store, db': Store, t: Id) {
    && t < |db.tasks| && t < |db'.tasks|
    && db'.tasks[t] == if TaskLeased(db, t) then db.tasks[t] else db.tasks[t].(phase := Done(Canceled))
  }

  lemma {:induction false} HaltAllFates(db: Store, ids: seq<Id>, source: Source, now: int)
    requires Shape(db) && Distinct(ids) && forall i :: 0 <= i < |ids| ==> LiveTask(db, ids[i]) && db.tasks[ids[i]].stopped
    ensures var db' := HaltAll(db, ids, source, now);
            HaltFates(db, db', Elements(ids)) && |db'.tasks| == |db.tasks| && forall i :: 0 <= i < |ids| ==> HaltRow(db, db', ids[i])
  {
    hide Shape, RowFates, ToldFate, GoalFates, HaltSystemFate, TaskLeased, HaltTask;
    if ids == [] {
      assert Elements(ids) == {};
      NothingHalted(db);
    } else {
      var n := |ids| - 1;
      var t, before := ids[n], Elements(ids[..n]);
      var mid, db' := HaltAll(db, ids[..n], source, now), HaltAll(db, ids, source, now);
      HaltAllFates(db, ids[..n], source, now);
      assert t !in before;
      StoppedStays(db, mid, before, Canceled, t);
      LeaseStays(db, mid, before, Canceled, t);
      HeldStays(db, mid, before, Canceled, db.tasks[t].system);
      if TaskLeased(db, t) { LeasedIsHeld(db, t); }
      assert db.tasks[t].evaluation ==> db.tasks[t].parent.Some? by { ShapeTask(db, t); }
      HaltTaskFates(mid, t, source, now);
      HaltsThen(db, mid, db', before, t);
      assert Elements(ids) == before + {t} by { ElementsSplit(ids); }
      forall i | 0 <= i < |ids| ensures HaltRow(db, db', ids[i]) {
        if i < n {
          assert ids[i] == ids[..n][i] && HaltRow(db, mid, ids[..n][i]);
          StoppedStays(mid, db', {t}, Canceled, ids[i]);
        }
      }
    }
  }

  lemma ShapeTask(db: Store, t: Id)
    requires Shape(db) && t < |db.tasks|
    ensures TaskFits(db, t)
  {
  }

  lemma ElementsSplit(ids: seq<Id>)
    requires ids != []
    ensures Elements(ids) == Elements(ids[..|ids| - 1]) + {ids[|ids| - 1]}
  {
    var n := |ids| - 1;
    forall x ensures x in Elements(ids) <==> x in Elements(ids[..n]) + {ids[n]} {
      if x in Elements(ids[..n]) { var i :| 0 <= i < n && ids[..n][i] == x; assert ids[i] == x; }
      if x in Elements(ids) && x != ids[n] { var i :| 0 <= i < |ids| && ids[i] == x; assert ids[..n][i] == x; }
    }
  }

  lemma NothingHalted(db: Store)
    ensures HaltFates(db, db, {})
  {
    hide RowFates, ToldFate, GoalFates, StillHeld;
    SameFates(db, db, {}, Canceled);
    SameGoals(db);
    forall s | 0 <= s < |db.systems| ensures HaltSystemFate(db, db, {}, s) { NothingEnded(db, db, s); }
  }

  /** Exactly the listed tasks are marked. */
  ghost predicate Marked(db: Store, db': Store, ids: set<Id>) {
    && db' == db.(tasks := db'.tasks) && |db'.tasks| == |db.tasks|
    && (forall t :: 0 <= t < |db.tasks| ==> db'.tasks[t] == db.tasks[t].(stopped := db.tasks[t].stopped || t in ids))
  }

  lemma {:induction false} MarkAllExactly(db: Store, ids: seq<Id>)
    ensures Marked(db, MarkAll(db, ids), Elements(ids))
  {
    if ids != [] {
      MarkAllExactly(db, ids[..|ids| - 1]);
      ElementsSplit(ids);
    }
  }

  lemma MarkedShape(db: Store, db': Store, ids: set<Id>)
    requires Shape(db) && Marked(db, db', ids)
    ensures Shape(db')
  {
    forall t | 0 <= t < |db'.tasks| ensures TaskFits(db', t) { assert TaskFits(db, t); }
    forall m | 0 <= m < |db'.mails| ensures MailFits(db', m) { assert MailFits(db, m); }
    forall a | 0 <= a < |db'.agents| ensures AgentFits(db', a) { assert AgentFits(db, a); }
  }

  /** A stop marks exactly the tasks it selected. Those no worker holds end, canceled; the others wait for their
      workers; beside them only ancestors that were not selected can end, rejected. */
  lemma StopExactly(db: Store, scope: Scope, ids: seq<Id>, source: Source, now: int) returns (marked: Store)
    requires Shape(db) && StopList(db, scope, ids)
    ensures Marked(db, marked, Elements(ids)) && HaltFates(marked, StopTasks(db, ids, source, now), Elements(ids))
    ensures var db' := StopTasks(db, ids, source, now);
            && |db'.tasks| == |db.tasks|
            && forall t: Id :: LiveTask(db, t) && InClosure(db.tasks, scope, t) ==>
                 db'.tasks[t] == db.tasks[t].(stopped := true, phase := if TaskLeased(db, t) then db.tasks[t].phase else Done(Canceled))
  {
    hide Shape, RowFates, ToldFate, GoalFates, HaltSystemFate, TaskLeased, MarkAll, HaltAll, InClosure, HaltFates;
    marked := MarkAll(db, ids);
    var db' := StopTasks(db, ids, source, now);
    MarkAllExactly(db, ids);
    MarkedShape(db, marked, Elements(ids));
    forall i | 0 <= i < |ids| ensures LiveTask(marked, ids[i]) && marked.tasks[ids[i]].stopped { assert ids[i] in ids; assert ids[i] in Elements(ids); }
    HaltAllFates(marked, ids, source, now);
    forall t: Id | LiveTask(db, t) && InClosure(db.tasks, scope, t)
      ensures db'.tasks[t] == db.tasks[t].(stopped := true, phase := if TaskLeased(db, t) then db.tasks[t].phase else Done(Canceled))
    {
      assert t in ids;
      var i :| 0 <= i < |ids| && ids[i] == t;
      assert HaltRow(marked, db', ids[i]) && ids[i] in Elements(ids);
      SameLeased(db, marked, t);
    }
  }

  /** A stop selects the tasks in its scope and everything below one. */
  lemma {:induction false} ClosureIsDescent(tasks: seq<Task>, scope: Scope, t: Id)
    ensures InClosure(tasks, scope, t) ==
            (t < |tasks| && (InScope(tasks, scope, t) || exists a: Id :: InScope(tasks, scope, a) && Above(tasks, a, t)))
    decreases t
  {
    if t < |tasks| && tasks[t].parent.Some? && tasks[t].parent.value < t {
      var p := tasks[t].parent.value;
      ClosureIsDescent(tasks, scope, p);
      if InClosure(tasks, scope, p) {
        if InScope(tasks, scope, p) {
          assert Above(tasks, p, t);
        } else {
          var a: Id :| InScope(tasks, scope, a) && Above(tasks, a, p);
          assert Above(tasks, a, t);
        }
      }
    }
  }

  predicate InScope(tasks: seq<Task>, scope: Scope, t: Id) {
    t < |tasks| && (scope == WholeSystem(tasks[t].system) || scope == WholeGoal(tasks[t].goal) || scope == WholeAgent(tasks[t].agent))
  }
}
