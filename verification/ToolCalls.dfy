/** Tool invocations keep the invariant: a receipt before any effect, a delegation opens exactly one account. */
module ToolCalls {
  import opened Common
  import opened Sums
  import opened Team
  import opened Mailbox
  import opened TeamInvariant
  import opened TaskEnds
  import opened Rewrites
  import opened Turns

  // ----- receipts -----

  /** The task waits after the tool of this call. */
  predicate WaitsAfter(db: Store, t: Id, c: Id)
    requires t < |db.tasks|
  {
    var r := db.tasks[t];
    Live(r) && r.phase == Waiting && r.call == c && c < |db.calls| && db.calls[c].state.Answered? && db.calls[c].state.tool.Some?
  }

  /** A receipt only matters to a task that waits after this very call. */
  lemma RecordInv(db: Store, c: Id, receipt: Receipt, x: int, astray: set<Id>)
    requires InvBut(db, x, astray)
    requires receipt == Finished || forall t :: 0 <= t < |db.tasks| && t != x && t !in astray ==> !WaitsAfter(db, t, c)
    ensures InvBut(Record(db, c, receipt), x, astray) && MailsKeep(db, Record(db, c, receipt))
    ensures forall k: Id :: Pledges(Record(db, c, receipt), k) == Pledges(db, k)
  {
    hide Shape;
    var db' := Record(db, c, receipt);
    assert Shape(db') by { RecordShape(db, c, receipt); }
    forall k: Id ensures SystemLoad(db', k) == SystemLoad(db, k) && GoalLoad(db', k) == GoalLoad(db, k) && Pledges(db', k) == Pledges(db, k) {
    }
    forall k | 0 <= k < |db'.tasks| && k != x && k !in astray ensures PledgeHolds(db', k) && TaskWaits(db', k) {
      assert PledgeHolds(db, k) && TaskWaits(db, k);
      assert receipt == Finished || !WaitsAfter(db, k, c);
    }
  }

  lemma RecordShape(db: Store, c: Id, receipt: Receipt)
    requires Shape(db)
    ensures Shape(Record(db, c, receipt))
  {
    var db' := Record(db, c, receipt);
    forall k | 0 <= k < |db'.tasks| ensures TaskFits(db', k) { assert TaskFits(db, k); }
    forall k | 0 <= k < |db'.mails| ensures MailFits(db', k) { assert MailFits(db, k); }
    forall a | 0 <= a < |db'.agents| ensures AgentFits(db', a) { assert AgentFits(db, a); }
  }

  // ----- children -----

  lemma ChildShape(db: Store, p: Id, agent: Id, evaluation: bool)
    requires Shape(db) && p < |db.tasks| && agent < |db.agents| && db.agents[agent].system == db.tasks[p].system
    ensures Shape(AppendChild(db, p, agent, evaluation))
  {
    var db' := AppendChild(db, p, agent, evaluation);
    assert TaskFits(db, p);
    forall k | 0 <= k < |db'.tasks| ensures TaskFits(db', k) { if k < |db.tasks| { assert TaskFits(db, k); } }
    forall k | 0 <= k < |db'.mails| ensures MailFits(db', k) { assert MailFits(db, k); }
    forall a | 0 <= a < |db'.agents| ensures AgentFits(db', a) { assert AgentFits(db, a); }
  }

  lemma ChildSums(db: Store, p: Id, agent: Id, evaluation: bool, k: Id)
    requires p < |db.tasks|
    ensures var db' := AppendChild(db, p, agent, evaluation);
            && Pledges(db', k) == Pledges(db, k) + (if k == p && !evaluation then 1 else 0)
            && (k != db.tasks[p].system ==> SystemLoad(db', k) == SystemLoad(db, k))
            && (k != db.tasks[p].goal ==> GoalLoad(db', k) == GoalLoad(db, k))
  {
    var child := AppendChild(db, p, agent, evaluation).tasks[|db.tasks|];
    SumAppend(db.tasks, child, DelegateOf(k));
    SumAppend(db.tasks, child, LiveInSystem(k));
    SumAppend(db.tasks, child, LiveInGoal(k));
  }

  /** A task that is about to be created has no children and no mail. */
  lemma NobodyExpects(db: Store, t: Id)
    requires Shape(db) && t >= |db.tasks|
    ensures Pledges(db, t) == 0
  {
    forall k | 0 <= k < |db.tasks| ensures DelegateOf(t)(db.tasks[k]) == 0 { assert TaskFits(db, k); }
    forall m | 0 <= m < |db.mails| ensures ReplyTo(t)(db.mails[m]) == 0 { assert MailFits(db, m); }
    SumZero(db.tasks, DelegateOf(t));
    SumZero(db.mails, ReplyTo(t));
  }

  lemma ChildRest(db: Store, p: Id, agent: Id, evaluation: bool, astray: set<Id>)
    requires RestBut(db, p, astray) && p < |db.tasks| && agent < |db.agents| && db.agents[agent].system == db.tasks[p].system
    ensures RestBut(AppendChild(db, p, agent, evaluation), p, astray)
  {
    hide Shape, Pledges;
    var db' := AppendChild(db, p, agent, evaluation);
    ChildShape(db, p, agent, evaluation);
    NobodyExpects(db, |db.tasks|);
    forall k | 0 <= k < |db'.tasks| && k != p && k !in astray ensures PledgeHolds(db', k) && TaskWaits(db', k) && TaskTalks(db'.tasks[k]) {
      ChildSums(db, p, agent, evaluation, k);
      if k < |db.tasks| {
        assert PledgeHolds(db, k) && TaskWaits(db, k) && TaskTalks(db.tasks[k]);
      }
    }
  }

  /** Only tasks in `except` may start to wait on a tool, and no task comes back to life. */
  ghost predicate NoNewWaits(db: Store, db': Store, except: set<Id>) {
    && |db.tasks| <= |db'.tasks|
    && forall k :: 0 <= k < |db.tasks| && k !in except ==> WaitsLess(db.tasks[k], db'.tasks[k])
  }

  predicate WaitsLess(t: Task, t': Task) { (t'.waitingTool.Some? ==> t.waitingTool.Some?) && (Live(t') ==> Live(t)) }

  lemma KeepsNoNewWaits(db: Store, db': Store, open: set<Id>)
    requires Keeps(db, db', open)
    ensures NoNewWaits(db, db', {}) && db'.receipts == db.receipts
  {
    forall k | 0 <= k < |db.tasks| ensures WaitsLess(db.tasks[k], db'.tasks[k]) { assert TaskKeeps(db.tasks[k], db'.tasks[k]); }
  }

  ghost predicate CallsGrow(db: Store, db': Store) {
    |db.calls| <= |db'.calls| && forall c :: 0 <= c < |db.calls| ==> db'.calls[c] == db.calls[c]
  }

  /** A spawned child comes with its first delivery, and with room for its report. */
  lemma SpawnInv(db: Store, p: Id, agent: Id, evaluation: bool, source: Source, cause: Option<Id>, now: int, astray: set<Id>)
    requires InvBut(db, p, astray) && p < |db.tasks| && agent < |db.agents| && db.agents[agent].system == db.tasks[p].system
    requires Spawn(db, p, agent, evaluation, source, cause, now).Some?
    ensures var db' := Spawn(db, p, agent, evaluation, source, cause, now).value;
            && InvBut(db', p, astray) && MailsKeep(db, db') && p < |db'.tasks| && db'.tasks[p] == db.tasks[p]
            && db'.agents == db.agents && db'.receipts == db.receipts && CallsGrow(db, db') && NoNewWaits(db, db', {})
            && Pledges(db', p) == Pledges(db, p) + (if evaluation then 0 else 1)
  {
    hide RestBut, Emit, Pledges, SystemLoad, GoalLoad, Keeps;
    var child := AppendChild(db, p, agent, evaluation);
    var db' := Spawn(db, p, agent, evaluation, source, cause, now).value;
    FitsOf(db, p, astray);
    ChildRest(db, p, agent, evaluation, astray);
    ChildSums(db, p, agent, evaluation, p);
    EmitRest(child, |db.tasks|, Ready, source, cause, now, p, astray);
    forall s: Id | s != db.tasks[p].system ensures SystemLoad(child, s) <= MAX_SYSTEM_EVENTS { ChildSums(db, p, agent, evaluation, s); }
    forall g: Id | g != db.tasks[p].goal ensures GoalLoad(child, g) <= MAX_GOAL_EVENTS { ChildSums(db, p, agent, evaluation, g); }
    EmitReserve(child, |db.tasks|, Ready, source, cause, now);
    KeepsMails(child, db');
    EmitTables(child, |db.tasks|, Ready, source, cause, now);
    assert MailsKeep(db, child);
    MailsKeepTransitive(db, child, db');
  }

  lemma EmitTables(db: Store, t: Id, kind: Kind, source: Source, cause: Option<Id>, now: int)
    requires t < |db.tasks| && Emit(db, t, kind, source, cause, now).Some?
    ensures var db' := Emit(db, t, kind, source, cause, now).value; db' == db.(mails := db'.mails)
  {
  }

  lemma {:induction false} SpawnCasesInv(db: Store, t: Id, agent: Id, cases: nat, source: Source, now: int, astray: set<Id>)
    requires InvBut(db, t, astray) && t < |db.tasks| && agent < |db.agents| && db.agents[agent].system == db.tasks[t].system
    requires SpawnCases(db, t, agent, cases, source, now).Some?
    ensures var db' := SpawnCases(db, t, agent, cases, source, now).value;
            && InvBut(db', t, astray) && MailsKeep(db, db') && t < |db'.tasks| && db'.tasks[t] == db.tasks[t]
            && db'.agents == db.agents && db'.receipts == db.receipts && CallsGrow(db, db') && NoNewWaits(db, db', {})
            && Pledges(db', t) == Pledges(db, t)
  {
    hide InvBut, Spawn, Pledges, MailsKeep;
    FitsOf(db, t, astray);
    if cases == 0 {
      assert MailsKeep(db, db) by { MailsKeepSelf(db); }
    } else {
      SpawnCasesInv(db, t, agent, cases - 1, source, now, astray);
      var some := SpawnCases(db, t, agent, cases - 1, source, now).value;
      SpawnInv(some, t, agent, true, source, None, now, astray);
      MailsKeepTransitive(db, some, Spawn(some, t, agent, true, source, None, now).value);
    }
  }

  lemma MailsKeepSelf(db: Store)
    ensures MailsKeep(db, db)
  {
  }

  // ----- the handlers -----

  /** What a handler leaves behind: everyone else in order, and the invoking task consistent once its
      receipt is completed. Only `waits` may start to wait on a tool. */
  ghost predicate Handled(db: Store, db': Store, t: Id, c: Id, waits: set<Id>, astray: set<Id>) {
    && InvBut(db', t, astray) && MailsKeep(db, db') && t < |db'.tasks| && c < |db'.calls| && db'.calls[c].task == t
    && (t in astray || TaskHolds(Record(db', c, Finished), t))
    && db'.receipts == db.receipts && NoNewWaits(db, db', waits)
  }

  /** The invoking task: its call was answered with a tool that has no receipt yet. */
  ghost predicate Invoking(db: Store, t: Id, c: Id, tool: Id, astray: set<Id>) {
    && LiveTask(db, t) && !db.tasks[t].stopped && db.tasks[t].call == c && (t in astray || (Ongoing(db, t) && Pledges(db, t) == 0))
    && c < |db.calls| && db.calls[c].task == t && db.calls[c].state == Answered(Some(tool))
  }

  lemma RecordTask(db: Store, t: Id, c: Id)
    requires t < |db.tasks|
    ensures var db' := Record(db, c, Finished); db'.tasks == db.tasks && Pledges(db', t) == Pledges(db, t)
  {
  }

  lemma IdleHandled(db: Store, t: Id, c: Id, tool: Id, astray: set<Id>)
    requires InvBut(db, t, astray) && Invoking(db, t, c, tool, astray)
    ensures Handled(db, Idle(db, t, tool), t, c, {}, astray)
  {
    hide InvBut, Pledges, Keeps;
    var r := Idle(db, t, tool).tasks[t];
    var db' := Idle(db, t, tool);
    assert db' == SetTask(db, t, r);
    ReplaceTask(db, t, r, astray);
    assert MailsKeep(db, db');
    if t !in astray { PairedConcat(db.tasks[t].conversation, [Assistant(Some(tool)), Reply(tool)]); }
    RecordTask(db', t, c);
  }

  lemma SuspendHandled(was: Store, db: Store, t: Id, c: Id, tool: Id, astray: set<Id>)
    requires InvBut(db, t, astray) && MailsKeep(was, db) && db.receipts == was.receipts && NoNewWaits(was, db, {})
    requires LiveTask(db, t) && !db.tasks[t].stopped && db.tasks[t].call == c
    requires t in astray || (WellPaired(db.tasks[t].conversation) && Pledges(db, t) == 1)
    requires c < |db.calls| && db.calls[c].task == t && db.calls[c].state == Answered(Some(tool))
    ensures Handled(was, Suspend(db, t, tool), t, c, {t}, astray)
  {
    hide InvBut, Pledges, Keeps, WellPaired;
    var r := Suspend(db, t, tool).tasks[t];
    var db' := Suspend(db, t, tool);
    assert db' == SetTask(db, t, r);
    ReplaceTask(db, t, r, astray);
    if t !in astray { OpensWith(db.tasks[t].conversation, tool); }
    RecordTask(db', t, c);
    assert MailsKeep(db, db');
    MailsKeepTransitive(was, db, db');
  }

  lemma DelegateHandled(db: Store, t: Id, m: Id, c: Id, tool: Id, recipient: Id, now: int, astray: set<Id>)
    requires InvBut(db, t, astray) && Invoking(db, t, c, tool, astray) && DelegateTask(db, t, m, tool, recipient, now).Some?
    ensures Handled(db, DelegateTask(db, t, m, tool, recipient, now).value, t, c, {t}, astray)
  {
    hide InvBut, Pledges, Spawn, Suspend, Handled, MailsKeep;
    var source := FromAgent(db.tasks[t].agent);
    SpawnInv(db, t, recipient, false, source, Some(m), now, astray);
    SuspendHandled(db, Spawn(db, t, recipient, false, source, Some(m), now).value, t, c, tool, astray);
  }

  lemma EvaluateHandled(db: Store, t: Id, c: Id, tool: Id, evaluator: Id, cases: nat, now: int, astray: set<Id>)
    requires InvBut(db, t, astray) && Invoking(db, t, c, tool, astray) && EvaluateTool(db, t, tool, evaluator, cases, now).Some?
    ensures Handled(db, EvaluateTool(db, t, tool, evaluator, cases, now).value, t, c, {}, astray)
  {
    hide InvBut, Pledges, SpawnCases, Idle, MailsKeep, WellPaired;
    var source := FromAgent(db.tasks[t].agent);
    SpawnCasesInv(db, t, evaluator, cases, source, now, astray);
    var spawned := SpawnCases(db, t, evaluator, cases, source, now).value;
    IdleHandled(spawned, t, c, tool, astray);
    MailsKeepTransitive(db, spawned, Idle(spawned, t, tool));
  }

  lemma OngoingHandled(db: Store, db': Store, t: Id, c: Id, astray: set<Id>)
    requires Inv(db', astray) && MailsKeep(db, db') && t < |db'.tasks| && c < |db'.calls| && db'.calls[c].task == t
    requires t in astray || (LiveTask(db', t) ==> db'.tasks[t].phase != Waiting)
    requires db'.receipts == db.receipts && NoNewWaits(db, db', {})
    ensures Handled(db, db', t, c, {}, astray)
  {
    hide Shape, Reserve, Deliveries, Pledges;
    OneExcepted(db', t, astray);
    assert t !in astray ==> TaskHolds(db', t);
    RecordTask(db', t, c);
  }

  lemma ReportHandled(db: Store, t: Id, m: Id, c: Id, tool: Id, now: int, astray: set<Id>)
    requires Inv(db, astray) && Invoking(db, t, c, tool, astray) && ReportProgress(db, t, m, now).Some?
    ensures Handled(db, ReportProgress(db, t, m, now).value, t, c, {}, astray)
  {
    hide InvBut, Pledges, Emit, Keeps;
    var p := db.tasks[t].parent.value;
    var db' := ReportProgress(db, t, m, now).value;
    EmitInv(db, p, Progress, FromAgent(db.tasks[t].agent), Some(m), now, -1, astray);
    EmitTables(db, p, Progress, FromAgent(db.tasks[t].agent), Some(m), now);
    KeepsMails(db, db');
    OngoingHandled(db, db', t, c, astray);
  }

  lemma SetAgentSwitches(db: Store, a: Id, state: Switch)
    ensures Switched(db, SetAgent(db, a, state))
  {
  }

  lemma {:induction false} RetireInv(db: Store, agents: seq<Id>, lists: seq<seq<Id>>, source: Source, now: int, astray: set<Id>)
    requires Inv(db, astray) && |lists| == |agents|
    ensures var db' := RetireAll(db, agents, lists, source, now); Inv(db', astray) && Keeps(db, db', {}) && |db'.tasks| == |db.tasks|
    decreases |agents|
  {
    hide InvBut, Keeps, StopTasks, SetAgent;
    if agents == [] {
      KeepsSelf(db, {});
    } else {
      var n := |agents| - 1;
      var before := RetireAll(db, agents[..n], lists[..n], source, now);
      RetireInv(db, agents[..n], lists[..n], source, now, astray);
      var off := SetAgent(before, agents[n], Off);
      SetAgentSwitches(before, agents[n], Off);
      SwitchedInv(before, off, -1, astray);
      StopTasksInv(off, lists[n], source, now, astray);
      KeepsTransitive(db, before, off, {});
      KeepsTransitive(db, off, StopTasks(off, lists[n], source, now), {});
    }
  }

  lemma KeptTask(db: Store, db': Store, t: Id, c: Id)
    requires Keeps(db, db', {}) && t < |db.tasks| && c < |db.calls|
    ensures t < |db'.tasks| && (db'.tasks[t].phase == Waiting ==> db.tasks[t].phase == Waiting) && c < |db'.calls| && db'.calls[c].task == db.calls[c].task
  {
    assert TaskKeeps(db.tasks[t], db'.tasks[t]);
  }

  /** A waiting phase is only ever entered through a tool of the task itself. */
  lemma RetireHandled(db: Store, t: Id, c: Id, tool: Id, agents: seq<Id>, lists: seq<seq<Id>>, source: Source, now: int, astray: set<Id>)
    requires Inv(db, astray) && Invoking(db, t, c, tool, astray) && |lists| == |agents|
    ensures Handled(db, RetireAll(db, agents, lists, source, now), t, c, {}, astray)
  {
    hide InvBut, Pledges, RetireAll, Keeps;
    var db' := RetireAll(db, agents, lists, source, now);
    RetireInv(db, agents, lists, source, now, astray);
    KeepsNoNewWaits(db, db', {});
    KeepsMails(db, db');
    KeptTask(db, db', t, c);
    OngoingHandled(db, db', t, c, astray);
  }

  // ----- the invocation -----

  lemma HandleHandled(db: Store, t: Id, m: Id, c: Id, tool: Id, kind: Tool, now: int, astray: set<Id>)
    requires Inv(db, astray) && Invoking(db, t, c, tool, astray) && Handle(db, t, m, tool, kind, now).Some?
    ensures var db' := Handle(db, t, m, tool, kind, now).value;
            Handled(db, db', t, c, if kind.Delegate? then {t} else {}, astray) && (kind.Dispatched? ==> db' == db)
  {
    hide InvBut, Invoking, Handled, DelegateTask, EvaluateTool, Idle, ReportProgress, RetireAll;
    InvokingTask(db, t, c, tool, astray);
    OneExcepted(db, t, astray);
    match kind
    case Delegate(recipient, denied) => DelegateHandled(db, t, m, c, tool, recipient, now, astray);
    case Evaluate(evaluator, cases, denied) => EvaluateHandled(db, t, c, tool, evaluator, cases, now, astray);
    case WaitForInput => IdleHandled(db, t, c, tool, astray);
    case Report => ReportHandled(db, t, m, c, tool, now, astray);
    case Retire(agents, lists) => RetireHandled(db, t, c, tool, agents, lists, FromAgent(db.tasks[t].agent), now, astray);
    case Dispatched => SameHandled(db, t, c, tool, astray);
    case Plain => SameHandled(db, t, c, tool, astray);
  }

  lemma InvokingTask(db: Store, t: Id, c: Id, tool: Id, astray: set<Id>)
    requires Invoking(db, t, c, tool, astray)
    ensures t < |db.tasks|
  {
  }

  lemma SameHandled(db: Store, t: Id, c: Id, tool: Id, astray: set<Id>)
    requires Inv(db, astray) && Invoking(db, t, c, tool, astray)
    ensures Handled(db, db, t, c, {}, astray)
  {
    hide InvBut, Pledges;
    MailsKeepSelf(db);
    OngoingHandled(db, db, t, c, astray);
  }

  /** Without a receipt the task cannot be waiting: nothing of the call has had an effect yet. */
  lemma InvokesOnce(r: Daemon, a: Id, astray: set<Id>)
    requires Inv(r.db, astray) && MayInvoke(r, a) && r.active[a].call !in r.db.receipts
    ensures var s := r.active[a];
            var started := Record(r.db, s.call, Begun);
            && Inv(started, astray) && MailsKeep(r.db, started)
            && Invoking(started, s.task, s.call, r.db.calls[s.call].state.tool.value, astray)
  {
    var s, db := r.active[a], r.db;
    var started := Record(db, s.call, Begun);
    assert s.task !in astray ==> TaskHolds(db, s.task);
    forall t | 0 <= t < |db.tasks| && t !in astray ensures !WaitsAfter(db, t, s.call) {
      assert TaskWaits(db, t);
    }
    RecordInv(db, s.call, Begun, -1, astray);
    assert Pledges(started, s.task) == Pledges(db, s.task);
  }

  /** What an invocation keeps, with the receipt it leaves. */
  lemma PrepareToolInv(r: Daemon, a: Id, kind: Tool, now: int, astray: set<Id>)
    requires Inv(r.db, astray)
    ensures var r' := PrepareTool(r, a, kind, now);
            && Inv(r'.db, astray) && MailsKeep(r.db, r'.db) && r'.active == r.active && r'.down == r.down
            && NoNewWaits(r.db, r'.db, if kind.Delegate? && a in r.active then {r.active[a].task} else {})
            && (r' != r ==>
                  && a in r.active && r.active[a].call !in r.db.receipts
                  && r'.db.receipts == r.db.receipts[r.active[a].call := if kind.Dispatched? then Begun else Finished])
            && r'.plans == if r' != r && kind.Dispatched? then r.plans + {r.active[a].call} else r.plans
  {
    hide InvBut, MailsKeep, Handle, Invoking, Handled;
    MailsKeepSelf(r.db);
    if MayInvoke(r, a) && r.active[a].call !in r.db.receipts {
      var s := r.active[a];
      var started := Record(r.db, s.call, Begun);
      var tool := r.db.calls[s.call].state.tool.value;
      InvokesOnce(r, a, astray);
      InvokingTask(started, s.task, s.call, tool, astray);
      if Handle(started, s.task, s.mail, tool, kind, now).Some? {
        var db' := Handle(started, s.task, s.mail, tool, kind, now).value;
        var waits := if kind.Delegate? then {s.task} else {};
        HandleHandled(started, s.task, s.mail, s.call, tool, kind, now, astray);
        HandledRows(started, db', s.task, s.call, waits, astray);
        if !kind.Dispatched? {
          RecordedHandled(started, db', s.task, s.call, waits, astray);
          MailsKeepTransitive(r.db, started, Record(db', s.call, Finished));
        }
      }
    }
  }

  lemma HandledRows(db: Store, db': Store, t: Id, c: Id, waits: set<Id>, astray: set<Id>)
    requires Handled(db, db', t, c, waits, astray)
    ensures db'.receipts == db.receipts && NoNewWaits(db, db', waits)
  {
  }

  lemma RecordedHandled(db: Store, db': Store, t: Id, c: Id, waits: set<Id>, astray: set<Id>)
    requires Handled(db, db', t, c, waits, astray)
    ensures Inv(Record(db', c, Finished), astray) && MailsKeep(db, Record(db', c, Finished))
  {
    hide InvBut, Pledges, TaskHolds, MailsKeep;
    RecordInv(db', c, Finished, t, astray);
    NoOpenAccount(Record(db', c, Finished), t, astray);
    MailsKeepTransitive(db, db', Record(db', c, Finished));
  }

  /** Every dispatched tool that is still running has a receipt that says so. */
  ghost predicate Planned(r: Daemon) {
    forall c :: c in r.plans ==> c in r.db.receipts && r.db.receipts[c] == Begun
  }

  /** The outcome of a dispatched tool concerns nobody that waits, and never replaces an earlier outcome. */
  lemma CompleteToolInv(r: Daemon, c: Id, known: bool, astray: set<Id>)
    requires Inv(r.db, astray) && Planned(r)
    ensures var r' := CompleteTool(r, c, known);
            && Inv(r'.db, astray) && Planned(r') && MailsKeep(r.db, r'.db) && r'.active == r.active && r'.down == r.down
            && r'.db == r.db.(receipts := r'.db.receipts)
            && (r' != r ==> c in r.db.receipts && r.db.receipts[c] == Begun
                            && r'.db.receipts == r.db.receipts[c := if known then Finished else Uncertain])
  {
    MailsKeepSelf(r.db);
    if c in r.plans {
      forall t | 0 <= t < |r.db.tasks| && t !in astray ensures !WaitsAfter(r.db, t, c) {
        assert TaskWaits(r.db, t);
      }
      RecordInv(r.db, c, if known then Finished else Uncertain, -1, astray);
    }
  }
}
