/** When a tool invocation takes effect, and the rows each reviewed tool writes. */
module ToolRows {
  import opened Common
  import opened Sums
  import opened Team
  import opened Mailbox
  import opened EventRows

  // ----- the guard -----

  /** The worker still holds its delivery, its call proposed a tool, and nobody stops the work. */
  predicate MayAct(r: Daemon, a: Id) {
    a in r.active &&
    var s, db := r.active[a], r.db;
    && s.task < |db.tasks| && s.call < |db.calls| && s.mail < |db.mails| &&
    var t, c := db.tasks[s.task], db.calls[s.call];
    && c.task == s.task && t.call == s.call && c.state.Answered? && c.state.tool.Some?
    && !t.phase.Done? && !t.stopped && db.mails[s.mail].task == s.task && db.mails[s.mail].state == Leased
    && t.system < |db.systems| && db.systems[t.system].state != Stopping && db.systems[t.system].state != Stopped
    && t.goal < |db.goals| && db.goals[t.goal].control != Off
  }

  // ----- delegation -----

  function DeadlineRow(db: Store, g: Id): int { if g < |db.goals| then db.goals[g].deadline else 0 }

  function ChildTask(db: Store, t: Id, agent: Id, evaluation: bool, call: Id): Task
    requires t < |db.tasks|
  {
    Task(db.tasks[t].system, db.tasks[t].goal, agent, Some(t), evaluation, Queued, false, [User], 1, call, None)
  }

  function ChildMail(db: Store, t: Id, child: Id, agent: Id, depth: nat, now: int): Mail
    requires t < |db.tasks|
  {
    var r := db.tasks[t];
    Mail(r.system, r.goal, child, agent, Ready, FromAgent(r.agent), depth, now, DeadlineRow(db, r.goal), Pending, 0, false, 0)
  }

  /** The store with the child and its first call, before its first delivery. */
  function WithChild(db: Store, t: Id, agent: Id, evaluation: bool): Store
    requires t < |db.tasks|
  {
    db.(tasks := db.tasks + [ChildTask(db, t, agent, evaluation, |db.calls|)], calls := db.calls + [Call(|db.tasks|, Awaiting, 0, [User])])
  }

  /** The goal still runs, and there is room for the child's first delivery beside everybody's reports. */
  predicate MaySpawn(db: Store, t: Id, agent: Id, evaluation: bool, depth: nat, now: int)
    requires t < |db.tasks|
  {
    var r := db.tasks[t];
    && now < DeadlineRow(db, r.goal) && HasRoom(WithChild(db, t, agent, evaluation), |db.tasks|) && depth <= 16
    && |SentSince(db, r.system, FromAgent(r.agent), now - 60000)| < 32
  }

  lemma SpawnExactly(db: Store, t: Id, agent: Id, evaluation: bool, cause: Option<Id>, now: int) returns (depth: nat)
    requires t < |db.tasks|
    ensures DepthIs(db, cause, depth)
    ensures var x := Spawn(db, t, agent, evaluation, FromAgent(db.tasks[t].agent), cause, now);
            && x.Some? == MaySpawn(db, t, agent, evaluation, depth, now)
            && (x.Some? ==> x.value == WithChild(db, t, agent, evaluation).(mails := db.mails + [ChildMail(db, t, |db.tasks|, agent, depth, now)]))
  {
    hide Emit, HasRoom, Refuses;
    var r := db.tasks[t];
    var child := AppendChild(db, t, agent, evaluation);
    depth := EmitExactly(child, |db.tasks|, Ready, FromAgent(r.agent), cause, now);
    assert SentSince(child, r.system, FromAgent(r.agent), now - 60000) == SentSince(db, r.system, FromAgent(r.agent), now - 60000);
    assert child == WithChild(db, t, agent, evaluation);
  }

  /** The recipient is another agent of the same goal, free and switched on, and the goal may have one more task. */
  predicate MayReceive(db: Store, t: Id, recipient: Id)
    requires t < |db.tasks|
  {
    var r := db.tasks[t];
    && recipient != r.agent && recipient < |db.agents| && db.agents[recipient] == Agent(r.system, Some(r.goal), On)
    && TasksByAgent(db, recipient) == {} && |TasksOfGoal(db, r.goal)| < 64
  }

  /** The child, its first call and its first delivery are there, and the caller waits with its call open. */
  predicate DelegatedRows(db: Store, db': Store, t: Id, tool: Id, recipient: Id, depth: nat, now: int)
    requires t < |db.tasks|
  {
    var r := db.tasks[t];
    var waiting := r.(phase := Waiting, waitingTool := Some(tool), conversation := r.conversation + [Assistant(Some(tool))]);
    db' == db.(tasks := db.tasks[t := waiting] + [ChildTask(db, t, recipient, false, |db.calls|)],
               calls := db.calls + [Call(|db.tasks|, Awaiting, 0, [User])],
               mails := db.mails + [ChildMail(db, t, |db.tasks|, recipient, depth, now)])
  }

  /** A delegation is accepted iff the recipient may receive it and a child may be spawned. */
  lemma DelegateExactly(db: Store, t: Id, m: Id, tool: Id, recipient: Id, now: int) returns (depth: nat)
    requires t < |db.tasks|
    ensures DepthIs(db, Some(m), depth)
    ensures var x := DelegateTask(db, t, m, tool, recipient, now);
            && x.Some? == (MayReceive(db, t, recipient) && MaySpawn(db, t, recipient, false, depth, now))
            && (x.Some? ==> DelegatedRows(db, x.value, t, tool, recipient, depth, now))
  {
    hide Spawn, HasRoom;
    var r := db.tasks[t];
    depth := SpawnExactly(db, t, recipient, false, Some(m), now);
    TaskCounts(db, r.system, r.goal, t, recipient);
    var child := [ChildTask(db, t, recipient, false, |db.calls|)];
    var r' := r.(phase := Waiting, waitingTool := Some(tool), conversation := r.conversation + [Assistant(Some(tool))]);
    assert (db.tasks + child)[t := r'] == db.tasks[t := r'] + child;
  }

  // ----- evaluation -----

  /** The store with so many evaluation cases spawned. */
  function WithCases(db: Store, t: Id, agent: Id, cases: nat, now: int): Store
    requires t < |db.tasks|
  {
    db.(tasks := db.tasks + seq(cases, i requires 0 <= i => ChildTask(db, t, agent, true, |db.calls| + i)),
        calls := db.calls + seq(cases, i requires 0 <= i => Call(|db.tasks| + i, Awaiting, 0, [User])),
        mails := db.mails + seq(cases, i requires 0 <= i => ChildMail(db, t, |db.tasks| + i, agent, 0, now)))
  }

  lemma CasesNext(db: Store, t: Id, agent: Id, cases: nat, now: int)
    requires t < |db.tasks|
    ensures var some := WithCases(db, t, agent, cases, now);
            WithChild(some, t, agent, true).(mails := some.mails + [ChildMail(some, t, |some.tasks|, agent, 0, now)])
            == WithCases(db, t, agent, cases + 1, now)
  {
    var some, more := WithCases(db, t, agent, cases, now), WithCases(db, t, agent, cases + 1, now);
    var next := WithChild(some, t, agent, true).(mails := some.mails + [ChildMail(some, t, |some.tasks|, agent, 0, now)]);
    assert some.tasks[t] == db.tasks[t];
    assert ChildTask(some, t, agent, true, |some.calls|) == ChildTask(db, t, agent, true, |db.calls| + cases);
    assert ChildMail(some, t, |some.tasks|, agent, 0, now) == ChildMail(db, t, |db.tasks| + cases, agent, 0, now);
    forall i | 0 <= i < |more.tasks| ensures next.tasks[i] == more.tasks[i] { if i < |db.tasks| { assert some.tasks[i] == db.tasks[i]; } }
    forall i | 0 <= i < |more.mails| ensures next.mails[i] == more.mails[i] { if i < |db.mails| { assert some.mails[i] == db.mails[i]; } }
    assert next.tasks == more.tasks && next.calls == more.calls && next.mails == more.mails;
  }

  lemma {:induction false} CasesExactly(db: Store, t: Id, agent: Id, cases: nat, now: int)
    requires t < |db.tasks|
    ensures var x := SpawnCases(db, t, agent, cases, FromAgent(db.tasks[t].agent), now);
            && x.Some? == (forall i :: 0 <= i < cases ==> MaySpawn(WithCases(db, t, agent, i, now), t, agent, true, 0, now))
            && (x.Some? ==> x.value == WithCases(db, t, agent, cases, now))
  {
    hide Spawn, MaySpawn;
    if cases == 0 {
      assert WithCases(db, t, agent, 0, now) == db;
    } else {
      CasesExactly(db, t, agent, cases - 1, now);
      var some := WithCases(db, t, agent, cases - 1, now);
      assert some.tasks[t] == db.tasks[t];
      var depth := SpawnExactly(some, t, agent, true, None, now);
      CasesNext(db, t, agent, cases - 1, now);
    }
  }

  /** The evaluator belongs to the goal, the goal may have that many more tasks, and each case may be spawned in its turn. */
  ghost predicate MayEvaluate(db: Store, t: Id, evaluator: Id, cases: nat, now: int)
    requires t < |db.tasks|
  {
    var r := db.tasks[t];
    && evaluator < |db.agents| && db.agents[evaluator].goal == Some(r.goal) && db.agents[evaluator].system == r.system
    && |TasksOfGoal(db, r.goal)| + cases <= 64
    && forall i :: 0 <= i < cases ==> MaySpawn(WithCases(db, t, evaluator, i, now), t, evaluator, true, 0, now)
  }

  /** The cases of an accepted evaluation report to nobody, and the caller waits for input with its call answered. */
  lemma EvaluateExactly(db: Store, t: Id, tool: Id, evaluator: Id, cases: nat, now: int)
    requires t < |db.tasks|
    ensures var x := EvaluateTool(db, t, tool, evaluator, cases, now);
            && x.Some? == MayEvaluate(db, t, evaluator, cases, now)
            && (x.Some? ==> x.value == AnsweredAtOnce(WithCases(db, t, evaluator, cases, now), t, tool))
  {
    hide SpawnCases, MaySpawn;
    TaskCounts(db, db.tasks[t].system, db.tasks[t].goal, t, evaluator);
    CasesExactly(db, t, evaluator, cases, now);
  }

  /** The caller waits for input, its call answered at once. */
  function AnsweredAtOnce(db: Store, t: Id, tool: Id): Store
    requires t < |db.tasks|
  {
    var r := db.tasks[t];
    db.(tasks := db.tasks[t := r.(phase := Waiting, waitingTool := None, conversation := r.conversation + [Assistant(Some(tool)), Reply(tool)])])
  }

  // ----- progress and retirement -----

  /** There is a parent, and it can be told. */
  predicate MayReport(db: Store, t: Id, depth: nat, now: int)
    requires t < |db.tasks|
  {
    var r := db.tasks[t];
    r.parent.Some? && r.parent.value < |db.tasks| &&
    var p := db.tasks[r.parent.value];
    HasRoom(db, r.parent.value) && depth <= 16 && now < DeadlineRow(db, p.goal) && |SentSince(db, p.system, FromAgent(r.agent), now - 60000)| < 32
  }

  predicate ReportedRows(db: Store, db': Store, t: Id, depth: nat, now: int)
    requires t < |db.tasks|
  {
    var r := db.tasks[t];
    r.parent.Some? && r.parent.value < |db.tasks| &&
    var p := db.tasks[r.parent.value];
    db' == db.(mails := db.mails + [Mail(p.system, p.goal, r.parent.value, p.agent, Progress, FromAgent(r.agent), depth, now,
                                         DeadlineRow(db, p.goal), Pending, 0, false, 0)])
  }

  /** Progress is told to the parent, if there is one and the event is accepted. */
  lemma ReportExactly(db: Store, t: Id, m: Id, now: int) returns (depth: nat)
    requires t < |db.tasks|
    ensures DepthIs(db, Some(m), depth)
    ensures var x := ReportProgress(db, t, m, now);
            x.Some? == MayReport(db, t, depth, now) && (x.Some? ==> ReportedRows(db, x.value, t, depth, now))
  {
    hide Emit, HasRoom;
    depth := if m < |db.mails| then db.mails[m].depth + 1 else 0;
    if db.tasks[t].parent.Some? && db.tasks[t].parent.value < |db.tasks| {
      var d := EmitExactly(db, db.tasks[t].parent.value, Progress, FromAgent(db.tasks[t].agent), Some(m), now);
    }
  }

  /** The retired agents are switched off one after the other, and each one's tasks are stopped before the next is. */
  ghost predicate Retires(db: Store, agents: seq<Id>, lists: seq<seq<Id>>, source: Source, now: int, stores: seq<Store>) {
    && |lists| == |agents| && |stores| == |agents| + 1 && stores[0] == db
    && (forall i :: 0 <= i < |agents| ==>
          stores[i + 1] == StopTasks(if agents[i] < |stores[i].agents|
                                     then stores[i].(agents := stores[i].agents[agents[i] := stores[i].agents[agents[i]].(state := Off)])
                                     else stores[i], lists[i], source, now))
  }

  lemma {:induction false} RetireExactly(db: Store, agents: seq<Id>, lists: seq<seq<Id>>, source: Source, now: int) returns (stores: seq<Store>)
    requires |lists| == |agents|
    ensures Retires(db, agents, lists, source, now, stores) && stores[|agents|] == RetireAll(db, agents, lists, source, now)
  {
    hide StopTasks;
    if agents == [] {
      stores := [db];
    } else {
      var n := |agents| - 1;
      var some := RetireExactly(db, agents[..n], lists[..n], source, now);
      stores := some + [RetireAll(db, agents, lists, source, now)];
      forall i | 0 <= i < |agents|
        ensures stores[i + 1] == StopTasks(if agents[i] < |stores[i].agents|
                                           then stores[i].(agents := stores[i].agents[agents[i] := stores[i].agents[agents[i]].(state := Off)])
                                           else stores[i], lists[i], source, now)
      {
        if i < n { assert agents[..n][i] == agents[i] && lists[..n][i] == lists[i]; }
      }
    }
  }

  // ----- the invocation -----

  /** Whether the tool's handler accepts the invocation. */
  ghost predicate Accepts(db: Store, t: Id, m: Id, kind: Tool, depth: nat, now: int)
    requires t < |db.tasks|
  {
    match kind
    case Delegate(recipient, denied) => !denied && MayReceive(db, t, recipient) && MaySpawn(db, t, recipient, false, depth, now)
    case Evaluate(evaluator, cases, denied) => !denied && MayEvaluate(db, t, evaluator, cases, now)
    case Report => MayReport(db, t, depth, now)
    case Retire(agents, lists) => |lists| == |agents|
    case _ => true
  }

  /** What an accepted invocation writes beside its receipt. */
  ghost predicate Effect(db: Store, db': Store, t: Id, tool: Id, kind: Tool, depth: nat, now: int)
    requires t < |db.tasks|
  {
    match kind
    case Delegate(recipient, _) => DelegatedRows(db, db', t, tool, recipient, depth, now)
    case Evaluate(evaluator, cases, _) => db' == AnsweredAtOnce(WithCases(db, t, evaluator, cases, now), t, tool)
    case WaitForInput => db' == AnsweredAtOnce(db, t, tool)
    case Report => ReportedRows(db, db', t, depth, now)
    case Retire(agents, lists) =>
      exists stores :: Retires(db, agents, lists, FromAgent(db.tasks[t].agent), now, stores) && stores[|agents|] == db'
    case Dispatched => db' == db
    case Plain => db' == db
  }

  lemma HandleExactly(db: Store, t: Id, m: Id, tool: Id, kind: Tool, now: int) returns (depth: nat)
    requires t < |db.tasks|
    ensures DepthIs(db, Some(m), depth)
    ensures var x := Handle(db, t, m, tool, kind, now);
            x.Some? == Accepts(db, t, m, kind, depth, now) && (x.Some? ==> Effect(db, x.value, t, tool, kind, depth, now))
  {
    hide DelegateTask, EvaluateTool, ReportProgress, RetireAll, MayReceive, MaySpawn, MayEvaluate, MayReport, DelegatedRows, ReportedRows;
    depth := if m < |db.mails| then db.mails[m].depth + 1 else 0;
    match kind
    case Delegate(recipient, denied) => var d := DelegateExactly(db, t, m, tool, recipient, now);
    case Evaluate(evaluator, cases, denied) => EvaluateExactly(db, t, tool, evaluator, cases, now);
    case WaitForInput =>
    case Report => var d := ReportExactly(db, t, m, now);
    case Retire(agents, lists) =>
      if |lists| == |agents| { var stores := RetireExactly(db, agents, lists, FromAgent(db.tasks[t].agent), now); }
    case Dispatched =>
    case Plain =>
  }

  /** An invocation has an effect iff its worker may act, the call has no receipt yet and the handler accepts; then the
      receipt is there: running for a dispatched tool, completed for any other. Otherwise nothing changes. */
  lemma InvokeExactly(r: Daemon, a: Id, kind: Tool, now: int) returns (depth: nat)
    ensures a in r.active ==> DepthIs(r.db, Some(r.active[a].mail), depth)
    ensures var r' := PrepareTool(r, a, kind, now);
            if !MayAct(r, a) || r.active[a].call in r.db.receipts then r' == r
            else
              var s, tool := r.active[a], r.db.calls[r.active[a].call].state.tool.value;
              var begun := r.db.(receipts := r.db.receipts[s.call := Begun]);
              if !Accepts(begun, s.task, s.mail, kind, depth, now) then r' == r
              else
                var receipt := if kind.Dispatched? then Begun else Finished;
                && r' == r.(db := r'.db, plans := if kind.Dispatched? then r.plans + {s.call} else r.plans)
                && exists done: Store :: Effect(begun, done, s.task, tool, kind, depth, now)
                     && r'.db == done.(receipts := done.receipts[s.call := receipt])
  {
    hide Handle, Accepts, Effect;
    depth := 0;
    assert MayInvoke(r, a) == MayAct(r, a);
    if a in r.active {
      depth := if r.active[a].mail < |r.db.mails| then r.db.mails[r.active[a].mail].depth + 1 else 0;
      if MayAct(r, a) {
        var s := r.active[a];
        var begun := r.db.(receipts := r.db.receipts[s.call := Begun]);
        var tool := r.db.calls[s.call].state.tool.value;
        var d := HandleExactly(begun, s.task, s.mail, tool, kind, now);
        if s.call !in r.db.receipts && Accepts(begun, s.task, s.mail, kind, depth, now) {
          var done := Handle(begun, s.task, s.mail, tool, kind, now).value;
          assert Effect(begun, done, s.task, tool, kind, depth, now);
          if kind.Dispatched? { DispatchRows(begun, done, s.task, tool, depth, now, s.call); }
        }
      }
    }
  }

  lemma DispatchRows(begun: Store, done: Store, t: Id, tool: Id, depth: nat, now: int, c: Id)
    requires t < |begun.tasks| && Effect(begun, done, t, tool, Dispatched, depth, now) && c in begun.receipts && begun.receipts[c] == Begun
    ensures done.(receipts := done.receipts[c := Begun]) == done
  {
    assert begun.receipts[c := Begun] == begun.receipts;
  }

  /** The outcome of a dispatched tool is recorded once, as completed if it is known and as unknown otherwise. */
  lemma CompleteExactly(r: Daemon, c: Id, known: bool)
    ensures var r' := CompleteTool(r, c, known);
            if c in r.plans then r' == r.(db := r.db.(receipts := r.db.receipts[c := if known then Finished else Uncertain]), plans := r.plans - {c})
            else r' == r
  {
  }
}
