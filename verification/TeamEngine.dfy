/** The delivery protocol as it runs: tables rewritten in place, rows visited in loops. Every method is
    proved to compute the transaction of the model. */
module TeamEngine {
  import opened Common
  import opened Sums
  import opened Team
  import opened Mailbox
  import opened TeamSteps

  /** An aggregate over a table, as one pass. */
  method Total<T>(rows: seq<T>, w: T -> int) returns (n: int)
    ensures n == Sum(rows, w)
  {
    n := 0;
    for i := 0 to |rows|
      invariant n == Sum(rows[..i], w)
    {
      assert rows[..i + 1] == rows[..i] + [rows[i]];
      SumAppend(rows[..i], rows[i], w);
      n := n + w(rows[i]);
    }
    assert rows[..|rows|] == rows;
  }

  lemma SweepFrom(db: Store, systems: seq<System>, i: nat)
    requires i < |db.systems| == |systems|
    ensures HasLease(db.(systems := systems), i) == HasLease(db, i)
  {
  }

  class Engine {
    var systems: seq<System>
    var goals: seq<Goal>
    var agents: seq<Agent>
    var tasks: seq<Task>
    var calls: seq<Call>
    var receipts: map<Id, Receipt>
    var mails: seq<Mail>
    var active: map<Id, Activation>
    var plans: set<Id>
    var down: bool

    function View(): Store
      reads this
    {
      Store(systems, goals, agents, tasks, calls, receipts, mails)
    }

    constructor ()
      ensures View() == EMPTY && active == map[] && plans == {} && !down
    {
      systems, goals, agents, tasks, calls, mails := [], [], [], [], [], [];
      receipts, active, plans, down := map[], map[], {}, false;
    }

    method CauseDepth(cause: Option<Id>) returns (depth: nat)
      ensures depth == Depth(View(), cause)
    {
      depth := 0;
      if cause.Some? && cause.value < |mails| {
        depth := mails[cause.value].depth + 1;
      }
    }

    /** Counts everything an event could exhaust, then records the event and its delivery, or refuses it. */
    method EmitEvent(t: Id, kind: Kind, source: Source, cause: Option<Id>, now: int) returns (accepted: bool)
      requires t < |tasks|
      modifies this`mails
      ensures accepted <==> Emit(old(View()), t, kind, source, cause, now).Some?
      ensures View() == if accepted then Emit(old(View()), t, kind, source, cause, now).value else old(View())
    {
      var r := tasks[t];
      var depth := CauseDepth(cause);
      var total := Total(mails, MailInSystem(r.system));
      var goalCount := Total(mails, MailInGoal(r.goal));
      var pending := Total(mails, OpenForAgent(r.agent));
      var reserved := Total(tasks, LiveInSystem(r.system));
      var goalReserved := Total(tasks, LiveInGoal(r.goal));
      var recipientReserved := Total(tasks, LiveChildOf(t));
      var sourceRate := Total(mails, SentBy(r.system, source, now - MINUTE_MS));
      if total + reserved >= MAX_SYSTEM_EVENTS || goalCount + goalReserved >= MAX_GOAL_EVENTS
         || pending + recipientReserved >= MAX_RECIPIENT_QUEUE || depth > MAX_EVENT_DEPTH
         || (source.FromAgent? && sourceRate >= MAX_SOURCE_RATE)
      {
        return false;
      }
      var deadline := DeadlineOf(View(), r.goal);
      if deadline <= now && !kind.Result? {
        return false;
      }
      mails := mails + [Mail(r.system, r.goal, t, r.agent, kind, source, depth, now, deadline, Pending, 0, false, 0)];
      return true;
    }

    /** Closes the undispatched calls of a task. */
    method CloseTaskCalls(t: Id, outcome: Outcome)
      modifies this`calls
      ensures calls == CloseCalls(old(calls), t, outcome)
    {
      ghost var was := calls;
      for i := 0 to |calls|
        invariant |calls| == |was|
        invariant forall k :: 0 <= k < |calls| ==> calls[k] == if k < i then CloseCall(was[k], t, outcome) else was[k]
      {
        if calls[i].task == t && (calls[i].state == Awaiting || calls[i].state == InQueue) {
          calls := calls[i := calls[i].(state := CallState.Closed(outcome))];
        }
      }
    }

    /** Drops the pending deliveries of a task. */
    method DropTaskMails(t: Id)
      modifies this`mails
      ensures mails == DropMails(old(mails), t)
    {
      ghost var was := mails;
      for i := 0 to |mails|
        invariant |mails| == |was|
        invariant forall k :: 0 <= k < |mails| ==> mails[k] == if k < i then DropMail(was[k], t) else was[k]
      {
        if mails[i].task == t && mails[i].state == Pending {
          mails := mails[i := mails[i].(state := Dead)];
        }
      }
    }

    method AnyLease(s: Id) returns (leased: bool)
      ensures leased == HasLease(View(), s)
    {
      leased := false;
      for i := 0 to |mails|
        invariant leased <==> exists m :: 0 <= m < i && mails[m].system == s && mails[m].state == Leased
      {
        if mails[i].system == s && mails[i].state == Leased { leased := true; }
      }
    }

    method SetSystemState(s: Id, state: SystemState)
      modifies this`systems
      ensures View() == SetSystem(old(View()), s, state)
    {
      if s < |systems| {
        systems := systems[s := systems[s].(state := state)];
      }
    }

    /** A root's end: goal, system and the goal's agents. */
    method CloseRoot(s: Id, g: Id)
      modifies this`systems, this`goals, this`agents
      ensures View() == CloseGoal(old(View()), s, g)
    {
      ghost var db := View();
      var leased := AnyLease(s);
      SetSystemState(s, if Halting(StateOf(View(), s)) then (if leased then Stopping else Stopped) else Inactive);
      if g < |goals| {
        goals := goals[g := goals[g].(closed := true)];
      }
      ghost var was := agents;
      for i := 0 to |agents|
        invariant |agents| == |was| && View() == CloseGoal(db, s, g).(agents := agents)
        invariant forall k :: 0 <= k < |agents| ==> agents[k] == if k < i && was[k].goal == Some(g) then was[k].(state := Off) else was[k]
      {
        if agents[i].goal == Some(g) {
          agents := agents[i := agents[i].(state := Off)];
        }
      }
    }

    /** Ends a task and reports to its parent; a refused report ends the parent too. */
    method TerminateTask(t: Id, outcome: Outcome, source: Source, cause: Option<Id>, now: int)
      modifies this`systems, this`goals, this`agents, this`tasks, this`calls, this`mails
      ensures View() == Terminate(old(View()), t, outcome, source, cause, now)
      decreases t
    {
      hide Refuses, CloseGoal, CloseCalls, DropMails, Depth;
      if t >= |tasks| || !Live(tasks[t]) {
        return;
      }
      ghost var db := View();
      var r := tasks[t];
      tasks := tasks[t := r.(phase := Done(outcome))];
      CloseTaskCalls(t, outcome);
      DropTaskMails(t);
      assert View() == MarkDone(db, t, outcome);
      if r.evaluation {
        return;
      }
      if r.parent.None? {
        CloseRoot(r.system, r.goal);
        return;
      }
      var p := r.parent.value;
      if p < t && Live(tasks[p]) && !tasks[p].stopped {
        var told := EmitEvent(p, Result(t), source, cause, now);
        if !told {
          TerminateTask(p, Rejected, Runtime, cause, now);
        }
      }
    }

    /** Takes every pending input of the task into its conversation. */
    method TakeTaskInputs(t: Id, conversation: seq<Message>, exclude: Option<Id>)
      requires t < |tasks|
      modifies this`tasks, this`mails
      ensures View() == ConsumeInputs(old(View()), t, conversation, exclude)
    {
      ghost var was, db := mails, View();
      var grown := conversation;
      for i := 0 to |mails|
        invariant |mails| == |was| && View() == db.(mails := mails)
        invariant grown == conversation + Users(InputsBelow(was, t, exclude, i))
        invariant forall k :: 0 <= k < |mails| ==> mails[k] == if k < i then TakeInput(was[k], k, t, exclude) else was[k]
      {
        if IsInput(mails[i], t) && exclude != Some(i) {
          grown := grown + [User];
          mails := mails[i := mails[i].(state := Acked, applied := true)];
        }
      }
      assert was[..|was|] == was;
      tasks := tasks[t := tasks[t].(conversation := grown)];
    }

    /** Marks every selected task, then halts them one after the other. */
    method StopSelected(ids: seq<Id>, source: Source, now: int)
      modifies this`systems, this`goals, this`agents, this`tasks, this`calls, this`mails
      ensures View() == StopTasks(old(View()), ids, source, now)
    {
      hide Terminate;
      ghost var db := View();
      for i := 0 to |ids|
        invariant View() == MarkAll(db, ids[..i])
      {
        assert ids[..i + 1][..i] == ids[..i];
        if ids[i] < |tasks| {
          tasks := tasks[ids[i] := tasks[ids[i]].(stopped := true)];
        }
      }
      assert ids[..|ids|] == ids;
      ghost var marked := View();
      for i := 0 to |ids|
        invariant View() == HaltAll(marked, ids[..i], source, now)
      {
        assert ids[..i + 1][..i] == ids[..i];
        HaltSelected(ids[i], source, now);
      }
    }

    method LeasedFor(t: Id) returns (leased: bool)
      ensures leased == TaskLeased(View(), t)
    {
      leased := false;
      for i := 0 to |mails|
        invariant leased <==> exists m :: 0 <= m < i && mails[m].task == t && mails[m].state == Leased
      {
        if mails[i].task == t && mails[i].state == Leased { leased := true; }
      }
    }

    method HaltSelected(t: Id, source: Source, now: int)
      modifies this`systems, this`goals, this`agents, this`tasks, this`calls, this`mails
      ensures View() == HaltTask(old(View()), t, source, now)
    {
      if t < |tasks| {
        if tasks[t].parent.None? {
          SetSystemState(tasks[t].system, Stopping);
        }
        var leased := LeasedFor(t);
        if !leased {
          TerminateTask(t, Canceled, source, None, now);
        }
      }
    }

    /** Systems that were stopping and hold no lease any more are stopped. */
    method SweepStopping()
      modifies this`systems
      ensures View() == SweepSystems(old(View()))
    {
      ghost var db := View();
      for i := 0 to |systems|
        invariant |systems| == |db.systems| && View() == db.(systems := systems)
        invariant forall k :: 0 <= k < |systems| ==> systems[k] == if k < i then SweepSystems(db).systems[k] else db.systems[k]
      {
        SweepFrom(db, systems, i);
        var leased := AnyLease(i);
        if systems[i].state == Stopping && !leased {
          systems := systems[i := systems[i].(state := Stopped)];
        }
      }
    }

    /** Inputs, then a turn; a refusal ends the task. */
    method ResumeTask(t: Id, m: Id, conversation: seq<Message>, exclude: Option<Id>, d: Doubt, now: int) returns (go: bool)
      requires t < |tasks|
      modifies this`systems, this`goals, this`agents, this`tasks, this`calls, this`mails
      ensures (if go then Go(View()) else Progression.Halt(View())) == Resume(old(View()), t, m, conversation, exclude, d, now)
    {
      hide Terminate, MayTurn;
      if d.inputs {
        TerminateTask(t, Rejected, Runtime, Some(m), now);
        return false;
      }
      TakeTaskInputs(t, conversation, exclude);
      if !MayTurn(View(), t, d, now) {
        TerminateTask(t, Rejected, Runtime, Some(m), now);
        return false;
      }
      NextTurn(t, tasks[t].conversation);
      return true;
    }

    method NextTurn(t: Id, conversation: seq<Message>)
      requires t < |tasks|
      modifies this`tasks, this`calls
      ensures View() == TakeTurn(old(View()), t, conversation)
    {
      var r := tasks[t];
      tasks := tasks[t := r.(call := |calls|, turns := r.turns + 1, phase := Queued, conversation := conversation, waitingTool := None)];
      calls := calls + [Call(t, Awaiting, 0, conversation)];
    }

    // ----- claim -----

    /** A waiting task resumes with its inputs or with its child's reply. */
    method ApplyDelivery(t: Id, m: Id, d: Doubt, now: int) returns (go: bool)
      requires t < |tasks| && m < |mails|
      modifies this`systems, this`goals, this`agents, this`tasks, this`calls, this`mails
      ensures (if go then Go(View()) else Progression.Halt(View())) == ApplyMail(old(View()), t, m, d, now)
    {
      hide Terminate, MayTurn, Resume;
      var v := mails[m];
      if tasks[t].phase == Waiting && tasks[t].waitingTool.None? {
        var woken := ResumeTask(t, m, tasks[t].conversation, None, d, now);
        if !woken {
          return false;
        }
      }
      if !v.kind.Result? || v.applied || t >= |tasks| {
        return true;
      }
      var child, r := v.kind.child, tasks[t];
      if r.waitingTool.None? || child >= |tasks| || tasks[child].parent != Some(t) || tasks[child].goal != r.goal || Live(tasks[child]) {
        if m < |mails| {
          mails := mails[m := mails[m].(state := Dead)];
        }
        return false;
      }
      go := ResumeTask(t, m, r.conversation + [Reply(r.waitingTool.value)], Some(m), d, now);
    }

    method RefreshRequest(t: Id, m: Id, d: Doubt, now: int) returns (go: bool)
      requires t < |tasks|
      modifies this`systems, this`goals, this`agents, this`tasks, this`calls, this`mails
      ensures (if go then Go(View()) else Progression.Halt(View())) == Refresh(old(View()), t, m, d, now)
    {
      hide Terminate;
      var c := tasks[t].call;
      if c < |calls| && calls[c].state == Awaiting && calls[c].attempts == 0 {
        if d.inputs {
          TerminateTask(t, Rejected, Runtime, Some(m), now);
          return false;
        }
        TakeTaskInputs(t, tasks[t].conversation, None);
        if d.request {
          TerminateTask(t, Rejected, Runtime, Some(m), now);
          return false;
        }
        calls := calls[c := calls[c].(request := tasks[t].conversation)];
      }
      return true;
    }

    method DeliverMail(t: Id, m: Id, d: Doubt, now: int) returns (leased: bool)
      requires t < |tasks| && m < |mails|
      modifies this`systems, this`goals, this`agents, this`tasks, this`calls, this`mails
      ensures (if leased then Leasing(View()) else Passed(View())) == Deliver(old(View()), t, m, d, now)
    {
      hide Terminate, ApplyMail, Refresh;
      var applied := ApplyDelivery(t, m, d, now);
      if !applied || t >= |tasks| {
        return false;
      }
      if d.blocked {
        TerminateTask(t, Rejected, Runtime, Some(m), now);
        return false;
      }
      var asked := RefreshRequest(t, m, d, now);
      if !asked || t >= |tasks| || m >= |mails| {
        return false;
      }
      tasks := tasks[t := tasks[t].(phase := Running)];
      mails := mails[m := mails[m].(state := Leased, attempts := mails[m].attempts + 1, applied := true)];
      return true;
    }

    /** One candidate of a claim. */
    method ConsiderMail(m: Id, d: Doubt, now: int) returns (leased: bool)
      requires m < |mails| && mails[m].task < |tasks|
      modifies this`systems, this`goals, this`agents, this`tasks, this`calls, this`mails
      ensures (if leased then Leasing(View()) else Passed(View())) == Consider(old(View()), active, m, d, now)
    {
      hide Terminate, Deliver;
      var v, t := mails[m], mails[m].task;
      var r := tasks[t];
      if r.agent in active {
        return false;
      }
      if !Live(r) || StoppedFor(View(), t) || Overdue(v, now) || v.attempts >= MAX_DELIVERIES {
        var outcome := if StoppedFor(View(), t) then Canceled else Failed;
        mails := mails[m := v.(state := Dead)];
        TerminateTask(t, outcome, Runtime, Some(m), now);
        return false;
      }
      if StateOf(View(), r.system) != SystemState.Active || SwitchOf(View(), r.agent) != On || ControlOf(View(), r.goal) != On {
        return false;
      }
      var busy := CountActive(r.system);
      if busy >= MaxActive(View(), r.system) {
        return false;
      }
      if v.kind == Progress {
        mails := mails[m := v.(state := Acked, applied := true)];
        return false;
      }
      if r.phase == Waiting && r.waitingTool.Some? && !v.kind.Result? {
        return false;
      }
      leased := DeliverMail(t, m, d, now);
    }

    /** The live activations of a system. */
    method CountActive(s: Id) returns (n: nat)
      ensures n == |ActiveIn(active, s)|
    {
      n := 0;
      var rest := active.Keys;
      ghost var counted: set<Id> := {};
      while rest != {}
        invariant rest <= active.Keys && counted == ActiveIn(active, s) - rest && n == |counted|
        decreases |rest|
      {
        var a :| a in rest;
        rest := rest - {a};
        if active[a].system == s {
          n := n + 1;
          counted := counted + {a};
        }
      }
      assert ActiveIn(active, s) - {} == ActiveIn(active, s);
    }

    function Whole(): Daemon
      reads this
    {
      Daemon(View(), active, plans, down)
    }

    /** The scheduler's claim: the candidates in order, up to the first one leased. */
    method ClaimNext(ids: seq<Id>, doubts: Id -> Doubt, now: int) returns (found: bool)
      modifies this
      ensures Whole() == Claim(old(Whole()), ids, doubts, now)
    {
      hide Consider, SweepSystems;
      found := false;
      if down || |active| >= MAX_ACTIVATIONS {
        return;
      }
      ghost var start := Whole();
      var k := 0;
      while k < |ids| && !found
        invariant 0 <= k <= |ids|
        invariant if found then Whole() == ClaimFrom(start, ids, doubts, now)
                  else ClaimFrom(Whole(), ids[k..], doubts, now) == ClaimFrom(start, ids, doubts, now)
        decreases |ids| - k, !found
      {
        var m := ids[k];
        assert ids[k..][0] == m && ids[k..][1..] == ids[k + 1..];
        k := k + 1;
        if m < |mails| && mails[m].task < |tasks| {
          ghost var before := Whole();
          found := ConsiderMail(m, doubts(m), now);
          if found && m < |mails| && mails[m].task < |tasks| {
            var v := mails[m];
            active := active[v.agent := Activation(v.system, m, v.task, tasks[v.task].call)];
          }
        }
      }
      SweepStopping();
    }

    // ----- finish -----

    method EndWorker(t: Id, m: Id, outcome: Outcome, stopping: bool, now: int)
      requires t < |tasks|
      modifies this`systems, this`goals, this`agents, this`tasks, this`calls, this`mails
      ensures View() == EndTask(old(View()), t, m, outcome, stopping, now)
    {
      hide Terminate, SweepSystems;
      var r := tasks[t];
      TerminateTask(t, outcome, FromAgent(r.agent), Some(m), now);
      if stopping && r.parent.None? {
        var leased := AnyLease(r.system);
        SetSystemState(r.system, if leased then Stopping else Stopped);
      }
      SweepStopping();
    }

    method ContinueWorker(t: Id, m: Id, conversation: seq<Message>, f: Finish, now: int)
      requires t < |tasks|
      modifies this`systems, this`goals, this`agents, this`tasks, this`calls, this`mails
      ensures View() == ContinueTask(old(View()), t, m, conversation, f, now)
    {
      hide Terminate, EndTask, MayTurn;
      var source := FromAgent(tasks[t].agent);
      if !MayTurn(View(), t, f.doubt, now) {
        EndWorker(t, m, Rejected, false, now);
        return;
      }
      NextTurn(t, conversation);
      var pending := Total(mails, PendingFor(t));
      if pending > 0 {
        return;
      }
      var told := EmitEvent(t, Continue, source, Some(m), now);
      if !told {
        TerminateTask(t, Rejected, Runtime, Some(m), now);
      }
    }

    /** The end of a successful activation. A missing receipt or an overlong conversation fails the
        transaction; the caller restores the tables. */
    method FinishAnswer(s: Activation, f: Finish, now: int) returns (ok: bool)
      requires s.task < |tasks| && s.call < |calls| && calls[s.call].state.Answered?
      modifies this`systems, this`goals, this`agents, this`tasks, this`calls, this`mails
      ensures ok <==> FinishAnswered(old(View()), s, f, now).Some?
      ensures ok ==> View() == FinishAnswered(old(View()), s, f, now).value
    {
      hide ContinueTask, EndTask;
      var t := tasks[s.task];
      if calls[s.call].state.tool.Some? {
        var tool := calls[s.call].state.tool.value;
        if ReceiptOf(View(), s.call) != Some(Finished) {
          return false;
        }
        if t.phase != Waiting {
          ContinueWorker(s.task, s.mail, t.conversation + [Assistant(Some(tool)), Reply(tool)], f, now);
        }
        return true;
      }
      var inputs := Total(mails, InputsFor(s.task));
      if inputs > 0 {
        ContinueWorker(s.task, s.mail, t.conversation + [Assistant(None)], f, now);
        return true;
      }
      if f.triggers {
        if f.overflow {
          return false;
        }
        tasks := tasks[s.task := t.(phase := Waiting, waitingTool := None, conversation := t.conversation + [Assistant(None)])];
        return true;
      }
      EndWorker(s.task, s.mail, Completed, false, now);
      return true;
    }

    method FinishSession(s: Activation, f: Finish, now: int) returns (ok: bool)
      requires s.task < |tasks| && s.call < |calls| && s.mail < |mails|
      modifies this`systems, this`goals, this`agents, this`tasks, this`calls, this`mails
      ensures ok <==> FinishDelivery(old(View()), s, f, down, now).Some?
      ensures ok ==> View() == FinishDelivery(old(View()), s, f, down, now).value
    {
      hide SweepSystems, FinishAnswered, EndTask;
      var t, c, v := tasks[s.task], calls[s.call], mails[s.mail];
      var stopping := StopsWith(View(), s.task, f.canceled);
      if t.call != s.call || !Live(t) {
        if v.state == Leased {
          mails := mails[s.mail := v.(state := Dead)];
        }
        SweepStopping();
        return true;
      }
      if HandsBack(View(), s, down) {
        tasks := tasks[s.task := t.(phase := if t.phase == Waiting then Waiting else Queued)];
        mails := mails[s.mail := v.(state := Pending)];
        return true;
      }
      if f.workerFailed && !stopping && Undispatched(c) && v.attempts < MAX_DELIVERIES {
        calls := calls[s.call := c.(state := Awaiting)];
        tasks := tasks[s.task := t.(phase := Queued)];
        mails := mails[s.mail := v.(state := Pending, notBefore := now + RetryDelay(v.attempts))];
        return true;
      }
      mails := mails[s.mail := v.(state := if f.workerFailed then Dead else Acked)];
      if !f.workerFailed && c.state.Answered? && !stopping {
        ok := FinishAnswer(s, f, now);
        return;
      }
      EndWorker(s.task, s.mail, FinishOutcome(c, stopping), stopping, now);
      return true;
    }

    /** An activation ends; if its last transaction fails the tables stay as they were. */
    method FinishActivation(a: Id, f: Finish, now: int)
      modifies this
      ensures Whole() == FinishStep(old(Whole()), a, f, now)
    {
      hide FinishDelivery;
      if a !in active {
        return;
      }
      var s := active[a];
      var saved := View();
      if s.task < |tasks| && s.call < |calls| && s.mail < |mails| {
        var ok := FinishSession(s, f, now);
        if !ok {
          systems, goals, agents, tasks, calls, receipts, mails :=
            saved.systems, saved.goals, saved.agents, saved.tasks, saved.calls, saved.receipts, saved.mails;
        }
      }
      active := active - {a};
    }

    // ----- tools -----

    /** A receipt is written before a dispatched tool runs, and replayed ever after. */
    method DispatchTool(a: Id, now: int) returns (dispatch: bool)
      modifies this`receipts, this`plans
      ensures Whole() == PrepareTool(old(Whole()), a, Dispatched, now)
      ensures dispatch <==> MayInvoke(old(Whole()), a) && active[a].call !in old(receipts)
    {
      dispatch := false;
      if MayInvoke(Whole(), a) && active[a].call !in receipts {
        receipts := receipts[active[a].call := Begun];
        plans := plans + {active[a].call};
        dispatch := true;
      }
    }

    /** The outcome of a dispatched tool replaces its receipt. */
    method RecordOutcome(c: Id, known: bool)
      modifies this`receipts, this`plans
      ensures Whole() == CompleteTool(old(Whole()), c, known)
    {
      if c in plans {
        receipts := receipts[c := if known then Finished else Uncertain];
        plans := plans - {c};
      }
    }

    /** A child task with its first call and first delivery; a refusal leaves the tables for the caller to restore. */
    method SpawnChild(p: Id, agent: Id, evaluation: bool, source: Source, cause: Option<Id>, now: int) returns (ok: bool)
      requires p < |tasks|
      modifies this`tasks, this`calls, this`mails
      ensures ok <==> Spawn(old(View()), p, agent, evaluation, source, cause, now).Some?
      ensures ok ==> View() == Spawn(old(View()), p, agent, evaluation, source, cause, now).value
    {
      hide Refuses;
      var r := tasks[p];
      if now >= DeadlineOf(View(), r.goal) {
        return false;
      }
      var child := |tasks|;
      tasks := tasks + [Task(r.system, r.goal, agent, Some(p), evaluation, Queued, false, [User], 1, |calls|, None)];
      calls := calls + [Call(child, Awaiting, 0, [User])];
      ok := EmitEvent(child, Ready, source, cause, now);
    }

    /** Delegation: the child is created and the caller suspended in one transaction, or nothing happens. */
    method DelegateWork(t: Id, m: Id, tool: Id, recipient: Id, now: int) returns (ok: bool)
      requires t < |tasks|
      modifies this`tasks, this`calls, this`mails
      ensures ok <==> DelegateTask(old(View()), t, m, tool, recipient, now).Some?
      ensures View() == if ok then DelegateTask(old(View()), t, m, tool, recipient, now).value else old(View())
    {
      hide Refuses, Spawn;
      var r := tasks[t];
      if recipient == r.agent || recipient >= |agents| || agents[recipient].goal != Some(r.goal)
         || agents[recipient].system != r.system || agents[recipient].state != On {
        return false;
      }
      var occupied := Total(tasks, LiveByAgent(recipient));
      var count := Total(tasks, TaskOfGoal(r.goal));
      if occupied != 0 || count >= MAX_GOAL_TASKS {
        return false;
      }
      var savedTasks, savedCalls, savedMails := tasks, calls, mails;
      SpawnedTask(View(), t, recipient, false, FromAgent(r.agent), Some(m), now);
      var spawned := SpawnChild(t, recipient, false, FromAgent(r.agent), Some(m), now);
      if !spawned {
        tasks, calls, mails := savedTasks, savedCalls, savedMails;
        return false;
      }
      var s := tasks[t];
      tasks := tasks[t := s.(phase := Waiting, waitingTool := Some(tool), conversation := s.conversation + [Assistant(Some(tool))])];
      return true;
    }

    // ----- restart -----

    method AbandonCalls()
      modifies this`calls, this`receipts
      ensures View() == old(View()).(calls := Abandon(old(View())).calls, receipts := AbandonReceipts(old(receipts)))
    {
      ghost var db := View();
      for i := 0 to |calls|
        invariant |calls| == |db.calls| && View() == db.(calls := calls)
        invariant forall k :: 0 <= k < |calls| ==> calls[k] == if k < i then Abandon(db).calls[k] else db.calls[k]
      {
        if calls[i].state == OnWire {
          calls := calls[i := calls[i].(state := Lost)];
        }
      }
      var open := receipts.Keys;
      while open != {}
        invariant open <= db.receipts.Keys && receipts.Keys == db.receipts.Keys && calls == Abandon(db).calls
        invariant forall c :: c in receipts ==> receipts[c] == if c in open then db.receipts[c] else AbandonReceipts(db.receipts)[c]
        decreases |open|
      {
        var c :| c in open;
        open := open - {c};
        if receipts[c] == Begun {
          receipts := receipts[c := Uncertain];
        }
      }
      assert receipts == AbandonReceipts(db.receipts);
    }

    method AbandonWork()
      modifies this`calls, this`receipts, this`mails, this`tasks
      ensures View() == Abandon(old(View()))
    {
      ghost var db := View();
      AbandonCalls();
      ghost var base := View();
      SettledStays(db, base);
      for i := 0 to |mails|
        invariant |mails| == |db.mails| && View() == base.(mails := mails)
        invariant forall k :: 0 <= k < |mails| ==> mails[k] == if k < i then ReturnMail(db, db.mails[k]) else db.mails[k]
      {
        var v := mails[i];
        if v.state == Leased {
          v := v.(state := Pending);
        }
        if v.state == Pending && v.applied && Settled(View(), v.task) {
          v := v.(state := Acked);
        }
        assert Settled(View(), v.task) == Settled(base, v.task);
        mails := mails[i := v];
      }
      assert mails == Abandon(db).mails;
      ghost var returned := View();
      for i := 0 to |tasks|
        invariant |tasks| == |db.tasks| && View() == returned.(tasks := tasks)
        invariant forall k :: 0 <= k < |tasks| ==> tasks[k] == if k < i then Abandon(db).tasks[k] else db.tasks[k]
      {
        if tasks[i].phase == Running {
          tasks := tasks[i := tasks[i].(phase := Queued)];
        }
      }
      assert tasks == Abandon(db).tasks;
    }

    /** The first transaction of every start. */
    method RecoverExecutions(ids: seq<Id>, now: int)
      modifies this
      ensures Whole() == Daemon(Recover(old(View()), ids, now), map[], {}, false)
    {
      hide Abandon, Terminate, HasWork;
      active, plans, down := map[], {}, false;
      AbandonWork();
      ghost var base := View();
      for i := 0 to |ids|
        invariant View() == FailAll(base, ids[..i], now) && active == map[] && plans == {} && !down
      {
        assert ids[..i + 1][..i] == ids[..i];
        if ids[i] < |tasks| {
          var r := tasks[ids[i]];
          TerminateTask(ids[i], Failed, Runtime, None, now);
          if r.parent.None? {
            SetSystemState(r.system, Stopped);
          }
        }
      }
      assert ids[..|ids|] == ids;
      StopIdleSystems();
    }

    method Works(s: Id) returns (working: bool)
      ensures working == HasWork(View(), s)
    {
      working := false;
      for i := 0 to |tasks|
        invariant working <==> exists t :: 0 <= t < i && tasks[t].system == s && Live(tasks[t])
      {
        if tasks[i].system == s && Live(tasks[i]) { working := true; }
      }
    }

    method StopIdleSystems()
      modifies this`systems
      ensures View() == StopIdle(old(View()))
    {
      ghost var db := View();
      for i := 0 to |systems|
        invariant |systems| == |db.systems| && View() == db.(systems := systems)
        invariant forall k :: 0 <= k < |systems| ==> systems[k] == if k < i then StopIdle(db).systems[k] else db.systems[k]
      {
        var working := Works(i);
        assert HasWork(View(), i) == HasWork(db, i);
        if (systems[i].state == SystemState.Active || systems[i].state == Stopping) && !working {
          systems := systems[i := systems[i].(state := Stopped)];
        }
      }
      assert systems == StopIdle(db).systems;
    }
  }

  /** Uncertain receipts settle nobody. */
  lemma SettledStays(db: Store, base: Store)
    requires base == db.(calls := base.calls, receipts := AbandonReceipts(db.receipts))
    ensures forall t: Id :: Settled(base, t) == Settled(db, t)
  {
  }

  lemma SpawnedTask(db: Store, p: Id, agent: Id, evaluation: bool, source: Source, cause: Option<Id>, now: int)
    requires p < |db.tasks|
    ensures var spawned := Spawn(db, p, agent, evaluation, source, cause, now);
            spawned.Some? ==> p < |spawned.value.tasks| && spawned.value.tasks[p] == db.tasks[p]
  {
    hide Refuses;
  }
}
