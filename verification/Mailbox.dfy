/** The transactions of the delivery protocol: claim, tool preparation, completion, finish, recovery,
    and the administrator's commands, over the durable store and the daemon's volatile activations. */
module Mailbox {
  import opened Common
  import opened Sums
  import opened Team

  /** A live worker: the delivery it holds and the call it serves. */
  datatype Activation = Activation(system: Id, mail: Id, task: Id, call: Id)

  /** The durable store with what a crash loses: activations by agent, the calls whose tools were dispatched
      and are still running, and whether a shutdown has begun. */
  datatype Daemon = Daemon(db: Store, active: map<Id, Activation>, plans: set<Id>, down: bool)

  const MAX_ACTIVATIONS := 64

  // ----- claim -----

  predicate StoppedFor(db: Store, t: Id)
    requires t < |db.tasks|
  {
    var r := db.tasks[t];
    r.stopped || SwitchOf(db, r.agent) == Off || ControlOf(db, r.goal) == Off || Halting(StateOf(db, r.system))
  }

  predicate Overdue(m: Mail, now: int) { m.expires > 0 && m.expires <= now }

  function ActiveIn(active: map<Id, Activation>, s: Id): set<Id> {
    set a | a in active && active[a].system == s
  }

  function MaxActive(db: Store, s: Id): nat { if s < |db.systems| then db.systems[s].maxActive else 0 }

  /** The query behind a claim. */
  predicate Candidate(db: Store, m: Id, now: int) {
    m < |db.mails| && db.mails[m].task < |db.tasks| &&
    var v, t := db.mails[m], db.tasks[db.mails[m].task];
    && v.state == Pending && v.notBefore <= now
    && (forall n :: 0 <= n < |db.mails| && db.mails[n].agent == v.agent ==> db.mails[n].state != Leased)
    && (!Live(t) || StoppedFor(db, v.task) || Overdue(v, now) || v.attempts >= MAX_DELIVERIES
        || (StateOf(db, t.system) == SystemState.Active && SwitchOf(db, t.agent) == On && ControlOf(db, t.goal) == On
            && (!t.phase.Waiting? || t.waitingTool.None? || v.kind.Result? || v.kind == Progress)))
  }

  /** What a claim does with one candidate. */
  datatype Verdict = Passed(db: Store) | Leasing(db: Store)

  function SetMail(db: Store, m: Id, v: Mail): Store
    requires m < |db.mails|
  {
    db.(mails := db.mails[m := v])
  }

  /** An intermediate result: go on with the candidate, or the candidate is settled. */
  datatype Progression = Go(db: Store) | Halt(db: Store)

  /** Appends `conversation`'s new end and all pending inputs, and takes the next turn; a refusal ends the task. */
  function Resume(db: Store, t: Id, m: Id, conversation: seq<Message>, exclude: Option<Id>, d: Doubt, now: int): Progression
    requires t < |db.tasks|
  {
    if d.inputs then Halt(Terminate(db, t, Rejected, Runtime, Some(m), now))
    else
      var fed := ConsumeInputs(db, t, conversation, exclude);
      if MayTurn(fed, t, d, now) then Go(TakeTurn(fed, t, fed.tasks[t].conversation))
      else Halt(Terminate(fed, t, Rejected, Runtime, Some(m), now))
  }

  /** A task that waits for input resumes; one that waits on a tool resumes with its child's reply. */
  function ApplyMail(db: Store, t: Id, m: Id, d: Doubt, now: int): Progression
    requires t < |db.tasks| && m < |db.mails|
  {
    var r := db.tasks[t];
    var woken := if r.phase == Waiting && r.waitingTool.None? then Resume(db, t, m, r.conversation, None, d, now) else Go(db);
    if woken.Halt? || !db.mails[m].kind.Result? || db.mails[m].applied || t >= |woken.db.tasks| then woken
    else ApplyReply(woken.db, t, m, db.mails[m].kind.child, d, now)
  }

  function ApplyReply(db: Store, t: Id, m: Id, child: Id, d: Doubt, now: int): Progression
    requires t < |db.tasks|
  {
    var r := db.tasks[t];
    if r.waitingTool.None? || child >= |db.tasks| || db.tasks[child].parent != Some(t) || db.tasks[child].goal != r.goal || Live(db.tasks[child])
    then Halt(if m < |db.mails| then SetMail(db, m, db.mails[m].(state := Dead)) else db)
    else Resume(db, t, m, r.conversation + [Reply(r.waitingTool.value)], Some(m), d, now)
  }

  /** A call that was never dispatched is asked again with everything that arrived since. */
  function Refresh(db: Store, t: Id, m: Id, d: Doubt, now: int): Progression
    requires t < |db.tasks|
  {
    var c := db.tasks[t].call;
    if c < |db.calls| && db.calls[c].state == Awaiting && db.calls[c].attempts == 0 then
      if d.inputs then Halt(Terminate(db, t, Rejected, Runtime, Some(m), now))
      else
        var fed := ConsumeInputs(db, t, db.tasks[t].conversation, None);
        if d.request then Halt(Terminate(fed, t, Rejected, Runtime, Some(m), now))
        else Go(fed.(calls := fed.calls[c := fed.calls[c].(request := fed.tasks[t].conversation)]))
    else Go(db)
  }

  /** The delivery is leased, counted and marked as applied in one write. */
  function Lease(db: Store, t: Id, m: Id): Store
    requires t < |db.tasks| && m < |db.mails|
  {
    db.(tasks := db.tasks[t := db.tasks[t].(phase := Running)],
        mails := db.mails[m := db.mails[m].(state := Leased, attempts := db.mails[m].attempts + 1, applied := true)])
  }

  function Deliver(db: Store, t: Id, m: Id, d: Doubt, now: int): Verdict
    requires t < |db.tasks| && m < |db.mails|
  {
    var applied := ApplyMail(db, t, m, d, now);
    if applied.Halt? then Passed(applied.db)
    else if t >= |applied.db.tasks| then Passed(applied.db)
    else if d.blocked then Passed(Terminate(applied.db, t, Rejected, Runtime, Some(m), now))
    else
      var asked := Refresh(applied.db, t, m, d, now);
      if asked.Halt? || t >= |asked.db.tasks| || m >= |asked.db.mails| then Passed(asked.db)
      else Leasing(Lease(asked.db, t, m))
  }

  /** One candidate of a claim. */
  function Consider(db: Store, active: map<Id, Activation>, m: Id, d: Doubt, now: int): Verdict
    requires m < |db.mails| && db.mails[m].task < |db.tasks|
  {
    var v, t := db.mails[m], db.mails[m].task;
    var r := db.tasks[t];
    if r.agent in active then Passed(db)
    else if !Live(r) || StoppedFor(db, t) || Overdue(v, now) || v.attempts >= MAX_DELIVERIES then
      Passed(Terminate(SetMail(db, m, v.(state := Dead)), t, if StoppedFor(db, t) then Canceled else Failed, Runtime, Some(m), now))
    else if StateOf(db, r.system) != SystemState.Active || SwitchOf(db, r.agent) != On || ControlOf(db, r.goal) != On then Passed(db)
    else if |ActiveIn(active, r.system)| >= MaxActive(db, r.system) then Passed(db)
    else if v.kind == Progress then Passed(SetMail(db, m, v.(state := Acked, applied := true)))
    else if r.phase == Waiting && r.waitingTool.Some? && !v.kind.Result? then Passed(db)
    else Deliver(db, t, m, d, now)
  }

  predicate CandidateRow(db: Store, m: Id) { m < |db.mails| && db.mails[m].task < |db.tasks| }

  /** The candidate loop stops at the first delivery it leases. */
  function ClaimFrom(r: Daemon, ids: seq<Id>, doubts: Id -> Doubt, now: int): Daemon
    decreases |ids|
  {
    if ids == [] then r
    else if !CandidateRow(r.db, ids[0]) then ClaimFrom(r, ids[1..], doubts, now)
    else
      match Consider(r.db, r.active, ids[0], doubts(ids[0]), now)
      case Passed(db) => ClaimFrom(r.(db := db), ids[1..], doubts, now)
      case Leasing(db) =>
        if ids[0] < |db.mails| && db.mails[ids[0]].task < |db.tasks| then
          var v := db.mails[ids[0]];
          r.(db := db, active := r.active[v.agent := Activation(v.system, ids[0], v.task, db.tasks[v.task].call)])
        else r.(db := db)
  }

  /** The rows one claim reads: distinct candidates, in the order the query returns them. */
  ghost predicate ClaimList(db: Store, ids: seq<Id>, now: int) {
    Distinct(ids) && forall i :: 0 <= i < |ids| ==> Candidate(db, ids[i], now)
  }

  /** One scheduler claim; none is made during a shutdown or when the daemon is full. */
  function Claim(r: Daemon, ids: seq<Id>, doubts: Id -> Doubt, now: int): Daemon {
    if r.down || |r.active| >= MAX_ACTIVATIONS then r
    else var claimed := ClaimFrom(r, ids, doubts, now); claimed.(db := SweepSystems(claimed.db))
  }

  // ----- tools -----

  predicate MayInvoke(r: Daemon, a: Id) {
    a in r.active &&
    var s, db := r.active[a], r.db;
    && s.call < |db.calls| && s.mail < |db.mails| && s.task < |db.tasks|
    && db.calls[s.call].task == s.task && db.tasks[s.task].call == s.call
    && db.calls[s.call].state.Answered? && db.calls[s.call].state.tool.Some?
    && Live(db.tasks[s.task]) && !db.tasks[s.task].stopped
    && db.mails[s.mail].task == s.task && db.mails[s.mail].state == Leased
    && !Halting(StateOf(db, db.tasks[s.task].system)) && ControlOf(db, db.tasks[s.task].goal) != Off
  }

  /** The reviewed tools whose handlers touch tasks or mail, and the rest. */
  datatype Tool = Delegate(recipient: Id, denied: bool) | Evaluate(evaluator: Id, cases: nat, denied: bool) | WaitForInput
                | Report | Retire(agents: seq<Id>, lists: seq<seq<Id>>) | Dispatched | Plain

  function Record(db: Store, c: Id, receipt: Receipt): Store { db.(receipts := db.receipts[c := receipt]) }

  /** A child task and its first call. */
  function AppendChild(db: Store, p: Id, agent: Id, evaluation: bool): Store
    requires p < |db.tasks|
  {
    var r := db.tasks[p];
    db.(tasks := db.tasks + [Task(r.system, r.goal, agent, Some(p), evaluation, Queued, false, [User], 1, |db.calls|, None)],
        calls := db.calls + [Call(|db.tasks|, Awaiting, 0, [User])])
  }

  function Spawn(db: Store, p: Id, agent: Id, evaluation: bool, source: Source, cause: Option<Id>, now: int): Option<Store>
    requires p < |db.tasks|
  {
    if now >= DeadlineOf(db, db.tasks[p].goal) then None
    else Emit(AppendChild(db, p, agent, evaluation), |db.tasks|, Ready, source, cause, now)
  }

  /** The assistant message of the open call is stored; its answer will come with the child's result. */
  function Suspend(db: Store, t: Id, tool: Id): Store
    requires t < |db.tasks|
  {
    var r := db.tasks[t];
    db.(tasks := db.tasks[t := r.(phase := Waiting, waitingTool := Some(tool), conversation := r.conversation + [Assistant(Some(tool))])])
  }

  /** The call and its answer are stored together. */
  function Idle(db: Store, t: Id, tool: Id): Store
    requires t < |db.tasks|
  {
    var r := db.tasks[t];
    db.(tasks := db.tasks[t := r.(phase := Waiting, waitingTool := None,
                                  conversation := r.conversation + [Assistant(Some(tool)), Reply(tool)])])
  }

  function DelegateTask(db: Store, t: Id, m: Id, tool: Id, recipient: Id, now: int): Option<Store>
    requires t < |db.tasks|
  {
    var r := db.tasks[t];
    if recipient == r.agent || recipient >= |db.agents| || db.agents[recipient].goal != Some(r.goal)
       || db.agents[recipient].system != r.system || db.agents[recipient].state != On
       || Sum(db.tasks, LiveByAgent(recipient)) != 0 || Sum(db.tasks, TaskOfGoal(r.goal)) >= MAX_GOAL_TASKS
    then None
    else
      match Spawn(db, t, recipient, false, FromAgent(r.agent), Some(m), now)
      case None => None
      case Some(spawned) => Some(Suspend(spawned, t, tool))
  }

  function SpawnCases(db: Store, t: Id, agent: Id, cases: nat, source: Source, now: int): Option<Store>
    requires t < |db.tasks|
  {
    if cases == 0 then Some(db)
    else
      match SpawnCases(db, t, agent, cases - 1, source, now)
      case None => None
      case Some(some) => if t < |some.tasks| then Spawn(some, t, agent, true, source, None, now) else None
  }

  function EvaluateTool(db: Store, t: Id, tool: Id, evaluator: Id, cases: nat, now: int): Option<Store>
    requires t < |db.tasks|
  {
    var r := db.tasks[t];
    if evaluator >= |db.agents| || db.agents[evaluator].goal != Some(r.goal) || db.agents[evaluator].system != r.system
       || Sum(db.tasks, TaskOfGoal(r.goal)) + cases > MAX_GOAL_TASKS
    then None
    else
      match SpawnCases(db, t, evaluator, cases, FromAgent(r.agent), now)
      case None => None
      case Some(spawned) => if t < |spawned.tasks| then Some(Idle(spawned, t, tool)) else None
  }

  function ReportProgress(db: Store, t: Id, m: Id, now: int): Option<Store>
    requires t < |db.tasks|
  {
    match db.tasks[t].parent
    case None => None
    case Some(p) => if p < |db.tasks| then Emit(db, p, Progress, FromAgent(db.tasks[t].agent), Some(m), now) else None
  }

  function SetAgent(db: Store, a: Id, state: Switch): Store {
    if a < |db.agents| then db.(agents := db.agents[a := db.agents[a].(state := state)]) else db
  }

  /** Each agent of the retired subtree is switched off and its tasks stopped. */
  function RetireAll(db: Store, agents: seq<Id>, lists: seq<seq<Id>>, source: Source, now: int): Store
    requires |lists| == |agents|
  {
    if agents == [] then db
    else
      var n := |agents| - 1;
      StopTasks(SetAgent(RetireAll(db, agents[..n], lists[..n], source, now), agents[n], Off), lists[n], source, now)
  }

  /** The handler's effect; a refusal rolls the whole invocation back. */
  function Handle(db: Store, t: Id, m: Id, tool: Id, kind: Tool, now: int): Option<Store>
    requires t < |db.tasks|
  {
    match kind
    case Delegate(recipient, denied) => if denied then None else DelegateTask(db, t, m, tool, recipient, now)
    case Evaluate(evaluator, cases, denied) => if denied then None else EvaluateTool(db, t, tool, evaluator, cases, now)
    case WaitForInput => Some(Idle(db, t, tool))
    case Report => ReportProgress(db, t, m, now)
    case Retire(agents, lists) => if |lists| == |agents| then Some(RetireAll(db, agents, lists, FromAgent(db.tasks[t].agent), now)) else None
    case Dispatched => Some(db)
    case Plain => Some(db)
  }

  /** A tool invocation by an activation. A completed receipt is replayed without any effect, any other
      receipt refuses the call, and without a receipt one is written before the tool has any effect. */
  function PrepareTool(r: Daemon, a: Id, kind: Tool, now: int): Daemon {
    if !MayInvoke(r, a) then r
    else
      var s := r.active[a];
      if s.call in r.db.receipts then r
      else
        match Handle(Record(r.db, s.call, Begun), s.task, s.mail, r.db.calls[s.call].state.tool.value, kind, now)
        case None => r
        case Some(db) =>
          if kind.Dispatched? then r.(db := db, plans := r.plans + {s.call}) else r.(db := Record(db, s.call, Finished))
  }

  /** The outcome of a dispatched tool is written over its receipt, whatever that says by then. */
  function CompleteTool(r: Daemon, c: Id, known: bool): Daemon {
    if c in r.plans then r.(db := Record(r.db, c, if known then Finished else Uncertain), plans := r.plans - {c}) else r
  }

  // ----- finish -----

  /** What the worker reports, and what the tables outside this model answer. */
  datatype Finish = Finish(workerFailed: bool, canceled: bool, triggers: bool, overflow: bool, doubt: Doubt)

  function ReceiptOf(db: Store, c: Id): Option<Receipt> { if c in db.receipts then Some(db.receipts[c]) else None }

  predicate Undispatched(c: Call) { c.attempts == 0 && (c.state == Awaiting || c.state == InQueue) }

  /** How long a delivery rests after its worker failed: two to the number of its leases seconds. */
  function RetryDelay(attempts: nat): nat { if attempts == 0 then 1000 else 2 * RetryDelay(attempts - 1) }

  /** Whether a shutdown hands the delivery back for the next start. */
  predicate HandsBack(db: Store, s: Activation, down: bool)
    requires s.task < |db.tasks| && s.call < |db.calls|
  {
    var t, c := db.tasks[s.task], db.calls[s.call];
    && down && !Halting(StateOf(db, t.system)) && ControlOf(db, t.goal) != Off && !t.stopped
    && (c.state == Awaiting || (c.state == InQueue && c.attempts == 0) || c.state.Answered?)
    && ReceiptOf(db, s.call) != Some(Begun) && ReceiptOf(db, s.call) != Some(Uncertain)
  }

  predicate StopsWith(db: Store, t: Id, canceled: bool)
    requires t < |db.tasks|
  {
    canceled || Halting(StateOf(db, db.tasks[t].system)) || ControlOf(db, db.tasks[t].goal) == Off || db.tasks[t].stopped
  }

  /** The task goes on: one more turn, and a delivery that will claim it. */
  function ContinueTask(db: Store, t: Id, m: Id, conversation: seq<Message>, f: Finish, now: int): Store
    requires t < |db.tasks|
  {
    var source := FromAgent(db.tasks[t].agent);
    if !MayTurn(db, t, f.doubt, now) then EndTask(db, t, m, Rejected, false, now)
    else
      var next := TakeTurn(db, t, conversation);
      if Sum(next.mails, PendingFor(t)) > 0 then next
      else
        match Emit(next, t, Continue, source, Some(m), now)
        case Some(told) => told
        case None => Terminate(next, t, Rejected, Runtime, Some(m), now)
  }

  /** The task ends: its undispatched call closes with it, and a stopped root settles its system. */
  function EndTask(db: Store, t: Id, m: Id, outcome: Outcome, stopping: bool, now: int): Store
    requires t < |db.tasks|
  {
    var r := db.tasks[t];
    var ended := Terminate(db, t, outcome, FromAgent(r.agent), Some(m), now);
    SweepSystems(if stopping && r.parent.None? then SetSystem(ended, r.system, Rest(ended, r.system)) else ended)
  }

  function FinishOutcome(c: Call, stopping: bool): Outcome {
    if stopping then Canceled else if c.state == Closed(Rejected) then Rejected else Failed
  }

  /** A worker finished without failure and its call was answered. None: the transaction fails. */
  function FinishAnswered(db: Store, s: Activation, f: Finish, now: int): Option<Store>
    requires s.task < |db.tasks| && s.call < |db.calls| && db.calls[s.call].state.Answered?
  {
    var t := db.tasks[s.task];
    match db.calls[s.call].state.tool
    case Some(tool) =>
      if ReceiptOf(db, s.call) != Some(Finished) then None
      else if t.phase == Waiting then Some(db)
      else Some(ContinueTask(db, s.task, s.mail, t.conversation + [Assistant(Some(tool)), Reply(tool)], f, now))
    case None =>
      if Sum(db.mails, InputsFor(s.task)) > 0 then Some(ContinueTask(db, s.task, s.mail, t.conversation + [Assistant(None)], f, now))
      else if f.triggers then
        if f.overflow then None
        else Some(db.(tasks := db.tasks[s.task := t.(phase := Waiting, waitingTool := None, conversation := t.conversation + [Assistant(None)])]))
      else Some(EndTask(db, s.task, s.mail, Completed, false, now))
  }

  function FinishDelivery(db: Store, s: Activation, f: Finish, down: bool, now: int): Option<Store>
    requires s.task < |db.tasks| && s.call < |db.calls| && s.mail < |db.mails|
  {
    var t, c, v := db.tasks[s.task], db.calls[s.call], db.mails[s.mail];
    var stopping := StopsWith(db, s.task, f.canceled);
    if t.call != s.call || !Live(t) then
      Some(SweepSystems(if v.state == Leased then SetMail(db, s.mail, v.(state := Dead)) else db))
    else if HandsBack(db, s, down) then
      Some(SetMail(db.(tasks := db.tasks[s.task := t.(phase := if t.phase == Waiting then Waiting else Queued)]),
             s.mail, v.(state := Pending)))
    else if f.workerFailed && !stopping && Undispatched(c) && v.attempts < MAX_DELIVERIES then
      Some(SetMail(db.(calls := db.calls[s.call := c.(state := Awaiting)], tasks := db.tasks[s.task := t.(phase := Queued)]),
             s.mail, v.(state := Pending, notBefore := now + RetryDelay(v.attempts))))
    else
      var told := SetMail(db, s.mail, v.(state := if f.workerFailed then Dead else Acked));
      if !f.workerFailed && c.state.Answered? && !stopping then FinishAnswered(told, s, f, now)
      else Some(EndTask(told, s.task, s.mail, FinishOutcome(c, stopping), stopping, now))
  }

  /** The activation is gone whether or not its last transaction committed. */
  function FinishStep(r: Daemon, a: Id, f: Finish, now: int): Daemon {
    if a !in r.active then r
    else
      var s, rest := r.active[a], r.active - {a};
      if s.task < |r.db.tasks| && s.call < |r.db.calls| && s.mail < |r.db.mails| then
        match FinishDelivery(r.db, s, f, r.down, now)
        case Some(db) => r.(db := db, active := rest)
        case None => r.(active := rest)
      else r.(active := rest)
  }
}
