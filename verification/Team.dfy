/** Tasks, mailboxes and tool receipts of bounded goals, and the operations that rewrite them. An event
    and its one mailbox row are a single mail; rows are only ever appended. */
module Team {
  import opened Common
  import opened Sums

  datatype Outcome = Completed | Failed | Canceled | Rejected

  datatype Phase = Queued | Running | Waiting | Done(outcome: Outcome)

  datatype Switch = On | Held | Off

  /** A conversation entry without its text: what matters is which tool call it opens or answers. */
  datatype Message = User | Assistant(tool: Option<Id>) | Reply(to: Id)

  datatype SystemState = Inactive | Active | Stopping | Stopped | Paused

  datatype System = System(state: SystemState, maxActive: nat, operator: Id)

  datatype Goal = Goal(system: Id, control: Switch, deadline: int, closed: bool)

  datatype Agent = Agent(system: Id, goal: Option<Id>, state: Switch)

  datatype Task = Task(system: Id, goal: Id, agent: Id, parent: Option<Id>, evaluation: bool, phase: Phase, stopped: bool,
                       conversation: seq<Message>, turns: nat, call: Id, waitingTool: Option<Id>)

  datatype CallState = Awaiting | InQueue | OnWire | Answered(tool: Option<Id>) | Closed(outcome: Outcome) | Lost

  /** `request` is the conversation the call asks the model to continue. */
  datatype Call = Call(task: Id, state: CallState, attempts: nat, request: seq<Message>)

  datatype Receipt = Begun | Finished | Uncertain

  datatype Kind = Ready | Continue | Result(child: Id) | Input | Progress

  datatype MailState = Pending | Leased | Acked | Dead

  datatype Source = Administrator | Runtime | FromAgent(agent: Id)

  datatype Mail = Mail(system: Id, goal: Id, task: Id, agent: Id, kind: Kind, source: Source, depth: nat, created: int, expires: int,
                       state: MailState, attempts: nat, applied: bool, notBefore: int)

  /** Receipts are kept per call: a call proposes at most one tool. */
  datatype Store = Store(systems: seq<System>, goals: seq<Goal>, agents: seq<Agent>, tasks: seq<Task>, calls: seq<Call>,
                         receipts: map<Id, Receipt>, mails: seq<Mail>)

  const EMPTY := Store([], [], [], [], [], map[], [])

  const MAX_TASK_TURNS := 8
  const MAX_GOAL_TASKS := 64
  const MAX_GOAL_EVENTS := 256
  const MAX_SYSTEM_EVENTS := 4096
  const MAX_EVENT_DEPTH := 16
  const MAX_RECIPIENT_QUEUE := 64
  const MAX_SOURCE_RATE := 32
  const MAX_DELIVERIES := 3
  const MINUTE_MS := 60000

  predicate Live(t: Task) { !t.phase.Done? }

  predicate LiveTask(db: Store, t: Id) { t < |db.tasks| && Live(db.tasks[t]) }

  function StateOf(db: Store, s: Id): SystemState { if s < |db.systems| then db.systems[s].state else Stopped }

  function ControlOf(db: Store, g: Id): Switch { if g < |db.goals| then db.goals[g].control else Off }

  function DeadlineOf(db: Store, g: Id): int { if g < |db.goals| then db.goals[g].deadline else 0 }

  function SwitchOf(db: Store, a: Id): Switch { if a < |db.agents| then db.agents[a].state else Off }

  predicate Halting(state: SystemState) { state == Stopping || state == Stopped }

  // ----- counts the queries compute -----

  function LiveInSystem(s: Id): Task -> int { (t: Task) => if t.system == s && Live(t) then 1 else 0 }

  function LiveInGoal(g: Id): Task -> int { (t: Task) => if t.goal == g && Live(t) then 1 else 0 }

  function LiveChildOf(p: Id): Task -> int { (t: Task) => if t.parent == Some(p) && Live(t) then 1 else 0 }

  /** Delegated children: evaluations report elsewhere. */
  function DelegateOf(p: Id): Task -> int { (t: Task) => if t.parent == Some(p) && Live(t) && !t.evaluation then 1 else 0 }

  function TaskOfGoal(g: Id): Task -> int { (t: Task) => if t.goal == g then 1 else 0 }

  function LiveByAgent(a: Id): Task -> int { (t: Task) => if t.agent == a && Live(t) then 1 else 0 }

  function MailInSystem(s: Id): Mail -> int { (m: Mail) => if m.system == s then 1 else 0 }

  function MailInGoal(g: Id): Mail -> int { (m: Mail) => if m.goal == g then 1 else 0 }

  function OpenForAgent(a: Id): Mail -> int {
    (m: Mail) => if m.agent == a && (m.state == Pending || m.state == Leased) then 1 else 0
  }

  function SentBy(s: Id, source: Source, since: int): Mail -> int {
    (m: Mail) => if m.system == s && m.source == source && m.created > since then 1 else 0
  }

  predicate AwaitsReply(m: Mail, t: Id) { m.kind.Result? && m.task == t && m.state == Pending && !m.applied }

  function ReplyTo(t: Id): Mail -> int { (m: Mail) => if AwaitsReply(m, t) then 1 else 0 }

  function PendingFor(t: Id): Mail -> int {
    (m: Mail) => if m.task == t && m.state == Pending && m.kind != Progress then 1 else 0
  }

  function InputsFor(t: Id): Mail -> int {
    (m: Mail) => if m.task == t && m.state == Pending && m.kind == Input then 1 else 0
  }

  // ----- events -----

  /** Why an event is refused. The first two are the shared budgets. */
  datatype Refusal = SystemBudget | GoalBudget | RecipientQueue | TooDeep | SourceRate | Expired

  function Depth(db: Store, cause: Option<Id>): nat {
    match cause
    case None => 0
    case Some(m) => if m < |db.mails| then db.mails[m].depth + 1 else 0
  }

  /** An event is refused unless the budgets also leave room for one final reply of every live task. */
  function Refuses(db: Store, t: Id, kind: Kind, source: Source, cause: Option<Id>, now: int): Option<Refusal>
    requires t < |db.tasks|
  {
    var r := db.tasks[t];
    if Sum(db.mails, MailInSystem(r.system)) + Sum(db.tasks, LiveInSystem(r.system)) >= MAX_SYSTEM_EVENTS then Some(SystemBudget)
    else if Sum(db.mails, MailInGoal(r.goal)) + Sum(db.tasks, LiveInGoal(r.goal)) >= MAX_GOAL_EVENTS then Some(GoalBudget)
    else if Sum(db.mails, OpenForAgent(r.agent)) + Sum(db.tasks, LiveChildOf(t)) >= MAX_RECIPIENT_QUEUE then Some(RecipientQueue)
    else if Depth(db, cause) > MAX_EVENT_DEPTH then Some(TooDeep)
    else if source.FromAgent? && Sum(db.mails, SentBy(r.system, source, now - MINUTE_MS)) >= MAX_SOURCE_RATE then Some(SourceRate)
    else if DeadlineOf(db, r.goal) <= now && !kind.Result? then Some(Expired)
    else None
  }

  function NewMail(db: Store, t: Id, kind: Kind, source: Source, cause: Option<Id>, now: int): Mail
    requires t < |db.tasks|
  {
    var r := db.tasks[t];
    Mail(r.system, r.goal, t, r.agent, kind, source, Depth(db, cause), now, DeadlineOf(db, r.goal), Pending, 0, false, 0)
  }

  function Emit(db: Store, t: Id, kind: Kind, source: Source, cause: Option<Id>, now: int): Option<Store>
    requires t < |db.tasks|
  {
    if Refuses(db, t, kind, source, cause, now).Some? then None
    else Some(db.(mails := db.mails + [NewMail(db, t, kind, source, cause, now)]))
  }

  // ----- termination -----

  function CloseCall(c: Call, t: Id, outcome: Outcome): Call {
    if c.task == t && (c.state == Awaiting || c.state == InQueue) then c.(state := Closed(outcome)) else c
  }

  function CloseCalls(calls: seq<Call>, t: Id, outcome: Outcome): (r: seq<Call>)
    ensures |r| == |calls| && forall i :: 0 <= i < |r| ==> r[i] == CloseCall(calls[i], t, outcome)
  {
    seq(|calls|, i requires 0 <= i < |calls| => CloseCall(calls[i], t, outcome))
  }

  function DropMail(m: Mail, t: Id): Mail {
    if m.task == t && m.state == Pending then m.(state := Dead) else m
  }

  function DropMails(mails: seq<Mail>, t: Id): (r: seq<Mail>)
    ensures |r| == |mails| && forall i :: 0 <= i < |r| ==> r[i] == DropMail(mails[i], t)
  {
    seq(|mails|, i requires 0 <= i < |mails| => DropMail(mails[i], t))
  }

  /** Ends the task itself: its undispatched calls close with it and its pending deliveries die. */
  function MarkDone(db: Store, t: Id, outcome: Outcome): Store
    requires t < |db.tasks|
  {
    db.(tasks := db.tasks[t := db.tasks[t].(phase := Done(outcome))],
        calls := CloseCalls(db.calls, t, outcome),
        mails := DropMails(db.mails, t))
  }

  predicate HasLease(db: Store, s: Id) {
    exists m :: 0 <= m < |db.mails| && db.mails[m].system == s && db.mails[m].state == Leased
  }

  function Rest(db: Store, s: Id): SystemState { if HasLease(db, s) then Stopping else Stopped }

  function SetSystem(db: Store, s: Id, state: SystemState): Store {
    if s < |db.systems| then db.(systems := db.systems[s := db.systems[s].(state := state)]) else db
  }

  /** The root's end closes the goal, retires its agents and leaves the system inactive or stopped. */
  function CloseGoal(db: Store, s: Id, g: Id): Store {
    var quiet := SetSystem(db, s, if Halting(StateOf(db, s)) then Rest(db, s) else Inactive);
    quiet.(goals := if g < |db.goals| then db.goals[g := db.goals[g].(closed := true)] else db.goals,
           agents := seq(|db.agents|, i requires 0 <= i < |db.agents| =>
             if db.agents[i].goal == Some(g) then db.agents[i].(state := Off) else db.agents[i]))
  }

  /** A task's end is reported to a live parent. If the report is refused the parent, which nobody
      would ever wake again, is ended as well: the recursion climbs towards the root. */
  function Terminate(db: Store, t: Id, outcome: Outcome, source: Source, cause: Option<Id>, now: int): Store
    decreases t
  {
    if !LiveTask(db, t) then db
    else
      var ended := MarkDone(db, t, outcome);
      var r := db.tasks[t];
      if r.evaluation then ended
      else
        match r.parent
        case None => CloseGoal(ended, r.system, r.goal)
        case Some(p) =>
          if p < t && LiveTask(ended, p) && !ended.tasks[p].stopped then
            match Emit(ended, p, Result(t), source, cause, now)
            case Some(told) => told
            case None => Terminate(ended, p, Rejected, Runtime, cause, now)
          else ended
  }

  // ----- turns -----

  /** What the rest of the runtime refuses: conversations that grow too long, calls that do not fit
      budgets or quotas, definitions that changed, requests that cannot be built. */
  datatype Doubt = Doubt(inputs: bool, nextCall: bool, blocked: bool, request: bool)

  predicate MayTurn(db: Store, t: Id, d: Doubt, now: int)
    requires t < |db.tasks|
  {
    var r := db.tasks[t];
    !d.nextCall && SwitchOf(db, r.agent) != Off && !r.stopped && r.turns < MAX_TASK_TURNS && now < DeadlineOf(db, r.goal)
  }

  /** The task's next model call, asked to continue its conversation. */
  function TakeTurn(db: Store, t: Id, conversation: seq<Message>): Store
    requires t < |db.tasks|
  {
    db.(calls := db.calls + [Call(t, Awaiting, 0, conversation)],
        tasks := db.tasks[t := db.tasks[t].(call := |db.calls|, turns := db.tasks[t].turns + 1, phase := Queued,
                                            conversation := conversation, waitingTool := None)])
  }

  // ----- inputs -----

  predicate IsInput(m: Mail, t: Id) { m.task == t && m.state == Pending && !m.applied && m.kind == Input }

  function InputsBelow(mails: seq<Mail>, t: Id, exclude: Option<Id>, n: nat): nat
    requires n <= |mails|
  {
    if n == 0 then 0
    else InputsBelow(mails, t, exclude, n - 1) + (if IsInput(mails[n - 1], t) && exclude != Some(n - 1) then 1 else 0)
  }

  function Users(n: nat): seq<Message> { seq(n, i => User) }

  function TakeInput(m: Mail, i: Id, t: Id, exclude: Option<Id>): Mail {
    if IsInput(m, t) && exclude != Some(i) then m.(state := Acked, applied := true) else m
  }

  function TakeInputs(mails: seq<Mail>, t: Id, exclude: Option<Id>): (r: seq<Mail>)
    ensures |r| == |mails| && forall i :: 0 <= i < |r| ==> r[i] == TakeInput(mails[i], i, t, exclude)
  {
    seq(|mails|, i requires 0 <= i < |mails| => TakeInput(mails[i], i, t, exclude))
  }

  /** Moves every pending input of the task into its conversation. */
  function ConsumeInputs(db: Store, t: Id, conversation: seq<Message>, exclude: Option<Id>): Store
    requires t < |db.tasks|
  {
    db.(tasks := db.tasks[t := db.tasks[t].(conversation := conversation + Users(InputsBelow(db.mails, t, exclude, |db.mails|)))],
        mails := TakeInputs(db.mails, t, exclude))
  }

  // ----- stopping -----

  /** The tasks a stop selects: everything, a goal's, or an agent's, and all their descendants. */
  datatype Scope = WholeSystem(system: Id) | WholeGoal(goal: Id) | WholeAgent(agent: Id)

  predicate Selected(t: Task, scope: Scope) {
    match scope
    case WholeSystem(s) => t.system == s
    case WholeGoal(g) => t.goal == g
    case WholeAgent(a) => t.agent == a
  }

  predicate InClosure(tasks: seq<Task>, scope: Scope, t: Id)
    decreases t
  {
    t < |tasks| && (Selected(tasks[t], scope) || (tasks[t].parent.Some? && tasks[t].parent.value < t
                                                   && InClosure(tasks, scope, tasks[t].parent.value)))
  }

  function MarkStopped(db: Store, t: Id): Store {
    if t < |db.tasks| then db.(tasks := db.tasks[t := db.tasks[t].(stopped := true)]) else db
  }

  function MarkAll(db: Store, ids: seq<Id>): Store {
    if ids == [] then db else MarkStopped(MarkAll(db, ids[..|ids| - 1]), ids[|ids| - 1])
  }

  predicate TaskLeased(db: Store, t: Id) {
    exists m :: 0 <= m < |db.mails| && db.mails[m].task == t && db.mails[m].state == Leased
  }

  /** One marked task: a root moves its system to stopping, and an idle task is canceled at once. */
  function HaltTask(db: Store, t: Id, source: Source, now: int): Store {
    if t >= |db.tasks| then db
    else
      var halting := if db.tasks[t].parent.None? then SetSystem(db, db.tasks[t].system, Stopping) else db;
      if TaskLeased(halting, t) then halting else Terminate(halting, t, Canceled, source, None, now)
  }

  function HaltAll(db: Store, ids: seq<Id>, source: Source, now: int): Store {
    if ids == [] then db else HaltTask(HaltAll(db, ids[..|ids| - 1], source, now), ids[|ids| - 1], source, now)
  }

  /** The rows a stop works through, in whatever order the query returns them. */
  ghost predicate StopList(db: Store, scope: Scope, ids: seq<Id>) {
    Distinct(ids) && forall t: Id :: t in ids <==> LiveTask(db, t) && InClosure(db.tasks, scope, t)
  }

  /** All selected tasks are marked before any of them is terminated. */
  function StopTasks(db: Store, ids: seq<Id>, source: Source, now: int): Store {
    HaltAll(MarkAll(db, ids), ids, source, now)
  }

  function SweepSystems(db: Store): Store {
    db.(systems := seq(|db.systems|, s requires 0 <= s < |db.systems| =>
      if db.systems[s].state == Stopping && !HasLease(db, s) then db.systems[s].(state := Stopped) else db.systems[s]))
  }
}
