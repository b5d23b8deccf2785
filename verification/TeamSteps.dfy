/** Recovery, administration and the life of a call as the delivery protocol sees it; every transaction
    as one step of the runtime. */
module TeamSteps {
  import opened Common
  import opened Sums
  import opened Team
  import opened Mailbox

  // ----- recovery -----

  function AbandonReceipts(receipts: map<Id, Receipt>): map<Id, Receipt> {
    map c | c in receipts :: if receipts[c] == Begun then Uncertain else receipts[c]
  }

  /** A task that waits after a finished tool has nothing more to do for the delivery that ran it. */
  predicate Settled(db: Store, t: Id) {
    t < |db.tasks| && db.tasks[t].phase == Waiting && ReceiptOf(db, db.tasks[t].call) == Some(Finished)
  }

  function ReturnMail(db: Store, v: Mail): Mail {
    var back := if v.state == Leased then v.(state := Pending) else v;
    if back.state == Pending && back.applied && Settled(db, v.task) then back.(state := Acked) else back
  }

  /** Requests on the network are lost, tools in progress uncertain, leases returned. */
  function Abandon(db: Store): Store {
    db.(calls := seq(|db.calls|, i requires 0 <= i < |db.calls| =>
          if db.calls[i].state == OnWire then db.calls[i].(state := Lost) else db.calls[i]),
        receipts := AbandonReceipts(db.receipts),
        mails := seq(|db.mails|, i requires 0 <= i < |db.mails| => ReturnMail(db, db.mails[i])),
        tasks := seq(|db.tasks|, i requires 0 <= i < |db.tasks| =>
          if db.tasks[i].phase == Running then db.tasks[i].(phase := Queued) else db.tasks[i]))
  }

  predicate Unrecoverable(db: Store, t: Id) {
    LiveTask(db, t) && db.tasks[t].call < |db.calls| &&
    var c := db.calls[db.tasks[t].call];
    c.state == Lost || (c.state.Closed? && c.state.outcome != Completed) || ReceiptOf(db, db.tasks[t].call) == Some(Uncertain)
  }

  ghost predicate UnrecoverableList(db: Store, ids: seq<Id>) {
    Distinct(ids) && forall t: Id :: t in ids <==> Unrecoverable(db, t)
  }

  function FailOne(db: Store, t: Id, now: int): Store {
    if t >= |db.tasks| then db
    else
      var ended := Terminate(db, t, Failed, Runtime, None, now);
      if db.tasks[t].parent.None? then SetSystem(ended, db.tasks[t].system, Stopped) else ended
  }

  function FailAll(db: Store, ids: seq<Id>, now: int): Store {
    if ids == [] then db else FailOne(FailAll(db, ids[..|ids| - 1], now), ids[|ids| - 1], now)
  }

  predicate HasWork(db: Store, s: Id) {
    exists t :: 0 <= t < |db.tasks| && db.tasks[t].system == s && Live(db.tasks[t])
  }

  function StopIdle(db: Store): Store {
    db.(systems := seq(|db.systems|, s requires 0 <= s < |db.systems| =>
      if (db.systems[s].state == SystemState.Active || db.systems[s].state == Stopping) && !HasWork(db, s)
      then db.systems[s].(state := Stopped) else db.systems[s]))
  }

  /** What the next start does before anything else. */
  function Recover(db: Store, ids: seq<Id>, now: int): Store {
    StopIdle(FailAll(Abandon(db), ids, now))
  }

  // ----- administration -----

  function CreateSystem(db: Store, maxActive: nat): Store {
    db.(systems := db.systems + [System(Inactive, maxActive, |db.agents|)],
        agents := db.agents + [Agent(|db.systems|, None, Off)])
  }

  function LoadOf(): System -> int {
    (s: System) => if s.state == SystemState.Active || s.state == Stopping then 1 else 0
  }

  /** A new bounded goal with its root task, first call and first delivery. */
  function StartGoal(db: Store, s: Id, deadline: int, now: int): Option<Store> {
    if s >= |db.systems| || db.systems[s].state == SystemState.Active || db.systems[s].state == Stopping || db.systems[s].state == Paused
       || Sum(db.systems, LoadOf()) >= MAX_ACTIVATIONS || db.systems[s].operator >= |db.agents|
    then None
    else
      var a, t, g := db.systems[s].operator, |db.tasks|, |db.goals|;
      var staffed := SetAgent(SetSystem(db, s, SystemState.Active), a, On);
      Emit(staffed.(goals := db.goals + [Goal(s, On, deadline, false)],
                    tasks := db.tasks + [Task(s, g, a, None, false, Queued, false, [User], 1, |db.calls|, None)],
                    calls := db.calls + [Call(t, Awaiting, 0, [User])]), t, Ready, Administrator, None, now)
  }

  function CreateAgent(db: Store, t: Id): Store {
    if t < |db.tasks| then db.(agents := db.agents + [Agent(db.tasks[t].system, Some(db.tasks[t].goal), On)]) else db
  }

  function SetGoal(db: Store, g: Id, control: Switch): Store {
    if g < |db.goals| then db.(goals := db.goals[g := db.goals[g].(control := control)]) else db
  }

  /** Pause or resume. */
  function Pause(db: Store, scope: Scope, hold: bool): Store {
    match scope
    case WholeSystem(s) =>
      if Halting(StateOf(db, s)) || StateOf(db, s) == Inactive then db else SetSystem(db, s, if hold then Paused else SystemState.Active)
    case WholeGoal(g) =>
      if g >= |db.goals| || db.goals[g].closed || db.goals[g].control == Off then db else SetGoal(db, g, if hold then Held else On)
    case WholeAgent(a) =>
      if SwitchOf(db, a) == Off then db else SetAgent(db, a, if hold then Held else On)
  }

  /** The guard and the first write of a stop; None when the control refuses. */
  function BeginStop(db: Store, scope: Scope): Option<Store> {
    match scope
    case WholeSystem(s) =>
      if Halting(StateOf(db, s)) || StateOf(db, s) == Inactive then None else Some(SetSystem(db, s, Stopping))
    case WholeGoal(g) =>
      if g >= |db.goals| || db.goals[g].closed || db.goals[g].control == Off then None else Some(SetGoal(db, g, Off))
    case WholeAgent(a) =>
      if SwitchOf(db, a) == Off then None else Some(SetAgent(db, a, Off))
  }

  /** The stop command of the system's own interface, which also switches its goals off. */
  function ShutSystem(db: Store, s: Id): Store {
    var marked := SetSystem(db, s, if StateOf(db, s) == SystemState.Active || StateOf(db, s) == Stopping || StateOf(db, s) == Paused
                                   then Stopping else Stopped);
    marked.(goals := seq(|db.goals|, g requires 0 <= g < |db.goals| =>
      if db.goals[g].system == s && !db.goals[g].closed then db.goals[g].(control := Off) else db.goals[g]))
  }

  // ----- calls, inputs, expiry -----

  datatype Move = Enlist | Dispatch | Refuse | Answer(tool: Option<Id>) | Fail | Lose | Requeue | Cancel

  /** How admission and settlement move a call. */
  function MoveCall(c: Call, move: Move): Call {
    match move
    case Enlist => if c.state == Awaiting then c.(state := InQueue) else c
    case Dispatch => if c.state == InQueue then c.(state := OnWire, attempts := c.attempts + 1) else c
    case Refuse => if c.state == InQueue then c.(state := Closed(Rejected)) else c
    case Answer(tool) => if c.state == OnWire then c.(state := Answered(tool)) else c
    case Fail => if c.state == OnWire then c.(state := Closed(Failed)) else c
    case Lose => if c.state == OnWire then c.(state := Lost) else c
    case Requeue => if c.state == OnWire then c.(state := InQueue) else c
    case Cancel => if c.state == Awaiting || c.state == InQueue then c.(state := Closed(Canceled)) else c
  }

  function Advance(db: Store, c: Id, move: Move): Store {
    if c < |db.calls| then db.(calls := db.calls[c := MoveCall(db.calls[c], move)]) else db
  }

  /** User input, a fired schedule, a memory change or a notice, for a task that is still live. */
  function AddInput(db: Store, t: Id, source: Source, cause: Option<Id>, now: int): Store {
    if !LiveTask(db, t) then db
    else match Emit(db, t, Input, source, cause, now) case Some(told) => told case None => db
  }

  /** An evaluation's end is noticed by the task that asked for it, or ends it. */
  function NoticeEvaluation(db: Store, t: Id, now: int): Store {
    if !LiveTask(db, t) || db.tasks[t].stopped then db
    else match Emit(db, t, Input, Runtime, None, now) case Some(told) => told case None => Terminate(db, t, Rejected, Runtime, None, now)
  }

  /** A goal's lifetime ends while a task waits. */
  function Expire(db: Store, t: Id, now: int): Store {
    if LiveTask(db, t) && db.tasks[t].phase == Waiting && DeadlineOf(db, db.tasks[t].goal) <= now && !TaskLeased(db, t)
    then Terminate(db, t, Failed, Runtime, None, now) else db
  }

  // ----- steps -----

  datatype Step =
    | DoCreateSystem(maxActive: nat)
    | DoStartGoal(system: Id, deadline: int, now: int)
    | DoCreateAgent(task: Id)
    | DoPause(scope: Scope, hold: bool)
    | DoStop(scope: Scope, list: seq<Id>, now: int)
    | DoShutSystem(system: Id, list: seq<Id>, now: int)
    | DoSwitchOff(agent: Id)
    | DoMoveCall(call: Id, move: Move)
    | DoInput(task: Id, source: Source, cause: Option<Id>, now: int)
    | DoNotice(task: Id, now: int)
    | DoExpire(task: Id, now: int)
    | DoClaim(list: seq<Id>, doubts: Id -> Doubt, now: int)
    | DoPrepareTool(agent: Id, tool: Tool, now: int)
    | DoCompleteTool(call: Id, known: bool)
    | DoFinish(agent: Id, finish: Finish, now: int)
    | DoShutdown
    | DoRestart(list: seq<Id>, now: int)

  function Next(r: Daemon, step: Step): Daemon {
    match step
    case DoCreateSystem(maxActive) => r.(db := CreateSystem(r.db, maxActive))
    case DoStartGoal(s, deadline, now) => (match StartGoal(r.db, s, deadline, now) case Some(db) => r.(db := db) case None => r)
    case DoCreateAgent(t) => r.(db := CreateAgent(r.db, t))
    case DoPause(scope, hold) => r.(db := Pause(r.db, scope, hold))
    case DoStop(scope, ids, now) =>
      (match BeginStop(r.db, scope) case Some(db) => r.(db := StopTasks(db, ids, Administrator, now)) case None => r)
    case DoShutSystem(s, ids, now) => r.(db := StopTasks(ShutSystem(r.db, s), ids, Administrator, now))
    case DoSwitchOff(a) => r.(db := SetAgent(r.db, a, Off))
    case DoMoveCall(c, move) => r.(db := Advance(r.db, c, move))
    case DoInput(t, source, cause, now) => r.(db := AddInput(r.db, t, source, cause, now))
    case DoNotice(t, now) => r.(db := NoticeEvaluation(r.db, t, now))
    case DoExpire(t, now) => r.(db := Expire(r.db, t, now))
    case DoClaim(ids, doubts, now) => Claim(r, ids, doubts, now)
    case DoPrepareTool(a, tool, now) => PrepareTool(r, a, tool, now)
    case DoCompleteTool(c, known) => CompleteTool(r, c, known)
    case DoFinish(a, f, now) => FinishStep(r, a, f, now)
    case DoShutdown => r.(down := true)
    case DoRestart(ids, now) => Daemon(Recover(r.db, ids, now), map[], {}, false)
  }
}
