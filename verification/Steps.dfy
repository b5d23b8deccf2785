/** Every transaction that touches the accounting tables, as one step, and runs of such steps.
    A step whose guard fails leaves the tables as they are, like a rolled back transaction. */
module Steps {
  import opened Common
  import opened Tables
  import opened Sums
  import opened Ledger
  import opened Quota
  import opened Admission

  // ----- administration -----

  /** A new system, optionally with its pending initial goal. */
  function CreateSystem(db: Db, budget: nat, withGoal: bool): Db {
    if budget < 1 then db
    else
      var id := |db.systems|;
      db.(systems := db.systems + [System(Inactive, 1, budget, 0, 0, 0, None)],
          goals := if withGoal then db.goals + [Goal(id, false, false, Enabled, budget, 0, 0)] else db.goals)
  }

  predicate Executing(s: System) { s.state == Active || s.state == Stopping || s.state == SystemState.Paused }

  /** A revision may lower the budget, but never below what is used or reserved. */
  function ReviseSystem(db: Db, id: Id, budget: nat): Db {
    if id >= |db.systems| then db
    else
      var s := db.systems[id];
      if Executing(s) || budget < 1 || budget < s.used + s.reserved then db
      else db.(systems := db.systems[id := s.(revision := s.revision + 1, budget := budget)])
  }

  datatype CallParams = CallParams(model: Id, reservation: nat, now: int, deadline: int, owner: Id)

  predicate GroupsAccept(cfg: Config, db: Db, p: CallParams) {
    && p.model in cfg.models
    && forall g :: g in cfg.models[p.model] ==>
         g in cfg.groups && QueuedCount(db.calls, g) < cfg.groups[g].queueCapacity && p.reservation <= cfg.groups[g].tokensPerMinute
  }

  function NewCall(cfg: Config, t: Task, task: Id, revision: nat, p: CallParams, waitDeadline: int): Call
    requires p.model in cfg.models
  {
    Call(t.system, t.goal, task, t.agent, p.model, cfg.models[p.model], revision, p.owner,
         Awaiting, p.reservation, 0, p.now, p.deadline, waitDeadline)
  }

  /** Inserts or refreshes the operator agent: a later start rebinds its budget to the current revision. */
  function EnsureOperator(db: Db, id: Id): (Db, Id)
    requires id < |db.systems|
  {
    var s := db.systems[id];
    match s.operator
    case None =>
      var a := |db.agents|;
      (db.(agents := db.agents + [Agent(id, None, None, Enabled, 0, s.budget)],
           systems := db.systems[id := s.(operator := Some(a))]), a)
    case Some(a) =>
      (if a < |db.agents| then db.(agents := db.agents[a := db.agents[a].(state := Enabled, budget := s.budget)]) else db, a)
  }

  /** Opens the goal a start asks for, with the operator's usage row: a new goal, or the pending
      initial one, whose cap a start may lower but not raise. */
  function OpenGoal(db: Db, id: Id, operator: Id, pending: Option<Id>, budget: nat, continuous: bool): Option<(Db, Id)> {
    match pending
    case None =>
      var g := |db.goals|;
      Some((db.(goals := db.goals + [Goal(id, true, continuous, Enabled, budget, 0, 0)],
                usage := db.usage[(operator, g) := Usage(0, 0)]), g))
    case Some(g) =>
      if g < |db.goals| && db.goals[g].system == id && !db.goals[g].started && budget <= db.goals[g].budget
      then Some((db.(goals := db.goals[g := db.goals[g].(started := true, continuous := continuous, budget := budget)],
                     usage := db.usage[(operator, g) := Usage(0, 0)]), g))
      else None
  }

  function AppendTask(db: Db, t: Task): Db { db.(tasks := db.tasks + [t]) }

  /** Every model call of a task is one of its turns. */
  function TakeTurn(db: Db, task: Id, e: Call): Db
    requires task < |db.tasks|
  {
    db.(calls := db.calls + [e], tasks := db.tasks[task := db.tasks[task].(turns := db.tasks[task].turns + 1)])
  }

  /** The root task of a started goal with its first call, in a running system. */
  function OpenRoot(cfg: Config, db: Db, id: Id, g: Id, operator: Id, pins: seq<Id>, p: CallParams): Db
    requires ValidConfig(cfg) && id < |db.systems| && p.model in cfg.models
  {
    var root := Task(id, g, operator, None, false, false, 0, pins);
    var wait := p.now + ShortestWait(cfg, cfg.models[p.model]) * 1000;
    var e := NewCall(cfg, root, |db.tasks|, db.systems[id].revision, p, wait);
    SetSystemState(TakeTurn(AppendTask(db, root), |db.tasks|, e), id, Active)
  }

  function LoadOf(): System -> int {
    (s: System) => if s.state == Active || s.state == Stopping then 1 else 0
  }

  function StartSystem(cfg: Config, db: Db, id: Id, pending: Option<Id>, budget: nat, continuous: bool, pins: seq<Id>, p: CallParams): Db
    requires ValidConfig(cfg)
  {
    if id >= |db.systems| then db
    else
      var s := db.systems[id];
      if Executing(s) || Sum(db.systems, LoadOf()) >= MAX_CANDIDATES
         || budget < 1 || budget > Free(s.budget, s.used, s.reserved) || p.reservation < 1 || p.reservation > budget
         || !Distinct(pins) || !GroupsAccept(cfg, db, p)
      then db
      else
        var (manned, operator) := EnsureOperator(db, id);
        match OpenGoal(manned, id, operator, pending, budget, continuous)
        case None => db
        case Some((begun, g)) => OpenRoot(cfg, begun, id, g, operator, pins, p)
  }

  function SetSystemState(db: Db, id: Id, state: SystemState): Db {
    if id < |db.systems| then db.(systems := db.systems[id := db.systems[id].(state := state)]) else db
  }

  function SetGoalControl(db: Db, id: Id, control: Control): Db {
    if id < |db.goals| then db.(goals := db.goals[id := db.goals[id].(control := control)]) else db
  }

  function SetAgentState(db: Db, id: Id, state: Control): Db {
    if id < |db.agents| then db.(agents := db.agents[id := db.agents[id].(state := state)]) else db
  }

  // ----- the team -----

  /** A task's agent creates a child agent, or an evaluation creates its protected agent: the child's
      budget is within its creator's and it belongs to the task's goal. */
  function CreateAgent(db: Db, task: Id, budget: nat): Db {
    if task >= |db.tasks| || db.tasks[task].agent >= |db.agents| then db
    else
      var t := db.tasks[task];
      var creator := db.agents[t.agent];
      if budget < 1 || budget > creator.budget || creator.depth >= 8 then db
      else db.(agents := db.agents + [Agent(t.system, Some(t.agent), Some(t.goal), Enabled, creator.depth + 1, budget)],
               usage := db.usage[(|db.agents|, t.goal) := Usage(0, 0)])
  }

  /** A task's next model call; each one costs a turn. */
  function PrepareCall(cfg: Config, db: Db, task: Id, p: CallParams): Option<Db>
    requires ValidConfig(cfg)
  {
    if task >= |db.tasks| then None
    else
      var t := db.tasks[task];
      if t.goal >= |db.goals| || t.system >= |db.systems| || t.agent >= |db.agents| then None
      else
        var g := db.goals[t.goal];
        var s := db.systems[t.system];
        if t.terminal || t.stopped || db.agents[t.agent].state == Ended || t.turns >= MAX_TASK_TURNS
           || p.now >= p.deadline || p.reservation < 1
           || p.reservation > Free(g.budget, g.used, g.reserved) || p.reservation > Free(s.budget, s.used, s.reserved)
           || !GroupsAccept(cfg, db, p)
        then None
        else
          var wait := Min(p.deadline, p.now + ShortestWait(cfg, cfg.models[p.model]) * 1000);
          Some(TakeTurn(db, task, NewCall(cfg, t, task, s.revision, p, wait)))
  }

  /** Tasks counted against the goal's task budget: all of them in a bounded goal, the live ones
      in a continuous one. */
  function GoalTasks(db: Db, g: Id): int {
    Sum(db.tasks, CountedTask(g, g >= |db.goals| || !db.goals[g].continuous))
  }

  function CountedTask(g: Id, finished: bool): Task -> int {
    (t: Task) => if t.goal == g && (finished || !t.terminal) then 1 else 0
  }

  /** A delegated or evaluation task, child of `parent`, executed by `agent`. */
  function SpawnTask(db: Db, parent: Id, agent: Id, pins: seq<Id>): Option<Db> {
    if parent >= |db.tasks| || agent >= |db.agents| then None
    else
      var t := db.tasks[parent];
      if db.agents[agent].goal != Some(t.goal) || db.agents[agent].system != t.system || db.agents[agent].state != Enabled
         || GoalTasks(db, t.goal) >= MAX_GOAL_TASKS || !Distinct(pins)
      then None
      else Some(AppendTask(db, Task(t.system, t.goal, agent, Some(parent), false, false, 0, pins)))
  }

  function SpawnAndPrepare(cfg: Config, db: Db, parent: Id, agent: Id, pins: seq<Id>, p: CallParams): Db
    requires ValidConfig(cfg)
  {
    match SpawnTask(db, parent, agent, pins)
    case None => db
    case Some(spawned) =>
      match PrepareCall(cfg, spawned, |db.tasks|, p)
      case None => db
      case Some(done) => done
  }

  /** A finished task of a continuous goal is succeeded by a fresh one with the same agent and parent. */
  function WakeTask(db: Db, previous: Id, pins: seq<Id>): Db {
    if previous >= |db.tasks| then db
    else
      var t := db.tasks[previous];
      if t.goal >= |db.goals| || !db.goals[t.goal].continuous || !t.terminal || t.stopped || !Distinct(pins)
         || GoalTasks(db, t.goal) >= MAX_GOAL_TASKS
      then db
      else AppendTask(db, t.(terminal := false, stopped := false, turns := 0, pins := pins))
  }

  function StopTask(db: Db, task: Id): Db {
    if task < |db.tasks| then db.(tasks := db.tasks[task := db.tasks[task].(stopped := true)]) else db
  }

  function CloseCall(c: Call, task: Id, state: CallState): Call {
    if c.task == task && (c.state == Awaiting || c.state == Queued) then c.(state := state) else c
  }

  predicate Closing(state: CallState) {
    state == Completed || state == Failed || state == Canceled || state == Rejected
  }

  /** Termination closes the calls that have not been dispatched; a dispatched one stays for settlement. */
  function TerminateTask(db: Db, task: Id, state: CallState): Db {
    if task >= |db.tasks| || !Closing(state) then db
    else db.(tasks := db.tasks[task := db.tasks[task].(terminal := true)],
             calls := seq(|db.calls|, i requires 0 <= i < |db.calls| => CloseCall(db.calls[i], task, state)))
  }

  // ----- the call's own life -----

  /** A claim hands the call to a worker and re-estimates it while nothing was dispatched. */
  function ClaimCall(db: Db, c: Id, owner: Id, reservation: nat): Db {
    if c >= |db.calls| || reservation < 1 then db
    else
      var e := db.calls[c];
      SetCall(db, c, if e.state == Awaiting && e.attempts == 0 then e.(owner := owner, reservation := reservation) else e.(owner := owner))
  }

  function QueueCall(db: Db, session: Session): Db {
    if Authorized(db, session) && db.calls[session.call].state == Awaiting
    then SetCall(db, session.call, db.calls[session.call].(state := Queued)) else db
  }

  function CancelCall(db: Db, session: Session): Db {
    if Authorized(db, session) && (db.calls[session.call].state == Awaiting || db.calls[session.call].state == Queued)
    then SetCall(db, session.call, db.calls[session.call].(state := Canceled)) else db
  }

  /** A worker that failed before its first dispatch puts the call back in front of the queue. */
  function RetryWorker(db: Db, c: Id): Db {
    if c < |db.calls| && db.calls[c].attempts == 0 && (db.calls[c].state == Awaiting || db.calls[c].state == Queued)
    then SetCall(db, c, db.calls[c].(state := Awaiting)) else db
  }

  // ----- approvals -----

  function Approve(db: Db, pin: Id, uses: nat, expires: int): Db {
    if pin in db.approvals || uses < 1 || uses > 64 then db
    else db.(approvals := db.approvals[pin := Approval(true, expires, uses, uses)])
  }

  function Disable(db: Db, pin: Id): Db {
    if pin in db.approvals then db.(approvals := db.approvals[pin := db.approvals[pin].(live := false)]) else db
  }

  // ----- crash -----

  function AbandonAttempt(a: Attempt): Attempt { if a.state == InFlight then a.(state := Unresolved) else a }

  function AbandonCall(c: Call): Call { if c.state == Running then c.(state := Unknown) else c }

  /** Restart after a crash: whatever was on the network stays reserved and becomes unknown. */
  function Recover(db: Db): Db {
    db.(attempts := seq(|db.attempts|, i requires 0 <= i < |db.attempts| => AbandonAttempt(db.attempts[i])),
        calls := seq(|db.calls|, i requires 0 <= i < |db.calls| => AbandonCall(db.calls[i])))
  }

  datatype Step =
    | DoCreateSystem(budget: nat, withGoal: bool)
    | DoReviseSystem(id: Id, budget: nat)
    | DoStartSystem(id: Id, pending: Option<Id>, budget: nat, continuous: bool, pins: seq<Id>, params: CallParams)
    | DoSetSystemState(id: Id, state: SystemState)
    | DoSetGoalControl(id: Id, control: Control)
    | DoSetAgentState(id: Id, control: Control)
    | DoCreateAgent(task: Id, budget: nat)
    | DoSpawn(task: Id, agent: Id, pins: seq<Id>)
    | DoDelegate(task: Id, agent: Id, pins: seq<Id>, params: CallParams)
    | DoPrepare(task: Id, params: CallParams)
    | DoWake(task: Id, pins: seq<Id>)
    | DoStopTask(task: Id)
    | DoTerminate(task: Id, outcome: CallState)
    | DoClaim(call: Id, owner: Id, reservation: nat)
    | DoQueue(session: Session)
    | DoAdmit(session: Session, now: int, denied: set<Id>)
    | DoSettle(session: Session, result: ProviderResult, now: int)
    | DoCancel(session: Session)
    | DoRetryWorker(call: Id)
    | DoApprove(pin: Id, uses: nat, expires: int)
    | DoDisable(pin: Id)
    | DoRecover

  function Next(cfg: Config, db: Db, step: Step): Db
    requires ValidConfig(cfg) && Refs(cfg, db)
  {
    match step
    case DoCreateSystem(budget, withGoal) => CreateSystem(db, budget, withGoal)
    case DoReviseSystem(id, budget) => ReviseSystem(db, id, budget)
    case DoStartSystem(id, pending, budget, continuous, pins, p) => StartSystem(cfg, db, id, pending, budget, continuous, pins, p)
    case DoSetSystemState(id, state) => SetSystemState(db, id, state)
    case DoSetGoalControl(id, control) => SetGoalControl(db, id, control)
    case DoSetAgentState(id, control) => SetAgentState(db, id, control)
    case DoCreateAgent(task, budget) => CreateAgent(db, task, budget)
    case DoSpawn(task, agent, pins) => (match SpawnTask(db, task, agent, pins) case None => db case Some(d) => d)
    case DoDelegate(task, agent, pins, p) => SpawnAndPrepare(cfg, db, task, agent, pins, p)
    case DoPrepare(task, p) => (match PrepareCall(cfg, db, task, p) case None => db case Some(d) => d)
    case DoWake(task, pins) => WakeTask(db, task, pins)
    case DoStopTask(task) => StopTask(db, task)
    case DoTerminate(task, outcome) => TerminateTask(db, task, outcome)
    case DoClaim(c, owner, reservation) => ClaimCall(db, c, owner, reservation)
    case DoQueue(session) => QueueCall(db, session)
    case DoAdmit(session, now, denied) => Admit(cfg, db, session, now, denied).0
    case DoSettle(session, p, now) => Settle(cfg, db, session, p, now)
    case DoCancel(session) => CancelCall(db, session)
    case DoRetryWorker(c) => RetryWorker(db, c)
    case DoApprove(pin, uses, expires) => Approve(db, pin, uses, expires)
    case DoDisable(pin) => Disable(db, pin)
    case DoRecover => Recover(db)
  }
}
