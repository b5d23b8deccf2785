/** The other transactions of the accounting tables read off the rows: when each is accepted, and what it writes. */
module StepRows {
  import opened Common
  import opened Tables
  import opened Sums
  import opened Ledger
  import opened Quota
  import opened Admission
  import opened Steps
  import opened SettlementRows

  // ----- new calls -----

  /** The model is configured, and each of its groups has a queue place and a minute large enough for the call. */
  predicate Queueable(cfg: Config, db: Db, p: CallParams) {
    p.model in cfg.models && forall g :: g in cfg.models[p.model] ==>
      g in cfg.groups && Sum(db.calls, Places(g)) < cfg.groups[g].queueCapacity && p.reservation <= cfg.groups[g].tokensPerMinute
  }

  lemma QueueableExactly(cfg: Config, db: Db, p: CallParams)
    ensures GroupsAccept(cfg, db, p) == Queueable(cfg, db, p)
  {
    forall g: Id ensures QueuedCount(db.calls, g) == Sum(db.calls, Places(g)) { SumSame(db.calls, db.calls, QueuedIn(g), Places(g)); }
  }

  function FreshCall(cfg: Config, t: Task, task: Id, revision: nat, p: CallParams, waitDeadline: int): Call
    requires p.model in cfg.models
  {
    Call(t.system, t.goal, task, t.agent, p.model, cfg.models[p.model], revision, p.owner, Awaiting, p.reservation, 0, p.now, p.deadline, waitDeadline)
  }

  /** The task has a turn left and time, goal and system can afford the call, and the groups have room. */
  predicate MayCall(cfg: Config, db: Db, task: Id, p: CallParams) {
    task < |db.tasks| &&
    var t := db.tasks[task];
    t.goal < |db.goals| && t.system < |db.systems| && t.agent < |db.agents| &&
    var g, s := db.goals[t.goal], db.systems[t.system];
    && !t.terminal && !t.stopped && db.agents[t.agent].state != Ended && t.turns < 8 && p.now < p.deadline && 1 <= p.reservation
    && g.used + g.reserved + p.reservation <= g.budget && s.used + s.reserved + p.reservation <= s.budget
    && Queueable(cfg, db, p)
  }

  /** A next call is prepared iff it may be; it then awaits its worker, and waits in the queue no longer than the
      strictest group allows. */
  lemma PrepareExactly(cfg: Config, db: Db, task: Id, p: CallParams) returns (seconds: int)
    requires ValidConfig(cfg)
    ensures p.model in cfg.models ==> Shortest(cfg, cfg.models[p.model], seconds)
    ensures var x := PrepareCall(cfg, db, task, p);
            && x.Some? == MayCall(cfg, db, task, p)
            && (x.Some? ==>
                 var t := db.tasks[task];
                 var wait := if p.deadline < p.now + seconds * 1000 then p.deadline else p.now + seconds * 1000;
                 x.value == db.(tasks := db.tasks[task := t.(turns := t.turns + 1)],
                                calls := db.calls + [FreshCall(cfg, t, task, db.systems[t.system].revision, p, wait)]))
  {
    hide GroupsAccept, Queueable, ShortestWait, Shortest;
    QueueableExactly(cfg, db, p);
    seconds := 0;
    if p.model in cfg.models {
      ShortestWaitIs(cfg, cfg.models[p.model]);
      seconds := ShortestWait(cfg, cfg.models[p.model]);
    }
    assert Queueable(cfg, db, p) ==> p.model in cfg.models by { QueueableModel(cfg, db, p); }
  }

  lemma QueueableModel(cfg: Config, db: Db, p: CallParams)
    ensures Queueable(cfg, db, p) ==> p.model in cfg.models
  {
  }

  // ----- tasks -----

  /** A bounded goal counts all its tasks, a continuous one those that are not over. */
  function Counted(db: Db, g: Id): Task -> int {
    (t: Task) => if t.goal == g && (!t.terminal || g >= |db.goals| || !db.goals[g].continuous) then 1 else 0
  }

  lemma GoalTasksExactly(db: Db, g: Id)
    ensures GoalTasks(db, g) == Sum(db.tasks, Counted(db, g))
  {
    SumSame(db.tasks, db.tasks, CountedTask(g, g >= |db.goals| || !db.goals[g].continuous), Counted(db, g));
  }

  /** The child's agent is enabled and of the parent's goal, and the goal may have one more task. */
  predicate MayAppend(db: Db, parent: Id, agent: Id, pins: seq<Id>) {
    && parent < |db.tasks| && agent < |db.agents| && Distinct(pins)
    && db.agents[agent].goal == Some(db.tasks[parent].goal) && db.agents[agent].system == db.tasks[parent].system
    && db.agents[agent].state == Enabled && Sum(db.tasks, Counted(db, db.tasks[parent].goal)) < 64
  }

  lemma SpawnExactly(db: Db, parent: Id, agent: Id, pins: seq<Id>)
    ensures var x := SpawnTask(db, parent, agent, pins);
            && x.Some? == MayAppend(db, parent, agent, pins)
            && (x.Some? ==> x.value == db.(tasks := db.tasks
                  + [Task(db.tasks[parent].system, db.tasks[parent].goal, agent, Some(parent), false, false, 0, pins)]))
  {
    if parent < |db.tasks| { GoalTasksExactly(db, db.tasks[parent].goal); }
  }

  /** Child and first call come together or not at all. */
  lemma DelegateExactly(cfg: Config, db: Db, parent: Id, agent: Id, pins: seq<Id>, p: CallParams) returns (seconds: int)
    requires ValidConfig(cfg)
    ensures p.model in cfg.models ==> Shortest(cfg, cfg.models[p.model], seconds)
    ensures var db' := SpawnAndPrepare(cfg, db, parent, agent, pins, p);
            if !MayAppend(db, parent, agent, pins) then db' == db
            else
              var child := Task(db.tasks[parent].system, db.tasks[parent].goal, agent, Some(parent), false, false, 0, pins);
              if !MayCall(cfg, db.(tasks := db.tasks + [child]), |db.tasks|, p) then db' == db
              else
                var wait := if p.deadline < p.now + seconds * 1000 then p.deadline else p.now + seconds * 1000;
                db' == db.(tasks := db.tasks + [child.(turns := 1)],
                           calls := db.calls + [FreshCall(cfg, child, |db.tasks|, db.systems[child.system].revision, p, wait)])
  {
    hide MayCall, Shortest, PrepareCall, SpawnTask, MayAppend;
    SpawnExactly(db, parent, agent, pins);
    seconds := 0;
    if p.model in cfg.models {
      ShortestWaitIs(cfg, cfg.models[p.model]);
      seconds := ShortestWait(cfg, cfg.models[p.model]);
    }
    if SpawnTask(db, parent, agent, pins).Some? {
      var spawned := SpawnTask(db, parent, agent, pins).value;
      seconds := PrepareExactly(cfg, spawned, |db.tasks|, p);
      var child := spawned.tasks[|db.tasks|];
      assert spawned.tasks[|db.tasks| := child.(turns := 1)] == db.tasks + [child.(turns := 1)];
    }
  }

  /** A finished task of a continuous goal that nobody stopped is succeeded by a fresh one, if the goal may have one more. */
  lemma WakeExactly(db: Db, previous: Id, pins: seq<Id>)
    ensures var db' := WakeTask(db, previous, pins);
            if previous < |db.tasks| && db.tasks[previous].goal < |db.goals| && db.goals[db.tasks[previous].goal].continuous
               && db.tasks[previous].terminal && !db.tasks[previous].stopped && Distinct(pins)
               && Sum(db.tasks, Counted(db, db.tasks[previous].goal)) < 64
            then var t := db.tasks[previous];
                 db' == db.(tasks := db.tasks + [Task(t.system, t.goal, t.agent, t.parent, false, false, 0, pins)])
            else db' == db
  {
    if previous < |db.tasks| { GoalTasksExactly(db, db.tasks[previous].goal); }
  }

  /** Ending a task closes its calls that were not dispatched, in the same way, and touches no other call. */
  lemma TerminateExactly(db: Db, task: Id, outcome: CallState)
    requires task < |db.tasks| && (outcome == Completed || outcome == Failed || outcome == Canceled || outcome == Rejected)
    ensures var db' := TerminateTask(db, task, outcome);
            && db' == db.(tasks := db.tasks[task := db.tasks[task].(terminal := true)], calls := db'.calls) && |db'.calls| == |db.calls|
            && forall c :: 0 <= c < |db.calls| ==>
                 db'.calls[c] == if db.calls[c].task == task && (db.calls[c].state == Awaiting || db.calls[c].state == Queued)
                                 then db.calls[c].(state := outcome) else db.calls[c]
  {
  }

  // ----- the life of a call before its dispatch -----

  predicate Ours(db: Db, session: Session) { session.call < |db.calls| && db.calls[session.call].owner == session.owner }

  function Restated(db: Db, c: Id, state: CallState): Db
    requires c < |db.calls|
  {
    db.(calls := db.calls[c := db.calls[c].(state := state)])
  }

  /** A session queues a call that awaits its worker, and withdraws one that was not dispatched. */
  lemma SessionExactly(db: Db, session: Session)
    ensures QueueCall(db, session) == if Ours(db, session) && db.calls[session.call].state == Awaiting then Restated(db, session.call, Queued) else db
    ensures CancelCall(db, session) == if Ours(db, session) && (db.calls[session.call].state == Awaiting || db.calls[session.call].state == Queued)
                                       then Restated(db, session.call, Canceled) else db
  {
  }

  /** A claim makes the worker the owner, and sets the estimate only while nothing was queued or dispatched; a failed
      worker's call awaits the next one if it was never dispatched. */
  lemma WorkerExactly(db: Db, c: Id, owner: Id, reservation: nat)
    requires c < |db.calls| && 1 <= reservation
    ensures var e := db.calls[c];
            && ClaimCall(db, c, owner, reservation) == db.(calls := db.calls[c :=
                 e.(owner := owner, reservation := if e.state == Awaiting && e.attempts == 0 then reservation else e.reservation)])
            && RetryWorker(db, c) == if e.attempts == 0 && (e.state == Awaiting || e.state == Queued) then Restated(db, c, Awaiting) else db
  {
  }

  /** A crash leaves what was on the network unknown, call and attempt alike, and everything else as it was. */
  lemma RecoverExactly(db: Db)
    ensures var db' := Recover(db);
            && db' == db.(calls := db'.calls, attempts := db'.attempts) && |db'.calls| == |db.calls| && |db'.attempts| == |db.attempts|
            && (forall c :: 0 <= c < |db.calls| ==>
                  db'.calls[c] == db.calls[c].(state := if db.calls[c].state == Running then Unknown else db.calls[c].state))
            && (forall a :: 0 <= a < |db.attempts| ==>
                  db'.attempts[a] == db.attempts[a].(state := if db.attempts[a].state == InFlight then Unresolved else db.attempts[a].state))
  {
  }

  // ----- systems, agents, approvals -----

  /** A system at rest may be given any budget that covers what it has used and reserved. */
  lemma ReviseExactly(db: Db, id: Id, budget: nat)
    ensures var db' := ReviseSystem(db, id, budget);
            if id < |db.systems| && (db.systems[id].state == Inactive || db.systems[id].state == Stopped) && 1 <= budget
               && db.systems[id].used + db.systems[id].reserved <= budget
            then db' == db.(systems := db.systems[id := db.systems[id].(revision := db.systems[id].revision + 1, budget := budget)])
            else db' == db
  {
  }

  /** A child agent is at most eight steps below the operator and within its creator's budget, with an empty account. */
  lemma CreateAgentExactly(db: Db, task: Id, budget: nat)
    ensures var db' := CreateAgent(db, task, budget);
            if task < |db.tasks| && db.tasks[task].agent < |db.agents| && 1 <= budget <= db.agents[db.tasks[task].agent].budget
               && db.agents[db.tasks[task].agent].depth < 8
            then var t := db.tasks[task];
                 db' == db.(agents := db.agents + [Agent(t.system, Some(t.agent), Some(t.goal), Enabled, db.agents[t.agent].depth + 1, budget)],
                            usage := db.usage[(|db.agents|, t.goal) := Usage(0, 0)])
            else db' == db
  {
  }

  /** A version is approved once, for one to 64 uses; a disabled one keeps what it has left but cannot be used. */
  lemma ApproveExactly(db: Db, pin: Id, uses: nat, expires: int)
    ensures Approve(db, pin, uses, expires) ==
            if pin !in db.approvals && 1 <= uses <= 64 then db.(approvals := db.approvals[pin := Approval(true, expires, uses, uses)]) else db
    ensures Disable(db, pin) ==
            if pin in db.approvals then db.(approvals := db.approvals[pin := db.approvals[pin].(live := false)]) else db
  {
  }

  // ----- starting a system -----

  function BusySystems(): System -> int { (s: System) => if s.state == Active || s.state == Stopping then 1 else 0 }

  /** The start opens a new goal, or the waiting one with a budget no larger than it had. */
  predicate MayOpen(db: Db, id: Id, pending: Option<Id>, budget: nat) {
    pending.Some? ==> pending.value < |db.goals| && db.goals[pending.value].system == id && !db.goals[pending.value].started
                      && budget <= db.goals[pending.value].budget
  }

  /** The system rests and can afford the goal, the goal its first call; there is room for one more busy system and in
      the groups' queues. */
  predicate MayStart(cfg: Config, db: Db, id: Id, pending: Option<Id>, budget: nat, pins: seq<Id>, p: CallParams) {
    id < |db.systems| &&
    var s := db.systems[id];
    && (s.state == Inactive || s.state == Stopped) && Sum(db.systems, BusySystems()) < 64
    && 1 <= p.reservation <= budget && s.used + s.reserved + budget <= s.budget
    && Distinct(pins) && Queueable(cfg, db, p) && MayOpen(db, id, pending, budget)
  }

  /** The operator of a started system, hired at the first start, and the goal the start opens. */
  function OperatorId(db: Db, id: Id): Id
    requires id < |db.systems|
  {
    if db.systems[id].operator.Some? then db.systems[id].operator.value else |db.agents|
  }

  function GoalId(db: Db, pending: Option<Id>): Id { if pending.Some? then pending.value else |db.goals| }

  /** What a start writes: the system is active with its operator enabled and budgeted anew; the goal is started with
      an empty account for the operator; its root task has taken its first turn. */
  predicate StartedRows(cfg: Config, db: Db, db': Db, id: Id, pending: Option<Id>, budget: nat, continuous: bool, pins: seq<Id>, p: CallParams, seconds: int)
    requires id < |db.systems| && p.model in cfg.models && (pending.Some? ==> pending.value < |db.goals|)
  {
    var s, operator, g := db.systems[id], OperatorId(db, id), GoalId(db, pending);
    var goal := if pending.Some? then db.goals[pending.value].(started := true, continuous := continuous, budget := budget)
                else Goal(id, true, continuous, Enabled, budget, 0, 0);
    var root := Task(id, g, operator, None, false, false, 1, pins);
    && db' == db.(systems := db.systems[id := s.(state := Active, operator := Some(operator))], agents := db'.agents, goals := db'.goals,
                  usage := db.usage[(operator, g) := Usage(0, 0)], tasks := db.tasks + [root],
                  calls := db.calls + [FreshCall(cfg, root, |db.tasks|, s.revision, p, p.now + seconds * 1000)])
    && db'.goals == (if pending.Some? then db.goals[g := goal] else db.goals + [goal])
    && db'.agents == (if s.operator.None? then db.agents + [Agent(id, None, None, Enabled, 0, s.budget)]
                      else if operator < |db.agents| then db.agents[operator := db.agents[operator].(state := Enabled, budget := s.budget)]
                      else db.agents)
  }

  lemma RootOpens(cfg: Config, db: Db, id: Id, g: Id, operator: Id, pins: seq<Id>, p: CallParams)
    requires ValidConfig(cfg) && id < |db.systems| && p.model in cfg.models
    ensures var root := Task(id, g, operator, None, false, false, 1, pins);
            OpenRoot(cfg, db, id, g, operator, pins, p) ==
            db.(systems := db.systems[id := db.systems[id].(state := Active)], tasks := db.tasks + [root],
                calls := db.calls + [FreshCall(cfg, root, |db.tasks|, db.systems[id].revision, p, p.now + ShortestWait(cfg, cfg.models[p.model]) * 1000)])
  {
    hide ShortestWait;
    var first := Task(id, g, operator, None, false, false, 0, pins);
    assert (db.tasks + [first])[|db.tasks| := first.(turns := 1)] == db.tasks + [first.(turns := 1)];
  }

  /** The operator of a system that is started is there, enabled, with the system's budget. */
  lemma OperatorEnters(db: Db, id: Id)
    requires id < |db.systems|
    ensures var s, (manned, operator) := db.systems[id], EnsureOperator(db, id);
            && operator == OperatorId(db, id)
            && manned == db.(systems := db.systems[id := s.(operator := Some(operator))], agents := manned.agents)
            && manned.agents == (if s.operator.None? then db.agents + [Agent(id, None, None, Enabled, 0, s.budget)]
                                 else if operator < |db.agents| then db.agents[operator := db.agents[operator].(state := Enabled, budget := s.budget)]
                                 else db.agents)
  {
    assert db.systems[id := db.systems[id]] == db.systems;
  }

  lemma GoalOpens(db: Db, id: Id, operator: Id, pending: Option<Id>, budget: nat, continuous: bool)
    ensures var x := OpenGoal(db, id, operator, pending, budget, continuous);
            && x.Some? == MayOpen(db, id, pending, budget)
            && (x.Some? ==>
                 var goal := if pending.Some? then db.goals[pending.value].(started := true, continuous := continuous, budget := budget)
                             else Goal(id, true, continuous, Enabled, budget, 0, 0);
                 && x.value.1 == GoalId(db, pending)
                 && x.value.0 == db.(goals := if pending.Some? then db.goals[pending.value := goal] else db.goals + [goal],
                                     usage := db.usage[(operator, GoalId(db, pending)) := Usage(0, 0)]))
  {
  }

  /** The start is accepted exactly when it may be, and then operator, goal and root enter in turn. */
  lemma StartGuarded(cfg: Config, db: Db, id: Id, pending: Option<Id>, budget: nat, continuous: bool, pins: seq<Id>, p: CallParams)
    requires ValidConfig(cfg) && id < |db.systems| && p.model in cfg.models
    ensures var (manned, operator) := EnsureOperator(db, id);
            var x := OpenGoal(manned, id, operator, pending, budget, continuous);
            if MayStart(cfg, db, id, pending, budget, pins, p)
            then x.Some? && id < |x.value.0.systems| && StartSystem(cfg, db, id, pending, budget, continuous, pins, p)
                            == OpenRoot(cfg, x.value.0, id, x.value.1, operator, pins, p)
            else StartSystem(cfg, db, id, pending, budget, continuous, pins, p) == db
  {
    hide GroupsAccept, Queueable, EnsureOperator, OpenGoal, OpenRoot, ValidConfig;
    QueueableExactly(cfg, db, p);
    SumSame(db.systems, db.systems, LoadOf(), BusySystems());
    OperatorEnters(db, id);
    var (manned, operator) := EnsureOperator(db, id);
    GoalOpens(manned, id, operator, pending, budget, continuous);
  }

  lemma StartExactly(cfg: Config, db: Db, id: Id, pending: Option<Id>, budget: nat, continuous: bool, pins: seq<Id>, p: CallParams) returns (seconds: int)
    requires ValidConfig(cfg)
    ensures p.model in cfg.models ==> Shortest(cfg, cfg.models[p.model], seconds)
    ensures var db' := StartSystem(cfg, db, id, pending, budget, continuous, pins, p);
            if MayStart(cfg, db, id, pending, budget, pins, p)
            then p.model in cfg.models && StartedRows(cfg, db, db', id, pending, budget, continuous, pins, p, seconds)
            else db' == db
  {
    hide GroupsAccept, ShortestWait, Shortest, EnsureOperator, OpenGoal, OpenRoot;
    seconds := 0;
    if p.model in cfg.models && id < |db.systems| {
      hide Queueable, StartSystem;
      ShortestWaitIs(cfg, cfg.models[p.model]);
      seconds := ShortestWait(cfg, cfg.models[p.model]);
      StartGuarded(cfg, db, id, pending, budget, continuous, pins, p);
      OperatorEnters(db, id);
      var (manned, operator) := EnsureOperator(db, id);
      GoalOpens(manned, id, operator, pending, budget, continuous);
      if OpenGoal(manned, id, operator, pending, budget, continuous).Some? {
        var (begun, g) := OpenGoal(manned, id, operator, pending, budget, continuous).value;
        RootOpens(cfg, begun, id, g, operator, pins, p);
      }
    } else {
      QueueableExactly(cfg, db, p);
      QueueableModel(cfg, db, p);
      if p.model in cfg.models { ShortestWaitIs(cfg, cfg.models[p.model]); seconds := ShortestWait(cfg, cfg.models[p.model]); }
    }
  }
}
