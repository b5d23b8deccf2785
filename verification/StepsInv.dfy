/** The remaining steps without dispatch or settlement keep the invariant. */
module StepsInv {
  import opened Common
  import opened Tables
  import opened Sums
  import opened Ledger
  import opened Quota
  import opened Admission
  import opened Steps
  import opened Books
  import opened Discipline
  import opened Limits
  import opened Approvals
  import opened Work
  import opened Invariant

  // ----- single calls -----

  lemma QueueCallInv(cfg: Config, db: Db, session: Session)
    requires Inv(cfg, db)
    ensures Inv(cfg, QueueCall(db, session)) && Extends(db, QueueCall(db, session))
  {
    if QueueCall(db, session) != db {
      CallDisciplineOf(db, session.call);
      SetCallInv(cfg, db, session.call, db.calls[session.call].(state := Queued));
    }
  }

  lemma CancelCallInv(cfg: Config, db: Db, session: Session)
    requires Inv(cfg, db)
    ensures Inv(cfg, CancelCall(db, session)) && Extends(db, CancelCall(db, session))
  {
    if CancelCall(db, session) != db {
      CallDisciplineOf(db, session.call);
      SetCallInv(cfg, db, session.call, db.calls[session.call].(state := Canceled));
    }
  }

  lemma ClaimCallInv(cfg: Config, db: Db, c: Id, owner: Id, reservation: nat)
    requires Inv(cfg, db)
    ensures Inv(cfg, ClaimCall(db, c, owner, reservation)) && Extends(db, ClaimCall(db, c, owner, reservation))
  {
    if ClaimCall(db, c, owner, reservation) != db {
      CallDisciplineOf(db, c);
      SetCallInv(cfg, db, c, ClaimCall(db, c, owner, reservation).calls[c]);
    }
  }

  lemma RetryWorkerInv(cfg: Config, db: Db, c: Id)
    requires Inv(cfg, db)
    ensures Inv(cfg, RetryWorker(db, c)) && Extends(db, RetryWorker(db, c))
  {
    if RetryWorker(db, c) != db {
      CallDisciplineOf(db, c);
      SetCallInv(cfg, db, c, db.calls[c].(state := Awaiting));
    }
  }

  // ----- approvals -----

  lemma ApproveInv(cfg: Config, db: Db, pin: Id, uses: nat, expires: int)
    requires Inv(cfg, db)
    ensures Inv(cfg, Approve(db, pin, uses, expires)) && Extends(db, Approve(db, pin, uses, expires))
  {
    var db' := Approve(db, pin, uses, expires);
    CallsStill(db);
    if db' != db {
      forall u | u in db.uses ensures u.0 != pin {
      }
      assert UsesOf(db.uses, pin) == {};
      forall p | p in db'.approvals ensures ApprovalBalanced(db', p) {
        assert p != pin ==> ApprovalBalanced(db, p);
      }
      PaidFrame(db, db');
      SideTablesInv(cfg, db, db');
    }
  }

  lemma DisableInv(cfg: Config, db: Db, pin: Id)
    requires Inv(cfg, db)
    ensures Inv(cfg, Disable(db, pin)) && Extends(db, Disable(db, pin))
  {
    var db' := Disable(db, pin);
    CallsStill(db);
    forall p | p in db'.approvals ensures ApprovalBalanced(db', p) {
      assert ApprovalBalanced(db, p);
    }
    PaidFrame(db, db');
    SideTablesInv(cfg, db, db');
  }

  /** Changing approvals and buckets alone leaves the accounting untouched. */
  lemma SideTablesInv(cfg: Config, db: Db, db': Db)
    requires Inv(cfg, db) && ApprovalsHold(db') && BucketsHold(cfg, db')
    requires db' == db.(approvals := db'.approvals, uses := db'.uses, buckets := db'.buckets)
    ensures Inv(cfg, db') && Extends(db, db')
  {
    hide Refs, Balanced, Capped, Disciplined, ApprovalsHold, WindowsHold, SlotsHold, BucketsHold, WorkHolds;
    AttemptsCounted(cfg, db);
    CallsStill(db);
    assert Extends(db, db');
    SideTablesRefs(cfg, db, db');
    BalancedFrame(cfg, db, db');
    CappedFrame(cfg, db, db');
    LimitsFrame(cfg, db, db');
    DisciplineFrame(cfg, db, db');
    WorkFrame(db, db');
  }

  lemma SideTablesRefs(cfg: Config, db: Db, db': Db)
    requires Refs(cfg, db) && db' == db.(approvals := db'.approvals, uses := db'.uses, buckets := db'.buckets)
    ensures Refs(cfg, db') && AccountsKept(db, db') && BudgetsKept(db, db') && WorkKept(db, db')
  {
  }

  // ----- new and revised rows -----

  lemma CreateSystemRefs(cfg: Config, db: Db, budget: nat, withGoal: bool)
    requires Refs(cfg, db)
    ensures Refs(cfg, CreateSystem(db, budget, withGoal))
  {
    hide AgentRefs, TaskRefs, UsageRefs, CallRefs, AttemptRefs, AgentForest, TaskForest;
    var db' := CreateSystem(db, budget, withGoal);
    if budget >= 1 {
      MoreSystems(db.systems, db'.systems, db.goals, db'.goals, db.agents, db.tasks, db.usage.Keys);
    }
  }

  /** A further system without an operator, and a further goal that has not started, break no reference. */
  lemma MoreSystems(systems: seq<System>, systems': seq<System>, goals: seq<Goal>, goals': seq<Goal>, agents: seq<Agent>, tasks: seq<Task>, rows: set<(Id, Id)>)
    requires AgentRefs(systems, goals, agents) && TaskRefs(systems, goals, agents, tasks) && UsageRefs(systems, goals, agents, rows)
    requires |systems'| == |systems| + 1 && systems'[..|systems|] == systems && systems'[|systems|].operator.None?
    requires |goals| <= |goals'| && goals'[..|goals|] == goals && forall g :: |goals| <= g < |goals'| ==> !goals'[g].started
    ensures AgentRefs(systems', goals', agents) && TaskRefs(systems', goals', agents, tasks) && UsageRefs(systems', goals', agents, rows)
  {
    assert forall s :: 0 <= s < |systems| ==> systems'[s] == systems[s];
    assert forall g :: 0 <= g < |goals| ==> goals'[g] == goals[g];
    MoreSystemsAgents(systems, systems', goals, goals', agents);
    MoreSystemsRows(systems, systems', goals, goals', agents, rows);
  }

  lemma MoreSystemsAgents(systems: seq<System>, systems': seq<System>, goals: seq<Goal>, goals': seq<Goal>, agents: seq<Agent>)
    requires AgentRefs(systems, goals, agents)
    requires |systems'| == |systems| + 1 && (forall s :: 0 <= s < |systems| ==> systems'[s] == systems[s]) && systems'[|systems|].operator.None?
    requires |goals| <= |goals'| && (forall g :: 0 <= g < |goals| ==> goals'[g] == goals[g])
    ensures AgentRefs(systems', goals', agents)
  {
  }

  lemma MoreSystemsRows(systems: seq<System>, systems': seq<System>, goals: seq<Goal>, goals': seq<Goal>, agents: seq<Agent>, rows: set<(Id, Id)>)
    requires UsageRefs(systems, goals, agents, rows) && AgentRefs(systems, goals, agents)
    requires |systems'| == |systems| + 1 && (forall s :: 0 <= s < |systems| ==> systems'[s] == systems[s])
    requires |goals| <= |goals'| && (forall g :: 0 <= g < |goals| ==> goals'[g] == goals[g]) && forall g :: |goals| <= g < |goals'| ==> !goals'[g].started
    ensures UsageRefs(systems', goals', agents, rows)
  {
  }

  lemma CreateSystemAccounts(db: Db, budget: nat, withGoal: bool)
    ensures var db' := CreateSystem(db, budget, withGoal); AccountsKept(db, db') && BudgetsKept(db, db') && RotationKept(db, db')
  {
  }

  lemma CreateSystemQuiet(cfg: Config, db: Db, budget: nat, withGoal: bool)
    requires Refs(cfg, db) && CallsMove(db.calls, db.calls)
    ensures Quiet(cfg, db, CreateSystem(db, budget, withGoal)) && WorkKept(db, CreateSystem(db, budget, withGoal))
  {
    hide AccountsKept, BudgetsKept, GoalRefs, AgentForest, TaskForest, AgentRefs, UsageRefs, CallRefs, AttemptRefs;
    CreateSystemRefs(cfg, db, budget, withGoal);
    CreateSystemAccounts(db, budget, withGoal);
  }

  lemma CreateSystemInv(cfg: Config, db: Db, budget: nat, withGoal: bool)
    requires Inv(cfg, db)
    ensures Inv(cfg, CreateSystem(db, budget, withGoal)) && Extends(db, CreateSystem(db, budget, withGoal))
  {
    CallsStill(db);
    CreateSystemQuiet(cfg, db, budget, withGoal);
    WorkFrame(db, CreateSystem(db, budget, withGoal));
    QuietInv(cfg, db, CreateSystem(db, budget, withGoal));
  }

  lemma ReviseSystemRelabels(db: Db, id: Id, budget: nat)
    requires Balanced(db)
    ensures var db' := ReviseSystem(db, id, budget); Relabeled(db, db') && BudgetsKept(db, db') && db'.calls == db.calls
  {
    var db' := ReviseSystem(db, id, budget);
    if db' != db {
      UsedPlusReserved(db, OfSystem(id));
      SumNonnegative(db.attempts, OvershootBy(db, OfSystem(id)));
    }
  }

  /** Revising a budget keeps the cap even though the floor it is tested against is the current
      usage, which may itself exceed the old budget. */
  lemma ReviseSystemInv(cfg: Config, db: Db, id: Id, budget: nat)
    requires Inv(cfg, db)
    ensures Inv(cfg, ReviseSystem(db, id, budget)) && Extends(db, ReviseSystem(db, id, budget))
  {
    ReviseSystemRelabels(db, id, budget);
    CallsStill(db);
    RelabeledInv(cfg, db, ReviseSystem(db, id, budget));
  }

  lemma AppendAgentRefs(systems: seq<System>, goals: seq<Goal>, agents: seq<Agent>, a: Agent)
    requires AgentForest(agents) && AgentRefs(systems, goals, agents)
    requires a.system < |systems| && a.parent.Some? && a.parent.value < |agents| && agents[a.parent.value].system == a.system
    requires a.goal.Some? && a.goal.value < |goals| && goals[a.goal.value].system == a.system && goals[a.goal.value].started
    requires agents[a.parent.value].goal.None? || agents[a.parent.value].goal == a.goal
    ensures AgentForest(agents + [a]) && AgentRefs(systems, goals, agents + [a])
  {
  }

  lemma CreateAgentRefs(cfg: Config, db: Db, task: Id, budget: nat)
    requires Refs(cfg, db)
    ensures Refs(cfg, CreateAgent(db, task, budget))
  {
    var db' := CreateAgent(db, task, budget);
    if db' != db {
      AppendAgentRefs(db.systems, db.goals, db.agents, db'.agents[|db.agents|]);
      assert TaskRefs(db'.systems, db'.goals, db'.agents, db'.tasks);
      AppendAgentRows(db.systems, db.goals, db.agents, db.usage.Keys, db'.agents[|db.agents|]);
      assert db'.usage.Keys == db.usage.Keys + {(|db.agents|, db.tasks[task].goal)};
    }
  }

  lemma AppendAgentRows(systems: seq<System>, goals: seq<Goal>, agents: seq<Agent>, rows: set<(Id, Id)>, a: Agent)
    requires UsageRefs(systems, goals, agents, rows)
    requires a.goal.Some? && a.goal.value < |goals| && goals[a.goal.value].system == a.system && goals[a.goal.value].started
    ensures UsageRefs(systems, goals, agents + [a], rows + {(|agents|, a.goal.value)})
  {
  }

  lemma CreateAgentAccounts(cfg: Config, db: Db, task: Id, budget: nat)
    requires Refs(cfg, db)
    ensures var db' := CreateAgent(db, task, budget);
            AccountsKept(db, db') && BudgetsKept(db, db') && RotationKept(db, db') && WorkKept(db, db')
  {
    var db' := CreateAgent(db, task, budget);
    forall sc | HasScope(db', sc)
      ensures if HasScope(db, sc) then StoredUsed(db', sc) == StoredUsed(db, sc) && StoredReserved(db', sc) == StoredReserved(db, sc)
                                       && BudgetOf(db', sc) == BudgetOf(db, sc)
              else StoredUsed(db', sc) == 0 && StoredReserved(db', sc) == 0
    {
    }
  }

  lemma CreateAgentQuiet(cfg: Config, db: Db, task: Id, budget: nat)
    requires Refs(cfg, db) && CallsMove(db.calls, db.calls)
    ensures Quiet(cfg, db, CreateAgent(db, task, budget)) && WorkKept(db, CreateAgent(db, task, budget))
  {
    hide Refs;
    CreateAgentRefs(cfg, db, task, budget);
    CreateAgentAccounts(cfg, db, task, budget);
  }

  lemma CreateAgentInv(cfg: Config, db: Db, task: Id, budget: nat)
    requires Inv(cfg, db)
    ensures Inv(cfg, CreateAgent(db, task, budget)) && Extends(db, CreateAgent(db, task, budget))
  {
    CallsStill(db);
    CreateAgentQuiet(cfg, db, task, budget);
    WorkFrame(db, CreateAgent(db, task, budget));
    QuietInv(cfg, db, CreateAgent(db, task, budget));
  }

  // ----- tasks and calls -----

  /** Only tasks and calls are appended; nothing else changes. */
  ghost predicate TeamGrows(db: Db, db': Db) {
    && db' == db.(tasks := db'.tasks, calls := db'.calls)
    && TasksGrow(db.tasks, db'.tasks) && CallsKeep(db.calls, db'.calls)
  }

  lemma TeamGrowsQuiet(cfg: Config, db: Db, db': Db)
    requires TeamGrows(db, db') && Refs(cfg, db') && CallsMove(db.calls, db'.calls)
    ensures Quiet(cfg, db, db')
  {
  }

  lemma AppendTaskRefs(cfg: Config, db: Db, t: Task)
    requires Refs(cfg, db) && TaskRefs(db.systems, db.goals, db.agents, [t])
    requires t.parent.Some? ==> t.parent.value < |db.tasks| && db.tasks[t.parent.value].system == t.system && db.tasks[t.parent.value].goal == t.goal
    ensures Refs(cfg, AppendTask(db, t)) && TeamGrows(db, AppendTask(db, t))
  {
    var tasks' := db.tasks + [t];
    assert [t][0] == t;
    assert TaskForest(tasks');
    assert TaskRefs(db.systems, db.goals, db.agents, tasks');
  }

  lemma AppendTaskWork(db: Db, t: Task)
    requires WorkHolds(db) && t.turns == 0
    requires forall c :: 0 <= c < |db.calls| ==> db.calls[c].task < |db.tasks|
    requires t.goal < |db.goals| && (db.goals[t.goal].continuous || TasksOf(db.tasks, t.goal) < MAX_GOAL_TASKS)
    ensures WorkHolds(AppendTask(db, t))
  {
    var tasks' := db.tasks + [t];
    SumZero(db.calls, Keyed(TaskKey(), |db.tasks|));
    forall g | 0 <= g < |db.goals| && !db.goals[g].continuous ensures TasksOf(tasks', g) <= MAX_GOAL_TASKS {
      SumAppend(db.tasks, t, Keyed(TaskGoalKey(), g));
    }
  }

  lemma BoundedGoalTasks(db: Db, g: Id)
    requires g < |db.goals| && !db.goals[g].continuous
    ensures GoalTasks(db, g) == TasksOf(db.tasks, g)
  {
    SumSame(db.tasks, db.tasks, CountedTask(g, true), Keyed(TaskGoalKey(), g));
  }

  lemma AppendTaskInv(cfg: Config, db: Db, t: Task)
    requires Inv(cfg, db) && TaskRefs(db.systems, db.goals, db.agents, [t]) && t.turns == 0
    requires t.parent.Some? ==> t.parent.value < |db.tasks| && db.tasks[t.parent.value].system == t.system && db.tasks[t.parent.value].goal == t.goal
    requires t.goal < |db.goals| && GoalTasks(db, t.goal) < MAX_GOAL_TASKS
    ensures Inv(cfg, AppendTask(db, t)) && Extends(db, AppendTask(db, t))
  {
    AppendTaskRefs(cfg, db, t);
    CallsStill(db);
    TeamGrowsQuiet(cfg, db, AppendTask(db, t));
    if !db.goals[t.goal].continuous {
      BoundedGoalTasks(db, t.goal);
    }
    AppendTaskWork(db, t);
    QuietInv(cfg, db, AppendTask(db, t));
  }

  lemma SpawnTaskInv(cfg: Config, db: Db, parent: Id, agent: Id, pins: seq<Id>)
    requires Inv(cfg, db) && SpawnTask(db, parent, agent, pins).Some?
    ensures var db' := SpawnTask(db, parent, agent, pins).value; Inv(cfg, db') && Extends(db, db')
  {
    hide Balanced, Capped, Disciplined, Limited, ApprovalsHold, WorkHolds;
    var t := db.tasks[parent];
    AppendTaskInv(cfg, db, Task(t.system, t.goal, agent, Some(parent), false, false, 0, pins));
  }

  lemma WakeTaskInv(cfg: Config, db: Db, previous: Id, pins: seq<Id>)
    requires Inv(cfg, db)
    ensures Inv(cfg, WakeTask(db, previous, pins)) && Extends(db, WakeTask(db, previous, pins))
  {
    hide Balanced, Capped, Disciplined, Limited, ApprovalsHold, WorkHolds;
    if WakeTask(db, previous, pins) != db {
      AppendTaskInv(cfg, db, db.tasks[previous].(terminal := false, stopped := false, turns := 0, pins := pins));
    }
  }

  /** Appending a task's next call and counting the turn. */
  lemma TakeTurnWork(db: Db, task: Id, e: Call)
    requires WorkHolds(db) && task < |db.tasks| && db.tasks[task].turns < MAX_TASK_TURNS && e.task == task
    ensures WorkHolds(TakeTurn(db, task, e))
  {
    var calls' := db.calls + [e];
    var tasks' := db.tasks[task := db.tasks[task].(turns := db.tasks[task].turns + 1)];
    forall t | 0 <= t < |tasks'| ensures CallsOf(calls', t) == tasks'[t].turns <= MAX_TASK_TURNS {
      SumAppend(db.calls, e, Keyed(TaskKey(), t));
      assert CallsOf(db.calls, t) == db.tasks[t].turns;
    }
    forall g | 0 <= g < |db.goals| && !db.goals[g].continuous ensures TasksOf(tasks', g) <= MAX_GOAL_TASKS {
      SumSame(tasks', db.tasks, Keyed(TaskGoalKey(), g), Keyed(TaskGoalKey(), g));
    }
  }

  lemma TurnTaskRefs(systems: seq<System>, goals: seq<Goal>, agents: seq<Agent>, tasks: seq<Task>, task: Id)
    requires TaskForest(tasks) && TaskRefs(systems, goals, agents, tasks) && task < |tasks|
    ensures var tasks' := tasks[task := tasks[task].(turns := tasks[task].turns + 1)];
            TaskForest(tasks') && TaskRefs(systems, goals, agents, tasks') && TasksGrow(tasks, tasks')
  {
  }

  lemma TurnCallRefs(cfg: Config, tasks: seq<Task>, tasks': seq<Task>, calls: seq<Call>, attempts: seq<Attempt>, e: Call)
    requires CallRefs(cfg, tasks, calls) && AttemptRefs(calls, attempts) && CallRefs(cfg, tasks, [e]) && TasksGrow(tasks, tasks')
    ensures CallRefs(cfg, tasks', calls + [e]) && AttemptRefs(calls + [e], attempts)
  {
    assert [e][0] == e;
  }

  lemma TakeTurnRefs(cfg: Config, db: Db, task: Id, e: Call)
    requires Refs(cfg, db) && task < |db.tasks| && CallRefs(cfg, db.tasks, [e]) && e.task == task
    ensures Refs(cfg, TakeTurn(db, task, e)) && TeamGrows(db, TakeTurn(db, task, e))
  {
    hide CallRefs, TaskRefs, TaskForest, AttemptRefs, AgentRefs, AgentForest, UsageRefs, GoalRefs;
    TurnTaskRefs(db.systems, db.goals, db.agents, db.tasks, task);
    TurnCallRefs(cfg, db.tasks, TakeTurn(db, task, e).tasks, db.calls, db.attempts, e);
  }

  lemma CallsAppend(db: Db, e: Call)
    requires Disciplined(db) && FreshCall(e)
    ensures CallsMove(db.calls, db.calls + [e])
  {
    CallsStill(db);
  }

  lemma TakeTurnInv(cfg: Config, db: Db, task: Id, e: Call)
    requires Inv(cfg, db) && task < |db.tasks| && db.tasks[task].turns < MAX_TASK_TURNS
    requires CallRefs(cfg, db.tasks, [e]) && e.task == task && FreshCall(e)
    ensures Inv(cfg, TakeTurn(db, task, e)) && Extends(db, TakeTurn(db, task, e))
  {
    hide Refs, Balanced, Capped, Disciplined, Limited, ApprovalsHold, WorkHolds;
    TakeTurnRefs(cfg, db, task, e);
    CallsAppend(db, e);
    TeamGrowsQuiet(cfg, db, TakeTurn(db, task, e));
    TakeTurnWork(db, task, e);
    QuietInv(cfg, db, TakeTurn(db, task, e));
  }

  lemma PrepareCallInv(cfg: Config, db: Db, task: Id, p: CallParams)
    requires ValidConfig(cfg) && Inv(cfg, db) && PrepareCall(cfg, db, task, p).Some?
    ensures var db' := PrepareCall(cfg, db, task, p).value; Inv(cfg, db') && Extends(db, db')
  {
    hide Refs, Balanced, Capped, Disciplined, Limited, ApprovalsHold, WorkHolds;
    var t := db.tasks[task];
    var wait := Min(p.deadline, p.now + ShortestWait(cfg, cfg.models[p.model]) * 1000);
    TakeTurnInv(cfg, db, task, NewCall(cfg, t, task, db.systems[t.system].revision, p, wait));
  }

  lemma SpawnAndPrepareInv(cfg: Config, db: Db, parent: Id, agent: Id, pins: seq<Id>, p: CallParams)
    requires ValidConfig(cfg) && Inv(cfg, db)
    ensures var db' := SpawnAndPrepare(cfg, db, parent, agent, pins, p); Inv(cfg, db') && Extends(db, db')
  {
    hide Inv, SpawnTask, PrepareCall;
    match SpawnTask(db, parent, agent, pins)
    case None =>
    case Some(spawned) =>
      SpawnTaskInv(cfg, db, parent, agent, pins);
      match PrepareCall(cfg, spawned, |db.tasks|, p)
      case None =>
      case Some(done) =>
        PrepareCallInv(cfg, spawned, |db.tasks|, p);
        ExtendsTransitive(db, spawned, done);
  }

  // ----- starting a system -----

  lemma NewOperatorRefs(cfg: Config, db: Db, id: Id)
    requires GoalRefs(db.systems, db.goals) && AgentForest(db.agents) && AgentRefs(db.systems, db.goals, db.agents)
    requires id < |db.systems| && db.systems[id].operator.None?
    ensures var db' := EnsureOperator(db, id).0;
            GoalRefs(db'.systems, db'.goals) && AgentForest(db'.agents) && AgentRefs(db'.systems, db'.goals, db'.agents)
  {
  }

  lemma NewOperatorRows(cfg: Config, db: Db, id: Id)
    requires TaskRefs(db.systems, db.goals, db.agents, db.tasks) && UsageRefs(db.systems, db.goals, db.agents, db.usage.Keys)
    requires id < |db.systems| && db.systems[id].operator.None?
    ensures var db' := EnsureOperator(db, id).0;
            TaskRefs(db'.systems, db'.goals, db'.agents, db'.tasks) && UsageRefs(db'.systems, db'.goals, db'.agents, db'.usage.Keys)
  {
  }

  lemma NewOperatorQuiet(cfg: Config, db: Db, id: Id)
    requires Refs(cfg, db) && CallsMove(db.calls, db.calls)
    requires id < |db.systems| && db.systems[id].operator.None?
    ensures var db' := EnsureOperator(db, id).0; Quiet(cfg, db, db') && WorkKept(db, db')
  {
    hide GoalRefs, AgentForest, TaskForest, TaskRefs, CallRefs, AttemptRefs;
    NewOperatorRefs(cfg, db, id);
    NewOperatorRows(cfg, db, id);
  }

  lemma OldOperatorRelabels(cfg: Config, db: Db, id: Id)
    requires Refs(cfg, db) && Capped(db) && id < |db.systems| && db.systems[id].operator.Some?
    ensures var db' := EnsureOperator(db, id).0;
            Relabeled(db, db') && BudgetsKept(db, db') && db'.calls == db.calls
  {
    var (db', a) := EnsureOperator(db, id);
    forall sc | HasScope(db', sc) && HasScope(db, sc)
      ensures BudgetOf(db, sc) <= BudgetOf(db', sc) || Covered(db, sc) <= BudgetOf(db', sc)
    {
      if sc.OfPayer? && sc.agent == a {
        PayerWithinSystem(cfg, db, a, sc.goal);
        assert HasScope(db, OfSystem(id));
      }
    }
  }

  /** Starting a goal rebinds the operator's budget to the current revision's. It stays above what
      the operator already owes in older goals, because that is part of the system's account. */
  lemma EnsureOperatorInv(cfg: Config, db: Db, id: Id)
    requires Inv(cfg, db) && id < |db.systems|
    ensures var (db', a) := EnsureOperator(db, id);
            && Inv(cfg, db') && Extends(db, db')
            && a < |db'.agents| && db'.systems[id].operator == Some(a) && db'.goals == db.goals && |db'.systems| == |db.systems|
  {
    hide Balanced, Capped, Disciplined, Limited, ApprovalsHold, WorkHolds;
    var db' := EnsureOperator(db, id).0;
    CallsStill(db);
    if db.systems[id].operator.None? {
      NewOperatorQuiet(cfg, db, id);
      WorkFrame(db, db');
      QuietInv(cfg, db, db');
    } else {
      OldOperatorRelabels(cfg, db, id);
      RelabeledInv(cfg, db, db');
    }
  }

  /** The goal row a start opens: new, or pending and so far without tasks. */
  ghost predicate Opens(db: Db, db': Db, id: Id, operator: Id, g: Id) {
    && id < |db.systems| && db.systems[id].operator == Some(operator)
    && g < |db'.goals| && db'.goals[g].system == id && db'.goals[g].started
    && db'.goals[g].used == 0 && db'.goals[g].reserved == 0
    && db' == db.(goals := db'.goals, usage := db.usage[(operator, g) := Usage(0, 0)])
    && GoalsOpen(db.goals, db'.goals, g)
  }

  ghost predicate GoalsOpen(goals: seq<Goal>, goals': seq<Goal>, g: Id) {
    && g < |goals'| && goals'[g].started
    && (if g < |goals| then goals' == goals[g := goals'[g]] && goals'[g].system == goals[g].system && !goals[g].started
        else g == |goals| && goals' == goals + [goals'[g]])
  }

  lemma GoalsOpenRefs(systems: seq<System>, goals: seq<Goal>, goals': seq<Goal>, agents: seq<Agent>, tasks: seq<Task>, g: Id)
    requires GoalsOpen(goals, goals', g) && goals'[g].system < |systems|
    requires GoalRefs(systems, goals) && AgentRefs(systems, goals, agents) && TaskRefs(systems, goals, agents, tasks)
    ensures GoalRefs(systems, goals') && AgentRefs(systems, goals', agents) && TaskRefs(systems, goals', agents, tasks)
  {
  }

  lemma GoalsOpenRows(systems: seq<System>, goals: seq<Goal>, goals': seq<Goal>, agents: seq<Agent>, rows: set<(Id, Id)>, operator: Id, g: Id)
    requires GoalsOpen(goals, goals', g) && goals'[g].system < |systems| && systems[goals'[g].system].operator == Some(operator)
    requires AgentRefs(systems, goals, agents) && UsageRefs(systems, goals, agents, rows)
    ensures UsageRefs(systems, goals', agents, rows + {(operator, g)})
  {
  }

  lemma OpensRefs(cfg: Config, db: Db, db': Db, id: Id, operator: Id, g: Id)
    requires Refs(cfg, db) && Opens(db, db', id, operator, g)
    ensures Refs(cfg, db')
  {
    hide CallRefs, TaskRefs, TaskForest, AttemptRefs, AgentRefs, AgentForest, UsageRefs, GoalRefs;
    GoalsOpenRefs(db.systems, db.goals, db'.goals, db.agents, db.tasks, g);
    GoalsOpenRows(db.systems, db.goals, db'.goals, db.agents, db.usage.Keys, operator, g);
    assert db'.usage.Keys == db.usage.Keys + {(operator, g)};
  }

  /** No task, and so no attempt, refers to a goal that was never started. */
  lemma UnstartedGoalIdle(cfg: Config, db: Db, g: Id)
    requires Refs(cfg, db) && (g < |db.goals| ==> !db.goals[g].started)
    ensures forall c: Id :: !Charges(db, c, OfGoal(g))
    ensures forall t :: 0 <= t < |db.tasks| ==> db.tasks[t].goal != g
    ensures Sum(db.attempts, ReservedBy(db, OfGoal(g))) == 0 && Sum(db.attempts, UsedBy(db, OfGoal(g))) == 0 && Covered(db, OfGoal(g)) == 0
    ensures forall a: Id :: (a, g) !in db.usage
  {
    forall c: Id ensures !Charges(db, c, OfGoal(g)) {
    }
    SumZero(db.attempts, ReservedBy(db, OfGoal(g)));
    SumZero(db.attempts, UsedBy(db, OfGoal(g)));
    SumZero(db.attempts, CoveredBy(db, OfGoal(g)));
  }

  lemma OpensAccounts(cfg: Config, db: Db, db': Db, id: Id, operator: Id, g: Id)
    requires Refs(cfg, db) && Balanced(db) && Opens(db, db', id, operator, g)
    ensures AccountsKept(db, db') && BudgetsKept(db, db') && RotationKept(db, db')
  {
    hide Refs;
    UnstartedGoalIdle(cfg, db, g);
    if g < |db.goals| {
      assert BalancedAt(db, OfGoal(g));
    }
    forall sc | HasScope(db', sc)
      ensures if HasScope(db, sc) then StoredUsed(db', sc) == StoredUsed(db, sc) && StoredReserved(db', sc) == StoredReserved(db, sc)
              else StoredUsed(db', sc) == 0 && StoredReserved(db', sc) == 0
      ensures HasScope(db, sc) ==> BudgetOf(db, sc) <= BudgetOf(db', sc) || Covered(db, sc) <= BudgetOf(db', sc)
    {
      match sc
      case OfSystem(s) =>
      case OfGoal(k) =>
      case OfPayer(a, k) =>
    }
  }

  lemma OpensWork(cfg: Config, db: Db, db': Db, id: Id, operator: Id, g: Id)
    requires Refs(cfg, db) && WorkHolds(db) && Opens(db, db', id, operator, g)
    ensures WorkHolds(db') && TasksOf(db'.tasks, g) == 0
  {
    UnstartedGoalIdle(cfg, db, g);
    SumZero(db.tasks, Keyed(TaskGoalKey(), g));
  }

  lemma OpensInv(cfg: Config, db: Db, db': Db, id: Id, operator: Id, g: Id)
    requires Inv(cfg, db) && Opens(db, db', id, operator, g)
    ensures Inv(cfg, db') && Extends(db, db')
  {
    hide Refs, Balanced, Capped, Disciplined, Limited, ApprovalsHold, WorkHolds, AccountsKept, BudgetsKept, RotationKept;
    OpensRefs(cfg, db, db', id, operator, g);
    OpensAccounts(cfg, db, db', id, operator, g);
    OpensWork(cfg, db, db', id, operator, g);
    CallsStill(db);
    QuietInv(cfg, db, db');
  }

  lemma OpenGoalOpens(cfg: Config, db: Db, id: Id, operator: Id, pending: Option<Id>, budget: nat, continuous: bool)
    requires Refs(cfg, db) && Balanced(db) && id < |db.systems| && db.systems[id].operator == Some(operator)
    requires OpenGoal(db, id, operator, pending, budget, continuous).Some?
    ensures var (db', g) := OpenGoal(db, id, operator, pending, budget, continuous).value; Opens(db, db', id, operator, g)
  {
    var (db', g) := OpenGoal(db, id, operator, pending, budget, continuous).value;
    if g < |db.goals| {
      UnstartedGoalIdle(cfg, db, g);
      assert BalancedAt(db, OfGoal(g));
    }
  }

  lemma RootRefs(cfg: Config, db: Db, id: Id, g: Id, operator: Id, pins: seq<Id>)
    requires Refs(cfg, db) && Distinct(pins)
    requires id < |db.systems| && db.systems[id].operator == Some(operator)
    requires g < |db.goals| && db.goals[g].started && db.goals[g].system == id
    ensures TaskRefs(db.systems, db.goals, db.agents, [Task(id, g, operator, None, false, false, 0, pins)])
  {
    assert [Task(id, g, operator, None, false, false, 0, pins)][0].pins == pins;
  }

  lemma FirstCallRefs(cfg: Config, db: Db, t: Task, revision: nat, p: CallParams, wait: int)
    requires p.model in cfg.models
    ensures CallRefs(cfg, AppendTask(db, t).tasks, [NewCall(cfg, t, |db.tasks|, revision, p, wait)])
  {
  }

  lemma OpenRootInv(cfg: Config, db: Db, id: Id, g: Id, operator: Id, pins: seq<Id>, p: CallParams)
    requires ValidConfig(cfg) && Inv(cfg, db) && p.model in cfg.models && p.reservation > 0
    requires id < |db.systems| && db.systems[id].operator == Some(operator) && Distinct(pins)
    requires g < |db.goals| && db.goals[g].started && db.goals[g].system == id && TasksOf(db.tasks, g) == 0
    ensures Inv(cfg, OpenRoot(cfg, db, id, g, operator, pins, p)) && Extends(db, OpenRoot(cfg, db, id, g, operator, pins, p))
  {
    hide Refs, Balanced, Capped, Disciplined, Limited, ApprovalsHold, WorkHolds, Extends, CallRefs, TaskRefs;
    var root := Task(id, g, operator, None, false, false, 0, pins);
    var wait := p.now + ShortestWait(cfg, cfg.models[p.model]) * 1000;
    var e := NewCall(cfg, root, |db.tasks|, db.systems[id].revision, p, wait);
    RootRefs(cfg, db, id, g, operator, pins);
    SumAtMost(db.tasks, db.tasks, CountedTask(g, !db.goals[g].continuous), Keyed(TaskGoalKey(), g));
    AppendTaskInv(cfg, db, root);
    var one := AppendTask(db, root);
    FirstCallRefs(cfg, db, root, db.systems[id].revision, p, wait);
    TakeTurnInv(cfg, one, |db.tasks|, e);
    var two := TakeTurn(one, |db.tasks|, e);
    SystemStateInv(cfg, two, id, Active);
    ExtendsTransitive(db, one, two);
    ExtendsTransitive(db, two, SetSystemState(two, id, Active));
  }

  lemma StartSystemInv(cfg: Config, db: Db, id: Id, pending: Option<Id>, budget: nat, continuous: bool, pins: seq<Id>, p: CallParams)
    requires ValidConfig(cfg) && Inv(cfg, db)
    ensures var db' := StartSystem(cfg, db, id, pending, budget, continuous, pins, p); Inv(cfg, db') && Extends(db, db')
  {
    hide Refs, Balanced, Capped, Disciplined, Limited, ApprovalsHold, WorkHolds, OpenGoal, EnsureOperator, OpenRoot;
    var db' := StartSystem(cfg, db, id, pending, budget, continuous, pins, p);
    if db' == db {
      CallsStill(db);
    } else {
      EnsureOperatorInv(cfg, db, id);
      var (manned, operator) := EnsureOperator(db, id);
      OpenGoalOpens(cfg, manned, id, operator, pending, budget, continuous);
      var (begun, g) := OpenGoal(manned, id, operator, pending, budget, continuous).value;
      OpensInv(cfg, manned, begun, id, operator, g);
      OpensWork(cfg, manned, begun, id, operator, g);
      OpenRootInv(cfg, begun, id, g, operator, pins, p);
      ExtendsTransitive(db, manned, begun);
      ExtendsTransitive(db, begun, db');
    }
  }
}
