/** The invariant of the accounting tables, and the steps that dispatch and settle nothing. */
module Invariant {
  import opened Common
  import opened Tables
  import opened Sums
  import opened Ledger
  import opened Quota
  import opened Admission
  import opened Steps
  import opened Books
  import opened Discipline
  import opened Limits
  import opened Approvals
  import opened Work

  ghost predicate Inv(cfg: Config, db: Db) {
    && Refs(cfg, db)
    && Balanced(db)
    && Capped(db)
    && Disciplined(db)
    && Limited(cfg, db)
    && ApprovalsHold(db)
    && WorkHolds(db)
  }

  lemma EmptyInv(cfg: Config)
    ensures Inv(cfg, EMPTY)
  {
  }

  ghost predicate BudgetsKept(db: Db, db': Db) {
    forall sc :: HasScope(db', sc) && HasScope(db, sc) ==>
      BudgetOf(db, sc) <= BudgetOf(db', sc) || Covered(db, sc) <= BudgetOf(db', sc)
  }

  ghost predicate RotationKept(db: Db, db': Db) {
    forall s :: 0 <= s < |db'.systems| ==>
      db'.systems[s].lastAdmission == (if s < |db.systems| then db.systems[s].lastAdmission else 0)
  }

  /** A step that neither dispatches nor settles and leaves quotas and approvals alone. */
  ghost predicate Quiet(cfg: Config, db: Db, db': Db) {
    && Refs(cfg, db') && Extends(db, db')
    && db'.attempts == db.attempts && db'.buckets == db.buckets
    && db'.approvals == db.approvals && db'.uses == db.uses
    && CallsMove(db.calls, db'.calls)
    && RotationKept(db, db') && AccountsKept(db, db') && BudgetsKept(db, db')
  }

  lemma PaidFrame(db: Db, db': Db)
    requires ApprovalsHold(db) && Extends(db, db') && SameDispatches(db.attempts, db'.attempts) && db.uses <= db'.uses
    ensures forall i :: 0 <= i < |db'.attempts| ==> AttemptPaid(db', db'.attempts[i])
  {
    forall i | 0 <= i < |db'.attempts| ensures AttemptPaid(db', db'.attempts[i]) {
      assert AttemptPaid(db, db.attempts[i]);
    }
  }

  lemma QuietApprovals(db: Db, db': Db)
    requires ApprovalsHold(db) && Extends(db, db') && SameDispatches(db.attempts, db'.attempts)
    requires db'.approvals == db.approvals && db'.uses == db.uses
    ensures ApprovalsHold(db')
  {
    PaidFrame(db, db');
    forall p | p in db'.approvals ensures ApprovalBalanced(db', p) {
      assert ApprovalBalanced(db, p);
    }
  }

  lemma QuietInv(cfg: Config, db: Db, db': Db)
    requires Inv(cfg, db) && Quiet(cfg, db, db') && WorkHolds(db')
    ensures Inv(cfg, db')
  {
    AttemptsCounted(cfg, db);
    BalancedFrame(cfg, db, db');
    CappedFrame(cfg, db, db');
    DisciplineFrame(cfg, db, db');
    LimitsFrame(cfg, db, db');
    QuietApprovals(db, db');
  }

  // ----- work -----

  ghost predicate WorkKept(db: Db, db': Db) {
    && |db'.calls| == |db.calls| && |db'.tasks| == |db.tasks|
    && (forall c :: 0 <= c < |db.calls| ==> db'.calls[c].task == db.calls[c].task)
    && (forall t :: 0 <= t < |db.tasks| ==> db'.tasks[t].goal == db.tasks[t].goal && db'.tasks[t].turns == db.tasks[t].turns)
    && |db.goals| <= |db'.goals|
    && (forall g :: 0 <= g < |db.goals| ==> db'.goals[g].continuous == db.goals[g].continuous)
    && (forall t :: 0 <= t < |db.tasks| ==> db.tasks[t].goal < |db.goals|)
  }

  lemma WorkFrame(db: Db, db': Db)
    requires WorkHolds(db) && WorkKept(db, db')
    ensures WorkHolds(db')
  {
    forall t | 0 <= t < |db'.tasks| ensures CallsOf(db'.calls, t) == db'.tasks[t].turns <= MAX_TASK_TURNS {
      SumSame(db'.calls, db.calls, Keyed(TaskKey(), t), Keyed(TaskKey(), t));
    }
    forall g | 0 <= g < |db'.goals| && !db'.goals[g].continuous ensures TasksOf(db'.tasks, g) <= MAX_GOAL_TASKS {
      SumSame(db'.tasks, db.tasks, Keyed(TaskGoalKey(), g), Keyed(TaskGoalKey(), g));
      if g >= |db.goals| {
        SumZero(db.tasks, Keyed(TaskGoalKey(), g));
      }
    }
  }

  // ----- rows that only change state -----

  /** Same rows; only states, controls, revisions, flags and the budgets of systems and agents may differ. */
  ghost predicate Relabeled(db: Db, db': Db) {
    && |db'.systems| == |db.systems| && |db'.goals| == |db.goals| && |db'.agents| == |db.agents| && |db'.tasks| == |db.tasks|
    && (forall s :: 0 <= s < |db.systems| ==>
         db'.systems[s] == db.systems[s].(state := db'.systems[s].state, revision := db'.systems[s].revision,
                                           budget := db'.systems[s].budget))
    && (forall g :: 0 <= g < |db.goals| ==> db'.goals[g] == db.goals[g].(control := db'.goals[g].control))
    && (forall a :: 0 <= a < |db.agents| ==> db'.agents[a] == db.agents[a].(state := db'.agents[a].state, budget := db'.agents[a].budget))
    && (forall t :: 0 <= t < |db.tasks| ==>
         db'.tasks[t] == db.tasks[t].(stopped := db'.tasks[t].stopped, terminal := db'.tasks[t].terminal)
         && (db.tasks[t].stopped ==> db'.tasks[t].stopped))
    && db'.usage == db.usage && db'.attempts == db.attempts && db'.buckets == db.buckets
    && db'.approvals == db.approvals && db'.uses == db.uses
  }

  /** Rows that keep the columns other tables refer to. */
  ghost predicate SameKeys(db: Db, db': Db) {
    && |db'.systems| == |db.systems| && |db'.goals| == |db.goals| && |db'.agents| == |db.agents| && |db'.tasks| == |db.tasks|
    && (forall s :: 0 <= s < |db.systems| ==> db'.systems[s].operator == db.systems[s].operator)
    && (forall g :: 0 <= g < |db.goals| ==> db'.goals[g].system == db.goals[g].system && db'.goals[g].started == db.goals[g].started)
    && (forall a :: 0 <= a < |db.agents| ==>
         db'.agents[a].system == db.agents[a].system && db'.agents[a].parent == db.agents[a].parent && db'.agents[a].goal == db.agents[a].goal)
    && TasksGrow(db.tasks, db'.tasks)
    && db'.usage.Keys == db.usage.Keys
  }

  lemma SameKeysRefs(cfg: Config, db: Db, db': Db)
    requires Refs(cfg, db) && SameKeys(db, db')
    ensures GoalRefs(db'.systems, db'.goals) && AgentForest(db'.agents) && TaskForest(db'.tasks)
    ensures AgentRefs(db'.systems, db'.goals, db'.agents)
    ensures TaskRefs(db'.systems, db'.goals, db'.agents, db'.tasks)
    ensures UsageRefs(db'.systems, db'.goals, db'.agents, db'.usage.Keys)
  {
    hide CallRefs, AttemptRefs;
  }

  lemma KeysRefs(cfg: Config, db: Db, db': Db)
    requires Refs(cfg, db) && SameKeys(db, db')
    requires |db'.calls| == |db.calls| && CallsKeep(db.calls, db'.calls)
    requires AttemptRefs(db'.calls, db'.attempts)
    ensures Refs(cfg, db') && Extends(db, db')
  {
    hide GoalRefs, AgentForest, TaskForest, AgentRefs, TaskRefs, UsageRefs, AttemptRefs;
    SameKeysRefs(cfg, db, db');
  }

  lemma RelabeledRefs(cfg: Config, db: Db, db': Db)
    requires Refs(cfg, db) && Relabeled(db, db')
    requires |db'.calls| == |db.calls| && CallsKeep(db.calls, db'.calls)
    ensures Refs(cfg, db') && Extends(db, db')
  {
    hide GoalRefs, AgentForest, TaskForest, AgentRefs, TaskRefs, UsageRefs, CallRefs;
    KeysRefs(cfg, db, db');
  }

  ghost predicate BudgetsSame(db: Db, db': Db) {
    && (forall s :: 0 <= s < |db.systems| && s < |db'.systems| ==> db'.systems[s].budget == db.systems[s].budget)
    && (forall a :: 0 <= a < |db.agents| && a < |db'.agents| ==> db'.agents[a].budget == db.agents[a].budget)
  }

  lemma RelabeledInv(cfg: Config, db: Db, db': Db)
    requires Inv(cfg, db) && Relabeled(db, db')
    requires BudgetsSame(db, db') || BudgetsKept(db, db')
    requires |db'.calls| == |db.calls| && CallsKeep(db.calls, db'.calls) && CallsMove(db.calls, db'.calls)
    ensures Inv(cfg, db') && Extends(db, db')
  {
    RelabeledRefs(cfg, db, db');
    forall sc | HasScope(db', sc)
      ensures HasScope(db, sc) && StoredUsed(db', sc) == StoredUsed(db, sc) && StoredReserved(db', sc) == StoredReserved(db, sc)
      ensures BudgetsSame(db, db') ==> BudgetOf(db', sc) == BudgetOf(db, sc)
    {
    }
    WorkFrame(db, db');
    QuietInv(cfg, db, db');
  }

  lemma CallsStill(db: Db)
    requires Disciplined(db)
    ensures CallsMove(db.calls, db.calls)
  {
    forall c | 0 <= c < |db.calls| ensures MayMove(db.calls[c], db.calls[c]) {
      assert CallDisciplined(db.calls, db.attempts, c);
    }
  }

  lemma SystemStateRelabels(db: Db, id: Id, state: SystemState)
    ensures var db' := SetSystemState(db, id, state); Relabeled(db, db') && BudgetsSame(db, db') && db'.calls == db.calls
  {
  }

  lemma SystemStateInv(cfg: Config, db: Db, id: Id, state: SystemState)
    requires Inv(cfg, db)
    ensures Inv(cfg, SetSystemState(db, id, state)) && Extends(db, SetSystemState(db, id, state))
  {
    SystemStateRelabels(db, id, state);
    CallsStill(db);
    RelabeledInv(cfg, db, SetSystemState(db, id, state));
  }

  lemma GoalControlRelabels(db: Db, id: Id, control: Control)
    ensures var db' := SetGoalControl(db, id, control); Relabeled(db, db') && BudgetsSame(db, db') && db'.calls == db.calls
  {
  }

  lemma GoalControlInv(cfg: Config, db: Db, id: Id, control: Control)
    requires Inv(cfg, db)
    ensures Inv(cfg, SetGoalControl(db, id, control)) && Extends(db, SetGoalControl(db, id, control))
  {
    GoalControlRelabels(db, id, control);
    CallsStill(db);
    RelabeledInv(cfg, db, SetGoalControl(db, id, control));
  }

  lemma AgentStateRelabels(db: Db, id: Id, control: Control)
    ensures var db' := SetAgentState(db, id, control); Relabeled(db, db') && BudgetsSame(db, db') && db'.calls == db.calls
  {
  }

  lemma AgentStateInv(cfg: Config, db: Db, id: Id, control: Control)
    requires Inv(cfg, db)
    ensures Inv(cfg, SetAgentState(db, id, control)) && Extends(db, SetAgentState(db, id, control))
  {
    AgentStateRelabels(db, id, control);
    CallsStill(db);
    RelabeledInv(cfg, db, SetAgentState(db, id, control));
  }

  lemma StopTaskRelabels(db: Db, task: Id)
    ensures var db' := StopTask(db, task); Relabeled(db, db') && BudgetsSame(db, db') && db'.calls == db.calls
  {
  }

  lemma StopTaskInv(cfg: Config, db: Db, task: Id)
    requires Inv(cfg, db)
    ensures Inv(cfg, StopTask(db, task)) && Extends(db, StopTask(db, task))
  {
    StopTaskRelabels(db, task);
    CallsStill(db);
    RelabeledInv(cfg, db, StopTask(db, task));
  }

  lemma TerminateMoves(db: Db, task: Id, state: CallState)
    requires Disciplined(db)
    ensures CallsKeep(db.calls, TerminateTask(db, task, state).calls)
    ensures CallsMove(db.calls, TerminateTask(db, task, state).calls)
  {
    CallsStill(db);
  }

  lemma TerminateTaskInv(cfg: Config, db: Db, task: Id, state: CallState)
    requires Inv(cfg, db)
    ensures Inv(cfg, TerminateTask(db, task, state)) && Extends(db, TerminateTask(db, task, state))
  {
    TerminateMoves(db, task, state);
    assert Relabeled(db, TerminateTask(db, task, state));
    RelabeledInv(cfg, db, TerminateTask(db, task, state));
  }

  /** Rewriting one call within the permitted moves. */
  lemma SetCallInv(cfg: Config, db: Db, c: Id, e: Call)
    requires Inv(cfg, db) && c < |db.calls| && MayMove(db.calls[c], e)
    requires CallKeeps(db.calls[c], e)
    ensures Inv(cfg, SetCall(db, c, e)) && Extends(db, SetCall(db, c, e))
  {
    hide Refs, Balanced, Capped, Limited, ApprovalsHold, WorkHolds, Disciplined;
    CallsStill(db);
    var db' := SetCall(db, c, e);
    assert Relabeled(db, db');
    RelabeledInv(cfg, db, db');
  }

  lemma CallDisciplineOf(db: Db, c: Id)
    requires Disciplined(db) && c < |db.calls|
    ensures CallDisciplined(db.calls, db.attempts, c)
  {
  }
}
