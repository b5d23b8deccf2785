/** Runs of the accounting steps from the empty store, and what holds throughout every run. */
module Runs {
  import opened Common
  import opened Tables
  import opened Sums
  import opened Quota
  import opened Admission
  import opened Steps
  import opened Books
  import opened Discipline
  import opened Limits
  import opened Approvals
  import opened Work
  import opened Invariant
  import opened StepsInv
  import opened AdmissionInv

  /** Steps as the world can choose them: everything is arbitrary except that provider results come
      from the adapter. */
  predicate Plausible(step: Step) {
    step.DoSettle? ==> FromAdapter(step.result)
  }

  lemma AdministrationInv(cfg: Config, db: Db, step: Step)
    requires ValidConfig(cfg) && Inv(cfg, db)
    requires step.DoCreateSystem? || step.DoReviseSystem? || step.DoStartSystem? || step.DoSetSystemState?
             || step.DoSetGoalControl? || step.DoSetAgentState? || step.DoApprove? || step.DoDisable?
    ensures Inv(cfg, Next(cfg, db, step)) && Extends(db, Next(cfg, db, step))
  {
    hide Inv, Extends;
    match step
    case DoCreateSystem(budget, withGoal) => CreateSystemInv(cfg, db, budget, withGoal);
    case DoReviseSystem(id, budget) => ReviseSystemInv(cfg, db, id, budget);
    case DoStartSystem(id, pending, budget, continuous, pins, p) => StartSystemInv(cfg, db, id, pending, budget, continuous, pins, p);
    case DoSetSystemState(id, state) => SystemStateInv(cfg, db, id, state);
    case DoSetGoalControl(id, control) => GoalControlInv(cfg, db, id, control);
    case DoSetAgentState(id, control) => AgentStateInv(cfg, db, id, control);
    case DoApprove(pin, uses, expires) => ApproveInv(cfg, db, pin, uses, expires);
    case DoDisable(pin) => DisableInv(cfg, db, pin);
  }

  lemma TeamInv(cfg: Config, db: Db, step: Step)
    requires ValidConfig(cfg) && Inv(cfg, db)
    requires step.DoCreateAgent? || step.DoSpawn? || step.DoDelegate? || step.DoPrepare? || step.DoWake?
             || step.DoStopTask? || step.DoTerminate?
    ensures Inv(cfg, Next(cfg, db, step)) && Extends(db, Next(cfg, db, step))
  {
    hide Inv, Extends, SpawnTask, PrepareCall;
    ExtendsSelf(db);
    match step
    case DoCreateAgent(task, budget) => CreateAgentInv(cfg, db, task, budget);
    case DoSpawn(task, agent, pins) => if SpawnTask(db, task, agent, pins).Some? { SpawnTaskInv(cfg, db, task, agent, pins); }
    case DoDelegate(task, agent, pins, p) => SpawnAndPrepareInv(cfg, db, task, agent, pins, p);
    case DoPrepare(task, p) => if PrepareCall(cfg, db, task, p).Some? { PrepareCallInv(cfg, db, task, p); }
    case DoWake(task, pins) => WakeTaskInv(cfg, db, task, pins);
    case DoStopTask(task) => StopTaskInv(cfg, db, task);
    case DoTerminate(task, outcome) => TerminateTaskInv(cfg, db, task, outcome);
  }

  lemma CallStepInv(cfg: Config, db: Db, step: Step)
    requires ValidConfig(cfg) && Inv(cfg, db) && Plausible(step)
    requires step.DoClaim? || step.DoQueue? || step.DoAdmit? || step.DoSettle? || step.DoCancel? || step.DoRetryWorker? || step.DoRecover?
    ensures Inv(cfg, Next(cfg, db, step)) && Extends(db, Next(cfg, db, step))
  {
    hide Inv, Extends, Admit, Settle, Requeues, MaySettle;
    match step
    case DoClaim(c, owner, reservation) => ClaimCallInv(cfg, db, c, owner, reservation);
    case DoQueue(session) => QueueCallInv(cfg, db, session);
    case DoAdmit(session, now, denied) => AdmitInv(cfg, db, session, now, denied);
    case DoSettle(session, p, now) => SettleStepInv(cfg, db, session, p, now);
    case DoCancel(session) => CancelCallInv(cfg, db, session);
    case DoRetryWorker(c) => RetryWorkerInv(cfg, db, c);
    case DoRecover => RecoverInv(cfg, db);
  }

  lemma SettleStepInv(cfg: Config, db: Db, session: Session, p: ProviderResult, now: int)
    requires ValidConfig(cfg) && Inv(cfg, db) && FromAdapter(p)
    ensures Inv(cfg, Settle(cfg, db, session, p, now)) && Extends(db, Settle(cfg, db, session, p, now))
  {
    SettleInv(cfg, db, session, p, now);
  }

  /** Every step keeps the invariant and only extends the tables. */
  lemma NextInv(cfg: Config, db: Db, step: Step)
    requires ValidConfig(cfg) && Inv(cfg, db) && Plausible(step)
    ensures Inv(cfg, Next(cfg, db, step)) && Extends(db, Next(cfg, db, step))
  {
    hide Inv, Extends, Next, Plausible;
    if step.DoCreateSystem? || step.DoReviseSystem? || step.DoStartSystem? || step.DoSetSystemState?
       || step.DoSetGoalControl? || step.DoSetAgentState? || step.DoApprove? || step.DoDisable? {
      AdministrationInv(cfg, db, step);
    } else if step.DoCreateAgent? || step.DoSpawn? || step.DoDelegate? || step.DoPrepare? || step.DoWake?
              || step.DoStopTask? || step.DoTerminate? {
      TeamInv(cfg, db, step);
    } else {
      CallStepInv(cfg, db, step);
    }
  }

  /** A run: any interleaving of the store's transactions, crashes included. */
  ghost predicate IsRun(cfg: Config, states: seq<Db>, steps: seq<Step>)
    requires ValidConfig(cfg)
  {
    && |states| == |steps| + 1
    && (forall i :: 0 <= i < |steps| ==> Plausible(steps[i]))
    && (forall i :: 0 <= i < |steps| ==> Refs(cfg, states[i]) && states[i + 1] == Next(cfg, states[i], steps[i]))
  }

  /** From any state that satisfies the invariant, all states of all runs satisfy it. */
  lemma {:induction false} RunInv(cfg: Config, states: seq<Db>, steps: seq<Step>, i: nat)
    requires ValidConfig(cfg) && IsRun(cfg, states, steps) && i <= |steps| && Inv(cfg, states[0])
    ensures Inv(cfg, states[i]) && Extends(states[0], states[i])
  {
    hide Inv, Extends, Next, Plausible, Refs;
    if i == 0 {
      ExtendsSelf(states[0]);
    } else {
      RunInv(cfg, states, steps, i - 1);
      NextInv(cfg, states[i - 1], steps[i - 1]);
      ExtendsTransitive(states[0], states[i - 1], states[i]);
    }
  }

  /** Ledger conservation and the budget cap at every account, in every state a store can reach. */
  lemma LedgerTheorem(cfg: Config, states: seq<Db>, steps: seq<Step>, i: nat, sc: Scope)
    requires ValidConfig(cfg) && IsRun(cfg, states, steps) && states[0] == EMPTY && i <= |steps| && HasScope(states[i], sc)
    ensures StoredReserved(states[i], sc) == Sum(states[i].attempts, ReservedBy(states[i], sc))
    ensures StoredUsed(states[i], sc) == Sum(states[i].attempts, UsedBy(states[i], sc))
    ensures 0 <= StoredUsed(states[i], sc) && 0 <= StoredReserved(states[i], sc)
    ensures StoredUsed(states[i], sc) + StoredReserved(states[i], sc) <= BudgetOf(states[i], sc) + Overshoot(states[i], sc)
  {
    hide Refs, Disciplined, Limited, ApprovalsHold, WorkHolds, Plausible, Next, Capped;
    EmptyInv(cfg);
    RunInv(cfg, states, steps, i);
    assert BalancedAt(states[i], sc);
    BudgetCap(states[i], sc);
  }

  /** The dispatch reservation of a request of the group in the minute that ends at `t`. */
  function InMinute(db: Db, g: Id, t: int): Attempt -> int {
    (a: Attempt) =>
      if t - 60000 < a.dispatchedAt <= t && a.call < |db.calls| && g in db.calls[a.call].groups then db.calls[a.call].reservation else 0
  }

  /** Quota groups in every reachable state: any minute's reservations, the slots, the credit. */
  lemma QuotaTheorem(cfg: Config, states: seq<Db>, steps: seq<Step>, i: nat, g: Id, t: int)
    requires ValidConfig(cfg) && IsRun(cfg, states, steps) && states[0] == EMPTY && i <= |steps| && g in cfg.groups
    ensures Sum(states[i].attempts, InMinute(states[i], g, t)) <= cfg.groups[g].tokensPerMinute
    ensures InFlightCount(states[i].calls, states[i].attempts, g) <= cfg.groups[g].maxConcurrent
    ensures g in states[i].buckets ==> 0.0 <= states[i].buckets[g].credit <= cfg.groups[g].burst as real
  {
    hide Refs, Disciplined, Balanced, Capped, ApprovalsHold, WorkHolds, Plausible, Next;
    SumSame(states[i].attempts, states[i].attempts, InMinute(states[i], g, t), InWindow(states[i], g, t));
    EmptyInv(cfg);
    RunInv(cfg, states, steps, i);
    assert WindowTokens(states[i], g, t) <= cfg.groups[g].tokensPerMinute;
  }

  /** Attempts in every reachable state. */
  lemma AttemptTheorem(cfg: Config, states: seq<Db>, steps: seq<Step>, i: nat, c: Id)
    requires ValidConfig(cfg) && IsRun(cfg, states, steps) && states[0] == EMPTY && i <= |steps| && c < |states[i].calls|
    ensures states[i].calls[c].attempts == CountOf(states[i].attempts, c) <= 3
    ensures states[i].calls[c].state == Running <==> HasInFlight(states[i].attempts, c)
    ensures forall j, k :: 0 <= j < k < |states[i].attempts| && states[i].attempts[j].call == c == states[i].attempts[k].call ==>
              Throttled(states[i].attempts[j])
  {
    hide Refs, Limited, Balanced, Capped, ApprovalsHold, WorkHolds, Plausible, Next;
    EmptyInv(cfg);
    RunInv(cfg, states, steps, i);
    assert CallDisciplined(states[i].calls, states[i].attempts, c);
  }

  /** Approval uses in every reachable state. */
  lemma ApprovalTheorem(cfg: Config, states: seq<Db>, steps: seq<Step>, i: nat)
    requires ValidConfig(cfg) && IsRun(cfg, states, steps) && states[0] == EMPTY && i <= |steps|
    ensures ApprovalsHold(states[i])
  {
    hide Refs, Limited, Balanced, Capped, Disciplined, ApprovalsHold, WorkHolds, Plausible, Next;
    EmptyInv(cfg);
    RunInv(cfg, states, steps, i);
  }

  /** A bounded goal's work in every reachable state: 64 tasks, eight calls each, three dispatches each. */
  lemma WorkTheorem(cfg: Config, states: seq<Db>, steps: seq<Step>, i: nat, g: Id)
    requires ValidConfig(cfg) && IsRun(cfg, states, steps) && states[0] == EMPTY && i <= |steps|
    requires g < |states[i].goals| && !states[i].goals[g].continuous
    ensures TasksOf(states[i].tasks, g) <= 64
    ensures GoalCalls(states[i], g) <= 8 * TasksOf(states[i].tasks, g)
    ensures GoalAttempts(states[i], g) <= 64 * 8 * 3
  {
    hide Refs, Limited, Balanced, Capped, ApprovalsHold, Disciplined, Plausible, Next;
    EmptyInv(cfg);
    RunInv(cfg, states, steps, i);
    GoalCallsBound(cfg, states[i], g);
    GoalAttemptsBound(cfg, states[i], g);
  }
}
