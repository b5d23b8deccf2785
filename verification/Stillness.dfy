/** What every step other than an admission leaves alone. */
module Stillness {
  import opened Common
  import opened Tables
  import opened Sums
  import opened Ledger
  import opened Quota
  import opened Admission
  import opened Steps

  predicate Closed(state: CallState) {
    state == Completed || state == Failed || state == Canceled || state == Rejected || state == Unknown
  }

  /** The request itself is permanent, and its outcome is once it has one. */
  predicate AttemptRemembered(a: Attempt, a': Attempt) {
    a'.call == a.call && a'.system == a.system && a'.dispatchedAt == a.dispatchedAt && (a.state != InFlight ==> a' == a)
  }

  predicate CallRemembered(e: Call, e': Call) {
    Closed(e.state) ==> e'.state == e.state && e'.attempts == e.attempts
  }

  ghost predicate CallsRemembered(calls: seq<Call>, calls': seq<Call>) {
    |calls| <= |calls'| && forall c :: 0 <= c < |calls| ==> CallRemembered(calls[c], calls'[c])
  }

  ghost predicate AttemptsStill(attempts: seq<Attempt>, attempts': seq<Attempt>) {
    |attempts'| == |attempts| && forall i :: 0 <= i < |attempts| ==> AttemptRemembered(attempts[i], attempts'[i])
  }

  ghost predicate RotationStill(systems: seq<System>, systems': seq<System>) {
    |systems| <= |systems'| && forall s :: 0 <= s < |systems| ==> systems'[s].lastAdmission == systems[s].lastAdmission
  }

  /** At most a cooldown starts. */
  ghost predicate CreditStill(buckets: map<Id, Bucket>, buckets': map<Id, Bucket>) {
    && buckets'.Keys == buckets.Keys
    && forall g :: g in buckets ==> buckets'[g].credit == buckets[g].credit && buckets'[g].updated == buckets[g].updated
  }

  /** No request is made, no outcome changes, no system moves in the rotation and no credit is spent. */
  ghost predicate Still(db: Db, db': Db) {
    && CallsRemembered(db.calls, db'.calls)
    && AttemptsStill(db.attempts, db'.attempts)
    && RotationStill(db.systems, db'.systems)
    && CreditStill(db.buckets, db'.buckets)
  }

  lemma StartStill(cfg: Config, db: Db, id: Id, pending: Option<Id>, budget: nat, continuous: bool, pins: seq<Id>, p: CallParams)
    requires ValidConfig(cfg)
    ensures Still(db, StartSystem(cfg, db, id, pending, budget, continuous, pins, p))
  {
    hide ValidConfig, Still, EnsureOperator, OpenGoal, OpenRoot;
    StillSelf(db);
    var db' := StartSystem(cfg, db, id, pending, budget, continuous, pins, p);
    if db' != db {
      var (manned, operator) := EnsureOperator(db, id);
      var (begun, g) := OpenGoal(manned, id, operator, pending, budget, continuous).value;
      MannedStill(db, id);
      OpenStill(cfg, db, begun, id, g, operator, pins, p) by { OpenedStill(db, manned, id, operator, pending, budget, continuous); }
    }
  }

  lemma StillSelf(db: Db)
    ensures Still(db, db)
  {
  }

  lemma RowsStill(db: Db, db': Db)
    requires db'.attempts == db.attempts && db'.buckets == db.buckets
    requires CallsRemembered(db.calls, db'.calls) && RotationStill(db.systems, db'.systems)
    ensures Still(db, db')
  {
  }

  lemma MoreCalls(calls: seq<Call>, calls': seq<Call>)
    requires |calls| <= |calls'| && calls'[..|calls|] == calls
    ensures CallsRemembered(calls, calls')
  {
  }

  lemma MannedStill(db: Db, id: Id)
    requires id < |db.systems|
    ensures Still(db, EnsureOperator(db, id).0) && |EnsureOperator(db, id).0.systems| == |db.systems|
  {
  }

  lemma OpenedStill(db: Db, manned: Db, id: Id, operator: Id, pending: Option<Id>, budget: nat, continuous: bool)
    requires Still(db, manned) && OpenGoal(manned, id, operator, pending, budget, continuous).Some?
    ensures var begun := OpenGoal(manned, id, operator, pending, budget, continuous).value.0;
            Still(db, begun) && |begun.systems| == |manned.systems|
  {
    hide CallsRemembered, AttemptsStill, RotationStill, CreditStill;
  }

  lemma OpenStill(cfg: Config, db: Db, begun: Db, id: Id, g: Id, operator: Id, pins: seq<Id>, p: CallParams)
    requires ValidConfig(cfg) && Still(db, begun) && id < |begun.systems| && p.model in cfg.models
    ensures Still(db, OpenRoot(cfg, begun, id, g, operator, pins, p))
  {
    hide ValidConfig, AttemptsStill, CreditStill;
  }

  /** Steps of administrators touch no call. */
  lemma AdministrationStill(cfg: Config, db: Db, step: Step)
    requires ValidConfig(cfg) && Refs(cfg, db)
    requires step.DoCreateSystem? || step.DoReviseSystem? || step.DoSetSystemState? || step.DoSetGoalControl?
             || step.DoSetAgentState? || step.DoApprove? || step.DoDisable?
    ensures Still(db, Next(cfg, db, step))
  {
    hide Refs, ValidConfig, Still, CallsRemembered;
    MoreCalls(db.calls, db.calls);
    RowsStill(db, Next(cfg, db, step));
  }

  /** Steps of teams at most append calls. */
  lemma TeamStill(cfg: Config, db: Db, step: Step)
    requires ValidConfig(cfg) && Refs(cfg, db)
    requires step.DoCreateAgent? || step.DoSpawn? || step.DoPrepare? || step.DoWake? || step.DoStopTask?
    ensures Still(db, Next(cfg, db, step))
  {
    hide Refs, ValidConfig, GroupsAccept, GoalTasks, Still, CallsRemembered;
    var db' := Next(cfg, db, step);
    MoreCalls(db.calls, db'.calls);
    RowsStill(db, db');
  }

  lemma DelegateStill(cfg: Config, db: Db, task: Id, agent: Id, pins: seq<Id>, p: CallParams)
    requires ValidConfig(cfg)
    ensures Still(db, SpawnAndPrepare(cfg, db, task, agent, pins, p))
  {
    hide ValidConfig, GroupsAccept, GoalTasks;
  }

  lemma SetStill(db: Db, c: Id, e: Call)
    requires c < |db.calls| && CallRemembered(db.calls[c], e)
    ensures Still(db, SetCall(db, c, e))
  {
    RowsStill(db, SetCall(db, c, e));
  }

  lemma CallStill(db: Db, session: Session, c: Id, owner: Id, reservation: nat)
    ensures Still(db, ClaimCall(db, c, owner, reservation)) && Still(db, QueueCall(db, session))
    ensures Still(db, CancelCall(db, session)) && Still(db, RetryWorker(db, c))
  {
    hide Still, SetCall;
    StillSelf(db);
    forall k: Id, e: Call | k < |db.calls| && CallRemembered(db.calls[k], e) ensures Still(db, SetCall(db, k, e)) {
      SetStill(db, k, e);
    }
  }

  lemma SweepStill(db: Db, t: Id, state: CallState)
    ensures Still(db, TerminateTask(db, t, state)) && Still(db, Recover(db))
  {
  }

  lemma SettleStill(cfg: Config, db: Db, session: Session, p: ProviderResult, now: int)
    requires ValidConfig(cfg) && Refs(cfg, db)
    ensures Still(db, Settle(cfg, db, session, p, now))
  {
    hide ValidConfig, SettleCall, GoalRefs, AgentForest, TaskForest, AgentRefs, UsageRefs;
  }

  lemma StepStill(cfg: Config, db: Db, step: Step)
    requires ValidConfig(cfg) && Refs(cfg, db) && !step.DoAdmit?
    ensures Still(db, Next(cfg, db, step))
  {
    hide ValidConfig, Refs, Still;
    match step
    case DoSettle(session, p, now) => SettleStill(cfg, db, session, p, now);
    case DoStartSystem(id, pending, budget, continuous, pins, p) => StartStill(cfg, db, id, pending, budget, continuous, pins, p);
    case DoDelegate(task, agent, pins, p) => DelegateStill(cfg, db, task, agent, pins, p);
    case DoTerminate(t, outcome) => SweepStill(db, t, outcome);
    case DoClaim(c, owner, reservation) => CallStill(db, Session(0, 0), c, owner, reservation);
    case DoQueue(session) => CallStill(db, session, 0, 0, 0);
    case DoCancel(session) => CallStill(db, session, 0, 0, 0);
    case DoRetryWorker(c) => CallStill(db, Session(0, 0), c, 0, 0);
    case DoRecover => SweepStill(db, 0, Failed);
    case DoCreateAgent(_, _) => TeamStill(cfg, db, step);
    case DoSpawn(_, _, _) => TeamStill(cfg, db, step);
    case DoPrepare(_, _) => TeamStill(cfg, db, step);
    case DoWake(_, _) => TeamStill(cfg, db, step);
    case DoStopTask(_) => TeamStill(cfg, db, step);
    case _ => AdministrationStill(cfg, db, step);
  }
}
