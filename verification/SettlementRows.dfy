/** Settlement read off the tables: what every row is afterwards, and how a call comes to be completed. */
module SettlementRows {
  import opened Common
  import opened Tables
  import opened Sums
  import opened Ledger
  import opened Quota
  import opened Admission
  import opened Steps
  import Invariant
  import opened Runs
  import AdmissionRows

  function Places(g: Id): Call -> int {
    (e: Call) => if g in e.groups && (e.state == Awaiting || e.state == Queued) then 1 else 0
  }

  /** A throttled request is tried again: fewer than three attempts so far, the deadline ahead, the system active
      and a queue place in every group. */
  predicate TriedAgain(cfg: Config, db: Db, c: Id, p: ProviderResult, now: int)
    requires Refs(cfg, db) && c < |db.calls|
  {
    var e := db.calls[c];
    && p.retry && e.attempts < 3 && now < e.deadline && db.systems[e.system].state == Active
    && forall g :: g in e.groups ==> g in cfg.groups && Sum(db.calls, Places(g)) < cfg.groups[g].queueCapacity
  }

  /** The shortest wait that the groups allow, an hour at most. */
  ghost predicate Shortest(cfg: Config, groups: seq<Id>, seconds: int) {
    && seconds <= 3600 && (forall g :: g in groups && g in cfg.groups ==> seconds <= cfg.groups[g].maxWaitSeconds)
    && (seconds == 3600 || exists g :: g in groups && g in cfg.groups && seconds == cfg.groups[g].maxWaitSeconds)
  }

  /** The settled call: back in the queue with a fresh wait, or closed by what the provider reported. */
  ghost predicate CallSettled(cfg: Config, db: Db, e': Call, c: Id, p: ProviderResult, now: int)
    requires Refs(cfg, db) && c < |db.calls|
  {
    var e := db.calls[c];
    if TriedAgain(cfg, db, c, p, now) then
      && e' == e.(state := Queued, queuedAt := now, waitDeadline := e'.waitDeadline)
      && exists seconds: int :: Shortest(cfg, e.groups, seconds)
           && e'.waitDeadline == (if e.deadline < now + seconds * 1000 then e.deadline else now + seconds * 1000)
    else
      && e' == e.(state := e'.state)
      && (e'.state == Completed <==> p.known && !p.failed)
      && (e'.state == Failed <==> p.known && p.failed)
      && (e'.state == Unknown <==> !p.known)
  }

  /** The attempt on the network gets its outcome; a known one its usage, and its stored reservation is raised to it. */
  predicate AttemptSettled(a: Attempt, a': Attempt, c: Id, p: ProviderResult) {
    if a.call != c || a.state != InFlight then a' == a
    else if !p.known then a' == a.(state := Unresolved)
    else
      && a' == a.(state := Settled, input := p.input, output := p.output, throttled := p.retry, reservation := a'.reservation)
      && a.reservation <= a'.reservation && p.input + p.output <= a'.reservation
      && (a'.reservation == a.reservation || a'.reservation == p.input + p.output)
  }

  /** A known outcome moves the reservation to the used tokens of system, goal and payers. */
  ghost predicate LedgerSettled(db: Db, db': Db, c: Id, p: ProviderResult)
    requires c < |db.calls| && db.calls[c].system < |db.systems| && db.calls[c].goal < |db.goals|
  {
    var e := db.calls[c];
    var s, g, actual := db.systems[e.system], db.goals[e.goal], p.input + p.output;
    if p.known then
      && db'.systems == db.systems[e.system := s.(reserved := s.reserved - e.reservation, used := s.used + actual)]
      && db'.goals == db.goals[e.goal := g.(reserved := g.reserved - e.reservation, used := g.used + actual)]
      && db'.usage.Keys == db.usage.Keys
      && forall k :: k in db.usage ==>
           db'.usage[k] == if k.1 == e.goal && k.0 in Payers(db.agents, db.tasks, e.agent, e.task)
                           then Usage(db.usage[k].used + actual, db.usage[k].reserved - e.reservation) else db.usage[k]
    else db'.systems == db.systems && db'.goals == db.goals && db'.usage == db.usage
  }

  /** A throttling provider's groups cool down, never for less than before. */
  ghost predicate BucketsSettled(db: Db, db': Db, c: Id, p: ProviderResult, now: int)
    requires c < |db.calls|
  {
    var until := if p.cooldown.Some? then p.cooldown.value else now + p.retryDelay;
    && db'.buckets.Keys == db.buckets.Keys
    && forall g :: g in db.buckets ==>
         db'.buckets[g] == if p.retry && g in db.calls[c].groups && db.buckets[g].cooldown < until
                           then db.buckets[g].(cooldown := until) else db.buckets[g]
  }

  lemma {:induction false} ShortestWaitIs(cfg: Config, groups: seq<Id>)
    requires forall g :: g in groups ==> g in cfg.groups
    ensures Shortest(cfg, groups, ShortestWait(cfg, groups))
  {
    if groups != [] {
      var init, last := groups[..|groups| - 1], groups[|groups| - 1];
      assert groups == init + [last];
      ShortestWaitIs(cfg, init);
      assert last in groups;
      var w := ShortestWait(cfg, init);
      if w != 3600 && w <= cfg.groups[last].maxWaitSeconds {
        var g :| g in init && g in cfg.groups && w == cfg.groups[g].maxWaitSeconds;
        assert g in groups;
      }
    }
  }

  lemma TriedAgainExactly(cfg: Config, db: Db, c: Id, p: ProviderResult, now: int)
    requires ValidConfig(cfg) && Refs(cfg, db) && c < |db.calls|
    ensures Requeues(cfg, db, c, p, now) <==> TriedAgain(cfg, db, c, p, now)
  {
    hide GoalRefs, AgentForest, TaskForest, AgentRefs, UsageRefs, AttemptRefs;
    CallGroups(cfg, db, c);
    forall g | g in db.calls[c].groups ensures QueuedCount(db.calls, g) == Sum(db.calls, Places(g)) {
      SumSame(db.calls, db.calls, QueuedIn(g), Places(g));
    }
  }

  lemma CallSettledExactly(cfg: Config, db: Db, c: Id, p: ProviderResult, now: int)
    requires ValidConfig(cfg) && Refs(cfg, db) && c < |db.calls|
    ensures CallSettled(cfg, db, SettleCall(cfg, db, c, p, now), c, p, now)
  {
    hide Refs, ValidConfig, Requeues, TriedAgain, ShortestWait, Shortest;
    CallGroups(cfg, db, c);
    TriedAgainExactly(cfg, db, c, p, now);
    ShortestWaitIs(cfg, db.calls[c].groups);
    var seconds := ShortestWait(cfg, db.calls[c].groups);
    assert Shortest(cfg, db.calls[c].groups, seconds);
  }

  /** Exactly what a settlement does: only the worker that owns a running call settles it, and then call, attempt,
      ledger and buckets become what the provider's report says. */
  lemma SettleExactly(cfg: Config, db: Db, session: Session, p: ProviderResult, now: int)
    requires ValidConfig(cfg) && Refs(cfg, db)
    ensures var db', c := Settle(cfg, db, session, p, now), session.call;
            if c < |db.calls| && db.calls[c].owner == session.owner && db.calls[c].state == Running then
              && db'.agents == db.agents && db'.tasks == db.tasks && db'.approvals == db.approvals && db'.uses == db.uses
              && |db'.calls| == |db.calls| && CallSettled(cfg, db, db'.calls[c], c, p, now)
              && (forall d :: 0 <= d < |db.calls| && d != c ==> db'.calls[d] == db.calls[d])
              && |db'.attempts| == |db.attempts| && (forall i :: 0 <= i < |db.attempts| ==> AttemptSettled(db.attempts[i], db'.attempts[i], c, p))
              && LedgerSettled(db, db', c, p) && BucketsSettled(db, db', c, p, now)
            else db' == db
  {
    hide ValidConfig, SettleCall, CallSettled, GoalRefs, AgentForest, TaskForest, AgentRefs, UsageRefs, AttemptRefs, Payers;
    if Authorized(db, session) && db.calls[session.call].state == Running {
      CallSettledExactly(cfg, db, session.call, p, now);
      SettledLedger(cfg, db, session, p, now);
    }
  }

  lemma SettledLedger(cfg: Config, db: Db, session: Session, p: ProviderResult, now: int)
    requires ValidConfig(cfg) && Refs(cfg, db) && Authorized(db, session) && db.calls[session.call].state == Running
    ensures LedgerSettled(db, Settle(cfg, db, session, p, now), session.call, p)
  {
    hide ValidConfig, SettleCall, GoalRefs, AgentForest, TaskForest, AgentRefs, UsageRefs, AttemptRefs, Payers, Cool;
  }

  // ----- how calls come to be completed -----

  /** The step settles the call by a known result without failure, or ends its task as completed before the call
      was dispatched. */
  predicate Completes(db: Db, step: Step, c: Id) {
    c < |db.calls| &&
    ((step.DoSettle? && step.session.call == c && db.calls[c].state == Running && step.result.known && !step.result.failed)
     || (step.DoTerminate? && step.outcome == Completed && db.calls[c].task == step.task
         && (db.calls[c].state == Awaiting || db.calls[c].state == Queued)))
  }

  /** No call is completed but by `but`. */
  ghost predicate NoneCompleted(db: Db, db': Db, but: set<Id>) {
    && |db.calls| <= |db'.calls|
    && (forall c :: 0 <= c < |db.calls| && c !in but && db'.calls[c].state == Completed ==> db.calls[c].state == Completed)
    && (forall c :: |db.calls| <= c < |db'.calls| ==> db'.calls[c].state != Completed)
  }

  lemma AppendStep(cfg: Config, db: Db, step: Step)
    requires ValidConfig(cfg) && Refs(cfg, db)
    requires step.DoCreateSystem? || step.DoReviseSystem? || step.DoSetSystemState? || step.DoSetGoalControl? || step.DoSetAgentState?
             || step.DoCreateAgent? || step.DoSpawn? || step.DoPrepare? || step.DoWake? || step.DoStopTask? || step.DoApprove? || step.DoDisable?
    ensures NoneCompleted(db, Next(cfg, db, step), {})
  {
    hide Refs, ValidConfig, GroupsAccept, GoalTasks;
  }

  lemma StartStep(cfg: Config, db: Db, step: Step)
    requires ValidConfig(cfg) && Refs(cfg, db) && (step.DoStartSystem? || step.DoDelegate?)
    ensures NoneCompleted(db, Next(cfg, db, step), {})
  {
    hide Refs, ValidConfig, GroupsAccept, GoalTasks, EnsureOperator;
    if step.DoStartSystem? && step.id < |db.systems| { OperatorCalls(db, step.id); }
  }

  lemma OperatorCalls(db: Db, id: Id)
    requires id < |db.systems|
    ensures EnsureOperator(db, id).0.calls == db.calls
  {
  }

  lemma CallStep(cfg: Config, db: Db, step: Step)
    requires ValidConfig(cfg) && Refs(cfg, db)
    requires step.DoClaim? || step.DoQueue? || step.DoCancel? || step.DoRetryWorker? || step.DoRecover?
    ensures NoneCompleted(db, Next(cfg, db, step), {})
  {
    hide Refs, ValidConfig;
  }

  lemma AdmitStep(cfg: Config, db: Db, step: Step)
    requires ValidConfig(cfg) && Invariant.Inv(cfg, db) && step.DoAdmit?
    ensures NoneCompleted(db, Next(cfg, db, step), {})
  {
    hide Refs, ValidConfig, Admit, Invariant.Inv, AdmissionRows.Fit, AdmissionRows.Turned, AdmissionRows.Ahead, AdmissionRows.PinsPayable;
    AdmissionRows.AdmitExactly(cfg, db, step.session, step.now, step.denied);
  }

  lemma StepCompletes(cfg: Config, db: Db, step: Step, c: Id)
    requires ValidConfig(cfg) && Invariant.Inv(cfg, db) && c < |Next(cfg, db, step).calls| && Next(cfg, db, step).calls[c].state == Completed
    ensures c < |db.calls| && (db.calls[c].state == Completed || Completes(db, step, c))
  {
    hide Refs, ValidConfig, NoneCompleted, Next, Invariant.Inv;
    assert Refs(cfg, db) by { InvRefs(cfg, db); }
    if step.DoSettle? {
      SettleCompletes(cfg, db, step, c);
    } else if step.DoTerminate? {
      TerminateCompletes(cfg, db, step, c);
    } else {
      if step.DoAdmit? { AdmitStep(cfg, db, step); }
      else if step.DoStartSystem? || step.DoDelegate? { StartStep(cfg, db, step); }
      else if step.DoClaim? || step.DoQueue? || step.DoCancel? || step.DoRetryWorker? || step.DoRecover? { CallStep(cfg, db, step); }
      else { AppendStep(cfg, db, step); }
      NoneCompletedAt(db, Next(cfg, db, step), c);
    }
  }

  lemma InvRefs(cfg: Config, db: Db)
    requires Invariant.Inv(cfg, db)
    ensures Refs(cfg, db)
  {
  }

  lemma NoneCompletedAt(db: Db, db': Db, c: Id)
    requires NoneCompleted(db, db', {}) && c < |db'.calls| && db'.calls[c].state == Completed
    ensures c < |db.calls| && db.calls[c].state == Completed
  {
  }

  lemma SettleCompletes(cfg: Config, db: Db, step: Step, c: Id)
    requires ValidConfig(cfg) && Refs(cfg, db) && step.DoSettle? && c < |Next(cfg, db, step).calls|
    requires Next(cfg, db, step).calls[c].state == Completed
    ensures c < |db.calls| && (db.calls[c].state == Completed || Completes(db, step, c))
  {
    hide Refs, ValidConfig, Settle, TriedAgain, LedgerSettled, BucketsSettled, Shortest;
    SettleExactly(cfg, db, step.session, step.result, step.now);
  }

  lemma TerminateCompletes(cfg: Config, db: Db, step: Step, c: Id)
    requires ValidConfig(cfg) && Refs(cfg, db) && step.DoTerminate? && c < |Next(cfg, db, step).calls|
    requires Next(cfg, db, step).calls[c].state == Completed
    ensures c < |db.calls| && (db.calls[c].state == Completed || Completes(db, step, c))
  {
    hide Refs, ValidConfig;
  }

  /** A call is completed only by a known result without failure, or before it was dispatched by the completion of
      its task: on every run from the empty store, for every completed call there is the step that did it. */
  lemma {:induction false} AnsweredTheorem(cfg: Config, states: seq<Db>, steps: seq<Step>, j: nat, c: Id) returns (i: nat)
    requires ValidConfig(cfg) && IsRun(cfg, states, steps) && states[0] == EMPTY && j <= |steps|
    requires c < |states[j].calls| && states[j].calls[c].state == Completed
    ensures i < j && Completes(states[i], steps[i], c) && states[i].calls[c].state != Completed
  {
    hide Next, Plausible, Refs, ValidConfig, Invariant.Inv;
    if j == 0 {
      assert false;
    } else {
      Invariant.EmptyInv(cfg);
      RunInv(cfg, states, steps, j - 1);
      StepCompletes(cfg, states[j - 1], steps[j - 1], c);
      if states[j - 1].calls[c].state == Completed {
        i := AnsweredTheorem(cfg, states, steps, j - 1, c);
      } else {
        i := j - 1;
      }
    }
  }
}
