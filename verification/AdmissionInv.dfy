/** Admission, settlement and crash recovery keep the invariant. */
module AdmissionInv {
  import opened Common
  import opened Tables
  import opened Sums
  import opened Ledger
  import opened Quota
  import opened Admission
  import opened Steps
  import opened Books
  import opened Discipline
  import opened Limits
  import opened Approvals
  import opened Work
  import opened Invariant
  import opened StepsInv

  // ----- dispatch -----

  /** What the transaction has established about a ready call: budget, room in every group, and a
      dispatch instant no group's clock is ahead of. */
  ghost predicate Cleared(cfg: Config, db: Db, c: Id, at: int, now: int) {
    && c < |db.calls| && db.calls[c].state == Queued
    && var e := db.calls[c];
    && e.system < |db.systems| && e.goal < |db.goals| && e.task < |db.tasks|
    && e.reservation <= Free(db.systems[e.system].budget, db.systems[e.system].used, db.systems[e.system].reserved)
    && e.reservation <= Free(db.goals[e.goal].budget, db.goals[e.goal].used, db.goals[e.goal].reserved)
    && PayersAfford(db, e)
    && AllFit(cfg, db, db.buckets, e, now)
    && (forall g :: g in e.groups ==> g in db.buckets && db.buckets[g].updated <= at)
  }

  /** A cleared call whose task has paid for all its pins. */
  ghost predicate MayDispatch(cfg: Config, db: Db, c: Id, at: int, now: int) {
    && Cleared(cfg, db, c, at, now)
    && forall p :: p in db.tasks[db.calls[c].task].pins ==> (p, db.calls[c].task) in db.uses
  }

  function NewAttempt(db: Db, c: Id, at: int): Attempt
    requires c < |db.calls|
  {
    Attempt(c, db.calls[c].system, at, db.calls[c].reservation, InFlight, false, 0, 0)
  }

  lemma DispatchRefs(cfg: Config, db: Db, c: Id, at: int)
    requires Refs(cfg, db) && c < |db.calls| && db.calls[c].system < |db.systems| && db.calls[c].goal < |db.goals|
    ensures Refs(cfg, Dispatch(db, c, at)) && Extends(db, Dispatch(db, c, at))
  {
    hide GoalRefs, AgentForest, TaskForest, AgentRefs, TaskRefs, UsageRefs, CallRefs;
    assert Dispatch(db, c, at).usage.Keys == db.usage.Keys;
    KeysRefs(cfg, db, Dispatch(db, c, at));
  }

  lemma DispatchAccount(cfg: Config, db: Db, c: Id, at: int, sc: Scope)
    requires Refs(cfg, db) && c < |db.calls| && db.calls[c].system < |db.systems| && db.calls[c].goal < |db.goals|
    ensures var db' := Dispatch(db, c, at);
            && (HasScope(db', sc) <==> HasScope(db, sc))
            && (HasScope(db, sc) ==>
                  && StoredUsed(db', sc) == StoredUsed(db, sc) && BudgetOf(db', sc) == BudgetOf(db, sc)
                  && StoredReserved(db', sc) == StoredReserved(db, sc) + (if Charges(db, c, sc) then db.calls[c].reservation else 0))
  {
  }

  lemma DispatchSums(cfg: Config, db: Db, c: Id, at: int, sc: Scope)
    requires Refs(cfg, db) && AttemptsHaveCalls(db)
    requires c < |db.calls| && db.calls[c].system < |db.systems| && db.calls[c].goal < |db.goals| && db.calls[c].state == Queued
    ensures var db' := Dispatch(db, c, at);
            var r := if Charges(db, c, sc) then db.calls[c].reservation else 0;
            && Sum(db'.attempts, ReservedBy(db', sc)) == Sum(db.attempts, ReservedBy(db, sc)) + r
            && Sum(db'.attempts, UsedBy(db', sc)) == Sum(db.attempts, UsedBy(db, sc))
            && Covered(db', sc) == Covered(db, sc) + r
  {
    hide Refs;
    var db' := Dispatch(db, c, at);
    DispatchRefs(cfg, db, c, at);
    SumsStable(cfg, db, db', db.attempts, sc);
    ChargesStable(cfg, db, db', c, sc);
    var a := NewAttempt(db, c, at);
    SumAppend(db.attempts, a, ReservedBy(db', sc));
    SumAppend(db.attempts, a, UsedBy(db', sc));
    SumAppend(db.attempts, a, CoveredBy(db', sc));
  }

  lemma DispatchBooks(cfg: Config, db: Db, c: Id, at: int, now: int)
    requires Refs(cfg, db) && Balanced(db) && Capped(db) && AttemptsHaveCalls(db) && MayDispatch(cfg, db, c, at, now)
    ensures Balanced(Dispatch(db, c, at)) && Capped(Dispatch(db, c, at))
  {
    hide Refs, AllFit;
    var db' := Dispatch(db, c, at);
    forall sc | HasScope(db', sc) ensures BalancedAt(db', sc) && Covered(db', sc) <= BudgetOf(db', sc) {
      DispatchAccount(cfg, db, c, at, sc);
      DispatchSums(cfg, db, c, at, sc);
      assert BalancedAt(db, sc);
      if Charges(db, c, sc) {
        UsedPlusReserved(db, sc);
        SumNonnegative(db.attempts, OvershootBy(db, sc));
      }
    }
  }

  function BeginAttempt(calls: seq<Call>, c: Id): seq<Call>
    requires c < |calls|
  {
    calls[c := calls[c].(state := Running, attempts := calls[c].attempts + 1)]
  }

  lemma NewAttemptDiscipline(calls: seq<Call>, attempts: seq<Attempt>, c: Id, a: Attempt)
    requires AllDisciplined(calls, attempts)
    requires Serial(attempts) && c < |calls| && calls[c].state == Queued && a.call == c && a.state == InFlight
    ensures AllDisciplined(BeginAttempt(calls, c), attempts + [a]) && Serial(attempts + [a])
  {
    var calls' := BeginAttempt(calls, c);
    var attempts' := attempts + [a];
    assert CallDisciplined(calls, attempts, c);
    forall k | 0 <= k < |calls| ensures CallDisciplined(calls', attempts', k) {
      SumAppend(attempts, a, Keyed(CallKey(), k));
      assert CallDisciplined(calls, attempts, k);
      if k == c {
        assert attempts'[|attempts|] == a;
      } else if HasInFlight(attempts, k) {
        var i :| 0 <= i < |attempts| && attempts[i].call == k && attempts[i].state == InFlight;
        assert attempts'[i] == attempts[i];
      }
    }
  }

  lemma DispatchDiscipline(db: Db, c: Id, at: int)
    requires Disciplined(db) && AttemptsHaveCalls(db) && c < |db.calls| && db.calls[c].state == Queued
    requires db.calls[c].system < |db.systems| && db.calls[c].goal < |db.goals|
    ensures Disciplined(Dispatch(db, c, at))
  {
    NewAttemptDiscipline(db.calls, db.attempts, c, NewAttempt(db, c, at));
    var db' := Dispatch(db, c, at);
    assert db'.calls == BeginAttempt(db.calls, c);
    assert StoredReservations(db');
  }

  lemma GroupRoom(cfg: Config, db: Db, c: Id, at: int, now: int, g: Id)
    requires MayDispatch(cfg, db, c, at, now) && g in db.calls[c].groups
    ensures g in cfg.groups && g in db.buckets && db.buckets[g].updated <= at && db.buckets[g].credit >= 1.0
    ensures TokensSince(db.calls, db.attempts, g, db.buckets[g].updated - WINDOW_MS) + db.calls[c].reservation <= cfg.groups[g].tokensPerMinute
    ensures InFlightCount(db.calls, db.attempts, g) < cfg.groups[g].maxConcurrent
  {
  }

  lemma DispatchWindow(cfg: Config, db: Db, c: Id, at: int, now: int, g: Id, t: int)
    requires AttemptsHaveCalls(db) && StoredReservations(db) && MayDispatch(cfg, db, c, at, now)
    requires g in cfg.groups && WindowTokens(db, g, t) <= cfg.groups[g].tokensPerMinute
    ensures WindowTokens(Dispatch(db, c, at), g, t) <= cfg.groups[g].tokensPerMinute
  {
    hide AllFit, PayersAfford;
    var db' := Dispatch(db, c, at);
    var a := NewAttempt(db, c, at);
    SumSame(db.attempts, db.attempts, InWindow(db', g, t), InWindow(db, g, t));
    SumAppend(db.attempts, a, InWindow(db', g, t));
    if g in db.calls[c].groups && t - WINDOW_MS < at <= t {
      GroupRoom(cfg, db, c, at, now, g);
      WindowWithinTokens(db, g, t, db.buckets[g].updated - WINDOW_MS);
    }
  }

  lemma DispatchSlots(cfg: Config, db: Db, c: Id, at: int, now: int, g: Id)
    requires AttemptsHaveCalls(db) && MayDispatch(cfg, db, c, at, now)
    requires g in cfg.groups && InFlightCount(db.calls, db.attempts, g) <= cfg.groups[g].maxConcurrent
    ensures InFlightCount(Dispatch(db, c, at).calls, Dispatch(db, c, at).attempts, g) <= cfg.groups[g].maxConcurrent
  {
    hide AllFit, PayersAfford;
    var db' := Dispatch(db, c, at);
    var a := NewAttempt(db, c, at);
    SumSame(db.attempts, db.attempts, InFlightIn(db'.calls, g), InFlightIn(db.calls, g));
    SumAppend(db.attempts, a, InFlightIn(db'.calls, g));
    if g in db.calls[c].groups {
      GroupRoom(cfg, db, c, at, now, g);
    }
  }

  lemma DispatchBuckets(cfg: Config, db: Db, c: Id, at: int, now: int)
    requires BucketsHold(cfg, db) && MayDispatch(cfg, db, c, at, now)
    ensures BucketsHold(cfg, Dispatch(db, c, at))
  {
    hide PayersAfford;
    var db' := Dispatch(db, c, at);
    forall g | g in db'.buckets ensures g in cfg.groups && BucketOk(cfg.groups[g], db'.buckets[g]) {
      if g in db.calls[c].groups {
        GroupRoom(cfg, db, c, at, now, g);
      }
    }
  }

  lemma DispatchLimits(cfg: Config, db: Db, c: Id, at: int, now: int)
    requires AttemptsHaveCalls(db) && StoredReservations(db) && MayDispatch(cfg, db, c, at, now)
    requires Limited(cfg, db)
    ensures Limited(cfg, Dispatch(db, c, at))
  {
    hide AllFit, PayersAfford;
    var db' := Dispatch(db, c, at);
    forall g, t: int | g in cfg.groups ensures WindowTokens(db', g, t) <= cfg.groups[g].tokensPerMinute {
      assert WindowTokens(db, g, t) <= cfg.groups[g].tokensPerMinute;
      DispatchWindow(cfg, db, c, at, now, g, t);
    }
    forall g | g in cfg.groups ensures InFlightCount(db'.calls, db'.attempts, g) <= cfg.groups[g].maxConcurrent {
      DispatchSlots(cfg, db, c, at, now, g);
    }
    DispatchBuckets(cfg, db, c, at, now);
  }

  lemma DispatchPaid(cfg: Config, db: Db, c: Id, at: int, now: int)
    requires ApprovalsHold(db) && MayDispatch(cfg, db, c, at, now)
    ensures ApprovalsHold(Dispatch(db, c, at))
  {
    hide AllFit, PayersAfford;
    var db' := Dispatch(db, c, at);
    forall i | 0 <= i < |db'.attempts| ensures AttemptPaid(db', db'.attempts[i]) {
      if i < |db.attempts| {
        assert AttemptPaid(db, db.attempts[i]);
      }
    }
    forall p | p in db'.approvals ensures ApprovalBalanced(db', p) {
      assert ApprovalBalanced(db, p);
    }
  }

  /** One dispatch keeps every account, limit, allowance and count. */
  lemma DispatchInv(cfg: Config, db: Db, c: Id, at: int, now: int)
    requires Inv(cfg, db) && MayDispatch(cfg, db, c, at, now)
    ensures Inv(cfg, Dispatch(db, c, at)) && Extends(db, Dispatch(db, c, at))
  {
    hide Refs, Balanced, Capped, Limited, ApprovalsHold, WorkHolds, CallDisciplined, AllFit, PayersAfford;
    AttemptsCounted(cfg, db);
    DispatchRefs(cfg, db, c, at);
    DispatchBooks(cfg, db, c, at, now);
    DispatchDiscipline(db, c, at);
    DispatchLimits(cfg, db, c, at, now);
    DispatchPaid(cfg, db, c, at, now);
    DispatchWork(cfg, db, c, at);
  }

  lemma DispatchWork(cfg: Config, db: Db, c: Id, at: int)
    requires Refs(cfg, db) && WorkHolds(db) && c < |db.calls| && db.calls[c].system < |db.systems| && db.calls[c].goal < |db.goals|
    ensures WorkHolds(Dispatch(db, c, at))
  {
    WorkFrame(db, Dispatch(db, c, at));
  }

  /** Any minute that ends no earlier than the polled instant is covered by the polled window. */
  lemma WindowWithinTokens(db: Db, g: Id, t: int, since: int)
    requires StoredReservations(db) && since <= t - WINDOW_MS
    ensures WindowTokens(db, g, t) <= TokensSince(db.calls, db.attempts, g, since)
  {
    SumAtMost(db.attempts, db.attempts, InWindow(db, g, t), DispatchedSince(db.calls, g, since));
  }

  // ----- the candidate loop -----

  lemma SameApprovals(db: Db, db': Db)
    requires ApprovalsHold(db) && db' == db.(buckets := db'.buckets)
    ensures ApprovalsHold(db')
  {
    forall p | p in db'.approvals ensures ApprovalBalanced(db', p) {
      assert ApprovalBalanced(db, p);
    }
    forall i | 0 <= i < |db'.attempts| ensures AttemptPaid(db', db'.attempts[i]) {
      assert AttemptPaid(db, db.attempts[i]);
    }
  }

  lemma PolledInv(cfg: Config, db: Db, groups: seq<Id>, now: int)
    requires Inv(cfg, db) && Distinct(groups) && forall g :: g in groups ==> g in cfg.groups
    ensures var db' := db.(buckets := PollAll(cfg, db.buckets, groups, now)); Inv(cfg, db') && Extends(db, db')
  {
    hide Refs, Balanced, Capped, Disciplined, ApprovalsHold, WindowsHold, SlotsHold, WorkHolds, BucketsHold;
    var db' := db.(buckets := PollAll(cfg, db.buckets, groups, now));
    PollBuckets(cfg, db, groups, now);
    SameApprovals(db, db');
    SideTablesInv(cfg, db, db');
  }

  lemma RejectInv(cfg: Config, db: Db, c: Id)
    requires Inv(cfg, db) && c < |db.calls| && db.calls[c].state == Queued
    ensures Inv(cfg, Reject(db, c)) && Extends(db, Reject(db, c))
  {
    hide Refs, Balanced, Capped, Limited, ApprovalsHold, WorkHolds;
    CallDisciplineOf(db, c);
    SetCallInv(cfg, db, c, db.calls[c].(state := Rejected));
  }

  lemma PassOverInv(cfg: Config, db: Db, c: Id, now: int, denied: set<Id>)
    requires ValidConfig(cfg) && Inv(cfg, db) && c < |db.calls| && db.calls[c].state == Queued
    ensures var db' := PassOver(db, c, VerdictOf(cfg, db, c, now, denied)); Inv(cfg, db') && Extends(db, db')
  {
    hide Refs, Balanced, Capped, Disciplined, Limited, ApprovalsHold, WorkHolds, RefusalOf, AllFit, PollAll;
    CallGroups(cfg, db, c);
    PolledInv(cfg, db, db.calls[c].groups, now);
    RejectInv(cfg, db, c);
  }

  lemma SpentApprovals(db: Db, t: Id, now: int)
    requires ApprovalsHold(db) && t < |db.tasks| && SpendUses(db, t, now).Some?
    ensures ApprovalsHold(SpendUses(db, t, now).value)
  {
    var paid := SpendUses(db, t, now).value;
    SpendConserves(db, t, now);
    forall i | 0 <= i < |paid.attempts| ensures AttemptPaid(paid, paid.attempts[i]) {
      assert AttemptPaid(db, db.attempts[i]);
    }
    forall u | u in paid.uses ensures u.0 in paid.approvals && u.1 < |paid.tasks| {
      if u !in db.uses {
        assert u in paid.uses - db.uses;
        assert PinUsable(db, t, u.0, now);
      }
    }
  }

  lemma SpentInv(cfg: Config, db: Db, t: Id, now: int)
    requires Inv(cfg, db) && t < |db.tasks| && SpendUses(db, t, now).Some?
    ensures var paid := SpendUses(db, t, now).value; Inv(cfg, paid) && Extends(db, paid)
  {
    hide Refs, Balanced, Capped, Disciplined, ApprovalsHold, WindowsHold, SlotsHold, WorkHolds, BucketsHold, PinUsable;
    SpentApprovals(db, t, now);
    SpentBuckets(cfg, db, t, now);
    SideTablesInv(cfg, db, SpendUses(db, t, now).value);
  }

  lemma SpentBuckets(cfg: Config, db: Db, t: Id, now: int)
    requires BucketsHold(cfg, db) && t < |db.tasks| && SpendUses(db, t, now).Some?
    ensures BucketsHold(cfg, SpendUses(db, t, now).value)
  {
  }

  lemma UnrefusedClears(cfg: Config, db: Db, c: Id, now: int, denied: set<Id>)
    requires Refs(cfg, db) && c < |db.calls| && RefusalOf(cfg, db, c, now, denied).None?
    ensures var e := db.calls[c];
            && e.system < |db.systems| && e.goal < |db.goals| && e.task < |db.tasks|
            && e.reservation <= Free(db.systems[e.system].budget, db.systems[e.system].used, db.systems[e.system].reserved)
            && e.reservation <= Free(db.goals[e.goal].budget, db.goals[e.goal].used, db.goals[e.goal].reserved)
            && PayersAfford(db, e)
  {
    hide PayersAfford;
    assert db.tasks[db.calls[c].task].goal == db.calls[c].goal;
  }

  lemma AllFitFrame(cfg: Config, db: Db, db': Db, e: Call, now: int)
    requires db' == db.(buckets := db'.buckets) && AllFit(cfg, db, db'.buckets, e, now)
    ensures AllFit(cfg, db', db'.buckets, e, now)
  {
  }

  lemma PollsRunAhead(cfg: Config, db: Db, c: Id, now: int)
    requires ValidConfig(cfg) && Refs(cfg, db) && c < |db.calls|
    ensures var polled := PollAll(cfg, db.buckets, db.calls[c].groups, now);
            forall g :: g in db.calls[c].groups ==> g in polled && polled[g].updated <= DispatchAt(polled, db.calls[c].groups, now)
  {
    hide Refs, ValidConfig, Poll;
    CallGroups(cfg, db, c);
    PollAllRows(cfg, db.buckets, db.calls[c].groups, now);
    DispatchAtLatest(PollAll(cfg, db.buckets, db.calls[c].groups, now), db.calls[c].groups, now);
  }

  lemma VerdictClears(cfg: Config, db: Db, c: Id, now: int, denied: set<Id>)
    requires ValidConfig(cfg) && Refs(cfg, db) && c < |db.calls| && db.calls[c].state == Queued
    requires VerdictOf(cfg, db, c, now, denied).Ready?
    ensures var next := PassOver(db, c, VerdictOf(cfg, db, c, now, denied));
            Cleared(cfg, next, c, DispatchAt(next.buckets, db.calls[c].groups, now), now)
  {
    hide Refs, ValidConfig, PollAll, RefusalOf, AllFit, DispatchAt, PayersAfford;
    var next := PassOver(db, c, VerdictOf(cfg, db, c, now, denied));
    UnrefusedClears(cfg, db, c, now, denied);
    PollsRunAhead(cfg, db, c, now);
    AllFitFrame(cfg, db, next, db.calls[c], now);
    PayersFrame(db, next, db.calls[c]);
  }

  lemma PayersFrame(db: Db, db': Db, e: Call)
    requires db' == db.(buckets := db'.buckets) && PayersAfford(db, e)
    ensures PayersAfford(db', e)
  {
  }

  /** Spending approval uses touches nothing that cleared the call. */
  lemma SpendingKeepsCleared(cfg: Config, db: Db, c: Id, at: int, now: int)
    requires Cleared(cfg, db, c, at, now) && SpendUses(db, db.calls[c].task, now).Some?
    requires forall p :: p in db.approvals ==> ApprovalBalanced(db, p)
    ensures MayDispatch(cfg, SpendUses(db, db.calls[c].task, now).value, c, at, now)
  {
    SpendConserves(db, db.calls[c].task, now);
    var paid := SpendUses(db, db.calls[c].task, now).value;
    assert PayersAfford(paid, paid.calls[c]);
    assert AllFit(cfg, paid, paid.buckets, paid.calls[c], now);
  }

  lemma GrantInv(cfg: Config, db: Db, c: Id, now: int)
    requires Inv(cfg, db) && c < |db.calls| && Cleared(cfg, db, c, DispatchAt(db.buckets, db.calls[c].groups, now), now)
    requires Grant(cfg, db, c, now).Some?
    ensures var db' := Grant(cfg, db, c, now).value; Inv(cfg, db') && Extends(db, db')
  {
    hide Refs, Balanced, Capped, Disciplined, Limited, WorkHolds, SpendUses, Dispatch, DispatchAt, AllFit, PayersAfford, Extends;
    var at := DispatchAt(db.buckets, db.calls[c].groups, now);
    var paid := SpendUses(db, db.calls[c].task, now).value;
    SpentInv(cfg, db, db.calls[c].task, now);
    SpendingKeepsCleared(cfg, db, c, at, now);
    DispatchInv(cfg, paid, c, at, now);
    ExtendsTransitive(db, paid, Dispatch(paid, c, at));
  }

  /** The candidate loop keeps the invariant whatever it rejects, polls or admits. */
  lemma {:induction false} ScanInv(cfg: Config, db: Db, ids: seq<Id>, caller: Id, now: int, denied: set<Id>)
    requires ValidConfig(cfg) && Inv(cfg, db) && Distinct(ids)
    requires forall i :: 0 <= i < |ids| ==> ids[i] < |db.calls| && db.calls[ids[i]].state == Queued
    ensures var (db', admitted) := Scan(cfg, db, ids, caller, now, denied); Inv(cfg, db') && Extends(db, db')
    decreases |ids|
  {
    hide Refs, Balanced, Capped, Disciplined, Limited, ApprovalsHold, WorkHolds, VerdictOf, Grant, Extends;
    if ids == [] {
      ExtendsSelf(db);
    } else {
      var c := ids[0];
      var v := VerdictOf(cfg, db, c, now, denied);
      var next := PassOver(db, c, v);
      PassOverInv(cfg, db, c, now, denied);
      if !v.Ready? {
        ScanInv(cfg, next, ids[1..], caller, now, denied);
        ExtendsTransitive(db, next, Scan(cfg, next, ids[1..], caller, now, denied).0);
      } else if c == caller {
        match Grant(cfg, next, c, now)
        case None =>
          RejectInv(cfg, next, c);
          var rejected := Reject(next, c);
          ScanInv(cfg, rejected, ids[1..], caller, now, denied);
          ExtendsTransitive(db, next, rejected);
          ExtendsTransitive(db, rejected, Scan(cfg, rejected, ids[1..], caller, now, denied).0);
        case Some(granted) =>
          VerdictClears(cfg, db, c, now, denied);
          GrantInv(cfg, next, c, now);
          ExtendsTransitive(db, next, granted);
      }
    }
  }

  lemma AdmitInv(cfg: Config, db: Db, session: Session, now: int, denied: set<Id>)
    requires ValidConfig(cfg) && Inv(cfg, db)
    ensures var (db', admitted) := Admit(cfg, db, session, now, denied); Inv(cfg, db') && Extends(db, db')
  {
    hide Refs, Balanced, Capped, Disciplined, Limited, ApprovalsHold, WorkHolds, Scan, Extends;
    ExtendsSelf(db);
    CandidatesAreFairOrder(db);
    ScanInv(cfg, db, Candidates(db), session.call, now, denied);
  }

  // ----- settlement -----

  lemma OneInFlight(db: Db, c: Id) returns (k: nat)
    requires Disciplined(db) && c < |db.calls| && db.calls[c].state == Running
    ensures k < |db.attempts| && db.attempts[k].call == c && db.attempts[k].state == InFlight
    ensures forall i :: 0 <= i < |db.attempts| && db.attempts[i].call == c && i != k ==> i < k && Throttled(db.attempts[i])
  {
    assert CallDisciplined(db.calls, db.attempts, c);
    k :| 0 <= k < |db.attempts| && db.attempts[k].call == c && db.attempts[k].state == InFlight;
    forall i | 0 <= i < |db.attempts| && db.attempts[i].call == c && i != k
      ensures i < k && Throttled(db.attempts[i])
    {
      AtMostOneInFlight(db, k, i);
    }
  }

  /** Settlement rewrites exactly the one attempt that is in flight. */
  lemma SettlesOne(db: Db, c: Id, p: ProviderResult) returns (k: nat)
    requires Disciplined(db) && c < |db.calls| && db.calls[c].state == Running
    ensures k < |db.attempts| && db.attempts[k].call == c && db.attempts[k].state == InFlight
    ensures SettleAttempts(db.attempts, c, p) == db.attempts[k := SettleAttempt(db.attempts[k], c, p)]
    ensures forall i :: 0 <= i < |db.attempts| && db.attempts[i].call == c && i != k ==> i < k && Throttled(db.attempts[i])
  {
    k := OneInFlight(db, c);
  }

  ghost predicate MaySettle(db: Db, session: Session) {
    && Authorized(db, session) && db.calls[session.call].state == Running
    && db.calls[session.call].attempts > 0
  }

  lemma SettleCallKeeps(cfg: Config, db: Db, c: Id, p: ProviderResult, now: int)
    requires ValidConfig(cfg) && Refs(cfg, db) && c < |db.calls|
    ensures var e' := SettleCall(cfg, db, c, p, now);
            CallKeeps(db.calls[c], e') && e'.attempts == db.calls[c].attempts && e'.reservation == db.calls[c].reservation
  {
  }

  lemma SettleExtends(cfg: Config, db: Db, session: Session, p: ProviderResult, now: int)
    requires ValidConfig(cfg) && Refs(cfg, db) && MaySettle(db, session)
    ensures var db' := Settle(cfg, db, session, p, now);
            && Refs(cfg, db') && Extends(db, db') && SameDispatches(db.attempts, db'.attempts) && WorkKept(db, db')
            && db'.approvals == db.approvals && db'.uses == db.uses
  {
    hide GoalRefs, AgentForest, TaskForest, AgentRefs, UsageRefs, SettleCall, ValidConfig;
    var db' := Settle(cfg, db, session, p, now);
    SettleCallKeeps(cfg, db, session.call, p, now);
    assert db'.usage.Keys == db.usage.Keys;
    KeysRefs(cfg, db, db');
  }

  /** How one settlement moves an account. */
  lemma SettleAccount(cfg: Config, db: Db, session: Session, p: ProviderResult, now: int, sc: Scope)
    requires ValidConfig(cfg) && Refs(cfg, db) && MaySettle(db, session)
    ensures var db' := Settle(cfg, db, session, p, now);
            var e := db.calls[session.call];
            var booked := p.known && Charges(db, session.call, sc);
            && (HasScope(db', sc) <==> HasScope(db, sc))
            && (HasScope(db, sc) ==>
                  && BudgetOf(db', sc) == BudgetOf(db, sc)
                  && StoredUsed(db', sc) == StoredUsed(db, sc) + (if booked then p.input + p.output else 0)
                  && StoredReserved(db', sc) == StoredReserved(db, sc) - (if booked then e.reservation else 0))
  {
    hide GoalRefs, AgentForest, TaskForest, AgentRefs, UsageRefs, SettleCall, ValidConfig;
  }

  lemma SettleSums(cfg: Config, db: Db, session: Session, p: ProviderResult, now: int, sc: Scope)
    requires ValidConfig(cfg) && Refs(cfg, db) && Disciplined(db) && MaySettle(db, session)
    ensures var db' := Settle(cfg, db, session, p, now);
            var e := db.calls[session.call];
            var booked := p.known && Charges(db, session.call, sc);
            && Sum(db'.attempts, ReservedBy(db', sc)) == Sum(db.attempts, ReservedBy(db, sc)) - (if booked then e.reservation else 0)
            && Sum(db'.attempts, UsedBy(db', sc)) == Sum(db.attempts, UsedBy(db, sc)) + (if booked then p.input + p.output else 0)
            && Covered(db', sc) <= Covered(db, sc)
  {
    hide Refs, ValidConfig, SettleCall, CallDisciplined, Serial, Disciplined;
    var db' := Settle(cfg, db, session, p, now);
    var c := session.call;
    AttemptsCounted(cfg, db);
    SettleExtends(cfg, db, session, p, now);
    SumsStable(cfg, db, db', db.attempts, sc);
    ChargesStable(cfg, db, db', c, sc);
    var k := SettlesOne(db, c, p);
    var a := SettleAttempt(db.attempts[k], c, p);
    SumUpdate(db.attempts, k, a, ReservedBy(db', sc));
    SumUpdate(db.attempts, k, a, UsedBy(db', sc));
    SumUpdate(db.attempts, k, a, CoveredBy(db', sc));
    assert CallKeeps(db.calls[c], db'.calls[c]);
  }

  lemma SettleBooks(cfg: Config, db: Db, session: Session, p: ProviderResult, now: int)
    requires ValidConfig(cfg) && Refs(cfg, db) && Disciplined(db) && MaySettle(db, session) && Balanced(db) && Capped(db)
    ensures Balanced(Settle(cfg, db, session, p, now)) && Capped(Settle(cfg, db, session, p, now))
  {
    hide Refs, ValidConfig, Disciplined, Settle;
    var db' := Settle(cfg, db, session, p, now);
    forall sc | HasScope(db', sc) ensures BalancedAt(db', sc) && Covered(db', sc) <= BudgetOf(db', sc) {
      SettleAccount(cfg, db, session, p, now, sc);
      SettleSums(cfg, db, session, p, now, sc);
      assert BalancedAt(db, sc);
    }
  }

  /** What the provider adapter guarantees: a retry is only suggested for an explicit rejection,
      whose usage is known. */
  predicate FromAdapter(p: ProviderResult) { p.retry ==> p.known }

  lemma SettledDiscipline(calls: seq<Call>, attempts: seq<Attempt>, c: Id, k: nat, e': Call, a': Attempt)
    requires AllDisciplined(calls, attempts)
    requires Serial(attempts) && c < |calls| && calls[c].state == Running
    requires k < |attempts| && attempts[k].call == c && a'.call == c && a'.state != InFlight
    requires forall i :: 0 <= i < |attempts| && attempts[i].call == c && i != k ==> i < k && Throttled(attempts[i])
    requires e'.attempts == calls[c].attempts && e'.reservation == calls[c].reservation && e'.state != Running && e'.state != Awaiting
    requires e'.state == Queued ==> Throttled(a') && e'.attempts < MAX_ATTEMPTS
    ensures AllDisciplined(calls[c := e'], attempts[k := a']) && Serial(attempts[k := a'])
  {
    var calls', attempts' := calls[c := e'], attempts[k := a'];
    forall i | 0 <= i < |calls| ensures CallDisciplined(calls', attempts', i) {
      SumUpdate(attempts, k, a', Keyed(CallKey(), i));
      assert CallDisciplined(calls, attempts, i);
      if i != c && HasInFlight(attempts, i) {
        var j :| 0 <= j < |attempts| && attempts[j].call == i && attempts[j].state == InFlight;
        assert attempts'[j] == attempts[j];
      }
    }
  }

  lemma SettleStored(cfg: Config, db: Db, session: Session, p: ProviderResult, now: int)
    requires ValidConfig(cfg) && Refs(cfg, db) && StoredReservations(db) && MaySettle(db, session) && AttemptsHaveCalls(db)
    ensures StoredReservations(Settle(cfg, db, session, p, now))
  {
    hide Refs, ValidConfig, SettleCall;
    SettleCallKeeps(cfg, db, session.call, p, now);
    var db' := Settle(cfg, db, session, p, now);
    forall i | 0 <= i < |db'.attempts|
      ensures Owed(db', db'.attempts[i]) == Owed(db, db.attempts[i])
    {
    }
  }

  lemma SettleDiscipline(cfg: Config, db: Db, session: Session, p: ProviderResult, now: int)
    requires ValidConfig(cfg) && Refs(cfg, db) && Disciplined(db) && MaySettle(db, session)
    requires Requeues(cfg, db, session.call, p, now) ==> p.known
    ensures Disciplined(Settle(cfg, db, session, p, now))
  {
    hide Refs, ValidConfig, CallDisciplined, Serial;
    var c := session.call;
    var k := SettlesOne(db, c, p);
    AttemptsCounted(cfg, db);
    SettleStored(cfg, db, session, p, now);
    SettledDiscipline(db.calls, db.attempts, c, k, SettleCall(cfg, db, c, p, now), SettleAttempt(db.attempts[k], c, p));
  }

  lemma CoolBuckets(cfg: Config, db: Db, groups: seq<Id>, until: int)
    requires BucketsHold(cfg, db)
    ensures forall g :: g in Cool(db.buckets, groups, until) ==> g in cfg.groups && BucketOk(cfg.groups[g], Cool(db.buckets, groups, until)[g])
  {
  }

  lemma SettleLimits(cfg: Config, db: Db, session: Session, p: ProviderResult, now: int)
    requires ValidConfig(cfg) && Refs(cfg, db) && Disciplined(db) && MaySettle(db, session) && Limited(cfg, db)
    ensures Limited(cfg, Settle(cfg, db, session, p, now))
  {
    hide Refs, ValidConfig, Disciplined, SettleCall, WindowsHold, SlotsHold;
    var db' := Settle(cfg, db, session, p, now);
    AttemptsCounted(cfg, db);
    SettleExtends(cfg, db, session, p, now);
    LimitsFrame(cfg, db, db');
    CoolBuckets(cfg, db, db.calls[session.call].groups, if p.cooldown.Some? then p.cooldown.value else now + p.retryDelay);
    SettleRotation(cfg, db, session, p, now);
  }

  lemma SettleRotation(cfg: Config, db: Db, session: Session, p: ProviderResult, now: int)
    requires ValidConfig(cfg) && Refs(cfg, db) && MaySettle(db, session) && RotationHolds(db)
    ensures RotationHolds(Settle(cfg, db, session, p, now))
  {
    hide SettleCall, ValidConfig;
  }

  /** Settlement keeps the invariant for whatever usage the adapter reports. */
  lemma SettleInv(cfg: Config, db: Db, session: Session, p: ProviderResult, now: int)
    requires ValidConfig(cfg) && Inv(cfg, db)
    requires MaySettle(db, session) && Requeues(cfg, db, session.call, p, now) ==> p.known
    ensures Inv(cfg, Settle(cfg, db, session, p, now)) && Extends(db, Settle(cfg, db, session, p, now))
  {
    hide Refs, ValidConfig, Balanced, Capped, Limited, ApprovalsHold, WorkHolds, Settle, CallDisciplined, Requeues;
    ExtendsSelf(db);
    SettleAsleep(cfg, db, session, p, now);
    if MaySettle(db, session) {
      var db' := Settle(cfg, db, session, p, now);
      SettleExtends(cfg, db, session, p, now);
      SettleBooks(cfg, db, session, p, now);
      SettleDiscipline(cfg, db, session, p, now);
      SettleLimits(cfg, db, session, p, now);
      QuietApprovals(db, db');
      WorkFrame(db, db');
    }
  }

  lemma SettleAsleep(cfg: Config, db: Db, session: Session, p: ProviderResult, now: int)
    requires ValidConfig(cfg) && Refs(cfg, db) && Disciplined(db)
    ensures !MaySettle(db, session) ==> Settle(cfg, db, session, p, now) == db
  {
    if Authorized(db, session) && db.calls[session.call].state == Running {
      var k := OneInFlight(db, session.call);
      AttemptsCounted(cfg, db);
    }
  }

  /** Settlement keeps the attempt discipline exactly when it does not requeue an unknown outcome.
      The guard of the requeueing branch does not look at `known`, so the discipline rests on the
      adapter only ever suggesting a retry for an explicit rejection. */
  lemma SettleDisciplineExactly(cfg: Config, db: Db, session: Session, p: ProviderResult, now: int)
    requires ValidConfig(cfg) && Refs(cfg, db) && Disciplined(db) && MaySettle(db, session)
    ensures Disciplined(Settle(cfg, db, session, p, now)) <==> (Requeues(cfg, db, session.call, p, now) ==> p.known)
  {
    hide Refs, ValidConfig, Requeues, Serial;
    var db' := Settle(cfg, db, session, p, now);
    var c := session.call;
    if Requeues(cfg, db, c, p, now) && !p.known {
      var k := SettlesOne(db, c, p);
      assert db'.attempts[k].state == Unresolved;
      assert db'.calls[c].state == Queued;
      assert !OnlyThrottled(db'.attempts, c);
      assert !CallDisciplined(db'.calls, db'.attempts, c);
    } else {
      SettleDiscipline(cfg, db, session, p, now);
    }
  }

  // ----- crash recovery -----

  lemma RecoverExtends(cfg: Config, db: Db)
    requires Refs(cfg, db)
    ensures var db' := Recover(db);
            && Refs(cfg, db') && Extends(db, db') && Retold(db.attempts, db'.attempts) && SameDispatches(db.attempts, db'.attempts)
            && WorkKept(db, db') && AccountsKept(db, db') && BudgetsKept(db, db')
  {
    hide GoalRefs, AgentForest, TaskForest, AgentRefs, UsageRefs;
    KeysRefs(cfg, db, Recover(db));
  }

  lemma RecoverDiscipline(cfg: Config, db: Db)
    requires Refs(cfg, db) && Disciplined(db)
    ensures Disciplined(Recover(db))
  {
    hide Refs;
    var db' := Recover(db);
    forall c | 0 <= c < |db'.calls| ensures CallDisciplined(db'.calls, db'.attempts, c) {
      assert CallDisciplined(db.calls, db.attempts, c);
      SumSame(db'.attempts, db.attempts, Keyed(CallKey(), c), Keyed(CallKey(), c));
    }
    AttemptsCounted(cfg, db);
  }

  /** A crash at any point loses no reservation, no limit and no allowance. */
  lemma RecoverInv(cfg: Config, db: Db)
    requires Inv(cfg, db)
    ensures Inv(cfg, Recover(db)) && Extends(db, Recover(db))
  {
    hide Refs, Balanced, Capped, ApprovalsHold, WorkHolds, Disciplined, WindowsHold, SlotsHold;
    var db' := Recover(db);
    AttemptsCounted(cfg, db);
    RecoverExtends(cfg, db);
    RecoverDiscipline(cfg, db);
    BalancedFrame(cfg, db, db');
    CappedFrame(cfg, db, db');
    LimitsFrame(cfg, db, db');
    QuietApprovals(db, db');
    WorkFrame(db, db');
  }
}
