/** Exactly when an admission succeeds, what a denied one leaves alone, and how often a ready
    system can be passed by. */
module Fairness {
  import opened Common
  import opened Tables
  import opened Sums
  import opened Ledger
  import opened Quota
  import opened Admission
  import opened Steps
  import opened Books
  import opened Discipline
  import opened Limits
  import opened Approvals
  import opened Invariant
  import opened Runs
  import opened Stillness

  // ----- one candidate's verdict does not depend on the candidates before it -----

  /** Only calls and buckets differ, and no call changed its groups. */
  ghost predicate Passed(db: Db, db': Db) {
    && db' == db.(calls := db'.calls, buckets := db'.buckets)
    && |db'.calls| == |db.calls|
    && forall c :: 0 <= c < |db.calls| ==> db'.calls[c].groups == db.calls[c].groups && db'.calls[c].task == db.calls[c].task
                                           && db'.calls[c].system == db.calls[c].system
                                           && db'.calls[c].reservation == db.calls[c].reservation
  }

  lemma PassedTransitive(a: Db, b: Db, c: Db)
    requires Passed(a, b) && Passed(b, c)
    ensures Passed(a, c)
  {
  }

  /** A poll at `now` sees the same group state in both. */
  ghost predicate SamePolls(cfg: Config, db: Db, db': Db, now: int) {
    forall g :: g in cfg.groups ==> Poll(cfg.groups[g], Lookup(db'.buckets, g), now) == Poll(cfg.groups[g], Lookup(db.buckets, g), now)
  }

  lemma UsageFrame(calls: seq<Call>, calls': seq<Call>, attempts: seq<Attempt>, g: Id, since: int)
    requires |calls'| == |calls| && forall c :: 0 <= c < |calls| ==> calls'[c].groups == calls[c].groups
    ensures TokensSince(calls', attempts, g, since) == TokensSince(calls, attempts, g, since)
    ensures InFlightCount(calls', attempts, g) == InFlightCount(calls, attempts, g)
  {
    SumSame(attempts, attempts, DispatchedSince(calls', g, since), DispatchedSince(calls, g, since));
    SumSame(attempts, attempts, InFlightIn(calls', g), InFlightIn(calls, g));
  }

  lemma FitFrame(cfg: Config, db: Db, db': Db, b: map<Id, Bucket>, b': map<Id, Bucket>, e: Call, now: int)
    requires Passed(db, db')
    requires forall g :: g in e.groups ==> g in b && g in b' && b'[g] == b[g]
    ensures AllFit(cfg, db', b', e, now) <==> AllFit(cfg, db, b, e, now)
  {
    forall g | g in e.groups
      ensures TokensSince(db'.calls, db'.attempts, g, b[g].updated - WINDOW_MS) == TokensSince(db.calls, db.attempts, g, b[g].updated - WINDOW_MS)
      ensures InFlightCount(db'.calls, db'.attempts, g) == InFlightCount(db.calls, db.attempts, g)
    {
      UsageFrame(db.calls, db'.calls, db.attempts, g, b[g].updated - WINDOW_MS);
    }
  }

  lemma RefusalFrame(cfg: Config, db: Db, db': Db, c: Id, now: int, denied: set<Id>)
    requires Refs(cfg, db) && Refs(cfg, db') && Passed(db, db') && c < |db.calls| && db'.calls[c] == db.calls[c]
    ensures RefusalOf(cfg, db', c, now, denied) == RefusalOf(cfg, db, c, now, denied)
  {
    hide GoalRefs, AgentForest, TaskForest, UsageRefs, AttemptRefs, Payers;
    assert PayersAfford(db', db.calls[c]) == PayersAfford(db, db.calls[c]);
  }

  lemma VerdictFrame(cfg: Config, db: Db, db': Db, c: Id, now: int, denied: set<Id>)
    requires ValidConfig(cfg) && Refs(cfg, db) && Refs(cfg, db') && Passed(db, db') && SamePolls(cfg, db, db', now)
    requires c < |db.calls| && db'.calls[c] == db.calls[c]
    ensures VerdictOf(cfg, db', c, now, denied).Ready? == VerdictOf(cfg, db, c, now, denied).Ready?
  {
    hide RefusalOf, AllFit, PollAll, Poll, GoalRefs, AgentForest, TaskForest, AgentRefs, TaskRefs, UsageRefs;
    var groups := db.calls[c].groups;
    RefusalFrame(cfg, db, db', c, now, denied);
    PollAllRows(cfg, db.buckets, groups, now);
    PollAllRows(cfg, db'.buckets, groups, now);
    FitFrame(cfg, db, db', PollAll(cfg, db.buckets, groups, now), PollAll(cfg, db'.buckets, groups, now), db.calls[c], now);
  }

  lemma PolledSame(cfg: Config, db: Db, groups: seq<Id>, now: int)
    requires BucketsHold(cfg, db) && Distinct(groups) && forall g :: g in groups ==> g in cfg.groups
    ensures SamePolls(cfg, db, db.(buckets := PollAll(cfg, db.buckets, groups, now)), now)
  {
    forall g | g in cfg.groups
      ensures Poll(cfg.groups[g], Lookup(PollAll(cfg, db.buckets, groups, now), g), now) == Poll(cfg.groups[g], Lookup(db.buckets, g), now)
    {
      PollAllAgain(cfg, db.buckets, groups, g, now);
    }
  }

  /** Passing over a candidate changes nothing another candidate is judged by. */
  lemma PassOverSame(cfg: Config, db: Db, h: Id, now: int, denied: set<Id>)
    requires ValidConfig(cfg) && Refs(cfg, db) && BucketsHold(cfg, db) && h < |db.calls|
    ensures var next := PassOver(db, h, VerdictOf(cfg, db, h, now, denied));
            Refs(cfg, next) && Passed(db, next) && SamePolls(cfg, db, next, now) && BucketsHold(cfg, next)
            && forall c :: 0 <= c < |db.calls| && c != h ==> next.calls[c] == db.calls[c]
  {
    hide RefusalOf, AllFit, Poll, PollAll, BucketsHold, GoalRefs, AgentForest, TaskForest, AgentRefs, TaskRefs, UsageRefs;
    var v := VerdictOf(cfg, db, h, now, denied);
    PassOverRefs(cfg, db, h, v);
    PolledSame(cfg, db, db.calls[h].groups, now);
    CallGroups(cfg, db, h);
    PollBuckets(cfg, db, db.calls[h].groups, now);
    assert BucketsHold(cfg, Reject(db, h)) by { RejectPasses(cfg, db, h); }
  }

  lemma RejectPasses(cfg: Config, db: Db, h: Id)
    requires Refs(cfg, db) && BucketsHold(cfg, db) && h < |db.calls|
    ensures Refs(cfg, Reject(db, h)) && BucketsHold(cfg, Reject(db, h)) && Passed(db, Reject(db, h))
  {
    PassOverRefs(cfg, db, h, Refused(ApprovalDenied));
  }

  // ----- exactly when a scan admits -----

  predicate PinsUsable(db: Db, t: Id, now: int) {
    t < |db.tasks| && forall p :: p in db.tasks[t].pins ==> PinUsable(db, t, p, now)
  }

  predicate FirstReady(cfg: Config, db: Db, ids: seq<Id>, k: nat, now: int, denied: set<Id>)
    requires ValidConfig(cfg) && Refs(cfg, db) && k < |ids|
    requires forall i :: 0 <= i < |ids| ==> ids[i] < |db.calls|
  {
    && VerdictOf(cfg, db, ids[k], now, denied).Ready?
    && forall i :: 0 <= i < k ==> !VerdictOf(cfg, db, ids[i], now, denied).Ready?
  }

  /** The caller is the first ready candidate and its approvals can be paid. */
  ghost predicate Admissible(cfg: Config, db: Db, ids: seq<Id>, caller: Id, now: int, denied: set<Id>)
    requires ValidConfig(cfg) && Refs(cfg, db)
    requires forall i :: 0 <= i < |ids| ==> ids[i] < |db.calls|
  {
    exists k :: 0 <= k < |ids| && ids[k] == caller && FirstReady(cfg, db, ids, k, now, denied)
                && PinsUsable(db, db.calls[caller].task, now)
  }

  lemma GrantSucceeds(cfg: Config, db: Db, c: Id, now: int)
    requires Refs(cfg, db) && c < |db.calls|
    ensures Grant(cfg, db, c, now).Some? <==> PinsUsable(db, db.calls[c].task, now)
  {
  }

  lemma AdmissibleTail(cfg: Config, db: Db, next: Db, ids: seq<Id>, caller: Id, now: int, denied: set<Id>)
    requires ValidConfig(cfg) && Refs(cfg, db) && Refs(cfg, next) && ids != [] && Distinct(ids)
    requires forall i :: 0 <= i < |ids| ==> ids[i] < |db.calls|
    requires Passed(db, next) && SamePolls(cfg, db, next, now)
    requires forall c :: 0 <= c < |db.calls| && c != ids[0] ==> next.calls[c] == db.calls[c]
    requires !VerdictOf(cfg, db, ids[0], now, denied).Ready?
    ensures Admissible(cfg, next, ids[1..], caller, now, denied) <==> Admissible(cfg, db, ids, caller, now, denied)
  {
    hide Refs, ValidConfig, VerdictOf, SamePolls;
    var tail := ids[1..];
    forall i | 0 <= i < |tail|
      ensures VerdictOf(cfg, next, tail[i], now, denied).Ready? == VerdictOf(cfg, db, ids[i + 1], now, denied).Ready?
    {
      VerdictFrame(cfg, db, next, tail[i], now, denied);
    }
    if Admissible(cfg, next, tail, caller, now, denied) {
      var k :| 0 <= k < |tail| && tail[k] == caller && FirstReady(cfg, next, tail, k, now, denied)
               && PinsUsable(next, next.calls[caller].task, now);
      forall i | 0 <= i < k + 1 ensures !VerdictOf(cfg, db, ids[i], now, denied).Ready? {
        if i > 0 { assert tail[i - 1] == ids[i]; }
      }
      assert ids[k + 1] == caller && FirstReady(cfg, db, ids, k + 1, now, denied);
      assert PinsUsable(db, db.calls[caller].task, now) by { assert next.tasks == db.tasks; }
    }
    if Admissible(cfg, db, ids, caller, now, denied) {
      var k :| 0 <= k < |ids| && ids[k] == caller && FirstReady(cfg, db, ids, k, now, denied)
               && PinsUsable(db, db.calls[caller].task, now);
      assert k > 0;
      forall i | 0 <= i < k - 1 ensures !VerdictOf(cfg, next, tail[i], now, denied).Ready? {
        assert tail[i] == ids[i + 1];
      }
      assert tail[k - 1] == caller && FirstReady(cfg, next, tail, k - 1, now, denied);
      assert PinsUsable(next, next.calls[caller].task, now) by { assert next.tasks == db.tasks; }
    }
  }

  /** One request of `c` was recorded, `c`'s system moved to the end of the rotation, and its task
      paid for its pins; no other request, system or approval was touched. */
  ghost predicate OneAdmitted(db: Db, db': Db, c: Id, now: int) {
    && c < |db.calls| && db.calls[c].system < |db.systems| && db.calls[c].task < |db.tasks|
    && |db'.attempts| == |db.attempts| + 1 && db'.attempts[..|db.attempts|] == db.attempts
    && db'.attempts[|db.attempts|].call == c && db'.attempts[|db.attempts|].system == db.calls[c].system
    && db'.attempts[|db.attempts|].reservation == db.calls[c].reservation && now <= db'.attempts[|db.attempts|].dispatchedAt
    && |db'.systems| == |db.systems|
    && (forall s :: 0 <= s < |db.systems| ==>
          db'.systems[s].lastAdmission == if s == db.calls[c].system then |db.attempts| + 1 else db.systems[s].lastAdmission)
    && SpendUses(db, db.calls[c].task, now).Some?
    && db'.uses == SpendUses(db, db.calls[c].task, now).value.uses
    && db'.approvals == SpendUses(db, db.calls[c].task, now).value.approvals
  }

  lemma GrantAdmitsOne(cfg: Config, db: Db, c: Id, now: int)
    requires ValidConfig(cfg) && Refs(cfg, db) && c < |db.calls| && Grant(cfg, db, c, now).Some?
    requires forall g :: g in db.calls[c].groups ==> g in db.buckets
    ensures OneAdmitted(db, Grant(cfg, db, c, now).value, c, now)
  {
    hide DispatchAt, SpendUses, Charge, Spend, GoalRefs, AgentForest, TaskForest, UsageRefs, AttemptRefs;
    DispatchAtLatest(db.buckets, db.calls[c].groups, now);
    assert SpendUses(db, db.calls[c].task, now).value == db.(approvals := SpendUses(db, db.calls[c].task, now).value.approvals,
      uses := SpendUses(db, db.calls[c].task, now).value.uses) by { SpendTouches(db, db.calls[c].task, now); }
  }

  lemma SpendTouches(db: Db, t: Id, now: int)
    requires t < |db.tasks| && SpendUses(db, t, now).Some?
    ensures SpendUses(db, t, now).value
            == db.(approvals := SpendUses(db, t, now).value.approvals, uses := SpendUses(db, t, now).value.uses)
  {
  }

  lemma AdmittedThrough(db: Db, next: Db, db': Db, c: Id, now: int)
    requires Passed(db, next) && c < |db.calls| && OneAdmitted(next, db', c, now)
    ensures OneAdmitted(db, db', c, now)
  {
    assert SpendUses(next, db.calls[c].task, now).Some? == SpendUses(db, db.calls[c].task, now).Some? by {
      assert forall p :: PinUsable(next, db.calls[c].task, p, now) == PinUsable(db, db.calls[c].task, p, now);
    }
  }

  /** The candidate loop admits exactly when the caller is the first ready candidate and can pay;
      otherwise it spends nothing, although what it rejected and polled is committed. */
  lemma {:induction false} ScanAdmits(cfg: Config, db: Db, ids: seq<Id>, caller: Id, now: int, denied: set<Id>)
    requires ValidConfig(cfg) && Refs(cfg, db) && BucketsHold(cfg, db) && Distinct(ids)
    requires forall i :: 0 <= i < |ids| ==> ids[i] < |db.calls|
    ensures var (db', admitted) := Scan(cfg, db, ids, caller, now, denied);
            && (admitted <==> Admissible(cfg, db, ids, caller, now, denied))
            && (if admitted then OneAdmitted(db, db', caller, now) else Passed(db, db'))
    decreases |ids|
  {
    hide Refs, ValidConfig, BucketsHold, VerdictOf, Grant, PassOver, OneAdmitted, SamePolls, Passed;
    if ids == [] {
      assert Passed(db, db) by { PassedSelf(db); }
    } else {
      var h := ids[0];
      var v := VerdictOf(cfg, db, h, now, denied);
      var next := PassOver(db, h, v);
      PassOverSame(cfg, db, h, now, denied);
      if !v.Ready? {
        PassedLength(db, next);
        ScanAdmits(cfg, next, ids[1..], caller, now, denied);
        AdmissibleTail(cfg, db, next, ids, caller, now, denied);
        Through(cfg, db, next, ids[1..], caller, now, denied);
      } else if h != caller {
        assert !Admissible(cfg, db, ids, caller, now, denied);
      } else {
        ReadyCaller(cfg, db, ids, now, denied);
      }
    }
  }

  lemma PassedSelf(db: Db)
    ensures Passed(db, db)
  {
  }

  lemma PassedLength(db: Db, db': Db)
    requires Passed(db, db')
    ensures |db'.calls| == |db.calls| && db'.tasks == db.tasks
  {
  }

  /** A scan's effect is the same whether it is measured before or after a candidate was passed over. */
  lemma Through(cfg: Config, db: Db, next: Db, rest: seq<Id>, caller: Id, now: int, denied: set<Id>)
    requires ValidConfig(cfg) && Refs(cfg, next) && Passed(db, next)
    requires forall i :: 0 <= i < |rest| ==> rest[i] < |next.calls|
    requires var (db', admitted) := Scan(cfg, next, rest, caller, now, denied);
             if admitted then OneAdmitted(next, db', caller, now) else Passed(next, db')
    ensures var (db', admitted) := Scan(cfg, next, rest, caller, now, denied);
            if admitted then OneAdmitted(db, db', caller, now) else Passed(db, db')
  {
    hide Refs, ValidConfig, Scan, Passed, OneAdmitted;
    var (db', admitted) := Scan(cfg, next, rest, caller, now, denied);
    if admitted {
      assert caller < |db.calls| by { AdmittedExists(next, db', caller, now); PassedLength(db, next); }
      AdmittedThrough(db, next, db', caller, now);
    } else {
      PassedTransitive(db, next, db');
    }
  }

  lemma AdmittedExists(db: Db, db': Db, c: Id, now: int)
    requires OneAdmitted(db, db', c, now)
    ensures c < |db.calls|
  {
  }

  lemma ReadyCaller(cfg: Config, db: Db, ids: seq<Id>, now: int, denied: set<Id>)
    requires ValidConfig(cfg) && Refs(cfg, db) && BucketsHold(cfg, db) && Distinct(ids) && ids != []
    requires forall i :: 0 <= i < |ids| ==> ids[i] < |db.calls|
    requires VerdictOf(cfg, db, ids[0], now, denied).Ready?
    ensures var (db', admitted) := Scan(cfg, db, ids, ids[0], now, denied);
            && (admitted <==> Admissible(cfg, db, ids, ids[0], now, denied))
            && (if admitted then OneAdmitted(db, db', ids[0], now) else Passed(db, db'))
    decreases |ids|, 0
  {
    hide Refs, ValidConfig, BucketsHold, VerdictOf, Grant, PassOver, OneAdmitted, SamePolls, Passed;
    var c := ids[0];
    var next := PassOver(db, c, VerdictOf(cfg, db, c, now, denied));
    PassOverSame(cfg, db, c, now, denied);
    PassedLength(db, next);
    GrantSucceeds(cfg, next, c, now);
    assert PinsUsable(next, next.calls[c].task, now) == PinsUsable(db, db.calls[c].task, now) by { PinsFrame(db, next, c, now); }
    match Grant(cfg, next, c, now)
    case Some(granted) =>
      ReadyPolled(cfg, db, c, now, denied);
      GrantAdmitsOne(cfg, next, c, now);
      AdmittedThrough(db, next, granted, c, now);
      assert FirstReady(cfg, db, ids, 0, now, denied);
    case None =>
      var rejected := Reject(next, c);
      RejectPasses(cfg, next, c);
      PassedTransitive(db, next, rejected);
      PassedLength(db, rejected);
      ScanAdmits(cfg, rejected, ids[1..], c, now, denied);
      Through(cfg, db, rejected, ids[1..], c, now, denied);
  }

  lemma PinsFrame(db: Db, next: Db, c: Id, now: int)
    requires Passed(db, next) && c < |db.calls|
    ensures PinsUsable(next, next.calls[c].task, now) == PinsUsable(db, db.calls[c].task, now)
  {
  }

  lemma ReadyPolled(cfg: Config, db: Db, c: Id, now: int, denied: set<Id>)
    requires ValidConfig(cfg) && Refs(cfg, db) && c < |db.calls| && VerdictOf(cfg, db, c, now, denied).Ready?
    ensures var next := PassOver(db, c, VerdictOf(cfg, db, c, now, denied));
            forall g :: g in next.calls[c].groups ==> g in next.buckets
  {
    hide RefusalOf, Poll, PollAll, GoalRefs, AgentForest, TaskForest, AgentRefs, TaskRefs, UsageRefs;
  }

  // ----- the admission transaction -----

  /** Exactly when a transaction admits its caller: the call is queued, it is the first candidate in
      (last admission, sequence) order that passes every check, and every pinned tool is approved.
      A transaction that does not admit changes no account, attempt, approval or rotation, although
      it commits the rejections and refills it made on the way. */
  lemma AdmissionExactly(cfg: Config, db: Db, session: Session, now: int, denied: set<Id>)
    requires ValidConfig(cfg) && Inv(cfg, db)
    ensures var (db', admitted) := Admit(cfg, db, session, now, denied);
            && (admitted <==> Authorized(db, session) && db.calls[session.call].state == Queued
                              && Admissible(cfg, db, Candidates(db), session.call, now, denied))
            && (if admitted then OneAdmitted(db, db', session.call, now) else Passed(db, db'))
  {
    hide Refs, ValidConfig, Scan, Balanced, Capped, Disciplined, ApprovalsHold, Work.WorkHolds, VerdictOf, OneAdmitted, Admissible,
      BucketsHold, WindowsHold, SlotsHold, RotationHolds, Passed;
    CandidatesAreFairOrder(db);
    PassedSelf(db);
    ScanAdmits(cfg, db, Candidates(db), session.call, now, denied);
  }

  // ----- rotation -----

  predicate AdmitsFor(db: Db, db': Db, s: Id) {
    |db'.attempts| > |db.attempts| && db'.attempts[|db.attempts|].system == s
  }

  ghost predicate HasReady(cfg: Config, db: Db, s: Id, now: int, denied: set<Id>)
    requires ValidConfig(cfg) && Refs(cfg, db)
  {
    exists k :: 0 <= k < |Candidates(db)| && db.calls[Candidates(db)[k]].system == s
                && VerdictOf(cfg, db, Candidates(db)[k], now, denied).Ready?
  }

  /** A system's place only ever moves back, and only when the system itself is admitted, and then
      behind everyone. */
  lemma RotationStep(cfg: Config, db: Db, step: Step, s: Id)
    requires ValidConfig(cfg) && Inv(cfg, db) && s < |db.systems|
    ensures var db' := Next(cfg, db, step);
            && |db.attempts| <= |db'.attempts| && s < |db'.systems|
            && (!AdmitsFor(db, db', s) ==> db'.systems[s].lastAdmission == db.systems[s].lastAdmission)
            && (AdmitsFor(db, db', s) ==> step.DoAdmit? && db'.systems[s].lastAdmission == |db.attempts| + 1)
  {
    hide Refs, ValidConfig, Balanced, Capped, Disciplined, ApprovalsHold, Work.WorkHolds, Limited, Admit, Admissible;
    if step.DoAdmit? {
      AdmissionExactly(cfg, db, step.session, step.now, step.denied);
    } else {
      StepStill(cfg, db, step);
    }
  }

  /** Nobody is admitted ahead of a ready call whose system has waited longer. */
  lemma NoLeapfrog(cfg: Config, db: Db, session: Session, now: int, denied: set<Id>, s: Id, o: Id)
    requires ValidConfig(cfg) && Inv(cfg, db) && s < |db.systems| && o < |db.systems|
    requires HasReady(cfg, db, s, now, denied) && AdmitsFor(db, Admit(cfg, db, session, now, denied).0, o)
    ensures db.systems[o].lastAdmission <= db.systems[s].lastAdmission
  {
    hide Refs, ValidConfig, Balanced, Capped, Disciplined, ApprovalsHold, Work.WorkHolds, Limited, Admit, VerdictOf, Candidates;
    AdmissionExactly(cfg, db, session, now, denied);
    CandidatesAreFairOrder(db);
    var queue := Candidates(db);
    var j :| 0 <= j < |queue| && queue[j] == session.call && FirstReady(cfg, db, queue, j, now, denied)
             && PinsUsable(db, db.calls[session.call].task, now);
    var k :| 0 <= k < |queue| && db.calls[queue[k]].system == s && VerdictOf(cfg, db, queue[k], now, denied).Ready?;
    assert db.calls[queue[j]].system == o;
    if j < k { assert Before(db, queue[j], queue[k]); }
  }

  /** `s` has a ready candidate in every admission of the segment, and is not admitted in it. */
  ghost predicate KeptWaiting(cfg: Config, states: seq<Db>, steps: seq<Step>, i: nat, j: nat, s: Id)
    requires ValidConfig(cfg) && IsRun(cfg, states, steps) && i <= j <= |steps|
  {
    forall k :: i <= k < j ==>
      && (steps[k].DoAdmit? ==> HasReady(cfg, states[k], s, steps[k].now, steps[k].denied))
      && !AdmitsFor(states[k], states[k + 1], s)
  }

  lemma {:induction false} WaitingKeepsPlace(cfg: Config, states: seq<Db>, steps: seq<Step>, i: nat, j: nat, s: Id)
    requires ValidConfig(cfg) && IsRun(cfg, states, steps) && i <= j <= |steps| && Inv(cfg, states[i]) && s < |states[i].systems|
    requires KeptWaiting(cfg, states, steps, i, j, s)
    ensures Inv(cfg, states[j]) && s < |states[j].systems| && states[j].systems[s].lastAdmission == states[i].systems[s].lastAdmission
  {
    hide Inv, Next, Plausible, Refs, ValidConfig, HasReady, AdmitsFor;
    if i < j {
      WaitingKeepsPlace(cfg, states, steps, i, j - 1, s);
      NextInv(cfg, states[j - 1], steps[j - 1]);
      RotationStep(cfg, states[j - 1], steps[j - 1], s);
    }
  }

  lemma {:induction false} PlaceGrows(cfg: Config, states: seq<Db>, steps: seq<Step>, i: nat, j: nat, o: Id, place: nat)
    requires ValidConfig(cfg) && IsRun(cfg, states, steps) && i <= j <= |steps| && Inv(cfg, states[i]) && o < |states[i].systems|
    requires place <= states[i].systems[o].lastAdmission && place <= |states[i].attempts|
    ensures Inv(cfg, states[j]) && o < |states[j].systems| && place <= states[j].systems[o].lastAdmission && place <= |states[j].attempts|
  {
    hide Inv, Next, Plausible, Refs, ValidConfig;
    if i < j {
      PlaceGrows(cfg, states, steps, i, j - 1, o, place);
      NextInv(cfg, states[j - 1], steps[j - 1]);
      RotationStep(cfg, states[j - 1], steps[j - 1], o);
    }
  }

  lemma AdmittedLast(cfg: Config, db: Db, step: Step, s: Id, o: Id)
    requires ValidConfig(cfg) && Inv(cfg, db) && Plausible(step) && s < |db.systems| && o < |db.systems| && s != o
    requires AdmitsFor(db, Next(cfg, db, step), o)
    ensures var db' := Next(cfg, db, step);
            && Inv(cfg, db') && o < |db'.systems| && s < |db'.systems|
            && db.systems[s].lastAdmission < db'.systems[o].lastAdmission <= |db'.attempts|
  {
    hide Refs, ValidConfig, Balanced, Capped, Disciplined, ApprovalsHold, Work.WorkHolds, WindowsHold, SlotsHold, BucketsHold, Next;
    NextInv(cfg, db, step);
    RotationStep(cfg, db, step, o);
    RotationStep(cfg, db, step, s);
  }

  /** Bounded bypass: while a system has a ready candidate in every admission, any other system is
      admitted at most once before it. */
  lemma BypassTheorem(cfg: Config, states: seq<Db>, steps: seq<Step>, i: nat, j: nat, s: Id, o: Id, k1: nat, k2: nat)
    requires ValidConfig(cfg) && IsRun(cfg, states, steps) && states[0] == EMPTY && i <= k1 < k2 < j <= |steps|
    requires KeptWaiting(cfg, states, steps, i, j, s) && s != o && s < |states[i].systems| && o < |states[k1].systems|
    requires AdmitsFor(states[k1], states[k1 + 1], o)
    ensures !AdmitsFor(states[k2], states[k2 + 1], o)
  {
    hide Inv, Next, Plausible, Refs, ValidConfig, HasReady, AdmitsFor;
    EmptyInv(cfg);
    RunInv(cfg, states, steps, i);
    WaitingKeepsPlace(cfg, states, steps, i, k1, s);
    AdmittedLast(cfg, states[k1], steps[k1], s, o);
    PlaceGrows(cfg, states, steps, k1 + 1, k2, o, states[k1 + 1].systems[o].lastAdmission);
    WaitingKeepsPlace(cfg, states, steps, i, k2, s);
    if AdmitsFor(states[k2], states[k2 + 1], o) {
      RotationStep(cfg, states[k2], steps[k2], o);
      NoLeapfrogStep(cfg, states[k2], steps[k2], s, o);
    }
  }

  lemma NoLeapfrogStep(cfg: Config, db: Db, step: Step, s: Id, o: Id)
    requires ValidConfig(cfg) && Inv(cfg, db) && s < |db.systems| && o < |db.systems| && step.DoAdmit?
    requires HasReady(cfg, db, s, step.now, step.denied) && AdmitsFor(db, Next(cfg, db, step), o)
    ensures db.systems[o].lastAdmission <= db.systems[s].lastAdmission
  {
    hide Inv, Refs, ValidConfig, HasReady, AdmitsFor, Admit;
    NoLeapfrog(cfg, db, step.session, step.now, step.denied, s, o);
  }
}
