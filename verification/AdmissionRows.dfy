/** Admission read off the tables: which call is admitted, which calls are rejected, and what every row
    is afterwards, without reference to the transaction's own tests. */
module AdmissionRows {
  import opened Common
  import opened Tables
  import opened Sums
  import opened Ledger
  import opened Quota
  import opened Admission
  import opened Steps
  import opened Books
  import opened Discipline
  import opened Limits
  import opened Approvals
  import opened Invariant
  import opened Runs
  import opened Fairness

  // ----- what a queued call needs -----

  /** The system runs the revision that was granted, the call is in time, system, goal and every payer can
      afford it, and nobody ended its task, agent or goal. */
  predicate MayRun(cfg: Config, db: Db, c: Id, now: int, denied: set<Id>)
    requires Refs(cfg, db) && c < |db.calls|
  {
    var e := db.calls[c];
    var s, g, t := db.systems[e.system], db.goals[e.goal], db.tasks[e.task];
    && (s.state == Active || s.state == SystemState.Paused) && s.revision == e.revision
    && now < e.waitDeadline && now < e.deadline
    && s.used + s.reserved + e.reservation <= s.budget
    && g.used + g.reserved + e.reservation <= g.budget
    && !t.stopped && !t.terminal && db.agents[t.agent].state != Ended && g.control != Ended
    && c !in denied
    && forall a :: a in Payers(db.agents, db.tasks, e.agent, e.task) ==>
         a < |db.agents| && (a, e.goal) in db.usage
         && db.usage[(a, e.goal)].used + db.usage[(a, e.goal)].reserved + e.reservation <= db.agents[a].budget
  }

  function MinuteOf(db: Db, g: Id, at: int): Attempt -> int {
    (a: Attempt) => if a.dispatchedAt > at - 60000 && a.call < |db.calls| && g in db.calls[a.call].groups then a.reservation else 0
  }

  function OnNetwork(db: Db, g: Id): Attempt -> int {
    (a: Attempt) => if a.state == InFlight && a.call < |db.calls| && g in db.calls[a.call].groups then 1 else 0
  }

  /** The instant a group's clock shows to a poll at `now`. */
  function ClockAt(db: Db, g: Id, now: int): int {
    if g in db.buckets && now < db.buckets[g].updated then db.buckets[g].updated else now
  }

  /** What a group has earned by then: a new group is full. */
  function CreditAt(cfg: Config, db: Db, g: Id, now: int): real
    requires g in cfg.groups
  {
    var q := cfg.groups[g];
    if g in db.buckets then
      RealMin(q.burst as real,
        db.buckets[g].credit + (ClockAt(db, g, now) - db.buckets[g].updated) as real * (q.requestsPerMinute as real / 60000.0))
    else q.burst as real
  }

  /** One whole request of credit, no cooldown, room in the last minute and a free slot. */
  predicate GroupOpen(cfg: Config, db: Db, g: Id, e: Call, now: int)
    requires g in cfg.groups
  {
    && CreditAt(cfg, db, g, now) >= 1.0
    && (g in db.buckets ==> db.buckets[g].cooldown <= now) && (g !in db.buckets ==> 0 <= now)
    && Sum(db.attempts, MinuteOf(db, g, ClockAt(db, g, now))) + e.reservation <= cfg.groups[g].tokensPerMinute
    && Sum(db.attempts, OnNetwork(db, g)) < cfg.groups[g].maxConcurrent
  }

  predicate Fit(cfg: Config, db: Db, c: Id, now: int, denied: set<Id>)
    requires Refs(cfg, db) && c < |db.calls|
  {
    MayRun(cfg, db, c, now, denied) && forall g :: g in db.calls[c].groups ==> g in cfg.groups && GroupOpen(cfg, db, g, db.calls[c], now)
  }

  /** Every pinned local tool is approved, and either paid for by the task already or still available. */
  predicate PinsPayable(db: Db, t: Id, now: int)
    requires t < |db.tasks|
  {
    forall p :: p in db.tasks[t].pins ==>
      p in db.approvals && db.approvals[p].live && now < db.approvals[p].expires && ((p, t) in db.uses || db.approvals[p].remaining > 0)
  }

  lemma PolledGroup(cfg: Config, db: Db, g: Id, now: int)
    requires g in cfg.groups
    ensures var b := Poll(cfg.groups[g], Lookup(db.buckets, g), now);
            && b.credit == CreditAt(cfg, db, g, now) && b.updated == ClockAt(db, g, now)
            && b.cooldown == (if g in db.buckets then db.buckets[g].cooldown else 0)
  {
    if g !in db.buckets { assert (now - now) as real * Rate(cfg.groups[g]) == 0.0; }
  }

  lemma CountsAgree(db: Db, g: Id, at: int)
    ensures TokensSince(db.calls, db.attempts, g, at - WINDOW_MS) == Sum(db.attempts, MinuteOf(db, g, at))
    ensures InFlightCount(db.calls, db.attempts, g) == Sum(db.attempts, OnNetwork(db, g))
  {
    SumSame(db.attempts, db.attempts, DispatchedSince(db.calls, g, at - WINDOW_MS), MinuteOf(db, g, at));
    SumSame(db.attempts, db.attempts, InFlightIn(db.calls, g), OnNetwork(db, g));
  }

  lemma RefusedExactly(cfg: Config, db: Db, c: Id, now: int, denied: set<Id>)
    requires Refs(cfg, db) && c < |db.calls|
    ensures RefusalOf(cfg, db, c, now, denied).None? <==> MayRun(cfg, db, c, now, denied)
  {
    hide GoalRefs, AgentForest, TaskForest, AgentRefs, UsageRefs, AttemptRefs, Payers;
  }

  /** The three verdicts on a candidate, by the tables. */
  lemma VerdictExactly(cfg: Config, db: Db, c: Id, now: int, denied: set<Id>)
    requires ValidConfig(cfg) && Refs(cfg, db) && c < |db.calls|
    ensures VerdictOf(cfg, db, c, now, denied).Refused? <==> !MayRun(cfg, db, c, now, denied)
    ensures VerdictOf(cfg, db, c, now, denied).Ready? <==> Fit(cfg, db, c, now, denied)
  {
    hide RefusalOf, MayRun, Poll, PollAll, GoalRefs, AgentForest, TaskForest, AgentRefs, UsageRefs, AttemptRefs, CreditAt;
    RefusedExactly(cfg, db, c, now, denied);
    var e := db.calls[c];
    PollAllRows(cfg, db.buckets, e.groups, now);
    forall g | g in e.groups
      ensures g in cfg.groups
      ensures var b := Poll(cfg.groups[g], Lookup(db.buckets, g), now);
              Fits(cfg.groups[g], b, TokensSince(db.calls, db.attempts, g, b.updated - WINDOW_MS), InFlightCount(db.calls, db.attempts, g),
                e.reservation, now) == GroupOpen(cfg, db, g, e, now)
    {
      PolledGroup(cfg, db, g, now);
      CountsAgree(db, g, ClockAt(db, g, now));
    }
  }

  // ----- one scan -----

  /** The candidate ends the scan: it fits, and if it is the caller its pins can be paid. */
  predicate Blocks(cfg: Config, db: Db, d: Id, caller: Id, now: int, denied: set<Id>)
    requires Refs(cfg, db) && d < |db.calls|
  {
    Fit(cfg, db, d, now, denied) && (d == caller ==> PinsPayable(db, db.calls[d].task, now))
  }

  /** A candidate that the scan reaches is rejected: it may not run, or it is the caller and cannot pay. */
  predicate Unfit(cfg: Config, db: Db, d: Id, caller: Id, now: int, denied: set<Id>)
    requires Refs(cfg, db) && d < |db.calls|
  {
    !MayRun(cfg, db, d, now, denied) || (d == caller && Fit(cfg, db, d, now, denied) && !PinsPayable(db, db.calls[d].task, now))
  }

  lemma JudgedSame(cfg: Config, db: Db, db': Db, d: Id, caller: Id, now: int, denied: set<Id>)
    requires ValidConfig(cfg) && Refs(cfg, db) && Refs(cfg, db') && Passed(db, db') && SamePolls(cfg, db, db', now)
    requires d < |db.calls| && db'.calls[d] == db.calls[d]
    ensures Blocks(cfg, db', d, caller, now, denied) == Blocks(cfg, db, d, caller, now, denied)
    ensures Unfit(cfg, db', d, caller, now, denied) == Unfit(cfg, db, d, caller, now, denied)
  {
    hide Refs, VerdictOf, Fit, MayRun, SamePolls;
    VerdictFrame(cfg, db, db', d, now, denied);
    VerdictExactly(cfg, db, d, now, denied);
    VerdictExactly(cfg, db', d, now, denied);
    RefusalFrame(cfg, db, db', d, now, denied);
    RefusedExactly(cfg, db, d, now, denied);
    RefusedExactly(cfg, db', d, now, denied);
    PinsSame(cfg, db, db', d, now);
  }

  lemma PinsSame(cfg: Config, db: Db, db': Db, d: Id, now: int)
    requires Refs(cfg, db) && Refs(cfg, db') && Passed(db, db') && d < |db.calls| && db'.calls[d] == db.calls[d]
    ensures PinsPayable(db', db'.calls[d].task, now) == PinsPayable(db, db.calls[d].task, now)
  {
    hide GoalRefs, AgentForest, TaskForest, AgentRefs, UsageRefs, AttemptRefs;
  }

  ghost predicate NoneBlocks(cfg: Config, db: Db, ids: seq<Id>, n: nat, caller: Id, now: int, denied: set<Id>)
    requires Refs(cfg, db) && n <= |ids| && forall i :: 0 <= i < |ids| ==> ids[i] < |db.calls|
  {
    forall i :: 0 <= i < n ==> !Blocks(cfg, db, ids[i], caller, now, denied)
  }

  /** The scan reaches candidate `i` and rejects it. */
  ghost predicate TurnedAway(cfg: Config, db: Db, ids: seq<Id>, i: nat, caller: Id, now: int, denied: set<Id>)
    requires Refs(cfg, db) && i < |ids| && forall k :: 0 <= k < |ids| ==> ids[k] < |db.calls|
  {
    NoneBlocks(cfg, db, ids, i, caller, now, denied) && Unfit(cfg, db, ids[i], caller, now, denied)
  }

  function Started(e: Call): Call { e.(state := Running, attempts := e.attempts + 1) }

  function TurnedDown(e: Call): Call { e.(state := Rejected) }

  /** What the scan makes of call `d`. */
  ghost predicate Fate(cfg: Config, db: Db, db': Db, ids: seq<Id>, d: Id, caller: Id, now: int, denied: set<Id>, admitted: bool)
    requires Refs(cfg, db) && d < |db.calls| && |db'.calls| == |db.calls| && forall k :: 0 <= k < |ids| ==> ids[k] < |db.calls|
  {
    && (d !in ids ==> db'.calls[d] == db.calls[d])
    && forall i :: 0 <= i < |ids| && ids[i] == d ==>
         db'.calls[d] == if admitted && d == caller then Started(db.calls[d])
                         else if TurnedAway(cfg, db, ids, i, caller, now, denied) then TurnedDown(db.calls[d])
                         else db.calls[d]
  }

  lemma HeadStep(cfg: Config, db: Db, h: Id, caller: Id, now: int, denied: set<Id>)
    requires ValidConfig(cfg) && Refs(cfg, db) && BucketsHold(cfg, db) && h < |db.calls|
    ensures var x := Examine(cfg, db, h, caller, now, denied);
            && |x.db.calls| == |db.calls| && (forall d :: 0 <= d < |db.calls| && d != h ==> x.db.calls[d] == db.calls[d])
            && (x.GoOn? <==> !Blocks(cfg, db, h, caller, now, denied))
            && (x.GoOn? ==> Refs(cfg, x.db) && Passed(db, x.db) && SamePolls(cfg, db, x.db, now) && BucketsHold(cfg, x.db)
                            && x.db.calls[h] == if Unfit(cfg, db, h, caller, now, denied) then TurnedDown(db.calls[h]) else db.calls[h])
            && (x.Stop? ==> (x.admitted <==> h == caller)
                            && x.db.calls[h] == if h == caller then Started(db.calls[h]) else db.calls[h])
  {
    hide Refs, ValidConfig, VerdictOf, BucketsHold, SamePolls, Fit, MayRun, Passed, Grant, RefusalOf;
    var v := VerdictOf(cfg, db, h, now, denied);
    var next := PassOver(db, h, v);
    VerdictExactly(cfg, db, h, now, denied);
    PassOverSame(cfg, db, h, now, denied);
    if v.Ready? && h == caller {
      GrantPinned(cfg, db, next, h, now);
      if Grant(cfg, next, h, now).None? {
        RejectPasses(cfg, next, h);
        RejectPolls(cfg, db, next, h, now);
        PassedTransitive(db, next, Reject(next, h));
      } else {
        GrantStarts(cfg, next, h, now);
      }
    }
  }

  lemma RejectPolls(cfg: Config, db: Db, next: Db, h: Id, now: int)
    requires h < |next.calls| && SamePolls(cfg, db, next, now)
    ensures SamePolls(cfg, db, Reject(next, h), now) && |Reject(next, h).calls| == |next.calls|
    ensures forall d :: 0 <= d < |next.calls| && d != h ==> Reject(next, h).calls[d] == next.calls[d]
    ensures Reject(next, h).calls[h] == TurnedDown(next.calls[h])
  {
  }

  lemma GrantPinned(cfg: Config, db: Db, next: Db, c: Id, now: int)
    requires Refs(cfg, db) && Refs(cfg, next) && Passed(db, next) && c < |db.calls| && next.calls[c] == db.calls[c]
    ensures Grant(cfg, next, c, now).Some? <==> PinsPayable(db, db.calls[c].task, now)
  {
    PinsSame(cfg, db, next, c, now);
    GrantSucceeds(cfg, next, c, now);
  }

  lemma GrantStarts(cfg: Config, db: Db, c: Id, now: int)
    requires Refs(cfg, db) && c < |db.calls| && Grant(cfg, db, c, now).Some?
    ensures Grant(cfg, db, c, now).value.calls == db.calls[c := Started(db.calls[c])]
  {
    hide DispatchAt, Charge, Spend, GoalRefs, AgentForest, TaskForest, UsageRefs, AttemptRefs;
  }

  lemma {:induction false} ScanFates(cfg: Config, db: Db, ids: seq<Id>, caller: Id, now: int, denied: set<Id>)
    requires ValidConfig(cfg) && Refs(cfg, db) && BucketsHold(cfg, db) && Distinct(ids)
    requires forall i :: 0 <= i < |ids| ==> ids[i] < |db.calls|
    ensures var (db', admitted) := Scan(cfg, db, ids, caller, now, denied);
            && (admitted <==> Reaches(cfg, db, ids, caller, now, denied))
            && |db'.calls| == |db.calls| && Fates(cfg, db, db', ids, caller, now, denied, admitted)
    decreases |ids|
  {
    hide Refs, ValidConfig, BucketsHold, Examine, Blocks, Unfit, SamePolls, Passed;
    var (db', admitted) := Scan(cfg, db, ids, caller, now, denied);
    if ids != [] {
      var h, tail := ids[0], ids[1..];
      var x := Examine(cfg, db, h, caller, now, denied);
      HeadStep(cfg, db, h, caller, now, denied);
      ExamineRefs(cfg, db, h, caller, now, denied);
      if x.GoOn? {
        ScanFates(cfg, x.db, tail, caller, now, denied);
        forall i | 0 <= i < |tail|
          ensures Blocks(cfg, x.db, tail[i], caller, now, denied) == Blocks(cfg, db, ids[i + 1], caller, now, denied)
          ensures Unfit(cfg, x.db, tail[i], caller, now, denied) == Unfit(cfg, db, ids[i + 1], caller, now, denied)
        {
          assert tail[i] == ids[i + 1] && ids[0] != ids[i + 1];
          JudgedSame(cfg, db, x.db, tail[i], caller, now, denied);
        }
        TailFates(cfg, db, x.db, db', ids, caller, now, denied, admitted);
      } else {
        BlocksFit(cfg, db, h, caller, now, denied);
        assert NoneBlocks(cfg, db, ids, 0, caller, now, denied);
        forall i | 0 < i < |ids| ensures !NoneBlocks(cfg, db, ids, i, caller, now, denied) {
          assert Blocks(cfg, db, ids[0], caller, now, denied);
        }
        forall d: Id | d < |db.calls| ensures Fate(cfg, db, db', ids, d, caller, now, denied, admitted) {
        }
      }
    }
  }

  lemma BlocksFit(cfg: Config, db: Db, d: Id, caller: Id, now: int, denied: set<Id>)
    requires Refs(cfg, db) && d < |db.calls| && Blocks(cfg, db, d, caller, now, denied)
    ensures !Unfit(cfg, db, d, caller, now, denied)
  {
    hide GroupOpen;
  }

  /** Some candidate is the caller, ends the scan, and nobody before it does. */
  ghost predicate Reaches(cfg: Config, db: Db, ids: seq<Id>, caller: Id, now: int, denied: set<Id>)
    requires Refs(cfg, db) && forall i :: 0 <= i < |ids| ==> ids[i] < |db.calls|
  {
    exists i :: 0 <= i < |ids| && ids[i] == caller && NoneBlocks(cfg, db, ids, i, caller, now, denied) && Blocks(cfg, db, caller, caller, now, denied)
  }

  ghost predicate Fates(cfg: Config, db: Db, db': Db, ids: seq<Id>, caller: Id, now: int, denied: set<Id>, admitted: bool)
    requires Refs(cfg, db) && |db'.calls| == |db.calls| && forall k :: 0 <= k < |ids| ==> ids[k] < |db.calls|
  {
    forall d: Id :: d < |db.calls| ==> Fate(cfg, db, db', ids, d, caller, now, denied, admitted)
  }

  /** What the scan's first step leaves for the rest: only the head may have been rejected, and the others are judged
      as before. */
  ghost predicate HeadPassed(cfg: Config, db: Db, next: Db, ids: seq<Id>, caller: Id, now: int, denied: set<Id>)
    requires Refs(cfg, db) && Refs(cfg, next) && |next.calls| == |db.calls| && ids != []
    requires forall k :: 0 <= k < |ids| ==> ids[k] < |db.calls|
  {
    && !Blocks(cfg, db, ids[0], caller, now, denied)
    && (forall d :: 0 <= d < |db.calls| && d != ids[0] ==> next.calls[d] == db.calls[d])
    && next.calls[ids[0]] == (if Unfit(cfg, db, ids[0], caller, now, denied) then TurnedDown(db.calls[ids[0]]) else db.calls[ids[0]])
    && (forall i :: 0 < i < |ids| ==>
          && Blocks(cfg, next, ids[i], caller, now, denied) == Blocks(cfg, db, ids[i], caller, now, denied)
          && Unfit(cfg, next, ids[i], caller, now, denied) == Unfit(cfg, db, ids[i], caller, now, denied))
  }

  /** Nobody before a candidate of the tail ends the scan exactly when nobody before it in the whole list does. */
  lemma TailBlocks(cfg: Config, db: Db, next: Db, ids: seq<Id>, i: nat, caller: Id, now: int, denied: set<Id>)
    requires Refs(cfg, db) && Refs(cfg, next) && |next.calls| == |db.calls| && i + 1 < |ids|
    requires forall i :: 0 <= i < |ids| ==> ids[i] < |db.calls|
    requires HeadPassed(cfg, db, next, ids, caller, now, denied)
    ensures NoneBlocks(cfg, next, ids[1..], i, caller, now, denied) == NoneBlocks(cfg, db, ids, i + 1, caller, now, denied)
    ensures TurnedAway(cfg, next, ids[1..], i, caller, now, denied) == TurnedAway(cfg, db, ids, i + 1, caller, now, denied)
  {
    hide Refs, Blocks, Unfit;
    var tail := ids[1..];
    assert forall k :: 0 <= k < |tail| ==> tail[k] == ids[k + 1];
    if NoneBlocks(cfg, next, tail, i, caller, now, denied) {
      forall k | 0 <= k < i + 1 ensures !Blocks(cfg, db, ids[k], caller, now, denied) {
        if k > 0 { assert !Blocks(cfg, next, tail[k - 1], caller, now, denied); }
      }
    }
    if NoneBlocks(cfg, db, ids, i + 1, caller, now, denied) {
      forall k | 0 <= k < i ensures !Blocks(cfg, next, tail[k], caller, now, denied) {
        assert !Blocks(cfg, db, ids[k + 1], caller, now, denied);
      }
    }
  }

  lemma TailFate(cfg: Config, db: Db, next: Db, db': Db, ids: seq<Id>, d: Id, caller: Id, now: int, denied: set<Id>, admitted: bool)
    requires Refs(cfg, db) && Refs(cfg, next) && ids != [] && Distinct(ids) && |next.calls| == |db.calls| == |db'.calls| && d < |db.calls|
    requires forall i :: 0 <= i < |ids| ==> ids[i] < |db.calls|
    requires HeadPassed(cfg, db, next, ids, caller, now, denied) && Fate(cfg, next, db', ids[1..], d, caller, now, denied, admitted)
    requires admitted ==> caller != ids[0]
    ensures Fate(cfg, db, db', ids, d, caller, now, denied, admitted)
  {
    hide Refs, Blocks, Unfit, NoneBlocks, TurnedAway;
    var tail := ids[1..];
    if d == ids[0] {
      assert d !in tail;
      assert TurnedAway(cfg, db, ids, 0, caller, now, denied) == Unfit(cfg, db, d, caller, now, denied) by { FirstTurned(cfg, db, ids, caller, now, denied); }
    } else if d in tail {
      var k :| 0 <= k < |tail| && tail[k] == d;
      assert ids[k + 1] == d;
      TailBlocks(cfg, db, next, ids, k, caller, now, denied);
    } else {
      assert ids == [ids[0]] + tail;
    }
  }

  lemma FirstTurned(cfg: Config, db: Db, ids: seq<Id>, caller: Id, now: int, denied: set<Id>)
    requires Refs(cfg, db) && ids != [] && forall i :: 0 <= i < |ids| ==> ids[i] < |db.calls|
    ensures TurnedAway(cfg, db, ids, 0, caller, now, denied) == Unfit(cfg, db, ids[0], caller, now, denied)
  {
    hide Refs, Blocks, Unfit;
  }

  lemma TailFates(cfg: Config, db: Db, next: Db, db': Db, ids: seq<Id>, caller: Id, now: int, denied: set<Id>, admitted: bool)
    requires Refs(cfg, db) && Refs(cfg, next) && ids != [] && Distinct(ids) && |next.calls| == |db.calls| == |db'.calls|
    requires forall i :: 0 <= i < |ids| ==> ids[i] < |db.calls|
    requires HeadPassed(cfg, db, next, ids, caller, now, denied)
    requires admitted <==> Reaches(cfg, next, ids[1..], caller, now, denied)
    requires Fates(cfg, next, db', ids[1..], caller, now, denied, admitted)
    ensures admitted <==> Reaches(cfg, db, ids, caller, now, denied)
    ensures Fates(cfg, db, db', ids, caller, now, denied, admitted)
  {
    hide Refs, Blocks, Unfit, NoneBlocks, TurnedAway, Fate;
    var tail := ids[1..];
    if admitted {
      var i :| 0 <= i < |tail| && tail[i] == caller && NoneBlocks(cfg, next, tail, i, caller, now, denied);
      TailBlocks(cfg, db, next, ids, i, caller, now, denied);
      assert ids[i + 1] == caller && ids[0] != ids[i + 1];
    }
    if i :| 0 <= i < |ids| && ids[i] == caller && NoneBlocks(cfg, db, ids, i, caller, now, denied) && Blocks(cfg, db, caller, caller, now, denied) {
      assert i > 0 && tail[i - 1] == caller;
      TailBlocks(cfg, db, next, ids, i - 1, caller, now, denied);
    }
    forall d: Id | d < |db.calls| ensures Fate(cfg, db, db', ids, d, caller, now, denied, admitted) {
      TailFate(cfg, db, next, db', ids, d, caller, now, denied, admitted);
    }
  }

  // ----- the tables of an admission -----

  /** A bucket that a transaction at `now` did not charge was polled at most: its row is as before, or what a
      poll makes of it. */
  ghost predicate AtMostPolled(cfg: Config, before: map<Id, Bucket>, after: map<Id, Bucket>, g: Id, now: int) {
    Lookup(after, g) == Lookup(before, g)
    || (g in cfg.groups && Lookup(after, g) == Some(Poll(cfg.groups[g], Lookup(before, g), now)))
  }

  ghost predicate BucketsPolled(cfg: Config, before: map<Id, Bucket>, after: map<Id, Bucket>, but: seq<Id>, now: int) {
    forall g: Id :: g !in but ==> AtMostPolled(cfg, before, after, g, now)
  }

  /** The groups of the admitted call are polled and pay one request each. */
  ghost predicate GroupsPaid(cfg: Config, before: map<Id, Bucket>, after: map<Id, Bucket>, groups: seq<Id>, now: int) {
    forall g :: g in groups ==>
      g in cfg.groups && g in after
      && var b := Poll(cfg.groups[g], Lookup(before, g), now); after[g] == b.(credit := b.credit - 1.0)
  }

  /** The task pays one use of each pin it has not paid for before. */
  ghost predicate PinsPaid(db: Db, db': Db, t: Id)
    requires t < |db.tasks|
  {
    && db'.uses == db.uses + (set p | p in db.tasks[t].pins :: (p, t))
    && db'.approvals.Keys == db.approvals.Keys
    && forall p :: p in db.approvals ==>
         db.approvals[p] == if p in db.tasks[t].pins && (p, t) !in db.uses then db'.approvals[p].(remaining := db'.approvals[p].remaining + 1)
                            else db'.approvals[p]
  }

  /** The ledger rows of system, goal and payers reserve the call's tokens. */
  ghost predicate Reserves(db: Db, db': Db, c: Id)
    requires c < |db.calls| && db.calls[c].system < |db.systems| && db.calls[c].goal < |db.goals|
  {
    var e := db.calls[c];
    var s, g := db.systems[e.system], db.goals[e.goal];
    && db'.systems == db.systems[e.system := s.(reserved := s.reserved + e.reservation, lastAdmission := |db.attempts| + 1)]
    && db'.goals == db.goals[e.goal := g.(reserved := g.reserved + e.reservation)]
    && db'.usage.Keys == db.usage.Keys
    && forall k :: k in db.usage ==>
         db'.usage[k] == if k.1 == e.goal && k.0 in Payers(db.agents, db.tasks, e.agent, e.task)
                         then Usage(db.usage[k].used, db.usage[k].reserved + e.reservation) else db.usage[k]
  }

  /** One attempt is recorded at the latest instant its groups show. */
  ghost predicate Recorded(db: Db, db': Db, c: Id, now: int)
    requires c < |db.calls|
  {
    var e := db.calls[c];
    exists at: int ::
      && db'.attempts == db.attempts + [Attempt(c, e.system, at, e.reservation, InFlight, false, 0, 0)]
      && now <= at && (forall g :: g in e.groups ==> g in db'.buckets && db'.buckets[g].updated <= at)
      && (at == now || exists g :: g in e.groups && g in db'.buckets && at == db'.buckets[g].updated)
  }

  ghost predicate Booked(cfg: Config, db: Db, db': Db, c: Id, now: int) {
    && c < |db.calls| && db.calls[c].system < |db.systems| && db.calls[c].goal < |db.goals| && db.calls[c].task < |db.tasks|
    && db'.agents == db.agents && db'.tasks == db.tasks
    && Reserves(db, db', c) && Recorded(db, db', c, now) && PinsPaid(db, db', db.calls[c].task)
    && GroupsPaid(cfg, db.buckets, db'.buckets, db.calls[c].groups, now)
    && BucketsPolled(cfg, db.buckets, db'.buckets, db.calls[c].groups, now)
  }

  lemma PinsArePaid(db: Db, t: Id, now: int)
    requires t < |db.tasks| && SpendUses(db, t, now).Some?
    ensures PinsPaid(db, SpendUses(db, t, now).value, t)
  {
    var paid := SpendUses(db, t, now).value;
    var pins := db.tasks[t].pins;
    forall p | p in db.approvals && p in pins ensures PinUsable(db, t, p, now) {}
  }

  lemma DispatchBooks(db: Db, c: Id, at: int)
    requires c < |db.calls| && db.calls[c].system < |db.systems| && db.calls[c].goal < |db.goals|
    ensures Reserves(db, Dispatch(db, c, at), c)
  {
    hide Spend, Payers;
  }

  lemma DispatchRecords(db: Db, c: Id, now: int)
    requires c < |db.calls| && db.calls[c].system < |db.systems| && db.calls[c].goal < |db.goals|
    requires forall g :: g in db.calls[c].groups ==> g in db.buckets
    ensures Recorded(db, Dispatch(db, c, DispatchAt(db.buckets, db.calls[c].groups, now)), c, now)
  {
    hide Payers, Charge;
    var e := db.calls[c];
    var at := DispatchAt(db.buckets, e.groups, now);
    var db' := Dispatch(db, c, at);
    DispatchAtLatest(db.buckets, e.groups, now);
    assert forall g :: g in db.buckets ==> g in db'.buckets && db'.buckets[g].updated == db.buckets[g].updated;
    assert db'.attempts == db.attempts + [Attempt(c, e.system, at, e.reservation, InFlight, false, 0, 0)];
  }

  lemma DispatchSpends(cfg: Config, db: Db, polled: Db, c: Id, at: int, now: int)
    requires c < |polled.calls| && polled.calls[c].system < |polled.systems| && polled.calls[c].goal < |polled.goals|
    requires Distinct(polled.calls[c].groups) && forall g :: g in polled.calls[c].groups ==> g in cfg.groups
    requires polled.buckets == PollAll(cfg, db.buckets, polled.calls[c].groups, now)
    ensures var db', groups := Dispatch(polled, c, at), polled.calls[c].groups;
            GroupsPaid(cfg, db.buckets, db'.buckets, groups, now) && BucketsPolled(cfg, db.buckets, db'.buckets, groups, now)
  {
    hide PollAll, Poll, Payers, Charge;
    var db', groups := Dispatch(polled, c, at), polled.calls[c].groups;
    PollAllRows(cfg, db.buckets, groups, now);
    forall g: Id | g !in groups ensures AtMostPolled(cfg, db.buckets, db'.buckets, g, now) {
      assert Lookup(db'.buckets, g) == Lookup(db.buckets, g);
    }
  }

  /** Granting a call whose groups have just been polled. */
  lemma GrantBooks(cfg: Config, db: Db, next: Db, c: Id, now: int)
    requires ValidConfig(cfg) && Refs(cfg, db) && Refs(cfg, next) && c < |db.calls|
    requires next == db.(buckets := PollAll(cfg, db.buckets, db.calls[c].groups, now)) && Grant(cfg, next, c, now).Some?
    ensures Booked(cfg, db, Grant(cfg, next, c, now).value, c, now)
  {
    hide PollAll, Poll, Payers, Refs, Reserves, PinsPaid, SpendUses, DispatchAt, GroupsPaid, BucketsPolled, Recorded;
    CallGroups(cfg, db, c);
    var e := db.calls[c];
    PollAllRows(cfg, db.buckets, e.groups, now);
    PinsArePaid(next, e.task, now);
    SpendTouches(next, e.task, now);
    var paid := SpendUses(next, e.task, now).value;
    var at := DispatchAt(next.buckets, e.groups, now);
    var db' := Dispatch(paid, c, at);
    DispatchBooks(paid, c, at);
    ReservesFrom(db, paid, db', c);
    PinsFrom(db, next, paid, db', e.task);
    DispatchRecords(paid, c, now);
    RecordedFrom(db, paid, db', c, now);
    DispatchSpends(cfg, db, paid, c, at, now);
  }

  lemma RecordedFrom(db: Db, paid: Db, db': Db, c: Id, now: int)
    requires c < |db.calls| && paid.calls == db.calls && paid.attempts == db.attempts && Recorded(paid, db', c, now)
    ensures Recorded(db, db', c, now)
  {
  }

  lemma ReservesFrom(db: Db, paid: Db, db': Db, c: Id)
    requires c < |db.calls| && db.calls[c].system < |db.systems| && db.calls[c].goal < |db.goals|
    requires paid == db.(buckets := paid.buckets, approvals := paid.approvals, uses := paid.uses) && Reserves(paid, db', c)
    ensures Reserves(db, db', c)
  {
    hide Payers;
  }

  lemma PinsFrom(db: Db, next: Db, paid: Db, db': Db, t: Id)
    requires t < |db.tasks| && next == db.(buckets := next.buckets) && PinsPaid(next, paid, t)
    requires db'.uses == paid.uses && db'.approvals == paid.approvals
    ensures PinsPaid(db, db', t)
  {
  }

  lemma PolledTwice(cfg: Config, a: Db, b: Db, c: map<Id, Bucket>, g: Id, now: int)
    requires BucketsHold(cfg, a) && SamePolls(cfg, a, b, now)
    requires AtMostPolled(cfg, a.buckets, b.buckets, g, now) && AtMostPolled(cfg, b.buckets, c, g, now)
    ensures AtMostPolled(cfg, a.buckets, c, g, now)
  {
  }

  lemma BookedThrough(cfg: Config, db: Db, next: Db, db': Db, c: Id, now: int)
    requires BucketsHold(cfg, db) && Passed(db, next) && SamePolls(cfg, db, next, now) && BucketsPolled(cfg, db.buckets, next.buckets, [], now)
    requires c < |db.calls| && next.calls[c] == db.calls[c] && Booked(cfg, next, db', c, now)
    ensures Booked(cfg, db, db', c, now)
  {
    hide Poll, Payers, BucketsHold;
    var e := db.calls[c];
    assert Reserves(db, db', c) && PinsPaid(db, db', e.task);
    forall g: Id | g !in e.groups ensures AtMostPolled(cfg, db.buckets, db'.buckets, g, now) {
      assert AtMostPolled(cfg, db.buckets, next.buckets, g, now) && AtMostPolled(cfg, next.buckets, db'.buckets, g, now);
      PolledTwice(cfg, db, next, db'.buckets, g, now);
    }
  }

  lemma HeadBooks(cfg: Config, db: Db, h: Id, caller: Id, now: int, denied: set<Id>)
    requires ValidConfig(cfg) && Refs(cfg, db) && BucketsHold(cfg, db) && h < |db.calls|
    ensures var x := Examine(cfg, db, h, caller, now, denied);
            if x.Stop? && x.admitted then h == caller && Booked(cfg, db, x.db, h, now)
            else Passed(db, x.db) && BucketsPolled(cfg, db.buckets, x.db.buckets, [], now)
  {
    hide RefusalOf, AllFit, Poll, PollAll, BucketsHold, Grant, GoalRefs, AgentForest, TaskForest, AgentRefs, TaskRefs, UsageRefs, CallRefs, AttemptRefs, Booked;
    var v := VerdictOf(cfg, db, h, now, denied);
    var next := PassOver(db, h, v);
    PassOverSame(cfg, db, h, now, denied);
    CallGroups(cfg, db, h);
    PollAllRows(cfg, db.buckets, db.calls[h].groups, now);
    forall g: Id ensures AtMostPolled(cfg, db.buckets, next.buckets, g, now) {
      if g !in db.calls[h].groups { assert next.buckets == db.buckets || Lookup(next.buckets, g) == Lookup(db.buckets, g); }
    }
    if v.Ready? && h == caller {
      if Grant(cfg, next, h, now).Some? {
        GrantBooks(cfg, db, next, h, now);
      } else {
        RejectPasses(cfg, next, h);
        PassedTransitive(db, next, Reject(next, h));
      }
    }
  }

  lemma {:induction false} ScanBooks(cfg: Config, db: Db, ids: seq<Id>, caller: Id, now: int, denied: set<Id>)
    requires ValidConfig(cfg) && Refs(cfg, db) && BucketsHold(cfg, db) && Distinct(ids)
    requires forall i :: 0 <= i < |ids| ==> ids[i] < |db.calls|
    ensures var (db', admitted) := Scan(cfg, db, ids, caller, now, denied);
            if admitted then Booked(cfg, db, db', caller, now)
            else Passed(db, db') && BucketsPolled(cfg, db.buckets, db'.buckets, [], now)
    ensures Scan(cfg, db, ids, caller, now, denied).1 ==> caller in ids
    decreases |ids|
  {
    hide Refs, ValidConfig, BucketsHold, Examine, Booked, SamePolls, Poll, Passed;
    if ids == [] {
      PassedSelf(db);
    } else {
      var h := ids[0];
      var x := Examine(cfg, db, h, caller, now, denied);
      HeadBooks(cfg, db, h, caller, now, denied);
      HeadStep(cfg, db, h, caller, now, denied);
      ExamineRefs(cfg, db, h, caller, now, denied);
      if x.GoOn? {
        ScanBooks(cfg, x.db, ids[1..], caller, now, denied);
        var (db', admitted) := Scan(cfg, x.db, ids[1..], caller, now, denied);
        if admitted {
          var i :| 0 <= i < |ids[1..]| && ids[1..][i] == caller;
          assert ids[i + 1] == caller && h != caller;
          BookedThrough(cfg, db, x.db, db', caller, now);
        } else {
          PassedTransitive(db, x.db, db');
          forall g: Id ensures AtMostPolled(cfg, db.buckets, db'.buckets, g, now) {
            PolledTwice(cfg, db, x.db, db'.buckets, g, now);
          }
        }
      }
    }
  }

  // ----- the transaction -----

  /** Queued calls that come first: their system was admitted longer ago, or at the same place they are older. */
  predicate InFront(db: Db, d: Id, c: Id)
    requires d < |db.calls| && c < |db.calls| && db.calls[d].system < |db.systems| && db.calls[c].system < |db.systems|
  {
    var x, y := db.systems[db.calls[d].system].lastAdmission, db.systems[db.calls[c].system].lastAdmission;
    x < y || (x == y && d < c)
  }

  function Ahead(cfg: Config, db: Db, c: Id): set<Id>
    requires Refs(cfg, db) && c < |db.calls|
  {
    set d | 0 <= d < |db.calls| && db.calls[d].state == Queued && InFront(db, d, c)
  }

  lemma {:induction false} ElementsCard(s: seq<Id>)
    requires Distinct(s)
    ensures |Elements(s)| == |s|
  {
    if s != [] {
      var init, last := s[..|s| - 1], s[|s| - 1];
      ElementsCard(init);
      assert Elements(s) == Elements(init) + {last};
      assert last !in Elements(init);
    }
  }

  lemma SubsetSize(a: set<Id>, b: set<Id>)
    requires a <= b
    ensures |a| <= |b|
  {
    assert b == a + (b - a);
  }

  lemma NoneFollows(db: Db, ids: seq<Id>, i: nat, k: nat)
    requires i < |ids| && k < |ids| && forall a, b :: 0 <= a < b < |ids| ==> Before(db, ids[a], ids[b])
    ensures Before(db, ids[k], ids[i]) ==> k < i
  {
  }

  /** The first 64 queued calls are those with fewer than 64 ahead of them, in order. */
  lemma CandidatesByRank(cfg: Config, db: Db, d: Id)
    requires Refs(cfg, db) && d < |db.calls| && db.calls[d].state == Queued
    ensures d in Candidates(db) <==> |Ahead(cfg, db, d)| < 64
    ensures forall i :: 0 <= i < |Candidates(db)| && Candidates(db)[i] == d ==> Elements(Candidates(db)[..i]) == Ahead(cfg, db, d)
  {
    hide GoalRefs, AgentForest, TaskForest, AgentRefs, UsageRefs, AttemptRefs, Candidates;
    var ids := Candidates(db);
    CandidatesAreFairOrder(db);
    forall i | 0 <= i < |ids| && ids[i] == d ensures Elements(ids[..i]) == Ahead(cfg, db, d) && |ids[..i]| == |Ahead(cfg, db, d)| < 64 {
      assert forall k :: 0 <= k < i ==> Before(db, ids[k], d);
      forall x | x in Ahead(cfg, db, d) ensures x in Elements(ids[..i]) {
        assert Before(db, x, d) && IsQueued(db, x);
        assert x in ids;
        var k :| 0 <= k < |ids| && ids[k] == x;
        NoneFollows(db, ids, i, k);
      }
      ElementsCard(ids[..i]);
      CandidatesFew(db);
    }
    if d !in ids {
      ElementsCard(ids);
      assert forall i :: 0 <= i < |ids| ==> Before(db, ids[i], d) && IsQueued(db, ids[i]);
      SubsetSize(Elements(ids), Ahead(cfg, db, d));
    }
  }

  lemma CandidatesFew(db: Db)
    ensures |Candidates(db)| <= 64
  {
  }

  /** Call `d` is among the first 64, nobody ahead of it ends the scan, and it may not run or cannot pay. */
  ghost predicate Turned(cfg: Config, db: Db, d: Id, caller: Id, now: int, denied: set<Id>)
    requires Refs(cfg, db) && d < |db.calls|
  {
    && db.calls[d].state == Queued && |Ahead(cfg, db, d)| < 64
    && (forall x :: x in Ahead(cfg, db, d) ==> !Blocks(cfg, db, x, caller, now, denied))
    && Unfit(cfg, db, d, caller, now, denied)
  }

  lemma NoneAhead(cfg: Config, db: Db, i: nat, caller: Id, now: int, denied: set<Id>)
    requires Refs(cfg, db) && i < |Candidates(db)| && forall k :: 0 <= k < |Candidates(db)| ==> Candidates(db)[k] < |db.calls|
    ensures NoneBlocks(cfg, db, Candidates(db), i, caller, now, denied)
            <==> forall x :: x in Ahead(cfg, db, Candidates(db)[i]) ==> !Blocks(cfg, db, x, caller, now, denied)
  {
    hide Refs, Blocks, Candidates, Ahead;
    var ids := Candidates(db);
    CandidatesByRank(cfg, db, ids[i]);
    if forall x :: x in Ahead(cfg, db, ids[i]) ==> !Blocks(cfg, db, x, caller, now, denied) {
      forall k | 0 <= k < i ensures !Blocks(cfg, db, ids[k], caller, now, denied) { assert ids[..i][k] in Elements(ids[..i]); }
    }
  }

  /** Exactly which call an admission dispatches and exactly which calls it rejects, by the tables: the caller
      is dispatched when fewer than 64 queued calls are ahead of it, it is fit, none of those ahead is, and its
      pins can be paid. A queued call among the first 64 is rejected when no fit call is ahead of it and it may
      not run, or is the caller and cannot pay. Every other call stays as it is. */
  lemma AdmitExactly(cfg: Config, db: Db, session: Session, now: int, denied: set<Id>)
    requires ValidConfig(cfg) && Inv(cfg, db)
    ensures var (db', admitted) := Admit(cfg, db, session, now, denied);
            var c := session.call;
            var asks := c < |db.calls| && db.calls[c].owner == session.owner && db.calls[c].state == Queued;
            && (admitted <==> asks && |Ahead(cfg, db, c)| < 64 && Fit(cfg, db, c, now, denied) && PinsPayable(db, db.calls[c].task, now)
                              && forall d :: d in Ahead(cfg, db, c) ==> !Fit(cfg, db, d, now, denied))
            && |db'.calls| == |db.calls|
            && forall d: Id :: d < |db.calls| ==>
                 db'.calls[d] == if admitted && d == c then db.calls[d].(state := Running, attempts := db.calls[d].attempts + 1)
                                 else if asks && Turned(cfg, db, d, c, now, denied) then db.calls[d].(state := Rejected)
                                 else db.calls[d]
  {
    hide Refs, ValidConfig, Scan, Balanced, Capped, Disciplined, ApprovalsHold, Work.WorkHolds, BucketsHold, WindowsHold, SlotsHold,
      RotationHolds, Fit, MayRun, PinsPayable, Ahead, Candidates, Unfit, Blocks, Fate;
    var c := session.call;
    if Authorized(db, session) && db.calls[c].state == Queued {
      var ids := Candidates(db);
      CandidatesAreFairOrder(db);
      ScanFates(cfg, db, ids, c, now, denied);
      AdmittedByRank(cfg, db, c, now, denied);
      var (db', admitted) := Scan(cfg, db, ids, c, now, denied);
      forall d: Id | d < |db.calls|
        ensures db'.calls[d] == if admitted && d == c then Started(db.calls[d])
                                else if Turned(cfg, db, d, c, now, denied) then TurnedDown(db.calls[d]) else db.calls[d]
      {
        FateByRank(cfg, db, db', d, c, now, denied, admitted);
      }
    }
  }

  lemma AdmittedByRank(cfg: Config, db: Db, c: Id, now: int, denied: set<Id>)
    requires Refs(cfg, db) && c < |db.calls| && db.calls[c].state == Queued
    requires forall k :: 0 <= k < |Candidates(db)| ==> Candidates(db)[k] < |db.calls|
    ensures (exists i :: 0 <= i < |Candidates(db)| && Candidates(db)[i] == c && NoneBlocks(cfg, db, Candidates(db), i, c, now, denied)
                         && Blocks(cfg, db, c, c, now, denied))
            <==> |Ahead(cfg, db, c)| < 64 && Fit(cfg, db, c, now, denied) && PinsPayable(db, db.calls[c].task, now)
                 && forall d :: d in Ahead(cfg, db, c) ==> !Fit(cfg, db, d, now, denied)
  {
    hide Refs, Candidates, Fit, PinsPayable, NoneBlocks;
    var ids := Candidates(db);
    CandidatesByRank(cfg, db, c);
    assert c !in Ahead(cfg, db, c);
    if c in ids {
      var i :| 0 <= i < |ids| && ids[i] == c;
      NoneAhead(cfg, db, i, c, now, denied);
      forall k | 0 <= k < |ids| && ids[k] == c ensures NoneBlocks(cfg, db, ids, k, c, now, denied) == NoneBlocks(cfg, db, ids, i, c, now, denied) {
        NoneAhead(cfg, db, k, c, now, denied);
      }
    }
  }

  lemma FateByRank(cfg: Config, db: Db, db': Db, d: Id, c: Id, now: int, denied: set<Id>, admitted: bool)
    requires Refs(cfg, db) && d < |db.calls| && |db'.calls| == |db.calls| && (admitted ==> c in Candidates(db))
    requires forall k :: 0 <= k < |Candidates(db)| ==> Candidates(db)[k] < |db.calls| && db.calls[Candidates(db)[k]].state == Queued
    requires Fate(cfg, db, db', Candidates(db), d, c, now, denied, admitted)
    ensures db'.calls[d] == if admitted && d == c then Started(db.calls[d])
                            else if Turned(cfg, db, d, c, now, denied) then TurnedDown(db.calls[d]) else db.calls[d]
  {
    hide Refs, Candidates, Blocks, Unfit, NoneBlocks, Ahead;
    var ids := Candidates(db);
    if d in ids {
      var i :| 0 <= i < |ids| && ids[i] == d;
      CandidatesByRank(cfg, db, d);
      NoneAhead(cfg, db, i, c, now, denied);
    } else if db.calls[d].state == Queued {
      CandidatesByRank(cfg, db, d);
    }
  }

  /** What an admission writes elsewhere: one attempt, the reservations, the pins and one request of credit per
      group if it admits; otherwise nothing but polled buckets. */
  lemma AdmitBooks(cfg: Config, db: Db, session: Session, now: int, denied: set<Id>)
    requires ValidConfig(cfg) && Inv(cfg, db)
    ensures var (db', admitted) := Admit(cfg, db, session, now, denied);
            if admitted then Booked(cfg, db, db', session.call, now)
            else db' == db.(calls := db'.calls, buckets := db'.buckets) && BucketsPolled(cfg, db.buckets, db'.buckets, [], now)
  {
    hide Refs, ValidConfig, Scan, Balanced, Capped, Disciplined, ApprovalsHold, Work.WorkHolds, WindowsHold, SlotsHold, BucketsHold,
      RotationHolds, Candidates, Booked, Poll;
    CandidatesAreFairOrder(db);
    ScanBooks(cfg, db, Candidates(db), session.call, now, denied);
  }

  /** A poll, by the columns of the bucket. */
  lemma PollExactly(cfg: Config, db: Db, g: Id, now: int)
    requires g in cfg.groups
    ensures Poll(cfg.groups[g], Lookup(db.buckets, g), now)
            == Bucket(CreditAt(cfg, db, g, now), ClockAt(db, g, now), if g in db.buckets then db.buckets[g].cooldown else 0)
  {
    PolledGroup(cfg, db, g, now);
  }
}
