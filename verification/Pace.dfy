/** The request rate of a quota group over any segment of a run. */
module Pace {
  import opened Common
  import opened Tables
  import opened Sums
  import opened Quota
  import opened Admission
  import opened Steps
  import opened Books
  import opened Limits
  import opened Work
  import opened Invariant
  import opened Runs
  import opened Fairness
  import opened Stillness

  function RequestIn(calls: seq<Call>, g: Id): Attempt -> int {
    (a: Attempt) => if InGroup(calls, a, g) then 1 else 0
  }

  /** Requests ever dispatched against the group. */
  function Requests(db: Db, g: Id): int { Sum(db.attempts, RequestIn(db.calls, g)) }

  /** Credit earned between two instants. */
  function Earned(limits: QuotaLimits, since: int, until: int): real { (until - since) as real * Rate(limits) }

  /** Requests between two states are paid from the credit drop and what was earned meanwhile. A
      bucket that appeared meanwhile was created full, and nothing was dispatched before it existed. */
  ghost predicate Paced(limits: QuotaLimits, db: Db, db': Db, g: Id) {
    if g in db.buckets then
      && g in db'.buckets && db.buckets[g].updated <= db'.buckets[g].updated
      && (Requests(db', g) - Requests(db, g)) as real
         <= db.buckets[g].credit - db'.buckets[g].credit + Earned(limits, db.buckets[g].updated, db'.buckets[g].updated)
    else if g in db'.buckets then
      (Requests(db', g) - Requests(db, g)) as real <= limits.burst as real - db'.buckets[g].credit
    else Requests(db', g) == Requests(db, g)
  }

  /** Within one transaction there is one clock reading. */
  ghost predicate PacedAt(limits: QuotaLimits, db: Db, db': Db, g: Id, now: int) {
    && Paced(limits, db, db', g)
    && (g in db'.buckets ==>
          if g in db.buckets then db'.buckets[g].updated == db.buckets[g].updated || db'.buckets[g].updated == Max(now, db.buckets[g].updated)
          else db'.buckets[g].updated == now)
  }

  lemma EarnedAdds(limits: QuotaLimits, a: int, b: int, c: int)
    ensures Earned(limits, a, c) == Earned(limits, a, b) + Earned(limits, b, c)
  {
    assert (c - a) as real == (b - a) as real + (c - b) as real;
  }

  lemma PacedTransitive(limits: QuotaLimits, a: Db, b: Db, c: Db, g: Id)
    requires g in a.buckets && Paced(limits, a, b, g) && Paced(limits, b, c, g)
    ensures Paced(limits, a, c, g)
  {
    EarnedAdds(limits, a.buckets[g].updated, b.buckets[g].updated, c.buckets[g].updated);
  }

  lemma PacedAtTransitive(limits: QuotaLimits, a: Db, b: Db, c: Db, g: Id, now: int)
    requires PacedAt(limits, a, b, g, now) && PacedAt(limits, b, c, g, now)
    ensures PacedAt(limits, a, c, g, now)
  {
    if g in a.buckets {
      PacedTransitive(limits, a, b, c, g);
    } else if g in b.buckets {
      assert Earned(limits, b.buckets[g].updated, c.buckets[g].updated) == 0.0;
    }
  }

  lemma RequestsFrame(calls: seq<Call>, calls': seq<Call>, attempts: seq<Attempt>, attempts': seq<Attempt>, g: Id)
    requires |calls| <= |calls'| && |attempts'| == |attempts|
    requires forall c :: 0 <= c < |calls| ==> calls'[c].groups == calls[c].groups
    requires forall i :: 0 <= i < |attempts| ==> attempts[i].call < |calls| && attempts'[i].call == attempts[i].call
    ensures Sum(attempts', RequestIn(calls', g)) == Sum(attempts, RequestIn(calls, g))
  {
    SumSame(attempts', attempts, RequestIn(calls', g), RequestIn(calls, g));
  }

  lemma PolledPaced(cfg: Config, db: Db, db': Db, groups: seq<Id>, g: Id, now: int)
    requires g in cfg.groups && BucketsHold(cfg, db) && Distinct(groups) && forall k :: k in groups ==> k in cfg.groups
    requires Requests(db', g) == Requests(db, g)
    requires db'.buckets == PollAll(cfg, db.buckets, groups, now)
    ensures PacedAt(cfg.groups[g], db, db', g, now)
  {
    hide Requests;
    PollAllRows(cfg, db.buckets, groups, now);
    if g in groups {
      PollBounds(cfg.groups[g], Lookup(db.buckets, g), now);
    } else if g in db.buckets {
      assert Earned(cfg.groups[g], db.buckets[g].updated, db.buckets[g].updated) == 0.0;
    }
  }

  lemma PassOverPaced(cfg: Config, db: Db, h: Id, now: int, denied: set<Id>, g: Id)
    requires ValidConfig(cfg) && Refs(cfg, db) && BucketsHold(cfg, db) && h < |db.calls| && g in cfg.groups
    ensures PacedAt(cfg.groups[g], db, PassOver(db, h, VerdictOf(cfg, db, h, now, denied)), g, now)
  {
    hide RefusalOf, AllFit, Poll, PollAll, BucketsHold, PacedAt, Requests, GoalRefs, AgentForest, TaskForest, AgentRefs, TaskRefs, UsageRefs;
    var next := PassOver(db, h, VerdictOf(cfg, db, h, now, denied));
    assert Requests(next, g) == Requests(db, g) by {
      RequestsStill(db, next, g);
    }
    if next.buckets == db.buckets {
      StillPaced(cfg.groups[g], db, next, g, now);
    } else {
      PolledPaced(cfg, db, next, db.calls[h].groups, g, now);
    }
  }

  lemma RequestsStill(db: Db, db': Db, g: Id)
    requires AttemptRefs(db.calls, db.attempts) && db'.attempts == db.attempts && |db'.calls| == |db.calls|
    requires forall c :: 0 <= c < |db.calls| ==> db'.calls[c].groups == db.calls[c].groups
    ensures Requests(db', g) == Requests(db, g)
  {
    RequestsFrame(db.calls, db'.calls, db.attempts, db'.attempts, g);
  }

  lemma StillPaced(limits: QuotaLimits, db: Db, db': Db, g: Id, now: int)
    requires Requests(db', g) == Requests(db, g) && db'.buckets == db.buckets
    ensures PacedAt(limits, db, db', g, now)
  {
    if g in db.buckets {
      assert Earned(limits, db.buckets[g].updated, db.buckets[g].updated) == 0.0;
    }
  }

  lemma GrantPaced(cfg: Config, db: Db, c: Id, now: int, g: Id)
    requires ValidConfig(cfg) && Refs(cfg, db) && c < |db.calls| && Grant(cfg, db, c, now).Some? && g in cfg.groups
    requires forall k :: k in db.calls[c].groups ==> k in db.buckets
    ensures PacedAt(cfg.groups[g], db, Grant(cfg, db, c, now).value, g, now)
  {
    hide DispatchAt, SpendUses, Charge, GoalRefs, AgentForest, TaskForest, UsageRefs, Rate;
    var db' := Grant(cfg, db, c, now).value;
    SpendTouches(db, db.calls[c].task, now);
    var a := db'.attempts[|db.attempts|];
    assert db'.attempts == db.attempts + [a];
    SumAppend(db.attempts, a, RequestIn(db'.calls, g));
    RequestsFrame(db.calls, db'.calls, db.attempts, db.attempts, g);
    if g in db.buckets {
      assert Earned(cfg.groups[g], db.buckets[g].updated, db.buckets[g].updated) == 0.0;
    }
  }

  lemma {:induction false} ScanPaced(cfg: Config, db: Db, ids: seq<Id>, caller: Id, now: int, denied: set<Id>, g: Id)
    requires ValidConfig(cfg) && Refs(cfg, db) && BucketsHold(cfg, db) && g in cfg.groups
    requires forall i :: 0 <= i < |ids| ==> ids[i] < |db.calls|
    ensures PacedAt(cfg.groups[g], db, Scan(cfg, db, ids, caller, now, denied).0, g, now)
    decreases |ids|
  {
    hide Refs, ValidConfig, BucketsHold, VerdictOf, Grant, PassOver, PacedAt, SamePolls;
    if ids == [] {
      StillPaced(cfg.groups[g], db, db, g, now);
    } else {
      var h := ids[0];
      var v := VerdictOf(cfg, db, h, now, denied);
      var next := PassOver(db, h, v);
      PassOverSame(cfg, db, h, now, denied);
      PassOverPaced(cfg, db, h, now, denied, g);
      if !v.Ready? {
        ScanPaced(cfg, next, ids[1..], caller, now, denied, g);
        PacedAtTransitive(cfg.groups[g], db, next, Scan(cfg, next, ids[1..], caller, now, denied).0, g, now);
      } else if h == caller {
        match Grant(cfg, next, h, now)
        case Some(granted) =>
          ReadyPolled(cfg, db, h, now, denied);
          GrantPaced(cfg, next, h, now, g);
          PacedAtTransitive(cfg.groups[g], db, next, granted, g, now);
        case None =>
          var rejected := Reject(next, h);
          RejectPasses(cfg, next, h);
          RejectPaced(cfg, next, h, now, g);
          PacedAtTransitive(cfg.groups[g], db, next, rejected, g, now);
          ScanPaced(cfg, rejected, ids[1..], caller, now, denied, g);
          PacedAtTransitive(cfg.groups[g], db, rejected, Scan(cfg, rejected, ids[1..], caller, now, denied).0, g, now);
      }
    }
  }

  lemma RejectPaced(cfg: Config, db: Db, h: Id, now: int, g: Id)
    requires Refs(cfg, db) && h < |db.calls| && g in cfg.groups
    ensures PacedAt(cfg.groups[g], db, Reject(db, h), g, now)
  {
    RequestsStill(db, Reject(db, h), g);
    StillPaced(cfg.groups[g], db, Reject(db, h), g, now);
  }

  lemma StillCreditPaced(cfg: Config, db: Db, db': Db, g: Id)
    requires Refs(cfg, db) && Extends(db, db') && Still(db, db') && g in cfg.groups
    ensures Paced(cfg.groups[g], db, db', g)
  {
    forall c | 0 <= c < |db.calls| ensures db'.calls[c].groups == db.calls[c].groups {
      assert CallKeeps(db.calls[c], db'.calls[c]);
    }
    RequestsFrame(db.calls, db'.calls, db.attempts, db'.attempts, g);
    if g in db.buckets {
      assert Earned(cfg.groups[g], db.buckets[g].updated, db.buckets[g].updated) == 0.0;
    }
  }

  lemma AdmitPaced(cfg: Config, db: Db, session: Session, now: int, denied: set<Id>, g: Id)
    requires ValidConfig(cfg) && Refs(cfg, db) && BucketsHold(cfg, db) && g in cfg.groups
    ensures PacedAt(cfg.groups[g], db, Admit(cfg, db, session, now, denied).0, g, now)
  {
    hide Refs, ValidConfig, BucketsHold, Scan, PacedAt;
    StillPaced(cfg.groups[g], db, db, g, now);
    ScanPaced(cfg, db, Candidates(db), session.call, now, denied, g);
  }

  lemma StepPaced(cfg: Config, db: Db, step: Step, g: Id)
    requires ValidConfig(cfg) && Inv(cfg, db) && Plausible(step) && g in cfg.groups
    ensures Paced(cfg.groups[g], db, Next(cfg, db, step), g)
  {
    hide ValidConfig, Refs, Balanced, Capped, Discipline.Disciplined, WindowsHold, SlotsHold, BucketsHold, RotationHolds,
      Approvals.ApprovalsHold, WorkHolds, Paced, Still, Extends, Plausible, Admit;
    NextInv(cfg, db, step);
    if step.DoAdmit? {
      AdmitPaced(cfg, db, step.session, step.now, step.denied, g);
    } else {
      StepStill(cfg, db, step);
      StillCreditPaced(cfg, db, Next(cfg, db, step), g);
    }
  }

  lemma {:induction false} SegmentPaced(cfg: Config, states: seq<Db>, steps: seq<Step>, i: nat, j: nat, g: Id)
    requires ValidConfig(cfg) && IsRun(cfg, states, steps) && i <= j <= |steps| && Inv(cfg, states[i]) && g in cfg.groups
    requires g in states[i].buckets
    ensures Inv(cfg, states[j]) && Paced(cfg.groups[g], states[i], states[j], g)
  {
    hide Inv, Next, Plausible, Refs, ValidConfig;
    if i < j {
      SegmentPaced(cfg, states, steps, i, j - 1, g);
      StepPaced(cfg, states[j - 1], steps[j - 1], g);
      NextInv(cfg, states[j - 1], steps[j - 1]);
      PacedTransitive(cfg.groups[g], states[i], states[j - 1], states[j], g);
    } else {
      assert Earned(cfg.groups[g], states[i].buckets[g].updated, states[i].buckets[g].updated) == 0.0;
    }
  }

  lemma CreditWithin(cfg: Config, db: Db, g: Id)
    requires Inv(cfg, db) && g in db.buckets
    ensures g in cfg.groups && 0.0 <= db.buckets[g].credit <= cfg.groups[g].burst as real
  {
  }

  /** Over any segment that starts with the bucket in place, a group's requests are at most its burst
      plus its rate times the growth of its clock. */
  lemma PaceTheorem(cfg: Config, states: seq<Db>, steps: seq<Step>, i: nat, j: nat, g: Id)
    requires ValidConfig(cfg) && IsRun(cfg, states, steps) && states[0] == EMPTY && i <= j <= |steps|
    requires g in cfg.groups && g in states[i].buckets
    ensures g in states[j].buckets && states[i].buckets[g].updated <= states[j].buckets[g].updated
    ensures (Requests(states[j], g) - Requests(states[i], g)) as real
            <= cfg.groups[g].burst as real + Earned(cfg.groups[g], states[i].buckets[g].updated, states[j].buckets[g].updated)
  {
    hide Inv, Next, Plausible, Refs, ValidConfig, Requests;
    EmptyInv(cfg);
    RunInv(cfg, states, steps, i);
    SegmentPaced(cfg, states, steps, i, j, g);
    CreditWithin(cfg, states[i], g);
    CreditWithin(cfg, states[j], g);
  }

  lemma {:induction false} PacedFromCreation(cfg: Config, states: seq<Db>, steps: seq<Step>, j: nat, g: Id) returns (k: nat)
    requires ValidConfig(cfg) && IsRun(cfg, states, steps) && states[0] == EMPTY && j <= |steps| && g in cfg.groups
    ensures g !in states[j].buckets ==> Requests(states[j], g) == 0
    ensures g in states[j].buckets ==>
              && 0 < k <= j && g !in states[k - 1].buckets && g in states[k].buckets
              && Requests(states[j], g) as real <= cfg.groups[g].burst as real - states[j].buckets[g].credit
                                                   + Earned(cfg.groups[g], states[k].buckets[g].updated, states[j].buckets[g].updated)
  {
    hide Inv, Next, Plausible, Refs, ValidConfig, Requests;
    k := j;
    if j == 0 {
      NoRequests(g);
    } else {
      k := PacedFromCreation(cfg, states, steps, j - 1, g);
      EmptyInv(cfg);
      RunInv(cfg, states, steps, j - 1);
      StepPaced(cfg, states[j - 1], steps[j - 1], g);
      if g in states[j].buckets && g !in states[j - 1].buckets {
        k := j;
        assert Earned(cfg.groups[g], states[j].buckets[g].updated, states[j].buckets[g].updated) == 0.0;
      } else if g in states[j].buckets {
        EarnedAdds(cfg.groups[g], states[k].buckets[g].updated, states[j - 1].buckets[g].updated, states[j].buckets[g].updated);
      }
    }
  }

  lemma NoRequests(g: Id)
    ensures Requests(EMPTY, g) == 0 && g !in EMPTY.buckets
  {
  }

  /** From the empty store nothing is dispatched until the bucket exists, and then the same bound holds
      counting from the instant at which it was created. */
  lemma FirstPaceTheorem(cfg: Config, states: seq<Db>, steps: seq<Step>, j: nat, g: Id)
    requires ValidConfig(cfg) && IsRun(cfg, states, steps) && states[0] == EMPTY && j <= |steps| && g in cfg.groups
    ensures g !in states[j].buckets ==> Requests(states[j], g) == 0
    ensures g in states[j].buckets ==>
              exists k :: 0 < k <= j && g !in states[k - 1].buckets && g in states[k].buckets
                && Requests(states[j], g) as real
                   <= cfg.groups[g].burst as real + Earned(cfg.groups[g], states[k].buckets[g].updated, states[j].buckets[g].updated)
  {
    hide Inv, Next, Plausible, Refs, ValidConfig, Requests;
    var k := PacedFromCreation(cfg, states, steps, j, g);
    EmptyInv(cfg);
    RunInv(cfg, states, steps, j);
    if g in states[j].buckets {
      CreditWithin(cfg, states[j], g);
    }
  }

  /** The quota view of any group at any reading, in every reachable state, shows what an admission at that
      reading would decide by; for a group without a bucket both see an empty window, before the Unix
      epoch too, where the view reads zero as the group's clock. */
  lemma ViewTheorem(cfg: Config, states: seq<Db>, steps: seq<Step>, j: nat, g: Id, clock: int)
    requires ValidConfig(cfg) && IsRun(cfg, states, steps) && states[0] == EMPTY && j <= |steps| && g in cfg.groups
    ensures var db := states[j];
            var view := QuotaView(cfg, db, g, clock);
            var polled := Poll(cfg.groups[g], Lookup(db.buckets, g), clock);
            && view.credit == polled.credit && view.cooldown == polled.cooldown
            && view.tokens == TokensSince(db.calls, db.attempts, g, polled.updated - WINDOW_MS)
            && view.inFlight == InFlightCount(db.calls, db.attempts, g)
  {
    hide Inv, Next, Plausible, Refs, ValidConfig, Requests;
    var db := states[j];
    if g in db.buckets || 0 <= clock {
      ViewAgreesWithAdmission(cfg, db, g, clock);
    } else {
      FirstPaceTheorem(cfg, states, steps, j, g);
      UnusedGroup(db, g, -WINDOW_MS);
      UnusedGroup(db, g, clock - WINDOW_MS);
      assert (clock - clock) as real * Rate(cfg.groups[g]) == 0.0;
    }
  }

  lemma UnusedGroup(db: Db, g: Id, since: int)
    requires Requests(db, g) == 0
    ensures TokensSince(db.calls, db.attempts, g, since) == 0
  {
    forall i | 0 <= i < |db.attempts| ensures DispatchedSince(db.calls, g, since)(db.attempts[i]) == 0 {
      SumMember(db.attempts, i, RequestIn(db.calls, g));
    }
    SumZero(db.attempts, DispatchedSince(db.calls, g, since));
  }
}
