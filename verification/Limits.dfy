/** What the shared quota groups never exceed. */
module Limits {
  import opened Common
  import opened Tables
  import opened Sums
  import opened Quota
  import opened Books
  import opened Discipline

  function InWindow(db: Db, g: Id, t: int): Attempt -> int {
    (a: Attempt) => if t - WINDOW_MS < a.dispatchedAt <= t && InGroup(db.calls, a, g) then Owed(db, a) else 0
  }

  /** Tokens reserved by the group's dispatches in the minute that ends at `t`. */
  function WindowTokens(db: Db, g: Id, t: int): int { Sum(db.attempts, InWindow(db, g, t)) }

  /** Whatever minute is looked at, past or future, the group stays within its token rate. */
  ghost predicate WindowsHold(cfg: Config, db: Db) {
    forall g, t: int :: g in cfg.groups ==> WindowTokens(db, g, t) <= cfg.groups[g].tokensPerMinute
  }

  ghost predicate SlotsHold(cfg: Config, db: Db) {
    forall g :: g in cfg.groups ==> InFlightCount(db.calls, db.attempts, g) <= cfg.groups[g].maxConcurrent
  }

  ghost predicate BucketsHold(cfg: Config, db: Db) {
    forall g :: g in db.buckets ==> g in cfg.groups && BucketOk(cfg.groups[g], db.buckets[g])
  }

  /** No system's place in the rotation lies beyond the last attempt. */
  ghost predicate RotationHolds(db: Db) {
    forall s :: 0 <= s < |db.systems| ==> db.systems[s].lastAdmission <= |db.attempts|
  }

  ghost predicate Limited(cfg: Config, db: Db) {
    WindowsHold(cfg, db) && SlotsHold(cfg, db) && BucketsHold(cfg, db) && RotationHolds(db)
  }

  lemma LimitsFrame(cfg: Config, db: Db, db': Db)
    requires Refs(cfg, db) && Extends(db, db') && AttemptsHaveCalls(db) && SameDispatches(db.attempts, db'.attempts)
    requires WindowsHold(cfg, db) && SlotsHold(cfg, db)
    ensures WindowsHold(cfg, db') && SlotsHold(cfg, db')
  {
    forall g, t: int | g in cfg.groups
      ensures WindowTokens(db', g, t) <= cfg.groups[g].tokensPerMinute
    {
      SumSame(db'.attempts, db.attempts, InWindow(db', g, t), InWindow(db, g, t));
      assert WindowTokens(db, g, t) <= cfg.groups[g].tokensPerMinute;
    }
    forall g | g in cfg.groups
      ensures InFlightCount(db'.calls, db'.attempts, g) <= cfg.groups[g].maxConcurrent
    {
      SumAtMost(db'.attempts, db.attempts, InFlightIn(db'.calls, g), InFlightIn(db.calls, g));
    }
  }

  lemma PollBuckets(cfg: Config, db: Db, groups: seq<Id>, now: int)
    requires BucketsHold(cfg, db) && Distinct(groups) && forall g :: g in groups ==> g in cfg.groups
    ensures BucketsHold(cfg, db.(buckets := PollAll(cfg, db.buckets, groups, now)))
  {
    PollAllRows(cfg, db.buckets, groups, now);
    var polled := PollAll(cfg, db.buckets, groups, now);
    forall g | g in polled ensures g in cfg.groups && BucketOk(cfg.groups[g], polled[g]) {
      if g in groups {
        PollBounds(cfg.groups[g], Lookup(db.buckets, g), now);
      }
    }
  }
}
