/** Request buckets, the rolling token window and in-flight counts of quota groups. */
module Quota {
  import opened Common
  import opened Tables
  import opened Sums

  function RealMin(a: real, b: real): real { if a < b then a else b }

  /** Requests earned per millisecond. */
  function Rate(limits: QuotaLimits): real { limits.requestsPerMinute as real / 60000.0 }

  /** The bucket row an admission starts from: a missing row is created full. */
  function Row(limits: QuotaLimits, b: Option<Bucket>, now: int): Bucket {
    match b
    case Some(row) => row
    case None => Bucket(limits.burst as real, now, 0)
  }

  /** One poll: refill up to the effective instant, which never runs behind the stored one. */
  function Poll(limits: QuotaLimits, b: Option<Bucket>, now: int): Bucket {
    var row := Row(limits, b, now);
    var effective := Max(now, row.updated);
    row.(credit := RealMin(limits.burst as real, row.credit + (effective - row.updated) as real * Rate(limits)),
         updated := effective)
  }

  function Lookup(buckets: map<Id, Bucket>, g: Id): Option<Bucket> {
    if g in buckets then Some(buckets[g]) else None
  }

  /** Every group of the call is polled, whether or not an earlier one already said no. */
  function PollAll(cfg: Config, buckets: map<Id, Bucket>, groups: seq<Id>, now: int): map<Id, Bucket>
    requires forall g :: g in groups ==> g in cfg.groups
  {
    if groups == [] then buckets
    else
      var g := groups[|groups| - 1];
      var rest := PollAll(cfg, buckets, groups[..|groups| - 1], now);
      rest[g := Poll(cfg.groups[g], Lookup(rest, g), now)]
  }

  predicate InGroup(calls: seq<Call>, a: Attempt, g: Id) {
    a.call < |calls| && g in calls[a.call].groups
  }

  function DispatchedSince(calls: seq<Call>, g: Id, since: int): Attempt -> int {
    (a: Attempt) => if a.dispatchedAt > since && InGroup(calls, a, g) then a.reservation else 0
  }

  function InFlightIn(calls: seq<Call>, g: Id): Attempt -> int {
    (a: Attempt) => if a.state == InFlight && InGroup(calls, a, g) then 1 else 0
  }

  function QueuedIn(g: Id): Call -> int {
    (c: Call) => if g in c.groups && (c.state == Awaiting || c.state == Queued) then 1 else 0
  }

  /** Stored reservations of the group's attempts dispatched after `since`. */
  function TokensSince(calls: seq<Call>, attempts: seq<Attempt>, g: Id, since: int): int {
    Sum(attempts, DispatchedSince(calls, g, since))
  }

  function InFlightCount(calls: seq<Call>, attempts: seq<Attempt>, g: Id): int {
    Sum(attempts, InFlightIn(calls, g))
  }

  /** Calls of the group that hold a queue place. */
  function QueuedCount(calls: seq<Call>, g: Id): int { Sum(calls, QueuedIn(g)) }

  predicate Fits(limits: QuotaLimits, bucket: Bucket, tokens: int, inFlight: int, reservation: nat, now: int) {
    && bucket.credit >= 1.0
    && bucket.cooldown <= now
    && tokens + reservation <= limits.tokensPerMinute
    && inFlight < limits.maxConcurrent
  }

  /** All groups have credit, no cooldown, window room and a free slot. */
  predicate AllFit(cfg: Config, db: Db, buckets: map<Id, Bucket>, e: Call, now: int) {
    forall g :: g in e.groups ==>
      && g in cfg.groups && g in buckets
      && Fits(cfg.groups[g], buckets[g], TokensSince(db.calls, db.attempts, g, buckets[g].updated - WINDOW_MS),
           InFlightCount(db.calls, db.attempts, g), e.reservation, now)
  }

  /** The latest effective instant among the call's groups. */
  function DispatchAt(buckets: map<Id, Bucket>, groups: seq<Id>, now: int): int {
    if groups == [] then now
    else
      var rest := DispatchAt(buckets, groups[..|groups| - 1], now);
      var g := groups[|groups| - 1];
      if g in buckets then Max(rest, buckets[g].updated) else rest
  }

  function Spend(buckets: map<Id, Bucket>, groups: seq<Id>): map<Id, Bucket> {
    map g | g in buckets :: if g in groups then buckets[g].(credit := buckets[g].credit - 1.0) else buckets[g]
  }

  /** A bucket that polling and spending can produce. */
  predicate BucketOk(limits: QuotaLimits, b: Bucket) {
    0.0 <= b.credit <= limits.burst as real
  }

  lemma RefillNonnegative(limits: QuotaLimits, ms: int)
    requires 0 <= ms
    ensures 0.0 <= ms as real * Rate(limits)
  {
  }

  lemma PollBounds(limits: QuotaLimits, b: Option<Bucket>, now: int)
    requires b.Some? ==> BucketOk(limits, b.value)
    ensures var p := Poll(limits, b, now);
            BucketOk(limits, p) && now <= p.updated && Row(limits, b, now).updated <= p.updated
    ensures Poll(limits, b, now).credit
            <= Row(limits, b, now).credit + (Poll(limits, b, now).updated - Row(limits, b, now).updated) as real * Rate(limits)
  {
    var row := Row(limits, b, now);
    RefillNonnegative(limits, Max(now, row.updated) - row.updated);
  }

  /** A poll that ends in a denial leaves no trace: polling twice is polling once, at the later
      of the two readings. Backward clock jumps are covered. */
  lemma PollTwice(limits: QuotaLimits, b: Bucket, t1: int, t2: int)
    requires b.credit <= limits.burst as real
    ensures Poll(limits, Some(Poll(limits, Some(b), t1)), t2) == Poll(limits, Some(b), Max(t1, t2))
  {
    var e1 := Max(t1, b.updated);
    var e2 := Max(t2, e1);
    RefillNonnegative(limits, e1 - b.updated);
    RefillNonnegative(limits, e2 - e1);
    assert (e2 - b.updated) as real == (e2 - e1) as real + (e1 - b.updated) as real;
    assert (e2 - b.updated) as real * Rate(limits) == (e2 - e1) as real * Rate(limits) + (e1 - b.updated) as real * Rate(limits);
  }

  /** Polling a list of groups polls each once and touches no other row. */
  lemma {:induction false} PollAllRow(cfg: Config, buckets: map<Id, Bucket>, groups: seq<Id>, now: int, g: Id)
    requires Distinct(groups)
    requires forall k :: k in groups ==> k in cfg.groups
    ensures Lookup(PollAll(cfg, buckets, groups, now), g)
            == if g in groups then Some(Poll(cfg.groups[g], Lookup(buckets, g), now)) else Lookup(buckets, g)
  {
    if groups != [] {
      var init := groups[..|groups| - 1];
      assert groups == init + [groups[|groups| - 1]];
      PollAllRow(cfg, buckets, init, now, g);
      var last := groups[|groups| - 1];
      var rest := PollAll(cfg, buckets, init, now);
      if g == last {
        assert last !in init;
      }
    }
  }

  lemma PollAllRows(cfg: Config, buckets: map<Id, Bucket>, groups: seq<Id>, now: int)
    requires Distinct(groups)
    requires forall k :: k in groups ==> k in cfg.groups
    ensures var polled := PollAll(cfg, buckets, groups, now);
            && (forall g :: g in polled <==> g in buckets || g in groups)
            && (forall g :: g in groups ==> g in polled && polled[g] == Poll(cfg.groups[g], Lookup(buckets, g), now))
            && (forall g :: g in buckets && g !in groups ==> g in polled && polled[g] == buckets[g])
  {
    var polled := PollAll(cfg, buckets, groups, now);
    forall g: Id
      ensures Lookup(polled, g) == if g in groups then Some(Poll(cfg.groups[g], Lookup(buckets, g), now)) else Lookup(buckets, g)
    {
      PollAllRow(cfg, buckets, groups, now, g);
    }
    forall g: Id
      ensures g in polled <==> g in buckets || g in groups
    {
      PollAllRow(cfg, buckets, groups, now, g);
      assert g in polled <==> Lookup(polled, g).Some?;
    }
    forall g | g in groups
      ensures g in polled && polled[g] == Poll(cfg.groups[g], Lookup(buckets, g), now)
    {
      assert Lookup(polled, g).Some?;
    }
    forall g | g in buckets && g !in groups
      ensures g in polled && polled[g] == buckets[g]
    {
      assert Lookup(polled, g).Some?;
    }
  }

  /** Repeating a poll of the same groups at the same reading changes nothing. */
  lemma PollAllAgain(cfg: Config, buckets: map<Id, Bucket>, groups: seq<Id>, g: Id, now: int)
    requires Distinct(groups) && g in cfg.groups
    requires forall k :: k in groups ==> k in cfg.groups
    requires forall k :: k in buckets && k in cfg.groups ==> BucketOk(cfg.groups[k], buckets[k])
    ensures Poll(cfg.groups[g], Lookup(PollAll(cfg, buckets, groups, now), g), now) == Poll(cfg.groups[g], Lookup(buckets, g), now)
  {
    hide PollAll, Rate;
    PollAllRows(cfg, buckets, groups, now);
    if g in groups {
      var row := Row(cfg.groups[g], Lookup(buckets, g), now);
      PollTwice(cfg.groups[g], row, now, now);
      assert Poll(cfg.groups[g], Lookup(buckets, g), now) == Poll(cfg.groups[g], Some(row), now);
    }
  }

  lemma {:induction false} DispatchAtLatest(buckets: map<Id, Bucket>, groups: seq<Id>, now: int)
    requires forall g :: g in groups ==> g in buckets
    ensures var at := DispatchAt(buckets, groups, now);
            && now <= at && (forall g :: g in groups ==> buckets[g].updated <= at)
            && (at == now || exists g :: g in groups && at == buckets[g].updated)
  {
    if groups != [] {
      var init := groups[..|groups| - 1];
      DispatchAtLatest(buckets, init, now);
      assert groups == init + [groups[|groups| - 1]];
    }
  }

  /** The read-only quota view of one group. */
  datatype View = View(credit: real, cooldown: int, tokens: int, inFlight: int, queued: int)

  function QuotaView(cfg: Config, db: Db, g: Id, clock: int): View
    requires g in cfg.groups
  {
    var updated := if g in db.buckets then db.buckets[g].updated else 0;
    var now := Max(clock, updated);
    View(if g in db.buckets
         then RealMin(cfg.groups[g].burst as real, db.buckets[g].credit + (now - updated) as real * Rate(cfg.groups[g]))
         else cfg.groups[g].burst as real,
         if g in db.buckets then db.buckets[g].cooldown else 0,
         TokensSince(db.calls, db.attempts, g, now - WINDOW_MS),
         InFlightCount(db.calls, db.attempts, g),
         QueuedCount(db.calls, g))
  }

  /** Before the Unix epoch, a group without a row would be shown an empty window reading at zero;
      from the epoch on the view is exactly what an admission at that instant would decide by. */
  lemma ViewAgreesWithAdmission(cfg: Config, db: Db, g: Id, clock: int)
    requires g in cfg.groups && (0 <= clock || g in db.buckets)
    ensures var view := QuotaView(cfg, db, g, clock);
            var polled := Poll(cfg.groups[g], Lookup(db.buckets, g), clock);
            && view.credit == polled.credit && view.cooldown == polled.cooldown
            && view.tokens == TokensSince(db.calls, db.attempts, g, polled.updated - WINDOW_MS)
            && view.inFlight == InFlightCount(db.calls, db.attempts, g)
  {
    if g !in db.buckets {
      assert (clock - clock) as real * Rate(cfg.groups[g]) == 0.0;
    }
  }
}
