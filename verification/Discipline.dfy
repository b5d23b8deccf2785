/** The life of a call's attempts: one at a time, at most three, only a settled throttling is retried. */
module Discipline {
  import opened Common
  import opened Tables
  import opened Sums
  import opened Books

  function CallKey(): Attempt -> int { (a: Attempt) => a.call }

  function CountOf(attempts: seq<Attempt>, c: Id): int { Sum(attempts, Keyed(CallKey(), c)) }

  predicate Throttled(a: Attempt) { a.state == Settled && a.throttled }

  predicate HasInFlight(attempts: seq<Attempt>, c: Id) {
    exists i :: 0 <= i < |attempts| && attempts[i].call == c && attempts[i].state == InFlight
  }

  ghost predicate OnlyThrottled(attempts: seq<Attempt>, c: Id) {
    forall i :: 0 <= i < |attempts| && attempts[i].call == c ==> Throttled(attempts[i])
  }

  predicate Waiting(e: Call) { e.state == Awaiting || e.state == Queued }

  ghost predicate CallDisciplined(calls: seq<Call>, attempts: seq<Attempt>, c: Id)
    requires c < |calls|
  {
    var e := calls[c];
    && e.attempts == CountOf(attempts, c) && e.attempts <= MAX_ATTEMPTS
    && (e.state == Awaiting ==> e.attempts == 0)
    && (Waiting(e) ==> e.attempts < MAX_ATTEMPTS && OnlyThrottled(attempts, c))
    && (e.state == Running <==> HasInFlight(attempts, c))
    && e.reservation > 0
  }

  /** An attempt that is followed by another one for the same call is a settled throttling. */
  ghost predicate Serial(attempts: seq<Attempt>) {
    forall i, j :: 0 <= i < j < |attempts| && attempts[i].call == attempts[j].call ==> Throttled(attempts[i])
  }

  /** The stored reservation is the dispatch reservation, raised to the actual usage by settlement. */
  ghost predicate StoredReservations(db: Db) {
    forall i :: 0 <= i < |db.attempts| ==>
      var a := db.attempts[i];
      a.reservation == if a.state == Settled then Max(Owed(db, a), Actual(a)) else Owed(db, a)
  }

  ghost predicate AllDisciplined(calls: seq<Call>, attempts: seq<Attempt>) {
    forall c :: 0 <= c < |calls| ==> CallDisciplined(calls, attempts, c)
  }

  ghost predicate Disciplined(db: Db) {
    && AllDisciplined(db.calls, db.attempts)
    && Serial(db.attempts)
    && StoredReservations(db)
  }

  lemma {:induction false} CountShows(attempts: seq<Attempt>, i: nat)
    requires i < |attempts|
    ensures CountOf(attempts, attempts[i].call) > 0
  {
    SumMember(attempts, i, Keyed(CallKey(), attempts[i].call));
  }

  lemma AttemptsCounted(cfg: Config, db: Db)
    requires Refs(cfg, db) && Disciplined(db)
    ensures AttemptsHaveCalls(db)
  {
    forall i | 0 <= i < |db.attempts| ensures db.calls[db.attempts[i].call].attempts > 0 {
      CountShows(db.attempts, i);
      assert CallDisciplined(db.calls, db.attempts, db.attempts[i].call);
    }
  }

  /** A call is running exactly when one of its attempts is in flight, and then that attempt is its
      last and only such one: no call ever has two requests on the network. */
  lemma AtMostOneInFlight(db: Db, i: nat, j: nat)
    requires Disciplined(db) && i < |db.attempts| && j < |db.attempts|
    requires db.attempts[i].call == db.attempts[j].call && db.attempts[i].call < |db.calls|
    requires db.attempts[i].state == InFlight
    ensures db.calls[db.attempts[i].call].state == Running
    ensures j <= i && (db.attempts[j].state == InFlight ==> j == i) && (j < i ==> Throttled(db.attempts[j]))
  {
    assert CallDisciplined(db.calls, db.attempts, db.attempts[i].call);
  }

  /** How undispatched calls may move without an admission: never into flight, and nothing else moves. */
  predicate MayMove(e: Call, e': Call) {
    && e'.attempts == e.attempts && e'.reservation > 0
    && (e'.state == e.state
        || (Waiting(e) && (e'.state == Queued || (e'.state == Awaiting && e.attempts == 0)
                           || e'.state == Completed || e'.state == Failed || e'.state == Canceled || e'.state == Rejected)))
  }

  predicate FreshCall(e: Call) { e.state == Awaiting && e.attempts == 0 && e.reservation > 0 }

  ghost predicate CallsMove(calls: seq<Call>, calls': seq<Call>) {
    && |calls| <= |calls'|
    && (forall c :: 0 <= c < |calls| ==> MayMove(calls[c], calls'[c]))
    && (forall c :: |calls| <= c < |calls'| ==> FreshCall(calls'[c]))
  }

  lemma DisciplineFrame(cfg: Config, db: Db, db': Db)
    requires Refs(cfg, db) && Disciplined(db) && CallsKeep(db.calls, db'.calls) && CallsMove(db.calls, db'.calls)
    requires db'.attempts == db.attempts
    ensures Disciplined(db')
  {
    AttemptsCounted(cfg, db);
    forall c | 0 <= c < |db'.calls| ensures CallDisciplined(db'.calls, db'.attempts, c) {
      if c < |db.calls| {
        assert CallDisciplined(db.calls, db.attempts, c);
        assert MayMove(db.calls[c], db'.calls[c]);
      } else {
        SumZero(db.attempts, Keyed(CallKey(), c));
        assert FreshCall(db'.calls[c]);
        assert OnlyThrottled(db'.attempts, c);
      }
    }
  }
}
