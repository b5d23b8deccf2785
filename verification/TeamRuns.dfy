/** Runs of the delivery protocol from the empty store, crashes and restarts included. */
module TeamRuns {
  import opened Common
  import opened Sums
  import opened Team
  import opened Mailbox
  import opened TeamSteps
  import opened TeamInvariant
  import opened TaskEnds
  import opened Rewrites
  import opened Turns
  import opened ToolCalls
  import opened DeliverClaim
  import opened DeliverFinish
  import opened DeliverRestart

  // ----- activations -----

  predicate Holds(db: Store, a: Id, x: Activation) {
    && x.mail < |db.mails| && db.mails[x.mail].state == Leased && db.mails[x.mail].agent == a
    && db.mails[x.mail].system == x.system && db.mails[x.mail].task == x.task
    && x.call < |db.calls| && db.calls[x.call].task == x.task
  }

  /** Every live worker holds a leased delivery to its agent, and no system has more of them than it may. */
  ghost predicate Holding(r: Daemon) {
    && (forall a :: a in r.active ==> Holds(r.db, a, r.active[a]))
    && (forall s :: 0 <= s < |r.db.systems| ==> |ActiveIn(r.active, s)| <= r.db.systems[s].maxActive)
    && |r.active| <= MAX_ACTIVATIONS
  }

  ghost predicate DaemonInv(r: Daemon, astray: set<Id>) { Inv(r.db, astray) && Holding(r) && Planned(r) }

  lemma SubsetCard(a: set<Id>, b: set<Id>)
    requires a <= b
    ensures |a| <= |b|
  {
    assert b == a + (b - a);
  }

  lemma HeldSystem(db: Store, a: Id, x: Activation, astray: set<Id>)
    requires Inv(db, astray) && Holds(db, a, x)
    ensures x.system < |db.systems| && x.task < |db.tasks|
  {
    assert MailFits(db, x.mail);
    assert TaskFits(db, x.task);
  }

  lemma HoldingKept(r: Daemon, db: Store, astray: set<Id>)
    requires DaemonInv(r, astray) && MailsKeep(r.db, db)
    ensures Holding(r.(db := db))
  {
    hide Inv;
    forall a | a in r.active ensures Holds(db, a, r.active[a]) {
      assert Holds(r.db, a, r.active[a]);
      assert MailKeeps(r.db.mails[r.active[a].mail], db.mails[r.active[a].mail], false);
    }
    forall s | 0 <= s < |db.systems| ensures |ActiveIn(r.active, s)| <= db.systems[s].maxActive {
      if s >= |r.db.systems| {
        forall a | a in r.active ensures r.active[a].system != s { HeldSystem(r.db, a, r.active[a], astray); }
        assert ActiveIn(r.active, s) == {};
      }
    }
  }

  lemma HoldingReleased(r: Daemon, a: Id, db: Store, astray: set<Id>)
    requires DaemonInv(r, astray) && a in r.active && Releases(r.db, db, r.active[a].mail)
    ensures Holding(r.(db := db, active := r.active - {a}))
  {
    hide Inv;
    var rest := r.active - {a};
    assert Holds(r.db, a, r.active[a]);
    forall b | b in rest ensures Holds(db, b, rest[b]) {
      assert Holds(r.db, b, r.active[b]);
      assert MailKeeps(r.db.mails[r.active[b].mail], db.mails[r.active[b].mail], false);
    }
    FewerActive(r.active, a);
  }

  lemma FewerActive(active: map<Id, Activation>, a: Id)
    requires a in active
    ensures |active - {a}| <= |active|
    ensures forall s: Id :: |ActiveIn(active - {a}, s)| <= |ActiveIn(active, s)|
  {
    var rest := active - {a};
    assert rest.Keys == active.Keys - {a};
    assert |rest| == |rest.Keys| && |active| == |active.Keys|;
    forall s: Id ensures |ActiveIn(rest, s)| <= |ActiveIn(active, s)| { SubsetCard(ActiveIn(rest, s), ActiveIn(active, s)); }
  }

  lemma HoldingDropped(r: Daemon, a: Id, astray: set<Id>)
    requires DaemonInv(r, astray) && a in r.active
    ensures Holding(r.(active := r.active - {a}))
  {
    hide Inv;
    FewerActive(r.active, a);
    forall b | b in r.active - {a} ensures Holds(r.db, b, r.active[b]) { assert Holds(r.db, b, r.active[b]); }
  }

  // ----- claims -----

  lemma HoldingTaken(r: Daemon, r': Daemon, m: Id, open: set<Id>, astray: set<Id>)
    requires DaemonInv(r, astray) && Inv(r'.db, astray) && |r.active| < MAX_ACTIVATIONS && m < |r.db.mails| && r.db.mails[m].agent !in r.active
    requires r'.active == r.active[r.db.mails[m].agent := Activation(r.db.mails[m].system, m, r.db.mails[m].task, NewCall(r'.db, r.db.mails[m].task))]
    requires |ActiveIn(r.active, r.db.mails[m].system)| < MaxActive(r.db, r.db.mails[m].system)
    requires TakesOpen(r.db, r'.db, m, open)
    ensures Holding(r')
  {
    hide Takes, Keeps, Holds, ActiveIn, Inv;
    var mid: Store :| Keeps(r.db, mid, open) && Takes(mid, r'.db, m);
    var a, s := r.db.mails[m].agent, r.db.mails[m].system;
    var x := Activation(s, m, r.db.mails[m].task, NewCall(r'.db, r.db.mails[m].task));
    TakenHolds(r.db, mid, r'.db, m, open, astray);
    TakenSystems(r.db, mid, r'.db, m, open);
    MoreActive(r.active, a, x);
    forall b | b in r'.active ensures Holds(r'.db, b, r'.active[b]) {
      if b != a {
        assert Holds(r.db, b, r.active[b]);
        OtherHolds(r.db, mid, r'.db, m, open, b, r.active[b]);
      }
    }
  }

  lemma MoreActive(active: map<Id, Activation>, a: Id, x: Activation)
    requires a !in active
    ensures |active[a := x]| == |active| + 1
    ensures forall s: Id :: |ActiveIn(active[a := x], s)| == |ActiveIn(active, s)| + (if x.system == s then 1 else 0)
  {
    var more := active[a := x];
    forall s: Id ensures |ActiveIn(more, s)| == |ActiveIn(active, s)| + (if x.system == s then 1 else 0) {
      if x.system == s {
        assert ActiveIn(more, s) == ActiveIn(active, s) + {a};
      } else {
        assert ActiveIn(more, s) == ActiveIn(active, s);
      }
    }
    assert more.Keys == active.Keys + {a};
    assert |more| == |more.Keys| && |active| == |active.Keys|;
  }

  lemma TakenHolds(db: Store, mid: Store, db': Store, m: Id, open: set<Id>, astray: set<Id>)
    requires Keeps(db, mid, open) && Takes(mid, db', m) && m < |db.mails| && Inv(db', astray)
    ensures Holds(db', db.mails[m].agent, Activation(db.mails[m].system, m, db.mails[m].task, NewCall(db', db.mails[m].task)))
  {
    assert MailKeeps(db.mails[m], mid.mails[m], m in open);
    assert MailFits(db', m);
    assert TaskFits(db', db'.mails[m].task);
  }

  lemma OtherHolds(db: Store, mid: Store, db': Store, m: Id, open: set<Id>, b: Id, x: Activation)
    requires Keeps(db, mid, open) && Takes(mid, db', m) && m < |db.mails| && Holds(db, b, x) && b != db.mails[m].agent
    ensures Holds(db', b, x)
  {
    assert MailKeeps(db.mails[x.mail], mid.mails[x.mail], x.mail in open);
    assert MailKeeps(mid.mails[x.mail], db'.mails[x.mail], false);
  }

  lemma TakenSystems(db: Store, mid: Store, db': Store, m: Id, open: set<Id>)
    requires Keeps(db, mid, open) && Takes(mid, db', m)
    ensures |db'.systems| == |db.systems| && forall s :: 0 <= s < |db.systems| ==> db'.systems[s].maxActive == db.systems[s].maxActive
  {
  }

  lemma OfferedAtStart(r: Daemon, ids: seq<Id>, now: int)
    requires ClaimList(r.db, ids, now)
    ensures Offered(r.db, ids)
  {
    forall i | 0 <= i < |ids| ensures OfferedMail(r.db, ids[i]) { assert Candidate(r.db, ids[i], now); }
  }

  /** Keeping every delivery but the open ones keeps what the activations need. */
  lemma HoldingOpen(r: Daemon, db: Store, open: set<Id>, astray: set<Id>)
    requires DaemonInv(r, astray) && Keeps(r.db, db, open)
    ensures Holding(r.(db := db))
  {
    hide Inv;
    forall a | a in r.active ensures Holds(db, a, r.active[a]) {
      assert Holds(r.db, a, r.active[a]);
      assert MailKeeps(r.db.mails[r.active[a].mail], db.mails[r.active[a].mail], r.active[a].mail in open);
    }
  }

  /** The tasks a step leads astray: a claim may, nothing else does. */
  function Led(r: Daemon, step: Step): set<Id> {
    if step.DoClaim? && !r.down && |r.active| < MAX_ACTIVATIONS then Misled(r, step.list, step.doubts, step.now) else {}
  }

  lemma ClaimInv(r: Daemon, ids: seq<Id>, doubts: Id -> Doubt, now: int, astray: set<Id>)
    requires DaemonInv(r, astray) && ClaimList(r.db, ids, now) && Led(r, DoClaim(ids, doubts, now)) <= astray
    ensures var r' := Claim(r, ids, doubts, now); DaemonInv(r', astray) && Aged(r, r', {}, {})
  {
    hide Inv, Keeps, ClaimFrom, SweepSystems, Holding, TakesOpen, Offered, Misled, Aged;
    AgedSelf(r);
    if !r.down && |r.active| < MAX_ACTIVATIONS {
      var open := Elements(ids);
      OfferedAtStart(r, ids, now);
      OpenRows(r, ids, now);
      var claimed := ClaimFrom(r, ids, doubts, now);
      ClaimFromInv(r, ids, doubts, now, open, astray);
      if claimed.active == r.active && Keeps(r.db, claimed.db, open) {
        HoldingOpen(r, claimed.db, open, astray);
        OpenAged(r, ids, now, claimed);
      } else {
        var m: Id :| && m in open && m < |r.db.mails| && r.db.mails[m].agent !in r.active
            && claimed.active == r.active[r.db.mails[m].agent := Activation(r.db.mails[m].system, m, r.db.mails[m].task, NewCall(claimed.db, r.db.mails[m].task))]
            && |ActiveIn(r.active, r.db.mails[m].system)| < MaxActive(r.db, r.db.mails[m].system)
            && TakesOpen(r.db, claimed.db, m, open);
        HoldingTaken(r, claimed, m, open, astray);
        TakenAged(r, ids, now, claimed, m);
      }
      assert Planned(claimed) by { AgedPlans(r, claimed); }
      SweepInv(claimed.db, astray);
      KeepsUnmoved(claimed.db, SweepSystems(claimed.db));
      QuietStep(claimed, SweepSystems(claimed.db), astray);
      AgedThen(r, claimed, SweepSystems(claimed.db));
    }
  }

  lemma OpenRows(r: Daemon, ids: seq<Id>, now: int)
    requires ClaimList(r.db, ids, now)
    ensures forall m :: m in Elements(ids) ==> m < |r.db.mails| && r.db.mails[m].state == Pending
  {
    forall m | m in Elements(ids) ensures m < |r.db.mails| && r.db.mails[m].state == Pending {
      var i :| 0 <= i < |ids| && ids[i] == m;
      assert Candidate(r.db, ids[i], now);
    }
  }

  // ----- the whole life of a delivery -----

  predicate MailAges(v: Mail, v': Mail) {
    SameMail(v, v') && v.attempts <= v'.attempts && (Final(v) ==> v' == v)
  }

  /** Attempts are never taken back, and a finished delivery is never touched again. */
  ghost predicate MailHistory(db: Store, db': Store) {
    |db.mails| <= |db'.mails| && forall m :: 0 <= m < |db.mails| ==> MailAges(db.mails[m], db'.mails[m])
  }

  lemma MailHistorySelf(db: Store)
    ensures MailHistory(db, db)
  {
  }

  lemma MailHistoryTransitive(a: Store, b: Store, c: Store)
    requires MailHistory(a, b) && MailHistory(b, c)
    ensures MailHistory(a, c)
  {
    forall m | 0 <= m < |a.mails| ensures MailAges(a.mails[m], c.mails[m]) {
      assert MailAges(a.mails[m], b.mails[m]) && MailAges(b.mails[m], c.mails[m]);
    }
  }

  lemma MailsHistory(db: Store, db': Store)
    requires MailsKeep(db, db')
    ensures MailHistory(db, db')
  {
    forall m | 0 <= m < |db.mails| ensures MailAges(db.mails[m], db'.mails[m]) { assert MailKeeps(db.mails[m], db'.mails[m], false); }
  }

  // ----- what one step does to rows that exist -----

  predicate ReceiptAges(x: Receipt, y: Receipt) { x != Begun ==> y == x }

  /** Receipts are never taken back, and an outcome stands. */
  ghost predicate ReceiptHistory(db: Store, db': Store) {
    forall c :: c in db.receipts ==> c in db'.receipts && ReceiptAges(db.receipts[c], db'.receipts[c])
  }

  /** Deliveries and receipts only age; only deliveries in `except` return to pending, and only tasks in
      `waits` start to wait on a tool. */
  ghost predicate Aged(r: Daemon, r': Daemon, waits: set<Id>, except: set<Id>) {
    && MailHistory(r.db, r'.db) && ReceiptHistory(r.db, r'.db)
    && PendingKept(r.db, r'.db, except) && NoNewWaits(r.db, r'.db, waits)
  }

  /** The tables a step leaves alone that is neither claim, tool, finish nor restart. */
  ghost predicate Unmoved(db: Store, db': Store) {
    MailsKeep(db, db') && NoNewWaits(db, db', {}) && db'.receipts == db.receipts
  }

  lemma KeepsUnmoved(db: Store, db': Store)
    requires Keeps(db, db', {})
    ensures Unmoved(db, db')
  {
    KeepsMails(db, db');
    KeepsNoNewWaits(db, db', {});
  }

  lemma AgedSelf(r: Daemon)
    ensures Aged(r, r, {}, {})
  {
  }

  lemma AgedThen(a: Daemon, b: Daemon, db: Store)
    requires Aged(a, b, {}, {}) && Unmoved(b.db, db)
    ensures Aged(a, b.(db := db), {}, {})
  {
    MailsHistory(b.db, db);
    MailHistoryTransitive(a.db, b.db, db);
    forall m | 0 <= m < |a.db.mails| ensures PendingAsBefore(a.db.mails[m], db.mails[m]) {
      assert PendingAsBefore(a.db.mails[m], b.db.mails[m]) && MailKeeps(b.db.mails[m], db.mails[m], false);
    }
    forall m | |a.db.mails| <= m < |db.mails| ensures NewMailOk(db.mails[m]) {
      if m < |b.db.mails| { assert NewMailOk(b.db.mails[m]) && MailKeeps(b.db.mails[m], db.mails[m], false); }
    }
    forall k | 0 <= k < |a.db.tasks| ensures WaitsLess(a.db.tasks[k], db.tasks[k]) {
      assert WaitsLess(a.db.tasks[k], b.db.tasks[k]) && WaitsLess(b.db.tasks[k], db.tasks[k]);
    }
  }

  lemma UnmovedAged(r: Daemon, db: Store)
    requires Unmoved(r.db, db)
    ensures Aged(r, r.(db := db), {}, {})
  {
    MailsHistory(r.db, db);
    MailsPending(r.db, db);
  }

  lemma OpenAged(r: Daemon, ids: seq<Id>, now: int, r': Daemon)
    requires ClaimList(r.db, ids, now) && Keeps(r.db, r'.db, Elements(ids))
    ensures Aged(r, r', {}, {}) && r'.db.receipts == r.db.receipts
  {
    OpenRows(r, ids, now);
    KeepsNoNewWaits(r.db, r'.db, Elements(ids));
    forall m | 0 <= m < |r.db.mails| ensures MailAges(r.db.mails[m], r'.db.mails[m]) && PendingAsBefore(r.db.mails[m], r'.db.mails[m]) {
      assert MailKeeps(r.db.mails[m], r'.db.mails[m], m in Elements(ids));
    }
  }

  lemma TakenAged(r: Daemon, ids: seq<Id>, now: int, r': Daemon, m: Id)
    requires ClaimList(r.db, ids, now) && m in Elements(ids) && TakesOpen(r.db, r'.db, m, Elements(ids))
    ensures Aged(r, r', {}, {}) && r'.db.receipts == r.db.receipts
  {
    OpenRows(r, ids, now);
    var mid: Store :| Keeps(r.db, mid, Elements(ids)) && Takes(mid, r'.db, m);
    forall k | 0 <= k < |r.db.mails| ensures MailAges(r.db.mails[k], r'.db.mails[k]) && PendingAsBefore(r.db.mails[k], r'.db.mails[k]) {
      assert MailKeeps(r.db.mails[k], mid.mails[k], k in Elements(ids));
      if k != m { assert MailKeeps(mid.mails[k], r'.db.mails[k], false); }
    }
    forall k | |r.db.mails| <= k < |r'.db.mails| ensures NewMailOk(r'.db.mails[k]) {
      if k < |mid.mails| { assert NewMailOk(mid.mails[k]) && MailKeeps(mid.mails[k], r'.db.mails[k], false); }
    }
    forall k | 0 <= k < |r.db.tasks| ensures WaitsLess(r.db.tasks[k], r'.db.tasks[k]) {
      assert TaskKeeps(r.db.tasks[k], mid.tasks[k]) && TaskKeeps(mid.tasks[k], r'.db.tasks[k]);
    }
  }

  lemma ReleasedAged(r: Daemon, r': Daemon, m: Id)
    requires Releases(r.db, r'.db, m) && r.db.mails[m].state == Leased
    ensures Aged(r, r', {}, {m}) && r'.db.receipts == r.db.receipts
  {
    forall k | 0 <= k < |r.db.mails| ensures MailAges(r.db.mails[k], r'.db.mails[k]) && (k != m ==> PendingAsBefore(r.db.mails[k], r'.db.mails[k])) {
      if k != m { assert MailKeeps(r.db.mails[k], r'.db.mails[k], false); }
    }
  }

  // ----- steps -----

  /** Any step of the world: a claim works through what its query returned. */
  ghost predicate Sensible(r: Daemon, step: Step) {
    step.DoClaim? ==> ClaimList(r.db, step.list, step.now)
  }

  lemma QuietStep(r: Daemon, db: Store, astray: set<Id>)
    requires DaemonInv(r, astray) && Inv(db, astray) && Unmoved(r.db, db)
    ensures DaemonInv(r.(db := db), astray) && Aged(r, r.(db := db), {}, {})
  {
    HoldingKept(r, db, astray);
    UnmovedAged(r, db);
  }

  lemma FinishStepInv(r: Daemon, a: Id, f: Finish, now: int, astray: set<Id>)
    requires DaemonInv(r, astray)
    ensures var r' := FinishStep(r, a, f, now);
            && DaemonInv(r', astray) && Aged(r, r', {}, ReleasedBy(r, a)) && r'.down == r.down
            && forall m :: m in ReleasedBy(r, a) ==> m < |r'.db.mails| && (Redelivers(r', m) ==> r.down || r'.db.mails[m].task in astray)
  {
    hide Inv, Holding, FinishDelivery, Releases, Aged;
    AgedSelf(r);
    if a in r.active {
      var s := r.active[a];
      HeldBy(r, a, astray);
      HoldingDropped(r, a, astray);
      if FinishDelivery(r.db, s, f, r.down, now).Some? {
        var db' := FinishDelivery(r.db, s, f, r.down, now).value;
        var r' := r.(db := db', active := r.active - {a});
        FinishDeliveryInv(r.db, s, f, r.down, now, astray);
        HoldingReleased(r, a, db', astray);
        ReleasedAged(r, r', s.mail);
        ReleasedTask(r.db, db', s.mail);
      } else {
        AgedWider(r, r.(active := r.active - {a}), ReleasedBy(r, a));
      }
    }
  }

  /** The delivery an activation lets go of. */
  function ReleasedBy(r: Daemon, a: Id): set<Id> { if a in r.active then {r.active[a].mail} else {} }

  /** The delivery is pending again while its task waits on a tool. */
  predicate Redelivers(r: Daemon, m: Id)
    requires m < |r.db.mails|
  {
    r.db.mails[m].state == Pending && r.db.mails[m].task < |r.db.tasks| && r.db.tasks[r.db.mails[m].task].waitingTool.Some?
  }

  lemma ReleasedTask(db: Store, db': Store, m: Id)
    requires Releases(db, db', m)
    ensures m < |db'.mails| && db'.mails[m].task == db.mails[m].task
  {
  }

  lemma AgedWider(r: Daemon, r': Daemon, except: set<Id>)
    requires r'.db == r.db
    ensures Aged(r, r', {}, except)
  {
  }

  lemma HeldBy(r: Daemon, a: Id, astray: set<Id>)
    requires DaemonInv(r, astray) && a in r.active
    ensures var s := r.active[a];
            && s.task < |r.db.tasks| && s.call < |r.db.calls| && s.mail < |r.db.mails| && r.db.mails[s.mail].state == Leased
            && r.db.mails[s.mail].task == s.task
  {
    assert Holds(r.db, a, r.active[a]);
    HeldSystem(r.db, a, r.active[a], astray);
  }

  lemma AbandonHistory(db: Store)
    ensures MailHistory(db, Abandon(db)) && ReceiptHistory(db, Abandon(db))
  {
  }

  lemma RestartInv(r: Daemon, ids: seq<Id>, now: int, astray: set<Id>)
    requires DaemonInv(r, astray)
    ensures var r' := Daemon(Recover(r.db, ids, now), map[], {}, false);
            && DaemonInv(r', astray) && MailHistory(r.db, r'.db) && ReceiptHistory(r.db, r'.db) && NothingStale(r'.db, astray)
  {
    hide Inv, Keeps, Abandon, Recover, NothingStale;
    RecoverInv(r.db, ids, now, astray);
    AbandonHistory(r.db);
    KeepsUnmoved(Abandon(r.db), Recover(r.db, ids, now));
    MailsHistory(Abandon(r.db), Recover(r.db, ids, now));
    MailHistoryTransitive(r.db, Abandon(r.db), Recover(r.db, ids, now));
    forall s: Id ensures ActiveIn(map[], s) == {} {}
  }

  /** Commands of the administrator rewrite rows and append some. */
  lemma AdministrationStep(r: Daemon, step: Step, astray: set<Id>)
    requires Inv(r.db, astray)
    requires step.DoCreateSystem? || step.DoStartGoal? || step.DoCreateAgent? || step.DoPause? || step.DoStop? || step.DoShutSystem? || step.DoSwitchOff?
    ensures var r' := Next(r, step); r' == r.(db := r'.db) && Inv(r'.db, astray) && Unmoved(r.db, r'.db)
  {
    hide InvBut, Keeps, StopTasks, StartGoal, BeginStop, MailsKeep;
    var db' := Next(r, step).db;
    KeepsSelf(r.db, {});
    KeepsUnmoved(r.db, r.db);
    match step {
      case DoCreateSystem(n) => CreateSystemInv(r.db, n, astray);
      case DoStartGoal(s, deadline, now) =>
        if StartGoal(r.db, s, deadline, now).Some? {
          StartGoalInv(r.db, s, deadline, now, astray);
          StartGoalRows(r.db, s, deadline, now);
        }
      case DoCreateAgent(t) => CreateAgentInv(r.db, t, astray);
      case DoPause(scope, hold) => PauseInv(r.db, scope, hold, astray); KeepsUnmoved(r.db, db');
      case DoStop(scope, ids, now) =>
        if BeginStop(r.db, scope).Some? {
          BeginStopInv(r.db, scope, astray);
          StopInv(r.db, BeginStop(r.db, scope).value, ids, now, astray);
          KeepsUnmoved(r.db, db');
        }
      case DoShutSystem(s, ids, now) =>
        ShutSystemInv(r.db, s, astray);
        StopInv(r.db, ShutSystem(r.db, s), ids, now, astray);
        KeepsUnmoved(r.db, db');
      case DoSwitchOff(a) =>
        SetAgentSwitches(r.db, a, Off);
        SwitchedInv(r.db, SetAgent(r.db, a, Off), -1, astray);
        KeepsUnmoved(r.db, db');
    }
  }

  lemma StartGoalRows(db: Store, s: Id, deadline: int, now: int)
    requires StartGoal(db, s, deadline, now).Some?
    ensures var db' := StartGoal(db, s, deadline, now).value; NoNewWaits(db, db', {}) && db'.receipts == db.receipts
  {
    hide Refuses;
  }

  /** Steps of calls, inputs and time. */
  lemma MailStep(r: Daemon, step: Step, astray: set<Id>)
    requires Inv(r.db, astray)
    requires step.DoMoveCall? || step.DoInput? || step.DoNotice? || step.DoExpire?
    ensures var r' := Next(r, step); r' == r.(db := r'.db) && Inv(r'.db, astray) && Unmoved(r.db, r'.db)
  {
    hide InvBut, Keeps, Unmoved, Advance, AddInput, NoticeEvaluation, Expire;
    match step {
      case DoMoveCall(c, move) => AdvanceInv(r.db, c, move, astray);
      case DoInput(t, source, cause, now) => AddInputInv(r.db, t, source, cause, now, astray);
      case DoNotice(t, now) => NoticeInv(r.db, t, now, astray);
      case DoExpire(t, now) => ExpireInv(r.db, t, now, astray);
    }
    KeepsUnmoved(r.db, Next(r, step).db);
  }

  /** The task that may start to wait on a tool in this step. */
  function WaitsBy(r: Daemon, step: Step): set<Id> {
    if step.DoPrepareTool? && step.tool.Delegate? && step.agent in r.active then {r.active[step.agent].task} else {}
  }

  lemma ToolStep(r: Daemon, step: Step, astray: set<Id>)
    requires DaemonInv(r, astray) && (step.DoPrepareTool? || step.DoCompleteTool?)
    ensures var r' := Next(r, step); DaemonInv(r', astray) && Aged(r, r', WaitsBy(r, step), {}) && r'.down == r.down
  {
    hide Inv, MailsKeep, PrepareTool, CompleteTool, Holding;
    var r' := Next(r, step);
    match step {
      case DoPrepareTool(a, tool, now) => PrepareToolInv(r, a, tool, now, astray);
      case DoCompleteTool(c, known) => CompleteToolInv(r, c, known, astray);
    }
    HoldingKept(r, r'.db, astray);
    HoldingRows(r.(db := r'.db), r');
    MailsHistory(r.db, r'.db);
    MailsPending(r.db, r'.db);
  }

  lemma HoldingRows(r: Daemon, r': Daemon)
    requires Holding(r) && r'.db == r.db && r'.active == r.active
    ensures Holding(r')
  {
  }

  /** Every step keeps the invariant for all tasks but those it leads astray. */
  lemma StepInv(r: Daemon, step: Step, astray: set<Id>)
    requires DaemonInv(r, astray) && Sensible(r, step) && Led(r, step) <= astray
    ensures var r' := Next(r, step);
            && DaemonInv(r', astray) && MailHistory(r.db, r'.db) && ReceiptHistory(r.db, r'.db)
            && (Clear(r, astray) && (forall t :: t in WaitsBy(r, step) ==> t in astray || !Lingers(r.db, t)) ==> Clear(r', astray))
  {
    hide Inv, Holding, Claim, FinishStep, Recover, PrepareTool, CompleteTool, Led, Aged, Unmoved, Lingers, NothingStale, MailHistory, ReceiptHistory;
    var r' := Next(r, step);
    if step.DoRestart? {
      RestartInv(r, step.list, step.now, astray);
    } else if step.DoShutdown? {
      AgedSelf(r);
      HoldingRows(r, r');
      AgedHistory(r, r', {}, {});
    } else if step.DoFinish? {
      FinishStepInv(r, step.agent, step.finish, step.now, astray);
      AgedClear(r, r', {}, ReleasedBy(r, step.agent), astray);
    } else if step.DoClaim? {
      ClaimInv(r, step.list, step.doubts, step.now, astray);
      ClaimDown(r, step.list, step.doubts, step.now);
      AgedClear(r, r', {}, {}, astray);
    } else if step.DoPrepareTool? || step.DoCompleteTool? {
      ToolStep(r, step, astray);
      AgedClear(r, r', WaitsBy(r, step), {}, astray);
    } else {
      if step.DoMoveCall? || step.DoInput? || step.DoNotice? || step.DoExpire? {
        MailStep(r, step, astray);
      } else {
        AdministrationStep(r, step, astray);
      }
      QuietStep(r, r'.db, astray);
      AgedClear(r, r', {}, {}, astray);
    }
  }

  /** No stale reply is pending, or a shutdown keeps claims from being made. */
  ghost predicate Clear(r: Daemon, astray: set<Id>) { r.down || NothingStale(r.db, astray) }

  lemma AgedHistory(r: Daemon, r': Daemon, waits: set<Id>, except: set<Id>)
    requires Aged(r, r', waits, except)
    ensures MailHistory(r.db, r'.db) && ReceiptHistory(r.db, r'.db)
  {
  }

  lemma AgedClear(r: Daemon, r': Daemon, waits: set<Id>, except: set<Id>, astray: set<Id>)
    requires Aged(r, r', waits, except) && DaemonInv(r, astray) && r'.down == r.down
    requires forall m :: m in except ==> m < |r'.db.mails| && (Redelivers(r', m) ==> r.down || r'.db.mails[m].task in astray)
    ensures MailHistory(r.db, r'.db) && ReceiptHistory(r.db, r'.db)
    ensures Clear(r, astray) && (forall t :: t in waits ==> t in astray || !Lingers(r.db, t)) ==> Clear(r', astray)
  {
    hide Lingers, NothingStale, MailHistory, ReceiptHistory, Holding, Planned, NoNewWaits, PendingKept;
    if !r.down && NothingStale(r.db, astray) && (forall t :: t in waits ==> t in astray || !Lingers(r.db, t)) {
      ClearKept(r.db, r'.db, waits, except, astray);
    }
  }

  lemma ClaimDown(r: Daemon, ids: seq<Id>, doubts: Id -> Doubt, now: int)
    ensures Claim(r, ids, doubts, now).down == r.down
  {
    if !r.down && |r.active| < MAX_ACTIVATIONS { ClaimFromDown(r, ids, doubts, now); }
  }

  lemma {:induction false} ClaimFromDown(r: Daemon, ids: seq<Id>, doubts: Id -> Doubt, now: int)
    ensures ClaimFrom(r, ids, doubts, now).down == r.down
    decreases |ids|
  {
    hide Consider;
    if ids != [] {
      if !CandidateRow(r.db, ids[0]) {
        ClaimFromDown(r, ids[1..], doubts, now);
      } else {
        match Consider(r.db, r.active, ids[0], doubts(ids[0]), now)
        case Passed(db) => ClaimFromDown(r.(db := db), ids[1..], doubts, now);
        case Leasing(_) =>
      }
    }
  }

  lemma AgedPlans(r: Daemon, r': Daemon)
    requires Planned(r) && r'.db.receipts == r.db.receipts && r'.plans == r.plans
    ensures Planned(r')
  {
  }
}
