/** What a restart finds and what it makes of it, row by row. */
module RestartFates {
  import opened Common
  import opened Sums
  import opened Team
  import opened Mailbox
  import opened TeamSteps
  import opened TeamInvariant
  import opened TaskEnds
  import opened TaskFates

  // ----- what a crash leaves -----

  /** The task waits and its call's tool is done: the delivery that brought it there has served its purpose. */
  predicate WaitsAfterTool(db: Store, t: Id) {
    t < |db.tasks| && db.tasks[t].phase == Waiting && db.tasks[t].call in db.receipts && db.receipts[db.tasks[t].call] == Finished
  }

  predicate ReturnedMail(db: Store, v: Mail, v': Mail) {
    v' == if v.state != Pending && v.state != Leased then v
          else if v.applied && WaitsAfterTool(db, v.task) then v.(state := Acked)
          else v.(state := Pending)
  }

  /** Requests on the network are lost, tools in progress uncertain; running tasks are queued again and leases
      returned, with their count of attempts. */
  lemma AbandonExactly(db: Store)
    ensures var db' := Abandon(db);
            && db' == db.(calls := db'.calls, receipts := db'.receipts, mails := db'.mails, tasks := db'.tasks)
            && |db'.calls| == |db.calls| && |db'.mails| == |db.mails| && |db'.tasks| == |db.tasks| && db'.receipts.Keys == db.receipts.Keys
            && (forall c :: 0 <= c < |db.calls| ==> db'.calls[c] == db.calls[c].(state := if db.calls[c].state == OnWire then Lost else db.calls[c].state))
            && (forall c :: c in db.receipts ==> db'.receipts[c] == if db.receipts[c] == Finished then Finished else Uncertain)
            && (forall t :: 0 <= t < |db.tasks| ==> db'.tasks[t] == db.tasks[t].(phase := if db.tasks[t].phase == Running then Queued else db.tasks[t].phase))
            && (forall m :: 0 <= m < |db.mails| ==> ReturnedMail(db, db.mails[m], db'.mails[m]))
  {
    var db' := Abandon(db);
    forall m | 0 <= m < |db.mails| ensures ReturnedMail(db, db.mails[m], db'.mails[m]) { assert db'.mails[m] == ReturnMail(db, db.mails[m]); }
  }

  /** The call may have reached the provider, ended badly, or its tool may have had its effect. */
  predicate Doubtful(db: Store, t: Id) {
    LiveTask(db, t) && db.tasks[t].call < |db.calls| &&
    var c := db.tasks[t].call;
    || db.calls[c].state == OnWire || db.calls[c].state == Lost
    || db.calls[c].state == Closed(Failed) || db.calls[c].state == Closed(Canceled) || db.calls[c].state == Closed(Rejected)
    || (c in db.receipts && db.receipts[c] != Finished)
  }

  lemma UnrecoverableExactly(db: Store, t: Id)
    ensures Unrecoverable(Abandon(db), t) == Doubtful(db, t)
  {
    AbandonExactly(db);
  }

  // ----- the doubtful tasks end -----

  /** A system whose root is given up is stopped. */
  predicate FailSystemFate(db: Store, db': Store, ids: set<Id>, s: Id)
    requires s < |db.systems| && s < |db'.systems|
  {
    if HaltsSystem(db, ids, s) then db'.systems[s] == db.systems[s].(state := Stopped) else SystemFate(db, db', s)
  }

  ghost predicate FailFates(db: Store, db': Store, ids: set<Id>) {
    && WorkFates(db, db', ids, Failed) && GoalFates(db, db') && |db'.systems| == |db.systems|
    && (forall s :: 0 <= s < |db.systems| ==> FailSystemFate(db, db', ids, s))
  }

  lemma NothingFailed(db: Store)
    ensures FailFates(db, db, {})
  {
    hide RowFates, ToldFate, GoalFates, StillHeld;
    SameFates(db, db, {}, Failed);
    SameGoals(db);
    forall s | 0 <= s < |db.systems| ensures FailSystemFate(db, db, {}, s) { NothingEnded(db, db, s); }
  }

  lemma FailOneFates(db: Store, t: Id, now: int)
    requires t < |db.tasks|
    ensures var db' := FailOne(db, t, now); FailFates(db, db', {t}) && |db'.tasks| == |db.tasks| && (Live(db.tasks[t]) ==> db'.tasks[t].phase == Done(Failed))
  {
    hide RowFates, ToldFate, GoalFates, Terminate, WorkEnded, StillHeld;
    var ended, db' := Terminate(db, t, Failed, Runtime, None, now), FailOne(db, t, now);
    TerminateWork(db, t, Failed, Runtime, None, now);
    TerminateGoals(db, t, Failed, Runtime, None, now);
    FateSizes(db, ended, {t}, Failed);
    SameFinish(db, ended, db', {t}, Failed);
    forall s | 0 <= s < |db.systems| ensures FailSystemFate(db, db', {t}, s) {
      assert SystemFate(db, ended, s);
      assert WorkEnded(db, db', s) == WorkEnded(db, ended, s) by { SameFinishEnds(db, ended, db', s); }
    }
  }

  lemma SameFinish(db: Store, ended: Store, db': Store, ids: set<Id>, outcome: Outcome)
    requires db' == ended.(systems := db'.systems) && WorkFates(db, ended, ids, outcome) && GoalFates(db, ended)
    ensures WorkFates(db, db', ids, outcome) && GoalFates(db, db')
  {
    hide AboveOne, GoalEnded;
    forall k | 0 <= k < |db.tasks| ensures TaskFate(db, db', k, ids, outcome) && ToldFate(db, db', k) {
      assert TaskFate(db, ended, k, ids, outcome) && ToldFate(db, ended, k);
    }
    forall c | 0 <= c < |db.calls| ensures CallFate(db, db', c) { assert CallFate(db, ended, c); }
    forall m | 0 <= m < |db.mails| ensures MailFate(db, db', m) { assert MailFate(db, ended, m); }
    forall m | |db.mails| <= m < |db'.mails| ensures ReportFate(db, db', m) { assert ReportFate(db, ended, m); }
    forall g: Id ensures GoalEnded(db, db', g) == GoalEnded(db, ended, g) { SameFinishEnds(db, ended, db', g); }
    forall a | 0 <= a < |db.agents| ensures AgentFate(db, db', a) { assert AgentFate(db, ended, a); }
  }

  lemma SameFinishEnds(db: Store, ended: Store, db': Store, x: Id)
    requires db'.tasks == ended.tasks
    ensures GoalEnded(db, db', x) == GoalEnded(db, ended, x) && WorkEnded(db, db', x) == WorkEnded(db, ended, x)
  {
    forall k | 0 <= k < |db.tasks| ensures RootEnded(db, db', k) == RootEnded(db, ended, k) {}
  }

  lemma FailSystemThen(a: Store, b: Store, c: Store, ids: set<Id>, t: Id, s: Id)
    requires RowFates(a, b, ids + {t}, Failed) && RowFates(b, c, ids + {t}, Failed) && s < |a.systems| == |b.systems| == |c.systems|
    requires FailSystemFate(a, b, ids, s) && FailSystemFate(b, c, {t}, s) && t < |a.tasks| && !StillHeld(a, s)
    ensures FailSystemFate(a, c, ids + {t}, s)
  {
    hide RowFates, WorkEnded, StillHeld;
    EndedThen(a, b, c, ids + {t}, Failed, s);
    HeldStays(a, b, ids + {t}, Failed, s);
    FateRow(a, b, ids + {t}, Failed, t);
    FateSizes(a, b, ids + {t}, Failed);
    var hit := a.tasks[t].parent.None? && a.tasks[t].system == s;
    assert HaltsSystem(b, {t}, s) == hit;
    assert HaltsSystem(a, ids + {t}, s) == (HaltsSystem(a, ids, s) || hit) by { HaltsOneMore(a, ids, t, s); }
  }

  lemma {:induction false} FailAllFates(db: Store, ids: seq<Id>, now: int)
    requires forall i :: 0 <= i < |ids| ==> ids[i] < |db.tasks|
    requires forall s: Id :: !StillHeld(db, s)
    ensures var db' := FailAll(db, ids, now);
            && FailFates(db, db', Elements(ids)) && |db'.tasks| == |db.tasks|
            && forall i :: 0 <= i < |ids| ==> !Live(db'.tasks[ids[i]])
  {
    hide RowFates, ToldFate, GoalFates, FailSystemFate, StillHeld, FailOne;
    if ids == [] {
      assert Elements(ids) == {};
      NothingFailed(db);
    } else {
      var n := |ids| - 1;
      var t, before := ids[n], Elements(ids[..n]);
      var mid, db' := FailAll(db, ids[..n], now), FailAll(db, ids, now);
      FailAllFates(db, ids[..n], now);
      FailOneFates(mid, t, now);
      var all := before + {t};
      assert Elements(ids) == all by { ElementsSplit(ids); }
      FailWider(db, mid, before, all);
      FailWider(mid, db', {t}, all);
      FatesThen(db, mid, db', all, Failed);
      GoalFatesThen(db, mid, db', all, Failed);
      forall s | 0 <= s < |db.systems| ensures FailSystemFate(db, db', all, s) { FailSystemThen(db, mid, db', before, t, s); }
      forall i | 0 <= i < |ids| ensures !Live(db'.tasks[ids[i]]) {
        FateRow(mid, db', all, Failed, ids[i]);
        if i < n { assert ids[i] == ids[..n][i]; }
      }
    }
  }

  lemma FailWider(db: Store, db': Store, ids: set<Id>, more: set<Id>)
    requires WorkFates(db, db', ids, Failed) && ids <= more
    ensures WorkFates(db, db', more, Failed)
  {
    FatesWider(db, db', ids, more, Failed);
  }

  // ----- the whole restart -----

  predicate Occupied(db: Store, s: Id) { exists t :: 0 <= t < |db.tasks| && db.tasks[t].system == s && Live(db.tasks[t]) }

  /** A system without live work that was active or stopping is stopped. */
  predicate IdleSystem(db: Store, db': Store, s: Id)
    requires s < |db.systems| && s < |db'.systems|
  {
    var x := db.systems[s];
    db'.systems[s] == if (x.state == SystemState.Active || x.state == Stopping) && !Occupied(db, s) then x.(state := Stopped) else x
  }

  /** A restart ends exactly the tasks whose last call or tool is in doubt, as failed unless an ancestor of another such
      task had to be rejected first; beside them only ancestors nobody could tell end, rejected. A system whose root
      is given up, or that has no live work, is stopped. */
  lemma RecoverExactly(db: Store, ids: seq<Id>, now: int) returns (failed: Store)
    requires UnrecoverableList(Abandon(db), ids)
    ensures FailFates(Abandon(db), failed, Elements(ids))
    ensures forall t: Id :: t in Elements(ids) <==> Doubtful(db, t)
    ensures var db' := Recover(db, ids, now);
            && db' == failed.(systems := db'.systems) && |db'.systems| == |failed.systems| && |db'.tasks| == |db.tasks|
            && (forall s :: 0 <= s < |failed.systems| ==> IdleSystem(failed, db', s))
            && (forall t: Id :: Doubtful(db, t) ==>
                  && t < |db'.tasks|
                  && (db'.tasks[t].phase == Done(Failed) || (db'.tasks[t].phase == Done(Rejected) && AboveOne(db.tasks, t, Elements(ids)))))
  {
    hide RowFates, ToldFate, GoalFates, FailSystemFate, FailAll, Abandon, Doubtful, Unrecoverable, StillHeld;
    var base := Abandon(db);
    failed := FailAll(base, ids, now);
    AbandonExactly(db);
    forall t: Id ensures Unrecoverable(base, t) == Doubtful(db, t) && (t in Elements(ids) <==> t in ids) { UnrecoverableExactly(db, t); InElements(ids, t); }
    forall s: Id ensures !StillHeld(base, s) { NoLease(db, s); }
    forall i | 0 <= i < |ids| ensures ids[i] < |base.tasks| { assert ids[i] in ids; UnrecoverableRow(base, ids[i]); }
    FailAllFates(base, ids, now);
    forall t: Id | Doubtful(db, t)
      ensures t < |failed.tasks|
      ensures failed.tasks[t].phase == Done(Failed) || (failed.tasks[t].phase == Done(Rejected) && AboveOne(db.tasks, t, Elements(ids)))
    {
      assert t in ids;
      var i :| 0 <= i < |ids| && ids[i] == t;
      UnrecoverableRow(base, t);
      FailedRow(base, failed, Elements(ids), t);
      if AboveOne(base.tasks, t, Elements(ids)) { AboveBefore(db, t, Elements(ids)); }
    }
  }

  lemma InElements(ids: seq<Id>, t: Id)
    ensures t in Elements(ids) <==> t in ids
  {
  }

  lemma UnrecoverableRow(db: Store, t: Id)
    requires Unrecoverable(db, t)
    ensures LiveTask(db, t)
  {
  }

  lemma NoLease(db: Store, s: Id)
    ensures !StillHeld(Abandon(db), s)
  {
    AbandonExactly(db);
    var db' := Abandon(db);
    forall m | 0 <= m < |db'.mails| ensures db'.mails[m].state != Leased { assert ReturnedMail(db, db.mails[m], db'.mails[m]); }
  }

  lemma FailedRow(base: Store, failed: Store, ids: set<Id>, t: Id)
    requires RowFates(base, failed, ids, Failed) && LiveTask(base, t) && !Live(failed.tasks[t])
    ensures failed.tasks[t].phase == Done(Failed) || (failed.tasks[t].phase == Done(Rejected) && AboveOne(base.tasks, t, ids))
  {
    hide AboveOne, CallFate, MailFate, ReportFate;
    assert TaskFate(base, failed, t, ids, Failed);
  }

  lemma AboveBefore(db: Store, a: Id, ids: set<Id>)
    requires AboveOne(Abandon(db).tasks, a, ids)
    ensures AboveOne(db.tasks, a, ids)
  {
    hide Above;
    var t :| t in ids && Above(Abandon(db).tasks, a, t);
    AboveStable(db.tasks, Abandon(db).tasks, a, t);
  }
}
