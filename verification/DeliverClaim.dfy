/** Claims: what they keep for every task, and the one way in which they lead a task astray. */
module DeliverClaim {
  import opened Common
  import opened Sums
  import opened Team
  import opened Mailbox
  import opened TeamInvariant
  import opened TaskEnds
  import opened Rewrites
  import opened Turns

  lemma ResumeInv(db: Store, t: Id, m: Id, conversation: seq<Message>, exclude: Option<Id>, d: Doubt, now: int, astray: set<Id>)
    requires InvBut(db, t, astray) && LiveTask(db, t) && (t in astray || WellPaired(conversation))
    ensures var r := Resume(db, t, m, conversation, exclude, d, now);
            && Keeps(db, r.db, {})
            && (r.Halt? ==> Inv(r.db, astray))
            && (r.Go? ==>
                  && InvBut(r.db, t, astray) && Proceeding(r.db, t, astray) && Pledges(r.db, t) == Pledges(db, t)
                  && |r.db.tasks| == |db.tasks| && |r.db.mails| == |db.mails| && r.db.tasks[t].stopped == db.tasks[t].stopped
                  && forall k :: 0 <= k < |db.mails| && db.mails[k].kind != Input ==> r.db.mails[k] == db.mails[k])
  {
    hide InvBut, Keeps, Pledges, WellPaired, Terminate, MayTurn, Ongoing;
    if d.inputs {
      TerminateInv(db, t, Rejected, Runtime, Some(m), now, astray);
    } else {
      var fed := ConsumeInputs(db, t, conversation, exclude);
      ConsumeInv(db, t, conversation, exclude, astray);
      if MayTurn(fed, t, d, now) {
        TakeTurnInv(fed, t, fed.tasks[t].conversation, astray);
        KeepsTransitive(db, fed, TakeTurn(fed, t, fed.tasks[t].conversation), {});
      } else {
        TerminateInv(fed, t, Rejected, Runtime, Some(m), now, astray);
        KeepsTransitive(db, fed, Terminate(fed, t, Rejected, Runtime, Some(m), now), {});
      }
    }
  }

  /** A reply that was applied once, returned after a failed start, and meets its task waiting on another tool. */
  predicate Stale(db: Store, m: Id) {
    m < |db.mails| && db.mails[m].task < |db.tasks|
    && db.mails[m].kind.Result? && db.mails[m].applied && db.tasks[db.mails[m].task].waitingTool.Some?
  }

  /** A delivery a claim may act on: pending, for a live task that nobody stopped. */
  ghost predicate Deliverable(db: Store, t: Id, m: Id) {
    && LiveTask(db, t) && !db.tasks[t].stopped
    && m < |db.mails| && db.mails[m].task == t && db.mails[m].attempts < MAX_DELIVERIES
    && (db.mails[m].state == Pending || (db.mails[m].kind == Input && db.mails[m].state != Leased))
  }

  /** If the task waits on a tool, this is the reply it waits for. */
  ghost predicate Awaited(db: Store, t: Id, m: Id) {
    t < |db.tasks| && m < |db.mails| && (db.tasks[t].waitingTool.Some? ==> db.mails[m].kind.Result? && !db.mails[m].applied)
  }

  lemma NoReplyAwaited(db: Store, t: Id, m: Id, astray: set<Id>)
    requires Inv(db, astray) && t !in astray && LiveTask(db, t) && !db.tasks[t].stopped && db.tasks[t].waitingTool.None? && m < |db.mails|
    ensures !AwaitsReply(db.mails[m], t) && Pledges(db, t) == 0
  {
    assert PledgeHolds(db, t);
    SumMember(db.mails, m, ReplyTo(t));
    SumNonnegative(db.tasks, DelegateOf(t));
  }

  /** The reply a waiting task is claimed with always answers its open call: the branch that discards a
      reply outside the continuation is never taken. */
  lemma ReplyIsExpected(db: Store, t: Id, m: Id, astray: set<Id>)
    requires Inv(db, astray) && t !in astray && Deliverable(db, t, m) && Awaited(db, t, m) && db.tasks[t].waitingTool.Some?
    ensures var child := db.mails[m].kind.child;
            && child < |db.tasks| && db.tasks[child].parent == Some(t) && db.tasks[child].goal == db.tasks[t].goal && !Live(db.tasks[child])
            && db.tasks[t].phase == Waiting && Pledges(db, t) == 1 && AwaitsReply(db.mails[m], t)
            && OpenWith(db.tasks[t].conversation, db.tasks[t].waitingTool.value)
  {
    assert MailFits(db, m);
    assert TaskFits(db, db.mails[m].kind.child);
    assert PledgeHolds(db, t) && TaskTalks(db.tasks[t]) && TaskWaits(db, t);
  }

  /** What applying a delivery leaves for the lease: the task proceeds, and the only report it may still
      expect is the one in hand. */
  ghost predicate Applied(db: Store, db': Store, t: Id, m: Id, astray: set<Id>) {
    && InvBut(db', t, astray) && Proceeding(db', t, astray) && !db'.tasks[t].stopped && m < |db.mails| && m < |db'.mails|
    && SameMail(db.mails[m], db'.mails[m]) && db'.mails[m].attempts == db.mails[m].attempts
    && (t in astray || Pledges(db', t) == if AwaitsReply(db'.mails[m], t) then 1 else 0)
  }

  lemma ApplyMailInv(db: Store, t: Id, m: Id, d: Doubt, now: int, astray: set<Id>)
    requires Inv(db, astray) && Deliverable(db, t, m) && (t in astray || Awaited(db, t, m))
    ensures var r := ApplyMail(db, t, m, d, now);
            Keeps(db, r.db, {m}) && if r.Halt? then Inv(r.db, astray) else Applied(db, r.db, t, m, astray)
  {
    if t in astray {
      ApplyAstray(db, t, m, d, now, astray);
    } else {
      ApplyAwaited(db, t, m, d, now, astray);
    }
  }

  lemma ApplyAwaited(db: Store, t: Id, m: Id, d: Doubt, now: int, astray: set<Id>)
    requires Inv(db, astray) && t !in astray && Deliverable(db, t, m) && Awaited(db, t, m)
    ensures var r := ApplyMail(db, t, m, d, now);
            Keeps(db, r.db, {m}) && if r.Halt? then Inv(r.db, astray) else Applied(db, r.db, t, m, astray)
  {
    hide InvBut, Keeps, Pledges, WellPaired, Resume, OpenWith;
    var r := db.tasks[t];
    OneExcepted(db, t, astray);
    assert TaskTalks(r) && TaskWaits(db, t) by { TaskAnswers(db, t, astray); }
    KeepsWider(db, ApplyMail(db, t, m, d, now).db, {}, {m}) by {
      if r.waitingTool.Some? {
        ReplyIsExpected(db, t, m, astray);
        PairedAnswer(r.conversation, r.waitingTool.value);
        ResumeInv(db, t, m, r.conversation + [Reply(r.waitingTool.value)], Some(m), d, now, astray);
      } else if r.phase == Waiting {
        ResumeInv(db, t, m, r.conversation, None, d, now, astray);
        NoReplyAwaited(db, t, m, astray);
      } else {
        KeepsSelf(db, {});
        NoReplyAwaited(db, t, m, astray);
      }
    }
    if r.waitingTool.Some? {
      ReplyIsExpected(db, t, m, astray);
      PairedAnswer(r.conversation, r.waitingTool.value);
      ResumeInv(db, t, m, r.conversation + [Reply(r.waitingTool.value)], Some(m), d, now, astray);
    } else {
      NoReplyAwaited(db, t, m, astray);
      if r.phase == Waiting {
        ResumeInv(db, t, m, r.conversation, None, d, now, astray);
        ResumedMail(db, t, m, d, now, astray);
      }
    }
  }

  /** For a task that went astray any branch may be taken, a reply outside the continuation included. */
  lemma ApplyAstray(db: Store, t: Id, m: Id, d: Doubt, now: int, astray: set<Id>)
    requires Inv(db, astray) && t in astray && Deliverable(db, t, m)
    ensures var r := ApplyMail(db, t, m, d, now);
            Keeps(db, r.db, {m}) && if r.Halt? then Inv(r.db, astray) else Applied(db, r.db, t, m, astray)
  {
    hide InvBut, Keeps, Pledges, Resume, ApplyReply;
    var r := db.tasks[t];
    OneExcepted(db, t, astray);
    KeepsSelf(db, {m});
    var woken := if r.phase == Waiting && r.waitingTool.None? then Resume(db, t, m, r.conversation, None, d, now) else Go(db);
    if r.phase == Waiting && r.waitingTool.None? {
      ResumeInv(db, t, m, r.conversation, None, d, now, astray);
      KeepsWider(db, woken.db, {}, {m});
      KeptRow(db, woken.db, m, {m});
    }
    if woken.Go? && db.mails[m].kind.Result? && !db.mails[m].applied {
      ReplyAstray(woken.db, t, m, db.mails[m].kind.child, d, now, astray);
      KeepsTransitive(db, woken.db, ApplyReply(woken.db, t, m, db.mails[m].kind.child, d, now).db, {m});
    }
  }

  lemma ReplyAstray(db: Store, t: Id, m: Id, child: Id, d: Doubt, now: int, astray: set<Id>)
    requires InvBut(db, t, astray) && t in astray && LiveTask(db, t) && !db.tasks[t].stopped
    requires m < |db.mails| && db.mails[m].state == Pending && db.mails[m].kind.Result? && db.mails[m].task == t
    ensures var r := ApplyReply(db, t, m, child, d, now);
            Keeps(db, r.db, {m}) && if r.Halt? then Inv(r.db, astray) else Applied(db, r.db, t, m, astray)
  {
    hide InvBut, Keeps, Pledges, Resume, WellPaired;
    var r := db.tasks[t];
    if r.waitingTool.None? || child >= |db.tasks| || db.tasks[child].parent != Some(t) || db.tasks[child].goal != r.goal || Live(db.tasks[child]) {
      var v := db.mails[m].(state := Dead);
      AstrayInv(db, t, astray);
      CountedOf(db, m, t, astray);
      RewriteMail(db, m, v, -1, astray);
    } else {
      ResumeInv(db, t, m, r.conversation + [Reply(r.waitingTool.value)], Some(m), d, now, astray);
      KeepsWider(db, Resume(db, t, m, r.conversation + [Reply(r.waitingTool.value)], Some(m), d, now).db, {}, {m});
    }
  }

  lemma AstrayInv(db: Store, t: Id, astray: set<Id>)
    requires InvBut(db, t, astray) && t in astray
    ensures Inv(db, astray)
  {
    NoOpenAccount(db, t, astray);
  }

  lemma CountedOf(db: Store, m: Id, t: Id, astray: set<Id>)
    requires InvBut(db, t, astray) && m < |db.mails|
    ensures MailCounted(db.mails[m])
  {
  }

  lemma TaskAnswers(db: Store, t: Id, astray: set<Id>)
    requires Inv(db, astray) && t < |db.tasks| && t !in astray
    ensures TaskHolds(db, t)
  {
  }

  lemma ResumedMail(db: Store, t: Id, m: Id, d: Doubt, now: int, astray: set<Id>)
    requires InvBut(db, t, astray) && LiveTask(db, t) && WellPaired(db.tasks[t].conversation) && m < |db.mails| && db.mails[m].task == t
    requires !AwaitsReply(db.mails[m], t)
    ensures var r := Resume(db, t, m, db.tasks[t].conversation, None, d, now);
            r.Go? ==> m < |r.db.mails| && SameMail(db.mails[m], r.db.mails[m]) && r.db.mails[m].attempts == db.mails[m].attempts
                      && !AwaitsReply(r.db.mails[m], t)
  {
    hide InvBut, WellPaired, Terminate, MayTurn;
  }

  lemma RefreshInv(db: Store, t: Id, m: Id, d: Doubt, now: int, astray: set<Id>)
    requires InvBut(db, t, astray) && Proceeding(db, t, astray) && m < |db.mails| && db.mails[m].task == t
    ensures var r := Refresh(db, t, m, d, now);
            && Keeps(db, r.db, {})
            && (r.Halt? ==> Inv(r.db, astray))
            && (r.Go? ==>
                  && InvBut(r.db, t, astray) && Proceeding(r.db, t, astray) && r.db.tasks[t].stopped == db.tasks[t].stopped && m < |r.db.mails|
                  && SameMail(db.mails[m], r.db.mails[m]) && r.db.mails[m].attempts == db.mails[m].attempts
                  && Pledges(r.db, t) == Pledges(db, t) && AwaitsReply(r.db.mails[m], t) == AwaitsReply(db.mails[m], t))
  {
    hide InvBut, Keeps, Pledges, WellPaired, Terminate;
    var c := db.tasks[t].call;
    FitsOf(db, t, astray);
    if db.calls[c].state == Awaiting && db.calls[c].attempts == 0 {
      if d.inputs {
        TerminateInv(db, t, Rejected, Runtime, Some(m), now, astray);
      } else {
        var fed := ConsumeInputs(db, t, db.tasks[t].conversation, None);
        ConsumeInv(db, t, db.tasks[t].conversation, None, astray);
        if d.request {
          TerminateInv(fed, t, Rejected, Runtime, Some(m), now, astray);
          KeepsTransitive(db, fed, Terminate(fed, t, Rejected, Runtime, Some(m), now), {});
        } else {
          var e := fed.calls[c].(request := fed.tasks[t].conversation);
          RewriteCall(fed, c, e, t, astray);
          assert Refresh(db, t, m, d, now).db == SetCall(fed, c, e);
          KeepsTransitive(db, fed, SetCall(fed, c, e), {});
          CallsAside(fed, SetCall(fed, c, e), t);
        }
      }
    } else {
      KeepsSelf(db, {});
    }
  }

  lemma CallsAside(db: Store, db': Store, t: Id)
    requires db' == db.(calls := db'.calls)
    ensures Pledges(db', t) == Pledges(db, t)
  {
  }

  /** The change one lease makes, seen from every other row. */
  ghost predicate Takes(db: Store, db': Store, m: Id) {
    && m < |db.mails| <= |db'.mails| && |db.tasks| <= |db'.tasks| && |db.calls| <= |db'.calls|
    && (forall t :: 0 <= t < |db.tasks| ==> TaskKeeps(db.tasks[t], db'.tasks[t]))
    && (forall k :: 0 <= k < |db.mails| && k != m ==> MailKeeps(db.mails[k], db'.mails[k], false))
    && SameMail(db.mails[m], db'.mails[m]) && db'.mails[m].state == Leased && db'.mails[m].attempts == db.mails[m].attempts + 1
    && (forall k :: |db.mails| <= k < |db'.mails| ==> NewMailOk(db'.mails[k]))
    && (forall c :: 0 <= c < |db.calls| ==> db'.calls[c].task == db.calls[c].task)
    && |db'.systems| == |db.systems| && (forall s :: 0 <= s < |db.systems| ==> db'.systems[s].maxActive == db.systems[s].maxActive)
    && db'.receipts == db.receipts
  }

  /** No delivery to the agent is leased. */
  predicate Unleased(db: Store, a: Id) {
    forall n :: 0 <= n < |db.mails| && db.mails[n].agent == a ==> db.mails[n].state != Leased
  }

  lemma KeepsUnleased(db: Store, db': Store, a: Id, open: set<Id>)
    requires Keeps(db, db', open) && Unleased(db, a)
    ensures Unleased(db', a)
  {
    forall n | 0 <= n < |db'.mails| && db'.mails[n].agent == a ensures db'.mails[n].state != Leased {
      if n < |db.mails| { assert MailKeeps(db.mails[n], db'.mails[n], n in open); }
    }
  }

  lemma LeaseMailInv(db: Store, t: Id, m: Id, astray: set<Id>)
    requires InvBut(db, t, astray) && Proceeding(db, t, astray) && m < |db.mails| && db.mails[m].task == t && db.mails[m].attempts < MAX_DELIVERIES
    requires Unleased(db, db.mails[m].agent)
    ensures var v := db.mails[m].(state := Leased, attempts := db.mails[m].attempts + 1, applied := true);
            var db' := SetMail(db, m, v);
            && InvBut(db', t, astray) && Pledges(db', t) == Pledges(db, t) - (if AwaitsReply(db.mails[m], t) then 1 else 0)
  {
    hide Pledges, SystemLoad, GoalLoad, Shape;
    var v := db.mails[m].(state := Leased, attempts := db.mails[m].attempts + 1, applied := true);
    var db' := SetMail(db, m, v);
    MailShape(db, m, v);
    forall k: Id ensures SystemLoad(db', k) <= MAX_SYSTEM_EVENTS && GoalLoad(db', k) <= MAX_GOAL_EVENTS { MailSums(db, m, v, k); }
    forall k | 0 <= k < |db'.tasks| && k != t && k !in astray ensures PledgeHolds(db', k) && TaskWaits(db', k) {
      assert PledgeHolds(db, k) && TaskWaits(db, k);
      MailSums(db, m, v, k);
    }
    MailSums(db, m, v, t);
  }

  lemma LeaseInv(db: Store, t: Id, m: Id, astray: set<Id>)
    requires InvBut(db, t, astray) && Proceeding(db, t, astray) && m < |db.mails| && db.mails[m].task == t && db.mails[m].attempts < MAX_DELIVERIES
    requires Unleased(db, db.mails[m].agent)
    requires t in astray || Pledges(db, t) == if AwaitsReply(db.mails[m], t) then 1 else 0
    ensures Inv(Lease(db, t, m), astray) && Takes(db, Lease(db, t, m), m)
  {
    hide InvBut, Pledges, WellPaired;
    var v := db.mails[m].(state := Leased, attempts := db.mails[m].attempts + 1, applied := true);
    var mailed := SetMail(db, m, v);
    var r := db.tasks[t].(phase := Running);
    var db' := Lease(db, t, m);
    LeaseMailInv(db, t, m, astray);
    FitsOf(mailed, t, astray);
    ReplaceTask(mailed, t, r, astray);
    assert db' == SetTask(mailed, t, r);
    if t !in astray { OngoingHolds(db', t); }
    NoOpenAccount(db', t, astray);
  }

  lemma KeepsTakes(a: Store, b: Store, c: Store, m: Id)
    requires Keeps(a, b, {m}) && Takes(b, c, m) && m < |a.mails|
    ensures Takes(a, c, m)
  {
    forall t | 0 <= t < |a.tasks| ensures TaskKeeps(a.tasks[t], c.tasks[t]) {
      assert TaskKeeps(a.tasks[t], b.tasks[t]) && TaskKeeps(b.tasks[t], c.tasks[t]);
    }
    forall k | 0 <= k < |a.mails| && k != m ensures MailKeeps(a.mails[k], c.mails[k], false) {
      assert MailKeeps(a.mails[k], b.mails[k], false) && MailKeeps(b.mails[k], c.mails[k], false);
    }
    assert MailKeeps(a.mails[m], b.mails[m], true);
    forall k | |a.mails| <= k < |c.mails| ensures NewMailOk(c.mails[k]) {
      if k < |b.mails| { assert MailKeeps(b.mails[k], c.mails[k], false) && NewMailOk(b.mails[k]); }
    }
  }

  lemma DeliverInv(db: Store, t: Id, m: Id, d: Doubt, now: int, astray: set<Id>)
    requires Inv(db, astray) && Deliverable(db, t, m) && (t in astray || Awaited(db, t, m)) && Unleased(db, db.mails[m].agent)
    ensures match Deliver(db, t, m, d, now)
            case Passed(db') => Inv(db', astray) && Keeps(db, db', {m})
            case Leasing(db') => Inv(db', astray) && Takes(db, db', m)
  {
    hide InvBut, Keeps, Pledges, WellPaired, Terminate, ApplyMail, Refresh, Lease, Unleased, Takes, Ongoing;
    var applied := ApplyMail(db, t, m, d, now);
    ApplyMailInv(db, t, m, d, now, astray);
    if applied.Go? {
      if d.blocked {
        var ended := Terminate(applied.db, t, Rejected, Runtime, Some(m), now);
        TerminateInv(applied.db, t, Rejected, Runtime, Some(m), now, astray);
        KeepsWider(applied.db, ended, {}, {m});
        KeepsTransitive(db, applied.db, ended, {m});
      } else {
        var asked := Refresh(applied.db, t, m, d, now);
        RefreshInv(applied.db, t, m, d, now, astray);
        KeepsWider(applied.db, asked.db, {}, {m});
        KeepsTransitive(db, applied.db, asked.db, {m});
        if asked.Go? {
          KeepsUnleased(db, asked.db, db.mails[m].agent, {m});
          LeaseInv(asked.db, t, m, astray);
          KeepsTakes(db, asked.db, Lease(asked.db, t, m), m);
        }
      }
    }
  }

  lemma MailTaskOf(db: Store, m: Id, astray: set<Id>)
    requires Inv(db, astray) && m < |db.mails|
    ensures db.mails[m].task < |db.tasks| && db.mails[m].agent == db.tasks[db.mails[m].task].agent
    ensures MailCounted(db.mails[m])
  {
    assert MailFits(db, m);
  }

  /** Dead letters: the task, if it is still alive, ends with its delivery. */
  lemma DropInv(db: Store, m: Id, outcome: Outcome, now: int, astray: set<Id>)
    requires Inv(db, astray) && m < |db.mails| && db.mails[m].state != Leased
    ensures var t := db.mails[m].task;
            var db' := Terminate(SetMail(db, m, db.mails[m].(state := Dead)), t, outcome, Runtime, Some(m), now);
            Inv(db', astray) && Keeps(db, db', {m})
  {
    hide InvBut, Keeps, Pledges, Terminate, AwaitsReply;
    var t := db.mails[m].task;
    var v := db.mails[m].(state := Dead);
    var dropped := SetMail(db, m, v);
    MailTaskOf(db, m, astray);
    RewriteMail(db, m, v, -1, astray);
    TerminateInv(dropped, t, outcome, Runtime, Some(m), now, astray);
    KeepsWider(dropped, Terminate(dropped, t, outcome, Runtime, Some(m), now), {}, {m});
    KeepsTransitive(db, dropped, Terminate(dropped, t, outcome, Runtime, Some(m), now), {m});
  }

  lemma AckProgress(db: Store, m: Id, astray: set<Id>)
    requires Inv(db, astray) && m < |db.mails| && db.mails[m].state != Leased && db.mails[m].kind == Progress
    ensures var db' := SetMail(db, m, db.mails[m].(state := Acked, applied := true)); Inv(db', astray) && Keeps(db, db', {m})
  {
    hide InvBut, Keeps, Pledges;
    MailTaskOf(db, m, astray);
    RewriteMail(db, m, db.mails[m].(state := Acked, applied := true), -1, astray);
  }

  /** The candidate passes every gate and is delivered. */
  predicate Reached(db: Store, active: map<Id, Activation>, m: Id, now: int)
    requires CandidateRow(db, m)
  {
    var v, t := db.mails[m], db.mails[m].task;
    var r := db.tasks[t];
    && r.agent !in active && Live(r) && !StoppedFor(db, t) && !Overdue(v, now) && v.attempts < MAX_DELIVERIES
    && StateOf(db, r.system) == SystemState.Active && SwitchOf(db, r.agent) == On && ControlOf(db, r.goal) == On
    && |ActiveIn(active, r.system)| < MaxActive(db, r.system) && v.kind != Progress
    && !(r.phase == Waiting && r.waitingTool.Some? && !v.kind.Result?)
  }

  /** The guard under which a claim leads the candidate's task astray. */
  predicate MeetsStale(db: Store, active: map<Id, Activation>, m: Id, d: Doubt, now: int)
    requires CandidateRow(db, m)
  {
    Reached(db, active, m, now) && Stale(db, m) && !d.blocked
  }

  lemma SystemOf(db: Store, m: Id, astray: set<Id>)
    requires Inv(db, astray) && m < |db.mails|
    ensures db.mails[m].task < |db.tasks| && db.mails[m].system == db.tasks[db.mails[m].task].system
  {
    assert MailFits(db, m);
  }

  /** A stale reply for a task whose definition is blocked ends the task like any other delivery. */
  lemma StaleBlocked(db: Store, t: Id, m: Id, d: Doubt, now: int, astray: set<Id>)
    requires Inv(db, astray) && t !in astray && LiveTask(db, t) && m < |db.mails| && db.mails[m].task == t && Stale(db, m) && d.blocked
    ensures Deliver(db, t, m, d, now) == Passed(Terminate(db, t, Rejected, Runtime, Some(m), now))
    ensures var db' := Terminate(db, t, Rejected, Runtime, Some(m), now); Inv(db', astray) && Keeps(db, db', {m})
  {
    hide Terminate, Keeps;
    assert TaskWaits(db, t);
    OneExcepted(db, t, astray);
    TerminateInv(db, t, Rejected, Runtime, Some(m), now, astray);
    KeepsWider(db, Terminate(db, t, Rejected, Runtime, Some(m), now), {}, {m});
  }

  /** One candidate: whatever the world answers, everything is kept unless a stale reply is leased to a task
      that was still in order. */
  lemma ConsiderInv(db: Store, active: map<Id, Activation>, m: Id, d: Doubt, now: int, astray: set<Id>)
    requires Inv(db, astray) && OfferedMail(db, m)
    requires MeetsStale(db, active, m, d, now) ==> db.mails[m].task in astray
    ensures match Consider(db, active, m, d, now)
            case Passed(db') => Inv(db', astray) && Keeps(db, db', {m})
            case Leasing(db') => Inv(db', astray) && Takes(db, db', m) && db.mails[m].agent !in active
                                 && |ActiveIn(active, db.mails[m].system)| < MaxActive(db, db.mails[m].system)
  {
    hide InvBut, Keeps, Pledges, Terminate, Deliver, Takes, Unleased;
    KeepsSelf(db, {m});
    var t := db.mails[m].task;
    MailTaskOf(db, m, astray);
    assert db.mails[m].system == db.tasks[t].system by { SystemOf(db, m, astray); }
    DropInv(db, m, if StoppedFor(db, t) then Canceled else Failed, now, astray);
    if db.mails[m].kind == Progress { AckProgress(db, m, astray); }
    if Reached(db, active, m, now) {
      if t !in astray && Stale(db, m) {
        StaleBlocked(db, t, m, d, now, astray);
      } else {
        if t !in astray { TaskAnswers(db, t, astray); }
        DeliverInv(db, t, m, d, now, astray);
      }
    }
  }

  // ----- the whole claim -----

  /** What the remaining candidates of a claim satisfy while nothing has been leased. */
  ghost predicate Offered(db: Store, ids: seq<Id>) {
    && Distinct(ids)
    && forall i :: 0 <= i < |ids| ==> OfferedMail(db, ids[i])
  }

  predicate OfferedMail(db: Store, m: Id) {
    && CandidateRow(db, m) && db.mails[m].state != Leased && Unleased(db, db.mails[m].agent)
    && (db.mails[m].state == Pending || db.mails[m].kind == Input || !Live(db.tasks[db.mails[m].task]))
  }

  lemma OfferedStays(db: Store, db': Store, m: Id, open: set<Id>)
    requires Keeps(db, db', open) && m !in open && OfferedMail(db, m)
    ensures OfferedMail(db', m)
  {
    assert MailKeeps(db.mails[m], db'.mails[m], false) && NotLost(db.mails[m], db'.mails[m], db'.tasks);
    assert TaskKeeps(db.tasks[db.mails[m].task], db'.tasks[db.mails[m].task]);
    KeepsUnleased(db, db', db.mails[m].agent, open);
  }

  /** A claim's effect on the store and the activations: nothing is leased, or exactly the delivery that
      the new activation holds. `open` are its candidates. */
  ghost predicate Claimed(r: Daemon, r': Daemon, open: set<Id>) {
    || (r'.active == r.active && Keeps(r.db, r'.db, open))
    || (exists m: Id ::
          && m in open && m < |r.db.mails| && r.db.mails[m].agent !in r.active
          && r'.active == r.active[r.db.mails[m].agent := Activation(r.db.mails[m].system, m, r.db.mails[m].task, NewCall(r'.db, r.db.mails[m].task))]
          && |ActiveIn(r.active, r.db.mails[m].system)| < MaxActive(r.db, r.db.mails[m].system)
          && TakesOpen(r.db, r'.db, m, open))
  }

  function NewCall(db: Store, t: Id): Id { if t < |db.tasks| then db.tasks[t].call else 0 }

  /** Taking one delivery after passing over others. */
  ghost predicate TakesOpen(db: Store, db': Store, m: Id, open: set<Id>) {
    exists mid: Store :: Keeps(db, mid, open) && Takes(mid, db', m)
  }

  /** The tasks a claim leads astray: those whose stale reply gets past every gate. */
  function Misled(r: Daemon, ids: seq<Id>, doubts: Id -> Doubt, now: int): set<Id>
    decreases |ids|
  {
    if ids == [] then {}
    else if !CandidateRow(r.db, ids[0]) then Misled(r, ids[1..], doubts, now)
    else
      var one := if MeetsStale(r.db, r.active, ids[0], doubts(ids[0]), now) then {r.db.mails[ids[0]].task} else {};
      match Consider(r.db, r.active, ids[0], doubts(ids[0]), now)
      case Passed(db) => one + Misled(r.(db := db), ids[1..], doubts, now)
      case Leasing(_) => one
  }

  lemma {:induction false} ClaimFromInv(r: Daemon, ids: seq<Id>, doubts: Id -> Doubt, now: int, open: set<Id>, astray: set<Id>)
    requires Inv(r.db, astray) && Offered(r.db, ids) && forall i :: 0 <= i < |ids| ==> ids[i] in open
    requires Misled(r, ids, doubts, now) <= astray
    requires forall m :: m in open ==> m < |r.db.mails|
    ensures var r' := ClaimFrom(r, ids, doubts, now);
            Inv(r'.db, astray) && Claimed(r, r', open) && r'.down == r.down && r'.plans == r.plans
    decreases |ids|
  {
    hide InvBut, Keeps, Consider, Takes, OfferedMail, MeetsStale, Unleased;
    if ids == [] {
      KeepsSelf(r.db, open);
    } else {
      var m := ids[0];
      OfferedRow(r.db, m);
      ConsiderInv(r.db, r.active, m, doubts(m), now, astray);
      match Consider(r.db, r.active, m, doubts(m), now)
      case Passed(db) =>
        forall i | 0 <= i < |ids[1..]| ensures OfferedMail(db, ids[1..][i]) {
          assert ids[1..][i] == ids[i + 1];
          OfferedStays(r.db, db, ids[i + 1], {m});
        }
        KeptRow(r.db, db, m, {m});
        ClaimFromInv(r.(db := db), ids[1..], doubts, now, open, astray);
        KeepsWider(r.db, db, {m}, open);
        ClaimedAfter(r, db, ClaimFrom(r.(db := db), ids[1..], doubts, now), open);
      case Leasing(db) =>
        TakenRow(r.db, db, m, astray);
        KeepsSelf(r.db, open);
        assert TakesOpen(r.db, db, m, open);
    }
  }

  lemma OfferedRow(db: Store, m: Id)
    requires OfferedMail(db, m)
    ensures CandidateRow(db, m) && db.mails[m].state != Leased && Unleased(db, db.mails[m].agent)
    ensures db.mails[m].state == Pending || db.mails[m].kind == Input || !Live(db.tasks[db.mails[m].task])
  {
  }

  lemma TakenRow(db: Store, db': Store, m: Id, astray: set<Id>)
    requires Inv(db', astray) && Takes(db, db', m)
    ensures m < |db'.mails| && SameMail(db.mails[m], db'.mails[m]) && db'.mails[m].task < |db'.tasks|
  {
    assert MailFits(db', m);
  }

  lemma KeptRow(db: Store, db': Store, m: Id, open: set<Id>)
    requires Keeps(db, db', open) && m < |db.mails|
    ensures m < |db'.mails| && |db.mails| <= |db'.mails| && SameMail(db.mails[m], db'.mails[m])
    ensures db'.mails[m].attempts == db.mails[m].attempts
    ensures db.mails[m].task < |db.tasks| ==> db.mails[m].task < |db'.tasks|
    ensures MaxActive(db', db.mails[m].system) == MaxActive(db, db.mails[m].system)
  {
    assert MailKeeps(db.mails[m], db'.mails[m], m in open);
  }

  lemma ClaimedAfter(r: Daemon, db: Store, r': Daemon, open: set<Id>)
    requires Keeps(r.db, db, open) && Claimed(r.(db := db), r', open) && forall m :: m in open ==> m < |r.db.mails|
    ensures Claimed(r, r', open)
  {
    hide Takes;
    var r1 := r.(db := db);
    if r'.active == r1.active && Keeps(db, r'.db, open) {
      KeepsTransitive(r.db, db, r'.db, open);
    } else {
      var m: Id :| && m in open && m < |db.mails| && db.mails[m].agent !in r.active
          && r'.active == r.active[db.mails[m].agent := Activation(db.mails[m].system, m, db.mails[m].task, NewCall(r'.db, db.mails[m].task))]
          && |ActiveIn(r.active, db.mails[m].system)| < MaxActive(db, db.mails[m].system)
          && TakesOpen(db, r'.db, m, open);
      var mid: Store :| Keeps(db, mid, open) && Takes(mid, r'.db, m);
      KeepsTransitive(r.db, db, mid, open);
      KeptRow(r.db, db, m, open);
      assert TakesOpen(r.db, r'.db, m, open);
    }
  }
}
