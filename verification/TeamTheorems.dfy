/** What holds in every state of every run of the delivery protocol, and exactly when a claim breaks it. */
module TeamTheorems {
  import opened Common
  import opened Sums
  import opened Team
  import opened Mailbox
  import opened TeamSteps
  import opened TeamInvariant
  import opened TaskEnds
  import opened Rewrites
  import opened Turns
  import opened ToolCalls
  import opened DeliverClaim
  import opened DeliverRestart
  import opened TeamRuns
  import opened EventRows

  const BOOT := Daemon(EMPTY, map[], {}, false)

  /** Any interleaving of transactions, worker reports, clock readings, commands and crashes. */
  ghost predicate IsRun(states: seq<Daemon>, steps: seq<Step>) {
    && |states| == |steps| + 1 && states[0] == BOOT
    && (forall i :: 0 <= i < |steps| ==> Sensible(states[i], steps[i]))
    && (forall i :: 0 <= i < |steps| ==> states[i + 1] == Next(states[i], steps[i]))
  }

  /** The tasks that claims led astray before a moment of a run. */
  function Astray(states: seq<Daemon>, steps: seq<Step>, i: nat): set<Id>
    requires i <= |steps| <= |states|
  {
    if i == 0 then {} else Astray(states, steps, i - 1) + Led(states[i - 1], steps[i - 1])
  }

  lemma BootInv()
    ensures DaemonInv(BOOT, {}) && Clear(BOOT, {})
  {
    EmptyInv({});
  }

  lemma DaemonWider(r: Daemon, astray: set<Id>, more: set<Id>)
    requires DaemonInv(r, astray) && astray <= more
    ensures DaemonInv(r, more)
  {
    hide InvBut;
    InvWider(r.db, astray, more);
  }

  /** In every state of every run everything holds for all tasks that no claim led astray. */
  lemma {:induction false} RunInv(states: seq<Daemon>, steps: seq<Step>, i: nat)
    requires IsRun(states, steps) && i <= |steps|
    ensures DaemonInv(states[i], Astray(states, steps, i))
  {
    hide Inv, Next, Sensible, Led;
    if i == 0 {
      BootInv();
    } else {
      RunInv(states, steps, i - 1);
      DaemonWider(states[i - 1], Astray(states, steps, i - 1), Astray(states, steps, i));
      StepInv(states[i - 1], steps[i - 1], Astray(states, steps, i));
    }
  }

  lemma {:induction false} RunHistory(states: seq<Daemon>, steps: seq<Step>, i: nat, j: nat)
    requires IsRun(states, steps) && i <= j <= |steps|
    ensures MailHistory(states[i].db, states[j].db) && ReceiptHistory(states[i].db, states[j].db)
  {
    hide DaemonInv, Next, Sensible, Led, MailHistory;
    if i == j {
      MailHistorySelf(states[i].db);
    } else {
      RunHistory(states, steps, i, j - 1);
      RunInv(states, steps, j - 1);
      DaemonWider(states[j - 1], Astray(states, steps, j - 1), Astray(states, steps, j));
      StepInv(states[j - 1], steps[j - 1], Astray(states, steps, j));
      MailHistoryTransitive(states[i].db, states[j - 1].db, states[j].db);
    }
  }

  /** Reserved reply capacity: events and live tasks together never exceed either budget. */
  lemma CapacityTheorem(states: seq<Daemon>, steps: seq<Step>, i: nat, s: Id, g: Id)
    requires IsRun(states, steps) && i <= |steps|
    ensures var db := states[i].db;
            |EventsOf(db, s)| + |LiveTasks(db, s)| <= 4096 && |GoalEvents(db, g)| + |LiveGoalTasks(db, g)| <= 256
  {
    hide RestBut, Holding, Planned, Sensible, Next, Led;
    RunInv(states, steps, i);
    MailCounts(states[i].db, s, g, 0, Runtime, 0, 0);
    TaskCounts(states[i].db, s, g, 0, 0);
    assert SystemLoad(states[i].db, s) <= MAX_SYSTEM_EVENTS && GoalLoad(states[i].db, g) <= MAX_GOAL_EVENTS;
  }

  /** The delegates of a task that still work, and the reports of delegates that it has not seen. */
  function Delegates(db: Store, t: Id): set<Id> { set k: Id | k < |db.tasks| && db.tasks[k].parent == Some(t) && !db.tasks[k].evaluation && !db.tasks[k].phase.Done? }

  function Replies(db: Store, t: Id): set<Id> {
    set m: Id | m < |db.mails| && db.mails[m].task == t && db.mails[m].kind.Result? && db.mails[m].state == Pending && !db.mails[m].applied
  }

  /** No orphaned waiter: a live task that nobody stopped or led astray and that waits on a delegation has
      exactly one live delegate and no undelivered reply, or no live delegate and exactly one undelivered
      reply; any other such task has neither. */
  lemma WaiterTheorem(states: seq<Daemon>, steps: seq<Step>, i: nat, t: Id)
    requires IsRun(states, steps) && i <= |steps| && LiveTask(states[i].db, t) && !states[i].db.tasks[t].stopped
    requires t !in Astray(states, steps, i)
    ensures var db := states[i].db;
            var delegates, replies := |Delegates(db, t)|, |Replies(db, t)|;
            if db.tasks[t].waitingTool.Some? then db.tasks[t].phase == Waiting && ((delegates == 1 && replies == 0) || (delegates == 0 && replies == 1))
            else delegates == 0 && replies == 0
  {
    hide Shape, Reserve, Deliveries, Requests, Holding, Planned, Sensible, Next, Led;
    RunInv(states, steps, i);
    var db := states[i].db;
    assert PledgeHolds(db, t) && TaskWaits(db, t);
    SumCounts(db.tasks, DelegateOf(t), Delegates(db, t));
    SumCounts(db.mails, ReplyTo(t), Replies(db, t));
  }

  /** Conversation integrity: in every live task that no claim led astray each tool call is followed at once
      by its answer, except a last one exactly when the task waits on that tool, and every request ever
      built for such a task is well formed. */
  lemma ConversationTheorem(states: seq<Daemon>, steps: seq<Step>, i: nat)
    requires IsRun(states, steps) && i <= |steps|
    ensures var db, astray := states[i].db, Astray(states, steps, i);
            && (forall t :: 0 <= t < |db.tasks| && t !in astray ==> TaskTalks(db.tasks[t]))
            && (forall c :: 0 <= c < |db.calls| && db.calls[c].task !in astray ==> WellPaired(db.calls[c].request))
  {
    RunInv(states, steps, i);
  }

  /** Delivery discipline: a delivery goes to its task's agent, is leased at most three times in its whole
      life, and never together with another one of the same agent; every activation holds a leased
      delivery, and no system has more activations than its limit. */
  lemma DeliveryTheorem(states: seq<Daemon>, steps: seq<Step>, i: nat)
    requires IsRun(states, steps) && i <= |steps|
    ensures var db := states[i].db;
            && (forall m :: 0 <= m < |db.mails| ==>
                 db.mails[m].task < |db.tasks| && db.mails[m].agent == db.tasks[db.mails[m].task].agent && db.mails[m].attempts <= 3)
            && (forall m, n :: 0 <= m < n < |db.mails| && db.mails[m].agent == db.mails[n].agent ==>
                 !(db.mails[m].state == Leased && db.mails[n].state == Leased))
            && (forall a :: a in states[i].active ==> Holds(db, a, states[i].active[a]))
            && (forall s :: 0 <= s < |db.systems| ==> |ActiveIn(states[i].active, s)| <= db.systems[s].maxActive)
  {
    RunInv(states, steps, i);
    var db := states[i].db;
    forall m | 0 <= m < |db.mails|
      ensures db.mails[m].task < |db.tasks| && db.mails[m].agent == db.tasks[db.mails[m].task].agent && db.mails[m].attempts <= MAX_DELIVERIES
    {
      assert MailFits(db, m) && MailCounted(db.mails[m]);
    }
  }

  /** A delivery that was acknowledged or dropped stays exactly as it is, and lease counts are never taken
      back, whatever happens later, restarts included. */
  lemma FinalityTheorem(states: seq<Daemon>, steps: seq<Step>, i: nat, j: nat, m: Id)
    requires IsRun(states, steps) && i <= j <= |steps| && m < |states[i].db.mails|
    ensures m < |states[j].db.mails| && states[i].db.mails[m].attempts <= states[j].db.mails[m].attempts
    ensures Final(states[i].db.mails[m]) ==> states[j].db.mails[m] == states[i].db.mails[m]
  {
    RunHistory(states, steps, i, j);
    assert MailAges(states[i].db.mails[m], states[j].db.mails[m]);
  }

  lemma GoalBounded(db: Store, g: Id)
    ensures |GoalEvents(db, g)| == Sum(db.mails, MailInGoal(g))
  {
    MailCounts(db, 0, g, 0, Runtime, 0, 0);
  }

  function ActivationsIn(g: Id): Mail -> int { (v: Mail) => if v.goal == g then v.attempts else 0 }

  /** A bounded goal is delivered at most 256 events, so its tasks are activated at most 3 * 256 times. */
  lemma BoundedGoalTheorem(states: seq<Daemon>, steps: seq<Step>, i: nat, g: Id)
    requires IsRun(states, steps) && i <= |steps|
    ensures |GoalEvents(states[i].db, g)| <= 256 && Sum(states[i].db.mails, ActivationsIn(g)) <= 3 * 256
  {
    RunInv(states, steps, i);
    var db := states[i].db;
    GoalBounded(db, g);
    assert GoalLoad(db, g) <= MAX_GOAL_EVENTS;
    SumNonnegative(db.tasks, LiveInGoal(g));
    forall m | 0 <= m < |db.mails| ensures ActivationsIn(g)(db.mails[m]) <= MAX_DELIVERIES * MailInGoal(g)(db.mails[m]) {
      assert MailCounted(db.mails[m]);
    }
    SumScaled(db.mails, db.mails, ActivationsIn(g), MailInGoal(g), MAX_DELIVERIES);
  }

  /** Receipts: one is never taken back, and an outcome that was recorded stands, restarts included. */
  lemma ReceiptTheorem(states: seq<Daemon>, steps: seq<Step>, i: nat, j: nat, c: Id)
    requires IsRun(states, steps) && i <= j <= |steps| && c in states[i].db.receipts
    ensures c in states[j].db.receipts
    ensures states[i].db.receipts[c] != Begun ==> states[j].db.receipts[c] == states[i].db.receipts[c]
  {
    RunHistory(states, steps, i, j);
  }

  lemma EffectLeavesReceipt(r: Daemon, a: Id, tool: Tool, now: int, astray: set<Id>)
    requires DaemonInv(r, astray) && PrepareTool(r, a, tool, now) != r
    ensures a in r.active && r.active[a].call in PrepareTool(r, a, tool, now).db.receipts
  {
    hide InvBut, Holding, PrepareTool, NoNewWaits, MailsKeep;
    PrepareToolInv(r, a, tool, now, astray);
  }

  lemma ReceiptBars(r: Daemon, a: Id, tool: Tool, now: int)
    requires a in r.active && r.active[a].call in r.db.receipts
    ensures PrepareTool(r, a, tool, now) == r
  {
    hide Handle;
  }

  /** A call's tool takes effect at most once in a whole run, whatever crashes, replays and retries do. */
  lemma ToolTheorem(states: seq<Daemon>, steps: seq<Step>, i: nat, j: nat)
    requires IsRun(states, steps) && i < j < |steps| && steps[i].DoPrepareTool? && steps[j].DoPrepareTool?
    requires states[i + 1] != states[i]
    requires var a, b := steps[i].agent, steps[j].agent;
             a in states[i].active && b in states[j].active && states[i].active[a].call == states[j].active[b].call
    ensures states[j + 1] == states[j]
  {
    hide DaemonInv, PrepareTool, Sensible, Led;
    RunInv(states, steps, i);
    EffectLeavesReceipt(states[i], steps[i].agent, steps[i].tool, steps[i].now, Astray(states, steps, i));
    ReceiptTheorem(states, steps, i + 1, j, states[i].active[steps[i].agent].call);
    ReceiptBars(states[j], steps[j].agent, steps[j].tool, steps[j].now);
  }

  // ----- exactly when a claim leads a task astray -----

  lemma StaleVerdict(db: Store, t: Id, m: Id, d: Doubt, now: int, astray: set<Id>)
    requires Inv(db, astray) && t !in astray && LiveTask(db, t) && m < |db.mails| && db.mails[m].task == t && Stale(db, m) && !d.blocked
    ensures Deliver(db, t, m, d, now) == Leasing(Lease(db, t, m))
  {
    hide Terminate;
    assert TaskWaits(db, t);
  }

  /** The task runs while its tool call is still open: its conversation is broken. */
  predicate Broken(db: Store, t: Id) {
    t < |db.tasks| && db.tasks[t].phase == Running && !TaskWaits(db, t) && !TaskTalks(db.tasks[t].(waitingTool := None))
  }

  lemma BrokenNotInv(db: Store, t: Id, astray: set<Id>)
    requires Broken(db, t) && t !in astray
    ensures !Inv(db, astray)
  {
  }

  lemma StaleLeaseBreaks(db: Store, t: Id, m: Id, astray: set<Id>)
    requires Inv(db, astray) && t !in astray && LiveTask(db, t) && m < |db.mails| && db.mails[m].task == t && db.tasks[t].waitingTool.Some?
    ensures Broken(Lease(db, t, m), t)
  {
    hide Shape, Reserve, Deliveries, Pledges;
    var db' := Lease(db, t, m);
    assert !TaskWaits(db', t);
    assert TaskTalks(db.tasks[t]);
    var c := db'.tasks[t].conversation;
    assert c[|c| - 1] == Assistant(Some(db.tasks[t].waitingTool.value));
    assert !WellPaired(c);
  }

  /** Exactly when claiming a delivery of a task that is in order keeps it in order: unless the delivery gets
      past every gate, its task waits on a tool, the delivery is a reply that was applied before, and the
      task's definition is not blocked. Then the reply is leased and the conversation broken at once. */
  lemma ClaimExactly(db: Store, active: map<Id, Activation>, m: Id, d: Doubt, now: int, astray: set<Id>)
    requires Inv(db, astray) && OfferedMail(db, m) && db.mails[m].task !in astray
    ensures var verdict := Consider(db, active, m, d, now);
            && (Inv(verdict.db, astray) <==> !MeetsStale(db, active, m, d, now))
            && (MeetsStale(db, active, m, d, now) ==> verdict.Leasing? && Broken(verdict.db, db.mails[m].task))
  {
    hide Terminate, Deliver, Lease, Keeps, Takes, InvBut, Pledges, Broken;
    if MeetsStale(db, active, m, d, now) {
      var t := db.mails[m].task;
      StaleVerdict(db, t, m, d, now, astray);
      StaleLeaseBreaks(db, t, m, astray);
      BrokenNotInv(Lease(db, t, m), t, astray);
    } else {
      ConsiderInv(db, active, m, d, now, astray);
    }
  }

  /** A whole claim breaks a task that it leads astray. */
  lemma {:induction false} ClaimBreaks(r: Daemon, ids: seq<Id>, doubts: Id -> Doubt, now: int, astray: set<Id>) returns (t: Id)
    requires Inv(r.db, astray) && Offered(r.db, ids) && !(Misled(r, ids, doubts, now) <= astray)
    ensures t !in astray && Broken(ClaimFrom(r, ids, doubts, now).db, t)
    decreases |ids|
  {
    hide InvBut, Keeps, Consider, Takes, OfferedMail, MeetsStale, Unleased, Broken;
    var m := ids[0];
    OfferedRow(r.db, m);
    if MeetsStale(r.db, r.active, m, doubts(m), now) && r.db.mails[m].task !in astray {
      t := r.db.mails[m].task;
      ClaimExactly(r.db, r.active, m, doubts(m), now, astray);
    } else {
      ConsiderInv(r.db, r.active, m, doubts(m), now, astray);
      var db := Consider(r.db, r.active, m, doubts(m), now).db;
      forall i | 0 <= i < |ids[1..]| ensures OfferedMail(db, ids[1..][i]) {
        assert ids[1..][i] == ids[i + 1];
        OfferedStays(r.db, db, ids[i + 1], {m});
      }
      t := ClaimBreaks(r.(db := db), ids[1..], doubts, now, astray);
    }
  }

  /** Exactly which steps keep the invariant: all but claims that lead a task astray. */
  lemma StepExactly(r: Daemon, step: Step, astray: set<Id>)
    requires DaemonInv(r, astray) && Sensible(r, step)
    ensures Inv(Next(r, step).db, astray) <==> Led(r, step) <= astray
  {
    hide InvBut, Holding, Misled, ClaimFrom, Broken, Clear, MailHistory, ReceiptHistory, Lingers;
    if Led(r, step) <= astray {
      StepInv(r, step, astray);
    } else {
      OfferedAtStart(r, step.list, step.now);
      var t := ClaimBreaks(r, step.list, step.doubts, step.now, astray);
      var claimed := ClaimFrom(r, step.list, step.doubts, step.now);
      SweepBroken(claimed.db, t);
      BrokenNotInv(SweepSystems(claimed.db), t, astray);
    }
  }

  lemma SweepBroken(db: Store, t: Id)
    requires Broken(db, t)
    ensures Broken(SweepSystems(db), t)
  {
  }

  /** The protocol holds for every task in every state of a run exactly when no claim of the run leads a
      task astray. */
  lemma RunExactly(states: seq<Daemon>, steps: seq<Step>)
    requires IsRun(states, steps)
    ensures (forall i :: 0 <= i <= |steps| ==> Inv(states[i].db, {})) <==> (forall i :: 0 <= i < |steps| ==> Led(states[i], steps[i]) == {})
  {
    hide Inv, Next, Sensible, Led, Holding;
    if forall i :: 0 <= i < |steps| ==> Led(states[i], steps[i]) == {} {
      forall i | 0 <= i <= |steps| ensures Inv(states[i].db, {}) {
        RunInv(states, steps, i);
        NobodyAstray(states, steps, i);
      }
    }
    if forall i :: 0 <= i <= |steps| ==> Inv(states[i].db, {}) {
      forall i | 0 <= i < |steps| ensures Led(states[i], steps[i]) == {} {
        RunInv(states, steps, i);
        assert Inv(states[i].db, {}) && Inv(states[i + 1].db, {});
        StepExactly(states[i], steps[i], {});
      }
    }
  }

  lemma {:induction false} NobodyAstray(states: seq<Daemon>, steps: seq<Step>, i: nat)
    requires |steps| <= |states| && i <= |steps| && forall k :: 0 <= k < i ==> Led(states[k], steps[k]) == {}
    ensures Astray(states, steps, i) == {}
  {
    hide Led;
    if i > 0 { NobodyAstray(states, steps, i - 1); }
  }

  // ----- what to look at before the claim -----

  /** The step does not make a task wait on a tool while an applied reply to it is pending. */
  ghost predicate Careful(r: Daemon, step: Step) { forall t :: t in WaitsBy(r, step) ==> !Lingers(r.db, t) }

  lemma {:induction false} FreshClaim(r: Daemon, ids: seq<Id>, doubts: Id -> Doubt, now: int)
    requires Inv(r.db, {}) && Offered(r.db, ids) && forall i :: 0 <= i < |ids| ==> Current(r.db, ids[i])
    ensures Misled(r, ids, doubts, now) == {}
    decreases |ids|
  {
    hide InvBut, Keeps, Consider, Takes, OfferedMail, Unleased, Stale;
    if ids != [] {
      var m := ids[0];
      OfferedRow(r.db, m);
      assert Current(r.db, m);
      ConsiderInv(r.db, r.active, m, doubts(m), now, {});
      var db := Consider(r.db, r.active, m, doubts(m), now).db;
      if Consider(r.db, r.active, m, doubts(m), now).Passed? {
        forall i | 0 <= i < |ids[1..]| ensures OfferedMail(db, ids[1..][i]) && Current(db, ids[1..][i]) {
          assert ids[1..][i] == ids[i + 1] && Current(r.db, ids[i + 1]);
          OfferedStays(r.db, db, ids[i + 1], {m});
          OfferedRow(r.db, ids[i + 1]);
          StaysCurrent(r.db, db, ids[i + 1], {m});
        }
        FreshClaim(r.(db := db), ids[1..], doubts, now);
      }
    }
  }

  predicate Current(db: Store, m: Id) { m < |db.mails| && (LiveTask(db, db.mails[m].task) ==> !Stale(db, m)) }

  lemma StaysCurrent(db: Store, db': Store, m: Id, open: set<Id>)
    requires Keeps(db, db', open) && m !in open && CandidateRow(db, m) && Current(db, m)
    ensures Current(db', m)
  {
    assert MailKeeps(db.mails[m], db'.mails[m], false);
    assert TaskKeeps(db.tasks[db.mails[m].task], db'.tasks[db.mails[m].task]);
  }

  /** While nothing stale is pending no claim leads anybody astray. */
  lemma ClearLeadsNobody(r: Daemon, step: Step)
    requires DaemonInv(r, {}) && Clear(r, {}) && Sensible(r, step)
    ensures Led(r, step) == {}
  {
    hide InvBut, Holding, Misled, OfferedMail;
    if step.DoClaim? && !r.down {
      OfferedAtStart(r, step.list, step.now);
      forall i | 0 <= i < |step.list| ensures Current(r.db, step.list[i]) {
        assert Candidate(r.db, step.list[i], step.now);
      }
      FreshClaim(r, step.list, step.doubts, step.now);
    }
  }

  lemma {:induction false} CarefulInv(states: seq<Daemon>, steps: seq<Step>, i: nat)
    requires IsRun(states, steps) && i <= |steps| && forall k :: 0 <= k < |steps| ==> Careful(states[k], steps[k])
    ensures DaemonInv(states[i], {}) && Clear(states[i], {})
  {
    hide Inv, Holding, Next, Sensible, Led, Lingers;
    if i == 0 {
      BootInv();
    } else {
      CarefulInv(states, steps, i - 1);
      ClearLeadsNobody(states[i - 1], steps[i - 1]);
      StepInv(states[i - 1], steps[i - 1], {});
    }
  }

  /** A run leads nobody astray as long as no task delegates while a reply to it that was applied before is
      still pending. */
  lemma CarefulTheorem(states: seq<Daemon>, steps: seq<Step>, i: nat)
    requires IsRun(states, steps) && i <= |steps| && forall k :: 0 <= k < |steps| ==> Careful(states[k], steps[k])
    ensures Astray(states, steps, i) == {} && Inv(states[i].db, {})
  {
    hide Inv, Holding, Next, Sensible, Led;
    forall k | 0 <= k < i ensures Led(states[k], steps[k]) == {} {
      CarefulInv(states, steps, k);
      ClearLeadsNobody(states[k], steps[k]);
    }
    NobodyAstray(states, steps, i);
    CarefulInv(states, steps, i);
  }

  /** Exactly which delegations leave a stale reply behind: those that are accepted while an applied reply to
      their task is pending. */
  lemma DelegationExactly(r: Daemon, step: Step, astray: set<Id>)
    requires DaemonInv(r, astray) && NothingStale(r.db, astray) && !r.down
    requires step.DoPrepareTool? && step.tool.Delegate? && step.agent in r.active && r.active[step.agent].task !in astray
    ensures NothingStale(Next(r, step).db, astray) <==> Next(r, step) == r || !Lingers(r.db, r.active[step.agent].task)
  {
    hide Inv, Holding, NothingStale, Lingers, PrepareTool, MailHistory, ReceiptHistory;
    var t := r.active[step.agent].task;
    if !Lingers(r.db, t) {
      StepInv(r, step, astray);
      SameDown(r, step.agent, step.tool, step.now);
    } else if Next(r, step) != r {
      DelegationLingers(r, step.agent, step.tool, step.now, astray);
    }
  }

  lemma SameDown(r: Daemon, a: Id, tool: Tool, now: int)
    ensures PrepareTool(r, a, tool, now).down == r.down
  {
    hide Handle;
  }

  lemma DelegationLingers(r: Daemon, a: Id, tool: Tool, now: int, astray: set<Id>)
    requires tool.Delegate? && a in r.active && r.active[a].task !in astray && PrepareTool(r, a, tool, now) != r
    requires Lingers(r.db, r.active[a].task)
    ensures !NothingStale(PrepareTool(r, a, tool, now).db, astray)
  {
    hide Refuses;
    var t := r.active[a].task;
    var db' := PrepareTool(r, a, tool, now).db;
    var m :| 0 <= m < |r.db.mails| && LingeringReply(r.db.mails[m], t);
    assert db'.mails[m] == r.db.mails[m] && LiveTask(db', t) && db'.tasks[t].waitingTool.Some?;
    assert Stale(db', m);
  }
}
