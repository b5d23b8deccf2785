/** A run from the empty store in which a claim meets a stale reply, and what follows. */
module TeamFindings {
  import opened Common
  import opened Sums
  import opened Team
  import opened Mailbox
  import opened TeamSteps
  import opened TeamInvariant
  import opened Rewrites
  import opened DeliverClaim
  import opened TeamRuns
  import opened TeamTheorems

  // ----- reaching states -----

  ghost predicate Reachable(r: Daemon) {
    exists states, steps :: IsRun(states, steps) && states[|steps|] == r
  }

  /** Reachable without leading any task astray. */
  ghost predicate InOrder(r: Daemon) {
    exists states, steps :: IsRun(states, steps) && states[|steps|] == r && Blameless(states, steps)
  }

  ghost predicate Blameless(states: seq<Daemon>, steps: seq<Step>)
    requires |steps| <= |states|
  {
    forall i :: 0 <= i < |steps| ==> Led(states[i], steps[i]) == {}
  }

  lemma BootInOrder()
    ensures InOrder(BOOT)
  {
    assert IsRun([BOOT], []) && Blameless([BOOT], []);
  }

  lemma StepReachable(r: Daemon, step: Step)
    requires Reachable(r) && Sensible(r, step)
    ensures Reachable(Next(r, step))
  {
    hide Next, Sensible;
    var states, steps :| IsRun(states, steps) && states[|steps|] == r;
    var states', steps' := states + [Next(r, step)], steps + [step];
    assert IsRun(states', steps') && states'[|steps'|] == Next(r, step);
  }

  lemma StepInOrder(r: Daemon, step: Step)
    requires InOrder(r) && Sensible(r, step) && Led(r, step) == {}
    ensures InOrder(Next(r, step))
  {
    hide Next, Sensible, Led;
    var states, steps :| IsRun(states, steps) && states[|steps|] == r && Blameless(states, steps);
    var states', steps' := states + [Next(r, step)], steps + [step];
    forall i | 0 <= i < |steps'| ensures Led(states'[i], steps'[i]) == {} {
      if i < |steps| { assert states'[i] == states[i] && steps'[i] == steps[i]; }
    }
    assert IsRun(states', steps') && states'[|steps'|] == Next(r, step) && Blameless(states', steps');
  }

  lemma InOrderInv(r: Daemon)
    requires InOrder(r)
    ensures Reachable(r) && Inv(r.db, {})
  {
    hide Inv, Next, Sensible, Led;
    var states, steps :| IsRun(states, steps) && states[|steps|] == r && Blameless(states, steps);
    RunInv(states, steps, |steps|);
    NobodyAstray(states, steps, |steps|);
  }

  lemma {:induction false} SumFew<T>(s: seq<T>, w: T -> int)
    requires forall i :: 0 <= i < |s| ==> 0 <= w(s[i]) <= 1
    ensures 0 <= Sum(s, w) <= |s|
  {
    if s != [] { SumFew(s[..|s| - 1], w); }
  }

  /** A store with a handful of rows refuses nothing. */
  lemma RoomForMail(db: Store, t: Id, kind: Kind, source: Source, cause: Option<Id>, now: int)
    requires t < |db.tasks| && |db.mails| + |db.tasks| < MAX_SOURCE_RATE && Depth(db, cause) <= 4 && now < DeadlineOf(db, db.tasks[t].goal)
    ensures Emit(db, t, kind, source, cause, now) == Some(db.(mails := db.mails + [NewMail(db, t, kind, source, cause, now)]))
  {
    var r := db.tasks[t];
    SumFew(db.mails, MailInSystem(r.system));
    SumFew(db.tasks, LiveInSystem(r.system));
    SumFew(db.mails, MailInGoal(r.goal));
    SumFew(db.tasks, LiveInGoal(r.goal));
    SumFew(db.mails, OpenForAgent(r.agent));
    SumFew(db.tasks, LiveChildOf(t));
    SumFew(db.mails, SentBy(r.system, source, now - MINUTE_MS));
  }

  // ----- the rows -----

  const CALM := Doubt(false, false, false, false)

  function Calm(m: Id): Doubt { CALM }

  const DONE := Finish(false, false, false, false, CALM)

  const CRASHED := Finish(true, false, false, false, CALM)

  function Db(tasks: seq<Task>, calls: seq<Call>, receipts: map<Id, Receipt>, mails: seq<Mail>): Store {
    Store([System(SystemState.Active, 4, 0)], [Goal(0, On, 10000, false)], [Agent(0, None, On), Agent(0, Some(0), On)],
      tasks, calls, receipts, mails)
  }

  function Idling(db: Store): Daemon { Daemon(db, map[], {}, false) }

  function Working(db: Store, a: Id, m: Id, t: Id, c: Id): Daemon { Daemon(db, map[a := Activation(0, m, t, c)], {}, false) }

  function Root(phase: Phase, conversation: seq<Message>, turns: nat, call: Id, tool: Option<Id>): Task {
    Task(0, 0, 0, None, false, phase, false, conversation, turns, call, tool)
  }

  function Helper(phase: Phase, call: Id): Task { Task(0, 0, 1, Some(0), false, phase, false, [User], 1, call, None) }

  function MailOf(t: Id, a: Id, kind: Kind, source: Source, depth: nat, created: int, state: MailState, applied: bool, notBefore: int): Mail {
    Mail(0, 0, t, a, kind, source, depth, created, 10000, state, if applied then 1 else 0, applied, notBefore)
  }

  const DELEGATED := [User, Assistant(Some(7))]
  const ANSWERED := [User, Assistant(Some(7)), Reply(7)]
  const ASKED := [User, Assistant(Some(7)), Reply(7), User]
  const WAITING := [User, Assistant(Some(7)), Reply(7), User, Assistant(Some(8))]
  const MISLED := [User, Assistant(Some(7)), Reply(7), User, Assistant(Some(8)), Assistant(Some(8)), Reply(8)]

  function First(state: MailState, applied: bool): Mail { MailOf(0, 0, Ready, Administrator, 0, 1, state, applied, 0) }

  function ToHelper(state: MailState, applied: bool): Mail { MailOf(1, 1, Ready, FromAgent(0), 1, 3, state, applied, 0) }

  function Report(state: MailState, applied: bool, notBefore: int): Mail {
    MailOf(0, 0, Result(1), FromAgent(1), 2, 6, state, applied, notBefore)
  }

  function Question(state: MailState, applied: bool): Mail { MailOf(0, 0, Input, Administrator, 0, 9, state, applied, 0) }

  function ToAnother(): Mail { MailOf(2, 1, Ready, FromAgent(0), 1, 11, Pending, false, 0) }

  // ----- a goal starts and its first call is answered with a delegation -----

  function Begun1(): Store { Db([Root(Queued, [User], 1, 0, None)], [Call(0, Awaiting, 0, [User])], map[], [First(Pending, false)]) }

  const CREATED := Store([System(Inactive, 4, 0)], [], [Agent(0, None, Off)], [], [], map[], [])

  function Opened(mails: seq<Mail>): Store {
    Store([System(SystemState.Active, 4, 0)], [Goal(0, On, 10000, false)], [Agent(0, None, On)],
      [Root(Queued, [User], 1, 0, None)], [Call(0, Awaiting, 0, [User])], map[], mails)
  }

  lemma Creates()
    ensures Next(BOOT, DoCreateSystem(4)) == Idling(CREATED)
  {
  }

  lemma Prepares()
    ensures StartGoal(CREATED, 0, 10000, 1) == Emit(Opened([]), 0, Ready, Administrator, None, 1)
  {
    hide Emit;
    SumFew(CREATED.systems, LoadOf());
    var staffed := SetAgent(SetSystem(CREATED, 0, SystemState.Active), 0, On);
    assert staffed.systems == Opened([]).systems && staffed.agents == Opened([]).agents;
    assert CREATED.goals + Opened([]).goals == Opened([]).goals && CREATED.tasks + Opened([]).tasks == Opened([]).tasks;
    assert CREATED.calls + Opened([]).calls == Opened([]).calls;
  }

  lemma Opens()
    ensures Next(Idling(CREATED), DoStartGoal(0, 10000, 1)) == Idling(Opened([First(Pending, false)]))
  {
    hide Emit, StartGoal;
    Prepares();
    RoomForMail(Opened([]), 0, Ready, Administrator, None, 1);
    assert Opened([]).mails + [First(Pending, false)] == [First(Pending, false)];
  }

  lemma Starts()
    ensures InOrder(Idling(Begun1()))
  {
    hide Next, InOrder;
    BootInOrder();
    Creates();
    Opens();
    StepInOrder(BOOT, DoCreateSystem(4));
    StepInOrder(Idling(CREATED), DoStartGoal(0, 10000, 1));
    StepInOrder(Idling(Opened([First(Pending, false)])), DoCreateAgent(0));
    assert Next(Idling(Opened([First(Pending, false)])), DoCreateAgent(0)) == Idling(Begun1()) by { Hires(); }
  }

  lemma Hires()
    ensures Next(Idling(Opened([First(Pending, false)])), DoCreateAgent(0)) == Idling(Begun1())
  {
  }

  // ----- what every transition of the run looks like -----

  /** A claim that leases the one delivery it lists. */
  lemma ClaimsNext(db: Store, m: Id, now: int, db': Store)
    requires Candidate(db, m, now) && Consider(db, map[], m, CALM, now) == Leasing(db')
    requires db.mails[m].system == 0 && db.mails[m].task < |db'.tasks| && m < |db'.mails| && SameMail(db.mails[m], db'.mails[m])
    requires forall s :: 0 <= s < |db'.systems| ==> db'.systems[s].state == SystemState.Active
    ensures var r, step := Idling(db), DoClaim([m], Calm, now);
            && Sensible(r, step) && Led(r, step) == (if MeetsStale(db, map[], m, CALM, now) then {db.mails[m].task} else {})
            && Next(r, step) == Working(db', db.mails[m].agent, m, db.mails[m].task, db'.tasks[db.mails[m].task].call)
  {
    hide Consider, Candidate, MeetsStale;
    CandidateExists(db, m, now);
    assert SweepSystems(db').systems == db'.systems;
    assert ClaimFrom(Idling(db), [m], Calm, now).db == db';
  }

  lemma ClaimsOne(db: Store, m: Id, now: int, db': Store)
    requires Candidate(db, m, now) && Consider(db, map[], m, CALM, now) == Leasing(db') && !Stale(db, m)
    requires db.mails[m].system == 0 && db.mails[m].task < |db'.tasks| && m < |db'.mails| && SameMail(db.mails[m], db'.mails[m])
    requires forall s :: 0 <= s < |db'.systems| ==> db'.systems[s].state == SystemState.Active
    requires InOrder(Idling(db))
    ensures InOrder(Working(db', db.mails[m].agent, m, db.mails[m].task, db'.tasks[db.mails[m].task].call))
  {
    hide Consider, InOrder, Candidate, Next, Sensible, Led;
    ClaimsNext(db, m, now, db');
    StepInOrder(Idling(db), DoClaim([m], Calm, now));
  }

  lemma CandidateExists(db: Store, m: Id, now: int)
    requires Candidate(db, m, now)
    ensures CandidateRow(db, m)
  {
  }

  function Answer1(e: Call, tool: Option<Id>): Call { e.(state := Answered(tool), attempts := e.attempts + 1) }

  /** A call is queued, dispatched and answered. */
  lemma AnswersCall(r: Daemon, c: Id, tool: Option<Id>)
    requires InOrder(r) && c < |r.db.calls| && r.db.calls[c].state == Awaiting
    ensures InOrder(r.(db := r.db.(calls := r.db.calls[c := Answer1(r.db.calls[c], tool)])))
  {
    hide InOrder;
    var e := r.db.calls[c];
    var queued := Next(r, DoMoveCall(c, Enlist));
    var sent := Next(queued, DoMoveCall(c, Dispatch));
    StepInOrder(r, DoMoveCall(c, Enlist));
    StepInOrder(queued, DoMoveCall(c, Dispatch));
    StepInOrder(sent, DoMoveCall(c, Answer(tool)));
    assert Next(sent, DoMoveCall(c, Answer(tool))).db.calls == r.db.calls[c := Answer1(e, tool)];
  }

  // ----- the first delegation -----

  function Claimed1(state: CallState, attempts: nat): Daemon {
    Working(Db([Root(Running, [User], 1, 0, None)], [Call(0, state, attempts, [User])], map[], [First(Leased, true)]), 0, 0, 0, 0)
  }

  lemma NothingToTake(mails: seq<Mail>, t: Id, exclude: Option<Id>)
    requires forall m :: 0 <= m < |mails| ==> !IsInput(mails[m], t)
    ensures TakeInputs(mails, t, exclude) == mails && InputsBelow(mails, t, exclude, |mails|) == 0
  {
    assert TakeInputs(mails, t, exclude) == mails;
    NoneBelow(mails, t, exclude, |mails|);
  }

  lemma {:induction false} NoneBelow(mails: seq<Mail>, t: Id, exclude: Option<Id>, n: nat)
    requires n <= |mails| && forall m :: 0 <= m < |mails| ==> !IsInput(mails[m], t)
    ensures InputsBelow(mails, t, exclude, n) == 0
  {
    if n > 0 { NoneBelow(mails, t, exclude, n - 1); }
  }

  lemma NoInputs(db: Store, t: Id)
    requires t < |db.tasks| && forall m :: 0 <= m < |db.mails| ==> !IsInput(db.mails[m], t)
    ensures forall c: seq<Message> :: ConsumeInputs(db, t, c, None) == db.(tasks := db.tasks[t := db.tasks[t].(conversation := c)])
  {
    NothingToTake(db.mails, t, None);
    assert forall c: seq<Message> :: c + Users(0) == c;
  }

  lemma FirstClaim()
    ensures InOrder(Claimed1(Awaiting, 0))
  {
    hide InOrder;
    Starts();
    var db := Begun1();
    NoInputs(db, 0);
    var db' := Claimed1(Awaiting, 0).db;
    assert ActiveIn(map[], 0) == {};
    assert db.tasks[0 := db.tasks[0].(conversation := [User])] == db.tasks;
    assert db.calls[0 := db.calls[0].(request := [User])] == db.calls;
    assert Refresh(db, 0, 0, CALM, 2) == Go(db);
    assert Lease(db, 0, 0) == db';
    ClaimsOne(db, 0, 2, db');
  }

  /** The store after the root delegates to the helper. */
  function Handed(db: Store, m: Id, tool: Id, now: int): Store
    requires |db.tasks| > 0 && m < |db.mails|
  {
    var r := db.tasks[0];
    db.(tasks := db.tasks[0 := r.(phase := Waiting, waitingTool := Some(tool), conversation := r.conversation + [Assistant(Some(tool))])]
                 + [Helper(Queued, |db.calls|)],
        calls := db.calls + [Call(|db.tasks|, Awaiting, 0, [User])],
        receipts := db.receipts[r.call := Finished],
        mails := db.mails + [MailOf(|db.tasks|, 1, Ready, FromAgent(0), db.mails[m].depth + 1, now, Pending, false, 0)])
  }

  /** The root may delegate to the helper. */
  predicate CanHand(db: Store, m: Id, tool: Id, now: int) {
    && db == Db(db.tasks, db.calls, db.receipts, db.mails) && 0 < |db.tasks| && m < |db.mails| && |db.mails| + |db.tasks| < 30
    && db.tasks[0].system == 0 && db.tasks[0].goal == 0 && db.tasks[0].agent == 0 && Live(db.tasks[0]) && !db.tasks[0].stopped
    && db.tasks[0].call < |db.calls| && db.tasks[0].call !in db.receipts
    && db.calls[db.tasks[0].call].task == 0 && db.calls[db.tasks[0].call].state == Answered(Some(tool))
    && db.mails[m].task == 0 && db.mails[m].state == Leased && db.mails[m].depth < 3 && now < 10000
    && forall t :: 0 <= t < |db.tasks| ==> db.tasks[t].agent == 1 ==> !Live(db.tasks[t])
  }

  lemma HandsOver(db: Store, m: Id, tool: Id, now: int)
    requires CanHand(db, m, tool, now)
    ensures DelegateTask(Record(db, db.tasks[0].call, Begun), 0, m, tool, 1, now)
            == Some(Handed(db, m, tool, now).(receipts := db.receipts[db.tasks[0].call := Begun]))
  {
    var begun := Record(db, db.tasks[0].call, Begun);
    SumZero(begun.tasks, LiveByAgent(1));
    SumFew(begun.tasks, TaskOfGoal(0));
    var child := AppendChild(begun, 0, 1, false);
    RoomForMail(child, |db.tasks|, Ready, FromAgent(0), Some(m), now);
    hide Emit;
    var spawned := Spawn(begun, 0, 1, false, FromAgent(0), Some(m), now).value;
    var r := db.tasks[0].(phase := Waiting, waitingTool := Some(tool), conversation := db.tasks[0].conversation + [Assistant(Some(tool))]);
    assert (db.tasks + [Helper(Queued, |db.calls|)])[0 := r] == db.tasks[0 := r] + [Helper(Queued, |db.calls|)];
  }

  lemma Delegates(db: Store, m: Id, tool: Id, now: int)
    requires CanHand(db, m, tool, now) && InOrder(Working(db, 0, m, 0, db.tasks[0].call))
    ensures InOrder(Working(Handed(db, m, tool, now), 0, m, 0, db.tasks[0].call))
  {
    hide InOrder, DelegateTask;
    var c := db.tasks[0].call;
    var r := Working(db, 0, m, 0, c);
    HandsOver(db, m, tool, now);
    StepInOrder(r, DoPrepareTool(0, Delegate(1, false), now));
    assert db.receipts[c := Begun][c := Finished] == db.receipts[c := Finished];
    assert PrepareTool(r, 0, Delegate(1, false), now).db == Handed(db, m, tool, now);
  }

  /** The worker of a delegated call is done: its delivery is acknowledged and nothing else happens. */
  lemma Leaves(db: Store, m: Id, now: int)
    requires 0 < |db.tasks| && m < |db.mails| && db.mails[m].state == Leased && db.tasks[0].call < |db.calls|
    requires db.tasks[0].phase == Waiting && db.calls[db.tasks[0].call].state.Answered? && db.calls[db.tasks[0].call].state.tool.Some?
    requires ReceiptOf(db, db.tasks[0].call) == Some(Finished) && !StopsWith(db, 0, false)
    requires InOrder(Working(db, 0, m, 0, db.tasks[0].call))
    ensures InOrder(Idling(SetMail(db, m, db.mails[m].(state := Acked))))
  {
    hide InOrder;
    var r := Working(db, 0, m, 0, db.tasks[0].call);
    StepInOrder(r, DoFinish(0, DONE, now));
    assert r.active - {0} == map[];
  }

  function Delegated1(): Store {
    Db([Root(Waiting, DELEGATED, 1, 0, Some(7)), Helper(Queued, 1)],
      [Call(0, Answered(Some(7)), 1, [User]), Call(1, Awaiting, 0, [User])],
      map[0 := Finished], [First(Acked, true), ToHelper(Pending, false)])
  }

  lemma FirstDelegation()
    ensures InOrder(Idling(Delegated1()))
  {
    hide InOrder;
    FirstClaim();
    AnswersCall(Claimed1(Awaiting, 0), 0, Some(7));
    var db := Claimed1(Answered(Some(7)), 1).db;
    assert Claimed1(Awaiting, 0).db.calls[0 := Answer1(Call(0, Awaiting, 0, [User]), Some(7))] == db.calls;
    Delegates(db, 0, 7, 3);
    var handed := Handed(db, 0, 7, 3);
    assert [User] + [Assistant(Some(7))] == DELEGATED;
    Leaves(handed, 0, 4);
    var left := SetMail(handed, 0, handed.mails[0].(state := Acked));
    assert left.tasks == Delegated1().tasks && left.calls == Delegated1().calls && left.mails == Delegated1().mails;
    assert left.receipts == Delegated1().receipts;
  }

  // ----- the helper reports -----

  function Helping(state: CallState, attempts: nat): Daemon {
    Working(Db([Root(Waiting, DELEGATED, 1, 0, Some(7)), Helper(Running, 1)],
              [Call(0, Answered(Some(7)), 1, [User]), Call(1, state, attempts, [User])],
              map[0 := Finished], [First(Acked, true), ToHelper(Leased, true)]), 1, 1, 1, 1)
  }

  lemma HelperClaim()
    ensures InOrder(Helping(Awaiting, 0))
  {
    hide InOrder;
    FirstDelegation();
    var db := Delegated1();
    var db' := Helping(Awaiting, 0).db;
    NoInputs(db, 1);
    assert ActiveIn(map[], 0) == {};
    assert db.tasks[1 := db.tasks[1].(conversation := [User])] == db.tasks;
    assert db.calls[1 := db.calls[1].(request := [User])] == db.calls;
    assert Refresh(db, 1, 1, CALM, 5) == Go(db);
    assert Lease(db, 1, 1).tasks == db'.tasks && Lease(db, 1, 1).mails == db'.mails;
    ClaimsOne(db, 1, 5, db');
  }

  /** The root's rows while the first report is on its way, with its first two calls answered. */
  function Calls2(): seq<Call> { [Call(0, Answered(Some(7)), 1, [User]), Call(1, Answered(None), 1, [User])] }

  function Reported(report: Mail): Store {
    Db([Root(Waiting, DELEGATED, 1, 0, Some(7)), Helper(Done(Completed), 1)], Calls2(), map[0 := Finished],
      [First(Acked, true), ToHelper(Acked, true), report])
  }

  lemma HelperEnds(db: Store)
    requires db == SetMail(Helping(Answered(None), 1).db, 1, ToHelper(Acked, true))
    ensures EndTask(db, 1, 1, Completed, false, 6) == Reported(Report(Pending, false, 0))
  {
    var ended := MarkDone(db, 1, Completed);
    assert ended.calls == db.calls && ended.mails == db.mails;
    RoomForMail(ended, 0, Result(1), FromAgent(1), Some(1), 6);
    hide Emit;
    var told := Terminate(db, 1, Completed, FromAgent(1), Some(1), 6);
    assert told == Reported(Report(Pending, false, 0));
    assert SweepSystems(told).systems == told.systems;
  }

  lemma HelperReports()
    ensures InOrder(Idling(Reported(Report(Pending, false, 0))))
  {
    hide InOrder, EndTask;
    HelperClaim();
    AnswersCall(Helping(Awaiting, 0), 1, None);
    var r := Helping(Answered(None), 1);
    assert Helping(Awaiting, 0).db.calls[1 := Answer1(Call(1, Awaiting, 0, [User]), None)] == r.db.calls;
    var told := SetMail(r.db, 1, ToHelper(Acked, true));
    SumZero(told.mails, InputsFor(1));
    HelperEnds(told);
    StepInOrder(r, DoFinish(1, DONE, 6));
    assert r.active - {1} == map[];
  }

  // ----- the reply is claimed, its worker fails, an input starts the task -----

  function Resumed(phase: Phase, conversation: seq<Message>, state: CallState, attempts: nat, mails: seq<Mail>): Store {
    Db([Root(phase, conversation, 2, 2, None), Helper(Done(Completed), 1)],
      Calls2() + [Call(0, state, attempts, conversation)], map[0 := Finished],
      [First(Acked, true), ToHelper(Acked, true)] + mails)
  }

  lemma ReplyApplies()
    ensures Consider(Reported(Report(Pending, false, 0)), map[], 2, CALM, 7)
            == Leasing(Resumed(Running, ANSWERED, Awaiting, 0, [Report(Leased, true, 0)]))
  {
    var db := Reported(Report(Pending, false, 0));
    var asked := Resumed(Queued, ANSWERED, Awaiting, 0, [Report(Pending, false, 0)]);
    NothingToTake(db.mails, 0, Some(2));
    NothingToTake(asked.mails, 0, None);
    assert ActiveIn(map[], 0) == {};
    assert DELEGATED + [Reply(7)] + Users(0) == ANSWERED;
    var applied := ApplyMail(db, 0, 2, CALM, 7);
    assert applied.Go? && applied.db.tasks == asked.tasks && applied.db.calls == asked.calls && applied.db.mails == asked.mails;
    assert ANSWERED + Users(0) == ANSWERED;
    var refreshed := Refresh(asked, 0, 2, CALM, 7);
    assert refreshed.Go? && refreshed.db.tasks == asked.tasks && refreshed.db.calls == asked.calls;
    assert Lease(asked, 0, 2).mails == Resumed(Running, ANSWERED, Awaiting, 0, [Report(Leased, true, 0)]).mails;
  }

  lemma ReplyClaim()
    ensures InOrder(Working(Resumed(Running, ANSWERED, Awaiting, 0, [Report(Leased, true, 0)]), 0, 2, 0, 2))
  {
    hide InOrder, Consider;
    HelperReports();
    ReplyApplies();
    ClaimsOne(Reported(Report(Pending, false, 0)), 2, 7, Resumed(Running, ANSWERED, Awaiting, 0, [Report(Leased, true, 0)]));
  }

  lemma WorkerFails()
    ensures InOrder(Idling(Resumed(Queued, ANSWERED, Awaiting, 0, [Report(Pending, true, 2008)])))
  {
    hide InOrder;
    ReplyClaim();
    var r := Working(Resumed(Running, ANSWERED, Awaiting, 0, [Report(Leased, true, 0)]), 0, 2, 0, 2);
    StepInOrder(r, DoFinish(0, CRASHED, 8));
    var db' := Resumed(Queued, ANSWERED, Awaiting, 0, [Report(Pending, true, 2008)]);
    var finished := FinishDelivery(r.db, r.active[0], CRASHED, false, 8).value;
    assert finished.tasks == db'.tasks && finished.calls == db'.calls && finished.mails == db'.mails;
    assert r.active - {0} == map[];
  }

  lemma InputArrives()
    ensures InOrder(Idling(Resumed(Queued, ANSWERED, Awaiting, 0, [Report(Pending, true, 2008), Question(Pending, false)])))
  {
    hide InOrder, Emit;
    WorkerFails();
    var db := Resumed(Queued, ANSWERED, Awaiting, 0, [Report(Pending, true, 2008)]);
    StepInOrder(Idling(db), DoInput(0, Administrator, None, 9));
    RoomForMail(db, 0, Input, Administrator, None, 9);
    assert db.mails + [Question(Pending, false)]
           == Resumed(Queued, ANSWERED, Awaiting, 0, [Report(Pending, true, 2008), Question(Pending, false)]).mails;
  }

  lemma InputApplies()
    ensures Consider(Resumed(Queued, ANSWERED, Awaiting, 0, [Report(Pending, true, 2008), Question(Pending, false)]), map[], 3, CALM, 10)
            == Leasing(Resumed(Running, ASKED, Awaiting, 0, [Report(Pending, true, 2008), Question(Leased, true)]))
  {
    var db := Resumed(Queued, ANSWERED, Awaiting, 0, [Report(Pending, true, 2008), Question(Pending, false)]);
    var asked := Resumed(Queued, ASKED, Awaiting, 0, [Report(Pending, true, 2008), Question(Acked, true).(attempts := 0)]);
    NoneBelow(db.mails[..3], 0, None, 3);
    FewerBelow(db.mails, 0, 3);
    assert ActiveIn(map[], 0) == {};
    assert ANSWERED + Users(1) == ASKED;
    assert TakeInputs(db.mails, 0, None) == asked.mails;
    var refreshed := Refresh(db, 0, 3, CALM, 10);
    assert refreshed.Go? && refreshed.db.tasks == asked.tasks && refreshed.db.calls == asked.calls;
    assert Lease(asked, 0, 3).mails == Resumed(Running, ASKED, Awaiting, 0, [Report(Pending, true, 2008), Question(Leased, true)]).mails;
  }

  lemma {:induction false} FewerBelow(mails: seq<Mail>, t: Id, n: nat)
    requires n <= |mails|
    ensures InputsBelow(mails, t, None, n) == InputsBelow(mails[..n], t, None, n)
    decreases n
  {
    if n > 0 {
      FewerBelow(mails, t, n - 1);
      FewerBelow(mails[..n], t, n - 1);
      assert mails[..n][..n - 1] == mails[..n - 1];
    }
  }

  lemma InputClaim()
    ensures InOrder(Working(Resumed(Running, ASKED, Awaiting, 0, [Report(Pending, true, 2008), Question(Leased, true)]), 0, 3, 0, 2))
  {
    hide InOrder, Consider;
    InputArrives();
    InputApplies();
    ClaimsOne(Resumed(Queued, ANSWERED, Awaiting, 0, [Report(Pending, true, 2008), Question(Pending, false)]), 3, 10,
      Resumed(Running, ASKED, Awaiting, 0, [Report(Pending, true, 2008), Question(Leased, true)]));
  }

  // ----- the second delegation, the stale claim and what it sends -----

  function Retried(): Store {
    Db([Root(Waiting, WAITING, 2, 2, Some(8)), Helper(Done(Completed), 1), Helper(Queued, 3)],
      Calls2() + [Call(0, Answered(Some(8)), 1, ASKED), Call(2, Awaiting, 0, [User])], map[0 := Finished, 2 := Finished],
      [First(Acked, true), ToHelper(Acked, true), Report(Pending, true, 2008), Question(Acked, true), ToAnother()])
  }

  lemma SecondDelegation()
    ensures InOrder(Idling(Retried()))
  {
    hide InOrder;
    InputClaim();
    var before := Resumed(Running, ASKED, Awaiting, 0, [Report(Pending, true, 2008), Question(Leased, true)]);
    AnswersCall(Working(before, 0, 3, 0, 2), 2, Some(8));
    var db := Resumed(Running, ASKED, Answered(Some(8)), 1, [Report(Pending, true, 2008), Question(Leased, true)]);
    assert before.calls[2 := Answer1(Call(0, Awaiting, 0, ASKED), Some(8))] == db.calls;
    Delegates(db, 3, 8, 11);
    var handed := Handed(db, 3, 8, 11);
    assert ASKED + [Assistant(Some(8))] == WAITING;
    assert handed.tasks == Retried().tasks && handed.calls == Retried().calls && handed.receipts == Retried().receipts;
    Leaves(handed, 3, 12);
    assert SetMail(handed, 3, handed.mails[3].(state := Acked)).mails == Retried().mails;
  }

  /** The store once the stale reply is leased. */
  function Stolen(state: MailState): Store {
    Retried().(tasks := [Root(Running, WAITING, 2, 2, Some(8)), Helper(Done(Completed), 1), Helper(Queued, 3)],
               mails := [First(Acked, true), ToHelper(Acked, true), Report(state, true, 2008).(attempts := 2), Question(Acked, true), ToAnother()])
  }

  lemma StaleApplies()
    ensures Candidate(Retried(), 2, 2008) && MeetsStale(Retried(), map[], 2, CALM, 2008)
    ensures Consider(Retried(), map[], 2, CALM, 2008) == Leasing(Stolen(Leased))
  {
    var db := Retried();
    assert ActiveIn(map[], 0) == {};
    assert Lease(db, 0, 2).tasks == Stolen(Leased).tasks && Lease(db, 0, 2).mails == Stolen(Leased).mails;
  }

  /** The store once the misled root has taken its next turn. */
  function Misspoken(): Store {
    TakeTurn(Stolen(Acked), 0, MISLED)
  }

  lemma NextTurn()
    ensures ContinueTask(Stolen(Acked), 0, 2, MISLED, DONE, 2009)
            == Misspoken().(mails := Misspoken().mails + [NewMail(Misspoken(), 0, Continue, FromAgent(0), Some(2), 2009)])
  {
    SumZero(Misspoken().mails, PendingFor(0));
    RoomForMail(Misspoken(), 0, Continue, FromAgent(0), Some(2), 2009);
    hide Emit;
  }

  lemma MisledTurn()
    ensures var finished := FinishDelivery(Stolen(Leased), Activation(0, 2, 0, 2), DONE, false, 2009);
            finished.Some? && finished.value.tasks == Misspoken().tasks && finished.value.calls == Misspoken().calls
  {
    hide ContinueTask;
    NextTurn();
    var told := SetMail(Stolen(Leased), 2, Stolen(Leased).mails[2].(state := Acked));
    assert told.mails == Stolen(Acked).mails;
    assert WAITING + [Assistant(Some(8)), Reply(8)] == MISLED;
  }

  /** A run from the empty store that breaks the protocol: a reply is claimed, its worker fails before the first
      dispatch, an input restarts the task, the task delegates again, and the old reply is claimed. Up to that
      claim everything holds; the claim leads the root astray, and one ordinary finish later the root goes on
      without waiting for its live delegate and sends a request with a tool call that is never answered. */
  lemma StaleReplyMisleads()
    ensures Reachable(Idling(Retried())) && Inv(Retried(), {})
    ensures Sensible(Idling(Retried()), DoClaim([2], Calm, 2008)) && Led(Idling(Retried()), DoClaim([2], Calm, 2008)) == {0}
    ensures var r := Next(Next(Idling(Retried()), DoClaim([2], Calm, 2008)), DoFinish(0, DONE, 2009));
            && Reachable(r) && LiveTask(r.db, 0) && r.db.tasks[0].waitingTool.None? && Sum(r.db.tasks, DelegateOf(0)) == 1
            && |r.db.calls| == 5 && r.db.calls[4].task == 0 && !WellPaired(r.db.calls[4].request)
  {
    hide Reachable, InOrder, Consider, Inv, FinishDelivery, Claim, Led, Candidate, MeetsStale;
    SecondDelegation();
    InOrderInv(Idling(Retried()));
    StaleApplies();
    ClaimsNext(Retried(), 2, 2008, Stolen(Leased));
    StepReachable(Idling(Retried()), DoClaim([2], Calm, 2008));
    var r := Working(Stolen(Leased), 0, 2, 0, 2);
    StepReachable(r, DoFinish(0, DONE, 2009));
    MisledTurn();
    var after := Next(r, DoFinish(0, DONE, 2009));
    assert MISLED[4] == Assistant(Some(8)) && MISLED[5] == Assistant(Some(8));
    DelegatesOf(after.db.tasks);
  }

  lemma DelegatesOf(tasks: seq<Task>)
    requires tasks == Misspoken().tasks
    ensures Sum(tasks, DelegateOf(0)) == 1
  {
    SumAppend([], tasks[0], DelegateOf(0));
    SumAppend([tasks[0]], tasks[1], DelegateOf(0));
    SumAppend([tasks[0], tasks[1]], tasks[2], DelegateOf(0));
    assert tasks == [tasks[0], tasks[1]] + [tasks[2]] && [tasks[0], tasks[1]] == [tasks[0]] + [tasks[1]] && [tasks[0]] == [] + [tasks[0]];
  }
}
