/** What the administrator's commands, the clock and the life of a call do to the rows. */
module CommandRows {
  import opened Common
  import opened Sums
  import opened Team
  import opened Mailbox
  import opened TeamSteps
  import opened TaskEnds
  import opened TaskFates
  import opened EventRows
  import opened ToolRows

  // ----- goals -----

  function LoadedSystems(db: Store): set<Id> {
    set s: Id | s < |db.systems| && (db.systems[s].state == SystemState.Active || db.systems[s].state == Stopping)
  }

  /** A system rests, so that a goal may be started. */
  predicate Resting(db: Store, s: Id) { s < |db.systems| && (db.systems[s].state == Inactive || db.systems[s].state == Stopped) }

  /** The store with the new goal, its root task and first call, before the first delivery. */
  function WithGoal(db: Store, s: Id, deadline: int): Store
    requires s < |db.systems| && db.systems[s].operator < |db.agents|
  {
    var a := db.systems[s].operator;
    db.(systems := db.systems[s := db.systems[s].(state := SystemState.Active)], agents := db.agents[a := db.agents[a].(state := On)],
        goals := db.goals + [Goal(s, On, deadline, false)],
        tasks := db.tasks + [Task(s, |db.goals|, a, None, false, Queued, false, [User], 1, |db.calls|, None)],
        calls := db.calls + [Call(|db.tasks|, Awaiting, 0, [User])])
  }

  /** A goal starts iff its system rests, fewer than 64 systems have work, and there is room for its first delivery
      before the deadline; then system, operator, goal, root task, call and delivery are there. */
  lemma StartGoalExactly(db: Store, s: Id, deadline: int, now: int)
    requires s < |db.systems| ==> db.systems[s].operator < |db.agents|
    ensures var x := StartGoal(db, s, deadline, now);
            && x.Some? == (Resting(db, s) && |LoadedSystems(db)| < 64 && HasRoom(WithGoal(db, s, deadline), |db.tasks|) && now < deadline)
            && (x.Some? ==> x.value == WithGoal(db, s, deadline).(mails := db.mails
                   + [Mail(s, |db.goals|, |db.tasks|, db.systems[s].operator, Ready, Administrator, 0, now, deadline, Pending, 0, false, 0)]))
  {
    hide Emit, HasRoom;
    SumCounts(db.systems, LoadOf(), LoadedSystems(db));
    if s < |db.systems| {
      var start := WithGoal(db, s, deadline);
      var depth := EmitExactly(start, |db.tasks|, Ready, Administrator, None, now);
    }
  }

  // ----- controls -----

  function SetState(db: Store, s: Id, state: SystemState): Store
    requires s < |db.systems|
  {
    db.(systems := db.systems[s := db.systems[s].(state := state)])
  }

  function SetControl(db: Store, g: Id, control: Switch): Store
    requires g < |db.goals|
  {
    db.(goals := db.goals[g := db.goals[g].(control := control)])
  }

  function SetSwitch(db: Store, a: Id, state: Switch): Store
    requires a < |db.agents|
  {
    db.(agents := db.agents[a := db.agents[a].(state := state)])
  }

  /** A scope that still has something to control: what was stopped stays so. */
  predicate Controllable(db: Store, scope: Scope) {
    match scope
    case WholeSystem(s) => s < |db.systems| && (db.systems[s].state == SystemState.Active || db.systems[s].state == Paused)
    case WholeGoal(g) => g < |db.goals| && !db.goals[g].closed && db.goals[g].control != Off
    case WholeAgent(a) => a < |db.agents| && db.agents[a].state != Off
  }

  lemma ControlsExactly(db: Store, scope: Scope, hold: bool)
    ensures Pause(db, scope, hold) ==
            if !Controllable(db, scope) then db
            else match scope
                 case WholeSystem(s) => SetState(db, s, if hold then Paused else SystemState.Active)
                 case WholeGoal(g) => SetControl(db, g, if hold then Held else On)
                 case WholeAgent(a) => SetSwitch(db, a, if hold then Held else On)
    ensures BeginStop(db, scope) ==
            if !Controllable(db, scope) then None
            else match scope
                 case WholeSystem(s) => Some(SetState(db, s, Stopping))
                 case WholeGoal(g) => Some(SetControl(db, g, Off))
                 case WholeAgent(a) => Some(SetSwitch(db, a, Off))
  {
  }

  /** The system is stopping if it was at work, and every open goal of it is switched off. */
  lemma ShutSystemExactly(db: Store, s: Id)
    requires s < |db.systems|
    ensures var db', x := ShutSystem(db, s), db.systems[s].state;
            && db' == SetState(db, s, if x == Inactive || x == Stopped then Stopped else Stopping).(goals := db'.goals) && |db'.goals| == |db.goals|
            && forall g :: 0 <= g < |db.goals| ==>
                 db'.goals[g] == if db.goals[g].system == s && !db.goals[g].closed then db.goals[g].(control := Off) else db.goals[g]
  {
  }

  // ----- inputs, notices, time -----

  /** An input or a notice can be delivered to the task. */
  predicate MayTell(db: Store, t: Id, source: Source, depth: nat, now: int)
    requires t < |db.tasks|
  {
    && HasRoom(db, t) && depth <= 16 && now < DeadlineRow(db, db.tasks[t].goal)
    && (source.FromAgent? ==> |SentSince(db, db.tasks[t].system, source, now - 60000)| < 32)
  }

  predicate ToldRows(db: Store, db': Store, t: Id, source: Source, depth: nat, now: int)
    requires t < |db.tasks|
  {
    var r := db.tasks[t];
    db' == db.(mails := db.mails + [Mail(r.system, r.goal, t, r.agent, Input, source, depth, now, DeadlineRow(db, r.goal), Pending, 0, false, 0)])
  }

  /** Input reaches a live task, if there is room, and nothing else happens. */
  lemma AddInputExactly(db: Store, t: Id, source: Source, cause: Option<Id>, now: int) returns (depth: nat)
    ensures DepthIs(db, cause, depth)
    ensures var db' := AddInput(db, t, source, cause, now);
            if LiveTask(db, t) && MayTell(db, t, source, depth, now) then ToldRows(db, db', t, source, depth, now) else db' == db
  {
    hide Emit, HasRoom;
    depth := if cause.Some? && cause.value < |db.mails| then db.mails[cause.value].depth + 1 else 0;
    if t < |db.tasks| { var d := EmitExactly(db, t, Input, source, cause, now); }
  }

  /** The end of an evaluation reaches its task, or ends it: a notice that does not fit rejects the task. */
  lemma NoticeExactly(db: Store, t: Id, now: int)
    ensures var db' := NoticeEvaluation(db, t, now);
            if !LiveTask(db, t) || db.tasks[t].stopped then db' == db
            else if MayTell(db, t, Runtime, 0, now) then ToldRows(db, db', t, Runtime, 0, now)
            else WorkFates(db, db', {t}, Rejected) && GoalFates(db, db') && SystemFates(db, db') && t < |db'.tasks| && db'.tasks[t].phase == Done(Rejected)
  {
    hide Emit, HasRoom, Terminate, WorkFates, GoalFates, SystemFates;
    if t < |db.tasks| { var d := EmitExactly(db, t, Input, Runtime, None, now); }
    TerminateWork(db, t, Rejected, Runtime, None, now);
    TerminateGoals(db, t, Rejected, Runtime, None, now);
  }

  /** A task fails for want of time exactly when it waits, holds no delivery, and its goal's deadline has come. */
  lemma ExpireExactly(db: Store, t: Id, now: int)
    ensures var db' := Expire(db, t, now);
            if t < |db.tasks| && db.tasks[t].phase == Waiting && DeadlineRow(db, db.tasks[t].goal) <= now
               && (forall m :: 0 <= m < |db.mails| && db.mails[m].task == t ==> db.mails[m].state != Leased)
            then WorkFates(db, db', {t}, Failed) && GoalFates(db, db') && SystemFates(db, db') && t < |db'.tasks| && db'.tasks[t].phase == Done(Failed)
            else db' == db
  {
    hide Terminate, WorkFates, GoalFates, SystemFates;
    TerminateWork(db, t, Failed, Runtime, None, now);
    TerminateGoals(db, t, Failed, Runtime, None, now);
  }

  // ----- calls -----

  /** The ways of a call: queued, dispatched, and from the network answered, failed, lost or queued again; before that
      it may be rejected or canceled. */
  predicate Moves(x: CallState, move: Move, y: CallState) {
    || (x == Awaiting && move == Enlist && y == InQueue)
    || (x == InQueue && move == Dispatch && y == OnWire)
    || (x == InQueue && move == Refuse && y == Closed(Rejected))
    || ((x == Awaiting || x == InQueue) && move == Cancel && y == Closed(Canceled))
    || (x == OnWire && ((move.Answer? && y == Answered(move.tool)) || (move == Fail && y == Closed(Failed)) || (move == Lose && y == Lost)
                        || (move == Requeue && y == InQueue)))
  }

  /** Only a dispatch counts as an attempt, and an answered, closed or lost call never moves again. */
  lemma MoveExactly(db: Store, c: Id, move: Move)
    requires c < |db.calls|
    ensures var db', x := Advance(db, c, move), db.calls[c];
            && |db'.calls| == |db.calls| && db' == db.(calls := db.calls[c := db'.calls[c]])
            && db'.calls[c] == x.(state := db'.calls[c].state, attempts := if x.state == InQueue && move == Dispatch then x.attempts + 1 else x.attempts)
            && (if exists y :: Moves(x.state, move, y) then Moves(x.state, move, db'.calls[c].state) else db'.calls[c] == x)
            && ((x.state.Answered? || x.state.Closed? || x.state.Lost?) ==> db' == db)
  {
    var x := db.calls[c];
    assert db.calls[c := x] == db.calls;
    assert Moves(x.state, move, MoveCall(x, move).state) || MoveCall(x, move) == x;
  }
}
