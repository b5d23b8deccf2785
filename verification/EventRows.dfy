/** When an event is accepted, counted over the rows themselves, and what is then written. */
module EventRows {
  import opened Common
  import opened Sums
  import opened Team
  import opened Mailbox

  // ----- rows the counts are about -----

  function EventsOf(db: Store, s: Id): set<Id> { set m: Id | m < |db.mails| && db.mails[m].system == s }

  function GoalEvents(db: Store, g: Id): set<Id> { set m: Id | m < |db.mails| && db.mails[m].goal == g }

  function QueueOf(db: Store, a: Id): set<Id> {
    set m: Id | m < |db.mails| && db.mails[m].agent == a && (db.mails[m].state == Pending || db.mails[m].state == Leased)
  }

  function SentSince(db: Store, s: Id, source: Source, since: int): set<Id> {
    set m: Id | m < |db.mails| && db.mails[m].system == s && db.mails[m].source == source && db.mails[m].created > since
  }

  function LiveTasks(db: Store, s: Id): set<Id> { set t: Id | t < |db.tasks| && db.tasks[t].system == s && !db.tasks[t].phase.Done? }

  function LiveGoalTasks(db: Store, g: Id): set<Id> { set t: Id | t < |db.tasks| && db.tasks[t].goal == g && !db.tasks[t].phase.Done? }

  function LiveChildren(db: Store, p: Id): set<Id> { set t: Id | t < |db.tasks| && db.tasks[t].parent == Some(p) && !db.tasks[t].phase.Done? }

  function TasksByAgent(db: Store, a: Id): set<Id> { set t: Id | t < |db.tasks| && db.tasks[t].agent == a && !db.tasks[t].phase.Done? }

  function TasksOfGoal(db: Store, g: Id): set<Id> { set t: Id | t < |db.tasks| && db.tasks[t].goal == g }

  function InputsTo(db: Store, t: Id): set<Id> { set m: Id | m < |db.mails| && db.mails[m].task == t && db.mails[m].state == Pending && db.mails[m].kind == Input }

  function StartersOf(db: Store, t: Id): set<Id> {
    set m: Id | m < |db.mails| && db.mails[m].task == t && db.mails[m].state == Pending && db.mails[m].kind != Progress
  }

  /** A sum of zeros and ones counts the ones. */
  lemma {:induction false} SumCounts<T>(rows: seq<T>, w: T -> int, chosen: set<Id>)
    requires forall i :: i in chosen ==> i < |rows|
    requires forall i: Id :: i < |rows| ==> w(rows[i]) == if i in chosen then 1 else 0
    ensures Sum(rows, w) == |chosen|
  {
    if rows == [] {
      assert forall i :: i !in chosen;
    } else {
      var n := |rows| - 1;
      SumCounts(rows[..n], w, chosen - {n});
      if n in chosen { assert |chosen - {n}| == |chosen| - 1; } else { assert chosen - {n} == chosen; }
    }
  }

  lemma MailCounts(db: Store, s: Id, g: Id, a: Id, source: Source, since: int, t: Id)
    ensures Sum(db.mails, MailInSystem(s)) == |EventsOf(db, s)| && Sum(db.mails, MailInGoal(g)) == |GoalEvents(db, g)|
    ensures Sum(db.mails, OpenForAgent(a)) == |QueueOf(db, a)| && Sum(db.mails, SentBy(s, source, since)) == |SentSince(db, s, source, since)|
    ensures Sum(db.mails, InputsFor(t)) == |InputsTo(db, t)| && Sum(db.mails, PendingFor(t)) == |StartersOf(db, t)|
  {
    SumCounts(db.mails, MailInSystem(s), EventsOf(db, s));
    SumCounts(db.mails, MailInGoal(g), GoalEvents(db, g));
    SumCounts(db.mails, OpenForAgent(a), QueueOf(db, a));
    SumCounts(db.mails, SentBy(s, source, since), SentSince(db, s, source, since));
    SumCounts(db.mails, InputsFor(t), InputsTo(db, t));
    SumCounts(db.mails, PendingFor(t), StartersOf(db, t));
  }

  lemma TaskCounts(db: Store, s: Id, g: Id, p: Id, a: Id)
    ensures Sum(db.tasks, LiveInSystem(s)) == |LiveTasks(db, s)| && Sum(db.tasks, LiveInGoal(g)) == |LiveGoalTasks(db, g)|
    ensures Sum(db.tasks, LiveChildOf(p)) == |LiveChildren(db, p)| && Sum(db.tasks, LiveByAgent(a)) == |TasksByAgent(db, a)|
    ensures Sum(db.tasks, TaskOfGoal(g)) == |TasksOfGoal(db, g)|
  {
    SumCounts(db.tasks, LiveInSystem(s), LiveTasks(db, s));
    SumCounts(db.tasks, LiveInGoal(g), LiveGoalTasks(db, g));
    SumCounts(db.tasks, LiveChildOf(p), LiveChildren(db, p));
    SumCounts(db.tasks, LiveByAgent(a), TasksByAgent(db, a));
    SumCounts(db.tasks, TaskOfGoal(g), TasksOfGoal(db, g));
  }

  // ----- acceptance -----

  /** How far the event is from the one that started its causal chain. */
  predicate DepthIs(db: Store, cause: Option<Id>, depth: nat) {
    if cause.Some? && cause.value < |db.mails| then depth == db.mails[cause.value].depth + 1 else depth == 0
  }

  /** There is room for the event, and for the last report of every live task beside it. */
  predicate HasRoom(db: Store, t: Id)
    requires t < |db.tasks|
  {
    var r := db.tasks[t];
    && |EventsOf(db, r.system)| + |LiveTasks(db, r.system)| < 4096
    && |GoalEvents(db, r.goal)| + |LiveGoalTasks(db, r.goal)| < 256
    && |QueueOf(db, r.agent)| + |LiveChildren(db, t)| < 64
  }

  /** An event is accepted iff the budgets and the recipient's queue have room for it and for all reports to come, its
      causal chain is short, an agent that sends it was not too busy in the last minute, and the goal still runs
      unless it is a report. What is written is one pending delivery to the task's agent. */
  lemma EmitExactly(db: Store, t: Id, kind: Kind, source: Source, cause: Option<Id>, now: int) returns (depth: nat)
    requires t < |db.tasks|
    ensures DepthIs(db, cause, depth)
    ensures var r, deadline := db.tasks[t], if db.tasks[t].goal < |db.goals| then db.goals[db.tasks[t].goal].deadline else 0;
            var accepted := && HasRoom(db, t) && depth <= 16
                            && (source.FromAgent? ==> |SentSince(db, r.system, source, now - 60000)| < 32)
                            && (now < deadline || kind.Result?);
            && Emit(db, t, kind, source, cause, now).Some? == accepted && Refuses(db, t, kind, source, cause, now).None? == accepted
            && (accepted ==> Emit(db, t, kind, source, cause, now).value == db.(mails := db.mails + [Mail(r.system, r.goal, t, r.agent, kind, source,
                               depth, now, deadline, Pending, 0, false, 0)]))
  {
    var r := db.tasks[t];
    depth := Depth(db, cause);
    MailCounts(db, r.system, r.goal, r.agent, source, now - 60000, t);
    TaskCounts(db, r.system, r.goal, t, r.agent);
  }
}
