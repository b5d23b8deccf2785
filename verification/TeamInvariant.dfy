/** What every transaction of the delivery protocol keeps, and the operations they share. */
module TeamInvariant {
  import opened Common
  import opened Sums
  import opened Team
  import opened Mailbox

  // ----- shape -----

  predicate TaskFits(db: Store, t: Id)
    requires t < |db.tasks|
  {
    var r := db.tasks[t];
    && r.system < |db.systems|
    && r.goal < |db.goals| && db.goals[r.goal].system == r.system
    && r.agent < |db.agents| && db.agents[r.agent].system == r.system
    && r.call < |db.calls| && db.calls[r.call].task == t
    && (r.parent.Some? ==> r.parent.value < t && db.tasks[r.parent.value].system == r.system && db.tasks[r.parent.value].goal == r.goal)
    && (r.evaluation ==> r.parent.Some?)
  }

  /** A delivery goes to the agent of its task, and a reply comes from a finished delegate of its task. */
  predicate MailFits(db: Store, m: Id)
    requires m < |db.mails|
  {
    var v := db.mails[m];
    && v.task < |db.tasks|
    && v.system == db.tasks[v.task].system && v.goal == db.tasks[v.task].goal && v.agent == db.tasks[v.task].agent
    && (v.kind.Result? ==> v.kind.child < |db.tasks| && db.tasks[v.kind.child].parent == Some(v.task)
                           && !db.tasks[v.kind.child].evaluation && !Live(db.tasks[v.kind.child]))
  }

  predicate AgentFits(db: Store, a: Id)
    requires a < |db.agents|
  {
    db.agents[a].system < |db.systems|
    && (db.agents[a].goal.Some? ==> db.agents[a].goal.value < |db.goals| && db.goals[db.agents[a].goal.value].system == db.agents[a].system)
  }

  ghost predicate Shape(db: Store) {
    && (forall t :: 0 <= t < |db.tasks| ==> TaskFits(db, t))
    && (forall c :: 0 <= c < |db.calls| ==> db.calls[c].task < |db.tasks|)
    && (forall m :: 0 <= m < |db.mails| ==> MailFits(db, m))
    && (forall a :: 0 <= a < |db.agents| ==> AgentFits(db, a))
    && (forall s :: 0 <= s < |db.systems| ==> db.systems[s].operator < |db.agents| && db.agents[db.systems[s].operator].system == s)
    && (forall g :: 0 <= g < |db.goals| ==> db.goals[g].system < |db.systems|)
  }

  // ----- reserved reply capacity -----

  function SystemLoad(db: Store, s: Id): int { Sum(db.mails, MailInSystem(s)) + Sum(db.tasks, LiveInSystem(s)) }

  function GoalLoad(db: Store, g: Id): int { Sum(db.mails, MailInGoal(g)) + Sum(db.tasks, LiveInGoal(g)) }

  /** Every live task still has room for its final report in both budgets. */
  ghost predicate Reserve(db: Store) {
    && (forall s: Id :: SystemLoad(db, s) <= MAX_SYSTEM_EVENTS)
    && (forall g: Id :: GoalLoad(db, g) <= MAX_GOAL_EVENTS)
  }

  // ----- waiting for a child -----

  /** What a task can still expect from its delegates: the live ones and the undelivered replies. */
  function Pledges(db: Store, t: Id): int { Sum(db.tasks, DelegateOf(t)) + Sum(db.mails, ReplyTo(t)) }

  /** A live task that nobody stopped expects exactly one report while it waits on a tool, and none otherwise. */
  predicate PledgeHolds(db: Store, t: Id)
    requires t < |db.tasks|
  {
    Live(db.tasks[t]) && !db.tasks[t].stopped ==> Pledges(db, t) == if db.tasks[t].waitingTool.Some? then 1 else 0
  }

  ghost predicate PledgesBut(db: Store, x: int, astray: set<Id>) {
    forall t :: 0 <= t < |db.tasks| && t != x && t !in astray ==> PledgeHolds(db, t)
  }

  // ----- conversations -----

  /** Every tool call is followed at once by its answer, and every answer follows its call. */
  predicate WellPaired(c: seq<Message>) {
    && (forall i :: 0 <= i < |c| && c[i].Assistant? && c[i].tool.Some? ==> i + 1 < |c| && c[i + 1] == Reply(c[i].tool.value))
    && (forall i :: 0 <= i < |c| && c[i].Reply? ==> 0 < i && c[i - 1] == Assistant(Some(c[i].to)))
  }

  /** Closed but for a last call of `tool`. */
  predicate OpenWith(c: seq<Message>, tool: Id) {
    c != [] && c[|c| - 1] == Assistant(Some(tool)) && WellPaired(c[..|c| - 1])
  }

  predicate TaskTalks(t: Task) {
    Live(t) ==> if t.waitingTool.Some? then OpenWith(t.conversation, t.waitingTool.value) else WellPaired(t.conversation)
  }

  /** Every live conversation is closed, except for the one call its task waits on. */
  ghost predicate TalkBut(db: Store, x: int, astray: set<Id>) {
    forall t :: 0 <= t < |db.tasks| && t != x && t !in astray ==> TaskTalks(db.tasks[t])
  }

  /** Every request ever built is closed. */
  ghost predicate Requests(db: Store, astray: set<Id>) {
    forall c :: 0 <= c < |db.calls| && db.calls[c].task !in astray ==> WellPaired(db.calls[c].request)
  }

  // ----- waiting -----

  /** A waiting task's call was answered, the tool it proposed has a durable receipt, and a task only
      waits on the tool its call proposed. */
  predicate TaskWaits(db: Store, t: Id)
    requires t < |db.tasks|
  {
    var r := db.tasks[t];
    Live(r) ==>
      && (r.waitingTool.Some? ==> r.phase == Waiting)
      && (r.phase == Waiting ==>
            && r.call < |db.calls| && db.calls[r.call].state.Answered?
            && (db.calls[r.call].state.tool.Some? ==> ReceiptOf(db, r.call) == Some(Finished))
            && (r.waitingTool.Some? ==> db.calls[r.call].state.tool == r.waitingTool))
  }

  ghost predicate WaitsBut(db: Store, x: int, astray: set<Id>) {
    forall t :: 0 <= t < |db.tasks| && t != x && t !in astray ==> TaskWaits(db, t)
  }

  // ----- deliveries -----

  predicate MailCounted(v: Mail) {
    v.attempts <= MAX_DELIVERIES && (v.state == Leased ==> v.applied)
  }

  ghost predicate Deliveries(db: Store) {
    && (forall m :: 0 <= m < |db.mails| ==> MailCounted(db.mails[m]))
    && (forall m, n :: 0 <= m < n < |db.mails| && db.mails[m].agent == db.mails[n].agent ==>
          !(db.mails[m].state == Leased && db.mails[n].state == Leased))
  }

  /** Everything but the reserve holds, except that task `x` is in the middle of a change. The tasks in
      `astray` were claimed with a stale reply: what concerns only themselves is not claimed any more. */
  ghost predicate RestBut(db: Store, x: int, astray: set<Id>) {
    Shape(db) && PledgesBut(db, x, astray) && TalkBut(db, x, astray) && Requests(db, astray) && WaitsBut(db, x, astray) && Deliveries(db)
  }

  ghost predicate InvBut(db: Store, x: int, astray: set<Id>) { RestBut(db, x, astray) && Reserve(db) }

  /** What a task answers for itself. */
  predicate TaskHolds(db: Store, t: Id)
    requires t < |db.tasks|
  {
    PledgeHolds(db, t) && TaskTalks(db.tasks[t]) && TaskWaits(db, t)
  }

  ghost predicate Inv(db: Store, astray: set<Id>) { InvBut(db, -1, astray) }

  lemma EmptyInv(astray: set<Id>)
    ensures Inv(EMPTY, astray)
  {
  }

  lemma InvWider(db: Store, astray: set<Id>, more: set<Id>)
    requires Inv(db, astray) && astray <= more
    ensures Inv(db, more)
  {
    hide Shape, Reserve, Deliveries, TaskTalks, TaskWaits;
  }

  // ----- what the operations leave alone -----

  predicate TaskKeeps(t: Task, t': Task) {
    && t'.system == t.system && t'.goal == t.goal && t'.agent == t.agent && t'.parent == t.parent && t'.evaluation == t.evaluation
    && (!Live(t) ==> !Live(t')) && (t.stopped ==> t'.stopped)
    && (t'.waitingTool.Some? ==> t.waitingTool.Some?) && (t'.phase == Waiting ==> t.phase == Waiting)
  }

  predicate Final(v: Mail) { v.state == Acked || v.state == Dead }

  predicate MailKeeps(v: Mail, v': Mail, open: bool) {
    && v'.task == v.task && v'.agent == v.agent && v'.system == v.system && v'.goal == v.goal && v'.kind == v.kind
    && v'.attempts == v.attempts && (v'.state == Leased <==> v.state == Leased)
    && (v'.state == Pending ==> v.state == Pending && v'.applied == v.applied)
    && (!open ==> (Final(v) ==> v' == v) && (v.kind.Result? ==> v'.applied == v.applied))
  }

  /** A pending delivery that is not mere input is only lost when its task ends. */
  predicate NotLost(v: Mail, v': Mail, tasks: seq<Task>) {
    v.state == Pending && v.kind != Input ==> v'.state == Pending || (v.task < |tasks| && !Live(tasks[v.task]))
  }

  /** Rows are appended; nobody revives a task, releases a stop or starts to wait on a tool; nobody takes,
      returns, loses or reopens a delivery, except those in `open` that a claim is working on. */
  ghost predicate Keeps(db: Store, db': Store, open: set<Id>) {
    && |db.tasks| <= |db'.tasks| && |db.mails| <= |db'.mails| && |db.calls| <= |db'.calls|
    && (forall t :: 0 <= t < |db.tasks| ==> TaskKeeps(db.tasks[t], db'.tasks[t]))
    && (forall m :: 0 <= m < |db.mails| ==> MailKeeps(db.mails[m], db'.mails[m], m in open))
    && (forall m :: 0 <= m < |db.mails| && m !in open ==> NotLost(db.mails[m], db'.mails[m], db'.tasks))
    && (forall m :: |db.mails| <= m < |db'.mails| ==> NewMailOk(db'.mails[m]))
    && (forall c :: 0 <= c < |db.calls| ==> db'.calls[c].task == db.calls[c].task)
    && |db'.systems| == |db.systems| && (forall s :: 0 <= s < |db.systems| ==> db'.systems[s].maxActive == db.systems[s].maxActive)
    && db'.receipts == db.receipts
  }

  /** A delivery written in the same transaction was neither leased nor left half applied. */
  predicate NewMailOk(v: Mail) { v.state != Leased && v.attempts == 0 && (v.state == Pending ==> !v.applied) }

  predicate TaskKeepsAt(db: Store, db': Store, t: Id) {
    t < |db.tasks| && t < |db'.tasks| && TaskKeeps(db.tasks[t], db'.tasks[t])
  }

  lemma KeepsSelf(db: Store, open: set<Id>)
    ensures Keeps(db, db, open)
  {
  }

  lemma KeepsTransitive(a: Store, b: Store, c: Store, open: set<Id>)
    requires Keeps(a, b, open) && Keeps(b, c, open) && forall m :: m in open ==> m < |a.mails|
    ensures Keeps(a, c, open)
  {
    forall t | 0 <= t < |a.tasks| ensures TaskKeeps(a.tasks[t], c.tasks[t]) {
      assert TaskKeeps(a.tasks[t], b.tasks[t]) && TaskKeeps(b.tasks[t], c.tasks[t]);
    }
    forall m | 0 <= m < |a.mails| ensures MailKeeps(a.mails[m], c.mails[m], m in open) {
      assert MailKeeps(a.mails[m], b.mails[m], m in open) && MailKeeps(b.mails[m], c.mails[m], m in open);
    }
    forall m | 0 <= m < |a.mails| && m !in open ensures NotLost(a.mails[m], c.mails[m], c.tasks) {
      assert NotLost(a.mails[m], b.mails[m], b.tasks) && NotLost(b.mails[m], c.mails[m], c.tasks);
      assert MailKeeps(a.mails[m], b.mails[m], m in open);
      if a.mails[m].task < |b.tasks| { assert TaskKeepsAt(b, c, a.mails[m].task); }
    }
    forall m | |a.mails| <= m < |c.mails| ensures NewMailOk(c.mails[m]) {
      if m < |b.mails| { assert MailKeeps(b.mails[m], c.mails[m], m in open) && NewMailOk(b.mails[m]); }
    }
  }

  lemma KeepsWider(a: Store, b: Store, open: set<Id>, wider: set<Id>)
    requires Keeps(a, b, open) && open <= wider
    ensures Keeps(a, b, wider)
  {
    forall m | 0 <= m < |a.mails| ensures MailKeeps(a.mails[m], b.mails[m], m in wider) {
      assert MailKeeps(a.mails[m], b.mails[m], m in open);
    }
    forall m | 0 <= m < |a.mails| && m !in wider ensures NotLost(a.mails[m], b.mails[m], b.tasks) { assert m !in open; }
  }

  // ----- an event is accepted -----

  lemma NewMailFits(db: Store, t: Id, kind: Kind, source: Source, cause: Option<Id>, now: int)
    requires Shape(db) && t < |db.tasks|
    requires kind.Result? ==> kind.child < |db.tasks| && db.tasks[kind.child].parent == Some(t)
                              && !db.tasks[kind.child].evaluation && !Live(db.tasks[kind.child])
    ensures Shape(db.(mails := db.mails + [NewMail(db, t, kind, source, cause, now)]))
  {
    var db' := db.(mails := db.mails + [NewMail(db, t, kind, source, cause, now)]);
    forall m | 0 <= m < |db'.mails| ensures MailFits(db', m) {
      if m < |db.mails| { assert MailFits(db, m); } else { assert TaskFits(db, t); }
    }
    forall k | 0 <= k < |db'.tasks| ensures TaskFits(db', k) { assert TaskFits(db, k); }
    forall a | 0 <= a < |db'.agents| ensures AgentFits(db', a) { assert AgentFits(db, a); }
  }

  lemma LoadsAppend(db: Store, v: Mail, s: Id, g: Id)
    ensures SystemLoad(db.(mails := db.mails + [v]), s) == SystemLoad(db, s) + (if v.system == s then 1 else 0)
    ensures GoalLoad(db.(mails := db.mails + [v]), g) == GoalLoad(db, g) + (if v.goal == g then 1 else 0)
  {
    SumAppend(db.mails, v, MailInSystem(s));
    SumAppend(db.mails, v, MailInGoal(g));
  }

  /** Accepting an event is what the reserve check is for. The loads may be one too high before it for
      the sender's task itself, as when the task was appended in the same transaction. */
  lemma EmitReserve(db: Store, t: Id, kind: Kind, source: Source, cause: Option<Id>, now: int)
    requires t < |db.tasks| && Emit(db, t, kind, source, cause, now).Some?
    requires forall s: Id :: s != db.tasks[t].system ==> SystemLoad(db, s) <= MAX_SYSTEM_EVENTS
    requires forall g: Id :: g != db.tasks[t].goal ==> GoalLoad(db, g) <= MAX_GOAL_EVENTS
    ensures Reserve(Emit(db, t, kind, source, cause, now).value)
  {
    var db' := Emit(db, t, kind, source, cause, now).value;
    var v := NewMail(db, t, kind, source, cause, now);
    forall s: Id ensures SystemLoad(db', s) <= MAX_SYSTEM_EVENTS { LoadsAppend(db, v, s, 0); }
    forall g: Id ensures GoalLoad(db', g) <= MAX_GOAL_EVENTS { LoadsAppend(db, v, 0, g); }
  }

  lemma PledgesAppend(db: Store, v: Mail, x: Id)
    ensures Pledges(db.(mails := db.mails + [v]), x) == Pledges(db, x) + (if AwaitsReply(v, x) then 1 else 0)
  {
    SumAppend(db.mails, v, ReplyTo(x));
  }

  lemma AppendDeliveries(db: Store, v: Mail)
    requires Deliveries(db) && v.state == Pending && v.attempts == 0
    ensures Deliveries(db.(mails := db.mails + [v]))
  {
  }

  lemma AppendWaits(db: Store, v: Mail, t: Id)
    requires t < |db.tasks|
    ensures TaskWaits(db.(mails := db.mails + [v]), t) == TaskWaits(db, t)
  {
  }

  /** An accepted event keeps everything; a reply makes up for one missing pledge of its task. */
  lemma EmitRest(db: Store, t: Id, kind: Kind, source: Source, cause: Option<Id>, now: int, x: int, astray: set<Id>)
    requires RestBut(db, x, astray) && t < |db.tasks| && Emit(db, t, kind, source, cause, now).Some?
    requires kind.Result? ==> kind.child < |db.tasks| && db.tasks[kind.child].parent == Some(t)
                              && !db.tasks[kind.child].evaluation && !Live(db.tasks[kind.child]) && (x == t || t in astray)
    ensures var db' := Emit(db, t, kind, source, cause, now).value;
            && RestBut(db', x, astray) && Keeps(db, db', {})
            && (forall k: Id :: Pledges(db', k) == Pledges(db, k) + (if kind.Result? && k == t then 1 else 0))
            && (TaskWaits(db, t) ==> TaskWaits(db', t))
  {
    hide Shape, Deliveries, Refuses, TaskWaits;
    var v := NewMail(db, t, kind, source, cause, now);
    var db' := Emit(db, t, kind, source, cause, now).value;
    NewMailFits(db, t, kind, source, cause, now);
    AppendDeliveries(db, v);
    forall k: Id ensures Pledges(db', k) == Pledges(db, k) + (if kind.Result? && k == t then 1 else 0) {
      PledgesAppend(db, v, k);
    }
    forall k | 0 <= k < |db.tasks| && k != x && k !in astray ensures PledgeHolds(db', k) && TaskWaits(db', k) {
      assert PledgeHolds(db, k) && TaskWaits(db, k);
      AppendWaits(db, v, k);
    }
    AppendWaits(db, v, t);
  }

  lemma EmitInv(db: Store, t: Id, kind: Kind, source: Source, cause: Option<Id>, now: int, x: int, astray: set<Id>)
    requires InvBut(db, x, astray) && t < |db.tasks| && Emit(db, t, kind, source, cause, now).Some?
    requires kind.Result? ==> kind.child < |db.tasks| && db.tasks[kind.child].parent == Some(t)
                              && !db.tasks[kind.child].evaluation && !Live(db.tasks[kind.child]) && (x == t || t in astray)
    ensures var db' := Emit(db, t, kind, source, cause, now).value;
            && InvBut(db', x, astray) && Keeps(db, db', {})
            && (forall k: Id :: Pledges(db', k) == Pledges(db, k) + (if kind.Result? && k == t then 1 else 0))
            && (TaskWaits(db, t) ==> TaskWaits(db', t))
  {
    hide RestBut, Emit, Keeps, Pledges, TaskWaits;
    EmitRest(db, t, kind, source, cause, now, x, astray);
    EmitReserve(db, t, kind, source, cause, now);
  }

  /** What a transaction keeps of the deliveries alone. */
  ghost predicate MailsKeep(db: Store, db': Store) {
    && |db.mails| <= |db'.mails|
    && (forall m :: 0 <= m < |db.mails| ==> MailKeeps(db.mails[m], db'.mails[m], false))
    && (forall m :: |db.mails| <= m < |db'.mails| ==> NewMailOk(db'.mails[m]))
    && |db.calls| <= |db'.calls| && (forall c :: 0 <= c < |db.calls| ==> db'.calls[c].task == db.calls[c].task)
    && |db'.systems| >= |db.systems| && (forall s :: 0 <= s < |db.systems| ==> db'.systems[s].maxActive == db.systems[s].maxActive)
  }

  lemma KeepsMails(db: Store, db': Store)
    requires Keeps(db, db', {})
    ensures MailsKeep(db, db')
  {
    forall m | 0 <= m < |db.mails| ensures MailKeeps(db.mails[m], db'.mails[m], false) { assert MailKeeps(db.mails[m], db'.mails[m], m in {}); }
  }

  lemma MailsKeepTransitive(a: Store, b: Store, c: Store)
    requires MailsKeep(a, b) && MailsKeep(b, c)
    ensures MailsKeep(a, c)
  {
    forall m | 0 <= m < |a.mails| ensures MailKeeps(a.mails[m], c.mails[m], false) {
      assert MailKeeps(a.mails[m], b.mails[m], false) && MailKeeps(b.mails[m], c.mails[m], false);
    }
    forall m | |a.mails| <= m < |c.mails| ensures NewMailOk(c.mails[m]) {
      if m < |b.mails| { assert MailKeeps(b.mails[m], c.mails[m], false) && NewMailOk(b.mails[m]); }
    }
  }
}
