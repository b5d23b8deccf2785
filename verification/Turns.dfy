/** Conversations and turns: what consuming inputs and taking a turn keep. */
module Turns {
  import opened Common
  import opened Sums
  import opened Team
  import opened Mailbox
  import opened TeamInvariant
  import opened TaskEnds
  import opened Rewrites

  // ----- conversations -----

  lemma PairedConcat(a: seq<Message>, b: seq<Message>)
    requires WellPaired(a) && WellPaired(b)
    ensures WellPaired(a + b)
  {
    var c := a + b;
    forall i | 0 <= i < |c| && c[i].Assistant? && c[i].tool.Some? ensures i + 1 < |c| && c[i + 1] == Reply(c[i].tool.value) {
      if i < |a| { assert a[i] == c[i]; } else { assert b[i - |a|] == c[i]; }
    }
    forall i | 0 <= i < |c| && c[i].Reply? ensures 0 < i && c[i - 1] == Assistant(Some(c[i].to)) {
      if i < |a| { assert a[i] == c[i]; } else { assert b[i - |a|] == c[i]; }
    }
  }

  lemma PairedAnswer(c: seq<Message>, tool: Id)
    requires OpenWith(c, tool)
    ensures WellPaired(c + [Reply(tool)])
  {
    var pair := [Assistant(Some(tool)), Reply(tool)];
    assert c + [Reply(tool)] == c[..|c| - 1] + pair;
    PairedConcat(c[..|c| - 1], pair);
  }

  lemma OpensWith(c: seq<Message>, tool: Id)
    requires WellPaired(c)
    ensures OpenWith(c + [Assistant(Some(tool))], tool)
  {
    assert (c + [Assistant(Some(tool))])[..|c|] == c;
  }

  // ----- inputs -----

  lemma ConsumedMails(db: Store, t: Id, exclude: Option<Id>, k: Id)
    ensures var mails' := TakeInputs(db.mails, t, exclude);
            && Sum(mails', ReplyTo(k)) == Sum(db.mails, ReplyTo(k))
            && Sum(mails', MailInSystem(k)) == Sum(db.mails, MailInSystem(k))
            && Sum(mails', MailInGoal(k)) == Sum(db.mails, MailInGoal(k))
  {
    var mails' := TakeInputs(db.mails, t, exclude);
    SumSame(mails', db.mails, ReplyTo(k), ReplyTo(k));
    SumSame(mails', db.mails, MailInSystem(k), MailInSystem(k));
    SumSame(mails', db.mails, MailInGoal(k), MailInGoal(k));
  }

  function TookInputs(db: Store, t: Id, exclude: Option<Id>): Store { db.(mails := TakeInputs(db.mails, t, exclude)) }

  lemma TookInputsShape(db: Store, t: Id, exclude: Option<Id>)
    requires Shape(db)
    ensures Shape(TookInputs(db, t, exclude))
  {
    var db' := TookInputs(db, t, exclude);
    forall k | 0 <= k < |db'.tasks| ensures TaskFits(db', k) { assert TaskFits(db, k); }
    forall k | 0 <= k < |db'.mails| ensures MailFits(db', k) { assert MailFits(db, k); }
    forall a | 0 <= a < |db'.agents| ensures AgentFits(db', a) { assert AgentFits(db, a); }
  }

  lemma TookInputsInv(db: Store, t: Id, exclude: Option<Id>, x: int, astray: set<Id>)
    requires InvBut(db, x, astray)
    ensures var db' := TookInputs(db, t, exclude);
            InvBut(db', x, astray) && Keeps(db, db', {}) && forall k: Id :: Pledges(db', k) == Pledges(db, k)
  {
    hide Shape;
    var db' := TookInputs(db, t, exclude);
    TookInputsShape(db, t, exclude);
    forall k: Id ensures SystemLoad(db', k) == SystemLoad(db, k) && GoalLoad(db', k) == GoalLoad(db, k) && Pledges(db', k) == Pledges(db, k) {
      ConsumedMails(db, t, exclude, k);
    }
    forall k | 0 <= k < |db'.tasks| && k != x && k !in astray ensures PledgeHolds(db', k) && TaskWaits(db', k) { assert PledgeHolds(db, k) && TaskWaits(db, k); }
    forall m | 0 <= m < |db'.mails| ensures MailCounted(db'.mails[m]) { assert MailCounted(db.mails[m]); }
  }

  /** Rewriting the task in question keeps everyone else, whatever it becomes. */
  lemma ReplaceTask(db: Store, t: Id, r: Task, astray: set<Id>)
    requires InvBut(db, t, astray) && t < |db.tasks| && SameTask(db.tasks[t], r)
    requires r.call < |db.calls| && db.calls[r.call].task == t
    ensures InvBut(SetTask(db, t, r), t, astray)
    ensures (r.waitingTool.Some? ==> db.tasks[t].waitingTool.Some?) && (r.phase == Waiting ==> db.tasks[t].phase == Waiting) ==>
              Keeps(db, SetTask(db, t, r), {})
    ensures Pledges(SetTask(db, t, r), t) == Pledges(db, t)
  {
    hide Pledges, SystemLoad, GoalLoad, Shape;
    var db' := SetTask(db, t, r);
    TaskShape(db, t, r);
    forall k: Id ensures SystemLoad(db', k) <= MAX_SYSTEM_EVENTS && GoalLoad(db', k) <= MAX_GOAL_EVENTS { TaskSums(db, t, r, k); }
    forall k | 0 <= k < |db'.tasks| && k != t && k !in astray ensures PledgeHolds(db', k) && TaskWaits(db', k) && TaskTalks(db'.tasks[k]) {
      assert PledgeHolds(db, k) && TaskWaits(db, k) && TaskTalks(db.tasks[k]);
      TaskSums(db, t, r, k);
    }
    TaskSums(db, t, r, t);
  }

  lemma ConsumeInv(db: Store, t: Id, conversation: seq<Message>, exclude: Option<Id>, astray: set<Id>)
    requires InvBut(db, t, astray) && t < |db.tasks|
    ensures var db' := ConsumeInputs(db, t, conversation, exclude);
            && InvBut(db', t, astray) && Keeps(db, db', {}) && Pledges(db', t) == Pledges(db, t)
            && |db'.tasks| == |db.tasks| && |db'.mails| == |db.mails| && db'.calls == db.calls && db'.receipts == db.receipts
            && (WellPaired(conversation) ==> WellPaired(db'.tasks[t].conversation))
  {
    hide InvBut, Keeps, Pledges, WellPaired;
    var db' := ConsumeInputs(db, t, conversation, exclude);
    var took := TookInputs(db, t, exclude);
    TookInputsInv(db, t, exclude, t, astray);
    assert took.tasks[t].call < |took.calls| && took.calls[took.tasks[t].call].task == t by { FitsOf(took, t, astray); }
    ReplaceTask(took, t, db'.tasks[t], astray);
    assert db' == SetTask(took, t, db'.tasks[t]);
    KeepsTransitive(db, took, db', {});
    UsersPaired(InputsBelow(db.mails, t, exclude, |db.mails|));
    if WellPaired(conversation) {
      PairedConcat(conversation, Users(InputsBelow(db.mails, t, exclude, |db.mails|)));
    }
  }

  lemma FitsOf(db: Store, t: Id, astray: set<Id>)
    requires InvBut(db, t, astray) && t < |db.tasks|
    ensures db.tasks[t].call < |db.calls| && db.calls[db.tasks[t].call].task == t
  {
    assert TaskFits(db, t);
  }

  lemma UsersPaired(n: nat)
    ensures WellPaired(Users(n))
  {
  }

  // ----- turns -----

  lemma AppendCallShape(db: Store, e: Call)
    requires Shape(db) && e.task < |db.tasks|
    ensures Shape(db.(calls := db.calls + [e]))
  {
    var db' := db.(calls := db.calls + [e]);
    forall k | 0 <= k < |db'.tasks| ensures TaskFits(db', k) { assert TaskFits(db, k); }
    forall k | 0 <= k < |db'.mails| ensures MailFits(db', k) { assert MailFits(db, k); }
    forall a | 0 <= a < |db'.agents| ensures AgentFits(db', a) { assert AgentFits(db, a); }
  }

  lemma AppendCallInv(db: Store, e: Call, x: int, astray: set<Id>)
    requires InvBut(db, x, astray) && e.task < |db.tasks| && (e.task in astray || WellPaired(e.request))
    ensures var db' := db.(calls := db.calls + [e]);
            InvBut(db', x, astray) && Keeps(db, db', {}) && forall k: Id :: Pledges(db', k) == Pledges(db, k)
  {
    hide Shape;
    var db' := db.(calls := db.calls + [e]);
    AppendCallShape(db, e);
    forall k: Id ensures SystemLoad(db', k) == SystemLoad(db, k) && GoalLoad(db', k) == GoalLoad(db, k) && Pledges(db', k) == Pledges(db, k) {
    }
    forall k | 0 <= k < |db'.tasks| && k != x && k !in astray ensures PledgeHolds(db', k) && TaskWaits(db', k) { assert PledgeHolds(db, k) && TaskWaits(db, k); }
  }

  /** The task is between turns: queued or running, nothing open, nothing waited for. */
  predicate Ongoing(db: Store, t: Id) {
    LiveTask(db, t) && db.tasks[t].phase != Waiting && db.tasks[t].waitingTool.None? && WellPaired(db.tasks[t].conversation)
  }

  /** Between turns, or astray. */
  predicate Proceeding(db: Store, t: Id, astray: set<Id>) { LiveTask(db, t) && (t in astray || Ongoing(db, t)) }

  lemma OngoingHolds(db: Store, t: Id)
    requires Ongoing(db, t)
    ensures TaskTalks(db.tasks[t]) && TaskWaits(db, t)
    ensures PledgeHolds(db, t) <==> db.tasks[t].stopped || Pledges(db, t) == 0
  {
  }

  lemma TakeTurnInv(db: Store, t: Id, conversation: seq<Message>, astray: set<Id>)
    requires InvBut(db, t, astray) && LiveTask(db, t) && (t in astray || WellPaired(conversation))
    ensures var db' := TakeTurn(db, t, conversation);
            && InvBut(db', t, astray) && Keeps(db, db', {}) && Proceeding(db', t, astray) && Pledges(db', t) == Pledges(db, t)
            && |db'.tasks| == |db.tasks| && db'.mails == db.mails && db'.tasks[t].stopped == db.tasks[t].stopped
  {
    hide InvBut, Keeps, Pledges, WellPaired;
    var e := Call(t, Awaiting, 0, conversation);
    var called := db.(calls := db.calls + [e]);
    var db' := TakeTurn(db, t, conversation);
    AppendCallInv(db, e, t, astray);
    ReplaceTask(called, t, db'.tasks[t], astray);
    assert db' == SetTask(called, t, db'.tasks[t]);
    KeepsTransitive(db, called, db', {});
  }
}
