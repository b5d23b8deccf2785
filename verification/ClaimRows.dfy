/** What a claim does with a delivery: when exactly it is leased, what its task is then asked, and what becomes of the
    rows when it is not. */
module ClaimRows {
  import opened Common
  import opened Sums
  import opened Team
  import opened Mailbox
  import opened TaskEnds
  import opened TaskFates
  import opened EventRows

  // ----- inputs and turns -----

  predicate FreshInput(v: Mail, t: Id) { v.task == t && v.kind == Input && v.state == Pending && !v.applied }

  function FreshInputs(db: Store, t: Id): set<Id> { set m: Id | m < |db.mails| && FreshInput(db.mails[m], t) }

  /** `c` goes on from `before` with an answer and then as many user messages. */
  predicate Said(before: seq<Message>, answer: seq<Message>, users: nat, c: seq<Message>) {
    && |c| == |before| + |answer| + users && c[..|before| + |answer|] == before + answer
    && (forall i :: |before| + |answer| <= i < |c| ==> c[i] == User)
  }

  /** Every fresh input of the task is taken, nothing else. */
  predicate TakesInputs(mails: seq<Mail>, mails': seq<Mail>, t: Id) {
    |mails'| == |mails| && forall k :: 0 <= k < |mails| ==>
      mails'[k] == if FreshInput(mails[k], t) then mails[k].(state := Acked, applied := true) else mails[k]
  }

  lemma {:induction false} InputsCount(mails: seq<Mail>, t: Id, exclude: Option<Id>, n: nat, chosen: set<Id>)
    requires n <= |mails| && (exclude.Some? && exclude.value < |mails| ==> mails[exclude.value].kind != Input)
    requires chosen == set m: Id | m < n && FreshInput(mails[m], t)
    ensures InputsBelow(mails, t, exclude, n) == |chosen|
  {
    if n > 0 {
      var fewer := set m: Id | m < n - 1 && FreshInput(mails[m], t);
      InputsCount(mails, t, exclude, n - 1, fewer);
      if FreshInput(mails[n - 1], t) { assert chosen == fewer + {n - 1}; } else { assert chosen == fewer; }
    } else {
      assert chosen == {};
    }
  }

  lemma FedExactly(db: Store, t: Id, before: seq<Message>, answer: seq<Message>, exclude: Option<Id>)
    requires t < |db.tasks| && (exclude.Some? && exclude.value < |db.mails| ==> db.mails[exclude.value].kind != Input)
    ensures var db' := ConsumeInputs(db, t, before + answer, exclude);
            && db' == db.(tasks := db.tasks[t := db.tasks[t].(conversation := db'.tasks[t].conversation)], mails := db'.mails)
            && Said(before, answer, |FreshInputs(db, t)|, db'.tasks[t].conversation) && TakesInputs(db.mails, db'.mails, t)
  {
    InputsCount(db.mails, t, exclude, |db.mails|, FreshInputs(db, t));
  }

  /** Nothing forbids the task another turn. */
  predicate TurnAllowed(db: Store, t: Id, d: Doubt, now: int)
    requires t < |db.tasks|
  {
    var r := db.tasks[t];
    && !d.nextCall && !r.stopped && r.turns < 8
    && r.agent < |db.agents| && db.agents[r.agent].state != Off
    && now < (if r.goal < |db.goals| then db.goals[r.goal].deadline else 0)
  }

  lemma MayTurnExactly(db: Store, t: Id, d: Doubt, now: int)
    requires t < |db.tasks|
    ensures MayTurn(db, t, d, now) == TurnAllowed(db, t, d, now)
  {
  }

  /** The task's next call asks the model to go on from the conversation. */
  predicate Turned(db: Store, db': Store, t: Id, conversation: seq<Message>)
    requires t < |db.tasks|
  {
    && db' == db.(tasks := db.tasks[t := db.tasks[t].(phase := Queued, call := |db.calls|, turns := db.tasks[t].turns + 1,
                                                       waitingTool := None, conversation := conversation)],
                  calls := db.calls + [Call(t, Awaiting, 0, conversation)], mails := db'.mails)
  }

  // ----- what a delivery calls for -----

  /** A reply that was not applied yet. */
  predicate FreshReply(v: Mail) { v.kind.Result? && !v.applied }

  predicate Idles(r: Task) { r.phase == Waiting && r.waitingTool.None? }

  /** The delivery lets the task take a turn: it waited for input, or the reply answers its open call. */
  predicate TakesTurn(db: Store, m: Id)
    requires CandidateRow(db, m)
  {
    Idles(db.tasks[db.mails[m].task]) || FreshReply(db.mails[m])
  }

  /** The reply is the one the task waits for. */
  predicate Expected(db: Store, m: Id)
    requires CandidateRow(db, m)
  {
    var v, t := db.mails[m], db.mails[m].task;
    FreshReply(v) ==>
      && db.tasks[t].waitingTool.Some? && v.kind.child < |db.tasks| && db.tasks[v.kind.child].parent == Some(t)
      && db.tasks[v.kind.child].goal == db.tasks[t].goal && db.tasks[v.kind.child].phase.Done?
  }

  /** The task's request is built anew: for a new turn, or because it was never sent. */
  predicate AsksAnew(db: Store, m: Id)
    requires CandidateRow(db, m)
  {
    var r := db.tasks[db.mails[m].task];
    TakesTurn(db, m) || (r.call < |db.calls| && db.calls[r.call].state == Awaiting && db.calls[r.call].attempts == 0)
  }

  /** Nothing stands in the way of the lease. */
  predicate Unhindered(db: Store, m: Id, d: Doubt, now: int)
    requires CandidateRow(db, m)
  {
    && Expected(db, m) && !d.blocked
    && (TakesTurn(db, m) ==> TurnAllowed(db, db.mails[m].task, d, now))
    && (AsksAnew(db, m) ==> !d.inputs && !d.request)
  }

  function AnswerOf(db: Store, m: Id): seq<Message>
    requires CandidateRow(db, m)
  {
    var r := db.tasks[db.mails[m].task];
    if FreshReply(db.mails[m]) && r.waitingTool.Some? then [Reply(r.waitingTool.value)] else []
  }

  /** The task runs on its call with everything that was said to it, and its delivery is leased once more. */
  ghost predicate LeasedRows(db: Store, db': Store, m: Id)
    requires CandidateRow(db, m)
  {
    var t := db.mails[m].task;
    var r, turn, asks := db.tasks[t], TakesTurn(db, m), AsksAnew(db, m);
    && |db'.tasks| == |db.tasks| && |db'.mails| == |db.mails|
    && db' == db.(tasks := db'.tasks, calls := db'.calls, mails := db'.mails)
    && (forall k :: 0 <= k < |db.tasks| && k != t ==> db'.tasks[k] == db.tasks[k])
    && (forall k :: 0 <= k < |db.mails| && k != m ==>
          db'.mails[k] == if asks && FreshInput(db.mails[k], t) then db.mails[k].(state := Acked, applied := true) else db.mails[k])
    && db'.mails[m] == db.mails[m].(state := Leased, attempts := db.mails[m].attempts + 1, applied := true)
    && Said(r.conversation, AnswerOf(db, m), if asks then |FreshInputs(db, t)| else 0, db'.tasks[t].conversation)
    && db'.tasks[t] == r.(phase := Running, conversation := db'.tasks[t].conversation, call := if turn then |db.calls| else r.call,
                          turns := if turn then r.turns + 1 else r.turns, waitingTool := if turn then None else r.waitingTool)
    && db'.calls == (if turn then db.calls + [Call(t, Awaiting, 0, db'.tasks[t].conversation)]
                     else if asks && r.call < |db.calls| then db.calls[r.call := db.calls[r.call].(request := db'.tasks[t].conversation)]
                     else db.calls)
  }

  // ----- giving up -----

  /** Only the task's own row, its request, its next call and its inputs were touched so far. */
  ghost predicate Prepared(db: Store, base: Store, t: Id) {
    && t < |db.tasks| && |base.tasks| == |db.tasks| && LiveTask(base, t)
    && base == db.(tasks := db.tasks[t := base.tasks[t]], calls := base.calls, mails := base.mails)
    && base.tasks[t] == db.tasks[t].(phase := base.tasks[t].phase, conversation := base.tasks[t].conversation, call := base.tasks[t].call,
                                     turns := base.tasks[t].turns, waitingTool := base.tasks[t].waitingTool)
    && (base.mails == db.mails || TakesInputs(db.mails, base.mails, t))
    && |db.calls| <= |base.calls| <= |db.calls| + 1
    && (forall c :: 0 <= c < |db.calls| ==> base.calls[c] == db.calls[c].(request := base.calls[c].request))
  }

  /** The task ends, rejected, with all that its end entails and nothing else. */
  ghost predicate GivenUp(db: Store, db': Store, t: Id) {
    exists base: Store :: Prepared(db, base, t) && Rejects(base, db', t)
  }

  ghost predicate Rejects(base: Store, db': Store, t: Id) {
    && WorkFates(base, db', {t}, Rejected) && GoalFates(base, db') && SystemFates(base, db')
    && t < |db'.tasks| && db'.tasks[t].phase == Done(Rejected)
  }

  lemma RejectExactly(db: Store, base: Store, t: Id, m: Id, now: int)
    requires Prepared(db, base, t)
    ensures GivenUp(db, Terminate(base, t, Rejected, Runtime, Some(m), now), t)
  {
    hide WorkFates, GoalFates, SystemFates;
    TerminateWork(base, t, Rejected, Runtime, Some(m), now);
    TerminateGoals(base, t, Rejected, Runtime, Some(m), now);
    assert Rejects(base, Terminate(base, t, Rejected, Runtime, Some(m), now), t);
  }

  lemma PreparedSelf(db: Store, t: Id)
    requires LiveTask(db, t)
    ensures Prepared(db, db, t)
  {
  }

  // ----- steps of a delivery -----

  lemma NoFreshInputs(db: Store, db': Store, t: Id)
    requires TakesInputs(db.mails, db'.mails, t)
    ensures FreshInputs(db', t) == {}
  {
    forall m: Id | m < |db'.mails| ensures !FreshInput(db'.mails[m], t) { assert m < |db.mails|; }
  }

  lemma ResumeExactly(db: Store, t: Id, m: Id, answer: seq<Message>, exclude: Option<Id>, d: Doubt, now: int) returns (conversation: seq<Message>)
    requires LiveTask(db, t) && (exclude.Some? && exclude.value < |db.mails| ==> db.mails[exclude.value].kind != Input)
    ensures var before := db.tasks[t].conversation;
            var r := Resume(db, t, m, before + answer, exclude, d, now);
            && Said(before, answer, |FreshInputs(db, t)|, conversation)
            && r.Go? == (!d.inputs && TurnAllowed(db, t, d, now))
            && (r.Go? ==> Turned(db, r.db, t, conversation) && TakesInputs(db.mails, r.db.mails, t))
            && (r.Halt? ==> GivenUp(db, r.db, t))
  {
    hide Terminate, Said, TakesInputs, GivenUp, Prepared;
    var before := db.tasks[t].conversation;
    var fed := ConsumeInputs(db, t, before + answer, exclude);
    FedExactly(db, t, before, answer, exclude);
    conversation := fed.tasks[t].conversation;
    MayTurnExactly(fed, t, d, now);
    PreparedSelf(db, t);
    FedPrepared(db, fed, t);
    RejectExactly(db, db, t, m, now);
    RejectExactly(db, fed, t, m, now);
  }

  lemma FedPrepared(db: Store, fed: Store, t: Id)
    requires LiveTask(db, t) && |fed.tasks| == |db.tasks| && TakesInputs(db.mails, fed.mails, t)
    requires fed == db.(tasks := db.tasks[t := db.tasks[t].(conversation := fed.tasks[t].conversation)], mails := fed.mails)
    ensures Prepared(db, fed, t)
  {
    hide TakesInputs;
  }

  lemma TurnPrepared(db: Store, turned: Store, t: Id, conversation: seq<Message>)
    requires LiveTask(db, t) && Turned(db, turned, t, conversation) && TakesInputs(db.mails, turned.mails, t)
    ensures Prepared(db, turned, t)
  {
    hide TakesInputs;
  }

  /** Building the request anew takes whatever arrived in the meantime. */
  lemma RefreshExactly(db: Store, t: Id, m: Id, d: Doubt, now: int) returns (conversation: seq<Message>)
    requires LiveTask(db, t)
    ensures var r, asked := db.tasks[t], Refresh(db, t, m, d, now);
            var anew := r.call < |db.calls| && db.calls[r.call].state == Awaiting && db.calls[r.call].attempts == 0;
            && (!anew ==> asked == Go(db))
            && (anew ==> Said(r.conversation, [], |FreshInputs(db, t)|, conversation) && asked.Go? == (!d.inputs && !d.request))
            && (anew && asked.Go? ==>
                  && asked.db == db.(tasks := db.tasks[t := r.(conversation := conversation)], mails := asked.db.mails,
                                     calls := db.calls[r.call := db.calls[r.call].(request := conversation)])
                  && TakesInputs(db.mails, asked.db.mails, t))
            && (asked.Halt? ==> GivenUp(db, asked.db, t))
  {
    hide Terminate, Said, TakesInputs, GivenUp, Prepared;
    var before := db.tasks[t].conversation;
    assert before + [] == before;
    var fed := ConsumeInputs(db, t, before, None);
    FedExactly(db, t, before, [], None);
    conversation := fed.tasks[t].conversation;
    PreparedSelf(db, t);
    FedPrepared(db, fed, t);
    RejectExactly(db, db, t, m, now);
    RejectExactly(db, fed, t, m, now);
  }

  lemma PreparedThen(a: Store, b: Store, c: Store, t: Id)
    requires Prepared(a, b, t) && Prepared(b, c, t) && |a.calls| <= |c.calls| <= |a.calls| + 1
    ensures Prepared(a, c, t)
  {
    if b.mails != a.mails && c.mails != b.mails { TakenTwice(a, b, c, t); }
  }

  lemma TakenTwice(a: Store, b: Store, c: Store, t: Id)
    requires TakesInputs(a.mails, b.mails, t) && TakesInputs(b.mails, c.mails, t)
    ensures c.mails == b.mails
  {
    NoFreshInputs(a, b, t);
    forall m: Id | m < |b.mails| ensures c.mails[m] == b.mails[m] {
      assert m !in FreshInputs(b, t);
    }
  }

  /** What a new turn asks needs no refreshing. */
  lemma TurnedRefresh(db: Store, turned: Store, t: Id, m: Id, conversation: seq<Message>, d: Doubt, now: int)
    requires LiveTask(db, t) && Turned(db, turned, t, conversation) && TakesInputs(db.mails, turned.mails, t)
    ensures var asked := Refresh(turned, t, m, d, now);
            && asked.Go? == (!d.inputs && !d.request) && (asked.Go? ==> asked.db == turned) && (asked.Halt? ==> GivenUp(db, asked.db, t))
  {
    hide Terminate, TakesInputs, GivenUp, Prepared;
    var asked := Refresh(turned, t, m, d, now);
    var fed := ConsumeInputs(turned, t, conversation, None);
    assert conversation + [] == conversation;
    FedExactly(turned, t, conversation, [], None);
    NoFreshInputs(db, turned, t);
    TakenTwice(db, turned, fed, t);
    assert fed.tasks[t].conversation == conversation;
    assert fed.tasks == turned.tasks;
    TurnPrepared(db, turned, t, conversation);
    RejectExactly(db, turned, t, m, now);
  }

  // ----- the delivery -----

  lemma WakeDelivered(db: Store, m: Id, d: Doubt, now: int)
    requires CandidateRow(db, m) && LiveTask(db, db.mails[m].task) && Idles(db.tasks[db.mails[m].task]) && !FreshReply(db.mails[m])
    ensures var r := Deliver(db, db.mails[m].task, m, d, now);
            r.Leasing? == Unhindered(db, m, d, now) && if r.Leasing? then LeasedRows(db, r.db, m) else GivenUp(db, r.db, db.mails[m].task)
  {
    hide Terminate, GivenUp, Prepared, Resume, Refresh;
    var t := db.mails[m].task;
    var r := db.tasks[t];
    assert r.conversation + [] == r.conversation;
    var conversation := ResumeExactly(db, t, m, [], None, d, now);
    var applied := Resume(db, t, m, r.conversation, None, d, now);
    assert ApplyMail(db, t, m, d, now) == applied;
    if applied.Go? {
      TurnPrepared(db, applied.db, t, conversation);
      RejectExactly(db, applied.db, t, m, now);
      TurnedRefresh(db, applied.db, t, m, conversation, d, now);
    }
  }

  lemma ReplyDelivered(db: Store, m: Id, d: Doubt, now: int)
    requires CandidateRow(db, m) && LiveTask(db, db.mails[m].task) && FreshReply(db.mails[m]) && Expected(db, m)
    ensures var r := Deliver(db, db.mails[m].task, m, d, now);
            r.Leasing? == Unhindered(db, m, d, now) && if r.Leasing? then LeasedRows(db, r.db, m) else GivenUp(db, r.db, db.mails[m].task)
  {
    hide Terminate, GivenUp, Prepared, Resume, Refresh;
    var t := db.mails[m].task;
    var r := db.tasks[t];
    var conversation := ResumeExactly(db, t, m, [Reply(r.waitingTool.value)], Some(m), d, now);
    var applied := Resume(db, t, m, r.conversation + [Reply(r.waitingTool.value)], Some(m), d, now);
    assert ApplyMail(db, t, m, d, now) == applied;
    if applied.Go? {
      TurnPrepared(db, applied.db, t, conversation);
      RejectExactly(db, applied.db, t, m, now);
      TurnedRefresh(db, applied.db, t, m, conversation, d, now);
    }
  }

  lemma PlainDelivered(db: Store, m: Id, d: Doubt, now: int)
    requires CandidateRow(db, m) && LiveTask(db, db.mails[m].task) && !TakesTurn(db, m)
    ensures var r := Deliver(db, db.mails[m].task, m, d, now);
            r.Leasing? == Unhindered(db, m, d, now) && if r.Leasing? then LeasedRows(db, r.db, m) else GivenUp(db, r.db, db.mails[m].task)
  {
    hide Terminate, GivenUp, Prepared, Resume, Refresh;
    var t := db.mails[m].task;
    assert ApplyMail(db, t, m, d, now) == Go(db);
    var conversation := RefreshExactly(db, t, m, d, now);
    PreparedSelf(db, t);
    RejectExactly(db, db, t, m, now);
  }

  /** A reply nobody waits for is dropped. */
  lemma UnexpectedDelivered(db: Store, m: Id, d: Doubt, now: int)
    requires CandidateRow(db, m) && LiveTask(db, db.mails[m].task) && !Expected(db, m)
    ensures var r := Deliver(db, db.mails[m].task, m, d, now);
            && r.Passed? && (!Idles(db.tasks[db.mails[m].task]) ==> r.db == db.(mails := db.mails[m := db.mails[m].(state := Dead)]))
  {
    hide Resume, Refresh, Terminate;
    var t := db.mails[m].task;
    var r := db.tasks[t];
    if Idles(r) {
      assert r.conversation + [] == r.conversation;
      var conversation := ResumeExactly(db, t, m, [], None, d, now);
    }
  }

  // ----- the candidate -----

  /** Work on the task is over or called off. */
  predicate CalledOff(db: Store, t: Id)
    requires t < |db.tasks|
  {
    var r := db.tasks[t];
    || r.stopped || r.agent >= |db.agents| || db.agents[r.agent].state == Off || r.goal >= |db.goals| || db.goals[r.goal].control == Off
    || r.system >= |db.systems| || db.systems[r.system].state == Stopping || db.systems[r.system].state == Stopped
  }

  /** The delivery can never be worked on again. */
  predicate Hopeless(db: Store, m: Id, now: int)
    requires CandidateRow(db, m)
  {
    var v := db.mails[m];
    db.tasks[v.task].phase.Done? || CalledOff(db, v.task) || (0 < v.expires <= now) || v.attempts >= 3
  }

  /** System, agent and goal are neither paused nor anything else but active. */
  predicate Open(db: Store, t: Id)
    requires t < |db.tasks|
  {
    var r := db.tasks[t];
    && r.system < |db.systems| && db.systems[r.system].state == SystemState.Active
    && r.agent < |db.agents| && db.agents[r.agent].state == On && r.goal < |db.goals| && db.goals[r.goal].control == On
  }

  /** The daemon may start a worker for the task. */
  predicate Room(db: Store, active: map<Id, Activation>, t: Id)
    requires t < |db.tasks|
  {
    var s := db.tasks[t].system;
    s < |db.systems| && |set a | a in active && active[a].system == s| < db.systems[s].maxActive
  }

  /** The delivery waits for its turn: its agent works, something is paused, the system is busy, or its task is
      waiting for a reply. */
  predicate MustWait(db: Store, active: map<Id, Activation>, m: Id)
    requires CandidateRow(db, m)
  {
    var v, r := db.mails[m], db.tasks[db.mails[m].task];
    || !Open(db, v.task) || !Room(db, active, v.task)
    || (v.kind != Progress && r.phase == Waiting && r.waitingTool.Some? && !v.kind.Result?)
  }

  ghost predicate Buried(db: Store, db': Store, m: Id)
    requires CandidateRow(db, m)
  {
    var t := db.mails[m].task;
    var dropped := db.(mails := db.mails[m := db.mails[m].(state := Dead)]);
    var outcome := if CalledOff(db, t) then Canceled else Failed;
    && WorkFates(dropped, db', {t}, outcome) && GoalFates(dropped, db') && SystemFates(dropped, db')
    && t < |db'.tasks| && db'.tasks[t] == if Live(db.tasks[t]) then db.tasks[t].(phase := Done(outcome)) else db.tasks[t]
  }

  /** The fate of every candidate: left alone while its agent works; buried with its task when it is hopeless; left
      alone while it must wait; acknowledged when it only tells of progress; dropped when it is a reply nobody waits
      for; and otherwise leased, unless a doubt makes its task give up. */
  lemma ConsiderExactly(db: Store, active: map<Id, Activation>, m: Id, d: Doubt, now: int)
    requires CandidateRow(db, m)
    ensures var v, r, t := db.mails[m], Consider(db, active, m, d, now), db.mails[m].task;
            if db.tasks[t].agent in active then r == Passed(db)
            else if Hopeless(db, m, now) then r.Passed? && Buried(db, r.db, m)
            else if MustWait(db, active, m) then r == Passed(db)
            else if v.kind == Progress then r == Passed(db.(mails := db.mails[m := v.(state := Acked, applied := true)]))
            else if !Expected(db, m) then r.Passed? && (!Idles(db.tasks[t]) ==> r.db == db.(mails := db.mails[m := v.(state := Dead)]))
            else if Unhindered(db, m, d, now) then r.Leasing? && LeasedRows(db, r.db, m)
            else r.Passed? && GivenUp(db, r.db, t)
  {
    hide Terminate, GivenUp, Deliver, LeasedRows, Unhindered, WorkFates, GoalFates, SystemFates;
    var v, t := db.mails[m], db.mails[m].task;
    assert ActiveIn(active, db.tasks[t].system) == set a | a in active && active[a].system == db.tasks[t].system;
    var outcome := if CalledOff(db, t) then Canceled else Failed;
    var dropped := SetMail(db, m, v.(state := Dead));
    TerminateWork(dropped, t, outcome, Runtime, Some(m), now);
    TerminateGoals(dropped, t, outcome, Runtime, Some(m), now);
    if Live(db.tasks[t]) {
      if !Expected(db, m) {
        UnexpectedDelivered(db, m, d, now);
      } else if FreshReply(v) {
        ReplyDelivered(db, m, d, now);
      } else if Idles(db.tasks[t]) {
        WakeDelivered(db, m, d, now);
      } else {
        PlainDelivered(db, m, d, now);
      }
    }
  }

  // ----- the claim -----

  /** The claim's query offers what is pending and due for an agent that holds no delivery, and either hopeless or not
      held back by a pause or by the call its task waits on. */
  lemma CandidateExactly(db: Store, m: Id, now: int)
    ensures Candidate(db, m, now) ==
            (CandidateRow(db, m) && db.mails[m].state == Pending && db.mails[m].notBefore <= now
             && (forall n :: 0 <= n < |db.mails| && db.mails[n].state == Leased ==> db.mails[n].agent != db.mails[m].agent)
             && (Hopeless(db, m, now)
                 || (Open(db, db.mails[m].task)
                     && !(db.tasks[db.mails[m].task].phase == Waiting && db.tasks[db.mails[m].task].waitingTool.Some?
                          && !db.mails[m].kind.Result? && db.mails[m].kind != Progress))))
  {
  }

  /** The candidates before the one that is leased are passed over, one after the other. */
  ghost predicate PassesOver(r: Daemon, ids: seq<Id>, doubts: Id -> Doubt, now: int, stores: seq<Store>) {
    && 0 < |stores| <= |ids| + 1 && stores[0] == r.db
    && (forall i :: 0 <= i < |stores| - 1 ==>
          if CandidateRow(stores[i], ids[i]) then Consider(stores[i], r.active, ids[i], doubts(ids[i]), now) == Passed(stores[i + 1])
          else stores[i + 1] == stores[i])
  }

  lemma {:induction false} ClaimScan(r: Daemon, ids: seq<Id>, doubts: Id -> Doubt, now: int) returns (stores: seq<Store>)
    ensures PassesOver(r, ids, doubts, now, stores)
    ensures |stores| == |ids| + 1 ==> ClaimFrom(r, ids, doubts, now) == r.(db := stores[|ids|])
    ensures |stores| <= |ids| ==>
              var db, m := stores[|stores| - 1], ids[|stores| - 1];
              && CandidateRow(db, m) && Consider(db, r.active, m, doubts(m), now).Leasing?
              && var after := Consider(db, r.active, m, doubts(m), now).db;
                 m < |after.mails| && after.mails[m].task < |after.tasks| ==>
                   ClaimFrom(r, ids, doubts, now) == r.(db := after, active := r.active[after.mails[m].agent :=
                     Activation(after.mails[m].system, m, after.mails[m].task, after.tasks[after.mails[m].task].call)])
    decreases |ids|
  {
    hide Consider;
    if ids == [] {
      stores := [r.db];
    } else {
      var passed := if CandidateRow(r.db, ids[0]) then Consider(r.db, r.active, ids[0], doubts(ids[0]), now) else Passed(r.db);
      if passed.Leasing? {
        stores := [r.db];
      } else {
        var rest := ClaimScan(r.(db := passed.db), ids[1..], doubts, now);
        stores := [r.db] + rest;
        forall i | 0 <= i < |stores| - 1
          ensures if CandidateRow(stores[i], ids[i]) then Consider(stores[i], r.active, ids[i], doubts(ids[i]), now) == Passed(stores[i + 1])
                  else stores[i + 1] == stores[i]
        {
          if i > 0 { assert stores[i] == rest[i - 1] && ids[i] == ids[1..][i - 1]; }
        }
      }
    }
  }

  predicate SweptSystem(db: Store, x: System, s: Id, x': System) {
    x' == if x.state == Stopping && !StillHeld(db, s) then x.(state := Stopped) else x
  }

  /** A claim is made only by a daemon that is not shutting down and has fewer than 64 workers; it passes over
      candidates until one is leased, starts that one's worker, and stops systems that were only waiting for theirs. */
  lemma ClaimExactly(r: Daemon, ids: seq<Id>, doubts: Id -> Doubt, now: int)
    ensures var r' := Claim(r, ids, doubts, now);
            if r.down || |r.active| >= 64 then r' == r
            else
              var claimed := ClaimFrom(r, ids, doubts, now);
              && r' == claimed.(db := r'.db) && r'.db == claimed.db.(systems := r'.db.systems) && |r'.db.systems| == |claimed.db.systems|
              && (forall s :: 0 <= s < |claimed.db.systems| ==> SweptSystem(claimed.db, claimed.db.systems[s], s, r'.db.systems[s]))
  {
    hide ClaimFrom;
  }
}
