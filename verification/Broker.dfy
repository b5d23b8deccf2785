/** The admission broker as it runs: fields updated in place, loops over candidates, groups, pins and
    payers. Every method is proved to compute the transaction of the model. */
module Broker {
  import opened Common
  import opened Tables
  import opened Sums
  import opened Ledger
  import opened Quota
  import opened Admission
  import opened Steps
  import Invariant
  import AdmissionInv

  lemma {:induction false} DispatchAtFrame(b: map<Id, Bucket>, b': map<Id, Bucket>, groups: seq<Id>, now: int)
    requires forall g :: g in groups ==> g in b && g in b' && b'[g].updated == b[g].updated
    ensures DispatchAt(b', groups, now) == DispatchAt(b, groups, now)
  {
    if groups != [] {
      DispatchAtFrame(b, b', groups[..|groups| - 1], now);
    }
  }

  predicate AllUsable(db: Db, t: Id, pins: seq<Id>, now: int) {
    forall p :: p in pins ==> PinUsable(db, t, p, now)
  }

  lemma UsablePrefix(db: Db, t: Id, pins: seq<Id>, i: nat, now: int)
    requires i < |pins|
    ensures AllUsable(db, t, pins[..i + 1], now) <==> AllUsable(db, t, pins[..i], now) && PinUsable(db, t, pins[i], now)
    ensures AllUsable(db, t, pins, now) ==> PinUsable(db, t, pins[i], now)
  {
    hide PinUsable;
    assert pins[..i + 1] == pins[..i] + [pins[i]];
  }

  lemma {:induction false} UnpaidPrefix(uses: set<(Id, Id)>, t: Id, pins: seq<Id>, i: nat)
    requires i < |pins|
    ensures Unpaid(uses, t, pins[..i + 1])
            == if (pins[i], t) in uses then Unpaid(uses, t, pins[..i]) else Unpaid(uses, t, pins[..i]) + [pins[i]]
  {
    assert pins[..i + 1][..i] == pins[..i];
  }

  lemma {:induction false} UnpaidDistinct(uses: set<(Id, Id)>, t: Id, pins: seq<Id>)
    requires Distinct(pins)
    ensures Distinct(Unpaid(uses, t, pins))
  {
    if pins != [] {
      var init := pins[..|pins| - 1];
      UnpaidDistinct(uses, t, init);
      var rest := Unpaid(uses, t, init);
      assert forall k :: 0 <= k < |rest| ==> rest[k] in init;
    }
  }

  predicate GroupFits(cfg: Config, calls: seq<Call>, attempts: seq<Attempt>, b: Bucket, g: Id, reservation: nat, now: int)
    requires g in cfg.groups
  {
    Fits(cfg.groups[g], b, TokensSince(calls, attempts, g, b.updated - WINDOW_MS), InFlightCount(calls, attempts, g), reservation, now)
  }

  class Broker {
    const cfg: Config
    var systems: seq<System>
    var goals: seq<Goal>
    var agents: seq<Agent>
    var tasks: seq<Task>
    var usage: map<(Id, Id), Usage>
    var calls: seq<Call>
    var attempts: seq<Attempt>
    var buckets: map<Id, Bucket>
    var approvals: map<Id, Approval>
    var uses: set<(Id, Id)>

    function View(): Db
      reads this
    {
      Db(systems, goals, agents, tasks, usage, calls, attempts, buckets, approvals, uses)
    }

    predicate Valid()
      reads this
    {
      ValidConfig(cfg) && Refs(cfg, View())
    }

    constructor (configuration: Config)
      requires ValidConfig(configuration)
      ensures Valid() && cfg == configuration && View() == EMPTY
    {
      cfg := configuration;
      systems, goals, agents, tasks, calls, attempts := [], [], [], [], [], [];
      usage, buckets, approvals, uses := map[], map[], map[], {};
    }

    /** A worker's call joins the queue. */
    method Queue(session: Session)
      requires Valid()
      modifies this`calls
      ensures Valid() && View() == QueueCall(old(View()), session)
    {
      hide GoalRefs, AgentForest, TaskForest, AgentRefs, TaskRefs, UsageRefs, ValidConfig;
      if Authorized(View(), session) && calls[session.call].state == Awaiting {
        calls := calls[session.call := calls[session.call].(state := Queued)];
      }
    }

    /** A worker gives up before dispatch. */
    method Cancel(session: Session)
      requires Valid()
      modifies this`calls
      ensures Valid() && View() == CancelCall(old(View()), session)
      ensures session.call < |calls| && old(calls)[session.call].state == Running ==> calls == old(calls)
    {
      hide GoalRefs, AgentForest, TaskForest, AgentRefs, TaskRefs, UsageRefs, ValidConfig;
      if Authorized(View(), session) && (calls[session.call].state == Awaiting || calls[session.call].state == Queued) {
        calls := calls[session.call := calls[session.call].(state := Canceled)];
      }
    }

    /** One group's window and concurrency totals, as one pass over the attempts. */
    method GroupTotals(g: Id, since: int) returns (tokens: int, inFlight: int)
      ensures tokens == TokensSince(calls, attempts, g, since)
      ensures inFlight == InFlightCount(calls, attempts, g)
    {
      tokens, inFlight := 0, 0;
      for i := 0 to |attempts|
        invariant tokens == Sum(attempts[..i], DispatchedSince(calls, g, since))
        invariant inFlight == Sum(attempts[..i], InFlightIn(calls, g))
      {
        var a := attempts[i];
        assert attempts[..i + 1] == attempts[..i] + [a];
        SumAppend(attempts[..i], a, DispatchedSince(calls, g, since));
        SumAppend(attempts[..i], a, InFlightIn(calls, g));
        if a.call < |calls| && g in calls[a.call].groups {
          if a.dispatchedAt > since { tokens := tokens + a.reservation; }
          if a.state == InFlight { inFlight := inFlight + 1; }
        }
      }
      assert attempts[..|attempts|] == attempts;
    }

    /** Refills one group and says whether it admits the call. */
    method PollGroup(g: Id, reservation: nat, now: int) returns (fits: bool, effective: int)
      requires g in cfg.groups
      modifies this`buckets
      ensures buckets == old(buckets)[g := Poll(cfg.groups[g], Lookup(old(buckets), g), now)]
      ensures effective == buckets[g].updated
      ensures fits <==> GroupFits(cfg, calls, attempts, buckets[g], g, reservation, now)
    {
      hide Rate, TokensSince, InFlightCount;
      var limits := cfg.groups[g];
      ghost var was := buckets;
      if g !in buckets {
        buckets := buckets[g := Bucket(limits.burst as real, now, 0)];
      }
      var row := buckets[g];
      assert row == Row(limits, Lookup(was, g), now);
      effective := Max(now, row.updated);
      var credit := RealMin(limits.burst as real, row.credit + (effective - row.updated) as real * Rate(limits));
      buckets := buckets[g := row.(credit := credit, updated := effective)];
      assert buckets[g] == Poll(limits, Lookup(was, g), now);
      assert buckets == was[g := buckets[g]];
      var tokens, inFlight := GroupTotals(g, effective - WINDOW_MS);
      fits := !(credit < 1.0 || row.cooldown > now || tokens + reservation > limits.tokensPerMinute || inFlight >= limits.maxConcurrent);
    }

    /** Refills every group of a call and says whether all of them admit it, and the dispatch instant. */
    method PollGroups(groups: seq<Id>, reservation: nat, now: int) returns (allowed: bool, at: int)
      requires Distinct(groups) && forall g :: g in groups ==> g in cfg.groups
      modifies this`buckets
      ensures buckets == PollAll(cfg, old(buckets), groups, now)
      ensures forall g :: g in groups ==> g in buckets
      ensures allowed <==> forall g :: g in groups ==> GroupFits(cfg, calls, attempts, buckets[g], g, reservation, now)
      ensures at == DispatchAt(buckets, groups, now)
    {
      hide GroupFits, Poll;
      allowed, at := true, now;
      ghost var was := buckets;
      for i := 0 to |groups|
        invariant buckets == PollAll(cfg, was, groups[..i], now)
        invariant forall k :: 0 <= k < i ==> groups[k] in buckets
        invariant allowed <==> forall k :: 0 <= k < i ==> GroupFits(cfg, calls, attempts, buckets[groups[k]], groups[k], reservation, now)
        invariant at == DispatchAt(buckets, groups[..i], now)
      {
        var g := groups[i];
        assert groups[..i + 1][..i] == groups[..i];
        ghost var before := buckets;
        var fits, effective := PollGroup(g, reservation, now);
        DispatchAtFrame(before, buckets, groups[..i], now);
        at := Max(at, effective);
        if !fits {
          allowed := false;
        }
      }
      assert groups[..|groups|] == groups;
    }

    /** The pins the task still has to pay for, unless one of them is not usable. */
    method CheckPins(t: Id, now: int) returns (pending: Option<seq<Id>>)
      requires t < |tasks|
      ensures pending.Some? <==> AllUsable(View(), t, tasks[t].pins, now)
      ensures pending.Some? ==> pending.value == Unpaid(uses, t, tasks[t].pins)
    {
      var pins := tasks[t].pins;
      var unpaid: seq<Id> := [];
      ghost var db := View();
      assert Unpaid(uses, t, pins[..0]) == [];
      hide Unpaid, AllUsable;
      for i := 0 to |pins|
        invariant unpaid == Unpaid(uses, t, pins[..i])
        invariant AllUsable(db, t, pins[..i], now)
      {
        var p := pins[i];
        UnpaidPrefix(uses, t, pins, i);
        UsablePrefix(db, t, pins, i, now);
        if p !in approvals || !approvals[p].live || now >= approvals[p].expires {
          return None;
        }
        if (p, t) !in uses {
          if approvals[p].remaining == 0 {
              return None;
          }
          unpaid := unpaid + [p];
        }
      }
      assert pins[..|pins|] == pins;
      return Some(unpaid);
    }

    function Paid(before: map<Id, Approval>, pending: seq<Id>): map<Id, Approval> {
      map p | p in before :: if p in pending then before[p].(remaining := Max(before[p].remaining - 1, 0)) else before[p]
    }

    method PayPins(t: Id, pending: seq<Id>)
      requires Distinct(pending) && forall p :: p in pending ==> p in approvals && approvals[p].remaining > 0
      modifies this`approvals, this`uses
      ensures approvals == Paid(old(approvals), pending)
      ensures uses == old(uses) + set p | p in pending :: (p, t)
    {
      ghost var was, used := approvals, uses;
      for j := 0 to |pending|
        invariant approvals == Paid(was, pending[..j])
        invariant uses == used + set p | p in pending[..j] :: (p, t)
      {
        var p := pending[j];
        assert p in pending;
        assert pending[..j + 1] == pending[..j] + [p] && p !in pending[..j];
        approvals := approvals[p := approvals[p].(remaining := approvals[p].remaining - 1)];
        uses := uses + {(p, t)};
      }
      assert pending[..|pending|] == pending;
    }

    /** First every pin is checked, then every unpaid one is paid. */
    method AdmitUses(t: Id, now: int) returns (paid: bool)
      requires t < |tasks| && Distinct(tasks[t].pins)
      modifies this`approvals, this`uses
      ensures paid <==> SpendUses(old(View()), t, now).Some?
      ensures View() == if paid then SpendUses(old(View()), t, now).value else old(View())
    {
      var pending := CheckPins(t, now);
      if pending.None? {
        return false;
      }
      UnpaidDistinct(uses, t, tasks[t].pins);
      assert forall p :: p in pending.value ==> PinUsable(View(), t, p, now);
      PayPins(t, pending.value);
      return true;
    }

    /** The ledger of a call: two walks up the forest. */
    method BudgetAgents(agent: Id, task: Id) returns (payers: set<Id>)
      requires Valid()
      ensures payers == Payers(agents, tasks, agent, task)
    {
      hide ValidConfig, GoalRefs, AgentRefs, TaskRefs, UsageRefs, CallRefs, AttemptRefs;
      payers := {};
      var a: Option<Id> := if agent < |agents| then Some(agent) else None;
      while a.Some?
        invariant a.Some? ==> a.value < |agents|
        invariant Lineage(agents, agent) == payers + (if a.Some? then Lineage(agents, a.value) else {})
        decreases if a.Some? then a.value + 1 else 0
      {
        payers := payers + {a.value};
        a := agents[a.value].parent;
      }
      ghost var lineage := payers;
      var t: Option<Id> := if task < |tasks| then Some(task) else None;
      while t.Some?
        invariant t.Some? ==> t.value < |tasks|
        invariant Chain(tasks, task) + lineage == payers + (if t.Some? then Chain(tasks, t.value) else {})
        decreases if t.Some? then t.value + 1 else 0
      {
        payers := payers + {tasks[t.value].agent};
        t := tasks[t.value].parent;
      }
    }

    /** Adds to the usage row of every payer of the call, one after the other. */
    method ChargeAgents(e: Call, reserved: int, used: int)
      requires Valid()
      modifies this`usage
      ensures usage == Charge(old(usage), Payers(agents, tasks, e.agent, e.task), e.goal, reserved, used)
    {
      hide Refs, ValidConfig, Lineage, Chain;
      var payers := BudgetAgents(e.agent, e.task);
      var pending := payers;
      ghost var was := usage;
      while pending != {}
        invariant pending <= payers
        invariant usage == Charge(was, payers - pending, e.goal, reserved, used)
        decreases |pending|
      {
        var a :| a in pending;
        if (a, e.goal) in usage {
          var row := usage[(a, e.goal)];
          usage := usage[(a, e.goal) := Usage(row.used + used, row.reserved + reserved)];
        }
        assert payers - (pending - {a}) == payers - pending + {a};
        pending := pending - {a};
      }
      assert payers - {} == payers;
    }

    method SpendGroups(groups: seq<Id>)
      requires Distinct(groups) && forall g :: g in groups ==> g in buckets
      modifies this`buckets
      ensures buckets == Spend(old(buckets), groups)
    {
      ghost var was := buckets;
      for i := 0 to |groups|
        invariant buckets == Spend(was, groups[..i])
      {
        var g := groups[i];
        assert groups[..i + 1] == groups[..i] + [g] && g !in groups[..i];
        buckets := buckets[g := buckets[g].(credit := buckets[g].credit - 1.0)];
      }
      assert groups[..|groups|] == groups;
    }

    /** Records an admitted request in every table it touches. */
    method Record(c: Id, at: int)
      requires Valid() && c < |calls| && calls[c].system < |systems| && calls[c].goal < |goals|
      requires Distinct(calls[c].groups) && forall g :: g in calls[c].groups ==> g in buckets
      modifies this
      ensures View() == Dispatch(old(View()), c, at)
    {
      hide Refs, ValidConfig, Charge, Spend, Payers;
      ghost var was := View();
      var e := calls[c];
      ChargeAgents(e, e.reservation, 0);
      SpendGroups(e.groups);
      systems := systems[e.system := systems[e.system].(reserved := systems[e.system].reserved + e.reservation)];
      goals := goals[e.goal := goals[e.goal].(reserved := goals[e.goal].reserved + e.reservation)];
      attempts := attempts + [Attempt(c, e.system, at, e.reservation, InFlight, false, 0, 0)];
      systems := systems[e.system := systems[e.system].(lastAdmission := |attempts|)];
      calls := calls[c := e.(state := Running, attempts := e.attempts + 1)];
      assert systems == Dispatch(was, c, at).systems;
    }

    /** One admission transaction: the loop over candidates in fair order. */
    method Admit(session: Session, now: int, denied: set<Id>) returns (admitted: bool)
      requires Valid()
      modifies this
      ensures Valid()
      ensures (View(), admitted) == Admission.Admit(cfg, old(View()), session, now, denied)
    {
      hide Refs, ValidConfig, RefusalOf, Candidates, PollAll, DispatchAt, Dispatch, SpendUses, GroupFits;
      admitted := false;
      if !Authorized(View(), session) || calls[session.call].state != Queued {
        return;
      }
      var ids := Candidates(View());
      ghost var start := View();
      assert forall i :: 0 <= i < |ids| ==> ids[i] < |start.calls| by { CandidatesExist(start); }
      var k := 0;
      while k < |ids|
        invariant 0 <= k <= |ids| && Valid() && |calls| == |start.calls| && !admitted
        invariant Scan(cfg, View(), ids[k..], session.call, now, denied) == Scan(cfg, start, ids, session.call, now, denied)
      {
        var c := ids[k];
        var e := calls[c];
        ghost var db := View();
        assert ids[k..][0] == c && ids[k..][1..] == ids[k + 1..];
        k := k + 1;
        var reason := RefusalOf(cfg, View(), c, now, denied);
        if reason.Some? {
          calls := calls[c := e.(state := Rejected)];
          PassOverRefs(cfg, db, c, Refused(reason.value));
          continue;
        }
        CallGroups(cfg, db, c);
        var allowed, at := PollGroups(e.groups, e.reservation, now);
        PolledVerdict(cfg, db, View(), c, now, denied, allowed);
        ghost var polled := View();
        if !allowed {
          continue;
        }
        if c != session.call {
          return;
        }
        var paid := AdmitUses(e.task, now);
        if !paid {
          calls := calls[c := e.(state := Rejected)];
          PassOverRefs(cfg, polled, c, Refused(ApprovalDenied));
          continue;
        }
        PaidRefs(cfg, polled, View(), e.task, now);
        ghost var ready := View();
        Record(c, at);
        assert View() == Dispatch(ready, c, at);
        GrantedRefs(cfg, polled, c, now);
        return true;
      }
    }

    /** How many calls hold a queue place in the group. */
    method QueuedTotal(g: Id) returns (queued: int)
      ensures queued == QueuedCount(calls, g)
    {
      queued := 0;
      for i := 0 to |calls|
        invariant queued == Sum(calls[..i], QueuedIn(g))
      {
        assert calls[..i + 1] == calls[..i] + [calls[i]];
        SumAppend(calls[..i], calls[i], QueuedIn(g));
        if g in calls[i].groups && (calls[i].state == Awaiting || calls[i].state == Queued) {
          queued := queued + 1;
        }
      }
      assert calls[..|calls|] == calls;
    }

    /** Cools every group of a throttled call, and finds its shortest wait and whether all queues are open. */
    method CoolGroups(groups: seq<Id>, until: int) returns (wait: int, open: bool)
      requires Distinct(groups) && forall g :: g in groups ==> g in cfg.groups
      modifies this`buckets
      ensures buckets == Cool(old(buckets), groups, until)
      ensures wait == ShortestWait(cfg, groups)
      ensures open == QueueOpen(cfg, calls, groups)
    {
      hide QueuedCount, Cool;
      wait, open := 3600, true;
      ghost var was := buckets;
      CoolNone(was, until);
      for i := 0 to |groups|
        invariant buckets == Cool(was, groups[..i], until)
        invariant wait == ShortestWait(cfg, groups[..i])
        invariant open == QueueOpen(cfg, calls, groups[..i])
      {
        var g := groups[i];
        assert groups[..i + 1] == groups[..i] + [g] && groups[..i + 1][..i] == groups[..i];
        wait := Min(wait, cfg.groups[g].maxWaitSeconds);
        CoolOneMore(was, groups[..i], g, until);
        if g in buckets {
          buckets := buckets[g := buckets[g].(cooldown := Max(buckets[g].cooldown, until))];
        }
        var queued := QueuedTotal(g);
        if queued >= cfg.groups[g].queueCapacity {
          open := false;
        }
      }
      assert groups[..|groups|] == groups;
    }

    /** Releases the reservation and books the actual usage of a known outcome. */
    method BookUsage(c: Id, actual: nat)
      requires Valid() && c < |calls| && calls[c].system < |systems| && calls[c].goal < |goals|
      modifies this`systems, this`goals, this`usage
      ensures View() == Book(old(View()), c, actual)
    {
      hide Refs, ValidConfig, Charge, Payers;
      var e := calls[c];
      ChargeAgents(e, -(e.reservation as int), actual);
      systems := systems[e.system := systems[e.system].(reserved := systems[e.system].reserved - e.reservation,
                                                        used := systems[e.system].used + actual)];
      goals := goals[e.goal := goals[e.goal].(reserved := goals[e.goal].reserved - e.reservation, used := goals[e.goal].used + actual)];
    }

    /** One settlement transaction. */
    method Settle(session: Session, p: ProviderResult, now: int)
      requires Valid()
      modifies this
      ensures Valid() && View() == Admission.Settle(cfg, old(View()), session, p, now)
    {
      hide Refs, ValidConfig, Book, Cool, QueuedCount;
      if !Authorized(View(), session) || calls[session.call].state != Running {
        return;
      }
      ghost var db := View();
      var c := session.call;
      var e := calls[c];
      CallGroups(cfg, db, c);
      SettleRefs(cfg, db, session, p, now);
      var state := Unknown;
      if p.known {
        state := if p.failed then Failed else Completed;
        BookUsage(c, p.input + p.output);
      }
      attempts := SettleAttempts(attempts, c, p);
      var queuedAt, waitDeadline := e.queuedAt, e.waitDeadline;
      if p.retry {
        var wait, open := CoolGroups(e.groups, if p.cooldown.Some? then p.cooldown.value else now + p.retryDelay);
        BookedState(db, c, p.input + p.output);
        if e.attempts < MAX_ATTEMPTS && now < e.deadline && systems[e.system].state == Active && open {
          state, queuedAt, waitDeadline := Queued, now, Min(e.deadline, now + wait * 1000);
        }
      }
      calls := calls[c := e.(state := state, queuedAt := queuedAt, waitDeadline := waitDeadline)];
      assert Requeues(cfg, db, c, p, now) <==> state == Queued;
    }

    /** Restart: a loop over the attempts, then one over the calls. */
    method RecoverCalls()
      requires Valid()
      modifies this`attempts, this`calls
      ensures Valid() && View() == Recover(old(View()))
    {
      hide Refs, ValidConfig;
      ghost var db := View();
      var i := 0;
      while i < |attempts|
        invariant View() == db.(attempts := attempts) && 0 <= i <= |attempts| == |db.attempts|
        invariant forall k :: 0 <= k < |attempts| ==> attempts[k] == if k < i then AbandonAttempt(db.attempts[k]) else db.attempts[k]
      {
        if attempts[i].state == InFlight {
          attempts := attempts[i := attempts[i].(state := Unresolved)];
        }
        i := i + 1;
      }
      assert attempts == Recover(db).attempts;
      i := 0;
      while i < |calls|
        invariant View() == db.(attempts := Recover(db).attempts, calls := calls) && 0 <= i <= |calls| == |db.calls|
        invariant forall k :: 0 <= k < |calls| ==> calls[k] == if k < i then AbandonCall(db.calls[k]) else db.calls[k]
      {
        if calls[i].state == Running {
          calls := calls[i := calls[i].(state := Unknown)];
        }
        i := i + 1;
      }
      AdmissionInv.RecoverExtends(cfg, db);
      assert View() == Recover(db);
    }
  }

  lemma BookedState(db: Db, c: Id, actual: nat)
    requires c < |db.calls| && db.calls[c].system < |db.systems| && db.calls[c].goal < |db.goals|
    ensures var b := Book(db, c, actual);
            && |b.systems| == |db.systems| && b.systems[db.calls[c].system].state == db.systems[db.calls[c].system].state
            && b.calls == db.calls && b.buckets == db.buckets && b.attempts == db.attempts
  {
  }

  lemma SettleRefs(cfg: Config, db: Db, session: Session, p: ProviderResult, now: int)
    requires ValidConfig(cfg) && Refs(cfg, db)
    ensures Refs(cfg, Admission.Settle(cfg, db, session, p, now))
  {
    hide GoalRefs, AgentForest, TaskForest, AgentRefs, TaskRefs, UsageRefs, SettleCall, ValidConfig;
    if Authorized(db, session) && db.calls[session.call].state == Running {
      var db' := Admission.Settle(cfg, db, session, p, now);
      AdmissionInv.SettleCallKeeps(cfg, db, session.call, p, now);
      assert db'.usage.Keys == db.usage.Keys;
      SettledSystems(cfg, db, session, p, now);
      Invariant.KeysRefs(cfg, db, db');
    }
  }

  lemma SettledSystems(cfg: Config, db: Db, session: Session, p: ProviderResult, now: int)
    requires ValidConfig(cfg) && Refs(cfg, db)
    ensures Invariant.SameKeys(db, Admission.Settle(cfg, db, session, p, now))
  {
    hide ValidConfig, SettleCall, Payers, GoalRefs, AgentForest, TaskForest, AgentRefs, UsageRefs;
    var db' := Admission.Settle(cfg, db, session, p, now);
    assert db'.usage.Keys == db.usage.Keys;
  }

  lemma CoolNone(b: map<Id, Bucket>, until: int)
    ensures Cool(b, [], until) == b
  {
  }

  lemma CoolOneMore(b: map<Id, Bucket>, groups: seq<Id>, g: Id, until: int)
    requires g !in groups
    ensures var cooled := Cool(b, groups, until);
            Cool(b, groups + [g], until)
            == if g in cooled then cooled[g := cooled[g].(cooldown := Max(cooled[g].cooldown, until))] else cooled
  {
  }

  lemma CandidatesExist(db: Db)
    ensures forall i :: 0 <= i < |Candidates(db)| ==> Candidates(db)[i] < |db.calls|
  {
  }

  /** What the polling loop found is the model's verdict. */
  lemma PolledVerdict(cfg: Config, db: Db, db': Db, c: Id, now: int, denied: set<Id>, allowed: bool)
    requires ValidConfig(cfg) && Refs(cfg, db) && c < |db.calls| && RefusalOf(cfg, db, c, now, denied).None?
    requires forall g :: g in db.calls[c].groups ==> g in cfg.groups && g in db'.buckets
    requires db' == db.(buckets := PollAll(cfg, db.buckets, db.calls[c].groups, now))
    requires allowed <==> forall g :: g in db.calls[c].groups ==>
               GroupFits(cfg, db.calls, db.attempts, db'.buckets[g], g, db.calls[c].reservation, now)
    ensures VerdictOf(cfg, db, c, now, denied) == if allowed then Ready(db'.buckets) else Wait(db'.buckets)
    ensures Refs(cfg, db')
  {
    hide RefusalOf, PollAll, GoalRefs, AgentForest, TaskForest, AgentRefs, TaskRefs, UsageRefs;
    PassOverRefs(cfg, db, c, Wait(db'.buckets));
  }

  lemma PaidRefs(cfg: Config, db: Db, db': Db, t: Id, now: int)
    requires Refs(cfg, db) && t < |db.tasks| && SpendUses(db, t, now) == Some(db')
    ensures Refs(cfg, db') && db' == db.(approvals := db'.approvals, uses := db'.uses)
  {
  }

  lemma GrantedRefs(cfg: Config, db: Db, c: Id, now: int)
    requires ValidConfig(cfg) && Refs(cfg, db) && c < |db.calls|
    ensures Grant(cfg, db, c, now).Some? ==> Refs(cfg, Grant(cfg, db, c, now).value)
  {
    hide Refs, SpendUses, Dispatch;
    if Grant(cfg, db, c, now).Some? {
      CallGroups(cfg, db, c);
      var paid := SpendUses(db, db.calls[c].task, now).value;
      PaidRefs(cfg, db, paid, db.calls[c].task, now);
      AdmissionInv.DispatchRefs(cfg, paid, c, DispatchAt(db.buckets, db.calls[c].groups, now));
    }
  }
}
