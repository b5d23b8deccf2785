/** The admission transaction: fair order, refusals, shared quotas, approval uses and dispatch. */
module Admission {
  import opened Common
  import opened Tables
  import opened Sums
  import opened Ledger
  import opened Quota

  // ----- fair order -----

  /** The position of the call's system in the rotation. */
  function Turn(db: Db, c: Id): nat {
    if c < |db.calls| && db.calls[c].system < |db.systems| then db.systems[db.calls[c].system].lastAdmission else 0
  }

  /** ORDER BY last_admission, sequence. */
  predicate Before(db: Db, a: Id, b: Id) {
    Turn(db, a) < Turn(db, b) || (Turn(db, a) == Turn(db, b) && a < b)
  }

  predicate IsQueued(db: Db, c: Id) {
    c < |db.calls| && db.calls[c].state == Queued
  }

  function Place(db: Db, c: Id, queue: seq<Id>): (r: seq<Id>)
    ensures forall x: Id :: x in r <==> x == c || x in queue
  {
    if queue == [] then [c]
    else if Before(db, c, queue[0]) then [c] + queue
    else [queue[0]] + Place(db, c, queue[1..])
  }

  function QueueBelow(db: Db, n: nat): (r: seq<Id>)
    requires n <= |db.calls|
    ensures forall x: Id :: x in r <==> x < n && IsQueued(db, x)
  {
    if n == 0 then []
    else if IsQueued(db, n - 1) then Place(db, n - 1, QueueBelow(db, n - 1))
    else QueueBelow(db, n - 1)
  }

  /** The queued calls in admission order; one transaction looks at the first 64. */
  function Candidates(db: Db): (r: seq<Id>)
    ensures forall i :: 0 <= i < |r| ==> IsQueued(db, r[i])
  {
    var queue := QueueBelow(db, |db.calls|);
    assert forall i :: 0 <= i < |queue| ==> queue[i] in queue;
    if |queue| <= MAX_CANDIDATES then queue else queue[..MAX_CANDIDATES]
  }

  ghost predicate InOrder(db: Db, queue: seq<Id>) {
    forall i, j :: 0 <= i < j < |queue| ==> Before(db, queue[i], queue[j])
  }

  lemma {:induction false} PlaceKeepsOrder(db: Db, c: Id, queue: seq<Id>)
    requires c !in queue && InOrder(db, queue)
    ensures InOrder(db, Place(db, c, queue))
  {
    if queue != [] && !Before(db, c, queue[0]) {
      var rest := Place(db, c, queue[1..]);
      PlaceKeepsOrder(db, c, queue[1..]);
      forall j | 0 <= j < |rest|
        ensures Before(db, queue[0], rest[j])
      {
        assert rest[j] in rest;
        if rest[j] != c {
          var k :| 0 <= k < |queue[1..]| && queue[1..][k] == rest[j];
          assert queue[k + 1] == rest[j];
        }
      }
    }
  }

  lemma {:induction false} QueueInOrder(db: Db, n: nat)
    requires n <= |db.calls|
    ensures InOrder(db, QueueBelow(db, n))
  {
    if n > 0 {
      QueueInOrder(db, n - 1);
      if IsQueued(db, n - 1) {
        PlaceKeepsOrder(db, n - 1, QueueBelow(db, n - 1));
      }
    }
  }

  /** Candidates come strictly in (last admission, sequence) order, hence without repetition, and
      no queued call is missing unless 64 calls that precede it are present. */
  lemma CandidatesAreFairOrder(db: Db)
    ensures InOrder(db, Candidates(db))
    ensures forall c: Id :: IsQueued(db, c) && c !in Candidates(db) ==>
              |Candidates(db)| == MAX_CANDIDATES && forall i :: 0 <= i < MAX_CANDIDATES ==> Before(db, Candidates(db)[i], c)
  {
    var queue := QueueBelow(db, |db.calls|);
    QueueInOrder(db, |db.calls|);
    assert forall k :: 0 <= k < |queue| && k < MAX_CANDIDATES ==> Candidates(db)[k] == queue[k];
    forall c: Id | IsQueued(db, c) && c !in Candidates(db)
      ensures |Candidates(db)| == MAX_CANDIDATES && forall i :: 0 <= i < MAX_CANDIDATES ==> Before(db, Candidates(db)[i], c)
    {
      assert c in queue;
      var k :| 0 <= k < |queue| && queue[k] == c;
    }
  }

  lemma CallGroups(cfg: Config, db: Db, c: Id)
    requires ValidConfig(cfg) && Refs(cfg, db) && c < |db.calls|
    ensures var e := db.calls[c];
            && Distinct(e.groups) && (forall g :: g in e.groups ==> g in cfg.groups)
            && e.task < |db.tasks| && Distinct(db.tasks[e.task].pins) && e.system < |db.systems| && e.goal < |db.goals|
  {
  }

  // ----- refusals -----

  datatype Refusal = SystemStopped | GrantRevoked | DeadlineExceeded | BudgetExhausted
                   | TaskStopped | NotAuthorized | PayerExhausted | ApprovalDenied

  function Free(budget: nat, used: int, reserved: int): int { budget - used - reserved }

  predicate PayersAfford(db: Db, e: Call) {
    forall a :: a in Payers(db.agents, db.tasks, e.agent, e.task) ==>
      a < |db.agents| && (a, e.goal) in db.usage
      && e.reservation <= Free(db.agents[a].budget, db.usage[(a, e.goal)].used, db.usage[(a, e.goal)].reserved)
  }

  /** The first reason to refuse the call outright, in the order the transaction tests them.
      `denied` holds the calls whose model alias, evaluation or tool pins are no longer authorized;
      it is an input because those checks read definitions this model does not carry. */
  function RefusalOf(cfg: Config, db: Db, c: Id, now: int, denied: set<Id>): Option<Refusal>
    requires Refs(cfg, db) && c < |db.calls|
  {
    var e := db.calls[c];
    var s := db.systems[e.system];
    var g := db.goals[e.goal];
    var t := db.tasks[e.task];
    if s.state != Active && s.state != SystemState.Paused then Some(SystemStopped)
    else if s.revision != e.revision then Some(GrantRevoked)
    else if now >= e.waitDeadline || now >= e.deadline then Some(DeadlineExceeded)
    else if e.reservation > Free(s.budget, s.used, s.reserved) || e.reservation > Free(g.budget, g.used, g.reserved) then Some(BudgetExhausted)
    else if t.stopped || db.agents[t.agent].state == Ended || g.control == Ended || t.terminal then Some(TaskStopped)
    else if c in denied then Some(NotAuthorized)
    else if !PayersAfford(db, e) then Some(PayerExhausted)
    else None
  }

  function SetCall(db: Db, c: Id, e: Call): Db
    requires c < |db.calls|
  {
    db.(calls := db.calls[c := e])
  }

  /** A rejection is committed even when nothing is admitted. */
  function Reject(db: Db, c: Id): Db
    requires c < |db.calls|
  {
    SetCall(db, c, db.calls[c].(state := Rejected))
  }

  // ----- approval uses -----

  predicate PinUsable(db: Db, t: Id, p: Id, now: int) {
    && p in db.approvals && db.approvals[p].live && now < db.approvals[p].expires
    && ((p, t) in db.uses || db.approvals[p].remaining > 0)
  }

  /** The pins the task has not paid for yet. */
  function Unpaid(uses: set<(Id, Id)>, t: Id, pins: seq<Id>): (r: seq<Id>)
    ensures forall p :: p in r <==> p in pins && (p, t) !in uses
  {
    if pins == [] then []
    else
      var rest := Unpaid(uses, t, pins[..|pins| - 1]);
      var p := pins[|pins| - 1];
      assert pins == pins[..|pins| - 1] + [p];
      if (p, t) in uses then rest else rest + [p]
  }

  /** First every pin is checked, then every unpaid one is spent; a denial spends nothing. */
  function SpendUses(db: Db, t: Id, now: int): Option<Db>
    requires t < |db.tasks|
  {
    var pins := db.tasks[t].pins;
    if exists p :: p in pins && !PinUsable(db, t, p, now) then None
    else
      var unpaid := Unpaid(db.uses, t, pins);
      Some(db.(approvals := map p | p in db.approvals ::
                 if p in unpaid then db.approvals[p].(remaining := Max(db.approvals[p].remaining - 1, 0)) else db.approvals[p],
               uses := db.uses + set p | p in unpaid :: (p, t)))
  }

  // ----- dispatch -----

  function Charge(usage: map<(Id, Id), Usage>, payers: set<Id>, goal: Id, reserved: int, used: int): map<(Id, Id), Usage> {
    map k | k in usage ::
      if k.1 == goal && k.0 in payers then Usage(usage[k].used + used, usage[k].reserved + reserved) else usage[k]
  }

  /** Every table effect of one admission. */
  function Dispatch(db: Db, c: Id, at: int): Db
    requires c < |db.calls| && db.calls[c].system < |db.systems| && db.calls[c].goal < |db.goals|
  {
    var e := db.calls[c];
    var s := db.systems[e.system];
    var g := db.goals[e.goal];
    db.(systems := db.systems[e.system := s.(reserved := s.reserved + e.reservation, lastAdmission := |db.attempts| + 1)],
        goals := db.goals[e.goal := g.(reserved := g.reserved + e.reservation)],
        usage := Charge(db.usage, Payers(db.agents, db.tasks, e.agent, e.task), e.goal, e.reservation, 0),
        buckets := Spend(db.buckets, e.groups),
        attempts := db.attempts + [Attempt(c, e.system, at, e.reservation, InFlight, false, 0, 0)],
        calls := db.calls[c := e.(state := Running, attempts := e.attempts + 1)])
  }

  /** A model call as its worker names it: only the activation that owns the call may move it. */
  datatype Session = Session(call: Id, owner: Id)

  predicate Authorized(db: Db, session: Session) {
    session.call < |db.calls| && db.calls[session.call].owner == session.owner
  }

  datatype Verdict = Refused(reason: Refusal) | Wait(buckets: map<Id, Bucket>) | Ready(buckets: map<Id, Bucket>)

  /** What the transaction decides about one candidate before asking whose turn it is. */
  function VerdictOf(cfg: Config, db: Db, c: Id, now: int, denied: set<Id>): Verdict
    requires ValidConfig(cfg) && Refs(cfg, db) && c < |db.calls|
  {
    match RefusalOf(cfg, db, c, now, denied)
    case Some(reason) => Refused(reason)
    case None =>
      var e := db.calls[c];
      PollAllRows(cfg, db.buckets, e.groups, now);
      var polled := PollAll(cfg, db.buckets, e.groups, now);
      if AllFit(cfg, db, polled, e, now) then Ready(polled) else Wait(polled)
  }

  /** The effect of a candidate that is not the one admitted. */
  function PassOver(db: Db, c: Id, v: Verdict): Db
    requires c < |db.calls|
  {
    match v
    case Refused(_) => Reject(db, c)
    case Wait(polled) => db.(buckets := polled)
    case Ready(polled) => db.(buckets := polled)
  }

  lemma PassOverRefs(cfg: Config, db: Db, c: Id, v: Verdict)
    requires Refs(cfg, db) && c < |db.calls|
    ensures Refs(cfg, PassOver(db, c, v)) && |PassOver(db, c, v).calls| == |db.calls|
  {
    hide GoalRefs, AgentForest, TaskForest, AgentRefs, TaskRefs, UsageRefs;
  }

  lemma RejectRefs(cfg: Config, db: Db, c: Id)
    requires Refs(cfg, db) && c < |db.calls|
    ensures Refs(cfg, Reject(db, c)) && |Reject(db, c).calls| == |db.calls|
  {
    PassOverRefs(cfg, db, c, Refused(ApprovalDenied));
  }

  /** Pays the approval uses and dispatches a ready call whose groups have been polled. */
  function Grant(cfg: Config, db: Db, c: Id, now: int): Option<Db>
    requires Refs(cfg, db) && c < |db.calls|
  {
    match SpendUses(db, db.calls[c].task, now)
    case None => None
    case Some(paid) => Some(Dispatch(paid, c, DispatchAt(db.buckets, db.calls[c].groups, now)))
  }

  datatype Examined = GoOn(db: Db) | Stop(db: Db, admitted: bool)

  /** One candidate: the caller's own ready call is dispatched, and a ready call of anyone else ends the
      transaction so that nobody leapfrogs it. */
  function Examine(cfg: Config, db: Db, c: Id, caller: Id, now: int, denied: set<Id>): Examined
    requires ValidConfig(cfg) && Refs(cfg, db) && c < |db.calls|
  {
    var v := VerdictOf(cfg, db, c, now, denied);
    var next := PassOver(db, c, v);
    PassOverRefs(cfg, db, c, v);
    if !v.Ready? then GoOn(next)
    else if c != caller then Stop(next, false)
    else
      match Grant(cfg, next, c, now)
      case None => GoOn(Reject(next, c))
      case Some(granted) => Stop(granted, true)
  }

  lemma ExamineRefs(cfg: Config, db: Db, c: Id, caller: Id, now: int, denied: set<Id>)
    requires ValidConfig(cfg) && Refs(cfg, db) && c < |db.calls|
    ensures var x := Examine(cfg, db, c, caller, now, denied);
            x.GoOn? ==> Refs(cfg, x.db) && |x.db.calls| == |db.calls|
  {
    hide Refs, ValidConfig, VerdictOf, Grant, PassOver, Reject;
    var v := VerdictOf(cfg, db, c, now, denied);
    PassOverRefs(cfg, db, c, v);
    RejectRefs(cfg, PassOver(db, c, v), c);
  }

  /** The candidate loop. */
  function Scan(cfg: Config, db: Db, ids: seq<Id>, caller: Id, now: int, denied: set<Id>): (Db, bool)
    requires ValidConfig(cfg) && Refs(cfg, db)
    requires forall i :: 0 <= i < |ids| ==> ids[i] < |db.calls|
    decreases |ids|
  {
    if ids == [] then (db, false)
    else
      ExamineRefs(cfg, db, ids[0], caller, now, denied);
      match Examine(cfg, db, ids[0], caller, now, denied)
      case GoOn(next) => Scan(cfg, next, ids[1..], caller, now, denied)
      case Stop(last, admitted) => (last, admitted)
  }

  /** One admission transaction for `session` at clock reading `now`. */
  function Admit(cfg: Config, db: Db, session: Session, now: int, denied: set<Id>): (Db, bool)
    requires ValidConfig(cfg) && Refs(cfg, db)
  {
    if !Authorized(db, session) || db.calls[session.call].state != Queued then (db, false)
    else Scan(cfg, db, Candidates(db), session.call, now, denied)
  }

  // ----- settlement -----

  /** What the provider adapter reports. `cooldown` is an absolute instant, `retryDelay` a fallback. */
  datatype ProviderResult = ProviderResult(known: bool, failed: bool, retry: bool, input: nat, output: nat,
                                           cooldown: Option<int>, retryDelay: nat)

  function SettleAttempt(a: Attempt, c: Id, p: ProviderResult): Attempt {
    if a.call != c || a.state != InFlight then a
    else if !p.known then a.(state := Unresolved)
    else a.(state := Settled, input := p.input, output := p.output, throttled := p.retry,
            reservation := Max(a.reservation, p.input + p.output))
  }

  function SettleAttempts(attempts: seq<Attempt>, c: Id, p: ProviderResult): (r: seq<Attempt>)
    ensures |r| == |attempts| && forall i :: 0 <= i < |r| ==> r[i] == SettleAttempt(attempts[i], c, p)
  {
    seq(|attempts|, i requires 0 <= i < |attempts| => SettleAttempt(attempts[i], c, p))
  }

  /** Books a known outcome: the reservation is released and the actual usage charged, to the same
      system, goal and payers that reserved it. */
  function Book(db: Db, c: Id, actual: nat): Db
    requires c < |db.calls| && db.calls[c].system < |db.systems| && db.calls[c].goal < |db.goals|
  {
    var e := db.calls[c];
    var s := db.systems[e.system];
    var g := db.goals[e.goal];
    db.(systems := db.systems[e.system := s.(reserved := s.reserved - e.reservation, used := s.used + actual)],
        goals := db.goals[e.goal := g.(reserved := g.reserved - e.reservation, used := g.used + actual)],
        usage := Charge(db.usage, Payers(db.agents, db.tasks, e.agent, e.task), e.goal, -(e.reservation as int), actual))
  }

  /** Records a throttling provider's cooldown for every group of the call. */
  function Cool(buckets: map<Id, Bucket>, groups: seq<Id>, until: int): map<Id, Bucket> {
    map g | g in buckets :: if g in groups then buckets[g].(cooldown := Max(buckets[g].cooldown, until)) else buckets[g]
  }

  function ShortestWait(cfg: Config, groups: seq<Id>): int
    requires forall g :: g in groups ==> g in cfg.groups
  {
    if groups == [] then 3600
    else Min(ShortestWait(cfg, groups[..|groups| - 1]), cfg.groups[groups[|groups| - 1]].maxWaitSeconds)
  }

  predicate QueueOpen(cfg: Config, calls: seq<Call>, groups: seq<Id>)
    requires forall g :: g in groups ==> g in cfg.groups
  {
    forall g :: g in groups ==> QueuedCount(calls, g) < cfg.groups[g].queueCapacity
  }

  /** When the settled call goes back to the queue. */
  predicate Requeues(cfg: Config, db: Db, c: Id, p: ProviderResult, now: int)
    requires ValidConfig(cfg) && Refs(cfg, db) && c < |db.calls|
  {
    var e := db.calls[c];
    && p.retry && e.attempts < MAX_ATTEMPTS && now < e.deadline
    && db.systems[e.system].state == Active && QueueOpen(cfg, db.calls, e.groups)
  }

  function SettledState(p: ProviderResult): CallState {
    if !p.known then Unknown else if p.failed then Failed else Completed
  }

  function SettleCall(cfg: Config, db: Db, c: Id, p: ProviderResult, now: int): Call
    requires ValidConfig(cfg) && Refs(cfg, db) && c < |db.calls|
  {
    var e := db.calls[c];
    if Requeues(cfg, db, c, p, now)
    then e.(state := Queued, queuedAt := now, waitDeadline := Min(e.deadline, now + ShortestWait(cfg, e.groups) * 1000))
    else e.(state := SettledState(p))
  }

  /** One settlement transaction. */
  function Settle(cfg: Config, db: Db, session: Session, p: ProviderResult, now: int): Db
    requires ValidConfig(cfg) && Refs(cfg, db)
  {
    if !Authorized(db, session) || db.calls[session.call].state != Running then db
    else
      var c := session.call;
      var e := db.calls[c];
      var until := if p.cooldown.Some? then p.cooldown.value else now + p.retryDelay;
      var booked := if p.known then Book(db, c, p.input + p.output) else db;
      booked.(attempts := SettleAttempts(db.attempts, c, p),
              buckets := if p.retry then Cool(db.buckets, e.groups, until) else db.buckets,
              calls := db.calls[c := SettleCall(cfg, db, c, p, now)])
  }
}
