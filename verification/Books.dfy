/** The accounts (system, goal, payer) as sums over the attempt history. */
module Books {
  import opened Common
  import opened Tables
  import opened Sums
  import opened Ledger

  /** An account. A payer's account is kept per goal. */
  datatype Scope = OfSystem(system: Id) | OfGoal(goal: Id) | OfPayer(agent: Id, goal: Id)

  predicate HasScope(db: Db, sc: Scope) {
    match sc
    case OfSystem(s) => s < |db.systems|
    case OfGoal(g) => g < |db.goals|
    case OfPayer(a, g) => a < |db.agents| && (a, g) in db.usage
  }

  function StoredUsed(db: Db, sc: Scope): int
    requires HasScope(db, sc)
  {
    match sc
    case OfSystem(s) => db.systems[s].used
    case OfGoal(g) => db.goals[g].used
    case OfPayer(a, g) => db.usage[(a, g)].used
  }

  function StoredReserved(db: Db, sc: Scope): int
    requires HasScope(db, sc)
  {
    match sc
    case OfSystem(s) => db.systems[s].reserved
    case OfGoal(g) => db.goals[g].reserved
    case OfPayer(a, g) => db.usage[(a, g)].reserved
  }

  function BudgetOf(db: Db, sc: Scope): int
    requires HasScope(db, sc)
  {
    match sc
    case OfSystem(s) => db.systems[s].budget
    case OfGoal(g) => db.goals[g].budget
    case OfPayer(a, g) => db.agents[a].budget
  }

  /** Whether the call is booked on the account. */
  predicate Charges(db: Db, c: Id, sc: Scope) {
    c < |db.calls| &&
    match sc
    case OfSystem(s) => db.calls[c].system == s
    case OfGoal(g) => db.calls[c].goal == g
    case OfPayer(a, g) => db.calls[c].goal == g && a in Payers(db.agents, db.tasks, db.calls[c].agent, db.calls[c].task)
  }

  /** What the attempt reserved when it was dispatched: re-estimation only ever touches calls
      without attempts, so this is still the call's reservation. */
  function Owed(db: Db, a: Attempt): nat {
    if a.call < |db.calls| then db.calls[a.call].reservation else 0
  }

  function Actual(a: Attempt): nat { a.input + a.output }

  function ReservedBy(db: Db, sc: Scope): Attempt -> int {
    (a: Attempt) => if Charges(db, a.call, sc) && !a.state.Settled? then Owed(db, a) else 0
  }

  function UsedBy(db: Db, sc: Scope): Attempt -> int {
    (a: Attempt) => if Charges(db, a.call, sc) && a.state.Settled? then Actual(a) else 0
  }

  /** The part of an attempt's cost that its reservation covers. */
  function CoveredBy(db: Db, sc: Scope): Attempt -> int {
    (a: Attempt) => if !Charges(db, a.call, sc) then 0 else if a.state.Settled? then Min(Actual(a), Owed(db, a)) else Owed(db, a)
  }

  /** What a settled attempt cost beyond its reservation. */
  function OvershootBy(db: Db, sc: Scope): Attempt -> int {
    (a: Attempt) => if Charges(db, a.call, sc) && a.state.Settled? then Max(Actual(a) - Owed(db, a), 0) else 0
  }

  function Covered(db: Db, sc: Scope): int { Sum(db.attempts, CoveredBy(db, sc)) }

  function Overshoot(db: Db, sc: Scope): int { Sum(db.attempts, OvershootBy(db, sc)) }

  predicate BalancedAt(db: Db, sc: Scope)
    requires HasScope(db, sc)
  {
    && StoredReserved(db, sc) == Sum(db.attempts, ReservedBy(db, sc))
    && StoredUsed(db, sc) == Sum(db.attempts, UsedBy(db, sc))
  }

  /** Conservation: every account holds exactly the reservations of its unsettled attempts and
      the reported usage of its settled ones. */
  ghost predicate Balanced(db: Db) {
    forall sc :: HasScope(db, sc) ==> BalancedAt(db, sc)
  }

  /** No account's covered cost exceeds its budget. */
  ghost predicate Capped(db: Db) {
    forall sc :: HasScope(db, sc) ==> Covered(db, sc) <= BudgetOf(db, sc)
  }

  lemma UsedPlusReserved(db: Db, sc: Scope)
    requires HasScope(db, sc) && BalancedAt(db, sc)
    ensures StoredUsed(db, sc) + StoredReserved(db, sc) == Covered(db, sc) + Overshoot(db, sc)
  {
    var both := (a: Attempt) => UsedBy(db, sc)(a) + ReservedBy(db, sc)(a);
    SumSplit(db.attempts, both, UsedBy(db, sc), ReservedBy(db, sc));
    SumSplit(db.attempts, both, CoveredBy(db, sc), OvershootBy(db, sc));
  }

  /** The cap in the terms of the budget columns: an account can only be over its budget by what its
      settled attempts cost beyond their estimates. */
  lemma BudgetCap(db: Db, sc: Scope)
    requires Balanced(db) && Capped(db) && HasScope(db, sc)
    ensures StoredUsed(db, sc) + StoredReserved(db, sc) <= BudgetOf(db, sc) + Overshoot(db, sc)
    ensures (forall i :: 0 <= i < |db.attempts| && db.attempts[i].state.Settled? ==> Actual(db.attempts[i]) <= Owed(db, db.attempts[i])) ==>
              StoredUsed(db, sc) + StoredReserved(db, sc) <= BudgetOf(db, sc)
    ensures 0 <= StoredUsed(db, sc) && 0 <= StoredReserved(db, sc)
  {
    UsedPlusReserved(db, sc);
    SumNonnegative(db.attempts, UsedBy(db, sc));
    SumNonnegative(db.attempts, ReservedBy(db, sc));
    if forall i :: 0 <= i < |db.attempts| && db.attempts[i].state.Settled? ==> Actual(db.attempts[i]) <= Owed(db, db.attempts[i]) {
      SumZero(db.attempts, OvershootBy(db, sc));
    }
  }

  // ----- what later steps may not rewrite -----

  /** Identity columns never change, attempts are never forgotten, and the reservation is frozen once something was dispatched under it. */
  predicate CallKeeps(e: Call, e': Call) {
    && e'.system == e.system && e'.goal == e.goal && e'.task == e.task
    && e'.agent == e.agent && e'.model == e.model && e'.groups == e.groups
    && e.attempts <= e'.attempts && (e.attempts > 0 ==> e'.reservation == e.reservation)
  }

  ghost predicate CallsKeep(calls: seq<Call>, calls': seq<Call>) {
    |calls| <= |calls'| && forall c :: 0 <= c < |calls| ==> CallKeeps(calls[c], calls'[c])
  }

  /** Every step extends the tables in this sense. */
  ghost predicate Extends(db: Db, db': Db) {
    && AgentsGrow(db.agents, db'.agents)
    && TasksGrow(db.tasks, db'.tasks)
    && CallsKeep(db.calls, db'.calls)
  }

  lemma ExtendsSelf(db: Db)
    ensures Extends(db, db)
  {
  }

  lemma ExtendsTransitive(a: Db, b: Db, c: Db)
    requires Extends(a, b) && Extends(b, c)
    ensures Extends(a, c)
  {
    forall i | 0 <= i < |a.calls| ensures CallKeeps(a.calls[i], c.calls[i]) {
      assert CallKeeps(a.calls[i], b.calls[i]) && CallKeeps(b.calls[i], c.calls[i]);
    }
  }

  ghost predicate AttemptsHaveCalls(db: Db) {
    forall i :: 0 <= i < |db.attempts| ==> db.attempts[i].call < |db.calls| && db.calls[db.attempts[i].call].attempts > 0
  }

  /** Same attempts, except that in-flight ones may have become unresolved. */
  ghost predicate Retold(attempts: seq<Attempt>, attempts': seq<Attempt>) {
    && |attempts| == |attempts'|
    && forall i :: 0 <= i < |attempts| ==>
      attempts'[i] == attempts[i] || (!attempts[i].state.Settled? && attempts'[i] == attempts[i].(state := Unresolved))
  }

  /** Same requests at the same instants; settlement may have ended some of them. */
  ghost predicate SameDispatches(attempts: seq<Attempt>, attempts': seq<Attempt>) {
    && |attempts| == |attempts'|
    && forall i :: 0 <= i < |attempts| ==>
      && attempts'[i].call == attempts[i].call && attempts'[i].dispatchedAt == attempts[i].dispatchedAt
      && attempts'[i].system == attempts[i].system
      && (attempts'[i].state == InFlight ==> attempts[i].state == InFlight)
  }

  lemma ChargesStable(cfg: Config, db: Db, db': Db, c: Id, sc: Scope)
    requires Refs(cfg, db) && Extends(db, db') && c < |db.calls|
    ensures Charges(db', c, sc) == Charges(db, c, sc)
  {
    PayersStable(db.agents, db'.agents, db.tasks, db'.tasks, db.calls[c].agent, db.calls[c].task);
  }

  /** An attempt weighs the same in every account, however the tables were extended. */
  lemma WeightsStable(cfg: Config, db: Db, db': Db, a: Attempt, sc: Scope)
    requires Refs(cfg, db) && Extends(db, db')
    requires a.call < |db.calls| && db.calls[a.call].attempts > 0
    ensures ReservedBy(db', sc)(a) == ReservedBy(db, sc)(a)
    ensures UsedBy(db', sc)(a) == UsedBy(db, sc)(a)
    ensures CoveredBy(db', sc)(a) == CoveredBy(db, sc)(a)
    ensures OvershootBy(db', sc)(a) == OvershootBy(db, sc)(a)
  {
    ChargesStable(cfg, db, db', a.call, sc);
  }

  /** The history of `db` sums to the same totals when it is read against extended tables. */
  lemma SumsStable(cfg: Config, db: Db, db': Db, attempts: seq<Attempt>, sc: Scope)
    requires Refs(cfg, db) && Extends(db, db') && AttemptsHaveCalls(db) && Retold(db.attempts, attempts)
    ensures Sum(attempts, ReservedBy(db', sc)) == Sum(db.attempts, ReservedBy(db, sc))
    ensures Sum(attempts, UsedBy(db', sc)) == Sum(db.attempts, UsedBy(db, sc))
    ensures Sum(attempts, CoveredBy(db', sc)) == Covered(db, sc)
  {
    forall i | 0 <= i < |db.attempts|
      ensures ReservedBy(db', sc)(attempts[i]) == ReservedBy(db, sc)(db.attempts[i])
      ensures UsedBy(db', sc)(attempts[i]) == UsedBy(db, sc)(db.attempts[i])
      ensures CoveredBy(db', sc)(attempts[i]) == CoveredBy(db, sc)(db.attempts[i])
    {
      WeightsStable(cfg, db, db', db.attempts[i], sc);
    }
    SumSame(attempts, db.attempts, ReservedBy(db', sc), ReservedBy(db, sc));
    SumSame(attempts, db.attempts, UsedBy(db', sc), UsedBy(db, sc));
    SumSame(attempts, db.attempts, CoveredBy(db', sc), CoveredBy(db, sc));
  }

  /** A call is only booked on accounts that exist. */
  lemma ChargedScopesExist(cfg: Config, db: Db, c: Id, sc: Scope)
    requires Refs(cfg, db) && Charges(db, c, sc)
    ensures HasScope(db, sc)
  {
    PayersHaveRows(cfg, db, c);
  }

  lemma NewScopeEmpty(cfg: Config, db: Db, sc: Scope)
    requires Refs(cfg, db) && !HasScope(db, sc)
    ensures Sum(db.attempts, ReservedBy(db, sc)) == 0 && Sum(db.attempts, UsedBy(db, sc)) == 0 && Covered(db, sc) == 0
  {
    forall c: Id ensures !Charges(db, c, sc) {
      if Charges(db, c, sc) {
        ChargedScopesExist(cfg, db, c, sc);
      }
    }
    SumZero(db.attempts, ReservedBy(db, sc));
    SumZero(db.attempts, UsedBy(db, sc));
    SumZero(db.attempts, CoveredBy(db, sc));
  }

  /** Existing accounts keep their totals and new ones start empty. */
  ghost predicate AccountsKept(db: Db, db': Db) {
    forall sc :: HasScope(db', sc) ==>
      if HasScope(db, sc) then StoredUsed(db', sc) == StoredUsed(db, sc) && StoredReserved(db', sc) == StoredReserved(db, sc)
      else StoredUsed(db', sc) == 0 && StoredReserved(db', sc) == 0
  }

  lemma BalancedFrame(cfg: Config, db: Db, db': Db)
    requires Refs(cfg, db) && Extends(db, db') && AttemptsHaveCalls(db) && Retold(db.attempts, db'.attempts)
    requires AccountsKept(db, db') && Balanced(db)
    ensures Balanced(db')
  {
    forall sc | HasScope(db', sc) ensures BalancedAt(db', sc) {
      SumsStable(cfg, db, db', db'.attempts, sc);
      if !HasScope(db, sc) {
        NewScopeEmpty(cfg, db, sc);
      }
    }
  }

  /** The part of a payer's covered cost in one goal is part of its system's. */
  lemma PayerWithinSystem(cfg: Config, db: Db, a: Id, g: Id)
    requires Refs(cfg, db) && g < |db.goals|
    ensures Covered(db, OfPayer(a, g)) <= Covered(db, OfSystem(db.goals[g].system))
  {
    SumAtMost(db.attempts, db.attempts, CoveredBy(db, OfPayer(a, g)), CoveredBy(db, OfSystem(db.goals[g].system)));
  }

  lemma CappedFrame(cfg: Config, db: Db, db': Db)
    requires Refs(cfg, db) && Extends(db, db') && AttemptsHaveCalls(db) && Retold(db.attempts, db'.attempts)
    requires Capped(db)
    requires forall sc :: HasScope(db', sc) && HasScope(db, sc) ==>
               BudgetOf(db, sc) <= BudgetOf(db', sc) || Covered(db, sc) <= BudgetOf(db', sc)
    ensures Capped(db')
  {
    forall sc | HasScope(db', sc) ensures Covered(db', sc) <= BudgetOf(db', sc) {
      SumsStable(cfg, db, db', db'.attempts, sc);
      if !HasScope(db, sc) {
        NewScopeEmpty(cfg, db, sc);
      }
    }
  }
}
