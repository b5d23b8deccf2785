/** Bounded work: tasks per goal, turns per task, attempts per call. */
module Work {
  import opened Common
  import opened Tables
  import opened Sums
  import opened Discipline

  function TaskKey(): Call -> int { (e: Call) => e.task }

  function GoalKey(): Call -> int { (e: Call) => e.goal }

  function TaskGoalKey(): Task -> int { (t: Task) => t.goal }

  function CallsOf(calls: seq<Call>, t: Id): int { Sum(calls, Keyed(TaskKey(), t)) }

  function TasksOf(tasks: seq<Task>, g: Id): int { Sum(tasks, Keyed(TaskGoalKey(), g)) }

  /** A task has as many calls as turns and at most eight; a bounded goal has at most 64 tasks. */
  ghost predicate WorkHolds(db: Db) {
    && (forall t :: 0 <= t < |db.tasks| ==> CallsOf(db.calls, t) == db.tasks[t].turns <= MAX_TASK_TURNS)
    && (forall g :: 0 <= g < |db.goals| && !db.goals[g].continuous ==> TasksOf(db.tasks, g) <= MAX_GOAL_TASKS)
  }

  /** Sum of f(0) .. f(n-1). */
  function SumTo(n: nat, f: int -> int): int {
    if n == 0 then 0 else SumTo(n - 1, f) + f(n - 1)
  }

  lemma {:induction false} SumToBump(n: nat, f: int -> int, f': int -> int, k: nat, d: int)
    requires forall i :: 0 <= i < n ==> f'(i) == f(i) + (if i == k then d else 0)
    ensures SumTo(n, f') == SumTo(n, f) + (if k < n then d else 0)
  {
    if n > 0 {
      SumToBump(n - 1, f, f', k, d);
    }
  }

  lemma {:induction false} SumToZero(n: nat, f: int -> int)
    requires forall i :: 0 <= i < n ==> f(i) == 0
    ensures SumTo(n, f) == 0
  {
    if n > 0 {
      SumToZero(n - 1, f);
    }
  }

  /** Rows whose key is `i`, if `f` selects that key. */
  function Selected<T>(xs: seq<T>, key: T -> int, f: int -> bool): int -> int {
    (i: int) => if f(i) then Sum(xs, Keyed(key, i)) else 0
  }

  function Pick<T>(key: T -> int, f: int -> bool): T -> int {
    (x: T) => if f(key(x)) then 1 else 0
  }

  /** Counting the rows whose key is selected equals summing, over the selected keys, their row counts. */
  lemma {:induction false} DoubleCount<T>(xs: seq<T>, key: T -> int, n: nat, f: int -> bool)
    requires forall i :: 0 <= i < |xs| ==> 0 <= key(xs[i]) < n
    ensures Sum(xs, Pick(key, f)) == SumTo(n, Selected(xs, key, f))
  {
    if xs == [] {
      forall i | 0 <= i < n ensures Selected(xs, key, f)(i) == 0 {
        assert Sum(xs, Keyed(key, i)) == 0;
      }
      SumToZero(n, Selected(xs, key, f));
    } else {
      var init, x := xs[..|xs| - 1], xs[|xs| - 1];
      assert forall i :: 0 <= i < |init| ==> init[i] == xs[i];
      DoubleCount(init, key, n, f);
      var k: nat, d := key(x), Pick(key, f)(x);
      var before, after := Selected(init, key, f), Selected(xs, key, f);
      forall i | 0 <= i < n ensures after(i) == before(i) + (if i == k then d else 0) {
        assert Sum(xs, Keyed(key, i)) == Sum(init, Keyed(key, i)) + Keyed(key, i)(x);
      }
      SumToBump(n, before, after, k, d);
    }
  }

  lemma {:induction false} SumToAtMost<T>(xs: seq<T>, f: int -> int, w: T -> int)
    requires forall i :: 0 <= i < |xs| ==> f(i) <= w(xs[i])
    ensures SumTo(|xs|, f) <= Sum(xs, w)
  {
    if xs != [] {
      SumToAtMost(xs[..|xs| - 1], f, w);
    }
  }

  /** Rows of one table that refer to selected rows of another, at most `k` each. */
  lemma ReferenceBound<T, U>(xs: seq<T>, ys: seq<U>, key: T -> int, f: int -> bool, w: U -> int, k: nat)
    requires forall i :: 0 <= i < |xs| ==> 0 <= key(xs[i]) < |ys|
    requires forall i :: 0 <= i < |ys| ==> w(ys[i]) == (if f(i) then 1 else 0)
    requires forall i :: 0 <= i < |ys| ==> Sum(xs, Keyed(key, i)) <= k
    ensures Sum(xs, Pick(key, f)) <= k * Sum(ys, w)
  {
    DoubleCount(xs, key, |ys|, f);
    var atMostK := (y: U) => if w(y) == 1 then k else 0;
    SumToAtMost(ys, Selected(xs, key, f), atMostK);
    SumScaled(ys, ys, atMostK, w, k);
  }

  function GoalCalls(db: Db, g: Id): int { Sum(db.calls, Keyed(GoalKey(), g)) }

  function TaskInGoal(tasks: seq<Task>, g: Id): int -> bool {
    (t: int) => 0 <= t < |tasks| && tasks[t].goal == g
  }

  lemma GoalCallsBound(cfg: Config, db: Db, g: Id)
    requires Refs(cfg, db) && WorkHolds(db)
    ensures GoalCalls(db, g) <= MAX_TASK_TURNS * TasksOf(db.tasks, g)
  {
    forall i | 0 <= i < |db.tasks| ensures Sum(db.calls, Keyed(TaskKey(), i)) <= MAX_TASK_TURNS {
      assert CallsOf(db.calls, i) == db.tasks[i].turns;
    }
    ReferenceBound(db.calls, db.tasks, TaskKey(), TaskInGoal(db.tasks, g), Keyed(TaskGoalKey(), g), MAX_TASK_TURNS);
    SumSame(db.calls, db.calls, Pick(TaskKey(), TaskInGoal(db.tasks, g)), Keyed(GoalKey(), g));
  }

  function CallInGoal(calls: seq<Call>, g: Id): int -> bool {
    (c: int) => 0 <= c < |calls| && calls[c].goal == g
  }

  /** The requests dispatched for a goal. */
  function GoalAttempts(db: Db, g: Id): int { Sum(db.attempts, Pick(CallKey(), CallInGoal(db.calls, g))) }

  /** A bounded goal dispatches at most 64 * 8 * 3 requests over its whole life. */
  lemma GoalAttemptsBound(cfg: Config, db: Db, g: Id)
    requires Refs(cfg, db) && WorkHolds(db) && Disciplined(db)
    requires g < |db.goals| && !db.goals[g].continuous
    ensures GoalAttempts(db, g) <= MAX_GOAL_TASKS * MAX_TASK_TURNS * MAX_ATTEMPTS
  {
    forall i | 0 <= i < |db.calls| ensures Sum(db.attempts, Keyed(CallKey(), i)) <= MAX_ATTEMPTS {
      assert CallDisciplined(db.calls, db.attempts, i);
    }
    ReferenceBound(db.attempts, db.calls, CallKey(), CallInGoal(db.calls, g), Keyed(GoalKey(), g), MAX_ATTEMPTS);
    GoalCallsBound(cfg, db, g);
  }
}
