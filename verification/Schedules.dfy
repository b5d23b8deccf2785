/** Cron and one-shot schedules: a finite trigger allowance, fired by a pump that coalesces missed
    occurrences. Calendar arithmetic is an input: `next` answers an instant after its argument. */
module Schedules {
  import opened Common

  datatype State = Active | Completed | Canceled | Expired | Failed

  /** `granted` is the trigger budget of the creating command; the store keeps only what remains. */
  datatype Schedule = Schedule(system: Id, recurring: bool, due: int, expires: int, remaining: nat, granted: nat, state: State)

  datatype Occurrence = Occurrence(schedule: Id, due: int, event: Id)

  datatype Store = Store(schedules: seq<Schedule>, occurrences: seq<Occurrence>)

  /** What the rest of the runtime answers for a due schedule: not now, never again, or yes; in the
      last case with the event that was accepted, if it was. */
  datatype Wake = Hold | Refuse | Emit(event: Option<Id>)

  const MAX_TRIGGERS := 8
  const MAX_SCHEDULES := 128

  type Calendar = (Id, int) -> Option<int>

  /** A recurrence always lies after the instant it is asked for. */
  ghost predicate Forward(next: Calendar) {
    forall s, t :: next(s, t).Some? ==> next(s, t).value > t
  }

  function FiredFrom(occurrences: seq<Occurrence>, s: Id): nat {
    if occurrences == [] then 0
    else FiredFrom(occurrences[..|occurrences| - 1], s) + (if occurrences[|occurrences| - 1].schedule == s then 1 else 0)
  }

  function Fired(store: Store, s: Id): nat { FiredFrom(store.occurrences, s) }

  predicate Recorded(store: Store, s: Id, due: int) {
    exists i :: 0 <= i < |store.occurrences| && store.occurrences[i].schedule == s && store.occurrences[i].due == due
  }

  /** What an active schedule promises: it has fired what it was granted minus what remains, at least
      one trigger remains, and every fired instant lies before the next due one. */
  ghost predicate ScheduleHolds(store: Store, s: Id)
    requires s < |store.schedules|
  {
    var q := store.schedules[s];
    && Fired(store, s) + q.remaining == q.granted <= MAX_TRIGGERS
    && (q.state == Active ==> q.remaining >= 1)
    && (q.state == Active ==> forall i :: 0 <= i < |store.occurrences| && store.occurrences[i].schedule == s ==>
          store.occurrences[i].due < q.due)
  }

  ghost predicate Increasing(occurrences: seq<Occurrence>) {
    forall i, j :: 0 <= i < j < |occurrences| && occurrences[i].schedule == occurrences[j].schedule ==>
      occurrences[i].due < occurrences[j].due
  }

  ghost predicate Holds(store: Store) {
    && (forall s :: 0 <= s < |store.schedules| ==> ScheduleHolds(store, s))
    && (forall i :: 0 <= i < |store.occurrences| ==> store.occurrences[i].schedule < |store.schedules|)
    && Increasing(store.occurrences)
  }

  lemma {:induction false} NeverFired(occurrences: seq<Occurrence>, s: Id)
    requires forall i :: 0 <= i < |occurrences| ==> occurrences[i].schedule != s
    ensures FiredFrom(occurrences, s) == 0
  {
    if occurrences != [] {
      NeverFired(occurrences[..|occurrences| - 1], s);
    }
  }

  // ----- the transactions -----

  function InSystem(schedules: seq<Schedule>, system: Id): nat {
    if schedules == [] then 0
    else InSystem(schedules[..|schedules| - 1], system) + (if schedules[|schedules| - 1].system == system then 1 else 0)
  }

  function Create(store: Store, system: Id, recurring: bool, due: int, budget: nat, now: int, deadline: int): Option<Store> {
    if budget < 1 || budget > MAX_TRIGGERS || (!recurring && budget != 1) || due <= now || (deadline > 0 && due >= deadline)
       || InSystem(store.schedules, system) >= MAX_SCHEDULES
    then None
    else Some(store.(schedules := store.schedules + [Schedule(system, recurring, due, deadline, budget, budget, Active)]))
  }

  function SetState(store: Store, s: Id, state: State): Store
    requires s < |store.schedules|
  {
    store.(schedules := store.schedules[s := store.schedules[s].(state := state)])
  }

  /** Cancellation by the administrator or the owner, whatever state the schedule is in. */
  function Cancel(store: Store, s: Id): Store {
    if s < |store.schedules| then SetState(store, s, Canceled) else store
  }

  /** The next cursor and state after firing: a recurring schedule with allowance left moves past
      `now` at once, however many of its instants were missed. */
  function Advance(q: Schedule, future: int): Schedule
    requires q.remaining > 0
  {
    if q.recurring && q.remaining > 1
    then q.(due := future, remaining := q.remaining - 1, state := if q.expires == 0 || future < q.expires then Active else Completed)
    else q.(remaining := q.remaining - 1, state := Completed)
  }

  datatype Failure = CursorStuck | NoRecurrence

  datatype Result<+T> = Ok(value: T) | Err(error: Failure)

  /** One due schedule. An error rolls the whole pump back. */
  function FireOne(store: Store, s: Id, now: int, wake: Wake, next: Calendar): Result<Store>
    requires s < |store.schedules| && store.schedules[s].remaining > 0
  {
    var q := store.schedules[s];
    if q.expires > 0 && q.expires <= now then Ok(SetState(store, s, Expired))
    else if wake.Hold? then Ok(store)
    else if wake.Refuse? then Ok(SetState(store, s, Canceled))
    else if Recorded(store, s, q.due) then Err(CursorStuck)
    else if wake.event.None? then Ok(SetState(store, s, Failed))
    else
      var fired := store.(occurrences := store.occurrences + [Occurrence(s, q.due, wake.event.value)]);
      if q.recurring && q.remaining > 1 then
        match next(s, now)
        case None => Err(NoRecurrence)
        case Some(future) => Ok(fired.(schedules := store.schedules[s := Advance(q, future)]))
      else Ok(fired.(schedules := store.schedules[s := Advance(q, q.due)]))
  }

  /** The rows one pump reads: distinct active schedules that are due. */
  predicate DueList(store: Store, due: seq<Id>, now: int) {
    && (forall i, j :: 0 <= i < j < |due| ==> due[i] != due[j])
    && forall i :: 0 <= i < |due| ==> due[i] < |store.schedules| && store.schedules[due[i]].state == Active && store.schedules[due[i]].due <= now
  }

  // ----- proofs -----

  lemma CreateHolds(store: Store, system: Id, recurring: bool, due: int, budget: nat, now: int, deadline: int)
    requires Holds(store) && Create(store, system, recurring, due, budget, now, deadline).Some?
    ensures Holds(Create(store, system, recurring, due, budget, now, deadline).value)
  {
    var store' := Create(store, system, recurring, due, budget, now, deadline).value;
    NeverFired(store.occurrences, |store.schedules|);
    forall s | 0 <= s < |store'.schedules| ensures ScheduleHolds(store', s) {
      if s < |store.schedules| {
        assert ScheduleHolds(store, s);
      }
    }
  }

  /** What firing one schedule does and does not do. */
  ghost predicate FiredAtMostOnce(store: Store, store': Store, s: Id, now: int)
    requires s < |store.schedules| == |store'.schedules|
  {
    && (forall k :: 0 <= k < |store.schedules| && k != s ==> store'.schedules[k] == store.schedules[k] && Fired(store', k) == Fired(store, k))
    && Fired(store, s) <= Fired(store', s) <= Fired(store, s) + 1
    && (Fired(store', s) > Fired(store, s) ==> store'.schedules[s].state == Active ==> store'.schedules[s].due > now)
    && |store.occurrences| <= |store'.occurrences| && store'.occurrences[..|store.occurrences|] == store.occurrences
  }

  lemma SetStateHolds(store: Store, s: Id, state: State)
    requires Holds(store) && s < |store.schedules| && state != Active
    ensures Holds(SetState(store, s, state))
    ensures forall now :: FiredAtMostOnce(store, SetState(store, s, state), s, now)
  {
    var store' := SetState(store, s, state);
    forall k | 0 <= k < |store'.schedules| ensures ScheduleHolds(store', k) {
      assert ScheduleHolds(store, k);
    }
  }

  /** The cursor of an active schedule is never one that was already fired, so the error is unreachable. */
  lemma CursorAdvances(store: Store, s: Id)
    requires Holds(store) && s < |store.schedules| && store.schedules[s].state == Active
    ensures !Recorded(store, s, store.schedules[s].due)
  {
    assert ScheduleHolds(store, s);
  }

  lemma FiredAppend(store: Store, o: Occurrence, s: Id)
    ensures FiredFrom(store.occurrences + [o], s) == Fired(store, s) + (if o.schedule == s then 1 else 0)
  {
    assert (store.occurrences + [o])[..|store.occurrences|] == store.occurrences;
  }

  /** Appending the occurrence of the current cursor and moving the cursor on. */
  lemma AppendHolds(store: Store, store': Store, s: Id, event: Id, now: int)
    requires Holds(store) && s < |store.schedules| && store.schedules[s].state == Active && store.schedules[s].due <= now
    requires store'.occurrences == store.occurrences + [Occurrence(s, store.schedules[s].due, event)]
    requires var q' := store'.schedules; |q'| == |store.schedules| && q' == store.schedules[s := q'[s]]
    requires var q, q' := store.schedules[s], store'.schedules[s];
             && q'.remaining == q.remaining - 1 && q'.granted == q.granted
             && (q'.state == Active ==> q'.remaining > 0 && q'.due > now)
    ensures Holds(store') && FiredAtMostOnce(store, store', s, now)
  {
    var o := Occurrence(s, store.schedules[s].due, event);
    forall k: Id ensures Fired(store', k) == Fired(store, k) + (if k == s then 1 else 0) {
      FiredAppend(store, o, k);
    }
    assert ScheduleHolds(store, s);
    forall k | 0 <= k < |store'.schedules| ensures ScheduleHolds(store', k) {
      assert ScheduleHolds(store, k);
    }
  }

  lemma FireOneHolds(store: Store, s: Id, now: int, wake: Wake, next: Calendar)
    requires Holds(store) && s < |store.schedules| && store.schedules[s].state == Active && store.schedules[s].due <= now
    requires Forward(next)
    ensures store.schedules[s].remaining > 0
    ensures FireOne(store, s, now, wake, next) != Err(CursorStuck)
    ensures FireOne(store, s, now, wake, next).Ok? ==>
              var store' := FireOne(store, s, now, wake, next).value;
              Holds(store') && |store'.schedules| == |store.schedules| && FiredAtMostOnce(store, store', s, now)
  {
    assert store.schedules[s].remaining > 0 by { assert ScheduleHolds(store, s); }
    CursorAdvances(store, s);
    SetStateHolds(store, s, Expired);
    SetStateHolds(store, s, Canceled);
    SetStateHolds(store, s, Failed);
    assert FiredAtMostOnce(store, store, s, now);
    hide Holds, ScheduleHolds, Fired, Recorded, FiredAtMostOnce;
    if FireOne(store, s, now, wake, next).Ok? {
      var store' := FireOne(store, s, now, wake, next).value;
      if |store'.occurrences| > |store.occurrences| {
        AppendHolds(store, store', s, wake.event.value, now);
      }
    }
  }

  /** One pump, by its due list: each listed schedule once, and nothing at all if an error occurs. */
  function PumpFrom(store: Store, due: seq<Id>, now: int, wake: Id -> Wake, next: Calendar): Result<Store>
    requires forall i :: 0 <= i < |due| ==> due[i] < |store.schedules|
    decreases |due|
  {
    if due == [] then Ok(store)
    else if store.schedules[due[0]].remaining == 0 then PumpFrom(store, due[1..], now, wake, next)
    else
      match FireOne(store, due[0], now, wake(due[0]), next)
      case Err(e) => Err(e)
      case Ok(store') => PumpFrom(store', due[1..], now, wake, next)
  }

  lemma {:induction false} PumpHolds(store: Store, due: seq<Id>, now: int, wake: Id -> Wake, next: Calendar)
    requires Holds(store) && DueList(store, due, now) && Forward(next)
    ensures PumpFrom(store, due, now, wake, next) != Err(CursorStuck)
    ensures PumpFrom(store, due, now, wake, next).Ok? ==>
              var store' := PumpFrom(store, due, now, wake, next).value;
              && Holds(store') && |store'.schedules| == |store.schedules|
              && |store.occurrences| <= |store'.occurrences| && store'.occurrences[..|store.occurrences|] == store.occurrences
              && (forall s :: 0 <= s < |store.schedules| ==>
                    && Fired(store, s) <= Fired(store', s) <= Fired(store, s) + (if s in due then 1 else 0)
                    && (Fired(store', s) > Fired(store, s) ==> store'.schedules[s].state == Active ==> store'.schedules[s].due > now)
                    && (s !in due ==> store'.schedules[s] == store.schedules[s]))
    decreases |due|
  {
    if due != [] {
      var s := due[0];
      FireOneHolds(store, s, now, wake(s), next);
      if FireOne(store, s, now, wake(s), next).Ok? {
        var mid := FireOne(store, s, now, wake(s), next).value;
        assert s !in due[1..];
        PumpHolds(mid, due[1..], now, wake, next);
      }
    }
  }

  // ----- exactly what a firing and a pump do -----

  /** The schedule is unexpired and its wake is accepted. */
  predicate Fires(q: Schedule, now: int, wake: Wake) {
    (q.expires <= 0 || now < q.expires) && wake.Emit? && wake.event.Some?
  }

  /** A recurring schedule with more than one trigger left. */
  predicate Continues(q: Schedule) { q.recurring && q.remaining > 1 }

  /** The schedule's row after its turn in a pump. */
  predicate RowAfter(q: Schedule, q': Schedule, s: Id, now: int, wake: Wake, next: Calendar) {
    if q.expires > 0 && q.expires <= now then q' == q.(state := Expired)
    else match wake
         case Hold => q' == q
         case Refuse => q' == q.(state := Canceled)
         case Emit(None) => q' == q.(state := Failed)
         case Emit(Some(_)) =>
           && q'.remaining + 1 == q.remaining && q' == q.(remaining := q'.remaining, due := q'.due, state := q'.state)
           && (q'.state == Active || q'.state == Completed)
           && (q'.state == Active <==> Continues(q) && next(s, now).Some? && (q.expires == 0 || next(s, now).value < q.expires))
           && q'.due == (if Continues(q) && next(s, now).Some? then next(s, now).value else q.due)
  }

  /** Exactly what a due schedule does: it fires once if it is unexpired and its wake is accepted, unless it
      should recur and has no recurrence, which fails the pump; expiry, refusal and a refused event fire nothing
      and end it. After firing it stays active exactly when it recurs, has triggers left and its next instant
      lies before its expiry. */
  lemma FireExactly(store: Store, s: Id, now: int, wake: Wake, next: Calendar)
    requires Holds(store) && s < |store.schedules| && store.schedules[s].state == Active && Forward(next)
    ensures store.schedules[s].remaining > 0
    ensures var q, done := store.schedules[s], FireOne(store, s, now, wake, next);
            && (done.Err? <==> Fires(q, now, wake) && Continues(q) && next(s, now).None?)
            && (done.Err? ==> done.error == NoRecurrence)
            && (done.Ok? ==>
                  && |done.value.schedules| == |store.schedules|
                  && (forall k :: 0 <= k < |store.schedules| && k != s ==> done.value.schedules[k] == store.schedules[k])
                  && RowAfter(q, done.value.schedules[s], s, now, wake, next)
                  && done.value.occurrences
                     == store.occurrences + (if Fires(q, now, wake) then [Occurrence(s, q.due, wake.event.value)] else []))
  {
    assert ScheduleHolds(store, s);
    CursorAdvances(store, s);
    hide Holds, ScheduleHolds, Recorded;
  }

  predicate FailsPump(q: Schedule, s: Id, now: int, wake: Wake, next: Calendar) {
    Fires(q, now, wake) && Continues(q) && next(s, now).None?
  }

  /** Exactly what a pump does: every listed schedule takes its turn once, the others stay as they are, the
      events of those that fire are recorded once each, and the pump fails exactly when one that should recur
      has no recurrence. */
  lemma {:induction false} PumpExactly(store: Store, due: seq<Id>, now: int, wake: Id -> Wake, next: Calendar)
    requires Holds(store) && DueList(store, due, now) && Forward(next)
    ensures var done := PumpFrom(store, due, now, wake, next);
            && (done.Err? <==> exists i :: 0 <= i < |due| && FailsPump(store.schedules[due[i]], due[i], now, wake(due[i]), next))
            && (done.Ok? ==>
                  && |done.value.schedules| == |store.schedules|
                  && (forall i :: 0 <= i < |due| ==>
                       && RowAfter(store.schedules[due[i]], done.value.schedules[due[i]], due[i], now, wake(due[i]), next)
                       && Fired(done.value, due[i]) == Fired(store, due[i]) + (if Fires(store.schedules[due[i]], now, wake(due[i])) then 1 else 0))
                  && (forall s: Id :: s < |store.schedules| && s !in due ==>
                        done.value.schedules[s] == store.schedules[s] && Fired(done.value, s) == Fired(store, s)))
    decreases |due|
  {
    hide Holds, RowAfter, FireOne, Fires, Continues;
    if due != [] {
      var s, tail := due[0], due[1..];
      FireOneHolds(store, s, now, wake(s), next);
      FireExactly(store, s, now, wake(s), next);
      assert forall i :: 0 <= i < |tail| ==> tail[i] == due[i + 1] && tail[i] != s;
      if FireOne(store, s, now, wake(s), next).Ok? {
        var mid := FireOne(store, s, now, wake(s), next).value;
        FiredOne(store, mid, s, now, wake(s));
        PumpExactly(mid, tail, now, wake, next);
        var done := PumpFrom(mid, tail, now, wake, next);
        if i :| 0 <= i < |due| && FailsPump(store.schedules[due[i]], due[i], now, wake(due[i]), next) {
          assert i > 0 && tail[i - 1] == due[i];
        }
        if done.Ok? {
          assert s !in tail;
          forall i | 0 <= i < |due|
            ensures RowAfter(store.schedules[due[i]], done.value.schedules[due[i]], due[i], now, wake(due[i]), next)
            ensures Fired(done.value, due[i]) == Fired(store, due[i]) + (if Fires(store.schedules[due[i]], now, wake(due[i])) then 1 else 0)
          {
            if i > 0 { assert due[i] == tail[i - 1]; }
          }
        }
      } else {
        assert FailsPump(store.schedules[due[0]], due[0], now, wake(due[0]), next);
      }
    }
  }

  lemma FiredOne(store: Store, mid: Store, s: Id, now: int, wake: Wake)
    requires s < |store.schedules|
    requires mid.occurrences == store.occurrences + (if Fires(store.schedules[s], now, wake) then [Occurrence(s, store.schedules[s].due, wake.event.value)] else [])
    ensures forall k: Id :: Fired(mid, k) == Fired(store, k) + (if k == s && Fires(store.schedules[s], now, wake) then 1 else 0)
  {
    if Fires(store.schedules[s], now, wake) {
      forall k: Id ensures Fired(mid, k) == Fired(store, k) + (if k == s then 1 else 0) {
        FiredAppend(store, Occurrence(s, store.schedules[s].due, wake.event.value), k);
      }
    } else {
      assert mid.occurrences == store.occurrences;
    }
  }

  /** Exactly which schedules are created, and as what. */
  lemma CreateExactly(store: Store, system: Id, recurring: bool, due: int, budget: nat, now: int, deadline: int)
    ensures var created := Create(store, system, recurring, due, budget, now, deadline);
            && (created.Some? <==>
                  && 1 <= budget <= 8 && (recurring || budget == 1) && now < due && (deadline <= 0 || due < deadline)
                  && InSystem(store.schedules, system) < 128)
            && (created.Some? ==>
                  && created.value.occurrences == store.occurrences
                  && created.value.schedules == store.schedules + [Schedule(system, recurring, due, deadline, budget, budget, Active)])
  {
  }

  /** Missed instants are coalesced: a pump emits at most one event for a schedule however many were
      missed, and a second pump at the same or an earlier reading has nothing to fire for it. */
  lemma PumpCoalesces(store: Store, due: seq<Id>, now: int, wake: Id -> Wake, next: Calendar, s: Id, again: int)
    requires Holds(store) && DueList(store, due, now) && Forward(next) && s < |store.schedules| && again <= now
    requires PumpFrom(store, due, now, wake, next).Ok?
    ensures var store' := PumpFrom(store, due, now, wake, next).value;
            && Fired(store', s) <= Fired(store, s) + 1
            && (Fired(store', s) > Fired(store, s) ==>
                  forall due', i :: DueList(store', due', again) && 0 <= i < |due'| ==> due'[i] != s)
  {
    PumpHolds(store, due, now, wake, next);
  }

  /** The store's schedule tables and the transactions that touch them. */
  class Pump {
    var schedules: seq<Schedule>
    var occurrences: seq<Occurrence>

    function View(): Store
      reads this
    {
      Store(schedules, occurrences)
    }

    ghost predicate Valid()
      reads this
    {
      Holds(View())
    }

    constructor ()
      ensures Valid() && View() == Store([], [])
    {
      schedules, occurrences := [], [];
    }

    method CreateSchedule(system: Id, recurring: bool, due: int, budget: nat, now: int, deadline: int) returns (created: bool)
      requires Valid()
      modifies this`schedules
      ensures Valid()
      ensures created <==> Create(old(View()), system, recurring, due, budget, now, deadline).Some?
      ensures View() == if created then Create(old(View()), system, recurring, due, budget, now, deadline).value else old(View())
    {
      ghost var before := View();
      if budget < 1 || budget > MAX_TRIGGERS || (!recurring && budget != 1) || due <= now || (deadline > 0 && due >= deadline) {
        return false;
      }
      var count := 0;
      for i := 0 to |schedules|
        invariant count == InSystem(schedules[..i], system)
      {
        assert schedules[..i + 1][..i] == schedules[..i];
        if schedules[i].system == system { count := count + 1; }
      }
      assert schedules[..|schedules|] == schedules;
      if count >= MAX_SCHEDULES {
        return false;
      }
      CreateHolds(before, system, recurring, due, budget, now, deadline);
      schedules := schedules + [Schedule(system, recurring, due, deadline, budget, budget, Active)];
      return true;
    }

    method CancelSchedule(s: Id)
      requires Valid()
      modifies this`schedules
      ensures Valid() && View() == Cancel(old(View()), s)
    {
      if s < |schedules| {
        SetStateHolds(View(), s, Canceled);
        schedules := schedules[s := schedules[s].(state := Canceled)];
      }
    }

    method IsRecorded(s: Id, due: int) returns (recorded: bool)
      ensures recorded == Recorded(View(), s, due)
    {
      recorded := false;
      for i := 0 to |occurrences|
        invariant recorded <==> exists k :: 0 <= k < i && occurrences[k].schedule == s && occurrences[k].due == due
      {
        if occurrences[i].schedule == s && occurrences[i].due == due { recorded := true; }
      }
    }

    /** Fires one due schedule. A missing recurrence is reported and undone by the caller. */
    method FireDue(s: Id, now: int, wake: Wake, next: Calendar) returns (ok: bool)
      requires Valid() && s < |schedules| && schedules[s].state == Active && schedules[s].due <= now && Forward(next)
      requires schedules[s].remaining > 0
      modifies this
      ensures ok <==> FireOne(old(View()), s, now, wake, next).Ok?
      ensures ok ==> View() == FireOne(old(View()), s, now, wake, next).value
    {
      CursorAdvances(View(), s);
      var q := schedules[s];
      if q.expires > 0 && q.expires <= now {
        schedules := schedules[s := q.(state := Expired)];
        return true;
      }
      if wake.Hold? {
        return true;
      }
      if wake.Refuse? {
        schedules := schedules[s := q.(state := Canceled)];
        return true;
      }
      var recorded := IsRecorded(s, q.due);
      if recorded {
        assert false; // the cursor always advances with its occurrence
      }
      if wake.event.None? {
        schedules := schedules[s := q.(state := Failed)];
        return true;
      }
      occurrences := occurrences + [Occurrence(s, q.due, wake.event.value)];
      var cursor, state := q.due, Completed;
      if q.recurring && q.remaining > 1 {
        var future := next(s, now);
        if future.None? {
          return false;
        }
        cursor := future.value;
        if q.expires == 0 || cursor < q.expires { state := Active; }
      }
      schedules := schedules[s := q.(due := cursor, remaining := q.remaining - 1, state := state)];
      return true;
    }

    /** One pump transaction over the rows it read. A failure leaves the tables as they were. */
    method PumpWakeups(due: seq<Id>, now: int, wake: Id -> Wake, next: Calendar) returns (ok: bool)
      requires Valid() && DueList(View(), due, now) && Forward(next)
      modifies this
      ensures Valid()
      ensures ok <==> PumpFrom(old(View()), due, now, wake, next).Ok?
      ensures View() == if ok then PumpFrom(old(View()), due, now, wake, next).value else old(View())
    {
      hide Holds, FireOne;
      ghost var before := View();
      var start, fired := schedules, occurrences;
      var i := 0;
      while i < |due|
        invariant 0 <= i <= |due| && Valid() && |schedules| == |before.schedules|
        invariant forall k :: i <= k < |due| ==> schedules[due[k]] == before.schedules[due[k]]
        invariant PumpFrom(View(), due[i..], now, wake, next) == PumpFrom(before, due, now, wake, next)
      {
        var s := due[i];
        ghost var store := View();
        assert due[i..][0] == s && due[i..][1..] == due[i + 1..];
        FireOneHolds(store, s, now, wake(s), next);
        i := i + 1;
        var done := FireDue(s, now, wake(s), next);
        if !done {
          schedules, occurrences := start, fired;
          return false;
        }
      }
      return true;
    }
  }
}
