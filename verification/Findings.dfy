/** A concrete store in which settlement would requeue an unknown outcome. */
module Findings {
  import opened Common
  import opened Tables
  import opened Sums
  import opened Admission
  import opened Discipline
  import opened AdmissionInv

  const ONE_GROUP := Config(map[0 := [0]], map[0 := QuotaLimits(60, 1000, 1, 1, 2, 10)])

  /** One system with one running call and its request in flight. */
  const ON_THE_NETWORK :=
    Db([System(SystemState.Active, 1, 100, 0, 10, 1, Some(0))],
       [Goal(0, true, false, Enabled, 100, 0, 10)],
       [Agent(0, None, None, Enabled, 0, 100)],
       [Task(0, 0, 0, None, false, false, 1, [])],
       map[(0, 0) := Usage(0, 10)],
       [Call(0, 0, 0, 0, 0, [0], 1, 7, Running, 10, 1, 0, 1000, 1000)],
       [Attempt(0, 0, 5, 10, InFlight, false, 0, 0)],
       map[0 := Bucket(0.0, 5, 0)], map[], {})

  const LOST_BUT_RETRY := ProviderResult(false, true, true, 0, 0, None, 1000)

  lemma OnTheNetworkRefs()
    ensures ValidConfig(ONE_GROUP) && Refs(ONE_GROUP, ON_THE_NETWORK)
  {
    var db := ON_THE_NETWORK;
    assert ValidConfig(ONE_GROUP);
    OnTheNetworkRows();
    hide GoalRefs, AgentForest, TaskForest, AgentRefs, UsageRefs;
    assert CallRefs(ONE_GROUP, db.tasks, db.calls) && AttemptRefs(db.calls, db.attempts);
  }

  lemma OnTheNetworkRows()
    ensures var db := ON_THE_NETWORK;
            GoalRefs(db.systems, db.goals) && AgentForest(db.agents) && TaskForest(db.tasks)
            && AgentRefs(db.systems, db.goals, db.agents) && UsageRefs(db.systems, db.goals, db.agents, db.usage.Keys)
  {
    var db := ON_THE_NETWORK;
    assert GoalRefs(db.systems, db.goals) && AgentForest(db.agents) && TaskForest(db.tasks);
    assert AgentRefs(db.systems, db.goals, db.agents);
    assert UsageRefs(db.systems, db.goals, db.agents, db.usage.Keys) by { assert db.usage.Keys == {(0, 0)}; }
  }

  lemma OnTheNetworkCall()
    ensures CallDisciplined(ON_THE_NETWORK.calls, ON_THE_NETWORK.attempts, 0)
  {
    var attempts := ON_THE_NETWORK.attempts;
    assert attempts == [] + [attempts[0]];
    SumAppend([], attempts[0], Keyed(CallKey(), 0));
    assert attempts[0].state == InFlight;
  }

  lemma OnTheNetworkDisciplined()
    ensures Disciplined(ON_THE_NETWORK)
  {
    hide CallDisciplined;
    OnTheNetworkCall();
  }

  /** An outcome that is not known but carries a retry suggestion puts the call back in the queue,
      from where it can be dispatched again although the provider may have served the first request. */
  lemma UnknownOutcomeRequeued()
    ensures ValidConfig(ONE_GROUP) && Refs(ONE_GROUP, ON_THE_NETWORK) && Disciplined(ON_THE_NETWORK)
    ensures var after := Settle(ONE_GROUP, ON_THE_NETWORK, Session(0, 7), LOST_BUT_RETRY, 10);
            after.calls[0].state == Queued && after.attempts[0].state == Unresolved && !Disciplined(after)
  {
    OnTheNetworkRefs();
    OnTheNetworkDisciplined();
    hide Refs, ValidConfig, Disciplined;
    var db := ON_THE_NETWORK;
    var e := db.calls[0];
    assert e.groups == [0];
    assert db.calls == [] + [e];
    SumAppend([], e, Quota.QueuedIn(0));
    assert Quota.QueuedCount(db.calls, 0) == 0;
    assert Requeues(ONE_GROUP, db, 0, LOST_BUT_RETRY, 10);
    SettleDisciplineExactly(ONE_GROUP, db, Session(0, 7), LOST_BUT_RETRY, 10);
  }
}
