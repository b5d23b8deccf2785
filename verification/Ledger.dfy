/** The agents that finance a call: the executing agent's creation ancestry together with
    the agents of every task on the call's delegation chain. */
module Ledger {
  import opened Common
  import opened Tables

  /** The lineage half of the recursive query. The guard `p < a` holds for every stored row. */
  function Lineage(agents: seq<Agent>, a: Id): set<Id>
    decreases a
  {
    if a >= |agents| then {}
    else {a} + (match agents[a].parent
                case None => {}
                case Some(p) => if p < a then Lineage(agents, p) else {})
  }

  /** The delegation half of the recursive query. */
  function Chain(tasks: seq<Task>, t: Id): set<Id>
    decreases t
  {
    if t >= |tasks| then {}
    else {tasks[t].agent} + (match tasks[t].parent
                             case None => {}
                             case Some(p) => if p < t then Chain(tasks, p) else {})
  }

  function Payers(agents: seq<Agent>, tasks: seq<Task>, agent: Id, task: Id): set<Id> {
    Lineage(agents, agent) + Chain(tasks, task)
  }

  /** A path of creation steps, the independent reading of "ancestor". */
  ghost predicate CreationPath(agents: seq<Agent>, p: seq<Id>) {
    && p != []
    && (forall i :: 0 <= i < |p| ==> p[i] < |agents|)
    && (forall i :: 0 <= i < |p| - 1 ==> agents[p[i]].parent == Some(p[i + 1]))
  }

  lemma {:induction false} LineageHasPath(agents: seq<Agent>, a: Id, x: Id) returns (p: seq<Id>)
    requires AgentForest(agents) && x in Lineage(agents, a)
    ensures CreationPath(agents, p) && p[0] == a && p[|p| - 1] == x
    decreases a
  {
    if x == a {
      p := [a];
    } else {
      var q := LineageHasPath(agents, agents[a].parent.value, x);
      p := [a] + q;
    }
  }

  lemma {:induction false} PathInLineage(agents: seq<Agent>, p: seq<Id>)
    requires AgentForest(agents) && CreationPath(agents, p)
    ensures p[|p| - 1] in Lineage(agents, p[0])
    decreases |p|
  {
    if |p| > 1 {
      assert agents[p[0]].parent == Some(p[1]);
      PathInLineage(agents, p[1..]);
    }
  }

  /** The lineage query returns exactly the agents a creation path leads to. */
  lemma LineageIsAncestry(agents: seq<Agent>, a: Id, x: Id)
    requires AgentForest(agents)
    ensures x in Lineage(agents, a) <==> exists p :: CreationPath(agents, p) && p[0] == a && p[|p| - 1] == x
  {
    if x in Lineage(agents, a) {
      var p := LineageHasPath(agents, a, x);
    }
    forall p | CreationPath(agents, p) && p[0] == a && p[|p| - 1] == x
      ensures x in Lineage(agents, a)
    {
      PathInLineage(agents, p);
    }
  }

  ghost predicate DelegationPath(tasks: seq<Task>, p: seq<Id>) {
    && p != []
    && (forall i :: 0 <= i < |p| ==> p[i] < |tasks|)
    && (forall i :: 0 <= i < |p| - 1 ==> tasks[p[i]].parent == Some(p[i + 1]))
  }

  lemma {:induction false} ChainHasPath(tasks: seq<Task>, t: Id, x: Id) returns (p: seq<Id>)
    requires TaskForest(tasks) && x in Chain(tasks, t)
    ensures DelegationPath(tasks, p) && p[0] == t && tasks[p[|p| - 1]].agent == x
    decreases t
  {
    if x == tasks[t].agent {
      p := [t];
    } else {
      var q := ChainHasPath(tasks, tasks[t].parent.value, x);
      p := [t] + q;
    }
  }

  lemma {:induction false} PathInChain(tasks: seq<Task>, p: seq<Id>)
    requires TaskForest(tasks) && DelegationPath(tasks, p)
    ensures tasks[p[|p| - 1]].agent in Chain(tasks, p[0])
    decreases |p|
  {
    if |p| > 1 {
      assert tasks[p[0]].parent == Some(p[1]);
      PathInChain(tasks, p[1..]);
    }
  }

  /** The delegation query returns exactly the agents of the tasks a delegation path leads to. */
  lemma ChainIsDelegation(tasks: seq<Task>, t: Id, x: Id)
    requires TaskForest(tasks)
    ensures x in Chain(tasks, t) <==>
            exists p :: DelegationPath(tasks, p) && p[0] == t && tasks[p[|p| - 1]].agent == x
  {
    if x in Chain(tasks, t) {
      var p := ChainHasPath(tasks, t, x);
    }
    forall p | DelegationPath(tasks, p) && p[0] == t && tasks[p[|p| - 1]].agent == x
      ensures x in Chain(tasks, t)
    {
      PathInChain(tasks, p);
    }
  }

  /** Agents are appended and keep their parents. */
  ghost predicate AgentsGrow(before: seq<Agent>, after: seq<Agent>) {
    && |before| <= |after|
    && forall i :: 0 <= i < |before| ==>
      && after[i].parent == before[i].parent && after[i].system == before[i].system && after[i].goal == before[i].goal
  }

  /** Tasks are appended and keep their parents, agents, pins and stop marks. */
  ghost predicate TasksGrow(before: seq<Task>, after: seq<Task>) {
    && |before| <= |after|
    && forall i :: 0 <= i < |before| ==>
      && after[i].parent == before[i].parent && after[i].agent == before[i].agent
      && after[i].system == before[i].system && after[i].goal == before[i].goal && after[i].pins == before[i].pins
      && (before[i].stopped ==> after[i].stopped)
  }

  lemma {:induction false} LineageStable(before: seq<Agent>, after: seq<Agent>, a: Id)
    requires AgentsGrow(before, after) && a < |before|
    ensures Lineage(after, a) == Lineage(before, a)
    decreases a
  {
    match before[a].parent {
      case None =>
      case Some(p) => if p < a { LineageStable(before, after, p); }
    }
  }

  lemma {:induction false} ChainStable(before: seq<Task>, after: seq<Task>, t: Id)
    requires TasksGrow(before, after) && t < |before|
    ensures Chain(after, t) == Chain(before, t)
    decreases t
  {
    match before[t].parent {
      case None =>
      case Some(p) => if p < t { ChainStable(before, after, p); }
    }
  }

  /** The set of payers computed at settlement is the one computed at admission, however many
      agents and tasks were created in between. */
  lemma PayersStable(agents: seq<Agent>, agents': seq<Agent>, tasks: seq<Task>, tasks': seq<Task>, agent: Id, task: Id)
    requires AgentsGrow(agents, agents') && TasksGrow(tasks, tasks')
    requires agent < |agents| && task < |tasks|
    ensures Payers(agents', tasks', agent, task) == Payers(agents, tasks, agent, task)
  {
    LineageStable(agents, agents', agent);
    ChainStable(tasks, tasks', task);
  }

  lemma {:induction false} LineageRows(systems: seq<System>, goals: seq<Goal>, agents: seq<Agent>, rows: set<(Id, Id)>, a: Id, g: Id)
    requires AgentForest(agents) && AgentRefs(systems, goals, agents) && UsageRefs(systems, goals, agents, rows)
    requires a < |agents| && g < |goals| && goals[g].started && goals[g].system == agents[a].system
    requires agents[a].goal.None? || agents[a].goal == Some(g)
    ensures forall x :: x in Lineage(agents, a) ==> x < |agents| && agents[x].system == agents[a].system && (x, g) in rows
    decreases a
  {
    if agents[a].goal.Some? {
      LineageRows(systems, goals, agents, rows, agents[a].parent.value, g);
    }
  }

  lemma {:induction false} ChainRows(systems: seq<System>, goals: seq<Goal>, agents: seq<Agent>, tasks: seq<Task>, rows: set<(Id, Id)>, t: Id)
    requires TaskForest(tasks) && TaskRefs(systems, goals, agents, tasks)
    requires AgentRefs(systems, goals, agents) && UsageRefs(systems, goals, agents, rows) && t < |tasks|
    ensures forall x :: x in Chain(tasks, t) ==>
              x < |agents| && agents[x].system == tasks[t].system && (x, tasks[t].goal) in rows
    decreases t
  {
    if tasks[t].parent.Some? {
      ChainRows(systems, goals, agents, tasks, rows, tasks[t].parent.value);
    }
  }

  /** Every payer of a call has a usage row for the call's goal, so the ledger join never misses
      a row and every payer is charged. */
  lemma PayersHaveRows(cfg: Config, db: Db, c: Id)
    requires Refs(cfg, db) && c < |db.calls|
    ensures var e := db.calls[c];
            forall x :: x in Payers(db.agents, db.tasks, e.agent, e.task) ==>
              x < |db.agents| && db.agents[x].system == e.system && (x, e.goal) in db.usage
  {
    var e := db.calls[c];
    LineageRows(db.systems, db.goals, db.agents, db.usage.Keys, e.agent, e.goal);
    ChainRows(db.systems, db.goals, db.agents, db.tasks, db.usage.Keys, e.task);
  }
}
