/** The durable tables that model admission reads and writes, and their referential integrity.
    A row's position in its table is its identity: rows are only ever appended, so a position
    is as distinct and as permanent as the random identifiers the store draws. */
module Tables {
  import opened Common

  /** The administrative limits of one quota group; fixed during a run. */
  datatype QuotaLimits = QuotaLimits(requestsPerMinute: nat, tokensPerMinute: nat, burst: nat,
                                     maxConcurrent: nat, queueCapacity: nat, maxWaitSeconds: nat)

  /** Each model alias names the quota groups its calls count against. */
  datatype Config = Config(models: map<Id, seq<Id>>, groups: map<Id, QuotaLimits>)

  datatype SystemState = Inactive | Active | Paused | Stopping | Stopped

  datatype System = System(state: SystemState, revision: nat, budget: nat, used: int, reserved: int,
                           lastAdmission: nat, operator: Option<Id>)

  datatype Control = Enabled | Held | Ended

  datatype Goal = Goal(system: Id, started: bool, continuous: bool, control: Control, budget: nat, used: int, reserved: int)

  /** `goal` is absent only for the operator agent, which serves every goal of its system. */
  datatype Agent = Agent(system: Id, parent: Option<Id>, goal: Option<Id>, state: Control, depth: nat, budget: nat)

  datatype Task = Task(system: Id, goal: Id, agent: Id, parent: Option<Id>, terminal: bool, stopped: bool,
                       turns: nat, pins: seq<Id>)

  datatype Usage = Usage(used: int, reserved: int)

  datatype CallState = Awaiting | Queued | Running | Completed | Failed | Canceled | Rejected | Unknown

  datatype Call = Call(system: Id, goal: Id, task: Id, agent: Id, model: Id, groups: seq<Id>, revision: nat, owner: Id,
                       state: CallState, reservation: nat, attempts: nat, queuedAt: int, deadline: int, waitDeadline: int)

  datatype AttemptState = InFlight | Settled | Unresolved

  /** One provider dispatch. `reservation` is the stored column, which settlement may raise. */
  datatype Attempt = Attempt(call: Id, system: Id, dispatchedAt: int, reservation: nat, state: AttemptState,
                             throttled: bool, input: nat, output: nat)

  datatype Bucket = Bucket(credit: real, updated: int, cooldown: int)

  /** An approved local tool version. `granted` is the allowance of the approving command, kept
      so that conservation of uses can be stated; the store keeps only what remains. */
  datatype Approval = Approval(live: bool, expires: int, remaining: nat, granted: nat)

  datatype Db = Db(systems: seq<System>, goals: seq<Goal>, agents: seq<Agent>, tasks: seq<Task>,
                   usage: map<(Id, Id), Usage>, calls: seq<Call>, attempts: seq<Attempt>,
                   buckets: map<Id, Bucket>, approvals: map<Id, Approval>, uses: set<(Id, Id)>)

  const EMPTY := Db([], [], [], [], map[], [], [], map[], map[], {})

  const MAX_CANDIDATES := 64
  const MAX_TASK_TURNS := 8
  const MAX_GOAL_TASKS := 64
  const MAX_ATTEMPTS := 3
  const WINDOW_MS := 60000

  /** What configuration validation demands of quota groups and models. */
  predicate ValidConfig(cfg: Config) {
    && (forall g :: g in cfg.groups ==> 1 <= cfg.groups[g].burst <= cfg.groups[g].requestsPerMinute
                                        && 1 <= cfg.groups[g].tokensPerMinute && 1 <= cfg.groups[g].maxConcurrent)
    && (forall m :: m in cfg.models ==> cfg.models[m] != [] && Distinct(cfg.models[m]))
    && (forall m, g :: m in cfg.models && g in cfg.models[m] ==> g in cfg.groups)
  }

  /** A creation parent precedes its child and shares its system. */
  predicate AgentForest(agents: seq<Agent>) {
    forall i :: 0 <= i < |agents| && agents[i].parent.Some? ==>
      agents[i].parent.value < i && agents[agents[i].parent.value].system == agents[i].system
  }

  /** A delegating task precedes its child and shares its system and goal. */
  predicate TaskForest(tasks: seq<Task>) {
    forall i :: 0 <= i < |tasks| && tasks[i].parent.Some? ==>
      tasks[i].parent.value < i && tasks[tasks[i].parent.value].system == tasks[i].system
      && tasks[tasks[i].parent.value].goal == tasks[i].goal
  }

  predicate GoalRefs(systems: seq<System>, goals: seq<Goal>) {
    forall g :: 0 <= g < |goals| ==> goals[g].system < |systems|
  }

  /** Operators have neither goal nor parent and are named by their system; every other agent
      belongs to one goal, and so does its creator unless that is the operator. */
  predicate AgentRefs(systems: seq<System>, goals: seq<Goal>, agents: seq<Agent>) {
    && (forall a :: 0 <= a < |agents| ==> agents[a].system < |systems|)
    && (forall a :: 0 <= a < |agents| && agents[a].goal.None? ==>
         agents[a].parent.None? && systems[agents[a].system].operator == Some(a))
    && (forall a :: 0 <= a < |agents| && agents[a].goal.Some? ==>
         && agents[a].goal.value < |goals| && goals[agents[a].goal.value].system == agents[a].system
         && goals[agents[a].goal.value].started
         && agents[a].parent.Some? && agents[a].parent.value < |agents|
         && (agents[agents[a].parent.value].goal.None? || agents[agents[a].parent.value].goal == agents[a].goal))
    && (forall s :: 0 <= s < |systems| && systems[s].operator.Some? ==>
         systems[s].operator.value < |agents| && agents[systems[s].operator.value].system == s
         && agents[systems[s].operator.value].goal.None?)
  }

  predicate TaskRefs(systems: seq<System>, goals: seq<Goal>, agents: seq<Agent>, tasks: seq<Task>) {
    forall t :: 0 <= t < |tasks| ==>
      && tasks[t].system < |systems|
      && tasks[t].goal < |goals| && goals[tasks[t].goal].system == tasks[t].system && goals[tasks[t].goal].started
      && tasks[t].agent < |agents| && agents[tasks[t].agent].system == tasks[t].system
      && (agents[tasks[t].agent].goal.None? || agents[tasks[t].agent].goal == Some(tasks[t].goal))
      && Distinct(tasks[t].pins)
  }

  /** Every agent of a goal, and the operator for every started goal, has a usage row. */
  predicate UsageRefs(systems: seq<System>, goals: seq<Goal>, agents: seq<Agent>, rows: set<(Id, Id)>) {
    && (forall k :: k in rows ==> k.0 < |agents| && k.1 < |goals| && goals[k.1].system == agents[k.0].system && goals[k.1].started)
    && (forall a :: 0 <= a < |agents| && agents[a].goal.Some? ==> (a, agents[a].goal.value) in rows)
    && (forall g :: 0 <= g < |goals| && goals[g].started ==>
         goals[g].system < |systems| && systems[goals[g].system].operator.Some? && (systems[goals[g].system].operator.value, g) in rows)
  }

  predicate CallRefs(cfg: Config, tasks: seq<Task>, calls: seq<Call>) {
    forall c :: 0 <= c < |calls| ==>
      && calls[c].task < |tasks| && tasks[calls[c].task].system == calls[c].system
      && tasks[calls[c].task].goal == calls[c].goal && tasks[calls[c].task].agent == calls[c].agent
      && calls[c].model in cfg.models && calls[c].groups == cfg.models[calls[c].model]
  }

  predicate AttemptRefs(calls: seq<Call>, attempts: seq<Attempt>) {
    forall i :: 0 <= i < |attempts| ==> attempts[i].call < |calls| && attempts[i].system == calls[attempts[i].call].system
  }

  /** The foreign keys of the schema together with the shape of both parent relations. */
  predicate Refs(cfg: Config, db: Db) {
    && GoalRefs(db.systems, db.goals)
    && AgentForest(db.agents) && TaskForest(db.tasks)
    && AgentRefs(db.systems, db.goals, db.agents)
    && TaskRefs(db.systems, db.goals, db.agents, db.tasks)
    && UsageRefs(db.systems, db.goals, db.agents, db.usage.Keys)
    && CallRefs(cfg, db.tasks, db.calls)
    && AttemptRefs(db.calls, db.attempts)
  }
}
