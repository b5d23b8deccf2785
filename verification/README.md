# Microoperator runtime model

This project models the durable runtime in `internal/state` of the repository, with the pure parts of
`internal/sandbox`, and proves what it promises on every run. Each store method is one atomic
transaction. A daemon, its workers, an administrator, a clock and crashes interleave the transactions
freely; clock readings (backward jumps included), provider results, worker reports and commands are
arbitrary inputs.

`dafny verify dfyconfig.toml` checks everything.

## Layout

* **Model admission.** `Tables`, `Ledger`, `Quota`, `Admission` and `Steps` hold the tables and every
  transaction that touches them, as functions. `Books`, `Discipline`, `Limits`, `Approvals` and `Work` hold
  the parts of the invariant, `Invariant`, `StepsInv` and `AdmissionInv` its preservation, `Runs` the
  theorems about runs. `AdmissionRows`, `SettlementRows` and `StepRows` read every transaction off the
  columns: when exactly it is accepted and what it writes. `Fairness` bounds bypass, `Pace` bounds request
  rates over segments of runs, `Stillness` says what only admissions change, `History` what no later step
  undoes. `Broker` is the class with the tables as fields and the loops over candidates, groups, pins and
  payers; every method is proved to compute the corresponding function.
* **Delivery protocol.** `Team`, `Mailbox` and `TeamSteps` hold tasks, calls, tool receipts and mail of bounded
  goals with every transaction on them and the volatile activations. `TeamInvariant`, `TaskEnds`,
  `Rewrites`, `Turns`, `DeliverClaim`, `ToolCalls`, `DeliverFinish` and `DeliverRestart` prove the invariant,
  `TeamRuns` and `TeamTheorems` the theorems about runs, `Courses` and `Service` that no task is forgotten and how
  tasks come to be completed, `TeamFindings` the run that goes astray. `EventRows`, `TaskFates`, `ClaimRows`,
  `ToolRows`, `FinishRows`, `RestartFates` and `CommandRows` read every transaction off the rows. `TeamEngine` is
  the class that runs the protocol in place.
* **Stand-alone parts.** `Seccomp` (the filter generator, an interpreter, and their agreement), `Schedules`
  (the cron pump), `Dependencies` (the tool dependency search).

A row's position in its table is its identity: rows are only appended, so a position is as distinct and as
permanent as a random identifier. Token credit is a real number. The administrative configuration is fixed
during a run.

The dispatch reservation of an attempt is the reservation of its call: re-estimation touches only calls that
were never dispatched, so no further record is needed although settlement raises the stored column.

## What turned out not to hold

* **Stale replies.** A reply that was applied, and whose worker then failed before its first dispatch, goes back
  to pending with a delay (`internal/state/team.go:401-413`). If user input starts the task before the delay
  has passed and the task delegates again, the old reply is claimed while the task waits on the new delegate:
  the candidate query and the guard at `internal/state/team.go:144` let any reply through, and
  the guard at `internal/state/team.go:166` skips one that was applied. The task runs with its tool call open,
  its answered call is replayed, the next request contains a tool call without answer, and the delegate is
  forgotten. `TeamFindings.StaleReplyMisleads` gives a run from the empty store that ends so.
  The exact condition of one claim is `TeamTheorems.ClaimExactly`, that of a whole run
  `TeamTheorems.RunExactly`. The damage is confined: capacity, deliveries, receipts and activations hold on
  all runs without exception, and what concerns single tasks holds for every task that no claim led astray
  (`TeamTheorems.RunInv`). `TeamTheorems.DelegationExactly` says where stale replies come from and
  `TeamTheorems.CarefulTheorem` what is enough to avoid them; recovery clears those that are left.
* **Acyclic dependencies may be refused.** Beyond 32 links the search may accept a graph in one iteration order of
  the tools and refuse it in another, as it does every long straight chain
  (`Dependencies.LongChainsDependOnOrder`). All orders accept exactly when every tool is accepted alone
  (`Dependencies.EveryOrderExactly`), and some order accepts exactly when the graph is acyclic
  (`Dependencies.SomeOrderExactly`).

## What settlement expects

The requeueing branch of settlement (`internal/state/broker.go:259-297`) does not look at whether the outcome is
known. Its callers only pass results in which a suggested retry comes with a known outcome
(`internal/provider/chat.go:114-130`), so this is a precondition, and runs take results in that form.
`AdmissionInv.SettleDisciplineExactly` shows that settlement keeps the attempt discipline exactly when it is met,
and `Findings.UnknownOutcomeRequeued` that it is needed.

## Model

| member | source | states |
|---|---|---|
| Ledger.LineageIsAncestry | internal/state/team_ops.go:16-19 | the recursive lineage query returns an agent exactly when a creation path leads to it |
| Ledger.ChainIsDelegation | internal/state/team_ops.go:19-22 | the recursive task query returns an agent exactly when it executes a task on the call's delegation path |
| Ledger.PayersStable | internal/state/team_ops.go:14-38 | the set of agents charged at settlement is the set charged at admission, however many agents and tasks were created in between |
| Ledger.PayersHaveRows | internal/state/team_ops.go:92-98 | every charged agent has a usage row for the goal, so the ledger join never misses one |
| Broker.Broker.BudgetAgents | internal/state/team_ops.go:24-38 | walking both parent relations collects exactly the creation ancestors and delegation agents |
| Broker.Broker.ChargeAgents | internal/state/team_ops.go:107-119 | charging the collected agents one by one updates exactly the usage rows of all payers for the goal |
| Quota.PollBounds | internal/state/broker.go:131-133 | a refill keeps credit within 0 and the burst, never runs the clock of a group backwards and adds at most rate times elapsed time |
| Quota.PollTwice | internal/state/broker.go:122-136 | refilling twice equals refilling once at the later reading, backward jumps included: a denied poll leaves no trace |
| Quota.PollAllRows | internal/state/broker.go:120-149 | one pass over distinct groups polls each exactly once and touches no other bucket |
| Quota.PollAllAgain | internal/state/broker.go:122-136 | a second poll at the same reading finds the same bucket |
| Quota.DispatchAtLatest | internal/state/broker.go:120-132 | the dispatch instant is the latest of the reading and the clocks of all groups of the call |
| Broker.Broker.GroupTotals | internal/state/broker.go:137-143 | one pass over the attempts computes the rolling token total and the in-flight count of a group |
| Broker.Broker.PollGroup | internal/state/broker.go:122-147 | one group's refill and test, tied to the model's poll and limits |
| Broker.Broker.PollGroups | internal/state/broker.go:119-149 | the loop over groups refills each, admits exactly when all of them fit and finds the latest instant |
| Broker.Broker.SpendGroups | internal/state/broker.go:171-175 | one credit is taken from every group of the call and from no other |
| Admission.CandidatesAreFairOrder | internal/state/broker.go:67-82 | candidates come strictly in (last admission, sequence) order and leave out a queued call only behind 64 that precede it |
| AdmissionInv.DispatchInv | internal/state/broker.go:171-207 | recording one admission keeps every account, limit, allowance and count |
| AdmissionInv.WindowWithinTokens | internal/state/broker.go:137-146 | any minute that ends no earlier than the polled instant lies inside the polled window |
| AdmissionInv.ScanInv | internal/state/broker.go:83-208 | the candidate loop keeps the whole invariant, whatever it rejects, polls, passes by or admits |
| AdmissionInv.AdmitInv | internal/state/broker.go:54-217 | every admission transaction, including a denial that commits, keeps the invariant and only extends the tables |
| Fairness.PassOverSame | internal/state/broker.go:114-156 | rejecting or passing over one candidate changes nothing another candidate is judged by |
| Fairness.ScanAdmits | internal/state/broker.go:83-208 | the loop admits exactly when the caller is the first candidate that passes every check and its approvals can be paid |
| AdmissionRows.VerdictExactly | internal/state/broker.go:98-149 | read off the table columns: a candidate is refused outright exactly when system, revision, deadlines, budgets, payers, task, agent, goal or authorization forbid it, and is ready exactly when in addition every group has credit, no cooldown, room in the last 60000 ms and a free slot |
| AdmissionRows.AdmitExactly | internal/state/broker.go:54-217 | an admission succeeds exactly when the caller is queued, among the first 64, fits by the columns with payable pins and nobody ahead of it does; a queued call goes to rejected exactly when it is reached and the columns forbid it or its pins cannot be paid, and no other call changes |
| AdmissionRows.AdmitBooks | internal/state/broker.go:162-207 | what a successful admission writes, column by column: reservation at system, goal and every payer, rotation, attempt, running call, one use per unpaid pin, one credit per group, and a poll of every group that was looked at |
| Fairness.AdmissionExactly | internal/state/broker.go:54-217 | an admission succeeds exactly when the caller is the first ready candidate (ready as AdmissionRows.VerdictExactly reads it off the columns) and its pins can be paid; an unsuccessful one changes no account, attempt, approval or rotation |
| Fairness.RotationStep | internal/state/broker.go:191-197 | a system's place in the rotation changes only when it is admitted, and then it goes behind everyone |
| Fairness.NoLeapfrog | internal/state/broker.go:157-161 | nobody is admitted ahead of a ready call whose system has waited longer |
| Fairness.BypassTheorem | internal/state/broker.go:67-161 | while a system has a ready candidate in every admission, any other system is admitted at most once before it, on every run |
| Broker.Broker.Admit | internal/state/broker.go:54-217 | the imperative transaction computes exactly the modelled admission, whose outcome AdmissionRows.AdmitExactly and AdmissionRows.AdmitBooks state by columns |
| Broker.Broker.Record | internal/state/broker.go:171-207 | the updates of a dispatch, one table after another, are the modelled dispatch |
| History.QueueJoins | internal/state/broker.go:24-43 | a call that joins the queue is a candidate from then on unless 64 queued calls precede it, and nobody queued changes places |
| History.CancelTheorem | internal/state/workflows.go:65-83 | a dispatched request is never canceled, and on every run a canceled call stays canceled and is never dispatched |
| Approvals.SpendConserves | internal/state/learning.go:104-153 | spending succeeds exactly when every pin is usable; remaining plus used stays the grant, and each unpaid pin of the task is paid once |
| Broker.Broker.CheckPins | internal/state/learning.go:112-137 | the first pass finds exactly the unpaid pins, or denies when one pin is unusable |
| Broker.Broker.PayPins | internal/state/learning.go:138-152 | the second pass takes one use per pending pin and records it |
| Broker.Broker.AdmitUses | internal/state/learning.go:104-153 | both passes together spend exactly as modelled, or nothing at all |
| StepsInv.ApproveInv | internal/state/commands.go:547-600 | an approval opens a balanced allowance |
| StepsInv.DisableInv | internal/state/learning.go:83-100 | a disabled version keeps its balance and is no longer usable |
| Runs.ApprovalTheorem | internal/state/learning.go:104-153 | in every reachable state uses are conserved and every dispatched attempt is paid for |
| SettlementRows.SettleExactly | internal/state/broker.go:219-311 | by columns: only the owner of a running call settles it; the call is requeued with a fresh wait exactly when it may be tried again, and otherwise completed, failed or unknown as the result says; attempt, ledger and cooldowns follow the result; nothing else changes |
| SettlementRows.AnsweredTheorem | internal/state/broker.go:232-297 | on every run a completed call was settled, by its owner, with a known result that did not fail |
| AdmissionInv.SettleSums | internal/state/broker.go:232-257 | a settlement moves the sums over the attempt history by exactly what it books |
| AdmissionInv.SettleInv | internal/state/broker.go:219-311 | settlement keeps the invariant for whatever usage is reported, even beyond the reservation |
| AdmissionInv.SettleDisciplineExactly | internal/state/broker.go:259-297 | settlement keeps the attempt discipline if and only if it does not requeue an unknown outcome |
| Findings.UnknownOutcomeRequeued | internal/state/broker.go:259-297 | the precondition of settlement is needed: a result of a kind its callers never build would be requeued |
| Broker.Broker.BookUsage | internal/state/broker.go:233-249 | release and charge reach system, goal and every payer |
| Broker.Broker.CoolGroups | internal/state/broker.go:259-277 | the cooldown loop cools every group and finds the shortest wait and whether all queues are open |
| Broker.Broker.QueuedTotal | internal/state/broker.go:269-274 | counting the queue places of a group |
| Broker.Broker.Settle | internal/state/broker.go:219-311 | the imperative transaction computes exactly the modelled settlement, whose outcome SettlementRows.SettleExactly states by columns |
| Broker.Broker.RecoverCalls | internal/state/team.go:566-567 | restart turns every running attempt and call into an unknown one |
| AdmissionInv.RecoverInv | internal/state/team.go:556-567 | a crash at any point loses no reservation, limit or allowance |
| StepRows.StartExactly | internal/state/execution_store.go:174-327 | a start is accepted exactly when the system rests, fewer than 64 are busy and budgets, queues and the waiting goal allow it; then operator, goal, account, root task and first call are there |
| StepRows.PrepareExactly | internal/state/team_ops.go:121-222 | a next call is prepared exactly when its task is live with a turn of eight left, time, budgets and queues allow it; it then waits no longer than its strictest group allows |
| StepRows.DelegateExactly | internal/state/team_ops.go:380-461 | child and first call appear together exactly when both may, and otherwise nothing does |
| StepRows.WakeExactly | internal/state/continuous.go:38-120 | exactly a finished, unstopped task of a continuous goal with fewer than 64 counted tasks gets a fresh successor |
| StepRows.TerminateExactly | internal/state/team_ops.go:526-534 | exactly the undispatched calls of the task close, all with its outcome |
| StepRows.WorkerExactly | internal/state/team.go:242-272 | a claim re-estimates exactly the call that awaits its first dispatch, and a failed worker returns exactly an undispatched call |
| StepRows.RecoverExactly | internal/state/team.go:566-567 | a crash leaves exactly the running calls and attempts unknown |
| StepRows.ReviseExactly | internal/state/store.go:498-553 | a revision is accepted exactly for a resting system and a budget that covers what is used and reserved |
| StepRows.CreateAgentExactly | internal/state/team_ops.go:320-379 | a child agent is created exactly within depth eight and the budget of its creator |
| StepRows.ApproveExactly | internal/state/commands.go:547-600 | a version is approved exactly once, for one to 64 uses, and disabling it keeps what it has left |
| StepsInv.CreateSystemInv | internal/state/store.go:443-496 | new accounts start empty |
| StepsInv.ReviseSystemInv | internal/state/store.go:498-553 | a revision never lowers a budget below what is used and reserved |
| StepsInv.StartSystemInv | internal/state/execution_store.go:174-327 | starting a goal keeps every account and queue invariant |
| StepsInv.CreateAgentInv | internal/state/team_ops.go:320-379 | a child agent stays within its creator's budget and goal and gets an empty usage row |
| StepsInv.SpawnAndPrepareInv | internal/state/team_ops.go:380-461 | a delegated task is counted against its goal and takes its first turn, in one transaction |
| StepsInv.PrepareCallInv | internal/state/team_ops.go:121-222 | every model call of a task is one of its turns, at most eight |
| StepsInv.WakeTaskInv | internal/state/continuous.go:38-120 | a woken successor keeps agent and parent and leaves the history of its predecessor alone |
| StepsInv.ClaimCallInv | internal/state/team.go:242-272 | a claim re-estimates only a call that was never dispatched |
| StepsInv.RetryWorkerInv | internal/state/team.go:401-413 | a worker failure before dispatch returns an undispatched call |
| Invariant.TerminateTaskInv | internal/state/team_ops.go:506-583 | termination closes only undispatched calls of the task |
| Invariant.StopTaskInv | internal/state/controls.go:48-52 | marking a task as stopped keeps the books |
| Books.SumsStable | internal/state/team_ops.go:14-38 | the attempt history sums to the same totals when it is read against extended tables |
| Books.BudgetCap | internal/state/broker.go:104-112 | used plus reserved exceeds a budget at most by what settled attempts cost beyond their estimates |
| Discipline.AtMostOneInFlight | internal/state/broker.go:200-202 | an attempt in flight is the last and only unsettled one of its call |
| Work.GoalAttemptsBound | internal/state/team_store.go:13-20 | a bounded goal dispatches at most 64 * 8 * 3 requests |
| Runs.NextInv | internal/daemon/broker.go:50-106 | every transaction keeps the accounting invariant and only extends the tables |
| Runs.RunInv | internal/daemon/broker.go:50-106 | all states of all runs satisfy the accounting invariant, crashes included |
| Runs.LedgerTheorem | internal/state/broker.go:171-257 | conservation at system, goal and payer in every reachable state, and the budget cap with its exact overshoot |
| Runs.QuotaTheorem | internal/state/broker.go:120-149 | in every reachable state: any minute stays within the token rate, slots within the limit, credit within the burst |
| Runs.AttemptTheorem | internal/state/broker.go:186-297 | a call has at most three attempts, is running exactly when one is in flight, and only a settled throttling (section 4 of RFC 6585) is followed by another |
| Runs.WorkTheorem | internal/state/team_ops.go:146-222 | bounded work of a bounded goal in every reachable state |
| Stillness.StepStill | internal/state/broker.go:192-217 | only an admission makes a request, moves a system in the rotation or takes credit; every other step leaves finished calls and settled attempts alone |
| History.FinalityTheorem | internal/state/broker.go:284-297 | a finished call keeps its state and is never dispatched again, restarts included; an unknown outcome is never replayed |
| History.StoppedTheorem | internal/state/team_ops.go:56-58 | once a task is marked as stopped no later step makes a request for any of its calls |
| Pace.StepPaced | internal/state/broker.go:124-147 | one step pays every new request from credit or from time that passed |
| Pace.PaceTheorem | internal/state/broker.go:124-175 | over any segment of any run a group's requests are at most its burst plus its rate times the growth of its clock |
| Pace.ViewTheorem | internal/state/broker.go:325-350 | in every reachable state and at every reading the quota view shows what an admission would decide by, for groups without a bucket too |
| Pace.FirstPaceTheorem | internal/state/broker.go:122-126 | from the empty store the same bound counts from the instant at which the bucket was created |
| Seccomp.BuildFilter | internal/sandbox/sandbox_linux.go:79-122 | the appending loop emits the modelled program, which decides every system call as intended |
| Seccomp.FilterDecides | internal/sandbox/sandbox_linux.go:79-122 | for every list of numbers and every call the program halts inside itself with kill, deny or allow exactly as intended |
| Seccomp.RunTests | internal/sandbox/sandbox_linux.go:98-109 | from any test on, a listed number is denied and any other reaches the epilogue |
| Seccomp.ProgramAcceptable | internal/sandbox/sandbox_linux.go:122-123 | the program passes the structural check of the kernel exactly up to 2042 numbers, and its length then fits the 16-bit field |
| Schedules.CreateHolds | internal/state/knowledge.go:276-320 | a created schedule has one to eight triggers, all of them still to fire |
| Schedules.CursorAdvances | internal/state/wakeups.go:149-155 | the next due instant of an active schedule was never fired, so the stuck-cursor error is unreachable |
| Schedules.CreateExactly | internal/state/knowledge.go:276-320 | a schedule is created exactly with one to eight triggers, one if it does not recur, a future instant within the lifetime and fewer than 128 schedules in its system |
| Schedules.FireExactly | internal/state/wakeups.go:121-187 | for one due schedule: expiry, refusal and a refused event end it as expired, canceled and failed with nothing fired; an accepted event fires exactly once, and it stays active exactly when it recurs, has more than one trigger left and recurs before its expiry |
| Schedules.PumpExactly | internal/state/wakeups.go:85-190 | one pump fires exactly the due, unexpired schedules whose wake accepts, each once, and leaves every other row alone, or fails for want of a recurrence and changes nothing |
| Schedules.FireOneHolds | internal/state/wakeups.go:121-187 | firing one schedule keeps fired plus remaining equal to its budget and emits at most one event; which state it ends in is Schedules.FireExactly |
| Schedules.PumpHolds | internal/state/wakeups.go:85-190 | one pump keeps the invariant of every schedule and fires each at most once |
| Schedules.PumpCoalesces | internal/state/wakeups.go:171-186 | missed instants become one event, and pumping again at the same or an earlier reading fires nothing |
| Schedules.Pump.CreateSchedule | internal/state/knowledge.go:276-320 | creation succeeds exactly under the modelled bounds and keeps the invariant |
| Schedules.Pump.CancelSchedule | internal/state/commands.go:453-475 | cancellation changes the state alone and keeps the invariant |
| Schedules.Pump.FireDue | internal/state/wakeups.go:121-187 | one row of the pump loop computes the modelled firing, whose outcome Schedules.FireExactly states by cases |
| Schedules.Pump.PumpWakeups | internal/state/wakeups.go:85-190 | the pump computes the transaction of Schedules.PumpExactly, or leaves the tables as they were when it fails |
| Dependencies.Resolver.VisitTool | internal/state/config.go:260-277 | the recursive visit with its two maps computes the modelled search and ends for every graph |
| Dependencies.Resolver.Validate | internal/state/config.go:260-284 | validation accepts exactly what the search accepts, and then nothing reachable repeats |
| Dependencies.AcceptedIsAcyclic | internal/state/config.go:260-284 | acceptance means that no chain of requirements from a configured tool repeats a tool |
| Dependencies.AcceptsExactlyAcyclic | internal/state/config.go:260-284 | while simple chains have at most 32 links, exactly the acyclic graphs are accepted in every iteration order |
| Dependencies.EveryOrderExactly | internal/state/config.go:260-284 | every iteration order accepts if and only if every configured tool is accepted alone |
| Dependencies.SomeOrderExactly | internal/state/config.go:260-284 | some iteration order accepts if and only if nothing that is reachable repeats |
| Dependencies.VisitMonotone | internal/state/config.go:265-267 | a visit that succeeds also succeeds when more tools are done already, and then more are done after it |
| Dependencies.LongChainsDependOnOrder | internal/state/config.go:262-264 | every straight chain of more than 32 links is refused from the top and accepted from the bottom, so acyclic graphs with both verdicts exist |
| EventRows.EmitExactly | internal/state/team_store.go:235-290 | counted over the rows: an event is accepted exactly when 4096 per system, 256 per goal and 64 per recipient leave room for it and for all reports to come, its chain has at most 16 links, an agent sent fewer than 32 events in the last 60000 ms, and the goal still runs unless it is a report; what is written is one pending delivery |
| TeamInvariant.EmitInv | internal/state/team_store.go:235-290 | an accepted event keeps everything and reserves room for every final report |
| TeamInvariant.EmitReserve | internal/state/team_store.go:254-274 | an accepted event leaves events plus live tasks within both budgets |
| TeamEngine.Engine.EmitEvent | internal/state/team_store.go:235-290 | the counting queries accept exactly the modelled events and append one event with its delivery |
| TaskFates.TerminateWork | internal/state/team_ops.go:506-583 | a live task ends with exactly the given outcome; beside it only ancestors nobody stopped can end, rejected; calls that were not dispatched close with the task that ends, pending deliveries to it die, a parent that goes on is told, and no other row changes |
| TaskFates.TerminateGoals | internal/state/team_ops.go:565-581 | exactly the end of a root closes its goal, switches off the agents of that goal and settles its system: stopping or stopped by whether a delivery is leased, inactive otherwise |
| TaskFates.TerminateTells | internal/state/team_ops.go:550-564 | a live parent is told of the end, or rejected: the latter exactly when the event is refused |
| TaskEnds.MarkDoneInv | internal/state/team_ops.go:511-546 | ending a task settles its own account and leaves exactly its parent's open |
| TaskEnds.TerminateInv | internal/state/team_ops.go:506-583 | termination with its upward recursion ends, closes the account of the task and settles its parent by a reply or by ending it too; the outcome it records is TaskFates.TerminateWork |
| TaskEnds.ReplyHasRoom | internal/state/team_ops.go:554-564 | a child's report is never refused by the shared budgets or by expiry, only by the recipient's queue, causal depth or sender rate |
| TeamEngine.Engine.TerminateTask | internal/state/team_ops.go:506-583 | the recursive procedure computes the modelled termination, whose effect TaskFates.TerminateWork and TaskFates.TerminateGoals state row by row |
| TeamEngine.Engine.CloseRoot | internal/state/team_ops.go:565-581 | a root's end closes its goal, settles its system and switches off the goal's agents |
| TaskFates.StopExactly | internal/state/controls.go:28-75 | a stop marks exactly the tasks it selects; those no worker holds end canceled, the others stay in their phase; beside them only ancestors outside the selection can end, rejected, and a system whose root is stopped is stopping until no delivery of it is leased |
| TaskFates.ClosureIsDescent | internal/state/controls.go:28-31 | the recursive selection contains exactly the tasks in scope and everything below one |
| Rewrites.StopTasksInv | internal/state/controls.go:28-75 | stopping any list of tasks keeps the protocol invariant |
| Rewrites.StopClosure | internal/state/controls.go:28-75 | after a stop every task of the selection and its descendants is over, or marked and still leased |
| TeamEngine.Engine.StopSelected | internal/state/controls.go:48-75 | marking all and then halting one after the other is the modelled stop |
| Turns.ConsumeInv | internal/state/team.go:301-335 | consuming inputs appends them to the conversation and touches no account |
| Turns.TakeTurnInv | internal/state/team_ops.go:193-221 | a new turn asks a well-formed request and leaves nothing waited for |
| TeamEngine.Engine.TakeTaskInputs | internal/state/team.go:301-335 | the loop takes every pending input of the task, in order, and acknowledges exactly those |
| ClaimRows.CandidateExactly | internal/state/team.go:31-44 | the claim query offers exactly what is pending and due for an agent that holds no delivery, and hopeless or not held back by a pause or an open call |
| ClaimRows.ConsiderExactly | internal/state/team.go:58-283 | the fate of every candidate by columns: passed over, buried with its task (canceled when called off, failed otherwise), acknowledged when it tells of progress, dropped when nobody waits for it, leased with its task running on a request of everything that was said, or given up with the task rejected; each exactly under the stated condition |
| ClaimRows.ClaimScan | internal/state/team.go:58-283 | candidates are passed over one after the other until one is leased, and then exactly its worker starts |
| ClaimRows.ClaimExactly | internal/daemon/team.go:37-54 | a claim happens exactly outside a shutdown with fewer than 64 workers, and afterwards stops the systems that only waited for theirs |
| DeliverClaim.ResumeInv | internal/state/team.go:147-210 | inputs and the next turn, or the end of the task if either is refused |
| DeliverClaim.ReplyIsExpected | internal/state/team.go:166-185 | a reply claimed for the first time answers the open call of its task: for a task in order the branch for a reply outside the continuation is never taken |
| DeliverClaim.ConsiderInv | internal/state/team.go:58-283 | one candidate of a claim keeps everything for every task, unless a stale reply to a task in order gets past every gate; when it leases is ClaimRows.ConsiderExactly |
| DeliverClaim.ClaimFromInv | internal/state/team.go:58-285 | the candidate loop, over any list of candidates in any order, keeps everything for all tasks it does not lead astray and leases at most one delivery, within the limit of its system |
| TeamEngine.Engine.ConsiderMail | internal/state/team.go:58-283 | the branches for one candidate compute the modelled verdict, which ClaimRows.ConsiderExactly states by columns |
| TeamEngine.Engine.ClaimNext | internal/state/team.go:20-299 | the claim transaction and its activation are exactly the modelled ones |
| TeamEngine.Engine.ResumeTask | internal/state/team.go:147-210 | resuming a task computes the modelled progression |
| TeamEngine.Engine.ApplyDelivery | internal/state/team.go:144-213 | waking on input or on a reply computes the modelled progression |
| TeamEngine.Engine.RefreshRequest | internal/state/team.go:242-264 | an undispatched call is asked again with all inputs |
| ToolRows.InvokeExactly | internal/state/tools.go:25-177 | an invocation has an effect exactly when its worker still holds its delivery and call, nobody stops the work, the call has no receipt and the handler accepts; the receipt then says completed, or running for a dispatched tool, and otherwise nothing changes |
| ToolRows.DelegateExactly | internal/state/team_ops.go:380-461 | a delegation is accepted exactly for another, free, active agent of the goal with fewer than 64 tasks while the goal runs and the first event of the child fits; then child, call and delivery are there and the caller waits with its call open |
| ToolRows.EvaluateExactly | internal/state/evaluations.go:200-240 | an evaluation is accepted exactly when all its cases fit in turn; they report to nobody and the caller is answered at once |
| ToolRows.ReportExactly | internal/state/team_ops.go:462-481 | progress is told exactly to a parent that can be told |
| ToolRows.CompleteExactly | internal/state/tools.go:179-223 | the outcome of a running tool is recorded once, as completed when known and as unknown otherwise |
| ToolCalls.SpawnInv | internal/state/team_ops.go:424-453 | a spawned child comes with its call, its first delivery and room for its report |
| ToolCalls.InvokesOnce | internal/state/tools.go:90-108 | without a receipt the call had no effect yet, and the receipt is written first |
| ToolCalls.PrepareToolInv | internal/state/tools.go:25-177 | every invocation keeps the invariant; a completed receipt is replayed without effect |
| ToolCalls.CompleteToolInv | internal/state/tools.go:179-223 | completion overwrites a receipt that still says the tool is running, and changes nobody who waits |
| TeamEngine.Engine.DispatchTool | internal/state/tools.go:90-108 | a dispatched tool gets exactly one receipt before it runs |
| TeamTheorems.ReceiptTheorem | internal/state/tools.go:179-223 | on every run receipts are never taken back and a recorded outcome stands, although completion overwrites the receipt without looking |
| TeamTheorems.ToolTheorem | internal/state/tools.go:90-108 | on every run a call's tool takes effect at most once, whatever crashes, replays and retries do |
| TeamEngine.Engine.DelegateWork | internal/state/team_ops.go:380-461 | child, first call, first delivery and suspended caller appear together or not at all |
| FinishRows.FinishExactly | internal/state/team.go:350-551 | the end of a session by columns: dropped when outdated, handed back by a shutdown, canceled when called off, tried again after one, two or four seconds, acted on when answered, rejected or failed otherwise; each exactly under the stated condition |
| FinishRows.AnsweredExactly | internal/state/team.go:436-513 | an answer with a tool goes on with its result or waits where the tool left it; an answer without one goes on with new input, waits for triggers, or completes the task; the transaction fails exactly without a completed receipt or when the waiting conversation is too long |
| FinishRows.ContinueExactly | internal/state/team.go:495-525 | going on means one more turn and, unless something else will start the task, one delivery to itself; without either the task is rejected |
| FinishRows.EndTaskExactly | internal/state/team.go:526-551 | the task ends with exactly the given outcome, and every system comes to rest where the leases of it leave it |
| DeliverFinish.ContinueTaskInv | internal/state/team.go:495-525 | a continued task has a turn and a delivery that will claim it, or ends |
| DeliverFinish.FinishDeliveryInv | internal/state/team.go:350-551 | finishing keeps the invariant and releases exactly its own delivery, whatever the worker reports |
| TeamEngine.Engine.ContinueWorker | internal/state/team.go:495-525 | turn, continuation event or end, as modelled |
| TeamEngine.Engine.FinishAnswer | internal/state/team.go:436-513 | the end of a successful activation, branch by branch |
| TeamEngine.Engine.FinishSession | internal/state/team.go:350-551 | the finish transaction computes the modelled one |
| TeamEngine.Engine.FinishActivation | internal/daemon/execution.go:117-142 | the activation is gone whether or not its last transaction commits |
| RestartFates.AbandonExactly | internal/state/team.go:562-573 | a crash leaves exactly the requests on the network lost and the running tools uncertain; leases are returned with their count, or acknowledged when their tool is done, and running tasks queued |
| RestartFates.RecoverExactly | internal/state/team.go:556-621 | a restart ends exactly the tasks whose last call or tool is in doubt, as failed unless an ancestor of another one had to be rejected first, beside them only ancestors nobody could tell, and stops exactly the systems whose root it gave up or that have no live work |
| DeliverRestart.RecoverInv | internal/state/team.go:556-621 | recovery at any crash point keeps the invariant and leaves no stale reply behind |
| DeliverRestart.ClearKept | internal/state/team_ops.go:454-460 | a reply only becomes stale when its task starts to wait on a tool while the applied reply is pending |
| DeliverRestart.RecoveryTheorem | internal/state/team.go:556-607 | after recovery no live task has a request on the network or lost, a call that ended without an answer, or a tool that is running or uncertain |
| DeliverRestart.StartGoalInv | internal/state/execution_store.go:247-325 | a new goal appears with its root task, first call and first delivery, or not at all |
| CommandRows.StartGoalExactly | internal/state/execution_store.go:247-325 | a goal starts exactly when the system rests, fewer than 64 are busy and its first delivery fits before the deadline |
| CommandRows.ControlsExactly | internal/state/commands.go:192-254 | pause, resume and stop set exactly the state of their scope, and what was stopped stays so |
| CommandRows.ShutSystemExactly | internal/state/execution_store.go:329-353 | a stopped system is stopping exactly if it was at work, and exactly its open goals are switched off |
| CommandRows.NoticeExactly | internal/state/learning_execution.go:183-201 | the notice of an evaluation reaches a live task, or rejects it when it is refused |
| CommandRows.ExpireExactly | internal/state/wakeups.go:68-94 | a task fails for want of time exactly when it waits, holds no delivery and its deadline has come |
| CommandRows.MoveExactly | internal/state/broker.go:24-311 | the ways of a call: only a dispatch counts as an attempt, and what was answered, closed or lost never moves |
| TeamEngine.Engine.RecoverExecutions | internal/state/team.go:556-621 | the recovery loops compute the modelled restart |
| TeamRuns.ClaimInv | internal/daemon/team.go:37-54 | every claim keeps activations and leases in step and within both limits, and everything for the tasks it does not lead astray |
| TeamRuns.StepInv | internal/daemon/team.go:21-57 | every step of the world keeps everything for all tasks it does not lead astray; deliveries and receipts only age |
| TeamTheorems.RunInv | internal/daemon/team.go:21-57 | in all states of all runs, crashes included, everything holds for all tasks that no claim led astray |
| TeamTheorems.CapacityTheorem | internal/state/team_store.go:254-274 | on all runs events plus live tasks stay within 4096 per system and 256 per bounded goal |
| TeamTheorems.WaiterTheorem | internal/state/team_ops.go:440-564 | on all runs, for every task that was not led astray: exactly one live delegate or exactly one undelivered reply while it waits on a delegation, neither otherwise |
| TeamTheorems.ConversationTheorem | internal/state/team_ops.go:585-588 | on all runs, for every task that was not led astray: every tool call is answered at once except the one it waits on, and every request is well formed |
| TeamTheorems.DeliveryTheorem | internal/state/team.go:276-279 | on all runs deliveries go to their task's agent, at most three leases each and one per agent at a time, activations within the limit |
| Service.StepAttends | internal/daemon/team.go:21-57 | every step keeps every task that it does not lead astray served, and every worker at the call of its task |
| Service.ServiceTheorem | internal/state/team.go:58-283 | on all runs no task is forgotten: a queued one that was not led astray has a pending delivery that will start it, a running one a leased delivery |
| Service.ReadyTheorem | internal/state/team.go:58-283 | on all runs a queued task that nobody stopped or led astray has a pending delivery that a claim leases as soon as goal, system, agent and daemon let it and no doubt about the request is raised |
| Service.CompletedTheorem | internal/state/team.go:435-551 | on all runs a task is completed only by a finish of its current call, answered without a tool, by a worker that did not fail, while nobody stopped the task |
| TeamTheorems.FinalityTheorem | internal/state/team.go:364-429 | on all runs an acknowledged or dropped delivery is never touched again, and lease counts are never taken back |
| TeamTheorems.BoundedGoalTheorem | internal/state/team_store.go:13-20 | on all runs a bounded goal gets at most 256 events and 3 * 256 activations |
| TeamTheorems.ClaimExactly | internal/state/team.go:144-279 | one candidate keeps its task in order if and only if the guard fails: past every gate, an applied reply, a task that waits on a tool, a definition that is not blocked |
| TeamTheorems.StepExactly | internal/state/team.go:58-285 | a step keeps the invariant if and only if it is no claim that leads a task astray |
| TeamTheorems.RunExactly | internal/state/team.go:58-285 | the protocol holds throughout a run if and only if none of its claims leads a task astray |
| TeamTheorems.CarefulTheorem | internal/state/team_ops.go:440-460 | no run leads a task astray in which no task delegates while a reply to it that was applied is still pending |
| TeamTheorems.DelegationExactly | internal/state/team_ops.go:440-460 | a delegation leaves a stale reply behind if and only if it is accepted while an applied reply to its task is pending |
| TeamFindings.StaleReplyMisleads | internal/state/team.go:165-279 | a run from the empty store, in order up to its last claim, after which one finish sends a malformed request and forgets a live delegate |

## Left out

- Runs.RunInv: settlement results are of the kind its callers build, where a retry suggestion is always a known outcome; the exact condition is `AdmissionInv.SettleDisciplineExactly`.
- Schedules.PumpHolds: holds for any distinct due schedules in any order, so also for the first 128 by due instant; that the query picks these is not modelled.
- DeliverClaim.ClaimFromInv: holds for any distinct candidates in any order, so also for the first 512 by last admission; that the query picks these is not modelled.
- Rewrites.StopClosure: the selected tasks may be visited in any order, since the query does not fix one.
- The tables of model admission and those of the delivery protocol are two views of the same rows; each transaction is modelled in both as far as it touches them, and no relation between the two views is proved.
- SQL text, JSON encoding, hashing, migrations and identifier generation: tables are modelled directly.
- Storage errors: a failing statement rolls its transaction back and disables the broker until a restart.
- Authorization of model aliases, evaluations and tool pins reads definitions outside the model and is an input of admission and of claims.
- Text: prompts, responses, reasons and the size limit of conversations; whether a limit is exceeded is an input.
- Goal display state, audit rows and command replay receipts.
- The recovery of the admission model leaves task termination to separate steps; the delivery protocol models it in one transaction.
- Delegation in the admission model does not test whether the recipient is busy; the delivery protocol does.
- Continuous goals in the delivery protocol: woken successors, the 24-hour event window and wake-ups of finished tasks.
- Generated-code builds: evaluation tasks appear only as children that report elsewhere.
- Per-agent turn limits are part of the input that may refuse a turn; the limit of eight turns per task is modelled.
- Subscriptions and notices are modelled only as input events to a live task.
- Memory, drafts, artifacts, feedback, list views and pagination.
- Provider transport, credentials, process supervision, namespaces and mounts.
- The retry loop and the broken flag of the daemon's broker, and the scheduler's channel handling.
- Float rounding of token credit.
