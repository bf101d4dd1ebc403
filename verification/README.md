# The encode farm: a verified model

The system distributes encode jobs over a fleet. Any number of controllers share one job table;
agents on the nodes poll a controller by heartbeat, run rendered scripts and post completions. The
project models the parts where that can go wrong and proves what they promise. Each module is one
file; proofs are for all inputs, all runs or all reachable states.

**Dispatch.** `Jobs` holds the guarded statements on the job table, `Nodes` the decision one
heartbeat takes for its node, `Registry` the agent's bounded set of running jobs. `Fleet` puts them
together as a labelled step system: reading a row, acknowledging it, listing orphans, failing them,
deciding, picking a candidate, assigning it, delivering the reply, starting goroutines, posting,
recording and retrying are separate steps of any number of controllers, so every read can be stale.
On it stand

* `Ownership`: in timely runs an executing script belongs to a live row of its node, so orphan recovery and the
  reboot and update instructions never meet a running script;
* `Patience`: a condition on the agents and cancels alone under which runs are timely;
* `Reports`: what a report and a disruptive instruction guarantee in every run at all, without any
  condition;
* `FinishOnce`: an assignment ends at most once and is followed by one decision;
* `Epochs` and `RetryBudget`: the number of assignments, exactly when a retry budget is kept, and the
  backoff gate;
* `Transitions`: what single steps do, told by the states before and after: how a row comes into each
  status, what is owed, replied, delivered and counted;
* `Runs` and `Races`: concrete runs, and what happens outside these conditions;
* `Reboots`: the reboot flag over any run of one node's heartbeats and an operator's requests;
* `Assignment`: the assignment transaction with its lock, count, flip and commit as interleaved
  steps, which refines the atomic assignment that `Fleet` uses.

A *timely* run is one in which a completion write that takes effect finds the assignment it is about,
an orphan failure finds a row that is running on its node or not active, and no assigned job is
cancelled. A *patient* run is one in which no completion request outlives the goroutine that
posted it, and no assigned job is cancelled. `Patience` shows that patient runs are timely.

**Singleton loops.** `Supervisor` models the advisory lock, the keepalive and the supervisor loop of
each replica with time in seconds; `Episodes` runs the scanner's check-then-create as its body.

**Rendering.** `Render` is the flow renderer as a compiler into a small syntax tree with an
interpreter. `Shell` prints assignments and comments as the bash dialect does and reads them back by
sections 2.2.1, 2.2.2 and 2.3 of the Shell Command Language of POSIX.1-2017; `Parameters` adds the
step parameters, the job context and the variables they become.

**Streams on the agent.** `Lines`, `Progress`, `Metrics`, `Timings`, `Observer`, `LogRing` and `RunLog`:
incremental in-place code equals a function of the whole output.

**Kernels.** `Crc32` (section 8 of RFC 1952), `Rebind` (string constants of section 4.1.2.1 of the
PostgreSQL manual), `Scanner` and `Downsample`. `RunLog` uses UTF-8 as in section 4 of RFC 3629.
`Text` and `Wrappers` hold small shared definitions.

## Where the code differs from what is said about it

* The notes on replay safety (`backend/internal/api/ha_notes.go:96-102`) say that `FinishJob` is
  guarded by the live states. The statement (`backend/internal/store/store.go:965-990`) is guarded by
  the identifier alone; only `FinishJobWithReport` has the guard. Orphan recovery uses `FinishJob`.
  The model follows the code: `FinishOnce.OnceIffLive` gives the exact condition under which an
  assignment ends once, and `Races` runs in which it ends twice, a job is failed while its script
  executes on another node, and a retry budget is exceeded. `RetryBudget.OrphanFailureIff` states
  exactly which orphan failures exceed it: those that hit a failed row whose retry decision is still
  owed, when its assignments so far and twice the retries it has left come to more than its budget
  plus one.
* The same statement turns a cancelled row into a failed one (`Races.RevivesCancelled`), and the
  scanner counts every row that is not cancelled (`backend/internal/store/store.go:869-874`). A folder
  whose cancelled job was replaced by a new one then has two, although only one scanner runs:
  `Episodes.FailureDuplicates`. `Episodes.FailureIff` states exactly when this cannot happen.
* The renderer refuses two templates that define one function, comparing names exactly
  (`backend/internal/flow/render.go:284`). PowerShell looks functions up without case, so names that
  differ in case are accepted and the later definition wins. `Render.RenderCorrect` states the exact
  condition and `Render.CaseVariantsCollide` the failing family.
* The bucket scan promises the stability gate of the filesystem scan. It judges the time of the first
  `.mkv` when that is listed after the chosen raw container (`backend/internal/scanner/s3scan.go:79-82`);
  `Scanner.JudgesTheSourceIff` and `Scanner.UploadingSourceIsTaken` say exactly when.
* The log snapshot is capped at 1 MiB by the size found when the file is examined; a log that grows
  before it is read can exceed the cap (`backend/internal/agent/steptrack.go:46-52`,
  `RunLog.BoundIff`).

## Model

| member | source | states |
|---|---|---|
| Nodes.Record.Heartbeat | backend/internal/api/handlers.go:216-314 | The node part of a heartbeat leaves the row and gives the instruction of `Decide`: settle first, then reboot before update before assignment, with the live limit in the reboot test and the boot-time limit in the assignment gate |
| Nodes.Record.Settle | backend/internal/api/handlers.go:146-245 | The first write of a heartbeat: reported versions and counter, the flag cleared after a counter decrease or past the grace period, busy only at capacity |
| Nodes.Record.Instruct | backend/internal/api/handlers.go:247-314 | The instruction for the settled row, and that the flag is stored exactly when a limit reboot is issued afresh |
| Nodes.Record.SetEnabled | backend/internal/api/handlers.go:896-901 | Pausing a node cancels its pending reboot and changes nothing else |
| Nodes.Record.RequestReboot | backend/internal/api/handlers.go:1000-1024 | A manual reboot flags the row and dates the attempt |
| Reboots.FreshAlways | backend/internal/api/handlers.go:216-282 | Over every run of heartbeats, pauses and requests, a flagged attempt is dated, not in the future and at most the grace period older than the last idle heartbeat |
| Reboots.AttemptExpires | backend/internal/api/handlers.go:220-226 | After an idle heartbeat later than issue time plus grace, no later state of any run is flagged with that attempt |
| Reboots.CounterNeverHoldsIff | backend/internal/api/handlers.go:257-314 | No enabled idle node is held back by its counter without being told to reboot, for all rows and reports, if and only if the live limit is at most the boot-time limit |
| Reboots.RebootIffFlagged | backend/internal/api/handlers.go:247-282 | A node is told to reboot exactly when the row stored by that heartbeat is flagged and the node is idle and enabled |
| Reboots.RebootIsReissued | backend/internal/api/handlers.go:253-282 | In every run an open attempt is answered again on each idle heartbeat within its grace period that shows no restart, with its issue time kept |
| Reboots.FillIsSafe | backend/internal/api/handlers.go:308-335 | Work is offered only to an enabled, unflagged node that is not syncing and below the boot-time limit, and exactly up to its free slots |
| Reboots.RestartEndsAttempt | backend/internal/api/handlers.go:140-151 | An idle heartbeat whose counter is below the stored one and below the live limit stores an unflagged row without an issue time and is not answered with a reboot |
| Reboots.AttemptEndsIff | backend/internal/api/handlers.go:140-226 | An open attempt ends exactly with an idle heartbeat that shows a restart, or finds the attempt undated or older than the grace period; otherwise flag and date stay; a new attempt follows at once if and only if the enabled node is at the limit |
| Reboots.AttemptStartsIff | backend/internal/api/handlers.go:253-282 | An unflagged row is flagged, and dated now, exactly when an enabled idle node is at the limit |
| Reboots.UpdateIff | backend/internal/api/handlers.go:284-306 | An update is the answer exactly when an enabled idle node that need not reboot reports other versions than are published for its platform; a Linux node is offered the Linux agent only |
| Reboots.UpdateConverges | backend/internal/api/handlers.go:284-306 | A node that reports what it was offered is not offered it again |
| Reboots.FillIff | backend/internal/api/handlers.go:308-335 | Exactly when work is offered, and the number of free slots, a cap below one counting as one |
| Reboots.ReportIsStored | backend/internal/api/handlers.go:125-145 | The row stores what was reported and keeps what only operators change; an empty platform is ignored |
| Reboots.StatusIs | backend/internal/api/handlers.go:232-245 | The stored status: busy while syncing or full, else waiting for the reboot when flagged, else idle |
| Reboots.PauseCancels | backend/internal/api/handlers.go:896-901 | Pausing takes the attempt back, and resuming does not bring it back |
| Reboots.RequestIsAnswered | backend/internal/api/handlers.go:1000-1024 | A manual request is answered with a reboot by the next idle heartbeat within the grace period that shows no restart |
| Registry.AcceptedIsSafe | backend/internal/agent/jobs.go:39-62 | Acceptance takes only offered payloads, each job once, none already registered, never beyond eight; every refusal is a duplicate or a full registry |
| Registry.RegisteredKeys | backend/internal/agent/jobs.go:43-62 | The registry grows by exactly the accepted jobs |
| Registry.RegisteredKeeps | backend/internal/agent/jobs.go:51-53 | A second dispatch never replaces the entry of a running job |
| Registry.RegisteredHolds | backend/internal/agent/jobs.go:43-62 | Every accepted payload becomes the entry of its job |
| Registry.JobRegistry.Accept | backend/internal/agent/jobs.go:43-62 | The in-place loop computes the specified acceptance and registry |
| Registry.JobRegistry.Remove | backend/internal/agent/jobs.go:65-69 | Removal drops one job; an unknown identifier is a no-op |
| Registry.JobRegistry.Reports | backend/internal/agent/jobs.go:88-111 | The reports are exactly the registered jobs in ascending order |
| Registry.JobRegistry.Newest | backend/internal/agent/jobs.go:126-137 | The highest registered identifier, or -1 |
| Ownership.ScriptIsOwned | backend/internal/agent/agent.go:347-365 | In every timely run an executing script's row is assigned or running, owned by that node, at the assignment it was started for, and no other node executes the job |
| Ownership.RegistryIsExact | backend/internal/agent/jobs.go:43-69 | In every timely run the registry keys are exactly the live goroutines and those about to start, at most eight, and a start never meets a running goroutine of the job |
| Ownership.OrphanIsDead | backend/internal/api/handlers.go:152-204 | In every timely run an orphan whose row still stands, or is no longer active, is executing on no node: orphan recovery never fails a job whose script runs |
| Ownership.GuardIsExact | backend/internal/api/handlers.go:180-204 | When an orphan is to be failed, "running on that node" tells exactly whether the row is still at the assignment that was read |
| Ownership.DisruptionFindsNoScript | backend/internal/api/handlers.go:261-306 | In every timely run no script executes on a node to which a reboot or update instruction is being delivered |
| Reports.RegistryAlwaysExact | backend/internal/agent/jobs.go:43-69 | In every run at all the registry is exactly the live goroutines and those about to start, at most eight, and a start never meets a live goroutine of the job |
| Reports.OrphansHaveNoGoroutine | backend/internal/api/handlers.go:116-188 | In every run at all a running row of a node that its report did not acknowledge has no live goroutine on the node when the orphans are listed |
| Reports.DisruptionSparesOwnedRows | backend/internal/api/handlers.go:261-306 | In every run at all, when a reboot or update instruction is delivered, no goroutine on the node has an active row of that node |
| Patience.PatientRunLands | backend/internal/agent/agent.go:711-740 | If no completion request outlives the goroutine that posted it and no assigned job is cancelled, every finishing write of the run lands on the assignment it is about: an orphan failure finds the row running, on that node, at the assignment that was read |
| Patience.PatientRunIsTimely | backend/internal/agent/agent.go:711-740 | So patient runs are timely, and all that holds of timely runs holds of them |
| Patience.PatientOrphanIsDead | backend/internal/api/handlers.go:180-204 | In such runs every orphan entry still stands when it is failed and its script executes nowhere |
| Patience.PatientFinishesOnce | backend/internal/api/handlers.go:540-597 | In such runs each assignment ends at most once and is followed by at most one retry or notification |
| FinishOnce.FinishesOnce | backend/internal/api/handlers.go:540-597 | Under every interleaving of completions, orphan recovery, cancels, deletes and retries in which orphan failures find active rows, each assignment ends at most once and triggers at most one retry or notification |
| FinishOnce.FinishesOnceIff | backend/internal/store/store.go:965-990 | After such a run the next unguarded orphan failure keeps "at most once" if and only if the row it hits is active or gone |
| FinishOnce.OnceIffLive | backend/internal/store/store.go:965-990 | Exactly, for every run at all: each assignment ends at most once and triggers at most one retry or notification if and only if all orphan failures of the run hit rows that are active or gone |
| FinishOnce.TerminalStays | backend/internal/store/store.go:1093-1132 | In every run a terminal row changes only by a manual retry, a delete, the automatic requeue of a failed row, or the unguarded orphan failure, which leaves it failed; the last only outside the runs in which orphan failures find active or missing rows |
| Transitions.TurnsDone | backend/internal/api/handlers.go:546-557 | A row becomes done exactly when a completion that reports success finds it assigned or running |
| Transitions.TurnsFailed | backend/internal/api/handlers.go:546-557 | A row becomes failed exactly when a completion that reports failure finds it live, or as an orphan, whatever its status but deleted |
| Transitions.CompletionRecords | backend/internal/store/store.go:1093-1132 | A completion that finds its row live records the outcome it reports and changes nothing else of it |
| Transitions.TurnsAssigned | backend/internal/store/store.go:899-951 | A row becomes assigned exactly when a heartbeat that picked it while pending finds its node enabled with a free slot; it then names the node, in a new assignment |
| Transitions.TurnsRunning | backend/internal/store/store.go:957-962 | A row becomes running exactly when its report is written while it is assigned |
| Transitions.TurnsCancelled | backend/internal/store/store.go:1202-1210 | A row becomes cancelled exactly when the operator cancels it pending or assigned |
| Transitions.TurnsDeleted | backend/internal/store/store.go:1246-1257 | A row goes exactly when the operator deletes it once it is terminal |
| Transitions.TurnsPending | backend/internal/store/store.go:1221-1281 | A row is requeued exactly by the operator once terminal, with its retry count back at zero and no gate, or by a decision that finds it failed with its budget not used up, one beyond the count it read and behind a gate |
| Transitions.TurnsOnly | backend/internal/store/store.go:1221-1235 | No other column changes with a status, and without one a row changes only when the operator lifts the gate of a pending job |
| Transitions.Appears | backend/internal/store/store.go:649-700 | Rows come only from the operator, pending and never assigned, and their identifiers never go |
| Transitions.DoneWasReported | backend/internal/api/handlers.go:546-557 | In every run a row that is done was live when a completion reporting success was written for it |
| Transitions.SuccessIsNotRetried | backend/internal/api/handlers.go:590-600 | A completion that reported success never leads to a retry: in every continuation what its handler owes is an announcement, which changes no row |
| Transitions.DecisionsAre | backend/internal/api/handlers.go:182-204 | What a handler owes after a step: the outcome of an effective completion with the retry count read before, an orphan's row to be read back, or that row's count |
| Transitions.EndsAreOwed | backend/internal/api/handlers.go:590-600 | A live row that ends other than by a cancel leaves a decision for that end |
| Transitions.SettledIsTold | backend/internal/api/handlers.go:590-600 | A decision is taken once |
| Transitions.CompletionIsRead | backend/internal/api/handlers.go:530-545 | A completion is processed further exactly when its row is not terminal and names its node, with the retry count of that moment |
| Transitions.ReportIsRead | backend/internal/api/handlers.go:116-128 | A reported job is acknowledged, and its row written, exactly when the row is not terminal and names the node |
| Transitions.OrphansAreFree | backend/internal/api/handlers.go:206-213 | Slots are taken by the node's assigned jobs and the running ones it reported; orphans take none |
| Transitions.DecisionIsSent | backend/internal/api/handlers.go:247-314 | The node's decision for the reported state is the reply, and a heartbeat with a job or an update in progress counts as busy |
| Transitions.AssignedIsReplied | backend/internal/api/handlers.go:340-371 | A candidate joins the reply, in its new assignment, exactly when it was assigned; otherwise the loop ends |
| Transitions.ReplyIsWhole | backend/internal/api/handlers.go:372-384 | The reply carries everything that was assigned for it |
| Transitions.WorkIsDelivered | backend/internal/agent/agent.go:322-365 | Every payload of a reply is about to start, unless its job is registered already or the agent has eight jobs |
| Transitions.CounterMoves | backend/internal/agent/agent.go:221-245 | The task counter goes up by one exactly for a script that ran and was reported, and to zero exactly when a reboot was accepted |
| Transitions.ScriptStarts | backend/internal/agent/agent.go:347-365 | The next accepted payload starts its script, in its own assignment |
| Transitions.OutcomeIsPosted | backend/internal/agent/agent.go:711-740 | The completion a script leaves reports its own job and outcome |
| Transitions.CrashEndsScripts | backend/internal/agent/agent.go:256-269 | An agent that dies leaves no script, no registered job and hears no reply |
| Transitions.ScriptsGoOn | backend/internal/agent/agent.go:347-365 | A script that executes ends only by finishing or with its agent |
| Races.EndsTwice | backend/internal/api/handlers.go:188-189 | A concrete run in which one assignment ends twice because the orphan failure has no status guard |
| Races.FailsRunningJob | backend/internal/api/handlers.go:188-189 | A concrete run in which the orphan failure hits a job that was requeued and is executing on another node |
| Races.RevivesCancelled | backend/internal/store/store.go:965-990 | A concrete run without operator retries in which the orphan failure turns a cancelled row into a failed one |
| Races.ExceedsBudget | backend/internal/api/handlers.go:182-204 | A concrete run without operator retries, every completion ending the assignment it reports, in which a job with a budget of one retry is assigned three times: an orphan failure hits the failed row while its decision is owed, and both decisions are taken |
| Races.UpdateMeetsScript | backend/internal/api/handlers.go:116-136 | A concrete run in which an assigned job is cancelled and an update instruction meets its executing script |
| Epochs.CompletionsAreOld | backend/internal/agent/agent.go:711-740 | In every run a completion in flight reports an assignment that its job has had |
| RetryBudget.AssignedWithinBudget | backend/internal/api/handlers.go:612-645 | In every run without manual retries, in which completions that take effect end the assignment they report and no orphan failure hits a row for which a retry decision is still owed, a job is assigned at most its budget plus one times; cancels of assigned jobs and orphan failures of pending, cancelled, done and decided rows included |
| RetryBudget.OwedIsFailed | backend/internal/api/handlers.go:182-204 | In such runs a retry decision is owed only for rows that have failed, or were deleted since: those are the only rows that an orphan failure must not hit |
| RetryBudget.OrphanFailureIff | backend/internal/api/handlers.go:182-204 | Exactly: after such a run all jobs keep their budgets through one more orphan failure and all such runs from there, if and only if no decision is owed for the failed row it hits, or the row's assignments plus twice the retries it has left are within budget plus one |
| RetryBudget.Overspends | backend/internal/api/handlers.go:612-645 | Otherwise some such run takes both decisions and gives the job exactly twice the assignments that were left |
| RetryBudget.Backoff | backend/internal/api/handlers.go:628-635 | For every configured value the delay is a whole number of minutes between one minute and 24 hours, and the 64-bit product does not wrap |
| RetryBudget.UnclampedOverflows | backend/internal/api/handlers.go:620-627 | Without the clamp the product wraps to a negative delay |
| Assignment.NeverAssignedTwice | backend/internal/store/store.go:899-951 | Over every interleaving of the transactions' steps with acknowledgements, guarded and unguarded ends, cancels, retries, deletes and cap changes, no job is assigned twice without leaving the active states in between, and no node has more than eight active jobs |
| Assignment.TransactionIsAtomic | backend/internal/api/ha_notes.go:32-53 | Refinement: the only transaction step that changes the table is the commit, and it is the atomic assignment of a pending job to an enabled node with a free slot, within the cap that holds then |
| Assignment.CommitIsAtomic | backend/internal/store/store.go:912-951 | What was read under the node lock still holds at the commit |
| Assignment.GoesThrough | backend/internal/store/store.go:899-951 | A transaction left alone succeeds: with an enabled node, a free slot and a pending job its four steps can follow each other and assign the job |
| Supervisor.HandleLife | backend/internal/store/leader.go:199-262 | In every run a body runs only while its handle is held; a handle is released at most once, after its body drained, and has been released exactly when its supervisor moved on; a returned supervisor leaves nothing behind |
| Supervisor.Exclusion | backend/internal/store/leader.go:83-146 | In every run bodies on one replica never overlap, and two replicas' bodies overlap only when one of the sessions is dead |
| Supervisor.LeftoverIsBrief | backend/internal/store/leader.go:153-175 | A body whose session died has been told to stop within 20 seconds: one keepalive interval and one probe timeout |
| Supervisor.OverlapHappens | backend/internal/store/leader.go:153-175 | The bound is exact: in some run two bodies still run 20 seconds after one session died |
| Supervisor.Singleton | backend/internal/store/leader.go:177-192 | While no session dies, at most one body runs in the whole cluster |
| Supervisor.ReturnedWasStopped | backend/internal/store/leader.go:195-262 | In every run a supervisor that has returned was told to stop |
| Supervisor.ReleaseLeads | backend/internal/store/leader.go:236-262 | Whatever happens while its body drains, a supervisor not told to stop competes again after the release: at once when the body had ended by itself, after 15 seconds when the lock was lost |
| Supervisor.StandbyWaits | backend/internal/store/leader.go:199-216 | A replica that does not get the lock tries again 15 seconds later, and it cannot get it while it is held |
| Supervisor.LeaderStarts | backend/internal/store/leader.go:218-229 | A free lock is taken by a new session, whose body runs and which is probed within 10 seconds |
| Episodes.OneJobPerEpisode | backend/internal/scanner/loop.go:119-155 | In every run without operator creations and retries in which scanner bodies never overlap and no failure write hits a cancelled row, each episode folder has at most one job that is not cancelled, although check and create are separate statements |
| Episodes.FailureIff | backend/internal/store/store.go:965-990 | Exactly: after such a run folders keep one job each, through a failure write and all such runs from there, if and only if its row is not cancelled, or nothing else covers the row's folder and no body has found that folder missing |
| Episodes.FailureDuplicates | backend/internal/store/store.go:869-874 | A run with one scanner body and no operator creation or retry that gives one folder two jobs, because a failure write brings a cancelled job back |
| Episodes.OneJobWhileSessionsLive | backend/internal/store/leader.go:177-192 | The supervisor provides the first condition: with no session death, and no failure write on a cancelled row, no folder gets a second job |
| Episodes.OverlapDuplicates | backend/internal/scanner/loop.go:128-148 | Some run with two overlapping bodies gives one folder two jobs |
| Shell.SafeIdent | backend/internal/flow/dialect.go:106-116 | The sanitiser's loop keeps exactly the safe characters of the lower-cased identifier |
| Shell.SafeIsSafe | backend/internal/flow/dialect.go:106-116 | Sanitised identifiers have only the safe alphabet, and safe identifiers are unchanged |
| Shell.SafeKeepsAll | backend/internal/flow/dialect.go:106-116 | Exactly the characters a to z, 0 to 9 and underscore of the lower-cased identifier are kept, in order |
| Shell.ReadPrint | backend/internal/flow/dialect_bash.go:118-133 | Lexing a printed block of assignments by the POSIX quoting rules gives back exactly its names and values, quotes and newlines included, if and only if every name is a shell name |
| Shell.ScanValue | backend/internal/flow/dialect_bash.go:40-42 | A quoted value reads as that value, whatever its characters other than NUL |
| Shell.CommentsAreInert | backend/internal/flow/dialect_bash.go:53-55 | No value printed into a comment line is read as anything but a comment |
| Parameters.ParamsLiteral | backend/internal/flow/dialect_bash.go:119-133 | The loop prints one assignment per declared parameter with a non-empty sanitised key; unknown keys are dropped |
| Parameters.DeclaredLists | backend/internal/flow/dialect_bash.go:119-133 | The block assigns, in order, every declared parameter whose sanitised key is not empty: to the value the flow gives for its key, or to nothing |
| Parameters.BlockPerforms | backend/internal/flow/dialect_bash.go:119-133 | A step's block runs as assignments if and only if no sanitised key starts with a digit |
| Parameters.BlockSetsParams | backend/internal/flow/dialect_bash.go:119-133 | After the block every declared parameter reads back its own value, whatever earlier steps left behind, if and only if parameters that share a sanitised key have one value and none with a value is called _, which bash resets after each command |
| Parameters.LastParamSets | backend/internal/flow/dialect_bash.go:121-131 | The last parameter with a sanitised key other than _ sets its variable |
| Parameters.ContextPerforms | backend/internal/flow/dialect_bash.go:93-112 | The context block gives every context variable its value |
| Parameters.ContextIsContext | backend/internal/flow/dialect_bash.go:93-112 | The fifteen context names are distinct, valid and capitalised |
| Parameters.ContextHolds | backend/internal/flow/dialect_bash.go:93-112 | Which configured or given value each plain context variable holds |
| Parameters.ContextPaths | backend/internal/flow/dialect_bash.go:93-112 | The paths lie in the episode's folder under the scripts folder, without doubled slashes; output and release names are made of series, episode, group and tag |
| Parameters.ContextStands | backend/internal/flow/dialect.go:106-116 | No sequence of steps changes a context variable through its parameters: sanitised keys have no capital letters |
| Render.Render | backend/internal/flow/render.go:199-303 | Rendering gives the linked script, or the first fault in the order the checks are made: no steps, no job, unresolved, refused or nameless template, clashing functions, unsafe step type |
| Render.Resolve | backend/internal/flow/render.go:217-243 | All templates are resolved and checked up front, in step order |
| Render.Link | backend/internal/flow/render.go:262-271 | Each template key is linked once, where it first occurs |
| Render.LinkedAtFirst | backend/internal/flow/render.go:262-271 | The linked bodies are, in order, those of the steps whose template key no earlier step has |
| Render.Emit | backend/internal/flow/render.go:276-299 | Calls in step order, refusing a function name that another template also uses |
| Render.ScriptMeansFlow | backend/internal/flow/render.go:254-302 | When every step's function is found in its own template, interpreting the script runs the steps in order with their own bodies and stops at the first failure, for any behaviour of the bodies |
| Render.FoundIsNecessary | backend/internal/flow/render.go:274-287 | That condition is necessary: otherwise the script is wrong even when all bodies succeed |
| Render.FoundIffApart | backend/internal/flow/render.go:262-287 | With one function per body and one body per key, linking once per key and refusing clashes makes lookup unambiguous if and only if the shell tells the accepted function names apart |
| Render.RenderCorrect | backend/internal/flow/render.go:199-303 | As an exact condition on any dialect and any resolver, over steps and their templates: the rendered script means the flow for all behaviours of the bodies, or is wrong already when all succeed |
| Render.FlowIsWalk | backend/internal/flow/render.go:217-302 | The walk over the linked items is the walk over the steps, each with its own template's body, its given values and its sanitised type |
| Render.CallsAreSteps | backend/internal/flow/render.go:254-302 | A rendered script is the context, definitions, one call per step in order, and the end; a step's call names the function of its own template, its sanitised type, and every parameter with the value the step gives it |
| Render.ContextDefaults | backend/internal/flow/render.go:244-256 | The context has the job's own episode and script file, or else what its folder and script type give |
| Render.KeyedIsStable | backend/internal/flow/render.go:38-51 | A resolver that answers by the key alone gives one body per key, as the built-in one does |
| Render.BashRenderCorrect | backend/internal/flow/dialect_bash.go:141-161 | In bash, where names are compared exactly, a rendered script means its flow whenever each body defines one function and each key gave one body |
| Render.CaseVariantsCollide | backend/internal/flow/render.go:276-287 | Where names are compared without case, two templates whose function names differ in case are accepted and confused |
| Render.DoneIffAllSucceed | backend/internal/flow/render.go:301-302 | ENCODE_JOB_DONE is reached exactly when every step succeeds |
| Lines.LinesAreExact | backend/internal/agent/steptrack.go:186-210 | The lines and the held rest put together are the output, and no line contains a newline |
| Lines.ChunksDoNotMatter | backend/internal/agent/steptrack.go:193-219 | For every split into writes followed by a flush, the lines processed are the lines of the concatenated output |
| Observer.LineObserver.Write | backend/internal/agent/steptrack.go:193-210 | The buffer grows by exactly the bytes written, and remainder, ring, marker, metrics and step timings stay functions of the whole buffer and the clock |
| Observer.LineObserver.Feed | backend/internal/agent/steptrack.go:196-208 | The loop feeds exactly the complete lines to all three trackers, each at its instant, and returns what follows them |
| Observer.LineObserver.Flush | backend/internal/agent/steptrack.go:214-219 | After the flush ring, marker, metrics and step order are those of the whole output |
| Progress.Shift | backend/internal/agent/progress.go:41-45 | The in-place shift drops the oldest line and appends the new one |
| Progress.JoinReads | backend/internal/agent/progress.go:59-63 | The shipped tail reads back as its lines |
| Progress.ProgressTracker.NewestIsLast | backend/internal/agent/progress.go:41-48 | The newest line observed is the last entry of the ring |
| Progress.ProgressTracker.Observe | backend/internal/agent/progress.go:38-55 | The ring is always the last lines seen, and step and percentage those of the markers seen |
| Progress.ProgressTracker.Snapshot | backend/internal/agent/progress.go:59-63 | A heartbeat gets the latest marker and the joined ring |
| Progress.LastMarkerCounts | backend/internal/agent/progress.go:49-54 | The step is that of the last marker line and the percentage that of the last one that parses |
| Progress.NoMarkerYet | backend/internal/agent/progress.go:49-54 | Before the first marker there is no step and no progress |
| Timings.StepTimings.Observe | backend/internal/agent/steptrack.go:125-137 | The order of steps and their starts are those of the lines observed |
| Timings.StepTimings.Finish | backend/internal/agent/steptrack.go:142-163 | One timing per step in first-seen order; each lasts until the next starts, the last until the end when it is known |
| Timings.FirstMarkerCounts | backend/internal/agent/steptrack.go:120-137 | A step starts at its first marker, however often it is reported again |
| Timings.OrderIsFirstSeen | backend/internal/agent/steptrack.go:125-137 | The steps are in the order of the lines that first name them, and start at the instants of those lines |
| Timings.StepsMeet | backend/internal/agent/steptrack.go:142-163 | Each step ends where the next one starts, the last one with the job when that is known |
| Timings.DurationsAddUp | backend/internal/agent/steptrack.go:142-163 | The durations add up to the time from the first start to the end |
| Metrics.MetricTracker.Observe | backend/internal/agent/encmetrics.go:36-55 | After every line the map holds the last value of exactly the first 64 distinct keys |
| Metrics.Next | backend/internal/agent/encmetrics.go:43-54 | One pair: at the cap only updates of known keys get through |
| Metrics.HoldsSize | backend/internal/agent/encmetrics.go:9-13 | The map never has more than 64 keys |
| Metrics.LastValueIs | backend/internal/agent/encmetrics.go:43-54 | The value kept for a key is that of its last pair that parses |
| Metrics.KeysAreFirstGiven | backend/internal/agent/encmetrics.go:9-13 | The keys that count under the cap are those first given a value, in that order |
| LogRing.LogRing.Write | backend/internal/agent/logring.go:44-67 | One write turns completed lines into entries and keeps the last 8192 bytes of the unfinished one |
| LogRing.LogRing.Push | backend/internal/agent/logring.go:71-76 | The ring keeps the last forty lines, the newest one last |
| LogRing.LogRing.Tail | backend/internal/agent/logring.go:83-103 | The tail shipped is the cut of the joined lines and the pending fragment |
| LogRing.ShippedFits | backend/internal/agent/logring.go:93-102 | The tail has at most 8192 bytes, ends as the log ends, starts at a line start unless its one line is cut, and leaves out no line that starts after the first of the last 8192 bytes |
| LogRing.ChunksDoNotMatterWhenShort | backend/internal/agent/logring.go:44-67 | If no line exceeds 8192 bytes, ring and pending line depend on the bytes alone, for every split into writes |
| LogRing.SplitLine | backend/internal/agent/logring.go:61-65 | The bound is exact: a line split before its newline gives the entry it gives whole if and only if it has at most 8192 bytes or nothing but carriage returns |
| Crc32.EightSteps | backend/internal/flow/builtin_steps_plugins.go:221-226 | Eight bit steps of the register are one lookup by its low byte and one shift |
| Crc32.ByteStep | backend/internal/flow/builtin_steps_plugins.go:233-235 | Feeding one message byte bit by bit is one step of the table loop |
| Crc32.BuildTable | backend/internal/flow/builtin_steps_plugins.go:220-227 | The 256 entries are eight bit steps of their index |
| Crc32.Compute | backend/internal/flow/builtin_steps_plugins.go:228-238 | For every file and every split into reads, the table loop computes the reflected CRC-32 defined bit by bit |
| Crc32.ChecksumOfA | backend/internal/flow/builtin_steps_plugins.go:228-238 | The definition's value for one known message |
| Rebind.Rebound | backend/internal/store/dialect.go:76-104 | The one-pass scanner with escaped-quote look-ahead equals the definition by position: the k-th question mark at even quote parity becomes $k and every other byte stays |
| Rebind.PieceReads | backend/internal/store/dialect.go:83-102 | A placeholder becomes a dollar sign and a numeral that reads as one more than the placeholders before it; any other byte is itself |
| Rebind.DecimalReads | backend/internal/store/dialect.go:96-99 | The numerals are decimal, without leading zeros, and read as the number |
| Rebind.NumbersRunInOrder | backend/internal/store/dialect.go:96-99 | The numbers run from 1 to n in order, each exactly once |
| Rebind.LiteralIsUntouched | backend/internal/store/dialect.go:83-95 | No byte of a string constant, doubled quotes included, is rewritten, and parity is even where the constant ends |
| RunLog.CaptureRunLog | backend/internal/agent/steptrack.go:29-92 | A small log is captured whole; a long one from a cut in its last MiB that is not inside a character, after the first newline from there on |
| RunLog.BodyIsReadable | backend/internal/agent/steptrack.go:68-91 | The body of a long log is a suffix of at most 1 MiB, starts just after a newline when one follows the cut, and is valid UTF-8 whenever the log is |
| RunLog.CutIsTight | backend/internal/agent/steptrack.go:75-83 | Aligning to a character gives away at most three bytes of a valid log |
| RunLog.BoundIff | backend/internal/agent/steptrack.go:46-52 | The 1 MiB bound holds exactly unless a log examined as small has outgrown it when it is read |
| RunLog.IndexByteFrom | backend/internal/agent/steptrack.go:94-102 | The first newline from an offset, or -1 |
| Scanner.InspectEpisode | backend/internal/scanner/scanner.go:95-153 | The loop picks the first raw container or else the first .mkv, the script of the switch's fold, and applies the gate to the chosen source |
| Scanner.KindsAre | backend/internal/scanner/scanner.go:101-116 | Scripts, raw containers and .mkv files are told by the ends of their names, in capital or small letters |
| Scanner.ScriptsAre | backend/internal/scanner/scanner.go:95-116 | The scripts considered are exactly the files, not folders, whose names end in .avs or .vpy |
| Scanner.PreferenceOrder | backend/internal/scanner/scanner.go:117-128 | The preference by prefixes: 2160.vpy, then 2160.avs, and unless the first name starts with 2160, then 1080.vpy, 1080.avs, and the first name |
| Scanner.TakenIff | backend/internal/scanner/scanner.go:129-152 | An episode is taken exactly when it has a source and a script and the time that is judged lies at least the minimum age back |
| Scanner.BestIffNotMisled | backend/internal/scanner/scanner.go:117-128 | On any listing the pick is of maximal rank if and only if it is not misled by an unranked name starting with 2160 |
| Scanner.SortedPicksBest | backend/internal/scanner/scanner.go:117-128 | On every name-sorted sequence of scripts the pick is of maximal rank |
| Scanner.ScriptsAreSorted | backend/internal/scanner/scanner.go:101-116 | The scripts of a name-sorted listing are name-sorted |
| Scanner.SortedListingPicksBest | backend/internal/scanner/scanner.go:89-152 | The candidate of every name-sorted directory or bucket listing has a script of maximal rank, and a raw source whenever there is one |
| Scanner.UnsortedMisleads | backend/internal/scanner/scanner.go:122-125 | Without the order it fails on a concrete listing |
| Scanner.RawBeatsMkv | backend/internal/scanner/scanner.go:109-132 | The source is the first raw container whenever one exists, and the first .mkv otherwise |
| Scanner.InspectS3Episode | backend/internal/scanner/s3scan.go:69-120 | The same fold over a bucket listing, with the time the code judges |
| Scanner.TypesAgree | backend/internal/scanner/s3scan.go:108-120 | Both scans call the script's type vpy or avs, by the end of its name |
| Scanner.JudgesTheSourceIff | backend/internal/scanner/s3scan.go:73-82 | The bucket scan judges the source it chose if and only if no first .mkv is listed after the first raw container |
| Scanner.UploadingSourceIsTaken | backend/internal/scanner/s3scan.go:79-107 | Otherwise a source that is still uploading is taken once that .mkv is old enough |
| Scanner.GatesAgree | backend/internal/scanner/s3scan.go:105-107 | Where it judges the source, it defers exactly what the filesystem scan defers |
| Downsample.Sampled | backend/internal/store/store_metrics.go:151-189 | At most the cap, all samples when they fit, an order-preserving subsequence with the first sample, gaps of at most the least number with which the cap spans the series, and the last sample unless full or tied in time |
| Downsample.Strided | backend/internal/store/store_metrics.go:169-175 | Every stride-th sample, never more than the cap |

## Left out

- HTTP routing, request decoding, authentication, the user interface, alerts, S3 transfers and all SQL text: the store appears as guarded atomic statements.
- The branch that finishes a job whose rendering failed, in `Fleet`: it depends on templates and settings that the dispatch model does not carry. Its write is one of the failure writes of `Episodes` and `Assignment`.
- Deleting nodes, and write races between two updates of one node row: a heartbeat's node write is atomic in `Fleet`, with one heartbeat of a node in flight; a handler whose agent gave up stops where it is.
- Operator changes of a node's cap or pause in the middle of a heartbeat: `Fleet` keeps the row of the heartbeat; `Assignment` and `Reboots` have these changes.
- The choice among pending candidates (priority, backoff gate, series pause, routing, steering away from a failed node): any pending job may be picked, which covers every choice. Soft drain by disk space and drain mode are one flag.
- The update procedure of the agent: its syncing flag may rise and fall at any time. An agent that crashes takes its scripts with it.
- What step bodies do: a body has one outcome and an effect on an abstract state, not a sequence of commands, because `set -e` does not apply to the left of `||`. Bodies that exit the script themselves are not covered.
- Render.BashRenderCorrect: assumes that each body defines the one function it is called by and that no template is edited between two lookups of one render, as does `Render.FoundIffApart`; `Render.RenderCorrect` gives the exact condition without these assumptions.
- Regular expressions (function names, step and metric markers, episode numbers) and the translation of a custom PowerShell body to bash: parameters of the model. PowerShell's own quoting, and a PowerShell parameter literal with two equal keys.
- Shell.ReadPrint: covers single quotes, backslashes, blanks, newlines, comments and plain words; a text that uses other shell characters outside quotes is not read at all.
- The wall clock itself: the instant of each line is given by a function of its number. Float parsing: a number is a real, or absent when it does not parse. The log line an observer writes for a marker.
- The text of a script around its assignments and comments (markers, traps, the shared helper): the syntax tree stands for it. The legacy single-job fields of a heartbeat.
- Time in `Supervisor`: timers and closed channels are acted on without scheduling delay, a probe ends within its timeout, and a statement whose call has returned takes no effect later. SQLite, where the lock always succeeds for the single instance, is not modelled.
- Acquisition that fails after the server granted the lock: a failed attempt is modelled as one that took nothing.
- Liveness: an assigned job whose reply was lost is not redelivered, and a lock is not promised to be acquired.
- The bash variant of the checksum rename: POSIX `cksum` is a different function.
- Sample values in `Downsample` other than the time: they are one number.
- Edits of a flow between two retry decisions of one job: its retry budget is fixed when the job is created.
