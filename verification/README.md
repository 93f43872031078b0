# Verification of the pipeline executor, the broker and the loop

A Dafny model of three components of `xutils` and proofs of what they promise.

**Pipeline.** `pipeline` executes a tree of Action, Poll, Branch and Repeat steps and can be stopped
and started again at any moment. All it knows about its position is a path of names and a journal,
and every transition is handed to a snapshot function before the next side effect. The model has the
executor twice. Module `Executor` gives it as functions on a machine (run state, data store, log of
everything done to the outside world); module `Engine` gives it in the program's own form - an
object whose methods change the log and the data store, loops over steps, attempts and journal
indices - and every method is proved to compute exactly the function that specifies it. The outside
world (`State.Env`) answers each call from the whole log so far, so one environment is any behaviour
of callbacks, store, cancellation and clock whatsoever. A crash is a log cut between two events; a
history is any number of runs, each started from the last state that was durably saved.

The proofs, from the ground up:

- `Journal` says event by event what a log may look like; `Frames`, `Steps`, `Leaves`, `Repeats`,
  `Iterations`, `Rollback`, `Scopes` and `Runs` prove by induction over the tree and over runs that
  every history of a valid pipeline looks like that; `Guarantees` draws the conclusions.
- `FailStop` proves the fail-stop rule without any assumption.
- `NextCalls` reads off a state which call comes next and `Effects` what an answer changes: an
  interpreter of pipelines that knows nothing of retries, snapshots and restarts. `Records` and
  `Courses` prove by a second induction, under any environment, that every forward call is the one
  the last durable state leads to, that the durable states follow the interpreter, and what the
  records of repeats keep; `Sequence` and `Lifecycle` draw the conclusions over whole histories.
- `Script` says what a run may do next, of its log alone: which answer leads to which snapshot, when
  and after which wait an action is tried again, when a time limit has run out, what starts a
  rollback and with which journal, what the data store holds, with which error it all ends. `Plays`
  proves by a third induction, under any environment, that every step and scope keeps to it, and
  `Staging` that every run of every history does; `Failures` (what a failure leads to, and that a
  rollback undoes exactly what was achieved), `Limits` (the time limits of polls and repeats) and
  `Backoff` (attempts and waits) draw the conclusions.
- `Footprint`, `Places`, `Lockstep`, `CutRollback`, `CutForward` and `Resume` prove that resuming
  means the same as not stopping, as long as no time limit runs out, and that crashes never change
  where a workflow ends; `Deadlines` shows what an expiring limit does.
- `FirstCalls`, `Reentry`, `Returned` and `Promise` take the state that a cancelled run returns, which
  is not the last one saved, and prove exactly when starting from it is as good; `Cancellation` has two
  runs for which it is not.
- `FullHistory`, `Abridged` and `CompactRuns` prove that Compact history refines Full history.
- `Workers` lets any number of workers run one record against a compare-and-swap store.
- `Compaction`, `PathKey`, `Validation` and `Wellformed` cover the loops around the executor.

**Broker** and **Loopper** are modelled as interleaved steps, with an object whose methods are the
atomic sections, and proved for every interleaving; `Delivery` proves what the broker delivers, from
Publish to the subscriber's buffer.

`dafny verify dfyconfig.toml` checks the whole project.

## Model

| member | source | states |
|---|---|---|
| Resume.ResumeIsTransparent | pipeline/executor.go:195-354 | a run of any history, cut at any successful snapshot and started again from the saved state in a fresh process, makes the same remaining calls with the same answers and ends in the same state but for its revision and the times at which clocks were started, for any nesting of Branch and Repeat, whenever no two clock readings are as far apart as a time limit of the pipeline |
| Lockstep.StillTwins | pipeline/executor.go:853-874 | under a clock that stands still such states agree about all times as well |
| Deadlines.LimitExpires | pipeline/executor.go:366-382 | an example: the limit of a Repeat expires while the process is down, between two children; the uncut run calls the second child, the resumed one rolls back instead |
| Resume.CrashesConverge | pipeline/executor.go:55-191 | after any number of crashes at any points, the next complete run ends in a state in which some number of uninterrupted runs ends as well, while no time limit runs out |
| Resume.RunTwins | pipeline/executor.go:1104-1153 | runs started from states that differ only in revision and in when clocks were started make the same calls, return the same error and end in such states again, whatever happened before, while no time limit runs out |
| CutForward.StepsCut | pipeline/executor.go:204-236 | a scope cut at any snapshot below it finds the interrupted child again from the saved path and goes on exactly as the uncut scope, while no time limit in it runs out |
| CutForward.IterationResumed | pipeline/executor.go:711-770 | a Repeat cut inside an iteration recovers that iteration, its clock and its pending condition, and asks Until alike, while its limit does not run out |
| CutRollback.StepsUndo | pipeline/executor.go:915-981 | a rollback that began at any depth, cut at any of its snapshots, is carried on from the saved index with the same remaining compensators |
| Lockstep.StepsTwins | pipeline/executor.go:195-354 | what a scope does depends neither on the history nor on the revision nor on when clocks were started while no limit runs out, and on the resume path only at its first step |
| Footprint.StepsReached | pipeline/executor.go:238-352 | executing below a path saves running states only at or below it, leaves completions and repeat positions elsewhere as they were, and leaves no data unsaved on success |
| Guarantees.DoneOnce | pipeline/executor.go:211-219 | once a snapshot records a step as completed, no Do, Check, Decide or Until of that step is called again in any later run, even after compaction dropped the record |
| Guarantees.JournalSound | pipeline/executor.go:472-476 | no durable journal holds a path twice; every entry leads to a step of the definition, and is marked for compensation exactly if that step is a compensated action |
| Guarantees.CallsFindTheirStep | pipeline/executor.go:1023-1060 | the lookup by path finds, for every call, compensations included, a step of the matching kind, within its iteration limit |
| Sequence.NextIsDurable | pipeline/executor.go:195-354 | every Do, Check, Decide and Until of any history is the very call that the last durable state leads to, read off the tree in order; callbacks, retries, refusals, the clock and restarts have no say in it |
| Sequence.CompletesWhenDone | pipeline/executor.go:177-188 | nothing is skipped: a run is saved as Completed only when the durable state before it leads to no further call |
| Sequence.FollowsInterpreter | pipeline/executor.go:195-354 | the durable states of any history go the way of a simple interpreter without crashes, retries and snapshots: from one to the next nothing was done, or the next call was made and the state is what its answer leads to |
| Sequence.CompletedIsDone | pipeline/executor.go:177-188 | a run saved as Completed has every step of the top level in its journal |
| Sequence.NextNames | pipeline/executor.go:207-209 | the call that comes next carries the path by which the tree addresses its very step - names, chosen keys, decimal iterations |
| Sequence.AddressFound | pipeline/executor.go:1023-1060 | looking such a path up gives back that very step |
| Guarantees.OneStepAhead | pipeline/executor.go:152-163 | between calls of different steps there is always a successful snapshot, so at most one step's effect is missing from the durable state |
| Guarantees.NothingAfterRefusal | pipeline/executor.go:241-251 | after a refused snapshot nothing is called, at any depth, until a later run has saved a state |
| FailStop.RunStops | pipeline/executor.go:1106-1153 | for any definition, state and environment, a refused snapshot is the last event of its run, exactly when it is the error returned |
| Guarantees.RevisionIsSaves | pipeline/executor.go:1115-1141 | the durable revision is the number of successful snapshots over all restarts |
| Guarantees.ReturnedIsSaved | pipeline/executor.go:43-54 | what Run returns is the last durable state unless it was cancelled or refused; without an error the run is Completed or Failed; a saved branch path is never missing |
| Staging.RunPlays | pipeline/executor.go:55-191 | from the state any good log leaves, each run keeps to the script of module `Script` from its first event to its last, and the error it returns can be read off its log; a run without events was over already or cancelled |
| Staging.RunIsScripted | pipeline/executor.go:43-54 | the same for a run of any history: which error is returned after which last events - a refusal, a completion, a rollback with or without a timeout, a yield, or else a cancellation |
| Staging.EventPlays | pipeline/executor.go:195-354 | every event of any history belongs to one of its runs and is one the script of that run allows after what came before |
| Staging.DataIsKept | pipeline/executor.go:469-482 | no update of the data store is lost: every callback is given, and every state offered to the store holds, what the run began with as all callbacks since have left it, failed ones included |
| Staging.InvalidRunsNothing | pipeline/executor.go:55-59 | an invalid definition is refused before anything is called or saved |
| Plays.StepsPlay | pipeline/executor.go:195-354 | the third tree induction: under any environment, executing the steps of a scope does only what the script allows, and ends with the error the script gives or leaves the scope where the next may go on |
| Failures.OrdinaryRollsBack | pipeline/executor.go:309-336 | in any run of any history, a Do, Check, Decide or Until that finally failed with an ordinary error is followed, unless the run is cancelled, by a state that compensates, names the failed step, and has the whole durable journal to undo from its last entry down |
| Failures.NoCompensateStays | pipeline/executor.go:292-307 | after ErrNoCompensate the state saved is still running, names the step that was called, has the same journal and the same next call, and the run ends with that failure |
| Failures.RetryAfterYields | pipeline/executor.go:247-251 | after a request for a delayed continuation the state saved goes forward without any work done, polling exactly for a poll, and the run ends saying so |
| Failures.RollbackStarts | pipeline/executor.go:309-332 | a rollback starts only for a final ordinary failure, a decision for an unknown path, an Until not done in the last iteration allowed, or a limit read to have run out; it starts with the journal that was durable then - without the iteration a compact Repeat forgets at its limit - and its index at the last entry |
| Failures.RollbackUndoesAchieved | pipeline/executor.go:915-995 | when a run has failed, the compensations recorded over all restarts are those of exactly the compensated actions whose success had been made durable, in the opposite order: what succeeded last is compensated first |
| Failures.RollbackUndoesRest | pipeline/executor.go:908-915 | during rollback the recorded compensations followed by the pending ones are exactly those |
| Failures.CompensatorStaysNext | pipeline/executor.go:938-963 | after a compensator failed the state saved points at it again, with the same journal, and the run ends with a compensation failure, or with the continuation it asked for |
| Failures.FailedReturns | pipeline/executor.go:333-340 | a run that ends Failed returns no error unless the limit of a Repeat failed it; then it returns that timeout, also when a later run finished the rollback |
| Limits.PollInTime | pipeline/executor.go:512-533 | in any history a Poll with MaxDuration is asked only while the clock, read right before, is less than that past the saved PollStartedAt |
| Limits.PollClockSaved | pipeline/executor.go:505-565 | what is saved after an answer: while it is not done the time of the first question, read at that question and kept from then on; none once the poll is done or has failed |
| Limits.PollClockIsOwn | pipeline/executor.go:505-510 | in any durable state of a run not rolled back a saved PollStartedAt belongs to the Poll that comes next and was read when that Poll was asked: none is inherited from another |
| Limits.PollTimesOut | pipeline/executor.go:512-533 | a run started from a waiting Poll that finds the limit run out asks nothing at all: unless cancelled, its next state is that of a rollback, and all it calls are compensators |
| Limits.UntilInTime | pipeline/executor.go:772-779 | in any history Until of a Repeat with MaxDuration is asked only on a started clock that, read right before, has time left |
| Limits.InsideInTime | pipeline/executor.go:366-382 | inside a limited Repeat nothing is called by a run that has not read, since it began, that the Repeat has time left |
| Limits.RepeatTimesOut | pipeline/executor.go:772-779 | when the limit is read to have run out after the children of an iteration, Until is not asked; unless cancelled the run rolls back, and the state saved says which limit it was |
| Guarantees.RollbackExact | pipeline/executor.go:983-995 | when a run has failed, the durably recorded compensations over all restarts are the compensated entries of the journal saved with it, from the last to the first, each once; that this journal is the one of the run going forward is Failures.RollbackStarts |
| Guarantees.RollbackPartial | pipeline/executor.go:908-915 | during rollback the recorded and the pending compensations together are those of the journal saved with it |
| Guarantees.CompensatedOnce | pipeline/executor.go:966-977 | a compensator is called only as the next pending one and never after its success was recorded |
| Guarantees.RecordedWasCalled | pipeline/executor.go:938-977 | a recorded compensation is one successful call of that compensator followed at once by its snapshot, and the compensator is not called again in the rest of the history |
| Guarantees.CompensationIsFinal | pipeline/executor.go:285-340 | once rollback is durable no forward call is ever made again and the journal never changes |
| Guarantees.UntilBounded | pipeline/executor.go:833-839 | Until is asked about the durable iteration, which stays below a positive MaxIterations |
| Guarantees.UntilNeverFalls | pipeline/executor.go:714-747 | over a whole history the iteration given to Until never falls |
| Guarantees.RepeatProgress | pipeline/executor.go:841-850 | from one durable state to the next an iteration rises only right after a not-done answer for it, and then by exactly one; a start time is kept by what is not finished |
| Lifecycle.NotDoneAdvances | pipeline/executor.go:833-850 | the first snapshot after a not-done answer of the same run has the Repeat in its next iteration on the same clock, or - exactly when that answer was for the last iteration allowed - is that of a rollback |
| Lifecycle.ClockKept | pipeline/executor.go:853-874 | once recorded, a Repeat stays recorded in every durable state until one that finishes it, through all crashes, and a clock once started keeps its time until then |
| Lifecycle.CompactBounded | pipeline/executor.go:807-850 | whenever a compact Repeat starts another iteration the journal is what it was before the Repeat was first recorded, when it finishes that and its own entry, and no nested position remains |
| Lifecycle.EntryExists | pipeline/executor.go:739-747 | every recorded Repeat was first recorded by some snapshot |
| Courses.StepsEnd | pipeline/executor.go:195-354 | the second tree induction: under any environment, executing the steps of a scope makes each call when it is next, keeps what unfinished Repeats have recorded, and leaves nothing unfinished below a scope that ends well |
| Runs.HistoryGood | pipeline/executor.go:55-191 | every history of a valid pipeline, under any environment and any crashes, is a good log: each call and each snapshot was allowed after what came before |
| Scopes.ScopeGood | pipeline/executor.go:195-354 | executing the steps of a scope keeps the log good and the saved position in the tree consistent, for every way the scope can end |
| Rollback.CompensateGood | pipeline/executor.go:897-1002 | compensation undoes the journal in reverse, records each success once and keeps a failed compensator pending |
| Workers.DerivesFromPrevious | pipeline/executor.go:1115-1124 | with a compare-and-swap store and any interleaving of workers each durable state was saved by a worker whose last loaded or saved state was exactly the durable one before it, and the revision rises by exactly one |
| Workers.OneHolder | pipeline/options.go:15-18 | at most one worker has committed the revision that is durable |
| Workers.StaleCannotSave | pipeline/options.go:15-18 | a worker that saw an older revision cannot change the record |
| Workers.RefusedIsLast | pipeline/executor.go:1125-1139 | a worker whose write is refused does nothing more |
| Workers.CommitsBeforeCalling | pipeline/executor.go:152-163 | no worker calls anything before it has committed a revision of its own in this run |
| CompactRuns.CompactRefinesFull | pipeline/compact.go:10-39 | for every history of a pipeline there is one of the same pipeline with Full history that makes the same calls with the same answers at the same places - forward and rollback - and saves states with the same status, path, data and rollback |
| CompactRuns.FullRefinesCompact | pipeline/compact.go:10-39 | the converse: for every Full history there is such a compact one |
| CompactRuns.CompensateAlike | pipeline/executor.go:915-981 | two journals with the same compensated entries are rolled back by the same calls, whatever else they hold |
| Abridged.UndoOutside | pipeline/compact.go:13-20 | dropping entries without compensator leaves the rollback as it is |
| Abridged.NothingToUndo | pipeline/pipeline.go:327-334 | the recursive check on compact repeats guarantees that no journal entry of an iteration is compensated |
| Abridged.RetainedAgree | pipeline/executor.go:807-850 | forgetting a finished iteration touches nothing outside finished iterations |
| Compaction.OrderImmaterial | pipeline/compact.go:22-31 | compaction of diagnostics gives one result for every order of the map range, including entries created meanwhile, exactly when no child of the Repeat is named like the number of the forgotten iteration |
| Compaction.ProducesCompacted | pipeline/compact.go:22-31 | that result: no entry of the iteration remains, each was merged into its target once, all others are untouched |
| Compaction.AttemptsConserved | pipeline/compact.go:56-57 | the total of attempts is the same before and after, in any order, with any names |
| Compaction.MergeDiagnostics | pipeline/compact.go:56-86 | attempts add up, the first start is the earliest, the last start and completion the latest, the next run follows the later start, and so does the last error if there is one |
| Compaction.CompactDiagnostics | pipeline/compact.go:22-31 | the loop that deletes from and inserts into the map it ranges over, in any order, computes the declared result |
| Compaction.FilterCompleted | pipeline/compact.go:13-20 | filtering the journal in place keeps exactly the entries outside the iteration, in order |
| Compaction.CompactRepeatIteration | pipeline/compact.go:10-39 | the method that compacts a state leaves the journal and the Repeat positions that the specification of the executor keeps, and nothing else of the state changes; the diagnostics loop of the same lines is CompactDiagnostics |
| PathKey.KeyRoundTrip | pipeline/compact.go:45-54 | every path is recovered from its key, with empty names and names containing '/' and '~' |
| PathKey.KeysUnambiguous | pipeline/executor.go:1155-1168 | different paths never share a key |
| PathKey.PassesInOrder | pipeline/compact.go:51 | the order of the two unescaping passes matters (section 4 of RFC 6901): the other order turns a name into a separator |
| PathKey.StepPathKey | pipeline/executor.go:1158-1168 | the loop that renders a path, part by part |
| PathKey.StepPathFromKey | pipeline/compact.go:45-54 | the loop that parses a key, rewriting its parts in place |
| PathKey.KeyGrows | pipeline/executor.go:1158-1168 | a key is its parts, each escaped, after a slash |
| PathKey.EscapeFirst | pipeline/executor.go:1155-1168 | escaping works character by character: a tilde becomes "~0", a slash "~1", anything else itself (section 3 of RFC 6901) |
| Decimal.AtoiItoa | pipeline/executor.go:717-727 | the iteration parsed from a saved path is the one that was rendered into it |
| Decimal.ItoaForm | pipeline/executor.go:738 | an iteration is rendered in ten digits, most significant first, without leading zeros |
| Wellformed.ValidMeans | pipeline/pipeline.go:242-343 | a definition is valid exactly if it has steps, names are distinct in every scope, and each step, at whatever address, has a name, no negative limit or delay, paths if it is a Branch, and no compensated action at any address below it if it is a compact Repeat |
| Validation.ValidateSteps | pipeline/pipeline.go:248-343 | the loop over a step list accepts it exactly if it is valid at every level |
| Validation.FindCompensatorPath | pipeline/pipeline.go:345-366 | finds nothing exactly if no action below is compensated; what it finds leads to such an action |
| Validation.Validate | pipeline/pipeline.go:242-246 | a definition is accepted exactly if it has steps and all of them are valid |
| Backoff.ActionAttempts | pipeline/executor.go:1063-1102 | Do is called at most MaxAttempts times if that is positive and once otherwise, never after a success or a deferral; the first wait is InitialDelay if that is positive and one second otherwise, under Backoff wait k is 2^k times that but at most 2^63-1, without it all waits are equal; a snapshot follows only a success or a deferral |
| Backoff.TriedAgain | pipeline/executor.go:1081-1099 | in any run of any history, after a failure that is not the last allowed a run that is not cancelled waits for exactly the configured time and calls Do again |
| Backoff.TriesBounded | pipeline/executor.go:1080-1083 | in no history is Do called more often in a row than the configuration of its step allows |
| Backoff.PauseIsWait | pipeline/executor.go:1092-1098 | those waits are the capped products as well |
| Backoff.NextWait | pipeline/executor.go:1355-1361 | doubling under the cap, step by step, is the capped product, and never overflows |
| Returned.CancelledAtTop | pipeline/executor.go:258-266 | a cancelled forward run returns the path of a top-level step alone, however deep it was |
| Returned.CancelledAlike | pipeline/executor.go:51-53 | for every cancelled run of every history: starting again from the state it returned makes the same calls, returns the same error and ends alike as starting from the last saved state (with the data as returned), if and only if the same call comes next in both |
| Returned.RollbackAlike | pipeline/executor.go:915-924 | a run cancelled during rollback always goes on alike from the returned and from the saved state |
| Promise.PromiseKept | pipeline/executor.go:51-53 | where the promise to continue from the interrupted step holds: the step is an Action or a Poll, or a Branch or Repeat the saved state is not inside of, or a Repeat that waits for its condition or has just begun its iteration |
| Promise.BranchLost | pipeline/executor.go:211-219 | where it fails: interrupted inside a Branch with something left to call there, the run started from the returned state never goes on alike |
| FirstCalls.StepsCall | pipeline/executor.go:195-236 | from any state, saved or not, the first call a scope makes is the one read off that state, and a scope with nothing left changes nothing |
| Reentry.ReenterStep | pipeline/executor.go:711-747 | a step entered afresh and one resumed inside, with the same call next, do the same from then on |
| Cancellation.BranchReturned | pipeline/executor.go:258-266 | an example: a run cancelled between two children of a Branch returns the path of the Branch alone |
| Cancellation.BranchLosesY | pipeline/executor.go:211-219 | started from that state the pipeline completes without ever calling the second child, which comes next from the saved state |
| Cancellation.LoopReturned | pipeline/executor.go:258-266 | an example: a run cancelled between two children of a Repeat returns the path of the Repeat alone |
| Cancellation.LoopRepeatsX | pipeline/executor.go:717-747 | started from that state the completed first child is called again and listed twice in the journal, so that a rollback compensates it twice |
| Engine.Executor.Run | pipeline/executor.go:55-191 | one run: error, state and log are those of the specification, from any state and history |
| Engine.Executor.ExecuteSteps | pipeline/executor.go:195-354 | the loop over the steps of a scope: skip, cancel, enter, execute, handle the error |
| Engine.Executor.HandleError | pipeline/executor.go:240-339 | what a scope does with a failed step, case by case |
| Engine.Executor.ExecuteStep | pipeline/executor.go:423-434 | dispatch by kind |
| Engine.Executor.ExecuteAction | pipeline/executor.go:438-492 | attempts, then completion and its snapshot, or deferral, or failure |
| Engine.Executor.ExecutePoll | pipeline/executor.go:495-583 | time limit, check, and waiting or completing |
| Engine.Executor.ExecuteBranch | pipeline/executor.go:586-697 | resuming inside a decided path, or deciding and saving the decision |
| Engine.Executor.ExecuteRepeat | pipeline/executor.go:702-770 | clock, time limit, current iteration, its children |
| Engine.Executor.FinishIteration | pipeline/executor.go:772-850 | the end of an iteration: time limit, Until, compaction, completion, limit or the next iteration |
| Engine.Executor.EnsureRepeatStarted | pipeline/executor.go:853-874 | the clock of a Repeat is started once and saved |
| Engine.Executor.RunCompensation | pipeline/executor.go:897-1002 | the loop down the journal from the recorded index |
| Engine.Executor.RunWithRetry | pipeline/executor.go:1063-1102 | the loop over attempts |
| Engine.Executor.Snapshot | pipeline/executor.go:1106-1153 | the revision is committed only when the store accepts |
| Engine.Executor.PersistDeferred | pipeline/executor.go:1244-1283 | a delayed continuation is saved before it is returned |
| Engine.Executor.ResumeIndex | pipeline/executor.go:1007-1021 | the first step with the saved name, or the beginning |
| Engine.FindStepByPath | pipeline/executor.go:1024-1060 | the loop and recursion that locate a step |
| Broker.ClosedAtMostOnce | broker/broker.go:204-212 | each subscriber channel is closed at most once, and while subscribed it is open |
| Broker.ClosedStaysFrozen | broker/broker.go:226-244 | after its close nothing enters a channel's buffer, even from a recipient list frozen earlier |
| Broker.StopClosesEarly | broker/broker.go:112-121 | when the Stop that closes stopCh returns, every channel stored before the closed flag was set is closed |
| Broker.StoredBeforeFlag | broker/broker.go:125-132 | a channel stored while the flag was not set counts as stored before it, for ever |
| Broker.DeliveredInOrder | broker/broker.go:192-202 | what enters a channel enters in queue order, at most once, and was addressed to it; the buffer is the latest part of it |
| Broker.NoEarlierMessages | broker/broker.go:170-188 | a message whose Publish returned before a subscriber was stored never reaches it |
| Broker.PublisherOrder | broker/broker.go:162-188 | messages one publisher sends one after another keep their order in the queue |
| Broker.InvKept | broker/broker.go:79-110 | every step of every goroutine keeps channels, calls, messages and shutdown consistent |
| Delivery.PublishedIsDelivered | broker/broker.go:164-202 | in every interleaving: what is published while a channel is subscribed, from the beginning of Publish until the message is queued, is in that channel once its broadcast is over, unless the channel was closed or held eight messages at its own send |
| Delivery.BroadcastDelivers | broker/broker.go:194-202 | once the broadcast of a message is over, each of its recipients has been given it, except those that were closed or full at their own send |
| Delivery.SubscribedMissesFull | broker/broker.go:236-243 | who is still subscribed then can only have missed it by having eight messages waiting |
| Delivery.SendDelivers | broker/broker.go:228-244 | each send into an open channel with fewer than eight buffered messages puts the message at the end of its buffer; into any other it puts nothing, and no other channel changes |
| Delivery.Addressed | broker/broker.go:170-177 | whoever was subscribed when Publish began and still is when it queues the message is one of its recipients |
| Delivery.DroppedForNobody | broker/broker.go:178-188 | a Publish that drops its message had no such subscriber, or the broker was stopping |
| Delivery.QueueBounded | broker/broker.go:64-69 | at most sixteen messages and sixteen requests wait; a Publish with recipients and fewer waiting can queue |
| Delivery.UnsubscribeCloses | broker/broker.go:89-95 | once the Start goroutine has served a request, the channel is closed, once, and what it holds stays readable |
| Broker.Hub.Broadcast | broker/broker.go:194-202 | without interference the first queued message is appended to the buffer of each of its recipients that is open and holds fewer than eight, and nothing else changes |
| Broker.Hub.SafeSend | broker/broker.go:228-244 | one send that never blocks |
| Broker.Hub.Publish | broker/broker.go:164-188 | without interference: unless closed or nobody is subscribed, the message is queued for exactly those subscribed, each once |
| Broker.Hub.CloseAllSubscribers | broker/broker.go:219-224 | closes exactly the channels still subscribed, each once |
| Broker.Hub.RemoveAndClose | broker/broker.go:208-212 | a requested channel is closed only if it was still subscribed |
| Broker.Hub.Send | broker/broker.go:178-188 | a message without recipients is dropped, any other queued with them |
| Broker.Hub.SignalStop | broker/broker.go:113-121 | only the first Stop sets the flag and signals |
| Loopper.NoOverlap | loopper/loop.go:118-123 | at most one task body runs at a time |
| Loopper.GroupCounts | loopper/loop.go:53-89 | the WaitGroup count is the number of live goroutines it accounts for |
| Loopper.NoAddAfterStop | loopper/loop.go:125-134 | from the moment Stop has marked the loop stopped, the WaitGroup count never rises again in any execution |
| Loopper.QuietAfterWait | loopper/loop.go:112-115 | once a Wait that began after Stop returns, no task runs again, whoever still calls Trigger or Start |
| Loopper.OneTicker | loopper/loop.go:53-65 | Start takes effect at most once |
| Loopper.Loop.Enter | loopper/loop.go:118-134 | the mutex section of tryRun: counted and launched, or the flag given back |
| Loopper.StopHasCancelled | loopper/loop.go:97-110 | in every interleaving, when the Stop that marked the loop has returned, a loop that was ever started has its context cancelled: no Start slips in behind the mark |
| Loopper.TickerCanEnd | loopper/loop.go:80-88 | a ticker whose context was cancelled can always end, and gives its place in the WaitGroup back |
| Loopper.Loop.Stop | loopper/loop.go:97-110 | the first call marks the loop stopped and cancels the context exactly if the loop was started; later ones change nothing |

## Left out

- Resume.ResumeIsTransparent: compares runs in which no snapshot is refused and nothing is cancelled, because either ends the run, and in which the clock moves less than every time limit of the pipeline, because limits are checked again on every resume and may then really expire (`Deadlines`). The snapshot with which a run stopped by itself is excluded: starting from it is the next run.
- CompactRuns.CompactRefinesFull: the environment may depend on everything except the contents of snapshots, which differ between the two.
- Returned.CancelledAlike: says nothing of a run cancelled right after the not-done answer that exhausts a compact Repeat, which has then dropped its iteration in memory ahead of the store, so that the journals differ from the start. The promise in pipeline/executor.go:51-53 is false as it stands; histories restart from the last durable state.
- The clock and the cancellation flag are functions of the events so far, so two readings with no event between agree. In the program a cancellation may arrive between the check of a child's scope and that of its parent (pipeline/executor.go:258), and the two time checks of a Repeat that waits for its condition (pipeline/executor.go:378 and 772) may differ.
- Limits.RepeatTimesOut: speaks of a state in which the limited Repeats around the one at hand have their clocks started; that a call inside them is made only then is InsideInTime.
- OnEnter hooks: not called. A Branch or Repeat runs its hook again on every resume inside it (pipeline/executor.go:387-403).
- Observer events, logging and error texts: they never steer execution.
- Versions, MinResumeVersion and state migrators: one fixed definition and version.
- Data is an abstract map that always serialises; GetData and marshalling errors are not modelled.
- An executor without a snapshot function, which saves nothing.
- Step diagnostics inside run states, and the delays of deferrals: diagnostics are modelled in `Compaction` alone, one compaction at a time.
- Snapshots are values: the maps a shallow copy shares with the running state (pipeline/executor.go:1116) are not.
- User callbacks that return the engine's own error types, and steps without kind or callback, which validation refuses.
- Overflow of iteration, revision and attempt counters, which are unbounded here.
- Maps keyed by StepPathKey are keyed by the path itself; `PathKey` proves that this is the same.
- ForceTerminate, a plain assignment.
- Broker: message payloads are named by queue positions; consumers that close channels themselves, and a Subscribe that stores its channel after Stop has swept, for which nothing is promised.
- Loopper: the context timeout, panic recovery and logging of a task.
- Fairness and liveness: that a blocked call eventually returns.
- All other packages of the repository: wrappers, I/O and single-function helpers, and `workflow`, whose resume does not preserve meaning (workflow/workflow.go:298-302).
