# Verification of the reconciler, the worker inbox, the cluster operators, the importer and the shop settings

A Dafny 4.11 model of the parts of the platform whose correctness rests on protocols, on gates in
front of irreversible steps, and on exact text formats. `dafny verify dfyconfig.toml` checks all of it.

| files | what they model |
|---|---|
| `Lifecycle`, `Leases`, `Reconciler` | tenant resources and their compare-and-swap repository, leases, and the reconcile run as a machine of atomic steps |
| `ReconcileInvariant`, `ReconcileSafety`, `ReconcileAnswers` | the invariant of every interleaving of runs and desired-state writes, what follows from it, and what every run answers |
| `ReconcileLiveness`, `ReconcileOutcome` | that an undisturbed run succeeds, and exactly what it leaves when it succeeds, fails or is refused a plan |
| `ReconcileProgram` | the imperative controller, proved to be a path of that machine while other runs and writers act between its calls |
| `Inbox`, `Dispatcher` | the message inbox with its claims, and any number of dispatches at once |
| `BinaryCopy` | the goroutine, pipe, hash and channel of the binary copy as one state machine |
| `Cluster` | an API server that others change between any two calls and that may fail any call |
| `AdminTls`, `InfrastructureGates`, `Infrastructure`, `InfrastructureExample` | the two create-only operators on that server, and a cluster on which the two-run result applies |
| `StorageGate`, `Paths` | the exclusive-storage check and the path overlap test under it |
| `Metadata`, `MallSettings` | the legacy metadata object and the settings transactions on it |
| `SchemaCheck` | the importer's index statements against the verifier's own schema check |
| `LikeSearch`, `Locale` | search patterns and language negotiation |
| `Basics`, `Sorting` | text and sorting shared by the others |

How the code is turned into a model:

- A call under a mutex, or one API, database or pipe call, is one atomic step. Everything that can
  happen between two steps is a parameter: other runs, other writers, cancellation, faults, lost
  answers. Planners, steps, handlers, endpoints and the clock are arbitrary.
- Code that works by updating state is a class or a loop, proved against a function or relation; the
  properties of interest are then proved of that function over all runs.
- Versions, generations, tokens and UIDs are unbounded naturals. The failure count wraps at 2^32 as
  in the source. Text is a sequence of characters.
- An API server keeps its whole history: every read, dry run and listing with its answer, in order,
  dry runs and listings with the turn that answered them, and every request to create with its place
  among them. What the operators guarantee is said about places in that history.
- JSON lexing, SHA-256, server-side defaulting and the field-by-field object checks are
  uninterpreted functions with the facts stated in `Metadata.Lawful` and in the two `Rules` types.

Where the code does less than its documentation says:

- The metadata encoder promises that unknown values keep their bytes exactly. That holds for every
  value that was decoded; a value handed in with white space around it comes back without it
  (`Metadata.RoundTripExactlyWhenClean`, `Metadata.PaddedExample`).
- The binary copy's digest covers the bytes the target consumed only if the source reports failed
  writes (`BinaryCopy.UnreportedFaultSucceeds`); for every schedule the two agree exactly when it reports each write that was cut part-way (`BinaryCopy.SuccessExactlyWhenReported`).
- The verifier's two-digit names are those of the writer only below position 100
  (`SchemaCheck.TwoDigitsExactlyBelowHundred`), so writer and checker expect different schemas from there on (`SchemaCheck.WriterMakesWhatIsExpected`).
- A default locale that differs from an enabled one by case alone is answered as it is spelled
  (`Locale.AlwaysEnabledExactlyWhen`).

## Model

| member | source | states |
|---|---|---|
| `ReconcileSafety.ReachableTerminalIsHonest` | services/reconciler/internal/controller/controller.go:75-158 | after any interleaving of reconcile runs, cancellations and desired-state writes, an up-to-date tenant in a terminal phase is Ready exactly if its desired state is ACTIVE and Suspended exactly if it is SUSPENDED, and has no current step, and a checkpoint of this generation for every step of the plan behind it |
| `ReconcileSafety.SuccessIsOneUnbrokenChain` | services/reconciler/internal/controller/controller.go:79-158 | a run that succeeds on an n-step plan made 2n+2 writes of consecutive versions right after the version it read, with nobody else's write among them, each with its prescribed content: Suspending exactly for SUSPENDED and Resuming exactly for an ACTIVE tenant read Suspended or Suspending first, in the end Ready for ACTIVE and Suspended for SUSPENDED with the matching condition, for the desired state it planned from |
| `ReconcileSafety.ConflictExactlyWhenOvertaken` | services/reconciler/internal/controller/controller.go:79-158 | a changed desired state committed after the read ends the run in a requeued conflict or a context error, and then the run never writes a terminal phase at all; a conflict in turn always means such a change |
| `ReconcileSafety.FailureIsRecorded` | services/reconciler/internal/controller/controller.go:161-200 | a run that ends in a step failure wrote Degraded last: the failing step's name, one more failure on the count it read, a Ready=False condition with the failure's code and message, and as retry time the clock plus the backoff exactly if the failure is retryable |
| `ReconcileSafety.WritesEndWithTheRun` | services/reconciler/internal/controller/controller.go:75-200 | in every reachable state a run has written no tenant but its own, and nothing before its read or after its outcome was fixed |
| `ReconcileSafety.ReachableBookkeeping` | services/reconciler/internal/controller/controller.go:161-319 | in every reachable state each resource is valid, the observed generation is at most the generation, checkpoints are distinct and none is ahead, at most one Ready condition exists, and a retry time is set only while Degraded |
| `ReconcileSafety.VersionsGoUpByOne` | internal/platform/lifecycle/memory_repository.go:53-119 | over any run every accepted write raises the version by one; status writes leave the desired state alone and desired-state writes leave the status alone and raise the generation by one |
| `ReconcileSafety.NoUpdateIsLost` | internal/platform/lifecycle/memory_repository.go:85-119 | over any run of actions every commit of a desired state came from a write that was sent for the very version it replaced |
| `ReconcileSafety.DesiredWriteTakesEffect` | internal/platform/lifecycle/memory_repository.go:85-119 | a desired-state write that is not cancelled, valid, different and sent for the stored version is committed with the next version and generation; any other leaves everything as it was |
| `ReconcileSafety.RunsNeverOverlap` | services/reconciler/internal/controller/controller.go:41-73 | two reconcile runs of one tenant are never both between acquiring and releasing their lease |
| `ReconcileSafety.HeldExactlyByRuns` | services/reconciler/internal/controller/lease.go:22-50 | the held tenants are exactly those of the runs that acquired and have not released |
| `ReconcileSafety.NothingHeldAtRest` | services/reconciler/internal/controller/controller.go:41-73 | when no run is under way no tenant is held |
| `ReconcileLiveness.UndisturbedRunSucceeds` | services/reconciler/internal/controller/controller.go:41-159 | from any reachable state a run for a tenant not held, over a valid n-step plan whose steps succeed, returns without error after 4n+5 undisturbed moves and leaves the tenant Ready if its desired state is ACTIVE and Suspended if it is SUSPENDED, observed at its generation |
| `ReconcileOutcome.UndisturbedSuccessIsExact` | services/reconciler/internal/controller/controller.go:41-159 | the whole resource such a run leaves: 2n+2 versions on, no failure count, retry time or current step, one fresh checkpoint for each step with what its Ensure saw and the clock, every other checkpoint kept, and the terminal condition; the answer says changed exactly if some Ensure did |
| `ReconcileOutcome.UndisturbedFailureIsExact` | services/reconciler/internal/controller/controller.go:90-200 | an undisturbed run whose k-th step fails: the k steps before it have their checkpoints, and the resource is Degraded with that step, its failure's code and message, one more failure counted, and the retry time and requeue of the backoff exactly if it is retryable |
| `ReconcileOutcome.UndisturbedRefusalIsExact` | services/reconciler/internal/controller/controller.go:79-88 | an undisturbed run without a valid plan fails at once with INVALID_PLAN, which is not retried, and leaves the checkpoints alone |
| `ReconcileAnswers.EveryAnswer` | services/reconciler/internal/controller/controller.go:41-200 | in every interleaving, for each way a run can end, what its answer says: the phase, whether and when to come back, and on success changed exactly if a recorded step changed something |
| `ReconcileAnswers.CancelledRunsStopWriting` | services/reconciler/internal/controller/controller.go:90-158 | in every interleaving a run commits nothing once it is cancelled |
| `ReconcileAnswers.UnreadableEndsTheRun` | services/reconciler/internal/controller/controller.go:57-78 | a read that is cancelled, finds no tenant or finds an invalid one ends the run with that error and writes nothing |
| `ReconcileSafety.ReturnedOutcome` | services/reconciler/internal/controller/controller.go:75-200 | what a finished run's result says about the writes of its tenant, for each way it can end |
| `ReconcileInvariant.MoveKeepsInv` | services/reconciler/internal/controller/controller.go:41-200 | one step of one run keeps the invariant behind the results above: frames, chains, leases, bookkeeping and honest terminal phases |
| `ReconcileInvariant.SpecWriteKeepsInv` | internal/platform/lifecycle/memory_repository.go:85-119 | a desired-state write keeps the same invariant |
| `ReconcileProgram.Serve` | services/reconciler/internal/controller/controller.go:41-159 | a controller that starts alone, with whatever writes and cancellations come between its calls, ends with the same result and repository where some interleaving of the step machine ends |
| `ReconcileProgram.ServeAmong` | services/reconciler/internal/controller/controller.go:41-159 | the same from any reachable state among other runs, which hold leases and take any steps of their own, as new runs may, between any two of its calls; the final repository, lease table and result are those of that interleaving, and afterwards exactly the tenants of other runs are held |
| `ReconcileProgram.MoveShares` | services/reconciler/internal/controller/controller.go:75-200 | what a step of any run changes for the others is exactly the effect of one compare-and-swap on the repository, or nothing; acquiring and releasing apart |
| `ReconcileProgram.DriveIsExec` | services/reconciler/internal/controller/controller.go:41-159 | driving the machine by the program's script is one of the interleavings the safety results quantify over |
| `ReconcileProgram.Controller.Reconcile` | services/reconciler/internal/controller/controller.go:41-159 | acquires, reads, plans, runs the steps and releases, its repository and run at every call those of the step machine |
| `ReconcileProgram.Controller.RunSteps` | services/reconciler/internal/controller/controller.go:90-134 | the loop over the steps: mark, ensure, checkpoint, each from the resource the last write returned |
| `ReconcileProgram.Controller.RecordFailure` | services/reconciler/internal/controller/controller.go:161-200 | writes the failure and answers the requeue or conflict of the step machine |
| `Reconciler.ValidatePlan` | services/reconciler/internal/controller/controller.go:221-239 | accepts exactly the plans without a missing step, empty name or version, or repeated name |
| `Reconciler.UpsertCheckpoint` | services/reconciler/internal/controller/controller.go:241-255 | replaces the checkpoint of the same step, version and generation, or appends |
| `Reconciler.SetCheckpointKeeps` | services/reconciler/internal/controller/controller.go:241-255 | checkpoints stay distinct and no other checkpoint is lost |
| `Reconciler.SetCheckpointCovers` | services/reconciler/internal/controller/controller.go:241-255 | a step that had a checkpoint of a generation still has one after any other is set |
| `Reconciler.UpsertCondition` | services/reconciler/internal/controller/controller.go:296-308 | replaces the condition of the same kind in place, or appends |
| `Reconciler.SetConditionCounts` | services/reconciler/internal/controller/controller.go:296-308 | a kind is present once after it is set if it was present at most once, and the count of other kinds is unchanged |
| `Reconciler.BackoffDoublesToAMinute` | services/reconciler/internal/controller/controller.go:310-319 | the delay after k failures is the smaller of 2^(k-1) and 64 seconds |
| `Lifecycle.LoadedIff` | internal/platform/lifecycle/memory_repository.go:18-35 | loading succeeds exactly for valid resources of distinct tenants |
| `Lifecycle.LoadedStores` | internal/platform/lifecycle/memory_repository.go:18-35 | a successful load stores one entry for each given resource, a blank phase as Pending, and nothing else |
| `Lifecycle.ValidMeans` | internal/platform/lifecycle/resource.go:80-117 | the checks on a tenant name and on a resource, one by one |
| `Lifecycle.MemoryRepository.Load` | internal/platform/lifecycle/memory_repository.go:18-35 | the loop accepts exactly what the specification accepts and stores its table |
| `Lifecycle.MemoryRepository.Get` | internal/platform/lifecycle/memory_repository.go:37-51 | answers the stored resource, the missing key or the cancellation |
| `Lifecycle.MemoryRepository.CompareAndSwapStatus` | internal/platform/lifecycle/memory_repository.go:53-83 | the whole new table and answer for each of the cancelled, missing, stale, invalid and accepted cases |
| `Lifecycle.MemoryRepository.UpdateSpec` | internal/platform/lifecycle/memory_repository.go:85-119 | the whole new table and answer for each case: cancelled, invalid, missing, sent for another version than the stored one, unchanged, and accepted |
| `Leases.EveryRunExclusive` | services/reconciler/internal/controller/lease.go:22-50 | over any run of acquire and release calls each held tenant has exactly one live lease and every live lease's tenant is held |
| `Leases.AcquireExclusive` | services/reconciler/internal/controller/lease.go:22-42 | acquiring succeeds exactly for a tenant not held, and keeps exclusivity |
| `Leases.ReleaseExclusive` | services/reconciler/internal/controller/lease.go:44-50 | releasing a spent lease changes nothing, so it never frees a later holder |
| `Leases.MemoryLeaseManager.AcquireLease` | services/reconciler/internal/controller/lease.go:22-42 | the held set and the issued lease are those of the specification |
| `Leases.MemoryLease.ReleaseLease` | services/reconciler/internal/controller/lease.go:44-50 | frees the tenant the first time only |
| `Inbox.TokensRefineOwners` | services/worker/internal/dispatch/inbox.go:14-121 | every call of every run is answered as by a token-free map from keys to absent, in progress for an owner, or done |
| `Inbox.AtMostOneLiveClaim` | services/worker/internal/dispatch/inbox.go:60-121 | at any time at most one issued claim of a key can be completed or released |
| `Inbox.CompletedForGood` | services/worker/internal/dispatch/inbox.go:60-103 | once completed a message stays completed: later claims on it fail and every later valid Begin reports a duplicate |
| `Inbox.ReleasedForGood` | services/worker/internal/dispatch/inbox.go:105-121 | a released claim never has an effect again, whoever holds its key by then |
| `Inbox.MemoryInbox.BeginMessage` | services/worker/internal/dispatch/inbox.go:60-84 | the new state and the claim, duplicate or error of the specification |
| `Inbox.MemoryInbox.CompleteClaim` | services/worker/internal/dispatch/inbox.go:86-103 | marks the entry completed only for its current claim |
| `Inbox.MemoryInbox.ReleaseClaim` | services/worker/internal/dispatch/inbox.go:105-121 | deletes the entry only for its current claim |
| `Dispatcher.OwnersNeverLoseTheirClaim` | services/worker/internal/dispatch/dispatcher.go:69-105 | with any number of dispatches interleaving, completing and releasing never fail for their owner |
| `Dispatcher.OneHandlerPerKey` | services/worker/internal/dispatch/dispatcher.go:86-104 | two handlers never run at once for one message |
| `Dispatcher.QuietMeansSettled` | services/worker/internal/dispatch/dispatcher.go:86-104 | once no dispatch is working every message is absent or completed |
| `Dispatcher.HandledExactlyOnce` | services/worker/internal/dispatch/dispatcher.go:86-104 | Handled is reported at most once per message, never for one completed before, and a message is completed in the end exactly when it was at first or a dispatch handled it |
| `Dispatcher.TenantsAreIsolated` | services/worker/internal/dispatch/dispatcher.go:69-105 | however long other tenants' messages are dispatched, a tenant's entries stay as they are |
| `Dispatcher.OnlyRoutableMessagesAreClaimed` | services/worker/internal/dispatch/dispatcher.go:69-105 | over every run a dispatch that has a claim, or reported Handled, is for a valid envelope of a registered kind and version, and every report is one the source can give for its envelope |
| `Dispatcher.RefusedDispatchTouchesNothing` | services/worker/internal/dispatch/dispatcher.go:69-92 | in any state and whatever others do, an invalid envelope, an unregistered kind, or a cancellation before the message is claimed leaves the inbox as it was and is answered by its own error alone |
| `Dispatcher.DisturbedDispatch` | services/worker/internal/dispatch/dispatcher.go:86-105 | a new message whose inbox is changed by others during its handler: what is left and reported depends exactly on whether its claim is still there |
| `Dispatcher.EnvelopeValidMeans` | internal/platform/jobs/envelope.go:27-47 | the checks on an envelope, one by one |
| `Dispatcher.JobDispatcher.DispatchEnvelope` | services/worker/internal/dispatch/dispatcher.go:69-105 | one dispatch, with arbitrary other inbox calls during its handler, ends with the inbox and outcome of the step machine, lost claims included; an invalid envelope or one without a handler is answered by its own error and leaves the inbox as it was |
| `Dispatcher.UndisturbedDispatch` | services/worker/internal/dispatch/dispatcher.go:69-105 | undisturbed, a new message is handled and completed, or taken back and requeued if its handler fails; a completed one is a duplicate and one in progress is requeued |
| `Dispatcher.DispatchIsExec` | services/worker/internal/dispatch/dispatcher.go:69-105 | alone on the inbox, a dispatch is four moves of the machine the results above quantify over |
| `Dispatcher.DispatchAmongOthersIsExec` | services/worker/internal/dispatch/dispatcher.go:69-105 | a dispatch, cancelled or not, whose handler runs while other dispatches take any steps, ends with the inbox and outcome of a run of the machine: two moves, those steps, two moves |
| `Dispatcher.CallsAreMade` | services/worker/internal/dispatch/inbox.go:60-121 | what any run of dispatch steps does to the inbox is what the inbox calls of those steps do |
| `Dispatcher.New` | services/worker/internal/dispatch/dispatcher.go:48-67 | the registration loop builds the specified table or reports the first refusal |
| `Dispatcher.RegisteredIff` | services/worker/internal/dispatch/dispatcher.go:48-67 | registration succeeds exactly for well-formed handlers with distinct keys |
| `Dispatcher.RegisteredStores` | services/worker/internal/dispatch/dispatcher.go:48-67 | the table holds exactly the given handlers, each under its own kind and version |
| `BinaryCopy.SuccessMeans` | services/legacy-importer/internal/importer/copy.go:53-88 | in every schedule and whatever the endpoints do, success means equal non-negative row counts and a digest of exactly the completed writes; the target consumed those bytes exactly when no write was cut part-way |
| `BinaryCopy.SuccessCopiesEveryByte` | services/legacy-importer/internal/importer/copy.go:53-88 | with a source that reports failed writes, success means the bytes written, consumed and hashed are the same |
| `BinaryCopy.SuccessExactlyWhenReported` | services/legacy-importer/internal/importer/copy.go:53-88 | of any successful copy: the digest covers exactly what the target consumed if and only if the source returns an error once a write of its was cut short, and both are what the source wrote if and only if it does so once a non-empty write failed |
| `BinaryCopy.OutcomeIsThatOfTheReports` | services/legacy-importer/internal/importer/copy.go:68-88 | in every schedule a finished copy succeeded exactly if both endpoints returned without an error and with the same row count, zero included; it reports the source's error if there was one, else the target's, and a difference in rows only if neither failed |
| `BinaryCopy.UnreportedFaultSucceeds` | services/legacy-importer/internal/importer/copy.go:53-88 | a schedule in which a source that hides a failed write lets the digest miss a consumed byte |
| `BinaryCopy.BlockedOnlyWhenOverOrHung` | services/legacy-importer/internal/importer/copy.go:53-88 | the pipe and the channel never block anyone for good: a blocked copy is over, or an endpoint hangs on its own connection and nothing was cancelled |
| `BinaryCopy.ErrorsAndCancellationEndTheCopy` | services/legacy-importer/internal/importer/copy.go:53-75 | once the target returned an error or the caller cancelled, even a source that hangs on its own connection cannot hold up the copy |
| `BinaryCopy.EveryScheduleEnds` | services/legacy-importer/internal/importer/copy.go:53-88 | every schedule of endpoints that stop on an error or the end is bounded by what the source wrote |
| `BinaryCopy.TargetStopEndsTheCopy` | services/legacy-importer/internal/importer/copy.go:68-75 | once the target has stopped, at most eight more steps happen, however much the source still has to write |
| `BinaryCopy.NoGoroutineIsLeft` | services/legacy-importer/internal/importer/copy.go:58-75 | when the function has returned the source goroutine has ended and the context is cancelled |
| `Cluster.ApiServer.Create` | services/reconciler/cmd/stage-admin-tls/main.go:550-554 | a create adds an object with a fresh UID or changes nothing; it never alters an object that is there, and its answer can be lost |
| `AdminTls.Converge` | services/reconciler/cmd/stage-admin-tls/main.go:352-413 | only creates, at most one per identity and in inventory order; the created list is exactly the answered ones; without apply nothing is written and the list is what one full preflight found; every request comes right behind a full preflight that found all known UIDs unchanged and the entry absent, one more check of the Namespace and one more read, and each but the last of a failed run is answered exact and read back at once, exact, with the answered UID; success means the run ends with a full preflight that sees each entry with its UID, the one the second preflight saw if it is retried, the one answered to its own request if it is created; and on a calm server with nothing to object to it succeeds and retries exactly what was there |
| `AdminTls.CreateMissing` | services/reconciler/cmd/stage-admin-tls/main.go:376-413 | the create loop keeps the recorded UIDs, makes every request with the care above, stops at the first raced, replaced or unconfirmed object, and completes the inventory otherwise, always on a calm server |
| `AdminTls.CreateOne` | services/reconciler/cmd/stage-admin-tls/main.go:381-400 | one missing entry: another full preflight, the recorded UIDs unchanged in it, and one request right behind it that is read back, or a stop |
| `AdminTls.Confirm` | services/reconciler/cmd/stage-admin-tls/main.go:401-413 | success only if every identity has a recorded UID and the final preflight sees each of them unchanged |
| `AdminTls.TrackedCompletes` | services/reconciler/cmd/stage-admin-tls/main.go:401-413 | a final preflight that finds every recorded UID unchanged confirms the whole inventory |
| `AdminTls.FoundReports` | services/reconciler/cmd/stage-admin-tls/main.go:353-366 | a dry run lists exactly the identities that one full preflight found present, in inventory order |
| `AdminTls.Preflight` | services/reconciler/cmd/stage-admin-tls/main.go:435-475 | succeeds only with the Namespace in order and, for every entry in the approved order, a reading and the dry run that follows it, exact against its answer where present; and requests nothing |
| `AdminTls.PreflightEntry` | services/reconciler/cmd/stage-admin-tls/main.go:444-473 | one reading and a dry run of the entry, as a create when absent and as an update of the version read when present, accepted only when absent or exact against what the dry run answered, and always when it is fit on a calm server |
| `AdminTls.InspectAmbiguousCreate` | services/reconciler/cmd/stage-admin-tls/main.go:573-591 | the failure says what one more read of the identity showed |
| `AdminTls.ValidateExpectedUids` | services/reconciler/cmd/stage-admin-tls/main.go:415-433 | accepts exactly a full inventory in which every recorded UID is present and unchanged |
| `AdminTls.CreateAndVerify` | services/reconciler/cmd/stage-admin-tls/main.go:535-571 | at most one request, right behind a check of the Namespace and a read that found the identity absent; a confirmed UID was answered to it and seen by the very next read, exact |
| `AdminTls.MadeNext` | services/reconciler/cmd/stage-admin-tls/main.go:385-399 | one more request for the next missing entry keeps the requests in inventory order |
| `Infrastructure.Converge` | services/reconciler/cmd/stage-infrastructure/main.go:434-562 | under arbitrary interference: nothing is requested before the first full reading and the checks of everything it found; creates in inventory order, each dry-run before and read back exact at once, with at most one unconfirmed request in a failed run; a Pod only with all nine NetworkPolicies checked in the eighteen calls right before its request, a StatefulSet only with those and then the storage gate as the very last calls before it, ending in the two agreeing listings, and all of that begun after the second reading; a StatefulSet only if the first read saw every PersistentVolumeClaim and every Pod present; apart from the Namespace only what a second reading of everything missing found absent, and nothing more if that reading saw a StatefulSet; on success created and retried split the inventory, and what raced is retried only if it passed its checks; and on a calm server exactly what RanCalmly says |
| `Infrastructure.StageEmptyCluster` | services/reconciler/cmd/stage-infrastructure/main.go:434-562 | without interference and with claims bound between runs, an empty cluster is complete after exactly two runs, the first stopping before any StatefulSet, and every later run creates nothing |
| `InfrastructureExample.RunExample` | services/reconciler/cmd/stage-infrastructure/main.go:434-562 | the assumptions of the two-run result hold together: for a server that stores what it is given the two runs create exactly the first twenty and the last four entries |
| `Infrastructure.CreatePending` | services/reconciler/cmd/stage-infrastructure/main.go:540-561 | the create loop: the gates of each Pod and StatefulSet begin after the second reading and are the very last calls before its request; no StatefulSet while a claim or binder was missing at first, a prefix of the pending entries created and read back exact |
| `Infrastructure.CreateNext` | services/reconciler/cmd/stage-infrastructure/main.go:541-559 | one entry: its gates, whole and without another call among them, then at most one request made by the very next call, none for a StatefulSet while binding is new, and success only if it is read back exact against its dry run |
| `Infrastructure.CreateAndVerify` | services/reconciler/cmd/stage-infrastructure/main.go:580-608 | one request, confirmed only by an answer and by the very next reading, which passes every check against the dry run |
| `Infrastructure.SecondReads` | services/reconciler/cmd/stage-infrastructure/main.go:513-529 | re-reads every missing entry, splits them into pending and raced, lets a raced one pass only if it passes every check against its dry run, and notices exactly the raced StatefulSets |
| `Infrastructure.AdmitNamespace` | services/reconciler/cmd/stage-infrastructure/main.go:487-502 | the missing Namespace is dry-run and read again before any other dry run, then requested right behind a read that found it absent, or taken as raced if it passes every check against the dry run |
| `Infrastructure.Observe` | services/reconciler/cmd/stage-infrastructure/main.go:435-474 | one reading of every entry in order and a fit StorageClass; each present entry canonicalised by a dry run and passed every check; and both gates last if a StatefulSet is present |
| `Infrastructure.GatesComeLast` | services/reconciler/cmd/stage-infrastructure/main.go:540-561 | read off the history right before a guarded request: a Pod comes right behind its nine policies, each with its dry run, and a StatefulSet right behind two agreeing listings, its policies further back; all of it after the second reading |
| `Infrastructure.StatefulSetsNeedStorage` | services/reconciler/cmd/stage-infrastructure/main.go:444-555 | for the reviewed inventory, a run that asks for any StatefulSet read both claims and both binder Pods present in its first reading, before it asked for anything |
| `Infrastructure.GuardedKept` | services/reconciler/cmd/stage-infrastructure/main.go:546-556 | what guarded a request stays true of the history for ever |
| `Infrastructure.PlanInOrder` | services/reconciler/cmd/stage-infrastructure/main.go:476-529 | what is created, Namespace first and raced entries left out, is a beginning of the inventory order |
| `Infrastructure.PartitionOf` | services/reconciler/cmd/stage-infrastructure/main.go:444-529 | existing, raced, created and pending entries split the inventory without overlap |
| `Infrastructure.InventoryIsShaped` | services/reconciler/cmd/stage-infrastructure/main.go:64-89 | the reviewed inventory has distinct identities and the kinds where the stage relies on them |
| `InfrastructureGates.VerifyNetworkPolicies` | services/reconciler/cmd/stage-infrastructure/main.go:762-793 | passes only with eighteen calls, each of the nine policies read in order and at once dry-run with its server-owned fields, and exact against that answer; on a calm server whenever they are |
| `InfrastructureGates.VerifyStorageAdmission` | services/reconciler/cmd/stage-infrastructure/main.go:806-863 | passes only if its calls were these and no other: both claims read in order, exact and bound, then both binders, exact on their nodes, then as the last two calls two answered listings, exclusive for them and holding the same volumes; on a calm server whenever that is so |
| `InfrastructureGates.ClaimsSitWithBinders` | services/reconciler/cmd/stage-infrastructure/main.go:806-902 | when that gate passed, in both of its last two listings the volume of each claim names it and sits on the node on which the claim's own binder Pod was read |
| `InfrastructureGates.ReadBinderNodes` | services/reconciler/cmd/stage-infrastructure/main.go:865-902 | the node of each claim's binder Pod, each read and at once dry-run in order with no call between, exact against its own dry run without pinning, and an unaltered binder |
| `InfrastructureGates.ValidateClaimBinding` | services/reconciler/cmd/stage-infrastructure/main.go:1073-1142 | accepts exactly when what it read shows the claim unbound with a live selected node, or bound to its volume with that volume's node live |
| `StorageGate.ValidateSnapshot` | services/reconciler/cmd/stage-infrastructure/main.go:904-989 | accepts a snapshot exactly when names are unique, each claim's volume is bound to it on its binder's node, targets on one node do not overlap, and no other volume keeps a claim identity or a colliding path; independent of the order of the claims |
| `StorageGate.LocateClaims` | services/reconciler/cmd/stage-infrastructure/main.go:920-945 | finds the claims' locations in any order of iteration, failing exactly if a claim is not backed or two targets overlap |
| `StorageGate.IsHarmless` | services/reconciler/cmd/stage-infrastructure/main.go:947-973 | rejects exactly the foreign volumes that keep a claim identity or collide with a target path |
| `StorageGate.AcceptedIsExclusive` | services/reconciler/cmd/stage-infrastructure/main.go:904-973 | in an accepted snapshot no other volume that could sit on a claim's node has a path at, above or below the claim's path |
| `StorageGate.AcceptedMeansExclusive` | services/reconciler/cmd/stage-infrastructure/main.go:904-1019 | a snapshot is accepted exactly if, in terms of names, directories as lists of names, and nodes: names tell volumes apart, each claim has its volume on its binder's node in one local directory below the root, no other volume that could sit there has a directory at, above or below it, and no other volume refers to a claim by name in the environment or by UID |
| `StorageGate.FingerprintForgetsOrder` | services/reconciler/cmd/stage-infrastructure/main.go:975-988 | two snapshots have the same sorted inventory exactly when they hold the same volumes |
| `Paths.OverlapIsNesting` | services/reconciler/cmd/stage-infrastructure/main.go:1008-1019 | two rooted paths overlap exactly when the components of one are a prefix of those of the other |
| `Paths.CleanIsIdempotent` | services/reconciler/cmd/stage-infrastructure/main.go:1002-1010 | cleaning a cleaned rooted path changes nothing |
| `Paths.OnePieceMore` | services/reconciler/cmd/stage-infrastructure/main.go:1002-1010 | what one more piece does to the components of a path: nothing for an empty one or a dot, two dots take the last one back, or stay when there is none and the path is not rooted |
| `Paths.OnePiece` | services/reconciler/cmd/stage-infrastructure/main.go:1002-1010 | the components of a path of one piece, rooted or not |
| `Metadata.RoundTripExactlyWhenClean` | apps/mall-platform/internal/modules/mallsettings/repository.go:296-361 | an encoded object decodes to itself exactly when every key is a string JSON can carry and no raw value has white space around it |
| `Metadata.LawsCanBeMet` | apps/mall-platform/internal/modules/mallsettings/repository.go:296-361 | the facts assumed of JSON hold together: documents of strings and single digits, with white space around them, satisfy them |
| `Metadata.PaddedValueDoesNotComeBack` | apps/mall-platform/internal/modules/mallsettings/repository.go:296-361 | an encoded object with a padded raw value decodes to another object |
| `Metadata.PaddedExample` | apps/mall-platform/internal/modules/mallsettings/repository.go:296-361 | under a lawful codec the object with the raw value 1 behind a blank is encoded as it is and decodes to another object |
| `Metadata.DecodedObjectsComeBack` | apps/mall-platform/internal/modules/mallsettings/repository.go:296-361 | whatever decodes can be encoded again and decodes to the same object |
| `Metadata.EncodingIsUnique` | apps/mall-platform/internal/modules/mallsettings/repository.go:296-322 | the encoding depends on the object alone, not on the order of iteration |
| `Metadata.MergeSetsOnlyReviewed` | apps/mall-platform/internal/modules/mallsettings/repository.go:268-290 | after a merge every other key keeps its value byte for byte, and the four settings read back as the new ones exactly when JSON can carry them |
| `Metadata.MergeGeneral` | apps/mall-platform/internal/modules/mallsettings/repository.go:268-290 | refuses what does not decode, else writes the object with the four keys set |
| `Metadata.EncodeObject` | apps/mall-platform/internal/modules/mallsettings/repository.go:296-322 | refuses a value that is not JSON, else writes the members in key order |
| `Metadata.DecodeObject` | apps/mall-platform/internal/modules/mallsettings/repository.go:324-361 | the decoding loop accepts exactly the texts of the grammar, refusing repeated keys and trailing text |
| `Metadata.DecodedExactly` | apps/mall-platform/internal/modules/mallsettings/repository.go:324-361 | a text decodes to an object exactly if, once trimmed, it is empty, null, or an object in braces that lists those members with colons and commas, each key once, with JSON white space anywhere between and nothing behind |
| `Metadata.GeneralMeans` | apps/mall-platform/internal/modules/mallsettings/repository.go:241-266 | a document reads as given settings exactly if its four fields say them, a missing field or null saying the empty text |
| `MallSettings.EveryRunKeeps` | apps/mall-platform/internal/modules/mallsettings/repository.go:85-166 | over any run of transactions at most one row stays active, soft-deleted rows and those of other tenants and names never change, and a reader gets the last committed settings |
| `MallSettings.CommitKeepsOthers` | apps/mall-platform/internal/modules/mallsettings/repository.go:105-157 | a committed write leaves one active row that reads back as the settings, and every inactive row as it was |
| `MallSettings.Repository.PutGeneral` | apps/mall-platform/internal/modules/mallsettings/repository.go:85-166 | on an error the table is as before; a commit updates the one active row or adds a fresh one; and it commits exactly when nothing fails, at most one row is active, its document decodes, the values can be carried and a new id is unused; an error is that of its case |
| `MallSettings.Repository.GetGeneral` | apps/mall-platform/internal/modules/mallsettings/repository.go:65-80 | empty settings without an active row, a conflict with two, else the decoded document |
| `MallSettings.FindRows` | apps/mall-platform/internal/modules/mallsettings/repository.go:175-189 | the first two active rows of the tenant by id |
| `SchemaCheck.ValidateTargetSchema` | services/legacy-importer/cmd/legacy-import-verifier/main.go:474-514 | accepts only permutations of the expected schema with matching columns, and for a well-formed manifest all of them |
| `SchemaCheck.WriterMakesWhatIsExpected` | services/legacy-importer/internal/importer/sql.go:58-91 | the schema the writer makes is the one the checker expects, entry by entry, exactly when no table has an ordinary index at position 100 or beyond |
| `SchemaCheck.AgreesMeansWritten` | services/legacy-importer/cmd/legacy-import-verifier/main.go:474-514 | for a well-formed manifest the check accepts exactly the permutations of what the writer makes |
| `SchemaCheck.TwoDigitsExactlyBelowHundred` | services/legacy-importer/cmd/legacy-import-verifier/main.go:528-533 | the checker's two digits are those of %02d exactly below one hundred |
| `SchemaCheck.EntriesSpelled` | services/legacy-importer/internal/importer/sql.go:58-91 | the statement for each index of each table in order, and the index the checker expects at the same place, with their names written out |
| `SchemaCheck.ConstraintsSpelled` | services/legacy-importer/cmd/legacy-import-verifier/main.go:484-491 | the expected constraints are exactly the primary keys under their written-out names |
| `SchemaCheck.IndexKeysDistinct` | services/legacy-importer/cmd/legacy-import-verifier/main.go:484-491 | expected indexes of a well-formed manifest have distinct table and name |
| `SchemaCheck.CreateIndexStatements` | services/legacy-importer/internal/importer/sql.go:58-91 | one statement for each index in order, refused if an index has no columns |
| `SchemaCheck.SqlIsUnderstood` | services/legacy-importer/internal/importer/sql.go:69-119 | whatever characters the identifiers hold, the text of a statement reads back as exactly its table, name and columns |
| `SchemaCheck.SameWhenSorted` | services/legacy-importer/cmd/legacy-import-verifier/main.go:493-512 | comparing sorted inventories decides whether they are permutations of each other |
| `LikeSearch.ThreePassesAreOne` | apps/mall-platform/internal/modules/legacycheckpoint/service_generated.go:385-389 | the three replacements amount to escaping each special character once |
| `LikeSearch.PatternMeansContains` | apps/mall-platform/internal/modules/legacycheckpoint/service_generated.go:266-276 | the escaped pattern between percent signs matches a text exactly when the text contains what was typed |
| `LikeSearch.EscapingMattersExactly` | apps/mall-platform/internal/modules/legacycheckpoint/service_generated.go:266-276 | without the escaping the pattern would be right for every text exactly when what was typed holds no exclamation mark, percent sign or underscore |
| `LikeSearch.SelectedExactly` | apps/mall-platform/internal/modules/legacycheckpoint/service_generated.go:266-288 | a row is listed exactly when its resource or evidence contains the lowered text and the given filters hold |
| `Locale.Negotiate` | services/storefront-api/internal/locale/negotiate.go:15-35 | sorting and scanning gives the choice of the one-pass search for the best usable preference, else the fallback |
| `Locale.NegotiatedMeans` | services/storefront-api/internal/locale/negotiate.go:15-83 | an answer is the one given exactly if, read off the header's text, it is what the tag of the highest positive quality picks, the earliest of equals, among the tags that pick anything, or the default if none does; with the aliases for Chinese and English, the asterisk, and the last valid quality parameter written out |
| `Locale.FirstOfRankedIsBest` | services/storefront-api/internal/locale/negotiate.go:24-33 | the first usable preference of a ranked list is the one the one-pass search finds |
| `Locale.BestIsBest` | services/storefront-api/internal/locale/negotiate.go:64-69 | that preference is listed and usable and no usable one has a higher quality or the same quality at an earlier place |
| `Locale.Parse` | services/storefront-api/internal/locale/negotiate.go:37-71 | a ranked permutation of the tags whose quality is valid and above zero |
| `Locale.UnusableTagsAreIgnored` | services/storefront-api/internal/locale/negotiate.go:46-62 | a tag whose quality is zero, malformed, out of range or not a number plays no part |
| `Locale.AlwaysEnabledExactlyWhen` | services/storefront-api/internal/locale/negotiate.go:15-35 | every header is answered by an enabled locale exactly when the default is spelled as one, or matches none but for case and there is one to take its place |
| `Locale.SpellingCounterexample` | services/storefront-api/internal/locale/negotiate.go:20-34 | a default that differs from an enabled locale by case alone is answered as it is spelled |
| `Sorting.SortForgetsOrder` | services/reconciler/cmd/stage-infrastructure/main.go:975-982 | sorting by a distinct key gives the same list whatever order the items came in |
| `Sorting.BeforeOfPairs` | services/legacy-importer/cmd/legacy-import-verifier/main.go:534-549 | of two sort keys the first strings decide, and the second ones when those are equal |
| `Sorting.LeMeans` | services/legacy-importer/cmd/legacy-import-verifier/main.go:534-549 | a string comes no later than another exactly if it begins it or is smaller at the first difference |
| `Basics.TrimMeans` | services/storefront-api/internal/locale/negotiate.go:41-50 | trimming takes off exactly the white space at both ends |
| `Basics.SpacesByCode` | services/storefront-api/internal/locale/negotiate.go:41-50 | the white space that is trimmed, by code point |
| `Basics.SplitMeans` | services/storefront-api/internal/locale/negotiate.go:38-40 | the pieces hold no separator and give the text again with separators between them |

## Left out

- Pointers and aliasing: `Clone` and `DeepCopy` are identities on values, so a caller that mutates a returned object in place is not modelled.
- Lengths of identifiers are counted in characters where the source counts bytes.
- Machine-integer overflow of versions, generations, tokens and row counts.
- A handler, planner or step that panics: a panicking handler leaves its claim in progress.
- Whether a read of the binary copy ends with the end of the stream or with the source's error: either way the target reads no more.
- Real time: clocks are arbitrary integers, and backoff delays are not waited for.
- The in-place update of a returned `StepError` by the failure classifier.
- Failure texts, and the sorted name lists inside them; only the kind of each failure is kept.
- Field-by-field validation of Kubernetes objects, labels and annotations: uninterpreted rules. The merge of server-owned fields before a dry-run update is one such rule.
- InfrastructureGates.ReadBinderNodes: binder Pods are read in inventory order, while the source ranges over a map; the results do not depend on the order.
- The live-node lookup inside the review of a listed volume is part of its uninterpreted verdict.
- Kubernetes, PostgreSQL, SQLite and file-system internals; transactions run one after the other, as the lock in front of them makes them.
- PostgreSQL's truncation of index names over 63 bytes.
- BinaryCopy.EveryScheduleEnds: reads into an empty buffer are part of the machine, but the bound assumes buffers with room.
- Infrastructure.CreateAndVerify: the five texts for an ambiguous create are one failure; `AdminTls.InspectAmbiguousCreate` keeps its four apart.
- Infrastructure.Converge: the retried list of a failed run is not described.
- Two copies of the controller program side by side: each is covered with the other as a run of the step machine, not the pair at once.
- How a server lists its volumes is an uninterpreted function of the stored volumes.
- The other create-only operators, manifest rendering, option parsing, HTTP controllers, authorization, menu migrations and web code: they repeat these patterns or hold no hard property.
- Member-level storage: the repository behind it is not part of this model.
