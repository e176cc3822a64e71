# Roze DTM in Dafny

A model of the coordinator of Roze DTM, a distributed transaction manager, with proofs of what its
protocols keep over whole runs.

## What is modelled

The coordinator runs Sagas (sequential, or concurrent over a dependency graph), TCC, XA and two-phase
Message transactions. An operation loads a record, claims branch barriers, calls branches, and writes
the record back. Each protocol is a state machine over these steps. A branch call has an arbitrary
outcome, and a worker can stop at any step. An event that its worker is not ready for changes nothing,
so every theorem over event lists holds for every run and every interleaving.

| file | part of the system |
|---|---|
| `Core`, `Edits` | records, branches, barrier decision, observable log, edits of a local copy |
| `DependencyGraph`, `Layers`, `CompatOrders` | depth-first cycle check, layered execution and compensation, order tables of compatibility requests |
| `BarrierProtocol` | claim, call, answer, release by any number of workers |
| `ConcurrentSaga`, `ConcurrentSagaSafety`, `ConcurrentSagaPasses`, `ConcurrentSagaLayers`, `ConcurrentSagaRetries`, `ConcurrentSagaAborts`, `ConcurrentSagaBarriers` | dependency-graph Saga, any number of workers, revision-checked writes |
| `Message`, `MessageSafety`, `MessagePasses`, `MessageDispatch`, `MessageBarriers` | two-phase Message, any number of workers, revision-checked writes, recovery ticks |
| `SequentialSaga`, `SequentialSagaSafety`, `SequentialSagaPasses`, `SequentialSagaRetries`, `SequentialSagaOrder`, `SequentialSagaUnwinding`, `SequentialSagaStops` | sequential Saga, one pass at a time, blind overwrites |
| `TwoPhase`, `TwoPhaseSafety`, `TwoPhasePasses`, `TwoPhaseRetries`, `TwoPhaseBranches`, `TwoPhaseDecisions`, `TwoPhaseMixing`, `TwoPhaseOrphans` | TCC and XA, one pass at a time, registration, recovery ticks |
| `Attempts` | counting failed calls against retry limits |
| `Recovery`, `Administration` | the recovery tick, and the requests that only edit the record |
| `OverlappingPasses` | sequential Saga, TCC and XA passes that overlap on one barrier table |
| `RedisStore`, `StoreContract` | compare-and-swap on payload and revision, and that the machines write within its contract |
| `RecoveryLease` | epoch-fenced recovery lease |
| `SqlBarriers` | in-memory and SQL barrier tables |
| `Ordering`, `Retention`, `RetentionCoverage` | sorting, retention purge, and that it removes every barrier a run leaves |
| `Topics` | versioned topic subscriptions |
| `Pagination`, `Calendar`, `CalendarText` | cursor pagination, RFC 3339 timestamps and their text |

Machines whose store checks revisions run any number of workers at once. Sequential Saga, TCC and XA
are stated for passes that do not overlap, because the in-memory and SQL stores overwrite blindly; what
does not depend on the record, at most one success for a barrier, is proved for overlapping passes too.

## Where the code does not do what one would expect

Each item names a concrete run or input, and the lemmas that say exactly when the property holds.

- `abort_saga` on a sequential Saga calls compensations before `Aborting` is stored. If it stops there
  and the stored status still goes forward, the next start pass resumes the Saga
  (`UnsafeAbortTurnsBack`, `UnsafeIsReachable`). A Saga never turns back when every abort request finds
  `SafeToAbort` (`Aborting` is stored already, or the pass has nothing to call), and every request that
  does not find it has a run that turns back. Recovery of an expired Saga (src/lib.rs:4976-4978) makes
  such a request.
- For the same reason compensations can run out of order: with two branches, the first is compensated,
  then the second one runs and is compensated (`OrderFails`). The order is strictly decreasing when no
  abort request is `Risky` (it would call, a start pass would resume, and that pass can still bring a
  branch to be owed a compensation), and every risky request has a run that breaks it
  (`UnriskyAbortsGoDownwards`, `RiskyAbortBreaksOrder`).
- `confirm_tcc` and `commit_xa` entered at `Prepared` call branches before `Succeeding` is stored, and
  the undo operations do the same before `Aborting` is stored. `docs/dtm.md:182` says that the decision
  is persisted first; that is true of `schedule_submit`, not of the direct operations. The decision comes
  first exactly when every request is `Safe`. A one-branch TCC transaction is confirmed and cancelled in
  `StoppedConfirmIsCancelled`; no run does both when no request finds `MayMix` (it calls before its
  decision is stored, and leaves the way to the other decision open), and every request that finds it has
  a run that does (`NeverMixes`, `MayMixMixes`).
- Submission does not check the ids of TCC and XA branches (src/lib.rs:5211-5228). A branch that repeats
  an id is never called, and the transaction still succeeds (`RepeatedIsNeverCalled`,
  `SucceedsWithoutStops`): a run without stops that stores `Succeeded` committed every branch if and only
  if the submitted ids differ (`CommittedIffUnique`).
- In-order Message dispatch goes past a branch whose barrier is held. Two overlapping dispatches can
  store `Succeeded` although the only call failed, without any crash (`OverlapLosesDelivery`). Stored
  `Succeeded` means delivered when every dispatch of the decided Message finds `SafeToDispatch` (every held
  barrier stands for a delivery, and no other dispatch is about to claim one), and every other one, by
  request or by recovery, has a run that loses a delivery (`UnsafeDispatchLoses`).
- Aborting a concurrent Saga compensates what is on record. A success that is answered but not yet stored
  when another worker's abort is accepted is never compensated, with no crash at all
  (`AbortOvertakesSuccess`). Aborted means that every success was compensated when every abort is
  `Clean`, and after an unclean one no continuation compensates the branch (`UncleanAbortLoses`).
- A pass of a sequential Saga that stops between an action's answer and the write that records it loses
  that compensation for good (`StopLosesCompensation`, `StoppedSuccessIsAborted`); no other stop loses
  one (`FinalStatus`).
- A commit barrier orphaned by a stopped TCC or XA pass can cost the commit (`OrphanCostsCommit`); exactly
  the orphaned commits are missing from a transaction stored as `Succeeded` (`ExactlyOrphansAreMissing`).
- A TCC transaction that is still being confirmed at its deadline is cancelled by the recovery tick, and
  `cancel_tcc` refuses it. The refusal ends the tick, so nothing listed after it is recovered
  (`RefusedIff`, `Tick`, `WedgeIsReachable`). It is the only choice of a tick that its operation refuses.
- A saturated revision no longer detects a conflict (`SaturatedRevisionLosesUpdates`); below it, every
  accepted write is an atomic one (`SwapRefinesAtomicWrite`).
- The joined text key of the SQL barrier table confuses ids that contain a colon (`ColonsCollide`). Both
  forms agree on every request sequence if and only if no two barriers share a row (`AgreeIffInjective`).
- A topic deleted and recreated between load and write defeats the version check
  (`DeletionDefeatsTheVersion`). A topic is the result of its accepted changes throughout a run if and
  only if no accepted write is out of step with the topic as it stands (`HistoryHoldsIff`).
- The barrier fields derived at a purge miss barriers of branches whose kind does not match the
  transaction (`IllKindedLeavesBarrier`, `DerivedCoversIffWellKinded`).
- A client that follows the listing's cursor stops short at a page that ends in an empty gid or one
  longer than 128 bytes (the condition in `FollowPages`).
- A timestamp from the year 10000 on is printed with a five-digit year, which RFC 3339 does not allow
  (`FourDigitYears`).

## Conventions

Times, revisions and attempts are natural numbers; saturating arithmetic is written out. Text is a
sequence of bytes. A stored payload stands for the transaction it encodes, and a JSON barrier field for
its triple, since both encodings are injective. Clock readings, retry times, call outcomes and the
actions of other clients are parameters. Theorems over revision-checked writes assume that the stored
revision stays below 2^64 - 1, and barrier-history theorems that the gid is not purged during the run.

## Model

| member | source | states |
|---|---|---|
| `DependencyGraph.Validate` | src/lib.rs:5249-5332 | accepts a branch list if and only if its ids are unique, its dependencies known, not on itself and not repeated, and a topological ranking exists |
| `DependencyGraph.Visit` | src/lib.rs:5286-5332 | the recursive visit ends, extends the finishing order of visited branches, and fails only on a real cycle through its stack |
| `Layers.ActionLayerEmptyOnlyWhenDone` | src/lib.rs:3907-3925 | over an accepted graph of pending, failed and succeeded branches, the ready layer is empty exactly when all succeeded |
| `Layers.CompensationLayerEmptyOnlyWhenDone` | src/lib.rs:4049-4076 | the compensation layer is empty exactly when nothing is left to compensate, so the unresolved-dependencies error is unreachable |
| `Layers.RunActionLayers` | src/lib.rs:3897-3928 | the forward loop ends within as many rounds as branches: with all succeeded, with a failed call of a branch that was ready in its last round, or because a branch left in flight blocks the rest; successes stay closed under dependencies |
| `Layers.RunCompensationLayers` | src/lib.rs:4033-4076 | the compensation loop ends within as many rounds as branches, with nothing left or with a failed call of a branch that was ready in its last round, never for want of a ready branch |
| `CompatOrders.ApplyOrders` | service/src/main.rs:2605-2645 | succeeds exactly on in-range, preceding indices with concurrency on, and then sets exactly the listed dependencies |
| `CompatOrders.OrdersAcceptedIff` | service/src/main.rs:2629-2643 | the resulting graph passes the dependency check if and only if ids are unique and no order repeats an index |
| `BarrierProtocol.AtMostOnce` | src/lib.rs:1792-1832 | in every interleaving with crashes a barrier has one holder, at most one call for it is not answered with failure, and at most one succeeds |
| `BarrierProtocol.SuccessIsFinal` | src/redis_store.rs:52-67 | after a success nobody claims the barrier again |
| `ConcurrentSagaSafety.AllOrNothing` | src/lib.rs:3887-4158 | stored Succeeded means every action succeeded; stored Aborted means every branch is Skipped and each one stored as successful at any earlier point was compensated |
| `ConcurrentSagaSafety.CallsInOrder` | src/lib.rs:3907-3925 | an action is called only after its dependencies' actions succeeded, a compensation only after every recorded dependent was compensated |
| `ConcurrentSagaSafety.StoredSetsClosed` | src/lib.rs:4049-4071 | stored successes, and later stored compensations still to run, stay closed under dependencies |
| `ConcurrentSagaSafety.RecordedIffStored` | src/lib.rs:3975-4030 | the recorded set is exactly what some stored record of the run showed as successful |
| `ConcurrentSagaSafety.NeverStuckCompensating` | src/lib.rs:4059-4076 | in every run, a compensation loop that finds no ready branch has nothing left to compensate |
| `ConcurrentSagaSafety.TerminalIsFinal` | src/redis_store.rs:502-533 | a stored terminal record never changes again |
| `ConcurrentSagaPasses.StartPassResult` | src/lib.rs:3887-4031 | a start pass that ended undisturbed, in any order of its steps and with no call answered with failure, leaves Succeeded if and only if every unfinished branch waits for its call and its barrier is free, and otherwise Succeeding |
| `ConcurrentSagaPasses.AbortPassResult` | src/lib.rs:4033-4158 | the same for an abort pass, which leaves Aborted if and only if no compensation barrier of a recorded branch is held, and otherwise Aborting |
| `ConcurrentSagaLayers.StartPassRuns` | src/lib.rs:3887-4031 | with whatever answers, an undisturbed start pass has a run through the rounds of the forward loop; it stores what they leave, and turns the Saga back exactly when a failed call of the last round uses up the attempts of its branch |
| `ConcurrentSagaLayers.AbortPassRuns` | src/lib.rs:4033-4158 | the same for an abort pass and the rounds of the compensation loop |
| `ConcurrentSagaLayers.CanSucceed` | src/lib.rs:3887-4031 | every concurrent Saga as submitted has a run of one pass that stores Succeeded |
| `ConcurrentSagaRetries.AbortedOnlyWhenSpent` | src/lib.rs:3985-4023 | over every interleaving with stops, a Saga that nobody aborts is Aborting or Aborted only after some action was answered with failure as often as its limit allows |
| `ConcurrentSagaRetries.AbortedIffSpent` | src/lib.rs:3890-4030 | between the passes of one worker that does not stop, exactly then; before that every unsuccessful action can be called again, and one that failed is Failed with a retry time |
| `ConcurrentSagaAborts.CleanAbortsCompensate` | src/lib.rs:4033-4158 | if every abort, when it is stored, has on record whatever succeeded or is still being called, stored Aborted means that every success was compensated |
| `ConcurrentSagaAborts.UncleanAbortLoses` | src/lib.rs:4033-4048 | after any other abort, a success outside its record is never compensated in any continuation |
| `ConcurrentSagaAborts.AbortOvertakesSuccess` | src/lib.rs:3940-4048 | a concrete run without a stop that ends Aborted with a success never compensated |
| `ConcurrentSagaBarriers.SimulateRun` | src/lib.rs:4078-4152 | every run of the concurrent Saga is a run of the barrier protocol with the same log, barriers and holders |
| `ConcurrentSagaBarriers.AtMostOnce` | src/lib.rs:4078-4152 | every branch operation of a concurrent Saga has one holder and succeeds at most once |
| `OverlappingPasses.TwoPhaseAtMostOnce` | src/lib.rs:4292-4327 | TCC and XA passes that overlap in any way, with stops: a barrier has one holder, and no call is made for it after a success |
| `OverlappingPasses.SagaAtMostOnce` | src/lib.rs:3769-3808 | the same for sequential Saga passes |
| `MessageSafety.CalledOnlyWhenDecidedAndDue` | src/lib.rs:4504-4673 | a Message branch is called only after Succeeding was stored and the submitted creation time plus delay has passed; after a call Aborted is never stored |
| `MessageSafety.TermsAreFixed` | src/lib.rs:5799-5807 | no accepted write changes creation time or options |
| `MessageSafety.SucceededMeansDelivered` | src/lib.rs:4504-4653 | with concurrent delivery stored Succeeded means that each branch was delivered; in order, that each was delivered or passed over, whatever the requests |
| `MessagePasses.DispatchResult` | src/lib.rs:4504-4653 | a dispatch that ended undisturbed, of a Message that is due and with no call answered with failure, leaves Succeeded, unless delivery is concurrent and an undelivered branch's barrier is held or shared; on a finished Message it changes nothing |
| `MessagePasses.EarlyDispatchResult` | src/lib.rs:4519-4528 | a dispatch that ends before the time of delivery leaves the Message decided |
| `MessagePasses.FailedDeliveryWaits` | src/lib.rs:4593-4653 | a delivery that fails leaves the Message Succeeding, whatever other calls answer, with the branch Failed, its retry time set and its barrier free |
| `MessagePasses.DispatchLeaves` | src/lib.rs:4530-4653 | the branches that a dispatch without failure leaves when it stores Succeeded: each one delivered, or, going in order, passed over as it was |
| `MessagePasses.BlockedDispatchReleases` | src/lib.rs:4546-4562 | a concurrent dispatch that finds a barrier held or shared gives back exactly what it claimed |
| `MessagePasses.DispatchEnds` | src/lib.rs:4504-4653 | from any point between its calls a dispatch can be run to its end with every call answered with success |
| `MessageDispatch.SafeDispatchesDeliver` | src/lib.rs:4627-4653 | if every dispatch of a decided in-order Message is safe when a worker takes it up, stored Succeeded means that every branch was delivered, by barrier and, with the unique ids that submission enforces, by index, wherever passes stop |
| `MessageDispatch.UnsafeDispatchLoses` | src/lib.rs:4627-4653 | every unsafe dispatch of a decided in-order Message, by a request or by recovery, at any point of any run, has a continuation that stores Succeeded with a branch not delivered |
| `MessageDispatch.FreshIsSafe` | src/lib.rs:4504-4520 | a Message as submitted is safe to dispatch |
| `MessageSafety.OverlapLosesDelivery` | src/lib.rs:4627-4653 | a concrete run of two overlapping in-order dispatches that stores Succeeded without a successful delivery |
| `MessageSafety.RecoveryNeverDelivers` | src/lib.rs:4962-5058 | recovery ticks alone never store the decision to deliver and never call a branch, whatever clock they read |
| `MessageBarriers.DeliversOnce` | src/lib.rs:4504-4653 | over every interleaving, a branch is never called again after a successful delivery, and its barrier has one holder |
| `SequentialSagaSafety.ActionsFormPrefix` | src/lib.rs:3741-3817 | whenever an action is called or answered, the succeeded actions are exactly those declared before it |
| `SequentialSagaSafety.SucceedsOnce` | src/lib.rs:3769-3808 | no action or compensation is called again after it succeeded |
| `SequentialSagaSafety.FinalStatus` | src/lib.rs:3819-3885 | stored Succeeded means every action succeeded; stored Aborted that every branch ever stored Succeeded was compensated, and every branch whose action succeeded unless a stopped pass had not stored it |
| `SequentialSagaSafety.TerminalIsFinal` | src/lib.rs:3741-3885 | a terminal record never changes again |
| `SequentialSagaPasses.StartPassResult` | src/lib.rs:3741-3814 | a start pass that ended undisturbed, with no call answered with failure, leaves Succeeded if and only if no unfinished branch's barrier is held or shared by another, and otherwise Succeeding |
| `SequentialSagaPasses.AbortPassResult` | src/lib.rs:3816-3885 | the same for an abort pass, which leaves Aborted or Aborting |
| `SequentialSagaPasses.PassLeaves` | src/lib.rs:3741-3885 | the branches that a pass without failure leaves when it reaches its final status: every one executed, or every one skipped, compensated where it had an action to undo |
| `SequentialSagaPasses.FailedCompensationWaits` | src/lib.rs:3852-3866 | a compensation that fails leaves the Saga Aborting, its branch to be compensated from its retry time on, and its barrier free |
| `SequentialSagaPasses.PassEnds` | src/lib.rs:3741-3885 | from any point but after a failure a pass can be run to its end with every call answered with success |
| `SequentialSagaPasses.CanSucceed` | src/lib.rs:3741-3814 | every Saga as submitted whose ids differ has a run of one pass that stores Succeeded |
| `SequentialSagaRetries.AbortedOnlyWhenSpent` | src/lib.rs:3756-3811 | wherever passes stop, a Saga that nobody aborts is Aborting or Aborted only after some action was answered with failure as often as its limit allows |
| `SequentialSagaRetries.AbortedIffSpent` | src/lib.rs:3756-3811 | between the passes of a run without stops, exactly then; before that every unsuccessful action can be called again, and one that failed is Failed with a retry time |
| `SequentialSagaRetries.FailedActionStores` | src/lib.rs:3792-3809 | what a failed action stores, with an attempt left and without |
| `SequentialSagaOrder.UnwindsInOrder` | src/lib.rs:3840-3880 | without a stop between a compensation call and the stored Aborting, successful compensations have strictly decreasing indices and nothing goes forward after the first compensation call |
| `SequentialSagaOrder.SafeAbortsSuffice` | src/lib.rs:3819-3843 | if every abort request finds Aborting stored or nothing to call, the Saga never turns back, wherever its passes stop; it also unwinds in order, for which SequentialSagaUnwinding has the exact condition |
| `SequentialSagaOrder.FreshIsSafe` | src/lib.rs:3819-3843 | before anything succeeded every abort request is safe |
| `SequentialSagaOrder.CrashFree` | src/lib.rs:3819-3885 | a run without stops has no harmful stop and loses no success |
| `SequentialSagaOrder.UnsafeAbortTurnsBack` | src/lib.rs:3819-3885 | every unsafe abort request has a continuation in which a forward status is stored after a compensation call |
| `SequentialSagaOrder.UnsafeIsReachable` | src/lib.rs:3741-3817 | such a request exists in a run of a one-branch Saga |
| `SequentialSagaUnwinding.UnriskyAbortsGoDownwards` | src/lib.rs:3819-3885 | if no abort request is risky, successful compensations have strictly decreasing indices, wherever passes stop |
| `SequentialSagaUnwinding.RiskyAbortBreaksOrder` | src/lib.rs:3741-3885 | every risky abort request, at any point of any run, has a continuation in which successful compensations are out of order |
| `SequentialSagaUnwinding.OrderFails` | src/lib.rs:3741-3885 | such a run exists for every Saga of two branches with different ids and compensations |
| `SequentialSagaStops.StopLosesCompensation` | src/lib.rs:3786-3812 | a pass that stops with a success it has not stored loses it: in no continuation is that branch compensated |
| `SequentialSagaStops.StoppedSuccessIsAborted` | src/lib.rs:3786-3850 | a concrete run that ends Aborted with a success never compensated |
| `TwoPhaseSafety.DecisionsAreOneWay` | src/lib.rs:4160-4344 | after Succeeding is stored no try, cancel or rollback is called; after Aborting is stored no try, confirm or commit is called; the other decision is never stored |
| `TwoPhaseSafety.ConfirmsAfterTries` | src/lib.rs:4160-4262 | barrier by barrier: whenever a confirm is about to be called, the try barrier of every submitted id has a success or was orphaned by then |
| `TwoPhaseSafety.ConfirmsInLogAfterTries` | src/lib.rs:4160-4262 | every confirm in a run's log comes after a success for the try barrier of every submitted id, except those that the run orphans |
| `TwoPhaseSafety.SucceedsOnce` | src/lib.rs:4178-4220 | after a success its barrier is never called again |
| `TwoPhaseSafety.FinalStatus` | src/lib.rs:4224-4344 | barrier by barrier: stored Succeeded means that each id was committed, stored Aborted that each was rolled back or, where its try barrier is held, whatever its outcome, cancelled, except orphaned barriers |
| `TwoPhaseSafety.OrderlyRunsLoseNothing` | src/lib.rs:4686-4766 | barrier by barrier, without exceptions, when no pass stops early and every branch names its URLs |
| `TwoPhasePasses.PreparePassResult` | src/lib.rs:4160-4223 | a prepare pass that ended undisturbed, with no try answered with failure, leaves Prepared, or Aborting if it met a branch cancelled before its try |
| `TwoPhasePasses.CompletePassResult` | src/lib.rs:4225-4269 | a commit pass that ended undisturbed, with no call answered with failure, leaves Succeeded; if and only if a branch that it has to call names no URL, the record stays as it was |
| `TwoPhasePasses.UndoPassResult` | src/lib.rs:4271-4344 | the same for an undo pass, which leaves Aborted; a TCC branch without a held try and with an action of its own is not called |
| `TwoPhasePasses.PassMarks` | src/lib.rs:4160-4344 | the branches that a pass without failure leaves when it reaches its final status: done where the pass dealt with them itself, one attempt later where it called them, and otherwise as they were; one that turned back shows a branch cancelled before its try as Skipped |
| `TwoPhasePasses.FailedCallWaits` | src/lib.rs:4193-4201 | a failed call ends its pass with the branch Failed, its retry time set and its barrier free; the status stays that of the pass, but for a try without attempts left, which stores Aborting |
| `TwoPhasePasses.PassEnds` | src/lib.rs:4160-4344 | from any point but after a failure a pass can be run to its end with every call answered with success |
| `TwoPhaseRetries.AbortedOnlyWhenSpent` | src/lib.rs:4193-4201 | wherever passes stop, a transaction that nobody undoes is Aborting or Aborted only if it is TCC and some try was answered with failure as often as its limit, or the default of the coordinator, allows |
| `TwoPhaseRetries.AbortedIffSpent` | src/lib.rs:5083-5088 | between the passes of a run without stops, exactly then; while it is undecided every unsuccessful try can be called again, and one that failed is Failed with a retry time |
| `TwoPhaseBranches.FinalStatusByBranch` | src/lib.rs:4224-4344 | with unique ids, by index: stored Succeeded means that each branch was committed; stored Aborted that each was undone if it is XA, its try was claimed, or its try was executed externally; except orphaned barriers |
| `TwoPhaseBranches.OrderlyRunsByBranch` | src/lib.rs:4686-4766 | the same without exceptions, when no pass stops early and every branch names its URLs |
| `TwoPhaseBranches.ConfirmsAfterTriesByBranch` | src/lib.rs:4160-4262 | with unique ids, by index: a confirm is called only after the try of every submitted branch succeeded or was orphaned |
| `TwoPhaseBranches.RepeatedIsNeverCalled` | src/lib.rs:4160-4344 | a submitted branch that repeats an earlier id is never called in any run |
| `TwoPhaseBranches.CommittedIffUnique` | src/lib.rs:5211-5228 | a run without stops that stores Succeeded has committed every branch if and only if the submitted ids differ |
| `TwoPhaseBranches.SucceedsWithoutStops` | src/lib.rs:4160-4262 | such a run exists for every transaction whose branches name their URLs, whatever their ids |
| `TwoPhaseOrphans.OrphanCostsCommit` | src/lib.rs:4239-4262 | every orphaned commit barrier of a decided transaction has a continuation that stores Succeeded without that commit |
| `TwoPhaseOrphans.ExactlyOrphansAreMissing` | src/lib.rs:4160-4344 | in a record stored as Succeeded a commit succeeded if and only if its barrier was not orphaned; the same for undos in one stored as Aborted, null compensations aside, and for tries from Prepared on |
| `TwoPhaseDecisions.SafeRequestsDecideFirst` | src/lib.rs:3644-3739 | if every request is safe when it starts, each commit or undo call follows its stored decision and no run contains both a commit and an undo |
| `TwoPhaseDecisions.UnsafeRequestsCallFirst` | src/lib.rs:4224-4262 | every unsafe request has a continuation that calls a branch before its decision is stored |
| `TwoPhaseDecisions.StoppedConfirmIsCancelled` | src/lib.rs:4224-4344 | a concrete TCC run in which the same branch is confirmed and cancelled |
| `TwoPhaseMixing.NeverMixes` | src/lib.rs:4160-4344 | a run in which no request calls before its decision with the other decision still open calls no commit beside an undo, wherever passes stop |
| `TwoPhaseMixing.MayMixMixes` | src/lib.rs:4224-4344 | every other request, by a caller or by recovery, at any point of any run, has a continuation that calls both |
| `TwoPhaseDecisions.RecoveryNeverCommits` | src/lib.rs:4962-5058 | runs of registrations and recovery ticks alone never store a commit decision and never call a confirm or commit |
| `Recovery.TickChooses` | src/lib.rs:4962-5058 | what a tick starts for every kind, status, clock, deadline and retry time, with the sums written out |
| `Recovery.AcceptsMeans` | src/lib.rs:5648-5656 | the statuses that each operation accepts are those from which its state machine does something, and the one it leads to |
| `Recovery.RefusedIff` | src/lib.rs:4976-4993 | the operation that a tick chooses refuses the transaction if and only if that is a TCC transaction being confirmed past its deadline |
| `Recovery.Tick` | src/lib.rs:4962-5058 | a tick starts exactly the chosen operations in listing order, up to the first that fails, and no further than the first such TCC transaction |
| `Recovery.WedgeIsReachable` | src/lib.rs:3680-3690 | storing the commit decision of a prepared TCC transaction leads there once its deadline passes |
| `Recovery.NoUndoBeforeDeadline` | src/lib.rs:5809-5814 | in runs of registrations and ticks alone that scan before the submitted deadline, or without one, recovery undoes a transaction only after some try has used up its attempts; a Prepared one is left alone and an XA one never undone |
| `Recovery.NoAbortBeforeDeadline` | src/lib.rs:5809-5814 | in such runs a Message is never aborted |
| `Administration.SequentialSaga` | src/lib.rs:4787-4832 | force_stop, reset_retry and schedule_abort: which statuses accept them and the whole record they leave |
| `Administration.ConcurrentSaga` | src/lib.rs:4787-4832 | the same for a concurrent Saga |
| `Administration.TwoPhase` | src/lib.rs:3644-3739 | the same for TCC and XA, with schedule_submit |
| `Administration.Message` | src/lib.rs:4346-4361 | the same for a Message, with prepare_message |
| `Administration.AbortedMessage` | src/lib.rs:4655-4673 | abort_message |
| `RedisStore.RevisionCheckedWrites` | src/redis_store.rs:337-374 | over every interleaving of coordinator edits and registrations, the revision counts accepted changes, equal revisions mean equal records, branches keep their places, and a terminal record never changes; that the coordinator writes nothing else is StoreContract |
| `RedisStore.SwapRefinesAtomicWrite` | src/redis_store.rs:502-533 | an accepted swap is the atomic write on the record the client started from; a refused one changes nothing |
| `RedisStore.WriteGoesThroughIff` | src/redis_store.rs:502-533 | a client that comes to write stores its edit exactly when the record is still the one it started from |
| `RedisStore.RegistrationGoesThrough` | src/redis_store.rs:337-374 | a registration that nobody disturbs stores what append_dynamic_branch makes of the record |
| `RedisStore.GivesUpAfterSixteen` | src/redis_store.rs:337-374 | a registration is given up on the sixteenth swap that it loses, and not before |
| `Edits.RegistrationOutcome` | src/lib.rs:5180-5209 | a new id on a Submitted or Prepared transaction is appended last, the same branch again changes nothing, and a different branch under a known id, another status or another kind is refused |
| `RedisStore.SaturatedRevisionLosesUpdates` | src/lib.rs:3350-3354 | at the saturated revision a stale client reopens a finished transaction |
| `StoreContract.SagaWritesAreEdits` | src/lib.rs:3887-4158 | every write of a concurrent Saga that the store can accept is an edit within the store's contract |
| `StoreContract.MessageWritesAreEdits` | src/lib.rs:4504-4673 | the same for Messages |
| `StoreContract.TwoPhaseWritesAreEdits` | src/lib.rs:4160-4344 | the same for TCC and XA, with registrations between passes |
| `StoreContract.SequentialSagaWritesAreEdits` | src/lib.rs:3741-3885 | the same for sequential Sagas |
| `RecoveryLease.FencingSafety` | src/redis_store.rs:69-154 | no epoch is granted to two owners, and the epochs of accepted fenced writes never decrease |
| `RecoveryLease.EpochMonotone` | src/redis_store.rs:69-95 | the stored epoch of a lease never decreases |
| `RecoveryLease.LeaseExcludesOthers` | src/redis_store.rs:69-95 | from a grant on, until its owner asks again: its fence lets writes through exactly while the clock is before the time of the grant plus its ttl, and until then nobody else is granted the lease |
| `RecoveryLease.GrantedIff` | src/redis_store.rs:69-95 | a request is granted exactly when its input is valid and no one else's grant is running; a running grant is renewed at its epoch, any other takes the next, and both run for the ttl |
| `RecoveryLease.WriteGoesThroughIff` | src/redis_store.rs:97-154 | which fenced writes are let through |
| `RecoveryLease.DeadFencesStayDead` | src/redis_store.rs:97-154 | an expired or superseded fence never becomes valid again |
| `SqlBarriers.ServeBoth` | src/lib.rs:1792-1832 | the two stores side by side give the same answers to the same requests and keep the same barriers |
| `SqlBarriers.SqlStore.Enter` | src/lib.rs:2246-2286 | the insert-first form, against its own specification |
| `SqlBarriers.FormsAgree` | src/lib.rs:2246-2294 | on ids without a colon every request sequence gets the same decisions and leaves the same barriers in both forms |
| `SqlBarriers.AgreeIffInjective` | src/lib.rs:2246-2294 | over barriers closed under try and cancel, both forms answer every request sequence alike if and only if no two of the barriers share a joined key |
| `SqlBarriers.CollisionsDisagree` | src/lib.rs:523-525 | two barriers with one joined key are always answered differently, whatever their operations |
| `SqlBarriers.ColonsCollide` | src/lib.rs:523-525 | two unrelated barriers with a colon are taken for one |
| `SqlBarriers.NullCompensationBlocksTry` | src/lib.rs:1797-1814 | a cancel before its try, not released, turns every later try away |
| `SqlBarriers.NullCompensationIsFinal` | src/lib.rs:1797-1814 | the same, from the cancel's own decision |
| `SqlBarriers.StoreFollowsRule` | src/lib.rs:1792-1832 | per gid, the in-memory store decides and holds exactly as the rule used by the state machines, and leaves other gids alone |
| `Retention.TargetsAreOldest` | src/lib.rs:3314-3335 | a purge picks only expired transactions, oldest first, and passes over an expired one only when the batch is full of older ones |
| `Retention.TargetsByAge` | src/lib.rs:5146-5153 | the targets are the finished records past the finished period and the others past the data period, but for younger ones that a full batch leaves out |
| `Retention.WithinPeriodSurvives` | src/lib.rs:3314-3348 | a record that the purge listed within its period, and that nobody else deletes, survives it |
| `Retention.Purge` | src/lib.rs:3314-3348 | the policies it accepts; eligible = deleted + conflicts, at most the batch size; the store afterwards is the sweep of the targets with others at work in between, and no record within its period is deleted |
| `Retention.ChangedSurvives` | src/redis_store.rs:32-50 | a record that has moved past the scanned revision, or that no target names, survives, if no turn of the sweep lowers its revision on the store it finds |
| `Retention.ChangedMeanwhileSurvives` | src/redis_store.rs:638-668 | a target whose revision somebody raises during the sweep, on the store reached by then and before its own delete, survives |
| `Retention.UntouchedIsDeleted` | src/redis_store.rs:32-50 | a target that no turn of the sweep touches is deleted |
| `Retention.DerivedFields` | src/redis_store.rs:1021-1040 | the list holds exactly the barriers named by branch id and branch kind |
| `Retention.DerivedCoversIffWellKinded` | src/redis_store.rs:1021-1040 | the derived list holds every barrier an operation can take if and only if every branch id belongs to a branch of the right kind |
| `Retention.PurgeLeavesNoBarrier` | src/redis_store.rs:32-50 | deleting a well-kinded transaction leaves none of its barriers, whatever the index lost |
| `Retention.IllKindedLeavesBarrier` | src/redis_store.rs:1021-1040 | otherwise some store keeps a barrier |
| `RetentionCoverage.ConcurrentSagaPurge` | src/redis_store.rs:638-668 | after any run of a concurrent Saga with well-kinded branches a purge leaves neither record nor barrier |
| `RetentionCoverage.SequentialSagaPurge` | src/redis_store.rs:638-668 | the same for a sequential Saga with well-kinded branches |
| `RetentionCoverage.MessagePurge` | src/redis_store.rs:638-668 | the same for a Message with well-kinded branches |
| `RetentionCoverage.TwoPhasePurge` | src/redis_store.rs:638-668 | the same for TCC and XA with well-kinded branches, registered ones included |
| `Topics.TopicIsItsHistory` | src/kv.rs:52-136 | in every interleaving where no accepted write is out of step, the version counts the accepted changes, URLs are unique, and a subscription is present exactly when made and not removed |
| `Topics.HistoryHoldsIff` | src/kv.rs:52-136 | the topic is the result of its accepted changes at every point of a run if and only if no accepted write is out of step |
| `Topics.BetweenDeletions` | src/lib.rs:1758-1781 | without a deletion between a load and its write no write is out of step, so the topic is its history in every interleaving |
| `Topics.DeletionDefeatsTheVersion` | src/lib.rs:1758-1781 | a write that straddles a deletion loses an accepted subscription and revives a deleted one |
| `Topics.Subscribe` | src/kv.rs:52-104 | the 64-attempt loop, with others at work around each attempt, against its specification |
| `Topics.Unsubscribe` | src/kv.rs:106-136 | the same for removal |
| `Topics.SuccessIsAtomic` | src/kv.rs:52-136 | a change that reports success was one update of what an attempt loaded; it was an atomic update of the topic as it stood at the write if and only if the attempts reached were in step |
| `Topics.LoopIsARun` | src/kv.rs:52-136 | the retry loop of one client among others is a run of the clients and leaves the topic that its attempts leave |
| `Topics.LoopIsAtomic` | src/kv.rs:52-136 | after any run, with no accepted write across a deletion, a loop that reports success made one change, of the topic as it stood at the write, whatever the others did |
| `Pagination.ListingIsExact` | service/src/main.rs:1357-1381 | the listing holds each matching transaction exactly once, strictly descending by creation time and gid |
| `Pagination.ListingSelects` | service/src/main.rs:1357-1375 | the filters of a query: gid, kind and status words with their aliases, and a time range with both ends included |
| `Pagination.PageSize` | service/src/main.rs:1348-1348 | a page with a cursor holds 100 transactions or the number asked for, between 1 and 200; the last one at most that |
| `Pagination.FollowPages` | service/src/main.rs:1344-1411 | following the cursor stops with a prefix of the listing, and yields all of it if and only if the time range is valid and every gid that ends a full page is non-empty and at most 128 bytes |
| `Pagination.AllAddressable` | service/src/main.rs:1382-1390 | non-empty gids of at most 128 bytes meet the condition of FollowPages |
| `Calendar.CivilDateCorrect` | service/src/main.rs:1657-1667 | for every day count the arithmetic yields the unique valid proleptic Gregorian date with that day number |
| `Calendar.DayNumberInjective` | service/src/main.rs:1657-1667 | valid dates with the same day number are equal |
| `Calendar.Rfc3339Correct` | service/src/main.rs:1652-1678 | every millisecond count gets a valid date and time that read back as the same count |
| `Calendar.Rfc3339Injective` | service/src/main.rs:1652-1678 | different millisecond counts never share the fields of a timestamp |
| `CalendarText.TextInjective` | service/src/main.rs:1671-1677 | nor its printed text |
| `CalendarText.TextReadsBack` | service/src/main.rs:1671-1677 | the printed text reads back as valid fields that stand for the same count |
| `CalendarText.FourDigitYears` | service/src/main.rs:1671-1677 | the text has the length of an RFC 3339 timestamp if and only if the instant lies before the year 10000 |

## Left out

- HTTP and gRPC branch calls, TLS, alerts and URL policy: a call is an arbitrary success or failure.
- SQL text, connection pools, migrations, JSON and base64 encoding.
- Callback and static Workflows, including their progress records and rollback retries; their
  dependency check and layers are the Saga's.
- Liveness of recovery: a barrier held by a stopped worker is never released, so no progress is claimed.
- Agreement of the Redis barrier index with the barrier hash; retention is proved for any index.
- What a concurrent abort pass does beside the error when a compensation in its layer has no URL: in the model it may make the other calls, joins none, and can only stop.
- Recovery.Tick: takes each operation to find the record as listed; what happens between listing and operation is in the state machines.
- Interleaved passes of sequential Saga, TCC and XA beyond at-most-once calls: what their blind overwrites do to the record.
- The fenced variants of record and barrier writes beyond the fence check itself.
- Validation of topic names, subscriber URLs and remarks.
- XA sessions against MySQL and PostgreSQL (src/xa.rs), dashboard, metrics, configuration, SDKs.
- MessageSafety.OverlapLosesDelivery: is one run of a one-branch Message without delay; MessageDispatch.UnsafeDispatchLoses covers every unsafe dispatch.
- MessageSafety.SucceededMeansDelivered: its in-order half speaks of branches passed over, because delivery does not follow there without the condition of MessageDispatch.SafeDispatchesDeliver.
- SequentialSagaOrder.SafeAbortsSuffice: its condition is exact for never turning back and only sufficient for the order; SequentialSagaUnwinding has the exact one.
- TwoPhaseSafety.ConfirmsAfterTries: counts barriers, so equal ids count once; TwoPhaseBranches.ConfirmsAfterTriesByBranch counts branches.
- TwoPhaseSafety.ConfirmsInLogAfterTries: counts barriers, and excepts the orphans of the whole run; TwoPhaseSafety.ConfirmsAfterTries excepts those of the moment.
- TwoPhaseSafety.FinalStatus: counts barriers; TwoPhaseBranches.FinalStatusByBranch counts branches and covers externally executed tries.
- TwoPhaseSafety.OrderlyRunsLoseNothing: counts barriers; TwoPhaseBranches.OrderlyRunsByBranch counts branches.
- ConcurrentSagaSafety.AllOrNothing: speaks of successes that were stored; for every success see ConcurrentSagaAborts.
- Ordering.Sort: stands for the library sort; stability is not modelled, since gids break all ties.
