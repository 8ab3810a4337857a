# Leitwerk delivery: a verified model

Leitwerk delivers repository changes through a set of protocols that must survive the death of
their worker between any two steps, on branches and merge requests that other people change
meanwhile. This project models these protocols in Dafny 4.11 and proves what they guarantee over
every interleaving and every crash schedule. `dafny verify dfyconfig.toml` checks all of it.

| part | files | main results |
|---|---|---|
| Reconciliation | `Git`, `Reconciliation`, `CrashRecovery`, `Checkout` | crash recovery refines the uninterrupted run; nothing local is lost; exact replay; concurrent target repair |
| Publication | `Publication`, `Publisher`, `DirectPush` | receipts tell the truth; no developer commit is dropped; at most one publication; what a push without a reconcile can lose |
| Delivery | `Delivery`, `DeliveryRuns`, `DeliveryCalls`, `DeliveryResults`, `DeliveryOrder`, `DeliveryFlow`, `Execution`, `Coordinated`, `Fleet` | what every successful execution has done, call by call; exactly when a repair turn can get stuck; bounded repair loops per repository in every configuration; leases and ownership checks of every push; independent repositories and equal verdicts |
| Maintenance | `Ownership`, `Maintenance`, `Policy`, `FeedbackRuns`, `FeedbackDesk`, `MaintainedFlow` | fixed boundaries, when ownership is monotone; feedback settled exactly once; when a failure is counted; exactly when a maintained repair turn is stranded |
| Release queue | `Versions`, `ReleaseQueue`, `ReleaseRun`, `Lockstep` | tags stay a prefix of the derived sequence; the updater establishes the checker |
| Catalog | `Catalog`, `CatalogOrigins`, `CatalogService` | exactly when answers come from the latest scan of the installation |

How it is built. A protocol is a transition system: a datatype of durable state, an `Action` per Git
command, record save or remote call, `Enabled` and `Do`, and `Legal`/`After` over sequences of
actions. A crash keeps the durable state, so a statement about all legal sequences is one about all
schedules. The code that updates things in place is a class or a method with loops beside it. Where
others act between its steps (checkout, publisher, maintenance poll, feedback poll), a ghost `log`
ties every write of the class to an action, so the theorems about all runs hold for it. The other
methods are proved equal to the functions the theorems are about.
Commits are immutable values, so history is acyclic and a commit is its own name.

What was assumed. `push --force-with-lease` is an atomic compare-and-swap whose reply may be lost. A
record save is atomic. A rebase is a function of head, base and target (`Algorithm`); conflict
resolutions are part of it, and a rebase may stop any number of times. Reconciliations of one
checkout, releases and polls of one server do not overlap, except where overlap is the subject.
`prepareReleaseCommit` is a function of the release. Operation ids are fresh.

Where code and promises differ, the code is modelled and the difference is proved:

- A commit that the remote already contains is replayed again when the remote holds only part of the
  local work (`ContainedCommitIsReplayedIff`).
- `pushAndVerify` called without a reconcile can forget an uncertain candidate
  (`DirectPushKeepsTrackIff`, `DirectPushLosesTrack`); `sandbox/repository-change-process.ts` calls it
  that way, delivery does not.
- Two overlapping maintenance polls can make a stopped record active again
  (`ActiveAgainIff`, `OverlappingPollsReactivate`); polls of one server do not overlap
  (packages/watcher-utils/src/poll-loop.ts).
- A result for an older head survives a head change, and is answered and settled, when the process is
  at Deliver and parked instead of waiting (`HeadChangeDiscardsIff`, `StaleResultIsReachable`,
  `StaleResultIsSettled`). The server parks waiting processes with malformed model state
  (packages/server/src/process-model-integrity-reconciler.ts), and a failing wait condition does the
  same.
- A failed pipeline is counted again once its record was dropped (`FailureCountsIff`).
  `FailureIsCountedTwice` is a run that counts one pipeline twice at one head: in between, a target
  rebase that is no longer prepared sends Deliver into a reconcile loop.
- A maintained process can wait for ever at a closed repair turn. A quiet look at a moved head drops
  the conflict that the selected turn was waiting for, and a retry selects Address Feedback by a
  reason whose work is gone (`MaintainedFlow.BlocksIff`, `MovedHeadStrandsTheRepair`,
  `RetryStrandsTheRepair`). Only the end of the request frees it (`StrandedStays`); at Fix CI the
  next pipeline that a quiet look shows does too (`BlockedCiOpensIff`).
- Without maintenance, evidence that arrives between a finished repair and the next execution of
  Deliver can leave a retry without work, or select a repair for a request that has ended
  (`DeliveryFlow.BlocksIff`, `EarlyEvidenceBlocksTheRetry`). The server accepts evidence for every
  waiting turn. Without such evidence the process is never stuck (`NeverStuck`).
- An observation source stores conflict evidence without validating it. Evidence about another head
  then makes every execution of Deliver throw until other evidence comes (`IrrelevantConflictBlocksDelivery`,
  `IrrelevantConflictIsStored`); no adapter in the repository has such a source.
- The catalog does not answer from the latest scan of an installation when the profile was used
  elsewhere since that scan was started (`LatestScanAnswersIff`, `SwitchingBackHidesTheLatestScan`).
- The verdicts of worker and server can differ once the request of a repository that was found
  unchanged ends (`ChangeKeepsExclusiveIff`, `VerdictsAgreeIff`, `VerdictsDiffer`). An unchanged
  repository has a request when an execution created one and then threw: the request is bound to the
  project at once (extensions/gitlab/src/delivery-tools.ts:79-83), the state of the execution is
  discarded, and the next execution may find nothing left to publish.
- extensions/coding/README.md says that an explicit retry grants a new budget of reconciliation
  passes. Only adapters with maintenance reset it
  (extensions/coding/src/repository-change-publication.ts:1217-1219); `Fleet.LoopsAreBounded` counts
  across the other retries.

## Model

| member | source | states |
|---|---|---|
| Git.ReplayIsExact | extensions/coding/src/repository-reconciliation.ts:360-385 | Replaying a linear baseline..head onto a commit gives one redone commit per original, in order, above that commit; nothing is replayed exactly when the range is empty |
| Git.RangeExcludesBase | extensions/coding/src/repository-reconciliation.ts:360-375 | A commit of baseline..head is never contained in the baseline, descends from it and is contained in head |
| Git.RangeIsChain | extensions/coding/src/repository-reconciliation.ts:360-375 | Earlier commits of a range are ancestors of later ones |
| Git.ReplayLacks | extensions/coding/src/repository-reconciliation.ts:386-394 | A replay carries no commit with a subject that neither side had |
| Git.LacksIsUnreachable | extensions/coding/src/repository-reconciliation.ts:386-394 | No commit reachable from a head without a subject carries it |
| Reconciliation.PrefixIsLegal | extensions/coding/src/repository-reconciliation.ts:199-450 | What a worker did before it died is itself a run, so crash points are prefixes |
| Reconciliation.Resume | extensions/coding/src/repository-reconciliation.ts:199-450 | A re-run continues from the durable state alone: two runs join into one run with the same result |
| CrashRecovery.CaptureIsRecoverable | extensions/coding/src/repository-reconciliation.ts:285-325 | The journal entry that captures a checkout leaves it in a state every later call can resume |
| CrashRecovery.StepRecovers | extensions/coding/src/repository-reconciliation.ts:327-441 | Each Git command or record save after the capture keeps the operation resumable towards the same result, or completes exactly that result |
| CrashRecovery.EveryCrashPointIsRecoverable | extensions/coding/src/repository-reconciliation.ts:327-441 | Every crash point of every schedule can be resumed, with the same result ahead |
| CrashRecovery.CrashRecoveryRefinesUninterruptedRun | extensions/coding/src/repository-reconciliation.ts:327-441 | Whatever the schedule of crashes, re-runs, stopped and aborted rebases and remote moves, the run that completes leaves HEAD, index, working tree, baseline and journal of one uninterrupted reconciliation against the captured remote; a join commit is equal up to its time stamp |
| CrashRecovery.NothingLocalIsLost | extensions/coding/src/repository-reconciliation.ts:288-326 | In every reachable state with a journaled operation, the checkpoint ref reaches work, index and head commits with exactly the working tree, index and HEAD the checkout had at the capture |
| CrashRecovery.CheckoutIsUntouchedUntilCaptured | extensions/coding/src/repository-reconciliation.ts:207-322 | Until an operation is journaled, reconciliation changes neither index nor working tree; the branch moves at most to the retained repair the journal names, a commit with the same tree, and not at all without one |
| CrashRecovery.CheckpointsArePermanent | extensions/coding/src/repository-reconciliation.ts:309-322 | No later action of any operation moves or deletes a checkpoint ref |
| CrashRecovery.ReconciliationReplaysExactly | extensions/coding/src/repository-reconciliation.ts:351-441 | On linear history without a join, the commits above the captured remote are one replay of each commit of baseline..head in order, the remote is contained in HEAD, no commit with a checkpoint subject is, and index and working tree are the captured ones carried over by the same merge |
| CrashRecovery.PublishedWorkIsNotReplayed | extensions/coding/src/repository-reconciliation.ts:243-287 | A candidate whose receipt is accepted and which the journal has not acknowledged is the baseline of the capture; commits inside it, or inside the recorded baseline, are not replayed, and no operation has work to replay when the remote contains HEAD |
| CrashRecovery.ContainedCommitIsReplayedIff | extensions/coding/src/repository-reconciliation.ts:285-287 | A journaled operation replays a commit the fetched remote contains exactly when the remote contains the oldest commit above the baseline but not HEAD |
| CrashRecovery.PartlyContainedWorkIsReplayedTwice | extensions/coding/src/repository-reconciliation.ts:285-287 | Concrete case: a remote that holds the first of two local commits gets both replayed on top |
| CrashRecovery.LinearReplayIsGrounded | extensions/coding/src/repository-reconciliation.ts:360-385 | Rebasing linear history always ends above the commit it is rebased onto |
| CrashRecovery.RetainedRepairIsPending | extensions/coding/src/repository-reconciliation.ts:464-515 | A retained target rebase is one commit on the original source with the rebased tree, asks for a join, and cannot be retained a second time before the checkout has moved there |
| CrashRecovery.JoinStaysPending | extensions/coding/src/repository-reconciliation.ts:207-218 | Over every schedule the requested join is not forgotten, and the early ready exit is never taken while it is pending |
| CrashRecovery.FinishJoins | extensions/coding/src/repository-reconciliation.ts:402-441 | Completing with a pending join leaves a HEAD that descends from the fetched source and the target base, with the tree of the replayed repair |
| CrashRecovery.ConcurrentTargetRepair | extensions/coding/src/repository-reconciliation.ts:464-515 | After retaining a target rebase and any crash schedule of what follows, the first completed reconciliation descends from both sides and the join adds no tree change; the early exit was never taken |
| Checkouts.Checkout.Rebase | extensions/coding/src/repository-reconciliation.ts:358-385 | A rebase completes to the replay of the captured chain or stops in place; both keep the operation resumable with the same result |
| Checkouts.Checkout.Integrate | extensions/coding/src/repository-reconciliation.ts:207-229 | Refused, without a write, exactly while an unjournaled rebase is active or the branch is on neither side of the retained repair; otherwise the branch is at the retained repair, once, from either side of a crash |
| Checkouts.Checkout.FetchRemote | extensions/coding/src/repository-reconciliation.ts:234-256 | Passes exactly when no uncertain candidate is missing from the fetched head, and an uncertain one it holds becomes accepted; nothing else changes |
| Checkouts.Checkout.CaptureLocalWork | extensions/coding/src/repository-reconciliation.ts:285-325 | The checkpoint ref precedes the journal entry, and the journaled operation describes exactly the checkout at that time |
| Checkouts.Checkout.Synchronize | extensions/coding/src/repository-reconciliation.ts:231-326 | Refused exactly when an uncertain candidate is not in the fetched head or the baseline is not in HEAD; ready exactly when the fetched head is in HEAD, nothing is left to restore and no join is asked for; in all other cases an operation that captures this checkout against this fetched head is journaled |
| Checkouts.Checkout.Begin | extensions/coding/src/repository-reconciliation.ts:199-326 | Everything before the journal entry: refused, ready or journaled, each exactly under its condition on the state at the start of the call, and a journaled operation captures HEAD as it was after the retained repair |
| Checkouts.Checkout.MoveToCheckpoint | extensions/coding/src/repository-reconciliation.ts:329-350 | From every crash point of the captured phase the checkout reaches the rebasing phase with the same result ahead |
| Checkouts.Checkout.ReplayLocalWork | extensions/coding/src/repository-reconciliation.ts:351-399 | A replay that already happened is not repeated; it stops with a conflict exactly when the rebase stops, and otherwise the result is journaled |
| Checkouts.Checkout.JoinTarget | extensions/coding/src/repository-reconciliation.ts:402-424 | A requested join is made once and journaled, and HEAD then descends from the target |
| Checkouts.Checkout.Restore | extensions/coding/src/repository-reconciliation.ts:400-448 | Restoring ends in the result of the uninterrupted run, with the captured remote as new baseline |
| Checkouts.Checkout.Continue | extensions/coding/src/repository-reconciliation.ts:327-448 | A journaled operation found in any phase is carried to the uninterrupted result; it stops exactly when a rebase stops at a conflict |
| Checkouts.Checkout.Reconcile | extensions/coding/src/repository-reconciliation.ts:199-450 | One call from any durable state an interrupted call may have left. Refused exactly for the reasons the source names, written out over the old state: an unjournaled rebase, a branch on neither side of a retained repair, an unresolved publication the fetched head does not hold, a baseline that is not in HEAD. Conflict exactly when a rebase stops; ready in every other case, changed exactly when there was something to resume or replay. Diverged work is then carried over by the replay of the captured commits above the remote, which HEAD contains when the replay is grounded |
| Checkouts.Checkout.RetainConcurrentRebase | extensions/coding/src/repository-reconciliation.ts:464-515 | Retains exactly from a clean quiet checkout at the rebased head, and leaves a pending join |
| Checkouts.Checkout.RecordPublication | extensions/coding/src/repository-reconciliation.ts:581-597 | Acknowledges exactly while no operation is journaled, and replaces baseline and receipt together |
| Publication.ReceiptsTellTheTruth | extensions/coding/src/finalization-git-internal.ts:178-227 | Over every interleaving an accepted candidate was once the remote head or an ancestor of it, at most one publication is in doubt and the receipt names it, and no push is sent while one is |
| Publication.WorkerNeverDropsCommits | extensions/coding/src/finalization-git-internal.ts:196-212 | Every remote update of ordinary delivery is a compare-and-swap from its lease to a descendant, so everything the remote contained it still contains |
| Publication.LeaseIsFetchedByTheSameRun | extensions/coding/src/repository-change-publication.ts:749-777 | The lease of every push is the remote head that the same uninterrupted run fetched, absence seen by it, or what the same run has published and acknowledged before |
| Publication.PublicationIsAtMostOnce | extensions/coding/src/repository-change-publication.ts:669-777 | Over every crash schedule with other pushers, delivering one committed change moves the remote to it at most once |
| Publication.AppliedPublicationIsAcknowledged | extensions/coding/src/finalization-git-internal.ts:187-191 | If the push was applied and nobody else moves the branch, no schedule of re-runs sends anything, and each one that completes has acknowledged the candidate under an accepted receipt |
| Publication.RedeliveryCompletes | extensions/coding/src/repository-change-publication.ts:749-777 | The uninterrupted re-run of an applied publication is possible and completes |
| Publication.PublishedHeadIsUpToDate | extensions/coding/src/repository-reconciliation.ts:257-277 | A fetched head that is the accepted local HEAD takes the early ready exit |
| DirectPush.StepLosesTrackIff | extensions/coding/src/finalization-git-internal.ts:187-195 | A step of a direct call loses the candidate in doubt exactly when it recognises its own candidate on the remote while another one is unresolved |
| DirectPush.DirectPushKeepsTrackIff | extensions/coding/src/finalization-git-internal.ts:165-228 | Over every run of direct calls, crashes and other pushers, the receipt names every publication in doubt all along exactly when no such step is taken |
| DirectPush.DirectPushLosesTrack | extensions/coding/src/finalization-git-internal.ts:165-228 | From the start of any repository, a lost answer, a dead worker and a call for a commit somebody else pushed reach that loss |
| Publishers.Publisher.Send | extensions/coding/src/finalization-git-internal.ts:204-212 | A push moves the remote exactly by compare-and-swap from the lease, whatever happens to its answer; the answer is the exact function of what arrived, was refused or was lost |
| Publishers.Publisher.PushAndVerify | extensions/coding/src/finalization-git-internal.ts:165-228 | Against a remote that others move at every step: success means that the branch is the candidate and an accepted receipt names it, an already published candidate is recognised without a push, an unresolved receipt is left as it is, and at most one update is made, from the lease to the candidate. Undisturbed, the result is fixed for every link; a candidate above an unmoved lease over a working link is pushed, once, and reported as pushed |
| Publishers.Publisher.Transmit | extensions/coding/src/finalization-git-internal.ts:203-227 | After the write-ahead receipt at most one update happens, an applied one is never recorded as rejected, and pushed is reported exactly when the branch is the candidate at the end |
| Publishers.Publisher.Conclude | extensions/coding/src/finalization-git-internal.ts:213-227 | Pushed exactly when the branch is the candidate; branch-changed exactly when it is not and the reply was a success or the branch left the lease. The receipt is accepted, rejected or left in doubt by reply and re-read alone |
| DeliveryRuns.EveryPushIsLeased | extensions/coding/src/repository-change-publication.ts:749-836 | In every execution each ordinary push follows a reconcile of the same execution that neither changed nor conflicted the checkout, and its lease is the head that reconcile fetched or one this execution published |
| DeliveryRuns.BudgetIsKept | extensions/coding/src/repository-change-publication.ts:714-726 | A loop costs one cycle, an acknowledged publication restores all three, a loop goes to a worker exactly while fewer than three are spent, and an execution that throws saves nothing |
| DeliveryRuns.CooperativeRunsEnd | extensions/coding/src/repository-change-publication.ts:702-712 | An execution whose outside calls succeed throws exactly when a stored conflict is not about the current request and head, or is the one handled last |
| DeliveryRuns.OutcomesOpenTheirGates | extensions/coding/src/repository-change-publication.ts:664-870 | For any state without a terminal request and any answers, feedback_ready, conflict_ready and ci_ready leave a state in which the selected turn's gate is open; no repository becomes both unchanged and terminal |
| DeliveryRuns.RepairsOpenDelivery | extensions/coding/src/repository-change-publication.ts:874-895 | changes_ready and no_changes open Deliver's gate, except for a maintained repository that had no change |
| DeliveryRuns.ExecutionsKeepFeedback | extensions/coding/src/repository-change-publication.ts:838-869 | Under maintenance an execution of Deliver neither moves the feedback cursor, nor drops the batch, nor counts a CI failure |
| DeliveryRuns.ExecutionSelects | extensions/coding/src/repository-change-publication.ts:714-726 | Under maintenance an execution keeps the repair reason, and every loop leaves the feedback turn with a reconciliation to do |
| DeliveryRuns.ThrowingDiscards | extensions/coding/src/repository-change-publication.ts:664-701 | An execution that throws leaves the publication state as it was |
| DeliveryCalls.OwnershipPrecedesEveryPush | extensions/coding/src/repository-change-publication.ts:643-652 | Under maintenance the call directly before every branch write is an ownership check |
| DeliveryCalls.FeedbackIsClearedOnlyByReplies | extensions/coding/src/repository-change-publication.ts:838-865 | A batch is still held after an execution, or the same execution replied to exactly that batch |
| DeliveryCalls.ResultTellsTheTruth | extensions/coding/src/repository-change-publication.ts:834-857 | The result kept for the commenters says published exactly when the branch has another head than the one this execution fetched |
| DeliveryFlow.DeliverRoutes | extensions/coding/src/repository-change-publication.ts:664-870 | Each outcome of Deliver leads to a turn whose precondition its state meets |
| DeliveryFlow.NeverStuck | extensions/coding/src/repository-change-publication.ts:1083-1094 | For a single repository without maintenance, over every run whose evidence arrives while Deliver has nothing to do: the selected turn can run or Deliver accepts evidence, Deliver gets past every execution whose outside calls succeed unless a stored conflict is irrelevant, a retry selects a turn that can run, and ciRecoveryCycles stays in 0..3 |
| DeliveryFlow.BlocksIff | extensions/coding/src/repository-change-publication.ts:1083-1094 | For every event in every state without maintenance: it selects a closed repair turn exactly when it is a retry without work, or a repair for a request that has ended |
| DeliveryFlow.StuckIff | extensions/coding/src/repository-change-publication.ts:975-1025 | Over every run, evidence arriving at any time: the turn can run or Deliver takes evidence, unless the last event was such an event, and then nothing is possible any more; ciRecoveryCycles stays in 0..3 |
| DeliveryFlow.EarlyEvidenceBlocksTheRetry | extensions/coding/src/repository-change-publication.ts:1213-1226 | From the start, with an open request throughout, a failure reported between a finished feedback repair and Deliver ends in a retry without work |
| DeliveryFlow.IrrelevantConflictBlocksDelivery | extensions/coding/src/repository-change-publication.ts:703-712 | Once an irrelevant conflict is stored, every continuation without further evidence consists of executions that throw, and nothing changes |
| DeliveryFlow.IrrelevantConflictIsStored | extensions/coding/src/repository-change-publication.ts:1014-1018 | An observation about another head reaches that state from the start |
| DeliveryOrder.RunKeepsOrder | extensions/coding/src/repository-change-publication.ts:664-870 | In every configuration an execution keeps: waiting and results come after branch, request and issue link, and target rebases are about a published head |
| DeliveryOrder.DecideKeepsOrder | extensions/gitlab/src/publication-maintenance.ts:71-191 | No maintenance decision breaks that order, spends a cycle, stops a repository or finds it unchanged |
| Executions.RunRepository | extensions/coding/src/repository-change-publication.ts:664-870 | Equals `Run`; every push is leased by a clean reconcile of the same execution and, under maintenance, directly follows an ownership check; loops are charged and routed by the budget; feedback is cleared only with a reply; an exception saves nothing; success leaves an open linked request and no pending repair, and a repair that had to reach the branch was pushed and acknowledged before any reply; a merged request completes and a closed one aborts |
| DeliveryResults.FailuresOnlyThrow | extensions/coding/src/repository-change-publication.ts:664-870 | A failing outside call can end an execution, but an execution that does not throw does exactly what it would have done without failures |
| DeliveryResults.OutcomeIs | extensions/coding/src/repository-change-publication.ts:664-870 | The outcome of every execution whose outside calls succeed, for every state and every answer of the world |
| DeliveryResults.SuccessIsDelivery | extensions/coding/src/repository-change-publication.ts:744-869 | Every successful execution made exactly the outside calls that its state asked for, in order, and left exactly their results; nothing moved under it |
| DeliveryResults.RequiredRepairIsPublished | extensions/coding/src/repository-change-publication.ts:791-836 | A repair of feedback or CI that changed the checkout, and every one under maintenance, is pushed and acknowledged before anybody is answered, and the request is at its head |
| DeliveryResults.TargetRebaseIsPublished | extensions/coding/src/repository-change-publication.ts:793-837 | A prepared target rebase is published, read back at the request and acknowledged, and its conflict is gone |
| DeliveryResults.FirstDeliveryOpensTheRequest | extensions/coding/src/repository-change-publication.ts:763-789 | Success leaves a published branch, an open request and the issue link; a first publication comes before the request |
| DeliveryResults.FeedbackIsAnsweredOnce | extensions/coding/src/repository-change-publication.ts:838-865 | Without maintenance a batch is answered by one reply, as the last call of the execution whose repair was about it, or else acknowledged once and handed to a repair turn |
| DeliveryResults.NothingElseIsPublished | extensions/coding/src/repository-change-publication.ts:744-836 | Without a change to publish a successful execution neither pushes nor acknowledges a push |
| DeliveryResults.PublishedHeadIsTheBaseline | extensions/coding/src/repository-change-publication.ts:669-690 | After a successful execution that acknowledged a push, the head is the baseline of later work, no reconciliation is due and the loop budget is whole |
| DeliveryResults.EndedRequestConcludes | extensions/coding/src/repository-change-publication.ts:728-735 | A merged request completes and a closed one aborts, with one reconciliation of the end and no other call |
| Coordinated.VerdictsAgreeIff | extensions/gitlab/src/publication-maintenance.ts:263-271 | On finished repositories of which none was stopped, worker and server verdict differ exactly when an unchanged repository has a request that decides the worker's verdict alone |
| Coordinated.RepositoriesAreIndependent | extensions/coding/src/repository-change-publication.ts:465-501 | The final state of a repository depends on its own state and answers only; foreign and finished ones are untouched |
| Coordinated.RunStopsAtTheFirstObstacle | extensions/coding/src/repository-change-publication.ts:897-952 | A coordinated run executes the unfinished repositories in order up to the first whose source is cancelled or whose execution needs a repair, an operator or throws; which state every repository has afterwards, and the outcome, are exact in each case |
| Coordinated.ExclusiveIsKept | extensions/coding/src/repository-change-publication.ts:897-951 | No coordinated run makes a repository both unchanged and terminal |
| Coordinated.WorkerAndServerAgree | extensions/coding/src/repository-change-publication.ts:938-951 | For any number of repositories, a coordinated run that ends with all finished and none stopped reports the server's verdict |
| Coordinated.ObserveTerminals | extensions/coding/src/repository-change-publication.ts:906-922 | Observed terminal requests end exactly the unfinished repositories they belong to |
| Coordinated.DeliverRepositories | extensions/coding/src/repository-change-publication.ts:897-952 | The loop over repositories has the outcome and states of `DeliverAll`: a cancelled source stops it after one more look at terminal requests, an exception saves nothing, an empty list is refused |
| Fleet.ExecutionIsLocal | extensions/coding/src/repository-change-publication.ts:897-952 | After an execution each repository has the state of its own run, up to a terminal request seen at the end, or everything is as before |
| Fleet.EveryPushOfTheFleetIsLeased | extensions/coding/src/repository-change-publication.ts:749-836 | Over every run in every configuration, each ordinary push of a repository's next execution is leased by a clean reconcile of that execution |
| Fleet.CiRepairsAreBounded | extensions/coding/src/repository-change-publication.ts:702-712 | Over every run, per repository and in every configuration, ciRecoveryCycles stays in 0..3 |
| Fleet.LoopsAreBounded | extensions/coding/src/repository-change-publication.ts:714-726 | Over every run, per repository and in every configuration: at most three loops went back to a worker since the last acknowledged publication or granted retry, and the next one does exactly while there were fewer |
| Fleet.ClosedGatesDoNothing | extensions/coding/src/repository-change-publication.ts:874-895 | Without maintenance, for any number of repositories in every reachable state, closed gates mean that no run would make an outside call or change its state |
| Fleet.ChangeKeepsExclusiveIff | extensions/gitlab/src/publication-maintenance.ts:192-222 | A maintenance write or evidence makes a repository both unchanged and terminal exactly when a request of an unchanged one ends |
| Fleet.VerdictsAgreeOverRuns | extensions/gitlab/src/publication-maintenance.ts:263-271 | Over every run in which requests end only of changed repositories, an execution that finishes all with none stopped reports the server's verdict |
| Fleet.EndsDecideTheVerdict | extensions/gitlab/src/publication-maintenance.ts:192-222 | How the request of a changed repository ended is the server's verdict on its process, and a withdrawn label aborts it |
| Fleet.LooksDecideTheVerdict | extensions/gitlab/src/publication-maintenance.ts:143-148 | A look that stores the end of a request has seen it ended, and stores exactly that verdict |
| Fleet.VerdictsDiffer | extensions/gitlab/src/publication-maintenance.ts:263-271 | From an empty store: a request created by an execution that threw, a repository then found unchanged, and both requests ending lead to completed from the worker and aborted from the server |
| Ownership.BoundaryNeverChanges | extensions/gitlab/src/maintenance.ts:438-503 | With any number of pollers and workers racing on the compare-and-set store, an activation boundary never changes |
| Ownership.ActiveAgainIff | extensions/gitlab/src/maintenance.ts:584-592 | A record that left active becomes active again exactly when a poller's second write goes through although the record it had read again was not active |
| Ownership.SinglePollerNeverReactivates | extensions/gitlab/src/maintenance.ts:403-503 | With polls that do not overlap, and any number of workers, a record that left active never becomes active again |
| Ownership.OverlappingPollsReactivate | extensions/gitlab/src/maintenance.ts:483-592 | From every healthy state two overlapping pollers can make a stopped record active again |
| Ownership.RemovalEndsOwnership | extensions/gitlab/src/maintenance-labels.ts:51-61 | Once the active label was removed after the boundary, every later label read makes the ownership check fail and the next poll ends the record, even if the label was added again |
| Ownership.LabelWritesSettle | extensions/gitlab/src/maintenance-labels.ts:75-125 | For every record and label set: what a label write leaves is exactly the label of the record's status, so merged gets the done label and closed does not; it never restores a label an operator removed, never removes a newer activation, and needs no second write |
| Maintenance.Server.PollBinding | extensions/gitlab/src/maintenance.ts:413-593 | A poll interleaved with anybody at each await is a run of the model. Undisturbed, an active record ends exactly so: deleted when the request is gone, merged or closed as the request was, stopped when it is open but the process is not live, the label was withdrawn or is missing after a recorded activation; otherwise it stays active, and a new binding gets the boundary of the label |
| Maintenance.Server.ObserveBinding | extensions/gitlab/src/maintenance.ts:504-593 | After the first write the record is confirmed, or only its detail changes |
| Maintenance.Server.AssertOwnership | extensions/gitlab/src/maintenance.ts:334-395 | A worker that may write holds an active record of a live process whose label was not withdrawn and nothing it read has changed. Undisturbed, it passes exactly under these conditions on the store and the labels read; a removal known before the call makes it fail |
| Policy.DecisionsKeepCursor | extensions/gitlab/src/publication-maintenance.ts:71-191 | No decision moves the cursor or replaces an unsettled batch, and CI cycles stay within three |
| Policy.DecisionIs | extensions/gitlab/src/publication-maintenance.ts:79-190 | What a look decides for every state without staged evidence: waiting work first at Deliver, unfinished work is left alone, and otherwise the end of the request precedes a conflict, a conflict precedes feedback, and feedback precedes a failure that is not stored |
| Policy.FailureIsCountedOnce | extensions/gitlab/src/publication-maintenance.ts:169-190 | A stored failed pipeline is never counted again |
| Policy.CountedFailureIsStored | extensions/gitlab/src/publication-maintenance.ts:171-180 | A counted failure is stored with its head, so the next look knows it |
| Policy.FailureCountsIff | extensions/gitlab/src/publication-maintenance.ts:169-190 | A decision counts a failure exactly when the evidence is a failed pipeline that is not stored for the observed head and fewer than three were counted |
| Policy.EvidenceIsTheFeedback | extensions/gitlab/src/publication.ts:97-129 | Evidence carries the observed head, and a batch is exactly the observed feedback |
| Policy.UnseenIs | extensions/gitlab/src/external.ts:117-124 | Pending feedback is exactly the notes past the cursor |
| Policy.MessagesAre | extensions/gitlab/src/publication-maintenance.ts:223-245 | The replies are exactly one comment per discussion of the batch, named after its last note, for the head and saying published exactly when the result was |
| FeedbackRuns.FeedbackIsSettledExactlyOnce | extensions/gitlab/src/publication-maintenance.ts:223-256 | Over every run with notes visible in id order: the cursor has passed a note exactly when it is in a settled batch, no note is in two, and its discussion had a durable reply first |
| FeedbackRuns.OnlySettlingMovesTheCursor | extensions/gitlab/src/publication-maintenance.ts:245-256 | The cursor moves only by settling an answered batch, to its greatest note; dispatch never moves it |
| FeedbackRuns.HeadChangeDiscardsIff | extensions/gitlab/src/publication-maintenance.ts:79-104 | A head change while nothing executes discards the unacknowledged result and keeps the batch exactly when the process is away from Deliver or waiting; a parked process at Deliver keeps the result |
| FeedbackRuns.StaleResultIsSettled | extensions/gitlab/src/maintenance.ts:596-631 | In a parked process at Deliver the rest of the same poll answers and settles the stale result |
| FeedbackRuns.StaleResultIsReachable | packages/server/src/process-engine/writes/build-process-park-writes.ts:18-63 | A note handled without a change, a parked process and a moved head lead there from a process before its first feedback |
| FeedbackRuns.OtherPollsSettleNothing | extensions/gitlab/src/maintenance.ts:617-629 | A refused edge and a binding that is not eligible end the poll without replies or settlement |
| FeedbackRuns.CountedFailureWasNotStored | extensions/gitlab/src/publication-maintenance.ts:169-180 | Over every run only a firing edge counts a failure; the pipeline was not stored before, or the head moves with it, fewer than three were counted, and it is stored at once |
| MaintainedFlow.FailureIsCountedTwice | extensions/coding/src/repository-change-publication.ts:791-794 | A run from a published request counts one failed pipeline twice at one head |
| MaintainedFlow.EdgesOpenTheirGates | extensions/gitlab/src/publication-maintenance.ts:97-191 | Every edge the policy chooses on an unfinished repository opens the gate of its repair turn |
| MaintainedFlow.BlocksIff | extensions/gitlab/src/publication-maintenance.ts:79-96 | For every step of a maintained process with one repository: it blocks a repair turn exactly when it is a retry without work, or a quiet look that takes the work away, at a moved head or with no pipeline |
| MaintainedFlow.BlockedBecause | extensions/coding/src/repository-change-publication.ts:1213-1226 | Over every run, a blocked process has such a step, and without one it is never blocked |
| MaintainedFlow.StrandedStays | extensions/coding/src/repository-change-publication.ts:1083-1094 | Until the request ends or is stopped, every continuation of a stranded feedback turn stays there and no worker starts |
| MaintainedFlow.BlockedCiOpensIff | extensions/gitlab/src/publication-maintenance.ts:181-190 | A blocked CI turn opens exactly with a quiet look that shows a pipeline |
| MaintainedFlow.MovedHeadStrandsTheRepair | extensions/gitlab/src/publication-maintenance.ts:79-96 | From a published request: a selected conflict repair loses its conflict to a look at a moved head |
| MaintainedFlow.RetryStrandsTheRepair | extensions/coding/src/repository-change-publication.ts:1220-1225 | From a published request: a conflict is given up, the head moves, and the retry selects a turn without work |
| FeedbackDesks.Poller.AnswerAll | extensions/gitlab/src/maintenance.ts:620-626 | Every discussion of the batch has a durable reply afterwards, whatever others do meanwhile |
| FeedbackDesks.Poller.AnswerAndSettle | extensions/gitlab/src/maintenance.ts:620-631 | The batch is settled exactly when the process is still the one that was answered; the cursor then is the greatest id of the batch and nothing is left to answer |
| Versions.PrintThenParse | scripts/release-contract.ts:140-149 | Printing then parsing X.Y.Z is the identity below the safe-integer bound and fails at or above it |
| Versions.ParseThenPrint | scripts/release-contract.ts:140-149 | Only canonical text is accepted |
| Versions.TextOrderIsTotal | scripts/release-contract.ts:134-138 | Comparison is a total order on accepted text in which only identical text is equal |
| Versions.CalculatedVersionIncreases | scripts/release-contract.ts:109-131 | Every calculated version is canonical text of a strictly greater version: the requested one, or exactly the next one for the kind of change, lower counters reset, with every promise one counter weaker before 1.0.0 |
| Versions.CalculationDecides | scripts/release-contract.ts:109-132 | Throws exactly for a version that cannot be read and a requested one that does not increase it; no release exactly when the commit asks for none |
| Versions.CoveringIsLeast | scripts/release-contract.ts:123-131 | A version that was not requested is the least one that keeps the promise of the change |
| ReleaseQueues.AppendingExtends | scripts/release-main.ts:165-191 | Appending to main only extends the derived sequence, and a failing one stays as it is |
| ReleaseQueues.SequenceIsAChain | scripts/release-main.ts:182-190 | Each release names its predecessor and is greater |
| ReleaseQueues.SequenceIncreases | scripts/release-main.ts:182-190 | Versions increase along the whole sequence and lie above the baseline |
| ReleaseQueues.EveryAskingMergeIsReleased | scripts/release-main.ts:183-190 | The derived releases are, in order, exactly the merges that ask for one |
| ReleaseQueues.FreshVersion | scripts/release-main.ts:183-190 | No version is given to two merges or equals the baseline |
| ReleaseQueues.AscendingIsUnique | scripts/release-main.ts:233-237 | Sorting tags by precedence has one result |
| ReleaseQueues.TagsAreAPrefix | scripts/release-main.ts:252-272 | The tags above the baseline sorted by version are a prefix of the derived sequence |
| ReleaseQueues.ReservedIsAccepted | scripts/release-main.ts:252-274 | In a state earlier runs produced, the next run picks the unfinished last tag, else the next derived release, else nothing |
| ReleaseQueues.ReservedIsNotRejected | scripts/release-main.ts:273-291 | With CI green the picked release can always be reserved or repaired |
| ReleaseQueues.PickIsTheOldestUnpublished | scripts/release-main.ts:238-272 | From any tags and releases, also foreign ones: a picked release is the oldest derived one that is not published, every older one has its own reservation and is published by the automation, and nothing above the baseline is foreign |
| ReleaseQueues.AttemptIsGated | scripts/release-main.ts:273-292 | Without main CI for source and tooling and validated contents nothing is written; with them a surviving attempt chooses the release exactly when an earlier reservation points to the same commit; at most its own tag and draft are added |
| ReleaseQueues.ReservationsNeedCi | scripts/release-main.ts:221-292 | Over every run no tag is moved or removed, and every new tag was added by an attempt that found main CI passed for its source and its tooling |
| ReleaseQueues.QueueStaysConsistent | scripts/release-main.ts:206-292 | Over every run of merges, attempts killed between any two writes and publications: the tags are a prefix of the derived sequence, only the last may be unfinished, and the next attempt is not rejected while every Release-As increases and CI passes |
| ReleaseRuns.Releases.Next | scripts/release-main.ts:182-190 | The lazy generator yields the derived sequence one by one, ends with it and throws where it fails |
| ReleaseRuns.Repository.SortTags | scripts/release-main.ts:226-237 | The stable tags above the baseline in order of precedence, or a failure exactly when a stable tag cannot be compared |
| ReleaseRuns.Repository.CheckRegistry | scripts/release-main.ts:238-251 | Passes exactly when the baseline is published and owned and no release above it lacks a tag |
| ReleaseRuns.Repository.Choose | scripts/release-main.ts:252-274 | Refuses exactly the inconsistent tag states; otherwise repairs an unfinished last tag before it picks the next derived release |
| ReleaseRuns.Repository.Resolve | scripts/release-main.ts:206-292 | One run, killed between any two writes or not: the outcome is that of the step the queue theorems speak about; a release is chosen only with main CI for its source and the tooling and with contents that validate, tags and releases only grow, and every new tag names a source with main CI |
| Lockstep.CheckLockstep | scripts/release-contract.ts:34-84 | No errors exactly when every manifest, lock record, chart and image carries the root version |
| Lockstep.CheckDependencies | scripts/release-contract.ts:152-167 | No errors exactly when every dependency on a workspace is exact |
| Lockstep.UpdaterEstablishesChecker | scripts/release-main.ts:79-122 | With every lock record present, the updated files are valid exactly for a semantic version and the public server image |
| Lockstep.StableIsSemVer | scripts/release-contract.ts:21-21 | Every X.Y.Z passes the checker's version pattern |
| Lockstep.ReleasesAreInLockstep | scripts/release-main.ts:127-140 | Whatever version main asks for, preparing it from a complete checkout passes the checker |
| Lockstep.UpdateManifest | scripts/release-main.ts:83-91 | Only the version and the dependencies on workspaces change |
| Lockstep.Checkout.UpdateLock | scripts/release-main.ts:100-108 | Fails exactly when a workspace has no lock record, and updates the local records only |
| Lockstep.Checkout.UpdateVersions | scripts/release-main.ts:79-122 | Fails exactly on a missing lock record; otherwise every manifest, local lock record, chart and image carries the version and nothing else changes |
| Catalog.AnswersAreTheLatestScan | extensions/gitlab/src/repository-catalog.ts:57-88 | For every interleaving, once a scan of the entry that serves a profile has completed, peek and search answer from the latest successful one of that entry |
| Catalog.PageIsFirstHits | extensions/gitlab/src/repository-catalog.ts:62-65 | A page is the first hundred projects, in the order of the scan, whose lower-cased path holds the query at some position |
| Catalog.FindIsFirst | extensions/gitlab/src/repository-catalog.ts:83-88 | The first project with the id, and none exactly when no project has it |
| Catalog.QueryIsTrimmed | extensions/gitlab/src/repository-catalog.ts:59-60 | The query is the text without white space at both ends, letter by letter in lower case |
| CatalogOrigins.LatestScanAnswersIff | extensions/gitlab/src/repository-catalog.ts:30-56 | The scan a profile is answered from is the latest successful one of its installation exactly when the profile was not used elsewhere since that scan was started; otherwise it is older or absent |
| CatalogOrigins.AnswersAreTheLatestScanOfTheOrigin | extensions/gitlab/src/repository-catalog.ts:57-88 | Then peek and search answer from that scan; in any case from the serving entry's own latest one, and a profile that no entry serves knows nothing |
| CatalogOrigins.SwitchingBackHidesTheLatestScan | extensions/gitlab/src/repository-catalog.ts:39-49 | Switching away and back while a scan is in flight: it ends last and finds a project that peek does not know |
| Catalog.AnswersAreOfTheOrigin | extensions/gitlab/src/repository-catalog.ts:30-38 | An entry is only written by calls to its own installation; a late result of another one reaches no serving entry |
| Catalog.LateSearchChangesNothing | extensions/gitlab/src/repository-catalog.ts:68-79 | A search that ends after a scan of its entry changes nothing |
| Catalog.FailedScanChangesNothing | extensions/gitlab/src/repository-catalog.ts:39-56 | A failed refresh leaves the previous snapshot and everything else |
| CatalogServices.Service.EntryOf | extensions/gitlab/src/repository-catalog.ts:30-38 | The entry that serves the profile's installation, a new empty one when it changed |
| CatalogServices.Service.PeekAt | extensions/gitlab/src/repository-catalog.ts:83-88 | The first project of the snapshot with the id, none when no project has it, or the known one before a scan |
| CatalogServices.Service.SearchFor | extensions/gitlab/src/repository-catalog.ts:58-82 | A scanned entry answers at once with the first hundred projects, in the order of the scan, whose lower-cased path holds the trimmed lower-cased query at some position; an unscanned one shares one remote search per query, and a query below two characters gets nothing |
| CatalogServices.Service.SearchSucceeded | extensions/gitlab/src/repository-catalog.ts:70-75 | A result is learned exactly while its search still owns the query: each project it names is known with its last description, all others stay |
| CatalogServices.Service.SearchFailed | extensions/gitlab/src/repository-catalog.ts:76-79 | No peek changes, and only the failed query, if it still owned its result, starts a new search |
| CatalogServices.Service.Refresh | extensions/gitlab/src/repository-catalog.ts:39-51 | Joins the scan in flight of the serving entry, or starts one for the installation of the profile |
| CatalogServices.Service.ScanSucceeded | extensions/gitlab/src/repository-catalog.ts:42-49 | Exactly the profiles that the entry serves are answered from the scan, all others as before |

## Left out

- File locks, process liveness probes, HTTP clients, pagination, retries, polling schedules and backoff.
- Repository binding and origin checks, ignored-file and submodule checks, Git identities, author and sign-off data, commit-message text.
- The internals of the target rebase (`startRebase`, `publishRebase`): its publication is one answer of the world, and its own lease is not modelled.
- A push that the server applies after the worker has already read the branch again.
- Publishers.Publisher.PushAndVerify: receipt bindings are not modelled, because they are compared for equality only.
- The private refs under `target-repairs` and `target-deltas`: they are written before the journal and never read.
- The `changed` flag of a reconciliation across a crash after its last save.
- Legacy `pendingEvidence` under maintenance: the policy routes it, the theorems assume there is none.
- DeliveryFlow.NeverStuck: single repositories without maintenance, and only for prompt evidence, because it is false otherwise; `DeliveryFlow.StuckIff` and `MaintainedFlow.BlockedBecause` say exactly when. Turn selection of coordinated processes is covered per execution by `OutcomesOpenTheirGates` and `EdgesOpenTheirGates`.
- DeliveryRuns.EveryPushIsLeased: a reconcile that is given a baseline and finds the branch absent throws, as reconcilePublicationRepository does; a target rebase is never published before the branch is.
- How a process decides on eligibility, write suspension, startup retries and completion writes of maintenance.
- Review and inline cursors: they are always zero for GitLab.
- Reading `Release-As`, `BREAKING CHANGE`, `feat` and `fix` out of a commit message: `Intent` holds what was read.
- Release policy activation on main, changelog and release notes, and publishing the packages of a draft.
- Catalog.AnswersAreTheLatestScan: lower-casing and trimming are ASCII only.
- Forgejo, GitHub and Jira adapters, launchers, forms, prompts, progress reports, tickets, deployment and development scripts: they would only add easy members.
