# Verified model of ContribOS

ContribOS drives a contribution to an open-source repository from a conversation to a
Draft pull request: it plans, edits in a sandbox, verifies, publishes, and signs the
contributor agreement. Everything it does is recorded in hash-chained journals and runs in
leased jobs that may crash, expire, be cancelled and be retried at any point.

This project models the parts of it that have to be right in every interleaving, and proves
what they promise. `dafny verify dfyconfig.toml` checks the whole of it.

| module | what it models |
|---|---|
| ClaOutbox, ClaProtocol, ClaGuarantees, ClaExample | `app/cla.py`: consent, outbox and receipt of the contributor-agreement comment, as transactions and as a protocol of any number of workers |
| StageControl, StageRuns, StageCoupling, StageGuarantees, StageFutures, StageExamples | `app/execution_control.py` over `app/executions.py` and `app/jobs.py`: bounded stage runs, their leases, completion, cancellation, reconciliation and retry |
| ChangeSets, RepairRounds, TextEdits | `app/coding_repair.py`, `app/coding.py`: repair rounds rebased into one change set, and the exact text edits under them |
| Canonical, CanonicalSize, AuditChain | `app/provenance.py`, `app/audit.py`: canonical JSON and what its injectivity carries |
| Artifacts | `app/artifacts.py`: content-addressed storage and the manifests of stage bundles |
| Utf8, Paging, Admission | `app/context_compaction.py`, `app/agent_context.py`: byte-exact paging and the shares of a bounded prompt |
| ProposalBudget, BudgetProofs | `app/coding_budget.py` and the call sites that spend it |
| TurnProtocol, TurnRuntime, TurnProofs, TurnReplays, TurnExamples | `app/conversation_protocol.py`, `app/conversation_reasoning.py`, `app/agent_runtime.py`: what a model may answer, and the turns that ask it |
| StopScope, StopProofs | `app/contribution_workflow.py`: stops, and the coordinator's ticks that carry them out |
| Folding | `app/code_compressor.py` |
| Prelude, Jobs, Ordering, Dict, Text | results and options, job states, string order, Python dicts and `str` methods |

## How it is modelled

- A locked transaction is one atomic step, and so is a write that names the state or the version
  it expects to find. Where the code reads before it locks, the read and the write are two steps,
  and anything may come between them.
- `recover_expired`, `request_cancel` and `retry` of `app/jobs.py` lock nothing. Each reads a row
  of the jobs table outside any transaction and later writes, by its id, the columns that it has
  changed. In every protocol with jobs a session therefore holds rows as it has read them
  (`ReadRow`), and writes them in a later step (`Expire` or `LoseLease`, `Cancel`, `Retry` and so
  on) whatever they have become. The reconciliation of stage runs is no step either: it reads and writes rows,
  and settles each run on its own (`Settle`), as it read the job and against the version that is
  current then.
- A protocol is a state, a `Step` datatype that carries everything nondeterministic (replies,
  clocks, which job or worker), and a function `Next`. Safety is proved for every sequence of
  steps, whichever of them are refused.
- Code that changes rows or lists in loops is also written as methods, each proved equal to the
  function that the theorems are about.
- Record hashes of rows in one table stand for the rows: an event is known by its place in its
  journal, a stage version by its place in its attempt. SHA-256 itself is a function parameter;
  theorems that depend on it either exhibit the collision or name injectivity as a hypothesis.
- In ClaProtocol a worker id runs one coroutine at a time, as `run_once` does, and the remote
  only gains comments.

## What the model shows to be otherwise than one would expect

- `complete()` on a run whose job has ended compares with the attempt's current version, not
  with the run's own: a completion of an older run is acknowledged with the outcome of a later
  one. It speaks of the run's own outcome exactly when the run is the last of its stage
  (ReplaySpeaksOfLastRun, LaterOutcomeAcknowledged).
- `prepare_retry` checks the budget of the run it is given. Given an older run of a stage whose
  budget is spent, it appends a pending version that can never be scheduled and never ends
  (RetryCanBeScheduledIff, StuckForever, RetryOfOlderRunSticks).
- A reaper, a cancellation or a retry writes over a row that has changed since it was read:
  - A run that succeeds before the reaper writes is timed out and its stage has succeeded;
    settling it is refused from then on (ReaperOverSuccess, SettlingRaisesIff). A cancellation is
    accepted of a run that has succeeded (CancelledAfterSuccess, AcceptedTooLateIff). Job and
    stage come apart exactly by the writes that TakenApartIff names, and by none that finds its
    row as it was read.
  - A proposal that was continued is queued again, and two current workers of one chain make a
    seventh call (TwoCurrentWorkers, ChainIsALine).
  - A decided turn is queued again beside the job that observes it again, and one turn journals
    six calls (SixCalls); each job still keeps to its own share (JobKeepsItsShare).
  - A reading job of the contributor agreement times out with its status in the journal
    (StatusOverwritten); the signature is posted at most once all the same.
- The call budget of a proposal chain is read, and the lease checked, before the call is
  journaled, and not in the same locked transaction. A worker that loses its lease in between
  can make a seventh call (SeventhCall). If the append asked whether its worker still runs the
  attempt it measured for, and no session wrote over a job that its chain has gone on from, the
  limit would hold in every run (ChainStaysWithinItsBudget, UndisturbedChainStaysWithin). As it
  is, a chain exceeds it by no more than the calls made out of such an attempt or beside another
  current worker (OverrunsAreLapsedOrRivalled), first exactly when a call finds the chain spent
  (FirstOverrunIff).
- A worker that finds its call journaled already makes it again: four journaled calls can be five
  requests to the provider (FiveRequests), and never more than one again for each time that the
  job is leased anew (ProviderIsAskedOnceMore).
- A coordinator's tick takes no lock: it looks at rows that it read before it cancelled, and
  moves the task later still. It returns the task to planning while a frozen job is queued if
  a retry or a reaper has queued the job since (PlanningFindsTheStopDoneIff, OvertakenByRetry,
  OvertakenByReaper), and for a stop
  that no longer stands if the execution was authorized since (StopStillStandsIff,
  OvertakenByAuthorization). It cancels outright a job that started after it was read queued
  (RunningJobIsOverwritten).
- A path that begins with a dot or slash is normalised away from the path that was approved and
  checked (RequestedPathsKept, DotfileMisdirected); the set of a first round is refused by the
  next repair view exactly when a requested path does not come back to an allowed entry of the
  base, or a limit is exceeded (FirstRoundClosesIff). A change set allows files of 1 MB, the
  next view only 700 kB (NextViewOpens). A round that takes back all earlier changes is refused
  (RoundIsEmptyIff).
- Indexed data of more than 2,016,000 bytes cannot be read to its end (BeyondTheLimit).
- Bytes stored under a media type of more than 255 characters cannot be stored again under it
  (StoredAgainIff), and a bundle is refused whose bytes are known under another media type
  (FinalizeAcceptsIff).
- The advertised answer schema admits blank replies, unbound evidence reads and, for v4,
  observations with an action, which the parser refuses (ShapedIsAcceptedIff).
- The fold of long texts would lose and repeat lines below a limit of 34; the limits in use are
  150 and 300 (FoldConservesIff).

## Model

| member | source | states |
|---|---|---|
| ClaProtocol.AtMostOncePerPrAndAccount | app/cla.py:336-389 | in every run of workers, crashes, expiries, retries, requests and consents, no two signature POSTs are for the same PR and GitHub account |
| ClaProtocol.EveryPostWasAuthorized | app/cla.py:102-136 | every POST belongs to a recorded consent to a preview without signature or passed check, the latest both when the user agreed and when the write began |
| ClaProtocol.EveryReceiptHasItsComment | app/cla.py:329-334 | a submission event is recorded only for a comment that is on the remote |
| ClaProtocol.UnsignedMeansNew | app/cla.py:71-74 | consents wait for earlier receipts, so a scan that began without a signature means no earlier write was for the same PR and account |
| ClaProtocol.UnsentMeansNew | app/cla.py:360-379 | while its preview is the latest and nothing was started for it, a consent's write is the first for its PR and account |
| ClaProtocol.WriteKeeps | app/cla.py:371-379 | starting the write keeps the protocol invariant: the fence, the unfenced write_started check and the latest-preview check together |
| ClaProtocol.StepKeeps | app/workbench_worker.py:28-130 | every step of every worker, of the sessions that write rows back, and of the world keeps the invariant |
| ClaExample.SignatureIsPossible | app/cla.py:336-389 | a run of the protocol that previews, confirms, posts once, sees the comment and records the receipt |
| ClaGuarantees.RequestedOnce | app/cla.py:77-94 | an accepted read request is answered with the same job in every later state, to its account only and without change; at most 64 reads are ever made |
| ClaGuarantees.ConsentIsFresh | app/cla.py:102-136 | in every run each consent was given to the latest preview, without signature or passed check; no other consent is for that preview or job; and every write begun before it had its receipt |
| ClaGuarantees.WritesAreApart | app/cla.py:371-379 | a consent's write is begun once, by the job the consent was given for; no two writes share a consent, a job, or a PR and account |
| ClaGuarantees.SignedIsOnTheRemote | app/cla.py:384-389 | a signing job has succeeded only with the receipt of its consent in the journal and its comment on the remote |
| ClaGuarantees.ReceiptsAreApart | app/cla.py:329-334 | no consent has two receipts, whoever records them |
| ClaGuarantees.StatusIsObservedOnce | app/cla.py:301-327 | a reading job that has succeeded has its observed status in the journal, and no job has two |
| ClaGuarantees.StatusMeansSuccess | app/cla.py:301-327 | a reading job has succeeded exactly if its status is in the journal, in every run in which no session writes over its success a row that it read before |
| ClaGuarantees.SuccessUndoneIff | app/jobs.py:487-525 | a success is undone exactly by a session that comes to write another state over it |
| ClaExample.StatusOverwritten | app/jobs.py:487-525 | a run in which a reading job has timed out with its status observed |
| ClaOutbox.LatestPrepared | app/workbench.py:139-142 | the latest event of its kind among the first n, and none when there is none |
| ClaOutbox.AuthorizationOf | app/cla.py:342-343 | the consent recorded with this very job |
| ClaOutbox.OpenAuthorization | app/cla.py:317-324 | the consent a found comment may be credited to: the latest, for this target and account, without a receipt |
| ClaOutbox.ExistingSignature | app/cla.py:217-228 | reading page by page while the list grows, says "none" only if there was none at the start and "found" only if there is one at the end |
| StageGuarantees.ReconcileLeavesNoStrandedStage | app/execution_control.py:698-731 | if no write has taken a job and its stage apart, reconciliation with nothing between its steps succeeds; afterwards no dead job owns a current pending or running stage, and every running stage has its running job |
| StageGuarantees.ReconcileAloneIff | app/execution_control.py:698-731 | from any reachable state it succeeds exactly if each run whose lease is over has the current stage or has lost it, and then strands no one |
| StageGuarantees.SettlingRaisesIff | app/execution_control.py:791-850 | in every run, settling a run raises exactly when its job was read dead and the attempt's current version is neither the run's own nor a loss of its stage; a run that is settled never has the current stage again |
| StageGuarantees.TakenApartIff | app/jobs.py:387-525 | a job and its stage go together until a step takes them apart, exactly when a session writes an end that its stage did not have, queues a job whose stage has begun, asks a success to cancel, or settles a job that runs or ended otherwise; never if the row is as it was read |
| StageExamples.ReaperOverSuccess | app/jobs.py:487-525 | a run whose reaper leaves a succeeded stage with a timed-out job, which is never settled |
| StageGuarantees.RunningJobRunsItsStage | app/execution_control.py:402-466 | in every run a running job has a running stage that follows its own pending version and carries its job specification; it is the current one if no write has taken the two apart |
| StageGuarantees.SuccessHasItsResult | app/execution_control.py:596-618 | in every run a succeeded job has a stage that ended succeeded with a result; it was not asked to cancel if no write has taken the two apart |
| StageGuarantees.StageEndsAsItsJob | app/execution_control.py:791-850 | an ended job's stage ended the same way or was stopped, or is still to be settled, if no write has taken the two apart |
| StageGuarantees.CompleteOnce | app/execution_control.py:525-696 | an accepted completion ends job and stage together, is answered alike without change when repeated by anyone, and refuses every other outcome |
| StageGuarantees.ReplaySpeaksOfLastRun | app/execution_control.py:559-584 | a repeated completion changes nothing, and is about the run's own outcome exactly when the run is the last of its stage |
| StageExamples.LaterOutcomeAcknowledged | app/execution_control.py:559-584 | a reachable state where a timed-out run is acknowledged with a later run's failure |
| StageGuarantees.RunsAreNumbered | app/execution_control.py:151-180 | the runs of a stage are numbered 1, 2, ... without gap or repetition, within one budget of at most three; all but the last failed or timed out, and still have if no session overturned that |
| StageGuarantees.RetryCanBeScheduledIff | app/execution_control.py:733-789 | what prepare_retry appends can be scheduled exactly when the stage's last run is within its budget and its job failed or timed out, as it has unless a write took it and its stage apart |
| StageGuarantees.StuckForever | app/execution_control.py:177-180 | a pending stage left without budget never changes again, whatever is called |
| StageExamples.RetryOfOlderRunSticks | app/execution_control.py:740-760 | a reachable state in which prepare_retry with an older run has done that |
| StageRuns.AllVerified | app/execution_control.py:264-373 | get_verified refuses no run of a reachable state |
| StageRuns.FinishKeeps | app/executions.py:861-980 | the owner of the end of an attempt is never refused, as its key is new, and its stage ends as asked, whatever its job has become |
| StageCoupling.FinishCouples | app/executions.py:861-980 | a stage that ends leaves every other run with its stage, and its own with it exactly if the two ends agree |
| StageCoupling.StepCouples | app/executions.py:1747-1879 | of every operation and every write of a row as it was read: which keep a job and its stage together, and which do not |
| StageRuns.StepKeeps | app/executions.py:1747-1879 | every operation, and every write of a row as it was read, keeps the legal stage edges, the numbers and keys of runs, and what running and succeeded jobs say of their stage |
| StageControl.StageControlService.RecoverExpired | app/jobs.py:502-525 | the rows that were selected are written back as they were read, whatever they have become |
| StageControl.StageControlService.SelectExpired | app/jobs.py:490-501 | exactly the rows whose lease is over, as they are, in order |
| StageControl.AloneRows | app/jobs.py:487-525 | written at once, those rows are the expired ones, and exactly they end |
| StageControl.StageControlService.SettleRuns | app/execution_control.py:718-731 | settles run after run, and stops at the first that is refused with what was settled before |
| StageControl.StageControlService.ReconcileAlone | app/execution_control.py:698-731 | with nothing between, the loops over expired and stranded runs do what the reconciliation function says |
| StageFutures.ScheduledOnce | app/execution_control.py:78-262 | in every later state the key of an accepted schedule is answered with its run to the same request, refused to any other, and nothing changes |
| StageFutures.BegunOnce | app/execution_control.py:402-466 | in every run, beginning a run again changes nothing, and is accepted exactly of the worker that began it while its job runs and its stage is current; it runs or has ended ever after if no session overturns that |
| StageFutures.CancelledNeverSucceeds | app/execution_control.py:484-523 | after an accepted cancellation neither the job nor its stage ever succeeds: in every run if the job was read waiting or dead; if it was read under way, exactly unless it has succeeded before the request is written, and if no session overturns it later |
| StageFutures.AcceptedTooLateIff | app/execution_control.py:484-523 | a request of a job that was read under way is always accepted and written, and dooms the job exactly if it has not succeeded by then |
| StageExamples.CancelledAfterSuccess | app/execution_control.py:484-523 | a run in which a cancellation is accepted of a run that has succeeded |
| StageControl.LastRun | app/execution_control.py:151-160 | the latest run of a stage, with none after it |
| ChangeSets.RebasePreservesMeaning | app/coding_repair.py:99-122 | applying the cumulative change set to the base gives exactly the files of applying the round's edits to the view, contents and executable bits |
| ChangeSets.RebaseOpMeaning | app/coding_repair.py:106-122 | one edit rebased has its effect on whatever files the cumulative set stood for; deleting a created file cancels its creation |
| ChangeSets.ViewTree | app/coding_repair.py:66-96 | the repair view holds the files of the base with the previous change set applied |
| ChangeSets.RepairContext | app/coding_repair.py:66-96 | the overwriting loop builds exactly that view, or reports the first mismatch |
| ChangeSets.CumulativeOperations | app/coding_repair.py:99-122 | the updating and popping loop computes exactly the rebased set |
| RepairRounds.RoundsCompose | app/coding.py:1036-1037 | over any number of rounds on paths that normalisation leaves on their own allowed entry, whatever else the base lists, the last set fits the base and yields the files of running the rounds one after another |
| RepairRounds.RoundFits | app/coding.py:1688-1749 | such a round's set has distinct, allowed, sorted paths, expects the base's hashes, and passes validation unchanged |
| RepairRounds.RepairAcceptsExactly | app/coding_repair.py:76-96 | a set is accepted as the next view exactly when it fits the base and its files and the view are within the context limits |
| RepairRounds.NextViewOpens | app/coding_repair.py:66-96 | after any accepted round the next view opens exactly when each path of the set is an allowed entry of the base on which validation and the view agree, and the limits hold |
| RepairRounds.FirstRoundClosesIff | app/coding.py:1515-1749 | the same of a first round, in the requested paths: each, normalised as parsing and validation do, is such an entry |
| RepairRounds.RequestedPathsKept | app/coding.py:1515-1583 | a round changes exactly the requested paths if and only if none starts with a dot, slash or space or ends with a space |
| RepairRounds.DotfileMisdirected | app/coding.py:1688-1749 | a proposal for ".a" that becomes a change set for "a", which the next round refuses |
| RepairRounds.RoundIsEmptyIff | app/coding_repair.py:99-122 | a round's edits come to nothing exactly when they delete every earlier operation's path, none of them in the base, and nothing else; then the round is refused |
| RepairRounds.ParseChangeSetProposal | app/coding.py:1515-1664 | the parsing loop yields the operations in order or the first error |
| RepairRounds.AppendKeepsPrefix | app/coding.py:1584-1602 | an append keeps the edited text as a prefix of the new content |
| RepairRounds.CheckedOps | app/proposal_validation.py:36-71 | checked operations are on distinct allowed paths that the view lists, with its prior hashes |
| TextEdits.ApplyTextEdits | app/coding.py:1667-1685 | the loop applies the edits in order or reports the first that fails, with its index |
| TextEdits.RunIsChain | app/coding.py:1667-1685 | a successful run is a chain of replacements, each at the only match of its anchor, every text within the size cap |
| TextEdits.UndoRestores | app/coding.py:1667-1685 | undoing the steps in reverse at their positions restores the original text |
| TextEdits.CountIsOne | app/coding.py:1679-1682 | a non-overlapping count of one means a leftmost match and none clear of it |
| Canonical.CanonicalParses | app/provenance.py:39-46 | a parser of sections 4 to 7 of RFC 8259 recovers the normalised value from the canonical text |
| Canonical.CanonicalInjective | app/provenance.py:39-50 | two values have the same canonical text exactly when they are equal up to the order of object members |
| Canonical.JsonValueIdempotent | app/provenance.py:11-36 | normalising a second time changes nothing |
| Canonical.RecordTextsAgree | app/provenance.py:49-50 | records hashed from equal texts agree field by field |
| CanonicalSize.SizeIsCanonical | app/context_compaction.py:38-39 | the size of canonical JSON is the sum of its parts, whatever the order of members |
| CanonicalSize.PutSize | app/context_compaction.py:38-39 | replacing the value of a member changes the size by the difference of the two |
| AuditChain.AuditLog.Prepare | app/audit.py:67-137 | adds the one event that continues the chain, or refuses without change; a sound chain stays sound |
| AuditChain.AuditLog.Append | app/audit.py:37-65 | appends the next event, refuses without change, or reports a conflict exactly when during each of three attempts another session committed an event |
| AuditChain.AuditLog.Verify | app/audit.py:139-185 | counts the longest sound prefix and names the first fault after it |
| AuditChain.NewEventKeepsChain | app/audit.py:107-135 | an event made from the last row extends a sound chain |
| AuditChain.LastHashBindsLog | app/audit.py:188-210 | two sound logs ending in one hash have the same length and agree on every hashed field and payload, or two different hashed texts collide |
| Artifacts.AcceptedForGood | app/artifacts.py:395-489 | an accepted bundle gets the same manifest again without change after anything else; another bundle of the run is refused without change |
| Artifacts.FinalizeAcceptsIff | app/artifacts.py:395-489 | a bundle of a running stage without manifest is accepted exactly when none of its bytes is known under another media type |
| Artifacts.WrittenManifestVerifies | app/artifacts.py:814-847 | the manifest the writer makes is the one the verifier rebuilds from the tables |
| Artifacts.EveryManifestVerifies | app/artifacts.py:638-768 | the independent verifier accepts every manifest in every reachable store |
| Artifacts.BundleStays | app/artifacts.py:606-636 | later stores never change which bundle a manifest is of |
| Artifacts.StoredIsReadBack | app/artifacts.py:491-510 | a stored id reads back bytes of that digest and length, the stored bytes if the digest is injective, after anything else |
| Artifacts.StoredAgainIff | app/artifacts.py:321-341 | the same bytes are stored again under the same media type exactly when it was not cut to 255 characters |
| Artifacts.ArtifactStore.FinalizeBundle | app/artifacts.py:395-489 | the writing loop and its final verification leave the tables as they were on any error |
| Utf8.DecodeInverts | app/context_compaction.py:293-294 | decoding the encoding of a text gives the text (section 3 of RFC 3629) |
| Utf8.ExcerptIsLongestFittingPrefix | app/context_compaction.py:42-43 | an excerpt is the longest prefix of whole characters that fits |
| Paging.ReadPage | app/context_compaction.py:285-295 | the back-off loop ends at the last character start within the page |
| Paging.PageIsExact | app/context_compaction.py:285-295 | a page at a character start is never refused, is the text up to the next start it names, and at most three bytes short |
| Paging.FollowingReadsEverything | app/context_compaction.py:30-35 | following next_offset with any allowed sizes terminates, is never refused and reads exactly the text, within the offset limit |
| Paging.BeyondTheLimit | app/context_compaction.py:30-35 | of longer data no reader reaches the end |
| Admission.FillingFitsIffStubsFit | app/agent_context.py:129-166 | after the shares are filled the request fits exactly when it fits with every result reduced to its stub |
| Admission.PageWithinShare | app/agent_context.py:148-166 | a page is between its stub and its stub plus its share |
| Admission.FillIsLongest | app/agent_context.py:156-159 | the files shown are the longest prefix of the ranking that fits |
| Admission.RankedInRank | app/agent_context.py:152-154 | ranking keeps every file and puts shallower paths first, then shorter ones, then by name |
| Admission.Draft.ShareEvidence | app/agent_context.py:129-166 | the two loops that replace each result's data in place do what the sharing function says |
| Admission.Admit | app/agent_context.py:167-187 | a prompt is returned exactly when its bound is within the per-call limit and the remaining task budget and output is left; the receipt says the same |
| BudgetProofs.ChainStaysWithinItsBudget | app/coding.py:962-982 | a chain makes at most six calls, or eight after its one extension, in every run in which no call is journaled by a worker whose measured attempt is over and no session writes over a job that its chain has gone on from |
| BudgetProofs.UndisturbedChainStaysWithin | app/coding.py:962-982 | so it does if every row is written back as it was read, and no refused draft is resumed |
| BudgetProofs.OverrunsAreLapsedOrRivalled | app/coding.py:967-982 | in every run a chain exceeds that by no more than the calls journaled by workers whose measured attempt was over or beside another current worker that had measured the chain |
| BudgetProofs.FirstOverrunIff | app/coding.py:967-982 | in every run, a step takes a chain over its budget exactly when it journals a new call, for a chain that proposal_budget finds spent, of a worker whose measured attempt is over or that is current and has missed a call; of the second kind there is none under both fences |
| BudgetProofs.ChainIsALine | app/coding_reads.py:50-86 | while no session writes over such a job, each job of a chain but the last has ended and was gone on from, by reads, source reads or recovery, so at most one waits or runs; a step ends that exactly when it is such a write |
| BudgetProofs.UndisturbedReopensIff | app/contribution_workflow.py:435-520 | a session whose row is as it was read writes over such a job exactly when it resumes a refused draft whose read was recovered |
| BudgetProofs.SeventhCall | app/coding.py:967-982 | a run in which a lapsed worker makes a seventh call |
| BudgetProofs.TwoCurrentWorkers | app/jobs.py:487-525 | a run in which a reaper queues a continued job again, and two current workers make seven calls |
| BudgetProofs.EveryHistoryIsAccepted | app/coding_budget.py:52-86 | proposal_budget accepts every history the system can write, with at most one extension, made at exactly six |
| BudgetProofs.UsageNeverFalls | app/coding_budget.py:52-86 | neither use nor limit ever goes down |
| BudgetProofs.RootIsCarriedThrough | app/coding_reads.py:140-142 | the root id of every job is the job its chain began with, and never changes |
| BudgetProofs.ExtendKeeps | app/coding_budget.py:89-136 | an extension is accepted by the reader, changes no use and lowers no limit |
| BudgetProofs.ExtendedOnce | app/coding_budget.py:98-106 | after an accepted extension, in every later state the same decision is answered without change and any other for that chain refused |
| ProposalBudget.ReadBudget | app/coding_budget.py:52-86 | the loop computes use, limit and grant, and refuses any history with a second or unfounded grant |
| TurnProtocol.AcceptedHasTheAdvertisedShape | app/conversation_protocol.py:83-117 | every accepted decision satisfies the schema advertised for the same actions, names and read allowance |
| TurnProtocol.ShapedIsAcceptedIff | app/conversation_protocol.py:120-140 | an answer of that shape is accepted as it stands exactly when its reply is not blank, its reads are bound and an observation responds |
| TurnProtocol.AcceptedAgain | app/conversation_protocol.py:83-117 | an accepted decision is accepted again with nothing left to normalise |
| TurnProtocol.ReadFieldsIffSchema | app/conversation_protocol.py:23-33 | among reads that need no coercion of a text or boolean to an integer, exactly those that satisfy the advertised schema have valid fields |
| TurnProofs.TurnMakesFourCalls | app/agent_runtime.py:252-277 | in every run that revives no decided job, a turn journals at most four model calls however often it is observed again; consumed plus own calls is its total at every step |
| TurnProofs.JobKeepsItsShare | app/agent_runtime.py:252-277 | in every run a job makes no more calls than its turn had left, and a turn no more than ten; its last job counts all of them exactly as long as none was made by a job after it was observed again |
| TurnProofs.TotalsSpoiltIff | app/conversation_reasoning.py:451-459 | a step spoils the count exactly if it journals a call of a job that has been observed again |
| TurnExamples.SixCalls | app/jobs.py:487-525 | a run in which a reaper queues a decided turn again and the turn journals six calls |
| TurnReplays.ProviderIsAskedOnceMore | app/conversation_reasoning.py:451-459 | in every run the provider is asked once for each journaled call of a job, and again at most once for each time that the job was leased anew |
| TurnReplays.UndisturbedTurn | app/conversation_reasoning.py:451-459 | in every run whose rows are written back as they were read, at most once again for a job, so at most five times for a job and eight for a turn |
| TurnExamples.FiveRequests | app/conversation_reasoning.py:451-459 | a run in which four journaled calls are five requests |
| TurnProofs.ObservationsNeverAct | app/conversation_reasoning.py:514-523 | no journal holds an observation and an action of one message |
| TurnProofs.ClassificationIsKept | app/agent_runtime.py:99-113 | a message is classified at most once and keeps its classification |
| TurnProofs.CallIsOfTheCountedAttempt | app/conversation_reasoning.py:451-454 | whoever makes a call, its lease lost or not, journals the call of the attempt it counted if that is still the next one, and nothing otherwise |
| TurnProofs.LoopAdvances | app/conversation_reasoning.py:378-386 | a worker that goes round again has more calls behind it |
| TurnProofs.ExecuteReasoning | app/conversation_reasoning.py:378-580 | the while-true loop of one worker ends, with its job decided or given up |
| TurnProofs.RefreshedOnce | app/agent_runtime.py:252-277 | in every run a decision's job is observed again at most once, by a later job of its message that has consumed no more than it has made, and exactly that if no decided job is revived |
| TurnRuntime.PurposeOf | app/agent_runtime.py:127-131 | the classification of a message, present exactly when it was classified |
| StopProofs.StopCancelsItsScopeOnly | app/contribution_workflow.py:297-332 | over every run, however ticks are overtaken, a scoped stop asks only its frozen jobs to cancel, all enqueued before it and none a remote write |
| StopProofs.PlanningFindsTheStopDoneIff | app/contribution_workflow.py:525-548 | in every run, a tick that returns the task to planning finds every frozen job ended exactly unless one was queued anew since the tick read the jobs and still goes; whatever is not over was queued after the stop |
| StopProofs.StopStillStandsIff | app/contribution_workflow.py:525-532 | the stop it does that for still stands exactly if no stop, start or authorization was journaled since the tick read the journal |
| StopProofs.OvertakenByRetry | app/contribution_workflow.py:534-548 | a run in which the task returns to planning while the frozen job is queued |
| StopProofs.OvertakenByReaper | app/jobs.py:487-525 | a run in which it does so while a reaper queues the frozen job, which had ended, as it read it before the stop |
| StopProofs.OvertakenByAuthorization | app/contribution_workflow.py:529-548 | a run in which it returns to planning for a stop that stands no longer |
| StopProofs.RunningJobIsOverwritten | app/contribution_workflow.py:534-536 | a run in which a tick cancels outright a job that has started since it was read |
| StopScope.Workflow.StopWorkflow | app/contribution_workflow.py:297-319 | freezes the unfinished jobs and asks them to cancel, once per key, unless a remote write is under way |
| StopProofs.AdvanceAlone | app/contribution_workflow.py:525-548 | a tick that nothing overtakes moves the task only for a stop that stands and whose frozen jobs have all ended |
| Folding.EveryLineOnce | app/code_compressor.py:122-176 | every line is taken once and in order; exactly the shortest balancing body is skipped; no more lines are shown than read |
| Folding.PieceIsExact | app/code_compressor.py:131-171 | where a signature and its body begin and end, and when the index goes back |
| Folding.FoldBodies | app/code_compressor.py:122-171 | the loops, with their step back, terminate and compute the fold |
| Folding.FoldConservesIff | app/code_compressor.py:179-195 | head, omitted count and tail account for every line of every text exactly when the limit is at least 34 |

## Left out

- GitHub, the model providers, Docker, the file system and the database engine: their replies are
  arguments of steps, a transaction is one step, and a file once written stays.
- Secret scanning, sizes of media types in the database, and the transport and signature checks of
  job specifications: abstract predicates or boolean arguments.
- Floats, dates and non-string keys in `_json_value` (app/provenance.py:11-36): the domain is JSON with
  string keys and integers.
- CLA: agreement parsing, check runs and the text of comments; a PR belongs to one task, so the
  journal and jobs of one task are modelled. A receipt repeated by the same job with other comment
  fields is not told apart from one with the same.
- StageControl: workspaces, input hashes and sandbox policies of stage versions (one boolean), the
  order in which queued jobs are leased (any), and keys of callers that look like the internal ones.
  `schedule_current` and `prepare_retry` read the job of the earlier run in the step in which they
  append.
- RecoverExpired, SettleRuns, ReconcileAlone: a method runs alone; what may come between its steps is
  in the steps of the protocol, and in the rows that RecoverExpired is given as read at any time.
- ProposalBudget: the attempt's plan, context and conversation bindings are one value per root; other
  conditions of an extension are one boolean. `read_cache` is not modelled.
- ReadFieldsIffSchema: a text of digits or a boolean for start_line or offset, which pydantic coerces and
  the schema does not admit, is refused by the model, so of those reads the equivalence says nothing.
- TurnProtocol: the JSON text; a wire value is parsed JSON. The lists of names and actions are parameters.
- TurnRuntime: which evidence is read, usage receipts, and the limit on reads; an answer over that limit
  is refused. Classifying and deciding are two steps also when there is nothing to classify and the code
  does not commit between them.
- ProposalBudget, TurnRuntime: that a job was asked to cancel is an argument of the reaper, and does not
  keep the job from being leased or from ending otherwise; the runs with the flag are among those without.
- StopScope: the automation's own steps when no stop stands, and failures inside a tick other than giving
  it up.
- Paging: which references a task may read, and inventory queries, which only choose the text.
- Admission: the earlier indexing of memory, dialogue and observation; the theorem holds for whatever
  request they leave. `compact_prompt` is not modelled.
- Artifacts: the binding of a manifest to a succeeded job and stage, and damage to stored files.
- Folding: the regular expressions that recognise a signature (a parameter), the joining of lines, and
  the Python folder.
- Routes, settings, the command line, dashboards and the remaining services.
