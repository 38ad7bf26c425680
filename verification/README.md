# Durable workflow platform: verified model

A Dafny model of the platform's workflow engine and of the parts its guarantees rest on, with proofs of what they
promise and of where they do not keep it. `dafny verify dfyconfig.toml` checks the whole project.

**The workflow engine** (`States`, `Records`, `Workflow`, `WorkflowProofs`, `JobSafety`, `WorkflowSafety`,
`JobLifetime`, `Refinement`, `Orchestrator`, `Worker`, `ReadyRun`, `Lookups`, `CouncilDecisions`, `Resume`,
`StagePaths`, `JobPaths`, `Updates`, `Provenance`). A project is a record; every handler of
`src/orchestrator/orchestrator.js` is a function from the stored project and the answers of the outside world
(Council, Cursor, provisioning, verification, packaging, security: all arbitrary, and free to depend on the project
that is shown to them) to the snapshots it saves, the record it leaves in memory and its outcome. A handler that
throws loses what it changed since its last save, and a crash may cut the snapshots off anywhere. `Trace` is any
sequence of such durable steps from the creation of a project: passes of the in-process loop or queued jobs of any
type met in any state, failures, retries, boot recovery and owner decisions. `Orchestrator.Engine` is the same engine
in the form of the source, a class whose methods update the project in place, proved to do what the functions say; its
loop, and the loop of a worker over it, carry the results for callers. What each step does is also said on the records
alone, without the functions that define it: what the Council's answer decides (`CouncilDecisions`), where every stage
leads (`StagePaths`), which stage a retry resumes (`Resume`), what a job does where (`JobPaths`); and every action is
a path of elementary updates (`Updates`), from which follows where everything on record comes from (`Provenance`).

**The gate and its evidence** (`Gate`, `OpenGate`, `GateReasons`, `Lineage`, `Verification`, `StageRecords`,
`EvidenceLink`, `EvidenceRuns`), **the delivery ledger** (`Delivery`, `Deliveries`) and **the lock around owner
decisions** (`ProjectLock`, where callers interleave at every await).

**The job queue** (`Queue`, `QueueClaims`, `QueueRuns`, `QueueAttempts`, `QueueLate`, `JobKeys`, `JobQueue`):
statements over the jobs table with its two partial unique indexes, one clock and any number of workers; each SQL
statement or transaction is one step.

**Self-contained algorithms**: `Schema` and `Completion` (validated completion with repair and retry), `Council` (the
minority rule and the independent round), `RateLimit`, `Boundary` (path containment) and `ProjectDocument` (rows and
back).

## Model

| member | source | states |
|---|---|---|
| `WorkflowSafety.EveryEntryIsCertified` | src/orchestrator/orchestrator.js:992-1045 | in every run, with failures, crashes, replays, retries and stray jobs anywhere, each entry of a real project into READY_FOR_OWNER_REVIEW was made by an action that finished the delivery of that same project: its history is the one before the action, extended, plus the one edge, its ledger and level are what preparing it gives, and the whole gate was open on it, the error check and the world's security verdict on the project being delivered included |
| `WorkflowSafety.EntryNeedsSecurityClear` | src/orchestrator/gate.js:108-110 | for a real project that open gate includes a clear security verdict on the very project whose delivery was finished |
| `WorkflowSafety.ReadyIsAlwaysCertified` | src/delivery/lineage.js:49-113 | for as long as a real project is READY, the latest run's review and the final decision are COMPLETE and the current READY delivery names the final git checkpoint, which every recorded verification, runtime, visual and screenshot checkpoint confirms |
| `ReadyRun.AProjectBecomesReady` | src/orchestrator/orchestrator.js:150-234 | a concrete run of six queued jobs takes a real project with required checks from its creation to READY, with an owner who may request changes: the results about READY projects are about something |
| `WorkflowSafety.FailureOnReadyBreaksOnlyTheErrorCheck` | src/orchestrator/orchestrator.js:313-326 | a failure recorded on a READY project leaves it READY, and the gate then rejects it for the recorded error and for nothing else |
| `CouncilDecisions.ReviewFollowsTheAnswer` | src/orchestrator/orchestrator.js:868-935 | a review without a decision on record asks the Council about the stored project: without an answer nothing is recorded, otherwise the answer is stored as it was given, and the project goes to FINAL_VERIFICATION exactly when it is not CHANGES_REQUIRED and no blocking evidence overrules a COMPLETE; if not, CHANGES_REQUIRED is on record and the next Cursor iteration opens, or the limit of iterations throws |
| `CouncilDecisions.ReviewDecides` | src/orchestrator/orchestrator.js:868-935 | a review that is on record decides in the same way, without asking again |
| `CouncilDecisions.EvidenceBlocksIffBlocked` | src/orchestrator/orchestrator.js:904-918 | evidence overrules exactly when the verification or runtime run that is read for the iteration has a blocking failure, or the visual one a blocking finding or a request for changes |
| `CouncilDecisions.FinalFollowsTheAnswer` | src/orchestrator/orchestrator.js:939-1007 | a final decision that is missing, or counts other runs, is asked for and stored as it was given with the number of Cursor runs; CHANGES_REQUIRED moves it to the history and opens the next iteration, and otherwise the project enters its delivery exactly when the gate is open |
| `CouncilDecisions.FinalDecides` | src/orchestrator/orchestrator.js:939-1007 | a final decision that counts the runs there are decides in the same way, without asking again |
| `Provenance.CompleteReviewsWereAnswered` | src/orchestrator/orchestrator.js:868-935 | in every run, each COMPLETE review on record is the COMPLETE answer that the Council gave, in an earlier step, when it was asked to review that iteration and had not been before |
| `Provenance.ReadyWasAccepted` | src/orchestrator/orchestrator.js:868-1045 | in every run, while a real project is READY, the Council had answered COMPLETE to the review of its last Cursor run and to the final decision on record, each in an earlier step |
| `Provenance.RecordsAreAnswers` | src/orchestrator/orchestrator.js:328-1007 | in every run, every review, final, Cursor result, verification, runtime, visual and provisioning run and specification on record is what the world answered in an earlier step, asked about a record that the action of that step passed through; only an overruled COMPLETE is not, and feedback that is appended to a prompt |
| `Provenance.NothingIsForgotten` | src/orchestrator/orchestrator.js:328-1007 | between any two moments of a run reviews stay, finished Cursor runs keep their results, no recorded run of a stage disappears without one of its id, and past finals stay in order |
| `Provenance.EveryTraceIsMade` | src/orchestrator/orchestrator.js:150-326 | every run is made by worlds and actions, one for each step, as those results need |
| `Updates.ActionIsUpdates` | src/orchestrator/orchestrator.js:98-1125 | every snapshot of every action, in both modes and any state, is reached by elementary updates: moves along legal edges, answers put on record, and a few other single changes |
| `WorkflowSafety.ActionIsSound` | src/orchestrator/orchestrator.js:150-326 | every snapshot of every action, any job in any state included, keeps the project invariant and only ages deliveries |
| `WorkflowSafety.ActionIsIllegalIffAstray` | src/orchestrator/states.js:43-100 | an illegal edge is requested if and only if a queued review or final job goes astray; passes, retries, failures, decisions and boot never request one |
| `WorkflowSafety.LateFinalJobFailsTheFeedbackCycle` | src/orchestrator/orchestrator.js:939-1007 | the witness: for every READY project whose final still counts its runs, an accepted request for changes followed by the recovered final job asks for DELIVERY_PREPARATION from COUNCIL_DISCOVERY |
| `WorkflowSafety.HistoryIsALegalWalk` | src/orchestrator/states.js:43-100 | in every run the recorded history is a walk along legal edges from IDEA_SUBMITTED to the current state |
| `WorkflowSafety.CursorLedgerIsSound` | src/orchestrator/orchestrator.js:449-497 | in every run Cursor runs have strictly increasing iterations up to the project's, at most the last one lacks a result, and the iteration never passes max(1, maxIterations) |
| `WorkflowSafety.DeliveriesOnlyAge` | src/delivery/prepare.js:44-68 | in every run at most one delivery is current, READY implies current, versions strictly increase, each delivery has at most one owner review, and between any two moments deliveries keep their identity, once prepared also their package and never return to PREPARING, stay APPROVED or STALE once they are, and once SUPERSEDED become at most STALE |
| `WorkflowSafety.AutonomousWorkIsBounded` | src/orchestrator/orchestrator.js:236-326 | without a retry or an owner decision a project makes at most Remaining(p) further transitions, whatever fails, crashes, is replayed or executed twice |
| `WorkflowSafety.FreshProjectBound` | src/orchestrator/orchestrator.js:118-126 | for a fresh project that bound is 14 * max(1, maxIterations) + 12 |
| `WorkflowSafety.PassSpendsATransition` | src/orchestrator/orchestrator.js:236-311 | a pass of the in-process loop throws or stores a project with strictly less remaining |
| `WorkflowSafety.ResumeTargetFits` | src/orchestrator/orchestrator.js:1128-1154 | the resume target of a failed project is reached by a legal edge and is a state whose handler can start with the runs, the specification and the provisioning there are; which state it is: Resume.ResumesAtTheFirstMissing |
| `Resume.ResumesAtTheFirstMissing` | src/orchestrator/orchestrator.js:1128-1154 | for each stage: a failed project resumes there exactly when its work is missing and that of no stage before it is, missing being said of the recorded runs, reviews, final and deliveries, each read for the iteration of the finished run or, without one, the last of all; and in SPECIFICATION_READY exactly when nothing is missing |
| `Resume.RetryResumes` | src/orchestrator/orchestrator.js:128-148 | a retry of a failed project stores it without its error in that stage; any other retry is refused and stores nothing |
| `Lookups.LatestIsRead` | src/verify/pipeline.js:22-25 | the lookup of a run gives the last one of the iteration, and the last one of all when there is none, and nothing only when no run is recorded |
| `StagePaths.PlatformLeads` | src/orchestrator/orchestrator.js:507-592 | the platform stage reuses a clean run, goes on with a found one, or asks and records the answer, in this order and with exactly these snapshots; it leads to the runtime stage exactly for a real verification on which nothing blocks, else to the Council |
| `StagePaths.RuntimeLeads` | src/orchestrator/orchestrator.js:602-656 | the same for the runtime stage, which leads to the visual one exactly when nothing blocks and there is something to look at |
| `StagePaths.VisualLeads` | src/orchestrator/orchestrator.js:666-710 | the same for the visual stage, which always leads to the Council |
| `StagePaths.CursorFollowsTheAnswer` | src/orchestrator/orchestrator.js:737-866 | an execution of Cursor stores the started run first, as the last one of its iteration; then a failure marks it and throws, a result whose record could not be stored is kept as RECOVERY_REQUIRED and thrown, and any other result is kept and leads to platform verification |
| `StagePaths.FinishedLeads` | src/orchestrator/orchestrator.js:482-497 | an iteration that has its result moves on and Cursor is not asked |
| `StagePaths.ReplayLeads` | src/orchestrator/orchestrator.js:482-497 | otherwise its run is executed, in the first iteration if none was opened, and before that an unfinished run in a dirty workspace is marked and stored |
| `StagePaths.ProvisioningIsApplied` | src/provision/pipeline.js:255-292 | what a provisioning run changes on the project, and that nothing else changes |
| `StagePaths.ProvisioningLeads` | src/orchestrator/orchestrator.js:394-447 | a failed provisioning stores whether the empty workspace was prepared; one that answers is applied, stored, and opens the work of Cursor, or is refused for a missing foundation or the limit of iterations |
| `StagePaths.DiscoveryLeads` | src/orchestrator/orchestrator.js:328-384 | a project that has its specification only takes in pending feedback; otherwise the answer becomes its specification exactly when work can start from it and a needed plan does not fail |
| `StagePaths.DeliveryLeads` | src/orchestrator/orchestrator.js:1009-1045 | a delivery is finished exactly when it can be prepared and the gate, asked with it, is open; then one record is stored, else none |
| `StagePaths.BootLeads` | src/orchestrator/orchestrator.js:98-116 | at boot the same is tried for projects in DELIVERY_PREPARATION only, and a failure is recorded with what the preparation left |
| `StagePaths.FailureIsRecorded` | src/orchestrator/orchestrator.js:313-326 | a failure puts the error on record, and fails exactly the projects the engine works on |
| `WorkflowSafety.BootKeepsInvariant` | src/orchestrator/orchestrator.js:98-116 | finishing a delivery at boot keeps the invariant and never fails the boot, even where it records an error |
| `JobSafety.EveryJobIsSound` | src/orchestrator/orchestrator.js:150-234 | whatever job meets whatever project, each of its snapshots keeps the invariant, extends the history, spends no more than it gains and enters READY through the gate only |
| `JobSafety.JobIsIllegalIffAstray` | src/orchestrator/orchestrator.js:150-234 | a job requests an illegal edge exactly when it is a review job that finds a decision on a project before its Cursor run, or a final job that finds a decision leading to an illegal run or an open gate outside its stages |
| `JobPaths.JobIsSilent` | src/orchestrator/orchestrator.js:150-234 | which jobs store nothing and succeed, in which states |
| `JobPaths.JobFirstDoesTheStage` | src/orchestrator/orchestrator.js:150-234 | in the states it is planned in, one stage behind or one ahead, a job first stores what a pass of the loop would store |
| `JobPaths.JobCatchesUp` | src/orchestrator/orchestrator.js:150-234 | a job that was one stage behind then goes on, from the stored project, to its own stage |
| `JobPaths.StrayJobsDecide` | src/orchestrator/orchestrator.js:150-234 | a review or final job on a project before its Cursor run still asks for its decision |
| `States.EdgesByTarget` | src/orchestrator/states.js:43-100 | which states have an edge to each state: only a finished delivery leads to the owner, only an approval to the end, and only active projects fail |
| `JobSafety.PendingJobsAreLegal` | src/orchestrator/orchestrator.js:150-234 | a job whose project is in one of the states it may be replayed in never requests an illegal edge |
| `JobLifetime.JobStaysPending` | src/orchestrator/orchestrator.js:150-234 | every snapshot a job writes is one it may be replayed on |
| `JobLifetime.ReplaysStayLegal` | src/worker/worker.js:59-113 | a planned job that dies and is executed again any number of times, its saves cut off anywhere, never requests an illegal edge while nothing else moves the project |
| `WorkflowProofs.LoopPassProgress` | src/orchestrator/orchestrator.js:240-307 | every pass keeps the invariant in all its snapshots, never asks for an illegal edge, and when it succeeds has made and saved at least one transition |
| `WorkflowProofs.JobProgress` | src/jobs/types.js:27-44 | the same for every job that is pending for its project |
| `WorkflowProofs.FinishDeliveryProgress` | src/orchestrator/orchestrator.js:1009-1045 | finishing a delivery leaves a certified READY project or saves nothing |
| `Refinement.LoopIsJobs` | src/orchestrator/orchestrator.js:150-311 | for every k there is an n such that k passes of the loop and n planned jobs have the same outcome and final record, and on success the same snapshots in the same order (queue mode may open the first iteration one snapshot later), so the same stages and the same iteration for every Cursor run |
| `Refinement.PassIsJobs` | src/orchestrator/orchestrator.js:240-307 | one pass is some number of consecutive planned jobs |
| `Refinement.DriversPartIffNothingToRun` | src/orchestrator/orchestrator.js:394-447 | after a provisioning answer the drivers agree exactly when the answer provisions the project and the cap is positive |
| `Refinement.ZeroCapPartsTheDrivers` | src/orchestrator/orchestrator.js:449-497 | with a cap of 0 the loop throws where queue mode goes on to a first Cursor run |
| `Refinement.RecoveryWouldPartTheDrivers` | src/provision/pipeline.js:294-303 | hypothetical: an answer asking for recovery, which no provisioner of the repository gives, would let queue mode enter CURSOR_EXECUTING unprovisioned |
| `Orchestrator.Engine.Run` | src/orchestrator/orchestrator.js:236-311 | the loop, started on any sound stored project, ends within the bound, leaves it sound and no longer active, and a READY result is certified |
| `Worker.Solitary.Work` | src/worker/worker.js:59-113 | a worker alone with a project, whose failing jobs are executed again until they succeed, fail finally or use up their attempts, whatever the world answers each time, ends within the same bound with no stage planned, and a READY result is certified |
| `Worker.Solitary.ExecuteClaimed` | src/jobs/queue.js:146-162 | one job is executed at least once and at most its limit of times, stops early only on success or a final failure, and on success has spent at least one of the remaining transitions |
| `Worker.ExecutionStores` | src/orchestrator/orchestrator.js:150-234 | an execution of a pending job leaves a sound project for which the job is still pending, and when it succeeds has spent a transition unless the project had already moved on |
| `Orchestrator.Engine.Pass` | src/orchestrator/orchestrator.js:240-307 | one pass in place leaves the store, the record in memory and the outcome of the specified pass |
| `Orchestrator.Engine.ExecuteJob` | src/orchestrator/orchestrator.js:150-234 | one job in place, re-reading the store between stages, leaves the store, the record and the outcome of the specified job |
| `Orchestrator.Engine.OwnerDecides` | src/orchestrator/orchestrator.js:1075-1125 | an owner decision in place stores the decided ledger and both transitions, or nothing |
| `Orchestrator.Engine.FinishDelivery` | src/orchestrator/orchestrator.js:1009-1045 | finishing a delivery in place leaves what the specification says when lineage, packaging or gate refuse |
| `Orchestrator.Engine.FinishOrReplayCursor` | src/orchestrator/orchestrator.js:482-497 | replaying an interrupted Cursor run in place adopts a clean matching checkpoint or starts again on the same ledger entry |
| `Gate.CanCompleteAutonomousWork` | src/orchestrator/gate.js:34-118 | the list of reasons holds exactly those whose declared condition is true, and the gate is open exactly when none is |
| `Gate.CanEnterOwnerReview` | src/orchestrator/gate.js:120-141 | the same for the delivery's own reasons on top |
| `OpenGate.OpenIffAcceptable` | src/orchestrator/gate.js:34-118 | the gate is open exactly when the records show everything: evidence that was not mocked, a verification whose required checks pass, a foundation, and, where a policy requires it, a runtime run that exists, is of this checkpoint, passed, passed in part or was not applicable and has no blocking accessibility failure, and a visual run that exists, is of this checkpoint and of these screenshots, was decided COMPLETE or not applicable by reviewers and blocks on nothing; and the accepted review and final, a clear security verdict, no error, and an iteration within the limit |
| `OpenGate.OfferedIffDeliverable` | src/orchestrator/gate.js:120-141 | the owner is offered a project exactly when it is so acceptable and the delivery that stands is READY, complete, and of the final checkpoint and evidence |
| `OpenGate.ReadyIsAcceptable` | src/orchestrator/gate.js:34-141 | in every run every READY project, demos included, is acceptable and deliverable but for an error recorded since; what is required of runtime, visual and platform verification and of provisioning is on record |
| `GateReasons.EvidenceReasonsMean` | src/orchestrator/gate.js:34-46 | each reason about evidence, on the records: given exactly when it is true |
| `GateReasons.CheckReasonsMean` | src/orchestrator/gate.js:47-64 | of each check that the verification read requires, the reason given is the status that the evidence has for it, and none for others |
| `GateReasons.ProvisioningReasonsMean` | src/orchestrator/gate.js:65-76 | each provisioning reason is given exactly when it is true of the provisioning that counts, and none to demos and existing repositories but for an empty workspace |
| `GateReasons.RuntimeReasonsMean` | src/orchestrator/gate.js:79-89 | of the runtime run that is read at most one of stale, not run and failed is said, each exactly when it is so, and the accessibility failure besides |
| `GateReasons.VisualReasonsMean` | src/orchestrator/gate.js:91-101 | of the visual run that is read at most one of stale, not run, blocking and failed is said, each exactly when it is so |
| `GateReasons.DeliveryReasonsMean` | src/orchestrator/gate.js:120-141 | of the delivery that stands, each reason is given exactly when it is true, and only the missing snapshot when it is not READY |
| `GateReasons.LineageReasonsMean` | src/delivery/lineage.js:49-67 | each reason of the lineage that is not about a run is given exactly when it is true |
| `GateReasons.StaleReasonsMean` | src/delivery/lineage.js:68-85 | each stale reason is given exactly when the run that is read, or a screenshot of it, is of another checkpoint |
| `OpenGate.SoundIffTraceable` | src/delivery/lineage.js:49-100 | the lineage is sound exactly when there is a prompt and a final, and a real project was not mocked, its provisioning has a baseline, its final checkpoint is a git object id, and every run and screenshot that is read names it |
| `OpenGate.MadeUpIsNoGitId` | src/orchestrator/mock-policy.js:9-20 | a git object id is 7 to 64 hexadecimal digits, and no made-up checkpoint is one |
| `Gate.AcceptedMeansRequiredStepsRanAndPassed` | src/orchestrator/gate.js:47-64 | accepted, with evidence from the latest verification run: every build, tests or lint aspect that run requires had a matching step, and none failed |
| `Gate.RequiredByAToolchainAndAcceptedMeansItPassed` | src/verify/pipeline.js:136-214 | the same from one tool chain's policy down to command results, and no required installation had failed before |
| `Gate.EvidenceLinkIsEstablishedAndKept` | src/verify/pipeline.js:276-313 | the evidence of an executed verification carries that run's aspects, and the runtime and visual stages keep them |
| `EvidenceLink.ExecutedVerificationLinks` | src/orchestrator/orchestrator.js:528-567 | recording an executed verification makes it the latest of its iteration and the project's evidence its own |
| `EvidenceLink.ReusedVerificationLinks` | src/orchestrator/orchestrator.js:508-520 | reusing a verification makes the project's evidence that of the reused run |
| `EvidenceLink.FoundVerificationKeepsTheLink` | src/orchestrator/orchestrator.js:521-527 | in both modes a verification that is only found complete goes on with a project whose evidence is linked to exactly the runs it was linked to before; in queue mode so is every snapshot |
| `EvidenceLink.SelfReportShutsTheGate` | src/orchestrator/gate.js:47-64 | while the project's evidence is a report that leaves build, tests and lint NOT_RUN, the gate is shut on every aspect the latest verification requires |
| `EvidenceLink.FoundVerificationLeavesTheGateShut` | src/orchestrator/orchestrator.js:507-527 | so it is when Cursor has finished with such a report, in both modes when the platform stage has then only found a verification complete, and in queue mode in every snapshot of that stage |
| `EvidenceLink.AFoundVerificationWithoutTheLink` | src/orchestrator/orchestrator.js:521-527 | a project for which that happens and whose evidence is not that of its latest verification |
| `StageRecords.VerificationEvidenceTellsTheTruth` | src/verify/pipeline.js:276-313 | the evidence of a real verification says what its steps did, counts as verified by the platform exactly when a step ran or earlier evidence did, and keeps the rest |
| `StageRecords.RuntimeEvidenceTellsTheTruth` | src/runtime/pipeline.js:269-308 | the evidence of a real runtime run has each status exactly for what the run says, a failed scenario fails the function, and the rest is kept |
| `StageRecords.VisualEvidenceTellsTheTruth` | src/visual/pipeline.js:210-247 | the visual aspect passes exactly when reviewers, and no heuristic, found it complete and nothing blocks, and fails exactly when something blocks or changes are required |
| `StageRecords.MockEvidenceSaysSo` | src/verify/pipeline.js:276-313 | evidence of a demo or a mocked run has the mock level, whatever was found |
| `StageRecords.VerificationIsReusedIffClean` | src/verify/pipeline.js:33-49 | a verification is reused exactly when a clean one of this checkpoint is on record, which without a checkpoint must be of this iteration; one of this iteration comes first |
| `StageRecords.RuntimeIsReusedIffClean` | src/runtime/pipeline.js:28-37 | a runtime run is reused exactly when a clean one of this iteration and checkpoint is on record |
| `StageRecords.VisualIsReusedIffClean` | src/visual/pipeline.js:26-35 | a visual run is reused exactly when a complete one of the same runtime run and screenshots is on record |
| `StageRecords.VerificationIsRecorded` | src/orchestrator/orchestrator.js:528-567 | a verification is recorded as it was answered, last and in the place of one with its id; its evidence becomes the evidence of the project and of the last Cursor run, and nothing else changes |
| `StageRecords.RuntimeIsRecorded` | src/orchestrator/orchestrator.js:612-648 | the same for a runtime run |
| `StageRecords.VisualIsRecorded` | src/orchestrator/orchestrator.js:676-710 | the same for a visual run |
| `StageRecords.ReusedVerificationIsNoted` | src/orchestrator/orchestrator.js:508-520 | a reused verification gives its evidence again, or has it made anew when none was kept, and nothing else changes |
| `Lookups.FinalCheckpointIsFirstNamed` | src/delivery/lineage.js:13-24 | the final checkpoint is the first of the five that the last Cursor run may name, in order of authority, and without any a synthetic one |
| `Lookups.StageCheckpointIsFirstNamed` | src/runtime/pipeline.js:21-37 | the checkpoint of a stage is the first of the first three, or none |
| `StageRecords.EvidenceSetIsWhatIsRead` | src/delivery/lineage.js:26-43 | the evidence set holds the final checkpoint, of each stage the id and outcome of the run that is read for the last Cursor run, and the sandbox or the security status |
| `EvidenceRuns.EverythingIsSupported` | src/orchestrator/orchestrator.js:499-866 | in every run in which Cursor leaves the checks to the platform, every technical aspect on record, also in what earlier stages keep for reuse, is NOT_RUN or what the steps of a recorded verification say |
| `EvidenceRuns.ActionUpholds` | src/orchestrator/orchestrator.js:150-326 | every action keeps that, in both modes, in every state, at every snapshot |
| `EvidenceRuns.ReadyChecksAreBacked` | src/orchestrator/gate.js:47-64 | in every such run, while a real project is READY, every check its latest verification requires passed in a recorded verification, with steps that ran and none that failed, or a recorded one waived it |
| `EvidenceRuns.ReadyMeansPassed` | src/orchestrator/gate.js:47-64 | when no recorded verification calls the check inapplicable, it passed in one |
| `EvidenceRuns.OpenGateIsBacked` | src/orchestrator/gate.js:34-118 | the same of the gate itself, for any project whose records are supported |
| `EvidenceRuns.WaiverOpensTheCheck` | src/verify/pipeline.js:315-331 | the exception is real: evidence of a run that waived a check gets it past the gate whatever the latest run requires |
| `EvidenceRuns.AReusedVerificationWaivesTheTests` | src/verify/pipeline.js:33-49 | a project for which it happens: a clean verification without tests is reused for its checkpoint although a later one of the same checkpoint requires tests and ran none |
| `Lineage.CollectMockViolations` | src/orchestrator/mock-policy.js:47-84 | the violations reported are exactly those that hold, and none for a demo project |
| `Lineage.ValidateEvidenceLineage` | src/delivery/lineage.js:49-100 | the list of lineage reasons holds exactly those whose declared condition is true |
| `Lineage.CurrentIndex` | src/delivery/lineage.js:102-105 | there is a current delivery exactly when there is any |
| `Lookups.CurrentDeliveryStands` | src/delivery/lineage.js:102-105 | it is the first one that is current, or the last of all when none is |
| `Records.LastIndexAt` | src/verify/pipeline.js:22-25 | the lookup finds the last run of an iteration, or says that there is none |
| `Verification.SortStepsIsAStableSort` | src/verify/plan.js:53-66 | the plan is in order of kind, and within a kind steps keep the order of their tool chains |
| `Verification.MergeRequiresIffSomeToolchainDoes` | src/verify/detect.js:44-86 | merging makes an aspect REQUIRED exactly when some tool chain does, for any list of policies |
| `Verification.MergeWaivesIffEveryToolchainDoes` | src/verify/detect.js:44-86 | merging calls an aspect inapplicable exactly when every tool chain does, and security never |
| `Verification.PlanRunsInStages` | src/verify/plan.js:53-66 | installations run before builds, then static analysis, tests, lint and security checks |
| `Verification.StepTellsTheTruth` | src/verify/pipeline.js:160-204 | a step failed exactly when it timed out, its program was missing or it did not exit with 0, with the code for it, and blocks exactly when its plan and the policy of its kind require it |
| `Verification.ExecutePlan` | src/verify/pipeline.js:140-204 | the step loop runs the planned steps up to and including the first required installation that fails |
| `Verification.RunSteps` | src/verify/pipeline.js:136-214 | FAIL exactly for conflicting lockfiles or a failed required step, PASS exactly when nothing failed and no lockfiles conflict |
| `Verification.FailedInstallStopsEverything` | src/verify/pipeline.js:196-204 | in a sorted plan a failed required installation is the last step executed and only installations ran before |
| `Verification.AspectTellsTheTruth` | src/verify/pipeline.js:315-331 | each status of an aspect holds exactly for what it says about the executed steps |
| `Delivery.PrepareKeepsLedger` | src/delivery/prepare.js:32-222 | preparing keeps the ledger invariant and only ages entries, whether it succeeds or throws halfway |
| `Delivery.PreparedDeliveryIsCurrent` | src/delivery/prepare.js:44-68 | after success the current delivery is READY, complete, and the first for exactly this checkpoint and evidence |
| `Delivery.PrepareIsIdempotent` | src/delivery/prepare.js:44-68 | preparing again on unchanged evidence succeeds and changes nothing, whatever packaging would do |
| `Delivery.DecideKeepsLedger` | src/delivery/decisions.js:20-94 | every decision keeps the ledger invariant and only ages entries, whether it succeeds or throws |
| `Delivery.DecisionIsExclusive` | src/delivery/decisions.js:20-94 | once a decision is recorded every further one is refused as stale |
| `Deliveries.PreparesIff` | src/delivery/prepare.js:32-222 | preparing succeeds exactly when the lineage is sound and a delivery of this evidence is offered already or the package is complete; then nothing changes, or one entry is published and every other gives way; a failure at most leaves an entry in PREPARING |
| `Deliveries.RefusedIff` | src/delivery/decisions.js:20-94 | the condition of each refusal of a decision, for the delivery that stands, and that a refusal adds no review and touches no other entry |
| `Deliveries.DecisionTakesEffect` | src/delivery/decisions.js:20-94 | an approval leaves the one current delivery APPROVED and current, a request for changes leaves it SUPERSEDED and none current; exactly one review is added, of that delivery and decision, and nothing else of the delivery and no other entry changes |
| `Deliveries.ReadyCanBeDecided` | src/orchestrator/orchestrator.js:1075-1125 | a READY project can always be approved, and changes be requested exactly with feedback that is not blank |
| `Deliveries.OwnerDecisionIsStored` | src/orchestrator/orchestrator.js:1075-1125 | a decision on a READY project stores the decided ledger in OWNER_APPROVED and DONE, or in OWNER_CHANGES_REQUESTED and COUNCIL_DISCOVERY with the trimmed feedback pending, along those edges; any other stores nothing |
| `Deliveries.DecisionsShowInEveryRun` | src/orchestrator/orchestrator.js:1075-1125 | in every run each owner review shows in the status of its delivery, an approved or DONE project has a current APPROVED delivery of its final checkpoint and evidence whose approval is the last review, and no other project has an approving review |
| `Deliveries.InterruptedApprovalStays` | src/orchestrator/orchestrator.js:1075-1099 | in every run a project that reached OWNER_APPROVED or DONE stays there, whatever action follows: an approval that was interrupted between its two transitions is never finished |
| `Deliveries.ApprovalCanBeInterrupted` | src/orchestrator/orchestrator.js:1075-1099 | from every READY project there is a run that goes on to OWNER_APPROVED |
| `Delivery.Ledger.PrepareSnapshot` | src/delivery/prepare.js:32-222 | preparation in place leaves the ledger and the outcome of the specified preparation |
| `Delivery.Ledger.PublishEntry` | src/delivery/prepare.js:197-219 | the publishing loop makes one entry READY and current and demotes every other current one |
| `Delivery.Ledger.RecordOwnerDecision` | src/delivery/decisions.js:20-94 | a decision in place leaves the ledger, the reviews and the error of the specified decision |
| `ProjectLock.AtMostOneRuns` | src/delivery/decisions.js:8-18 | in every interleaving at most one section of a project runs, sections that throw and the deletion of map entries included |
| `ProjectLock.SectionsStartInCallOrder` | src/delivery/decisions.js:8-18 | the sections of a project start in the order of the calls |
| `ProjectLock.SomebodyCanMove` | src/delivery/decisions.js:8-18 | while a call waits, a section of its project runs or may start |
| `ProjectLock.AtMostOneDecisionSucceeds` | src/orchestrator/orchestrator.js:1075-1125 | of any concurrent approvals and requests for changes on a project, in every interleaving, at most one succeeds |
| `ProjectLock.WithoutTheLockBothSucceed` | src/orchestrator/orchestrator.js:1075-1125 | without the lock two callers that loaded the same READY project both succeed, on the same delivery |
| `QueueRuns.RunKeepsTable` | src/db/schema.js:166-170 | in every run, late workers included, both unique indexes hold and a row is RUNNING exactly when it has a worker and a lease |
| `QueueRuns.LeaseIsExclusive` | src/jobs/queue.js:62-188 | after a claim no other claim of the job succeeds until its worker failed or released it, or a recovery took it no earlier than the last lease expiry that worker set |
| `QueueRuns.HandoffTakesIffHeldByOther` | src/jobs/queue.js:110-144 | completeAndHandoff takes a row from another worker exactly when the caller's row is running for someone else, whatever stage comes next |
| `QueueRuns.FailTakesIffHeldByOther` | src/jobs/queue.js:146-162 | fail takes a row from another worker exactly when the caller's row is running for someone else |
| `QueueLate.ALateWorkerTakesTheJob` | src/worker/worker.js:85-100 | a run in which a late success takes the job from the worker on it |
| `QueueLate.EndedRunsAgainIff` | src/jobs/queue.js:146-162 | in every run a completed or dead job is active again exactly when a failure report that is not final came for it while no other active row had its project or key |
| `QueueLate.ReviveStep` | src/jobs/queue.js:110-188 | the same for one event of any kind |
| `QueueLate.ACompletedJobRunsAgain` | src/jobs/queue.js:146-162 | a run in which a completed job is claimed and executed again |
| `QueueLate.LateFailChangesIff` | src/jobs/queue.js:146-162 | a failure report by a caller that does not hold the row changes its status exactly when the row is running for another, or the failure is final and the row not dead, or it is not and the row has ended and its place is free |
| `QueueLate.LateHandoffChangesIff` | src/jobs/queue.js:110-144 | a success report by such a caller changes the status exactly when the row is not completed and the next stage trips no index |
| `Queue.OwnerHandoffLosesNothing` | src/jobs/queue.js:110-144 | a caller that holds its row never trips an index and leaves exactly one active job when a stage is planned and none otherwise |
| `Queue.EnqueueIsIdempotent` | src/jobs/queue.js:16-47 | enqueueing again finds the same job and changes nothing |
| `Queue.EnqueueCreatesIffFree` | src/jobs/queue.js:16-47 | a job is created exactly when the project has no active one, none is reported exactly when the active one has another key, and other projects are untouched |
| `Queue.Best` | src/jobs/queue.js:62-90 | the claim takes the first claimable unlocked row by priority and age, and none only when there is none |
| `QueueClaims.ClaimTakesTheFirstOffered` | src/jobs/queue.js:62-90 | a claim takes a job exactly when an unlocked one is queued, due and needs no capability that the worker lacks; it takes the one of them that comes before every other by priority and age, for the length of the lease, with one more attempt, and touches no other row |
| `QueueClaims.RunningIffClaimed` | src/jobs/queue.js:62-202 | whatever happens to the table, a job that is not running starts to run exactly by such a claim |
| `QueueClaims.RunningWasClaimed` | src/jobs/queue.js:62-202 | in every run each running job was started by a worker with every capability it requires, when it was due and first in line, and has been running since |
| `QueueClaims.JobsAreWhatWasPlanned` | src/jobs/queue.js:16-60 | every event adds at most the one planned job, queued as planned, and none changes the project, key, capabilities, priority or limit of a job |
| `QueueClaims.RecoveryReturnsExpired` | src/jobs/queue.js:164-182 | recovery queues exactly the running rows whose lease has run out and that are not excepted |
| `QueueClaims.OnlyTheHolderReports` | src/jobs/queue.js:92-202 | a heartbeat and a release change exactly the row that is running for that worker, and what of it |
| `QueueClaims.OwnsUntilTheLeaseEnds` | src/jobs/queue.js:92-108 | a worker owns a row exactly while it is running for it and the lease has not run out |
| `QueueClaims.ReportsUnlock` | src/jobs/queue.js:110-162 | a success completes the row it names and adds at most the next job; a failure sends it to the dead letters or queues it for later; both unlock it and touch no other row |
| `QueueAttempts.AttemptsAreConserved` | src/jobs/queue.js:79-89 | in every run, late callers included, a job's attempts are its claims, and with the times it was ended while queued they are its returns and requeues, and one more while it is not queued |
| `QueueAttempts.HonestAttemptsAreExact` | src/jobs/queue.js:146-188 | when callers hold their rows, attempts are exactly returns plus requeued failures, and one more while the job is not queued |
| `QueueAttempts.PastLimitIff` | src/jobs/queue.js:146-188 | in every run a job has passed its limit exactly when it was put back without an attempt left, by a recovery, a release or a late failure report, and then claimed |
| `QueueAttempts.HonestPastLimitIff` | src/jobs/queue.js:164-188 | when callers hold their rows, exactly when a recovery or a release did that |
| `QueueAttempts.AttemptsAreBounded` | src/jobs/queue.js:146-188 | late callers or not, when each ticket is reported failed at most once, attempts are at most the limit plus the returns |
| `QueueLate.ARecoveredJobPassesItsLimit` | src/jobs/queue.js:164-182 | a run in which a job that allows one attempt is claimed twice |
| `QueueLate.ALateFailurePassesTheLimit` | src/jobs/queue.js:146-162 | a run in which a dead job that allows two attempts is put back by a late failure report and claimed a third time |
| `QueueAttempts.FailureIsDeadLetterOrDelay` | src/jobs/queue.js:146-162 | a failure by the holder dead-letters the row exactly when it is terminal, not retryable or at its limit, and otherwise delays it; no other row changes |
| `QueueAttempts.NoClaimBeforeTheDelay` | src/jobs/queue.js:146-162 | the next claim of a job that was put back by a failure comes no earlier than its delay |
| `QueueAttempts.DelayIsCappedAndMonotone` | src/jobs/classify.js:41-44 | the delay starts at the base, never passes its cap and never shrinks as attempts grow |
| `QueueAttempts.DelayDoubles` | src/jobs/classify.js:41-44 | the first delay is the base, and each further attempt doubles it up to the cap |
| `JobKeys.KeysAreInjective` | src/jobs/types.js:46-89 | equal keys name the same project and the same work, the delivery checkpoint being free to contain colons |
| `JobKeys.SameKeyIffSameWork` | src/jobs/types.js:46-89 | the jobs of two records share a key exactly when they are of one project, one type and the same work |
| `JobKeys.CycleCountsRequests` | src/jobs/types.js:46-53 | the feedback cycle is the number of requests for changes |
| `JobKeys.PlannedJobsShareAKeyOnlyIfSame` | src/jobs/types.js:55-105 | two planned jobs share a key only if they agree on project, type and every field the type encodes, for deliveries the checkpoint and the whole evidence set |
| `JobKeys.PlannedRunsFit` | src/jobs/queue.js:16-144 | in every run in which only planned jobs are enqueued and handed on, a key belongs to one project: what the handoff and enqueue results ask for |
| `JobQueue.JobQueue.ReconcileProjects` | src/jobs/queue.js:204-218 | afterwards every project with a planned stage has exactly one active job, no earlier row has changed, and the projects reported are exactly those that had none |
| `JobQueue.JobQueue.EnqueueJob` | src/jobs/queue.js:16-47 | enqueueing in place leaves the specified table and reports the specified job |
| `JobQueue.JobQueue.ClaimJob` | src/jobs/queue.js:62-90 | a claim in place leaves the specified table, and its caller holds the row |
| `JobQueue.JobQueue.RecordHeartbeat` | src/jobs/queue.js:92-108 | a heartbeat reports whether the caller held the row and then owns it |
| `JobQueue.JobQueue.HandOff` | src/jobs/queue.js:110-144 | the transaction in place completes and hands on, or is aborted and changes nothing |
| `JobQueue.JobQueue.FailJob` | src/jobs/queue.js:146-162 | a failure in place reports a dead letter exactly when the attempts are exhausted |
| `Schema.FaultsEmptyIffConforms` | src/council/validate.js:7-48 | the validator finds no fault exactly when the value conforms, for every nested schema |
| `Schema.ConformingMeans` | src/council/validate.js:7-48 | conforming means that required fields are there and neither null nor empty, declared fields conform, and a text is long enough without outer white space and one of the choices |
| `Schema.NamedItemsHaveTheirType` | src/council/validate.js:7-48 | a named item type is that of typeof: null and arrays are objects |
| `Schema.Walk` | src/council/validate.js:7-48 | the recursive walk pushes exactly the faults of the value, in order, onto the shared list |
| `Schema.WalkObject` | src/council/validate.js:7-48 | the object branch pushes the missing required fields and then the faults of the declared properties |
| `Schema.WalkItems` | src/council/validate.js:7-48 | the array branch pushes the faults of every item in order |
| `Schema.Validate` | src/council/validate.js:1-5 | ok exactly when the value conforms, and exactly when the list is empty |
| `Completion.CompleteValidated` | src/council/council.js:38-78 | returns the first usable reply, which conforms, after at most (maxRepairs + 1) * (maxRetries + 1) calls; gives up only after every round ended in a repairable reply; reports one attempt too many for each reply without usable JSON |
| `Completion.RepairLoop` | src/council/council.js:42-69 | the loop stops at the first reply that is usable or beyond repair |
| `Completion.Round` | src/council/council.js:45-69 | one round makes the calls of withRetry, judges its last reply, and counts one attempt too many when that has no usable JSON |
| `Completion.WithRetry` | src/providers/resilience.js:60-80 | calls again only after retryable errors and never more than maxRetries times |
| `Completion.RetriesWereDue` | src/providers/resilience.js:60-80 | all calls but the last threw a retryable error, and the last did only if no retry was left |
| `Completion.EveryReplyHasItsFate` | src/council/council.js:42-69 | a conforming value is used; one that does not conform, a reply without JSON and an invalid response are repaired; malformed JSON and every other error are not |
| `Council.AssertReviewChairDecision` | src/council/council.js:398-412 | no objection exactly for acceptable decisions: a prompt with changes, nothing grave blocking a COMPLETE, every grave finding answered |
| `Council.AssertFinalDecision` | src/council/council.js:414-422 | a final decision is accepted exactly when nothing grave blocks a COMPLETE and changes come with a prompt |
| `Council.AcceptableIff` | src/council/council.js:398-412 | acceptable, spelled out over the findings of every member and the resolved and blocking entries |
| `Council.AnswersInOrder` | src/council/council.js:80-138 | the answers of a round are those of the providers that gave one, in their order |
| `Council.OneUnheardMemberSuffices` | src/council/council.js:404-411 | one grave finding of one Council member that no entry answers refuses the decision |
| `Council.MildMembersDoNotMatter` | src/council/council.js:398-412 | adding any number of members without grave findings, in any places, changes nothing |
| `Council.OrderDoesNotMatter` | src/council/council.js:398-412 | nor does the order of the members |
| `Council.CompleteIffResolvedOrPlayedDown` | src/council/council.js:398-412 | a COMPLETE decision passes exactly when nothing grave blocks and every grave finding is resolved or named by a blocking entry of lower severity |
| `Council.PlayedDownFindingIsAccepted` | src/council/council.js:404-411 | a critical finding answered by a blocking entry of low severity passes as COMPLETE |
| `Council.IndependentRound` | src/council/council.js:80-138 | every provider is counted as valid or failed, and the round is refused exactly when too few answered |
| `RateLimit.Limiter.Limit` | src/auth/rate-limit.js:3-14 | a call in place leaves the specified bucket, touches no other key and gives the specified verdict |
| `RateLimit.AcceptedIffRoom` | src/auth/rate-limit.js:3-14 | a call is accepted exactly when fewer than max accepted calls lie in the window before it |
| `RateLimit.WindowBound` | src/auth/rate-limit.js:3-14 | accepted calls less than a window apart are at most max |
| `RateLimit.RemainingIsExact` | src/auth/rate-limit.js:3-14 | an accepted call is told exactly how many more the window has room for |
| `RateLimit.FreshIffWithinWindow` | src/auth/rate-limit.js:3-14 | a call counts until the window has passed since it was made |
| `RateLimit.RetryAfterIsExact` | src/auth/rate-limit.js:8-10 | the next call after a rejection is accepted exactly when it waits as long as it was told |
| `RateLimit.ZeroNeverAccepts` | src/auth/rate-limit.js:8-10 | with max 0 every call is rejected and none is told when to retry |
| `Boundary.ResolveThroughExisting` | src/git/boundary.js:13-27 | the climb ends with the real path of the deepest existing ancestor followed by the missing components in order, or with the path itself when not even the root exists |
| `Boundary.ResolveJoins` | src/git/boundary.js:33-37 | resolving joined texts joins what each resolves to, so the components of a path are those of its parts in order |
| `Boundary.ResolveKeepsNames` | src/git/boundary.js:33-37 | the components are exactly the texts that are neither empty nor a dot |
| `Boundary.StringPrefixIsComponentPrefix` | src/git/boundary.js:33-45 | the separator-terminated string test is the prefix test on component lists |
| `Boundary.SiblingIsOutside` | src/git/boundary.js:33-45 | a sibling that continues the root's name is outside although its text starts with the root's |
| `Boundary.InsideIffBelow` | src/git/boundary.js:39-45 | a target is inside exactly when it climbs nowhere and its canonical components begin with the root's |
| `ProjectDocument.RoundTripIffOrdered` | src/storage/project-document.js:28-212 | a document returns exactly when a final history never stands without a final, the finals are in the order of their keys and the evidence is the last run's; state, iteration, history, discovery and reviews always return |
| `ProjectDocument.WhatComesBack` | src/storage/project-document.js:28-212 | for every document, what comes back |
| `ProjectDocument.EvidenceIsTheLastRuns` | src/storage/project-document.js:313-318 | the evidence that comes back is that of the last Cursor run that has some |
| `ProjectDocument.FinalsComeBackInKeyOrder` | src/storage/project-document.js:28-106 | the finals come back sorted by key, all of them, and those of one key in the order they had |
| `ProjectDocument.RowsCarryTheirKeys` | src/storage/project-document.js:108-212 | the stored finals are the earlier ones and then the current one, each under the number of Cursor runs it judged, or else under its place |
| `ProjectDocument.LostDocuments` | src/storage/project-document.js:49-64 | three documents that do not return |
| `ProjectDocument.DisassembleProject` | src/storage/project-document.js:108-212 | the loops push one row per discovery, review and final, in their order |
| `ProjectDocument.AssembleProject` | src/storage/project-document.js:28-106 | the loops rebuild the specified document from any rows |

## Findings

Properties one would expect that the code does not have; each is proved of the model, with its condition.

- A handler can request an illegal edge: a FINAL_VERIFICATION job whose worker died before the handoff, executed again
  after the owner requested changes, asks for DELIVERY_PREPARATION from COUNCIL_DISCOVERY; that error is terminal and
  fails the project (`WorkflowSafety.LateFinalJobFailsTheFeedbackCycle`). Exactly when:
  `JobSafety.JobIsIllegalIffAstray`; not while the job alone moves the project: `JobLifetime.ReplaysStayLegal`.
- `completeAndHandoff` and `fail` do not check that the caller still holds the row, and the worker does not ask, so a
  late worker completes, dead-letters or requeues a row that another one is working on
  (`QueueLate.ALateWorkerTakesTheJob`). Exactly when: `QueueRuns.HandoffTakesIffHeldByOther`,
  `QueueRuns.FailTakesIffHeldByOther`; every change of status by a late report: `QueueLate.LateFailChangesIff`,
  `QueueLate.LateHandoffChangesIff`.
- Nor does `fail` check the status: a late failure report queues a completed or dead job again, and it is executed once
  more (`QueueLate.ACompletedJobRunsAgain`). Exactly when: `QueueLate.EndedRunsAgainIff`.
- `attempts` can pass its maximum. Two causes put a job back with no attempt left: lease recovery and release, which do
  not look at the attempts (`QueueLate.ARecoveredJobPassesItsLimit`), and a late failure report, which looks at the
  attempts of its own ticket (`QueueLate.ALateFailurePassesTheLimit`). Exactly when: `QueueAttempts.PastLimitIff`, and
  `QueueAttempts.HonestPastLimitIff` without late callers; the exact count: `QueueAttempts.AttemptsAreConserved`. A
  recorded maximum of 0 is read as 8.
- `enqueue` returns no job when the project's active job has another key: `Queue.EnqueueCreatesIffFree`.
- An error recorded on a project that is already READY leaves it READY: the gate would reject it, for that error only
  (`WorkflowSafety.FailureOnReadyBreaksOnlyTheErrorCheck`).
- An approval that is interrupted between its two transitions leaves the project in OWNER_APPROVED for good: nothing moves
  it to DONE, and a second approval is refused (`Deliveries.InterruptedApprovalStays`,
  `Deliveries.ApprovalCanBeInterrupted`).
- With MAX_IMPLEMENTATION_ITERATIONS set to 0 queue mode runs Cursor once where the in-process loop refuses:
  `Refinement.ZeroCapPartsTheDrivers`; for every positive cap the two agree: `Refinement.LoopIsJobs`.
- A verification that is found complete for an unchanged checkpoint, but is not reusable, leaves the project with
  Cursor's own report as its evidence: `EvidenceLink.AFoundVerificationWithoutTheLink`,
  `EvidenceLink.FoundVerificationKeepsTheLink`. With reports that leave the checks to the platform the gate is shut on
  every required check then (`EvidenceLink.FoundVerificationLeavesTheGateShut`), and over whole runs no required check
  of a READY project rests on such a report (`EvidenceRuns.ReadyChecksAreBacked`).
- The evidence of a READY project may come from another verification than the latest one, and when that one called a
  check inapplicable, the gate lets a check through that the latest one requires
  (`EvidenceRuns.AReusedVerificationWaivesTheTests`, `EvidenceRuns.WaiverOpensTheCheck`). Otherwise the check passed:
  `EvidenceRuns.ReadyMeansPassed`.
- A COMPLETE review may answer a critical finding by a blocking entry of low severity with the same issue:
  `Council.PlayedDownFindingIsAccepted`. Exactly when: `Council.CompleteIffResolvedOrPlayedDown`.
- `completeValidated` counts a reply without usable JSON twice in the attempts it reports: `Completion.CompleteValidated`.
- A stored document loses a final history without a final, the order of finals whose counts decrease, and evidence that
  differs from the last run's: `ProjectDocument.LostDocuments`. Exactly when: `ProjectDocument.RoundTripIffOrdered`.
- With a limit of 0 a rejected call is given no time to retry: `RateLimit.ZeroNeverAccepts`.

## Left out

- WorkflowSafety.EveryEntryIsCertified: assumes one writer at a time per project outside owner decisions; two processes
  that save the same project are not modelled.
- WorkflowSafety.ActionIsSound: provisioning answers PASS with a baseline or throws, as the shipped provisioners do
  (src/provision/provisioners/base.js:75); what another answer would do is stated in Refinement.
- WorkflowSafety.ReadyIsAlwaysCertified: the security verdict is the environment's and is certified at the entry only.
- Refinement.LoopIsJobs: assumes a positive cap; for a cap of 0 it is false, see Findings. A negative cap is not
  modelled.
- Gate.AcceptedMeansRequiredStepsRanAndPassed: takes the link to the latest verification run as a premise; the branches
  that make it are in EvidenceLink, and EvidenceRuns proves for whole runs the link to some recorded run.
- EvidenceRuns.ReadyChecksAreBacked: for Cursor reports that leave build, tests and lint NOT_RUN, as the shipped clients
  do, and verification runs with new ids; which recorded run it is, and that it is of the delivered checkpoint, is not
  stated.
- Provenance.RecordsAreAnswers: the record that was shown when the answer was given lies on a path of elementary updates
  between two stored records; that it is the record of the handler itself is what CouncilDecisions and StagePaths state for
  each step.
- QueueRuns.LeaseIsExclusive: workers complete and fail only what they hold; what happens otherwise is stated in
  QueueLate.
- QueueAttempts.NoClaimBeforeTheDelay: the same premise; a late report may set another time.
- QueueAttempts.AttemptsAreBounded: needs each ticket in at most one failure report, as the worker sends them.
- JobKeys.KeysAreInjective: ids, hashes and checkpoints other than the delivery's contain no colon; hashes are injective.
  Splitting a stored key at colons in verification lookups is not modelled.
- ProjectDocument.RoundTripIffOrdered: round histories, operations, errors, long prompts and the runs other than their
  evidence are not part of the document; ids given to rows are random and not modelled.
- Boundary.InsideIffBelow: absolute POSIX paths only; Windows separators and drive letters are not modelled.
- Council.IndependentRound: cancellation, the disagreement rounds and anonymisation are not modelled.
- Completion.CompleteValidated: delays between retries and timeouts are not modelled.
- ProjectLock.AtMostOneDecisionSucceeds: the lock lives in one process, and so does the theorem.
- Worker.Solitary.Work: one worker and no competing action between its jobs; the interleavings of saved snapshots are
  those of Trace. Which errors are final (classifyJobError) is a parameter, and delays between attempts are not part of
  it.
- A late worker that is still executing a job while the new holder executes it too, on two records in memory of which
  the last save wins, is not modelled; the checks of ownership inside the long stages are there for it.
- Null, undefined and the empty string are one absent value, and white space to trim is the four ASCII characters.
- project.checkpoint.sha, which the mock policy reads and nothing writes (src/orchestrator/checkpoint.js:33-91), and
  sandboxProvenance.checkpointSha, which the lineage check reads and nothing writes (src/delivery/lineage.js:79-81).
- The commit an existing repository starts from is given with the project; the source records it when it prepares the
  workspace.
- Texts that decide nothing (prompts, notes, errors' messages, timestamps, permission logs) are not part of a project;
  an error is only present or absent.
- The id of a delivery is represented by its version, which is unique.
- Which capabilities, priority and limit of attempts a stage's job has (src/jobs/types.js:95-160): any the plan gives.
- One clock for all workers and the database.
- The runtime scenario loop and visual review rounds: their results are arbitrary inputs of the stages.
- HTTP, authentication tokens, adapters of providers, Cursor, sandboxes and browsers, archives, reports,
  notifications, secret handling and migrations: input and output, or easy beside the rest.
