# Agent Work Relay: a verified model of the broker

Agent Work Relay is a broker between a caller, who submits work orders, and executors, who plan and
carry them out. It keeps every work order in durable rows, drives it through a fixed lifecycle, dispatches
approved plans to an external provider, scans artifacts before they may be referenced, and speaks a
Markdown dialect (`@response`) with its participants. This project models the parts of it that carry
guarantees and proves the guarantees over every input, every run and every interleaving.

## Layout

- **Lifecycle.** `Lifecycle` is the pure kernel. `Broker` and `Planning` are the transactions over the rows
  of one work order, as functions from rows to rows. `Runs` is any sequence of them by any callers.
  `Chain`, `PlanAuthority`, `Milestones`, `Participants`, `Replay`, `Dispatches` and `BoundRun` are what every
  run keeps; `UncheckedQuestion` is about the one response that may name any run.
  `History` is the documented lifecycle as conditions on the stored rows alone, written without the kernel;
  `KernelHistory` and `SnapshotHistory` lead up to `Reference`, where in every reachable record each transaction
  stores exactly what the rows admit. On it rest `Approvals`, `Targets`, `Reviews` and `Bypass`.
  `PlanningOutcomes` says entry by entry what the planning transactions write.
  `Store` and `BrokerService` are the objects whose methods carry the transactions out, write by write, with
  rollback; a ghost history ties their state to a run, so every theorem about runs holds of them.
- **Dispatch outbox.** `Outbox` is the machine of any number of refresh workers and a provider; a worker may
  stop anywhere and the provider may take a request up at any later time. `OutboxSafety` and `OutboxBinding`
  are what every interleaving keeps, `Leases` what a lease does, `DispatchRows` what becomes of each row,
  `Overtaken` is a run that shows why one result needs its condition, `LatestAck` says exactly when EXECUTING is bound to the latest attempt, `Refresh` what one uninterrupted
  refresh reaches, and `AckMarkdown` when its acknowledgement survives being printed and parsed.
- **`@response` packets.** `Validate` and `Markdown` are the validator, the printer and the parser;
  `MarkdownIO` is the printer and the parser as loops. `ValidationLaws`, `FrontMatter`, `PayloadKeys`,
  `Envelope`, `ReadBack`, `Prose`, `BodyBack`, `SingleLine`, `Survival`, `EnvelopeBack` and `PayloadBack` build
  up to the round trip in `RoundTrip`. `Schema` says which packets are accepted, without naming the validator;
  `Utf8` is what its size limits count, `Blocks` where the front matter of any document is and what it says.
- **Artifacts.** `Artifacts` has the rows, receipts and bodies, `Scanning` the machine of scanners and
  retention, `ScanSafety` what it keeps. `Verdicts` tells each verdict from the bytes and the gates' answers,
  `ScanProtocol` how it reaches the artifact, `ScanLeases` what a scan lease does, `Retention` what finalizing and
  retention do. `SecurityOrchestrator`, `BodyStore` and `Bundle` are the objects.
- **Storage and limits.** `Firestore`, `FirestoreSafety` and `FirestoreSession` are optimistic sessions,
  `FirestoreIds` says where the documents of a session end up,
  `FirestoreStatus` says when the status a session saw is still the stored one,
  `Overlay` the in-memory transactions, `Limiter` the sliding window, `IsoTime` the comparison of times as text.

Hashes and JSON text are parameters with the laws the proofs need: a digest is 64 hexadecimal digits, decoding
inverts encoding. Times are instants passed in by the caller; ids that the broker draws at random are passed
in too, and where freshness matters it is a condition of the step. `clash` parameters stand for a row of
another work order that already holds a value the schema wants unique.

## Where code and documentation differ

- `docs/AWR-LC-01B.md:42` lists `question.blocked` among the responses checked against the bound run. The
  kernel does not check it (`src/awr/lifecycle/kernel.py:170-181`), and the model follows the kernel. The
  documented check holds exactly for the types `Lifecycle.NeedsBoundRun` names:
  `UncheckedQuestion.HeldToBoundRunIff` proves it over every reachable EXECUTING record, from a reachable record
  that stores a question naming another run. `UncheckedQuestion.QuestionOfAnyRunIsStored` says that every
  EXECUTING record stores such a question, and `BoundRun.ReportsNameTheBoundRun` is the check for the other
  types, over every run.
- The status a Firestore session saw may differ from the stored one when it commits, because the commit compares
  ledger sequences only (`src/awr/storage/firestore.py:510-556`). A status change between the two reads is one way,
  a commit of a status without an entry, as `src/awr/service.py:1620-1622` makes, the other.
  `FirestoreStatus.StatusFreshIffReadsAgree` gives the exact guard where status writes carry entries,
  `FirestoreStatus.StatusOnlyCommitGoesUnseen` shows that this premise is needed after every run, and
  `FirestoreStatus.LockedSessionIsFresh` that the lock of one process is enough.
- The claim that EXECUTING is bound to the run of the latest attempt fails when a planning refresh puts the
  work order back to PLAN_READY during a dispatch, because planning writes the status outside the kernel
  (`src/awr/service.py:416`, `src/awr/service.py:1742-1743`). `Overtaken.BoundToAnOvertakenAttempt` is such a
  run, `LatestAck.ExecutingBoundToLatestIff` says exactly when the claim holds in any interleaving with
  acknowledgements from workers, `OutboxBinding.StoredAckBindsLatestIff` exactly which acknowledgement binds the
  latest attempt, and `OutboxBinding.ExecutingIsBoundToLatestAttempt` proves the claim where planning publishes
  nothing during a dispatch. `LatestAck.PublishedPlanIsDisciplined`: once plan.available is recorded, it cannot.
- `docs/AWR-LC-01B.md:35-50` gives decisions a target: the stored plan, the completion, the review, the work order.
  The kernel compares the target of `approve_plan` alone, and of that not the kind
  (`src/awr/lifecycle/kernel.py:293-296`). `Targets.OtherTargetsAreIgnored` and `Targets.ApprovalKindIsIgnored` prove
  it over every reachable record. An `approve_plan` of another kind makes the work order READY_FOR_EXECUTION, but no
  dispatch accepts it (`src/awr/lifecycle/decisions.py:130-150`): `Targets.WrongKindIsStuck`.
- A request for changes does not force `implementation.refine`: a planning refresh may publish a plan and open the way
  through a second approval. `Bypass.RefineIsForcedIff` proves that it is forced exactly when the plan has been
  published already.
- A Firestore commit that finds the ledger moved on takes itself for done when its entries, packets, decisions,
  dispatches and status are there; it does not look for the lifecycle document (`src/awr/storage/firestore.py:510-556`).
  `FirestoreIds.LifecycleIsStoredIff` says exactly when a successful commit has written it.

## Model

| member | source | states |
|---|---|---|
| Reference.ResponseIsStoredIff | src/awr/lifecycle/kernel.py:124-200 | in every reachable record a response is stored, and leads to a state, if and only if it is new and the stored rows admit it along a documented edge: addressed to the latest message, an acknowledgement under a live approval of the stored plan, a report with the run of the last acknowledgement; then row, entry and receipt say so, and otherwise nothing changes |
| Reference.DecisionIsStoredIff | src/awr/lifecycle/kernel.py:262-299 | the same for decisions: the sender's, never an executor's, at the current version, not expired, an approval naming the stored plan, no question open at the end |
| Reference.MessageIsStoredIff | src/awr/lifecycle/kernel.py:202-259 | the same for broker messages; an answer leads back to where the open question was asked, which the rows tell |
| Reference.IntentIsStoredIff | src/awr/service.py:866-1023 | the same for execution intents: the new row is attempt n + 1 of the stored plan under its latest live approval, for the planning agent |
| Reference.OpenDispatchIsReplayed | src/awr/service.py:866-1023 | while a dispatch is open another intent is answered with the receipt of the last open one |
| Reference.RepeatedDecisionIff | src/awr/service.py:656-690 | a later request under the same actor, type and key gets the stored receipt if and only if it asks for the same decision, all but id and time compared |
| Approvals.StoredApprovalNamesLastPlan | src/awr/lifecycle/kernel.py:293-296 | in every reachable record a stored approve_plan has the id and digest of the last stored plan.completed; with another target nothing changes |
| Approvals.ReadyMeansApproved | src/awr/lifecycle/kernel.py:293-296 | every stored approve_plan names the stored plan, and READY_FOR_EXECUTION has one that names the snapshot's |
| Targets.OtherTargetsAreIgnored | src/awr/lifecycle/kernel.py:262-299 | of every decision but approve_plan the target is not looked at |
| Targets.WrongKindIsStuck | src/awr/lifecycle/decisions.py:130-150 | READY_FOR_EXECUTION without an approval of kind plan is left by cancellation and planning only |
| Reviews.ReviewOutcomeLeads | src/awr/lifecycle/transitions.py:51-55 | a stored review reporting REVISE leads to REVISION_REQUIRED, one reporting APPROVED or REJECTED to WAITING_FOR_HUMAN_REVIEW, and no other is stored |
| Reviews.CompletedReviewIsFavourable | src/awr/lifecycle/transitions.py:51-55 | the last stored review of a completed run reports APPROVED or REJECTED |
| Reviews.RevisionIsReworked | src/awr/lifecycle/transitions.py:10-84 | between a stored REVISE review and a later accept_completion the work order was dispatched again, by implementation.refine unless a plan was published in between |
| Bypass.RefineIsForcedIff | src/awr/service.py:1734-1755 | implementation.refine is forced before completion if and only if the plan has been published already |
| Leases.LeaseKeepsOthersOut | src/awr/storage/sqlite.py:535-576 | in every interleaving, while a row stays leased under a claim made at t, another owner's claim before t + 30 s takes nothing and changes nothing |
| Leases.LeaseEndsAfterThirtySeconds | src/awr/storage/sqlite.py:535-576 | from t + 30 s on any owner's claim of an unsettled row succeeds and counts one attempt more |
| Leases.UnleasedRowIsTaken | src/awr/storage/sqlite.py:535-576 | a row nobody leases is anybody's until it is settled |
| DispatchRows.RowsFollowTheProtocol | src/awr/service.py:1098-1166 | in every interleaving each move leaves each row exactly as the dispatch sequence says, and all others alone |
| DispatchRows.RecordedRunIsFinal | src/awr/service.py:1098-1166 | once a row names its provider run it names that run for ever |
| DispatchRows.AcknowledgedIsDurable | src/awr/service.py:1120-1166 | an ACKNOWLEDGED row has no lease and its acknowledgement is stored |
| Refresh.HeldRowIsLeftAlone | src/awr/service.py:1025-1055 | a refresh of a settled row, or of one leased by somebody else, answers the row's receipt and does nothing |
| Refresh.RepeatedAckIff | src/awr/service.py:1120-1166 | when the acknowledgement of a row is stored but the row was not settled, a later refresh settles it with the stored receipt if and only if its packet has the stored digest, and is refused otherwise |
| PlanningOutcomes.ReturnedPlanTellsLedger | src/awr/service.py:323-438 | a returned plan packet tells the two ledger entries it stands for |
| PlanningOutcomes.PublicationComesFirst | src/awr/service.py:1734-1755 | a plan that awaits publication is published before anything else is written |
| Verdicts.MalwareIff | src/awr/artifacts/security.py:241-320 | an evaluation is REJECTED_MALWARE and malicious if and only if bytes that pass digest, size and type were found infected, or passed the scanner and were rejected as malware by the validator |
| Verdicts.UnavailableIff | src/awr/artifacts/security.py:366-392 | REJECTED_SCANNER_UNAVAILABLE exactly when a gate that was reached raised, the scanner timed out or was down, or the validator said so, each with its reasons |
| Verdicts.TamperingIff | src/awr/artifacts/security.py:241-320 | REJECTED_TAMPERING exactly for bytes that are missing or have lost digest or length, or by the validator |
| Verdicts.SizeIff | src/awr/artifacts/security.py:241-320 | REJECTED_SIZE exactly for genuine bytes over the limit, or by the validator |
| Verdicts.TypeIff | src/awr/artifacts/security.py:356-364 | REJECTED_TYPE exactly for a detected type that is refused, with the first reason that applies, or by the validator |
| Verdicts.ContentIff | src/awr/artifacts/security.py:241-320 | malformed and active content exactly as the validator says, with its reason |
| Verdicts.PlainReceiptStatus | src/awr/artifacts/contracts.py:161-188 | how a receipt without a status reads: the verdict first, then the gravest reason |
| ScanProtocol.VerdictReachesArtifact | src/awr/artifacts/security.py:72-167 | in every interleaving, a scanner that holds its decision for a digest without a receipt and goes on uninterrupted ends the artifact with it, a clean one with its body promoted; a body that vanished makes a clean decision tampering, one that changed leaves the artifact as it was |
| ScanProtocol.MissingBodyIsRestored | src/awr/artifacts/security.py:196-202 | a clean receipt whose body is gone gets it back from an intact quarantine |
| ScanLeases.ScanLeaseKeepsOthersOut | src/awr/storage/artifact_sqlite.py:189-282 | while a scan claimed at t has no receipt, another scanner gets nothing before t + ttl |
| ScanLeases.ScanLeaseEnds | src/awr/storage/artifact_sqlite.py:189-282 | from t + ttl on any scanner takes it over |
| ScanLeases.OvertakenScannerIsRefused | src/awr/storage/artifact_sqlite.py:284-375 | the overtaken scanner cannot complete while the new lease runs without a receipt |
| Retention.FinalizeOutcome | src/awr/artifacts/service.py:65-154 | finalizing rejects by size, by a broken promise or not at all, and quarantines under the body's own digest and length |
| Retention.BodiesGoAtTheEnd | src/awr/artifacts/retention.py:48-93 | in every interleaving a promoted body disappears only when retention deletes the body of an artifact that ended |
| BodyStore.NamedFileIff | src/awr/storage/artifact_fs.py:19-32 | a name leads to a file if and only if the id has no separator and no double dot and the digest is 64 hexadecimal digits |
| FirestoreIds.CommittedDocumentsAreStored | src/awr/storage/firestore.py:573-592 | a successful commit leaves every packet, decision and dispatch the session was given in the collection of its kind, and adds no other id; a failed one writes nothing |
| FirestoreIds.DocumentsAccumulate | src/awr/storage/firestore.py:573-592 | ids are never taken away |
| FirestoreIds.StoredDecisionsWerePut | src/awr/storage/firestore.py:444-446 | every stored decision was put as a decision by a session that committed |
| FirestoreIds.LifecycleIsStoredIff | src/awr/storage/firestore.py:510-592 | a successful commit writes its lifecycle document if and only if it found the ledger it had read |
| FirestoreIds.RepeatedCommitIff | src/awr/storage/firestore.py:510-556 | a committed session with entries may commit again: nothing more is written, and it is refused exactly when the order has another status by now |
| FirestoreSession.RecordDecision | src/awr/service.py:692-717 | a decision transaction under the lock writes status, next entry, lifecycle document and decision, all in one commit |
| FirestoreSession.CommitIntent | src/awr/service.py:950-1023 | an intent transaction under the lock writes status, next entry, lifecycle document and dispatch, all in one commit |
| Schema.PacketAcceptedIff | src/awr/responses/validate.py:45-111 | a packet is accepted if and only if its fields have the stated keys, kinds and sizes and a declared digest is the fingerprint |
| Schema.PayloadAcceptedIff | src/awr/responses/validate.py:178-294 | a payload is accepted if and only if it has the shape of its type |
| Schema.BodySays | src/awr/responses/validate.py:45-111 | the accepted packet says what the mapping says, field by field |
| OutboxSafety.OneRunPerAttempt | src/awr/service.py:1025-1096 | over every interleaving a dispatch with an existing agent is submitted at most once; all submissions of a dispatch carry its own key; the runs started for a dispatch are one run, no run serves two dispatches, and a stored provider run is that run |
| OutboxSafety.AdvanceIsSafe | src/awr/service.py:1025-1166 | every single move of a worker, the provider or another caller keeps the outbox invariant |
| OutboxSafety.FirstClaimerIsAlone | src/awr/storage/sqlite.py:535-576 | only the worker whose claim raised the attempt count to one may still submit a follow-up |
| OutboxSafety.ProviderIsSafe | src/awr/executors/recording_cursor.py:84-107 | a provider that keys creation by the idempotency key starts one run per dispatch, however late it takes a request up |
| OutboxBinding.ExecutingIsBoundToLatestAttempt | src/awr/service.py:1120-1166 | attempts are exactly 1..n, n the number of dispatch entries, and EXECUTING is bound to a run of attempt n although delayed workers of earlier attempts resume, as long as no plan is published during a dispatch |
| LatestAck.ExecutingBoundToLatestIff | src/awr/service.py:1120-1166 | in every interleaving with acknowledgements from workers only, EXECUTING is bound to a run of the latest attempt if and only if the last stored acknowledgement answers the last dispatch row |
| LatestAck.PublishedPlanIsDisciplined | src/awr/service.py:1734-1755 | once the plan is published no planning transaction can put a dispatched work order back, so the binding to the latest attempt needs nothing of planning |
| OutboxBinding.PublishingWritesPlanReady | src/awr/service.py:1742-1743 | planning puts a work order to PLAN_READY exactly when it publishes a plan, which the ledger tells beforehand |
| OutboxBinding.StoredAckBindsLatestIff | src/awr/service.py:1128-1146 | a stored acknowledgement binds a run of the latest attempt if and only if its worker holds that attempt |
| OutboxBinding.PlayIsRun | src/awr/service.py:1025-1166 | the record of every interleaving is the record of a run of transactions |
| Overtaken.BoundToAnOvertakenAttempt | src/awr/service.py:401-427 | a run with acknowledgements from workers only ends in EXECUTING bound to a run that is not of the latest attempt |
| Refresh.RefreshOutcomeIff | src/awr/service.py:1025-1096 | one uninterrupted refresh of a claimable row reaches EXECUTING, bound to the obtained run, exactly when a run can be obtained, a live approval covers the plan and the acknowledgement's key and digest are unused, given that the acknowledgement's texts survive printing; when no run can be obtained the row is RECONCILIATION_REQUIRED and nothing else changed |
| Refresh.DisciplinedRefreshReachesExecuting | src/awr/service.py:785-801 | with acknowledgements from workers only, nobody has taken the key of the latest dispatch, so an obtainable run and a live approval are enough |
| AckMarkdown.PrintedAckIsStoredIff | src/awr/service.py:1128-1140 | the acknowledgement the broker built, submitted as printed text, is stored if and only if a live approval covers the plan, its key and digest are unused, and the run id, the executor's name and its other texts survive printing |
| AckMarkdown.PrintedAckIsSubmitted | src/awr/service.py:1138-1140 | then submitting the text does what submitting the packet does |
| Refresh.SubmissionIsKeyed | src/awr/executors/recording_cursor.py:84-112 | a key never starts a second run and never loses its first |
| Dispatches.AttemptsOverRuns | src/awr/service.py:918-986 | dispatch rows are numbered 1..n in order, one per dispatch entry of the ledger, with distinct ids |
| PlanAuthority.ExecutionIsApproved | src/awr/lifecycle/decisions.py:130-150 | from EXECUTION_DISPATCHED through COMPLETE a stored approve_plan of kind plan names the snapshot's plan id and digest, and exactly one plan.completed was accepted |
| PlanAuthority.FingerprintIsFinal | src/awr/lifecycle/kernel.py:152-157 | the plan fingerprint never changes once written |
| Milestones.CompletedRunsPassEveryGate | src/awr/lifecycle/transitions.py:10-84 | a run that ends in COMPLETE holds all nine gates in order, and its last dispatch is followed by a whole execution and review cycle |
| Chain.ChainOverRuns | src/awr/lifecycle/kernel.py:124-200 | stored responses and broker messages form one chain in which each response answers the latest message; version is one plus the number of accepted steps; packet ids are unique |
| BoundRun.ReportsNameTheBoundRun | src/awr/lifecycle/kernel.py:170-181 | in every run each stored execution.progress, execution.completed and execution.failed reports exactly the run bound by the latest execution.acknowledged stored before it |
| UncheckedQuestion.QuestionIgnoresRun | src/awr/lifecycle/kernel.py:170-181 | the kernel's answer to question.blocked depends neither on its executor_run_id nor on its payload |
| UncheckedQuestion.QuestionOfAnyRunIsStored | src/awr/lifecycle/kernel.py:170-181 | in every EXECUTING record a new question is stored, whatever run it names |
| UncheckedQuestion.HeldToBoundRunIff | src/awr/lifecycle/kernel.py:170-181 | of the types accepted in EXECUTING, one is held to the bound run in every reachable record if and only if it is progress, completed or failed; question.blocked is not |
| Participants.AcknowledgersNeverDecide | src/awr/lifecycle/kernel.py:324-328 | an actor whose execution.acknowledged was accepted has no later decision accepted |
| Participants.OnlySenderDecides | src/awr/lifecycle/kernel.py:262-299 | every accepted decision is the sender's, and none is accepted when sender and recipient are one |
| Participants.AnswerRestores | src/awr/lifecycle/kernel.py:238-250 | a question is asked only while PLANNING or EXECUTING, and its answer restores that state with plan and run bindings unchanged |
| Replay.StoredResponseReplays | src/awr/service.py:509-541 | in any later state the same key with the same digest returns the stored receipt, with another digest is refused, and changes nothing either way |
| Replay.StoredDecisionReplays | src/awr/service.py:656-690 | the same for decisions and their fingerprints |
| Replay.ReturnedPlanIsFinal | src/awr/service.py:323-438 | over any interleaving each plan event is recorded at most once, plan.available points at plan.received, and a returned plan is the one every later ledger shows |
| Replay.EveryReturnedPlanIsTheSame | src/awr/service.py:1734-1778 | all plan packets ever returned are equal |
| Lifecycle.MatchingPlanApproval | src/awr/lifecycle/decisions.py:130-150 | an approval is returned only if it is stored, bound to the fingerprint and live, and none is missed |
| Store.WorkOrderSession.PutResponse | src/awr/storage/sqlite.py:675-699 | a response row is inserted exactly when no row holds its packet id or its actor, type and idempotency key |
| Store.WorkOrderSession.AppendLedger | src/awr/storage/sqlite.py:659-673 | the entry gets the next sequence number at the end of the ledger |
| BrokerService.Service.SubmitResponse | src/awr/service.py:493-600 | write by write, the new rows and the answer are those of the response transaction, which Reference.ResponseIsStoredIff tells from the rows, all of them or none |
| BrokerService.Service.RecordDecision | src/awr/service.py:602-721 | write by write, the new rows and the answer are those of the decision transaction, which Reference.DecisionIsStoredIff tells from the rows, all of them or none |
| BrokerService.Service.ApplyBroker | src/awr/service.py:818-864 | the new rows and the answer are those of the broker-message transaction, which Reference.MessageIsStoredIff tells from the rows |
| BrokerService.Service.CommitExecutionIntent | src/awr/service.py:866-1023 | write by write, the new rows and the answer are those of the intent transaction, which Reference.IntentIsStoredIff tells from the rows, all of them or none |
| BrokerService.Service.ClaimExecutionLease | src/awr/storage/sqlite.py:535-576 | the row is leased to the owner unless it is settled or somebody else holds a live lease, with the effect that Leases proves over every interleaving |
| BrokerService.Service.PersistProviderAcceptance | src/awr/service.py:1098-1118 | the run is recorded unless the row is acknowledged |
| BrokerService.Service.PersistExecutionAck | src/awr/service.py:1120-1166 | the acknowledgement is submitted and the row settled only if it was stored or replayed |
| BrokerService.Service.MarkReconciliationRequired | src/awr/service.py:1300-1327 | the row is RECONCILIATION_REQUIRED without a lease and nothing else changed |
| BrokerService.Service.AdvanceExecutionDispatch | src/awr/service.py:1025-1096 | record, provider and answer are those of one uninterrupted refresh |
| BrokerService.Service.RefreshPlanning | src/awr/service.py:323-427 | afterwards each plan event is recorded at most once and a returned plan is the ledger's; a plan that was there is returned and nothing changes; a plan that awaits publication is published; otherwise, once planning was acknowledged, the run's report is recorded: its status when it is a new one, its failure once, its plan with both entries |
| BrokerService.Service.PublishExistingPlan | src/awr/service.py:1734-1755 | publishes a received plan once and returns the plan the ledger shows |
| BrokerService.RecordingExecutor.Submit | src/awr/executors/recording_cursor.py:84-107 | one remembered run per key |
| Utf8.LengthIsOctets | src/awr/responses/validate.py:345-350 | a size limit counts the octets of the UTF-8 encoding (section 3 of RFC 3629), from which the text comes back |
| Blocks.BlockIsReadIff | src/awr/responses/validate.py:433-459 | the awr block of any document is parsed if and only if a line of it says something, and the mapping has for each key exactly the value of the last line of the block with that key |
| Blocks.FrontIsFoundIff | src/awr/responses/validate.py:114-140 | the front matter is found if and only if the mark is the first text and the only mark, a fence the next text and another fence follows, and then between those fences |
| Envelope.EvidenceIsAListInText | src/awr/responses/validate.py:367-378 | a document whose evidence is not the JSON text of a list is not parsed |
| RoundTrip.RoundTripIff | src/awr/responses/validate.py:114-175 | rendering a validated packet and parsing it gives the same packet and fingerprint if and only if the packet is canonical |
| RoundTrip.BrokerAckComesBack | src/awr/service.py:1130-1146 | the acknowledgement the broker feeds back through the parser comes back unchanged |
| EnvelopeBack.ParseOfRendered | src/awr/responses/render.py:15-39 | a rendered packet with one-line headers parses from exactly its own entries and body, and not at all if its body holds a second decorator |
| FrontMatter.ParseOfDocument | src/awr/responses/validate.py:433-459 | any list of printable entries and any body printed as a document is read back as the entries' cleaned values and the trimmed body |
| SingleLine.ParsedIsOneLine | src/awr/responses/validate.py:114-175 | whatever document is parsed, its envelope values are single lines |
| PayloadBack.ParsedRunsAgree | src/awr/responses/validate.py:168-173 | any parsed acknowledgement names the same run in the envelope and in the payload |
| BodyBack.ProseIff | src/awr/responses/validate.py:381-417 | the prose body gives the field back exactly when it has no break but the newline and no trimmed margin |
| BodyBack.QuestionsComeBack | src/awr/responses/validate.py:420-430 | printed questions are read back as they were |
| Prose.ReadQuestionsAreOk | src/awr/responses/validate.py:420-430 | every question read from any lines has exactly an id and a text, and when both are non-empty the id is trimmed, on one line and without a colon, the text trimmed and on one line |
| ValidationLaws.ParseIsIdempotent | src/awr/responses/validate.py:45-111 | validating a validated packet returns the same packet and fingerprint |
| ValidationLaws.ObjectIsSound | src/awr/responses/validate.py:254-294 | exactly the present fields are returned, each once, each checked, and every required one |
| ValidationLaws.ObjectAgrees | src/awr/responses/validate.py:254-294 | the result depends on the checked values only, not on how the input spelled them |
| MarkdownIO.RenderResponseMarkdown | src/awr/responses/render.py:15-39 | the loop prints the specified document |
| MarkdownIO.PayloadFieldLines | src/awr/responses/render.py:42-59 | the loop prints one line per field outside the body |
| MarkdownIO.ParseResponseMarkdown | src/awr/responses/validate.py:114-175 | the index loops parse as specified |
| MarkdownIO.ParseAwrBlock | src/awr/responses/validate.py:433-459 | the flag-driven loop finds the specified mapping |
| MarkdownIO.QuestionsFromBody | src/awr/responses/validate.py:420-430 | the loop reads the specified questions |
| MarkdownIO.AssignMarkdownBody | src/awr/responses/validate.py:381-417 | the mapping gets the specified body field |
| ScanSafety.CleanIsEarned | src/awr/storage/artifact_sqlite.py:284-375 | the move that makes an artifact CLEAN finds its one receipt CLEAN, bytes with its digest that passed every gate, and the promoted body with that digest |
| ScanSafety.NothingIsTakenBack | src/awr/storage/artifact_sqlite.py:485-511 | rejected statuses never change, the digest and every receipt are written once, CLEAN is left only towards relaying |
| ScanSafety.CleanMeansPassed | src/awr/artifacts/security.py:241-320 | an evaluation is CLEAN exactly for bytes with the digest and length, within the limit, that passed every gate |
| ScanSafety.PurgeIsSound | src/awr/artifacts/retention.py:48-93 | what retention decides from an old row keeps the invariant |
| SecurityOrchestrator.Orchestrator.Inspect | src/awr/artifacts/security.py:72-167 | an uninterrupted inspection in any state: a settled artifact with a reusable receipt is answered from it; an unclaimable one is refused and nothing changes; otherwise the artifact ends with the status of its digest's one receipt, the stored one or the evaluation's, a clean verdict without a body becomes tampering, and a CLEAN artifact has its promoted body; outright, a quarantined artifact without a receipt ends malicious and REJECTED_MALWARE when found infected, REJECTED_TAMPERING when its bytes are not the received ones, REJECTED_SCANNER_UNAVAILABLE when a gate raises, CLEAN when every gate passes |
| SecurityOrchestrator.Orchestrator.Finish | src/awr/artifacts/security.py:216-239 | promotion and completion from a receipt: raises exactly for an unpromoted body that lost its digest, and then changes nothing |
| SecurityOrchestrator.Orchestrator.PromoteCleanOrReject | src/awr/artifacts/security.py:204-214 | exactly when it promotes, answers from the clean tree, answers tampering, or raises, and what the clean tree is afterwards |
| SecurityOrchestrator.MetadataStore.ClaimLease | src/awr/storage/artifact_sqlite.py:189-282 | the row is as the claim transaction leaves it |
| SecurityOrchestrator.MetadataStore.CompleteLease | src/awr/storage/artifact_sqlite.py:284-375 | the row is as the completion transaction leaves it |
| SecurityOrchestrator.MetadataStore.PutSecurityReceipt | src/awr/storage/artifact_sqlite.py:133-165 | the first receipt of a digest stays and is what later writers get |
| Artifacts.PromotionKeepsNames | src/awr/storage/artifact_fs.py:86-109 | promotion keeps every clean file hashing to its name, whatever the quarantine holds, and delivers the digest |
| BodyStore.HashStream | src/awr/storage/artifact_fs.py:173-183 | digest and length updated chunk by chunk are those of the whole content |
| BodyStore.LocalArtifactBodyStore.WriteQuarantine | src/awr/storage/artifact_fs.py:44-78 | succeeds exactly for a valid id, a fitting stream and no conflicting file, and stores the whole stream under its digest |
| BodyStore.LocalArtifactBodyStore.PromoteClean | src/awr/storage/artifact_fs.py:86-109 | succeeds exactly when the quarantine file has the digest it is named by; the clean tree stays self-named and keeps its files |
| BodyStore.LocalArtifactBodyStore.DeleteGeneration | src/awr/storage/artifact_fs.py:117-121 | both files of the digest are gone, no other |
| Bundle.ResolveBundle | src/awr/artifacts/bundle.py:33-63 | succeeds if and only if the count, uniqueness, text and total size limits hold and every artifact is attachable; then every reference names clean bytes with that digest and length and a clean receipt, carries the record's labels, and the bundle fits its size |
| Bundle.AttachableReference | src/awr/artifacts/bundle.py:87-142 | a reference is backed, and a refusal means that no backed reference exists |
| Bundle.OrderDoesNotMatter | src/awr/artifacts/bundle.py:158-159 | the references, and so the bundle fingerprint, do not depend on the order in which artifacts were named |
| FirestoreSafety.LedgerOnlyExtends | src/awr/storage/firestore.py:166-192 | with any number of processes the ledger grows by extension only and is numbered 1..ledger_sequence |
| FirestoreSafety.CommittedSessionSawItsLedger | src/awr/storage/firestore.py:481-592 | a session whose commit succeeded, also on a repeated attempt, had seen exactly the ledger its entries extend |
| FirestoreSafety.WritingCommitFoundItsBase | src/awr/storage/firestore.py:510-592 | the commit that wrote entries found the ledger as the session had read it |
| FirestoreStatus.StatusFreshIffReadsAgree | src/awr/storage/firestore.py:217-229 | where every status write carries an entry, sequence k in the order document and n at the end of the ledger promise a writing session a fresh status, in every run, if and only if k = n |
| FirestoreStatus.DocumentFreshIffReadsAgree | src/awr/storage/firestore.py:510-556 | in each such run a session about to write holds the stored status and sequence exactly when its two reads agree |
| FirestoreStatus.StatusMayBeStale | src/awr/storage/firestore.py:217-229 | for every k < n a run of sessions in which another process changes the status between the two reads and the session writes all the same |
| FirestoreStatus.StatusOnlyCommitGoesUnseen | src/awr/storage/firestore.py:510-556 | after every run, another process can commit a status without an entry and a session whose reads agree commits on the status it replaced |
| FirestoreStatus.LockedSessionIsFresh | src/awr/storage/firestore.py:217-229 | when one process's lock spans both reads and the commit, every session holds the stored status and ledger and its commit goes through |
| FirestoreSession.WorkOrderSession.AppendLedger | src/awr/storage/firestore.py:366-384 | the entry is numbered after the base and what is pending, and the local ledger shows it |
| FirestoreSession.WorkOrderSession.Commit | src/awr/storage/firestore.py:481-592 | the documents are as the commit transaction leaves them, which FirestoreIds tells from the calls of the session, or unchanged |
| FirestoreSession.RecordResponse | src/awr/service.py:558-600 | a response transaction under the lock writes the status, the next entry and the packet, all in one commit that goes through |
| Overlay.InMemoryFirestore.RunTransaction | src/awr/storage/firestore_memory.py:178-183 | a function sees and leaves exactly what it would see and leave on the store itself; one that raises leaves the store unchanged |
| Overlay.InMemoryTransaction.Stream | src/awr/storage/firestore_memory.py:111-131 | a collection listed through the overlay is that of the merged store, each document once, in the order of the ids |
| Overlay.InMemoryTransaction.Update | src/awr/storage/firestore_memory.py:147-155 | fails exactly for a document absent from the merged store, and otherwise merges the fields |
| Limiter.SlidingWindowLimiter.Allow | src/awr/auth/hardening.py:37-50 | the popping loop and the answer are the specified ones; a limit of zero or less always allows |
| Limiter.WindowCountIsExact | src/awr/auth/hardening.py:37-50 | for non-decreasing times a call is accepted exactly when fewer than `limit` accepted calls lie in its last window; the queue is sorted and at most `limit` long |
| Limiter.RetryIsTight | src/awr/auth/hardening.py:46-48 | waiting the answered delay (Retry-After, section 10.2.3 of RFC 9110) is always enough and at most one second too long |
| IsoTime.StringsFollowInstants | src/awr/storage/sqlite.py:543-562 | for UTC times of years 1 to 9999 the order of the isoformat strings is the order of the instants, although a zero fraction is dropped and so the equal-digits assumption of section 5.1 of RFC 3339 fails |
| IsoTime.FractionDecides | src/awr/storage/sqlite.py:543-562 | a dropped zero fraction sorts before every other fraction |

## Left out

- Store.WorkOrderSession.AppendLedger: numbers the entries of one order, as Firestore does; the SQLite autoincrement is shared by all orders, so there the numbers grow with gaps.
- OutboxBinding.ExecutingIsBoundToLatestAttempt: holds where planning publishes no plan during a dispatch, because the code breaks it otherwise; LatestAck.ExecutingBoundToLatestIff has the exact condition for all interleavings.
- Refresh.RefreshOutcomeIff: submits the acknowledgement packet itself, as the workers of Outbox do; AckMarkdown.PrintedAckIsStoredIff and AckMarkdown.PrintedAckIsSubmitted say exactly when the broker's printed text does the same, which needs a run id and an executor's name that survive printing.
- Several work orders in one database: the model follows one, and `clash` stands for the others' rows.
- `list_decisions` orders by creation time; the model keeps insertion order, which is the same while the clock does not go back.
- Lease and decision expiries that do not parse as times; an expiry is an instant or absent.
- The polling branch of `refresh_external_run` for EXECUTING work orders and the duplicate receipts of terminal ones (src/awr/service.py:1168-1344); what they store goes through the response transaction.
- Evidence checks of a response against the work order's bundle (src/awr/service.py:1457-1474): only responses without evidence references are replayed unconditionally.
- Cache keys, log lines, git facts and timestamps inside receipts and plan packets.
- `submit_work_bundle_for_planning` and the creation of work orders; runs start when the planning run is acknowledged.
- Digits outside ASCII in `percent` and `ledger_sequence`, and `byte_length` of an evidence reference given as text or a float.
- SHA-256, UUIDs and JSON text: parameters with the laws stated in `Survival.Lawful` and `ValidationLaws.HexDigests`.
- Detection, antivirus and content validators: what they answer or that they raise is a parameter of each evaluation.
- The ledger events of artifacts (src/awr/storage/artifact_sqlite.py:513-573) and upload tickets.
- `delete_expired` by file age and changes made inside the clean tree by hand.
- Directory flushes, temporary files left by a crash, and partial writes: a body file is there whole or not at all.
- Several artifacts in the scan machine: it follows one; `BodyStore` and `Bundle` cover many.
- `Query.stream` of the in-memory store, which orders by a field; `Overlay` has the listing by id.
- Binary floating point: `Limiter` computes with reals.
- The HTTP, MCP and command-line layers, settings, OAuth, and the Cursor HTTP client beyond its keyed contract.
