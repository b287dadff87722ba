# BlocTrust: invoice approval, ingest, sessions and risk

A verification project about the parts of BlocTrust where several calls share state. It models one organization:
its invoices, documents, processing rows, approval requests, decisions, bank-account versions, vendors, contracts,
risk policy, assessments and webhook ledger, the two object buckets, the deliveries of the ingest queue, and the
sessions, refresh tokens and passkey challenges of its users.

## How it is built

* **Transitions as functions.** `Approvals`, `Ingest`, `Sessions`, `Links` and `Webhook` give, for every call, the
  rows it leaves and the answer it returns, with the same branches, error conditions and constants as the services
  and the SQL triggers. A table is a sequence and a row id is a position in it. `Risk` and `Json` hold the pure code.
* **Transitions in columns.** `SubmitRows`, `DecideRows`, `InvoiceRows`, `PolicyRows`, `LinkRows`, `IngestRows`,
  `IdentityRows` and `WebhookRows` say what each transition answers and stores in terms of the rows alone, without the
  functions that compute it: which callers and inputs are refused, which columns change and to what. `WorldRows` lifts
  this to runs: which step stored a decision or a delivery, and what its caller brought.
* **Services as classes.** `ApprovalsServices`, `InvoicesServices`, `CrmServices`, `IdentityServices` and
  `PipelineServices` repeat the services statement by statement over mutable tables (`Database`), with rollback on
  errors; each method is proved to leave exactly the state of its transition.
* **One state machine.** `World` runs all of them together: API calls, worker statements, session calls, membership
  changes and the clock, in any order. `WorldInvariant` is the invariant, `WorldProofs` shows every step keeps it,
  and `WorldTheorems`, `WorldRows`, `WorldReplays`, `WorldRetries`, `WorldLosses`, `WorldOverlap` and `WorldFlights`
  state what follows for every run.

The worker is modelled one await at a time. Each await can be acknowledged, fail, take effect but be reported as
failed (a lost acknowledgement), or be cut off by a crash; any number of deliveries may be under way. A rotate call
and a passkey verification are split between their read and their conditional update, with any number of calls under
way.

## Hypotheses

* A callback of `TenantDatabaseService.run` is one atomic step, rolled back when it throws. The stale branches of
  `decide` commit their invalidation and then report the error; they are modelled so, and shown unreachable.
* The commit half of `rotate` and `revokeFamily` are atomic, as row locks make them.
* The two statements of the worker's `manualReview` are one step.
* Results about runs need one hypothesis on the queue: no finish of a delivery meets a document another delivery has
  finished (`WorldInvariant.Disciplined`). It follows when deliveries of one document never overlap
  (`WorldFlights.AloneRunsAreDisciplined`). The ingest invariant itself needs no such hypothesis.
* The authentication guard in front of the passkey calls is part of their transitions.
* A `ROLLBACK` changes no row: the transaction before it has failed or committed. In the blocking and closing
  transactions it makes no difference whether it is acknowledged, so only the promotion's is an await of its own.
* The worker's load stands for everything before its try, its temporary directory included.
* Hashes and signatures are injective abstract functions; object keys and opaque ids never repeat.

## Where a natural claim fails

* *A total at least twice the largest prior total is always an amount spike.* It is not when the average rounds to
  0.00: `Risk.TwiceTheLargestIsNotEnough` is an input, `Risk.SpikeIffAverageNotZero` the exact condition.
* *The approved object always exists.* Not when a promote commit takes effect but its acknowledgement is lost, the
  ROLLBACK that follows is nevertheless acknowledged, and the compensating delete takes effect: the row then names an
  object that is gone. A connection that loses the commit's answer normally loses the ROLLBACK's too; then the delete
  is skipped and nothing is lost (`IngestRetries.TransparentWithoutRollback`). `IngestRuns.LostExactly`,
  `WorldTheorems.UploadLosesExactly` and, over whole runs, `WorldLosses.BytesSurviveExactly` say exactly when an
  object is lost; `IngestRetries.RetryTransparency` and `WorldRetries.InterleavedTransparency` exactly when retries
  stay transparent.
* *The last attempt always ends the document if the worker survives and its failure handler succeeds.* Not when its
  load fails: the load is outside the try, so no handler is called. `IngestEndings.FailedLoadLeavesUnended` is an
  input, `IngestEndings.FinalAttemptEnds` and `IngestEndings.AttemptsEnd` give the exact condition.
* *Every processing write of the worker is an accepted transition.* Not the reset that follows a closing commit whose
  acknowledgement was lost: `IngestEndings.UnheardFinishIsRejected` is an input,
  `IngestEndings.WritesRejectedExactly` the exact condition.
* *An approved invoice stays approved.* Not when deliveries of its document overlap
  (`WorldOverlap.OverlapTakesApprovalBack` is such a run, `WorldSteps.OnlyLateFinishReopens` the exact condition).
* *canonicalJson ignores key order.* Exactly when the comparator never ties two different keys of one object
  (`JsonOrder.OrderInsensitiveIffTieFree`). `localeCompare` is a parameter there; hashed evidence and payloads have
  fixed ASCII keys and use code-unit order.
* `canTransitionInvoice` in `packages/domain/src/index.ts` lists fewer moves than the SQL transition trigger and no
  service calls it; the trigger is followed.

## Model

| member | source | states |
|---|---|---|
| WorldTheorems.DualApproval | apps/api/src/approvals/approvals.service.ts:286-363 | In every reachable state an approved invoice has an approved request for its current version and bank version, approved by as many different members as the stored risk level demands (two when HIGH), none of them the initiator |
| WorldTheorems.ApprovedIsBacked | apps/api/src/approvals/approvals.service.ts:150-177 | The same for any rows that satisfy the approval invariant |
| WorldTheorems.CountIsPeople | prisma/migrations/20260831120000_explainable_risk_dual_approval/migration.sql:104 | Because deciders of one request are distinct, the number of approving decisions is the number of different approvers |
| WorldTheorems.ApproverDecided | apps/api/src/approvals/approvals.service.ts:346-353 | A member is an approver of a request version if and only if some stored decision of theirs approves it |
| WorldTheorems.DecisionCountsExact | apps/api/src/approvals/approvals.service.ts:336-363 | Exact decision counts per request status in every reachable state: too few approvals and no rejection while pending or invalidated, exactly the required approvals once approved, exactly one rejection once rejected |
| WorldTheorems.AwaitingMeansOnePending | apps/api/src/approvals/approvals.service.ts:264-284 | In every reachable state an invoice awaits approval if and only if exactly one pending request exists for it; that request carries its current version and its vendor's newest bank version, so the stale branches of decide are never taken |
| WorldTheorems.AwaitingHasOnlyPending | apps/api/src/approvals/approvals.service.ts:164-177 | The equivalence between awaiting approval and having one and only one pending request, from the invariant alone |
| WorldTheorems.PendingSpeaks | apps/api/src/approvals/approvals.service.ts:264-284 | A pending request agrees with its invoice and the newest bank version, hence is not stale |
| WorldTheorems.OnlyCleanDocuments | apps/api/src/approvals/approvals.service.ts:72-84 | End to end over upload, worker, edit, submit and decide: an invoice that awaits approval, is approved or is rejected has a document, and all its documents are in approved storage and scanned clean |
| WorldTheorems.SettledForever | apps/api/src/invoices/invoices.service.ts:424-437 | The rows of approved, rejected and blocked invoices are the same in every later state of every disciplined run |
| WorldTheorems.DecisionsSteppedUp | apps/api/src/approvals/approvals.service.ts:301-328 | Every stored decision carries the instant at which a step-up challenge of the decider's own user and session was consumed, before that challenge expired and within the step-up lifetime before the decision |
| WorldTheorems.EvidenceStaysReproducible | apps/api/src/approvals/approvals.service.ts:129-149 | For the rest of any run a stored assessment is unchanged, its rule version names one published snapshot, and re-evaluating its stored facts under that snapshot gives the stored contributions, total, level and hash |
| WorldTheorems.BytesSurvive | apps/worker/src/invoice-pipeline.ts:45-96 | At every crash point the storage state, keys, fingerprint and scan result of a document agree with the buckets, and the object the row names holds the uploaded bytes if and only if no compensating delete is on record for it; progress is a function of the state |
| WorldLosses.BytesSurviveExactly | apps/worker/src/invoice-pipeline.ts:45-96 | Over every run, with overlapping deliveries: the object a document row names holds the uploaded bytes if and only if the run neither undid its upload after an unheard commit nor carried out the compensating delete of a promotion whose commit went unheard |
| WorldLosses.LossesAccounted | apps/worker/src/invoice-pipeline.ts:82-86 | The record of compensating deletes is exactly what the steps of the run say: an upload undone after an unheard commit, or a delivery whose promote commit went unheard, whose ROLLBACK was acknowledged and whose delete took effect |
| WorldRetries.InterleavedTransparency | apps/worker/src/invoice-pipeline.ts:35-130 | In any reachable state, a delivery of a document that has not ended, run without a failure while other documents' deliveries and all API calls go on in between, shows what a fault-free first delivery shows if and only if the stored bytes were still there |
| WorldRetries.OthersLeaveAlone | apps/worker/src/invoice-pipeline.ts:35-130 | Every other call and every delivery of another document leaves a delivery and its document as they are |
| WorldTheorems.UploadLosesExactly | apps/api/src/invoices/invoices.service.ts:57-108 | An upload leaves a row whose object is not in the bucket if and only if the relationships hold, the transaction committed unheard and the cleanup ran |
| WorldTheorems.DuplicatesHaveOneRoot | apps/worker/src/invoice-pipeline.ts:57-81 | In every reachable state two promoted documents chase their duplicate pointers to the same root if and only if their fingerprints are equal, and the root is the one without a pointer |
| WorldTheorems.ContractsWithinVendors | prisma/migrations/20260828120000_crm_core/migration.sql:403-473 | In every reachable state a contract's buildings are among its vendor's linked buildings |
| WorldTheorems.RunKeeps | apps/api/src/database/tenant-database.service.ts:11-18 | Every disciplined run of any calls keeps the invariant of the whole system; request evidence, decisions, assessments, deliveries and settled invoices are never changed, revocations and used tokens never undone |
| WorldTheorems.ReachableIsSound | apps/api/src/database/tenant-database.service.ts:11-18 | Every state reachable from the empty organization by a disciplined run satisfies the invariant |
| WorldProofs.StepKeeps | apps/api/src/database/tenant-database.service.ts:11-18 | One step of any call keeps the invariant, under the single hypothesis that no finish meets an already finished document |
| WorldFlights.AloneRunsAreDisciplined | apps/worker/src/main.ts:31-37 | If no two deliveries of one document overlap, the run is disciplined: the hypothesis of all results about runs follows |
| WorldFlights.ExecFlies | apps/worker/src/invoice-pipeline.ts:35-130 | Along non-overlapping deliveries, no document is finished before the delivery that works on it |
| WorldSteps.OnlyLateFinishReopens | apps/worker/src/invoice-pipeline.ts:101-113 | A statement of the worker changes a reviewed, approved or rejected invoice if and only if it is the finish of a delivery that meets an already finished document |
| WorldSteps.LateFinishReopens | apps/worker/src/invoice-pipeline.ts:106-109 | Such a finish sets the invoice back to NEEDS_REVIEW whatever its status |
| WorldOverlap.OverlapTakesApprovalBack | apps/worker/src/invoice-pipeline.ts:101-113 | A run from the empty organization in which an invoice is submitted and approved between the finishes of two overlapping deliveries: the second finish sends the approved invoice back to review |
| WorldSteps.DecideIsDecided | apps/api/src/approvals/approvals.service.ts:239-388 | Under the invariant a decide call does nothing at all or records exactly one decision |
| WorldSteps.StepUpIsVouched | apps/api/src/approvals/approvals.service.ts:301-313 | A session row that decide accepts as stepped up is vouched for by a consumed challenge within the lifetime |
| WorldReplays.AllRepeatsLeaveNoTrace | apps/api/src/approvals/approvals.service.ts:44-51 | A run ends in the same state as the run without its repeats, however many calls repeat the submit key, the decision key or the webhook event of one that succeeded before, and whatever else those calls carry |
| WorldReplays.RepeatsLeaveNoTrace | apps/api/src/approvals/approvals.service.ts:44-51 | One repeat anywhere later in a run, by any caller, for any version, target or outcome under the same key, leaves the end of the run unchanged |
| WorldReplays.RememberedIsNoStep | apps/api/src/integrations/fake-bank.service.ts:34-42 | A call whose key or event the rows remember is no step at all |
| WorldReplays.SubmitRepeats | apps/api/src/approvals/approvals.service.ts:44-51 | After a submission succeeds, any later submission under its key changes nothing: for the same invoice it gets the original answer, for another it is refused |
| WorldReplays.DecideRepeats | apps/api/src/approvals/approvals.service.ts:247-254 | After a decision succeeds, any later decision under its key changes nothing, whatever happened to sessions, clock and request since: on the same request it gets the original answer, on another it is refused |
| WorldReplays.MissingApprovalsComplete | apps/api/src/approvals/approvals.service.ts:336-363 | In every reachable state the missing number of fresh eligible approvals completes a pending request and its invoice exactly at the last one, and no earlier |
| ApprovalCompletion.MissingApprovals | apps/api/src/approvals/approvals.service.ts:336-363 | From a pending request, any sequence of fresh eligible approvals leaves it pending until the last missing one, which approves the request and the invoice |
| ApprovalCompletion.OneApproval | apps/api/src/approvals/approvals.service.ts:345-363 | One fresh approval lowers the missing number by one and completes the request exactly when it was the last |
| ApprovalCompletion.FreshDecides | apps/api/src/approvals/approvals.service.ts:286-328 | An approval of a caller whose member and session rows qualify, under a new key, is answered Ok and stored as theirs, and completes request and invoice exactly when it is the last |
| ApprovalInvariant.SubmitKeeps | apps/api/src/approvals/approvals.service.ts:36-208 | submit keeps the approval invariant and the immutability of request evidence |
| ApprovalInvariant.DecideKeeps | apps/api/src/approvals/approvals.service.ts:239-388 | decide keeps the approval invariant and the immutability of request evidence |
| ApprovalInvariant.EditKeeps | apps/api/src/invoices/invoices.service.ts:183-286 | A draft edit keeps the approval invariant: it retires the pending request together with the status it vouches for |
| ApprovalInvariant.AddBankVersionKeeps | apps/api/src/crm/vendors.service.ts:281-336 | A new bank version keeps the approval invariant: pending requests of the vendor and the invoices they hold are frozen together |
| ApprovalInvariant.UpdatePolicyKeeps | apps/api/src/approvals/approvals.service.ts:390-431 | Reading or updating the policy keeps the approval invariant; separation of duties stays required |
| ApprovalInvariant.OtherStatusKeeps | apps/worker/src/invoice-pipeline.ts:101-113 | Document steps that move an invoice nobody reviewed keep the approval invariant |
| ApprovalInvariant.PendingIsNeverStale | apps/api/src/approvals/approvals.service.ts:264-284 | Under atomic steps the stale branches of decide are unreachable |
| ApprovalInvariant.DecidedCounts | apps/api/src/approvals/approvals.service.ts:336-363 | Recording a decision keeps the exact counts of every request and the distinctness of deciders |
| ApprovalInvariant.SubmittedBinds | apps/api/src/approvals/approvals.service.ts:150-177 | A submission binds the new request to the new invoice version and the newest bank version and is the only pending one |
| ApprovalInvariant.SubmittedEvidence | apps/api/src/approvals/approvals.service.ts:129-163 | A submission stores one assessment per invoice version and one request per assessment, with the decisions its level requires |
| Approvals.LatestBank | apps/api/src/approvals/approvals.service.ts:87-90 | The bank version found is the vendor's and none of the vendor's has a higher number; none is found only if there is none |
| Approvals.FindRequest | apps/api/src/approvals/approvals.service.ts:44-47 | A request with the key is found if and only if one exists |
| Approvals.FindDecision | apps/api/src/approvals/approvals.service.ts:247-250 | A decision with the key is found if and only if one exists |
| Approvals.LatestRequestVersion | apps/api/src/approvals/approvals.service.ts:131-136 | The greatest version among the invoice's requests, zero only if there is none above it |
| Approvals.PriorAmountsAreNewest | apps/api/src/approvals/approvals.service.ts:103-113 | The amounts averaged are the newest twelve (limit) of the vendor's other totals, or all when fewer |
| ApprovalsServices.ApprovalsService.Submit | apps/api/src/approvals/approvals.service.ts:36-208 | The statements of submit, with rollback on every error, leave the rows and the answer of the submit transition, which SubmitRows states column by column |
| ApprovalsServices.ApprovalsService.CreateRequest | apps/api/src/approvals/approvals.service.ts:86-177 | From the policy upsert to the invoice's move: the whole new state, or the old one when the vendor has no bank version (columns in SubmitRows.SubmitStoresRows) |
| ApprovalsServices.ApprovalsService.Assess | apps/api/src/approvals/approvals.service.ts:94-129 | The facts read statement by statement and evaluated are the evaluation of the transition (what they are: SubmitRows.BankFact, DuplicateFacts, AmountFacts, AverageFact) |
| ApprovalsServices.ApprovalsService.Decide | apps/api/src/approvals/approvals.service.ts:239-388 | The statements of decide, including the committed invalidation of the stale branches, leave the rows and the answer of the decide transition, which DecideRows states column by column |
| ApprovalsServices.ApprovalsService.RecordDecision | apps/api/src/approvals/approvals.service.ts:286-364 | From the membership check on: one decision and its completion, or the old rows and the first failing check (in columns: DecideRows.DecideAnswers, DecisionIsStored) |
| ApprovalsServices.ApprovalsService.Complete | prisma/migrations/20260831120000_explainable_risk_dual_approval/migration.sql:177-191 | Updating the request before its invoice satisfies the invoice approval guard |
| ApprovalsServices.ApprovalsService.Invalidate | apps/api/src/approvals/approvals.service.ts:453-470 | Both conditional updates of invalidate |
| ApprovalsServices.ApprovalsService.UpdatePolicy | apps/api/src/approvals/approvals.service.ts:396-419 | Field by field policy update with threshold check and rollback |
| ApprovalsServices.ApprovalsService.GetPolicy | apps/api/src/approvals/approvals.service.ts:421-431 | The policy row is created on first use |
| InvoicesServices.InvoicesService.Upload | apps/api/src/invoices/invoices.service.ts:48-108 | Put, transaction and compensating delete leave the rows, buckets and answer of the upload transition, whatever fails (in columns: InvoiceRows.UploadStores, UploadRefusals) |
| InvoicesServices.InvoicesService.Update | apps/api/src/invoices/invoices.service.ts:183-286 | The statements of a draft edit, absent, null and given fields told apart, with rollback on every error, leave the rows and answer of the edit transition |
| InvoicesServices.InvoicesService.MarkManualReview | apps/api/src/invoices/invoices.service.ts:356-372 | Both updates after a failed enqueue, or neither when the transition trigger rejects |
| IngestProofs.ExecKeeps | apps/worker/src/invoice-pipeline.ts:35-205 | Every statement of every delivery, failed, unheard or crashed, keeps rows, buckets and invoice in step, however deliveries overlap |
| IngestProofs.ExecKept | apps/worker/src/invoice-pipeline.ts:35-205 | The same for the delivery's own document, which is all it touches |
| IngestProofs.OtherDocKept | prisma/migrations/20260829120000_secure_invoice_pipeline/migration.sql:90-91 | A statement leaves every other document's invariant alone |
| IngestProofs.OtherJobKept | prisma/migrations/20260829120000_secure_invoice_pipeline/migration.sql:129-141 | A statement leaves every other delivery's knowledge valid, even of the same document |
| IngestApi.UploadKeeps | apps/api/src/invoices/invoices.service.ts:48-108 | An upload, failed or unheard, with or without its cleanup, keeps the ingest invariant |
| IngestApi.MarkManualReviewKeeps | apps/api/src/invoices/invoices.service.ts:356-372 | A failed enqueue keeps the ingest invariant |
| IngestApi.NewJobKeeps | apps/worker/src/invoice-pipeline.ts:35-42 | Starting another delivery, of the same document too, keeps the ingest invariant |
| IngestApi.RestatusKeeps | apps/api/src/approvals/approvals.service.ts:164-177 | Approval steps keep the ingest invariant |
| IngestRetries.RetryTransparency | apps/worker/src/invoice-pipeline.ts:35-130 | After any sequence of crashes and non-final failures one fault-free delivery reaches the state, scan, fingerprint, suggestions and invoice status of a fault-free first delivery, if and only if none of them lost the stored object |
| IngestRetries.TransparentWithoutRollback | apps/worker/src/invoice-pipeline.ts:82-86 | Whatever else fails, retries are transparent when no ROLLBACK is acknowledged after a promote commit whose acknowledgement was lost |
| IngestRetries.FaultFreeReaches | apps/worker/src/invoice-pipeline.ts:35-130 | A fault-free delivery, final or not, reaches what the uploaded bytes determine if and only if the stored bytes survive |
| IngestRetries.DeliveriesLoseExactly | apps/worker/src/invoice-pipeline.ts:82-86 | A sequence of deliveries loses the object if and only if the script of one of them does |
| IngestRetries.TerminalIsLeftAlone | apps/worker/src/invoice-pipeline.ts:36-41 | Later deliveries leave an ended document untouched |
| IngestEndings.AttemptsEnd | apps/worker/src/main.ts:34 | A whole run of attempts, whatever fails in the non-final ones, ends the document if and only if one of them closes it or the last one's load succeeds, provided the worker survives the last one and its failure handler takes effect; later deliveries leave an ended document untouched |
| IngestEndings.FinalAttemptEnds | apps/worker/src/invoice-pipeline.ts:120-126 | A last attempt that the worker survives, with a failure handler that takes effect, ends the document if and only if its load succeeds or the document had ended before |
| IngestEndings.FailedLoadLeavesUnended | apps/worker/src/invoice-pipeline.ts:36 | An input: a last attempt whose load fails, with no crash and no failed handler, leaves the document unended |
| IngestEndings.EndsExactly | apps/worker/src/invoice-pipeline.ts:35-130 | A non-final delivery ends the document if and only if its closing commit is reached and takes effect |
| IngestEndings.WritesRejectedExactly | prisma/migrations/20260829120000_secure_invoice_pipeline/migration.sql:143-155 | A delivery that no other overlaps has a write rejected by a trigger if and only if it is not the last attempt, its closing commit took effect unheard, and the reset that follows reached the database |
| IngestEndings.UnheardFinishIsRejected | apps/worker/src/invoice-pipeline.ts:200-205 | An input: the second attempt of a promoted document whose closing commit goes unheard has its reset rejected |
| IngestRuns.SoloWriteAccepted | prisma/migrations/20260829120000_secure_invoice_pipeline/migration.sql:143-155 | A trigger rejects a write of a non-overlapped delivery if and only if it resets a document that already ended |
| IngestRuns.SoloStays | apps/worker/src/invoice-pipeline.ts:35-130 | What the processing row says at each await of a delivery that no other overlaps |
| IngestRuns.LostExactly | apps/worker/src/invoice-pipeline.ts:82-86 | A delivery loses the approved object if and only if its promote commit took effect unheard, the ROLLBACK after it was acknowledged, and the compensating delete took effect |
| IngestRuns.LostStaysOff | apps/worker/src/invoice-pipeline.ts:45-96 | Once the object is lost no delivery reaches the expected result |
| IngestRuns.TrackEnds | apps/worker/src/invoice-pipeline.ts:35-118 | From any await of a delivery whose bytes survive, a fault-free continuation reaches the expected result |
| IngestRuns.EndedReaches | apps/worker/src/invoice-pipeline.ts:101-113 | A document handled by the worker alone has ended if and only if it shows the expected result |
| IngestDuplicates.OneRootPerFingerprint | apps/worker/src/invoice-pipeline.ts:63-76 | One root per fingerprint, the only document of its fingerprint without a pointer |
| IngestDuplicates.RootIsFirst | apps/worker/src/invoice-pipeline.ts:63-76 | Following pointers ends at the first promoted document of the fingerprint |
| IngestDuplicates.TargetIsEarlier | apps/worker/src/invoice-pipeline.ts:63-66 | A pointer always names a document promoted earlier, though it is chosen by creation time |
| IngestDuplicates.ExecKeepsPointers | apps/worker/src/invoice-pipeline.ts:57-81 | Every statement of the worker keeps the pointer forest |
| Ingest.FindDuplicate | apps/worker/src/invoice-pipeline.ts:63-66 | The oldest other document with the fingerprint, if and only if there is one |
| Ingest.Exec | apps/worker/src/invoice-pipeline.ts:35-130 | No delivery returns to an await it has passed, and it never changes its own arguments |
| PipelineServices.InvoicePipeline.Process | apps/worker/src/invoice-pipeline.ts:35-130 | process, branch by branch over mutable rows and buckets, leaves exactly the state of the run of its awaits under the same failures |
| PipelineServices.InvoicePipeline.ScanQuarantined | apps/worker/src/invoice-pipeline.ts:46-54 | From the progress write to the scan verdict |
| PipelineServices.InvoicePipeline.StoreApproved | apps/worker/src/invoice-pipeline.ts:55-89 | From the put of the clean bytes to the delete of the quarantined ones |
| PipelineServices.InvoicePipeline.PromoteOrUndo | apps/worker/src/invoice-pipeline.ts:57-88 | The promote transaction and its catch |
| PipelineServices.InvoicePipeline.UndoPromote | apps/worker/src/invoice-pipeline.ts:82-86 | The catch: the ROLLBACK and, only when that is acknowledged, the compensating delete |
| PipelineServices.InvoicePipeline.Acquire | apps/worker/src/invoice-pipeline.ts:45-96 | The try up to the OCR, by way of quarantine or from where an earlier delivery left off |
| PipelineServices.InvoicePipeline.ResumeApproved | apps/worker/src/invoice-pipeline.ts:90-96 | The branch of a document that is already approved |
| PipelineServices.InvoicePipeline.ExtractAndFinish | apps/worker/src/invoice-pipeline.ts:98-119 | OCR and the closing transaction |
| PipelineServices.InvoicePipeline.RecoverJob | apps/worker/src/invoice-pipeline.ts:120-126 | The catch of process |
| PipelineServices.InvoicePipeline.Progress | apps/worker/src/invoice-pipeline.ts:144-161 | The progress write and its transition trigger |
| PipelineServices.InvoicePipeline.BlockDocument | apps/worker/src/invoice-pipeline.ts:163-187 | The blocking transaction, all or nothing |
| PipelineServices.InvoicePipeline.PromoteDocument | apps/worker/src/invoice-pipeline.ts:63-81 | The promote transaction under the identity and transition triggers, all or nothing |
| PipelineServices.InvoicePipeline.SendToManualReview | apps/worker/src/invoice-pipeline.ts:189-198 | Both conditional updates of manualReview |
| PipelineServices.InvoicePipeline.ResetForRetry | apps/worker/src/invoice-pipeline.ts:200-205 | The reset of a non-final failure |
| PipelineServices.InvoicePipeline.Download | apps/worker/src/invoice-pipeline.ts:47 | A download is acknowledged if and only if the object exists and nothing failed |
| PipelineServices.AwaitIsStep | apps/worker/src/invoice-pipeline.ts:35-130 | One await of the code is one step of the run |
| PipelineServices.HashFile | apps/worker/src/invoice-pipeline.ts:227-231 | However the stream is cut into chunks, the digest is that of the whole file |
| SessionTheorems.ExchangedOnce | apps/api/src/identity/session.service.ts:181-189 | However many calls read a token before one commits, only one exchanges it; every later commit on it reports reuse (or an inactive account or session) and leaves the family dead |
| SessionTheorems.ReuseKillsFamily | apps/api/src/identity/session.service.ts:152-155 | Once a call presents a used token or loses the race, no token of the family is live then or in any later state |
| SessionTheorems.OneLiveToken | apps/api/src/identity/session.service.ts:181-207 | Over all interleavings: a session is unrevoked if and only if it has exactly one live token and that is the one it names; token count is rotationCounter + 1; all its tokens share its expiry |
| SessionTheorems.RevokedForever | apps/api/src/identity/session.service.ts:88-119 | A revoked session never authenticates again and none of its tokens is exchanged again |
| SessionTheorems.AuthRunKeeps | apps/api/src/identity/session.service.ts:133-256 | Every interleaving of create, rotate, revoke, revokeAll and passkey calls, each split at its read, keeps the session invariant |
| SessionTheorems.SpentTokenKills | apps/api/src/identity/session.service.ts:152-189 | A commit on a spent token never rotates and always leaves the family dead |
| SessionTheorems.ConsumedAtMostOnce | apps/api/src/identity/passkey.service.ts:177-183 | No challenge is consumed twice, whatever calls interleave |
| SessionTheorems.StepUpIsVouched | apps/api/src/identity/passkey.service.ts:142-204 | A session's step-up time is the instant a step-up challenge of the same user and session was consumed, before it expired |
| SessionInvariant.FinishRotationKeeps | apps/api/src/identity/session.service.ts:140-210 | The commit half of rotate keeps the session invariant |
| SessionInvariant.ExchangeKeeps | apps/api/src/identity/session.service.ts:181-207 | Exchanging a live token leaves exactly one live token |
| SessionInvariant.RevokingKeeps | apps/api/src/identity/session.service.ts:285-298 | Revoking sessions together with all their tokens keeps the invariant |
| SessionInvariant.FamilyIsSession | apps/api/src/identity/session.service.ts:285-298 | Revoking a family revokes exactly its session and all its tokens |
| SessionInvariant.ConsumeChallengeKeeps | apps/api/src/identity/passkey.service.ts:176-199 | The consuming transaction of verifyStepUp keeps the passkey invariant |
| SessionInvariant.ReplaceChallengeKeeps | apps/api/src/identity/passkey.service.ts:206-227 | Replacing a challenge keeps the passkey invariant |
| Sessions.FindToken | apps/api/src/identity/session.service.ts:141-144 | A token with the hash is found if and only if one exists |
| Sessions.ActiveChallenge | apps/api/src/identity/passkey.service.ts:249-271 | The newest unused and unexpired challenge of the caller's user, session and purpose, if and only if there is one |
| IdentityServices.SessionService.Rotate | apps/api/src/identity/session.service.ts:133-231 | An undisturbed rotate exchanges the token if and only if it is live, unexpired and its account active (up to a clash of random tokens); presenting any other known token kills its family |
| IdentityServices.SessionService.RotateResult | apps/api/src/identity/session.service.ts:140-210 | The outcome of a read followed at once by its commit |
| IdentityServices.SessionService.BeginRotation | apps/api/src/identity/session.service.ts:138-160 | The statements of rotate up to its conditional update |
| IdentityServices.SessionService.CommitRotation | apps/api/src/identity/session.service.ts:152-210 | The statements of rotate from its conditional update on |
| IdentityServices.SessionService.Create | apps/api/src/identity/session.service.ts:43-76 | One session row and its first token |
| IdentityServices.SessionService.AuthenticateAccessToken | apps/api/src/identity/session.service.ts:88-119 | Accepted if and only if the session is the caller's, unrevoked and unexpired and the account active |
| IdentityServices.SessionService.RevokeFamily | apps/api/src/identity/session.service.ts:285-298 | Every session of the family and every token of such a session is revoked at the given instant unless it was revoked before, no other row changes, and no token of the family is live afterwards |
| IdentityServices.SessionService.RevokeAll | apps/api/src/identity/session.service.ts:244-256 | Every session of the user and every token of such a session is revoked at the given instant unless it was revoked before, no other row changes, and no token of the user is live afterwards |
| SessionTheorems.RevokedAreDead | apps/api/src/identity/session.service.ts:285-298 | Revoking sessions with their tokens leaves none of their tokens live |
| IdentityServices.SessionService.Revoke | apps/api/src/identity/session.service.ts:233-242 | The family of one session |
| IdentityServices.PasskeyService.ReplaceChallenge | apps/api/src/identity/passkey.service.ts:206-227 | Older unused challenges of the purpose are used up before the new one is stored |
| IdentityServices.PasskeyService.BeginVerification | apps/api/src/identity/passkey.service.ts:249-271 | The read of the active challenge |
| IdentityServices.PasskeyService.Consume | apps/api/src/identity/passkey.service.ts:176-203 | The consuming transaction, all or nothing |
| SubmitRows.SubmitStoresExactly | apps/api/src/approvals/approvals.service.ts:36-93 | A submission stores a request if and only if its trimmed key has 16 to 200 units and is new, the invoice is at the given version, in review, with vendor, number, currency and total, has a document and only approved clean ones, and its vendor has a bank version; otherwise nothing changes |
| SubmitRows.SubmitAnswers | apps/api/src/approvals/approvals.service.ts:42-93 | Every answer of a submission in the order of the checks, the replay and the reused key included |
| SubmitRows.SubmitStoresRows | apps/api/src/approvals/approvals.service.ts:129-177 | The columns of the new request and assessment, two decisions exactly when the total score reaches the high threshold, the invoice awaiting approval at the next version with the request's bank version, every other row as before |
| SubmitRows.RequestIsNumbered | apps/api/src/approvals/approvals.service.ts:131-136 | The new request takes the number after the greatest of the invoice's requests, or 1 |
| SubmitRows.BankFact | apps/api/src/approvals/approvals.service.ts:87-120 | The assessed bank account version is the number of the request's bank version, which is the vendor's, and no bank version of the vendor has a higher one |
| SubmitRows.DuplicateFacts | apps/api/src/approvals/approvals.service.ts:94-124 | exactDocumentDuplicate holds if and only if a document of the invoice has a duplicate pointer; duplicateInvoiceNumber if and only if another invoice of the vendor has the number up to letter case |
| SubmitRows.AmountFacts | apps/api/src/approvals/approvals.service.ts:125-126 | The assessed total and limit read back as the cents of the invoice and of its contract; no limit is assessed without one |
| SubmitRows.AverageFact | apps/api/src/approvals/approvals.service.ts:103-118 | The assessed average reads back as the mean, rounded half up, of the totals of the vendor's newest twelve other invoices that have one, and is absent when there is none |
| SubmitRows.PriorAmountsPick | apps/api/src/approvals/approvals.service.ts:103-113 | The amounts averaged are those of the newest (limit) other invoices of the vendor with a total: every other such invoice is older than all of them |
| SubmitRows.AverageIsRounded | apps/api/src/approvals/approvals.service.ts:529-532 | The average is within half a cent of the exact mean, a tie going up |
| SubmitRows.FoldIsUpToCase | apps/api/src/approvals/approvals.service.ts:99 | Two numbers compare equal if and only if they differ only in the case of ASCII letters |
| SubmitRows.ChangedAccountNeedsTwo | apps/api/src/approvals/approvals.service.ts:119-158 | A submission of an invoice whose vendor has a bank version numbered 2 or more needs two decisions whenever changedBankAccountScore reaches highThreshold |
| WorldRows.SecondBankVersionNeedsTwo | apps/api/src/approvals/approvals.service.ts:119-158 | In every reachable state, a vendor with a second bank version gets two required decisions on every stored submission whenever changedBankAccountScore reaches highThreshold |
| DecideRows.DecideAnswers | apps/api/src/approvals/approvals.service.ts:245-334 | Every answer of a decision in the order of the checks, for any rows with properly numbered bank versions: key, replay, request, staleness, eligible member row, separation of duties, stepped-up session row, reason, earlier decision |
| DecideRows.DecideRecordsExactly | apps/api/src/approvals/approvals.service.ts:286-334 | Under the approval invariant a new key on a pending request at its version is recorded if and only if the member row is active, the caller's, and Owner, Administrator or Accountant, the caller is not the initiator and has not decided, the session row is the caller's, unrevoked, unexpired and stepped up within the lifetime, and the trimmed reason has ten characters; otherwise nothing changes |
| DecideRows.DecisionIsStored | apps/api/src/approvals/approvals.service.ts:316-364 | The columns of the stored decision; a rejection ends request and invoice, an approval completes both if and only if one decision is required or an earlier approval of the request exists, and nothing else changes |
| DecideRows.LastApprovalIs | apps/api/src/approvals/approvals.service.ts:346-354 | The count reaches the required number if and only if one decision is required or the request was approved before |
| DecideRows.StaleRequestIsRetired | apps/api/src/approvals/approvals.service.ts:264-284 | For any rows: a pending request whose invoice moved or whose bank version is not the vendor's newest is invalidated with that reason, the invoice it still holds goes back to review under a new version, and no decision is stored |
| DecideRows.OnlyApproversAreStored | apps/api/src/approvals/approvals.service.ts:286-328 | Under the approval invariant, a decide call that stores a decision is one of a caller who may decide the pending request |
| WorldRows.DecisionsAreMade | apps/api/src/approvals/approvals.service.ts:286-328 | Every decision a disciplined run added was appended by one of its steps, whose caller at that instant was an eligible member, not the initiator, stepped up, and decided the pending request for the first time |
| InvoiceRows.UploadStores | apps/api/src/invoices/invoices.service.ts:48-99 | An upload succeeds if and only if vendor and contract exist and belong together and nothing failed; it adds exactly one invoice, PROCESSING at version 1 with the given vendor and contract, one quarantined document of it with the given type and bytes, one processing row at 10, and the object under the document's new key is the argument |
| InvoiceRows.UploadRefusals | apps/api/src/invoices/invoices.service.ts:59-108 | Which relationships are refused with which answer, and what a refused or unheard upload leaves in rows and bucket |
| InvoiceRows.EditAnswers | apps/api/src/invoices/invoices.service.ts:196-239 | Every answer of a draft edit in the order of the checks, in the columns of the invoice, its documents, the vendor and the contract; a refusal changes nothing |
| InvoiceRows.EditStores | apps/api/src/invoices/invoices.service.ts:220-238 | Column by column: an absent field keeps, a null clears, a value replaces; number trimmed, currency in capitals, version one up, a waiting invoice back in review without its bank version, all else as before |
| InvoiceRows.EditRetires | apps/api/src/invoices/invoices.service.ts:200-213 | Exactly the pending requests of a waiting invoice are invalidated, for INVOICE_DATA_CHANGED |
| InvoiceRows.MarkedForReview | apps/api/src/invoices/invoices.service.ts:356-372 | Processing row at 100 in manual review and its invoice with it, or neither when the document is reviewed or blocked |
| PolicyRows.PolicyAnswers | apps/api/src/approvals/approvals.service.ts:396-407 | Thresholds out of order are refused first, then an explicit null, then a zero threshold; a refusal changes nothing |
| PolicyRows.PolicyStores | apps/api/src/approvals/approvals.service.ts:404-407 | Each of the seven fields is written to its own column, rule version one up, separation of duties and all other rows as before |
| PolicyRows.PolicyRead | apps/api/src/approvals/approvals.service.ts:421-431 | Reading stores the column defaults on first use and nothing afterwards |
| PolicyRows.BankVersionStores | apps/api/src/crm/vendors.service.ts:281-336 | The vendor's next number; exactly when the vendor had a version before, every pending request of its invoices is invalidated for VENDOR_BANK_ACCOUNT_CHANGED and every waiting invoice goes back to review without its bank version |
| WebhookRows.UnsignedIsRefused | apps/api/src/integrations/fake-bank-webhook.ts:22-40 | A call is answered FAKE_BANK_SIGNATURE_INVALID and changes nothing if and only if timestamp or signature is absent, the timestamp is not ten digits or spells an instant more than 300 seconds from the clock, or the signature is not the secret's over timestamp, full stop and canonical body |
| WebhookRows.SignedIsProcessed | apps/api/src/integrations/fake-bank.service.ts:30-74 | A signed call under a known event id is a duplicate when the stored hash is that of its text and a reuse otherwise; under a new one it is refused for a bank version that is not the vendor's and else appended, with the change of status in the answer |
| WebhookRows.OnlySignedIsStored | apps/api/src/integrations/fake-bank.service.ts:27-74 | Whatever the ledger, a call stores nothing or the row of a signed call |
| WebhookRows.DigitsSpell | apps/api/src/integrations/fake-bank-webhook.ts:30-31 | Ten digits are read as the number they spell |
| WebhookRows.StatusIsCurrent | apps/api/src/integrations/fake-bank.service.ts:54-63 | The current status is that of the bank version's newest delivery, PENDING before the first |
| WebhookRows.PayloadText | apps/api/src/integrations/fake-bank-webhook.ts:12-20 | The text that is signed: the five fields in the order of their names, as JSON without white space |
| WorldRows.StepDelivers | apps/api/src/integrations/fake-bank.service.ts:18-88 | One step of any call appends a delivery only as a webhook call signed with the shared secret, and touches no earlier one |
| WorldRows.DeliveriesAreSigned | apps/api/src/integrations/fake-bank.service.ts:18-88 | Over any run, every delivery added was appended by a webhook step signed with the shared secret over its own body, within 300 seconds of the clock at that step |
| IdentityRows.CreateStores | apps/api/src/identity/session.service.ts:43-76 | A session and its first token expire together, the lifetime from now; only a repeated hash is refused |
| IdentityRows.SignedInAuthenticates | apps/api/src/identity/session.service.ts:88-119 | Authentication is the caller's own session row, unrevoked and unexpired |
| IdentityRows.RotationReads | apps/api/src/identity/session.service.ts:138-160 | What the read of rotate notes: token used or revoked, session or token revoked or expired; an unknown token changes nothing |
| IdentityRows.RotationAnswers | apps/api/src/identity/session.service.ts:152-189 | The answer of the commit, by what was noted and by the token row as it stands |
| IdentityRows.RotationStores | apps/api/src/identity/session.service.ts:181-207 | A rotated token is used at the call's instant, its successor has the same session and expiry, the session names the successor and counts one rotation more, nothing else changes |
| IdentityRows.RotationKills | apps/api/src/identity/session.service.ts:152-179 | A reuse or an invalid call revokes the session and all its tokens at the call's instant and nothing else |
| IdentityRows.ChallengeReplaces | apps/api/src/identity/passkey.service.ts:206-227 | Exactly the unused challenges of the session and purpose are used up now, and the new one expires the lifetime from now |
| IdentityRows.VerificationBegins | apps/api/src/identity/passkey.service.ts:249-271 | A verification begins on the newest open challenge of the caller's user, session and purpose |
| IdentityRows.NothingToVerify | apps/api/src/identity/passkey.service.ts:261-268 | A caller without an open challenge of the purpose is refused and changes nothing |
| IdentityRows.ConsumeStores | apps/api/src/identity/passkey.service.ts:176-203 | A challenge is consumed if and only if the response is good and the challenge unused and unexpired; a step-up leaves the instant on the session, and nothing else changes |
| IngestRows.ExecStores | apps/worker/src/invoice-pipeline.ts:35-130 | An await writes its whole statement, acknowledged or not, when no trigger rejects it and the database took it, and else nothing |
| IngestRows.ProgressStores | apps/worker/src/invoice-pipeline.ts:144-161 | State, progress, scan result and attempt counter of the two progress writes, and which states they are accepted from |
| IngestRows.BlockStores | apps/worker/src/invoice-pipeline.ts:163-187 | The three rows of the blocking transaction, and when it is rejected |
| IngestRows.PromoteStores | apps/worker/src/invoice-pipeline.ts:63-81 | Key, fingerprint, storage state and duplicate pointer of the promoted document, its processing row, and when a trigger rejects it |
| IngestRows.ObjectsStore | apps/worker/src/invoice-pipeline.ts:57-89 | The put and the two deletes touch one key of one bucket |
| IngestRows.FinishStores | apps/worker/src/invoice-pipeline.ts:101-113 | Suggestions, state and progress, and the invoice in review whatever its status |
| IngestRows.ManualReviewStores | apps/worker/src/invoice-pipeline.ts:189-198 | Manual review for an unfinished document, a pending scan turned into an error, and the invoice only while it is processing |
| IngestRows.ResetStores | apps/worker/src/invoice-pipeline.ts:200-205 | Parsed at 75 for an approved document, quarantined at 10 for any other, and when the trigger rejects it |
| IngestRows.LoadChooses | apps/worker/src/invoice-pipeline.ts:36-52 | An ended document ends the delivery; otherwise it goes from quarantine or resumes from the approved object |
| IngestRows.SuccessGoesOn | apps/worker/src/invoice-pipeline.ts:45-119 | Awaits that succeed follow the order of the code, from quarantine or from where an earlier delivery left off |
| IngestRows.FailureIsHandled | apps/worker/src/invoice-pipeline.ts:82-126 | A failed or unheard await goes to the handler, a failed promotion first to its rollback, an infected file to blocking, a failed load or handler nowhere |
| IngestRows.CarriesOn | apps/worker/src/invoice-pipeline.ts:45-100 | What a delivery carries from await to await: the object under the row's key and the text read from it |
| LinkRows.CreateVendorAnswers | apps/api/src/crm/vendors.service.ts:136-174 | Only an administrator without buildings is refused; otherwise the vendor row is stored with its buildings |
| LinkRows.UpdateVendorAnswers | apps/api/src/crm/vendors.service.ts:176-254 | Every answer and the stored row of a vendor update, refused for links exactly when a contract covers a building the vendor would lose |
| LinkRows.CreateContractAnswers | apps/api/src/crm/contracts.service.ts:83-127 | Every answer and the stored row of a contract create |
| LinkRows.UpdateContractAnswers | apps/api/src/crm/contracts.service.ts:129-208 | Every answer and the stored row of a contract update, on the vendor and buildings it would have |
| Risk.LevelIsExact | apps/api/src/risk/risk-engine.ts:95-100 | HIGH if and only if highThreshold is at most the total, otherwise MEDIUM if and only if mediumThreshold is, otherwise LOW |
| Risk.TotalIsExact | apps/api/src/risk/risk-engine.ts:46-94 | The total as five conditions on the facts, each with its own field of the policy |
| Risk.RulesSpeakExactly | apps/api/src/risk/risk-engine.ts:46-92 | Each rule is named with its own score if and only if its condition holds |
| Basics.TrimIsExact | apps/api/src/approvals/approvals.service.ts:535 | Trimming leaves the text between the first and the last unit that is no white space |
| Risk.EvaluateInvoiceRisk | apps/api/src/risk/risk-engine.ts:41-114 | The service function computes the evaluation whose level, total and contributions Risk.LevelIsExact, TotalIsExact and RulesSpeakExactly state outright |
| Risk.PushContributions | apps/api/src/risk/risk-engine.ts:46-92 | The pushes, branch by branch, give the contributions of the triggered rules in order |
| Risk.TotalIsWeights | apps/api/src/risk/risk-engine.ts:94 | The total is the sum, over the five rules, of the score of each triggered rule |
| Risk.ScoreIsMonotone | apps/api/src/risk/risk-engine.ts:94-100 | Triggering more rules never lowers the total, the level or the required decisions |
| Risk.AverageBetween | apps/api/src/approvals/approvals.service.ts:529-532 | The rounded average lies between the smallest and the largest prior total |
| Risk.SpikeIffAverageNotZero | apps/api/src/risk/risk-engine.ts:84-92 | A total at least twice the largest prior total triggers AMOUNT_SPIKE if and only if twice the sum of the prior cents reaches the number of prior totals, that is, unless the average rounds to 0.00 |
| Risk.TwiceTheLargestIsNotEnough | apps/api/src/risk/risk-engine.ts:85 | A concrete history whose average rounds to 0.00: no spike although the total is twice the largest prior total |
| Risk.NoSpikeBelowTwice | apps/api/src/risk/risk-engine.ts:85 | A total below twice the smallest prior total never triggers AMOUNT_SPIKE |
| Risk.HashBindsEvidence | apps/api/src/risk/risk-engine.ts:101-113 | Equal evidence hashes mean equal invoice, rule version, facts, contributions, total and level |
| Basics.DecimalRoundTrip | apps/api/src/risk/risk-engine.ts:127-131 | A printed amount is read back as the same number of cents |
| Basics.NatTextRoundTrip | apps/api/src/risk/risk-engine.ts:127-131 | A printed natural number is read back |
| JsonOrder.OrderInsensitiveIffTieFree | apps/api/src/risk/risk-engine.ts:116-125 | For any total preorder on keys, a value prints the same in every key order if and only if no two keys of one of its objects tie |
| JsonOrder.CanonicalNamesValue | apps/api/src/risk/risk-engine.ts:116-125 | Under any comparator that ties no two different keys, two values print alike if and only if they are equal up to key order |
| JsonOrder.CodeUnitStrict | apps/api/src/risk/risk-engine.ts:120 | Code-unit order is such a comparator |
| JsonOrder.TieFreePrintsAlike | apps/api/src/risk/risk-engine.ts:118-123 | Without ties, equal values print alike |
| JsonOrder.TiesBetrayOrder | apps/api/src/risk/risk-engine.ts:120 | With a tie, some reordering of the value prints differently |
| JsonProofs.CanonicalIsUnambiguous | apps/api/src/risk/risk-engine.ts:116-125 | Equal texts mean equal values, for any comparator |
| JsonProofs.Unambiguous | apps/api/src/risk/risk-engine.ts:116-125 | No printed value is a proper prefix of another, up to a following delimiter |
| JsonProofs.QuoteUnambiguous | apps/api/src/risk/risk-engine.ts:121 | A quoted string ends where its reader says, escapes and surrogates included |
| JsonProofs.SortKeeps | apps/api/src/risk/risk-engine.ts:119-120 | Sorting by key keeps the fields |
| Links.CreateContractChecked | apps/api/src/crm/contracts.service.ts:83-127 | The check of contract create accepts exactly what the link trigger accepts, and the result is the requested contract |
| Links.UpdateContractChecked | apps/api/src/crm/contracts.service.ts:129-208 | For a change of vendor, of buildings or of both, no trigger rejects what the check accepts, the check refuses only what a trigger would, and the result is the requested contract |
| Links.UpdateContractTriggers | prisma/migrations/20260828120000_crm_core/migration.sql:403-450 | Delete, update and re-insert of contract links pass both contract triggers after the check |
| Links.UpdateVendorChecked | apps/api/src/crm/vendors.service.ts:202-240 | Relinking a vendor replaces its buildings and is refused if and only if a contract covers a removed one |
| Links.RelinkTriggersAgree | prisma/migrations/20260828120000_crm_core/migration.sql:452-473 | The service's reference check agrees with the vendor-link trigger, and the diff of removed and added links is the requested set |
| Links.RelinkCheckExact | apps/api/src/crm/vendors.service.ts:210-226 | The reference check finds a contract if and only if one needs a removed building |
| Links.CreateVendorKeeps | apps/api/src/crm/vendors.service.ts:136-174 | Vendor create keeps the link relation |
| CrmServices.VendorsService.Update | apps/api/src/crm/vendors.service.ts:176-254 | The link diff, statement by statement with rollback, leaves the rows and answer of the relink transition |
| CrmServices.VendorsService.AddBankVersion | apps/api/src/crm/vendors.service.ts:281-336 | A version greater than one freezes the vendor's pending requests and their invoices |
| CrmServices.VendorsService.Create | apps/api/src/crm/vendors.service.ts:136-174 | Vendor create with its links |
| CrmServices.ContractsService.Create | apps/api/src/crm/contracts.service.ts:83-127 | Contract create with its links |
| CrmServices.ContractsService.Update | apps/api/src/crm/contracts.service.ts:129-208 | Clear, update and relink, with rollback on a stale version |
| Webhook.HashNamesDelivery | apps/api/src/integrations/fake-bank.service.ts:30-32 | Two deliveries have the same payload hash if and only if timestamp and payload agree, in whatever key order the bodies arrive |
| Webhook.AcceptedOnce | apps/api/src/integrations/fake-bank.service.ts:33-42 | After acceptance the same delivery is a duplicate that changes nothing, and any other under its event id is refused and changes nothing |
| Webhook.TransitionMeansChange | apps/api/src/integrations/fake-bank.service.ts:54-63 | stateTransitioned is true if and only if the bank version's current status changes |
| Webhook.ReceiveKeepsLedger | apps/api/src/integrations/fake-bank.service.ts:33-74 | The ledger only grows and never holds an event id twice |
| Webhook.FindDelivery | apps/api/src/integrations/fake-bank.service.ts:34-36 | A delivery of the event is found if and only if one exists |
| CrmServices.FakeBankService.Process | apps/api/src/integrations/fake-bank.service.ts:18-88 | The statements of process leave the ledger and answer of the webhook transition (what is accepted and stored: WebhookRows.UnsignedIsRefused, SignedIsProcessed) |

## Left out

- One organization only: row-level security and organization ids in keys.
- Audit rows, list and read endpoints, pagination, account masks, encryption of bank details, filename and file-type checks.
- Invoice fields no property needs: lines, dates, notes, subtotal and tax, and the currency of a contract's limit.
- WebAuthn, HMAC, SHA-256 and random tokens: verdicts are step inputs, hashes abstract functions; a clash of random refresh tokens is refused.
- Floating point: amounts are whole cents, averages are rounded half up as exact fractions; decimal texts have at most two fraction digits.
- localeCompare itself, and case-insensitive comparison beyond ASCII letters.
- Explicit nulls in the bodies of contract and vendor updates for required columns, which the ORM refuses.
- Access rights of building managers in the vendor and contract services, contacts and bank verification records.
- Object puts that fail before an upload's transaction: they leave no row.
- Error codes and timestamps of processing rows, heartbeats, OCR engine names, and the temporary work directory.
- Approved objects that no row names, which a failed connect after the put leaves behind.
- A missing webhook secret, which refuses every delivery; secrets are given.
- WorldProofs.StepKeeps: does not cover interleavings inside one database callback, because the callback is atomic by hypothesis.
- IngestRetries.RetryTransparency: compares storage, processing state, scan result, fingerprint, suggestions and invoice status, not the attempt counter or the duplicate pointer, which depend on other deliveries.
- JsonProofs.CanonicalIsUnambiguous: is about finite JSON values; undefined and non-finite numbers, which the hashed payloads never hold, are not modelled.
- Bulk updates and lookups of the database classes are expressions over whole tables, not loops over rows.
