/** The ingest worker, one awaited statement at a time, with failures and lost acknowledgements. */
module Ingest {
  import opened Basics
  import opened Schema
  import opened Approvals

  // ClamAV and Tesseract, as functions of the bytes.
  datatype Services = Services(clean: Bytes -> bool, ocr: (Bytes, Text) -> Text)

  // How an awaited statement ends: applied and acknowledged, not applied, applied but reported as failed,
  // or never, because the worker died.
  datatype Fault = NoFault | Failed | LostAck | Crashed

  datatype Pc =
    | Load | Scan | DownloadQuarantined | ScanFile | Block | Put | Connect | Promote | Rollback | UndoPut
    | DropQuarantine | Resume | DownloadApproved | Ocr | Finish | Recover | Done

  // One delivery of a queue job: its arguments, its program counter and its local variables.
  datatype Job = Job(
    documentId: Id, invoiceId: Id, finalAttempt: bool, key: nat,
    pc: Pc, source: Option<nat>, file: Bytes, suggestions: Text)

  // ---------------------------------------------------------------- database guards

  // bloctrust_validate_document_processing_transition
  predicate TransitionAccepted(before: ProcessingState, after: ProcessingState) {
    before == after || match before
    case StQuarantined => after == StScanning || after == StManualReview
    case StScanning => after == StQuarantined || after == StParsed || after == StBlocked || after == StManualReview
    case StParsed => after == StNeedsReview || after == StManualReview
    case _ => false
  }

  // bloctrust_protect_document_identity
  predicate IdentityAccepted(before: Document, after: Document) {
    && after.invoiceId == before.invoiceId && after.quarantineKey == before.quarantineKey
    && (before.approvedKey.Some? ==> after.approvedKey == before.approvedKey)
    && (before.sha256.Some? ==> after.sha256 == before.sha256)
  }

  predicate Terminal(state: ProcessingState) {
    state == StNeedsReview || state == StManualReview || state == StBlocked
  }

  // The JOIN of load: the job names a document of its invoice.
  predicate Resident(db: Db, job: Job) {
    && job.documentId < |db.documents| && job.documentId < |db.processing|
    && db.documents[job.documentId].invoiceId == job.invoiceId && job.invoiceId < |db.invoices|
  }

  // ---------------------------------------------------------------- statements; None when a trigger rejects

  function WriteProcessing(db: Db, d: Id, p: Processing): Option<Db>
    requires d < |db.processing|
  {
    if TransitionAccepted(db.processing[d].state, p.state)
    then Some(db.(processing := db.processing[d := p])) else None
  }

  function SetStatus(db: Db, invoiceId: Id, status: InvoiceStatus): Db
    requires invoiceId < |db.invoices|
  {
    db.(invoices := db.invoices[invoiceId := db.invoices[invoiceId].(status := status)])
  }

  function Progress(db: Db, d: Id, state: ProcessingState, progress: nat, scan: Option<ScanResult>): Option<Db>
    requires d < |db.processing|
  {
    var p := db.processing[d];
    WriteProcessing(db, d,
      p.(state := state, progress := progress, attempts := p.attempts + 1, scan := Or(scan, p.scan)))
  }

  function BlockTx(db: Db, job: Job): Option<Db>
    requires Resident(db, job)
  {
    var d := job.documentId;
    var written := WriteProcessing(db, d, db.processing[d].(state := StBlocked, progress := 100, scan := Infected));
    if written.None? then None
    else Some(SetStatus(
      written.value.(documents := db.documents[d := db.documents[d].(storage := InBlocked)]), job.invoiceId, Blocked))
  }

  /** The oldest other document with the same fingerprint. */
  function FindDuplicate(documents: seq<Document>, sha256: Digest, except: Id): (r: Option<Id>)
    ensures r.Some? ==>
      r.value < |documents| && r.value != except && documents[r.value].sha256 == Some(sha256)
    ensures r.Some? ==> forall i :: 0 <= i < r.value && i != except ==> documents[i].sha256 != Some(sha256)
    ensures r.None? ==>
      forall i :: 0 <= i < |documents| && i != except ==> documents[i].sha256 != Some(sha256)
  {
    if documents == [] then None
    else
      var n := |documents| - 1;
      var older := FindDuplicate(documents[..n], sha256, except);
      if older.Some? then older
      else if n != except && documents[n].sha256 == Some(sha256) then Some(n) else None
  }

  function PromoteTx(db: Db, job: Job): Option<Db>
    requires Resident(db, job)
  {
    var d, sha256 := job.documentId, OfBytes(job.file);
    var document := db.documents[d].(
      approvedKey := Some(job.key), sha256 := Some(sha256), storage := InApproved,
      duplicateOf := FindDuplicate(db.documents, sha256, d));
    var written := WriteProcessing(db, d, db.processing[d].(state := StParsed, progress := 75, scan := Clean));
    if written.None? || !IdentityAccepted(db.documents[d], document) then None
    else Some(written.value.(documents := db.documents[d := document], promotions := db.promotions + [d]))
  }

  function FinishTx(db: Db, job: Job): Option<Db>
    requires Resident(db, job)
  {
    var d := job.documentId;
    var written := WriteProcessing(
      db, d, db.processing[d].(state := StNeedsReview, progress := 100, suggestions := Some(job.suggestions)));
    if written.None? then None else Some(SetStatus(written.value, job.invoiceId, NeedsReview))
  }

  // Both statements of manualReview, as one step.
  function ManualReviewTx(db: Db, job: Job): Option<Db>
    requires Resident(db, job)
  {
    var d := job.documentId;
    var p := db.processing[d];
    var written :=
      if p.state == StNeedsReview || p.state == StBlocked then Some(db)
      else WriteProcessing(db, d, p.(
        state := StManualReview, progress := 100, scan := if p.scan == ScanPending then ScanError else p.scan));
    if written.None? then None
    else if db.invoices[job.invoiceId].status == InvoiceStatus.Processing
    then Some(SetStatus(written.value, job.invoiceId, ManualReview)) else written
  }

  function ResetTx(db: Db, job: Job): Option<Db>
    requires Resident(db, job)
  {
    var d := job.documentId;
    if db.documents[d].storage == InApproved
    then WriteProcessing(db, d, db.processing[d].(state := StParsed, progress := 75))
    else WriteProcessing(db, d, db.processing[d].(state := StQuarantined, progress := 10))
  }

  // ---------------------------------------------------------------- one awaited statement

  function Await(db: Db, written: Option<Db>, fault: Fault): (Db, bool) {
    if fault == Failed || fault == Crashed || written.None? then (db, false) else (written.value, fault == NoFault)
  }

  function Then(r: (Db, bool), job: Job, next: Pc, failed: Pc): (Db, Job) {
    (r.0, job.(pc := if r.1 then next else failed))
  }

  function Fetch(db: Db, bucket: map<nat, Bytes>, key: Option<nat>, job: Job, fault: Fault, next: Pc): (Db, Job) {
    if fault == NoFault && key.Some? && key.value in bucket
    then (db, job.(file := bucket[key.value], pc := next)) else (db, job.(pc := Recover))
  }

  // storage.delete after a failed promote: it may hit a row whose commit did take effect.
  function UndoPutStep(db: Db, job: Job): Db
    requires Resident(db, job)
  {
    db.(approved := db.approved - {job.key},
        compensated := if db.documents[job.documentId].approvedKey == Some(job.key)
                       then db.compensated + {job.documentId} else db.compensated)
  }

  // The rows and objects after the awaited statement, when it takes effect; None when a trigger rejects it.
  function Effect(db: Db, job: Job): Option<Db>
    requires Resident(db, job)
  {
    var d := job.documentId;
    match job.pc
    case Scan => Progress(db, d, StScanning, 25, None)
    case Block => BlockTx(db, job)
    case Put => Some(db.(approved := db.approved[job.key := job.file]))
    case Promote => PromoteTx(db, job)
    case UndoPut => Some(UndoPutStep(db, job))
    case DropQuarantine => Some(db.(quarantine := db.quarantine - {db.documents[d].quarantineKey}))
    case Resume => Progress(db, d, StParsed, 75, Some(Clean))
    case Finish => FinishTx(db, job)
    case Recover => if job.finalAttempt then ManualReviewTx(db, job) else ResetTx(db, job)
    case _ => Some(db)
  }

  // No delivery visits an await twice.
  function Rank(pc: Pc): nat {
    match pc
    case Load => 16 case Scan => 15 case DownloadQuarantined => 14 case ScanFile => 13 case Block => 12
    case Put => 11 case Connect => 10 case Promote => 9 case Rollback => 8 case UndoPut => 7 case DropQuarantine => 6
    case Resume => 5 case DownloadApproved => 4 case Ocr => 3 case Finish => 2 case Recover => 1 case Done => 0
  }

  /** process, from one await to the next. */
  function Exec(db: Db, svc: Services, job: Job, fault: Fault): (r: (Db, Job))
    ensures job.pc != Done ==> Rank(r.1.pc) < Rank(job.pc)
    ensures r.1.documentId == job.documentId && r.1.invoiceId == job.invoiceId && r.1.key == job.key
    ensures r.1.finalAttempt == job.finalAttempt
  {
    if !Resident(db, job) || fault == Crashed then (db, job.(pc := Done))
    else
      var d := job.documentId;
      var document := db.documents[d];
      var awaited := Await(db, Effect(db, job), fault);
      match job.pc
      case Load =>
        if fault != NoFault || Terminal(db.processing[d].state) then (db, job.(pc := Done))
        else if document.storage == InQuarantine then (db, job.(pc := Scan))
        else (db, job.(pc := Resume, source := document.approvedKey))
      case Scan => Then(awaited, job, DownloadQuarantined, Recover)
      case DownloadQuarantined => Fetch(db, db.quarantine, Some(document.quarantineKey), job, fault, ScanFile)
      case ScanFile =>
        (db, job.(pc := if fault != NoFault then Recover else if svc.clean(job.file) then Put else Block))
      case Block => Then(awaited, job, Done, Recover)
      case Put => Then(awaited, job, Connect, Recover)
      case Connect => Then(awaited, job, Promote, Recover)
      case Promote => Then(awaited, job, DropQuarantine, Rollback)
      case Rollback => Then(awaited, job, UndoPut, Recover)
      case UndoPut => Then(awaited, job, Recover, Recover)
      case DropQuarantine => Then(awaited, job, Ocr, Recover)
      case Resume => Then(awaited, job, DownloadApproved, Recover)
      case DownloadApproved => Fetch(db, db.approved, job.source, job, fault, Ocr)
      case Ocr =>
        if fault != NoFault then (db, job.(pc := Recover))
        else (db, job.(suggestions := svc.ocr(job.file, document.mime), pc := Finish))
      case Finish => Then(awaited, job, Done, Recover)
      case Recover => Then(awaited, job, Done, Done)
      case Done => (db, job)
  }

  /** A whole delivery; the script says how each await ends. */
  function RunJob(db: Db, svc: Services, job: Job, script: Pc -> Fault): Db
    decreases Rank(job.pc)
  {
    if job.pc == Done then db
    else
      var (db', job') := Exec(db, svc, job, script(job.pc));
      RunJob(db', svc, job', script)
  }

  // ---------------------------------------------------------------- the API side

  function NewJob(db: Db, documentId: Id, invoiceId: Id, finalAttempt: bool): Job {
    Job(documentId, invoiceId, finalAttempt, db.nextKey, Load, None, [], [])
  }

  const NEW_PROCESSING := ProcessingRow(StQuarantined, 10, 0, ScanPending, None)

  function UploadedRows(
    db: Db, vendorId: Option<Id>, contractId: Option<Id>, bytes: Bytes, mime: Text, key: nat): (r: Db)
    ensures |r.documents| == |db.documents| + 1 && r.compensated == db.compensated && r.quarantine == db.quarantine
  {
    db.(invoices := db.invoices + [Invoice(InvoiceStatus.Processing, 1, vendorId, contractId, None, None, None, None)],
        documents := db.documents + [Document(|db.invoices|, key, None, None, None, InQuarantine, mime, bytes)],
        processing := db.processing + [NEW_PROCESSING])
  }

  /** upload: put the object, write the rows in one transaction, delete the object when that fails. */
  function Upload(
    db: Db, vendorId: Option<Id>, contractId: Option<Id>, bytes: Bytes, mime: Text, fault: Fault,
      cleanup: bool): Outcome
  {
    var key := db.nextKey;
    var stored := db.(nextKey := key + 1, quarantine := db.quarantine[key := bytes]);
    var problem := RelationshipProblem(db, vendorId, contractId);
    var written := if problem.Some? then None else Some(UploadedRows(stored, vendorId, contractId, bytes, mime, key));
    var (db', acknowledged) := Await(stored, written, fault);
    if acknowledged then Outcome(db', Ok(|db.documents|))
    else
      var error := if problem.Some? then problem.value else ConstraintViolation;
      if !cleanup then Outcome(db', Err(error))
      else Outcome(
        db'.(quarantine := db'.quarantine - {key},
             compensated := if |db'.documents| > |db.documents| then db.compensated + {|db.documents|}
               else db.compensated),
        Err(error))
  }

  /** markManualReview, after a failed enqueue. */
  function MarkManualReview(db: Db, documentId: Id): Db {
    if documentId >= |db.documents| || documentId >= |db.processing|
      || db.documents[documentId].invoiceId >= |db.invoices|
    then db
    else
      var written := WriteProcessing(
        db, documentId, db.processing[documentId].(state := StManualReview, progress := 100));
      if written.None? then db else SetStatus(written.value, db.documents[documentId].invoiceId, ManualReview)
  }
}
