/** What each statement of the worker writes, in the columns of the rows, and when a trigger rejects it. */
module IngestRows {
  import opened Basics
  import opened Schema
  import opened Ingest

  // The processing row of the document after a statement that writes these columns.
  ghost function Wrote(db: Db, d: Id, state: ProcessingState, progress: nat, scan: ScanResult): Db
    requires d < |db.processing|
  {
    db.(processing := db.processing[d := db.processing[d].(state := state, progress := progress, scan := scan)])
  }

  // The same, one attempt later.
  ghost function Attempted(db: Db, d: Id, state: ProcessingState, progress: nat, scan: ScanResult): Db
    requires d < |db.processing|
  {
    var attempts := db.processing[d].attempts + 1;
    db.(processing := db.processing[d := db.processing[d].(
      state := state, progress := progress, scan := scan, attempts := attempts)])
  }

  ghost function InvoiceTo(db: Db, i: Id, status: InvoiceStatus): Db
    requires i < |db.invoices|
  {
    db.(invoices := db.invoices[i := db.invoices[i].(status := status)])
  }

  /** An await writes its whole statement or nothing: it writes when no trigger rejects it and the database took it,
      whether or not the worker heard so. */
  lemma ExecStores(db: Db, svc: Services, job: Job, fault: Fault)
    ensures Exec(db, svc, job, fault).0 ==
      if Resident(db, job) && (fault == NoFault || fault == LostAck) && Effect(db, job).Some?
      then Effect(db, job).value else db
  {
    hide BlockTx, PromoteTx, FinishTx, ManualReviewTx, ResetTx, UndoPutStep, Progress;
  }

  /** Scanning is 25 percent, a resumed document is parsed, clean and at 75; each counts an attempt. */
  lemma ProgressStores(db: Db, job: Job)
    requires Resident(db, job) && (job.pc == Scan || job.pc == Resume)
    ensures var d, p := job.documentId, db.processing[job.documentId];
      (job.pc == Scan ==>
        Effect(db, job) ==
          if p.state == StQuarantined || p.state == StScanning then Some(Attempted(db, d, StScanning, 25, p.scan))
          else None)
    ensures var d, p := job.documentId, db.processing[job.documentId];
      (job.pc == Resume ==>
        Effect(db, job) ==
          if p.state == StScanning || p.state == StParsed then Some(Attempted(db, d, StParsed, 75, Clean)) else None)
  {
    hide BlockTx, PromoteTx, FinishTx, ManualReviewTx, ResetTx, UndoPutStep;
  }

  /** Blocking marks the processing row infected, the document blocked and its invoice blocked. */
  lemma BlockStores(db: Db, job: Job)
    requires Resident(db, job) && job.pc == Block
    ensures var d, p := job.documentId, db.processing[job.documentId];
      Effect(db, job) ==
        if p.state == StScanning || p.state == StBlocked
        then Some(InvoiceTo(
          Wrote(db, d, StBlocked, 100, Infected).(
            documents := db.documents[d := db.documents[d].(storage := InBlocked)]),
          job.invoiceId, Blocked))
        else None
  {
    hide PromoteTx, FinishTx, ManualReviewTx, ResetTx, UndoPutStep, Progress;
  }

  // The oldest other document with this fingerprint, if there is one.
  ghost predicate Oldest(documents: seq<Document>, sha256: Digest, except: Id, found: Option<Id>) {
    && (found.Some? ==>
          found.value < |documents| && found.value != except && documents[found.value].sha256 == Some(sha256))
    && forall e :: (0 <= e < |documents| && e != except && documents[e].sha256 == Some(sha256) ==>
         found.Some? && found.value <= e)
  }

  // A key or fingerprint once set may only be set to itself.
  ghost predicate Settable(doc: Document, key: nat, sha256: Digest) {
    && (doc.approvedKey == None || doc.approvedKey == Some(key)) && (doc.sha256 == None || doc.sha256 == Some(sha256))
  }

  /** Promotion stores key, fingerprint, storage state and duplicate pointer, and leaves the row parsed and clean. */
  lemma PromoteStores(db: Db, job: Job, duplicate: Option<Id>)
    requires Resident(db, job) && job.pc == Promote
    requires Oldest(db.documents, OfBytes(job.file), job.documentId, duplicate)
    ensures var d, p, sha256 := job.documentId, db.processing[job.documentId], OfBytes(job.file);
      Effect(db, job) ==
        if (p.state == StScanning || p.state == StParsed) && Settable(db.documents[d], job.key, sha256)
        then Some(Wrote(db, d, StParsed, 75, Clean).(
          documents := db.documents[d := db.documents[d].(
            approvedKey := Some(job.key), sha256 := Some(sha256), storage := InApproved, duplicateOf := duplicate)],
          promotions := db.promotions + [d]))
        else None
  {
    var found := FindDuplicate(db.documents, OfBytes(job.file), job.documentId);
    assert found == duplicate;
    hide BlockTx, FinishTx, ManualReviewTx, ResetTx, UndoPutStep, Progress, FindDuplicate;
  }

  /** The object statements put and delete under their keys and touch no row. */
  lemma ObjectsStore(db: Db, job: Job)
    requires Resident(db, job)
    ensures job.pc == Put ==> Effect(db, job) == Some(db.(approved := db.approved[job.key := job.file]))
    ensures job.pc == DropQuarantine ==>
      Effect(db, job) == Some(db.(quarantine := db.quarantine - {db.documents[job.documentId].quarantineKey}))
    ensures job.pc == UndoPut ==>
      Effect(db, job).Some? && Effect(db, job).value.approved == db.approved - {job.key}
      && Effect(db, job).value == db.(
        approved := Effect(db, job).value.approved, compensated := Effect(db, job).value.compensated)
  {
    hide BlockTx, PromoteTx, FinishTx, ManualReviewTx, ResetTx, Progress;
  }

  /** Finishing stores the suggestions at 100 percent and sends the invoice to review. */
  lemma FinishStores(db: Db, job: Job)
    requires Resident(db, job) && job.pc == Finish
    ensures var d, p := job.documentId, db.processing[job.documentId];
      Effect(db, job) ==
        if p.state == StParsed || p.state == StNeedsReview
        then Some(InvoiceTo(
          db.(processing := db.processing[d := p.(
            state := StNeedsReview, progress := 100, suggestions := Some(job.suggestions))]),
          job.invoiceId, NeedsReview))
        else None
  {
    hide BlockTx, PromoteTx, ManualReviewTx, ResetTx, UndoPutStep, Progress;
  }

  /** On the final attempt an unfinished document goes to manual review, a pending scan becomes an error, and an invoice
      still processing follows it. */
  lemma ManualReviewStores(db: Db, job: Job)
    requires Resident(db, job) && job.pc == Recover && job.finalAttempt
    ensures var d, p, inv := job.documentId, db.processing[job.documentId], db.invoices[job.invoiceId];
      var reviewed :=
        if p.state == StNeedsReview || p.state == StBlocked then db
        else Wrote(db, d, StManualReview, 100, if p.scan == ScanPending then ScanError else p.scan);
      Effect(db, job) == Some(
        if inv.status == InvoiceStatus.Processing then InvoiceTo(reviewed, job.invoiceId, ManualReview) else reviewed)
  {
    hide BlockTx, PromoteTx, FinishTx, ResetTx, UndoPutStep, Progress;
  }

  /** Any other attempt resets the row to where the next one starts: parsed at 75 when the document is in approved
      storage, quarantined at 10 otherwise. */
  lemma ResetStores(db: Db, job: Job)
    requires Resident(db, job) && job.pc == Recover && !job.finalAttempt
    ensures var d, p := job.documentId, db.processing[job.documentId];
      Effect(db, job) ==
        if db.documents[d].storage == InApproved then
          if p.state == StScanning || p.state == StParsed then Some(Wrote(db, d, StParsed, 75, p.scan)) else None
        else
          if p.state == StQuarantined || p.state == StScanning then Some(Wrote(db, d, StQuarantined, 10, p.scan))
          else None
  {
    hide BlockTx, PromoteTx, FinishTx, ManualReviewTx, UndoPutStep, Progress;
  }

  /** Loading, downloading, connecting, scanning the file, reading its text and rolling back write nothing. */
  lemma OthersStoreNothing(db: Db, job: Job)
    requires Resident(db, job)
    ensures job.pc in {Load, DownloadQuarantined, ScanFile, Connect, Rollback, DownloadApproved, Ocr, Done} ==>
      Effect(db, job) == Some(db)
  {
  }

  // ---------------------------------------------------------------- the order of the awaits

  // A clean document's way from quarantine to review, and a resumed one's.
  const FROM_QUARANTINE := [
    Load, Scan, DownloadQuarantined, ScanFile, Put, Connect, Promote, DropQuarantine, Ocr, Finish, Done]
  const FROM_APPROVED := [Load, Resume, DownloadApproved, Ocr, Finish, Done]

  // The await succeeds: nothing fails, no trigger rejects, the object it reads is there, and a scanned file is clean.
  ghost predicate Succeeds(db: Db, svc: Services, job: Job, fault: Fault) {
    && Resident(db, job) && fault == NoFault && Effect(db, job).Some?
    && (job.pc == DownloadQuarantined ==> db.documents[job.documentId].quarantineKey in db.quarantine)
    && (job.pc == DownloadApproved ==> job.source.Some? && job.source.value in db.approved)
    && (job.pc == ScanFile ==> svc.clean(job.file))
  }

  /** Loading ends the delivery of a document that has ended, and otherwise goes where its storage says. */
  lemma LoadChooses(db: Db, svc: Services, job: Job, fault: Fault)
    requires Resident(db, job) && job.pc == Load
    ensures var doc, state := db.documents[job.documentId], db.processing[job.documentId].state;
      var next := Exec(db, svc, job, fault).1;
      if fault != NoFault || state == StNeedsReview || state == StManualReview || state == StBlocked
      then next == job.(pc := Done)
      else if doc.storage == InQuarantine then next == job.(pc := FROM_QUARANTINE[1])
      else next == job.(pc := FROM_APPROVED[1], source := doc.approvedKey)
  {
    hide Effect;
  }

  /** An await that succeeds goes on to the next of its way. */
  lemma SuccessGoesOn(db: Db, svc: Services, job: Job, fault: Fault, k: nat)
    requires Succeeds(db, svc, job, fault)
    ensures 1 <= k < 10 && job.pc == FROM_QUARANTINE[k] ==>
      Exec(db, svc, job, fault).1.pc == FROM_QUARANTINE[k + 1]
    ensures 1 <= k < 5 && job.pc == FROM_APPROVED[k] ==> Exec(db, svc, job, fault).1.pc == FROM_APPROVED[k + 1]
    ensures job.pc == Block ==> Exec(db, svc, job, fault).1.pc == Done
    ensures job.pc == Rollback ==> Exec(db, svc, job, fault).1.pc == UndoPut
    ensures job.pc == UndoPut ==> Exec(db, svc, job, fault).1.pc == Recover
    ensures job.pc == Recover ==> Exec(db, svc, job, fault).1.pc == Done
  {
    hide Effect;
  }

  /** An await that fails, or that no one hears of, goes to the handler; a promotion first to its rollback, the load and
      the handler itself nowhere. An infected file is blocked. */
  lemma FailureIsHandled(db: Db, svc: Services, job: Job, fault: Fault)
    requires Resident(db, job) && fault != Crashed && !Succeeds(db, svc, job, fault)
    ensures var next := Exec(db, svc, job, fault).1.pc;
      next == if job.pc == Load || job.pc == Recover || job.pc == Done then Done
              else if job.pc == Promote then Rollback
              else if job.pc == ScanFile && fault == NoFault then Block
              else Recover
  {
    hide Effect;
    OthersStoreNothing(db, job);
  }

  /** What the delivery carries: a download brings the object under the row's key, or the key it loaded, and reading the
      text brings the suggestions of the file. */
  lemma CarriesOn(db: Db, svc: Services, job: Job, fault: Fault)
    requires Succeeds(db, svc, job, fault)
    ensures var next, doc := Exec(db, svc, job, fault).1, db.documents[job.documentId];
      && (job.pc != Load ==> next.source == job.source)
      && next.file == (if job.pc == DownloadQuarantined then db.quarantine[doc.quarantineKey]
                       else if job.pc == DownloadApproved then db.approved[job.source.value] else job.file)
      && next.suggestions == if job.pc == Ocr then svc.ocr(job.file, doc.mime) else job.suggestions
  {
    hide Effect;
  }
}
