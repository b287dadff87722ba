/** What every crash point of ingest satisfies, with any number of deliveries in flight. */
module IngestInvariant {
  import opened Basics
  import opened Schema
  import opened Ingest

  // ---------------------------------------------------------------- rows

  predicate Reviewed(s: InvoiceStatus) { s == NeedsReview || s == AwaitingApproval || s == Approved || s == Rejected }

  function ProgressOf(state: ProcessingState): nat {
    match state
    case StQuarantined => 10
    case StScanning => 25
    case StParsed => 75
    case _ => 100
  }

  // Storage, processing row and invoice row agree.
  ghost predicate PhaseSound(svc: Services, doc: Document, p: Processing, status: InvoiceStatus) {
    match p.state
    case StQuarantined => doc.storage == InQuarantine && p.scan == ScanPending && status == InvoiceStatus.Processing
    case StScanning => doc.storage == InQuarantine && p.scan == ScanPending && status == InvoiceStatus.Processing
    case StParsed => doc.storage == InApproved && p.scan == Clean && status == InvoiceStatus.Processing
    case StNeedsReview =>
      doc.storage == InApproved && p.scan == Clean && Reviewed(status)
      && p.suggestions == Some(svc.ocr(doc.uploaded, doc.mime))
    case StManualReview =>
      status == ManualReview
      && if doc.storage == InApproved then p.scan == Clean
         else doc.storage == InQuarantine && (p.scan == ScanPending || p.scan == ScanError)
    case StBlocked =>
      doc.storage == InBlocked && p.scan == Infected && status == Blocked && !svc.clean(doc.uploaded)
  }

  // Approved storage means scanned clean and fingerprinted, over the bytes that were uploaded.
  ghost predicate StorageSound(svc: Services, doc: Document) {
    if doc.storage == InApproved
    then doc.approvedKey.Some? && doc.sha256 == Some(OfBytes(doc.uploaded)) && svc.clean(doc.uploaded)
    else doc.approvedKey.None? && doc.sha256.None? && doc.duplicateOf.None?
  }

  ghost predicate Holds(bucket: map<nat, Bytes>, key: nat, bytes: Bytes) { key in bucket && bucket[key] == bytes }

  // The object a row points to exists exactly when no compensating delete hit it.
  ghost predicate ObjectSound(db: Db, d: Id)
    requires d < |db.documents|
  {
    var doc := db.documents[d];
    && (doc.quarantineKey in db.quarantine ==> db.quarantine[doc.quarantineKey] == doc.uploaded)
    && if doc.approvedKey.Some? then
         if d in db.compensated
         then doc.approvedKey.value !in db.approved && doc.quarantineKey in db.quarantine
         else Holds(db.approved, doc.approvedKey.value, doc.uploaded)
       else doc.quarantineKey in db.quarantine <==> d !in db.compensated
  }

  ghost predicate DocSound(db: Db, svc: Services, d: Id)
    requires d < |db.documents| == |db.processing|
  {
    var doc, p := db.documents[d], db.processing[d];
    && doc.invoiceId < |db.invoices|
    && PhaseSound(svc, doc, p, db.invoices[doc.invoiceId].status)
    && p.progress == ProgressOf(p.state)
    && StorageSound(svc, doc)
    && ObjectSound(db, d)
  }

  // ---------------------------------------------------------------- deliveries

  // Between download and promotion: the bytes are the document's own, and still its to promote.
  ghost predicate Carries(db: Db, job: Job)
    requires job.documentId < |db.documents|
  {
    var doc := db.documents[job.documentId];
    && doc.approvedKey != Some(job.key) && job.file == doc.uploaded
    && (doc.approvedKey.None? ==> job.documentId !in db.compensated)
  }

  ghost predicate JobSound(db: Db, svc: Services, job: Job) {
    job.pc == Load || job.pc == Done ||
    (Resident(db, job) &&
     var d := job.documentId;
     var doc := db.documents[d];
     match job.pc
     case Scan => doc.approvedKey != Some(job.key)
     case DownloadQuarantined => doc.approvedKey != Some(job.key)
     case ScanFile => Carries(db, job)
     case Block => Carries(db, job) && !svc.clean(job.file)
     case Put => Carries(db, job) && svc.clean(job.file)
     case Connect => Carries(db, job) && svc.clean(job.file) && Holds(db.approved, job.key, job.file)
     case Promote => Carries(db, job) && svc.clean(job.file) && Holds(db.approved, job.key, job.file)
     case Rollback => doc.approvedKey == Some(job.key) ==> d !in db.compensated && doc.quarantineKey in db.quarantine
     case UndoPut => doc.approvedKey == Some(job.key) ==> d !in db.compensated && doc.quarantineKey in db.quarantine
     case DropQuarantine => doc.approvedKey == Some(job.key) && d !in db.compensated && job.file == doc.uploaded
     case Resume => doc.storage == InApproved && job.source == doc.approvedKey
     case DownloadApproved => doc.storage == InApproved && job.source == doc.approvedKey
     case Ocr => doc.storage == InApproved && job.file == doc.uploaded
     case Finish => doc.storage == InApproved && job.suggestions == svc.ocr(doc.uploaded, doc.mime)
     case _ => true)
  }

  // Random keys: no two rows, no two deliveries, and no row and foreign delivery share one.
  ghost predicate KeysSound(db: Db, jobs: seq<Job>) {
    && (forall d :: 0 <= d < |db.documents| ==> db.documents[d].quarantineKey < db.nextKey)
    && (forall d :: 0 <= d < |db.documents| && db.documents[d].approvedKey.Some? ==>
         db.documents[d].approvedKey.value < db.nextKey)
    && (forall d, e :: 0 <= d < e < |db.documents| ==>
          db.documents[d].quarantineKey != db.documents[e].quarantineKey
          && db.documents[d].invoiceId != db.documents[e].invoiceId)
    && (forall d, e :: 0 <= d < e < |db.documents| && db.documents[d].approvedKey.Some? ==>
          db.documents[d].approvedKey != db.documents[e].approvedKey)
    && (forall j :: 0 <= j < |jobs| ==> jobs[j].key < db.nextKey)
    && (forall i, j :: 0 <= i < j < |jobs| ==> jobs[i].key != jobs[j].key)
    && (forall d, j :: 0 <= d < |db.documents| && 0 <= j < |jobs| ==>
          db.documents[d].approvedKey == Some(jobs[j].key) ==> jobs[j].documentId == d)
    && (forall d :: d in db.compensated ==> d < |db.documents|)
  }

  ghost predicate IngestSound(db: Db, svc: Services, jobs: seq<Job>) {
    && |db.documents| == |db.processing|
    && (forall d :: 0 <= d < |db.documents| ==> DocSound(db, svc, d))
    && (forall j :: 0 <= j < |jobs| ==> JobSound(db, svc, jobs[j]))
    && KeysSound(db, jobs)
  }

  /** A finish that meets a finished document: the one write that disturbs a reviewed invoice. */
  predicate LateFinish(db: Db, job: Job, fault: Fault) {
    && job.pc == Finish && (fault == NoFault || fault == LostAck) && Resident(db, job)
    && db.processing[job.documentId].state == StNeedsReview
  }
}
