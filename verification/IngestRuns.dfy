/** Whole deliveries, one after another: retries are transparent, and a final attempt always ends. */
module IngestRuns {
  import opened Basics
  import opened Schema
  import opened Ingest
  import opened IngestInvariant
  import opened IngestProofs

  // ---------------------------------------------------------------- a delivery that no other overlaps

  // What the processing row says while this delivery is at each await.
  predicate Solo(db: Db, job: Job) {
    Resident(db, job) &&
    var state := db.processing[job.documentId].state;
    var doc := db.documents[job.documentId];
    match job.pc
    case Load => true
    case Done => true
    case Scan => doc.storage == InQuarantine && (state == StQuarantined || state == StScanning)
    case Block => state == StScanning
    case DownloadQuarantined => state == StScanning
    case ScanFile => state == StScanning
    case Put => state == StScanning
    case Connect => state == StScanning
    case Promote => state == StScanning
    case Rollback => state == StScanning || (state == StParsed && doc.approvedKey == Some(job.key))
    case UndoPut => state == StScanning || (state == StParsed && doc.approvedKey == Some(job.key))
    case Recover => state != StManualReview
    case _ => state == StParsed
  }

  /** Without overlap, the only write a trigger rejects is the reset of a document that already ended. */
  lemma SoloWriteAccepted(db: Db, svc: Services, job: Job)
    requires Ready(db, svc, job) && Solo(db, job)
    ensures Effect(db, job).None? <==>
      job.pc == Recover && !job.finalAttempt && Terminal(db.processing[job.documentId].state)
  {
  }

  lemma SoloAfterIdle(db: Db, svc: Services, job: Job, fault: Fault)
    requires Ready(db, svc, job) && Solo(db, job) && Idle(job.pc)
    ensures var (db', job') := Exec(db, svc, job, fault); db' == db && Solo(db', job')
  {
  }

  lemma SoloAfterFailure(db: Db, svc: Services, job: Job, fault: Fault)
    requires Ready(db, svc, job) && Solo(db, job) && !Idle(job.pc)
    requires fault == Failed || fault == Crashed || Effect(db, job).None?
    ensures var (db', job') := Exec(db, svc, job, fault); db' == db && Solo(db', job')
  {
    hide Effect, DocSound, JobSound;
  }

  lemma SoloAfterProgress(db: Db, svc: Services, job: Job, fault: Fault)
    requires Ready(db, svc, job) && Solo(db, job) && (job.pc == Scan || job.pc == Resume)
    requires Effect(db, job).Some? && (fault == NoFault || fault == LostAck)
    ensures var (db', job') := Exec(db, svc, job, fault); db' == Effect(db, job).value && Solo(db', job')
  {
    hide DocSound, JobSound;
  }

  lemma ExecAtEnd(db: Db, svc: Services, job: Job, fault: Fault)
    requires Resident(db, job) && (job.pc == Block || job.pc == Finish || job.pc == Recover)
    requires Effect(db, job).Some? && (fault == NoFault || fault == LostAck)
    ensures Exec(db, svc, job, fault)
         == (Effect(db, job).value, job.(pc := if job.pc == Recover || fault == NoFault then Done else Recover))
  {
  }

  lemma SoloAfterEnd(db: Db, svc: Services, job: Job, fault: Fault)
    requires Ready(db, svc, job) && Solo(db, job) && (job.pc == Block || job.pc == Finish || job.pc == Recover)
    requires Effect(db, job).Some? && (fault == NoFault || fault == LostAck)
    ensures var (db', job') := Exec(db, svc, job, fault); db' == Effect(db, job).value && Solo(db', job')
  {
    ExecAtEnd(db, svc, job, fault);
    EndRows(db, job);
    hide Exec, Effect, DocSound, JobSound;
  }

  lemma EndRows(db: Db, job: Job)
    requires Resident(db, job) && Effect(db, job).Some?
    requires job.pc == Block || job.pc == Finish || job.pc == Recover
    ensures var db' := Effect(db, job).value;
      Resident(db', job) && (job.pc != Recover ==> db'.processing[job.documentId].state != StManualReview)
  {
    hide PromoteTx, UndoPutStep, Progress;
  }

  lemma SoloAfterObjects(db: Db, svc: Services, job: Job, fault: Fault)
    requires Ready(db, svc, job) && Solo(db, job) && WritesObject(job.pc)
    requires Effect(db, job).Some? && (fault == NoFault || fault == LostAck)
    ensures var (db', job') := Exec(db, svc, job, fault); db' == Effect(db, job).value && Solo(db', job')
  {
    hide FindDuplicate, DocSound, JobSound;
  }

  lemma SoloStays(db: Db, svc: Services, job: Job, fault: Fault)
    requires Ready(db, svc, job) && Solo(db, job)
    ensures var (db', job') := Exec(db, svc, job, fault); Solo(db', job') && Ready(db', svc, job')
  {
    ExecKept(db, svc, job, fault);
    hide Exec, DocSound, JobSound, Effect, Solo;
    if Idle(job.pc) {
      SoloAfterIdle(db, svc, job, fault);
    } else if fault == Failed || fault == Crashed || Effect(db, job).None? {
      SoloAfterFailure(db, svc, job, fault);
    } else if WritesObject(job.pc) {
      SoloAfterObjects(db, svc, job, fault);
    } else if job.pc == Scan || job.pc == Resume {
      SoloAfterProgress(db, svc, job, fault);
    } else {
      SoloAfterEnd(db, svc, job, fault);
    }
  }

  // ---------------------------------------------------------------- a whole delivery

  function NoFaults(pc: Pc): Fault { NoFault }

  /** One delivery of the document's job. */
  function Deliver(db: Db, svc: Services, d: Id, finalAttempt: bool, script: Pc -> Fault): Db
    requires d < |db.documents|
  {
    RunJob(db.(nextKey := db.nextKey + 1), svc, NewJob(db, d, db.documents[d].invoiceId, finalAttempt), script)
  }

  ghost predicate Sound(db: Db, svc: Services, d: Id) {
    d < |db.documents| == |db.processing| && DocSound(db, svc, d)
  }

  ghost predicate SameUpload(db: Db, db': Db, d: Id)
    requires d < |db.documents| && d < |db'.documents|
  {
    && db'.documents[d].uploaded == db.documents[d].uploaded && db'.documents[d].mime == db.documents[d].mime
    && db'.documents[d].invoiceId == db.documents[d].invoiceId
  }

  lemma StepIsSound(db: Db, svc: Services, job: Job, fault: Fault)
    requires Ready(db, svc, job) && Solo(db, job)
    ensures var (db', job') := Exec(db, svc, job, fault);
      Ready(db', svc, job') && Solo(db', job') && Sound(db', svc, job.documentId) && SameUpload(db, db', job.documentId)
  {
    SoloStays(db, svc, job, fault);
    ExecKept(db, svc, job, fault);
    hide Exec, DocSound, JobSound, Solo;
  }

  lemma {:induction false} RunIsSound(db: Db, svc: Services, job: Job, script: Pc -> Fault)
    requires Ready(db, svc, job) && Solo(db, job)
    ensures var db' := RunJob(db, svc, job, script);
      Sound(db', svc, job.documentId) && SameUpload(db, db', job.documentId)
    decreases Rank(job.pc)
  {
    hide Exec, DocSound, JobSound, Solo;
    if job.pc != Done {
      StepIsSound(db, svc, job, script(job.pc));
      var (db', job') := Exec(db, svc, job, script(job.pc));
      RunIsSound(db', svc, job', script);
    }
  }

  lemma NewJobIsReady(db: Db, svc: Services, d: Id, finalAttempt: bool)
    requires Sound(db, svc, d)
    ensures var db0 := db.(nextKey := db.nextKey + 1);
      var job := NewJob(db, d, db.documents[d].invoiceId, finalAttempt);
      Ready(db0, svc, job) && Solo(db0, job) && Sound(db0, svc, d)
  {
  }

  // ---------------------------------------------------------------- what a fault-free run reaches

  datatype View = View(
    storage: StorageState, state: ProcessingState, progress: nat, scan: ScanResult,
    sha256: Option<Digest>, suggestions: Option<Text>, status: InvoiceStatus)

  ghost function ViewOf(db: Db, svc: Services, d: Id): View
    requires Sound(db, svc, d)
  {
    var doc, p := db.documents[d], db.processing[d];
    View(doc.storage, p.state, p.progress, p.scan, doc.sha256, if p.state == StNeedsReview then p.suggestions else None,
         db.invoices[doc.invoiceId].status)
  }

  // The result the uploaded bytes determine.
  function Expected(svc: Services, bytes: Bytes, mime: Text): View {
    if svc.clean(bytes)
    then View(InApproved, StNeedsReview, 100, Clean, Some(OfBytes(bytes)), Some(svc.ocr(bytes, mime)), NeedsReview)
    else View(InBlocked, StBlocked, 100, Infected, None, None, Blocked)
  }

  ghost predicate Reaches(db: Db, svc: Services, d: Id)
    requires Sound(db, svc, d)
  {
    ViewOf(db, svc, d) == Expected(svc, db.documents[d].uploaded, db.documents[d].mime)
  }

  // No one but the worker has touched the invoice, and no attempt was the last.
  ghost predicate Plain(db: Db, d: Id) {
    && d < |db.documents| && d < |db.processing| && db.documents[d].invoiceId < |db.invoices|
    && db.processing[d].state != StManualReview
    && (db.processing[d].state == StNeedsReview ==> db.invoices[db.documents[d].invoiceId].status == NeedsReview)
  }

  lemma EndedReaches(db: Db, svc: Services, d: Id)
    requires Sound(db, svc, d) && Plain(db, d)
    ensures Terminal(db.processing[d].state) <==> Reaches(db, svc, d)
  {
  }

  // A fault-free delivery of a document whose bytes survive stays on this track until the document ends.
  ghost predicate OnTrack(db: Db, job: Job) {
    && Solo(db, job) && Plain(db, job.documentId) && job.documentId !in db.compensated
    && job.pc != Recover && job.pc != Rollback && job.pc != UndoPut
    && (job.pc == Load ==> !Terminal(db.processing[job.documentId].state))
    && (job.pc == Done ==> Terminal(db.processing[job.documentId].state))
  }

  lemma TrackIdle(db: Db, svc: Services, job: Job)
    requires Ready(db, svc, job) && OnTrack(db, job) && Idle(job.pc)
    ensures var (db', job') := Exec(db, svc, job, NoFault); OnTrack(db', job')
  {
  }

  lemma TrackRows(db: Db, svc: Services, job: Job)
    requires Ready(db, svc, job) && OnTrack(db, job) && !Idle(job.pc) && !WritesObject(job.pc)
    ensures var (db', job') := Exec(db, svc, job, NoFault); OnTrack(db', job')
  {
    SoloWriteAccepted(db, svc, job);
    SoloStays(db, svc, job, NoFault);
    hide Solo, DocSound, JobSound, PromoteTx, UndoPutStep, Fetch, ManualReviewTx, ResetTx;
  }

  lemma TrackObjects(db: Db, svc: Services, job: Job)
    requires Ready(db, svc, job) && OnTrack(db, job) && WritesObject(job.pc)
    ensures var (db', job') := Exec(db, svc, job, NoFault); OnTrack(db', job')
  {
    SoloWriteAccepted(db, svc, job);
    SoloStays(db, svc, job, NoFault);
    hide FindDuplicate, Solo, DocSound, JobSound, BlockTx, Progress, Fetch, ManualReviewTx, ResetTx, FinishTx;
  }

  lemma {:induction false} TrackEnds(db: Db, svc: Services, job: Job)
    requires Ready(db, svc, job) && OnTrack(db, job)
    ensures var db' := RunJob(db, svc, job, NoFaults);
      Sound(db', svc, job.documentId) && SameUpload(db, db', job.documentId) && Reaches(db', svc, job.documentId)
    decreases Rank(job.pc)
  {
    RunIsSound(db, svc, job, NoFaults) by { hide OnTrack; }
    if job.pc == Done {
      EndedReaches(db, svc, job.documentId) by { hide JobSound, DocSound; }
      hide *;
    } else {
      hide Exec, DocSound, JobSound, Solo, OnTrack;
      var (db', job') := Exec(db, svc, job, NoFault);
      if Idle(job.pc) { TrackIdle(db, svc, job); }
      else if WritesObject(job.pc) { TrackObjects(db, svc, job); }
      else { TrackRows(db, svc, job); }
      StepIsSound(db, svc, job, NoFault);
      TrackEnds(db', svc, job');
    }
  }

  // ---------------------------------------------------------------- what a lost object leads to

  // Once the bytes are gone every delivery ends in recovery, whatever else fails.
  ghost predicate OffTrack(db: Db, job: Job) {
    && Solo(db, job)
    && db.processing[job.documentId].state != StNeedsReview && db.processing[job.documentId].state != StBlocked
    && (job.pc == Load || job.pc == Scan || job.pc == DownloadQuarantined || job.pc == Resume
        || job.pc == DownloadApproved || job.pc == Recover || job.pc == Done)
  }

  ghost predicate LostIsOff(db: Db, job: Job) { job.documentId in db.compensated ==> OffTrack(db, job) }

  lemma LostIdle(db: Db, svc: Services, job: Job, fault: Fault)
    requires Ready(db, svc, job) && Solo(db, job) && LostIsOff(db, job) && Idle(job.pc)
    ensures var (db', job') := Exec(db, svc, job, fault); LostIsOff(db', job')
  {
    SoloAfterIdle(db, svc, job, fault);
    if job.pc == Load || job.pc == DownloadQuarantined || job.pc == DownloadApproved {
      hide Effect, Solo;
    } else {
      hide DocSound, JobSound, Fetch;
    }
  }

  // What a row write does to a document that has not ended, and to the history.
  lemma RowsStayOff(db: Db, job: Job)
    requires Resident(db, job) && Effect(db, job).Some? && (job.pc == Scan || job.pc == Resume || job.pc == Recover)
    requires db.processing[job.documentId].state != StNeedsReview && db.processing[job.documentId].state != StBlocked
    ensures var db' := Effect(db, job).value;
      job.documentId < |db'.processing| && db'.compensated == db.compensated
      && db'.processing[job.documentId].state != StNeedsReview && db'.processing[job.documentId].state != StBlocked
  {
    hide BlockTx, PromoteTx, UndoPutStep, FinishTx;
  }

  lemma RowsKeepHistory(db: Db, job: Job)
    requires Resident(db, job) && Effect(db, job).Some? && !WritesObject(job.pc)
    ensures Effect(db, job).value.compensated == db.compensated
  {
    if job.pc == Recover { RecoverEffect(db, job); } else { hide PromoteTx, UndoPutStep, ManualReviewTx, ResetTx; }
  }

  lemma LostRows(db: Db, svc: Services, job: Job, fault: Fault)
    requires Ready(db, svc, job) && Solo(db, job) && LostIsOff(db, job) && !Idle(job.pc) && !WritesObject(job.pc)
    ensures var (db', job') := Exec(db, svc, job, fault); LostIsOff(db', job')
  {
    SoloStays(db, svc, job, fault);
    WriteGoes(db, svc, job, fault);
    if Effect(db, job).Some? {
      RowsKeepHistory(db, job);
      if job.documentId in db.compensated { RowsStayOff(db, job); }
    }
    hide Solo, DocSound, JobSound, Effect, Exec;
  }

  lemma LostObjects(db: Db, svc: Services, job: Job, fault: Fault)
    requires Ready(db, svc, job) && Solo(db, job) && LostIsOff(db, job) && WritesObject(job.pc)
    ensures var (db', job') := Exec(db, svc, job, fault); LostIsOff(db', job')
  {
    hide FindDuplicate, BlockTx, Progress, Fetch, ManualReviewTx, ResetTx, FinishTx;
  }

  lemma {:induction false} LostStaysOff(db: Db, svc: Services, job: Job, script: Pc -> Fault)
    requires Ready(db, svc, job) && Solo(db, job) && LostIsOff(db, job)
    ensures var db' := RunJob(db, svc, job, script);
      Sound(db', svc, job.documentId)
      && (job.documentId in db'.compensated ==> !Reaches(db', svc, job.documentId))
    decreases Rank(job.pc)
  {
    RunIsSound(db, svc, job, script);
    hide Exec, DocSound, JobSound, Solo;
    if job.pc != Done {
      hide OffTrack, LostIsOff, ViewOf, Expected;
      var fault := script(job.pc);
      var (db', job') := Exec(db, svc, job, fault);
      if Idle(job.pc) { LostIdle(db, svc, job, fault); }
      else if WritesObject(job.pc) { LostObjects(db, svc, job, fault); }
      else { LostRows(db, svc, job, fault); }
      StepIsSound(db, svc, job, fault);
      LostStaysOff(db', svc, job', script);
    }
  }

  // ---------------------------------------------------------------- how an object is lost

  predicate TookEffect(fault: Fault) { fault == NoFault || fault == LostAck }

  // The promote commit took effect unacknowledged, the ROLLBACK after it was acknowledged all the same, and the
  // compensating delete took effect.
  predicate LosesFrom(pc: Pc, clean: bool, script: Pc -> Fault)
    decreases Rank(pc)
  {
    match pc
    case Scan => script(Scan) == NoFault && LosesFrom(DownloadQuarantined, clean, script)
    case DownloadQuarantined => script(DownloadQuarantined) == NoFault && LosesFrom(ScanFile, clean, script)
    case ScanFile => script(ScanFile) == NoFault && clean && LosesFrom(Put, clean, script)
    case Put => script(Put) == NoFault && LosesFrom(Connect, clean, script)
    case Connect => script(Connect) == NoFault && LosesFrom(Promote, clean, script)
    case Promote => script(Promote) == LostAck && script(Rollback) == NoFault && TookEffect(script(UndoPut))
    case _ => false
  }

  ghost predicate Loses(db: Db, svc: Services, job: Job, script: Pc -> Fault)
    requires Resident(db, job)
  {
    var doc := db.documents[job.documentId];
    var clean := svc.clean(doc.uploaded);
    match job.pc
    case Load =>
      script(Load) == NoFault && !Terminal(db.processing[job.documentId].state)
      && doc.storage == InQuarantine && LosesFrom(Scan, clean, script)
    case Rollback =>
      doc.approvedKey == Some(job.key) && script(Rollback) == NoFault && TookEffect(script(UndoPut))
    case UndoPut => doc.approvedKey == Some(job.key) && TookEffect(script(UndoPut))
    case _ => LosesFrom(job.pc, clean, script)
  }

  ghost predicate LostOrLoses(db: Db, svc: Services, job: Job, script: Pc -> Fault)
    requires Resident(db, job)
  {
    job.documentId in db.compensated || Loses(db, svc, job, script)
  }

  lemma LosesFetch(db: Db, svc: Services, job: Job, script: Pc -> Fault)
    requires Ready(db, svc, job) && Solo(db, job) && LostIsOff(db, job)
    requires job.pc == Load || job.pc == DownloadQuarantined || job.pc == DownloadApproved
    ensures var (db', job') := Exec(db, svc, job, script(job.pc));
      db' == db && Resident(db, job') && (LostOrLoses(db, svc, job, script) <==> LostOrLoses(db, svc, job', script))
  {
    hide Effect;
  }

  lemma LosesPure(db: Db, svc: Services, job: Job, script: Pc -> Fault)
    requires Ready(db, svc, job) && Solo(db, job) && Idle(job.pc) && job.pc != Done
    requires job.pc != Load && job.pc != DownloadQuarantined && job.pc != DownloadApproved
    ensures var (db', job') := Exec(db, svc, job, script(job.pc));
      db' == db && Resident(db, job') && (LostOrLoses(db, svc, job, script) <==> LostOrLoses(db, svc, job', script))
  {
    hide DocSound, Fetch, BlockTx, PromoteTx, UndoPutStep, FinishTx, ManualReviewTx, ResetTx, Progress, Solo;
  }

  lemma LosesIdle(db: Db, svc: Services, job: Job, script: Pc -> Fault)
    requires Ready(db, svc, job) && Solo(db, job) && LostIsOff(db, job) && Idle(job.pc) && job.pc != Done
    ensures var (db', job') := Exec(db, svc, job, script(job.pc));
      Resident(db', job') && (LostOrLoses(db, svc, job, script) <==> LostOrLoses(db', svc, job', script))
  {
    hide Exec, LostOrLoses, Ready, Solo, LostIsOff;
    if job.pc == Load || job.pc == DownloadQuarantined || job.pc == DownloadApproved {
      LosesFetch(db, svc, job, script);
    } else {
      LosesPure(db, svc, job, script);
    }
  }

  lemma LosesRows(db: Db, svc: Services, job: Job, script: Pc -> Fault)
    requires Ready(db, svc, job) && Solo(db, job) && !Idle(job.pc) && !WritesObject(job.pc)
    ensures var (db', job') := Exec(db, svc, job, script(job.pc));
      Resident(db', job') && (LostOrLoses(db, svc, job, script) <==> LostOrLoses(db', svc, job', script))
  {
    StepIsSound(db, svc, job, script(job.pc));
    SoloWriteAccepted(db, svc, job);
    WriteGoes(db, svc, job, script(job.pc));
    if Effect(db, job).Some? { RowsKeepHistory(db, job); }
    hide Solo, DocSound, JobSound, Effect, Exec;
  }

  // What an object write does to the row's key and to the history.
  lemma ObjectsKeepRow(db: Db, svc: Services, job: Job)
    requires Ready(db, svc, job) && Solo(db, job) && WritesObject(job.pc)
    ensures Effect(db, job).Some?
    ensures var d := job.documentId;
      var db' := Effect(db, job).value;
      db'.compensated == (if job.pc == UndoPut && db.documents[d].approvedKey == Some(job.key)
                          then db.compensated + {d} else db.compensated)
      && (job.pc == Promote ==>
           db.documents[d].approvedKey != Some(job.key) && db'.documents[d].approvedKey == Some(job.key))
  {
    SoloWriteAccepted(db, svc, job);
    hide FindDuplicate, DocSound, BlockTx, Progress, ManualReviewTx, ResetTx, FinishTx;
  }

  lemma LosesObjects(db: Db, svc: Services, job: Job, script: Pc -> Fault)
    requires Ready(db, svc, job) && Solo(db, job) && WritesObject(job.pc)
    ensures var (db', job') := Exec(db, svc, job, script(job.pc));
      Resident(db', job') && (LostOrLoses(db, svc, job, script) <==> LostOrLoses(db', svc, job', script))
  {
    StepIsSound(db, svc, job, script(job.pc));
    ObjectsKeepRow(db, svc, job);
    WriteGoes(db, svc, job, script(job.pc));
    hide Solo, DocSound, JobSound, Effect, Exec;
  }

  /** A delivery loses the stored object exactly when its script does. */
  lemma {:induction false} LostExactly(db: Db, svc: Services, job: Job, script: Pc -> Fault)
    requires Ready(db, svc, job) && Solo(db, job) && LostIsOff(db, job)
    ensures job.documentId in RunJob(db, svc, job, script).compensated <==> LostOrLoses(db, svc, job, script)
    decreases Rank(job.pc)
  {
    if job.pc != Done {
      hide Exec, DocSound, JobSound, Solo, OffTrack, Loses, LostIsOff, LostOrLoses;
      var fault := script(job.pc);
      var (db', job') := Exec(db, svc, job, fault);
      if Idle(job.pc) {
        LosesIdle(db, svc, job, script);
        LostIdle(db, svc, job, fault);
      } else if WritesObject(job.pc) {
        LosesObjects(db, svc, job, script);
        LostObjects(db, svc, job, fault);
      } else {
        LosesRows(db, svc, job, script);
        LostRows(db, svc, job, fault);
      }
      StepIsSound(db, svc, job, fault);
      LostExactly(db', svc, job', script);
    }
  }
}
