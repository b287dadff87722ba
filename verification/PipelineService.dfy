/** InvoicePipeline.process over the tenant database and the buckets, with a script of failures. */
module PipelineServices {
  import opened Basics
  import opened Schema
  import opened Ingest
  import opened IngestProofs
  import opened Database

  // How an await ends for its caller.
  datatype Ending = Acknowledged | Threw | Died

  ghost predicate Awaited(before: Db, written: Option<Db>, fault: Fault, after: Db, end: Ending) {
    if fault == Crashed then after == before && end == Died
    else end != Died && (after, end == Acknowledged) == Await(before, written, fault)
  }

  function Continue(job: Job, end: Ending): Job {
    job.(pc := match end case Acknowledged => NextOf(job.pc) case Threw => FailedOf(job.pc) case Died => Done)
  }

  lemma ObjectsStayResident(db: Db, job: Job)
    requires Resident(db, job) && Effect(db, job).Some? && WritesObject(job.pc)
    ensures Resident(Effect(db, job).value, job)
  {
    hide FindDuplicate, BlockTx, FinishTx, ManualReviewTx, ResetTx, Ingest.Progress;
  }

  lemma RowsStayResident(db: Db, job: Job)
    requires Resident(db, job) && Effect(db, job).Some? && !WritesObject(job.pc)
    ensures Resident(Effect(db, job).value, job)
  {
    if job.pc == Recover {
      RecoverEffect(db, job);
      hide Effect;
    } else {
      hide PromoteTx, UndoPutStep, ManualReviewTx, ResetTx;
    }
  }

  lemma EffectStaysResident(db: Db, job: Job)
    requires Resident(db, job) && Effect(db, job).Some?
    ensures Resident(Effect(db, job).value, job)
  {
    hide Effect, Resident;
    if WritesObject(job.pc) { ObjectsStayResident(db, job); } else { RowsStayResident(db, job); }
  }

  // One await of the code is one step of the run.
  lemma AwaitIsStep(db: Db, svc: Services, job: Job, script: Pc -> Fault, after: Db, end: Ending)
    requires Resident(db, job) && (job.pc == Connect || job.pc == Rollback || !Idle(job.pc))
    requires Awaited(db, Effect(db, job), script(job.pc), after, end)
    ensures RunJob(db, svc, job, script) == RunJob(after, svc, Continue(job, end), script)
    ensures Resident(after, job)
  {
    if Effect(db, job).Some? { EffectStaysResident(db, job); }
    hide Effect;
    assert Exec(db, svc, job, script(job.pc)) == (after, Continue(job, end));
  }

  lemma FetchIsStep(
      db: Db, svc: Services, job: Job, script: Pc -> Fault, bucket: map<nat, Bytes>, key: Option<nat>, end: Ending,
      next: Job)
    requires Resident(db, job)
    requires if job.pc == DownloadQuarantined then bucket == db.quarantine
      && key == Some(db.documents[job.documentId].quarantineKey)
             else job.pc == DownloadApproved && bucket == db.approved && key == job.source
    requires (end == Died <==> script(job.pc) == Crashed)
    requires end == Acknowledged <==> script(job.pc) == NoFault && key.Some? && key.value in bucket
    requires next == if end == Acknowledged
      then job.(file := bucket[key.value], pc := if job.pc == DownloadQuarantined then ScanFile else Ocr)
                     else job.(pc := if end == Died then Done else Recover)
    ensures RunJob(db, svc, job, script) == RunJob(db, svc, next, script)
  {
  }

  lemma ScanIsStep(db: Db, svc: Services, job: Job, script: Pc -> Fault, next: Job)
    requires Resident(db, job) && job.pc == ScanFile
    requires next == job.(pc := if script(ScanFile) == Crashed then Done
      else if script(ScanFile) != NoFault then Recover
                               else if svc.clean(job.file) then Put else Block)
    ensures RunJob(db, svc, job, script) == RunJob(db, svc, next, script)
  {
  }

  lemma OcrIsStep(db: Db, svc: Services, job: Job, script: Pc -> Fault, next: Job)
    requires Resident(db, job) && job.pc == Ocr
    requires next == if script(Ocr) == NoFault
                     then job.(suggestions := svc.ocr(job.file, db.documents[job.documentId].mime), pc := Finish)
                     else job.(pc := if script(Ocr) == Crashed then Done else Recover)
    ensures RunJob(db, svc, job, script) == RunJob(db, svc, next, script)
  {
  }

  lemma LoadIsStep(db: Db, svc: Services, job: Job, script: Pc -> Fault, next: Job)
    requires job.pc == Load
    requires next ==
      if !Resident(db, job) || script(Load) != NoFault
        || Terminal(db.processing[job.documentId].state) then job.(pc := Done)
      else if db.documents[job.documentId].storage == InQuarantine then job.(pc := Scan)
      else job.(pc := Resume, source := db.documents[job.documentId].approvedKey)
    ensures RunJob(db, svc, job, script) == RunJob(db, svc, next, script)
  {
  }

  function Joined(chunks: seq<Bytes>): Bytes {
    if chunks == [] then [] else Joined(chunks[..|chunks| - 1]) + chunks[|chunks| - 1]
  }

  /** hashFile: however the stream is cut into chunks, the digest is that of the whole file. */
  method HashFile(chunks: seq<Bytes>) returns (digest: Digest)
    ensures digest == OfBytes(Joined(chunks))
  {
    var hashed: Bytes := [];
    for i := 0 to |chunks|
      invariant hashed == Joined(chunks[..i])
    {
      assert chunks[..i + 1][..i] == chunks[..i];
      hashed := hashed + chunks[i];
    }
    assert chunks[..|chunks|] == chunks;
    digest := OfBytes(hashed);
  }

  class InvoicePipeline {
    const database: TenantDatabase
    const svc: Services

    constructor (database: TenantDatabase, svc: Services)
      ensures this.database == database && this.svc == svc
    {
      this.database, this.svc := database, svc;
    }

    // ---------------------------------------------------------------- statements

    function Answer(fault: Fault): Ending { if fault == NoFault then Acknowledged else Threw }

    method Progress(
        d: Id, state: ProcessingState, progress: nat, scan: Option<ScanResult>, fault: Fault) returns (end: Ending)
      requires d < |database.processing|
      modifies database
      ensures Awaited(old(database.Rows()), Ingest.Progress(old(database.Rows()), d, state, progress, scan), fault,
        database.Rows(), end)
    {
      if fault == Crashed { return Died; }
      var p := database.processing[d];
      if fault == Failed || !TransitionAccepted(p.state, state) { return Threw; }
      database.processing := database.processing[d := p.(
        state := state, progress := progress, attempts := p.attempts + 1, scan := Or(scan, p.scan))];
      return Answer(fault);
    }

    method BlockDocument(job: Job, fault: Fault) returns (end: Ending)
      requires Resident(database.Rows(), job)
      modifies database
      ensures Awaited(old(database.Rows()), BlockTx(old(database.Rows()), job), fault, database.Rows(), end)
    {
      if fault == Crashed { return Died; }
      var saved, d := database.Rows(), job.documentId;
      database.documents := database.documents[d := database.documents[d].(storage := InBlocked)];
      if fault == Failed || !TransitionAccepted(database.processing[d].state, StBlocked) {
        database.Rollback(saved);
        return Threw;
      }
      database.processing := database.processing[d := database.processing[d].(state := StBlocked, progress := 100,
        scan := Infected)];
      database.invoices := database.invoices[job.invoiceId := database.invoices[job.invoiceId].(status := Blocked)];
      return Answer(fault);
    }

    method PutApproved(key: nat, file: Bytes, fault: Fault) returns (end: Ending)
      modifies database
      ensures Awaited(old(database.Rows()),
        Some(old(database.Rows()).(approved := old(database.approved)[key := file])), fault, database.Rows(), end)
    {
      if fault == Crashed { return Died; }
      if fault == Failed { return Threw; }
      database.approved := database.approved[key := file];
      return Answer(fault);
    }

    method OpenConnection(fault: Fault) returns (end: Ending)
      ensures Awaited(database.Rows(), Some(database.Rows()), fault, database.Rows(), end)
    {
      if fault == Crashed { return Died; }
      return Answer(fault);
    }

    // ROLLBACK of a transaction that has already failed or committed: it changes no row.
    method SendRollback(fault: Fault) returns (end: Ending)
      ensures Awaited(database.Rows(), Some(database.Rows()), fault, database.Rows(), end)
    {
      if fault == Crashed { return Died; }
      return Answer(fault);
    }

    method PromoteDocument(job: Job, fault: Fault) returns (end: Ending)
      requires Resident(database.Rows(), job)
      modifies database
      ensures Awaited(old(database.Rows()), PromoteTx(old(database.Rows()), job), fault, database.Rows(), end)
    {
      if fault == Crashed { return Died; }
      var d, sha256 := job.documentId, OfBytes(job.file);
      var before := database.documents[d];
      var duplicate := FindDuplicate(database.documents, sha256, d);
      var document := before.(approvedKey := Some(job.key), sha256 := Some(sha256), storage := InApproved,
        duplicateOf := duplicate);
      if fault == Failed || !IdentityAccepted(before, document)
        || !TransitionAccepted(database.processing[d].state, StParsed)
      {
        return Threw;
      }
      database.documents := database.documents[d := document];
      database.processing := database.processing[d := database.processing[d].(state := StParsed, progress := 75,
        scan := Clean)];
      database.promotions := database.promotions + [d];
      return Answer(fault);
    }

    method DeleteApproved(job: Job, fault: Fault) returns (end: Ending)
      requires Resident(database.Rows(), job)
      modifies database
      ensures Awaited(old(database.Rows()), Some(UndoPutStep(old(database.Rows()), job)), fault, database.Rows(), end)
    {
      if fault == Crashed { return Died; }
      if fault == Failed { return Threw; }
      database.approved := database.approved - {job.key};
      if database.documents[job.documentId].approvedKey == Some(job.key) {
        database.compensated := database.compensated + {job.documentId};
      }
      return Answer(fault);
    }

    method DeleteQuarantined(key: nat, fault: Fault) returns (end: Ending)
      modifies database
      ensures Awaited(old(database.Rows()),
        Some(old(database.Rows()).(quarantine := old(database.quarantine) - {key})), fault, database.Rows(), end)
    {
      if fault == Crashed { return Died; }
      if fault == Failed { return Threw; }
      database.quarantine := database.quarantine - {key};
      return Answer(fault);
    }

    method FinishDocument(job: Job, fault: Fault) returns (end: Ending)
      requires Resident(database.Rows(), job)
      modifies database
      ensures Awaited(old(database.Rows()), FinishTx(old(database.Rows()), job), fault, database.Rows(), end)
    {
      if fault == Crashed { return Died; }
      var d := job.documentId;
      var p := database.processing[d];
      if fault == Failed || !TransitionAccepted(p.state, StNeedsReview) { return Threw; }
      database.processing := database.processing[d := p.(state := StNeedsReview, progress := 100,
        suggestions := Some(job.suggestions))];
      database.invoices := database.invoices[job.invoiceId := database.invoices[job.invoiceId].(status := NeedsReview)];
      return Answer(fault);
    }

    method SendToManualReview(job: Job, fault: Fault) returns (end: Ending)
      requires Resident(database.Rows(), job)
      modifies database
      ensures Awaited(old(database.Rows()), ManualReviewTx(old(database.Rows()), job), fault, database.Rows(), end)
    {
      if fault == Crashed { return Died; }
      var d := job.documentId;
      var p := database.processing[d];
      if fault == Failed { return Threw; }
      if p.state != StNeedsReview && p.state != StBlocked {
        if !TransitionAccepted(p.state, StManualReview) { return Threw; }
        database.processing := database.processing[d := p.(
          state := StManualReview, progress := 100, scan := if p.scan == ScanPending then ScanError else p.scan)];
      }
      var invoice := database.invoices[job.invoiceId];
      if invoice.status == InvoiceStatus.Processing {
        database.invoices := database.invoices[job.invoiceId := invoice.(status := ManualReview)];
      }
      return Answer(fault);
    }

    method ResetForRetry(job: Job, fault: Fault) returns (end: Ending)
      requires Resident(database.Rows(), job)
      modifies database
      ensures Awaited(old(database.Rows()), ResetTx(old(database.Rows()), job), fault, database.Rows(), end)
    {
      if fault == Crashed { return Died; }
      var d := job.documentId;
      var p := database.processing[d];
      var promoted := database.documents[d].storage == InApproved;
      var state := if promoted then StParsed else StQuarantined;
      if fault == Failed || !TransitionAccepted(p.state, state) { return Threw; }
      database.processing := database.processing[d := p.(state := state, progress := if promoted then 75 else 10)];
      return Answer(fault);
    }

    // storage.download into the work file.
    method Download(bucket: map<nat, Bytes>, key: Option<nat>, fault: Fault) returns (end: Ending, file: Bytes)
      ensures end == Died <==> fault == Crashed
      ensures end == Acknowledged <==> fault == NoFault && key.Some? && key.value in bucket
      ensures end == Acknowledged ==> file == bucket[key.value]
    {
      if fault == Crashed { return Died, []; }
      if fault != NoFault || key.None? || key.value !in bucket { return Threw, []; }
      return Acknowledged, bucket[key.value];
    }

    // ---------------------------------------------------------------- process

    // From the first progress write to the scan verdict.
    method ScanQuarantined(start: Job, script: Pc -> Fault) returns (job: Job)
      requires Resident(database.Rows(), start) && start.pc == Scan
      modifies database
      ensures Resident(database.Rows(), job) && job.pc in {Put, Block, Recover, Done}
      ensures RunJob(old(database.Rows()), svc, start, script) == RunJob(database.Rows(), svc, job, script)
    {
      hide RunJob;
      job := start;
      ghost var before := database.Rows();
      var end := Progress(job.documentId, StScanning, 25, None, script(Scan));
      AwaitIsStep(before, svc, job, script, database.Rows(), end);
      job := Continue(job, end);
      if end != Acknowledged { return; }
      var file;
      var key := Some(database.documents[job.documentId].quarantineKey);
      end, file := Download(database.quarantine, key, script(DownloadQuarantined));
      var next := if end == Acknowledged then job.(file := file, pc := ScanFile)
        else job.(pc := if end == Died then Done else Recover);
      FetchIsStep(database.Rows(), svc, job, script, database.quarantine, key, end, next);
      job := next;
      if end != Acknowledged { return; }
      var fault := script(ScanFile);
      next := job.(pc := if fault == Crashed then Done else if fault != NoFault then Recover
                         else if svc.clean(job.file) then Put else Block);
      ScanIsStep(database.Rows(), svc, job, script, next);
      job := next;
    }

    method PutAndConnect(start: Job, script: Pc -> Fault) returns (job: Job)
      requires Resident(database.Rows(), start) && start.pc == Put
      modifies database
      ensures Resident(database.Rows(), job) && job.pc in {Promote, Recover, Done}
      ensures RunJob(old(database.Rows()), svc, start, script) == RunJob(database.Rows(), svc, job, script)
    {
      hide RunJob, Awaited;
      job := start;
      ghost var before := database.Rows();
      var end := PutApproved(job.key, job.file, script(Put));
      AwaitIsStep(before, svc, job, script, database.Rows(), end);
      job := Continue(job, end);
      if end != Acknowledged { return; }
      end := OpenConnection(script(Connect));
      AwaitIsStep(database.Rows(), svc, job, script, database.Rows(), end);
      job := Continue(job, end);
    }

    method DropQuarantined(start: Job, script: Pc -> Fault) returns (job: Job)
      requires Resident(database.Rows(), start) && start.pc == DropQuarantine
      modifies database
      ensures Resident(database.Rows(), job) && job.pc in {Ocr, Recover, Done}
      ensures RunJob(old(database.Rows()), svc, start, script) == RunJob(database.Rows(), svc, job, script)
    {
      hide RunJob, Awaited;
      ghost var before := database.Rows();
      var end := DeleteQuarantined(database.documents[start.documentId].quarantineKey, script(DropQuarantine));
      AwaitIsStep(before, svc, start, script, database.Rows(), end);
      job := Continue(start, end);
    }

    // From the put of the clean bytes to the delete of the quarantined ones.
    method StoreApproved(start: Job, script: Pc -> Fault) returns (job: Job)
      requires Resident(database.Rows(), start) && start.pc == Put
      modifies database
      ensures Resident(database.Rows(), job) && job.pc in {Ocr, Recover, Done}
      ensures RunJob(old(database.Rows()), svc, start, script) == RunJob(database.Rows(), svc, job, script)
    {
      hide RunJob, Resident;
      job := PutAndConnect(start, script);
      if job.pc == Promote { job := PromoteOrUndo(job, script); }
      if job.pc == DropQuarantine { job := DropQuarantined(job, script); }
    }

    // The promote transaction and its catch.
    method PromoteOrUndo(start: Job, script: Pc -> Fault) returns (job: Job)
      requires Resident(database.Rows(), start) && start.pc == Promote
      modifies database
      ensures Resident(database.Rows(), job) && job.pc in {DropQuarantine, Recover, Done}
      ensures RunJob(old(database.Rows()), svc, start, script) == RunJob(database.Rows(), svc, job, script)
    {
      hide RunJob, Awaited;
      ghost var before := database.Rows();
      var end := PromoteDocument(start, script(Promote));
      AwaitIsStep(before, svc, start, script, database.Rows(), end);
      job := Continue(start, end);
      if end == Threw { job := UndoPromote(job, script); }
    }

    // The catch: the ROLLBACK and, only when that is acknowledged, the compensating delete.
    method UndoPromote(start: Job, script: Pc -> Fault) returns (job: Job)
      requires Resident(database.Rows(), start) && start.pc == Rollback
      modifies database
      ensures Resident(database.Rows(), job) && job.pc in {Recover, Done}
      ensures RunJob(old(database.Rows()), svc, start, script) == RunJob(database.Rows(), svc, job, script)
    {
      hide RunJob, Awaited;
      ghost var before := database.Rows();
      var end := SendRollback(script(Rollback));
      AwaitIsStep(before, svc, start, script, database.Rows(), end);
      job := Continue(start, end);
      if end != Acknowledged { return; }
      end := DeleteApproved(job, script(UndoPut));
      AwaitIsStep(before, svc, job, script, database.Rows(), end);
      job := Continue(job, end);
    }

    // The else branch: the bytes are already approved.
    method ResumeApproved(start: Job, script: Pc -> Fault) returns (job: Job)
      requires Resident(database.Rows(), start) && start.pc == Resume
      modifies database
      ensures Resident(database.Rows(), job) && job.pc in {Ocr, Recover, Done}
      ensures RunJob(old(database.Rows()), svc, start, script) == RunJob(database.Rows(), svc, job, script)
    {
      hide RunJob;
      job := start;
      ghost var before := database.Rows();
      var end := Progress(job.documentId, StParsed, 75, Some(Clean), script(Resume));
      AwaitIsStep(before, svc, job, script, database.Rows(), end);
      job := Continue(job, end);
      if end != Acknowledged { return; }
      var file;
      end, file := Download(database.approved, job.source, script(DownloadApproved));
      var next := if end == Acknowledged then job.(file := file, pc := Ocr)
        else job.(pc := if end == Died then Done else Recover);
      FetchIsStep(database.Rows(), svc, job, script, database.approved, job.source, end, next);
      job := next;
    }

    // OCR and the closing transaction.
    method ExtractAndFinish(start: Job, script: Pc -> Fault) returns (job: Job)
      requires Resident(database.Rows(), start) && start.pc == Ocr
      modifies database
      ensures Resident(database.Rows(), job) && job.pc in {Recover, Done}
      ensures RunJob(old(database.Rows()), svc, start, script) == RunJob(database.Rows(), svc, job, script)
    {
      hide RunJob;
      job := start;
      var fault := script(Ocr);
      var next := if fault == NoFault
                  then job.(suggestions := svc.ocr(job.file, database.documents[job.documentId].mime), pc := Finish)
                  else job.(pc := if fault == Crashed then Done else Recover);
      OcrIsStep(database.Rows(), svc, job, script, next);
      job := next;
      if fault != NoFault { return; }
      ghost var before := database.Rows();
      var end := FinishDocument(job, script(Finish));
      AwaitIsStep(before, svc, job, script, database.Rows(), end);
      job := Continue(job, end);
    }

    // The catch of process.
    method RecoverJob(job: Job, script: Pc -> Fault)
      requires Resident(database.Rows(), job) && job.pc == Recover
      modifies database
      ensures database.Rows() == RunJob(old(database.Rows()), svc, job, script)
    {
      ghost var before := database.Rows();
      var end;
      if job.finalAttempt { end := SendToManualReview(job, script(Recover)); }
      else { end := ResetForRetry(job, script(Recover)); }
      AwaitIsStep(before, svc, job, script, database.Rows(), end);
      assert Continue(job, end).pc == Done;
    }

    method BlockJob(start: Job, script: Pc -> Fault) returns (job: Job)
      requires Resident(database.Rows(), start) && start.pc == Block
      modifies database
      ensures Resident(database.Rows(), job) && job.pc in {Recover, Done}
      ensures RunJob(old(database.Rows()), svc, start, script) == RunJob(database.Rows(), svc, job, script)
    {
      hide RunJob;
      ghost var before := database.Rows();
      var end := BlockDocument(start, script(Block));
      AwaitIsStep(before, svc, start, script, database.Rows(), end);
      job := Continue(start, end);
    }

    method LoadJob(start: Job, script: Pc -> Fault) returns (job: Job)
      requires start.pc == Load
      ensures job.pc in {Scan, Resume, Done} && (job.pc != Done ==> Resident(database.Rows(), job))
      ensures RunJob(database.Rows(), svc, start, script) == RunJob(database.Rows(), svc, job, script)
    {
      job := start.(pc := Done);
      if Resident(database.Rows(), start) && script(Load) == NoFault
        && !Terminal(database.processing[start.documentId].state) {
        var document := database.documents[start.documentId];
        job := if document.storage == InQuarantine then start.(pc := Scan)
          else start.(pc := Resume, source := document.approvedKey);
      }
      hide RunJob;
      LoadIsStep(database.Rows(), svc, start, script, job);
    }

    // The try up to the OCR: by way of quarantine, or from where an earlier delivery left off.
    method Acquire(start: Job, script: Pc -> Fault) returns (job: Job)
      requires Resident(database.Rows(), start) && start.pc in {Scan, Resume}
      modifies database
      ensures Resident(database.Rows(), job) && job.pc in {Ocr, Recover, Done}
      ensures RunJob(old(database.Rows()), svc, start, script) == RunJob(database.Rows(), svc, job, script)
    {
      hide RunJob, Resident;
      if start.pc == Resume {
        job := ResumeApproved(start, script);
      } else {
        job := ScanQuarantined(start, script);
        if job.pc == Block {
          job := BlockJob(job, script);
        } else if job.pc == Put {
          job := StoreApproved(job, script);
        }
      }
    }

    method RunLoaded(start: Job, script: Pc -> Fault)
      requires start.pc == Load
      modifies database
      ensures database.Rows() == RunJob(old(database.Rows()), svc, start, script)
    {
      hide RunJob, Resident;
      var job := LoadJob(start, script);
      if job.pc != Done { job := Acquire(job, script); }
      if job.pc == Ocr { job := ExtractAndFinish(job, script); }
      Conclude(job, script);
    }

    /** One delivery: exactly the run of its awaits under the script. */
    method Process(documentId: Id, invoiceId: Id, finalAttempt: bool, script: Pc -> Fault)
      modifies database
      ensures var before := old(database.Rows());
        var job := NewJob(before, documentId, invoiceId, finalAttempt);
        database.Rows() == RunJob(before.(nextKey := before.nextKey + 1), svc, job, script)
    {
      hide RunJob;
      var job := NewJob(database.Rows(), documentId, invoiceId, finalAttempt);
      database.nextKey := database.nextKey + 1;
      RunLoaded(job, script);
    }

    method Conclude(job: Job, script: Pc -> Fault)
      requires job.pc in {Recover, Done} && (job.pc == Recover ==> Resident(database.Rows(), job))
      modifies database
      ensures database.Rows() == RunJob(old(database.Rows()), svc, job, script)
    {
      if job.pc == Recover { RecoverJob(job, script); }
    }
  }
}
