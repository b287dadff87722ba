/** When deliveries end a document, and which of their writes a trigger rejects, as conditions on what fails. */
module IngestEndings {
  import opened Schema
  import opened Ingest
  import opened IngestInvariant
  import opened IngestProofs
  import opened IngestRuns
  import opened IngestRetries

  // ---------------------------------------------------------------- when a document ends

  // The closing commit, Block or Finish, is reached and takes effect. kept: the stored object is still there.
  predicate ClosesFrom(pc: Pc, clean: bool, kept: bool, script: Pc -> Fault)
    decreases Rank(pc)
  {
    match pc
    case Scan => script(Scan) == NoFault && ClosesFrom(DownloadQuarantined, clean, kept, script)
    case DownloadQuarantined => script(DownloadQuarantined) == NoFault && kept
      && ClosesFrom(ScanFile, clean, kept, script)
    case ScanFile => script(ScanFile) == NoFault && ClosesFrom(if clean then Put else Block, clean, kept, script)
    case Block => TookEffect(script(Block))
    case Put => script(Put) == NoFault && ClosesFrom(Connect, clean, kept, script)
    case Connect => script(Connect) == NoFault && ClosesFrom(Promote, clean, kept, script)
    case Promote => script(Promote) == NoFault && ClosesFrom(DropQuarantine, clean, kept, script)
    case DropQuarantine => script(DropQuarantine) == NoFault && ClosesFrom(Ocr, clean, kept, script)
    case Resume => script(Resume) == NoFault && ClosesFrom(DownloadApproved, clean, kept, script)
    case DownloadApproved => script(DownloadApproved) == NoFault && kept && ClosesFrom(Ocr, clean, kept, script)
    case Ocr => script(Ocr) == NoFault && ClosesFrom(Finish, clean, kept, script)
    case Finish => TookEffect(script(Finish))
    case _ => false
  }

  ghost predicate Closes(db: Db, svc: Services, job: Job, script: Pc -> Fault)
    requires Resident(db, job)
  {
    var doc := db.documents[job.documentId];
    var clean, kept := svc.clean(doc.uploaded), job.documentId !in db.compensated;
    if job.pc == Load then
      script(Load) == NoFault && !Terminal(db.processing[job.documentId].state)
      && ClosesFrom(if doc.storage == InQuarantine then Scan else Resume, clean, kept, script)
    else ClosesFrom(job.pc, clean, kept, script)
  }

  // Whether the delivery closes is the same before and after each of its awaits that is not yet the closing one.
  lemma ClosesFetch(db: Db, svc: Services, job: Job, script: Pc -> Fault)
    requires Ready(db, svc, job) && Solo(db, job)
    requires job.pc == Load || job.pc == DownloadQuarantined || job.pc == DownloadApproved || job.pc == Done
    ensures var (db', job') := Exec(db, svc, job, script(job.pc));
      db' == db && job'.documentId == job.documentId
      && (Closes(db, svc, job, script) <==> Closes(db', svc, job', script))
      && (job'.pc == Recover ==> !Terminal(db.processing[job.documentId].state))
  {
    hide Effect;
  }

  lemma ClosesPure(db: Db, svc: Services, job: Job, script: Pc -> Fault)
    requires Ready(db, svc, job) && Solo(db, job)
    requires job.pc == ScanFile || job.pc == Connect || job.pc == Rollback || job.pc == Ocr
    ensures var (db', job') := Exec(db, svc, job, script(job.pc));
      db' == db && job'.documentId == job.documentId
      && (Closes(db, svc, job, script) <==> Closes(db', svc, job', script))
      && (job'.pc == Recover ==> !Terminal(db.processing[job.documentId].state))
  {
    hide DocSound, Fetch, BlockTx, PromoteTx, UndoPutStep, FinishTx, ManualReviewTx, ResetTx, Ingest.Progress;
  }

  lemma ClosesIdle(db: Db, svc: Services, job: Job, script: Pc -> Fault)
    requires Ready(db, svc, job) && Solo(db, job) && Idle(job.pc)
    ensures var (db', job') := Exec(db, svc, job, script(job.pc));
      Resident(db', job') && (Closes(db, svc, job, script) <==> Closes(db', svc, job', script))
      && (job'.pc == Recover ==> !Terminal(db'.processing[job.documentId].state))
  {
    hide Exec, DocSound, JobSound, Solo, Closes;
    if job.pc == ScanFile || job.pc == Connect || job.pc == Rollback || job.pc == Ocr {
      ClosesPure(db, svc, job, script);
    } else {
      ClosesFetch(db, svc, job, script);
    }
  }

  // Objects come and go while the document is under way; only a promotion leads on to its closing commit.
  lemma ClosesObjects(db: Db, svc: Services, job: Job, script: Pc -> Fault)
    requires Ready(db, svc, job) && Solo(db, job) && WritesObject(job.pc)
    ensures var (db', job') := Exec(db, svc, job, script(job.pc));
      Resident(db', job') && (Closes(db, svc, job, script) <==> Closes(db', svc, job', script))
      && (job'.pc == Recover ==> !Terminal(db'.processing[job.documentId].state))
  {
    ObjectsEndNothing(db, svc, job, script(job.pc));
    StepIsSound(db, svc, job, script(job.pc));
    ObjectsKeepRow(db, svc, job);
    WriteGoes(db, svc, job, script(job.pc));
    hide DocSound, JobSound, Effect, Solo, Exec;
  }

  lemma ClosesProgress(db: Db, svc: Services, job: Job, script: Pc -> Fault)
    requires Ready(db, svc, job) && Solo(db, job) && (job.pc == Scan || job.pc == Resume)
    ensures var (db', job') := Exec(db, svc, job, script(job.pc));
      Resident(db', job') && (Closes(db, svc, job, script) <==> Closes(db', svc, job', script))
      && (job'.pc == Recover ==> !Terminal(db'.processing[job.documentId].state))
  {
    SoloWriteAccepted(db, svc, job);
    hide DocSound, JobSound, BlockTx, PromoteTx, UndoPutStep, Fetch, ManualReviewTx, ResetTx, FinishTx;
  }

  // The closing commit itself.
  lemma ClosesAtEnd(db: Db, svc: Services, job: Job, script: Pc -> Fault)
    requires Ready(db, svc, job) && Solo(db, job) && (job.pc == Block || job.pc == Finish)
    ensures var (db', job') := Exec(db, svc, job, script(job.pc));
      Resident(db', job') && !Terminal(db.processing[job.documentId].state)
      && (Terminal(db'.processing[job.documentId].state) <==> TookEffect(script(job.pc)))
      && job'.pc == if script(job.pc) == NoFault || script(job.pc) == Crashed then Done else Recover
  {
    SoloWriteAccepted(db, svc, job);
    hide DocSound, JobSound, PromoteTx, UndoPutStep, Ingest.Progress, Fetch, ManualReviewTx, ResetTx;
  }

  // The reset of a non-final failure takes nothing back and ends nothing.
  lemma ResetEndsNothing(db: Db, svc: Services, job: Job, fault: Fault)
    requires Ready(db, svc, job) && Solo(db, job) && job.pc == Recover && !job.finalAttempt
    ensures var (db', job') := Exec(db, svc, job, fault);
      Resident(db', job') && job'.pc == Done
      && (Terminal(db'.processing[job.documentId].state) <==> Terminal(db.processing[job.documentId].state))
  {
    hide JobSound, BlockTx, PromoteTx, UndoPutStep, Ingest.Progress, Fetch, ManualReviewTx, FinishTx;
  }

  // Between load and recovery a document has not ended.
  lemma UnderWay(db: Db, job: Job)
    requires Solo(db, job) && job.pc != Load && job.pc != Recover && job.pc != Done
    ensures !Terminal(db.processing[job.documentId].state)
  {
  }

  ghost predicate EndedOrCloses(db: Db, svc: Services, job: Job, script: Pc -> Fault)
    requires Resident(db, job)
  {
    Terminal(db.processing[job.documentId].state) || Closes(db, svc, job, script)
  }

  lemma LoadEndsNothing(db: Db, svc: Services, job: Job, fault: Fault)
    requires Resident(db, job) && Idle(job.pc)
    ensures Exec(db, svc, job, fault).0 == db
    ensures job.pc == Load && Terminal(db.processing[job.documentId].state) ==> Exec(db, svc, job, fault).1.pc == Done
  {
    hide BlockTx, PromoteTx, UndoPutStep, FinishTx, ManualReviewTx, ResetTx, Ingest.Progress;
  }

  lemma CloseStep(db: Db, svc: Services, job: Job, script: Pc -> Fault)
    requires Ready(db, svc, job) && Solo(db, job) && job.pc != Done && !job.finalAttempt
    ensures var (db', job') := Exec(db, svc, job, script(job.pc));
      Resident(db', job') && (EndedOrCloses(db, svc, job, script) <==> EndedOrCloses(db', svc, job', script))
  {
    var (db', job') := Exec(db, svc, job, script(job.pc));
    StepIsSound(db, svc, job, script(job.pc));
    if job.pc != Load && job.pc != Recover { UnderWay(db, job); }
    if job'.pc != Load && job'.pc != Recover && job'.pc != Done { UnderWay(db', job'); }
    hide Exec, DocSound, JobSound, Solo;
    if Idle(job.pc) {
      ClosesIdle(db, svc, job, script);
      LoadEndsNothing(db, svc, job, script(job.pc));
    } else if WritesObject(job.pc) {
      ClosesObjects(db, svc, job, script);
      ObjectsEndNothing(db, svc, job, script(job.pc));
    } else if job.pc == Scan || job.pc == Resume {
      ClosesProgress(db, svc, job, script);
      ProgressEndsNothing(db, svc, job, script(job.pc));
    } else if job.pc == Recover {
      ResetEndsNothing(db, svc, job, script(job.pc));
    } else {
      ClosesAtEnd(db, svc, job, script);
    }
  }

  lemma ObjectsEndNothing(db: Db, svc: Services, job: Job, fault: Fault)
    requires Ready(db, svc, job) && Solo(db, job) && WritesObject(job.pc)
    ensures !Terminal(Exec(db, svc, job, fault).0.processing[job.documentId].state)
  {
    hide FindDuplicate, DocSound, JobSound, BlockTx, Ingest.Progress, Fetch, ManualReviewTx, ResetTx, FinishTx;
  }

  lemma ProgressEndsNothing(db: Db, svc: Services, job: Job, fault: Fault)
    requires Ready(db, svc, job) && Solo(db, job) && (job.pc == Scan || job.pc == Resume)
    ensures !Terminal(Exec(db, svc, job, fault).0.processing[job.documentId].state)
  {
    hide DocSound, JobSound, BlockTx, PromoteTx, UndoPutStep, Fetch, ManualReviewTx, ResetTx, FinishTx;
  }

  /** A non-final delivery ends the document exactly when its closing commit is reached and takes effect. */
  lemma {:induction false} EndsExactly(db: Db, svc: Services, job: Job, script: Pc -> Fault)
    requires Ready(db, svc, job) && Solo(db, job) && !job.finalAttempt
    ensures var db' := RunJob(db, svc, job, script);
      job.documentId < |db'.processing|
      && (Terminal(db'.processing[job.documentId].state) <==> EndedOrCloses(db, svc, job, script))
    decreases Rank(job.pc)
  {
    hide Exec, DocSound, JobSound, Solo;
    if job.pc != Done {
      hide EndedOrCloses;
      CloseStep(db, svc, job, script);
      StepIsSound(db, svc, job, script(job.pc));
      var (db', job') := Exec(db, svc, job, script(job.pc));
      EndsExactly(db', svc, job', script);
    }
  }

  // ---------------------------------------------------------------- a run of attempts

  ghost predicate ClosesIn(db: Db, svc: Services, d: Id, script: Pc -> Fault)
    requires Sound(db, svc, d)
  {
    Closes(db.(nextKey := db.nextKey + 1), svc, NewJob(db, d, db.documents[d].invoiceId, false), script)
  }

  // Some delivery of the sequence closes.
  ghost predicate ClosesAmong(db: Db, svc: Services, d: Id, scripts: seq<Pc -> Fault>)
    requires Retriable(db, svc, d)
    decreases |scripts|
  {
    scripts != [] &&
    (ClosesIn(db, svc, d, scripts[0]) ||
     (DeliveryIsRetriable(db, svc, d, scripts[0]);
      ClosesAmong(Deliver(db, svc, d, false, scripts[0]), svc, d, scripts[1..])))
  }

  ghost predicate Ended(db: Db, d: Id) { d < |db.processing| && Terminal(db.processing[d].state) }

  lemma DeliveryEndsExactly(db: Db, svc: Services, d: Id, script: Pc -> Fault)
    requires Sound(db, svc, d)
    ensures Ended(Deliver(db, svc, d, false, script), d) <==> Ended(db, d) || ClosesIn(db, svc, d, script)
  {
    NewJobIsReady(db, svc, d, false);
    hide Exec, DocSound, JobSound, Solo, Closes;
    EndsExactly(db.(nextKey := db.nextKey + 1), svc, NewJob(db, d, db.documents[d].invoiceId, false), script);
  }

  lemma {:induction false} DeliveriesEndExactly(db: Db, svc: Services, d: Id, scripts: seq<Pc -> Fault>)
    requires Retriable(db, svc, d)
    ensures Ended(Deliveries(db, svc, d, scripts), d) <==> Ended(db, d) || ClosesAmong(db, svc, d, scripts)
    decreases |scripts|
  {
    assert Sound(db, svc, d);
    if scripts != [] {
      hide Retriable, Deliver, ClosesIn, Sound, Ended;
      DeliveryIsRetriable(db, svc, d, scripts[0]);
      DeliveryEndsExactly(db, svc, d, scripts[0]);
      DeliveriesEndExactly(Deliver(db, svc, d, false, scripts[0]), svc, d, scripts[1..]);
    }
  }

  // The worker survives the last attempt and its failure handler, when it is called, takes effect.
  ghost predicate Survives(script: Pc -> Fault) {
    (forall pc :: script(pc) != Crashed) && TookEffect(script(Recover))
  }

  lemma FinalIdleGoesOn(db: Db, svc: Services, job: Job, fault: Fault)
    requires Resident(db, job) && Idle(job.pc) && job.pc != Done && fault != Crashed
    requires job.pc == Load ==> fault == NoFault
    ensures var (db', job') := Exec(db, svc, job, fault);
      db' == db && (job'.pc == Done ==> Terminal(db.processing[job.documentId].state))
  {
    hide BlockTx, PromoteTx, UndoPutStep, FinishTx, ManualReviewTx, ResetTx, Ingest.Progress;
  }

  lemma FinalRecoveryEnds(db: Db, job: Job)
    requires Resident(db, job) && job.finalAttempt && job.pc == Recover
    ensures Effect(db, job).Some? ==> Terminal(Effect(db, job).value.processing[job.documentId].state)
  {
    hide BlockTx, PromoteTx, UndoPutStep, FinishTx, ResetTx, Ingest.Progress;
  }

  lemma FinalStepEnds(db: Db, svc: Services, job: Job, fault: Fault)
    requires Ready(db, svc, job) && Solo(db, job) && job.finalAttempt && job.pc != Done && fault != Crashed
    requires job.pc == Load ==> fault == NoFault
    requires job.pc == Recover ==> TookEffect(fault)
    ensures var (db', job') := Exec(db, svc, job, fault);
      job'.pc == Done ==> Resident(db', job') && Terminal(db'.processing[job'.documentId].state)
  {
    SoloWriteAccepted(db, svc, job);
    StepIsSound(db, svc, job, fault);
    if Idle(job.pc) {
      FinalIdleGoesOn(db, svc, job, fault);
    } else {
      WriteGoes(db, svc, job, fault);
      if job.pc == Block || job.pc == Finish { ClosesAtEnd(db, svc, job, _ => fault); }
      if job.pc == Recover { FinalRecoveryEnds(db, job); }
    }
    hide Exec, DocSound, JobSound, Effect, Solo;
  }

  lemma {:induction false} FinalRunEnds(db: Db, svc: Services, job: Job, script: Pc -> Fault)
    requires Ready(db, svc, job) && Solo(db, job) && job.finalAttempt && Survives(script)
    requires job.pc == Load ==> script(Load) == NoFault
    requires job.pc == Done ==> Terminal(db.processing[job.documentId].state)
    ensures Ended(RunJob(db, svc, job, script), job.documentId)
    decreases Rank(job.pc)
  {
    if job.pc != Done {
      hide Exec, DocSound, JobSound, Solo;
      var fault := script(job.pc);
      FinalStepEnds(db, svc, job, fault);
      StepIsSound(db, svc, job, fault);
      var (db', job') := Exec(db, svc, job, fault);
      FinalRunEnds(db', svc, job', script);
    }
  }

  // The load is outside the try: when it throws, no handler is called.
  lemma FailedLoadDoesNothing(db: Db, svc: Services, d: Id, finalAttempt: bool, script: Pc -> Fault)
    requires Sound(db, svc, d) && script(Load) != NoFault
    ensures Deliver(db, svc, d, finalAttempt, script) == db.(nextKey := db.nextKey + 1)
  {
    var db0, job := db.(nextKey := db.nextKey + 1), NewJob(db, d, db.documents[d].invoiceId, finalAttempt);
    assert Exec(db0, svc, job, script(Load)) == (db0, job.(pc := Done));
    hide Exec, DocSound;
    assert RunJob(db0, svc, job.(pc := Done), script) == db0;
    assert RunJob(db0, svc, job, script) == db0;
  }

  /** A last attempt that the worker survives, with a handler that takes effect, ends a document exactly when its
      load succeeds or the document had ended before. */
  lemma FinalAttemptEnds(db: Db, svc: Services, d: Id, script: Pc -> Fault)
    requires Sound(db, svc, d) && Survives(script)
    ensures Ended(Deliver(db, svc, d, true, script), d) <==> Ended(db, d) || script(Load) == NoFault
  {
    if script(Load) == NoFault {
      NewJobIsReady(db, svc, d, true);
      hide Exec, DocSound, JobSound, Solo, Survives;
      FinalRunEnds(db.(nextKey := db.nextKey + 1), svc, NewJob(db, d, db.documents[d].invoiceId, true), script);
    } else {
      FailedLoadDoesNothing(db, svc, d, true, script);
    }
  }

  /** A whole run of attempts, whatever fails in the non-final ones, ends the document exactly when one of them
      closes it or the load of the last one succeeds; later deliveries then leave it untouched. */
  lemma AttemptsEnd(
    db: Db, svc: Services, d: Id, scripts: seq<Pc -> Fault>, last: Pc -> Fault, finalAgain: bool, again: Pc -> Fault)
    requires Retriable(db, svc, d) && Survives(last)
    ensures var after := Deliver(Deliveries(db, svc, d, scripts), svc, d, true, last);
      && (Ended(after, d) <==> Ended(db, d) || ClosesAmong(db, svc, d, scripts) || last(Load) == NoFault)
      && (Ended(after, d) ==>
           Sound(after, svc, d) && Deliver(after, svc, d, finalAgain, again) == after.(nextKey := after.nextKey + 1))
  {
    var tried := Deliveries(db, svc, d, scripts);
    var after := Deliver(tried, svc, d, true, last);
    assert Sound(tried, svc, d);
    DeliveriesEndExactly(db, svc, d, scripts);
    FinalAttemptEnds(tried, svc, d, last);
    NewJobIsReady(tried, svc, d, true);
    hide DocSound, JobSound, Solo, ClosesAmong, Deliveries, RunJob;
    RunIsSound(tried.(nextKey := tried.nextKey + 1), svc, NewJob(tried, d, tried.documents[d].invoiceId, true), last);
    if Ended(after, d) { TerminalIsLeftAlone(after, svc, d, finalAgain, again); }
  }

  /** An input for the claim that a surviving last attempt always ends its document: one whose load fails. */
  lemma FailedLoadLeavesUnended(db: Db, svc: Services, d: Id)
    requires Sound(db, svc, d) && db.processing[d].state == StQuarantined
    ensures var script := (pc: Pc) => if pc == Load then Failed else NoFault;
      Survives(script) && !Ended(Deliver(db, svc, d, true, script), d)
  {
    hide DocSound, RunJob;
    FailedLoadDoesNothing(db, svc, d, true, (pc: Pc) => if pc == Load then Failed else NoFault);
  }

  // ---------------------------------------------------------------- writes the triggers reject

  // Some write of the delivery reached the database and was rejected.
  predicate Rejected(db: Db, svc: Services, job: Job, script: Pc -> Fault)
    decreases Rank(job.pc)
  {
    job.pc != Done &&
    var fault := script(job.pc);
    var (db', job') := Exec(db, svc, job, fault);
    (Resident(db, job) && TookEffect(fault) && Effect(db, job).None?) || Rejected(db', svc, job', script)
  }

  // The closing commit takes effect, but its acknowledgement is lost.
  ghost predicate Unheard(db: Db, svc: Services, job: Job, script: Pc -> Fault)
    requires Resident(db, job)
  {
    var clean := svc.clean(db.documents[job.documentId].uploaded);
    if job.pc == Recover then Terminal(db.processing[job.documentId].state)
    else Closes(db, svc, job, script) && script(if clean then Finish else Block) == LostAck
  }

  lemma UnheardStep(db: Db, svc: Services, job: Job, script: Pc -> Fault)
    requires Ready(db, svc, job) && Solo(db, job) && job.pc != Done && job.pc != Recover
    ensures var (db', job') := Exec(db, svc, job, script(job.pc));
      Resident(db', job') && (Unheard(db, svc, job, script) <==> Unheard(db', svc, job', script))
  {
    var (db', job') := Exec(db, svc, job, script(job.pc));
    StepIsSound(db, svc, job, script(job.pc));
    if job.pc == Block || job.pc == Finish {
      ClosesAtEnd(db, svc, job, script);
      ClosingPc(db, svc, job);
      hide Exec, DocSound, JobSound, Solo;
    } else {
      hide Exec, DocSound, JobSound, Solo, Closes;
      if Idle(job.pc) {
        ClosesIdle(db, svc, job, script);
      } else if WritesObject(job.pc) {
        ClosesObjects(db, svc, job, script);
      } else {
        ClosesProgress(db, svc, job, script);
      }
      NoClosingAtRecover(db', svc, job', script);
    }
  }

  lemma NoClosingAtRecover(db: Db, svc: Services, job: Job, script: Pc -> Fault)
    requires Resident(db, job)
    ensures job.pc == Recover || job.pc == Done ==> !Closes(db, svc, job, script)
  {
  }

  // Clean bytes are closed by Finish, infected ones by Block.
  lemma ClosingPc(db: Db, svc: Services, job: Job)
    requires Ready(db, svc, job) && Solo(db, job) && (job.pc == Block || job.pc == Finish)
    ensures job.pc == if svc.clean(db.documents[job.documentId].uploaded) then Finish else Block
  {
  }

  /** A delivery that no other overlaps has a write rejected exactly when it is not the last attempt, the closing
      commit took effect unheard, and the reset that follows reached the database. */
  lemma {:induction false} WritesRejectedExactly(db: Db, svc: Services, job: Job, script: Pc -> Fault)
    requires Ready(db, svc, job) && Solo(db, job)
    ensures Rejected(db, svc, job, script)
        <==> !job.finalAttempt && TookEffect(script(Recover)) && Unheard(db, svc, job, script)
    decreases Rank(job.pc)
  {
    NoClosingAtRecover(db, svc, job, script);
    SoloWriteAccepted(db, svc, job);
    if job.pc == Recover {
      RecoverIsLast(db, svc, job, script);
    } else if job.pc != Done {
      hide Exec, DocSound, JobSound, Solo, Effect, Unheard;
      UnheardStep(db, svc, job, script);
      StepIsSound(db, svc, job, script(job.pc));
      var (db', job') := Exec(db, svc, job, script(job.pc));
      WritesRejectedExactly(db', svc, job', script);
    }
  }

  lemma RecoverIsLast(db: Db, svc: Services, job: Job, script: Pc -> Fault)
    requires Resident(db, job) && job.pc == Recover
    ensures Rejected(db, svc, job, script) <==> TookEffect(script(Recover)) && Effect(db, job).None?
  {
    hide Effect;
    var (db', job') := Exec(db, svc, job, script(Recover));
    assert job'.pc == Done;
    assert !Rejected(db', svc, job', script);
  }

  // Only the acknowledgement of Finish is lost.
  function FinishUnheard(pc: Pc): Fault { if pc == Finish then LostAck else NoFault }

  /** An input for the claim that every write is accepted: the second attempt of a promoted document whose closing
      commit goes unheard. */
  lemma UnheardFinishIsRejected(db: Db, svc: Services, d: Id)
    requires Sound(db, svc, d) && db.processing[d].state == StParsed && d !in db.compensated
    ensures var job := NewJob(db, d, db.documents[d].invoiceId, false);
      Rejected(db.(nextKey := db.nextKey + 1), svc, job, FinishUnheard)
  {
    NewJobIsReady(db, svc, d, false);
    var db0, job := db.(nextKey := db.nextKey + 1), NewJob(db, d, db.documents[d].invoiceId, false);
    assert db.documents[d].storage == InApproved && svc.clean(db.documents[d].uploaded);
    assert ClosesFrom(Ocr, true, true, FinishUnheard);
    assert ClosesFrom(Resume, true, true, FinishUnheard);
    hide Exec, DocSound, JobSound, Solo;
    WritesRejectedExactly(db0, svc, job, FinishUnheard);
  }
}
