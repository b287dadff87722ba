/** Every statement of the worker keeps the ingest invariant, whatever fails and however deliveries overlap. */
module IngestProofs {
  import opened Basics
  import opened Schema
  import opened Ingest
  import opened IngestInvariant

  // ---------------------------------------------------------------- one statement, one document

  // What a statement of a delivery may change: its own document, its own object, its own invoice.
  ghost predicate OnlyOwn(db: Db, db': Db, job: Job)
    requires Resident(db, job)
  {
    var d := job.documentId;
    && |db'.documents| == |db.documents| && |db'.processing| == |db.processing| && |db'.invoices| == |db.invoices|
    && db'.nextKey == db.nextKey
    && (forall e :: 0 <= e < |db.documents| && e != d ==> db'.documents[e] == db.documents[e])
    && (forall e :: 0 <= e < |db.processing| && e != d ==> db'.processing[e] == db.processing[e])
    && (forall i :: 0 <= i < |db.invoices| && i != job.invoiceId ==> db'.invoices[i] == db.invoices[i])
  }

  ghost predicate OwnDocument(db: Db, db': Db, job: Job)
    requires Resident(db, job) && |db'.documents| == |db.documents|
  {
    var doc, doc' := db.documents[job.documentId], db'.documents[job.documentId];
    && doc'.invoiceId == doc.invoiceId && doc'.quarantineKey == doc.quarantineKey
    && doc'.uploaded == doc.uploaded && doc'.mime == doc.mime
    && (doc.storage == InApproved ==> doc'.storage == InApproved)
    && (doc'.approvedKey == doc.approvedKey || (doc.approvedKey.None? && doc'.approvedKey == Some(job.key)))
  }

  ghost predicate OwnObjects(db: Db, db': Db, job: Job)
    requires Resident(db, job) && |db'.documents| == |db.documents|
  {
    var d := job.documentId;
    var mine := db.documents[d].approvedKey == Some(job.key);
    && (forall k :: k != job.key && k in db.approved ==> k in db'.approved && db'.approved[k] == db.approved[k])
    && (forall k :: k in db'.approved && k != job.key ==> k in db.approved)
    && (forall k :: (k != db.documents[d].quarantineKey || !mine) && k in db.quarantine ==>
          k in db'.quarantine && db'.quarantine[k] == db.quarantine[k])
    && (forall k :: k in db'.quarantine ==> k in db.quarantine)
    && (forall e :: e in db.compensated ==> e in db'.compensated)
    && (forall e :: e in db'.compensated ==> e in db.compensated || (e == d && mine))
  }

  ghost predicate Local(db: Db, db': Db, job: Job) {
    && Resident(db, job)
    && OnlyOwn(db, db', job) && OwnDocument(db, db', job) && OwnObjects(db, db', job)
  }

  ghost predicate Ready(db: Db, svc: Services, job: Job) {
    |db.documents| == |db.processing| && Resident(db, job) && DocSound(db, svc, job.documentId)
      && JobSound(db, svc, job)
  }

  // The outcome of a statement on the document it works on.
  ghost predicate Kept(db: Db, svc: Services, job: Job, r: (Db, Job)) {
    && r.1.key == job.key && r.1.documentId == job.documentId && r.1.invoiceId == job.invoiceId
    && Local(db, r.0, job)
    && |r.0.documents| == |r.0.processing|
    && DocSound(r.0, svc, job.documentId) && JobSound(r.0, svc, r.1)
  }

  predicate WritesObject(pc: Pc) { pc == Put || pc == Promote || pc == UndoPut || pc == DropQuarantine }

  lemma NothingLocal(db: Db, job: Job)
    requires Resident(db, job)
    ensures Local(db, db, job)
  {
  }

  lemma ObjectEffectLocal(db: Db, svc: Services, job: Job)
    requires Ready(db, svc, job) && Effect(db, job).Some? && WritesObject(job.pc)
    ensures Local(db, Effect(db, job).value, job)
  {
    hide FindDuplicate, DocSound;
  }

  // The same rows in every other place, and the same objects.
  lemma RowEffect(db: Db, job: Job)
    requires Resident(db, job) && Effect(db, job).Some? && !WritesObject(job.pc) && job.pc != Block
    ensures var db' := Effect(db, job).value;
      OnlyOwn(db, db', job) && db'.documents == db.documents && db'.approved == db.approved
      && db'.quarantine == db.quarantine && db'.compensated == db.compensated
  {
    if job.pc == Recover {
      RecoverEffect(db, job);
    } else {
      hide ManualReviewTx, ResetTx, BlockTx, PromoteTx, UndoPutStep;
    }
  }

  lemma RecoverEffect(db: Db, job: Job)
    requires Resident(db, job) && job.pc == Recover && Effect(db, job).Some?
    ensures var db' := Effect(db, job).value;
      OnlyOwn(db, db', job) && db'.documents == db.documents && db'.approved == db.approved
      && db'.quarantine == db.quarantine && db'.compensated == db.compensated
  {
    if job.finalAttempt { ManualReviewEffect(db, job); } else { ResetEffect(db, job); }
    hide ManualReviewTx, ResetTx, OnlyOwn;
  }

  lemma ManualReviewEffect(db: Db, job: Job)
    requires Resident(db, job) && ManualReviewTx(db, job).Some?
    ensures var db' := ManualReviewTx(db, job).value;
      OnlyOwn(db, db', job) && db'.documents == db.documents && db'.approved == db.approved
      && db'.quarantine == db.quarantine && db'.compensated == db.compensated
  {
  }

  lemma ResetEffect(db: Db, job: Job)
    requires Resident(db, job) && ResetTx(db, job).Some?
    ensures var db' := ResetTx(db, job).value;
      OnlyOwn(db, db', job) && db'.documents == db.documents && db'.approved == db.approved
      && db'.quarantine == db.quarantine && db'.compensated == db.compensated
  {
  }

  lemma BlockLocal(db: Db, svc: Services, job: Job)
    requires Ready(db, svc, job) && BlockTx(db, job).Some? && job.pc == Block
    ensures Local(db, BlockTx(db, job).value, job)
  {
  }

  lemma RowEffectLocal(db: Db, svc: Services, job: Job)
    requires Ready(db, svc, job) && Effect(db, job).Some? && !WritesObject(job.pc)
    ensures Local(db, Effect(db, job).value, job)
  {
    hide DocSound, JobSound;
    if job.pc == Block {
      BlockLocal(db, svc, job);
    } else {
      RowEffect(db, job);
      hide Effect, OnlyOwn;
    }
  }

  lemma ObjectEffectDoc(db: Db, svc: Services, job: Job)
    requires Ready(db, svc, job) && Effect(db, job).Some? && WritesObject(job.pc)
    ensures var db' := Effect(db, job).value;
      |db'.documents| == |db'.processing| == |db.documents| && DocSound(db', svc, job.documentId)
  {
  }

  lemma ScanEffectDoc(db: Db, svc: Services, job: Job)
    requires Ready(db, svc, job) && Effect(db, job).Some? && (job.pc == Scan || job.pc == Resume || job.pc == Block)
    ensures var db' := Effect(db, job).value;
      |db'.documents| == |db'.processing| == |db.documents| && DocSound(db', svc, job.documentId)
  {
  }

  lemma FinishEffectDoc(db: Db, svc: Services, job: Job)
    requires Ready(db, svc, job) && Effect(db, job).Some? && job.pc == Finish
    ensures var db' := Effect(db, job).value;
      |db'.documents| == |db'.processing| == |db.documents| && DocSound(db', svc, job.documentId)
  {
  }

  lemma RecoverEffectDoc(db: Db, svc: Services, job: Job)
    requires Ready(db, svc, job) && Effect(db, job).Some? && job.pc == Recover
    ensures var db' := Effect(db, job).value;
      |db'.documents| == |db'.processing| == |db.documents| && DocSound(db', svc, job.documentId)
  {
    hide DocSound, JobSound, ManualReviewTx, ResetTx;
    if job.finalAttempt { ManualReviewDoc(db, svc, job); } else { ResetDoc(db, svc, job); }
  }

  lemma ManualReviewDoc(db: Db, svc: Services, job: Job)
    requires Ready(db, svc, job) && ManualReviewTx(db, job).Some?
    ensures var db' := ManualReviewTx(db, job).value;
      |db'.documents| == |db'.processing| == |db.documents| && DocSound(db', svc, job.documentId)
  {
    hide JobSound;
  }

  lemma ResetDoc(db: Db, svc: Services, job: Job)
    requires Ready(db, svc, job) && ResetTx(db, job).Some?
    ensures var db' := ResetTx(db, job).value;
      |db'.documents| == |db'.processing| == |db.documents| && DocSound(db', svc, job.documentId)
  {
  }

  lemma EffectKept(db: Db, svc: Services, job: Job)
    requires Ready(db, svc, job) && Effect(db, job).Some?
    ensures var db' := Effect(db, job).value;
      Local(db, db', job) && |db'.documents| == |db'.processing| && DocSound(db', svc, job.documentId)
  {
    if WritesObject(job.pc) {
      hide Effect, Local, DocSound, JobSound;
      ObjectEffectLocal(db, svc, job);
      ObjectEffectDoc(db, svc, job);
    } else {
      RowEffectLocal(db, svc, job);
      hide Local, DocSound, JobSound;
      match job.pc
      case Scan => ScanEffectDoc(db, svc, job);
      case Resume => ScanEffectDoc(db, svc, job);
      case Block => ScanEffectDoc(db, svc, job);
      case Finish => FinishEffectDoc(db, svc, job);
      case Recover => RecoverEffectDoc(db, svc, job);
      case _ =>
    }
  }

  // Where the delivery goes next: after a statement that writes nothing, ...
  predicate Idle(pc: Pc) {
    pc == Load || pc == DownloadQuarantined || pc == ScanFile || pc == Connect || pc == Rollback
    || pc == DownloadApproved || pc == Ocr || pc == Done
  }

  // Where the code continues after an await that was acknowledged, and after one that threw.
  function NextOf(pc: Pc): Pc {
    match pc
    case Scan => DownloadQuarantined
    case Put => Connect
    case Connect => Promote
    case Promote => DropQuarantine
    case Rollback => UndoPut
    case UndoPut => Recover
    case DropQuarantine => Ocr
    case Resume => DownloadApproved
    case _ => Done
  }

  function FailedOf(pc: Pc): Pc { if pc == Promote then Rollback else if pc == Recover then Done else Recover }

  // A statement that writes does what its effect says, and the code goes on accordingly.
  lemma WriteGoes(db: Db, svc: Services, job: Job, fault: Fault)
    requires Resident(db, job) && !Idle(job.pc)
    ensures var (db', job') := Exec(db, svc, job, fault);
      var took := Effect(db, job).Some? && (fault == NoFault || fault == LostAck);
      && db' == (if took then Effect(db, job).value else db)
      && job' == job.(pc := if fault == Crashed then Done
                            else if took && fault == NoFault then NextOf(job.pc) else FailedOf(job.pc))
  {
    hide Effect;
  }

  lemma IdleJob(db: Db, svc: Services, job: Job, fault: Fault)
    requires Ready(db, svc, job) && Idle(job.pc)
    ensures Exec(db, svc, job, fault).0 == db && JobSound(db, svc, Exec(db, svc, job, fault).1)
  {
  }

  // ... after a write that did not take effect, ...
  lemma FailedJob(db: Db, svc: Services, job: Job, fault: Fault)
    requires Ready(db, svc, job) && !Idle(job.pc)
    requires fault == Failed || fault == Crashed || Effect(db, job).None?
    ensures Exec(db, svc, job, fault).0 == db && JobSound(db, svc, Exec(db, svc, job, fault).1)
  {
    hide Effect, DocSound;
  }

  // ... and after one that did.
  lemma WrittenRowJob(db: Db, svc: Services, job: Job, fault: Fault)
    requires Ready(db, svc, job) && !Idle(job.pc) && !WritesObject(job.pc)
    requires Effect(db, job).Some? && (fault == NoFault || fault == LostAck) && Local(db, Effect(db, job).value, job)
    ensures Exec(db, svc, job, fault).0 == Effect(db, job).value
    ensures JobSound(Effect(db, job).value, svc, Exec(db, svc, job, fault).1)
  {
    if job.pc != Block { RowEffect(db, job); }
    hide Effect, DocSound, OwnObjects, OwnDocument, Fetch, Terminal;
  }

  lemma WrittenObjectJob(db: Db, svc: Services, job: Job, fault: Fault)
    requires Ready(db, svc, job) && (job.pc == Put || job.pc == UndoPut || job.pc == DropQuarantine)
    requires Effect(db, job).Some? && (fault == NoFault || fault == LostAck)
    ensures Exec(db, svc, job, fault).0 == Effect(db, job).value
    ensures JobSound(Effect(db, job).value, svc, Exec(db, svc, job, fault).1)
  {
  }

  lemma PromotedJob(db: Db, svc: Services, job: Job, fault: Fault)
    requires Ready(db, svc, job) && job.pc == Promote
    requires Effect(db, job).Some? && (fault == NoFault || fault == LostAck)
    ensures Exec(db, svc, job, fault).0 == Effect(db, job).value
    ensures JobSound(Effect(db, job).value, svc, Exec(db, svc, job, fault).1)
  {
  }

  lemma ExecKept(db: Db, svc: Services, job: Job, fault: Fault)
    requires Ready(db, svc, job)
    ensures Kept(db, svc, job, Exec(db, svc, job, fault))
  {
    hide DocSound, JobSound, Local, Effect;
    NothingLocal(db, job);
    if Idle(job.pc) {
      IdleJob(db, svc, job, fault);
    } else if fault == Failed || fault == Crashed || Effect(db, job).None? {
      FailedJob(db, svc, job, fault);
    } else {
      EffectKept(db, svc, job);
      if job.pc == Promote { PromotedJob(db, svc, job, fault); }
      else if WritesObject(job.pc) { WrittenObjectJob(db, svc, job, fault); }
      else { WrittenRowJob(db, svc, job, fault); }
    }
  }

  // ---------------------------------------------------------------- the other documents and deliveries

  // Object keys a statement of job touches belong to no other document.
  lemma OtherDocKept(db: Db, svc: Services, jobs: seq<Job>, j: nat, db': Db, e: Id)
    requires IngestSound(db, svc, jobs) && j < |jobs| && Local(db, db', jobs[j])
    requires e < |db.documents| && e != jobs[j].documentId
    ensures |db'.documents| == |db'.processing| && DocSound(db', svc, e)
  {
    var d := jobs[j].documentId;
    assert DocSound(db, svc, e);
    assert db.documents[e].approvedKey != Some(jobs[j].key);
    assert db.documents[e].invoiceId != db.documents[d].invoiceId
      && db.documents[e].quarantineKey != db.documents[d].quarantineKey by {
      if e < d {} else {}
    }
  }

  lemma OtherJobKept(db: Db, svc: Services, jobs: seq<Job>, j: nat, db': Db, i: nat)
    requires IngestSound(db, svc, jobs) && j < |jobs| && Local(db, db', jobs[j])
    requires i < |jobs| && i != j
    ensures JobSound(db', svc, jobs[i])
  {
    var mine, other := jobs[j], jobs[i];
    assert JobSound(db, svc, other);
    assert mine.key != other.key by { if i < j {} else {} }
    if other.pc != Load && other.pc != Done {
      var d, e := mine.documentId, other.documentId;
      assert DocSound(db, svc, e);
      assert db.documents[e].approvedKey == Some(mine.key) ==> e == d;
      assert e != d ==> db.documents[e].quarantineKey != db.documents[d].quarantineKey by {
        if e < d {} else {}
      }
    }
  }

  lemma KeysKept(db: Db, svc: Services, jobs: seq<Job>, j: nat, r: (Db, Job))
    requires IngestSound(db, svc, jobs) && j < |jobs| && Resident(db, jobs[j]) && Kept(db, svc, jobs[j], r)
    ensures KeysSound(r.0, jobs[j := r.1])
  {
    hide DocSound, JobSound;
  }

  /** Bytes, rows and invoice stay in step at every await of every delivery. */
  lemma ExecKeeps(db: Db, svc: Services, jobs: seq<Job>, j: nat, fault: Fault)
    requires IngestSound(db, svc, jobs) && j < |jobs|
    ensures var (db', job') := Exec(db, svc, jobs[j], fault); IngestSound(db', svc, jobs[j := job'])
  {
    hide Exec, DocSound, KeysSound;
    var r := Exec(db, svc, jobs[j], fault);
    assert JobSound(db, svc, jobs[j]);
    if Resident(db, jobs[j]) {
      hide JobSound;
      assert DocSound(db, svc, jobs[j].documentId);
      ExecKept(db, svc, jobs[j], fault);
      forall e | 0 <= e < |r.0.documents| ensures DocSound(r.0, svc, e) {
        if e != jobs[j].documentId { OtherDocKept(db, svc, jobs, j, r.0, e); }
      }
      var jobs' := jobs[j := r.1];
      forall i | 0 <= i < |jobs'| ensures JobSound(r.0, svc, jobs'[i]) {
        if i != j { OtherJobKept(db, svc, jobs, j, r.0, i); }
      }
      KeysKept(db, svc, jobs, j, r);
    } else {
      StrayExec(db, svc, jobs, j, fault);
    }
  }

  lemma StrayExec(db: Db, svc: Services, jobs: seq<Job>, j: nat, fault: Fault)
    requires IngestSound(db, svc, jobs) && j < |jobs| && !Resident(db, jobs[j])
    ensures var (db', job') := Exec(db, svc, jobs[j], fault); IngestSound(db', svc, jobs[j := job'])
  {
  }
}
