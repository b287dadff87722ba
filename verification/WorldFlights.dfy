/** A queue that never overlaps two deliveries of one document is disciplined. */
module WorldFlights {
  import opened Basics
  import opened Schema
  import opened Ingest
  import opened IngestInvariant
  import opened IngestProofs
  import opened Links
  import opened Webhook
  import opened World
  import opened WorldInvariant
  import opened WorldProofs

  predicate Running(job: Job) { job.pc != Load && job.pc != Pc.Done }

  // A delivery loads its document only while no other delivery of that document is under way.
  ghost predicate Alone(w: World, step: Step) {
    step.OnDocument? && step.document.ExecJob? && step.document.job < |w.jobs|
      && w.jobs[step.document.job].pc == Load ==>
      forall i :: 0 <= i < |w.jobs| && Running(w.jobs[i]) ==>
        w.jobs[i].documentId != w.jobs[step.document.job].documentId
  }

  ghost predicate AloneRun(w: World, cfg: Config, steps: seq<Step>)
    decreases |steps|
  {
    steps == [] || (Alone(w, steps[0]) && AloneRun(Apply(w, cfg, steps[0]), cfg, steps[1..]))
  }

  ghost predicate Unfinished(processing: seq<Processing>, job: Job) {
    Running(job) && job.pc != Recover ==>
      job.documentId < |processing| && processing[job.documentId].state != StNeedsReview
  }

  ghost predicate Flight(processing: seq<Processing>, jobs: seq<Job>) {
    && (forall j :: 0 <= j < |jobs| ==> Unfinished(processing, jobs[j]))
    && (forall i, j :: 0 <= i < j < |jobs| && Running(jobs[i]) && Running(jobs[j]) ==>
          jobs[i].documentId != jobs[j].documentId)
  }

  lemma AloneIsDisciplined(w: World, step: Step)
    requires Flight(w.db.processing, w.jobs)
    ensures Disciplined(w, step)
  {
  }

  // ---------------------------------------------------------------- document steps

  lemma ExecUnfinished(db: Db, svc: Services, job: Job, fault: Fault)
    requires Ready(db, svc, job) && Unfinished(db.processing, job)
    ensures var (db', job') := Exec(db, svc, job, fault); Unfinished(db'.processing, job')
  {
    hide DocSound, JobSound, FindDuplicate, UndoPutStep;
  }

  lemma ExecElsewhere(db: Db, svc: Services, job: Job, fault: Fault, e: Id)
    requires Resident(db, job) ==> Ready(db, svc, job)
    requires e != job.documentId && e < |db.processing|
    ensures var db' := Exec(db, svc, job, fault).0; e < |db'.processing| && db'.processing[e] == db.processing[e]
  {
    if Resident(db, job) {
      ExecKept(db, svc, job, fault);
      hide Exec;
    } else {
      StrayStops(db, svc, job, fault);
    }
  }

  lemma StrayStops(db: Db, svc: Services, job: Job, fault: Fault)
    requires !Resident(db, job)
    ensures Exec(db, svc, job, fault) == (db, job.(pc := Pc.Done))
  {
  }

  lemma ExecFlies(db: Db, svc: Services, jobs: seq<Job>, j: nat, fault: Fault)
    requires IngestSound(db, svc, jobs) && Flight(db.processing, jobs) && j < |jobs|
    requires jobs[j].pc == Load ==>
      forall i :: 0 <= i < |jobs| && Running(jobs[i]) ==> jobs[i].documentId != jobs[j].documentId
    ensures var (db', job') := Exec(db, svc, jobs[j], fault); Flight(db'.processing, jobs[j := job'])
  {
    hide Exec, DocSound, KeysSound;
    var job := jobs[j];
    var r := Exec(db, svc, job, fault);
    DoneIsIdle(db, svc, job, fault);
    assert JobSound(db, svc, job);
    assert Resident(db, job) ==>
      Ready(db, svc, job) by { if Resident(db, job) { assert DocSound(db, svc, job.documentId); } }
    if Resident(db, job) {
      assert Unfinished(db.processing, job);
      ExecUnfinished(db, svc, job, fault);
    } else {
      StrayStops(db, svc, job, fault);
    }
    forall i | 0 <= i < |jobs| && i != j ensures Unfinished(r.0.processing, jobs[i]) {
      assert Unfinished(db.processing, jobs[i]);
      if Running(jobs[i]) && jobs[i].pc != Recover && r.0 != db {
        ExecElsewhere(db, svc, job, fault, jobs[i].documentId);
      }
    }
  }

  lemma DoneIsIdle(db: Db, svc: Services, job: Job, fault: Fault)
    ensures job.pc == Pc.Done || job.pc == Load ==> Exec(db, svc, job, fault).0 == db
    ensures job.pc == Pc.Done ==> Exec(db, svc, job, fault).1.pc == Pc.Done
  {
  }

  lemma DocumentStepFlies(w: World, cfg: Config, step: DocumentStep)
    requires WorldSound(w, cfg) && Flight(w.db.processing, w.jobs) && Alone(w, OnDocument(step))
    ensures var r := DocumentEffect(w.db, w.jobs, cfg.svc, step); Flight(r.0.processing, r.1)
  {
    hide WorldSound;
    hide IngestSound, Flight, Exec, Upload, MarkManualReview;
    SoundParts(w, cfg);
    match step
    case DoUpload(v, c, bytes, mime, fault, cleanup) =>
      UploadFlies(w.db, w.jobs, v, c, bytes, mime, fault, cleanup);
    case DoMarkManualReview(d) => MarkFlies(w.db, w.jobs, d);
    case StartJob(d, i, finalAttempt) => StartFlies(w.db, w.jobs, d, i, finalAttempt);
    case ExecJob(j, fault) => if j < |w.jobs| { ExecFlies(w.db, cfg.svc, w.jobs, j, fault); }
  }

  lemma UploadFlies(
    db: Db, jobs: seq<Job>, v: Option<Id>, c: Option<Id>, bytes: Bytes, mime: Text, fault: Fault, cleanup: bool)
    requires Flight(db.processing, jobs)
    ensures Flight(Upload(db, v, c, bytes, mime, fault, cleanup).db.processing, jobs)
  {
  }

  lemma MarkFlies(db: Db, jobs: seq<Job>, d: Id)
    requires Flight(db.processing, jobs)
    ensures Flight(MarkManualReview(db, d).processing, jobs)
  {
  }

  lemma StartFlies(db: Db, jobs: seq<Job>, d: Id, i: Id, finalAttempt: bool)
    requires Flight(db.processing, jobs)
    ensures Flight(db.processing, jobs + [NewJob(db, d, i, finalAttempt)])
  {
  }

  // ---------------------------------------------------------------- runs

  lemma StepFlies(w: World, cfg: Config, step: Step)
    requires WorldSound(w, cfg) && Flight(w.db.processing, w.jobs) && Alone(w, step)
    ensures var w' := Apply(w, cfg, step); Flight(w'.db.processing, w'.jobs)
  {
    hide WorldSound, Flight, ApprovalOutcome, DocumentEffect, RegistryEffect, LinksSound, LedgerSound;
    SoundParts(w, cfg);
    match step
    case OnApproval(s) =>
      ApprovalOk(w, cfg, s);
    case OnDocument(s) => DocumentStepFlies(w, cfg, s);
    case OnRegistry(s) =>
      RegistryOk(w.db, w.now, cfg.secret, s);
    case _ =>
  }

  /** If no two deliveries of one document ever overlap, every result about disciplined runs applies. */
  lemma {:induction false} AloneRunsAreDisciplined(w: World, cfg: Config, steps: seq<Step>)
    requires WorldSound(w, cfg) && Flight(w.db.processing, w.jobs) && AloneRun(w, cfg, steps)
    ensures DisciplinedRun(w, cfg, steps)
    decreases |steps|
  {
    hide WorldSound, Flight, Apply, Alone, Disciplined;
    if steps != [] {
      AloneIsDisciplined(w, steps[0]);
      StepFlies(w, cfg, steps[0]);
      StepKeeps(w, cfg, steps[0]);
      AloneRunsAreDisciplined(Apply(w, cfg, steps[0]), cfg, steps[1..]);
    }
  }
}
