/** Retry transparency inside whole runs: other documents, deliveries and calls go on in between. */
module WorldRetries {
  import opened Basics
  import opened Schema
  import opened Ingest
  import opened IngestInvariant
  import opened IngestProofs
  import opened IngestApi
  import opened IngestRuns
  import opened IngestEndings
  import opened Links
  import opened Webhook
  import opened World
  import opened WorldInvariant
  import opened WorldSteps
  import opened WorldProofs
  import opened WorldTheorems

  // ---------------------------------------------------------------- undisturbed deliveries

  // No other delivery of the document executes, its own awaits do not fail, and nobody gives the document up.
  predicate Undisturbed(w: World, k: nat, step: Step)
    requires k < |w.jobs|
  {
    step.OnDocument? ==>
      match step.document
      case ExecJob(j, fault) =>
        j < |w.jobs| ==> if j == k then fault == NoFault else w.jobs[j].documentId != w.jobs[k].documentId
      case DoMarkManualReview(d) => d != w.jobs[k].documentId
      case _ => true
  }

  ghost predicate UndisturbedRun(w: World, cfg: Config, k: nat, steps: seq<Step>)
    decreases |steps|
  {
    steps == [] ||
    (k < |w.jobs| && Undisturbed(w, k, steps[0]) && UndisturbedRun(Apply(w, cfg, steps[0]), cfg, k, steps[1..]))
  }

  // What the delivery knows of its document is untouched.
  ghost predicate SameForJob(db: Db, jobs: seq<Job>, db': Db, jobs': seq<Job>, k: nat)
    requires k < |jobs|
  {
    var d := jobs[k].documentId;
    && k < |jobs'| && jobs'[k] == jobs[k]
    && d < |db.documents| <= |db'.documents| && d < |db.processing| <= |db'.processing|
    && |db.invoices| <= |db'.invoices|
    && db'.documents[d] == db.documents[d] && db'.processing[d] == db.processing[d]
    && (d in db'.compensated <==> d in db.compensated)
  }

  predicate OwnStep(k: nat, step: Step) { step.OnDocument? && step.document.ExecJob? && step.document.job == k }

  lemma UploadElsewhere(
    db: Db, svc: Services, jobs: seq<Job>, vendor: Option<Id>, contract: Option<Id>, bytes: Bytes, mime: Text,
    fault: Fault, cleanup: bool, d: Id)
    requires IngestSound(db, svc, jobs) && d < |db.documents|
    ensures var db' := Upload(db, vendor, contract, bytes, mime, fault, cleanup).db;
      d < |db'.documents| == |db'.processing| && |db.invoices| <= |db'.invoices| && |db.documents| <= |db'.documents|
      && db'.documents[d] == db.documents[d] && db'.processing[d] == db.processing[d]
      && (d in db'.compensated <==> d in db.compensated)
  {
    UploadAround(db, svc, jobs, vendor, contract, bytes, mime, fault, cleanup);
    hide Upload, DocSound, JobSound, KeysSound;
  }

  lemma ExecOther(db: Db, svc: Services, jobs: seq<Job>, j: nat, fault: Fault, d: Id)
    requires IngestSound(db, svc, jobs) && j < |jobs| && jobs[j].documentId != d && d < |db.documents|
    ensures var db' := Exec(db, svc, jobs[j], fault).0;
      |db'.documents| == |db.documents| && |db'.processing| == |db.processing| && |db'.invoices| == |db.invoices|
      && db'.documents[d] == db.documents[d] && db'.processing[d] == db.processing[d]
      && (d in db'.compensated <==> d in db.compensated)
  {
    assert JobSound(db, svc, jobs[j]);
    if Resident(db, jobs[j]) {
      assert DocSound(db, svc, jobs[j].documentId);
      hide Exec, DocSound, JobSound, KeysSound;
      ExecKept(db, svc, jobs[j], fault);
    } else {
      StrayStops(db, svc, jobs[j], fault);
    }
  }

  lemma StrayStops(db: Db, svc: Services, job: Job, fault: Fault)
    requires !Resident(db, job)
    ensures Exec(db, svc, job, fault).0 == db
  {
  }

  lemma MarkElsewhere(db: Db, documentId: Id, d: Id)
    requires d != documentId && d < |db.documents| && d < |db.processing|
    ensures var db' := MarkManualReview(db, documentId);
      db'.documents == db.documents && |db'.processing| == |db.processing| && |db'.invoices| == |db.invoices|
      && db'.processing[d] == db.processing[d] && db'.compensated == db.compensated
  {
  }

  lemma OtherDocumentStep(w: World, cfg: Config, k: nat, step: DocumentStep)
    requires IngestSound(w.db, cfg.svc, w.jobs) && k < |w.jobs| && Resident(w.db, w.jobs[k])
    requires Undisturbed(w, k, OnDocument(step)) && !OwnStep(k, OnDocument(step))
    ensures var r := DocumentEffect(w.db, w.jobs, cfg.svc, step); SameForJob(w.db, w.jobs, r.0, r.1, k)
  {
    var d := w.jobs[k].documentId;
    hide IngestSound, Exec, Upload, MarkManualReview;
    match step
    case DoUpload(v, c, bytes, mime, fault, cleanup) =>
      UploadElsewhere(w.db, cfg.svc, w.jobs, v, c, bytes, mime, fault, cleanup, d);
    case DoMarkManualReview(e) => MarkElsewhere(w.db, e, d);
    case StartJob(e, i, finalAttempt) =>
    case ExecJob(j, fault) => if j < |w.jobs| { ExecOther(w.db, cfg.svc, w.jobs, j, fault, d); }
  }

  lemma OtherApproval(db: Db, db': Db, jobs: seq<Job>, k: nat)
    requires k < |jobs| && Resident(db, jobs[k]) && ApprovalFrame(db, db')
    ensures SameForJob(db, jobs, db', jobs, k)
  {
  }

  lemma OtherRegistry(db: Db, db': Db, jobs: seq<Job>, k: nat)
    requires k < |jobs| && Resident(db, jobs[k]) && RegistryStepOk(db, db')
    ensures SameForJob(db, jobs, db', jobs, k)
  {
  }

  lemma ApprovalLeavesAlone(w: World, cfg: Config, k: nat, s: ApprovalStep)
    requires WorldSound(w, cfg) && k < |w.jobs| && Resident(w.db, w.jobs[k])
    ensures var w' := Apply(w, cfg, OnApproval(s)); SameForJob(w.db, w.jobs, w'.db, w'.jobs, k)
  {
    hide WorldSound, ApprovalOutcome, ApprovalFrame, SameForJob;
    ApprovalOk(w, cfg, s);
    OtherApproval(w.db, Apply(w, cfg, OnApproval(s)).db, w.jobs, k);
  }

  lemma DocumentLeavesAlone(w: World, cfg: Config, k: nat, s: DocumentStep)
    requires WorldSound(w, cfg) && k < |w.jobs| && Resident(w.db, w.jobs[k])
    requires Undisturbed(w, k, OnDocument(s)) && !OwnStep(k, OnDocument(s))
    ensures var w' := Apply(w, cfg, OnDocument(s)); SameForJob(w.db, w.jobs, w'.db, w'.jobs, k)
  {
    hide WorldSound, IngestSound, DocumentEffect, SameForJob;
    SoundParts(w, cfg);
    OtherDocumentStep(w, cfg, k, s);
  }

  lemma RegistryLeavesAlone(w: World, cfg: Config, k: nat, s: RegistryStep)
    requires WorldSound(w, cfg) && k < |w.jobs| && Resident(w.db, w.jobs[k])
    ensures var w' := Apply(w, cfg, OnRegistry(s)); SameForJob(w.db, w.jobs, w'.db, w'.jobs, k)
  {
    hide WorldSound, LinksSound, LedgerSound, RegistryEffect, RegistryStepOk, SameForJob;
    SoundParts(w, cfg);
    RegistryOk(w.db, w.now, cfg.secret, s);
    OtherRegistry(w.db, Apply(w, cfg, OnRegistry(s)).db, w.jobs, k);
  }

  lemma SessionLeavesAlone(w: World, cfg: Config, k: nat, step: Step)
    requires k < |w.jobs| && Resident(w.db, w.jobs[k]) && (step.Wait? || step.OnSession?)
    ensures var w' := Apply(w, cfg, step); SameForJob(w.db, w.jobs, w'.db, w'.jobs, k)
  {
    hide ApprovalOutcome, DocumentEffect, RegistryEffect;
  }

  /** Every other call and delivery leaves the delivery and its document as they are. */
  lemma OthersLeaveAlone(w: World, cfg: Config, k: nat, step: Step)
    requires WorldSound(w, cfg) && k < |w.jobs| && Resident(w.db, w.jobs[k])
    requires Undisturbed(w, k, step) && !OwnStep(k, step)
    ensures var w' := Apply(w, cfg, step); SameForJob(w.db, w.jobs, w'.db, w'.jobs, k)
  {
    hide WorldSound, Apply, SameForJob, Undisturbed, OwnStep, Resident;
    match step
    case OnApproval(s) => ApprovalLeavesAlone(w, cfg, k, s);
    case OnDocument(s) => DocumentLeavesAlone(w, cfg, k, s);
    case OnRegistry(s) => RegistryLeavesAlone(w, cfg, k, s);
    case _ => SessionLeavesAlone(w, cfg, k, step);
  }

  // ---------------------------------------------------------------- the delivery's own course

  // Under way without a failure towards its closing commit, or past it.
  ghost predicate Tracked(db: Db, job: Job) {
    && Solo(db, job) && job.documentId !in db.compensated
    && job.pc != Recover && job.pc != Rollback && job.pc != UndoPut
    && (job.pc == Load ==> !Terminal(db.processing[job.documentId].state))
    && (job.pc == Done ==> Closed(db.processing[job.documentId].state))
  }

  predicate Closed(state: ProcessingState) { state == StNeedsReview || state == StBlocked }

  // On its way to recovery because the stored bytes are gone.
  ghost predicate Doomed(db: Db, job: Job) { job.documentId in db.compensated && OffTrack(db, job) }

  ghost predicate Course(db: Db, job: Job, kept: bool) { if kept then Tracked(db, job) else Doomed(db, job) }

  lemma TrackedIsOnTrack(db: Db, svc: Services, job: Job)
    requires Ready(db, svc, job) && Tracked(db, job) && job.pc != Done
    ensures OnTrack(db, job)
  {
    if job.pc != Load { UnderWay(db, job); }
    hide DocSound, JobSound;
  }

  lemma OnTrackIsTracked(db: Db, job: Job)
    requires OnTrack(db, job)
    ensures Tracked(db, job)
  {
  }

  lemma TrackStep(db: Db, svc: Services, job: Job)
    requires Ready(db, svc, job) && Tracked(db, job) && job.pc != Done
    ensures var (db', job') := Exec(db, svc, job, NoFault); Tracked(db', job')
  {
    TrackedIsOnTrack(db, svc, job);
    hide Exec, Ready, Tracked, OnTrack;
    var (db', job') := Exec(db, svc, job, NoFault);
    if Idle(job.pc) { TrackIdle(db, svc, job); }
    else if WritesObject(job.pc) { TrackObjects(db, svc, job); }
    else { TrackRows(db, svc, job); }
    OnTrackIsTracked(db', job');
  }

  lemma DoomedStep(db: Db, svc: Services, job: Job)
    requires Ready(db, svc, job) && Doomed(db, job)
    ensures var (db', job') := Exec(db, svc, job, NoFault); Doomed(db', job')
  {
    ExecKept(db, svc, job, NoFault);
    hide Exec, DocSound, JobSound, OffTrack, Solo;
    var (db', job') := Exec(db, svc, job, NoFault);
    assert Solo(db, job) by { DoomedIsSolo(db, job); }
    if Idle(job.pc) { LostIdle(db, svc, job, NoFault); }
    else if WritesObject(job.pc) { LostObjects(db, svc, job, NoFault); }
    else { LostRows(db, svc, job, NoFault); }
  }

  lemma DoomedIsSolo(db: Db, job: Job)
    requires OffTrack(db, job)
    ensures Solo(db, job)
  {
  }

  lemma DoneStops(db: Db, svc: Services, job: Job, fault: Fault)
    requires job.pc == Done
    ensures Exec(db, svc, job, fault) == (db, job)
  {
  }

  lemma OwnCourse(db: Db, svc: Services, job: Job, kept: bool)
    requires Ready(db, svc, job) && Course(db, job, kept)
    ensures var (db', job') := Exec(db, svc, job, NoFault); Course(db', job', kept)
  {
    hide Exec, Ready, Tracked, Doomed;
    if job.pc == Done { DoneStops(db, svc, job, NoFault); }
    else if kept { TrackStep(db, svc, job); }
    else { DoomedStep(db, svc, job); }
  }

  lemma CourseIsResident(db: Db, job: Job, kept: bool)
    requires Course(db, job, kept)
    ensures Resident(db, job)
  {
  }

  lemma SameCourse(db: Db, jobs: seq<Job>, db': Db, jobs': seq<Job>, k: nat, kept: bool)
    requires k < |jobs| && SameForJob(db, jobs, db', jobs', k) && Course(db, jobs[k], kept)
    ensures k < |jobs'| && Course(db', jobs'[k], kept)
  {
  }

  lemma JobIsReady(w: World, cfg: Config, k: nat)
    requires WorldSound(w, cfg) && k < |w.jobs| && Resident(w.db, w.jobs[k])
    ensures Ready(w.db, cfg.svc, w.jobs[k])
  {
    assert DocSound(w.db, cfg.svc, w.jobs[k].documentId) && JobSound(w.db, cfg.svc, w.jobs[k]);
  }

  lemma OwnEffect(w: World, cfg: Config, k: nat, step: Step)
    requires k < |w.jobs| && OwnStep(k, step) && Undisturbed(w, k, step)
    ensures var w' := Apply(w, cfg, step);
      var r := Exec(w.db, cfg.svc, w.jobs[k], NoFault);
      w'.db == r.0 && w'.jobs == w.jobs[k := r.1]
  {
    hide Exec, ApprovalOutcome, RegistryEffect, Upload, MarkManualReview;
  }

  lemma CourseStep(w: World, cfg: Config, k: nat, step: Step, kept: bool)
    requires WorldSound(w, cfg) && k < |w.jobs| && Undisturbed(w, k, step) && Course(w.db, w.jobs[k], kept)
    ensures var w' := Apply(w, cfg, step); k < |w'.jobs| && Course(w'.db, w'.jobs[k], kept)
  {
    CourseIsResident(w.db, w.jobs[k], kept) by { hide WorldSound; }
    hide Course, Apply, Resident, Exec, Ready, SameForJob;
    var w' := Apply(w, cfg, step);
    if OwnStep(k, step) {
      JobIsReady(w, cfg, k) by { hide WorldSound; }
      hide WorldSound;
      OwnEffect(w, cfg, k, step);
      OwnCourse(w.db, cfg.svc, w.jobs[k], kept);
    } else {
      hide WorldSound;
      OthersLeaveAlone(w, cfg, k, step);
      SameCourse(w.db, w.jobs, w'.db, w'.jobs, k, kept);
    }
  }

  lemma {:induction false} CourseRun(w: World, cfg: Config, k: nat, steps: seq<Step>, kept: bool)
    requires WorldSound(w, cfg) && DisciplinedRun(w, cfg, steps) && UndisturbedRun(w, cfg, k, steps)
    requires k < |w.jobs| && Course(w.db, w.jobs[k], kept)
    ensures var w' := Run(w, cfg, steps);
      WorldSound(w', cfg) && k < |w'.jobs| && Course(w'.db, w'.jobs[k], kept)
      && w'.jobs[k].documentId == w.jobs[k].documentId
    decreases |steps|
  {
    hide WorldSound, Course, Apply, Undisturbed, Disciplined;
    if steps != [] {
      CourseStep(w, cfg, k, steps[0], kept);
      JobsKeepDocuments(w, cfg, k, steps[0]);
      StepKeeps(w, cfg, steps[0]) by { hide DbEvolves; }
      CourseRun(Apply(w, cfg, steps[0]), cfg, k, steps[1..], kept);
    }
  }

  lemma JobsKeepDocuments(w: World, cfg: Config, k: nat, step: Step)
    requires k < |w.jobs|
    ensures var w' := Apply(w, cfg, step);
      k < |w'.jobs| && w'.jobs[k].documentId == w.jobs[k].documentId && w'.jobs[k].invoiceId == w.jobs[k].invoiceId
      && w'.jobs[k].key == w.jobs[k].key
  {
    hide Upload, MarkManualReview, ApprovalOutcome, RegistryEffect;
    hide Effect, Fetch;
  }

  // ---------------------------------------------------------------- the result

  // The document shows what its bytes determine; approvals may have moved a reviewed invoice on.
  ghost predicate Shows(db: Db, svc: Services, d: Id)
    requires Sound(db, svc, d)
  {
    var view := ViewOf(db, svc, d);
    var expected := Expected(svc, db.documents[d].uploaded, db.documents[d].mime);
    view.(status := expected.status) == expected
      && (if view.state == StBlocked then view.status == Blocked else Reviewed(view.status))
  }

  lemma ClosedShows(db: Db, svc: Services, d: Id)
    requires Sound(db, svc, d)
    ensures Closed(db.processing[d].state) <==> Shows(db, svc, d)
  {
  }

  lemma CourseBegins(db: Db, job: Job)
    requires Resident(db, job) && job.pc == Load && !Terminal(db.processing[job.documentId].state)
    ensures Course(db, job, job.documentId !in db.compensated)
  {
  }

  /** In any reachable state, after whatever crashes, failures and overlaps, let a delivery of a document that has not
      ended run to its end without a failure, while other documents' deliveries and all other calls go on in between.
      It shows what a fault-free first delivery shows exactly when the stored bytes were still there at its start. */
  lemma InterleavedTransparency(w: World, cfg: Config, k: nat, steps: seq<Step>)
    requires Reachable(w, cfg) && DisciplinedRun(w, cfg, steps)
    requires k < |w.jobs| && w.jobs[k].pc == Load && Resident(w.db, w.jobs[k])
    requires !Terminal(w.db.processing[w.jobs[k].documentId].state)
    requires UndisturbedRun(w, cfg, k, steps)
    requires k < |Run(w, cfg, steps).jobs| && Run(w, cfg, steps).jobs[k].pc == Done
    ensures var d := w.jobs[k].documentId; var db' := Run(w, cfg, steps).db;
      Sound(db', cfg.svc, d) && (Shows(db', cfg.svc, d) <==> d !in w.db.compensated)
  {
    var d, kept := w.jobs[k].documentId, w.jobs[k].documentId !in w.db.compensated;
    var w' := Run(w, cfg, steps);
    hide Reachable, Run, DisciplinedRun, UndisturbedRun, WorldSound, Course, Sound, Shows;
    ReachableIsSound(w, cfg);
    CourseBegins(w.db, w.jobs[k]);
    CourseRun(w, cfg, k, steps, kept);
    CourseShows(w', cfg, k, kept);
  }

  lemma CourseShows(w: World, cfg: Config, k: nat, kept: bool)
    requires WorldSound(w, cfg) && k < |w.jobs| && w.jobs[k].pc == Done && Course(w.db, w.jobs[k], kept)
    ensures var d := w.jobs[k].documentId; Sound(w.db, cfg.svc, d) && (Shows(w.db, cfg.svc, d) <==> kept)
  {
    CourseEnds(w, cfg, k, kept);
    hide Sound, Closed, WorldSound, Course, Shows;
    ClosedShows(w.db, cfg.svc, w.jobs[k].documentId);
  }

  lemma CourseEnds(w: World, cfg: Config, k: nat, kept: bool)
    requires WorldSound(w, cfg) && k < |w.jobs| && w.jobs[k].pc == Done && Course(w.db, w.jobs[k], kept)
    ensures var d := w.jobs[k].documentId;
      Sound(w.db, cfg.svc, d) && (Closed(w.db.processing[d].state) <==> kept)
  {
    assert DocSound(w.db, cfg.svc, w.jobs[k].documentId);
  }
}
