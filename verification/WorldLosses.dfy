/** When the object a document row names is gone, read off the run alone. */
module WorldLosses {
  import opened Basics
  import opened Schema
  import opened Approvals
  import opened Ingest
  import opened IngestInvariant
  import opened IngestProofs
  import opened IngestRuns
  import opened Links
  import opened Webhook
  import opened World
  import opened WorldInvariant
  import opened WorldSteps
  import opened WorldProofs
  import opened WorldTheorems
  import opened WorldReplays

  // ---------------------------------------------------------------- what happens in a run

  predicate Executes(w: World, step: Step, j: nat) {
    step.OnDocument? && step.document.ExecJob? && step.document.job == j && j < |w.jobs| && Resident(w.db, w.jobs[j])
  }

  // The promote commit of delivery j takes effect, and its acknowledgement is lost.
  predicate CommitUnheard(w: World, step: Step, j: nat) {
    Executes(w, step, j) && w.jobs[j].pc == Promote && step.document.fault == LostAck
      && PromoteTx(w.db, w.jobs[j]).Some?
  }

  // The compensating delete of delivery j takes effect.
  predicate DeleteTakesEffect(w: World, step: Step, j: nat) {
    Executes(w, step, j) && w.jobs[j].pc == UndoPut && TookEffect(step.document.fault)
  }

  // The upload that makes document d commits unheard, and its cleanup deletes the object.
  predicate UploadUndone(w: World, step: Step, d: Id) {
    step.OnDocument? && step.document.DoUpload? && |w.db.documents| == d
    && RelationshipProblem(w.db, step.document.vendor, step.document.contract).None?
    && step.document.fault == LostAck && step.document.cleanup
  }

  /** The deliveries whose promote commit went unheard in the run. */
  ghost function UnheardIn(cfg: Config, steps: seq<Step>): set<nat>
    decreases |steps|
  {
    if steps == [] then {}
    else
      var before, last := steps[..|steps| - 1], steps[|steps| - 1];
      var w := Run(EMPTY_WORLD, cfg, before);
      UnheardIn(cfg, before) + set j: nat | j < |w.jobs| && CommitUnheard(w, last, j)
  }

  /** In the run the document's upload is undone after an unheard commit, or some delivery of it promotes it unheard
      and later carries out the compensating delete. */
  ghost predicate LostIn(cfg: Config, steps: seq<Step>, d: Id)
    decreases |steps|
  {
    steps != [] &&
    var before, last := steps[..|steps| - 1], steps[|steps| - 1];
    var w := Run(EMPTY_WORLD, cfg, before);
    LostIn(cfg, before, d) || UploadUndone(w, last, d)
    || exists j :: j in UnheardIn(cfg, before) && DeleteTakesEffect(w, last, j) && w.jobs[j].documentId == d
  }

  // ---------------------------------------------------------------- rows and deliveries remember

  // A delivery in the catch of its promotion knows its key in the row only from an unheard commit.
  ghost predicate CatchExplained(db: Db, jobs: seq<Job>, unheard: set<nat>) {
    forall j :: 0 <= j < |jobs| && (jobs[j].pc == Rollback || jobs[j].pc == UndoPut) && Resident(db, jobs[j]) ==>
      db.documents[jobs[j].documentId].approvedKey == Some(jobs[j].key) ==> j in unheard
  }

  ghost predicate UnheardNamed(db: Db, jobs: seq<Job>, unheard: set<nat>) {
    forall j :: j in unheard ==>
      j < |jobs| && Resident(db, jobs[j]) && db.documents[jobs[j].documentId].approvedKey == Some(jobs[j].key)
  }

  ghost predicate History(db: Db, jobs: seq<Job>, unheard: set<nat>) {
    CatchExplained(db, jobs, unheard) && UnheardNamed(db, jobs, unheard)
  }

  // Rows keep their keys, and deliveries their arguments.
  ghost predicate KeysStay(db: Db, db': Db) {
    && |db.documents| <= |db'.documents| && |db.processing| <= |db'.processing| && |db.invoices| <= |db'.invoices|
    && forall d :: 0 <= d < |db.documents| ==>
         db'.documents[d].approvedKey == db.documents[d].approvedKey
           && db'.documents[d].invoiceId == db.documents[d].invoiceId
  }

  lemma QuietHistory(db: Db, svc: Services, jobs: seq<Job>, unheard: set<nat>, db': Db)
    requires IngestSound(db, svc, jobs) && History(db, jobs, unheard) && KeysStay(db, db')
    ensures History(db', jobs, unheard)
  {
    forall j | 0 <= j < |jobs| && (jobs[j].pc == Rollback || jobs[j].pc == UndoPut) ensures Resident(db, jobs[j]) {
      assert JobSound(db, svc, jobs[j]);
    }
    hide DocSound, JobSound, KeysSound;
  }

  lemma NewJobHistory(db: Db, jobs: seq<Job>, unheard: set<nat>, job: Job)
    requires History(db, jobs, unheard) && job.pc == Load
    ensures History(db.(nextKey := db.nextKey + 1), jobs + [job], unheard)
  {
  }

  // ---------------------------------------------------------------- one await

  predicate PromotesUnheard(db: Db, job: Job, fault: Fault) {
    Resident(db, job) && job.pc == Promote && fault == LostAck && PromoteTx(db, job).Some?
  }

  // What an await does to its own document's key, to the loss of its object, and to its place in the catch.
  ghost predicate KeyStep(db: Db, job: Job, fault: Fault, db': Db, job': Job)
    requires Resident(db, job)
  {
    var d := job.documentId;
    && Resident(db', job) && job'.documentId == job.documentId && job'.key == job.key && job'.invoiceId == job.invoiceId
    && (db.documents[d].approvedKey.Some? ==> db'.documents[d].approvedKey == db.documents[d].approvedKey)
    && (PromotesUnheard(db, job, fault) ==> db'.documents[d].approvedKey == Some(job.key))
    && ((job'.pc == Rollback || job'.pc == UndoPut) && db'.documents[d].approvedKey == Some(job.key) ==>
          PromotesUnheard(db, job, fault) || (job.pc == Rollback && db.documents[d].approvedKey == Some(job.key)))
    && db'.compensated
       == if job.pc == UndoPut && TookEffect(fault) && db.documents[d].approvedKey == Some(job.key)
          then db.compensated + {d} else db.compensated
  }

  lemma PromoteKeyStep(db: Db, svc: Services, job: Job, fault: Fault)
    requires Ready(db, svc, job) && job.pc == Promote
    ensures var (db', job') := Exec(db, svc, job, fault); KeyStep(db, job, fault, db', job')
  {
    hide FindDuplicate, DocSound, BlockTx, Progress, Fetch, ManualReviewTx, ResetTx, FinishTx, UndoPutStep;
  }

  lemma UndoKeyStep(db: Db, svc: Services, job: Job, fault: Fault)
    requires Ready(db, svc, job) && (job.pc == UndoPut || Idle(job.pc))
    ensures var (db', job') := Exec(db, svc, job, fault); KeyStep(db, job, fault, db', job')
  {
    hide DocSound, JobSound, BlockTx, Progress, ManualReviewTx, ResetTx, FinishTx, PromoteTx;
  }

  lemma OtherKeyStep(db: Db, svc: Services, job: Job, fault: Fault)
    requires Ready(db, svc, job) && job.pc != Promote && job.pc != UndoPut && !Idle(job.pc)
    ensures var (db', job') := Exec(db, svc, job, fault); KeyStep(db, job, fault, db', job')
  {
    OtherEffectKeys(db, job);
    ExecTakesEffect(db, svc, job, fault);
    CatchFollowsPromote(db, svc, job, fault);
    hide Effect, Exec, DocSound, JobSound;
  }

  lemma CatchFollowsPromote(db: Db, svc: Services, job: Job, fault: Fault)
    requires job.pc != Promote && !Idle(job.pc)
    ensures var job' := Exec(db, svc, job, fault).1; job'.pc != Rollback && job'.pc != UndoPut
  {
    hide Effect, Fetch;
  }

  lemma OtherEffectKeys(db: Db, job: Job)
    requires Resident(db, job) && job.pc != Promote && job.pc != UndoPut && !Idle(job.pc)
    ensures Effect(db, job).Some? ==>
      var db' := Effect(db, job).value;
      Resident(db', job) && db'.compensated == db.compensated
      && db'.documents[job.documentId].approvedKey == db.documents[job.documentId].approvedKey
  {
    if job.pc == Recover {
      if Effect(db, job).Some? { RowEffect(db, job); }
      hide Effect;
    } else {
      hide PromoteTx, UndoPutStep, ManualReviewTx, ResetTx;
    }
  }

  lemma ExecKeyStep(db: Db, svc: Services, job: Job, fault: Fault)
    requires Ready(db, svc, job)
    ensures var (db', job') := Exec(db, svc, job, fault); KeyStep(db, job, fault, db', job')
  {
    hide Exec, KeyStep, Ready;
    if job.pc == Promote { PromoteKeyStep(db, svc, job, fault); }
    else if job.pc == UndoPut || Idle(job.pc) { UndoKeyStep(db, svc, job, fault); }
    else { OtherKeyStep(db, svc, job, fault); }
  }

  // ---------------------------------------------------------------- one step of a delivery

  lemma ExecHistory(db: Db, svc: Services, jobs: seq<Job>, j: nat, fault: Fault, unheard: set<nat>)
    requires IngestSound(db, svc, jobs) && j < |jobs| && History(db, jobs, unheard)
    ensures var (db', job') := Exec(db, svc, jobs[j], fault);
      History(db', jobs[j := job'], unheard + if PromotesUnheard(db, jobs[j], fault) then {j} else {})
    ensures var (db', job') := Exec(db, svc, jobs[j], fault);
      var d := jobs[j].documentId;
      db'.compensated
      == if Resident(db, jobs[j]) && jobs[j].pc == UndoPut && TookEffect(fault) && j in unheard
         then db.compensated + {d} else db.compensated
  {
    var job := jobs[j];
    var r := Exec(db, svc, job, fault);
    assert JobSound(db, svc, job);
    if Resident(db, job) {
      assert DocSound(db, svc, job.documentId);
      hide Exec, DocSound, JobSound;
      ExecKept(db, svc, job, fault);
      ExecKeyStep(db, svc, job, fault);
      assert job.pc == UndoPut ==> (db.documents[job.documentId].approvedKey == Some(job.key) <==> j in unheard);
      KeysOfOthers(db, svc, jobs, j, r);
      OwnHistory(db, jobs, j, fault, r, unheard);
    } else {
      StrayIsDone(db, svc, job, fault);
      hide Exec, DocSound, JobSound;
    }
  }

  lemma StrayIsDone(db: Db, svc: Services, job: Job, fault: Fault)
    requires !Resident(db, job)
    ensures Exec(db, svc, job, fault) == (db, job.(pc := Done))
  {
  }

  // Other deliveries' keys are in their rows after the step exactly if they were before.
  ghost predicate OthersSame(db: Db, jobs: seq<Job>, j: nat, db': Db) {
    forall i :: 0 <= i < |jobs| && i != j && Resident(db, jobs[i]) ==>
      Resident(db', jobs[i])
      && (db'.documents[jobs[i].documentId].approvedKey == Some(jobs[i].key)
          <==> db.documents[jobs[i].documentId].approvedKey == Some(jobs[i].key))
  }

  lemma KeysOfOthers(db: Db, svc: Services, jobs: seq<Job>, j: nat, r: (Db, Job))
    requires IngestSound(db, svc, jobs) && j < |jobs| && Resident(db, jobs[j]) && Kept(db, svc, jobs[j], r)
    ensures OthersSame(db, jobs, j, r.0)
    ensures forall i :: 0 <= i < |jobs| && (jobs[i].pc == Rollback || jobs[i].pc == UndoPut) ==> Resident(db, jobs[i])
  {
    forall i | 0 <= i < |jobs| && (jobs[i].pc == Rollback || jobs[i].pc == UndoPut) ensures Resident(db, jobs[i]) {
      assert JobSound(db, svc, jobs[i]);
    }
    hide DocSound, JobSound, OwnObjects;
    forall i | 0 <= i < |jobs| && i != j ensures jobs[i].key != jobs[j].key { if i < j {} else {} }
  }

  lemma OwnHistory(db: Db, jobs: seq<Job>, j: nat, fault: Fault, r: (Db, Job), unheard: set<nat>)
    requires j < |jobs| && Resident(db, jobs[j]) && History(db, jobs, unheard)
    requires KeyStep(db, jobs[j], fault, r.0, r.1) && OthersSame(db, jobs, j, r.0)
    requires forall i :: 0 <= i < |jobs| && (jobs[i].pc == Rollback || jobs[i].pc == UndoPut) ==> Resident(db, jobs[i])
    ensures History(r.0, jobs[j := r.1], unheard + if PromotesUnheard(db, jobs[j], fault) then {j} else {})
  {
  }

  // ---------------------------------------------------------------- one step of the system

  // The events of a step, as sets.
  ghost function NewUnheard(w: World, step: Step): set<nat> { set j: nat | j < |w.jobs| && CommitUnheard(w, step, j) }

  ghost predicate LostNow(w: World, step: Step, unheard: set<nat>, d: Id) {
    UploadUndone(w, step, d) || exists j :: j in unheard && DeleteTakesEffect(w, step, j) && w.jobs[j].documentId == d
  }

  // What a step does to the history and to the set of lost objects.
  ghost predicate Accounted(w: World, step: Step, db': Db, jobs': seq<Job>, unheard: set<nat>) {
    && History(db', jobs', unheard + NewUnheard(w, step))
    && forall d: Id :: d in db'.compensated <==> d in w.db.compensated || LostNow(w, step, unheard, d)
  }

  lemma ExecAccounted(w: World, cfg: Config, j: nat, fault: Fault, unheard: set<nat>)
    requires IngestSound(w.db, cfg.svc, w.jobs) && j < |w.jobs| && History(w.db, w.jobs, unheard)
    ensures var (db', job') := Exec(w.db, cfg.svc, w.jobs[j], fault);
      Accounted(w, OnDocument(ExecJob(j, fault)), db', w.jobs[j := job'], unheard)
  {
    hide Exec, IngestSound, History, Resident, PromoteTx;
    var step := OnDocument(ExecJob(j, fault));
    ExecHistory(w.db, cfg.svc, w.jobs, j, fault, unheard);
    assert NewUnheard(w, step) == if PromotesUnheard(w.db, w.jobs[j], fault) then {j} else {};
  }

  lemma UploadAccounted(w: World, cfg: Config, step: Step, unheard: set<nat>)
    requires IngestSound(w.db, cfg.svc, w.jobs) && History(w.db, w.jobs, unheard)
    requires step.OnDocument? && step.document.DoUpload?
    ensures var s := step.document;
      var db' := Upload(w.db, s.vendor, s.contract, s.bytes, s.mime, s.fault, s.cleanup).db;
      Accounted(w, step, db', w.jobs, unheard)
  {
    var s := step.document;
    var db' := Upload(w.db, s.vendor, s.contract, s.bytes, s.mime, s.fault, s.cleanup).db;
    UploadKeysStay(w.db, cfg.svc, w.jobs, s);
    QuietHistory(w.db, cfg.svc, w.jobs, unheard, db');
    hide History, Upload, IngestSound;
    assert NewUnheard(w, step) == {};
    assert unheard + {} == unheard;
  }

  lemma UploadKeysStay(db: Db, svc: Services, jobs: seq<Job>, s: DocumentStep)
    requires IngestSound(db, svc, jobs) && s.DoUpload?
    ensures var db' := Upload(db, s.vendor, s.contract, s.bytes, s.mime, s.fault, s.cleanup).db;
      KeysStay(db, db')
      && db'.compensated
         == if RelationshipProblem(db, s.vendor, s.contract).None? && s.fault == LostAck && s.cleanup
            then db.compensated + {|db.documents|} else db.compensated
  {
    hide RelationshipProblem, DocSound, JobSound, KeysSound;
  }

  // Steps that write neither keys nor objects.
  lemma QuietAccounted(w: World, cfg: Config, step: Step, db': Db, unheard: set<nat>)
    requires IngestSound(w.db, cfg.svc, w.jobs) && History(w.db, w.jobs, unheard)
    requires KeysStay(w.db, db') && db'.compensated == w.db.compensated
    requires !(step.OnDocument? && (step.document.DoUpload? || step.document.ExecJob?))
    ensures Accounted(w, step, db', w.jobs, unheard)
  {
    QuietHistory(w.db, cfg.svc, w.jobs, unheard, db');
    hide History, IngestSound, KeysStay;
    assert NewUnheard(w, step) == {};
    assert unheard + {} == unheard;
  }

  lemma StartAccounted(w: World, cfg: Config, step: Step, unheard: set<nat>)
    requires History(w.db, w.jobs, unheard) && step.OnDocument? && step.document.StartJob?
    ensures var s := step.document;
      Accounted(w, step, w.db.(nextKey := w.db.nextKey + 1),
                w.jobs + [NewJob(w.db, s.documentId, s.invoiceId, s.finalAttempt)], unheard)
  {
    var s := step.document;
    NewJobHistory(w.db, w.jobs, unheard, NewJob(w.db, s.documentId, s.invoiceId, s.finalAttempt));
    hide History;
    assert NewUnheard(w, step) == {};
    assert unheard + {} == unheard;
  }

  // An exec of no delivery.
  lemma NoExecAccounted(w: World, step: Step, unheard: set<nat>)
    requires History(w.db, w.jobs, unheard)
    requires step.OnDocument? && step.document.ExecJob? && step.document.job >= |w.jobs|
    ensures Accounted(w, step, w.db, w.jobs, unheard)
  {
    hide History;
    assert NewUnheard(w, step) == {};
    assert unheard + {} == unheard;
  }

  lemma DocumentAccounted(w: World, cfg: Config, s: DocumentStep, unheard: set<nat>)
    requires IngestSound(w.db, cfg.svc, w.jobs) && History(w.db, w.jobs, unheard)
    ensures var r := DocumentEffect(w.db, w.jobs, cfg.svc, s); Accounted(w, OnDocument(s), r.0, r.1, unheard)
  {
    hide IngestSound, History, Accounted, Exec, Upload;
    match s
    case DoUpload(_, _, _, _, _, _) => UploadAccounted(w, cfg, OnDocument(s), unheard);
    case DoMarkManualReview(d) =>
      MarkKeysStay(w.db, d);
      hide MarkManualReview;
      QuietAccounted(w, cfg, OnDocument(s), MarkManualReview(w.db, d), unheard);
    case StartJob(_, _, _) => StartAccounted(w, cfg, OnDocument(s), unheard);
    case ExecJob(j, fault) =>
      if j < |w.jobs| { ExecAccounted(w, cfg, j, fault, unheard); } else { NoExecAccounted(w, OnDocument(s), unheard); }
  }

  lemma MarkKeysStay(db: Db, d: Id)
    ensures KeysStay(db, MarkManualReview(db, d)) && MarkManualReview(db, d).compensated == db.compensated
  {
  }

  lemma ApprovalKeysStay(db: Db, db': Db)
    requires ApprovalFrame(db, db')
    ensures KeysStay(db, db') && db'.compensated == db.compensated
  {
  }

  lemma RegistryKeysStay(db: Db, db': Db)
    requires RegistryStepOk(db, db')
    ensures KeysStay(db, db') && db'.compensated == db.compensated
  {
  }

  lemma SameKeysStay(db: Db)
    ensures KeysStay(db, db)
  {
  }

  lemma ApprovalAccounted(w: World, cfg: Config, s: ApprovalStep, unheard: set<nat>)
    requires WorldSound(w, cfg) && History(w.db, w.jobs, unheard)
    ensures var w' := Apply(w, cfg, OnApproval(s)); Accounted(w, OnApproval(s), w'.db, w'.jobs, unheard)
  {
    hide WorldSound, IngestSound, ApprovalOutcome, ApprovalFrame, History, Accounted, KeysStay;
    SoundParts(w, cfg);
    var w' := Apply(w, cfg, OnApproval(s));
    ApprovalOk(w, cfg, s);
    ApprovalKeysStay(w.db, w'.db);
    QuietAccounted(w, cfg, OnApproval(s), w'.db, unheard);
  }

  lemma RegistryAccounted(w: World, cfg: Config, s: RegistryStep, unheard: set<nat>)
    requires WorldSound(w, cfg) && History(w.db, w.jobs, unheard)
    ensures var w' := Apply(w, cfg, OnRegistry(s)); Accounted(w, OnRegistry(s), w'.db, w'.jobs, unheard)
  {
    hide WorldSound, IngestSound, LinksSound, LedgerSound, RegistryEffect, RegistryStepOk, History, Accounted, KeysStay;
    SoundParts(w, cfg);
    var w' := Apply(w, cfg, OnRegistry(s));
    RegistryOk(w.db, w.now, cfg.secret, s);
    RegistryKeysStay(w.db, w'.db);
    QuietAccounted(w, cfg, OnRegistry(s), w'.db, unheard);
  }

  lemma OtherAccounted(w: World, cfg: Config, step: Step, unheard: set<nat>)
    requires WorldSound(w, cfg) && History(w.db, w.jobs, unheard) && !step.OnApproval? && !step.OnRegistry?
    ensures var w' := Apply(w, cfg, step); Accounted(w, step, w'.db, w'.jobs, unheard)
  {
    hide WorldSound, IngestSound, DocumentEffect, History, Accounted, KeysStay;
    SoundParts(w, cfg);
    if step.OnDocument? {
      DocumentAccounted(w, cfg, step.document, unheard);
    } else {
      SameKeysStay(w.db);
      QuietAccounted(w, cfg, step, w.db, unheard);
    }
  }

  lemma StepAccounted(w: World, cfg: Config, step: Step, unheard: set<nat>)
    requires WorldSound(w, cfg) && History(w.db, w.jobs, unheard)
    ensures var w' := Apply(w, cfg, step); Accounted(w, step, w'.db, w'.jobs, unheard)
  {
    hide WorldSound, Apply, History, Accounted;
    match step
    case OnApproval(s) => ApprovalAccounted(w, cfg, s, unheard);
    case OnRegistry(s) => RegistryAccounted(w, cfg, s, unheard);
    case _ => OtherAccounted(w, cfg, step, unheard);
  }

  // ---------------------------------------------------------------- any run

  lemma RunSnoc(cfg: Config, steps: seq<Step>)
    requires steps != []
    ensures var before, last := steps[..|steps| - 1], steps[|steps| - 1];
      Run(EMPTY_WORLD, cfg, steps) == Apply(Run(EMPTY_WORLD, cfg, before), cfg, last)
      && (DisciplinedRun(EMPTY_WORLD, cfg, steps) ==> DisciplinedRun(EMPTY_WORLD, cfg, before))
  {
    var before, last := steps[..|steps| - 1], steps[|steps| - 1];
    hide Run, DisciplinedRun, Apply;
    assert steps == before + [last];
    RunSplits(EMPTY_WORLD, cfg, before, [last]);
    RunOfOne(Run(EMPTY_WORLD, cfg, before), cfg, last);
    DisciplineSplits(EMPTY_WORLD, cfg, before, [last]);
  }

  lemma NothingLostAtFirst()
    ensures History(EMPTY_WORLD.db, EMPTY_WORLD.jobs, {}) && EMPTY_WORLD.db.compensated == {}
  {
  }

  lemma {:induction false} LossesAccounted(cfg: Config, steps: seq<Step>, d: Id)
    requires DisciplinedRun(EMPTY_WORLD, cfg, steps)
    ensures var w := Run(EMPTY_WORLD, cfg, steps);
      History(w.db, w.jobs, UnheardIn(cfg, steps)) && (d in w.db.compensated <==> LostIn(cfg, steps, d))
    decreases |steps|
  {
    hide DisciplinedRun, Apply, History, CommitUnheard, DeleteTakesEffect, UploadUndone, WorldSound;
    if steps == [] {
      NothingLostAtFirst();
    } else {
      var before, last := steps[..|steps| - 1], steps[|steps| - 1];
      var w := Run(EMPTY_WORLD, cfg, before);
      RunSnoc(cfg, steps);
      LossesAccounted(cfg, before, d);
      EmptyWorldIsSound(cfg);
      RunKeeps(EMPTY_WORLD, cfg, before) by { hide DbEvolves; }
      hide Run;
      StepAccounted(w, cfg, last, UnheardIn(cfg, before));
    }
  }

  /** In every state of every run, with any overlap the discipline allows, a document row and the buckets agree; the
      object the row names holds the uploaded bytes exactly when the run neither undid the upload after an unheard
      commit nor carried out the compensating delete of a promotion that went unheard. */
  lemma BytesSurviveExactly(cfg: Config, steps: seq<Step>, d: Id)
    requires DisciplinedRun(EMPTY_WORLD, cfg, steps) && d < |Run(EMPTY_WORLD, cfg, steps).db.documents|
    ensures var db := Run(EMPTY_WORLD, cfg, steps).db;
      var doc := db.documents[d];
      |db.documents| == |db.processing|
      && (if doc.storage == InApproved
          then doc.approvedKey.Some? && doc.sha256 == Some(OfBytes(doc.uploaded)) && db.processing[d].scan == Clean
               && cfg.svc.clean(doc.uploaded)
               && (Holds(db.approved, doc.approvedKey.value, doc.uploaded) <==> !LostIn(cfg, steps, d))
          else Holds(db.quarantine, doc.quarantineKey, doc.uploaded) <==> !LostIn(cfg, steps, d))
      && (doc.storage == InApproved && LostIn(cfg, steps, d) ==> Holds(db.quarantine, doc.quarantineKey, doc.uploaded))
  {
    var w := Run(EMPTY_WORLD, cfg, steps);
    assert Reachable(w, cfg);
    hide Reachable, Run, DisciplinedRun, LostIn;
    LossesAccounted(cfg, steps, d);
    BytesSurvive(w, cfg, d);
  }
}
