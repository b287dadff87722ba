/** A run, from the empty organization, in which overlapping deliveries take an approval back. */
module WorldOverlap {
  import opened Basics
  import opened Schema
  import opened Approvals
  import opened ApprovalInvariant
  import opened ApprovalCompletion
  import opened Ingest
  import opened IngestInvariant
  import opened IngestProofs
  import opened IngestRuns
  import opened Sessions
  import opened IngestDuplicates
  import opened SessionInvariant
  import opened Links
  import opened Webhook
  import opened WorldProofs
  import opened Risk
  import opened World
  import opened WorldInvariant
  import opened WorldSteps
  import opened WorldTheorems
  import opened WorldReplays
  import opened WorldRetries

  const FILE: Bytes := [1]
  const MIME: Text := [97]
  const KEY: Text := [65, 65, 65, 65, 65, 65, 65, 65, 65, 65, 65, 65, 65, 65, 65, 65]
  const CURRENCY: Text := [69, 85, 82]
  const TOKEN := OfText([84])
  const INITIATOR := Auth(0, 0, 0)
  const APPROVER := Auth(1, 1, 0)
  const DRAFT := EditDto(1, Absent, Absent, Given([65]), Given(CURRENCY), Given(100))
  const DECISION := DecisionDto(1, Approve, KEY)

  function Execute(j: nat): Step { OnDocument(ExecJob(j, NoFault)) }

  lemma ReachableStep(w: World, cfg: Config, step: Step)
    requires Reachable(w, cfg) && Disciplined(w, step)
    ensures Reachable(Apply(w, cfg, step), cfg)
  {
    hide Run, DisciplinedRun, Apply, Disciplined;
    var steps :| DisciplinedRun(EMPTY_WORLD, cfg, steps) && Run(EMPTY_WORLD, cfg, steps) == w;
    RunSplits(EMPTY_WORLD, cfg, steps, [step]);
    DisciplineSplits(EMPTY_WORLD, cfg, steps, [step]);
    RunOfOne(w, cfg, step);
    assert DisciplinedRun(EMPTY_WORLD, cfg, steps + [step]);
  }

  lemma EmptyIsReachable(cfg: Config)
    ensures Reachable(EMPTY_WORLD, cfg)
  {
    assert DisciplinedRun(EMPTY_WORLD, cfg, []) && Run(EMPTY_WORLD, cfg, []) == EMPTY_WORLD;
  }

  // ---------------------------------------------------------------- members, a vendor, its account, an upload

  const MEMBERS := [Member(0, true, OwnerRole), Member(1, true, AccountantRole)]
  const UPLOADED := Invoice(InvoiceStatus.Processing, 1, Some(0), None, None, None, None, None)
  const DOCUMENT := Document(0, 0, None, None, None, InQuarantine, MIME, FILE)

  lemma TwoMembers(cfg: Config) returns (w: World)
    ensures Reachable(w, cfg) && w == EMPTY_WORLD.(db := EMPTY_DB.(members := MEMBERS))
  {
    hide Reachable;
    EmptyIsReachable(cfg);
    ReachableStep(EMPTY_WORLD, cfg, OnRegistry(AddMember(0, OwnerRole)));
    w := Apply(EMPTY_WORLD, cfg, OnRegistry(AddMember(0, OwnerRole)));
    ReachableStep(w, cfg, OnRegistry(AddMember(1, AccountantRole)));
    w := Apply(w, cfg, OnRegistry(AddMember(1, AccountantRole)));
  }

  lemma NewVendor(db: Db)
    requires db == EMPTY_DB.(members := MEMBERS)
    ensures CreateVendor(db, OwnerRole, {}).db == db.(vendors := [Vendor({}, 1)])
  {
    var vendors := CreateVendor(db, OwnerRole, {}).db.vendors;
    assert vendors[0].buildings == {} && |vendors| == 1;
    assert vendors == [Vendor({}, 1)];
  }

  lemma NewAccount(db: Db)
    requires db == EMPTY_DB.(members := MEMBERS, vendors := [Vendor({}, 1)])
    ensures AddBankVersion(db, 0).db == db.(bankVersions := [BankVersion(0, 1)])
  {
  }

  lemma VendorWithAccount(cfg: Config) returns (w: World)
    ensures Reachable(w, cfg)
    ensures w == EMPTY_WORLD.(db := EMPTY_DB.(
      members := MEMBERS, vendors := [Vendor({}, 1)], bankVersions := [BankVersion(0, 1)]))
  {
    w := TwoMembers(cfg);
    hide Reachable, CreateVendor, AddBankVersion;
    NewVendor(w.db);
    ReachableStep(w, cfg, OnRegistry(DoCreateVendor(OwnerRole, {})));
    w := Apply(w, cfg, OnRegistry(DoCreateVendor(OwnerRole, {})));
    NewAccount(w.db);
    ReachableStep(w, cfg, OnApproval(DoAddBankVersion(0)));
    w := Apply(w, cfg, OnApproval(DoAddBankVersion(0)));
  }

  const READY_DB := EMPTY_DB.(
    members := MEMBERS, vendors := [Vendor({}, 1)], bankVersions := [BankVersion(0, 1)], invoices := [UPLOADED],
    documents := [DOCUMENT], processing := [NEW_PROCESSING], quarantine := map[0 := FILE], nextKey := 3)
  const FIRST := Job(0, 0, false, 1, Load, None, [], [])
  const SECOND := Job(0, 0, false, 2, Load, None, [], [])

  lemma UploadedWithTwoDeliveries(cfg: Config) returns (w: World)
    ensures Reachable(w, cfg) && w == EMPTY_WORLD.(db := READY_DB, jobs := [FIRST, SECOND])
  {
    w := VendorWithAccount(cfg);
    hide Reachable;
    var upload := OnDocument(DoUpload(Some(0), None, FILE, MIME, NoFault, false));
    var start := OnDocument(StartJob(0, 0, false));
    ReachableStep(w, cfg, upload);
    w := Apply(w, cfg, upload);
    assert w.db == READY_DB.(nextKey := 1);
    ReachableStep(w, cfg, start);
    w := Apply(w, cfg, start);
    ReachableStep(w, cfg, start);
    w := Apply(w, cfg, start);
  }

  // ---------------------------------------------------------------- the two deliveries

  // What deliveries leave alone.
  ghost predicate Setting(w: World) {
    && w.auth == EMPTY_AUTH && w.now == 0 && |w.jobs| == 2
    && w.db.members == MEMBERS && w.db.vendors == [Vendor({}, 1)] && w.db.contracts == []
    && w.db.bankVersions == [BankVersion(0, 1)] && w.db.policy == None && w.db.assessments == []
    && w.db.requests == [] && w.db.decisions == []
    && |w.db.invoices| == 1 && |w.db.documents| == 1 && |w.db.processing| == 1
    && w.db.documents[0].invoiceId == 0 && w.db.documents[0].uploaded == FILE
    && w.db.invoices[0] == UPLOADED.(status := w.db.invoices[0].status)
  }

  // Delivery j at an await, and its document on the way to its closing commit.
  ghost predicate At(w: World, cfg: Config, j: nat, pc: Pc) {
    && Reachable(w, cfg) && Setting(w) && j < 2
    && w.jobs[j].documentId == 0 && w.jobs[j].pc == pc && Tracked(w.db, w.jobs[j])
  }

  function Next(pc: Pc): Pc {
    match pc
    case Load => Scan
    case Scan => DownloadQuarantined
    case DownloadQuarantined => ScanFile
    case ScanFile => Put
    case Put => Connect
    case Connect => Promote
    case Promote => DropQuarantine
    case DropQuarantine => Ocr
    case Resume => DownloadApproved
    case DownloadApproved => Ocr
    case Ocr => Finish
    case _ => Pc.Done
  }

  lemma TrackedGoesOn(db: Db, svc: Services, job: Job)
    requires Ready(db, svc, job) && Tracked(db, job) && svc.clean(db.documents[job.documentId].uploaded)
    requires job.pc != Pc.Done && job.pc != Block && job.pc != Finish
    ensures var (db', job') := Exec(db, svc, job, NoFault);
      Tracked(db', job')
      && job'.pc == if job.pc == Load
           && db.documents[job.documentId].storage != InQuarantine then Resume else Next(job.pc)
  {
    TrackStep(db, svc, job);
    hide Effect, DocSound, Solo;
  }

  lemma ExecuteIs(w: World, cfg: Config, j: nat)
    requires j < |w.jobs|
    ensures var r := Exec(w.db, cfg.svc, w.jobs[j], NoFault);
      Apply(w, cfg, Execute(j)) == w.(db := r.0, jobs := w.jobs[j := r.1])
    ensures w.jobs[j].pc != Finish ==> Disciplined(w, Execute(j))
  {
    hide Exec, ApprovalOutcome, RegistryEffect, Upload, MarkManualReview;
  }

  lemma SettingStays(w: World, cfg: Config, j: nat)
    requires WorldSound(w, cfg) && Setting(w) && j < 2 && Resident(w.db, w.jobs[j])
    requires !LateFinish(w.db, w.jobs[j], NoFault)
    ensures var w' := Apply(w, cfg, Execute(j)); Setting(w') && w'.jobs[1 - j] == w.jobs[1 - j]
  {
    JobIsReady(w, cfg, j) by { hide Apply; }
    hide WorldSound, Exec, Apply;
    ExecuteIs(w, cfg, j);
    ExecFrame(w.db, cfg.svc, w.jobs[j], NoFault);
    ExecQuiet(w.db, cfg.svc, w.jobs[j], NoFault);
    ExecKept(w.db, cfg.svc, w.jobs[j], NoFault);
    hide DocSound, JobSound, OwnObjects, Ready;
  }

  lemma Advance(w: World, cfg: Config, j: nat, pc: Pc) returns (w': World)
    requires cfg.svc.clean(FILE) && At(w, cfg, j, pc) && pc != Pc.Done && pc != Block && pc != Finish
    ensures At(w', cfg, j, if pc == Load && w.db.documents[0].storage != InQuarantine then Resume else Next(pc))
    ensures w'.jobs[1 - j] == w.jobs[1 - j]
  {
    hide Reachable, Apply, Exec, Tracked, Setting;
    w' := Apply(w, cfg, Execute(j));
    ReachableIsSound(w, cfg);
    assert Resident(w.db, w.jobs[j]) && w.db.documents[0].uploaded == FILE by { TrackedIsResident(w, cfg, j, pc); }
    JobIsReady(w, cfg, j) by { hide WorldSound; }
    hide WorldSound, Ready;
    ExecuteIs(w, cfg, j);
    ReachableStep(w, cfg, Execute(j));
    SettingStays(w, cfg, j);
    TrackedGoesOn(w.db, cfg.svc, w.jobs[j]);
  }

  lemma TrackedIsResident(w: World, cfg: Config, j: nat, pc: Pc)
    requires At(w, cfg, j, pc)
    ensures j < |w.jobs| && Resident(w.db, w.jobs[j]) && |w.db.documents| == 1 && w.db.documents[0].uploaded == FILE
  {
    hide Reachable;
  }

  lemma FirstBegins(cfg: Config) returns (w: World)
    ensures At(w, cfg, 0, Load) && w.db.documents[0].storage == InQuarantine && w.jobs[1] == SECOND
  {
    hide Reachable;
    w := UploadedWithTwoDeliveries(cfg);
  }

  // The first delivery reaches its finish while the second has not begun.
  lemma FirstAtFinish(cfg: Config) returns (w: World)
    requires cfg.svc.clean(FILE)
    ensures At(w, cfg, 0, Finish) && w.jobs[1] == SECOND
  {
    hide At;
    w := FirstBegins(cfg);
    w := Advance(w, cfg, 0, Load);
    w := Advance(w, cfg, 0, Scan);
    w := Advance(w, cfg, 0, DownloadQuarantined);
    w := Advance(w, cfg, 0, ScanFile);
    w := Advance(w, cfg, 0, Put);
    w := Advance(w, cfg, 0, Connect);
    w := Advance(w, cfg, 0, Promote);
    w := Advance(w, cfg, 0, DropQuarantine);
    w := Advance(w, cfg, 0, Ocr);
  }

  // At its finish a delivery has its document promoted and parsed.
  lemma FinishIsParsed(w: World, cfg: Config, j: nat)
    requires At(w, cfg, j, Finish)
    ensures w.db.documents[0].storage == InApproved && w.db.processing[0].state == StParsed
  {
    hide Reachable, Run, DisciplinedRun, Tracked;
    ReachableIsSound(w, cfg);
    assert Resident(w.db, w.jobs[j]) by { TrackedIsResident(w, cfg, j, Finish); }
    JobIsReady(w, cfg, j);
    hide WorldSound, Ready;
    TrackedFinish(w.db, cfg.svc, w.jobs[j]);
  }

  lemma TrackedFinish(db: Db, svc: Services, job: Job)
    requires Ready(db, svc, job) && Tracked(db, job) && job.pc == Finish
    ensures db.documents[job.documentId].storage == InApproved && db.processing[job.documentId].state == StParsed
  {
  }

  // The same await, seen from the other delivery.
  lemma OtherAt(w: World, cfg: Config, j: nat, pc: Pc)
    requires At(w, cfg, j, Finish) && w.jobs[1 - j].documentId == 0 && w.jobs[1 - j].invoiceId == 0
    requires w.jobs[1 - j].pc == pc && (pc == Load || pc == Finish)
    ensures At(w, cfg, 1 - j, pc)
  {
    FinishIsParsed(w, cfg, j);
    hide Reachable;
  }

  lemma SecondBegins(cfg: Config) returns (w: World)
    requires cfg.svc.clean(FILE)
    ensures At(w, cfg, 1, Load) && w.db.documents[0].storage == InApproved
    ensures w.jobs[0].pc == Finish && w.jobs[0].documentId == 0 && w.jobs[0].invoiceId == 0
  {
    w := FirstAtFinish(cfg);
    FinishIsParsed(w, cfg, 0);
    OtherAt(w, cfg, 0, Load);
    hide Reachable;
  }

  // The second delivery resumes after the promotion and reaches its own finish.
  lemma BothAtFinish(cfg: Config) returns (w: World)
    requires cfg.svc.clean(FILE)
    ensures At(w, cfg, 0, Finish) && At(w, cfg, 1, Finish)
  {
    hide At;
    w := SecondBegins(cfg);
    w := Advance(w, cfg, 1, Load);
    w := Advance(w, cfg, 1, Resume);
    w := Advance(w, cfg, 1, DownloadApproved);
    w := Advance(w, cfg, 1, Ocr);
    OtherAt(w, cfg, 1, Finish);
  }

  // ---------------------------------------------------------------- the first finish, a submission, an approval

  // The second delivery at its finish, its document finished already.
  ghost predicate Late(w: World, cfg: Config) {
    && Reachable(w, cfg) && |w.jobs| == 2 && |w.db.documents| == 1 && |w.db.processing| == 1 && |w.db.invoices| == 1
    && w.jobs[1].pc == Finish && Resident(w.db, w.jobs[1]) && w.jobs[1].documentId == 0 && w.jobs[1].invoiceId == 0
    && w.db.processing[0].state == StNeedsReview
  }

  lemma FirstFinishes(cfg: Config) returns (w: World)
    requires cfg.svc.clean(FILE)
    ensures Late(w, cfg) && Setting(w) && w.db.invoices[0].status == NeedsReview
  {
    var before := BothAtFinish(cfg);
    FinishIsParsed(before, cfg, 0);
    assert Resident(before.db, before.jobs[0]) && Resident(before.db, before.jobs[1]) by { hide Reachable; }
    assert before.jobs[0].pc == Finish && before.jobs[1].pc == Finish by { hide Reachable; }
    hide Run, DisciplinedRun, Tracked, Apply, Reachable;
    ReachableIsSound(before, cfg);
    SettingStays(before, cfg, 0);
    ReachableStep(before, cfg, Execute(0));
    w := Apply(before, cfg, Execute(0));
    ExecuteIs(before, cfg, 0);
    FinishResult(before.db, cfg.svc, before.jobs[0]);
    hide WorldSound, Exec;
  }

  lemma FinishResult(db: Db, svc: Services, job: Job)
    requires Resident(db, job) && job.pc == Finish && db.processing[job.documentId].state == StParsed
    ensures var db' := Exec(db, svc, job, NoFault).0;
      |db'.processing| == |db.processing| && db'.documents == db.documents && |db'.invoices| == |db.invoices|
      && db'.processing[job.documentId].state == StNeedsReview && db'.invoices[job.invoiceId].status == NeedsReview
  {
  }

  // Session calls leave the rest alone.
  lemma SessionStep(w: World, cfg: Config, step: AuthStep) returns (w': World)
    requires Late(w, cfg)
    ensures w' == w.(auth := AuthApply(w.auth, w.now, step).0) && Late(w', cfg)
  {
    hide Run, DisciplinedRun, AuthApply, Reachable;
    ReachableStep(w, cfg, OnSession(step));
    w' := Apply(w, cfg, OnSession(step));
  }

  const STEPPED_UP := Session(1, 0, TOKEN, 0, Some(0), 1, None)

  lemma StepUpSession(w: World, cfg: Config) returns (w': World)
    requires Late(w, cfg) && w.auth == EMPTY_AUTH && w.now == 0
    ensures w' == w.(auth := w'.auth) && w'.auth.sessions == [STEPPED_UP] && Late(w', cfg)
  {
    hide Late, AuthApply;
    w' := SessionStep(w, cfg, Create(1, TOKEN, 1));
    Created();
    var a1 := w'.auth;
    w' := SessionStep(w', cfg, RequestChallenge(APPROVER, StepUpPurpose, 1));
    Challenged(a1);
    var a2 := w'.auth;
    w' := SessionStep(w', cfg, BeginVerify(APPROVER, StepUpPurpose));
    Begun(a2);
    var a3 := w'.auth;
    w' := SessionStep(w', cfg, CommitVerify(0, true));
    Committed(a3);
  }

  const SIGNED_IN := EMPTY_AUTH.(
    sessions := [Session(1, 0, TOKEN, 0, None, 1, None)], tokens := [Token(0, TOKEN, 1, None, None)])
  const ASKED := Challenge(1, 0, StepUpPurpose, 1, None)

  lemma Created()
    ensures AuthApply(EMPTY_AUTH, 0, Create(1, TOKEN, 1)).0 == SIGNED_IN
  {
  }

  lemma Challenged(a: AuthDb)
    requires a == SIGNED_IN
    ensures AuthApply(a, 0, RequestChallenge(APPROVER, StepUpPurpose, 1)).0 == a.(challenges := [ASKED])
  {
    assert UseChallenges([], 0, StepUpPurpose, 0) == [];
  }

  lemma Begun(a: AuthDb)
    requires a == SIGNED_IN.(challenges := [ASKED])
    ensures AuthApply(a, 0, BeginVerify(APPROVER, StepUpPurpose)).0
         == a.(verifications := [Verification(0, 0, StepUpPurpose, true)])
  {
  }

  lemma Committed(a: AuthDb)
    requires a == SIGNED_IN.(challenges := [ASKED], verifications := [Verification(0, 0, StepUpPurpose, true)])
    ensures AuthApply(a, 0, CommitVerify(0, true)).0.sessions == [STEPPED_UP]
  {
  }

  // ---------------------------------------------------------------- edit, submit, decide

  // Approval calls leave deliveries and documents alone.
  lemma ApprovalLate(w: World, cfg: Config, step: ApprovalStep) returns (w': World)
    requires Late(w, cfg)
    ensures w'.db == ApprovalOutcome(w.db, w.auth.sessions, w.now, cfg.stepUpTtl, step).db
    ensures w'.auth == w.auth && w'.now == w.now && Late(w', cfg)
  {
    hide Run, DisciplinedRun, ApprovalOutcome, Reachable;
    ReachableIsSound(w, cfg);
    ReachableStep(w, cfg, OnApproval(step));
    w' := Apply(w, cfg, OnApproval(step));
    ApprovalOk(w, cfg, step);
    hide WorldSound;
  }

  const DRAFTED := Invoice(NeedsReview, 2, Some(0), None, Some([65]), Some(CURRENCY), Some(100), None)

  lemma DraftEdited(db: Db)
    requires db.invoices == [UPLOADED.(status := NeedsReview)] && |db.vendors| == 1
    ensures Edit(db, 0, DRAFT).db == db.(invoices := [DRAFTED])
  {
    assert Upper(CURRENCY) == CURRENCY;
    assert Trim([65]) == [65];
    hide Upper, Trim;
    assert EditedInvoice(db.invoices[0], DRAFT) == DRAFTED;
  }

  // What submit finds.
  ghost predicate Submittable(db: Db) {
    && db.invoices == [DRAFTED] && db.bankVersions == [BankVersion(0, 1)] && db.members == MEMBERS
    && db.policy == None && db.requests == [] && db.decisions == [] && db.assessments == [] && db.contracts == []
    && |db.documents| == 1 && db.documents[0].invoiceId == 0 && db.documents[0].duplicateOf == None
    && DocumentsClean(db, 0)
  }

  lemma NothingSuspicious(db: Db)
    requires Submittable(db)
    ensures SubmitProblem(db, 0, 2).None? && LatestBank(db.bankVersions, 0) == Some(0)
    ensures Evaluate(NatText(0), FactsFor(db, 0, 0), DEFAULT_POLICY.snapshot).level == LOW
  {
    assert HasDocument(db, 0);
    assert db.bankVersions[..0] == [];
    assert LatestBank(db.bankVersions, 0) == Some(0);
    assert PriorAmounts(db.invoices, 0, 0, 12) == [] by { assert db.invoices[..0] == []; }
    var facts := FactsFor(db, 0, 0);
    assert !HasSameNumber(db.invoices, 0, [65], 0);
    assert !HasDuplicateDocument(db, 0);
    NoRuleTriggers(facts);
  }

  lemma NoRuleTriggers(facts: Facts)
    requires facts.bankAccountVersion == Some(1) && !facts.exactDocumentDuplicate && !facts.duplicateInvoiceNumber
    requires facts.contractValueLimit == None && facts.priorInvoiceAverage == None
    ensures Evaluate(NatText(0), facts, DEFAULT_POLICY.snapshot).level == LOW
  {
    hide EvidenceHash, Explain, EvidencePath;
    assert Contributions(NatText(0), facts, DEFAULT_POLICY.snapshot) == [];
  }

  lemma Submits(db: Db)
    requires Submittable(db)
    ensures var db' := Submit(db, INITIATOR, 0, 2, Some(KEY)).db;
      && PendingAt(db', 0, 1) && db'.requests[0].initiatedBy == 0 && db'.requests[0].invoiceId == 0
      && MissingCount(db', 0) == 1 && db'.members == MEMBERS && db'.decisions == [] && |db'.invoices| == 1
  {
    NothingSuspicious(db);
    KeyIsKey();
    hide Evaluate, FactsFor, HasDocument, DocumentsClean, LatestBank, KeyHash;
  }

  lemma KeyIsKey()
    ensures Trim(KEY) == KEY && KeyHash(Some(KEY)) == Some(OfText(KEY))
  {
  }

  lemma Approves(db: Db, ttl: nat)
    requires ApprovalsSound(db) && PendingAt(db, 0, 1) && MissingCount(db, 0) == 1
    requires db.requests[0].initiatedBy == 0 && db.requests[0].invoiceId == 0 && db.members == MEMBERS
    requires db.decisions == []
    ensures Stands(Decide(db, [STEPPED_UP], 0, ttl, APPROVER, 0, DECISION, Some(KEY)).db, 0, RequestApproved, Approved)
  {
    KeyIsKey();
    var call := Call([STEPPED_UP], 0, APPROVER, KEY, Some(KEY));
    assert [STEPPED_UP][0].stepUpVerifiedAt == Some(0);
    assert Fresh(db, ttl, 0, call) by { hide ApprovalsSound, KeyHash, Trim; }
    hide ApprovalsSound, Fresh, Decide;
    OneApproval(db, ttl, 0, 1, call);
  }

  // ---------------------------------------------------------------- the second finish

  lemma OneDocumentHasNoDuplicate(w: World, cfg: Config)
    requires WorldSound(w, cfg) && |w.db.documents| == 1
    ensures w.db.documents[0].duplicateOf == None
  {
    hide ApprovalsSound, LinksSound, LedgerSound, AuthSound, EvidenceReproducible;
    assert DocSound(w.db, cfg.svc, 0);
    var docs, log := w.db.documents, w.db.promotions;
    if docs[0].duplicateOf.Some? {
      var k :| 0 <= k < |log| && log[k] == 0;
      TargetIsEarlier(docs, log, k);
    }
  }

  lemma FinishedIsClean(w: World, cfg: Config)
    requires WorldSound(w, cfg) && Late(w, cfg)
    ensures DocumentsClean(w.db, 0)
  {
    hide ApprovalsSound, LinksSound, LedgerSound, AuthSound, EvidenceReproducible, Reachable;
    assert DocSound(w.db, cfg.svc, 0);
  }

  // After the first finish: the draft can be submitted once it is filled in.
  lemma FinishedIsSubmittable(w: World, cfg: Config)
    requires WorldSound(w, cfg) && Late(w, cfg) && Setting(w) && w.db.invoices[0].status == NeedsReview
    ensures w.db.invoices == [UPLOADED.(status := NeedsReview)] && Submittable(w.db.(invoices := [DRAFTED]))
  {
    hide Reachable, Run, DisciplinedRun;
    OneDocumentHasNoDuplicate(w, cfg) by { hide Late; }
    FinishedIsClean(w, cfg) by { hide WorldSound, Late; }
    hide WorldSound;
  }

  lemma ReviewBegins(cfg: Config) returns (w: World)
    requires cfg.svc.clean(FILE)
    ensures Late(w, cfg) && w.now == 0 && w.auth.sessions == [STEPPED_UP] && |w.db.vendors| == 1
    ensures w.db.invoices == [UPLOADED.(status := NeedsReview)] && Submittable(w.db.(invoices := [DRAFTED]))
  {
    w := FirstFinishes(cfg);
    assert Reachable(w, cfg) && w.auth == EMPTY_AUTH && w.now == 0 && |w.db.vendors| == 1 by { hide Reachable; }
    hide Reachable, Run, DisciplinedRun, Late, Setting, Submittable;
    ReachableIsSound(w, cfg);
    hide WorldSound;
    FinishedIsSubmittable(w, cfg);
    w := StepUpSession(w, cfg);
  }

  lemma SubmittedLate(cfg: Config) returns (w: World)
    requires cfg.svc.clean(FILE)
    ensures Late(w, cfg) && w.now == 0 && w.auth.sessions == [STEPPED_UP] && w.db.decisions == []
    ensures PendingAt(w.db, 0, 1) && MissingCount(w.db, 0) == 1 && w.db.members == MEMBERS
    ensures w.db.requests[0].initiatedBy == 0 && w.db.requests[0].invoiceId == 0
  {
    w := ReviewBegins(cfg);
    var drafted := w.db.(invoices := [DRAFTED]);
    DraftEdited(w.db);
    Submits(drafted);
    hide Late, Submittable, Edit, Submit, Reachable;
    w := ApprovalLate(w, cfg, DoEdit(0, DRAFT));
    w := ApprovalLate(w, cfg, DoSubmit(INITIATOR, 0, 2, Some(KEY)));
  }

  lemma ApprovedLate(cfg: Config) returns (w: World)
    requires cfg.svc.clean(FILE)
    ensures Late(w, cfg) && w.db.invoices[0].status == Approved
  {
    w := SubmittedLate(cfg);
    hide Reachable, Run, DisciplinedRun;
    ReachableIsSound(w, cfg) by { hide MissingCount; }
    assert ApprovalsSound(w.db);
    hide WorldSound, ApprovalsSound, Decide;
    Approves(w.db, cfg.stepUpTtl);
    var before := w;
    w := ApprovalLate(w, cfg, DoDecide(APPROVER, 0, DECISION, Some(KEY)));
    StandsFor(before.db, w.db);
  }

  // The only request stands for the only invoice.
  lemma StandsFor(before: Db, db: Db)
    requires Stands(db, 0, RequestApproved, Approved) && |db.invoices| == 1
    ensures db.invoices[0].status == Approved
  {
  }

  /** Overlapping deliveries of one document: a reachable approved invoice, submitted and approved between the two
      finishes, which the second finish sends back to review. */
  lemma OverlapTakesApprovalBack(cfg: Config) returns (w: World)
    requires cfg.svc.clean(FILE)
    ensures Reachable(w, cfg) && |w.db.invoices| == 1 && w.db.invoices[0].status == Approved
    ensures var w' := Apply(w, cfg, Execute(1));
      |w'.db.invoices| == 1 && w'.db.invoices[0] == w.db.invoices[0].(status := NeedsReview)
  {
    w := ApprovedLate(cfg);
    ExecuteIs(w, cfg, 1) by { hide Reachable; }
    hide Reachable, Apply, Run, DisciplinedRun;
    LateFinishReopens(w.db, cfg.svc, w.jobs[1], NoFault);
    hide Exec;
  }
}
