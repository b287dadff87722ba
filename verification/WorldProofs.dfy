/** Every disciplined step of every call keeps the invariant and undoes nothing that is settled. */
module WorldProofs {
  import opened Basics
  import opened Risk
  import opened Schema
  import opened Approvals
  import opened ApprovalInvariant
  import opened Ingest
  import opened IngestInvariant
  import opened IngestProofs
  import opened IngestApi
  import opened IngestDuplicates
  import opened Sessions
  import opened SessionInvariant
  import opened SessionTheorems
  import opened Links
  import opened Webhook
  import opened World
  import opened WorldInvariant
  import opened WorldSteps

  // ---------------------------------------------------------------- groups of steps

  lemma StillDocumented(db: Db, db': Db)
    requires Documented(db) && |db.documents| <= |db'.documents| && |db.invoices| <= |db'.invoices|
    requires forall d :: 0 <= d < |db.documents| ==> db'.documents[d].invoiceId == db.documents[d].invoiceId
    requires forall i :: |db.invoices| <= i < |db'.invoices| ==> HasDocument(db', i)
    ensures Documented(db')
  {
    forall i | 0 <= i < |db'.invoices| ensures HasDocument(db', i) {
      if i < |db.invoices| {
        assert HasDocument(db, i);
        var d :| 0 <= d < |db.documents| && db.documents[d].invoiceId == i;
        assert db'.documents[d].invoiceId == i;
      }
    }
  }

  lemma SoundParts(w: World, cfg: Config)
    requires WorldSound(w, cfg)
    ensures LinksSound(w.db) && LedgerSound(w.db.deliveries) && AuthSound(w.auth, w.now)
    ensures IngestSound(w.db, cfg.svc, w.jobs)
  {
  }

  lemma ApprovalStepSound(w: World, cfg: Config, db': Db, published': seq<Snapshot>)
    requires WorldSound(w, cfg) && ApprovalFrame(w.db, db') && ApprovalsSound(db')
    requires RequestsEvolve(w.db.requests, db'.requests)
    requires DecisionsVouched(db'.members, w.auth, w.now, cfg.stepUpTtl, db'.decisions)
    requires EvidenceReproducible(db', published')
    ensures WorldSound(w.(db := db', published := published'), cfg) && DbEvolves(w.db, db')
  {
    hide ApprovalsSound, EvidenceReproducible, DecisionsVouched;
    hide RequestsEvolve, AuthSound, DuplicatesSound, IngestSound;
    RestatusKeeps(w.db, cfg.svc, w.jobs, db');
    hide HasDocument;
    StillDocumented(w.db, db');
  }

  lemma QuietKeepsApprovals(db: Db, db': Db)
    requires ApprovalsSound(db) && IngestFrame(db, db') && QuietStatuses(db.invoices, db'.invoices)
    ensures ApprovalsSound(db') && InvoicesEvolve(db.invoices, db'.invoices)
      && RequestsEvolve(db.requests, db'.requests)
  {
  }

  lemma IngestStepSound(w: World, cfg: Config, db': Db, jobs': seq<Job>)
    requires WorldSound(w, cfg) && IngestFrame(w.db, db') && QuietStatuses(w.db.invoices, db'.invoices)
    requires IngestSound(db', cfg.svc, jobs') && DuplicatesSound(db'.documents, db'.promotions)
    requires forall i :: |w.db.invoices| <= i < |db'.invoices| ==> HasDocument(db', i)
    ensures WorldSound(w.(db := db', jobs := jobs'), cfg) && DbEvolves(w.db, db')
  {
    hide ApprovalsSound, DecisionsVouched, RequestsEvolve, AuthSound;
    hide DuplicatesSound, IngestSound, Reproducible, HasDocument;
    QuietKeepsApprovals(w.db, db');
    StillDocumented(w.db, db');
  }

  // Steps that touch vendors, contracts, members or deliveries only.
  lemma RegistryStepSound(w: World, cfg: Config, db': Db)
    requires WorldSound(w, cfg)
    requires db' == w.db.(vendors := db'.vendors, contracts := db'.contracts, members := db'.members,
      deliveries := db'.deliveries)
    requires LinksSound(db') && LedgerSound(db'.deliveries) && w.db.deliveries <= db'.deliveries
    requires |w.db.members| <= |db'.members|
    requires forall m :: 0 <= m < |w.db.members| ==> db'.members[m].userId == w.db.members[m].userId
    ensures WorldSound(w.(db := db'), cfg) && DbEvolves(w.db, db')
  {
    assert ApprovalsSound(db') by {
      hide RequestsBound, InvoicesBacked, DecisionsSound, EvidenceSound;
      hide IngestSound, AuthSound, DuplicatesSound, DecisionsVouched;
    }
    assert EvidenceReproducible(db', w.published)
      by { hide ApprovalsSound, IngestSound, AuthSound, DuplicatesSound, DecisionsVouched; }
    hide ApprovalsSound, DecisionsVouched, AuthSound, DuplicatesSound;
    hide IngestSound, EvidenceReproducible, LinksSound, LedgerSound, HasDocument;
    RestatusKeeps(w.db, cfg.svc, w.jobs, db');
    MembersKeepDecisions(w.db.members, db'.members, w.auth, w.now, cfg.stepUpTtl, w.db.decisions);
    StillDocumented(w.db, db');
  }

  lemma SessionStepSound(w: World, cfg: Config, auth': AuthDb, now': nat)
    requires WorldSound(w, cfg) && w.now <= now' && AuthSound(auth', now') && AuthEvolves(w.auth, auth')
    ensures WorldSound(w.(auth := auth', now := now'), cfg)
  {
    assert ConsumedOnce(w.auth);
    hide AuthSound, AuthEvolves, DecisionsVouched, ConsumedOnce;
    hide ApprovalsSound, IngestSound, DuplicatesSound, EvidenceReproducible;
    DecisionsStayVouched(w.db.members, w.auth, auth', w.now, now', cfg.stepUpTtl, w.db.decisions);
  }

  // ---------------------------------------------------------------- approval steps

  // What an approval step owes the invariant.
  ghost predicate ApprovalStepOk(w: World, cfg: Config, db': Db) {
    && ApprovalFrame(w.db, db') && ApprovalsSound(db') && RequestsEvolve(w.db.requests, db'.requests)
    && DecisionsVouched(db'.members, w.auth, w.now, cfg.stepUpTtl, db'.decisions)
    && EvidenceReproducible(db', Publish(w.published, PolicyOf(w.db), PolicyOf(db')))
  }

  lemma SubmitOk(w: World, cfg: Config, auth: Auth, invoiceId: Id, version: nat, key: Option<Text>)
    requires WorldSound(w, cfg)
    ensures ApprovalStepOk(w, cfg, Submit(w.db, auth, invoiceId, version, key).db)
  {
    hide Submit, ApprovalsSound, DecisionsVouched, EvidenceReproducible, PolicyOf;
    SubmitKeeps(w.db, auth, invoiceId, version, key);
    SubmitFrame(w.db, auth, invoiceId, version, key);
    SubmitReproducible(w.db, w.published, auth, invoiceId, version, key);
  }

  lemma DecideOk(w: World, cfg: Config, auth: Auth, requestId: Id, dto: DecisionDto, key: Option<Text>)
    requires WorldSound(w, cfg)
    ensures ApprovalStepOk(w, cfg, Decide(w.db, w.auth.sessions, w.now, cfg.stepUpTtl, auth, requestId, dto, key).db)
  {
    hide Decide, ApprovalsSound, DecisionsVouched, Reproducible, PolicyOf;
    DecideKeeps(w.db, w.auth.sessions, w.now, cfg.stepUpTtl, auth, requestId, dto, key);
    DecideFrame(w.db, w.auth.sessions, w.now, cfg.stepUpTtl, auth, requestId, dto, key);
    DecideVouches(w.db, w.auth, w.now, cfg.stepUpTtl, auth, requestId, dto, key);
  }

  lemma EditOk(w: World, cfg: Config, invoiceId: Id, dto: EditDto)
    requires WorldSound(w, cfg)
    ensures ApprovalStepOk(w, cfg, Edit(w.db, invoiceId, dto).db)
  {
    hide Edit, ApprovalsSound, DecisionsVouched, Reproducible;
    EditKeeps(w.db, invoiceId, dto);
    EditFrame(w.db, invoiceId, dto);
  }

  lemma AddBankVersionOk(w: World, cfg: Config, vendorId: Id)
    requires WorldSound(w, cfg)
    ensures ApprovalStepOk(w, cfg, AddBankVersion(w.db, vendorId).db)
  {
    hide AddBankVersion, ApprovalsSound, DecisionsVouched, Reproducible;
    AddBankVersionKeeps(w.db, vendorId);
    AddBankVersionFrame(w.db, vendorId);
  }

  lemma PolicyOk(w: World, cfg: Config, dto: PolicyDto)
    requires WorldSound(w, cfg)
    ensures ApprovalStepOk(w, cfg, UpdatePolicy(w.db, dto).db) && ApprovalStepOk(w, cfg, GetPolicy(w.db).db)
  {
    UpdatePolicyKeeps(w.db, dto);
    PolicyFrame(w.db, dto);
    OnlyPolicy(w.db, dto);
    hide UpdatePolicy, GetPolicy, ApprovalsSound, DecisionsVouched, Reproducible, PolicyOf;
    if UpdatePolicy(w.db, dto).reply.Ok? { PublishReproducible(w.db, UpdatePolicy(w.db, dto).db, w.published); }
  }

  lemma OnlyPolicy(db: Db, dto: PolicyDto)
    ensures UpdatePolicy(db, dto).db == db.(policy := UpdatePolicy(db, dto).db.policy)
    ensures GetPolicy(db).db == db.(policy := GetPolicy(db).db.policy)
  {
  }

  lemma ApprovalOk(w: World, cfg: Config, step: ApprovalStep)
    requires WorldSound(w, cfg)
    ensures ApprovalStepOk(w, cfg, ApprovalOutcome(w.db, w.auth.sessions, w.now, cfg.stepUpTtl, step).db)
  {
    hide WorldSound, ApprovalStepOk, Submit, Decide, Edit, AddBankVersion, UpdatePolicy, GetPolicy;
    match step
    case DoSubmit(auth, i, version, key) => SubmitOk(w, cfg, auth, i, version, key);
    case DoDecide(auth, r, dto, key) => DecideOk(w, cfg, auth, r, dto, key);
    case DoEdit(i, dto) => EditOk(w, cfg, i, dto);
    case DoAddBankVersion(v) => AddBankVersionOk(w, cfg, v);
    case DoUpdatePolicy(dto) => PolicyOk(w, cfg, dto);
    case DoGetPolicy => PolicyOk(w, cfg, PolicyDto(Absent, Absent, Absent, Absent, Absent, Absent, Absent));
  }

  // ---------------------------------------------------------------- document steps

  ghost predicate DocumentStepOk(w: World, cfg: Config, r: (Db, seq<Job>)) {
    && IngestFrame(w.db, r.0) && QuietStatuses(w.db.invoices, r.0.invoices)
    && IngestSound(r.0, cfg.svc, r.1) && DuplicatesSound(r.0.documents, r.0.promotions)
    && forall i :: |w.db.invoices| <= i < |r.0.invoices| ==> HasDocument(r.0, i)
  }

  lemma UploadOk(
      w: World, cfg: Config, vendor: Option<Id>, contract: Option<Id>, bytes: Bytes, mime: Text, fault: Fault,
      cleanup: bool)
    requires WorldSound(w, cfg)
    ensures DocumentStepOk(w, cfg, (Upload(w.db, vendor, contract, bytes, mime, fault, cleanup).db, w.jobs))
  {
    hide Upload, IngestSound, DuplicatesSound, QuietStatuses, HasDocument;
    UploadKeeps(w.db, cfg.svc, w.jobs, vendor, contract, bytes, mime, fault, cleanup);
    UploadFrame(w.db, vendor, contract, bytes, mime, fault, cleanup);
    SamePointersKeep(w.db.documents, w.db.promotions,
      Upload(w.db, vendor, contract, bytes, mime, fault, cleanup).db.documents);
  }

  lemma MarkManualReviewOk(w: World, cfg: Config, documentId: Id)
    requires WorldSound(w, cfg)
    ensures DocumentStepOk(w, cfg, (MarkManualReview(w.db, documentId), w.jobs))
  {
    MarkManualReviewKeeps(w.db, cfg.svc, w.jobs, documentId);
    MarkManualReviewFrame(w.db, cfg.svc, documentId);
    hide MarkManualReview, DuplicatesSound, QuietStatuses, HasDocument;
  }

  lemma StartJobOk(w: World, cfg: Config, documentId: Id, invoiceId: Id, finalAttempt: bool)
    requires WorldSound(w, cfg)
    ensures DocumentStepOk(w, cfg,
      (w.db.(nextKey := w.db.nextKey + 1), w.jobs + [NewJob(w.db, documentId, invoiceId, finalAttempt)]))
  {
    NewJobKeeps(w.db, cfg.svc, w.jobs, documentId, invoiceId, finalAttempt);
    hide IngestSound, DuplicatesSound, HasDocument;
  }

  lemma ExecOk(w: World, cfg: Config, j: nat, fault: Fault)
    requires WorldSound(w, cfg) && j < |w.jobs| && !LateFinish(w.db, w.jobs[j], fault)
    ensures var r := Exec(w.db, cfg.svc, w.jobs[j], fault); DocumentStepOk(w, cfg, (r.0, w.jobs[j := r.1]))
  {
    hide Exec, DocSound, JobSound, DuplicatesSound, QuietStatuses, HasDocument, KeysSound;
    assert Resident(w.db, w.jobs[j]) ==> DocSound(w.db, cfg.svc, w.jobs[j].documentId);
    ExecKeeps(w.db, cfg.svc, w.jobs, j, fault);
    ExecFrame(w.db, cfg.svc, w.jobs[j], fault);
    ExecQuiet(w.db, cfg.svc, w.jobs[j], fault);
    ExecKeepsPointers(w.db, cfg.svc, w.jobs[j], fault);
  }

  lemma NothingOk(w: World, cfg: Config)
    requires WorldSound(w, cfg)
    ensures DocumentStepOk(w, cfg, (w.db, w.jobs))
  {
    hide IngestSound, DuplicatesSound, HasDocument;
  }

  lemma DocumentOk(w: World, cfg: Config, step: DocumentStep)
    requires WorldSound(w, cfg) && Disciplined(w, OnDocument(step))
    ensures DocumentStepOk(w, cfg, DocumentEffect(w.db, w.jobs, cfg.svc, step))
  {
    hide WorldSound, DocumentStepOk, Upload, MarkManualReview, Exec;
    match step
    case DoUpload(v, c, bytes, mime, fault, cleanup) => UploadOk(w, cfg, v, c, bytes, mime, fault, cleanup);
    case DoMarkManualReview(d) => MarkManualReviewOk(w, cfg, d);
    case StartJob(d, i, finalAttempt) => StartJobOk(w, cfg, d, i, finalAttempt);
    case ExecJob(j, fault) => if j < |w.jobs| { ExecOk(w, cfg, j, fault); } else { NothingOk(w, cfg); }
  }

  // ---------------------------------------------------------------- registry steps

  ghost predicate RegistryStepOk(db: Db, db': Db) {
    && db' == db.(vendors := db'.vendors, contracts := db'.contracts, members := db'.members,
         deliveries := db'.deliveries)
    && LinksSound(db') && LedgerSound(db'.deliveries) && db.deliveries <= db'.deliveries
    && |db.members| <= |db'.members|
    && forall m :: 0 <= m < |db.members| ==> db'.members[m].userId == db.members[m].userId
  }

  lemma OnlyLinksOk(db: Db, db': Db)
    requires LedgerSound(db.deliveries) && LinksSound(db')
    requires db' == db.(vendors := db'.vendors, contracts := db'.contracts)
    ensures RegistryStepOk(db, db')
  {
  }

  lemma CreateVendorOk(db: Db, role: Role, buildings: set<Id>)
    requires LinksSound(db) && LedgerSound(db.deliveries)
    ensures RegistryStepOk(db, CreateVendor(db, role, buildings).db)
  {
  }

  lemma UpdateVendorOk(db: Db, role: Role, v: Id, version: nat, relink: Option<set<Id>>)
    requires LinksSound(db) && LedgerSound(db.deliveries)
    ensures RegistryStepOk(db, UpdateVendor(db, role, v, version, relink).db)
  {
    UpdateVendorChecked(db, role, v, version, relink);
    hide LinksSound, RelinkVendorTx, RegistryStepOk, LedgerSound;
    OnlyLinksOk(db, UpdateVendor(db, role, v, version, relink).db);
  }

  lemma CreateContractOk(db: Db, vendorId: Id, valueLimit: Option<nat>, buildings: set<Id>)
    requires LinksSound(db) && LedgerSound(db.deliveries)
    ensures RegistryStepOk(db, CreateContract(db, vendorId, valueLimit, buildings).db)
  {
  }

  lemma UpdateContractOk(
      db: Db, c: Id, version: nat, vendorId: Option<Id>, valueLimit: Option<nat>, relink: Option<set<Id>>)
    requires LinksSound(db) && LedgerSound(db.deliveries)
    ensures RegistryStepOk(db, UpdateContract(db, c, version, vendorId, valueLimit, relink).db)
  {
    UpdateContractChecked(db, c, version, vendorId, valueLimit, relink);
    hide LinksSound, UpdateContractTx, VendorProblem, RegistryStepOk, LedgerSound;
    OnlyLinksOk(db, UpdateContract(db, c, version, vendorId, valueLimit, relink).db);
  }

  lemma WebhookOk(db: Db, now: nat, secret: Text, p: Payload, timestamp: Option<Text>, signature: Option<Signature>)
    requires LinksSound(db) && LedgerSound(db.deliveries)
    ensures RegistryStepOk(db, Process(db, PayloadJson(p), p, timestamp, signature, secret, now).0)
  {
  }

  lemma MemberOk(db: Db, now: nat, secret: Text, step: RegistryStep)
    requires LinksSound(db) && LedgerSound(db.deliveries) && (step.AddMember? || step.ChangeMember?)
    ensures RegistryStepOk(db, RegistryEffect(db, now, secret, step))
  {
  }

  lemma RegistryOk(db: Db, now: nat, secret: Text, step: RegistryStep)
    requires LinksSound(db) && LedgerSound(db.deliveries)
    ensures RegistryStepOk(db, RegistryEffect(db, now, secret, step))
  {
    if step.AddMember? || step.ChangeMember? {
      MemberOk(db, now, secret, step);
    } else {
      hide RegistryStepOk, LinksSound, LedgerSound, CreateVendor, UpdateVendor, CreateContract, UpdateContract, Process;
      match step
      case DoCreateVendor(role, buildings) => CreateVendorOk(db, role, buildings);
      case DoUpdateVendor(role, v, version, relink) => UpdateVendorOk(db, role, v, version, relink);
      case DoCreateContract(vendorId, valueLimit, buildings) => CreateContractOk(db, vendorId, valueLimit, buildings);
      case DoUpdateContract(c, version, vendorId, valueLimit, relink) => UpdateContractOk(db, c, version, vendorId,
        valueLimit, relink);
      case DoWebhook(p, timestamp, signature) => WebhookOk(db, 1000 * now, secret, p, timestamp, signature);
      case _ =>
    }
  }

  // ---------------------------------------------------------------- any step, any run

  lemma SameDbEvolves(db: Db)
    ensures DbEvolves(db, db)
  {
  }

  lemma ApprovalDone(w: World, cfg: Config, s: ApprovalStep)
    requires WorldSound(w, cfg)
    ensures var w' := Apply(w, cfg, OnApproval(s));
      WorldSound(w', cfg) && DbEvolves(w.db, w'.db) && w'.auth == w.auth && w'.now == w.now
  {
    hide WorldSound, DbEvolves, Publish, ApprovalOutcome;
    var w' := Apply(w, cfg, OnApproval(s));
    ApprovalOk(w, cfg, s);
    ApprovalStepSound(w, cfg, w'.db, w'.published);
  }

  lemma DocumentDone(w: World, cfg: Config, s: DocumentStep)
    requires WorldSound(w, cfg) && Disciplined(w, OnDocument(s))
    ensures var w' := Apply(w, cfg, OnDocument(s));
      WorldSound(w', cfg) && DbEvolves(w.db, w'.db) && w'.auth == w.auth && w'.now == w.now
  {
    hide WorldSound, DbEvolves, DocumentEffect;
    var w' := Apply(w, cfg, OnDocument(s));
    DocumentOk(w, cfg, s);
    IngestStepSound(w, cfg, w'.db, w'.jobs);
  }

  lemma RegistryDone(w: World, cfg: Config, s: RegistryStep)
    requires WorldSound(w, cfg)
    ensures var w' := Apply(w, cfg, OnRegistry(s));
      WorldSound(w', cfg) && DbEvolves(w.db, w'.db) && w'.auth == w.auth && w'.now == w.now
  {
    hide WorldSound, DbEvolves, RegistryEffect;
    SoundParts(w, cfg);
    var w' := Apply(w, cfg, OnRegistry(s));
    RegistryOk(w.db, w.now, cfg.secret, s);
    RegistryStepSound(w, cfg, w'.db);
  }

  lemma SessionDone(w: World, cfg: Config, step: Step)
    requires WorldSound(w, cfg) && (step.Wait? || step.OnSession?)
    ensures var w' := Apply(w, cfg, step);
      WorldSound(w', cfg) && w'.db == w.db && AuthEvolves(w.auth, w'.auth) && w.now <= w'.now
  {
    hide WorldSound, AuthEvolves, AuthSound, AuthApply;
    SoundParts(w, cfg);
    var w' := Apply(w, cfg, step);
    if step.Wait? {
      NothingEvolves(w.auth);
      LaterIsSound(w.auth, w.now, w'.now);
    } else {
      AuthStepKeeps(w.auth, w.now, step.session);
    }
    SessionStepSound(w, cfg, w'.auth, w'.now);
  }

  /** Every disciplined step of every call keeps the invariant and undoes nothing that is settled. */
  lemma StepKeeps(w: World, cfg: Config, step: Step)
    requires WorldSound(w, cfg) && Disciplined(w, step)
    ensures var w' := Apply(w, cfg, step);
      WorldSound(w', cfg) && DbEvolves(w.db, w'.db) && AuthEvolves(w.auth, w'.auth) && w.now <= w'.now
  {
    hide WorldSound, DbEvolves, AuthEvolves, Apply, Disciplined;
    NothingEvolves(w.auth);
    SameDbEvolves(w.db);
    match step
    case OnApproval(s) => ApprovalDone(w, cfg, s);
    case OnDocument(s) => DocumentDone(w, cfg, s);
    case OnRegistry(s) => RegistryDone(w, cfg, s);
    case _ => SessionDone(w, cfg, step);
  }
}
