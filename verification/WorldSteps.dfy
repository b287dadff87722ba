/** What each kind of step leaves alone, and what it does to the facts that span two protocols. */
module WorldSteps {
  import opened Basics
  import opened Risk
  import opened Schema
  import opened Approvals
  import opened ApprovalInvariant
  import opened Ingest
  import opened IngestInvariant
  import opened IngestProofs
  import opened IngestApi
  import opened IngestDuplicates
  import opened Sessions
  import opened SessionInvariant
  import opened WorldInvariant

  // ---------------------------------------------------------------- approval steps

  ghost predicate ApprovalFrame(db: Db, db': Db) {
    && SameDocuments(db, db')
    && db'.promotions == db.promotions && db'.vendors == db.vendors && db'.contracts == db.contracts
    && db'.members == db.members && db'.deliveries == db.deliveries
    && |db'.invoices| == |db.invoices| && InvoicesEvolve(db.invoices, db'.invoices)
    && (forall i :: 0 <= i < |db.invoices| ==> Restatus(db.invoices[i].status, db'.invoices[i].status))
    && db.assessments <= db'.assessments && db.decisions <= db'.decisions
  }

  lemma FrameReflexive(db: Db)
    ensures ApprovalFrame(db, db)
  {
  }

  lemma SubmitFrame(db: Db, auth: Auth, invoiceId: Id, version: nat, key: Option<Text>)
    ensures var db' := Submit(db, auth, invoiceId, version, key).db;
      ApprovalFrame(db, db') && db'.decisions == db.decisions && PolicyOf(db') == PolicyOf(db)
  {
    hide Evaluate, FactsFor;
  }

  lemma EditFrame(db: Db, invoiceId: Id, dto: EditDto)
    ensures var db' := Edit(db, invoiceId, dto).db;
      ApprovalFrame(db, db') && db'.decisions == db.decisions && db'.policy == db.policy
        && db'.assessments == db.assessments
  {
  }

  lemma AddBankVersionFrame(db: Db, vendorId: Id)
    ensures var db' := AddBankVersion(db, vendorId).db;
      ApprovalFrame(db, db') && db'.decisions == db.decisions && db'.policy == db.policy
        && db'.assessments == db.assessments
  {
  }

  lemma PolicyFrame(db: Db, dto: PolicyDto)
    ensures ApprovalFrame(db, UpdatePolicy(db, dto).db) && ApprovalFrame(db, GetPolicy(db).db)
    ensures PolicyOf(GetPolicy(db).db) == PolicyOf(db)
    ensures UpdatePolicy(db, dto).reply.Ok? ==>
      PolicyOf(UpdatePolicy(db, dto).db).snapshot.ruleVersion == PolicyOf(db).snapshot.ruleVersion + 1
    ensures UpdatePolicy(db, dto).reply.Err? ==> UpdatePolicy(db, dto).db == db
  {
  }

  lemma DecidedFrame(db: Db, now: nat, auth: Auth, requestId: Id, dto: DecisionDto, hash: Digest, at: nat)
    requires requestId < |db.requests| && db.requests[requestId].invoiceId < |db.invoices|
    requires db.invoices[db.requests[requestId].invoiceId].status == AwaitingApproval
    ensures var db' := Decided(db, now, auth, requestId, dto, hash, at);
      ApprovalFrame(db, db') && PolicyOf(db') == PolicyOf(db) && db'.assessments == db.assessments
  {
  }

  // What a decide call does under the invariant: nothing, or Decided.
  lemma DecideIsDecided(
      db: Db, sessions: seq<Session>, now: nat, ttl: nat, auth: Auth, requestId: Id, dto: DecisionDto,
      key: Option<Text>)
    requires ApprovalsSound(db)
    ensures var r := Decide(db, sessions, now, ttl, auth, requestId, dto, key);
      r.db == db
      || (CanDecide(db, sessions, now, ttl, auth, requestId, dto) && KeyHash(key).Some?
          && db.requests[requestId].invoiceId < |db.invoices|
          && db.invoices[db.requests[requestId].invoiceId].status == AwaitingApproval
          && StepUp(sessions, now, ttl, auth).Some?
          && r.db == Decided(db, now, auth, requestId, dto, KeyHash(key).value, StepUp(sessions, now, ttl, auth).value))
  {
  }

  lemma DecideFrame(
      db: Db, sessions: seq<Session>, now: nat, ttl: nat, auth: Auth, requestId: Id, dto: DecisionDto,
      key: Option<Text>)
    requires ApprovalsSound(db)
    ensures var db' := Decide(db, sessions, now, ttl, auth, requestId, dto, key).db;
      ApprovalFrame(db, db') && PolicyOf(db') == PolicyOf(db) && db'.assessments == db.assessments
  {
    DecideIsDecided(db, sessions, now, ttl, auth, requestId, dto, key);
    FrameReflexive(db);
    hide Decide, Decided, ApprovalsSound, ApprovalFrame, PolicyOf;
    var db' := Decide(db, sessions, now, ttl, auth, requestId, dto, key).db;
    if db' != db {
      DecidedFrame(db, now, auth, requestId, dto, KeyHash(key).value, StepUp(sessions, now, ttl, auth).value);
    }
  }

  // ---------------------------------------------------------------- decisions and step-ups

  lemma StepUpIsVouched(a: AuthDb, now: nat, ttl: nat, auth: Auth)
    requires AuthSound(a, now) && StepUp(a.sessions, now, ttl, auth).Some?
    ensures var at := StepUp(a.sessions, now, ttl, auth).value;
      at <= now <= at + ttl && Vouched(a, auth.userId, auth.sessionId, at)
  {
  }

  lemma DecideVouches(
    db: Db, a: AuthDb, now: nat, ttl: nat, auth: Auth, requestId: Id, dto: DecisionDto, key: Option<Text>)
    requires ApprovalsSound(db) && AuthSound(a, now) && DecisionsVouched(db.members, a, now, ttl, db.decisions)
    ensures var db' := Decide(db, a.sessions, now, ttl, auth, requestId, dto, key).db;
      DecisionsVouched(db'.members, a, now, ttl, db'.decisions)
  {
    DecideIsDecided(db, a.sessions, now, ttl, auth, requestId, dto, key);
    hide Decide, ApprovalsSound, AuthSound, StepUp;
    var db' := Decide(db, a.sessions, now, ttl, auth, requestId, dto, key).db;
    if db' != db {
      StepUpIsVouched(a, now, ttl, auth);
      hide Vouched;
    }
  }

  lemma VouchedStays(a: AuthDb, b: AuthDb, userId: Id, sessionId: Id, at: nat)
    requires ConsumedOnce(a) && AuthEvolves(a, b) && Vouched(a, userId, sessionId, at)
    ensures Vouched(b, userId, sessionId, at)
  {
    var c: Id :| Vouches(a, c, userId, sessionId, at);
    assert b.challenges[c] == a.challenges[c] && c in b.consumed;
    assert Vouches(b, c, userId, sessionId, at);
  }

  lemma DecisionsStayVouched(
      members: seq<Member>, a: AuthDb, b: AuthDb, now: nat, later: nat, ttl: nat, decisions: seq<Decision>)
    requires ConsumedOnce(a) && AuthEvolves(a, b) && now <= later && DecisionsVouched(members, a, now, ttl, decisions)
    ensures DecisionsVouched(members, b, later, ttl, decisions)
  {
    hide AuthEvolves, Vouched;
    forall d | 0 <= d < |decisions| ensures DecisionVouched(members, b, later, ttl, decisions[d]) {
      VouchedStays(a, b, members[decisions[d].member].userId, decisions[d].sessionId, decisions[d].stepUpVerifiedAt);
    }
  }

  lemma MembersKeepDecisions(
      members: seq<Member>, members': seq<Member>, a: AuthDb, now: nat, ttl: nat, decisions: seq<Decision>)
    requires |members| <= |members'| && forall m :: 0 <= m < |members| ==> members'[m].userId == members[m].userId
    requires DecisionsVouched(members, a, now, ttl, decisions)
    ensures DecisionsVouched(members', a, now, ttl, decisions)
  {
  }

  // ---------------------------------------------------------------- assessments and snapshots

  lemma SubmitReproducible(db: Db, published: seq<Snapshot>, auth: Auth, invoiceId: Id, version: nat, key: Option<Text>)
    requires EvidenceReproducible(db, published)
    ensures EvidenceReproducible(Submit(db, auth, invoiceId, version, key).db, published)
  {
    hide FactsFor, Contributions, EvidenceHash, SubmitProblem;
    var db' := Submit(db, auth, invoiceId, version, key).db;
    forall a | 0 <= a < |db'.assessments| ensures Reproducible(published, db'.assessments[a]) {
      if a < |db.assessments| { assert Reproducible(published, db.assessments[a]); }
    }
  }

  lemma PublishReproducible(db: Db, db': Db, published: seq<Snapshot>)
    requires EvidenceReproducible(db, published) && db'.assessments == db.assessments
    requires PolicyOf(db').snapshot.ruleVersion == PolicyOf(db).snapshot.ruleVersion + 1
    ensures EvidenceReproducible(db', published + [PolicyOf(db').snapshot])
  {
  }

  // ---------------------------------------------------------------- ingest steps

  // What a document step does to everything but documents and buckets.
  ghost predicate IngestFrame(db: Db, db': Db) {
    && db'.vendors == db.vendors && db'.contracts == db.contracts && db'.bankVersions == db.bankVersions
    && db'.members == db.members && db'.policy == db.policy && db'.assessments == db.assessments
    && db'.requests == db.requests && db'.decisions == db.decisions && db'.deliveries == db.deliveries
    && |db.invoices| <= |db'.invoices| && |db.documents| <= |db'.documents|
    && (forall d :: 0 <= d < |db.documents| ==> db'.documents[d].invoiceId == db.documents[d].invoiceId)
  }

  // Status changes of invoices that nobody has reviewed yet.
  ghost predicate QuietStatuses(before: seq<Invoice>, after: seq<Invoice>) {
    && |before| <= |after|
    && (forall i :: 0 <= i < |before| ==>
          after[i] == before[i]
          || (after[i] == before[i].(status := after[i].status)
              && !Reviewed(before[i].status) && before[i].status != Blocked && !Spoken(after[i].status)))
    && (forall i :: |before| <= i < |after| ==> !Spoken(after[i].status) && after[i].bankVersionId.None?)
  }

  lemma ObjectEffectFrame(db: Db, job: Job)
    requires Resident(db, job) && Effect(db, job).Some? && WritesObject(job.pc)
    ensures IngestFrame(db, Effect(db, job).value) && |Effect(db, job).value.invoices| == |db.invoices|
  {
    hide FindDuplicate;
  }

  lemma EndEffectFrame(db: Db, job: Job)
    requires Resident(db, job) && Effect(db, job).Some? && (job.pc == Block || job.pc == Finish || job.pc == Recover)
    ensures IngestFrame(db, Effect(db, job).value) && |Effect(db, job).value.invoices| == |db.invoices|
  {
    hide PromoteTx, UndoPutStep, Progress;
    if job.pc == Block {
      hide FinishTx, ManualReviewTx, ResetTx;
    } else if job.pc == Finish {
      hide BlockTx, ManualReviewTx, ResetTx;
    } else if job.finalAttempt {
      hide BlockTx, FinishTx, ResetTx;
    } else {
      hide BlockTx, FinishTx, ManualReviewTx;
    }
  }

  lemma EffectFrame(db: Db, job: Job)
    requires Resident(db, job) && Effect(db, job).Some?
    ensures IngestFrame(db, Effect(db, job).value) && |Effect(db, job).value.invoices| == |db.invoices|
  {
    if WritesObject(job.pc) {
      ObjectEffectFrame(db, job);
    } else if job.pc == Block || job.pc == Finish || job.pc == Recover {
      EndEffectFrame(db, job);
    } else {
      hide BlockTx, PromoteTx, UndoPutStep, FinishTx, ManualReviewTx, ResetTx;
    }
  }

  lemma ExecFrame(db: Db, svc: Services, job: Job, fault: Fault)
    ensures var db' := Exec(db, svc, job, fault).0; IngestFrame(db, db') && |db'.invoices| == |db.invoices|
  {
    ExecWrites(db, svc, job, fault);
    hide Exec, Effect;
    if Exec(db, svc, job, fault).0 != db { EffectFrame(db, job); }
  }

  lemma EffectQuiet(db: Db, svc: Services, job: Job)
    requires Resident(db, job) && |db.documents| == |db.processing| && DocSound(db, svc, job.documentId)
    requires Effect(db, job).Some? && JobSound(db, svc, job)
    requires job.pc == Finish ==> db.processing[job.documentId].state != StNeedsReview
    ensures QuietStatuses(db.invoices, Effect(db, job).value.invoices)
  {
    hide FindDuplicate, ObjectSound;
  }

  lemma ExecQuiet(db: Db, svc: Services, job: Job, fault: Fault)
    requires Resident(db, job) ==> |db.documents| == |db.processing| && DocSound(db, svc, job.documentId)
    requires JobSound(db, svc, job) && !LateFinish(db, job, fault)
    ensures QuietStatuses(db.invoices, Exec(db, svc, job, fault).0.invoices)
  {
    ExecTakesEffect(db, svc, job, fault);
    hide Exec, Effect, DocSound, JobSound;
    if Exec(db, svc, job, fault).0 != db { EffectQuiet(db, svc, job); }
  }

  lemma ExecTakesEffect(db: Db, svc: Services, job: Job, fault: Fault)
    ensures var db' := Exec(db, svc, job, fault).0;
      db' == db || (Resident(db, job) && Effect(db, job).Some? && db' == Effect(db, job).value
        && (fault == NoFault || fault == LostAck))
  {
  }

  lemma LateFinishReopens(db: Db, svc: Services, job: Job, fault: Fault)
    requires LateFinish(db, job, fault)
    ensures Exec(db, svc, job, fault).0.invoices
         == db.invoices[job.invoiceId := db.invoices[job.invoiceId].(status := NeedsReview)]
  {
  }

  /** A statement of the worker changes a reviewed invoice exactly when it is the finish of a delivery that meets a
      finished document: without overlapping deliveries, terminal statuses absorb. */
  lemma OnlyLateFinishReopens(db: Db, svc: Services, job: Job, fault: Fault, i: Id)
    requires Resident(db, job) ==> |db.documents| == |db.processing| && DocSound(db, svc, job.documentId)
    requires JobSound(db, svc, job) && i < |db.invoices| && Reviewed(db.invoices[i].status)
    ensures var invoices' := Exec(db, svc, job, fault).0.invoices;
      i < |invoices'| && (invoices'[i] != db.invoices[i] <==>
        LateFinish(db, job, fault) && i == job.invoiceId && db.invoices[i].status != NeedsReview)
  {
    hide Exec, DocSound, JobSound;
    ExecFrame(db, svc, job, fault);
    if LateFinish(db, job, fault) {
      LateFinishReopens(db, svc, job, fault);
    } else {
      ExecQuiet(db, svc, job, fault);
    }
  }

  lemma UploadFrame(
    db: Db, vendor: Option<Id>, contract: Option<Id>, bytes: Bytes, mime: Text, fault: Fault, cleanup: bool)
    ensures var db' := Upload(db, vendor, contract, bytes, mime, fault, cleanup).db;
      IngestFrame(db, db') && QuietStatuses(db.invoices, db'.invoices) && db'.promotions == db.promotions
      && db.documents <= db'.documents
      && (forall d :: |db.documents| <= d < |db'.documents| ==> db'.documents[d].sha256.None?)
      && (forall i :: |db.invoices| <= i < |db'.invoices| ==> HasDocument(db', i))
  {
    hide RelationshipProblem;
    var db' := Upload(db, vendor, contract, bytes, mime, fault, cleanup).db;
    if |db'.documents| > |db.documents| { assert db'.documents[|db.documents|].invoiceId == |db.invoices|; }
  }

  lemma MarkManualReviewFrame(db: Db, svc: Services, documentId: Id)
    requires |db.documents| == |db.processing| && (documentId < |db.documents| ==> DocSound(db, svc, documentId))
    ensures var db' := MarkManualReview(db, documentId);
      IngestFrame(db, db') && QuietStatuses(db.invoices, db'.invoices) && db'.promotions == db.promotions
      && db'.documents == db.documents && |db'.invoices| == |db.invoices|
  {
  }
}
