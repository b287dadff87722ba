/** What every reachable set of tenant rows satisfies about approvals. */
module ApprovalInvariant {
  import opened Basics
  import opened Risk
  import opened Schema
  import opened Approvals

  // ---------------------------------------------------------------- requests and the invoices they hold

  ghost predicate PendingFor(req: Request, invoiceId: Id) { req.status == Pending && req.invoiceId == invoiceId }

  // A completed request speaks for the invoice as it stands, bank version included.
  ghost predicate Concludes(req: Request, status: RequestStatus, invoiceId: Id, inv: Invoice) {
    && req.status == status && req.invoiceId == invoiceId && req.invoiceVersion == inv.version
    && inv.bankVersionId == Some(req.bankVersionId)
  }

  // A pending request speaks for its invoice as it stands and for the vendor's newest bank version.
  ghost predicate SpeaksFor(inv: Invoice, bs: seq<BankVersion>, req: Request) {
    && inv.status == AwaitingApproval && inv.version == req.invoiceVersion
    && inv.vendorId.Some? && LatestBank(bs, inv.vendorId.value) == Some(req.bankVersionId)
    && inv.bankVersionId == Some(req.bankVersionId)
  }

  // The statuses that requests vouch for.
  predicate Spoken(status: InvoiceStatus) { status == AwaitingApproval || status == Approved || status == Rejected }

  ghost predicate RequestBound(invoices: seq<Invoice>, bs: seq<BankVersion>, req: Request) {
    && req.invoiceId < |invoices|
    && req.invoiceVersion <= invoices[req.invoiceId].version
    && (req.status == Pending ==> SpeaksFor(invoices[req.invoiceId], bs, req))
  }

  ghost predicate RequestsBound(invoices: seq<Invoice>, bs: seq<BankVersion>, requests: seq<Request>) {
    forall r :: 0 <= r < |requests| ==> RequestBound(invoices, bs, requests[r])
  }

  ghost predicate OnePending(requests: seq<Request>) {
    forall q, r :: 0 <= q < r < |requests| && requests[q].status == Pending && requests[r].status == Pending ==>
      requests[q].invoiceId != requests[r].invoiceId
  }

  ghost predicate InvoiceBacked(inv: Invoice, invoiceId: Id, requests: seq<Request>) {
    match inv.status
    case AwaitingApproval => exists r :: 0 <= r < |requests| && PendingFor(requests[r], invoiceId)
    case Approved => exists r :: 0 <= r < |requests| && Concludes(requests[r], RequestApproved, invoiceId, inv)
    case Rejected => exists r :: 0 <= r < |requests| && Concludes(requests[r], RequestRejected, invoiceId, inv)
    case _ => inv.bankVersionId.None?
  }

  ghost predicate InvoicesBacked(invoices: seq<Invoice>, requests: seq<Request>) {
    forall i :: 0 <= i < |invoices| ==> InvoiceBacked(invoices[i], i, requests)
  }

  // A vendor's bank versions are numbered upwards in the order they were added.
  ghost predicate BanksSound(bs: seq<BankVersion>) {
    && (forall b :: 0 <= b < |bs| ==> bs[b].versionNumber >= 1)
    && (forall b, c :: 0 <= b < c < |bs| && bs[b].vendorId == bs[c].vendorId ==>
          bs[b].versionNumber < bs[c].versionNumber)
  }

  // ---------------------------------------------------------------- decisions

  ghost predicate CountsExact(decisions: seq<Decision>, requestId: Id, req: Request) {
    var approvals := CountDecisions(decisions, requestId, req.version, Approve);
    var rejections := CountDecisions(decisions, requestId, req.version, Reject);
    match req.status
    case RequestApproved => approvals == req.requiredDecisions && rejections == 0
    case RequestRejected => approvals < req.requiredDecisions && rejections == 1
    case _ => approvals < req.requiredDecisions && rejections == 0
  }

  ghost predicate DecisionSound(requests: seq<Request>, d: Decision) {
    && d.requestId < |requests|
    && d.approvalVersion == requests[d.requestId].version
    && d.member != requests[d.requestId].initiatedBy
  }

  ghost predicate DistinctDeciders(decisions: seq<Decision>) {
    forall d, e :: 0 <= d < e < |decisions| && decisions[d].requestId == decisions[e].requestId ==>
      decisions[d].member != decisions[e].member
  }

  ghost predicate DecisionsSound(requests: seq<Request>, decisions: seq<Decision>) {
    && (forall d :: 0 <= d < |decisions| ==> DecisionSound(requests, decisions[d]))
    && (forall r :: 0 <= r < |requests| ==> CountsExact(decisions, r, requests[r]))
    && DistinctDeciders(decisions)
  }

  ghost predicate KeysUnique(requests: seq<Request>, decisions: seq<Decision>) {
    && (forall q, r :: 0 <= q < r < |requests| ==> requests[q].keyHash != requests[r].keyHash)
    && (forall d, e :: 0 <= d < e < |decisions| ==> decisions[d].keyHash != decisions[e].keyHash)
  }

  // ---------------------------------------------------------------- evidence

  ghost predicate PolicySound(policy: Option<Policy>) {
    policy.Some? ==> policy.value.requireSeparationOfDuties && ValidSnapshot(policy.value.snapshot)
  }

  ghost predicate AssessmentSound(invoices: seq<Invoice>, policy: Option<Policy>, a: Assessment) {
    && a.invoiceId < |invoices| && a.invoiceVersion <= invoices[a.invoiceId].version
    && policy.Some? && a.evaluation.ruleVersion <= policy.value.snapshot.ruleVersion
  }

  ghost predicate RequestEvidenced(assessments: seq<Assessment>, req: Request) {
    && req.assessmentId < |assessments|
    && assessments[req.assessmentId].invoiceId == req.invoiceId
    && assessments[req.assessmentId].invoiceVersion == req.invoiceVersion
    && req.requiredDecisions == RequiredDecisions(assessments[req.assessmentId].evaluation.level)
  }

  // The unique indexes on assessments and requests, other than the idempotency key.
  ghost predicate EvidenceUnique(assessments: seq<Assessment>, requests: seq<Request>) {
    && (forall a, b :: 0 <= a < b < |assessments| && assessments[a].invoiceId == assessments[b].invoiceId ==>
          assessments[a].invoiceVersion != assessments[b].invoiceVersion)
    && (forall q, r :: 0 <= q < r < |requests| ==> requests[q].assessmentId != requests[r].assessmentId)
    && (forall q, r :: 0 <= q < r < |requests| && requests[q].invoiceId == requests[r].invoiceId ==>
          requests[q].version != requests[r].version)
  }

  ghost predicate EvidenceSound(
    invoices: seq<Invoice>, policy: Option<Policy>, assessments: seq<Assessment>, requests: seq<Request>)
  {
    && PolicySound(policy)
    && (forall a :: 0 <= a < |assessments| ==> AssessmentSound(invoices, policy, assessments[a]))
    && (forall r :: 0 <= r < |requests| ==> RequestEvidenced(assessments, requests[r]))
    && EvidenceUnique(assessments, requests)
  }

  // ---------------------------------------------------------------- all of it

  ghost predicate ApprovalsSound(db: Db) {
    && RequestsBound(db.invoices, db.bankVersions, db.requests)
    && OnePending(db.requests)
    && InvoicesBacked(db.invoices, db.requests)
    && BanksSound(db.bankVersions)
    && DecisionsSound(db.requests, db.decisions)
    && KeysUnique(db.requests, db.decisions)
    && EvidenceSound(db.invoices, db.policy, db.assessments, db.requests)
  }

  // ---------------------------------------------------------------- request rows are evidence

  // The ApprovalRequest_valid_update trigger, over one row.
  ghost predicate RequestEvolves(before: Request, after: Request) {
    && after.invoiceId == before.invoiceId && after.invoiceVersion == before.invoiceVersion
    && after.assessmentId == before.assessmentId && after.bankVersionId == before.bankVersionId
    && after.version == before.version && after.requiredDecisions == before.requiredDecisions
    && after.initiatedBy == before.initiatedBy && after.keyHash == before.keyHash
    && (before.status != Pending ==> after.status == before.status)
  }

  ghost predicate RequestsEvolve(before: seq<Request>, after: seq<Request>) {
    |before| <= |after| && forall r :: 0 <= r < |before| ==> RequestEvolves(before[r], after[r])
  }

  // ---------------------------------------------------------------- one step at a time

  // Steps that only retire pending requests keep decisions, keys and evidence.
  lemma RetiringKeepsEvidence(
    db: Db, invoices': seq<Invoice>, requests': seq<Request>)
    requires ApprovalsSound(db)
    requires |requests'| == |db.requests| && RequestsEvolve(db.requests, requests')
    requires forall r :: 0 <= r < |requests'| ==>
      requests'[r].status == db.requests[r].status || requests'[r].status == Invalidated
    requires |invoices'| >= |db.invoices|
    requires forall i :: 0 <= i < |db.invoices| ==> db.invoices[i].version <= invoices'[i].version
    ensures DecisionsSound(requests', db.decisions) && KeysUnique(requests', db.decisions)
    ensures EvidenceSound(invoices', db.policy, db.assessments, requests')
  {
  }

  lemma StillVouched(inv: Invoice, i: Id, requests: seq<Request>, requests': seq<Request>)
    requires InvoiceBacked(inv, i, requests) && Spoken(inv.status) && |requests'| >= |requests|
    requires forall r :: 0 <= r < |requests| ==>
      requests'[r] == requests[r]
        || (requests[r].status == Pending && (requests[r].invoiceId != i || inv.status != AwaitingApproval))
    ensures InvoiceBacked(inv, i, requests')
  {
  }

  // Retiring pending requests of invoices that leave AWAITING_APPROVAL keeps the rest backed.
  lemma StillBacked(invoices: seq<Invoice>, requests: seq<Request>, invoices': seq<Invoice>, requests': seq<Request>)
    requires InvoicesBacked(invoices, requests) && |invoices'| == |invoices| && |requests'| == |requests|
    requires forall i :: 0 <= i < |invoices| ==>
      invoices'[i] == invoices[i] || (!Spoken(invoices'[i].status) && invoices'[i].bankVersionId.None?)
    requires forall r :: 0 <= r < |requests| ==>
      requests'[r] == requests[r]
      || (requests[r].status == Pending && requests[r].invoiceId < |invoices|
          && invoices'[requests[r].invoiceId].status != AwaitingApproval)
    ensures InvoicesBacked(invoices', requests')
  {
  }

  lemma FreezeBinds(db: Db, vendorId: Id, added: BankVersion)
    requires ApprovalsSound(db) && added.vendorId == vendorId
    ensures RequestsBound(FreezeInvoices(db.invoices, vendorId), db.bankVersions + [added],
                          FreezeRequests(db.requests, db.invoices, vendorId))
  {
  }

  // A vendor's first bank version meets no request.
  lemma FirstVersionBinds(db: Db, vendorId: Id, added: BankVersion)
    requires ApprovalsSound(db) && added.vendorId == vendorId && NextBankNumber(db.bankVersions, vendorId) == 1
    ensures RequestsBound(db.invoices, db.bankVersions + [added], db.requests)
  {
  }

  lemma AddBankVersionKeeps(db: Db, vendorId: Id)
    requires ApprovalsSound(db)
    ensures ApprovalsSound(AddBankVersion(db, vendorId).db)
    ensures RequestsEvolve(db.requests, AddBankVersion(db, vendorId).db.requests)
  {
    if vendorId < |db.vendors| {
      var added := BankVersion(vendorId, NextBankNumber(db.bankVersions, vendorId));
      if added.versionNumber > 1 {
        FreezeBinds(db, vendorId, added);
        var invoices', requests' := FreezeInvoices(db.invoices, vendorId),
          FreezeRequests(db.requests, db.invoices, vendorId);
        forall r | 0 <= r < |db.requests| && requests'[r] != db.requests[r]
          ensures db.requests[r].status == Pending && db.requests[r].invoiceId < |db.invoices|
                  && invoices'[db.requests[r].invoiceId].status != AwaitingApproval
        {
        }
        StillBacked(db.invoices, db.requests, invoices', requests');
        RetiringKeepsEvidence(db, invoices', requests');
      } else {
        FirstVersionBinds(db, vendorId, added);
      }
    }
  }

  lemma EditBinds(db: Db, invoiceId: Id, dto: EditDto)
    requires ApprovalsSound(db) && invoiceId < |db.invoices| && EditProblem(db, invoiceId, dto).None?
    ensures var db' := Edit(db, invoiceId, dto).db; RequestsBound(db'.invoices, db'.bankVersions, db'.requests)
  {
  }

  lemma EditKeeps(db: Db, invoiceId: Id, dto: EditDto)
    requires ApprovalsSound(db)
    ensures ApprovalsSound(Edit(db, invoiceId, dto).db)
    ensures RequestsEvolve(db.requests, Edit(db, invoiceId, dto).db.requests)
  {
    if EditProblem(db, invoiceId, dto).None? {
      var db' := Edit(db, invoiceId, dto).db;
      EditBinds(db, invoiceId, dto);
      if db.invoices[invoiceId].status != AwaitingApproval {
        assert db.invoices[invoiceId].status != Approved;
      }
      StillBacked(db.invoices, db.requests, db'.invoices, db'.requests);
      RetiringKeepsEvidence(db, db'.invoices, db'.requests);
    }
  }

  // Document steps move an invoice between statuses no request speaks about.
  lemma OtherStatusKeeps(db: Db, invoices': seq<Invoice>)
    requires ApprovalsSound(db) && |db.invoices| <= |invoices'|
    requires forall i :: 0 <= i < |db.invoices| ==>
      invoices'[i] == db.invoices[i]
      || (invoices'[i] == db.invoices[i].(status := invoices'[i].status)
          && !Spoken(db.invoices[i].status) && !Spoken(invoices'[i].status))
    requires forall i :: |db.invoices| <= i < |invoices'| ==>
      !Spoken(invoices'[i].status) && invoices'[i].bankVersionId.None?
    ensures ApprovalsSound(db.(invoices := invoices'))
  {
  }

  lemma PolicyKeeps(db: Db, policy': Policy)
    requires ApprovalsSound(db) && PolicySound(Some(policy'))
    requires db.policy.Some? ==> db.policy.value.snapshot.ruleVersion <= policy'.snapshot.ruleVersion
    ensures ApprovalsSound(db.(policy := Some(policy')))
  {
  }

  lemma UpdatePolicyKeeps(db: Db, dto: PolicyDto)
    requires ApprovalsSound(db)
    ensures ApprovalsSound(UpdatePolicy(db, dto).db) && ApprovalsSound(GetPolicy(db).db)
  {
    PolicyKeeps(db, PolicyOf(db));
    if UpdatePolicy(db, dto).reply.Ok? { PolicyKeeps(db, UpdatePolicy(db, dto).db.policy.value); }
  }

  // ---------------------------------------------------------------- submit

  lemma CountIgnoresNewRequest(
      decisions: seq<Decision>, requests: seq<Request>, requestId: Id, version: nat, outcome: DecisionOutcome)
    requires forall d :: 0 <= d < |decisions| ==> decisions[d].requestId < |requests|
    requires requestId >= |requests|
    ensures CountDecisions(decisions, requestId, version, outcome) == 0
  {
  }

  lemma SubmittedBinds(db: Db, auth: Auth, i: Id, hash: Digest)
    requires ApprovalsSound(db) && i < |db.invoices| && SubmitProblem(db, i, db.invoices[i].version).None?
    ensures var db' := Submitted(db, auth, i, hash);
      RequestsBound(db'.invoices, db'.bankVersions, db'.requests) && OnePending(db'.requests)
      && InvoicesBacked(db'.invoices, db'.requests)
  {
    hide Evaluate, FactsFor, LatestRequestVersion, DecisionsSound, EvidenceSound, KeysUnique;
    var db' := Submitted(db, auth, i, hash);
    var n := |db.requests|;
    forall r | 0 <= r < |db'.requests| ensures RequestBound(db'.invoices, db'.bankVersions, db'.requests[r]) {
      if r < n { assert RequestBound(db.invoices, db.bankVersions, db.requests[r]); }
    }
    forall r | 0 <= r < n && db.requests[r].status == Pending ensures db.requests[r].invoiceId != i {
      assert RequestBound(db.invoices, db.bankVersions, db.requests[r]);
    }
    forall j | 0 <= j < |db'.invoices| ensures InvoiceBacked(db'.invoices[j], j, db'.requests) {
      assert InvoiceBacked(db.invoices[j], j, db.requests);
      if j == i {
        assert PendingFor(db'.requests[n], i);
      } else if Spoken(db.invoices[j].status) {
        StillVouched(db.invoices[j], j, db.requests, db'.requests);
      }
    }
  }

  lemma SubmittedEvidence(db: Db, auth: Auth, i: Id, hash: Digest)
    requires ApprovalsSound(db) && i < |db.invoices| && SubmitProblem(db, i, db.invoices[i].version).None?
    ensures var db' := Submitted(db, auth, i, hash);
      EvidenceSound(db'.invoices, db'.policy, db'.assessments, db'.requests)
  {
    hide FactsFor, Contributions, EvidenceHash, DecisionsSound, InvoicesBacked, RequestsBound;
    var db' := Submitted(db, auth, i, hash);
    forall a | 0 <= a < |db'.assessments| ensures AssessmentSound(db'.invoices, db'.policy, db'.assessments[a]) {
      if a < |db.assessments| { assert AssessmentSound(db.invoices, db.policy, db.assessments[a]); }
    }
    forall r | 0 <= r < |db'.requests| ensures RequestEvidenced(db'.assessments, db'.requests[r]) {
      if r < |db.requests| { assert RequestEvidenced(db.assessments, db.requests[r]); }
    }
    SubmittedIsUnique(db, auth, i, hash);
    hide EvidenceUnique;
  }

  lemma SubmittedIsUnique(db: Db, auth: Auth, i: Id, hash: Digest)
    requires ApprovalsSound(db) && i < |db.invoices| && SubmitProblem(db, i, db.invoices[i].version).None?
    ensures var db' := Submitted(db, auth, i, hash); EvidenceUnique(db'.assessments, db'.requests)
  {
    hide FactsFor, Contributions, EvidenceHash, DecisionsSound, InvoicesBacked, RequestsBound;
    forall a | 0 <= a < |db.assessments| && db.assessments[a].invoiceId == i
      ensures db.assessments[a].invoiceVersion != db.invoices[i].version + 1
    {
      assert AssessmentSound(db.invoices, db.policy, db.assessments[a]);
    }
    forall r | 0 <= r < |db.requests| ensures db.requests[r].assessmentId != |db.assessments| {
      assert RequestEvidenced(db.assessments, db.requests[r]);
    }
  }

  lemma SubmittedDecisions(db: Db, auth: Auth, i: Id, hash: Digest)
    requires ApprovalsSound(db) && i < |db.invoices| && SubmitProblem(db, i, db.invoices[i].version).None?
    ensures DecisionsSound(Submitted(db, auth, i, hash).requests, db.decisions)
  {
    hide FactsFor, Contributions, EvidenceHash;
    var requests' := Submitted(db, auth, i, hash).requests;
    forall d | 0 <= d < |db.decisions| ensures DecisionSound(requests', db.decisions[d]) {
      assert DecisionSound(db.requests, db.decisions[d]);
    }
    forall r | 0 <= r < |requests'| ensures CountsExact(db.decisions, r, requests'[r]) {
      if r < |db.requests| {
        assert CountsExact(db.decisions, r, db.requests[r]);
      } else {
        CountIgnoresNewRequest(db.decisions, db.requests, r, requests'[r].version, Approve);
        CountIgnoresNewRequest(db.decisions, db.requests, r, requests'[r].version, Reject);
      }
    }
  }

  lemma SubmittedKeeps(db: Db, auth: Auth, i: Id, hash: Digest)
    requires ApprovalsSound(db) && i < |db.invoices| && SubmitProblem(db, i, db.invoices[i].version).None?
    requires FindRequest(db.requests, hash).None?
    ensures ApprovalsSound(Submitted(db, auth, i, hash))
    ensures RequestsEvolve(db.requests, Submitted(db, auth, i, hash).requests)
  {
    SubmittedBinds(db, auth, i, hash);
    SubmittedEvidence(db, auth, i, hash);
    SubmittedDecisions(db, auth, i, hash);
    SubmittedHasNewKey(db, auth, i, hash);
    hide RequestsBound, OnePending, InvoicesBacked, DecisionsSound, EvidenceSound, KeysUnique, RequestsEvolve;
    hide SubmitProblem, Evaluate, FactsFor, LatestRequestVersion;
  }

  lemma SubmittedHasNewKey(db: Db, auth: Auth, i: Id, hash: Digest)
    requires KeysUnique(db.requests, db.decisions) && FindRequest(db.requests, hash).None?
    requires i < |db.invoices| && SubmitProblem(db, i, db.invoices[i].version).None?
    ensures KeysUnique(Submitted(db, auth, i, hash).requests, db.decisions)
    ensures RequestsEvolve(db.requests, Submitted(db, auth, i, hash).requests)
  {
    hide Evaluate, FactsFor, LatestRequestVersion, HasDocument, DocumentsClean;
  }

  lemma SubmitKeeps(db: Db, auth: Auth, invoiceId: Id, version: nat, key: Option<Text>)
    requires ApprovalsSound(db)
    ensures ApprovalsSound(Submit(db, auth, invoiceId, version, key).db)
    ensures RequestsEvolve(db.requests, Submit(db, auth, invoiceId, version, key).db.requests)
  {
    hide Submitted, ApprovalsSound, HasDocument, DocumentsClean;
    var hash := KeyHash(key);
    if hash.Some? && FindRequest(db.requests, hash.value).None? && SubmitProblem(db, invoiceId, version).None? {
      SubmittedKeeps(db, auth, invoiceId, hash.value);
    }
  }

  // ---------------------------------------------------------------- decide

  /** Under atomic steps a pending request is never stale, so decide never takes its stale branches. */
  lemma PendingIsNeverStale(db: Db, requestId: Id)
    requires ApprovalsSound(db) && requestId < |db.requests| && db.requests[requestId].status == Pending
    ensures db.requests[requestId].invoiceId < |db.invoices|
    ensures Staleness(db, db.requests[requestId]).None?
  {
  }

  lemma CountAfterAppend(decisions: seq<Decision>, d: Decision, requestId: Id, version: nat, outcome: DecisionOutcome)
    ensures CountDecisions(decisions + [d], requestId, version, outcome)
            == CountDecisions(decisions, requestId, version, outcome)
               + if d.requestId == requestId && d.approvalVersion == version && d.outcome == outcome then 1 else 0
  {
  }

  ghost predicate CanDecide(
      db: Db, sessions: seq<Session>, now: nat, ttl: nat, auth: Auth, requestId: Id, dto: DecisionDto) {
    && requestId < |db.requests| && db.requests[requestId].status == Pending
    && db.requests[requestId].version == dto.approvalVersion
    && DecideProblem(db, sessions, now, ttl, auth, requestId, dto).None?
  }

  lemma DecidedCounts(
      db: Db, sessions: seq<Session>, now: nat, ttl: nat, auth: Auth, requestId: Id, dto: DecisionDto, hash: Digest,
      at: nat)
    requires ApprovalsSound(db) && CanDecide(db, sessions, now, ttl, auth, requestId, dto)
    requires db.requests[requestId].invoiceId < |db.invoices|
    ensures var db' := Decided(db, now, auth, requestId, dto, hash, at); DecisionsSound(db'.requests, db'.decisions)
  {
    var db' := Decided(db, now, auth, requestId, dto, hash, at);
    var n := |db.decisions|;
    var d := db'.decisions[n];
    assert PolicySound(db.policy);
    forall e | 0 <= e <= n ensures DecisionSound(db'.requests, db'.decisions[e]) {
      if e < n { assert DecisionSound(db.requests, db.decisions[e]); }
    }
    forall r | 0 <= r < |db'.requests| ensures CountsExact(db'.decisions, r, db'.requests[r]) {
      assert CountsExact(db.decisions, r, db.requests[r]);
      CountAfterAppend(db.decisions, d, r, db.requests[r].version, Approve);
      CountAfterAppend(db.decisions, d, r, db.requests[r].version, Reject);
    }
    forall e | 0 <= e < n && db.decisions[e].requestId == requestId
      ensures db.decisions[e].member != auth.membershipId
    {
      
    }
  }

  lemma DecidedBinds(
      db: Db, sessions: seq<Session>, now: nat, ttl: nat, auth: Auth, requestId: Id, dto: DecisionDto, hash: Digest,
      at: nat)
    requires ApprovalsSound(db) && CanDecide(db, sessions, now, ttl, auth, requestId, dto)
    requires db.requests[requestId].invoiceId < |db.invoices|
    ensures var db' := Decided(db, now, auth, requestId, dto, hash, at);
      RequestsBound(db'.invoices, db'.bankVersions, db'.requests) && OnePending(db'.requests)
      && InvoicesBacked(db'.invoices, db'.requests)
  {
    var db' := Decided(db, now, auth, requestId, dto, hash, at);
    var i := db.requests[requestId].invoiceId;
    assert RequestBound(db.invoices, db.bankVersions, db.requests[requestId]);
    forall r | 0 <= r < |db'.requests| ensures RequestBound(db'.invoices, db'.bankVersions, db'.requests[r]) {
      assert RequestBound(db.invoices, db.bankVersions, db.requests[r]);
    }
    forall j | 0 <= j < |db'.invoices| ensures InvoiceBacked(db'.invoices[j], j, db'.requests) {
      assert InvoiceBacked(db.invoices[j], j, db.requests);
      if j == i {
        assert db'.requests[requestId].status == Pending ==> PendingFor(db'.requests[requestId], i);
        assert db'.requests[requestId].status != Pending ==>
          Concludes(db'.requests[requestId], db'.requests[requestId].status, i, db'.invoices[i]);
      } else if Spoken(db.invoices[j].status) {
        StillVouched(db.invoices[j], j, db.requests, db'.requests);
      }
    }
  }

  lemma DecidedEvidence(
      db: Db, sessions: seq<Session>, now: nat, ttl: nat, auth: Auth, requestId: Id, dto: DecisionDto, hash: Digest,
      at: nat)
    requires ApprovalsSound(db) && CanDecide(db, sessions, now, ttl, auth, requestId, dto)
    requires db.requests[requestId].invoiceId < |db.invoices|
    requires FindDecision(db.decisions, hash).None?
    ensures var db' := Decided(db, now, auth, requestId, dto, hash, at);
      EvidenceSound(db'.invoices, db'.policy, db'.assessments, db'.requests) && KeysUnique(db'.requests, db'.decisions)
  {
    hide DecisionsSound, InvoicesBacked, RequestsBound, OnePending, CountDecisions, DecideProblem;
    var db' := Decided(db, now, auth, requestId, dto, hash, at);
    forall a | 0 <= a < |db.assessments| ensures AssessmentSound(db'.invoices, db'.policy, db'.assessments[a]) {
      assert AssessmentSound(db.invoices, db.policy, db.assessments[a]);
    }
    forall r | 0 <= r < |db'.requests| ensures RequestEvidenced(db'.assessments, db'.requests[r]) {
      assert RequestEvidenced(db.assessments, db.requests[r]);
    }
  }

  lemma DecidedKeeps(
      db: Db, sessions: seq<Session>, now: nat, ttl: nat, auth: Auth, requestId: Id, dto: DecisionDto, hash: Digest,
      at: nat)
    requires ApprovalsSound(db) && CanDecide(db, sessions, now, ttl, auth, requestId, dto)
    requires db.requests[requestId].invoiceId < |db.invoices| && FindDecision(db.decisions, hash).None?
    ensures ApprovalsSound(Decided(db, now, auth, requestId, dto, hash, at))
    ensures RequestsEvolve(db.requests, Decided(db, now, auth, requestId, dto, hash, at).requests)
  {
    hide CanDecide;
    DecidedCounts(db, sessions, now, ttl, auth, requestId, dto, hash, at);
    DecidedBinds(db, sessions, now, ttl, auth, requestId, dto, hash, at);
    DecidedEvidence(db, sessions, now, ttl, auth, requestId, dto, hash, at);
    assert db.requests[requestId].status == Pending
      by { CanDecideIsPending(db, sessions, now, ttl, auth, requestId, dto); }
  }

  lemma CanDecideIsPending(
      db: Db, sessions: seq<Session>, now: nat, ttl: nat, auth: Auth, requestId: Id, dto: DecisionDto)
    requires CanDecide(db, sessions, now, ttl, auth, requestId, dto)
    ensures requestId < |db.requests| && db.requests[requestId].status == Pending
  {
  }

  lemma DecideKeeps(
      db: Db, sessions: seq<Session>, now: nat, ttl: nat, auth: Auth, requestId: Id, dto: DecisionDto,
      key: Option<Text>)
    requires ApprovalsSound(db)
    ensures ApprovalsSound(Decide(db, sessions, now, ttl, auth, requestId, dto, key).db)
    ensures RequestsEvolve(db.requests, Decide(db, sessions, now, ttl, auth, requestId, dto, key).db.requests)
  {
    hide Decided, ApprovalsSound, DecideProblem, StepUp, Staleness, Invalidate;
    var hash := KeyHash(key);
    if hash.Some? && FindDecision(db.decisions, hash.value).None? && requestId < |db.requests|
      && db.requests[requestId].status == Pending && db.requests[requestId].version == dto.approvalVersion
    {
      PendingIsNeverStale(db, requestId);
      if DecideProblem(db, sessions, now, ttl, auth, requestId, dto).None? {
        NoProblemHasStepUp(db, sessions, now, ttl, auth, requestId, dto);
        DecidedKeeps(db, sessions, now, ttl, auth, requestId, dto, hash.value, StepUp(sessions, now, ttl, auth).value);
      }
    }
  }

  lemma NoProblemHasStepUp(
      db: Db, sessions: seq<Session>, now: nat, ttl: nat, auth: Auth, requestId: Id, dto: DecisionDto)
    requires requestId < |db.requests| && DecideProblem(db, sessions, now, ttl, auth, requestId, dto).None?
    ensures StepUp(sessions, now, ttl, auth).Some?
  {
  }
}
