/** The approvals service, statement by statement over the tenant database. */
module ApprovalsServices {
  import opened Basics
  import opened Risk
  import opened Schema
  import opened Approvals
  import opened Database

  // bloctrust_guard_invoice_approval, on an update of an invoice's status.
  ghost predicate ApprovalGuard(requests: seq<Request>, invoiceId: Id, before: Invoice, after: Invoice) {
    after.status == Approved && before.status != Approved ==>
      exists r :: 0 <= r < |requests| && requests[r].invoiceId == invoiceId
        && requests[r].invoiceVersion == after.version && requests[r].status == RequestApproved
  }

  class ApprovalsService {
    const database: TenantDatabase
    const stepUpTtl: nat

    constructor (database: TenantDatabase, stepUpTtl: nat)
      ensures this.database == database && this.stepUpTtl == stepUpTtl
    {
      this.database, this.stepUpTtl := database, stepUpTtl;
    }

    /** The organization's policy row, created on first use. */
    method GetPolicy() returns (p: Policy)
      modifies database
      ensures p == PolicyOf(old(database.Rows()))
      ensures database.Rows() == Approvals.GetPolicy(old(database.Rows())).db
    {
      if database.policy.None? { database.policy := Some(DEFAULT_POLICY); }
      p := database.policy.value;
    }

    method UpdatePolicy(dto: PolicyDto) returns (reply: Reply)
      modifies database
      ensures Outcome(database.Rows(), reply) == Approvals.UpdatePolicy(old(database.Rows()), dto)
    {
      var saved := database.Rows();
      var existing := GetPolicy();
      var s := existing.snapshot;
      var mediumThreshold := Value(dto.mediumThreshold, s.mediumThreshold);
      var highThreshold := Value(dto.highThreshold, s.highThreshold);
      if mediumThreshold >= highThreshold {
        database.Rollback(saved);
        return Err(ThresholdsInvalid);
      }
      if HasNull(dto) {
        database.Rollback(saved);
        return Err(InternalError);
      }
      if mediumThreshold == 0 {
        database.Rollback(saved);
        return Err(ConstraintViolation);
      }
      database.policy := Some(existing.(snapshot := Snapshot(
        s.ruleVersion + 1, mediumThreshold, highThreshold,
        Value(dto.changedBankAccountScore, s.changedBankAccountScore),
        Value(dto.duplicateHashScore, s.duplicateHashScore),
        Value(dto.duplicateInvoiceNumberScore, s.duplicateInvoiceNumberScore),
        Value(dto.contractLimitScore, s.contractLimitScore), Value(dto.amountSpikeScore, s.amountSpikeScore))));
      return Ok(0);
    }

    // The facts submit reads, and their evaluation.
    method Assess(invoiceId: Id, bank: Id, policy: Policy) returns (evaluation: Evaluation)
      requires invoiceId < |database.invoices| && bank < |database.bankVersions|
      requires database.invoices[invoiceId].vendorId.Some? && database.invoices[invoiceId].invoiceNumber.Some?
      requires database.invoices[invoiceId].totalAmount.Some?
      ensures evaluation == Evaluate(NatText(invoiceId), FactsFor(database.Rows(), invoiceId, bank), policy.snapshot)
    {
      hide Evaluate;
      var invoice := database.invoices[invoiceId];
      var vendor := invoice.vendorId.value;
      var duplicateInvoiceNumber := HasSameNumber(database.invoices, vendor, invoice.invoiceNumber.value, invoiceId);
      var previousAmounts := PriorAmounts(database.invoices, vendor, invoiceId, 12);
      var facts := Facts(
        Some(database.bankVersions[bank].versionNumber), HasDuplicateDocument(database.Rows(), invoiceId),
        duplicateInvoiceNumber, Some(DecimalText(invoice.totalAmount.value)),
        ContractLimit(database.Rows(), invoice), Average(previousAmounts));
      evaluation := EvaluateInvoiceRisk(NatText(invoiceId), facts, policy.snapshot);
    }

    method Submit(auth: Auth, invoiceId: Id, version: nat, key: Option<Text>) returns (reply: Reply)
      modifies database
      ensures Outcome(database.Rows(), reply) == Approvals.Submit(old(database.Rows()), auth, invoiceId, version, key)
    {
      hide Submitted, HasDocument, DocumentsClean;
      var keyHash := KeyHash(key);
      if keyHash.None? { return Err(IdempotencyKeyRequired); }
      var replay := FindRequest(database.requests, keyHash.value);
      if replay.Some? {
        if database.requests[replay.value].invoiceId != invoiceId { return Err(IdempotencyKeyReused); }
        return Ok(replay.value);
      }
      if invoiceId >= |database.invoices| { return Err(NotFound); }
      var invoice := database.invoices[invoiceId];
      if invoice.version != version { return Err(StaleVersion); }
      if invoice.status != NeedsReview { return Err(NotReadyForSubmission); }
      if invoice.vendorId.None? || Missing(invoice.invoiceNumber) || Missing(invoice.currency)
        || invoice.totalAmount.None? || !HasDocument(database.Rows(), invoiceId)
          || !DocumentsClean(database.Rows(), invoiceId)
      {
        return Err(ReviewIncomplete);
      }
      reply := CreateRequest(auth, invoiceId, keyHash.value);
    }

    // The assessment, the request and the invoice's move, once the invoice is known to be ready.
    method CreateRequest(auth: Auth, invoiceId: Id, keyHash: Digest) returns (reply: Reply)
      requires invoiceId < |database.invoices|
      requires var problem := SubmitProblem(database.Rows(), invoiceId, database.invoices[invoiceId].version);
        problem.None? || problem == Some(BankAccountRequired)
      modifies database
      ensures var before := old(database.Rows());
        var problem := SubmitProblem(before, invoiceId, before.invoices[invoiceId].version);
        Outcome(database.Rows(), reply) ==
          if problem.Some? then Outcome(before, Err(problem.value))
          else Outcome(Submitted(before, auth, invoiceId, keyHash), Ok(|before.requests|))
    {
      hide Evaluate, FactsFor, HasDocument, DocumentsClean;
      var saved := database.Rows();
      var invoice := database.invoices[invoiceId];
      var policy := GetPolicy();
      var bankAccount := LatestBank(database.bankVersions, invoice.vendorId.value);
      if bankAccount.None? {
        database.Rollback(saved);
        return Err(BankAccountRequired);
      }
      FactsIgnorePolicy(saved, database.policy, invoiceId, bankAccount.value);
      var evaluation := Assess(invoiceId, bankAccount.value, policy);
      var requestVersion := LatestRequestVersion(database.requests, invoiceId) + 1;
      database.assessments := database.assessments + [Assessment(invoiceId, invoice.version + 1, evaluation)];
      database.requests := database.requests + [Request(
        invoiceId, invoice.version + 1, |database.assessments| - 1, bankAccount.value, requestVersion, Pending,
        if evaluation.level == HIGH then 2 else 1, auth.membershipId, keyHash, None)];
      database.invoices := database.invoices[invoiceId := invoice.(
        status := AwaitingApproval, bankVersionId := bankAccount, version := invoice.version + 1)];
      return Ok(|database.requests| - 1);
    }

    lemma FactsIgnorePolicy(db: Db, policy: Option<Policy>, invoiceId: Id, bank: Id)
      requires invoiceId < |db.invoices| && bank < |db.bankVersions|
      requires db.invoices[invoiceId].vendorId.Some? && db.invoices[invoiceId].invoiceNumber.Some?
      requires db.invoices[invoiceId].totalAmount.Some?
      ensures FactsFor(db.(policy := policy), invoiceId, bank) == FactsFor(db, invoiceId, bank)
    {
    }

    // Both conditional updates of invalidate.
    method Invalidate(requestId: Id, reason: Reason)
      requires requestId < |database.requests| && database.requests[requestId].invoiceId < |database.invoices|
      modifies database
      ensures database.Rows() == Approvals.Invalidate(old(database.Rows()), requestId, reason)
    {
      var request := database.requests[requestId];
      if request.status == Pending {
        database.requests := database.requests[requestId := request.(status := Invalidated,
          invalidatedReason := Some(reason))];
      }
      var invoice := database.invoices[request.invoiceId];
      if invoice.version == request.invoiceVersion && invoice.status == AwaitingApproval {
        database.invoices := database.invoices[request.invoiceId := invoice.(status := NeedsReview,
          version := invoice.version + 1)];
      }
    }

    method Decide(sessions: seq<Session>, now: nat, auth: Auth, requestId: Id, dto: DecisionDto, key: Option<Text>)
      returns (reply: Reply)
      modifies database
      ensures Outcome(database.Rows(), reply)
           == Approvals.Decide(old(database.Rows()), sessions, now, stepUpTtl, auth, requestId, dto, key)
    {
      var keyHash := KeyHash(key);
      if keyHash.None? { return Err(IdempotencyKeyRequired); }
      var replay := FindDecision(database.decisions, keyHash.value);
      if replay.Some? {
        if database.decisions[replay.value].requestId != requestId { return Err(IdempotencyKeyReused); }
        return Ok(requestId);
      }
      if requestId >= |database.requests|
        || database.requests[requestId].invoiceId >= |database.invoices| { return Err(NotFound); }
      var request := database.requests[requestId];
      if request.status != Pending { return Err(RequestNotPending); }
      if request.version != dto.approvalVersion { return Err(StaleApproval); }
      var invoice := database.invoices[request.invoiceId];
      if invoice.version != request.invoiceVersion || invoice.status != AwaitingApproval {
        Invalidate(requestId, InvoiceVersionChanged);
        return Err(StaleApproval);
      }
      if invoice.vendorId.Some? {
        var latestBankAccount := LatestBank(database.bankVersions, invoice.vendorId.value);
        if latestBankAccount != Some(request.bankVersionId) {
          Invalidate(requestId, VendorBankAccountChanged);
          return Err(StaleApproval);
        }
      }
      reply := RecordDecision(sessions, now, auth, requestId, dto, keyHash.value);
    }

    // From the membership check to the end of the callback.
    method RecordDecision(
        sessions: seq<Session>, now: nat, auth: Auth, requestId: Id, dto: DecisionDto, keyHash: Digest)
      returns (reply: Reply)
      requires requestId < |database.requests| && database.requests[requestId].invoiceId < |database.invoices|
      requires Staleness(database.Rows(), database.requests[requestId]).None?
      modifies database
      ensures var before := old(database.Rows());
        var problem := DecideProblem(before, sessions, now, stepUpTtl, auth, requestId, dto);
        Outcome(database.Rows(), reply) ==
          if problem.Some? then Outcome(before, Err(problem.value))
          else Outcome(Decided(before, now, auth, requestId, dto, keyHash,
            StepUp(sessions, now, stepUpTtl, auth).value), Ok(requestId))
    {
      var saved := database.Rows();
      var request := database.requests[requestId];
      if !EligibleMember(saved, auth) { return Err(ApproverNotEligible); }
      var policy := GetPolicy();
      if policy.requireSeparationOfDuties && request.initiatedBy == auth.membershipId {
        database.Rollback(saved);
        return Err(SelfApprovalForbidden);
      }
      var stepUp := StepUp(sessions, now, stepUpTtl, auth);
      if stepUp.None? {
        database.Rollback(saved);
        return Err(StepUpRequired);
      }
      if |Trim(dto.reason)| < 10 {
        database.Rollback(saved);
        return Err(ConstraintViolation);
      }
      if HasDecided(database.decisions, requestId, auth.membershipId) {
        database.Rollback(saved);
        return Err(DuplicateDecision);
      }
      database.decisions := database.decisions + [Decision(
        requestId, request.version, auth.membershipId, auth.sessionId, dto.outcome, Trim(dto.reason), stepUp.value,
          keyHash, now)];
      if dto.outcome == Reject {
        Complete(requestId, RequestRejected, Rejected);
      } else {
        var approvals := CountDecisions(database.decisions, requestId, request.version, Approve);
        if approvals >= request.requiredDecisions { Complete(requestId, RequestApproved, Approved); }
      }
      return Ok(requestId);
    }

    // The request first, then its invoice: the guard on approved invoices never rejects the second update.
    method Complete(requestId: Id, status: RequestStatus, invoiceStatus: InvoiceStatus)
      requires requestId < |database.requests| && database.requests[requestId].invoiceId < |database.invoices|
      requires database.invoices[database.requests[requestId].invoiceId].version
        == database.requests[requestId].invoiceVersion
      requires invoiceStatus == Approved ==> status == RequestApproved
      modifies database
      ensures var before := old(database.Rows());
        var req := before.requests[requestId];
        var inv := before.invoices[req.invoiceId];
        database.Rows() == before.(
          requests := before.requests[requestId := req.(status := status)],
          invoices := before.invoices[req.invoiceId := inv.(status := invoiceStatus)])
      ensures var i := old(database.requests[requestId].invoiceId);
        ApprovalGuard(database.requests, i, old(database.invoices)[i], database.invoices[i])
    {
      var request := database.requests[requestId];
      database.requests := database.requests[requestId := request.(status := status)];
      var invoice := database.invoices[request.invoiceId];
      assert database.requests[requestId].invoiceId == request.invoiceId;
      database.invoices := database.invoices[request.invoiceId := invoice.(status := invoiceStatus)];
    }
  }
}
