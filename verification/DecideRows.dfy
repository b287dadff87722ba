/** Who may decide and what a decision does, in the columns of the rows. */
module DecideRows {
  import opened Basics
  import opened Schema
  import opened Approvals
  import opened ApprovalInvariant

  // ---------------------------------------------------------------- who may decide

  // An active member row of the caller's user, in a role that approves.
  ghost predicate Approver(members: seq<Member>, auth: Auth) {
    && auth.membershipId < |members|
    && members[auth.membershipId].userId == auth.userId && members[auth.membershipId].active
    && (members[auth.membershipId].role == OwnerRole || members[auth.membershipId].role == AdministratorRole
        || members[auth.membershipId].role == AccountantRole)
  }

  // The caller's session row, unrevoked and unexpired, was stepped up at most ttl ago.
  ghost predicate SteppedUp(sessions: seq<Session>, now: nat, ttl: nat, auth: Auth) {
    && auth.sessionId < |sessions|
    && sessions[auth.sessionId].userId == auth.userId
    && sessions[auth.sessionId].revokedAt == None && now < sessions[auth.sessionId].expiresAt
    && exists at: nat :: sessions[auth.sessionId].stepUpVerifiedAt == Some(at) && now <= at + ttl
  }

  ghost predicate DecidedBefore(decisions: seq<Decision>, r: Id, member: Id) {
    exists d :: 0 <= d < |decisions| && decisions[d].requestId == r && decisions[d].member == member
  }

  ghost predicate DecisionHasKey(db: Db, d: Id, key: Option<Text>) {
    d < |db.decisions| && key.Some? && db.decisions[d].keyHash == OfText(Trim(key.value))
  }

  // The key fits and no decision carries its digest.
  ghost predicate FreshDecisionKey(db: Db, key: Option<Text>) {
    KeyFits(key) && forall d :: 0 <= d < |db.decisions| ==> !DecisionHasKey(db, d, key)
  }

  /** Everything the caller must bring to a pending request whose initiator is given. */
  ghost predicate MayDecide(
      db: Db, sessions: seq<Session>, now: nat, ttl: nat, auth: Auth, r: Id, initiator: Id, reason: Text) {
    && Approver(db.members, auth) && auth.membershipId != initiator
    && !DecidedBefore(db.decisions, r, auth.membershipId)
    && SteppedUp(sessions, now, ttl, auth) && |Trim(reason)| >= 10
  }

  // ---------------------------------------------------------------- when a request is out of date

  ghost predicate NewestBank(bs: seq<BankVersion>, vendor: Id, b: Id) {
    && b < |bs| && bs[b].vendorId == vendor
    && forall c :: 0 <= c < |bs| && bs[c].vendorId == vendor ==> bs[c].versionNumber <= bs[b].versionNumber
  }

  ghost predicate InvoiceMoved(inv: Invoice, req: Request) {
    inv.version != req.invoiceVersion || inv.status != AwaitingApproval
  }

  ghost predicate BankMoved(bs: seq<BankVersion>, inv: Invoice, req: Request) {
    inv.vendorId.Some? && !NewestBank(bs, inv.vendorId.value, req.bankVersionId)
  }

  lemma MovedIsStale(db: Db, req: Request)
    requires BanksSound(db.bankVersions) && req.invoiceId < |db.invoices|
    ensures Staleness(db, req) ==
      if InvoiceMoved(db.invoices[req.invoiceId], req) then Some(InvoiceVersionChanged)
      else if BankMoved(db.bankVersions, db.invoices[req.invoiceId], req) then Some(VendorBankAccountChanged)
      else None
  {
  }

  // ---------------------------------------------------------------- the answers

  lemma DecisionKeyIsFound(db: Db, key: Option<Text>)
    ensures KeyFits(key) ==> (FreshDecisionKey(db, key) <==> FindDecision(db.decisions, OfText(Trim(key.value))).None?)
    ensures forall d: Id :: KeyFits(key) && DecisionHasKey(db, d, key) && KeysUnique(db.requests, db.decisions) ==>
      FindDecision(db.decisions, OfText(Trim(key.value))) == Some(d)
  {
    hide Trim;
    if KeyFits(key) {
      var found := FindDecision(db.decisions, OfText(Trim(key.value)));
      assert found.Some? ==> DecisionHasKey(db, found.value, key);
    }
  }

  lemma StepUpIs(sessions: seq<Session>, now: nat, ttl: nat, auth: Auth)
    ensures StepUp(sessions, now, ttl, auth).Some? <==> SteppedUp(sessions, now, ttl, auth)
    ensures SteppedUp(sessions, now, ttl, auth) ==>
      StepUp(sessions, now, ttl, auth) == sessions[auth.sessionId].stepUpVerifiedAt
  {
  }

  // A pending request of an existing invoice, decided at its version.
  ghost predicate Pends(db: Db, r: Id, version: nat) {
    && r < |db.requests| && db.requests[r].invoiceId < |db.invoices|
    && db.requests[r].status == Pending && db.requests[r].version == version
  }

  // The policy row, or its default, separates duties.
  ghost predicate SeparatesDuties(db: Db) { db.policy.Some? ==> db.policy.value.requireSeparationOfDuties }

  lemma ProblemIs(db: Db, sessions: seq<Session>, now: nat, ttl: nat, auth: Auth, r: Id, dto: DecisionDto)
    requires r < |db.requests|
    ensures DecideProblem(db, sessions, now, ttl, auth, r, dto) ==
      if !Approver(db.members, auth) then Some(ApproverNotEligible)
      else if SeparatesDuties(db) && db.requests[r].initiatedBy == auth.membershipId then Some(SelfApprovalForbidden)
      else if !SteppedUp(sessions, now, ttl, auth) then Some(StepUpRequired)
      else if |Trim(dto.reason)| < 10 then Some(ConstraintViolation)
      else if DecidedBefore(db.decisions, r, auth.membershipId) then Some(DuplicateDecision)
      else None
  {
  }

  /** Every answer of a decision: the first check that fails names it. */
  lemma DecideAnswers(
    db: Db, sessions: seq<Session>, now: nat, ttl: nat, auth: Auth, r: Id, dto: DecisionDto, key: Option<Text>)
    requires BanksSound(db.bankVersions)
    ensures !KeyFits(key) ==>
      Decide(db, sessions, now, ttl, auth, r, dto, key) == Outcome(db, Err(IdempotencyKeyRequired))
    ensures forall d: Id :: KeyFits(key) && DecisionHasKey(db, d, key) && KeysUnique(db.requests, db.decisions) ==>
      Decide(db, sessions, now, ttl, auth, r, dto, key)
        == Outcome(db, if db.decisions[d].requestId == r then Ok(r) else Err(IdempotencyKeyReused))
    ensures FreshDecisionKey(db, key) ==>
      Decide(db, sessions, now, ttl, auth, r, dto, key).reply ==
        if r >= |db.requests| || db.requests[r].invoiceId >= |db.invoices| then Err(NotFound)
        else if db.requests[r].status != Pending then Err(RequestNotPending)
        else if db.requests[r].version != dto.approvalVersion
          || InvoiceMoved(db.invoices[db.requests[r].invoiceId], db.requests[r])
          || BankMoved(db.bankVersions, db.invoices[db.requests[r].invoiceId], db.requests[r]) then Err(StaleApproval)
        else if !Approver(db.members, auth) then Err(ApproverNotEligible)
        else if SeparatesDuties(db) && db.requests[r].initiatedBy == auth.membershipId then Err(SelfApprovalForbidden)
        else if !SteppedUp(sessions, now, ttl, auth) then Err(StepUpRequired)
        else if |Trim(dto.reason)| < 10 then Err(ConstraintViolation)
        else if DecidedBefore(db.decisions, r, auth.membershipId) then Err(DuplicateDecision)
        else Ok(r)
  {
  }

  /** A request out of date is retired with the reason, and its invoice, if it still waits for it, goes back to review
      under a new version; no decision is stored. */
  lemma StaleRequestIsRetired(
    db: Db, sessions: seq<Session>, now: nat, ttl: nat, auth: Auth, r: Id, dto: DecisionDto, key: Option<Text>)
    requires BanksSound(db.bankVersions) && FreshDecisionKey(db, key) && Pends(db, r, dto.approvalVersion)
    requires var req := db.requests[r];
      var inv := db.invoices[req.invoiceId]; InvoiceMoved(inv, req) || BankMoved(db.bankVersions, inv, req)
    ensures var req := db.requests[r];
      var inv := db.invoices[req.invoiceId];
      var moved := InvoiceMoved(inv, req);
      Decide(db, sessions, now, ttl, auth, r, dto, key).db == db.(
        requests := db.requests[r := req.(status := Invalidated,
          invalidatedReason := Some(if moved then InvoiceVersionChanged else VendorBankAccountChanged))],
        invoices := if moved then db.invoices
          else db.invoices[req.invoiceId := inv.(status := NeedsReview, version := inv.version + 1)])
  {
    HashOfKey(key);
    DecisionKeyIsFound(db, key);
    MovedIsStale(db, db.requests[r]);
    hide KeyHash, KeyFits, FindDecision, FreshDecisionKey, DecisionHasKey, Staleness, DecideProblem, Decided;
    hide StepUp, BankMoved, Trim;
  }

  // ---------------------------------------------------------------- what a decision stores

  lemma {:induction false} SomeApproval(decisions: seq<Decision>, r: Id, version: nat, outcome: DecisionOutcome)
    ensures CountDecisions(decisions, r, version, outcome) >= 1 <==>
      exists d :: 0 <= d < |decisions|
        && decisions[d].requestId == r && decisions[d].approvalVersion == version && decisions[d].outcome == outcome
  {
    if decisions != [] { SomeApproval(decisions[..|decisions| - 1], r, version, outcome); }
  }

  ghost predicate ApprovedBefore(decisions: seq<Decision>, r: Id) {
    exists d :: 0 <= d < |decisions| && decisions[d].requestId == r && decisions[d].outcome == Approve
  }

  // The approval of this caller is the last one the request needs.
  ghost predicate LastApproval(db: Db, r: Id)
    requires r < |db.requests|
  {
    db.requests[r].requiredDecisions == 1 || ApprovedBefore(db.decisions, r)
  }

  lemma LastApprovalIs(db: Db, r: Id)
    requires ApprovalsSound(db) && r < |db.requests| && db.requests[r].status == Pending
    ensures CountDecisions(db.decisions, r, db.requests[r].version, Approve) + 1 >= db.requests[r].requiredDecisions
      <==> LastApproval(db, r)
    ensures db.requests[r].requiredDecisions == 1 || db.requests[r].requiredDecisions == 2
  {
    var version := db.requests[r].version;
    SomeApproval(db.decisions, r, version, Approve);
    assert CountsExact(db.decisions, r, db.requests[r]) && RequestEvidenced(db.assessments, db.requests[r]);
    hide CountDecisions;
    forall d | 0 <= d < |db.decisions| && db.decisions[d].requestId == r
      ensures db.decisions[d].approvalVersion == version
    {
      assert DecisionSound(db.requests, db.decisions[d]);
    }
  }

  /** Under the invariant a new key on a pending request is recorded exactly when the caller may decide; otherwise
      nothing changes. */
  lemma DecideRecordsExactly(
    db: Db, sessions: seq<Session>, now: nat, ttl: nat, auth: Auth, r: Id, dto: DecisionDto, key: Option<Text>)
    requires ApprovalsSound(db) && FreshDecisionKey(db, key) && Pends(db, r, dto.approvalVersion)
    ensures var o := Decide(db, sessions, now, ttl, auth, r, dto, key);
      var may := MayDecide(db, sessions, now, ttl, auth, r, db.requests[r].initiatedBy, dto.reason);
      && (|o.db.decisions| != |db.decisions| <==> may)
      && (o.reply == Ok(r) <==> may) && (!may ==> o.db == db)
  {
    HashOfKey(key);
    DecisionKeyIsFound(db, key);
    PendingIsNeverStale(db, r);
    ProblemIs(db, sessions, now, ttl, auth, r, dto);
    assert PolicySound(db.policy);
    hide ApprovalsSound, KeyHash, KeyFits, FindDecision, FreshDecisionKey, Staleness, DecideProblem;
    hide StepUp, SteppedUp, Approver, DecidedBefore, Trim, CountDecisions;
  }

  /** What is recorded: the decision with the caller, the reason, the step-up instant and the key; a rejection ends the
      request and its invoice, the last approval completes both, and any other leaves them. */
  lemma DecisionIsStored(
    db: Db, sessions: seq<Session>, now: nat, ttl: nat, auth: Auth, r: Id, dto: DecisionDto, key: Option<Text>)
    requires ApprovalsSound(db) && FreshDecisionKey(db, key) && Pends(db, r, dto.approvalVersion)
    requires MayDecide(db, sessions, now, ttl, auth, r, db.requests[r].initiatedBy, dto.reason)
    ensures var db' := Decide(db, sessions, now, ttl, auth, r, dto, key).db;
      var req := db.requests[r];
      var inv := db.invoices[req.invoiceId];
      && db'.decisions == db.decisions + [Decision(
           r, req.version, auth.membershipId, auth.sessionId, dto.outcome, Trim(dto.reason),
           sessions[auth.sessionId].stepUpVerifiedAt.value, OfText(Trim(key.value)), now)]
      && db'.requests == db.requests[r := req.(status :=
           if dto.outcome == Reject then RequestRejected
           else if LastApproval(db, r) then RequestApproved else Pending)]
      && db'.invoices == db.invoices[req.invoiceId := inv.(status :=
           if dto.outcome == Reject then Rejected else if LastApproval(db, r) then Approved else AwaitingApproval)]
      && db' == db.(decisions := db'.decisions, requests := db'.requests, invoices := db'.invoices,
           policy := db'.policy)
      && db'.policy.Some? && (db.policy.Some? ==> db'.policy == db.policy)
  {
    HashOfKey(key);
    DecisionKeyIsFound(db, key);
    PendingIsNeverStale(db, r);
    ProblemIs(db, sessions, now, ttl, auth, r, dto);
    StepUpIs(sessions, now, ttl, auth);
    LastApprovalIs(db, r);
    AwaitsApproval(db, r);
    CountsOneMore(db, r, now, auth, dto, key, sessions[auth.sessionId].stepUpVerifiedAt.value);
    hide ApprovalsSound, KeyHash, KeyFits, FindDecision, FreshDecisionKey, Staleness, DecideProblem;
    hide StepUp, SteppedUp, Approver, DecidedBefore, Trim, CountDecisions, LastApproval;
  }

  lemma AwaitsApproval(db: Db, r: Id)
    requires ApprovalsSound(db) && r < |db.requests| && db.requests[r].status == Pending
    ensures db.requests[r].invoiceId < |db.invoices|
    ensures db.invoices[db.requests[r].invoiceId].status == AwaitingApproval
    ensures PolicySound(db.policy)
  {
  }

  lemma CountsOneMore(db: Db, r: Id, now: nat, auth: Auth, dto: DecisionDto, key: Option<Text>, at: nat)
    requires r < |db.requests| && key.Some?
    ensures var version := db.requests[r].version;
      CountDecisions(db.decisions + [Decision(r, version, auth.membershipId, auth.sessionId, dto.outcome,
        Trim(dto.reason), at, OfText(Trim(key.value)), now)], r, version, Approve)
      == CountDecisions(db.decisions, r, version, Approve) + if dto.outcome == Approve then 1 else 0
  {
  }

  /** Under the invariant a call stores no decision, or one of a caller who may decide the pending request. */
  lemma OnlyApproversAreStored(
    db: Db, sessions: seq<Session>, now: nat, ttl: nat, auth: Auth, r: Id, dto: DecisionDto, key: Option<Text>)
    requires ApprovalsSound(db)
    ensures var db' := Decide(db, sessions, now, ttl, auth, r, dto, key).db;
      db'.decisions == db.decisions
      || (Pends(db, r, dto.approvalVersion)
          && MayDecide(db, sessions, now, ttl, auth, r, db.requests[r].initiatedBy, dto.reason)
          && |db'.decisions| == |db.decisions| + 1 && db.decisions <= db'.decisions
          && db'.decisions[|db.decisions|].member == auth.membershipId
          && db'.decisions[|db.decisions|].requestId == r)
  {
  }
}
