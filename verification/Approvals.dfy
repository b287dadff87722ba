/** The dual-approval protocol: what each atomic step does to the tenant rows. */
module Approvals {
  import opened Basics
  import opened Risk
  import opened Schema

  // ---------------------------------------------------------------- idempotency keys

  function KeyHash(key: Option<Text>): Option<Digest> {
    if key.None? then None
    else
      var normalized := Trim(key.value);
      if 16 <= |normalized| <= 200 then Some(OfText(normalized)) else None
  }

  // The key after trimming has between 16 and 200 units.
  ghost predicate KeyFits(key: Option<Text>) { key.Some? && 16 <= |Trim(key.value)| <= 200 }

  lemma HashOfKey(key: Option<Text>)
    ensures KeyHash(key) == if KeyFits(key) then Some(OfText(Trim(key.value))) else None
  {
  }

  // ---------------------------------------------------------------- queries

  function FindRequest(requests: seq<Request>, hash: Digest): (r: Option<Id>)
    ensures r.Some? ==> r.value < |requests| && requests[r.value].keyHash == hash
    ensures r.None? ==> forall i :: 0 <= i < |requests| ==> requests[i].keyHash != hash
  {
    if requests == [] then None
    else
      var n := |requests| - 1;
      var earlier := FindRequest(requests[..n], hash);
      if earlier.Some? then earlier else if requests[n].keyHash == hash then Some(n) else None
  }

  function FindDecision(decisions: seq<Decision>, hash: Digest): (d: Option<Id>)
    ensures d.Some? ==> d.value < |decisions| && decisions[d.value].keyHash == hash
    ensures d.None? ==> forall i :: 0 <= i < |decisions| ==> decisions[i].keyHash != hash
  {
    if decisions == [] then None
    else
      var n := |decisions| - 1;
      var earlier := FindDecision(decisions[..n], hash);
      if earlier.Some? then earlier else if decisions[n].keyHash == hash then Some(n) else None
  }

  /** The vendor's bank version with the highest number. */
  function LatestBank(bs: seq<BankVersion>, vendor: Id): (b: Option<Id>)
    ensures b.Some? ==> b.value < |bs| && bs[b.value].vendorId == vendor
    ensures b.None? ==> forall i :: 0 <= i < |bs| ==> bs[i].vendorId != vendor
    ensures b.Some? ==> forall i :: 0 <= i < |bs| && bs[i].vendorId == vendor ==>
      bs[i].versionNumber <= bs[b.value].versionNumber
  {
    if bs == [] then None
    else
      var n := |bs| - 1;
      var best := LatestBank(bs[..n], vendor);
      if bs[n].vendorId == vendor && (best.None? || bs[best.value].versionNumber < bs[n].versionNumber)
      then Some(n) else best
  }

  function LatestRequestVersion(requests: seq<Request>, invoiceId: Id): (v: nat)
    ensures forall i :: 0 <= i < |requests| && requests[i].invoiceId == invoiceId ==> requests[i].version <= v
    ensures v == 0 || exists i :: 0 <= i < |requests| && requests[i].invoiceId == invoiceId && requests[i].version == v
  {
    if requests == [] then 0
    else
      var n := |requests| - 1;
      var best := LatestRequestVersion(requests[..n], invoiceId);
      if requests[n].invoiceId == invoiceId && best < requests[n].version then requests[n].version else best
  }

  function CountDecisions(
      decisions: seq<Decision>, requestId: Id, approvalVersion: nat, outcome: DecisionOutcome): nat {
    if decisions == [] then 0
    else
      var d := decisions[|decisions| - 1];
      CountDecisions(decisions[..|decisions| - 1], requestId, approvalVersion, outcome)
      + if d.requestId == requestId && d.approvalVersion == approvalVersion && d.outcome == outcome then 1 else 0
  }

  predicate HasDocument(db: Db, invoiceId: Id) {
    exists d :: 0 <= d < |db.documents| && db.documents[d].invoiceId == invoiceId
  }

  predicate ApprovedAndClean(db: Db, d: Id)
    requires d < |db.documents|
  {
    db.documents[d].storage == InApproved && d < |db.processing| && db.processing[d].scan == Clean
  }

  predicate DocumentsClean(db: Db, invoiceId: Id) {
    forall d :: 0 <= d < |db.documents| && db.documents[d].invoiceId == invoiceId ==> ApprovedAndClean(db, d)
  }

  // Case-insensitive comparison of invoice numbers, over ASCII letters.
  function Fold(t: Text): Text {
    seq(|t|, i requires 0 <= i < |t| => if 65 <= t[i] <= 90 then t[i] + 32 else t[i])
  }

  predicate HasSameNumber(invoices: seq<Invoice>, vendor: Id, number: Text, except: Id) {
    exists i :: 0 <= i < |invoices| && i != except && invoices[i].vendorId == Some(vendor)
      && invoices[i].invoiceNumber.Some? && Fold(invoices[i].invoiceNumber.value) == Fold(number)
  }

  /** The totals of the vendor's newest other invoices, at most limit of them. */
  function PriorAmounts(invoices: seq<Invoice>, vendor: Id, except: Id, limit: nat): seq<nat> {
    if invoices == [] || limit == 0 then []
    else
      var n := |invoices| - 1;
      if n != except && invoices[n].vendorId == Some(vendor) && invoices[n].totalAmount.Some?
      then [invoices[n].totalAmount.value] + PriorAmounts(invoices[..n], vendor, except, limit - 1)
      else PriorAmounts(invoices[..n], vendor, except, limit)
  }

  // The totals of all the vendor's other invoices, newest first.
  function AllPriorAmounts(invoices: seq<Invoice>, vendor: Id, except: Id): seq<nat> {
    if invoices == [] then []
    else
      var n := |invoices| - 1;
      (if n != except && invoices[n].vendorId == Some(vendor) && invoices[n].totalAmount.Some?
       then [invoices[n].totalAmount.value] else [])
      + AllPriorAmounts(invoices[..n], vendor, except)
  }

  /** The average is taken over the newest limit of the vendor's other totals, or over all of them when fewer. */
  lemma {:induction false} PriorAmountsAreNewest(invoices: seq<Invoice>, vendor: Id, except: Id, limit: nat)
    ensures var all := AllPriorAmounts(invoices, vendor, except);
      PriorAmounts(invoices, vendor, except, limit) == if |all| <= limit then all else all[..limit]
  {
    if invoices != [] && limit != 0 {
      var n := |invoices| - 1;
      var older := AllPriorAmounts(invoices[..n], vendor, except);
      if n != except && invoices[n].vendorId == Some(vendor) && invoices[n].totalAmount.Some? {
        PriorAmountsAreNewest(invoices[..n], vendor, except, limit - 1);
        TakeOneMore(invoices[n].totalAmount.value, older, limit);
      } else {
        PriorAmountsAreNewest(invoices[..n], vendor, except, limit);
        assert AllPriorAmounts(invoices, vendor, except) == [] + older == older;
      }
    }
  }

  lemma TakeOneMore(x: nat, xs: seq<nat>, limit: nat)
    requires limit > 0
    ensures (if |xs| + 1 <= limit then [x] + xs else ([x] + xs)[..limit])
         == [x] + if |xs| <= limit - 1 then xs else xs[..limit - 1]
  {
  }

  const DEFAULT_POLICY := Policy(Snapshot(1, 30, 70, 70, 70, 35, 50, 25), true)

  function PolicyOf(db: Db): Policy { Or(db.policy, DEFAULT_POLICY) }

  // ---------------------------------------------------------------- submit

  predicate Missing(t: Option<Text>) { t.None? || t.value == [] }

  function SubmitProblem(db: Db, invoiceId: Id, version: nat): Option<Error> {
    if invoiceId >= |db.invoices| then Some(NotFound)
    else
      var inv := db.invoices[invoiceId];
      if inv.version != version then Some(StaleVersion)
      else if inv.status != NeedsReview then Some(NotReadyForSubmission)
      else if inv.vendorId.None? || Missing(inv.invoiceNumber) || Missing(inv.currency) || inv.totalAmount.None?
        || !HasDocument(db, invoiceId) || !DocumentsClean(db, invoiceId) then Some(ReviewIncomplete)
      else if LatestBank(db.bankVersions, inv.vendorId.value).None? then Some(BankAccountRequired)
      else None
  }

  predicate HasDuplicateDocument(db: Db, invoiceId: Id) {
    exists d :: 0 <= d < |db.documents| && db.documents[d].invoiceId == invoiceId && db.documents[d].duplicateOf.Some?
  }

  function ContractLimit(db: Db, inv: Invoice): Option<Text> {
    if inv.contractId.Some? && inv.contractId.value < |db.contracts|
      && db.contracts[inv.contractId.value].valueLimit.Some?
    then Some(DecimalText(db.contracts[inv.contractId.value].valueLimit.value)) else None
  }

  function FactsFor(db: Db, invoiceId: Id, bank: Id): Facts
    requires invoiceId < |db.invoices| && bank < |db.bankVersions|
    requires db.invoices[invoiceId].vendorId.Some? && db.invoices[invoiceId].invoiceNumber.Some?
    requires db.invoices[invoiceId].totalAmount.Some?
  {
    var inv := db.invoices[invoiceId];
    var vendor := inv.vendorId.value;
    Facts(
      Some(db.bankVersions[bank].versionNumber),
      HasDuplicateDocument(db, invoiceId),
      HasSameNumber(db.invoices, vendor, inv.invoiceNumber.value, invoiceId),
      Some(DecimalText(inv.totalAmount.value)),
      ContractLimit(db, inv),
      Average(PriorAmounts(db.invoices, vendor, invoiceId, 12)))
  }

  function Submitted(db: Db, auth: Auth, invoiceId: Id, hash: Digest): Db
    requires invoiceId < |db.invoices| && SubmitProblem(db, invoiceId, db.invoices[invoiceId].version).None?
  {
    var inv := db.invoices[invoiceId];
    var policy := PolicyOf(db);
    var bank := LatestBank(db.bankVersions, inv.vendorId.value).value;
    var evaluation := Evaluate(NatText(invoiceId), FactsFor(db, invoiceId, bank), policy.snapshot);
    var request := Request(
      invoiceId, inv.version + 1, |db.assessments|, bank, LatestRequestVersion(db.requests, invoiceId) + 1,
      Pending, RequiredDecisions(evaluation.level), auth.membershipId, hash, None);
    db.(policy := Some(policy),
        assessments := db.assessments + [Assessment(invoiceId, inv.version + 1, evaluation)],
        requests := db.requests + [request],
        invoices := db.invoices[invoiceId := inv.(
          status := AwaitingApproval, bankVersionId := Some(bank), version := inv.version + 1)])
  }

  function Submit(db: Db, auth: Auth, invoiceId: Id, version: nat, key: Option<Text>): Outcome {
    var hash := KeyHash(key);
    if hash.None? then Outcome(db, Err(IdempotencyKeyRequired))
    else
      var replay := FindRequest(db.requests, hash.value);
      if replay.Some? then
        Outcome(db, if db.requests[replay.value].invoiceId == invoiceId then Ok(replay.value)
          else Err(IdempotencyKeyReused))
      else
        var problem := SubmitProblem(db, invoiceId, version);
        if problem.Some? then Outcome(db, Err(problem.value))
        else Outcome(Submitted(db, auth, invoiceId, hash.value), Ok(|db.requests|))
  }

  // ---------------------------------------------------------------- decide

  function Staleness(db: Db, req: Request): Option<Reason>
    requires req.invoiceId < |db.invoices|
  {
    var inv := db.invoices[req.invoiceId];
    if inv.version != req.invoiceVersion || inv.status != AwaitingApproval then Some(InvoiceVersionChanged)
    else if inv.vendorId.Some? && LatestBank(db.bankVersions, inv.vendorId.value) != Some(req.bankVersionId)
    then Some(VendorBankAccountChanged)
    else None
  }

  function Retired(req: Request, reason: Reason): Request {
    if req.status == Pending then req.(status := Invalidated, invalidatedReason := Some(reason)) else req
  }

  function Invalidate(db: Db, requestId: Id, reason: Reason): Db
    requires requestId < |db.requests| && db.requests[requestId].invoiceId < |db.invoices|
  {
    var req := db.requests[requestId];
    var inv := db.invoices[req.invoiceId];
    var inv' := if inv.version == req.invoiceVersion && inv.status == AwaitingApproval
                then inv.(status := NeedsReview, version := inv.version + 1) else inv;
    db.(requests := db.requests[requestId := Retired(req, reason)],
        invoices := db.invoices[req.invoiceId := inv'])
  }

  predicate EligibleMember(db: Db, auth: Auth) {
    auth.membershipId < |db.members|
    && var m := db.members[auth.membershipId];
       m.userId == auth.userId && m.active && m.role != OtherRole
  }

  // The step-up instant the session row vouches for, if it is recent enough.
  function StepUp(sessions: seq<Session>, now: nat, ttl: nat, auth: Auth): Option<nat> {
    if auth.sessionId < |sessions|
      && var s := sessions[auth.sessionId];
         s.userId == auth.userId && s.revokedAt.None? && s.expiresAt > now
         && s.stepUpVerifiedAt.Some? && s.stepUpVerifiedAt.value + ttl >= now
    then sessions[auth.sessionId].stepUpVerifiedAt else None
  }

  predicate HasDecided(decisions: seq<Decision>, requestId: Id, member: Id) {
    exists d :: 0 <= d < |decisions| && decisions[d].requestId == requestId && decisions[d].member == member
  }

  function DecideProblem(
    db: Db, sessions: seq<Session>, now: nat, ttl: nat, auth: Auth, requestId: Id, dto: DecisionDto): Option<Error>
    requires requestId < |db.requests|
  {
    if !EligibleMember(db, auth) then Some(ApproverNotEligible)
    else if PolicyOf(db).requireSeparationOfDuties && db.requests[requestId].initiatedBy == auth.membershipId
    then Some(SelfApprovalForbidden)
    else if StepUp(sessions, now, ttl, auth).None? then Some(StepUpRequired)
    else if |Trim(dto.reason)| < 10 then Some(ConstraintViolation)
    else if HasDecided(db.decisions, requestId, auth.membershipId) then Some(DuplicateDecision)
    else None
  }

  function Decided(db: Db, now: nat, auth: Auth, requestId: Id, dto: DecisionDto, hash: Digest, stepUpAt: nat): Db
    requires requestId < |db.requests| && db.requests[requestId].invoiceId < |db.invoices|
  {
    var req := db.requests[requestId];
    var inv := db.invoices[req.invoiceId];
    var decisions := db.decisions + [Decision(
      requestId, req.version, auth.membershipId, auth.sessionId, dto.outcome, Trim(dto.reason), stepUpAt, hash, now)];
    var complete := CountDecisions(decisions, requestId, req.version, Approve) >= req.requiredDecisions;
    var status, status' :=
      if dto.outcome == Reject then RequestRejected else if complete then RequestApproved else req.status,
      if dto.outcome == Reject then Rejected else if complete then Approved else inv.status;
    db.(policy := Some(PolicyOf(db)), decisions := decisions,
        requests := db.requests[requestId := req.(status := status)],
        invoices := db.invoices[req.invoiceId := inv.(status := status')])
  }

  function Decide(
    db: Db, sessions: seq<Session>, now: nat, ttl: nat, auth: Auth, requestId: Id, dto: DecisionDto,
      key: Option<Text>): Outcome
  {
    var hash := KeyHash(key);
    if hash.None? then Outcome(db, Err(IdempotencyKeyRequired))
    else
      var replay := FindDecision(db.decisions, hash.value);
      if replay.Some? then
        Outcome(db, if db.decisions[replay.value].requestId == requestId then Ok(requestId)
          else Err(IdempotencyKeyReused))
      else if requestId >= |db.requests|
        || db.requests[requestId].invoiceId >= |db.invoices| then Outcome(db, Err(NotFound))
      else
        var req := db.requests[requestId];
        if req.status != Pending then Outcome(db, Err(RequestNotPending))
        else if req.version != dto.approvalVersion then Outcome(db, Err(StaleApproval))
        else
          var stale := Staleness(db, req);
          if stale.Some? then Outcome(Invalidate(db, requestId, stale.value), Err(StaleApproval))
          else
            var problem := DecideProblem(db, sessions, now, ttl, auth, requestId, dto);
            if problem.Some? then Outcome(db, Err(problem.value))
            else Outcome(
              Decided(db, now, auth, requestId, dto, hash.value, StepUp(sessions, now, ttl, auth).value), Ok(requestId))
  }

  // ---------------------------------------------------------------- risk policy

  // dto.field ?? existing.field.
  function Value(p: Patch<nat>, before: nat): nat { if p.Given? then p.value else before }

  function UpdatedSnapshot(s: Snapshot, dto: PolicyDto): Snapshot {
    Snapshot(
      s.ruleVersion + 1, Value(dto.mediumThreshold, s.mediumThreshold), Value(dto.highThreshold, s.highThreshold),
      Value(dto.changedBankAccountScore, s.changedBankAccountScore),
        Value(dto.duplicateHashScore, s.duplicateHashScore),
      Value(dto.duplicateInvoiceNumberScore, s.duplicateInvoiceNumberScore),
      Value(dto.contractLimitScore, s.contractLimitScore), Value(dto.amountSpikeScore, s.amountSpikeScore))
  }

  // An explicit null for a required column, which the update refuses.
  predicate HasNull(dto: PolicyDto) {
    dto.mediumThreshold.Null? || dto.highThreshold.Null? || dto.changedBankAccountScore.Null?
    || dto.duplicateHashScore.Null? || dto.duplicateInvoiceNumberScore.Null?
    || dto.contractLimitScore.Null? || dto.amountSpikeScore.Null?
  }

  function GetPolicy(db: Db): Outcome { Outcome(db.(policy := Some(PolicyOf(db))), Ok(0)) }

  function UpdatePolicy(db: Db, dto: PolicyDto): Outcome {
    var policy := PolicyOf(db);
    var updated := UpdatedSnapshot(policy.snapshot, dto);
    if updated.mediumThreshold >= updated.highThreshold then Outcome(db, Err(ThresholdsInvalid))
    else if HasNull(dto) then Outcome(db, Err(InternalError))
    else if updated.mediumThreshold == 0 then Outcome(db, Err(ConstraintViolation))
    else Outcome(db.(policy := Some(policy.(snapshot := updated))), Ok(0))
  }

  // ---------------------------------------------------------------- draft edits

  predicate CanEdit(db: Db, invoiceId: Id)
    requires invoiceId < |db.invoices|
  {
    var status := db.invoices[invoiceId].status;
    status == NeedsReview || status == AwaitingApproval
    || (status == ManualReview
        && exists d :: 0 <= d < |db.documents| && db.documents[d].invoiceId == invoiceId && ApprovedAndClean(db, d))
  }

  // assertRelationships.
  function RelationshipProblem(db: Db, vendorId: Option<Id>, contractId: Option<Id>): Option<Error> {
    if vendorId.Some? && vendorId.value >= |db.vendors| then Some(NotFound)
    else if contractId.None? then None
    else if vendorId.None? then Some(ContractRequiresVendor)
    else if contractId.value >= |db.contracts|
      || db.contracts[contractId.value].vendorId != vendorId.value then Some(NotFound)
    else None
  }

  function Upper(t: Text): Text {
    seq(|t|, i requires 0 <= i < |t| => if 97 <= t[i] <= 122 then t[i] - 32 else t[i])
  }

  predicate IsCurrency(t: Text) { |t| == 3 && forall i :: 0 <= i < 3 ==> 65 <= t[i] <= 90 }

  function InvalidatePending(requests: seq<Request>, invoiceId: Id, reason: Reason): seq<Request> {
    seq(|requests|, i requires 0 <= i < |requests| =>
      if requests[i].invoiceId == invoiceId then Retired(requests[i], reason) else requests[i])
  }

  function EditedInvoice(inv: Invoice, dto: EditDto): Invoice {
    var held := inv.status == AwaitingApproval;
    Invoice(
      if held then NeedsReview else inv.status, inv.version + 1,
      Patched(dto.vendorId, inv.vendorId), Patched(dto.contractId, inv.contractId),
      if dto.invoiceNumber.Given? then Some(Trim(dto.invoiceNumber.value)) else inv.invoiceNumber,
      if dto.currency.Given? then Some(Upper(dto.currency.value)) else inv.currency,
      Patched(dto.totalAmount, inv.totalAmount),
      if held then None else inv.bankVersionId)
  }

  function EditProblem(db: Db, invoiceId: Id, dto: EditDto): Option<Error> {
    if invoiceId >= |db.invoices| then Some(NotFound)
    else if !CanEdit(db, invoiceId) then Some(NotEditable)
    else
      var inv := db.invoices[invoiceId];
      var problem := RelationshipProblem(db, Coalesced(dto.vendorId, inv.vendorId),
        Coalesced(dto.contractId, inv.contractId));
      if problem.Some? then problem
      else if dto.invoiceNumber.Null? || dto.currency.Null? then Some(InternalError)   // trim, toUpperCase of null
      else if inv.version != dto.version then Some(StaleVersion)
      else if dto.currency.Given? && !IsCurrency(Upper(dto.currency.value)) then Some(ConstraintViolation)
      else if Patched(dto.contractId, inv.contractId).Some? && Patched(dto.vendorId, inv.vendorId).None?
      then Some(ConstraintViolation)   // Invoice_contract_vendor
      else None
  }

  function Edit(db: Db, invoiceId: Id, dto: EditDto): Outcome {
    var problem := EditProblem(db, invoiceId, dto);
    if problem.Some? then Outcome(db, Err(problem.value))
    else
      var inv := db.invoices[invoiceId];
      var requests := if inv.status == AwaitingApproval
                      then InvalidatePending(db.requests, invoiceId, InvoiceDataChanged) else db.requests;
      Outcome(db.(requests := requests, invoices := db.invoices[invoiceId := EditedInvoice(inv, dto)]), Ok(invoiceId))
  }

  // ---------------------------------------------------------------- bank versions

  predicate OfVendor(invoices: seq<Invoice>, invoiceId: Id, vendorId: Id) {
    invoiceId < |invoices| && invoices[invoiceId].vendorId == Some(vendorId)
  }

  function FreezeRequests(requests: seq<Request>, invoices: seq<Invoice>, vendorId: Id): seq<Request> {
    seq(|requests|, i requires 0 <= i < |requests| =>
      if OfVendor(invoices, requests[i].invoiceId, vendorId)
      then Retired(requests[i], VendorBankAccountChanged) else requests[i])
  }

  function FreezeInvoices(invoices: seq<Invoice>, vendorId: Id): seq<Invoice> {
    seq(|invoices|, i requires 0 <= i < |invoices| =>
      if invoices[i].vendorId == Some(vendorId) && invoices[i].status == AwaitingApproval
      then invoices[i].(status := NeedsReview, bankVersionId := None, version := invoices[i].version + 1)
      else invoices[i])
  }

  function NextBankNumber(bs: seq<BankVersion>, vendorId: Id): nat {
    var latest := LatestBank(bs, vendorId);
    if latest.Some? then bs[latest.value].versionNumber + 1 else 1
  }

  function AddBankVersion(db: Db, vendorId: Id): Outcome {
    if vendorId >= |db.vendors| then Outcome(db, Err(NotFound))
    else
      var number := NextBankNumber(db.bankVersions, vendorId);
      var added := db.(bankVersions := db.bankVersions + [BankVersion(vendorId, number)]);
      Outcome(
        if number > 1
        then added.(requests := FreezeRequests(db.requests, db.invoices, vendorId),
                    invoices := FreezeInvoices(db.invoices, vendorId))
        else added,
        Ok(|db.bankVersions|))
  }
}
