/** What a policy update and a new bank version store, in the columns of the rows. */
module PolicyRows {
  import opened Basics
  import opened Risk
  import opened Schema
  import opened Approvals
  import opened ApprovalInvariant
  import opened SubmitRows
  import opened InvoiceRows

  // ---------------------------------------------------------------- the policy row

  // A field of the body against its column: a value replaces it, anything else keeps it.
  ghost predicate Sets(p: Patch<nat>, before: nat, after: nat) {
    (forall x :: p == Given(x) ==> after == x) && (!p.Given? ==> after == before)
  }

  ghost predicate SomeNull(dto: PolicyDto) {
    Null in {dto.mediumThreshold, dto.highThreshold, dto.changedBankAccountScore, dto.duplicateHashScore,
             dto.duplicateInvoiceNumberScore, dto.contractLimitScore, dto.amountSpikeScore}
  }

  /** The answers of a policy update, in the order of the checks; a refusal changes nothing. */
  lemma PolicyAnswers(db: Db, dto: PolicyDto, medium: nat, high: nat)
    requires Sets(dto.mediumThreshold, InForce(db).mediumThreshold, medium)
    requires Sets(dto.highThreshold, InForce(db).highThreshold, high)
    ensures UpdatePolicy(db, dto).reply ==
      if medium >= high then Err(ThresholdsInvalid)
      else if SomeNull(dto) then Err(InternalError)
      else if medium == 0 then Err(ConstraintViolation)
      else Ok(0)
    ensures UpdatePolicy(db, dto).reply.Err? ==> UpdatePolicy(db, dto).db == db
  {
  }

  /** An accepted update writes every field to its own column under the next rule version. */
  lemma PolicyStores(db: Db, dto: PolicyDto)
    requires UpdatePolicy(db, dto).reply.Ok?
    ensures var db', s := UpdatePolicy(db, dto).db, InForce(db);
      && db'.policy.Some? && db' == db.(policy := db'.policy)
      && db'.policy.value.requireSeparationOfDuties
         == (db.policy.Some? ==> db.policy.value.requireSeparationOfDuties)
      && var s' := db'.policy.value.snapshot;
         && s'.ruleVersion == s.ruleVersion + 1
         && Sets(dto.mediumThreshold, s.mediumThreshold, s'.mediumThreshold)
         && Sets(dto.highThreshold, s.highThreshold, s'.highThreshold)
         && Sets(dto.changedBankAccountScore, s.changedBankAccountScore, s'.changedBankAccountScore)
         && Sets(dto.duplicateHashScore, s.duplicateHashScore, s'.duplicateHashScore)
         && Sets(dto.duplicateInvoiceNumberScore, s.duplicateInvoiceNumberScore, s'.duplicateInvoiceNumberScore)
         && Sets(dto.contractLimitScore, s.contractLimitScore, s'.contractLimitScore)
         && Sets(dto.amountSpikeScore, s.amountSpikeScore, s'.amountSpikeScore)
         && 0 < s'.mediumThreshold < s'.highThreshold
  {
  }

  /** Reading the policy stores the defaults on first use, and nothing otherwise. */
  lemma PolicyRead(db: Db)
    ensures GetPolicy(db) == Outcome(
      if db.policy == None then db.(policy := Some(Policy(Snapshot(1, 30, 70, 70, 70, 35, 50, 25), true))) else db,
      Ok(0))
  {
  }

  // ---------------------------------------------------------------- bank versions

  // The greatest number of the vendor's bank versions plus one, or 1 before the first.
  ghost predicate NextNumber(bs: seq<BankVersion>, vendor: Id, number: nat) {
    && (forall b :: 0 <= b < |bs| && bs[b].vendorId == vendor ==> bs[b].versionNumber < number)
    && (number == 1
        || exists b :: (0 <= b < |bs| && bs[b].vendorId == vendor && bs[b].versionNumber == number - 1))
  }

  ghost predicate InvoicesFrozen(before: seq<Invoice>, after: seq<Invoice>, vendor: Id) {
    && |after| == |before|
    && forall i :: 0 <= i < |before| ==>
         after[i] == if before[i].vendorId == Some(vendor) && before[i].status == AwaitingApproval
                     then before[i].(status := NeedsReview, bankVersionId := None, version := before[i].version + 1)
                     else before[i]
  }

  /** A new bank version takes the vendor's next number. A vendor that had one before sees every pending request of its
      invoices retired and every waiting invoice sent back to review; a first version touches neither. */
  lemma BankVersionStores(db: Db, vendor: Id)
    requires BanksSound(db.bankVersions)
    ensures vendor >= |db.vendors| ==> AddBankVersion(db, vendor) == Outcome(db, Err(NotFound))
    ensures vendor < |db.vendors| ==>
      var o := AddBankVersion(db, vendor);
      && o.reply == Ok(|db.bankVersions|)
      && |o.db.bankVersions| == |db.bankVersions| + 1
      && var added := o.db.bankVersions[|db.bankVersions|];
         && o.db.bankVersions == db.bankVersions + [added]
         && added.vendorId == vendor && NextNumber(db.bankVersions, vendor, added.versionNumber)
         && o.db == db.(bankVersions := o.db.bankVersions, requests := o.db.requests, invoices := o.db.invoices)
         && (if HasBank(db, Some(vendor)) then
               && Retires(db.requests, o.db.requests, OfInvoicesOf(db, vendor), VendorBankAccountChanged)
               && InvoicesFrozen(db.invoices, o.db.invoices, vendor)
             else o.db.requests == db.requests && o.db.invoices == db.invoices)
  {
  }

  // The requests for invoices of the vendor.
  ghost function OfInvoicesOf(db: Db, vendor: Id): set<Id> {
    set r: Id | r < |db.requests| && db.requests[r].invoiceId < |db.invoices|
      && db.invoices[db.requests[r].invoiceId].vendorId == Some(vendor)
  }
}
