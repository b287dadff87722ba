/** What submit stores and when, in the columns of the rows. */
module SubmitRows {
  import opened Basics
  import opened Risk
  import opened Schema
  import opened Approvals
  import opened ApprovalInvariant

  // ---------------------------------------------------------------- letter case

  predicate SameLetter(a: Unit, b: Unit) {
    a == b || (65 <= a <= 90 && b == a + 32) || (65 <= b <= 90 && a == b + 32)
  }

  // Equal up to the case of ASCII letters.
  predicate UpToCase(s: Text, t: Text) { |s| == |t| && forall i :: 0 <= i < |s| ==> SameLetter(s[i], t[i]) }

  lemma FoldIsUpToCase(s: Text, t: Text)
    ensures Fold(s) == Fold(t) <==> UpToCase(s, t)
  {
    if Fold(s) == Fold(t) {
      assert |s| == |Fold(s)| == |t|;
      forall i | 0 <= i < |s| ensures SameLetter(s[i], t[i]) { assert Fold(s)[i] == Fold(t)[i]; }
    }
    if UpToCase(s, t) {
      forall i | 0 <= i < |s| ensures Fold(s)[i] == Fold(t)[i] { assert SameLetter(s[i], t[i]); }
      assert Fold(s) == Fold(t);
    }
  }

  // ---------------------------------------------------------------- the prior average

  // The newest of the vendor's other invoices with a total, at most limit of them, newest first.
  ghost predicate NewestOthers(invoices: seq<Invoice>, vendor: Id, except: Id, limit: nat, picked: seq<Id>) {
    && |picked| <= limit
    && (forall k :: 0 <= k < |picked| ==>
          picked[k] < |invoices| && picked[k] != except
          && invoices[picked[k]].vendorId == Some(vendor) && invoices[picked[k]].totalAmount.Some?)
    && (forall k, l :: 0 <= k < l < |picked| ==> picked[k] > picked[l])
    && (forall j: Id :: j < |invoices| && j != except && j !in picked ==>
          invoices[j].vendorId != Some(vendor) || invoices[j].totalAmount.None?
          || (|picked| == limit && forall k :: 0 <= k < |picked| ==> j < picked[k]))
  }

  ghost predicate HaveTotals(invoices: seq<Invoice>, picked: seq<Id>) {
    forall k :: 0 <= k < |picked| ==> picked[k] < |invoices| && invoices[picked[k]].totalAmount.Some?
  }

  ghost function Totals(invoices: seq<Invoice>, picked: seq<Id>): seq<nat>
    requires HaveTotals(invoices, picked)
  {
    seq(|picked|, k requires 0 <= k < |picked| => invoices[picked[k]].totalAmount.value)
  }

  lemma PickNewest(invoices: seq<Invoice>, vendor: Id, except: Id, limit: nat, older: seq<Id>)
    requires invoices != [] && limit > 0
    requires var n := |invoices| - 1;
      NewestOthers(invoices[..n], vendor, except, limit - 1, older)
      && n != except && invoices[n].vendorId == Some(vendor) && invoices[n].totalAmount.Some?
    ensures NewestOthers(invoices, vendor, except, limit, [|invoices| - 1] + older)
  {
  }

  lemma SkipNewest(invoices: seq<Invoice>, vendor: Id, except: Id, limit: nat, picked: seq<Id>)
    requires invoices != []
    requires var n := |invoices| - 1;
      NewestOthers(invoices[..n], vendor, except, limit, picked)
      && !(n != except && invoices[n].vendorId == Some(vendor) && invoices[n].totalAmount.Some?)
    ensures NewestOthers(invoices, vendor, except, limit, picked)
  {
  }

  lemma SameTotals(invoices: seq<Invoice>, vendor: Id, except: Id, limit: nat, picked: seq<Id>)
    requires invoices != [] && NewestOthers(invoices[..|invoices| - 1], vendor, except, limit, picked)
    ensures HaveTotals(invoices[..|invoices| - 1], picked) && HaveTotals(invoices, picked)
    ensures Totals(invoices, picked) == Totals(invoices[..|invoices| - 1], picked)
  {
  }

  lemma OneMoreTotal(invoices: seq<Invoice>, vendor: Id, except: Id, limit: nat, older: seq<Id>)
    requires invoices != [] && NewestOthers(invoices[..|invoices| - 1], vendor, except, limit, older)
    requires invoices[|invoices| - 1].totalAmount.Some?
    ensures var n := |invoices| - 1;
      HaveTotals(invoices, [n] + older) && HaveTotals(invoices[..n], older)
      && Totals(invoices, [n] + older) == [invoices[n].totalAmount.value] + Totals(invoices[..n], older)
  {
  }

  lemma {:induction false} PriorAmountsPick(invoices: seq<Invoice>, vendor: Id, except: Id, limit: nat)
    returns (picked: seq<Id>)
    ensures NewestOthers(invoices, vendor, except, limit, picked) && HaveTotals(invoices, picked)
    ensures PriorAmounts(invoices, vendor, except, limit) == Totals(invoices, picked)
  {
    if invoices == [] || limit == 0 {
      picked := [];
    } else {
      hide NewestOthers;
      var n := |invoices| - 1;
      if n != except && invoices[n].vendorId == Some(vendor) && invoices[n].totalAmount.Some? {
        var older := PriorAmountsPick(invoices[..n], vendor, except, limit - 1);
        PickNewest(invoices, vendor, except, limit, older);
        picked := [n] + older;
        OneMoreTotal(invoices, vendor, except, limit - 1, older);
      } else {
        picked := PriorAmountsPick(invoices[..n], vendor, except, limit);
        SkipNewest(invoices, vendor, except, limit, picked);
        SameTotals(invoices, vendor, except, limit, picked);
      }
    }
  }

  // q is the mean of n amounts rounded half up: within half a cent, and a tie goes up.
  ghost predicate MeanRounded(sum: nat, n: nat, q: nat) { 2 * sum - n < 2 * (n * q) <= 2 * sum + n }

  lemma AverageIsRounded(values: seq<nat>)
    requires values != []
    ensures Average(values).Some? && Decimal(Average(values).value).Some?
    ensures MeanRounded(Sum(values), |values|, Decimal(Average(values).value).value)
  {
    hide Average, Decimal, Sum, MeanRounded;
    AverageIsRead(values);
    RoundedHalfUp(Sum(values), |values|);
  }

  lemma AverageIsRead(values: seq<nat>)
    requires values != []
    ensures Average(values).Some? && Decimal(Average(values).value) == Some(AverageCents(values))
  {
    hide Decimal, FixedText, AverageCents;
    DecimalRoundTrip(AverageCents(values));
  }

  lemma RoundedHalfUp(sum: nat, n: nat)
    requires n > 0
    ensures MeanRounded(sum, n, (2 * sum + n) / (2 * n))
  {
  }

  // ---------------------------------------------------------------- when a submission is stored

  ghost predicate RequestHasKey(db: Db, r: Id, key: Option<Text>) {
    r < |db.requests| && key.Some? && db.requests[r].keyHash == OfText(Trim(key.value))
  }

  // The key fits and no request carries its digest.
  ghost predicate FreshRequestKey(db: Db, key: Option<Text>) {
    KeyFits(key) && forall r :: 0 <= r < |db.requests| ==> !RequestHasKey(db, r, key)
  }

  // Every document of the invoice is approved and clean, and it has one.
  ghost predicate DocumentsPass(db: Db, i: Id) {
    && (exists d :: 0 <= d < |db.documents| && db.documents[d].invoiceId == i)
    && (forall d :: 0 <= d < |db.documents| && db.documents[d].invoiceId == i ==>
          db.documents[d].storage == InApproved && d < |db.processing| && db.processing[d].scan == Clean)
  }

  ghost predicate ReviewedRow(inv: Invoice) {
    && inv.status == NeedsReview && inv.vendorId.Some? && inv.totalAmount.Some?
    && inv.invoiceNumber.Some? && |inv.invoiceNumber.value| > 0 && inv.currency.Some? && |inv.currency.value| > 0
  }

  ghost predicate HasBank(db: Db, vendor: Option<Id>) {
    exists b :: 0 <= b < |db.bankVersions| && Some(db.bankVersions[b].vendorId) == vendor
  }

  lemma BankIsFound(db: Db, vendor: Id)
    ensures HasBank(db, Some(vendor)) <==> LatestBank(db.bankVersions, vendor).Some?
  {
  }

  lemma KeyIsFound(db: Db, key: Option<Text>)
    ensures KeyFits(key) <==> KeyHash(key).Some?
    ensures KeyFits(key) ==> (FreshRequestKey(db, key) <==> FindRequest(db.requests, KeyHash(key).value).None?)
  {
    hide Trim;
    HashOfKey(key);
    if KeyFits(key) && FindRequest(db.requests, KeyHash(key).value).Some? {
      assert RequestHasKey(db, FindRequest(db.requests, KeyHash(key).value).value, key);
    }
  }

  lemma ReviewIsComplete(db: Db, i: Id)
    requires i < |db.invoices|
    ensures ReviewedRow(db.invoices[i]) && DocumentsPass(db, i) <==>
      db.invoices[i].status == NeedsReview && db.invoices[i].vendorId.Some? && !Missing(db.invoices[i].invoiceNumber)
      && !Missing(db.invoices[i].currency) && db.invoices[i].totalAmount.Some?
      && HasDocument(db, i) && DocumentsClean(db, i)
  {
  }

  /** A submission stores a request exactly when its key is fresh, the invoice is at the given version, in review and
      complete, its documents pass, and its vendor has a bank version; otherwise it changes nothing. */
  lemma SubmitStoresExactly(db: Db, auth: Auth, i: Id, version: nat, key: Option<Text>)
    ensures var r := Submit(db, auth, i, version, key);
      && (|r.db.requests| != |db.requests| <==>
            FreshRequestKey(db, key) && i < |db.invoices| && db.invoices[i].version == version
            && ReviewedRow(db.invoices[i]) && DocumentsPass(db, i) && HasBank(db, db.invoices[i].vendorId))
      && (|r.db.requests| != |db.requests| ==> r.reply == Ok(|db.requests|))
      && (|r.db.requests| == |db.requests| ==> r.db == db)
  {
    KeyIsFound(db, key);
    HashOfKey(key);
    if i < |db.invoices| {
      ReviewIsComplete(db, i);
      if db.invoices[i].vendorId.Some? { BankIsFound(db, db.invoices[i].vendorId.value); }
    }
    hide Evaluate, FactsFor, LatestRequestVersion, Trim, LatestBank, FindRequest, KeyHash, KeyFits, FreshRequestKey;
    hide HasDocument, DocumentsClean, DocumentsPass, ReviewedRow, HasBank;
  }

  /** Every answer of a submission: the first check that fails names it, and a new request is its own answer. */
  lemma SubmitAnswers(db: Db, auth: Auth, i: Id, version: nat, key: Option<Text>)
    ensures !KeyFits(key) ==> Submit(db, auth, i, version, key).reply == Err(IdempotencyKeyRequired)
    ensures FreshRequestKey(db, key) ==>
      Submit(db, auth, i, version, key).reply ==
        if i >= |db.invoices| then Err(NotFound)
        else if db.invoices[i].version != version then Err(StaleVersion)
        else if db.invoices[i].status != NeedsReview then Err(NotReadyForSubmission)
        else if !ReviewedRow(db.invoices[i]) || !DocumentsPass(db, i) then Err(ReviewIncomplete)
        else if !HasBank(db, db.invoices[i].vendorId) then Err(BankAccountRequired)
        else Ok(|db.requests|)
    ensures forall r: Id :: KeyFits(key) && RequestHasKey(db, r, key) && KeysUnique(db.requests, db.decisions) ==>
      Submit(db, auth, i, version, key).reply
        == if db.requests[r].invoiceId == i then Ok(r) else Err(IdempotencyKeyReused)
  {
    KeyIsFound(db, key);
    HashOfKey(key);
    if i < |db.invoices| {
      ReviewIsComplete(db, i);
      if db.invoices[i].vendorId.Some? { BankIsFound(db, db.invoices[i].vendorId.value); }
    }
    hide Submitted, Trim, LatestBank, FindRequest, KeyHash, KeyFits, FreshRequestKey;
    hide HasDocument, DocumentsClean, DocumentsPass, ReviewedRow, HasBank;
    forall r: Id | KeyFits(key) && RequestHasKey(db, r, key) && KeysUnique(db.requests, db.decisions)
      ensures FindRequest(db.requests, KeyHash(key).value) == Some(r)
    {
      assert FindRequest(db.requests, KeyHash(key).value).Some? ==> RequestHasKey(db,
        FindRequest(db.requests, KeyHash(key).value).value, key);
    }
  }

  // ---------------------------------------------------------------- the rows a submission stores

  ghost predicate Stores(db: Db, auth: Auth, i: Id, version: nat, key: Option<Text>) {
    |Submit(db, auth, i, version, key).db.requests| != |db.requests|
  }

  // The snapshot in force: the stored one, or the column defaults.
  function InForce(db: Db): Snapshot {
    if db.policy.Some? then db.policy.value.snapshot else Snapshot(1, 30, 70, 70, 70, 35, 50, 25)
  }

  lemma StoredIsSubmitted(db: Db, auth: Auth, i: Id, version: nat, key: Option<Text>)
    requires Stores(db, auth, i, version, key)
    ensures key.Some? && 16 <= |Trim(key.value)| <= 200
    ensures i < |db.invoices| && db.invoices[i].version == version && SubmitProblem(db, i, version).None?
    ensures Submit(db, auth, i, version, key)
         == Outcome(Submitted(db, auth, i, OfText(Trim(key.value))), Ok(|db.requests|))
  {
  }

  /** The new request, the new assessment, and the invoice's move; every other row stays. */
  lemma SubmitStoresRows(db: Db, auth: Auth, i: Id, version: nat, key: Option<Text>)
    requires Stores(db, auth, i, version, key)
    ensures key.Some? && i < |db.invoices| && db.invoices[i].version == version && db.invoices[i].vendorId.Some?
    ensures var db' := Submit(db, auth, i, version, key).db;
      var n, m, inv := |db.requests|, |db.assessments|, db.invoices[i];
      && |db'.requests| == n + 1 && |db'.assessments| == m + 1
      && db'.requests[..n] == db.requests && db'.assessments[..m] == db.assessments
      && var req, a := db'.requests[n], db'.assessments[m];
         && req.invoiceId == i && req.invoiceVersion == version + 1 && req.assessmentId == m && req.status == Pending
         && req.initiatedBy == auth.membershipId && req.keyHash == OfText(Trim(key.value))
         && req.invalidatedReason.None?
         && a.invoiceId == i && a.invoiceVersion == version + 1
         && a.evaluation == Evaluate(NatText(i), a.evaluation.facts, InForce(db))
         && req.requiredDecisions == (if a.evaluation.totalScore >= InForce(db).highThreshold then 2 else 1)
         && db' == db.(requests := db'.requests, assessments := db'.assessments, policy := db'.policy,
              invoices := db.invoices[i := inv.(
                status := AwaitingApproval, version := version + 1, bankVersionId := Some(req.bankVersionId))])
         && db'.policy.Some? && db'.policy.value.snapshot == InForce(db)
  {
    StoredIsSubmitted(db, auth, i, version, key);
    var facts := FactsFor(db, i, LatestBank(db.bankVersions, db.invoices[i].vendorId.value).value);
    LevelIsExact(NatText(i), facts, InForce(db));
    assert Evaluate(NatText(i), facts, InForce(db)).facts == facts;
    hide Evaluate, FactsFor, LatestRequestVersion, Trim, LatestBank, SubmitProblem;
  }

  // ---------------------------------------------------------------- the facts it assesses

  // The facts of the stored assessment.
  ghost function StoredFacts(db: Db, auth: Auth, i: Id, version: nat, key: Option<Text>): Facts
    requires Stores(db, auth, i, version, key)
  {
    SubmitStoresRows(db, auth, i, version, key);
    Submit(db, auth, i, version, key).db.assessments[|db.assessments|].evaluation.facts
  }

  lemma StoredFactsAre(db: Db, auth: Auth, i: Id, version: nat, key: Option<Text>)
    requires Stores(db, auth, i, version, key)
    ensures i < |db.invoices| && db.invoices[i].vendorId.Some? && db.invoices[i].invoiceNumber.Some?
    ensures db.invoices[i].totalAmount.Some? && LatestBank(db.bankVersions, db.invoices[i].vendorId.value).Some?
    ensures StoredFacts(db, auth, i, version, key)
         == FactsFor(db, i, LatestBank(db.bankVersions, db.invoices[i].vendorId.value).value)
  {
    StoredIsSubmitted(db, auth, i, version, key);
    var facts := FactsFor(db, i, LatestBank(db.bankVersions, db.invoices[i].vendorId.value).value);
    LevelIsExact(NatText(i), facts, PolicyOf(db).snapshot);
    hide Evaluate, FactsFor, LatestRequestVersion, Trim;
  }

  // One more than the greatest version among the invoice's requests, or 1.
  ghost predicate NextVersion(requests: seq<Request>, i: Id, version: nat) {
    && (forall r :: 0 <= r < |requests| && requests[r].invoiceId == i ==> requests[r].version < version)
    && (version == 1
        || exists r :: (0 <= r < |requests| && requests[r].invoiceId == i && requests[r].version == version - 1))
  }

  lemma RequestIsNumbered(db: Db, auth: Auth, i: Id, version: nat, key: Option<Text>)
    requires Stores(db, auth, i, version, key)
    ensures var db' := Submit(db, auth, i, version, key).db;
      |db.requests| < |db'.requests| && NextVersion(db.requests, i, db'.requests[|db.requests|].version)
  {
  }

  /** The bank fact is the number of the request's bank version: the vendor's, and none of the vendor's is higher. */
  lemma BankFact(db: Db, auth: Auth, i: Id, version: nat, key: Option<Text>)
    requires Stores(db, auth, i, version, key)
    ensures i < |db.invoices| && db.invoices[i].vendorId.Some?
    ensures var v := db.invoices[i].vendorId.value;
      var db' := Submit(db, auth, i, version, key).db;
      |db.requests| < |db'.requests| &&
      var b := db'.requests[|db.requests|].bankVersionId;
      && b < |db.bankVersions| && db.bankVersions[b].vendorId == v
      && StoredFacts(db, auth, i, version, key).bankAccountVersion == Some(db.bankVersions[b].versionNumber)
      && forall c :: 0 <= c < |db.bankVersions| && db.bankVersions[c].vendorId == v ==>
           db.bankVersions[c].versionNumber <= db.bankVersions[b].versionNumber
  {
    StoredIsSubmitted(db, auth, i, version, key);
    StoredFactsAre(db, auth, i, version, key);
    hide Evaluate, LatestRequestVersion, Trim, StoredFacts;
    hide HasSameNumber, PriorAmounts, Average;
  }

  /** The duplicate facts: a document of the invoice points to another, and another invoice of the vendor carries the
      number up to letter case. */
  lemma DuplicateFacts(db: Db, auth: Auth, i: Id, version: nat, key: Option<Text>)
    requires Stores(db, auth, i, version, key)
    ensures i < |db.invoices| && db.invoices[i].vendorId.Some? && db.invoices[i].invoiceNumber.Some?
    ensures StoredFacts(db, auth, i, version, key).exactDocumentDuplicate <==>
      exists d :: 0 <= d < |db.documents| && db.documents[d].invoiceId == i && db.documents[d].duplicateOf.Some?
    ensures var inv := db.invoices[i];
      StoredFacts(db, auth, i, version, key).duplicateInvoiceNumber <==>
      exists j :: 0 <= j < |db.invoices| && j != i && db.invoices[j].vendorId == inv.vendorId
        && db.invoices[j].invoiceNumber.Some? && UpToCase(db.invoices[j].invoiceNumber.value, inv.invoiceNumber.value)
  {
    StoredFactsAre(db, auth, i, version, key);
    var number := db.invoices[i].invoiceNumber.value;
    forall j | 0 <= j < |db.invoices| && db.invoices[j].invoiceNumber.Some?
      ensures Fold(db.invoices[j].invoiceNumber.value) == Fold(number)
          <==> UpToCase(db.invoices[j].invoiceNumber.value, number)
    {
      FoldIsUpToCase(db.invoices[j].invoiceNumber.value, number);
    }
    hide Stores, StoredFacts, Fold, UpToCase, PriorAmounts, Average, LatestBank;
  }

  /** The amount facts read back as the invoice's total and its contract's limit. */
  lemma AmountFacts(db: Db, auth: Auth, i: Id, version: nat, key: Option<Text>)
    requires Stores(db, auth, i, version, key)
    ensures i < |db.invoices|
    ensures var f, inv := StoredFacts(db, auth, i, version, key), db.invoices[i];
      && f.totalAmount.Some? && Decimal(f.totalAmount.value) == inv.totalAmount
      && if inv.contractId.Some? && inv.contractId.value < |db.contracts|
            && db.contracts[inv.contractId.value].valueLimit.Some?
         then f.contractValueLimit.Some?
              && Decimal(f.contractValueLimit.value) == db.contracts[inv.contractId.value].valueLimit
         else f.contractValueLimit.None?
  {
    StoredFactsAre(db, auth, i, version, key);
    var inv := db.invoices[i];
    DecimalRoundTrip(inv.totalAmount.value);
    if ContractLimit(db, inv).Some? { DecimalRoundTrip(db.contracts[inv.contractId.value].valueLimit.value); }
    hide Stores, StoredFacts, Decimal, DecimalText, PriorAmounts, Average, LatestBank, HasSameNumber;
  }

  /** The average fact is the rounded mean of the vendor's newest twelve other totals, absent when there is none. */
  lemma AverageFact(db: Db, auth: Auth, i: Id, version: nat, key: Option<Text>) returns (picked: seq<Id>)
    requires Stores(db, auth, i, version, key)
    ensures i < |db.invoices| && db.invoices[i].vendorId.Some?
    ensures NewestOthers(db.invoices, db.invoices[i].vendorId.value, i, 12, picked) && HaveTotals(db.invoices, picked)
    ensures var f, values := StoredFacts(db, auth, i, version, key), Totals(db.invoices, picked);
      if picked == [] then f.priorInvoiceAverage.None?
      else f.priorInvoiceAverage.Some? && Decimal(f.priorInvoiceAverage.value).Some?
           && MeanRounded(Sum(values), |values|, Decimal(f.priorInvoiceAverage.value).value)
  {
    StoredFactsAre(db, auth, i, version, key);
    picked := PriorAmountsPick(db.invoices, db.invoices[i].vendorId.value, i, 12);
    if picked != [] { AverageIsRounded(Totals(db.invoices, picked)); }
    hide Stores, StoredFacts, Decimal, DecimalText, PriorAmounts, Average, AverageCents, LatestBank, HasSameNumber;
    hide ContractLimit, NewestOthers;
  }

  // ---------------------------------------------------------------- a changed account

  /** When the vendor has a bank version above the first and the score of a changed account reaches the high threshold,
      a submission needs two decisions. */
  lemma ChangedAccountNeedsTwo(db: Db, auth: Auth, i: Id, version: nat, key: Option<Text>, b: Id)
    requires Stores(db, auth, i, version, key)
    requires b < |db.bankVersions| && db.bankVersions[b].versionNumber >= 2
    requires i < |db.invoices| && db.invoices[i].vendorId == Some(db.bankVersions[b].vendorId)
    requires InForce(db).changedBankAccountScore >= InForce(db).highThreshold
    ensures var db' := Submit(db, auth, i, version, key).db;
      |db.requests| < |db'.requests| && db'.requests[|db.requests|].requiredDecisions == 2
  {
    SubmitStoresRows(db, auth, i, version, key);
    BankFact(db, auth, i, version, key);
    TotalIsExact(NatText(i), StoredFacts(db, auth, i, version, key), InForce(db));
    hide Evaluate, Submit, Stores, InForce, Decimal;
  }

  lemma SecondVersionNeedsTwo(db: Db, auth: Auth, i: Id, version: nat, key: Option<Text>, a: Id, b: Id)
    requires Stores(db, auth, i, version, key) && BanksSound(db.bankVersions)
    requires a < b < |db.bankVersions| && db.bankVersions[a].vendorId == db.bankVersions[b].vendorId
    requires i < |db.invoices| && db.invoices[i].vendorId == Some(db.bankVersions[b].vendorId)
    requires InForce(db).changedBankAccountScore >= InForce(db).highThreshold
    ensures var db' := Submit(db, auth, i, version, key).db;
      |db'.requests| == |db.requests| + 1 && db'.requests[|db.requests|].requiredDecisions == 2
  {
    assert db.bankVersions[b].versionNumber >= 2;
    hide Submit, Stores, InForce, BanksSound;
    ChangedAccountNeedsTwo(db, auth, i, version, key, b);
    SubmitStoresRows(db, auth, i, version, key);
  }
}
