/** What upload, a draft edit and a failed enqueue store and answer, in the columns of the rows. */
module InvoiceRows {
  import opened Basics
  import opened Schema
  import opened Approvals
  import opened Ingest
  import opened SubmitRows

  // ---------------------------------------------------------------- vendor and contract of an invoice

  ghost predicate VendorKnown(db: Db, vendor: Option<Id>) { vendor.Some? ==> vendor.value < |db.vendors| }

  ghost predicate ContractOfVendor(db: Db, vendor: Option<Id>, contract: Option<Id>) {
    contract.Some? ==>
      contract.value < |db.contracts| && vendor == Some(db.contracts[contract.value].vendorId)
  }

  lemma RelationshipAnswers(db: Db, vendor: Option<Id>, contract: Option<Id>)
    ensures RelationshipProblem(db, vendor, contract) ==
      if !VendorKnown(db, vendor) then Some(NotFound)
      else if contract != None && vendor == None then Some(ContractRequiresVendor)
      else if !ContractOfVendor(db, vendor, contract) then Some(NotFound)
      else None
  {
  }

  // ---------------------------------------------------------------- upload

  // One new invoice, one new document of it, and one new processing row.
  ghost predicate RowsUploaded(
      db: Db, db': Db, vendor: Option<Id>, contract: Option<Id>, bytes: Bytes, mime: Text, key: nat) {
    && db'.invoices == db.invoices
         + [Invoice(InvoiceStatus.Processing, 1, vendor, contract, None, None, None, None)]
    && db'.documents == db.documents
         + [Document(|db.invoices|, key, None, None, None, InQuarantine, mime, bytes)]
    && db'.processing == db.processing + [ProcessingRow(StQuarantined, 10, 0, ScanPending, None)]
  }

  // Nothing but the rows of invoices and documents and the quarantine bucket differs.
  ghost predicate OnlyUploads(db: Db, db': Db) {
    db' == db.(invoices := db'.invoices, documents := db'.documents, processing := db'.processing,
      quarantine := db'.quarantine, nextKey := db'.nextKey, compensated := db'.compensated)
  }

  /** An upload succeeds exactly when the relationships stand and nothing failed. It then stored the rows, and the
      object under the new document's key is the argument. */
  lemma UploadStores(
    db: Db, vendor: Option<Id>, contract: Option<Id>, bytes: Bytes, mime: Text, fault: Fault, cleanup: bool)
    ensures var o := Upload(db, vendor, contract, bytes, mime, fault, cleanup);
      && OnlyUploads(db, o.db)
      && (o.reply.Ok? <==> VendorKnown(db, vendor) && ContractOfVendor(db, vendor, contract) && fault == NoFault)
      && (o.reply.Ok? ==>
            && o.reply == Ok(|db.documents|) && RowsUploaded(db, o.db, vendor, contract, bytes, mime, db.nextKey)
            && o.db.quarantine == db.quarantine[db.nextKey := bytes] && o.db.nextKey == db.nextKey + 1
            && o.db.compensated == db.compensated)
  {
  }

  /** The answers of a refused upload, and what it leaves: no row unless a commit went unheard, and no object once the
      cleanup ran. */
  lemma UploadRefusals(
    db: Db, vendor: Option<Id>, contract: Option<Id>, bytes: Bytes, mime: Text, fault: Fault, cleanup: bool)
    requires Upload(db, vendor, contract, bytes, mime, fault, cleanup).reply.Err?
    ensures var o := Upload(db, vendor, contract, bytes, mime, fault, cleanup);
      var sound := VendorKnown(db, vendor) && ContractOfVendor(db, vendor, contract);
      && o.reply.error == (
           if !VendorKnown(db, vendor) then NotFound
           else if contract != None && vendor == None then ContractRequiresVendor
           else if !ContractOfVendor(db, vendor, contract) then NotFound
           else ConstraintViolation)
      && (if sound && fault == LostAck then RowsUploaded(db, o.db, vendor, contract, bytes, mime, db.nextKey)
          else o.db.invoices == db.invoices && o.db.documents == db.documents && o.db.processing == db.processing)
      && o.db.quarantine == (
           if cleanup then db.quarantine - {db.nextKey} else db.quarantine[db.nextKey := bytes])
      && o.db.compensated == db.compensated + (
           if sound && fault == LostAck && cleanup then {|db.documents|} else {})
  {
  }

  // ---------------------------------------------------------------- a draft edit

  // A field of the body against its column: absent keeps it, null clears it, a value replaces it.
  ghost predicate Writes<T(!new)>(p: Patch<T>, before: Option<T>, after: Option<T>) {
    && (p == Absent ==> after == before) && (p == Null ==> after == None)
    && forall x :: p == Given(x) ==> after == Some(x)
  }

  // The invoice is in review, awaits approval, or was put aside with a document approved and clean.
  ghost predicate Editable(db: Db, i: Id) {
    && i < |db.invoices|
    && (db.invoices[i].status == NeedsReview || db.invoices[i].status == AwaitingApproval
        || (db.invoices[i].status == ManualReview
            && exists d :: (0 <= d < |db.documents| && d < |db.processing| && db.documents[d].invoiceId == i
                 && db.documents[d].storage == InApproved && db.processing[d].scan == Clean)))
  }

  // Three ASCII letters, of either case.
  ghost predicate Letters(t: Text) {
    |t| == 3 && forall k :: 0 <= k < 3 ==> 65 <= t[k] <= 90 || 97 <= t[k] <= 122
  }

  // What the relationship checks read: null counts as absent there.
  ghost predicate Meant(p: Patch<Id>, before: Option<Id>, read: Option<Id>) {
    (forall x :: p == Given(x) ==> read == Some(x)) && (!p.Given? ==> read == before)
  }

  // After the edit the invoice would name a contract and no vendor.
  ghost predicate Orphaned(inv: Invoice, dto: EditDto) {
    && (dto.contractId.Given? || (dto.contractId.Absent? && inv.contractId.Some?))
    && (dto.vendorId.Null? || (dto.vendorId.Absent? && inv.vendorId.None?))
  }

  lemma EditableIs(db: Db, i: Id)
    requires i < |db.invoices|
    ensures CanEdit(db, i) <==> Editable(db, i)
  {
  }

  lemma UpperIsCurrency(t: Text)
    ensures IsCurrency(Upper(t)) <==> Letters(t)
    ensures UpToCase(t, Upper(t))
  {
    assert |Upper(t)| == |t|;
    forall k | 0 <= k < |t|
      ensures 65 <= Upper(t)[k] <= 90 <==> 65 <= t[k] <= 90 || 97 <= t[k] <= 122
      ensures SameLetter(t[k], Upper(t)[k])
    {
    }
  }

  /** Every answer of a draft edit, in the order of the checks; a refusal changes nothing. */
  lemma EditAnswers(db: Db, i: Id, dto: EditDto, vendor: Option<Id>, contract: Option<Id>)
    requires i < |db.invoices| ==>
      Meant(dto.vendorId, db.invoices[i].vendorId, vendor) && Meant(dto.contractId, db.invoices[i].contractId, contract)
    ensures Edit(db, i, dto).reply ==
      if i >= |db.invoices| then Err(NotFound)
      else if !Editable(db, i) then Err(NotEditable)
      else if !VendorKnown(db, vendor) then Err(NotFound)
      else if contract != None && vendor == None then Err(ContractRequiresVendor)
      else if !ContractOfVendor(db, vendor, contract) then Err(NotFound)
      else if dto.invoiceNumber == Null || dto.currency == Null then Err(InternalError)
      else if db.invoices[i].version != dto.version then Err(StaleVersion)
      else if dto.currency.Given? && !Letters(dto.currency.value) then Err(ConstraintViolation)
      else if Orphaned(db.invoices[i], dto) then Err(ConstraintViolation)
      else Ok(i)
    ensures Edit(db, i, dto).reply.Err? ==> Edit(db, i, dto).db == db
  {
    if i < |db.invoices| {
      EditableIs(db, i);
      RelationshipAnswers(db, vendor, contract);
      assert Coalesced(dto.vendorId, db.invoices[i].vendorId) == vendor;
      assert Coalesced(dto.contractId, db.invoices[i].contractId) == contract;
      if dto.currency.Given? { UpperIsCurrency(dto.currency.value); }
    }
    hide RelationshipProblem, VendorKnown, ContractOfVendor, CanEdit, Editable, IsCurrency, Upper, Letters;
    hide EditedInvoice, InvalidatePending;
  }

  /** The edited row, column by column: a waiting invoice goes back to review without its bank version. */
  lemma EditStores(db: Db, i: Id, dto: EditDto)
    requires i < |db.invoices| && Edit(db, i, dto).reply.Ok?
    ensures var inv, db' := db.invoices[i], Edit(db, i, dto).db;
      && |db'.invoices| == |db.invoices|
      && var inv' := db'.invoices[i];
         && db' == db.(invoices := db.invoices[i := inv'], requests := db'.requests)
         && inv'.version == inv.version + 1
         && Writes(dto.vendorId, inv.vendorId, inv'.vendorId)
         && Writes(dto.contractId, inv.contractId, inv'.contractId)
         && Writes(dto.totalAmount, inv.totalAmount, inv'.totalAmount)
         && (dto.invoiceNumber.Given? ==> inv'.invoiceNumber == Some(Trim(dto.invoiceNumber.value)))
         && (dto.currency.Given? ==>
               inv'.currency.Some? && IsCurrency(inv'.currency.value)
               && UpToCase(dto.currency.value, inv'.currency.value))
         && (dto.invoiceNumber.Absent? ==> inv'.invoiceNumber == inv.invoiceNumber)
         && (dto.currency.Absent? ==> inv'.currency == inv.currency)
         && (if inv.status == AwaitingApproval then inv'.status == NeedsReview && inv'.bankVersionId == None
             else inv'.status == inv.status && inv'.bankVersionId == inv.bankVersionId)
  {
  }

  // Exactly the pending requests that meet the condition are retired, for this reason.
  ghost predicate Retires(before: seq<Request>, after: seq<Request>, hit: set<Id>, reason: Reason) {
    && |after| == |before|
    && forall r :: 0 <= r < |before| ==>
         after[r] == if r in hit && before[r].status == Pending
                     then before[r].(status := Invalidated, invalidatedReason := Some(reason)) else before[r]
  }

  lemma EditRetires(db: Db, i: Id, dto: EditDto)
    requires i < |db.invoices| && Edit(db, i, dto).reply.Ok?
    ensures Retires(db.requests, Edit(db, i, dto).db.requests,
      (set r: Id | r < |db.requests| && db.requests[r].invoiceId == i && db.invoices[i].status == AwaitingApproval),
      InvoiceDataChanged)
  {
  }

  // ---------------------------------------------------------------- after a failed enqueue

  /** A document that is not reviewed or blocked yet goes to manual review, together with its invoice. */
  lemma MarkedForReview(db: Db, d: Id)
    requires d < |db.documents| && d < |db.processing| && db.documents[d].invoiceId < |db.invoices|
    ensures var i, p := db.documents[d].invoiceId, db.processing[d];
      MarkManualReview(db, d) ==
        if p.state == StNeedsReview || p.state == StBlocked then db
        else db.(
          processing := db.processing[d := ProcessingRow(StManualReview, 100, p.attempts, p.scan, p.suggestions)],
          invoices := db.invoices[i := db.invoices[i].(status := ManualReview)])
  {
  }
}
