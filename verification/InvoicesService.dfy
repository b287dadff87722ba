/** The invoices service, statement by statement over the tenant database and the quarantine bucket. */
module InvoicesServices {
  import opened Basics
  import opened Schema
  import opened Approvals
  import opened Ingest
  import opened Database

  class InvoicesService {
    const database: TenantDatabase

    constructor (database: TenantDatabase)
      ensures this.database == database
    {
      this.database := database;
    }

    /** fault says how the transaction ends and cleanup whether the compensating delete succeeds. */
    method Upload(
      vendorId: Option<Id>, contractId: Option<Id>, bytes: Bytes, mime: Text, fault: Fault, cleanup: bool)
      returns (reply: Reply)
      modifies database
      ensures Outcome(database.Rows(), reply)
           == Ingest.Upload(old(database.Rows()), vendorId, contractId, bytes, mime, fault, cleanup)
    {
      hide RelationshipProblem, UploadedRows;
      var documentId := |database.documents|;
      var quarantineKey := PutQuarantined(bytes);
      var problem := RelationshipProblem(database.Rows(), vendorId, contractId);
      SameRelationships(old(database.Rows()), database.Rows(), vendorId, contractId);
      if problem.None? && (fault == NoFault || fault == LostAck) {
        InsertRows(vendorId, contractId, bytes, mime, quarantineKey);
        if fault == NoFault { return Ok(documentId); }
      }
      if cleanup { Compensate(quarantineKey, documentId); }
      return Err(if problem.Some? then problem.value else ConstraintViolation);
    }

    lemma SameRelationships(db: Db, db': Db, vendorId: Option<Id>, contractId: Option<Id>)
      requires db'.vendors == db.vendors && db'.contracts == db.contracts
      ensures RelationshipProblem(db', vendorId, contractId) == RelationshipProblem(db, vendorId, contractId)
    {
    }

    method PutQuarantined(bytes: Bytes) returns (key: nat)
      modifies database`nextKey, database`quarantine
      ensures key == old(database.nextKey) && database.nextKey == key + 1
      ensures database.quarantine == old(database.quarantine)[key := bytes]
    {
      key := database.nextKey;
      database.nextKey := key + 1;
      database.quarantine := database.quarantine[key := bytes];
    }

    // The compensating delete; it may hit rows whose commit did take effect.
    method Compensate(key: nat, documentId: Id)
      modifies database`quarantine, database`compensated
      ensures database.quarantine == old(database.quarantine) - {key}
      ensures database.compensated
           == old(database.compensated) + if |database.documents| > documentId then {documentId} else {}
    {
      database.quarantine := database.quarantine - {key};
      if |database.documents| > documentId { database.compensated := database.compensated + {documentId}; }
    }

    method InsertRows(vendorId: Option<Id>, contractId: Option<Id>, bytes: Bytes, mime: Text, key: nat)
      modifies database
      ensures database.Rows() == UploadedRows(old(database.Rows()), vendorId, contractId, bytes, mime, key)
    {
      var invoiceId := |database.invoices|;
      database.invoices := database.invoices
        + [Invoice(InvoiceStatus.Processing, 1, vendorId, contractId, None, None, None, None)];
      database.documents := database.documents
        + [Document(invoiceId, key, None, None, None, InQuarantine, mime, bytes)];
      database.processing := database.processing + [NEW_PROCESSING];
    }

    method Update(invoiceId: Id, dto: EditDto) returns (reply: Reply)
      modifies database
      ensures Outcome(database.Rows(), reply) == Edit(old(database.Rows()), invoiceId, dto)
    {
      var saved := database.Rows();
      if invoiceId >= |database.invoices| { return Err(NotFound); }
      if !CanEdit(saved, invoiceId) { return Err(NotEditable); }
      var existing := database.invoices[invoiceId];
      var invalidatesApproval := existing.status == AwaitingApproval;
      if invalidatesApproval {
        database.requests := InvalidatePending(database.requests, invoiceId, InvoiceDataChanged);
      }
      var problem := RelationshipProblem(
        saved, Coalesced(dto.vendorId, existing.vendorId), Coalesced(dto.contractId, existing.contractId));
      if problem.Some? {
        database.Rollback(saved);
        return Err(problem.value);
      }
      if dto.invoiceNumber.Null? || dto.currency.Null? {
        database.Rollback(saved);
        return Err(InternalError);
      }
      if existing.version != dto.version {
        database.Rollback(saved);
        return Err(StaleVersion);
      }
      var invoice := Written(existing, dto);
      if (dto.currency.Given? && !IsCurrency(Upper(dto.currency.value)))
        || (invoice.contractId.Some? && invoice.vendorId.None?)
      {
        database.Rollback(saved);
        return Err(ConstraintViolation);
      }
      database.invoices := database.invoices[invoiceId := invoice];
      return Ok(invoiceId);
    }

    // The data of the conditional update, field by field.
    method Written(existing: Invoice, dto: EditDto) returns (invoice: Invoice)
      requires !dto.invoiceNumber.Null? && !dto.currency.Null?
      ensures invoice == EditedInvoice(existing, dto)
    {
      invoice := existing.(version := existing.version + 1);
      if dto.vendorId != Absent { invoice := invoice.(vendorId := Patched(dto.vendorId, None)); }
      if dto.contractId != Absent { invoice := invoice.(contractId := Patched(dto.contractId, None)); }
      if dto.invoiceNumber.Given? { invoice := invoice.(invoiceNumber := Some(Trim(dto.invoiceNumber.value))); }
      if dto.currency.Given? { invoice := invoice.(currency := Some(Upper(dto.currency.value))); }
      if dto.totalAmount != Absent { invoice := invoice.(totalAmount := Patched(dto.totalAmount, None)); }
      if existing.status == AwaitingApproval { invoice := invoice.(status := NeedsReview, bankVersionId := None); }
    }

    /** After a failed enqueue. */
    method MarkManualReview(documentId: Id)
      modifies database
      ensures database.Rows() == Ingest.MarkManualReview(old(database.Rows()), documentId)
    {
      if documentId < |database.documents| && documentId < |database.processing| {
        var invoiceId := database.documents[documentId].invoiceId;
        var p := database.processing[documentId];
        if invoiceId < |database.invoices| && TransitionAccepted(p.state, StManualReview) {
          database.processing := database.processing[documentId := p.(state := StManualReview, progress := 100)];
          database.invoices := database.invoices[invoiceId := database.invoices[invoiceId].(status := ManualReview)];
        }
      }
    }
  }
}
