/** The API's side of ingest: uploads, failed enqueues, new deliveries and approvals keep the ingest invariant. */
module IngestApi {
  import opened Basics
  import opened Schema
  import opened Approvals
  import opened Ingest
  import opened IngestInvariant

  // Approval steps move an invoice only among reviewed statuses.
  ghost predicate SameDocuments(db: Db, db': Db) {
    && db'.documents == db.documents && db'.processing == db.processing
    && db'.approved == db.approved && db'.quarantine == db.quarantine
    && db'.compensated == db.compensated && db'.nextKey == db.nextKey
  }

  ghost predicate Restatus(before: InvoiceStatus, after: InvoiceStatus) {
    before == after || (Reviewed(before) && Reviewed(after))
  }

  lemma RestatusKeeps(db: Db, svc: Services, jobs: seq<Job>, db': Db)
    requires IngestSound(db, svc, jobs) && SameDocuments(db, db') && |db'.invoices| >= |db.invoices|
    requires forall i :: 0 <= i < |db.invoices| ==> Restatus(db.invoices[i].status, db'.invoices[i].status)
    ensures IngestSound(db', svc, jobs)
  {
    forall d | 0 <= d < |db'.documents| ensures DocSound(db', svc, d) {
      assert DocSound(db, svc, d);
    }
    forall j | 0 <= j < |jobs| ensures JobSound(db', svc, jobs[j]) {
      assert JobSound(db, svc, jobs[j]);
    }
  }

  lemma NewJobKeeps(db: Db, svc: Services, jobs: seq<Job>, documentId: Id, invoiceId: Id, finalAttempt: bool)
    requires IngestSound(db, svc, jobs)
    ensures IngestSound(db.(nextKey := db.nextKey + 1), svc, jobs + [NewJob(db, documentId, invoiceId, finalAttempt)])
  {
    var db', jobs' := db.(nextKey := db.nextKey + 1), jobs + [NewJob(db, documentId, invoiceId, finalAttempt)];
    forall d | 0 <= d < |db'.documents| ensures DocSound(db', svc, d) {
      assert DocSound(db, svc, d);
    }
    forall j | 0 <= j < |jobs'| ensures JobSound(db', svc, jobs'[j]) {
      if j < |jobs| { assert JobSound(db, svc, jobs[j]); }
    }
  }

  // ---------------------------------------------------------------- upload

  // A fresh key meets no row and no delivery.
  ghost predicate Around(db: Db, db': Db) {
    && |db.documents| == |db.processing| && |db'.documents| == |db'.processing|
    && db.documents <= db'.documents && db.processing <= db'.processing && db.invoices <= db'.invoices
    && db'.nextKey == db.nextKey + 1 && db'.approved == db.approved
    && (forall k :: k < db.nextKey ==> (k in db'.quarantine <==> k in db.quarantine))
    && (forall k :: k < db.nextKey && k in db.quarantine ==> db'.quarantine[k] == db.quarantine[k])
    && (forall d :: d < |db.documents| ==> (d in db'.compensated <==> d in db.compensated))
    && (forall d :: d in db'.compensated ==> d < |db'.documents|)
  }

  lemma AroundDoc(db: Db, svc: Services, jobs: seq<Job>, db': Db, d: Id)
    requires IngestSound(db, svc, jobs) && Around(db, db') && d < |db.documents|
    ensures DocSound(db', svc, d)
  {
    assert DocSound(db, svc, d);
    assert db'.documents[d] == db.documents[d] && db'.processing[d] == db.processing[d];
    assert db'.invoices[db.documents[d].invoiceId] == db.invoices[db.documents[d].invoiceId];
    assert db.documents[d].quarantineKey < db.nextKey;
  }

  lemma AroundJob(db: Db, svc: Services, jobs: seq<Job>, db': Db, j: nat)
    requires IngestSound(db, svc, jobs) && Around(db, db') && j < |jobs|
    ensures JobSound(db', svc, jobs[j])
  {
  }

  // No row added, or one fresh row that is sound.
  lemma AroundKeeps(db: Db, svc: Services, jobs: seq<Job>, db': Db)
    requires IngestSound(db, svc, jobs) && Around(db, db')
    requires |db'.documents| <= |db.documents| + 1
    requires |db'.documents| > |db.documents| ==>
      DocSound(db', svc, |db.documents|) && db'.documents[|db.documents|].invoiceId == |db.invoices|
      && db'.documents[|db.documents|].quarantineKey == db.nextKey && db'.documents[|db.documents|].approvedKey.None?
    ensures IngestSound(db', svc, jobs)
  {
    forall d | 0 <= d < |db'.documents| ensures DocSound(db', svc, d) {
      if d < |db.documents| { AroundDoc(db, svc, jobs, db', d); }
    }
    forall j | 0 <= j < |jobs| ensures JobSound(db', svc, jobs[j]) {
      AroundJob(db, svc, jobs, db', j);
    }
    AroundKeys(db, svc, jobs, db');
  }

  lemma AroundKeys(db: Db, svc: Services, jobs: seq<Job>, db': Db)
    requires IngestSound(db, svc, jobs) && Around(db, db') && |db'.documents| <= |db.documents| + 1
    requires |db'.documents| > |db.documents| ==>
      db'.documents[|db.documents|].invoiceId == |db.invoices|
      && db'.documents[|db.documents|].quarantineKey == db.nextKey && db'.documents[|db.documents|].approvedKey.None?
    ensures KeysSound(db', jobs)
  {
    hide JobSound, StorageSound, PhaseSound, ObjectSound;
    forall d | 0 <= d < |db.documents|
      ensures db'.documents[d] == db.documents[d] && db.documents[d].invoiceId < |db.invoices|
    {
      assert DocSound(db, svc, d);
    }
  }

  lemma UploadKeeps(
    db: Db, svc: Services, jobs: seq<Job>,
    vendorId: Option<Id>, contractId: Option<Id>, bytes: Bytes, mime: Text, fault: Fault, cleanup: bool)
    requires IngestSound(db, svc, jobs)
    ensures IngestSound(Upload(db, vendorId, contractId, bytes, mime, fault, cleanup).db, svc, jobs)
  {
    hide RelationshipProblem;
    var db' := Upload(db, vendorId, contractId, bytes, mime, fault, cleanup).db;
    UploadAround(db, svc, jobs, vendorId, contractId, bytes, mime, fault, cleanup);
    AroundKeeps(db, svc, jobs, db');
  }

  lemma UploadAround(
    db: Db, svc: Services, jobs: seq<Job>,
    vendorId: Option<Id>, contractId: Option<Id>, bytes: Bytes, mime: Text, fault: Fault, cleanup: bool)
    requires IngestSound(db, svc, jobs)
    ensures var db' := Upload(db, vendorId, contractId, bytes, mime, fault, cleanup).db;
      Around(db, db') && |db'.documents| <= |db.documents| + 1
      && (|db'.documents| > |db.documents| ==>
            DocSound(db', svc, |db.documents|) && db'.documents[|db.documents|].invoiceId == |db.invoices|
            && db'.documents[|db.documents|].quarantineKey == db.nextKey
                 && db'.documents[|db.documents|].approvedKey.None?)
  {
    hide RelationshipProblem, JobSound;
    assert |db.documents| !in db.compensated;
  }

  // ---------------------------------------------------------------- a failed enqueue

  lemma MarkManualReviewKeeps(db: Db, svc: Services, jobs: seq<Job>, documentId: Id)
    requires IngestSound(db, svc, jobs)
    ensures IngestSound(MarkManualReview(db, documentId), svc, jobs)
  {
    var db' := MarkManualReview(db, documentId);
    if db' != db {
      forall d | 0 <= d < |db'.documents| ensures DocSound(db', svc, d) {
        assert DocSound(db, svc, d);
        if d != documentId {
          assert db.documents[d].invoiceId != db.documents[documentId].invoiceId by { if d < documentId {} else {} }
        }
      }
      forall j | 0 <= j < |jobs| ensures JobSound(db', svc, jobs[j]) {
        assert JobSound(db, svc, jobs[j]);
      }
    }
  }
}
