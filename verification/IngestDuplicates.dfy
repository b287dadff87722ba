/** Duplicate pointers: one root per fingerprint, and every chain of pointers reaches it. */
module IngestDuplicates {
  import opened Schema
  import opened Ingest
  import opened IngestInvariant
  import opened IngestProofs

  // ---------------------------------------------------------------- the invariant

  ghost predicate PointerSound(documents: seq<Document>, promotions: seq<Id>, k: nat)
    requires k < |promotions| && forall i :: 0 <= i < |promotions| ==> promotions[i] < |documents|
  {
    var doc := documents[promotions[k]];
    && doc.sha256.Some?
    && match doc.duplicateOf
       case None => forall m :: 0 <= m < k ==> documents[promotions[m]].sha256 != doc.sha256
       case Some(target) => exists m :: 0 <= m < k && promotions[m] == target && documents[target].sha256 == doc.sha256
  }

  // promotions lists the fingerprinted documents in the order of their promote commits.
  ghost predicate DuplicatesSound(documents: seq<Document>, promotions: seq<Id>) {
    && (forall i :: 0 <= i < |promotions| ==> promotions[i] < |documents|)
    && (forall i, j :: 0 <= i < j < |promotions| ==> promotions[i] != promotions[j])
    && (forall d :: 0 <= d < |documents| && documents[d].sha256.Some? ==> d in promotions)
    && (forall k :: 0 <= k < |promotions| ==> PointerSound(documents, promotions, k))
  }

  lemma PromotionKeepsPointers(documents: seq<Document>, promotions: seq<Id>, d: Id, document: Document)
    requires DuplicatesSound(documents, promotions) && d < |documents| && documents[d].sha256.None?
    requires document.sha256.Some? && document.duplicateOf == FindDuplicate(documents, document.sha256.value, d)
    ensures DuplicatesSound(documents[d := document], promotions + [d])
  {
    var documents', promotions' := documents[d := document], promotions + [d];
    var n := |promotions|;
    assert forall i :: 0 <= i < n ==> promotions[i] != d by {
      forall i | 0 <= i < n ensures promotions[i] != d { assert PointerSound(documents, promotions, i); }
    }
    forall k | 0 <= k <= n ensures PointerSound(documents', promotions', k) {
      if k < n {
        assert PointerSound(documents, promotions, k);
        var doc := documents[promotions[k]];
        if doc.duplicateOf.Some? {
          var m :| 0 <= m < k && promotions[m] == doc.duplicateOf.value
            && documents[doc.duplicateOf.value].sha256 == doc.sha256;
          assert promotions'[m] == doc.duplicateOf.value;
        }
      } else if document.duplicateOf.Some? {
        var target := document.duplicateOf.value;
        assert target in promotions;
        var m :| 0 <= m < n && promotions[m] == target;
        assert promotions'[m] == target && documents'[target].sha256 == document.sha256;
      } else {
        forall m | 0 <= m < n ensures documents'[promotions'[m]].sha256 != document.sha256 {}
      }
    }
    forall e | 0 <= e < |documents'| && documents'[e].sha256.Some? ensures e in promotions' {
      if e != d { assert e in promotions; } else { assert promotions'[n] == d; }
    }
  }

  // Other statements leave fingerprints, pointers and the log as they are.
  lemma SamePointersKeep(documents: seq<Document>, promotions: seq<Id>, documents': seq<Document>)
    requires DuplicatesSound(documents, promotions) && |documents| <= |documents'|
    requires forall d :: 0 <= d < |documents| ==>
      documents'[d].sha256 == documents[d].sha256 && documents'[d].duplicateOf == documents[d].duplicateOf
    requires forall d :: |documents| <= d < |documents'| ==> documents'[d].sha256.None?
    ensures DuplicatesSound(documents', promotions)
  {
    forall k | 0 <= k < |promotions| ensures PointerSound(documents', promotions, k) {
      assert PointerSound(documents, promotions, k);
      var doc := documents[promotions[k]];
      if doc.duplicateOf.Some? {
        var m :| 0 <= m < k && promotions[m] == doc.duplicateOf.value
          && documents[doc.duplicateOf.value].sha256 == doc.sha256;
        assert promotions[m] == doc.duplicateOf.value;
      }
    }
  }

  lemma OtherEffects(db: Db, job: Job)
    requires Resident(db, job) && Effect(db, job).Some? && job.pc != Promote
    ensures var db' := Effect(db, job).value;
      db'.promotions == db.promotions && |db'.documents| == |db.documents|
      && forall d :: 0 <= d < |db.documents| ==>
           db'.documents[d].sha256 == db.documents[d].sha256
             && db'.documents[d].duplicateOf == db.documents[d].duplicateOf
  {
  }

  lemma ExecWrites(db: Db, svc: Services, job: Job, fault: Fault)
    ensures var db' := Exec(db, svc, job, fault).0;
      db' == db || (Resident(db, job) && Effect(db, job).Some? && db' == Effect(db, job).value)
  {
  }

  lemma ExecKeepsPointers(db: Db, svc: Services, job: Job, fault: Fault)
    requires Resident(db, job) ==> Ready(db, svc, job)
    requires DuplicatesSound(db.documents, db.promotions)
    ensures var db' := Exec(db, svc, job, fault).0; DuplicatesSound(db'.documents, db'.promotions)
  {
    ExecWrites(db, svc, job, fault);
    if Resident(db, job) && Effect(db, job).Some? {
      if job.pc == Promote {
        PromotedFirst(db, svc, job);
        hide DuplicatesSound, FindDuplicate, DocSound, JobSound, Exec;
        PromotionKeepsPointers(db.documents, db.promotions, job.documentId,
          Effect(db, job).value.documents[job.documentId]);
      } else {
        OtherEffects(db, job);
        hide DuplicatesSound, Effect, DocSound, JobSound, Exec;
        SamePointersKeep(db.documents, db.promotions, Effect(db, job).value.documents);
      }
    }
  }

  lemma PromotedFirst(db: Db, svc: Services, job: Job)
    requires Ready(db, svc, job) && job.pc == Promote && PromoteTx(db, job).Some?
    ensures db.documents[job.documentId].sha256.None?
  {
  }

  // ---------------------------------------------------------------- the forest

  function Position(promotions: seq<Id>, d: Id): (k: nat)
    requires d in promotions
    ensures k < |promotions| && promotions[k] == d
  {
    if promotions[0] == d then 0 else 1 + Position(promotions[1..], d)
  }

  lemma TargetIsEarlier(documents: seq<Document>, promotions: seq<Id>, k: nat)
    requires DuplicatesSound(documents, promotions) && k < |promotions| && documents[promotions[k]].duplicateOf.Some?
    ensures documents[promotions[k]].duplicateOf.value in promotions
    ensures Position(promotions, documents[promotions[k]].duplicateOf.value) < k
  {
    assert PointerSound(documents, promotions, k);
  }

  /** Where following pointers from the k-th promoted document ends. */
  ghost function Root(documents: seq<Document>, promotions: seq<Id>, k: nat): Id
    requires DuplicatesSound(documents, promotions) && k < |promotions|
    decreases k
  {
    var d := promotions[k];
    match documents[d].duplicateOf
    case None => d
    case Some(target) =>
      TargetIsEarlier(documents, promotions, k);
      Root(documents, promotions, Position(promotions, target))
  }

  // The first promoted document with the k-th's fingerprint.
  ghost predicate FirstOfKind(documents: seq<Document>, promotions: seq<Id>, d: Id, k: nat)
    requires DuplicatesSound(documents, promotions) && k < |promotions|
  {
    exists m :: 0 <= m <= k && promotions[m] == d && documents[d].sha256 == documents[promotions[k]].sha256
      && forall i :: 0 <= i < m ==> documents[promotions[i]].sha256 != documents[d].sha256
  }

  lemma {:induction false} RootIsFirst(documents: seq<Document>, promotions: seq<Id>, k: nat)
    requires DuplicatesSound(documents, promotions) && k < |promotions|
    ensures FirstOfKind(documents, promotions, Root(documents, promotions, k), k)
    ensures documents[Root(documents, promotions, k)].duplicateOf.None?
    decreases k
  {
    assert PointerSound(documents, promotions, k);
    var doc := documents[promotions[k]];
    if doc.duplicateOf.Some? {
      TargetIsEarlier(documents, promotions, k);
      var j := Position(promotions, doc.duplicateOf.value);
      RootIsFirst(documents, promotions, j);
      var d := Root(documents, promotions, j);
      var m :| 0 <= m <= j && promotions[m] == d && documents[d].sha256 == documents[promotions[j]].sha256
        && forall i :: 0 <= i < m ==> documents[promotions[i]].sha256 != documents[d].sha256;
    } else {
      assert promotions[k] == Root(documents, promotions, k);
    }
  }

  /** One root per fingerprint: documents with the same fingerprint chase to the same document, the only one of
      them without a pointer. */
  lemma OneRootPerFingerprint(documents: seq<Document>, promotions: seq<Id>, j: nat, k: nat)
    requires DuplicatesSound(documents, promotions) && j < |promotions| && k < |promotions|
    ensures Root(documents, promotions, j) == Root(documents, promotions, k)
        <==> documents[promotions[j]].sha256 == documents[promotions[k]].sha256
    ensures documents[promotions[j]].duplicateOf.None? <==> Root(documents, promotions, j) == promotions[j]
  {
    RootIsFirst(documents, promotions, j);
    RootIsFirst(documents, promotions, k);
    var a, b := Root(documents, promotions, j), Root(documents, promotions, k);
    var m :| 0 <= m <= j && promotions[m] == a && documents[a].sha256 == documents[promotions[j]].sha256
      && forall i :: 0 <= i < m ==> documents[promotions[i]].sha256 != documents[a].sha256;
    var n :| 0 <= n <= k && promotions[n] == b && documents[b].sha256 == documents[promotions[k]].sha256
      && forall i :: 0 <= i < n ==> documents[promotions[i]].sha256 != documents[b].sha256;
    if documents[a].sha256 == documents[b].sha256 {
      assert m == n;
    }
  }
}
