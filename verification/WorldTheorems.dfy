/** The promises of the system, over every disciplined run. */
module WorldTheorems {
  import opened Basics
  import opened Risk
  import opened Schema
  import opened Approvals
  import opened ApprovalInvariant
  import opened Ingest
  import opened IngestInvariant
  import opened IngestDuplicates
  import opened Sessions
  import opened SessionInvariant
  import opened SessionTheorems
  import opened Links
  import opened Webhook
  import opened World
  import opened WorldInvariant
  import opened WorldProofs

  // ---------------------------------------------------------------- runs

  lemma EmptyApprovals()
    ensures ApprovalsSound(EMPTY_DB) && LinksSound(EMPTY_DB) && LedgerSound([]) && Documented(EMPTY_DB)
  {
  }

  lemma EmptyDocuments(svc: Services)
    ensures IngestSound(EMPTY_DB, svc, []) && DuplicatesSound([], [])
  {
  }

  lemma EmptyEvidence()
    ensures EvidenceReproducible(EMPTY_DB, [DEFAULT_POLICY.snapshot])
  {
  }

  lemma EmptyWorldIsSound(cfg: Config)
    ensures WorldSound(EMPTY_WORLD, cfg)
  {
    hide ApprovalsSound, LinksSound, LedgerSound, Documented;
    hide IngestSound, DuplicatesSound, EvidenceReproducible, AuthSound;
    EmptyApprovals();
    EmptyDocuments(cfg.svc);
    EmptyEvidence();
    EmptyAuthIsSound();
  }

  lemma DbEvolvesOn(a: Db, b: Db, c: Db)
    requires DbEvolves(a, b) && DbEvolves(b, c)
    ensures DbEvolves(a, c)
  {
  }

  lemma PublishedGrows(w: World, cfg: Config, step: Step)
    ensures w.published <= Apply(w, cfg, step).published
  {
    hide ApprovalOutcome, DocumentEffect, RegistryEffect, AuthApply;
  }

  /** The invariant holds in every state of every disciplined run, and what is settled, decided, assessed or
      revoked stays so. */
  lemma {:induction false} RunKeeps(w: World, cfg: Config, steps: seq<Step>)
    requires WorldSound(w, cfg) && DisciplinedRun(w, cfg, steps)
    ensures var w' := Run(w, cfg, steps);
      WorldSound(w', cfg) && DbEvolves(w.db, w'.db) && AuthEvolves(w.auth, w'.auth) && w.published <= w'.published
    decreases |steps|
  {
    hide WorldSound, DbEvolves, AuthEvolves, Apply;
    if steps == [] {
      SameDbEvolves(w.db);
      NothingEvolves(w.auth);
    } else {
      var w1 := Apply(w, cfg, steps[0]);
      StepKeeps(w, cfg, steps[0]);
      PublishedGrows(w, cfg, steps[0]);
      RunKeeps(w1, cfg, steps[1..]);
      DbEvolvesOn(w.db, w1.db, Run(w, cfg, steps).db);
      EvolvesTransitively(w.auth, w1.auth, Run(w, cfg, steps).auth);
    }
  }

  ghost predicate Reachable(w: World, cfg: Config) {
    exists steps :: DisciplinedRun(EMPTY_WORLD, cfg, steps) && Run(EMPTY_WORLD, cfg, steps) == w
  }

  lemma ReachableIsSound(w: World, cfg: Config)
    requires Reachable(w, cfg)
    ensures WorldSound(w, cfg)
  {
    var steps :| DisciplinedRun(EMPTY_WORLD, cfg, steps) && Run(EMPTY_WORLD, cfg, steps) == w;
    EmptyWorldIsSound(cfg);
    RunKeeps(EMPTY_WORLD, cfg, steps);
  }

  // ---------------------------------------------------------------- dual approval

  /** The members who approved a version of a request. */
  function Approvers(decisions: seq<Decision>, requestId: Id, version: nat): set<Id> {
    if decisions == [] then {}
    else
      var d := decisions[|decisions| - 1];
      Approvers(decisions[..|decisions| - 1], requestId, version)
      + if d.requestId == requestId && d.approvalVersion == version && d.outcome == Approve then {d.member} else {}
  }

  lemma {:induction false} ApproverDecided(decisions: seq<Decision>, requestId: Id, version: nat, m: Id)
    ensures m in Approvers(decisions, requestId, version) <==>
      exists d :: 0 <= d < |decisions| && decisions[d].requestId == requestId && decisions[d].approvalVersion == version
        && decisions[d].outcome == Approve && decisions[d].member == m
  {
    if decisions != [] { ApproverDecided(decisions[..|decisions| - 1], requestId, version, m); }
  }

  /** Deciders being distinct, counting decisions counts people. */
  lemma {:induction false} CountIsPeople(decisions: seq<Decision>, requestId: Id, version: nat)
    requires DistinctDeciders(decisions)
    ensures |Approvers(decisions, requestId, version)| == CountDecisions(decisions, requestId, version, Approve)
  {
    if decisions != [] {
      var n := |decisions| - 1;
      CountIsPeople(decisions[..n], requestId, version);
      ApproverDecided(decisions[..n], requestId, version, decisions[n].member);
    }
  }

  // Enough different people, none of them the initiator, approved this request of this invoice version.
  ghost predicate Backs(db: Db, r: Id, i: Id)
    requires r < |db.requests| && i < |db.invoices|
  {
    var req := db.requests[r];
    var people := Approvers(db.decisions, r, req.version);
    && Concludes(req, RequestApproved, i, db.invoices[i])
    && |people| == req.requiredDecisions && req.initiatedBy !in people
    && req.assessmentId < |db.assessments|
    && db.assessments[req.assessmentId].invoiceId == i
    && db.assessments[req.assessmentId].invoiceVersion == db.invoices[i].version
    && req.requiredDecisions == if db.assessments[req.assessmentId].evaluation.level == HIGH then 2 else 1
  }

  lemma ApprovedIsBacked(db: Db, i: Id)
    requires ApprovalsSound(db) && i < |db.invoices| && db.invoices[i].status == Approved
    ensures exists r :: 0 <= r < |db.requests| && Backs(db, r, i)
  {
    assert InvoiceBacked(db.invoices[i], i, db.requests);
    var r :| 0 <= r < |db.requests| && Concludes(db.requests[r], RequestApproved, i, db.invoices[i]);
    CountIsPeople(db.decisions, r, db.requests[r].version);
    assert CountsExact(db.decisions, r, db.requests[r]);
    assert RequestEvidenced(db.assessments, db.requests[r]);
    ApproverDecided(db.decisions, r, db.requests[r].version, db.requests[r].initiatedBy);
    forall d | 0 <= d < |db.decisions| && db.decisions[d].requestId == r
      ensures db.decisions[d].member != db.requests[r].initiatedBy
    {
      assert DecisionSound(db.requests, db.decisions[d]);
    }
    assert Backs(db, r, i);
  }

  /** In every reachable state an approved invoice is backed by a completed request for its current version:
      as many different approvers as the risk level of that version demands, two when it is HIGH, none of them
      the initiator. */
  lemma DualApproval(w: World, cfg: Config, i: Id)
    requires Reachable(w, cfg) && i < |w.db.invoices| && w.db.invoices[i].status == Approved
    ensures exists r :: 0 <= r < |w.db.requests| && Backs(w.db, r, i)
  {
    hide Reachable, Run, DisciplinedRun;
    ReachableIsSound(w, cfg);
    hide ApprovalsSound;
    ApprovedIsBacked(w.db, i);
  }

  /** Decision counts are exact: fewer approvals than required and no rejection while pending or invalidated, exactly
      the required approvals once approved, and exactly one rejection once rejected; each decider counts once. */
  lemma DecisionCountsExact(w: World, cfg: Config, r: Id)
    requires Reachable(w, cfg) && r < |w.db.requests|
    ensures CountsExact(w.db.decisions, r, w.db.requests[r])
    ensures |Approvers(w.db.decisions, r, w.db.requests[r].version)|
         == CountDecisions(w.db.decisions, r, w.db.requests[r].version, Approve)
  {
    hide Reachable, Run, DisciplinedRun;
    ReachableIsSound(w, cfg);
    hide IngestSound, AuthSound, DuplicatesSound, DecisionsVouched, EvidenceReproducible, CountsExact;
    CountIsPeople(w.db.decisions, r, w.db.requests[r].version);
  }

  // The only pending request of an invoice.
  ghost predicate OnlyPending(requests: seq<Request>, r: Id, i: Id) {
    r < |requests| && PendingFor(requests[r], i)
    && forall q :: 0 <= q < |requests| && PendingFor(requests[q], i) ==> q == r
  }

  lemma AwaitingHasOnlyPending(db: Db, i: Id)
    requires ApprovalsSound(db) && i < |db.invoices|
    ensures db.invoices[i].status == AwaitingApproval <==> exists r: Id :: OnlyPending(db.requests, r, i)
  {
    hide LatestBank, DecisionsSound, EvidenceSound, KeysUnique;
    assert InvoiceBacked(db.invoices[i], i, db.requests);
    forall r: Id | OnlyPending(db.requests, r, i) ensures db.invoices[i].status == AwaitingApproval {
      assert RequestBound(db.invoices, db.bankVersions, db.requests[r]);
    }
    if db.invoices[i].status == AwaitingApproval {
      var r: Id :| r < |db.requests| && PendingFor(db.requests[r], i);
      assert OnlyPending(db.requests, r, i);
    }
  }

  lemma PendingSpeaks(db: Db, r: Id, i: Id)
    requires ApprovalsSound(db) && i < |db.invoices| && r < |db.requests| && PendingFor(db.requests[r], i)
    ensures SpeaksFor(db.invoices[i], db.bankVersions, db.requests[r]) && Staleness(db, db.requests[r]).None?
  {
  }

  /** An invoice awaits approval exactly when it has one and only one pending request; that request is for its
      current version and its vendor's newest bank version, so a decision never finds it stale. */
  lemma AwaitingMeansOnePending(w: World, cfg: Config, i: Id)
    requires Reachable(w, cfg) && i < |w.db.invoices|
    ensures w.db.invoices[i].status == AwaitingApproval <==> exists r: Id :: OnlyPending(w.db.requests, r, i)
    ensures forall r: Id :: r < |w.db.requests| && PendingFor(w.db.requests[r], i) ==>
      SpeaksFor(w.db.invoices[i], w.db.bankVersions, w.db.requests[r]) && Staleness(w.db, w.db.requests[r]).None?
  {
    hide Reachable, Run, DisciplinedRun;
    ReachableIsSound(w, cfg);
    assert ApprovalsSound(w.db);
    hide ApprovalsSound, WorldSound, SpeaksFor, Staleness;
    AwaitingHasOnlyPending(w.db, i);
    forall r: Id | r < |w.db.requests| && PendingFor(w.db.requests[r], i)
      ensures SpeaksFor(w.db.invoices[i], w.db.bankVersions, w.db.requests[r])
        && Staleness(w.db, w.db.requests[r]).None?
    {
      PendingSpeaks(w.db, r, i);
    }
  }

  lemma SpokenIsClean(db: Db, svc: Services, jobs: seq<Job>, i: Id)
    requires IngestSound(db, svc, jobs) && i < |db.invoices| && Spoken(db.invoices[i].status)
    ensures DocumentsClean(db, i)
  {
    forall d | 0 <= d < |db.documents| && db.documents[d].invoiceId == i ensures ApprovedAndClean(db, d) {
      assert DocSound(db, svc, d);
    }
  }

  /** End to end: an invoice awaits approval or is approved only with a document, all of its documents in approved
      storage and scanned clean. */
  lemma OnlyCleanDocuments(w: World, cfg: Config, i: Id)
    requires Reachable(w, cfg) && i < |w.db.invoices| && Spoken(w.db.invoices[i].status)
    ensures HasDocument(w.db, i) && DocumentsClean(w.db, i)
  {
    hide Reachable, Run, DisciplinedRun;
    ReachableIsSound(w, cfg);
    hide IngestSound, ApprovalsSound, HasDocument, DocumentsClean, AuthSound, DuplicatesSound, EvidenceReproducible;
    SpokenIsClean(w.db, cfg.svc, w.jobs, i);
  }

  /** Approved, rejected and blocked invoices never change again. */
  lemma SettledForever(w: World, cfg: Config, steps: seq<Step>, i: Id)
    requires Reachable(w, cfg) && DisciplinedRun(w, cfg, steps)
    requires i < |w.db.invoices| && Settled(w.db.invoices[i].status)
    ensures var w' := Run(w, cfg, steps); i < |w'.db.invoices| && w'.db.invoices[i] == w.db.invoices[i]
  {
    hide Reachable, Run, DisciplinedRun;
    ReachableIsSound(w, cfg);
    RunKeeps(w, cfg, steps);
    hide WorldSound, RequestsEvolve, AuthEvolves;
  }

  /** Every decision was stepped up: a challenge of the decider's own user and session was consumed at that instant,
      before it expired, within the step-up lifetime before the decision. */
  lemma DecisionsSteppedUp(w: World, cfg: Config, d: Id)
    requires Reachable(w, cfg) && d < |w.db.decisions|
    ensures DecisionVouched(w.db.members, w.auth, w.now, cfg.stepUpTtl, w.db.decisions[d])
  {
    hide Reachable, Run, DisciplinedRun;
    ReachableIsSound(w, cfg);
  }

  // ---------------------------------------------------------------- evidence

  /** Rule versions name snapshots for the rest of the run, and every stored assessment stays what its facts give
      under the snapshot it names. */
  lemma EvidenceStaysReproducible(w: World, cfg: Config, steps: seq<Step>, a: Id)
    requires Reachable(w, cfg) && DisciplinedRun(w, cfg, steps) && a < |w.db.assessments|
    ensures var w' := Run(w, cfg, steps);
      a < |w'.db.assessments| && w'.db.assessments[a] == w.db.assessments[a]
      && w.published <= w'.published && Reproducible(w'.published, w.db.assessments[a])
      && forall v :: 0 <= v < |w'.published| ==> w'.published[v].ruleVersion == v + 1
  {
    hide Reachable, Run, DisciplinedRun;
    ReachableIsSound(w, cfg);
    RunKeeps(w, cfg, steps);
    var w' := Run(w, cfg, steps);
    hide ApprovalsSound, IngestSound, AuthSound, DuplicatesSound, DecisionsVouched, AuthEvolves, Evaluate;
    assert Reproducible(w'.published, w'.db.assessments[a]);
  }

  // ---------------------------------------------------------------- documents

  // What a document row says about its bytes.
  ghost predicate BytesKept(db: Db, svc: Services, d: Id)
    requires d < |db.documents| == |db.processing|
  {
    var doc := db.documents[d];
    if doc.storage == InApproved then
      && doc.approvedKey.Some? && doc.sha256 == Some(OfBytes(doc.uploaded))
      && svc.clean(doc.uploaded) && db.processing[d].scan == Clean
      && (Holds(db.approved, doc.approvedKey.value, doc.uploaded) <==> d !in db.compensated)
      && (d in db.compensated ==> Holds(db.quarantine, doc.quarantineKey, doc.uploaded))
    else
      && doc.approvedKey.None? && doc.sha256.None?
      && (Holds(db.quarantine, doc.quarantineKey, doc.uploaded) <==> d !in db.compensated)
  }

  /** At every crash point of ingest the row and the buckets agree: the object it names holds the uploaded bytes,
      scanned clean when approved, exactly when no compensating delete hit a commit that took effect. */
  lemma BytesSurvive(w: World, cfg: Config, d: Id)
    requires Reachable(w, cfg) && d < |w.db.documents|
    ensures |w.db.documents| == |w.db.processing| && BytesKept(w.db, cfg.svc, d)
    ensures var p := w.db.processing[d];
      p.progress == if p.state == StQuarantined then 10 else if p.state == StScanning then 25
                    else if p.state == StParsed then 75 else 100
  {
    hide Reachable, Run, DisciplinedRun;
    ReachableIsSound(w, cfg);
    hide ApprovalsSound;
    assert DocSound(w.db, cfg.svc, d);
  }

  /** An upload leaves a row whose object is gone exactly when its commit went unheard and the cleanup ran. */
  lemma UploadLosesExactly(
    db: Db, vendor: Option<Id>, contract: Option<Id>, bytes: Bytes, mime: Text, fault: Fault, cleanup: bool)
    ensures var db' := Upload(db, vendor, contract, bytes, mime, fault, cleanup).db;
      var n := |db.documents|;
      |db'.documents| > n && db'.documents[n].quarantineKey !in db'.quarantine
      <==> RelationshipProblem(db, vendor, contract).None? && fault == LostAck && cleanup
  {
    hide RelationshipProblem;
  }

  /** One root per fingerprint among promoted documents, in every reachable state. */
  lemma DuplicatesHaveOneRoot(w: World, cfg: Config, j: nat, k: nat)
    requires Reachable(w, cfg) && j < |w.db.promotions| && k < |w.db.promotions|
    ensures DuplicatesSound(w.db.documents, w.db.promotions)
    ensures var docs, log := w.db.documents, w.db.promotions;
      && (Root(docs, log, j) == Root(docs, log, k) <==> docs[log[j]].sha256 == docs[log[k]].sha256)
      && (docs[log[j]].duplicateOf.None? <==> Root(docs, log, j) == log[j])
  {
    hide Reachable, Run, DisciplinedRun;
    ReachableIsSound(w, cfg);
    hide ApprovalsSound, IngestSound, AuthSound;
    OneRootPerFingerprint(w.db.documents, w.db.promotions, j, k);
  }

  // ---------------------------------------------------------------- links

  /** Every contract covers only buildings its vendor is linked to. */
  lemma ContractsWithinVendors(w: World, cfg: Config, c: Id)
    requires Reachable(w, cfg) && c < |w.db.contracts|
    ensures LinkSound(w.db.vendors, w.db.contracts[c])
  {
    hide Reachable, Run, DisciplinedRun;
    ReachableIsSound(w, cfg);
  }
}
