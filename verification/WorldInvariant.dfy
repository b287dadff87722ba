/** The invariant of the whole state machine. */
module WorldInvariant {
  import opened Basics
  import opened Risk
  import opened Schema
  import opened Approvals
  import opened ApprovalInvariant
  import opened IngestInvariant
  import opened IngestDuplicates
  import opened Sessions
  import opened SessionInvariant
  import opened Links
  import opened Webhook
  import opened World

  // ---------------------------------------------------------------- facts that span two protocols

  // A step-up challenge of the decider's own user and session vouches for the decision.
  ghost predicate DecisionVouched(members: seq<Member>, auth: AuthDb, now: nat, ttl: nat, d: Decision) {
    && d.member < |members|
    && Vouched(auth, members[d.member].userId, d.sessionId, d.stepUpVerifiedAt)
    && d.stepUpVerifiedAt <= d.decidedAt <= now && d.decidedAt <= d.stepUpVerifiedAt + ttl
  }

  ghost predicate DecisionsVouched(members: seq<Member>, auth: AuthDb, now: nat, ttl: nat, decisions: seq<Decision>) {
    forall d :: 0 <= d < |decisions| ==> DecisionVouched(members, auth, now, ttl, decisions[d])
  }

  // Re-evaluating the stored facts under the snapshot its rule version names gives the stored evaluation.
  ghost predicate Reproducible(published: seq<Snapshot>, a: Assessment) {
    1 <= a.evaluation.ruleVersion <= |published|
    && a.evaluation == Evaluate(NatText(a.invoiceId), a.evaluation.facts, published[a.evaluation.ruleVersion - 1])
  }

  ghost predicate PublishedSound(policy: Policy, published: seq<Snapshot>) {
    && |published| >= 1 && published[|published| - 1] == policy.snapshot
    && forall v :: 0 <= v < |published| ==> published[v].ruleVersion == v + 1
  }

  ghost predicate EvidenceReproducible(db: Db, published: seq<Snapshot>) {
    && PublishedSound(PolicyOf(db), published)
    && forall a :: 0 <= a < |db.assessments| ==> Reproducible(published, db.assessments[a])
  }

  ghost predicate Documented(db: Db) {
    forall i :: 0 <= i < |db.invoices| ==> HasDocument(db, i)
  }

  ghost predicate WorldSound(w: World, cfg: Config) {
    && ApprovalsSound(w.db)
    && IngestSound(w.db, cfg.svc, w.jobs)
    && DuplicatesSound(w.db.documents, w.db.promotions)
    && Documented(w.db)
    && LinksSound(w.db)
    && LedgerSound(w.db.deliveries)
    && AuthSound(w.auth, w.now)
    && DecisionsVouched(w.db.members, w.auth, w.now, cfg.stepUpTtl, w.db.decisions)
    && EvidenceReproducible(w.db, w.published)
  }

  // ---------------------------------------------------------------- what no step undoes

  predicate Settled(s: InvoiceStatus) { s == Approved || s == Rejected || s == Blocked }

  ghost predicate InvoicesEvolve(before: seq<Invoice>, after: seq<Invoice>) {
    |before| <= |after| && forall i :: 0 <= i < |before| ==>
      before[i].version <= after[i].version && (Settled(before[i].status) ==> after[i] == before[i])
  }

  ghost predicate DbEvolves(db: Db, db': Db) {
    && InvoicesEvolve(db.invoices, db'.invoices)
    && RequestsEvolve(db.requests, db'.requests)
    && db.assessments <= db'.assessments && db.decisions <= db'.decisions && db.deliveries <= db'.deliveries
  }

  // ---------------------------------------------------------------- the one hypothesis

  /** No finish of a delivery meets a document that another delivery already finished. */
  predicate Disciplined(w: World, step: Step) {
    step.OnDocument? && step.document.ExecJob? && step.document.job < |w.jobs| ==>
      !LateFinish(w.db, w.jobs[step.document.job], step.document.fault)
  }

  ghost predicate DisciplinedRun(w: World, cfg: Config, steps: seq<Step>)
    decreases |steps|
  {
    steps == [] || (Disciplined(w, steps[0]) && DisciplinedRun(Apply(w, cfg, steps[0]), cfg, steps[1..]))
  }
}
