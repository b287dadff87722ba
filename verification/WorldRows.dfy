/** Which step of a run stored a delivery or a decision, and what its caller brought. */
module WorldRows {
  import opened Basics
  import opened Schema
  import opened Approvals
  import opened ApprovalInvariant
  import opened Ingest
  import opened IngestInvariant
  import opened IngestDuplicates
  import opened Sessions
  import opened SessionInvariant
  import opened Links
  import opened Webhook
  import opened World
  import opened WorldInvariant
  import opened WorldSteps
  import opened WorldTheorems
  import opened WorldProofs
  import opened SubmitRows
  import opened DecideRows
  import opened WebhookRows

  // ---------------------------------------------------------------- a changed account

  /** In a reachable organization a vendor with a second bank version needs two decisions for every submission, whenever
      the score of a changed account reaches the high threshold. */
  lemma SecondBankVersionNeedsTwo(
    w: World, cfg: Config, auth: Auth, i: Id, version: nat, key: Option<Text>, a: Id, b: Id)
    requires Reachable(w, cfg) && Stores(w.db, auth, i, version, key) && i < |w.db.invoices|
    requires a < b < |w.db.bankVersions| && w.db.bankVersions[a].vendorId == w.db.bankVersions[b].vendorId
    requires w.db.invoices[i].vendorId == Some(w.db.bankVersions[b].vendorId)
    requires InForce(w.db).changedBankAccountScore >= InForce(w.db).highThreshold
    ensures var db' := Apply(w, cfg, OnApproval(DoSubmit(auth, i, version, key))).db;
      |db'.requests| == |w.db.requests| + 1 && db'.requests[|w.db.requests|].requiredDecisions == 2
  {
    BanksAreNumbered(w, cfg);
    SecondVersionNeedsTwo(w.db, auth, i, version, key, a, b);
    hide Reachable, Run, DisciplinedRun, Submit, Stores, InForce, BanksSound;
  }

  lemma BanksAreNumbered(w: World, cfg: Config)
    requires Reachable(w, cfg)
    ensures BanksSound(w.db.bankVersions)
  {
    hide Reachable, Run, DisciplinedRun;
    ReachableIsSound(w, cfg);
    hide IngestSound, AuthSound, DuplicatesSound, DecisionsVouched, EvidenceReproducible, BanksSound;
  }

  // ---------------------------------------------------------------- deliveries

  // The row that the step appends, if it delivers.
  ghost function RowIn(step: Step): Delivery
    requires step.OnRegistry? && step.registry.DoWebhook? && step.registry.timestamp.Some?
  {
    RowOf(step.registry.payload, step.registry.timestamp.value, PayloadJson(step.registry.payload))
  }

  // The step is a signed webhook call, and the k-th delivery is the row it appended.
  ghost predicate Delivers(w: World, cfg: Config, step: Step, k: nat) {
    && step.OnRegistry? && step.registry.DoWebhook? && k == |w.db.deliveries|
    && Signed(PayloadJson(step.registry.payload), step.registry.timestamp, step.registry.signature, cfg.secret,
         1000 * w.now)
    && Apply(w, cfg, step).db.deliveries == w.db.deliveries + [RowIn(step)]
  }

  lemma ApprovalsDeliverNothing(db: Db, sessions: seq<Session>, now: nat, ttl: nat, step: ApprovalStep)
    ensures ApprovalOutcome(db, sessions, now, ttl, step).db.deliveries == db.deliveries
  {
    hide SubmitProblem, EditProblem, DecideProblem, Staleness, StepUp, KeyHash;
  }

  lemma DocumentsDeliverNothing(w: World, cfg: Config, step: DocumentStep)
    ensures DocumentEffect(w.db, w.jobs, cfg.svc, step).0.deliveries == w.db.deliveries
  {
    if step.ExecJob? && step.job < |w.jobs| { ExecFrame(w.db, cfg.svc, w.jobs[step.job], step.fault); }
    hide Exec, RelationshipProblem;
  }

  lemma RegistryDelivers(w: World, cfg: Config, step: RegistryStep)
    ensures RegistryEffect(w.db, w.now, cfg.secret, step).deliveries == w.db.deliveries
      || Delivers(w, cfg, OnRegistry(step), |w.db.deliveries|)
  {
    if step.DoWebhook? {
      WebhookDelivers(w, cfg, step);
    } else {
      RegistryDeliversNothing(w.db, w.now, cfg.secret, step);
    }
    hide RegistryEffect, Delivers;
  }

  lemma WebhookDelivers(w: World, cfg: Config, step: RegistryStep)
    requires step.DoWebhook?
    ensures RegistryEffect(w.db, w.now, cfg.secret, step).deliveries == w.db.deliveries
      || Delivers(w, cfg, OnRegistry(step), |w.db.deliveries|)
  {
    hide Process, Signed, PayloadJson, CreateVendor, UpdateVendor, CreateContract, UpdateContract;
    OnlySignedIsStored(
      w.db, PayloadJson(step.payload), step.payload, step.timestamp, step.signature, cfg.secret, 1000 * w.now);
  }

  lemma RegistryDeliversNothing(db: Db, now: nat, secret: Text, step: RegistryStep)
    requires !step.DoWebhook?
    ensures RegistryEffect(db, now, secret, step).deliveries == db.deliveries
  {
    if step.DoUpdateVendor? { UpdateVendorDelivers(db, step.role, step.vendorId, step.version, step.relink); }
    hide UpdateVendor, VendorProblem;
  }

  /** One step appends a delivery only as a signed webhook call, and no step touches an earlier one. */
  lemma StepDelivers(w: World, cfg: Config, step: Step)
    ensures var w' := Apply(w, cfg, step);
      w'.db.deliveries == w.db.deliveries || Delivers(w, cfg, step, |w.db.deliveries|)
  {
    hide ApprovalOutcome, DocumentEffect, RegistryEffect, AuthApply, Signed;
    match step
    case OnApproval(s) => ApprovalsDeliverNothing(w.db, w.auth.sessions, w.now, cfg.stepUpTtl, s);
    case OnDocument(s) => DocumentsDeliverNothing(w, cfg, s);
    case OnRegistry(s) => RegistryDelivers(w, cfg, s);
    case _ =>
  }

  lemma {:induction false} DeliveriesStay(w: World, cfg: Config, steps: seq<Step>)
    ensures w.db.deliveries <= Run(w, cfg, steps).db.deliveries
    decreases |steps|
  {
    hide Apply, Signed;
    if steps != [] {
      StepDelivers(w, cfg, steps[0]);
      DeliveriesStay(Apply(w, cfg, steps[0]), cfg, steps[1..]);
    }
  }

  /** Every delivery a run added was appended by one of its steps, a webhook call signed with the shared secret at an
      instant within 300 seconds of the clock. */
  lemma {:induction false} DeliveriesAreSigned(w: World, cfg: Config, steps: seq<Step>, k: nat) returns (n: nat)
    requires |w.db.deliveries| <= k < |Run(w, cfg, steps).db.deliveries|
    ensures n < |steps| && Delivers(Run(w, cfg, steps[..n]), cfg, steps[n], k)
    ensures Run(w, cfg, steps).db.deliveries[k] == RowIn(steps[n])
    decreases |steps|
  {
    hide Apply, Signed;
    var w1 := Apply(w, cfg, steps[0]);
    StepDelivers(w, cfg, steps[0]);
    DeliveriesStay(w1, cfg, steps[1..]);
    if k < |w1.db.deliveries| {
      n := 0;
      assert steps[..0] == [];
    } else {
      var m := DeliveriesAreSigned(w1, cfg, steps[1..], k);
      n := m + 1;
      assert steps[..n][1..] == steps[1..][..m];
    }
  }

  lemma UpdateVendorDelivers(db: Db, role: Role, v: Id, version: nat, relink: Option<set<Id>>)
    ensures UpdateVendor(db, role, v, version, relink).db.deliveries == db.deliveries
  {
  }

  // ---------------------------------------------------------------- decisions

  // The step is a decide call of a caller who may decide, and the k-th decision is the row it appended.
  ghost predicate Decides(w: World, cfg: Config, step: Step, k: nat) {
    && step.OnApproval? && step.approval.DoDecide? && k == |w.db.decisions|
    && step.approval.requestId < |w.db.requests|
    && w.db.requests[step.approval.requestId].status == Pending
    && MayDecide(w.db, w.auth.sessions, w.now, cfg.stepUpTtl, step.approval.auth, step.approval.requestId,
         w.db.requests[step.approval.requestId].initiatedBy, step.approval.decision.reason)
    && |Apply(w, cfg, step).db.decisions| == k + 1
    && Apply(w, cfg, step).db.decisions[k].member == step.approval.auth.membershipId
    && Apply(w, cfg, step).db.decisions[k].requestId == step.approval.requestId
  }

  lemma OthersDecideNothing(db: Db, sessions: seq<Session>, now: nat, ttl: nat, step: ApprovalStep)
    requires !step.DoDecide?
    ensures ApprovalOutcome(db, sessions, now, ttl, step).db.decisions == db.decisions
  {
    hide SubmitProblem, EditProblem, KeyHash;
  }

  lemma DecideDecides(w: World, cfg: Config, step: ApprovalStep)
    requires ApprovalsSound(w.db) && step.DoDecide?
    ensures var db' := ApprovalOutcome(w.db, w.auth.sessions, w.now, cfg.stepUpTtl, step).db;
      db'.decisions == w.db.decisions || Decides(w, cfg, OnApproval(step), |w.db.decisions|)
  {
    hide ApprovalsSound, Decide, MayDecide, Submit, Edit, AddBankVersion, UpdatePolicy, DocumentEffect, RegistryEffect;
    OnlyApproversAreStored(
      w.db, w.auth.sessions, w.now, cfg.stepUpTtl, step.auth, step.requestId, step.decision, step.key);
  }

  lemma StepDecides(w: World, cfg: Config, step: Step)
    requires ApprovalsSound(w.db)
    ensures Apply(w, cfg, step).db.decisions == w.db.decisions || Decides(w, cfg, step, |w.db.decisions|)
  {
    hide ApprovalOutcome, DocumentEffect, RegistryEffect, AuthApply, ApprovalsSound, MayDecide;
    match step
    case OnApproval(s) =>
      if s.DoDecide? {
        DecideDecides(w, cfg, s);
      } else {
        OthersDecideNothing(w.db, w.auth.sessions, w.now, cfg.stepUpTtl, s);
      }
    case OnDocument(s) => DocumentsDecideNothing(w, cfg, s);
    case OnRegistry(s) => RegistryDecidesNothing(w, cfg, s);
    case _ =>
  }

  lemma DocumentsDecideNothing(w: World, cfg: Config, step: DocumentStep)
    ensures DocumentEffect(w.db, w.jobs, cfg.svc, step).0.decisions == w.db.decisions
  {
    if step.ExecJob? && step.job < |w.jobs| { ExecFrame(w.db, cfg.svc, w.jobs[step.job], step.fault); }
    hide Exec, RelationshipProblem;
  }

  lemma RegistryDecidesNothing(w: World, cfg: Config, step: RegistryStep)
    ensures RegistryEffect(w.db, w.now, cfg.secret, step).decisions == w.db.decisions
  {
    hide Verified, PayloadJson, BankStatusOf, FindDelivery;
  }

  /** Every decision a disciplined run added was appended by one of its steps, a decide call of an eligible member, not
      the initiator, stepped up at that instant and deciding this request for the first time. */
  lemma {:induction false} DecisionsAreMade(w: World, cfg: Config, steps: seq<Step>, k: nat) returns (n: nat)
    requires WorldSound(w, cfg) && DisciplinedRun(w, cfg, steps)
    requires |w.db.decisions| <= k < |Run(w, cfg, steps).db.decisions|
    ensures n < |steps| && Decides(Run(w, cfg, steps[..n]), cfg, steps[n], k)
    decreases |steps|
  {
    hide Apply, WorldSound, MayDecide;
    var w1 := Apply(w, cfg, steps[0]);
    assert ApprovalsSound(w.db) by { SoundHasApprovals(w, cfg); }
    hide ApprovalsSound;
    StepDecides(w, cfg, steps[0]);
    StepKeeps(w, cfg, steps[0]);
    if k < |w1.db.decisions| {
      n := 0;
      assert steps[..0] == [];
    } else {
      var m := DecisionsAreMade(w1, cfg, steps[1..], k);
      n := m + 1;
      assert steps[..n][1..] == steps[1..][..m];
    }
  }

  lemma SoundHasApprovals(w: World, cfg: Config)
    requires WorldSound(w, cfg)
    ensures ApprovalsSound(w.db)
  {
  }
}
