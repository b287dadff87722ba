/** Repeats over whole runs, the missing approvals, and the queue discipline. */
module WorldReplays {
  import opened Basics
  import opened Risk
  import opened Schema
  import opened Approvals
  import opened ApprovalInvariant
  import opened ApprovalCompletion
  import opened Webhook
  import opened World
  import opened WorldInvariant
  import opened WorldProofs
  import opened WorldTheorems

  // ---------------------------------------------------------------- runs compose

  lemma {:induction false} RunSplits(w: World, cfg: Config, xs: seq<Step>, ys: seq<Step>)
    ensures Run(w, cfg, xs + ys) == Run(Run(w, cfg, xs), cfg, ys)
    decreases |xs|
  {
    hide Apply;
    if xs == [] {
      assert xs + ys == ys;
    } else {
      assert (xs + ys)[0] == xs[0] && (xs + ys)[1..] == xs[1..] + ys;
      RunSplits(Apply(w, cfg, xs[0]), cfg, xs[1..], ys);
    }
  }

  lemma {:induction false} DisciplineSplits(w: World, cfg: Config, xs: seq<Step>, ys: seq<Step>)
    ensures DisciplinedRun(w, cfg, xs + ys) <==> DisciplinedRun(w, cfg, xs) && DisciplinedRun(Run(w, cfg, xs), cfg, ys)
    decreases |xs|
  {
    hide Apply, Disciplined;
    if xs == [] {
      assert xs + ys == ys;
    } else {
      assert (xs + ys)[0] == xs[0] && (xs + ys)[1..] == xs[1..] + ys;
      DisciplineSplits(Apply(w, cfg, xs[0]), cfg, xs[1..], ys);
    }
  }

  lemma {:induction false} RunOfOne(w: World, cfg: Config, s: Step)
    ensures Run(w, cfg, [s]) == Apply(w, cfg, s)
    ensures DisciplinedRun(w, cfg, [s]) <==> Disciplined(w, s)
  {
    hide Apply, Disciplined;
    assert [s][1..] == [];
    assert Run(Apply(w, cfg, s), cfg, []) == Apply(w, cfg, s);
  }

  // ---------------------------------------------------------------- keys are remembered

  lemma RequestRemembered(before: Db, after: Db, hash: Digest, r: Id)
    requires RequestsEvolve(before.requests, after.requests) && KeysUnique(after.requests, after.decisions)
    requires FindRequest(before.requests, hash) == Some(r)
    ensures FindRequest(after.requests, hash) == Some(r) && after.requests[r].invoiceId == before.requests[r].invoiceId
  {
    assert RequestEvolves(before.requests[r], after.requests[r]);
  }

  lemma DecisionRemembered(before: Db, after: Db, hash: Digest, d: Id)
    requires before.decisions <= after.decisions && KeysUnique(after.requests, after.decisions)
    requires FindDecision(before.decisions, hash) == Some(d)
    ensures FindDecision(after.decisions, hash) == Some(d) && after.decisions[d] == before.decisions[d]
  {
  }

  lemma SubmitRecords(db: Db, auth: Auth, invoiceId: Id, version: nat, key: Option<Text>)
    requires Submit(db, auth, invoiceId, version, key).reply.Ok?
    ensures var r := Submit(db, auth, invoiceId, version, key);
      KeyHash(key).Some? && FindRequest(r.db.requests, KeyHash(key).value) == Some(r.reply.id)
      && r.db.requests[r.reply.id].invoiceId == invoiceId
  {
    hide Evaluate, FactsFor;
    var hash := KeyHash(key).value;
    var db' := Submit(db, auth, invoiceId, version, key).db;
    if FindRequest(db.requests, hash).None? { assert db'.requests[..|db.requests|] == db.requests; }
  }

  lemma DecideRecords(
    db: Db, sessions: seq<Session>, now: nat, ttl: nat, auth: Auth, requestId: Id, dto: DecisionDto, key: Option<Text>)
    requires Decide(db, sessions, now, ttl, auth, requestId, dto, key).reply.Ok?
    ensures var r := Decide(db, sessions, now, ttl, auth, requestId, dto, key);
      r.reply == Ok(requestId) && KeyHash(key).Some? && FindDecision(r.db.decisions, KeyHash(key).value).Some?
      && r.db.decisions[FindDecision(r.db.decisions, KeyHash(key).value).value].requestId == requestId
  {
    hide DecideProblem, StepUp, Staleness, Invalidate;
    var hash := KeyHash(key).value;
    var db' := Decide(db, sessions, now, ttl, auth, requestId, dto, key).db;
    if FindDecision(db.decisions, hash).None? { assert db'.decisions[..|db.decisions|] == db.decisions; }
  }

  // The answer to a key that has succeeded for this target before.
  function Replayed(original: Reply, sameTarget: bool): Reply {
    if sameTarget then original else Err(IdempotencyKeyReused)
  }

  /** After a submission succeeds, any later submission under its key, by whomever, for whatever invoice and version,
      changes nothing: for the same invoice it gets the original answer, for another it is refused. */
  lemma SubmitRepeats(
    w: World, db: Db, auth: Auth, invoiceId: Id, version: nat, key: Option<Text>,
    auth2: Auth, invoiceId2: Id, version2: nat, key2: Option<Text>)
    requires var r := Submit(w.db, auth, invoiceId, version, key);
      r.reply.Ok? && DbEvolves(r.db, db) && ApprovalsSound(db)
    requires KeyHash(key2) == KeyHash(key)
    ensures Submit(db, auth2, invoiceId2, version2, key2)
         == Outcome(db, Replayed(Submit(w.db, auth, invoiceId, version, key).reply, invoiceId2 == invoiceId))
  {
    hide Submitted, SubmitProblem, RequestsBound, InvoicesBacked, DecisionsSound, EvidenceSound, OnePending;
    SubmitRecords(w.db, auth, invoiceId, version, key);
    var r := Submit(w.db, auth, invoiceId, version, key);
    RequestRemembered(r.db, db, KeyHash(key).value, r.reply.id);
  }

  /** After a decision succeeds, any later decision under its key, by whomever, at whatever time, on whatever request
      and with whatever outcome, changes nothing: on the same request it gets the original answer, on another it is
      refused. */
  lemma DecideRepeats(
    w: World, later: World, ttl: nat, auth: Auth, requestId: Id, dto: DecisionDto, key: Option<Text>,
    auth2: Auth, requestId2: Id, dto2: DecisionDto, key2: Option<Text>)
    requires var r := Decide(w.db, w.auth.sessions, w.now, ttl, auth, requestId, dto, key);
      r.reply.Ok? && DbEvolves(r.db, later.db) && ApprovalsSound(later.db)
    requires KeyHash(key2) == KeyHash(key)
    ensures Decide(later.db, later.auth.sessions, later.now, ttl, auth2, requestId2, dto2, key2)
         == Outcome(later.db, Replayed(
              Decide(w.db, w.auth.sessions, w.now, ttl, auth, requestId, dto, key).reply, requestId2 == requestId))
  {
    hide Decided, DecideProblem, StepUp, Staleness, Invalidate;
    hide RequestsBound, InvoicesBacked, DecisionsSound, EvidenceSound, OnePending, RequestsEvolve;
    DecideRecords(w.db, w.auth.sessions, w.now, ttl, auth, requestId, dto, key);
    var r := Decide(w.db, w.auth.sessions, w.now, ttl, auth, requestId, dto, key);
    DecisionRemembered(r.db, later.db, KeyHash(key).value, FindDecision(r.db.decisions, KeyHash(key).value).value);
  }

  // ---------------------------------------------------------------- repeats leave no trace

  // The call succeeds in this state.
  predicate Succeeds(w: World, cfg: Config, s: Step) {
    match s
    case OnApproval(DoSubmit(auth, i, version, key)) => Submit(w.db, auth, i, version, key).reply.Ok?
    case OnApproval(DoDecide(auth, r, dto, key)) =>
      Decide(w.db, w.auth.sessions, w.now, cfg.stepUpTtl, auth, r, dto, key).reply.Ok?
    case OnRegistry(DoWebhook(p, timestamp, signature)) =>
      Process(w.db, PayloadJson(p), p, timestamp, signature, cfg.secret, 1000 * w.now).1.Accepted?
    case _ => false
  }

  /** Calls of one kind under one key, or webhooks of one event: everything else may differ. */
  predicate SameKey(s: Step, t: Step) {
    match s
    case OnApproval(DoSubmit(_, _, _, key)) =>
      t.OnApproval? && t.approval.DoSubmit? && KeyHash(t.approval.key) == KeyHash(key)
    case OnApproval(DoDecide(_, _, _, key)) =>
      t.OnApproval? && t.approval.DoDecide? && KeyHash(t.approval.key) == KeyHash(key)
    case OnRegistry(DoWebhook(p, _, _)) =>
      t.OnRegistry? && t.registry.DoWebhook? && t.registry.payload.eventId == p.eventId
    case _ => false
  }

  // The rows remember the call's key.
  predicate Remembered(db: Db, s: Step) {
    match s
    case OnApproval(DoSubmit(_, _, _, key)) => KeyHash(key).Some? && FindRequest(db.requests, KeyHash(key).value).Some?
    case OnApproval(DoDecide(_, _, _, key)) => KeyHash(key).Some?
      && FindDecision(db.decisions, KeyHash(key).value).Some?
    case OnRegistry(DoWebhook(p, _, _)) => FindDelivery(db.deliveries, p.eventId).Some?
    case _ => false
  }

  lemma SuccessIsRemembered(w: World, cfg: Config, s: Step)
    requires Succeeds(w, cfg, s)
    ensures Remembered(Apply(w, cfg, s).db, s)
  {
    match s
    case OnApproval(DoSubmit(auth, i, version, key)) =>
      hide Submit, PolicyOf;
      SubmitRecords(w.db, auth, i, version, key);
    case OnApproval(DoDecide(auth, r, dto, key)) =>
      hide Decide, PolicyOf;
      DecideRecords(w.db, w.auth.sessions, w.now, cfg.stepUpTtl, auth, r, dto, key);
    case OnRegistry(DoWebhook(p, timestamp, signature)) =>
      hide Verified, SignedText, PayloadJson;
      WebhookRecords(w.db, p, OfText(SignedText(timestamp.value, PayloadJson(p))));
    case _ =>
  }

  lemma WebhookRecords(db: Db, p: Payload, hash: Digest)
    requires Receive(db, p, hash).1.Accepted?
    ensures FindDelivery(Receive(db, p, hash).0.deliveries, p.eventId).Some?
  {
    var ds := Receive(db, p, hash).0.deliveries;
    if FindDelivery(db.deliveries, p.eventId).None? { assert ds[|db.deliveries|].eventId == p.eventId; }
  }

  lemma StaysRemembered(before: Db, after: Db, s: Step)
    requires DbEvolves(before, after) && Remembered(before, s)
    ensures Remembered(after, s)
  {
    match s
    case OnApproval(DoSubmit(_, _, _, key)) =>
      var r := FindRequest(before.requests, KeyHash(key).value).value;
      assert RequestEvolves(before.requests[r], after.requests[r]);
    case OnApproval(DoDecide(_, _, _, key)) =>
      var d := FindDecision(before.decisions, KeyHash(key).value).value;
      assert after.decisions[d] == before.decisions[d];
    case OnRegistry(DoWebhook(p, _, _)) =>
      var d := FindDelivery(before.deliveries, p.eventId).value;
      assert after.deliveries[d] == before.deliveries[d];
    case _ =>
  }

  /** A call whose key the rows remember is no step at all. */
  lemma RememberedIsNoStep(w: World, cfg: Config, s: Step, t: Step)
    requires Remembered(w.db, s) && SameKey(s, t)
    ensures Apply(w, cfg, t) == w
  {
    match t
    case OnApproval(DoSubmit(auth, i, version, key)) =>
      hide SubmitProblem, Submitted, PolicyOf;
    case OnApproval(DoDecide(auth, r, dto, key)) =>
      hide DecideProblem, Decided, Staleness, Invalidate, PolicyOf;
    case OnRegistry(DoWebhook(p, timestamp, signature)) =>
      hide Verified, SignedText, PayloadJson;
    case _ =>
  }

  /** Repeating a submit key, a decision key or the event of a bank webhook that succeeded, anywhere later in a run
      and by whatever call carries it, leaves the run's end unchanged. */
  lemma RepeatsLeaveNoTrace(w: World, cfg: Config, xs: seq<Step>, s: Step, ys: seq<Step>, t: Step, zs: seq<Step>)
    requires Reachable(w, cfg) && DisciplinedRun(w, cfg, xs + [s] + ys)
    requires Succeeds(Run(w, cfg, xs), cfg, s) && SameKey(s, t)
    ensures Run(w, cfg, xs + [s] + ys + [t] + zs) == Run(w, cfg, xs + [s] + ys + zs)
  {
    hide Reachable, Run, DisciplinedRun, Apply, Succeeds, SameKey, Remembered;
    ReachableIsSound(w, cfg);
    hide WorldSound, DbEvolves;
    var w1 := Run(w, cfg, xs);
    var w2 := Apply(w1, cfg, s);
    var w3 := Run(w2, cfg, ys);
    RunOfOne(w1, cfg, s);
    RunSplits(w, cfg, xs, [s]);
    RunSplits(w, cfg, xs + [s], ys);
    DisciplineSplits(w, cfg, xs + [s], ys);
    RunKeeps(w, cfg, xs + [s]);
    RunKeeps(w2, cfg, ys);
    SuccessIsRemembered(w1, cfg, s);
    StaysRemembered(w2.db, w3.db, s);
    RememberedIsNoStep(w3, cfg, s, t);
    RunOfOne(w3, cfg, t);
    RunSplits(w, cfg, xs + [s] + ys, [t]);
    RunSplits(w, cfg, xs + [s] + ys + [t], zs);
    RunSplits(w, cfg, xs + [s] + ys, zs);
  }

  // ---------------------------------------------------------------- any number of repeats

  predicate Repeats(done: seq<Step>, t: Step) { exists i :: 0 <= i < |done| && SameKey(done[i], t) }

  /** The run without the calls that repeat the key of one that succeeded before. */
  function WithoutRepeats(w: World, cfg: Config, steps: seq<Step>, done: seq<Step>): seq<Step>
    decreases |steps|
  {
    if steps == [] then []
    else if Repeats(done, steps[0]) then WithoutRepeats(w, cfg, steps[1..], done)
    else
      var done' := if Succeeds(w, cfg, steps[0]) then done + [steps[0]] else done;
      [steps[0]] + WithoutRepeats(Apply(w, cfg, steps[0]), cfg, steps[1..], done')
  }

  ghost predicate AllRemembered(db: Db, done: seq<Step>) { forall i :: 0 <= i < |done| ==> Remembered(db, done[i]) }

  lemma StepRemembers(w: World, cfg: Config, s: Step, done: seq<Step>)
    requires WorldSound(w, cfg) && Disciplined(w, s) && AllRemembered(w.db, done)
    ensures AllRemembered(Apply(w, cfg, s).db, if Succeeds(w, cfg, s) then done + [s] else done)
  {
    hide WorldSound, Apply, DbEvolves, Remembered, Succeeds;
    StepKeeps(w, cfg, s);
    var w' := Apply(w, cfg, s);
    forall i | 0 <= i < |done| ensures Remembered(w'.db, done[i]) { StaysRemembered(w.db, w'.db, done[i]); }
    if Succeeds(w, cfg, s) { SuccessIsRemembered(w, cfg, s); }
  }

  lemma RepeatIsNoStep(w: World, cfg: Config, done: seq<Step>, t: Step)
    requires AllRemembered(w.db, done) && Repeats(done, t)
    ensures Apply(w, cfg, t) == w
  {
    hide Apply, Remembered, SameKey;
    var i :| 0 <= i < |done| && SameKey(done[i], t);
    RememberedIsNoStep(w, cfg, done[i], t);
  }

  lemma {:induction false} RepeatsAreErased(w: World, cfg: Config, steps: seq<Step>, done: seq<Step>)
    requires WorldSound(w, cfg) && DisciplinedRun(w, cfg, steps) && AllRemembered(w.db, done)
    ensures Run(w, cfg, WithoutRepeats(w, cfg, steps, done)) == Run(w, cfg, steps)
    decreases |steps|
  {
    hide WorldSound, Apply, Succeeds, AllRemembered, Repeats, Disciplined, DbEvolves;
    if steps != [] {
      if Repeats(done, steps[0]) {
        RepeatIsNoStep(w, cfg, done, steps[0]);
        RepeatsAreErased(w, cfg, steps[1..], done);
      } else {
        var w' := Apply(w, cfg, steps[0]);
        var done' := if Succeeds(w, cfg, steps[0]) then done + [steps[0]] else done;
        StepKeeps(w, cfg, steps[0]);
        StepRemembers(w, cfg, steps[0], done);
        RepeatsAreErased(w', cfg, steps[1..], done');
        var rest := WithoutRepeats(w', cfg, steps[1..], done');
        assert ([steps[0]] + rest)[1..] == rest;
      }
    }
  }

  /** A run ends in the same state as the run without its repeats, however many there are. */
  lemma AllRepeatsLeaveNoTrace(w: World, cfg: Config, steps: seq<Step>)
    requires Reachable(w, cfg) && DisciplinedRun(w, cfg, steps)
    ensures Run(w, cfg, WithoutRepeats(w, cfg, steps, [])) == Run(w, cfg, steps)
  {
    hide Reachable, Run, DisciplinedRun, WithoutRepeats;
    ReachableIsSound(w, cfg);
    RepeatsAreErased(w, cfg, steps, []);
  }

  // ---------------------------------------------------------------- the missing approvals

  /** In every reachable state, the missing number of fresh approvals completes a pending request, exactly at the
      last of them. */
  lemma MissingApprovalsComplete(w: World, cfg: Config, r: Id, version: nat, calls: seq<Call>)
    requires Reachable(w, cfg) && PendingAt(w.db, r, version) && AllFresh(w.db, cfg.stepUpTtl, r, calls)
    requires |calls| <= MissingCount(w.db, r)
    ensures var db' := ApproveAll(w.db, cfg.stepUpTtl, r, version, calls);
      if |calls| == MissingCount(w.db, r) then Stands(db', r, RequestApproved, Approved)
      else Stands(db', r, Pending, AwaitingApproval)
  {
    hide Reachable, Run, DisciplinedRun, AllFresh, PendingAt, MissingCount, ApproveAll, Stands, ApprovalsSound;
    ReachableIsSound(w, cfg);
    MissingApprovals(w.db, cfg.stepUpTtl, r, version, calls);
  }
}
