/** Sequences of deliveries of one document: retry transparency, termination and accepted writes. */
module IngestRetries {
  import opened Schema
  import opened Ingest
  import opened IngestInvariant
  import opened IngestProofs
  import opened IngestDuplicates
  import opened IngestRuns

  // ---------------------------------------------------------------- non-final deliveries

  // A document the worker alone has handled, in deliveries none of which was the last.
  ghost predicate Retriable(db: Db, svc: Services, d: Id) {
    && Sound(db, svc, d) && Plain(db, d)
    && (d in db.compensated ==> !Terminal(db.processing[d].state))
  }

  lemma PlainRows(db: Db, job: Job)
    requires Resident(db, job) && Effect(db, job).Some? && !WritesObject(job.pc)
    requires Plain(db, job.documentId) && !job.finalAttempt
    ensures Plain(Effect(db, job).value, job.documentId)
  {
    hide PromoteTx, UndoPutStep, ManualReviewTx;
  }

  lemma PlainObjects(db: Db, job: Job)
    requires Resident(db, job) && Effect(db, job).Some? && WritesObject(job.pc)
    requires Plain(db, job.documentId) && !job.finalAttempt
    ensures Plain(Effect(db, job).value, job.documentId)
  {
    hide FindDuplicate, BlockTx, FinishTx, ManualReviewTx, ResetTx, Ingest.Progress;
  }

  lemma PlainStep(db: Db, svc: Services, job: Job, fault: Fault)
    requires Resident(db, job) && Plain(db, job.documentId) && !job.finalAttempt
    ensures Plain(Exec(db, svc, job, fault).0, job.documentId)
  {
    ExecWrites(db, svc, job, fault);
    hide Exec, Effect, Plain;
    if Effect(db, job).Some? {
      if WritesObject(job.pc) { PlainObjects(db, job); } else { PlainRows(db, job); }
    }
  }

  lemma {:induction false} PlainRun(db: Db, svc: Services, job: Job, script: Pc -> Fault)
    requires Ready(db, svc, job) && Solo(db, job) && Plain(db, job.documentId) && !job.finalAttempt
    ensures Plain(RunJob(db, svc, job, script), job.documentId)
    decreases Rank(job.pc)
  {
    if job.pc != Done {
      hide Exec, DocSound, JobSound, Solo, Plain;
      PlainStep(db, svc, job, script(job.pc));
      StepIsSound(db, svc, job, script(job.pc));
      var (db', job') := Exec(db, svc, job, script(job.pc));
      PlainRun(db', svc, job', script);
    }
  }

  lemma RetriableIsOff(db: Db, svc: Services, d: Id, finalAttempt: bool)
    requires Retriable(db, svc, d)
    ensures var db0 := db.(nextKey := db.nextKey + 1);
      LostIsOff(db0, NewJob(db, d, db.documents[d].invoiceId, finalAttempt)) && Plain(db0, d)
  {
  }

  lemma DeliveryIsRetriable(db: Db, svc: Services, d: Id, script: Pc -> Fault)
    requires Retriable(db, svc, d)
    ensures var db' := Deliver(db, svc, d, false, script); Retriable(db', svc, d) && SameUpload(db, db', d)
  {
    var db0, job := db.(nextKey := db.nextKey + 1), NewJob(db, d, db.documents[d].invoiceId, false);
    var db' := Deliver(db, svc, d, false, script);
    NewJobIsReady(db, svc, d, false);
    RetriableIsOff(db, svc, d, false);
    hide RunJob, DocSound, JobSound, Solo, LostIsOff, Plain, Reaches;
    RunIsSound(db0, svc, job, script);
    PlainRun(db0, svc, job, script);
    LostStaysOff(db0, svc, job, script);
    EndedReaches(db', svc, d);
  }

  /** Any number of crashed, failed or completed deliveries, one after another. */
  ghost function Deliveries(db: Db, svc: Services, d: Id, scripts: seq<Pc -> Fault>): (r: Db)
    requires Retriable(db, svc, d)
    ensures Retriable(r, svc, d) && SameUpload(db, r, d)
    decreases |scripts|
  {
    if scripts == [] then db
    else
      DeliveryIsRetriable(db, svc, d, scripts[0]);
      Deliveries(Deliver(db, svc, d, false, scripts[0]), svc, d, scripts[1..])
  }

  ghost predicate LosesIn(db: Db, svc: Services, d: Id, script: Pc -> Fault)
    requires Retriable(db, svc, d)
  {
    Loses(db.(nextKey := db.nextKey + 1), svc, NewJob(db, d, db.documents[d].invoiceId, false), script)
  }

  // Some delivery of the sequence loses the stored object.
  ghost predicate LosesAmong(db: Db, svc: Services, d: Id, scripts: seq<Pc -> Fault>)
    requires Retriable(db, svc, d)
    decreases |scripts|
  {
    scripts != [] &&
    (LosesIn(db, svc, d, scripts[0]) ||
     (DeliveryIsRetriable(db, svc, d, scripts[0]);
      LosesAmong(Deliver(db, svc, d, false, scripts[0]), svc, d, scripts[1..])))
  }

  lemma DeliveryLosesExactly(db: Db, svc: Services, d: Id, script: Pc -> Fault)
    requires Retriable(db, svc, d)
    ensures d in Deliver(db, svc, d, false, script).compensated <==> d in db.compensated || LosesIn(db, svc, d, script)
  {
    NewJobIsReady(db, svc, d, false);
    RetriableIsOff(db, svc, d, false);
    hide Exec, DocSound, JobSound, Solo, LostIsOff, Plain;
    LostExactly(db.(nextKey := db.nextKey + 1), svc, NewJob(db, d, db.documents[d].invoiceId, false), script);
  }

  lemma {:induction false} DeliveriesLoseExactly(db: Db, svc: Services, d: Id, scripts: seq<Pc -> Fault>)
    requires Retriable(db, svc, d)
    ensures d in Deliveries(db, svc, d, scripts).compensated <==> d in db.compensated || LosesAmong(db, svc, d, scripts)
    decreases |scripts|
  {
    if scripts != [] {
      hide Retriable, Deliver, LosesIn;
      DeliveryIsRetriable(db, svc, d, scripts[0]);
      DeliveryLosesExactly(db, svc, d, scripts[0]);
      DeliveriesLoseExactly(Deliver(db, svc, d, false, scripts[0]), svc, d, scripts[1..]);
    }
  }

  // ---------------------------------------------------------------- retry transparency

  /** A fault-free delivery reaches the expected result exactly when the stored bytes survive. */
  lemma FaultFreeReaches(db: Db, svc: Services, d: Id, finalAttempt: bool)
    requires Retriable(db, svc, d)
    ensures var db' := Deliver(db, svc, d, finalAttempt, NoFaults);
      Sound(db', svc, d) && SameUpload(db, db', d) && (Reaches(db', svc, d) <==> d !in db.compensated)
  {
    var db0, job := db.(nextKey := db.nextKey + 1), NewJob(db, d, db.documents[d].invoiceId, finalAttempt);
    NewJobIsReady(db, svc, d, finalAttempt);
    RetriableIsOff(db, svc, d, finalAttempt);
    if d in db.compensated {
      LostStaysLost(db0, svc, job, NoFaults);
      LostStaysOff(db0, svc, job, NoFaults) by { hide DocSound, JobSound; }
      RunIsSound(db0, svc, job, NoFaults) by { hide DocSound, JobSound; }
      hide *;
    } else if Terminal(db.processing[d].state) {
      EndedReaches(db0, svc, d) by { hide JobSound, DocSound; }
      TerminalIsLeftAlone(db, svc, d, finalAttempt, NoFaults) by { hide JobSound, DocSound; }
      assert ViewOf(db0, svc, d) == ViewOf(db0, svc, d);
    } else {
      assert OnTrack(db0, job);
      hide DocSound, JobSound, OnTrack;
      TrackEnds(db0, svc, job);
    }
  }

  lemma {:induction false} LostStaysLost(db: Db, svc: Services, job: Job, script: Pc -> Fault)
    requires Ready(db, svc, job) && Solo(db, job) && job.documentId in db.compensated
    ensures job.documentId in RunJob(db, svc, job, script).compensated
    decreases Rank(job.pc)
  {
    if job.pc != Done {
      hide Exec, DocSound, JobSound, Solo;
      ExecKept(db, svc, job, script(job.pc));
      StepIsSound(db, svc, job, script(job.pc));
      var (db', job') := Exec(db, svc, job, script(job.pc));
      LostStaysLost(db', svc, job', script);
    }
  }

  /** Later deliveries leave a document that ended untouched. */
  lemma TerminalIsLeftAlone(db: Db, svc: Services, d: Id, finalAttempt: bool, script: Pc -> Fault)
    requires Sound(db, svc, d) && Terminal(db.processing[d].state)
    ensures Deliver(db, svc, d, finalAttempt, script) == db.(nextKey := db.nextKey + 1)
  {
    var db0, job := db.(nextKey := db.nextKey + 1), NewJob(db, d, db.documents[d].invoiceId, finalAttempt);
    NewJobIsReady(db, svc, d, finalAttempt);
    assert Exec(db0, svc, job, script(Load)) == (db0, job.(pc := Done));
    hide Exec, DocSound, JobSound;
    assert RunJob(db0, svc, job.(pc := Done), script) == db0;
    assert RunJob(db0, svc, job, script) == db0;
  }

  /** After any sequence of crashes and non-final failures, one fault-free delivery reaches what a fault-free
      first delivery reaches, exactly when none of them lost the stored object. */
  lemma RetryTransparency(db: Db, svc: Services, d: Id, scripts: seq<Pc -> Fault>)
    requires Sound(db, svc, d) && db.processing[d].state == StQuarantined && d !in db.compensated
    ensures Retriable(db, svc, d)
    ensures var first := Deliver(db, svc, d, false, NoFaults);
      var retried := Deliver(Deliveries(db, svc, d, scripts), svc, d, false, NoFaults);
      Sound(first, svc, d) && Sound(retried, svc, d)
      && ViewOf(first, svc, d) == Expected(svc, db.documents[d].uploaded, db.documents[d].mime)
      && (ViewOf(retried, svc, d) == ViewOf(first, svc, d) <==> !LosesAmong(db, svc, d, scripts))
  {
    assert Retriable(db, svc, d);
    hide Deliver, DocSound, LosesAmong, Retriable, Deliveries;
    FaultFreeReaches(db, svc, d, false);
    DeliveriesLoseExactly(db, svc, d, scripts);
    FaultFreeReaches(Deliveries(db, svc, d, scripts), svc, d, false);
  }

  // What retries meet in the ordinary case: a connection that lost the commit's answer loses the ROLLBACK's too.
  ghost predicate LosesRollback(script: Pc -> Fault) { script(Promote) == LostAck ==> script(Rollback) != NoFault }

  lemma {:induction false} RollbackLostLosesNothing(db: Db, svc: Services, d: Id, scripts: seq<Pc -> Fault>)
    requires Retriable(db, svc, d) && forall i :: 0 <= i < |scripts| ==> LosesRollback(scripts[i])
    ensures !LosesAmong(db, svc, d, scripts)
    decreases |scripts|
  {
    if scripts != [] {
      assert LosesRollback(scripts[0]);
      forall i | 0 <= i < |scripts| - 1 ensures LosesRollback(scripts[1..][i]) { assert LosesRollback(scripts[i + 1]); }
      hide Retriable, Deliver, LosesRollback;
      assert !LosesIn(db, svc, d, scripts[0]) by { KeepsObject(db, svc, d, scripts[0]); }
      DeliveryIsRetriable(db, svc, d, scripts[0]);
      RollbackLostLosesNothing(Deliver(db, svc, d, false, scripts[0]), svc, d, scripts[1..]);
    }
  }

  lemma KeepsObject(db: Db, svc: Services, d: Id, script: Pc -> Fault)
    requires Retriable(db, svc, d) && LosesRollback(script)
    ensures !LosesIn(db, svc, d, script)
  {
    assert !LosesFrom(Promote, true, script) && !LosesFrom(Promote, false, script);
    assert !LosesFrom(Put, true, script) && !LosesFrom(Put, false, script);
    hide DocSound;
  }

  /** When no ROLLBACK is acknowledged after a lost commit, retries are transparent whatever else fails. */
  lemma TransparentWithoutRollback(db: Db, svc: Services, d: Id, scripts: seq<Pc -> Fault>)
    requires Sound(db, svc, d) && db.processing[d].state == StQuarantined && d !in db.compensated
    requires forall i :: 0 <= i < |scripts| ==> LosesRollback(scripts[i])
    ensures Retriable(db, svc, d)
    ensures var first := Deliver(db, svc, d, false, NoFaults);
      var retried := Deliver(Deliveries(db, svc, d, scripts), svc, d, false, NoFaults);
      Sound(first, svc, d) && Sound(retried, svc, d) && ViewOf(retried, svc, d) == ViewOf(first, svc, d)
  {
    hide Deliver, DocSound, LosesAmong, Deliveries, LosesRollback, ViewOf;
    RetryTransparency(db, svc, d, scripts);
    RollbackLostLosesNothing(db, svc, d, scripts);
  }
}
