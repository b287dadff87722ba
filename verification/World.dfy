/** One organization, its worker and its sessions as one state machine. */
module World {
  import opened Basics
  import opened Risk
  import opened Schema
  import opened Approvals
  import opened Ingest
  import opened Sessions
  import opened Links
  import opened Webhook

  datatype Config = Config(svc: Services, stepUpTtl: nat, secret: Text)

  // jobs are the deliveries of the queue; published lists the policy snapshots in the order they took force.
  datatype World = World(db: Db, jobs: seq<Job>, auth: AuthDb, now: nat, published: seq<Snapshot>)

  const EMPTY_WORLD := World(EMPTY_DB, [], EMPTY_AUTH, 0, [DEFAULT_POLICY.snapshot])

  datatype ApprovalStep =
    | DoSubmit(auth: Auth, invoiceId: Id, version: nat, key: Option<Text>)
    | DoDecide(auth: Auth, requestId: Id, decision: DecisionDto, key: Option<Text>)
    | DoEdit(invoiceId: Id, edit: EditDto)
    | DoAddBankVersion(vendorId: Id)
    | DoUpdatePolicy(policy: PolicyDto)
    | DoGetPolicy

  datatype DocumentStep =
    | DoUpload(vendor: Option<Id>, contract: Option<Id>, bytes: Bytes, mime: Text, fault: Fault, cleanup: bool)
    | DoMarkManualReview(documentId: Id)
    | StartJob(documentId: Id, invoiceId: Id, finalAttempt: bool)
    | ExecJob(job: nat, fault: Fault)

  datatype RegistryStep =
    | AddMember(userId: Id, role: Role)
    | ChangeMember(member: Id, active: bool, role: Role)
    | DoCreateVendor(role: Role, buildings: set<Id>)
    | DoUpdateVendor(role: Role, vendorId: Id, version: nat, relink: Option<set<Id>>)
    | DoCreateContract(vendorId: Id, valueLimit: Option<nat>, buildings: set<Id>)
    | DoUpdateContract(contractId: Id, version: nat, newVendor: Option<Id>, valueLimit: Option<nat>,
      relink: Option<set<Id>>)
    | DoWebhook(payload: Payload, timestamp: Option<Text>, signature: Option<Signature>)

  datatype Step =
    | Wait(elapsed: nat)
    | OnSession(session: AuthStep)
    | OnApproval(approval: ApprovalStep)
    | OnDocument(document: DocumentStep)
    | OnRegistry(registry: RegistryStep)

  function ApprovalOutcome(db: Db, sessions: seq<Session>, now: nat, ttl: nat, step: ApprovalStep): Outcome {
    match step
    case DoSubmit(auth, invoiceId, version, key) => Submit(db, auth, invoiceId, version, key)
    case DoDecide(auth, requestId, dto, key) => Decide(db, sessions, now, ttl, auth, requestId, dto, key)
    case DoEdit(invoiceId, dto) => Edit(db, invoiceId, dto)
    case DoAddBankVersion(vendorId) => AddBankVersion(db, vendorId)
    case DoUpdatePolicy(dto) => UpdatePolicy(db, dto)
    case DoGetPolicy => GetPolicy(db)
  }

  function DocumentEffect(db: Db, jobs: seq<Job>, svc: Services, step: DocumentStep): (Db, seq<Job>) {
    match step
    case DoUpload(vendor, contract, bytes, mime, fault, cleanup) =>
      (Upload(db, vendor, contract, bytes, mime, fault, cleanup).db, jobs)
    case DoMarkManualReview(documentId) => (MarkManualReview(db, documentId), jobs)
    case StartJob(d, i, finalAttempt) => (db.(nextKey := db.nextKey + 1), jobs + [NewJob(db, d, i, finalAttempt)])
    case ExecJob(j, fault) =>
      if j >= |jobs| then (db, jobs)
      else
        var (db', job') := Exec(db, svc, jobs[j], fault);
        (db', jobs[j := job'])
  }

  function RegistryEffect(db: Db, now: nat, secret: Text, step: RegistryStep): Db {
    match step
    case AddMember(userId, role) =>
      if exists m :: 0 <= m < |db.members| && db.members[m].userId == userId then db
      else db.(members := db.members + [Member(userId, true, role)])
    case ChangeMember(m, active, role) =>
      if m >= |db.members| then db else db.(members := db.members[m := db.members[m].(active := active, role := role)])
    case DoCreateVendor(role, buildings) => CreateVendor(db, role, buildings).db
    case DoUpdateVendor(role, v, version, relink) => UpdateVendor(db, role, v, version, relink).db
    case DoCreateContract(vendorId, valueLimit, buildings) => CreateContract(db, vendorId, valueLimit, buildings).db
    case DoUpdateContract(c, version, vendorId, valueLimit, relink) =>
      UpdateContract(db, c, version, vendorId, valueLimit, relink).db
    case DoWebhook(payload, timestamp, signature) =>
      Process(db, PayloadJson(payload), payload, timestamp, signature, secret, 1000 * now).0
  }

  function Publish(published: seq<Snapshot>, before: Policy, after: Policy): seq<Snapshot> {
    if after.snapshot == before.snapshot then published else published + [after.snapshot]
  }

  function Apply(w: World, cfg: Config, step: Step): World {
    match step
    case Wait(elapsed) => w.(now := w.now + elapsed)
    case OnSession(s) => w.(auth := AuthApply(w.auth, w.now, s).0)
    case OnApproval(s) =>
      var db' := ApprovalOutcome(w.db, w.auth.sessions, w.now, cfg.stepUpTtl, s).db;
      w.(db := db', published := Publish(w.published, PolicyOf(w.db), PolicyOf(db')))
    case OnDocument(s) =>
      var (db', jobs') := DocumentEffect(w.db, w.jobs, cfg.svc, s);
      w.(db := db', jobs := jobs')
    case OnRegistry(s) => w.(db := RegistryEffect(w.db, w.now, cfg.secret, s))
  }

  /** A run: steps of any calls, in any order. */
  function Run(w: World, cfg: Config, steps: seq<Step>): World
    decreases |steps|
  {
    if steps == [] then w else Run(Apply(w, cfg, steps[0]), cfg, steps[1..])
  }
}
