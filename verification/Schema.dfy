/** The rows of one organization. A table is a sequence and a row id is a position in it. */
module Schema {
  import opened Basics
  import opened Risk

  type Id = nat

  datatype InvoiceStatus =
    Processing | NeedsReview | ManualReview | Blocked | AwaitingApproval | Approved | Rejected
  datatype RequestStatus = Pending | RequestApproved | RequestRejected | Invalidated
  datatype DecisionOutcome = Approve | Reject
  datatype StorageState = InQuarantine | InApproved | InBlocked
  datatype ProcessingState = StQuarantined | StScanning | StParsed | StNeedsReview | StManualReview | StBlocked
  datatype ScanResult = ScanPending | Clean | Infected | ScanError
  datatype Role = OwnerRole | AdministratorRole | AccountantRole | OtherRole
  datatype Reason = InvoiceDataChanged | InvoiceVersionChanged | VendorBankAccountChanged

  datatype Invoice = Invoice(
    status: InvoiceStatus, version: nat, vendorId: Option<Id>, contractId: Option<Id>,
    invoiceNumber: Option<Text>, currency: Option<Text>, totalAmount: Option<nat>, bankVersionId: Option<Id>)

  // uploaded is a history field: the bytes the client sent.
  datatype Document = Document(
    invoiceId: Id, quarantineKey: nat, approvedKey: Option<nat>, sha256: Option<Digest>,
    duplicateOf: Option<Id>, storage: StorageState, mime: Text, uploaded: Bytes)

  datatype Processing = ProcessingRow(
    state: ProcessingState, progress: nat, attempts: nat, scan: ScanResult, suggestions: Option<Text>)

  datatype Vendor = Vendor(buildings: set<Id>, version: nat)
  datatype Contract = Contract(vendorId: Id, valueLimit: Option<nat>, buildings: set<Id>, version: nat)
  datatype BankVersion = BankVersion(vendorId: Id, versionNumber: nat)
  datatype Member = Member(userId: Id, active: bool, role: Role)

  datatype Policy = Policy(snapshot: Snapshot, requireSeparationOfDuties: bool)

  datatype Assessment = Assessment(invoiceId: Id, invoiceVersion: nat, evaluation: Evaluation)

  datatype Request = Request(
    invoiceId: Id, invoiceVersion: nat, assessmentId: Id, bankVersionId: Id, version: nat,
    status: RequestStatus, requiredDecisions: nat, initiatedBy: Id, keyHash: Digest, invalidatedReason: Option<Reason>)

  // decidedAt is the createdAt column.
  datatype Decision = Decision(
    requestId: Id, approvalVersion: nat, member: Id, sessionId: Id, outcome: DecisionOutcome,
    reason: Text, stepUpVerifiedAt: nat, keyHash: Digest, decidedAt: nat)

  datatype BankStatus = BankPending | BankVerified | BankRejected
  datatype Delivery = Delivery(
    eventId: Text, vendorId: Id, bankVersionId: Id, status: BankStatus, payloadHash: Digest)

  /** The tenant tables and the two buckets, with three history fields. */
  datatype Db = Db(
    invoices: seq<Invoice>, documents: seq<Document>, processing: seq<Processing>,
    vendors: seq<Vendor>, contracts: seq<Contract>, bankVersions: seq<BankVersion>, members: seq<Member>,
    policy: Option<Policy>, assessments: seq<Assessment>, requests: seq<Request>, decisions: seq<Decision>,
    deliveries: seq<Delivery>,
    quarantine: map<nat, Bytes>, approved: map<nat, Bytes>,
    nextKey: nat,              // supply of random object keys
    promotions: seq<Id>,       // history: documents in promotion order
    compensated: set<Id>)      // history: documents whose object a compensating delete removed

  const EMPTY_DB := Db([], [], [], [], [], [], [], None, [], [], [], [], map[], map[], 0, [], {})

  // ---------------------------------------------------------------- sessions

  datatype Session = Session(
    userId: Id, family: nat, refreshHash: Digest, rotationCounter: nat,
    stepUpVerifiedAt: Option<nat>, expiresAt: nat, revokedAt: Option<nat>)

  datatype Auth = Auth(userId: Id, membershipId: Id, sessionId: Id)

  // ---------------------------------------------------------------- replies

  datatype Error =
    | IdempotencyKeyRequired | IdempotencyKeyReused
    | NotFound | StaleVersion | NotReadyForSubmission | ReviewIncomplete | BankAccountRequired
    | RequestNotPending | StaleApproval | ApproverNotEligible | SelfApprovalForbidden | StepUpRequired
    | DuplicateDecision | ThresholdsInvalid | NotEditable | ContractRequiresVendor
    | ConstraintViolation | AuthorizedBuildingRequired | BuildingLinkRequired | BuildingReferenced
    | EventIdReused | SignatureInvalid | InternalError

  datatype Reply = Ok(id: Id) | Err(error: Error)

  datatype Outcome = Outcome(db: Db, reply: Reply)

  // Request bodies.
  datatype DecisionDto = DecisionDto(approvalVersion: nat, outcome: DecisionOutcome, reason: Text)

  // An optional field of a request body may be absent, an explicit null, or given.
  datatype Patch<+T> = Absent | Null | Given(value: T)

  datatype PolicyDto = PolicyDto(
    mediumThreshold: Patch<nat>, highThreshold: Patch<nat>, changedBankAccountScore: Patch<nat>,
    duplicateHashScore: Patch<nat>, duplicateInvoiceNumberScore: Patch<nat>,
    contractLimitScore: Patch<nat>, amountSpikeScore: Patch<nat>)

  datatype EditDto = EditDto(
    version: nat, vendorId: Patch<Id>, contractId: Patch<Id>, invoiceNumber: Patch<Text>,
    currency: Patch<Text>, totalAmount: Patch<nat>)

  // dto.field ?? before: null counts as absent.
  function Coalesced<T>(p: Patch<T>, before: Option<T>): Option<T> { if p.Given? then Some(p.value) else before }

  // The column after an update that writes every field that is not undefined.
  function Patched<T>(p: Patch<T>, before: Option<T>): Option<T> {
    match p
    case Absent => before
    case Null => None
    case Given(value) => Some(value)
  }

  function Or<T>(a: Option<T>, b: T): T { if a.Some? then a.value else b }
  function OrElse<T>(a: Option<T>, b: Option<T>): Option<T> { if a.Some? then a else b }
}
