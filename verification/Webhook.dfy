/** The bank webhook: signature, payload hash and the idempotent delivery ledger. */
module Webhook {
  import opened Basics
  import opened Json
  import opened JsonOrder
  import opened Schema

  datatype Payload = Payload(eventId: Text, organizationId: Text, vendorId: Id, bankVersionId: Id, status: BankStatus)

  // HMAC as an injective abstract function of its key and its text.
  datatype Signature = Signature(secret: Text, text: Text)

  datatype WebhookReply = Accepted(duplicate: bool, stateTransitioned: bool) | Refused(error: Error)

  // ---------------------------------------------------------------- what is signed and hashed

  function StatusName(s: BankStatus): Text {
    match s
    case BankPending => Lit("PENDING")
    case BankVerified => Lit("VERIFIED")
    case BankRejected => Lit("REJECTED")
  }

  function PayloadJson(p: Payload): Json {
    JObject([
      Entry(Lit("eventId"), JString(p.eventId)), Entry(Lit("organizationId"), JString(p.organizationId)),
      Entry(Lit("vendorId"), JString(NatText(p.vendorId))),
      Entry(Lit("bankAccountVersionId"), JString(NatText(p.bankVersionId))),
      Entry(Lit("status"), JString(StatusName(p.status)))])
  }

  // The parsed body, whose keys come in the order the bank sent them.
  ghost predicate SentAs(body: Json, p: Payload) { WellFormed(body) && Meaning(body) == Meaning(PayloadJson(p)) }

  function SignedText(timestamp: Text, body: Json): Text { timestamp + [DOT] + Canonical(body, CodeUnitLe) }

  predicate IsTimestamp(t: Text) { |t| == 10 && forall i :: 0 <= i < 10 ==> IsDigit(t[i]) }

  function Distance(a: nat, b: nat): nat { if a < b then b - a else a - b }

  const MAXIMUM_AGE := 300

  /** verifyFakeBankWebhook, at now milliseconds. */
  predicate Verified(body: Json, timestamp: Option<Text>, signature: Option<Signature>, secret: Text, now: nat) {
    timestamp.Some? && signature.Some? && IsTimestamp(timestamp.value)
    && ParseNat(timestamp.value).Some?
    && Distance(now / 1000, ParseNat(timestamp.value).value) <= MAXIMUM_AGE
    && signature.value == Signature(secret, SignedText(timestamp.value, body))
  }

  // ---------------------------------------------------------------- process

  function FindDelivery(ds: seq<Delivery>, eventId: Text): (r: Option<Id>)
    ensures r.Some? ==> r.value < |ds| && ds[r.value].eventId == eventId
    ensures r.None? ==> forall i :: 0 <= i < |ds| ==> ds[i].eventId != eventId
  {
    if ds == [] then None
    else
      var n := |ds| - 1;
      var earlier := FindDelivery(ds[..n], eventId);
      if earlier.Some? then earlier else if ds[n].eventId == eventId then Some(n) else None
  }

  /** The status of the newest delivery for a bank version, PENDING before the first. */
  function BankStatusOf(ds: seq<Delivery>, b: Id): BankStatus {
    if ds == [] then BankPending
    else if ds[|ds| - 1].bankVersionId == b then ds[|ds| - 1].status
    else BankStatusOf(ds[..|ds| - 1], b)
  }

  function Receive(db: Db, p: Payload, payloadHash: Digest): (Db, WebhookReply) {
    var replay := FindDelivery(db.deliveries, p.eventId);
    if replay.Some? then
      if db.deliveries[replay.value].payloadHash != payloadHash then (db, Refused(EventIdReused))
      else (db, Accepted(true, false))
    else if p.bankVersionId >= |db.bankVersions| || db.bankVersions[p.bankVersionId].vendorId != p.vendorId then
      (db, Refused(NotFound))
    else
      var transitioned := BankStatusOf(db.deliveries, p.bankVersionId) != p.status;
      (db.(deliveries := db.deliveries + [Delivery(p.eventId, p.vendorId, p.bankVersionId, p.status, payloadHash)]),
       Accepted(false, transitioned))
  }

  function Process(
    db: Db, body: Json, p: Payload, timestamp: Option<Text>, signature: Option<Signature>, secret: Text, now: nat)
    : (Db, WebhookReply)
  {
    if !Verified(body, timestamp, signature, secret, now) then (db, Refused(SignatureInvalid))
    else Receive(db, p, OfText(SignedText(timestamp.value, body)))
  }

  // ---------------------------------------------------------------- the hash names the payload

  lemma NamesDiffer(m: nat, n: nat)
    requires NatText(m) == NatText(n)
    ensures m == n
  {
    NatTextRoundTrip(m);
    NatTextRoundTrip(n);
  }

  lemma StatusNamesDiffer(s: BankStatus, t: BankStatus)
    requires StatusName(s) == StatusName(t)
    ensures s == t
  {
    assert StatusName(BankPending)[0] == 80 && StatusName(BankVerified)[0] == 86 && StatusName(BankRejected)[0] == 82;
  }

  lemma PayloadWellFormed(p: Payload)
    ensures WellFormed(PayloadJson(p)) && |PayloadJson(p).entries| == 5
  {
  }

  lemma SamePayload(p: Payload, q: Payload)
    requires Meaning(PayloadJson(p)) == Meaning(PayloadJson(q))
    ensures p == q
  {
    PayloadWellFormed(p);
    PayloadWellFormed(q);
    var es, fs := PayloadJson(p).entries, PayloadJson(q).entries;
    SameFieldValues(es, fs, 0);
    SameFieldValues(es, fs, 1);
    SameFieldValues(es, fs, 2);
    SameFieldValues(es, fs, 3);
    SameFieldValues(es, fs, 4);
    NamesDiffer(p.vendorId, q.vendorId);
    NamesDiffer(p.bankVersionId, q.bankVersionId);
    StatusNamesDiffer(p.status, q.status);
  }

  /** The hash of a delivery is the same exactly for the same timestamp and the same payload, in any key order. */
  lemma HashNamesDelivery(t: Text, u: Text, v: Json, w: Json, p: Payload, q: Payload)
    requires IsTimestamp(t) && IsTimestamp(u) && SentAs(v, p) && SentAs(w, q)
    ensures OfText(SignedText(t, v)) == OfText(SignedText(u, w)) <==> t == u && p == q
  {
    CodeUnitStrict();
    CanonicalNamesValue(v, w, CodeUnitLe);
    if SignedText(t, v) == SignedText(u, w) {
      assert t == SignedText(t, v)[..10] && u == SignedText(u, w)[..10];
      assert Canonical(v, CodeUnitLe) == SignedText(t, v)[11..] && Canonical(w, CodeUnitLe) == SignedText(u, w)[11..];
      SamePayload(p, q);
    }
  }

  // ---------------------------------------------------------------- the ledger

  ghost predicate LedgerSound(ds: seq<Delivery>) {
    forall i, j :: 0 <= i < j < |ds| ==> ds[i].eventId != ds[j].eventId
  }

  lemma FoundIsOnly(ds: seq<Delivery>, i: nat)
    requires LedgerSound(ds) && i < |ds|
    ensures FindDelivery(ds, ds[i].eventId) == Some(i)
  {
  }

  lemma ReceiveKeepsLedger(db: Db, p: Payload, hash: Digest)
    requires LedgerSound(db.deliveries)
    ensures var db' := Receive(db, p, hash).0;
      LedgerSound(db'.deliveries) && db.deliveries <= db'.deliveries && db' == db.(deliveries := db'.deliveries)
  {
  }

  /** stateTransitioned is true exactly when the bank version's status changes. */
  lemma TransitionMeansChange(db: Db, p: Payload, hash: Digest)
    ensures var (db', reply) := Receive(db, p, hash);
      reply.Accepted? ==>
        var before := BankStatusOf(db.deliveries, p.bankVersionId);
        var after := BankStatusOf(db'.deliveries, p.bankVersionId);
        (reply.stateTransitioned <==> after != before) && (!reply.duplicate ==> after == p.status)
        && forall b :: b != p.bankVersionId ==> BankStatusOf(db'.deliveries, b) == BankStatusOf(db.deliveries, b)
  {
  }

  /** After a delivery is accepted, in every later ledger the same timestamp and payload are a duplicate that
      changes nothing, and any other delivery under that event id is refused and changes nothing. */
  lemma AcceptedOnce(
    db: Db, later: Db, body: Json, body2: Json, p: Payload, q: Payload,
    timestamp: Option<Text>, timestamp2: Option<Text>, signature: Option<Signature>, signature2: Option<Signature>,
    secret: Text, now: nat, now2: nat)
    requires LedgerSound(db.deliveries) && LedgerSound(later.deliveries)
    requires SentAs(body, p) && SentAs(body2, q) && q.eventId == p.eventId
    requires Process(db, body, p, timestamp, signature, secret, now).1
          == Accepted(false, BankStatusOf(db.deliveries, p.bankVersionId) != p.status)
    requires Process(db, body, p, timestamp, signature, secret, now).0.deliveries <= later.deliveries
    requires Verified(body2, timestamp2, signature2, secret, now2)
    ensures Process(later, body2, q, timestamp2, signature2, secret, now2)
         == (later, if timestamp2 == timestamp && q == p then Accepted(true, false) else Refused(EventIdReused))
  {
    hide Canonical, SentAs;
    FoundIsOnly(later.deliveries, |db.deliveries|);
    HashNamesDelivery(timestamp.value, timestamp2.value, body, body2, p, q);
  }
}
