/** Which webhook calls are accepted and what they store, in the columns of the rows and the letters of the headers. */
module WebhookRows {
  import opened Basics
  import opened Json
  import opened JsonOrder
  import opened Schema
  import opened Webhook

  // ---------------------------------------------------------------- the signed text

  ghost predicate TenDigits(t: Text) { |t| == 10 && forall k :: 0 <= k < 10 ==> 48 <= t[k] <= 57 }

  ghost function Digit(u: Unit): int { u as int - 48 }

  // The number that ten digits spell.
  ghost function Spelled(t: Text): int
    requires |t| == 10
  {
    1_000_000_000 * Digit(t[0]) + 100_000_000 * Digit(t[1]) + 10_000_000 * Digit(t[2]) + 1_000_000 * Digit(t[3])
    + 100_000 * Digit(t[4]) + 10_000 * Digit(t[5]) + 1_000 * Digit(t[6]) + 100 * Digit(t[7])
    + 10 * Digit(t[8]) + Digit(t[9])
  }

  lemma OneMoreDigit(t: Text, u: Unit)
    requires t != [] && ParseNat(t).Some? && IsDigit(u)
    ensures ParseNat(t + [u]) == Some(10 * ParseNat(t).value + (u - 48))
  {
    assert (t + [u])[..|t|] == t;
  }

  lemma DigitsSpell(t: Text)
    requires TenDigits(t)
    ensures ParseNat(t) == Some(Spelled(t))
  {
    FirstDigits(t);
    LastDigits(t);
    hide ParseNat, Digit;
    assert t[..10] == t;
  }

  lemma FirstDigits(t: Text)
    requires TenDigits(t)
    ensures ParseNat(t[..5]).Some?
    ensures ParseNat(t[..5]).value
         == 10_000 * Digit(t[0]) + 1_000 * Digit(t[1]) + 100 * Digit(t[2]) + 10 * Digit(t[3]) + Digit(t[4])
  {
    FirstDigit(t);
    hide ParseNat, Digit;
    NextDigit(t, 1);
    NextDigit(t, 2);
    NextDigit(t, 3);
    NextDigit(t, 4);
  }

  lemma LastDigits(t: Text)
    requires TenDigits(t) && ParseNat(t[..5]).Some?
    ensures ParseNat(t[..10]).Some?
    ensures ParseNat(t[..10]).value
         == 100_000 * ParseNat(t[..5]).value + 10_000 * Digit(t[5]) + 1_000 * Digit(t[6]) + 100 * Digit(t[7])
            + 10 * Digit(t[8]) + Digit(t[9])
  {
    hide ParseNat, Digit;
    NextDigit(t, 5);
    NextDigit(t, 6);
    NextDigit(t, 7);
    NextDigit(t, 8);
    NextDigit(t, 9);
  }

  lemma FirstDigit(t: Text)
    requires TenDigits(t)
    ensures ParseNat(t[..1]).Some? && ParseNat(t[..1]).value == Digit(t[0])
  {
  }

  lemma NextDigit(t: Text, k: nat)
    requires TenDigits(t) && 1 <= k < 10 && ParseNat(t[..k]).Some?
    ensures ParseNat(t[..k + 1]).Some?
    ensures ParseNat(t[..k + 1]).value == 10 * ParseNat(t[..k]).value + Digit(t[k])
  {
    OneMoreDigit(t[..k], t[k]);
    assert t[..k] + [t[k]] == t[..k + 1];
  }

  // ---------------------------------------------------------------- the canonical body

  // Letters, digits and everything else that JSON copies as it is.
  ghost predicate Plain(s: Text) { forall i :: 0 <= i < |s| ==> 32 <= s[i] < 0xD800 && s[i] != 34 && s[i] != 92 }

  lemma {:induction false} PlainIsCopied(s: Text)
    requires Plain(s)
    ensures QuoteBody(s) == s
  {
    if s != [] {
      PlainIsCopied(s[1..]);
      assert s == [s[0]] + s[1..];
    }
  }

  // A field of the printed object: its plain name in quotation marks, a colon, and the value.
  ghost function Field(name: string, value: Text): Text { [34] + Lit(name) + [34, 58] + value }

  lemma FieldIsEntry(name: string, value: Text, v: Json)
    requires Plain(Lit(name)) && Canonical(v, CodeUnitLe) == value
    ensures CanonicalEntry(Entry(Lit(name), v), CodeUnitLe) == Field(name, value)
  {
    PlainIsCopied(Lit(name));
    assert Quote(Lit(name)) + [COLON] == [34] + Lit(name) + [34, 58];
    hide QuoteBody, Canonical;
  }

  function PayloadFields(p: Payload): (es: seq<Entry>)
    ensures |es| == 5
  {
    [Entry(Lit("bankAccountVersionId"), JString(NatText(p.bankVersionId))), Entry(Lit("eventId"), JString(p.eventId)),
     Entry(Lit("organizationId"), JString(p.organizationId)), Entry(Lit("status"), JString(StatusName(p.status))),
     Entry(Lit("vendorId"), JString(NatText(p.vendorId)))]
  }

  lemma PayloadSorts(p: Payload)
    ensures Sort(PayloadJson(p).entries, CodeUnitLe) == PayloadFields(p)
  {
    var es := PayloadJson(p).entries;
    var fs := PayloadFields(p);
    assert fs[0].key[0] == 98 && fs[1].key[0] == 101 && fs[2].key[0] == 111 && fs[3].key[0] == 115
      && fs[4].key[0] == 118;
    assert es == [fs[1], fs[2], fs[4], fs[0], fs[3]] && fs == [fs[0], fs[1], fs[2], fs[3], fs[4]];
    hide PayloadFields, PayloadJson, NatText, StatusName, Sort, Insert;
    SortsFive(fs[0], fs[1], fs[2], fs[3], fs[4]);
  }

  // The first letter of a's key is before that of b's.
  ghost predicate Earlier(a: Entry, b: Entry) { a.key != [] && b.key != [] && a.key[0] < b.key[0] }

  lemma SortsFive(a: Entry, b: Entry, c: Entry, d: Entry, e: Entry)
    requires Earlier(a, b) && Earlier(b, c) && Earlier(c, d) && Earlier(d, e)
    ensures Sort([b, c, e, a, d], CodeUnitLe) == [a, b, c, d, e]
  {
    hide Sort, Insert, CodeUnitLe;
    SortOf([b, c, e, a, d], CodeUnitLe);
    InsertFirst(a, [d]);
    InsertSecond(e, d, []);
    InsertLater(e, a, [d]);
    InsertSecond(c, a, [d, e]);
    InsertSecond(b, a, [c, d, e]);
    assert [a] + [d] == [a, d] && [d, e] + [] == [d, e] && [a] + [d, e] == [a, d, e] && [d] + [] == [d];
    assert [a, c] + [d, e] == [a, c, d, e] && [a] + [c, d, e] == [a, c, d, e];
    assert [a, b] + [c, d, e] == [a, b, c, d, e];
  }

  lemma InsertFirst(e: Entry, sorted: seq<Entry>)
    requires sorted != [] ==> Earlier(e, sorted[0])
    ensures Insert(e, sorted, CodeUnitLe) == [e] + sorted
  {
  }

  lemma InsertLater(e: Entry, first: Entry, rest: seq<Entry>)
    requires Earlier(first, e)
    ensures Insert(e, [first] + rest, CodeUnitLe) == [first] + Insert(e, rest, CodeUnitLe)
  {
    assert ([first] + rest)[1..] == rest;
  }

  lemma InsertSecond(e: Entry, first: Entry, rest: seq<Entry>)
    requires Earlier(first, e) && (rest != [] ==> Earlier(e, rest[0]))
    ensures Insert(e, [first] + rest, CodeUnitLe) == [first, e] + rest
  {
    InsertLater(e, first, rest);
    InsertFirst(e, rest);
    assert [first] + ([e] + rest) == [first, e] + rest;
    hide Insert, CodeUnitLe;
  }

  lemma SortOf(es: seq<Entry>, le: Order)
    requires |es| == 5
    ensures Sort(es, le)
         == Insert(es[0], Insert(es[1], Insert(es[2], Insert(es[3], [es[4]], le), le), le), le)
  {
    hide Insert, Sort;
    SortStep(es, le);
    SortStep(es[1..], le);
    SortStep(es[2..], le);
    SortStep(es[3..], le);
    LoneEntry(es[4], le);
    assert es[1..][1..] == es[2..] && es[2..][1..] == es[3..] && es[3..][1..] == [es[4]];
  }

  lemma SortStep(es: seq<Entry>, le: Order)
    requires es != []
    ensures Sort(es, le) == Insert(es[0], Sort(es[1..], le), le)
  {
    hide Insert;
  }

  lemma LoneEntry(e: Entry, le: Order)
    ensures Sort([e], le) == [e]
  {
    SortStep([e], le);
    assert [e][1..] == [];
  }

  // Five texts with commas between them.
  ghost function Listed(a: Text, b: Text, c: Text, d: Text, e: Text): Text {
    a + [44] + (b + [44] + (c + [44] + (d + [44] + e)))
  }

  /** What the bank signs: the five fields in the order of their names, as JSON without white space. */
  lemma PayloadText(p: Payload)
    ensures Canonical(PayloadJson(p), CodeUnitLe)
         == [123] + Listed(
              Field("bankAccountVersionId", Quote(NatText(p.bankVersionId))), Field("eventId", Quote(p.eventId)),
              Field("organizationId", Quote(p.organizationId)), Field("status", Quote(StatusName(p.status))),
              Field("vendorId", Quote(NatText(p.vendorId)))) + [125]
  {
    PayloadSorts(p);
    FieldsPrint(p);
    hide PayloadFields, Sort, CanonicalEntries, Listed, Field, Quote, NatText, StatusName;
  }

  lemma FieldsPrint(p: Payload)
    ensures CanonicalEntries(PayloadFields(p), CodeUnitLe)
         == Listed(
              Field("bankAccountVersionId", Quote(NatText(p.bankVersionId))), Field("eventId", Quote(p.eventId)),
              Field("organizationId", Quote(p.organizationId)), Field("status", Quote(StatusName(p.status))),
              Field("vendorId", Quote(NatText(p.vendorId))))
  {
    hide Quote, NatText, StatusName, CanonicalEntry, CanonicalEntries, Listed, Field, Plain;
    PlainNames();
    FiveEntries(PayloadFields(p));
    FieldIsEntry("bankAccountVersionId", Quote(NatText(p.bankVersionId)), JString(NatText(p.bankVersionId)));
    FieldIsEntry("eventId", Quote(p.eventId), JString(p.eventId));
    FieldIsEntry("organizationId", Quote(p.organizationId), JString(p.organizationId));
    FieldIsEntry("status", Quote(StatusName(p.status)), JString(StatusName(p.status)));
    FieldIsEntry("vendorId", Quote(NatText(p.vendorId)), JString(NatText(p.vendorId)));
  }

  lemma PlainNames()
    ensures Plain(Lit("bankAccountVersionId")) && Plain(Lit("eventId")) && Plain(Lit("organizationId"))
    ensures Plain(Lit("status")) && Plain(Lit("vendorId"))
  {
  }

  lemma FiveEntries(es: seq<Entry>)
    requires |es| == 5
    ensures CanonicalEntries(es, CodeUnitLe) == Listed(
      CanonicalEntry(es[0], CodeUnitLe), CanonicalEntry(es[1], CodeUnitLe), CanonicalEntry(es[2], CodeUnitLe),
      CanonicalEntry(es[3], CodeUnitLe), CanonicalEntry(es[4], CodeUnitLe))
  {
    hide CanonicalEntry, CanonicalEntries;
    OneMoreEntry(es);
    OneMoreEntry(es[1..]);
    OneMoreEntry(es[2..]);
    OneMoreEntry(es[3..]);
    assert es[1..][1..] == es[2..] && es[2..][1..] == es[3..] && es[3..][1..] == es[4..] == [es[4]];
    assert CanonicalEntries([es[4]], CodeUnitLe) == CanonicalEntry(es[4], CodeUnitLe) by { LastEntry(es[4]); }
  }

  lemma OneMoreEntry(es: seq<Entry>)
    requires |es| >= 2
    ensures CanonicalEntries(es, CodeUnitLe)
         == CanonicalEntry(es[0], CodeUnitLe) + [44] + CanonicalEntries(es[1..], CodeUnitLe)
  {
    hide CanonicalEntry;
  }

  lemma LastEntry(e: Entry)
    ensures CanonicalEntries([e], CodeUnitLe) == CanonicalEntry(e, CodeUnitLe)
  {
    hide CanonicalEntry;
  }

  // The timestamp, a full stop, and the body's canonical text.
  ghost function Attested(timestamp: Text, body: Json): Text { timestamp + [46] + Canonical(body, CodeUnitLe) }

  /** Ten digits at most 300 seconds away from the clock, signed with the shared secret together with the body. */
  ghost predicate Signed(
      body: Json, timestamp: Option<Text>, signature: Option<Signature>, secret: Text, now: nat) {
    && timestamp != None && signature != None && TenDigits(timestamp.value)
    && now / 1000 - 300 <= Spelled(timestamp.value) <= now / 1000 + 300
    && signature.value == Signature(secret, Attested(timestamp.value, body))
  }

  lemma SignedIsVerified(body: Json, timestamp: Option<Text>, signature: Option<Signature>, secret: Text, now: nat)
    ensures Verified(body, timestamp, signature, secret, now) <==> Signed(body, timestamp, signature, secret, now)
  {
    if timestamp.Some? && TenDigits(timestamp.value) { DigitsSpell(timestamp.value); }
    hide ParseNat, Canonical, Spelled;
  }

  // ---------------------------------------------------------------- the current status

  // The status of the newest delivery for the bank version, pending when there is none.
  ghost predicate Current(ds: seq<Delivery>, b: Id, s: BankStatus) {
    if exists k :: 0 <= k < |ds| && ds[k].bankVersionId == b then
      exists k :: (0 <= k < |ds| && ds[k].bankVersionId == b && ds[k].status == s
        && forall l :: k < l < |ds| ==> ds[l].bankVersionId != b)
    else s == BankPending
  }

  lemma {:induction false} StatusIsCurrent(ds: seq<Delivery>, b: Id)
    ensures Current(ds, b, BankStatusOf(ds, b))
  {
    if ds != [] && ds[|ds| - 1].bankVersionId != b {
      var n := |ds| - 1;
      StatusIsCurrent(ds[..n], b);
      if exists k :: 0 <= k < n && ds[..n][k].bankVersionId == b {
        var k :| 0 <= k < n && ds[..n][k].bankVersionId == b && ds[..n][k].status == BankStatusOf(ds[..n], b)
          && forall l :: k < l < n ==> ds[..n][l].bankVersionId != b;
        assert ds[k].bankVersionId == b && forall l :: k < l < |ds| ==> ds[l].bankVersionId != b;
      }
    }
  }

  // ---------------------------------------------------------------- what a call does

  ghost predicate DeliveredAs(ds: seq<Delivery>, d: Id, eventId: Text) { d < |ds| && ds[d].eventId == eventId }

  ghost predicate OfThatVendor(db: Db, p: Payload) {
    p.bankVersionId < |db.bankVersions| && db.bankVersions[p.bankVersionId].vendorId == p.vendorId
  }

  // The row of an accepted delivery.
  ghost function RowOf(p: Payload, timestamp: Text, body: Json): Delivery {
    Delivery(p.eventId, p.vendorId, p.bankVersionId, p.status, OfText(Attested(timestamp, body)))
  }

  /** A call is refused for its signature, and changes nothing, exactly when it is not signed. */
  lemma UnsignedIsRefused(
    db: Db, body: Json, p: Payload, timestamp: Option<Text>, signature: Option<Signature>, secret: Text, now: nat)
    ensures var r := Process(db, body, p, timestamp, signature, secret, now);
      r == (db, WebhookReply.Refused(SignatureInvalid)) <==> !Signed(body, timestamp, signature, secret, now)
  {
    SignedIsVerified(body, timestamp, signature, secret, now);
    hide Verified, Signed;
  }

  /** A signed call under a known event id is a duplicate when its hash is the stored one and a reuse otherwise; under
      a new one it is refused for a bank version that is not the vendor's, or else appended. */
  lemma SignedIsProcessed(
    db: Db, body: Json, p: Payload, timestamp: Option<Text>, signature: Option<Signature>, secret: Text, now: nat,
    before: BankStatus)
    requires LedgerSound(db.deliveries) && Signed(body, timestamp, signature, secret, now)
    requires Current(db.deliveries, p.bankVersionId, before)
    ensures var r := Process(db, body, p, timestamp, signature, secret, now);
      && (forall d: Id :: DeliveredAs(db.deliveries, d, p.eventId) ==>
            r == (db, if db.deliveries[d].payloadHash == OfText(Attested(timestamp.value, body))
                      then Accepted(true, false) else WebhookReply.Refused(EventIdReused)))
      && ((forall d: Id :: !DeliveredAs(db.deliveries, d, p.eventId)) ==>
            r == if !OfThatVendor(db, p) then (db, WebhookReply.Refused(NotFound))
                 else (db.(deliveries := db.deliveries + [RowOf(p, timestamp.value, body)]),
                       Accepted(false, before != p.status)))
  {
    SignedIsVerified(body, timestamp, signature, secret, now);
    hide Verified, Signed, Canonical, BankStatusOf, Current;
    StatusIsCurrent(db.deliveries, p.bankVersionId);
    OneCurrent(db.deliveries, p.bankVersionId, before, BankStatusOf(db.deliveries, p.bankVersionId));
    forall d: Id | DeliveredAs(db.deliveries, d, p.eventId)
      ensures FindDelivery(db.deliveries, p.eventId) == Some(d)
    {
      FoundIsOnly(db.deliveries, d);
    }
    hide LedgerSound;
    var found := FindDelivery(db.deliveries, p.eventId);
    assert found.Some? ==> DeliveredAs(db.deliveries, found.value, p.eventId);
  }

  lemma OneCurrent(ds: seq<Delivery>, b: Id, s: BankStatus, t: BankStatus)
    requires Current(ds, b, s) && Current(ds, b, t)
    ensures s == t
  {
  }

  /** Whatever the ledger, a call stores nothing or the row of a signed call, and touches nothing else. */
  lemma OnlySignedIsStored(
    db: Db, body: Json, p: Payload, timestamp: Option<Text>, signature: Option<Signature>, secret: Text, now: nat)
    ensures var db' := Process(db, body, p, timestamp, signature, secret, now).0;
      db' == db || (Signed(body, timestamp, signature, secret, now)
        && db' == db.(deliveries := db.deliveries + [RowOf(p, timestamp.value, body)]))
  {
    SignedIsVerified(body, timestamp, signature, secret, now);
    hide Verified, Signed, Canonical, BankStatusOf, FindDelivery;
  }
}
