/** canonicalJson is unambiguous, and it ignores key order exactly when no two keys tie. */
module JsonProofs {
  import opened Basics
  import opened Json

  lemma Cancel(x: Text, a: Text, b: Text)
    requires x + a == x + b
    ensures a == b
  {
    assert (x + a)[|x|..] == a && (x + b)[|x|..] == b;
  }

  // ---------------------------------------------------------------- strings read back

  function HexValue(u: Unit): int { if u < 58 then u - 48 else u - 87 }

  /** Reads a string body up to its closing quote; the second part is what follows. */
  function ReadString(t: Text): Option<(Text, Text)>
    decreases |t|
  {
    if t == [] then None
    else if t[0] == QUOTE then Some(([], t[1..]))
    else if t[0] != BACKSLASH then Prepend(t[0], ReadString(t[1..]))
    else if |t| < 2 then None
    else if t[1] == 117 then
      if |t| < 6 then None
      else
        var u := 4096 * HexValue(t[2]) + 256 * HexValue(t[3]) + 16 * HexValue(t[4]) + HexValue(t[5]);
        if 0 <= u < 0x1_0000 then Prepend(u, ReadString(t[6..])) else None
    else Prepend(Unescape(t[1]), ReadString(t[2..]))
  }

  function Unescape(u: Unit): Unit {
    if u == 98 then 8 else if u == 116 then 9 else if u == 110 then 10
    else if u == 102 then 12 else if u == 114 then 13 else u
  }

  function Prepend(u: Unit, rest: Option<(Text, Text)>): Option<(Text, Text)> {
    match rest
    case None => None
    case Some((s, t)) => Some(([u] + s, t))
  }

  lemma HexSum(u: Unit)
    ensures 4096 * (u / 4096) + 256 * (u / 256 % 16) + 16 * (u / 16 % 16) + u % 16 == u
  {
    assert u == 16 * (u / 16) + u % 16;
    assert u / 16 == 16 * (u / 256) + u / 16 % 16;
    assert u / 256 == 16 * (u / 4096) + u / 256 % 16;
  }

  lemma HexRoundTrip(n: nat)
    requires n < 16
    ensures HexValue(HexDigit(n)) == n
  {
  }

  lemma ReadHexDigits(a: Unit, b: Unit, c: Unit, d: Unit, u: Unit, t: Text)
    requires 4096 * HexValue(a) + 256 * HexValue(b) + 16 * HexValue(c) + HexValue(d) == u
    ensures ReadString([BACKSLASH, 117, a, b, c, d] + t) == Prepend(u, ReadString(t))
  {
  }

  lemma ReadHex(u: Unit, t: Text)
    requires |Escape(u)| == 6
    ensures ReadString(Escape(u) + t) == Prepend(u, ReadString(t))
  {
    HexSum(u);
    HexRoundTrip(u / 4096);
    HexRoundTrip(u / 256 % 16);
    HexRoundTrip(u / 16 % 16);
    HexRoundTrip(u % 16);
    ReadHexDigits(HexDigit(u / 4096), HexDigit(u / 256 % 16), HexDigit(u / 16 % 16), HexDigit(u % 16), u, t);
  }

  lemma ReadEscape(u: Unit, t: Text)
    ensures ReadString(Escape(u) + t) == Prepend(u, ReadString(t))
  {
    var e := Escape(u);
    if |e| == 6 {
      ReadHex(u, t);
    } else if |e| == 2 {
      assert (e + t)[2..] == t;
      assert Unescape(e[1]) == u && e[1] != 117;
    } else {
      ReadRaw(u, t);
    }
  }

  lemma ReadRaw(u: Unit, t: Text)
    requires u != QUOTE && u != BACKSLASH
    ensures ReadString([u] + t) == Prepend(u, ReadString(t))
  {
  }

  lemma {:induction false} ReadQuoteBody(s: Text, t: Text)
    ensures ReadString(QuoteBody(s) + ([QUOTE] + t)) == Some((s, t))
    decreases |s|
  {
    if s == [] {
      assert QuoteBody(s) + ([QUOTE] + t) == [QUOTE] + t;
      assert ([QUOTE] + t)[1..] == t;
    } else if |s| >= 2 && IsHigh(s[0]) && IsLow(s[1]) {
      ReadQuoteBody(s[2..], t);
      ReadPair(s, QuoteBody(s[2..]), [QUOTE] + t, t);
    } else {
      ReadQuoteBody(s[1..], t);
      ReadOne(s, QuoteBody(s[1..]), [QUOTE] + t, t);
    }
  }

  lemma ReadOne(s: Text, body: Text, rest: Text, t: Text)
    requires s != [] && ReadString(body + rest) == Some((s[1..], t))
    ensures ReadString((Escape(s[0]) + body) + rest) == Some((s, t))
  {
    ReadEscape(s[0], body + rest);
    Regroup(Escape(s[0]), body, rest);
    assert s == [s[0]] + s[1..];
  }

  lemma Regroup(x: Text, y: Text, z: Text)
    ensures (x + y) + z == x + (y + z)
  {
  }

  lemma ReadPair(s: Text, body: Text, rest: Text, t: Text)
    requires |s| >= 2 && IsHigh(s[0]) && IsLow(s[1]) && ReadString(body + rest) == Some((s[2..], t))
    ensures ReadString((s[..2] + body) + rest) == Some((s, t))
  {
    ReadRaw(s[1], body + rest);
    ReadRaw(s[0], [s[1]] + (body + rest));
    assert (s[..2] + body) + rest == [s[0]] + ([s[1]] + (body + rest));
    assert s == [s[0]] + ([s[1]] + s[2..]);
  }

  lemma QuoteUnambiguous(s: Text, s': Text, t: Text, t': Text)
    requires Quote(s) + t == Quote(s') + t'
    ensures s == s' && t == t'
  {
    var x, x' := QuoteBody(s) + ([QUOTE] + t), QuoteBody(s') + ([QUOTE] + t');
    assert Quote(s) + t == [QUOTE] + x && Quote(s') + t' == [QUOTE] + x';
    Cancel([QUOTE], x, x');
    ReadQuoteBody(s, t);
    ReadQuoteBody(s', t');
  }

  // ---------------------------------------------------------------- values are told apart

  // What may follow a printed value inside a larger text.
  predicate Boundary(t: Text) { t == [] || t[0] == COMMA || t[0] == RBRACKET || t[0] == RBRACE }

  // The first unit of a printed value names its constructor.
  function Kind(u: Unit): nat {
    if u == 110 then 1 else if u == 116 || u == 102 then 2 else if IsDigit(u) || u == 45 then 3
    else if u == QUOTE then 4 else if u == LBRACKET then 5 else if u == LBRACE then 6 else 0
  }

  function KindOf(v: Json): nat {
    match v
    case JNull => 1
    case JBool(_) => 2
    case JNumber(_) => 3
    case JString(_) => 4
    case JArray(_) => 5
    case JObject(_) => 6
  }

  lemma FirstUnit(v: Json, le: Order)
    requires WellFormed(v)
    ensures Canonical(v, le) != [] && Kind(Canonical(v, le)[0]) == KindOf(v)
    ensures v.JBool? ==> (Canonical(v, le)[0] == 116 <==> v.b)
  {
  }

  function ItemsTail(items: seq<Json>, le: Order): Text {
    if |items| <= 1 then [] else [COMMA] + CanonicalItems(items[1..], le)
  }

  function EntriesTail(entries: seq<Entry>, le: Order): Text {
    if |entries| <= 1 then [] else [COMMA] + CanonicalEntries(entries[1..], le)
  }

  ghost predicate SamePrint(v: Json, w: Json, le: Order) {
    Canonical(v, le) == Canonical(w, le) && Meaning(v) == Meaning(w)
  }

  lemma NumberTokens(t: Text, t': Text, a: Text, b: Text)
    requires IsNumberToken(t) && IsNumberToken(t') && Boundary(a) && Boundary(b)
    requires t + a == t' + b
    ensures t == t' && a == b
  {
    var x := t + a;
    assert |t| < |x| ==> x[|t|] == a[0];
    assert |t'| < |x| ==> x[|t'|] == b[0];
    assert forall i :: 0 <= i < |t| ==> x[i] == t[i];
    assert forall i :: 0 <= i < |t'| ==> x[i] == t'[i];
    assert |t| == |t'|;
    assert t == x[..|t|] == t';
    Cancel(t, a, b);
  }

  /** No printed value followed by a delimiter can be read as another value. */
  lemma {:induction false} Unambiguous(v: Json, w: Json, a: Text, b: Text, le: Order)
    requires WellFormed(v) && WellFormed(w) && Boundary(a) && Boundary(b)
    requires Canonical(v, le) + a == Canonical(w, le) + b
    ensures SamePrint(v, w, le) && a == b
    decreases Size(v), 1, 0
  {
    SameConstructor(v, w, a, b, le);
    match v
    case JArray(_) => ArraysUnambiguous(v, w, a, b, le);
    case JObject(_) => ObjectsUnambiguous(v, w, a, b, le);
    case JNumber(t) => NumberTokens(t, w.token, a, b);
    case JString(s) => QuoteUnambiguous(s, w.s, a, b);
    case _ => Cancel(Canonical(v, le), a, b);
  }

  lemma SameConstructor(v: Json, w: Json, a: Text, b: Text, le: Order)
    requires WellFormed(v) && WellFormed(w) && Canonical(v, le) + a == Canonical(w, le) + b
    ensures KindOf(v) == KindOf(w) && (v.JNull? || v.JBool? ==> v == w)
  {
    FirstUnit(v, le);
    FirstUnit(w, le);
    assert (Canonical(v, le) + a)[0] == (Canonical(w, le) + b)[0];
  }

  lemma {:induction false} ArraysUnambiguous(v: Json, w: Json, a: Text, b: Text, le: Order)
    requires v.JArray? && w.JArray? && WellFormed(v) && WellFormed(w)
    requires Canonical(v, le) + a == Canonical(w, le) + b
    ensures SamePrint(v, w, le) && a == b
    decreases Size(v), 0, 0
  {
    var p, q := CanonicalItems(v.items, le) + ([RBRACKET] + a), CanonicalItems(w.items, le) + ([RBRACKET] + b);
    assert Canonical(v, le) + a == [LBRACKET] + p && Canonical(w, le) + b == [LBRACKET] + q;
    Cancel([LBRACKET], p, q);
    ItemsUnambiguous(v.items, w.items, a, b, le);
  }

  lemma {:induction false} ObjectsUnambiguous(v: Json, w: Json, a: Text, b: Text, le: Order)
    requires v.JObject? && w.JObject? && WellFormed(v) && WellFormed(w)
    requires Canonical(v, le) + a == Canonical(w, le) + b
    ensures SamePrint(v, w, le) && a == b
    ensures LikeLists(Sort(v.entries, le), Sort(w.entries, le), le)
    decreases Size(v), 0, 0
  {
    var es, fs := Sort(v.entries, le), Sort(w.entries, le);
    var p, q := CanonicalEntries(es, le) + ([RBRACE] + a), CanonicalEntries(fs, le) + ([RBRACE] + b);
    assert Canonical(v, le) + a == [LBRACE] + p && Canonical(w, le) + b == [LBRACE] + q;
    Cancel([LBRACE], p, q);
    SortKeeps(v.entries, le);
    SortKeeps(w.entries, le);
    forall i | 0 <= i < |es| ensures WellFormed(es[i].value) { assert es[i] in v.entries; }
    forall i | 0 <= i < |fs| ensures WellFormed(fs[i].value) { assert fs[i] in w.entries; }
    EntriesUnambiguous(es, fs, a, b, le);
    LikeListsPrintAlike(es, fs, le);
  }

  lemma ItemsBegin(xs: seq<Json>, t: Text, le: Order)
    requires forall i :: 0 <= i < |xs| ==> WellFormed(xs[i])
    ensures xs == [] ==> CanonicalItems(xs, le) + t == t
    ensures xs != [] ==> |CanonicalItems(xs, le) + t| > 0 && Kind((CanonicalItems(xs, le) + t)[0]) > 0
    ensures xs != [] ==> CanonicalItems(xs, le) + t == Canonical(xs[0], le) + (ItemsTail(xs, le) + t)
  {
    if xs != [] {
      var c, e := Canonical(xs[0], le), ItemsTail(xs, le);
      FirstUnit(xs[0], le);
      assert CanonicalItems(xs, le) == c + e;
      Regroup(c, e, t);
      assert (c + (e + t))[0] == c[0];
    }
  }

  lemma {:induction false} ItemsUnambiguous(xs: seq<Json>, ys: seq<Json>, a: Text, b: Text, le: Order)
    requires forall i :: 0 <= i < |xs| ==> WellFormed(xs[i])
    requires forall i :: 0 <= i < |ys| ==> WellFormed(ys[i])
    requires CanonicalItems(xs, le) + ([RBRACKET] + a) == CanonicalItems(ys, le) + ([RBRACKET] + b)
    ensures |xs| == |ys| && a == b && MeaningOfItems(xs) == MeaningOfItems(ys)
    ensures forall i :: 0 <= i < |xs| ==> SamePrint(xs[i], ys[i], le)
    ensures CanonicalItems(xs, le) == CanonicalItems(ys, le)
    decreases SizeOfItems(xs), 0, |xs|
  {
    var A, B := [RBRACKET] + a, [RBRACKET] + b;
    ItemsBegin(xs, A, le);
    ItemsBegin(ys, B, le);
    assert A[0] == B[0] == RBRACKET && Kind(RBRACKET) == 0;
    if xs == [] {
      Cancel([RBRACKET], a, b);
    } else {
      var r, s := ItemsTail(xs, le) + A, ItemsTail(ys, le) + B;
      Unambiguous(xs[0], ys[0], r, s, le);
      var t := if |xs| == 1 then [] else CanonicalItems(xs[1..], le);
      var u := if |ys| == 1 then [] else CanonicalItems(ys[1..], le);
      TailCases(|xs| == 1, t, |ys| == 1, u, RBRACKET, a, b);
      if |xs| > 1 {
        ItemsUnambiguous(xs[1..], ys[1..], a, b, le);
        forall i | 1 <= i < |xs| ensures SamePrint(xs[i], ys[i], le) {
          assert xs[i] == xs[1..][i - 1] && ys[i] == ys[1..][i - 1];
        }
      }
    }
  }

  lemma EntriesBegin(es: seq<Entry>, t: Text, le: Order)
    ensures es == [] ==> CanonicalEntries(es, le) + t == t
    ensures es != [] ==> |CanonicalEntries(es, le) + t| > 0 && (CanonicalEntries(es, le) + t)[0] == QUOTE
    ensures es != [] ==> CanonicalEntries(es, le) + t
                         == Quote(es[0].key) + ([COLON] + (Canonical(es[0].value, le) + (EntriesTail(es, le) + t)))
  {
    if es != [] {
      var k, c, e := Quote(es[0].key), Canonical(es[0].value, le), EntriesTail(es, le);
      assert CanonicalEntries(es, le) == ((k + [COLON]) + c) + e;
      RegroupEntry(k, c, e, t);
      assert k[0] == QUOTE;
    }
  }

  lemma RegroupEntry(k: Text, c: Text, e: Text, t: Text)
    ensures (((k + [COLON]) + c) + e) + t == k + ([COLON] + (c + (e + t)))
  {
  }

  lemma {:induction false} EntriesUnambiguous(es: seq<Entry>, fs: seq<Entry>, a: Text, b: Text, le: Order)
    requires forall i :: 0 <= i < |es| ==> WellFormed(es[i].value)
    requires forall i :: 0 <= i < |fs| ==> WellFormed(fs[i].value)
    requires CanonicalEntries(es, le) + ([RBRACE] + a) == CanonicalEntries(fs, le) + ([RBRACE] + b)
    ensures a == b && LikeLists(es, fs, le)
    decreases SizeOfEntries(es), 0, |es|
  {
    var A, B := [RBRACE] + a, [RBRACE] + b;
    BothEmptyOrNeither(es, fs, a, b, le);
    if es == [] {
      Cancel([RBRACE], a, b);
    } else {
      EntriesBegin(es, A, le);
      EntriesBegin(fs, B, le);
      EntryUnambiguous(es[0], fs[0], EntriesTail(es, le) + A, EntriesTail(fs, le) + B, le);
      SameTails(es, fs, a, b, le);
      if |es| > 1 {
        EntriesUnambiguous(es[1..], fs[1..], a, b, le);
        ConsLike(es, fs, le);
      }
    }
  }

  lemma BothEmptyOrNeither(es: seq<Entry>, fs: seq<Entry>, a: Text, b: Text, le: Order)
    requires CanonicalEntries(es, le) + ([RBRACE] + a) == CanonicalEntries(fs, le) + ([RBRACE] + b)
    ensures es == [] <==> fs == []
    ensures es == [] ==> [RBRACE] + a == [RBRACE] + b
  {
    EntriesBegin(es, [RBRACE] + a, le);
    EntriesBegin(fs, [RBRACE] + b, le);
    assert ([RBRACE] + a)[0] == ([RBRACE] + b)[0] == RBRACE;
  }

  lemma SameTails(es: seq<Entry>, fs: seq<Entry>, a: Text, b: Text, le: Order)
    requires es != [] && fs != []
    requires EntriesTail(es, le) + ([RBRACE] + a) == EntriesTail(fs, le) + ([RBRACE] + b)
    ensures |es| == 1 <==> |fs| == 1
    ensures |es| == 1 ==> a == b
    ensures |es| > 1 ==>
      CanonicalEntries(es[1..], le) + ([RBRACE] + a) == CanonicalEntries(fs[1..], le) + ([RBRACE] + b)
  {
    var t := if |es| == 1 then [] else CanonicalEntries(es[1..], le);
    var u := if |fs| == 1 then [] else CanonicalEntries(fs[1..], le);
    TailCases(|es| == 1, t, |fs| == 1, u, RBRACE, a, b);
  }

  // After an element comes either the closing delimiter or a comma and more.
  lemma TailCases(last: bool, t: Text, last': bool, u: Text, close: Unit, a: Text, b: Text)
    requires close != COMMA
    requires (if last then [] else [COMMA] + t) + ([close] + a) == (if last' then [] else [COMMA] + u) + ([close] + b)
    ensures last == last'
    ensures last ==> a == b
    ensures !last ==> t + ([close] + a) == u + ([close] + b)
  {
    var x := (if last then [] else [COMMA] + t) + ([close] + a);
    assert x[0] == if last then close else COMMA;
    assert x[0] == if last' then close else COMMA;
    if last {
      assert x == [close] + a && x == [close] + b;
      Cancel([close], a, b);
    } else {
      assert x == [COMMA] + (t + ([close] + a)) && x == [COMMA] + (u + ([close] + b));
      Cancel([COMMA], t + ([close] + a), u + ([close] + b));
    }
  }

  lemma ConsLike(es: seq<Entry>, fs: seq<Entry>, le: Order)
    requires es != [] && fs != [] && LikeEntries(es[0], fs[0], le) && LikeLists(es[1..], fs[1..], le)
    ensures LikeLists(es, fs, le)
  {
  }

  ghost predicate LikeLists(es: seq<Entry>, fs: seq<Entry>, le: Order) {
    |es| == |fs| && forall i :: 0 <= i < |es| ==> LikeEntries(es[i], fs[i], le)
  }

  lemma {:induction false} LikeListsPrintAlike(es: seq<Entry>, fs: seq<Entry>, le: Order)
    requires LikeLists(es, fs, le)
    ensures CanonicalEntries(es, le) == CanonicalEntries(fs, le)
    ensures MeaningOfEntries(es) == MeaningOfEntries(fs)
  {
    if es != [] {
      assert LikeEntries(es[0], fs[0], le);
      forall i | 0 <= i < |es| - 1 ensures LikeEntries(es[1..][i], fs[1..][i], le) {
        assert LikeEntries(es[i + 1], fs[i + 1], le);
      }
      LikeListsPrintAlike(es[1..], fs[1..], le);
    }
  }

  ghost predicate LikeEntries(e: Entry, f: Entry, le: Order) {
    e.key == f.key && SamePrint(e.value, f.value, le)
  }

  lemma {:induction false} EntryUnambiguous(e: Entry, f: Entry, r: Text, s: Text, le: Order)
    requires WellFormed(e.value) && WellFormed(f.value) && Boundary(r) && Boundary(s)
    requires Quote(e.key) + ([COLON] + (Canonical(e.value, le) + r))
          == Quote(f.key) + ([COLON] + (Canonical(f.value, le) + s))
    ensures LikeEntries(e, f, le) && r == s
    decreases Size(e.value), 2, 0
  {
    var x, y := Canonical(e.value, le) + r, Canonical(f.value, le) + s;
    QuoteUnambiguous(e.key, f.key, [COLON] + x, [COLON] + y);
    Cancel([COLON], x, y);
    Unambiguous(e.value, f.value, r, s, le);
  }

  // ---------------------------------------------------------------- sorting keeps the fields

  ghost function KeySet(es: seq<Entry>): set<Text> { MeaningOfEntries(es).Keys }

  lemma {:induction false} KeyAt(es: seq<Entry>, i: nat)
    requires i < |es|
    ensures es[i].key in KeySet(es)
  {
    if i > 0 { KeyAt(es[1..], i - 1); }
  }

  lemma {:induction false} FindKey(es: seq<Entry>, k: Text) returns (i: nat)
    requires k in KeySet(es)
    ensures i < |es| && es[i].key == k
  {
    if es[0].key == k {
      i := 0;
    } else {
      var j := FindKey(es[1..], k);
      i := j + 1;
    }
  }

  lemma DistinctTail(es: seq<Entry>)
    requires es != [] && Distinct(es)
    ensures Distinct(es[1..]) && es[0].key !in KeySet(es[1..])
  {
    if es[0].key in KeySet(es[1..]) { var i := FindKey(es[1..], es[0].key); }
  }

  lemma DistinctCons(e: Entry, rest: seq<Entry>)
    requires Distinct(rest) && e.key !in KeySet(rest)
    ensures Distinct([e] + rest)
  {
    forall i | 0 <= i < |rest| ensures rest[i].key != e.key { KeyAt(rest, i); }
  }

  ghost predicate SameFields(es: seq<Entry>, fs: seq<Entry>) {
    && |es| == |fs| && Distinct(es) && Distinct(fs)
    && MeaningOfEntries(es) == MeaningOfEntries(fs)
    && forall e :: e in fs <==> e in es
  }

  lemma ConsMeaning(e: Entry, rest: seq<Entry>)
    ensures MeaningOfEntries([e] + rest) == MeaningOfEntries(rest)[e.key := Meaning(e.value)]
  {
  }

  // Two leading entries may change places.
  lemma SwapHeads(e: Entry, h: Entry, tail: seq<Entry>, r: seq<Entry>)
    requires Distinct([e] + ([h] + tail)) && SameFields([e] + tail, r)
    ensures SameFields([e] + ([h] + tail), [h] + r)
  {
    ConsMeaning(e, [h] + tail);
    ConsMeaning(h, tail);
    ConsMeaning(e, tail);
    ConsMeaning(h, r);
    HeadIsFresh(e, h, tail, r);
    forall x ensures x in [e] + ([h] + tail) <==> x == e || x == h || x in tail {}
  }

  lemma HeadIsFresh(e: Entry, h: Entry, tail: seq<Entry>, r: seq<Entry>)
    requires Distinct([e] + ([h] + tail)) && Distinct(r) && forall x :: x in r <==> x in [e] + tail
    ensures Distinct([h] + r) && e.key != h.key
  {
    var all := [e] + ([h] + tail);
    assert all[0] == e && all[1] == h;
    forall x | x in r ensures x.key != h.key {
      assert x in [e] + tail;
      if x != e { var i :| 0 <= i < |tail| && tail[i] == x; assert all[i + 2] == x; }
    }
  }

  lemma {:induction false} InsertKeeps(e: Entry, sorted: seq<Entry>, le: Order)
    requires Distinct([e] + sorted)
    ensures SameFields([e] + sorted, Insert(e, sorted, le))
  {
    if sorted != [] && !le(e.key, sorted[0].key) {
      var h, tail := sorted[0], sorted[1..];
      assert sorted == [h] + tail;
      DistinctWithout(e, h, tail);
      InsertKeeps(e, tail, le);
      SwapHeads(e, h, tail, Insert(e, tail, le));
    }
  }

  lemma DistinctWithout(e: Entry, h: Entry, tail: seq<Entry>)
    requires Distinct([e] + ([h] + tail))
    ensures Distinct([e] + tail)
  {
    var all, es := [e] + ([h] + tail), [e] + tail;
    forall i, j | 0 <= i < j < |es| ensures es[i].key != es[j].key {
      assert es[j] == all[j + 1];
      assert es[i] == all[if i == 0 then 0 else i + 1];
    }
  }

  lemma {:induction false} SortKeeps(entries: seq<Entry>, le: Order)
    requires Distinct(entries)
    ensures SameFields(entries, Sort(entries, le))
  {
    if entries != [] {
      var e, rest := entries[0], entries[1..];
      var r := Sort(rest, le);
      assert entries == [e] + rest;
      DistinctTail(entries);
      SortKeeps(rest, le);
      DistinctCons(e, r);
      InsertKeeps(e, r, le);
      ConsMeaning(e, r);
      ConsMeaning(e, rest);
    }
  }

  /** Different values have different texts, whatever the comparator does. */
  lemma CanonicalIsUnambiguous(v: Json, w: Json, le: Order)
    requires WellFormed(v) && WellFormed(w)
    requires Canonical(v, le) == Canonical(w, le)
    ensures Meaning(v) == Meaning(w)
  {
    assert Canonical(v, le) + [] == Canonical(w, le) + [];
    Unambiguous(v, w, [], [], le);
  }
}
