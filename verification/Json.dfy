/** canonicalJson: the printer whose text is hashed as risk evidence and as webhook payload. */
module Json {
  import opened Basics

  const QUOTE: Unit := 34
  const COMMA: Unit := 44
  const COLON: Unit := 58
  const LBRACKET: Unit := 91
  const BACKSLASH: Unit := 92
  const RBRACKET: Unit := 93
  const LBRACE: Unit := 123
  const RBRACE: Unit := 125

  // A finite number is carried by the token Number::toString prints for it.
  datatype Json =
    | JNull
    | JBool(b: bool)
    | JNumber(token: Text)
    | JString(s: Text)
    | JArray(items: seq<Json>)
    | JObject(entries: seq<Entry>)   // in Object.entries order

  datatype Entry = Entry(key: Text, value: Json)

  // The mathematical value: an object is a finite map, so key order is gone.
  datatype Value =
    | VNull
    | VBool(b: bool)
    | VNumber(token: Text)
    | VString(s: Text)
    | VArray(items: seq<Value>)
    | VObject(fields: map<Text, Value>)

  function Meaning(v: Json): Value
    decreases v, 1
  {
    match v
    case JNull => VNull
    case JBool(b) => VBool(b)
    case JNumber(token) => VNumber(token)
    case JString(s) => VString(s)
    case JArray(items) => VArray(MeaningOfItems(items))
    case JObject(entries) => VObject(MeaningOfEntries(entries))
  }

  function MeaningOfItems(items: seq<Json>): (r: seq<Value>)
    ensures |r| == |items|
    decreases items, 0
  {
    if items == [] then [] else [Meaning(items[0])] + MeaningOfItems(items[1..])
  }

  function MeaningOfEntries(entries: seq<Entry>): map<Text, Value>
    decreases entries, 0
  {
    if entries == [] then map[]
    else MeaningOfEntries(entries[1..])[entries[0].key := Meaning(entries[0].value)]
  }

  // ---------------------------------------------------------------- well-formed values

  predicate IsNumberUnit(u: Unit) { IsDigit(u) || u in {43, 45, 46, 69, 101} }

  predicate IsNumberToken(t: Text) {
    t != [] && (IsDigit(t[0]) || t[0] == 45) && forall i :: 0 <= i < |t| ==> IsNumberUnit(t[i])
  }

  predicate Distinct(es: seq<Entry>) {
    forall i, j :: 0 <= i < j < |es| ==> es[i].key != es[j].key
  }

  predicate WellFormed(v: Json)
    decreases v, 1
  {
    match v
    case JNumber(token) => IsNumberToken(token)
    case JArray(items) => forall i :: 0 <= i < |items| ==> WellFormed(items[i])
    case JObject(entries) =>
      Distinct(entries) && forall i :: 0 <= i < |entries| ==> WellFormed(entries[i].value)
    case _ => true
  }

  // ---------------------------------------------------------------- JSON.stringify of a string

  predicate IsHigh(u: Unit) { 0xD800 <= u < 0xDC00 }
  predicate IsLow(u: Unit) { 0xDC00 <= u < 0xE000 }

  function HexDigit(n: nat): Unit
    requires n < 16
  {
    if n < 10 then 48 + n else 87 + n
  }

  function Escape(u: Unit): Text {
    if u == 8 then [BACKSLASH, 98]
    else if u == 9 then [BACKSLASH, 116]
    else if u == 10 then [BACKSLASH, 110]
    else if u == 12 then [BACKSLASH, 102]
    else if u == 13 then [BACKSLASH, 114]
    else if u == QUOTE || u == BACKSLASH then [BACKSLASH, u]
    else if u < 32 || IsHigh(u) || IsLow(u) then
      [BACKSLASH, 117, HexDigit(u / 4096), HexDigit(u / 256 % 16), HexDigit(u / 16 % 16), HexDigit(u % 16)]
    else [u]
  }

  // A surrogate pair is copied; a lone surrogate is escaped.
  function QuoteBody(s: Text): Text
    decreases |s|
  {
    if s == [] then []
    else if |s| >= 2 && IsHigh(s[0]) && IsLow(s[1]) then s[..2] + QuoteBody(s[2..])
    else Escape(s[0]) + QuoteBody(s[1..])
  }

  function Quote(s: Text): Text { [QUOTE] + QuoteBody(s) + [QUOTE] }

  // ---------------------------------------------------------------- sorting entries by key

  // localeCompare is a parameter: le(a, b) stands for a.localeCompare(b) <= 0.
  type Order = (Text, Text) -> bool

  ghost predicate TotalPreorder(le: Order) {
    && (forall a, b :: le(a, b) || le(b, a))
    && (forall a, b, c :: le(a, b) && le(b, c) ==> le(a, c))
  }

  // A size that ignores order, to let canonicalJson recurse on sorted entries.
  function Size(v: Json): nat
    decreases v, 1
  {
    match v
    case JArray(items) => 1 + SizeOfItems(items)
    case JObject(entries) => 1 + SizeOfEntries(entries)
    case _ => 0
  }

  function SizeOfItems(items: seq<Json>): nat
    decreases items, 0
  {
    if items == [] then 0 else 1 + Size(items[0]) + SizeOfItems(items[1..])
  }

  function SizeOfEntries(entries: seq<Entry>): nat
    decreases entries, 0
  {
    if entries == [] then 0 else 1 + Size(entries[0].value) + SizeOfEntries(entries[1..])
  }

  function Insert(e: Entry, sorted: seq<Entry>, le: Order): (r: seq<Entry>)
    ensures SizeOfEntries(r) == 1 + Size(e.value) + SizeOfEntries(sorted)
  {
    assert ([e] + sorted)[1..] == sorted;
    if sorted == [] || le(e.key, sorted[0].key) then [e] + sorted
    else
      var rest := Insert(e, sorted[1..], le);
      assert ([sorted[0]] + rest)[1..] == rest;
      [sorted[0]] + rest
  }

  /** Array.prototype.sort on keys: stable, so tied keys keep their order. */
  function Sort(entries: seq<Entry>, le: Order): (r: seq<Entry>)
    ensures SizeOfEntries(r) == SizeOfEntries(entries)
  {
    if entries == [] then [] else Insert(entries[0], Sort(entries[1..], le), le)
  }

  // ---------------------------------------------------------------- canonicalJson

  function Canonical(v: Json, le: Order): Text
    decreases Size(v), 1, 0
  {
    match v
    case JNull => Lit("null")
    case JBool(b) => if b then Lit("true") else Lit("false")
    case JNumber(token) => token
    case JString(s) => Quote(s)
    case JArray(items) => [LBRACKET] + CanonicalItems(items, le) + [RBRACKET]
    case JObject(entries) => [LBRACE] + CanonicalEntries(Sort(entries, le), le) + [RBRACE]
  }

  // Array.prototype.join: a comma before every element but the first.
  function CanonicalItems(items: seq<Json>, le: Order): Text
    decreases SizeOfItems(items), 0, |items|
  {
    if items == [] then []
    else if |items| == 1 then Canonical(items[0], le)
    else Canonical(items[0], le) + [COMMA] + CanonicalItems(items[1..], le)
  }

  function CanonicalEntry(e: Entry, le: Order): Text
    decreases Size(e.value), 2, 0
  {
    Quote(e.key) + [COLON] + Canonical(e.value, le)
  }

  function CanonicalEntries(entries: seq<Entry>, le: Order): Text
    decreases SizeOfEntries(entries), 0, |entries|
  {
    if entries == [] then []
    else if |entries| == 1 then CanonicalEntry(entries[0], le)
    else CanonicalEntry(entries[0], le) + [COMMA] + CanonicalEntries(entries[1..], le)
  }
}
