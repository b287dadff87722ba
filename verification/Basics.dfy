/** Shared vocabulary: options, UTF-16 text, bytes, digests and decimal numerals. */
module Basics {

  datatype Option<+T> = None | Some(value: T)

  // Text is a sequence of UTF-16 code units, as JavaScript strings are.
  type Unit = u: int | 0 <= u < 0x1_0000
  type Text = seq<Unit>

  type Byte = b: int | 0 <= b < 0x100
  type Bytes = seq<Byte>

  // SHA-256 as an injective abstract function: a digest is its preimage.
  datatype Digest = OfText(text: Text) | OfBytes(bytes: Bytes)

  /** A literal of the source, as UTF-16 text. */
  function Lit(s: string): (t: Text)
    ensures |t| == |s|
    ensures forall i :: 0 <= i < |s| && s[i] as int < 0x1_0000 ==> t[i] == s[i] as int
  {
    seq(|s|, i requires 0 <= i < |s| => if s[i] as int < 0x1_0000 then s[i] as int as Unit else 0xFFFD)
  }

  predicate IsSpace(u: Unit) {
    9 <= u <= 13 || u == 32 || u == 0xA0 || u == 0x1680 || 0x2000 <= u <= 0x200A
    || u == 0x2028 || u == 0x2029 || u == 0x202F || u == 0x205F || u == 0x3000 || u == 0xFEFF
  }

  /** String.prototype.trim. */
  function Trim(t: Text): (r: Text)
    ensures |r| <= |t|
    decreases |t|
  {
    if t == [] then []
    else if IsSpace(t[0]) then Trim(t[1..])
    else if IsSpace(t[|t| - 1]) then Trim(t[..|t| - 1])
    else t
  }

  /** What trimming leaves is the text between its first and its last unit that is no white space. */
  lemma {:induction false} TrimIsExact(t: Text) returns (i: nat, j: nat)
    ensures i <= j <= |t| && Trim(t) == t[i..j]
    ensures (forall k :: 0 <= k < i ==> IsSpace(t[k])) && (forall k :: j <= k < |t| ==> IsSpace(t[k]))
    ensures i < j ==> !IsSpace(t[i]) && !IsSpace(t[j - 1])
    decreases |t|
  {
    hide IsSpace;
    if t == [] {
      i, j := 0, 0;
    } else if IsSpace(t[0]) {
      i, j := TrimIsExact(t[1..]);
      i, j := i + 1, j + 1;
      assert forall k :: 1 <= k < |t| ==> t[1..][k - 1] == t[k];
    } else if IsSpace(t[|t| - 1]) {
      i, j := TrimIsExact(t[..|t| - 1]);
    } else {
      i, j := 0, |t|;
    }
  }

  // ---------------------------------------------------------------- numerals

  const DOT: Unit := 46

  predicate IsDigit(u: Unit) { 48 <= u <= 57 }

  function NatText(n: nat): (t: Text)
    ensures t != [] && forall i :: 0 <= i < |t| ==> IsDigit(t[i])
  {
    if n < 10 then [48 + n] else NatText(n / 10) + [48 + n % 10]
  }

  function ParseNat(t: Text): Option<nat> {
    if t == [] || !IsDigit(t[|t| - 1]) then None
    else if |t| == 1 then Some(t[0] - 48)
    else
      match ParseNat(t[..|t| - 1])
      case None => None
      case Some(high) => Some(10 * high + (t[|t| - 1] - 48))
  }

  lemma {:induction false} NatTextRoundTrip(n: nat)
    ensures ParseNat(NatText(n)) == Some(n)
  {
    if n >= 10 {
      NatTextRoundTrip(n / 10);
      var t := NatText(n);
      assert t[..|t| - 1] == NatText(n / 10);
    }
  }

  /** Decimal.toString of a DECIMAL(19,2) column: no trailing zeros. */
  function DecimalText(cents: nat): Text {
    var whole := NatText(cents / 100);
    if cents % 100 == 0 then whole
    else if cents % 10 == 0 then whole + [DOT, 48 + cents % 100 / 10]
    else whole + [DOT, 48 + cents % 100 / 10, 48 + cents % 10]
  }

  /** Number.toFixed(2) of an amount that is a whole number of cents. */
  function FixedText(cents: nat): Text {
    NatText(cents / 100) + [DOT, 48 + cents % 100 / 10, 48 + cents % 10]
  }

  /** The amount, in cents, of a decimal text with at most two fraction digits. */
  function Decimal(t: Text): Option<nat> {
    var n := |t|;
    if n >= 3 && t[n - 2] == DOT then Join(ParseNat(t[..n - 2]), ParseNat([t[n - 1], 48]))
    else if n >= 4 && t[n - 3] == DOT then Join(ParseNat(t[..n - 3]), ParseNat(t[n - 2..]))
    else Join(ParseNat(t), Some(0))
  }

  function Join(whole: Option<nat>, fraction: Option<nat>): Option<nat> {
    if whole.Some? && fraction.Some? then Some(100 * whole.value + fraction.value) else None
  }

  lemma TwoDigits(a: Unit, b: Unit)
    requires IsDigit(a) && IsDigit(b)
    ensures ParseNat([a, b]) == Some(10 * (a - 48) + (b - 48))
  {
  }

  lemma ReadTwoPlaces(whole: Text, d: Unit, e: Unit)
    requires whole != [] && IsDigit(d) && IsDigit(e)
    ensures Decimal(whole + [DOT, d, e]) == Join(ParseNat(whole), ParseNat([d, e]))
  {
    var t := whole + [DOT, d, e];
    assert t[..|t| - 3] == whole && t[|t| - 2..] == [d, e];
  }

  lemma ReadOnePlace(whole: Text, d: Unit)
    requires whole != [] && IsDigit(d)
    ensures Decimal(whole + [DOT, d]) == Join(ParseNat(whole), ParseNat([d, 48]))
  {
  }

  lemma ReadWhole(n: nat)
    ensures Decimal(NatText(n)) == Some(100 * n)
  {
    NatTextRoundTrip(n);
    DigitsHaveNoPoint(NatText(n));
    hide NatText, ParseNat, Decimal;
  }

  lemma DigitsHaveNoPoint(t: Text)
    requires forall i :: 0 <= i < |t| ==> IsDigit(t[i])
    ensures Decimal(t) == Join(ParseNat(t), Some(0))
  {
    hide ParseNat;
    assert |t| >= 3 ==> IsDigit(t[|t| - 2]);
    assert |t| >= 4 ==> IsDigit(t[|t| - 3]);
  }

  lemma CentsSplit(cents: nat)
    ensures cents == 100 * (cents / 100) + (10 * (cents % 100 / 10) + cents % 10)
  {
  }

  lemma ReadDigits(whole: nat, t: nat, u: nat)
    requires t < 10 && u < 10
    ensures Decimal(NatText(whole) + [DOT, 48 + t, 48 + u]) == Some(100 * whole + (10 * t + u))
  {
    NatTextRoundTrip(whole);
    TwoDigits(48 + t, 48 + u);
    ReadTwoPlaces(NatText(whole), 48 + t, 48 + u);
    hide NatText, ParseNat, Decimal;
  }

  lemma ReadDigit(whole: nat, t: nat)
    requires t < 10
    ensures Decimal(NatText(whole) + [DOT, 48 + t]) == Some(100 * whole + 10 * t)
  {
    NatTextRoundTrip(whole);
    TwoDigits(48 + t, 48);
    ReadOnePlace(NatText(whole), 48 + t);
    hide NatText, ParseNat, Decimal;
  }

  lemma ReadCents(cents: nat)
    ensures Decimal(NatText(cents / 100) + [DOT, 48 + cents % 100 / 10, 48 + cents % 10]) == Some(cents)
  {
    hide NatText, ParseNat, Decimal;
    ReadDigits(cents / 100, cents % 100 / 10, cents % 10);
    CentsSplit(cents);
  }

  lemma ReadTenths(cents: nat)
    requires cents % 10 == 0
    ensures Decimal(NatText(cents / 100) + [DOT, 48 + cents % 100 / 10]) == Some(cents)
  {
    hide NatText, ParseNat, Decimal;
    ReadDigit(cents / 100, cents % 100 / 10);
    CentsSplit(cents);
  }

  lemma ReadUnits(cents: nat)
    requires cents % 100 == 0
    ensures Decimal(NatText(cents / 100)) == Some(cents)
  {
    ReadWhole(cents / 100);
    CentsSplit(cents);
    hide NatText, ParseNat, Decimal;
  }

  /** Both printers are read back exactly, so a stored amount text names one amount. */
  lemma DecimalRoundTrip(cents: nat)
    ensures Decimal(DecimalText(cents)) == Some(cents)
    ensures Decimal(FixedText(cents)) == Some(cents)
  {
    hide NatText, ParseNat, Decimal;
    ReadCents(cents);
    if cents % 100 == 0 { ReadUnits(cents); }
    if cents % 10 == 0 { ReadTenths(cents); }
  }
}
