/** canonicalJson ignores the order of object keys exactly when the comparator ties no two of them. */
module JsonOrder {
  import opened Basics
  import opened Json
  import opened JsonProofs

  ghost predicate Tied(a: Text, b: Text, le: Order) { a != b && le(a, b) && le(b, a) }

  ghost predicate NoTies(es: seq<Entry>, le: Order) {
    forall i, j :: 0 <= i < |es| && 0 <= j < |es| ==> !Tied(es[i].key, es[j].key, le)
  }

  ghost predicate TieFree(v: Json, le: Order)
    decreases v, 1
  {
    match v
    case JArray(items) => forall i :: 0 <= i < |items| ==> TieFree(items[i], le)
    case JObject(entries) =>
      NoTies(entries, le) && forall i :: 0 <= i < |entries| ==> TieFree(entries[i].value, le)
    case _ => true
  }

  ghost predicate Sorted(es: seq<Entry>, le: Order) {
    forall i, j :: 0 <= i < j < |es| ==> le(es[i].key, es[j].key)
  }

  lemma {:induction false} FieldAt(es: seq<Entry>, i: nat)
    requires Distinct(es) && i < |es|
    ensures es[i].key in KeySet(es) && MeaningOfEntries(es)[es[i].key] == Meaning(es[i].value)
  {
    DistinctTail(es);
    if i > 0 {
      FieldAt(es[1..], i - 1);
      assert es[1..][i - 1] == es[i];
      assert es[0].key != es[i].key;
    }
  }

  // ---------------------------------------------------------------- tie-free values print alike

  lemma {:induction false} InsertAt(e: Entry, s: seq<Entry>, le: Order) returns (p: nat)
    ensures p <= |s| && Insert(e, s, le) == s[..p] + [e] + s[p..]
    ensures forall x :: 0 <= x < p ==> !le(e.key, s[x].key)
    ensures p < |s| ==> le(e.key, s[p].key)
  {
    if s == [] || le(e.key, s[0].key) {
      p := 0;
    } else {
      var q := InsertAt(e, s[1..], le);
      p := q + 1;
      SpliceTail(e, s, q);
    }
  }

  lemma SpliceTail(e: Entry, s: seq<Entry>, q: nat)
    requires q < |s|
    ensures [s[0]] + (s[1..][..q] + [e] + s[1..][q..]) == s[..q + 1] + [e] + s[q + 1..]
  {
  }

  lemma OrderFacts(a: Text, b: Text, c: Text, le: Order)
    requires TotalPreorder(le)
    ensures le(a, b) || le(b, a)
    ensures le(a, b) && le(b, c) ==> le(a, c)
  {
  }

  lemma {:induction false} InsertSorts(e: Entry, s: seq<Entry>, le: Order)
    requires TotalPreorder(le) && Sorted(s, le)
    ensures Sorted(Insert(e, s, le), le)
  {
    var p := InsertAt(e, s, le);
    forall x | 0 <= x < p ensures le(s[x].key, e.key) { OrderFacts(e.key, s[x].key, e.key, le); }
    forall x | p <= x < |s| ensures le(e.key, s[x].key) { OrderFacts(e.key, s[p].key, s[x].key, le); }
    assert s[..p] + s[p..] == s;
    SplicedSorted(s[..p], e, s[p..], le);
  }

  lemma SplicedSorted(a: seq<Entry>, e: Entry, b: seq<Entry>, le: Order)
    requires Sorted(a + b, le)
    requires forall x :: 0 <= x < |a| ==> le(a[x].key, e.key)
    requires forall x :: 0 <= x < |b| ==> le(e.key, b[x].key)
    ensures Sorted(a + [e] + b, le)
  {
    var s, r := a + b, a + [e] + b;
    forall i, j | 0 <= i < j < |r| ensures le(r[i].key, r[j].key) {
      assert r[i] == if i < |a| then s[i] else if i == |a| then e else s[i - 1];
      assert r[j] == if j < |a| then s[j] else if j == |a| then e else s[j - 1];
    }
  }

  lemma {:induction false} SortSorts(es: seq<Entry>, le: Order)
    requires TotalPreorder(le)
    ensures Sorted(Sort(es, le), le)
  {
    if es != [] {
      SortSorts(es[1..], le);
      InsertSorts(es[0], Sort(es[1..], le), le);
    }
  }

  lemma {:induction false} SameKeyOrder(es: seq<Entry>, fs: seq<Entry>, le: Order)
    requires Distinct(es) && Distinct(fs) && KeySet(es) == KeySet(fs)
    requires Sorted(es, le) && Sorted(fs, le) && NoTies(es, le) && TotalPreorder(le)
    ensures |es| == |fs| && forall i :: 0 <= i < |es| ==> es[i].key == fs[i].key
  {
    if es == [] {
      if fs != [] { KeyAt(fs, 0); }
    } else {
      KeyAt(es, 0);
      assert fs != [];
      SameLeast(es, fs, le);
      DistinctTail(es);
      DistinctTail(fs);
      assert KeySet(es[1..]) == KeySet(es) - {es[0].key} == KeySet(fs[1..]);
      SameKeyOrder(es[1..], fs[1..], le);
      forall x | 1 <= x < |es| ensures es[x].key == fs[x].key {
        assert es[x] == es[1..][x - 1] && fs[x] == fs[1..][x - 1];
      }
    }
  }

  lemma SameLeast(es: seq<Entry>, fs: seq<Entry>, le: Order)
    requires es != [] && fs != [] && KeySet(es) == KeySet(fs)
    requires Sorted(es, le) && Sorted(fs, le) && NoTies(es, le)
    ensures es[0].key == fs[0].key
  {
    KeyAt(es, 0);
    KeyAt(fs, 0);
    var i := FindKey(es, fs[0].key);
    var j := FindKey(fs, es[0].key);
    assert !Tied(es[0].key, es[i].key, le);
    assert i > 0 ==> le(es[0].key, es[i].key);
    assert j > 0 ==> le(fs[0].key, fs[j].key);
  }

  lemma NoTiesSorted(es: seq<Entry>, le: Order)
    requires Distinct(es) && NoTies(es, le)
    ensures NoTies(Sort(es, le), le)
  {
    SortKeeps(es, le);
    var s := Sort(es, le);
    forall i, j | 0 <= i < |s| && 0 <= j < |s| ensures !Tied(s[i].key, s[j].key, le) {
      assert s[i] in es && s[j] in es;
      var x :| 0 <= x < |es| && es[x] == s[i];
      var y :| 0 <= y < |es| && es[y] == s[j];
    }
  }

  /** Equal values print alike, however their keys are ordered. */
  lemma {:induction false} TieFreePrintsAlike(v: Json, w: Json, le: Order)
    requires WellFormed(v) && WellFormed(w) && TotalPreorder(le) && TieFree(v, le)
    requires Meaning(v) == Meaning(w)
    ensures Canonical(v, le) == Canonical(w, le)
    decreases Size(v), 1, 0
  {
    match v
    case JArray(items) => ItemsPrintAlike(items, w.items, le);
    case JObject(entries) =>
      var es, fs := Sort(entries, le), Sort(w.entries, le);
      SortKeeps(entries, le);
      SortKeeps(w.entries, le);
      SortSorts(entries, le);
      SortSorts(w.entries, le);
      NoTiesSorted(entries, le);
      SameKeyOrder(es, fs, le);
      forall i | 0 <= i < |es|
        ensures WellFormed(es[i].value) && TieFree(es[i].value, le) && WellFormed(fs[i].value)
      {
        assert es[i] in entries && fs[i] in w.entries;
      }
      forall i | 0 <= i < |es| ensures Meaning(es[i].value) == Meaning(fs[i].value) {
        FieldAt(es, i);
        FieldAt(fs, i);
      }
      EntriesPrintAlike(es, fs, le);
      LikeListsPrintAlike(es, fs, le);
    case _ =>
  }

  lemma {:induction false} ItemsPrintAlike(xs: seq<Json>, ys: seq<Json>, le: Order)
    requires TotalPreorder(le) && MeaningOfItems(xs) == MeaningOfItems(ys)
    requires forall i :: 0 <= i < |xs| ==> WellFormed(xs[i]) && TieFree(xs[i], le)
    requires forall i :: 0 <= i < |ys| ==> WellFormed(ys[i])
    ensures CanonicalItems(xs, le) == CanonicalItems(ys, le)
    decreases SizeOfItems(xs), 0, |xs|
  {
    assert |xs| == |MeaningOfItems(xs)| == |ys|;
    if xs != [] {
      var m := MeaningOfItems(xs);
      assert m[0] == Meaning(xs[0]) == Meaning(ys[0]);
      assert m[1..] == MeaningOfItems(xs[1..]) == MeaningOfItems(ys[1..]);
      TieFreePrintsAlike(xs[0], ys[0], le);
      ItemsPrintAlike(xs[1..], ys[1..], le);
    }
  }

  lemma {:induction false} EntriesPrintAlike(es: seq<Entry>, fs: seq<Entry>, le: Order)
    requires TotalPreorder(le) && |es| == |fs|
    requires forall i :: 0 <= i < |es| ==> es[i].key == fs[i].key && Meaning(es[i].value) == Meaning(fs[i].value)
    requires forall i :: 0 <= i < |es| ==> WellFormed(es[i].value) && TieFree(es[i].value, le)
    requires forall i :: 0 <= i < |fs| ==> WellFormed(fs[i].value)
    ensures LikeLists(es, fs, le)
    decreases SizeOfEntries(es), 0, |es|
  {
    if es != [] {
      TieFreePrintsAlike(es[0].value, fs[0].value, le);
      EntriesPrintAlike(es[1..], fs[1..], le);
      ConsLike(es, fs, le);
    }
  }

  // ---------------------------------------------------------------- tied keys betray their order

  ghost function ToFront(es: seq<Entry>, i: nat): seq<Entry>
    requires i < |es|
  {
    [es[i]] + (es[..i] + es[i + 1..])
  }

  lemma {:induction false} ToFrontKeeps(es: seq<Entry>, i: nat)
    requires i < |es| && Distinct(es)
    ensures SameFields(ToFront(es, i), es)
  {
    var e, rest := es[i], es[..i] + es[i + 1..];
    if i == 0 {
      assert ToFront(es, i) == es;
    } else {
      var h, tail := es[0], es[1..];
      DistinctTail(es);
      ToFrontKeeps(tail, i - 1);
      var t := tail[..i - 1] + tail[i..];
      assert rest == [h] + t && es == [h] + tail;
      ToFrontDistinct(es, i);
      SwapHeads(e, h, t, tail);
    }
  }

  lemma ToFrontDistinct(es: seq<Entry>, i: nat)
    requires i < |es| && Distinct(es)
    ensures Distinct(ToFront(es, i))
  {
  }

  // Stable sorting leaves an entry moved to the front ahead of every key it ties with.
  lemma FrontStaysAhead(es: seq<Entry>, i: nat, j: nat, le: Order) returns (p: nat, q: nat)
    requires i < |es| && j < |es| && i != j && Distinct(es) && le(es[i].key, es[j].key)
    ensures p < q < |Sort(ToFront(es, i), le)|
    ensures Sort(ToFront(es, i), le)[p].key == es[i].key && Sort(ToFront(es, i), le)[q].key == es[j].key
  {
    var fs := ToFront(es, i);
    var rest := es[..i] + es[i + 1..];
    assert fs[1..] == rest;
    assert rest[if j < i then j else j - 1] == es[j];
    ToFrontDistinct(es, i);
    DistinctTail(fs);
    SortKeeps(rest, le);
    p, q := InsertedAhead(es[i], Sort(rest, le), es[j], le);
  }

  lemma InsertedAhead(e: Entry, s: seq<Entry>, f: Entry, le: Order) returns (p: nat, q: nat)
    requires f in s && le(e.key, f.key)
    ensures p < q < |Insert(e, s, le)| && Insert(e, s, le)[p] == e && Insert(e, s, le)[q] == f
  {
    var x :| 0 <= x < |s| && s[x] == f;
    p := InsertAt(e, s, le);
    q := x + 1;
  }

  // Two printings that differ in which of two tied keys comes first are different texts.
  lemma FrontsDiffer(es: seq<Entry>, i: nat, j: nat, le: Order)
    requires WellFormed(JObject(es)) && i < |es| && j < |es| && Tied(es[i].key, es[j].key, le)
    ensures WellFormed(JObject(ToFront(es, i))) && WellFormed(JObject(ToFront(es, j)))
    ensures Canonical(JObject(ToFront(es, i)), le) != Canonical(JObject(ToFront(es, j)), le)
  {
    var a, b := ToFront(es, i), ToFront(es, j);
    ToFrontWellFormed(es, i);
    ToFrontWellFormed(es, j);
    var p, q := FrontStaysAhead(es, i, j, le);
    var r, s := FrontStaysAhead(es, j, i, le);
    if Canonical(JObject(a), le) == Canonical(JObject(b), le) {
      SameKeysInPlace(a, b, le);
      SortKeeps(b, le);
      SameKeySameIndex(Sort(b, le), p, s);
      SameKeySameIndex(Sort(b, le), q, r);
    }
  }

  lemma SameKeysInPlace(a: seq<Entry>, b: seq<Entry>, le: Order)
    requires WellFormed(JObject(a)) && WellFormed(JObject(b))
    requires Canonical(JObject(a), le) == Canonical(JObject(b), le)
    ensures |Sort(a, le)| == |Sort(b, le)|
    ensures forall x :: 0 <= x < |Sort(a, le)| ==> Sort(a, le)[x].key == Sort(b, le)[x].key
    ensures forall x :: 0 <= x < |Sort(a, le)| ==> SamePrint(Sort(a, le)[x].value, Sort(b, le)[x].value, le)
  {
    assert Canonical(JObject(a), le) + [] == Canonical(JObject(b), le) + [];
    ObjectsUnambiguous(JObject(a), JObject(b), [], [], le);
    forall x | 0 <= x < |Sort(a, le)|
      ensures Sort(a, le)[x].key == Sort(b, le)[x].key && SamePrint(Sort(a, le)[x].value, Sort(b, le)[x].value, le)
    {
      assert LikeEntries(Sort(a, le)[x], Sort(b, le)[x], le);
    }
  }

  lemma ToFrontWellFormed(es: seq<Entry>, i: nat)
    requires WellFormed(JObject(es)) && i < |es|
    ensures WellFormed(JObject(ToFront(es, i))) && Meaning(JObject(ToFront(es, i))) == Meaning(JObject(es))
  {
    ToFrontKeeps(es, i);
    forall x | 0 <= x < |es| ensures WellFormed(ToFront(es, i)[x].value) {
      assert ToFront(es, i)[x] in es;
    }
  }

  lemma TiedKeysBetrayOrder(es: seq<Entry>, le: Order) returns (fs: seq<Entry>)
    requires WellFormed(JObject(es)) && !NoTies(es, le)
    ensures WellFormed(JObject(fs)) && Meaning(JObject(fs)) == Meaning(JObject(es))
    ensures Canonical(JObject(fs), le) != Canonical(JObject(es), le)
  {
    var i, j :| 0 <= i < |es| && 0 <= j < |es| && Tied(es[i].key, es[j].key, le);
    ToFrontWellFormed(es, i);
    ToFrontWellFormed(es, j);
    FrontsDiffer(es, i, j, le);
    var a, b := ToFront(es, i), ToFront(es, j);
    fs := if Canonical(JObject(a), le) != Canonical(JObject(es), le) then a else b;
  }

  lemma SameKeySameIndex(es: seq<Entry>, i: nat, j: nat)
    requires i < |es| && j < |es| && Distinct(es) && es[i].key == es[j].key
    ensures i == j
  {
  }

  lemma {:induction false} SameMeaningOfEntries(es: seq<Entry>, fs: seq<Entry>)
    requires |es| == |fs|
    requires forall i :: 0 <= i < |es| ==> es[i].key == fs[i].key && Meaning(es[i].value) == Meaning(fs[i].value)
    ensures MeaningOfEntries(es) == MeaningOfEntries(fs)
  {
    if es != [] { SameMeaningOfEntries(es[1..], fs[1..]); }
  }

  // Objects that print alike, with the same keys in place, have children that print alike.
  lemma ObjectsShowChildren(es: seq<Entry>, fs: seq<Entry>, k: nat, le: Order)
    requires k < |es| == |fs| && es[k].key == fs[k].key && WellFormed(JObject(es)) && WellFormed(JObject(fs))
    requires Canonical(JObject(es), le) == Canonical(JObject(fs), le)
    ensures Canonical(es[k].value, le) == Canonical(fs[k].value, le)
  {
    SameKeysInPlace(es, fs, le);
    SortKeeps(es, le);
    SortKeeps(fs, le);
    var p := SortedPlace(es, k, le);
    var q := SortedPlace(fs, k, le);
    SameKeySameIndex(Sort(fs, le), p, q);
  }

  lemma SortedPlace(es: seq<Entry>, k: nat, le: Order) returns (p: nat)
    requires k < |es| && SameFields(es, Sort(es, le))
    ensures p < |Sort(es, le)| && Sort(es, le)[p] == es[k]
  {
    assert es[k] in Sort(es, le);
    p :| 0 <= p < |Sort(es, le)| && Sort(es, le)[p] == es[k];
  }

  lemma ChildBetraysObject(es: seq<Entry>, k: nat, w: Json, le: Order)
    requires k < |es| && WellFormed(JObject(es)) && WellFormed(w)
    requires Meaning(w) == Meaning(es[k].value) && Canonical(w, le) != Canonical(es[k].value, le)
    ensures WellFormed(JObject(es[k := Entry(es[k].key, w)]))
    ensures Meaning(JObject(es[k := Entry(es[k].key, w)])) == Meaning(JObject(es))
    ensures Canonical(JObject(es[k := Entry(es[k].key, w)]), le) != Canonical(JObject(es), le)
  {
    var fs := es[k := Entry(es[k].key, w)];
    SameMeaningOfEntries(es, fs);
    if Canonical(JObject(fs), le) == Canonical(JObject(es), le) {
      ObjectsShowChildren(es, fs, k, le);
    }
  }

  lemma ArraysShowChildren(xs: seq<Json>, ys: seq<Json>, k: nat, le: Order)
    requires k < |xs| && WellFormed(JArray(xs)) && WellFormed(JArray(ys))
    requires Canonical(JArray(xs), le) == Canonical(JArray(ys), le)
    ensures k < |ys| && Canonical(xs[k], le) == Canonical(ys[k], le)
  {
    var p, q := CanonicalItems(xs, le) + ([RBRACKET] + []), CanonicalItems(ys, le) + ([RBRACKET] + []);
    assert [LBRACKET] + p == Canonical(JArray(xs), le) && [LBRACKET] + q == Canonical(JArray(ys), le);
    Cancel([LBRACKET], p, q);
    ItemsUnambiguous(xs, ys, [], [], le);
    assert SamePrint(xs[k], ys[k], le);
  }

  lemma ChildBetraysArray(items: seq<Json>, k: nat, w: Json, le: Order)
    requires k < |items| && WellFormed(JArray(items)) && WellFormed(w)
    requires Meaning(w) == Meaning(items[k]) && Canonical(w, le) != Canonical(items[k], le)
    ensures WellFormed(JArray(items[k := w])) && Meaning(JArray(items[k := w])) == Meaning(JArray(items))
    ensures Canonical(JArray(items[k := w]), le) != Canonical(JArray(items), le)
  {
    var ys := items[k := w];
    forall x | 0 <= x < |items| ensures Meaning(items[x]) == Meaning(ys[x]) {}
    SameMeaningOfItems(items, ys);
    if Canonical(JArray(items), le) == Canonical(JArray(ys), le) {
      ArraysShowChildren(items, ys, k, le);
    }
  }

  lemma {:induction false} SameMeaningOfItems(xs: seq<Json>, ys: seq<Json>)
    requires |xs| == |ys| && forall i :: 0 <= i < |xs| ==> Meaning(xs[i]) == Meaning(ys[i])
    ensures MeaningOfItems(xs) == MeaningOfItems(ys)
  {
    if xs != [] { SameMeaningOfItems(xs[1..], ys[1..]); }
  }

  lemma {:induction false} TiesBetrayOrder(v: Json, le: Order) returns (w: Json)
    requires WellFormed(v) && !TieFree(v, le)
    ensures WellFormed(w) && Meaning(w) == Meaning(v) && Canonical(w, le) != Canonical(v, le)
  {
    if v.JArray? {
      var k :| 0 <= k < |v.items| && !TieFree(v.items[k], le);
      var x := TiesBetrayOrder(v.items[k], le);
      ChildBetraysArray(v.items, k, x, le);
      w := JArray(v.items[k := x]);
    } else if !NoTies(v.entries, le) {
      var fs := TiedKeysBetrayOrder(v.entries, le);
      w := JObject(fs);
    } else {
      var k :| 0 <= k < |v.entries| && !TieFree(v.entries[k].value, le);
      var x := TiesBetrayOrder(v.entries[k].value, le);
      ChildBetraysObject(v.entries, k, x, le);
      w := JObject(v.entries[k := Entry(v.entries[k].key, x)]);
    }
  }

  /** The text depends on the value alone exactly when no object in it has two keys that tie. */
  lemma OrderInsensitiveIffTieFree(v: Json, le: Order)
    requires WellFormed(v) && TotalPreorder(le)
    ensures TieFree(v, le) <==>
      forall w :: WellFormed(w) && Meaning(w) == Meaning(v) ==> Canonical(w, le) == Canonical(v, le)
  {
    if TieFree(v, le) {
      forall w | WellFormed(w) && Meaning(w) == Meaning(v) ensures Canonical(w, le) == Canonical(v, le) {
        TieFreePrintsAlike(v, w, le);
      }
    } else {
      var w := TiesBetrayOrder(v, le);
    }
  }

  // ---------------------------------------------------------------- a strict comparator

  /** Code-unit order: it agrees with localeCompare on every key the services print. */
  predicate CodeUnitLe(a: Text, b: Text) {
    a == [] || (b != [] && (a[0] < b[0] || (a[0] == b[0] && CodeUnitLe(a[1..], b[1..]))))
  }

  lemma {:induction false} CodeUnitTotal(a: Text, b: Text)
    ensures CodeUnitLe(a, b) || CodeUnitLe(b, a)
    ensures CodeUnitLe(a, b) && CodeUnitLe(b, a) ==> a == b
  {
    if a != [] && b != [] {
      CodeUnitTotal(a[1..], b[1..]);
      assert a == [a[0]] + a[1..] && b == [b[0]] + b[1..];
    }
  }

  lemma {:induction false} CodeUnitTransitive(a: Text, b: Text, c: Text)
    requires CodeUnitLe(a, b) && CodeUnitLe(b, c)
    ensures CodeUnitLe(a, c)
  {
    if a != [] && a[0] == b[0] == c[0] { CodeUnitTransitive(a[1..], b[1..], c[1..]); }
  }

  lemma CodeUnitPreorder()
    ensures TotalPreorder(CodeUnitLe)
  {
    forall a, b ensures CodeUnitLe(a, b) || CodeUnitLe(b, a) { CodeUnitTotal(a, b); }
    forall a, b, c | CodeUnitLe(a, b) && CodeUnitLe(b, c) ensures CodeUnitLe(a, c) { CodeUnitTransitive(a, b, c); }
  }

  // A comparator that ties no two different keys.
  ghost predicate Strict(le: Order) { TotalPreorder(le) && forall a, b :: le(a, b) && le(b, a) ==> a == b }

  lemma CodeUnitStrict()
    ensures Strict(CodeUnitLe)
  {
    CodeUnitPreorder();
    forall a, b | CodeUnitLe(a, b) && CodeUnitLe(b, a) ensures a == b { CodeUnitTotal(a, b); }
  }

  lemma {:induction false} StrictTieFree(v: Json, le: Order)
    requires Strict(le)
    ensures TieFree(v, le)
  {
    match v
    case JArray(items) =>
      forall i | 0 <= i < |items| ensures TieFree(items[i], le) { StrictTieFree(items[i], le); }
    case JObject(entries) =>
      forall i | 0 <= i < |entries| ensures TieFree(entries[i].value, le) { StrictTieFree(entries[i].value, le); }
    case _ =>
  }

  /** Under any strict comparator the text is the value: equal texts, equal values, both ways. */
  lemma CanonicalNamesValue(v: Json, w: Json, le: Order)
    requires WellFormed(v) && WellFormed(w) && Strict(le)
    ensures Canonical(v, le) == Canonical(w, le) <==> Meaning(v) == Meaning(w)
  {
    if Canonical(v, le) == Canonical(w, le) { CanonicalIsUnambiguous(v, w, le); }
    if Meaning(v) == Meaning(w) {
      StrictTieFree(v, le);
      TieFreePrintsAlike(v, w, le);
    }
  }

  // Objects with the same keys in the same places: equal values, equal fields.
  lemma SameFieldValues(es: seq<Entry>, fs: seq<Entry>, i: nat)
    requires i < |es| == |fs| && Distinct(es) && Distinct(fs) && es[i].key == fs[i].key
    requires Meaning(JObject(es)) == Meaning(JObject(fs))
    ensures Meaning(es[i].value) == Meaning(fs[i].value)
  {
    FieldAt(es, i);
    FieldAt(fs, i);
  }
}
