/** What the canonical text stands for: one text per value, up to the order of dictionary keys. */
module CanonicalForm {
  import opened Options
  import opened CanonicalJson
  import opened CanonicalJsonProofs
  import KeyedRows

  // ------------------------------------------------------------------------------- the order of keys

  lemma {:induction false} LessIsTotal(a: string, b: string)
    ensures Less(a, b) || a == b || Less(b, a)
    ensures !(Less(a, b) && Less(b, a)) && !Less(a, a)
  {
    if a != "" && b != "" && a[0] == b[0] {
      LessIsTotal(a[1..], b[1..]);
      assert a == [a[0]] + a[1..] && b == [b[0]] + b[1..];
    }
    if a != "" {
      LessIsTotal(a[1..], a[1..]);
    }
  }

  lemma {:induction false} LessIsTransitive(a: string, b: string, c: string)
    requires Less(a, b) && Less(b, c)
    ensures Less(a, c)
  {
    if a != "" && a[0] == b[0] == c[0] {
      LessIsTransitive(a[1..], b[1..], c[1..]);
    }
  }

  /** Strictly increasing keys. */
  ghost predicate Sorted(fields: seq<Field>) {
    forall i, j :: 0 <= i < j < |fields| ==> Less(fields[i].key, fields[j].key)
  }

  ghost predicate KeysDiffer(fields: seq<Field>) {
    forall i, j :: 0 <= i < j < |fields| ==> fields[i].key != fields[j].key
  }

  lemma KeysDifferIffDistinct(fields: seq<Field>)
    ensures KeysDiffer(fields) <==> DistinctKeys(fields)
  {
    var ks := KeyedRows.Keys(KeyOf, fields);
    assert forall i :: 0 <= i < |fields| ==> ks[i] == fields[i].key;
  }

  lemma SortedDiffer(fields: seq<Field>)
    requires Sorted(fields)
    ensures KeysDiffer(fields)
  {
    forall i, j | 0 <= i < j < |fields| ensures fields[i].key != fields[j].key {
      LessIsTotal(fields[i].key, fields[j].key);
    }
  }

  // ------------------------------------------------------------------------------- sorting

  lemma {:induction false} InsertHolds(f: Field, fields: seq<Field>)
    ensures |Insert(f, fields)| == |fields| + 1
    ensures forall g :: g in Insert(f, fields) <==> g == f || g in fields
  {
    if fields != [] {
      InsertHolds(f, fields[1..]);
      assert fields == [fields[0]] + fields[1..];
    }
  }

  lemma {:induction false} InsertSorts(f: Field, fields: seq<Field>)
    requires Sorted(fields) && forall g :: g in fields ==> g.key != f.key
    ensures Sorted(Insert(f, fields))
  {
    if fields != [] {
      LessIsTotal(f.key, fields[0].key);
      if Less(f.key, fields[0].key) {
        forall i | 0 < i < |fields| ensures Less(f.key, fields[i].key) {
          LessIsTransitive(f.key, fields[0].key, fields[i].key);
        }
      } else {
        var tail := fields[1..];
        assert forall g :: g in tail ==> g in fields;
        InsertSorts(f, tail);
        InsertHolds(f, tail);
        assert fields[0] in fields;
        forall i | 0 <= i < |Insert(f, tail)| ensures Less(fields[0].key, Insert(f, tail)[i].key) {
          assert Insert(f, tail)[i] in Insert(f, tail);
        }
      }
    }
  }

  lemma {:induction false} SortHolds(fields: seq<Field>)
    ensures |SortFields(fields)| == |fields| && forall g :: g in SortFields(fields) <==> g in fields
  {
    if fields != [] {
      SortHolds(fields[1..]);
      InsertHolds(fields[0], SortFields(fields[1..]));
      assert fields == [fields[0]] + fields[1..];
    }
  }

  lemma {:induction false} SortSorts(fields: seq<Field>)
    requires KeysDiffer(fields)
    ensures Sorted(SortFields(fields))
  {
    if fields != [] {
      SortSorts(fields[1..]);
      SortHolds(fields[1..]);
      InsertSorts(fields[0], SortFields(fields[1..]));
    }
  }

  lemma {:induction false} SortedStays(fields: seq<Field>)
    requires Sorted(fields)
    ensures SortFields(fields) == fields
  {
    if fields != [] {
      SortedStays(fields[1..]);
      assert fields == [fields[0]] + fields[1..];
    }
  }

  lemma TailHolds(a: seq<Field>)
    requires Sorted(a) && a != []
    ensures forall f :: f in a[1..] <==> f in a && f != a[0]
  {
    SortedDiffer(a);
    assert a == [a[0]] + a[1..];
    assert forall i :: 0 < i < |a| ==> a[0].key != a[i].key;
  }

  /** Sorted lists with the same fields are the same list. */
  lemma {:induction false} SortedUnique(a: seq<Field>, b: seq<Field>)
    requires Sorted(a) && Sorted(b) && |a| == |b| && forall f :: f in a <==> f in b
    ensures a == b
  {
    if a != [] {
      assert a[0] in b && b[0] in a;
      LessIsTotal(a[0].key, b[0].key);
      assert a == [a[0]] + a[1..] && b == [b[0]] + b[1..];
      TailHolds(a);
      TailHolds(b);
      SortedUnique(a[1..], b[1..]);
    }
  }

  // ------------------------------------------------------------------------------- well-formedness is kept

  lemma {:induction false} SortKeepsWellFormed(v: Json)
    requires WellFormed(v)
    ensures WellFormed(SortJson(v)) && (v.Obj? ==> Sorted(SortJson(v).fields))
  {
    match v {
      case Arr(items) =>
        forall i | 0 <= i < |items| ensures WellFormed(SortItems(items)[i]) {
          SortKeepsWellFormed(items[i]);
        }
      case Obj(fields) =>
        var mapped := SortValues(fields);
        forall i | 0 <= i < |fields| ensures WellFormed(mapped[i].value) {
          SortKeepsWellFormed(fields[i].value);
        }
        KeysDifferIffDistinct(fields);
        SortSorts(mapped);
        SortHolds(mapped);
        var sorted := SortFields(mapped);
        SortedDiffer(sorted);
        KeysDifferIffDistinct(sorted);
        forall i | 0 <= i < |sorted| ensures WellFormed(sorted[i].value) {
          assert sorted[i] in mapped;
        }
      case _ =>
    }
  }

  /** Sorting twice is sorting once: the canonical text of a sorted value is its own text. */
  lemma {:induction false} SortIsIdempotent(v: Json)
    requires WellFormed(v)
    ensures SortJson(SortJson(v)) == SortJson(v)
  {
    match v {
      case Arr(items) =>
        forall i | 0 <= i < |items| ensures SortJson(SortJson(items[i])) == SortJson(items[i]) {
          SortIsIdempotent(items[i]);
        }
        assert SortItems(SortItems(items)) == SortItems(items);
      case Obj(fields) =>
        var mapped := SortValues(fields);
        forall i | 0 <= i < |fields| ensures SortJson(mapped[i].value) == mapped[i].value {
          SortIsIdempotent(fields[i].value);
        }
        var sorted := SortFields(mapped);
        SortHolds(mapped);
        forall i | 0 <= i < |sorted| ensures SortJson(sorted[i].value) == sorted[i].value {
          assert sorted[i] in mapped;
        }
        assert SortValues(sorted) == sorted;
        SortKeepsWellFormed(v);
        SortedStays(sorted);
      case _ =>
    }
  }

  // ------------------------------------------------------------------------------- the round trip

  /** Reading the canonical text gives the sorted value, and printing that again gives the same text. */
  lemma CanonicalRoundTrip(v: Json)
    requires WellFormed(v)
    ensures Loads(Canonicalize(v)) == Some(SortJson(v))
    ensures Canonicalize(SortJson(v)) == Canonicalize(v)
  {
    SortKeepsWellFormed(v);
    SortIsIdempotent(v);
    ValueReadsBack(SortJson(v), "");
    assert Canonicalize(v) + "" == Canonicalize(v);
  }

  // ------------------------------------------------------------------------------- equal values

  /** Equality of Python values: arrays in order, dictionaries whatever the order of their keys. */
  ghost predicate SameValue(v: Json, w: Json) {
    match (v, w)
    case (Arr(a), Arr(b)) => |a| == |b| && forall i :: 0 <= i < |a| ==> SameValue(a[i], b[i])
    case (Obj(a), Obj(b)) => |a| == |b| && forall i :: 0 <= i < |a| ==> HasField(a[i], b)
    case _ => v == w
  }

  ghost predicate HasField(f: Field, fields: seq<Field>)
    decreases f
  {
    exists j :: 0 <= j < |fields| && f.key == fields[j].key && SameValue(f.value, fields[j].value)
  }

  lemma DistinctSet(fields: seq<Field>) returns (s: set<Field>)
    requires KeysDiffer(fields)
    ensures |s| == |fields| && forall f :: f in s <==> f in fields
  {
    if fields == [] {
      s := {};
    } else {
      s := DistinctSet(fields[1..]);
      assert fields == [fields[0]] + fields[1..];
      assert fields[0] !in s;
      s := s + {fields[0]};
    }
  }

  lemma SubsetOfSameSize<T>(a: set<T>, b: set<T>)
    requires a <= b && |a| == |b|
    ensures a == b
  {
    assert b == a + (b - a);
    assert |b - a| == 0;
  }

  lemma SameFields(a: seq<Field>, b: seq<Field>)
    requires KeysDiffer(a) && KeysDiffer(b) && |a| == |b| && forall f :: f in a ==> f in b
    ensures forall f :: f in a <==> f in b
  {
    var sa := DistinctSet(a);
    var sb := DistinctSet(b);
    SubsetOfSameSize(sa, sb);
  }

  /** Sorting identifies exactly the equal values. */
  lemma {:induction false} SortedIffSame(v: Json, w: Json)
    requires WellFormed(v) && WellFormed(w)
    ensures SortJson(v) == SortJson(w) <==> SameValue(v, w)
  {
    match (v, w) {
      case (Arr(a), Arr(b)) =>
        ArraysSame(a, b);
      case (Obj(a), Obj(b)) =>
        ObjectsSame(a, b);
      case _ =>
    }
  }

  lemma {:induction false} ArraysSame(a: seq<Json>, b: seq<Json>)
    requires WellFormed(Arr(a)) && WellFormed(Arr(b))
    ensures SortItems(a) == SortItems(b) <==> SameValue(Arr(a), Arr(b))
    decreases a
  {
    if |a| == |b| {
      forall i | 0 <= i < |a| ensures SortItems(a)[i] == SortItems(b)[i] <==> SameValue(a[i], b[i]) {
        SortedIffSame(a[i], b[i]);
      }
    }
  }

  lemma {:induction false} FieldIsIn(f: Field, b: seq<Field>)
    requires WellFormed(f.value) && WellFormed(Obj(b))
    ensures Field(f.key, SortJson(f.value)) in SortValues(b) <==> HasField(f, b)
    decreases f
  {
    forall j | 0 <= j < |b|
      ensures Field(f.key, SortJson(f.value)) == SortValues(b)[j]
              <==> f.key == b[j].key && SameValue(f.value, b[j].value)
    {
      SortedIffSame(f.value, b[j].value);
    }
  }

  lemma {:induction false} ObjectsSame(a: seq<Field>, b: seq<Field>)
    requires WellFormed(Obj(a)) && WellFormed(Obj(b))
    ensures SortJson(Obj(a)) == SortJson(Obj(b)) <==> SameValue(Obj(a), Obj(b))
    decreases a
  {
    var a', b' := SortValues(a), SortValues(b);
    forall i | 0 <= i < |a| ensures a'[i] in b' <==> HasField(a[i], b) {
      FieldIsIn(a[i], b);
    }
    KeysDifferIffDistinct(a);
    KeysDifferIffDistinct(b);
    SortHolds(a');
    SortHolds(b');
    assert SortFields(a') == SortFields(b') ==> forall i :: 0 <= i < |a| ==> a'[i] in b';
    if SameValue(Obj(a), Obj(b)) {
      SameFields(a', b');
      SortSorts(a');
      SortSorts(b');
      SortedUnique(SortFields(a'), SortFields(b'));
    }
  }

  /** The printer is unambiguous: two values share a canonical text exactly when they are equal. */
  lemma CanonicalIffSame(v: Json, w: Json)
    requires WellFormed(v) && WellFormed(w)
    ensures Canonicalize(v) == Canonicalize(w) <==> SameValue(v, w)
  {
    CanonicalRoundTrip(v);
    CanonicalRoundTrip(w);
    SortedIffSame(v, w);
  }

  // ------------------------------------------------------------------------------- what is read is a value

  lemma {:induction false} CollectedIsRead(fields: seq<Field>)
    ensures forall f :: f in KeyedRows.Collect(KeyOf, LastWins, fields) ==> f in fields
  {
    if fields != [] {
      CollectedIsRead(fields[..|fields| - 1]);
    }
  }

  lemma CollectedWellFormed(fields: seq<Field>)
    requires forall i :: 0 <= i < |fields| ==> WellFormed(fields[i].value)
    ensures WellFormed(Obj(KeyedRows.Collect(KeyOf, LastWins, fields)))
  {
    var out := KeyedRows.Collect(KeyOf, LastWins, fields);
    KeyedRows.CollectMerges(KeyOf, LastWins, fields);
    CollectedIsRead(fields);
    forall i | 0 <= i < |out| ensures WellFormed(out[i].value) {
      assert out[i] in fields;
    }
  }

  lemma {:induction false} ReadIsWellFormed(s: string)
    ensures ReadValue(s).Some? ==> WellFormed(ReadValue(s).value.0)
    decreases |s|, 1
  {
    TokenIsWellFormed(SkipWhitespace(s));
  }

  lemma {:induction false} TokenIsWellFormed(s: string)
    ensures ReadToken(s).Some? ==> WellFormed(ReadToken(s).value.0)
    decreases |s|, 0
  {
    if s != "" && s[0] == '[' {
      ItemsAreWellFormed(SkipWhitespace(s[1..]));
    } else if s != "" && s[0] == '{' {
      var t := SkipWhitespace(s[1..]);
      FieldsAreWellFormed(t);
      if ReadFields(t).Some? {
        CollectedWellFormed(ReadFields(t).value.0);
      }
    }
  }

  lemma {:induction false} ItemsAreWellFormed(s: string)
    ensures ReadItems(s).Some? ==>
              forall i :: 0 <= i < |ReadItems(s).value.0| ==> WellFormed(ReadItems(s).value.0[i])
    decreases |s|, 2
  {
    ReadIsWellFormed(s);
    if ReadItems(s).Some? {
      var next := SkipWhitespace(ReadValue(s).value.1);
      if next[0] == ',' {
        ItemsAreWellFormed(next[1..]);
      }
    }
  }

  lemma {:induction false} FieldIsWellFormed(s: string)
    ensures ReadField(s).Some? ==> WellFormed(ReadField(s).value.0.value)
    decreases |s|, 2
  {
    if ReadField(s).Some? {
      ReadIsWellFormed(SkipWhitespace(ReadString(s[1..]).value.1)[1..]);
    }
  }

  lemma {:induction false} FieldsAreWellFormed(s: string)
    ensures ReadFields(s).Some? ==>
              forall i :: 0 <= i < |ReadFields(s).value.0| ==> WellFormed(ReadFields(s).value.0[i].value)
    decreases |s|, 3
  {
    FieldIsWellFormed(s);
    if ReadFields(s).Some? {
      var next := SkipWhitespace(ReadField(s).value.1);
      if next[0] == ',' {
        FieldsAreWellFormed(SkipWhitespace(next[1..]));
      }
    }
  }

  /** The check `payload_text != canonical_payload` on text that parses. */
  predicate IsCanonical(text: string) {
    Loads(text).Some? && Canonicalize(Loads(text).value) == text
  }

  ghost predicate IsCanonicalTextOf(text: string, v: Json) {
    WellFormed(v) && text == Canonicalize(v)
  }

  /** The check accepts exactly the texts the printer produces. */
  lemma CanonicalIffPrinted(text: string)
    ensures IsCanonical(text) <==> exists v :: IsCanonicalTextOf(text, v)
  {
    if Loads(text).Some? {
      ReadIsWellFormed(text);
      assert IsCanonical(text) ==> IsCanonicalTextOf(text, Loads(text).value);
    }
    forall v | IsCanonicalTextOf(text, v) ensures IsCanonical(text) {
      CanonicalRoundTrip(v);
    }
  }

  // ------------------------------------------------------------------------------- no line breaks

  predicate NoControls(s: string) {
    forall i :: 0 <= i < |s| ==> s[i] >= ' '
  }

  lemma {:induction false} EscapeHasNoControls(s: string)
    ensures NoControls(Escape(s))
  {
    if s != "" {
      EscapeHasNoControls(s[1..]);
    }
  }

  lemma {:induction false} NatHasNoControls(n: nat)
    ensures NoControls(PrintNat(n))
  {
    if n >= 10 {
      NatHasNoControls(n / 10);
    }
  }

  /** A canonical text has no line break, whatever the strings in it. */
  lemma {:induction false} PrintHasNoControls(v: Json)
    ensures NoControls(Print(v))
    decreases v, 2
  {
    match v {
      case Int(n) => NatHasNoControls(if n < 0 then -n else n);
      case Str(s) => EscapeHasNoControls(s);
      case Arr(items) => ItemsHaveNoControls(items);
      case Obj(fields) => FieldsHaveNoControls(fields);
      case _ =>
    }
  }

  lemma {:induction false} ItemsHaveNoControls(items: seq<Json>)
    ensures NoControls(PrintItems(items))
    decreases items, 1
  {
    if items != [] {
      PrintHasNoControls(items[0]);
      ItemsHaveNoControls(items[1..]);
    }
  }

  lemma {:induction false} FieldsHaveNoControls(fields: seq<Field>)
    ensures NoControls(PrintFields(fields))
    decreases fields, 1
  {
    if fields != [] {
      EscapeHasNoControls(fields[0].key);
      PrintHasNoControls(fields[0].value);
      assert NoControls(PrintField(fields[0]));
      FieldsHaveNoControls(fields[1..]);
    }
  }
}
