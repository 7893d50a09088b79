/** The canonical text is read back to the sorted value, and it determines the value. */
module CanonicalJsonProofs {
  import opened Options
  import opened CanonicalJson
  import KeyedRows

  predicate NoDigitFirst(rest: string) {
    rest != "" ==> !IsDigit(rest[0])
  }

  lemma Regroup(a: string, b: string, c: string)
    ensures a + b + c == a + (b + c)
  {
  }

  // ------------------------------------------------------------------------------- strings

  lemma CharReadsBack(c: char, rest: string)
    ensures EscapeChar(c) != "" && EscapeChar(c)[0] != '"'
    ensures ReadChar(EscapeChar(c) + rest) == Some((c, rest))
  {
    var text := EscapeChar(c) + rest;
    if |EscapeChar(c)| == 6 {
      var hex := ['0', '0', HexDigit(c as int / 16), HexDigit(c as int % 16)] + rest;
      assert text[1..] == ['u'] + hex && (['u'] + hex)[1..] == hex;
      assert Hex4(hex) == Some(c as int);
      assert hex[4..] == rest;
    } else if |EscapeChar(c)| == 2 {
      assert text[1..] == [EscapeChar(c)[1]] + rest;
      assert text[1..][1..] == rest;
    } else {
      assert text[1..] == rest;
    }
  }

  lemma {:induction false} StringReadsBack(s: string, rest: string)
    ensures ReadString(Escape(s) + (['"'] + rest)) == Some((s, rest))
  {
    var end := ['"'] + rest;
    if s == "" {
      assert Escape(s) + end == end && end[1..] == rest;
    } else {
      var tail := Escape(s[1..]) + end;
      Regroup(EscapeChar(s[0]), Escape(s[1..]), end);
      assert Escape(s) + end == EscapeChar(s[0]) + tail;
      CharReadsBack(s[0], tail);
      StringReadsBack(s[1..], rest);
      assert [s[0]] + s[1..] == s;
    }
  }

  // ------------------------------------------------------------------------------- integers

  lemma {:induction false} DigitsOf(n: nat)
    ensures var ds := PrintNat(n);
            && ds != "" && (forall i :: 0 <= i < |ds| ==> IsDigit(ds[i])) && DigitsValue(ds) == n
            && (ds[0] == '0' ==> n == 0 && ds == ['0'])
  {
    if n >= 10 {
      DigitsOf(n / 10);
      var ds := PrintNat(n);
      assert ds[..|ds| - 1] == PrintNat(n / 10);
    }
  }

  lemma {:induction false} DigitsThen(ds: string, rest: string)
    requires (forall i :: 0 <= i < |ds| ==> IsDigit(ds[i])) && NoDigitFirst(rest)
    ensures ReadDigits(ds + rest) == (ds, rest)
  {
    if ds == "" {
      assert ds + rest == rest;
    } else {
      assert (ds + rest)[1..] == ds[1..] + rest && [ds[0]] + ds[1..] == ds;
      DigitsThen(ds[1..], rest);
    }
  }

  lemma NatReadsBack(n: nat, rest: string)
    requires NoDigitFirst(rest)
    ensures ReadNat(PrintNat(n) + rest) == Some((n, rest))
    ensures PrintNat(n) != "" && IsDigit(PrintNat(n)[0])
  {
    DigitsOf(n);
    var digits := PrintNat(n);
    assert IsDigit(digits[0]);
    var text := digits + rest;
    if digits[0] == '0' {
      assert text[1..] == rest;
    } else {
      DigitsThen(PrintNat(n), rest);
    }
  }

  lemma MinusRead(digits: string, k: nat, rest: string)
    requires ReadNat(digits) == Some((k, rest))
    ensures ReadInt(['-'] + digits) == Some((Int(0 - k), rest))
  {
    assert (['-'] + digits)[1..] == digits;
  }

  lemma PrintIntStarts(n: int)
    ensures PrintInt(n) != "" && (PrintInt(n)[0] == '-' || IsDigit(PrintInt(n)[0]))
  {
    NatReadsBack(if n < 0 then -n else n, "");
  }

  lemma IntReadsBack(n: int, rest: string)
    requires NoDigitFirst(rest)
    ensures ReadInt(PrintInt(n) + rest) == Some((Int(n), rest))
  {
    if n < 0 {
      NatReadsBack(-n, rest);
      MinusRead(PrintNat(-n) + rest, -n, rest);
      Regroup(['-'], PrintNat(-n), rest);
    } else {
      NatReadsBack(n, rest);
    }
  }

  // ------------------------------------------------------------------------------- values

  predicate StartsToken(s: string) {
    s != "" && !IsWhitespace(s[0]) && s[0] != ']' && s[0] != '}'
  }

  lemma PrintStarts(v: Json)
    ensures StartsToken(Print(v))
  {
    if v.Int? {
      PrintIntStarts(v.n);
    }
  }

  lemma StrReadsBack(s: string, rest: string)
    ensures ReadToken(PrintString(s) + rest) == Some((Str(s), rest))
  {
    var inside := Escape(s) + (['"'] + rest);
    Regroup(Escape(s), ['"'], rest);
    Regroup(['"'], Escape(s) + ['"'], rest);
    assert PrintString(s) + rest == ['"'] + inside && (['"'] + inside)[1..] == inside;
    StringReadsBack(s, rest);
  }

  lemma NumberReadsBack(n: int, rest: string)
    requires NoDigitFirst(rest)
    ensures ReadToken(PrintInt(n) + rest) == Some((Int(n), rest))
  {
    IntReadsBack(n, rest);
    PrintIntStarts(n);
    var text := PrintInt(n) + rest;
    assert text[0] == PrintInt(n)[0];
    assert ReadWord(text) == ReadInt(text);
  }

  lemma {:induction false} ValueReadsBack(v: Json, rest: string)
    requires WellFormed(v) && NoDigitFirst(rest)
    ensures ReadValue(Print(v) + rest) == Some((v, rest))
    decreases v, 1
  {
    PrintStarts(v);
    var text := Print(v) + rest;
    assert SkipWhitespace(text) == text;
    match v {
      case Str(s) =>
        StrReadsBack(s, rest);
      case Arr(items) =>
        assert text == ['['] + (PrintItems(items) + ([']'] + rest));
        ArrayReadsBack(v, rest);
      case Obj(fields) =>
        assert text == ['{'] + (PrintFields(fields) + (['}'] + rest));
        ObjectReadsBack(v, rest);
      case Int(n) =>
        NumberReadsBack(n, rest);
      case _ =>
        WordReadsBack(v, rest);
    }
  }

  lemma WordReadsBack(v: Json, rest: string)
    requires v.Null? || v.Bool?
    ensures ReadToken(Print(v) + rest) == Some((v, rest))
  {
    var text := Print(v) + rest;
    assert text[..|Print(v)|] == Print(v) && text[|Print(v)|..] == rest;
    assert text[0] == Print(v)[0];
  }

  lemma {:induction false} ArrayReadsBack(v: Json, rest: string)
    requires WellFormed(v) && v.Arr?
    ensures ReadToken(['['] + (PrintItems(v.items) + ([']'] + rest))) == Some((v, rest))
    decreases v, 0
  {
    var end := [']'] + rest;
    if v.items == [] {
      assert PrintItems(v.items) + end == end;
      assert (['['] + end)[1..] == end && end[1..] == rest;
    } else {
      var inside := PrintItems(v.items) + end;
      ItemsReadBack(v.items, rest);
      PrintStarts(v.items[0]);
      assert inside[0] == Print(v.items[0])[0];
      assert (['['] + inside)[1..] == inside;
    }
  }

  lemma ItemsRead(text: string, v: Json, tail: string, items: seq<Json>, rest: string)
    requires ReadValue(text) == Some((v, [','] + tail)) && ReadItems(tail) == Some((items, rest))
    ensures ReadItems(text) == Some(([v] + items, rest))
  {
    assert ([','] + tail)[1..] == tail;
  }

  lemma {:induction false} ItemsReadBack(items: seq<Json>, rest: string)
    requires items != [] && forall i :: 0 <= i < |items| ==> WellFormed(items[i])
    ensures ReadItems(PrintItems(items) + ([']'] + rest)) == Some((items, rest))
    decreases items, 2
  {
    var end := [']'] + rest;
    if |items| == 1 {
      ValueReadsBack(items[0], end);
      assert end[1..] == rest && [items[0]] == items;
    } else {
      var tail := PrintItems(items[1..]) + end;
      ValueReadsBack(items[0], [','] + tail);
      ItemsReadBack(items[1..], rest);
      Regroup([','], PrintItems(items[1..]), end);
      Regroup(Print(items[0]), [','] + PrintItems(items[1..]), end);
      ItemsRead(PrintItems(items) + end, items[0], tail, items[1..], rest);
      assert [items[0]] + items[1..] == items;
    }
  }

  lemma FieldStarts(f: Field, rest: string)
    ensures PrintField(f) + rest == ['"'] + (Escape(f.key) + (['"'] + ([':'] + (Print(f.value) + rest))))
  {
    var value := Print(f.value);
    Regroup([':'], value, rest);
    Regroup(Escape(f.key), ['"'], [':'] + value + rest);
    Regroup(PrintString(f.key), [':'] + value, rest);
  }

  lemma FieldsStart(fields: seq<Field>, end: string)
    requires fields != []
    ensures PrintFields(fields) + end != "" && (PrintFields(fields) + end)[0] == '"'
  {
    assert PrintField(fields[0])[0] == '"';
  }

  /** An object's text, read through its fields. */
  lemma ObjectRead(inside: string, fields: seq<Field>, rest: string)
    requires inside != "" && inside[0] == '"' && ReadFields(inside) == Some((fields, rest)) && DistinctKeys(fields)
    ensures ReadToken(['{'] + inside) == Some((Obj(fields), rest))
  {
    assert (['{'] + inside)[1..] == inside;
    KeyedRows.DistinctStays(KeyOf, LastWins, fields);
  }

  lemma {:induction false} ObjectReadsBack(v: Json, rest: string)
    requires WellFormed(v) && v.Obj?
    ensures ReadToken(['{'] + (PrintFields(v.fields) + (['}'] + rest))) == Some((v, rest))
    decreases v, 0
  {
    var end := ['}'] + rest;
    if v.fields == [] {
      assert PrintFields(v.fields) + end == end;
      assert (['{'] + end)[1..] == end && end[1..] == rest;
    } else {
      FieldsReadBack(v.fields, rest);
      FieldsStart(v.fields, end);
      ObjectRead(PrintFields(v.fields) + end, v.fields, rest);
    }
  }

  lemma FieldRead(f: Field, value: string, rest: string)
    requires ReadValue(value) == Some((f.value, rest))
    ensures ReadField(['"'] + (Escape(f.key) + (['"'] + ([':'] + value)))) == Some((f, rest))
  {
    var after := [':'] + value;
    assert after[1..] == value;
    var inside := Escape(f.key) + (['"'] + after);
    assert (['"'] + inside)[1..] == inside;
    StringReadsBack(f.key, after);
  }

  lemma {:induction false} FieldReadsBack(f: Field, rest: string)
    requires WellFormed(f.value) && NoDigitFirst(rest)
    ensures ReadField(PrintField(f) + rest) == Some((f, rest))
    decreases f, 2
  {
    ValueReadsBack(f.value, rest);
    FieldRead(f, Print(f.value) + rest, rest);
    FieldStarts(f, rest);
  }

  lemma FieldsRead(text: string, f: Field, tail: string, fields: seq<Field>, rest: string)
    requires ReadField(text) == Some((f, [','] + tail)) && tail != "" && tail[0] == '"'
    requires ReadFields(tail) == Some((fields, rest))
    ensures ReadFields(text) == Some(([f] + fields, rest))
  {
    assert ([','] + tail)[1..] == tail;
  }

  lemma {:induction false} FieldsReadBack(fields: seq<Field>, rest: string)
    requires fields != [] && forall i :: 0 <= i < |fields| ==> WellFormed(fields[i].value)
    ensures ReadFields(PrintFields(fields) + (['}'] + rest)) == Some((fields, rest))
    decreases fields, 3
  {
    var end := ['}'] + rest;
    if |fields| == 1 {
      FieldReadsBack(fields[0], end);
      assert end[1..] == rest && [fields[0]] == fields;
    } else {
      var tail := PrintFields(fields[1..]) + end;
      FieldReadsBack(fields[0], [','] + tail);
      FieldsReadBack(fields[1..], rest);
      FieldsStart(fields[1..], end);
      Regroup([','], PrintFields(fields[1..]), end);
      Regroup(PrintField(fields[0]), [','] + PrintFields(fields[1..]), end);
      FieldsRead(PrintFields(fields) + end, fields[0], tail, fields[1..], rest);
      assert [fields[0]] + fields[1..] == fields;
    }
  }
}
