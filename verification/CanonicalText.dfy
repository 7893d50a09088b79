/** Which of the texts that a reader takes for a value the printer chooses: keys in the order of code points, nothing
    escaped that need not be, numbers without a superfluous digit or sign, and no space between tokens. */
module CanonicalText {
  import opened CanonicalJson

  /** At the first place where two strings differ, the lesser has the lesser code point, or has ended. */
  ghost predicate DiffersAt(a: string, b: string, i: nat) {
    i <= |a| && i < |b| && a[..i] == b[..i] && (i == |a| || a[i] as int < b[i] as int)
  }

  lemma DiffersLater(a: string, b: string, i: nat)
    requires a != "" && b != "" && a[0] == b[0] && DiffersAt(a[1..], b[1..], i)
    ensures DiffersAt(a, b, i + 1)
  {
    assert a == [a[0]] + a[1..] && b == [b[0]] + b[1..];
    assert a[..i + 1] == [a[0]] + a[1..][..i] && b[..i + 1] == [b[0]] + b[1..][..i];
  }

  lemma DiffersSooner(a: string, b: string, i: nat)
    requires 0 < i && DiffersAt(a, b, i)
    ensures a[0] == b[0] && DiffersAt(a[1..], b[1..], i - 1)
  {
    assert a[0] == a[..i][0] == b[..i][0] == b[0];
    assert a[1..][..i - 1] == a[..i][1..] && b[1..][..i - 1] == b[..i][1..];
  }

  lemma {:induction false} LessIff(a: string, b: string)
    ensures Less(a, b) <==> exists i :: DiffersAt(a, b, i)
  {
    if a != "" && b != "" && a[0] == b[0] {
      LessIff(a[1..], b[1..]);
      if i :| DiffersAt(a[1..], b[1..], i) {
        DiffersLater(a, b, i);
      }
      if i :| DiffersAt(a, b, i) {
        assert i != 0;
        DiffersSooner(a, b, i);
      }
    } else {
      if Less(a, b) {
        assert DiffersAt(a, b, 0);
      }
      if i :| DiffersAt(a, b, i) {
        if 0 < i {
          DiffersSooner(a, b, i);
        }
      }
    }
  }

  // ------------------------------------------------------------------------------- escapes and digits

  /** Only quotes, backslashes and control characters are escaped; seven of them have a letter or themselves, and the
      others the four digits of their code, in lower case. */
  lemma EscapedIffNeeded(c: char)
    ensures EscapeChar(c) == [c] <==> 32 <= c as int && c != '"' && c != '\\'
    ensures c as int < 32 || c == '"' || c == '\\' ==> |EscapeChar(c)| > 1 && EscapeChar(c)[0] == '\\'
    ensures EscapeChar('"') == "\\\"" && EscapeChar('\\') == "\\\\" && EscapeChar('\U{8}') == "\\b"
    ensures EscapeChar('\U{9}') == "\\t" && EscapeChar('\U{a}') == "\\n" && EscapeChar('\U{c}') == "\\f"
    ensures EscapeChar('\U{d}') == "\\r"
    ensures |EscapeChar(c)| > 2 ==> EscapeChar(c)[..4] == "\\u00" && |EscapeChar(c)| == 6
    ensures forall i :: 0 <= i < |EscapeChar(c)| && 'A' <= EscapeChar(c)[i] <= 'F' ==> EscapeChar(c) == [c]
  {
  }

  lemma {:induction false} NoLeadingZero(n: nat)
    ensures PrintNat(n) != "" && (forall i :: 0 <= i < |PrintNat(n)| ==> '0' <= PrintNat(n)[i] <= '9')
    ensures PrintNat(n)[0] == '0' <==> n == 0
  {
    if 10 <= n {
      NoLeadingZero(n / 10);
    }
  }

  /** A sign exactly when the number is negative, and digits, the first of which is zero only for zero. */
  lemma NumberIsShortest(n: int)
    ensures PrintInt(n) != "" && (PrintInt(n)[0] == '-' <==> n < 0) && (PrintInt(n)[0] == '0' <==> n == 0)
    ensures n < 0 ==> |PrintInt(n)| > 1 && PrintInt(n)[1] != '0'
    ensures n == 0 ==> PrintInt(n) == "0"
  {
    NoLeadingZero(if n < 0 then -n else n);
  }

  // ------------------------------------------------------------------------------- spaces

  function Spaces(s: string): nat {
    if s == "" then 0 else (if s[0] == ' ' then 1 else 0) + Spaces(s[1..])
  }

  /** The spaces in the strings and keys of a value. */
  function SpacesIn(v: Json): nat {
    match v
    case Str(s) => Spaces(s)
    case Arr(items) => SpacesInItems(items)
    case Obj(fields) => SpacesInFields(fields)
    case _ => 0
  }

  function SpacesInItems(items: seq<Json>): nat {
    if items == [] then 0 else SpacesIn(items[0]) + SpacesInItems(items[1..])
  }

  function SpacesInFields(fields: seq<Field>): nat {
    if fields == [] then 0 else Spaces(fields[0].key) + SpacesIn(fields[0].value) + SpacesInFields(fields[1..])
  }

  lemma {:induction false} SpacesOfBoth(a: string, b: string)
    ensures Spaces(a + b) == Spaces(a) + Spaces(b)
  {
    if a == "" {
      assert a + b == b;
    } else {
      assert (a + b)[1..] == a[1..] + b;
      SpacesOfBoth(a[1..], b);
    }
  }

  lemma {:induction false} NoSpaces(s: string)
    requires forall i :: 0 <= i < |s| ==> s[i] != ' '
    ensures Spaces(s) == 0
  {
    if s != "" {
      NoSpaces(s[1..]);
    }
  }

  lemma EscapeKeepsSpace(c: char)
    ensures Spaces(EscapeChar(c)) == if c == ' ' then 1 else 0
  {
    if c == ' ' {
      assert EscapeChar(c) == [c] && [c][1..] == "";
    } else {
      NoSpaces(EscapeChar(c));
    }
  }

  lemma {:induction false} StringKeepsSpaces(s: string)
    ensures Spaces(Escape(s)) == Spaces(s)
  {
    if s != "" {
      EscapeKeepsSpace(s[0]);
      SpacesOfBoth(EscapeChar(s[0]), Escape(s[1..]));
      StringKeepsSpaces(s[1..]);
    }
  }

  lemma QuotedKeepsSpaces(s: string)
    ensures Spaces(PrintString(s)) == Spaces(s)
  {
    StringKeepsSpaces(s);
    NoSpaces(['"']);
    SpacesOfBoth(Escape(s), ['"']);
    SpacesOfBoth(['"'], Escape(s) + ['"']);
  }

  lemma SpacesBetween(a: string, c: char, b: string)
    requires c != ' '
    ensures Spaces(a + ([c] + b)) == Spaces(a) + Spaces(b)
  {
    NoSpaces([c]);
    SpacesOfBoth([c], b);
    SpacesOfBoth(a, [c] + b);
  }

  lemma SpacesWithin(open: char, inside: string, close: char)
    requires open != ' ' && close != ' '
    ensures Spaces([open] + inside + [close]) == Spaces(inside)
  {
    NoSpaces([open]);
    NoSpaces([close]);
    SpacesOfBoth([open], inside);
    SpacesOfBoth([open] + inside, [close]);
  }

  lemma IntHasNoSpace(n: int)
    ensures Spaces(PrintInt(n)) == 0
  {
    NoLeadingZero(if n < 0 then -n else n);
    NoSpaces(PrintInt(n));
  }

  /** A printed value has exactly the spaces of its strings: none is printed between tokens, and none is escaped. */
  lemma {:induction false} PrintKeepsSpaces(v: Json)
    ensures Spaces(Print(v)) == SpacesIn(v)
    decreases v, 0
  {
    match v
    case Int(n) => IntHasNoSpace(n);
    case Str(s) => QuotedKeepsSpaces(s);
    case Arr(items) =>
      ItemsKeepSpaces(items);
      SpacesWithin('[', PrintItems(items), ']');
    case Obj(fields) =>
      FieldsKeepSpaces(fields);
      SpacesWithin('{', PrintFields(fields), '}');
    case _ => NoSpaces(Print(v));
  }

  lemma {:induction false} ItemsKeepSpaces(items: seq<Json>)
    ensures Spaces(PrintItems(items)) == SpacesInItems(items)
    decreases items, 0
  {
    if items != [] {
      PrintKeepsSpaces(items[0]);
      ItemsKeepSpaces(items[1..]);
      if |items| > 1 {
        SpacesBetween(Print(items[0]), ',', PrintItems(items[1..]));
      }
    }
  }

  lemma FieldKeepsSpaces(f: Field)
    requires Spaces(Print(f.value)) == SpacesIn(f.value)
    ensures Spaces(PrintField(f)) == Spaces(f.key) + SpacesIn(f.value)
  {
    QuotedKeepsSpaces(f.key);
    SpacesBetween(PrintString(f.key), ':', Print(f.value));
  }

  lemma {:induction false} FieldsKeepSpaces(fields: seq<Field>)
    ensures Spaces(PrintFields(fields)) == SpacesInFields(fields)
    decreases fields, 0
  {
    if fields != [] {
      PrintKeepsSpaces(fields[0].value);
      FieldKeepsSpaces(fields[0]);
      FieldsKeepSpaces(fields[1..]);
      if |fields| > 1 {
        SpacesBetween(PrintField(fields[0]), ',', PrintFields(fields[1..]));
      }
    }
  }
}
