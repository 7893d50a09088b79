/** The canonical JSON of worker/app/license.py: keys sorted by code point, no spaces, characters left unescaped where
    RFC 8259 allows it; and a reader of RFC 8259 that undoes it. Numbers are integers. */
module CanonicalJson {
  import opened Options
  import KeyedRows

  datatype Json =
    | Null
    | Bool(b: bool)
    | Int(n: int)
    | Str(s: string)
    | Arr(items: seq<Json>)
    | Obj(fields: seq<Field>)

  datatype Field = Field(key: string, value: Json)

  function KeyOf(f: Field): string {
    f.key
  }

  function LastWins(first: Field, second: Field): Field {
    second
  }

  predicate DistinctKeys(fields: seq<Field>) {
    KeyedRows.Distinct(KeyedRows.Keys(KeyOf, fields))
  }

  /** A value Python can hold: no dictionary repeats a key. */
  predicate WellFormed(v: Json) {
    match v
    case Arr(items) => forall i :: 0 <= i < |items| ==> WellFormed(items[i])
    case Obj(fields) => DistinctKeys(fields) && forall i :: 0 <= i < |fields| ==> WellFormed(fields[i].value)
    case _ => true
  }

  // ------------------------------------------------------------------------------- sorting

  /** Strings by code point, as `sorted` compares them. */
  predicate Less(a: string, b: string) {
    b != "" && (a == "" || a[0] < b[0] || (a[0] == b[0] && Less(a[1..], b[1..])))
  }

  function Insert(f: Field, fields: seq<Field>): seq<Field> {
    if fields == [] || Less(f.key, fields[0].key) then [f] + fields else [fields[0]] + Insert(f, fields[1..])
  }

  function SortFields(fields: seq<Field>): seq<Field> {
    if fields == [] then [] else Insert(fields[0], SortFields(fields[1..]))
  }

  /** `_sort_json_value` */
  function SortJson(v: Json): Json {
    match v
    case Arr(items) => Arr(SortItems(items))
    case Obj(fields) => Obj(SortFields(SortValues(fields)))
    case _ => v
  }

  function SortItems(items: seq<Json>): (r: seq<Json>)
    ensures |r| == |items| && forall i :: 0 <= i < |items| ==> r[i] == SortJson(items[i])
  {
    if items == [] then [] else [SortJson(items[0])] + SortItems(items[1..])
  }

  function SortValues(fields: seq<Field>): (r: seq<Field>)
    ensures |r| == |fields|
    ensures forall i :: 0 <= i < |fields| ==> r[i] == Field(fields[i].key, SortJson(fields[i].value))
  {
    if fields == [] then [] else [Field(fields[0].key, SortJson(fields[0].value))] + SortValues(fields[1..])
  }

  // ------------------------------------------------------------------------------- printing

  function HexDigit(d: nat): char
    requires d < 16
  {
    if d < 10 then ('0' as int + d) as char else ('a' as int + d - 10) as char
  }

  const BACKSPACE := '\U{8}'
  const FORM_FEED := '\U{c}'

  function EscapeChar(c: char): string {
    if c == '"' then ['\\', '"']
    else if c == '\\' then ['\\', '\\']
    else if c == '\n' then ['\\', 'n']
    else if c == '\r' then ['\\', 'r']
    else if c == '\t' then ['\\', 't']
    else if c == FORM_FEED then ['\\', 'f']
    else if c == BACKSPACE then ['\\', 'b']
    else if c < ' ' then ['\\', 'u', '0', '0', HexDigit(c as int / 16), HexDigit(c as int % 16)]
    else [c]
  }

  function Escape(s: string): string {
    if s == "" then "" else EscapeChar(s[0]) + Escape(s[1..])
  }

  function PrintString(s: string): string {
    ['"'] + (Escape(s) + ['"'])
  }

  function PrintNat(n: nat): (r: string) {
    if n < 10 then [HexDigit(n)] else PrintNat(n / 10) + [HexDigit(n % 10)]
  }

  function PrintInt(n: int): string {
    if n < 0 then ['-'] + PrintNat(-n) else PrintNat(n)
  }

  function Print(v: Json): string {
    match v
    case Null => "null"
    case Bool(b) => if b then "true" else "false"
    case Int(n) => PrintInt(n)
    case Str(s) => PrintString(s)
    case Arr(items) => ['['] + PrintItems(items) + [']']
    case Obj(fields) => ['{'] + PrintFields(fields) + ['}']
  }

  function PrintItems(items: seq<Json>): string {
    if items == [] then ""
    else if |items| == 1 then Print(items[0])
    else Print(items[0]) + ([','] + PrintItems(items[1..]))
  }

  function PrintField(f: Field): string
    decreases f, 1
  {
    PrintString(f.key) + ([':'] + Print(f.value))
  }

  function PrintFields(fields: seq<Field>): string {
    if fields == [] then ""
    else if |fields| == 1 then PrintField(fields[0])
    else PrintField(fields[0]) + ([','] + PrintFields(fields[1..]))
  }

  /** `canonicalize_license_payload` */
  function Canonicalize(v: Json): string {
    Print(SortJson(v))
  }

  // ------------------------------------------------------------------------------- reading

  predicate IsWhitespace(c: char) {
    c == ' ' || c == '\t' || c == '\n' || c == '\r'
  }

  function SkipWhitespace(s: string): (r: string)
    ensures |r| <= |s|
  {
    if s != "" && IsWhitespace(s[0]) then SkipWhitespace(s[1..]) else s
  }

  predicate IsDigit(c: char) {
    '0' <= c <= '9'
  }

  function HexValue(c: char): (r: Option<nat>)
    ensures r.Some? ==> r.value < 16
  {
    if IsDigit(c) then Some(c as int - '0' as int)
    else if 'a' <= c <= 'f' then Some(c as int - 'a' as int + 10)
    else if 'A' <= c <= 'F' then Some(c as int - 'A' as int + 10)
    else None
  }

  function Hex2(high: char, low: char): (r: Option<nat>)
    ensures r.Some? ==> r.value < 0x100
  {
    match (HexValue(high), HexValue(low))
    case (Some(h), Some(l)) => Some(h * 16 + l)
    case _ => None
  }

  /** The number that the first four characters spell in base 16. */
  function Hex4(s: string): (r: Option<nat>)
    ensures r.Some? ==> |s| >= 4 && r.value < 0x10000
  {
    if |s| < 4 then None
    else match (Hex2(s[0], s[1]), Hex2(s[2], s[3]))
      case (Some(h), Some(l)) => Some(h * 256 + l)
      case _ => None
  }

  /** After a backslash and `u`. A pair of surrogates is one character, a lone one is refused. */
  function ReadUnicode(s: string): (r: Option<(char, string)>)
    ensures r.Some? ==> |r.value.1| < |s|
  {
    match Hex4(s)
    case None => None
    case Some(h) =>
      if h < 0xD800 || 0xE000 <= h then Some((h as char, s[4..]))
      else if h < 0xDC00 && |s| >= 6 && s[4] == '\\' && s[5] == 'u' && Hex4(s[6..]).Some?
              && 0xDC00 <= Hex4(s[6..]).value < 0xE000 then
        Some(((0x10000 + (h - 0xD800) * 0x400 + (Hex4(s[6..]).value - 0xDC00)) as char, s[10..]))
      else None
  }

  /** After a backslash. */
  function ReadEscape(s: string): (r: Option<(char, string)>)
    ensures r.Some? ==> |r.value.1| < |s|
  {
    if s == "" then None
    else if s[0] == '"' || s[0] == '\\' || s[0] == '/' then Some((s[0], s[1..]))
    else if s[0] == 'b' then Some((BACKSPACE, s[1..]))
    else if s[0] == 'f' then Some((FORM_FEED, s[1..]))
    else if s[0] == 'n' then Some(('\n', s[1..]))
    else if s[0] == 'r' then Some(('\r', s[1..]))
    else if s[0] == 't' then Some(('\t', s[1..]))
    else if s[0] == 'u' then ReadUnicode(s[1..])
    else None
  }

  function ReadChar(s: string): (r: Option<(char, string)>)
    ensures r.Some? ==> |r.value.1| < |s|
  {
    if s == "" || s[0] < ' ' then None
    else if s[0] == '\\' then ReadEscape(s[1..])
    else Some((s[0], s[1..]))
  }

  /** After the opening quote: the string and what follows its closing quote. */
  function ReadString(s: string): (r: Option<(string, string)>)
    ensures r.Some? ==> |r.value.1| < |s|
    decreases |s|
  {
    if s == "" then None
    else if s[0] == '"' then Some(("", s[1..]))
    else match ReadChar(s)
      case None => None
      case Some((c, rest)) =>
        match ReadString(rest)
        case None => None
        case Some((text, after)) => Some(([c] + text, after))
  }

  function ReadDigits(s: string): (r: (string, string))
    ensures |r.0| + |r.1| == |s|
  {
    if s == "" || !IsDigit(s[0]) then ("", s)
    else
      var (digits, rest) := ReadDigits(s[1..]);
      ([s[0]] + digits, rest)
  }

  function DigitsValue(digits: string): nat
    requires forall i :: 0 <= i < |digits| ==> IsDigit(digits[i])
  {
    if digits == "" then 0
    else
      var last := digits[|digits| - 1];
      assert IsDigit(last);
      10 * DigitsValue(digits[..|digits| - 1]) + (last as int - '0' as int)
  }

  lemma {:induction false} DigitsAreDigits(s: string)
    ensures var digits := ReadDigits(s).0;
            forall i :: 0 <= i < |digits| ==> IsDigit(digits[i])
    ensures s != "" && IsDigit(s[0]) ==> ReadDigits(s).0 != ""
  {
    if s != "" && IsDigit(s[0]) {
      DigitsAreDigits(s[1..]);
    }
  }

  function ReadNat(s: string): (r: Option<(nat, string)>)
    ensures r.Some? ==> |r.value.1| < |s|
  {
    DigitsAreDigits(s);
    if s == "" || !IsDigit(s[0]) then None
    else if s[0] == '0' then Some((0, s[1..]))
    else Some((DigitsValue(ReadDigits(s).0), ReadDigits(s).1))
  }

  function ReadInt(s: string): (r: Option<(Json, string)>)
    ensures r.Some? ==> |r.value.1| < |s|
  {
    if s != "" && s[0] == '-' then
      match ReadNat(s[1..])
      case None => None
      case Some((n, rest)) => Some((Int(0 - n), rest))
    else
      match ReadNat(s)
      case None => None
      case Some((n, rest)) => Some((Int(n), rest))
  }

  predicate StartsWith(s: string, prefix: string) {
    |prefix| <= |s| && s[..|prefix|] == prefix
  }

  function ReadWord(s: string): (r: Option<(Json, string)>)
    ensures r.Some? ==> |r.value.1| < |s|
  {
    if StartsWith(s, "null") then Some((Null, s[4..]))
    else if StartsWith(s, "true") then Some((Bool(true), s[4..]))
    else if StartsWith(s, "false") then Some((Bool(false), s[5..]))
    else ReadInt(s)
  }

  /** A value and what follows it; white space before it is skipped. */
  function ReadValue(s: string): (r: Option<(Json, string)>)
    ensures r.Some? ==> |r.value.1| < |s|
    decreases |s|, 1
  {
    ReadToken(SkipWhitespace(s))
  }

  function ReadToken(s: string): (r: Option<(Json, string)>)
    ensures r.Some? ==> |r.value.1| < |s|
    decreases |s|, 0
  {
    if s == "" then None
    else if s[0] == '"' then
      match ReadString(s[1..])
      case None => None
      case Some((text, rest)) => Some((Str(text), rest))
    else if s[0] == '[' then ReadArray(SkipWhitespace(s[1..]))
    else if s[0] == '{' then ReadObject(SkipWhitespace(s[1..]))
    else ReadWord(s)
  }

  function ReadArray(s: string): (r: Option<(Json, string)>)
    ensures r.Some? ==> |r.value.1| < |s|
    decreases |s|, 4
  {
    if s != "" && s[0] == ']' then Some((Arr([]), s[1..]))
    else
      match ReadItems(s)
      case None => None
      case Some((items, rest)) => Some((Arr(items), rest))
  }

  /** One or more values separated by commas, and what follows the closing bracket. */
  function ReadItems(s: string): (r: Option<(seq<Json>, string)>)
    ensures r.Some? ==> |r.value.1| < |s|
    decreases |s|, 2
  {
    match ReadValue(s)
    case None => None
    case Some((v, rest)) =>
      var next := SkipWhitespace(rest);
      if next != "" && next[0] == ']' then Some(([v], next[1..]))
      else if next != "" && next[0] == ',' then
        match ReadItems(next[1..])
        case None => None
        case Some((items, after)) => Some(([v] + items, after))
      else None
  }

  function ReadObject(s: string): (r: Option<(Json, string)>)
    ensures r.Some? ==> |r.value.1| < |s|
    decreases |s|, 4
  {
    if s != "" && s[0] == '}' then Some((Obj([]), s[1..]))
    else
      match ReadFields(s)
      case None => None
      case Some((fields, rest)) => Some((Obj(KeyedRows.Collect(KeyOf, LastWins, fields)), rest))
  }

  /** A key, a colon and a value. */
  function ReadField(s: string): (r: Option<(Field, string)>)
    ensures r.Some? ==> |r.value.1| < |s|
    decreases |s|, 2
  {
    if s == "" || s[0] != '"' then None
    else match ReadString(s[1..])
      case None => None
      case Some((key, rest)) =>
        var next := SkipWhitespace(rest);
        if next == "" || next[0] != ':' then None
        else match ReadValue(next[1..])
          case None => None
          case Some((v, after)) => Some((Field(key, v), after))
  }

  function ReadFields(s: string): (r: Option<(seq<Field>, string)>)
    ensures r.Some? ==> |r.value.1| < |s|
    decreases |s|, 3
  {
    match ReadField(s)
    case None => None
    case Some((f, rest)) =>
      var next := SkipWhitespace(rest);
      if next != "" && next[0] == '}' then Some(([f], next[1..]))
      else if next != "" && next[0] == ',' then
        match ReadFields(SkipWhitespace(next[1..]))
        case None => None
        case Some((fields, after)) => Some(([f] + fields, after))
      else None
  }

  /** `json.loads` */
  function Loads(text: string): Option<Json> {
    match ReadValue(text)
    case None => None
    case Some((v, rest)) => if SkipWhitespace(rest) == "" then Some(v) else None
  }
}
