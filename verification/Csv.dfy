/** web/app/lib/csv.ts: escaping of cells, and a reader of RFC 4180, section 2, rules 5 to 7, that undoes it. */
module Csv {
  import opened Options

  function DoubleQuotes(s: string): string {
    if s == "" then "" else (if s[0] == '"' then ['"', '"'] else [s[0]]) + DoubleQuotes(s[1..])
  }

  predicate Special(c: char) {
    c == '"' || c == '\n' || c == ',' || c == '\r'
  }

  predicate NeedsQuotes(s: string) {
    exists i :: 0 <= i < |s| && Special(s[i])
  }

  /** `escapeCsvCell` on a string. */
  function EscapeCsvCell(s: string): string {
    var escaped := DoubleQuotes(s);
    if NeedsQuotes(escaped) then ['"'] + escaped + ['"'] else escaped
  }

  /** `toCsvRow` */
  function ToCsvRow(cells: seq<string>): string {
    if cells == [] then ""
    else if |cells| == 1 then EscapeCsvCell(cells[0])
    else EscapeCsvCell(cells[0]) + [','] + ToCsvRow(cells[1..])
  }

  /** An export: each row followed by a line feed. */
  function ToCsvFile(rows: seq<seq<string>>): string {
    if rows == [] then "" else ToCsvRow(rows[0]) + ['\n'] + ToCsvFile(rows[1..])
  }

  // ------------------------------------------------------------------------------- the reader

  /** The inside of a quoted field and what follows its closing quote; a doubled quote is one (rule 7). */
  function ReadQuoted(s: string): (r: Option<(string, string)>)
    ensures r.Some? ==> |r.value.1| < |s|
  {
    if s == "" then None
    else if s[0] == '"' then
      if |s| > 1 && s[1] == '"' then
        match ReadQuoted(s[2..])
        case None => None
        case Some((cell, rest)) => Some((['"'] + cell, rest))
      else Some(("", s[1..]))
    else
      match ReadQuoted(s[1..])
      case None => None
      case Some((cell, rest)) => Some(([s[0]] + cell, rest))
  }

  /** What a field without quotes is made of (TEXTDATA). */
  predicate TextData(c: char) {
    c != '"' && c != ',' && c != '\r' && c != '\n'
  }

  /** The text up to the next character that cannot be in a field without quotes (rule 5). */
  function ReadPlain(s: string): (r: (string, string))
    ensures |r.1| <= |s|
  {
    if s == "" || !TextData(s[0]) then ("", s)
    else
      var (cell, rest) := ReadPlain(s[1..]);
      ([s[0]] + cell, rest)
  }

  function ReadField(s: string): (r: Option<(string, string)>)
    ensures r.Some? ==> |r.value.1| <= |s|
  {
    if s != "" && s[0] == '"' then ReadQuoted(s[1..])
    else Some(ReadPlain(s))
  }

  /** Fields separated by commas, and what follows the last. */
  function ReadRecord(s: string): (r: Option<(seq<string>, string)>)
    ensures r.Some? ==> |r.value.1| <= |s|
    decreases |s|
  {
    match ReadField(s)
    case None => None
    case Some((cell, rest)) =>
      if rest != "" && rest[0] == ',' then
        match ReadRecord(rest[1..])
        case None => None
        case Some((cells, after)) => Some(([cell] + cells, after))
      else Some(([cell], rest))
  }

  /** Records, each ended by a line feed. */
  function ReadFile(s: string): Option<seq<seq<string>>>
    decreases |s|
  {
    if s == "" then Some([])
    else match ReadRecord(s)
      case None => None
      case Some((cells, rest)) =>
        if rest == "" || rest[0] != '\n' then None
        else match ReadFile(rest[1..])
          case None => None
          case Some(rows) => Some([cells] + rows)
  }

  // ------------------------------------------------------------------------------- round trips

  lemma NeedsQuotesSplits(head: string, tail: string)
    ensures NeedsQuotes(head + tail) <==> NeedsQuotes(head) || NeedsQuotes(tail)
  {
    var all := head + tail;
    if i :| 0 <= i < |tail| && Special(tail[i]) {
      assert all[|head| + i] == tail[i];
    }
    if i :| 0 <= i < |head| && Special(head[i]) {
      assert all[i] == head[i];
    }
  }

  lemma {:induction false} DoublesQuotesOnly(s: string)
    ensures NeedsQuotes(DoubleQuotes(s)) <==> exists i :: 0 <= i < |s| && !TextData(s[i])
    ensures (forall i :: 0 <= i < |s| ==> TextData(s[i])) ==> DoubleQuotes(s) == s
  {
    if s != "" {
      DoublesQuotesOnly(s[1..]);
      var head := if s[0] == '"' then ['"', '"'] else [s[0]];
      assert s == [s[0]] + s[1..] && head[0] == s[0];
      NeedsQuotesSplits(head, DoubleQuotes(s[1..]));
    }
  }

  /** A cell is quoted exactly when the format asks for it: otherwise it stays as it is. */
  lemma QuotedIffNeeded(s: string)
    ensures EscapeCsvCell(s) == s <==> forall i :: 0 <= i < |s| ==> TextData(s[i])
    ensures EscapeCsvCell(s) != s ==> EscapeCsvCell(s) == ['"'] + DoubleQuotes(s) + ['"']
  {
    DoublesQuotesOnly(s);
    if NeedsQuotes(DoubleQuotes(s)) {
      QuotesLengthen(s);
    }
  }

  lemma {:induction false} QuotesLengthen(s: string)
    ensures |s| <= |DoubleQuotes(s)|
  {
    if s != "" {
      QuotesLengthen(s[1..]);
    }
  }

  /** What may follow a field. */
  predicate EndsField(rest: string) {
    rest == "" || rest[0] == ',' || rest[0] == '\n'
  }

  lemma {:induction false} QuotedReadsBack(s: string, rest: string)
    requires EndsField(rest)
    ensures ReadQuoted(DoubleQuotes(s) + ['"'] + rest) == Some((s, rest))
  {
    var text := DoubleQuotes(s) + ['"'] + rest;
    if s == "" {
      assert text == ['"'] + rest;
      assert text[1..] == rest;
    } else {
      QuotedReadsBack(s[1..], rest);
      assert s == [s[0]] + s[1..];
      var tail := DoubleQuotes(s[1..]) + ['"'] + rest;
      if s[0] == '"' {
        assert text == ['"', '"'] + tail && text[2..] == tail;
      } else {
        assert text == [s[0]] + tail && text[1..] == tail;
      }
    }
  }

  lemma {:induction false} PlainReadsBack(s: string, rest: string)
    requires EndsField(rest) && !NeedsQuotes(DoubleQuotes(s))
    ensures DoubleQuotes(s) == s && ReadPlain(s + rest) == (s, rest)
  {
    if s == "" {
      assert s + rest == rest;
    } else {
      var d := DoubleQuotes(s[1..]);
      assert !Special(DoubleQuotes(s)[0]);
      assert DoubleQuotes(s) == [s[0]] + d;
      forall i | 0 <= i < |d| ensures !Special(d[i]) {
        assert d[i] == DoubleQuotes(s)[i + 1];
      }
      PlainReadsBack(s[1..], rest);
      assert (s + rest)[1..] == s[1..] + rest;
    }
  }

  lemma CellReadsBack(s: string, rest: string)
    requires EndsField(rest)
    ensures ReadField(EscapeCsvCell(s) + rest) == Some((s, rest))
  {
    var escaped := DoubleQuotes(s);
    var text := EscapeCsvCell(s) + rest;
    if NeedsQuotes(escaped) {
      var inside := escaped + ['"'] + rest;
      assert text == ['"'] + inside && text[1..] == inside;
      QuotedReadsBack(s, rest);
    } else {
      PlainReadsBack(s, rest);
      FirstIsPlain(s, rest);
    }
  }

  lemma FirstIsPlain(s: string, rest: string)
    requires EndsField(rest) && !NeedsQuotes(s)
    ensures s + rest != "" ==> (s + rest)[0] != '"'
  {
    assert s != "" ==> !Special(s[0]);
  }

  lemma RecordCons(s: string, cell: string, rest: string, cells: seq<string>, after: string)
    requires ReadField(s) == Some((cell, [','] + rest)) && ReadRecord(rest) == Some((cells, after))
    ensures ReadRecord(s) == Some(([cell] + cells, after))
  {
    assert ([','] + rest)[1..] == rest;
  }

  lemma RowUnfolds(cells: seq<string>, rest: string)
    requires |cells| > 1
    ensures ToCsvRow(cells) + rest == EscapeCsvCell(cells[0]) + ([','] + (ToCsvRow(cells[1..]) + rest))
  {
    Reassociate(EscapeCsvCell(cells[0]), ToCsvRow(cells[1..]), rest);
  }

  lemma Reassociate(a: string, b: string, c: string)
    ensures a + [','] + b + c == a + ([','] + (b + c))
  {
  }

  lemma {:induction false} RowReadsBack(cells: seq<string>, rest: string)
    requires cells != [] && (rest == "" || rest[0] == '\n')
    ensures ReadRecord(ToCsvRow(cells) + rest) == Some((cells, rest))
  {
    if |cells| == 1 {
      CellReadsBack(cells[0], rest);
      assert [cells[0]] == cells;
    } else {
      var tail := ToCsvRow(cells[1..]) + rest;
      RowReadsBack(cells[1..], rest);
      assert EndsField([','] + tail);
      CellReadsBack(cells[0], [','] + tail);
      RowUnfolds(cells, rest);
      RecordCons(ToCsvRow(cells) + rest, cells[0], tail, cells[1..], rest);
      assert [cells[0]] + cells[1..] == cells;
    }
  }

  /** A row of one or more cells reads back to exactly those cells. */
  lemma RowRoundTrip(cells: seq<string>)
    requires cells != []
    ensures ReadRecord(ToCsvRow(cells)) == Some((cells, ""))
  {
    RowReadsBack(cells, "");
    assert ToCsvRow(cells) + "" == ToCsvRow(cells);
  }

  /** A whole export reads back, cells with embedded line feeds included. */
  lemma {:induction false} FileRoundTrip(rows: seq<seq<string>>)
    requires forall row :: row in rows ==> row != []
    ensures ReadFile(ToCsvFile(rows)) == Some(rows)
  {
    if rows != [] {
      var tail := ToCsvFile(rows[1..]);
      assert rows[0] in rows && forall row :: row in rows[1..] ==> row in rows;
      FileRoundTrip(rows[1..]);
      RowReadsBack(rows[0], ['\n'] + tail);
      assert ToCsvFile(rows) == ToCsvRow(rows[0]) + (['\n'] + tail);
      assert (['\n'] + tail)[1..] == tail;
      assert [rows[0]] + rows[1..] == rows;
    }
  }

  /** Two lists share a row text only if they are equal, or are the empty list and the list of one empty cell. */
  lemma RowIsInjective(a: seq<string>, b: seq<string>)
    ensures ToCsvRow(a) == ToCsvRow(b) <==> a == b || ((a == [] || a == [""]) && (b == [] || b == [""]))
  {
    var a', b' := if a == [] then [""] else a, if b == [] then [""] else b;
    assert ToCsvRow([""]) == "";
    RowRoundTrip(a');
    RowRoundTrip(b');
  }
}
