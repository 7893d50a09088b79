/** The page tokens and page windows of web/lib/pagination.ts. */
module Pagination {
  /** A page number, or an ellipsis named after the pages on its two sides. */
  datatype Token = Page(page: int) | Ellipsis(before: int, after: int)

  const DESKTOP_FULL_THRESHOLD := 7
  const COMPACT_FULL_THRESHOLD := 5

  function Min(a: int, b: int): int {
    if a < b then a else b
  }

  function Max(a: int, b: int): int {
    if a < b then b else a
  }

  function Clamp(page: int, totalPages: int): int {
    Min(Max(page, 1), totalPages)
  }

  /** `getPageRange` */
  function PageRange(first: int, last: int): (r: seq<int>)
    ensures |r| == Max(0, last - first + 1)
    ensures forall i :: 0 <= i < |r| ==> r[i] == first + i
  {
    if last < first then [] else seq(last - first + 1, i requires 0 <= i => first + i)
  }

  function PageTokens(pages: seq<int>): (r: seq<Token>)
    ensures |r| == |pages| && forall i :: 0 <= i < |r| ==> r[i] == Page(pages[i])
  {
    seq(|pages|, i requires 0 <= i < |pages| => Page(pages[i]))
  }

  /** The pages a token list stands for, the hidden ones of each ellipsis included. */
  function Expand(tokens: seq<Token>): seq<int> {
    if tokens == [] then []
    else
      var t := tokens[|tokens| - 1];
      Expand(tokens[..|tokens| - 1]) + if t.Page? then [t.page] else PageRange(t.before + 1, t.after - 1)
  }

  function Ellipses(tokens: seq<Token>): nat {
    if tokens == [] then 0
    else Ellipses(tokens[..|tokens| - 1]) + if tokens[|tokens| - 1].Ellipsis? then 1 else 0
  }

  predicate NoEmptyGap(tokens: seq<Token>) {
    forall i :: 0 <= i < |tokens| && tokens[i].Ellipsis? ==> tokens[i].after - tokens[i].before > 1
  }

  lemma ExpandSnoc(tokens: seq<Token>, t: Token)
    ensures Expand(tokens + [t]) == Expand(tokens) + if t.Page? then [t.page] else PageRange(t.before + 1, t.after - 1)
    ensures Ellipses(tokens + [t]) == Ellipses(tokens) + if t.Ellipsis? then 1 else 0
  {
    assert (tokens + [t])[..|tokens|] == tokens;
  }

  lemma {:induction false} ExpandPages(pages: seq<int>)
    ensures Expand(PageTokens(pages)) == pages && Ellipses(PageTokens(pages)) == 0
  {
    if pages == [] {
    } else {
      var n := |pages| - 1;
      ExpandPages(pages[..n]);
      assert PageTokens(pages) == PageTokens(pages[..n]) + [Page(pages[n])];
      ExpandSnoc(PageTokens(pages[..n]), Page(pages[n]));
    }
  }

  /** The pages the desktop bar shows: the ends, and two on each side of the current page. */
  predicate Shown(page: int, current: int, totalPages: int) {
    1 <= page <= totalPages && (page == 1 || page == totalPages || current - 2 <= page <= current + 2)
  }

  predicate Ascending(pages: seq<int>) {
    forall i, j :: 0 <= i < j < |pages| ==> pages[i] < pages[j]
  }

  lemma HeadStaysLeast(r: seq<int>, x: int, rest: seq<int>)
    requires Ascending(r) && r != [] && r[0] < x && forall y :: y in rest ==> y == x || y in r[1..]
    ensures forall k :: 0 <= k < |rest| ==> r[0] < rest[k]
  {
    forall k | 0 <= k < |rest| ensures r[0] < rest[k] {
      assert rest[k] in rest;
      if rest[k] != x {
        var j :| 0 <= j < |r[1..]| && r[1..][j] == rest[k];
        assert r[j + 1] == rest[k];
      }
    }
  }

  function Insert(r: seq<int>, x: int): (r': seq<int>)
    requires Ascending(r)
    ensures Ascending(r') && forall y :: y in r' <==> y == x || y in r
  {
    if r == [] || x < r[0] then [x] + r
    else if x == r[0] then r
    else
      var rest := Insert(r[1..], x);
      assert r == [r[0]] + r[1..];
      HeadStaysLeast(r, x, rest);
      [r[0]] + rest
  }

  /** Duplicates dropped, in ascending order: what `new Set` and `sort` make of a list. */
  function SortDistinct(s: seq<int>): (r: seq<int>)
    ensures Ascending(r) && forall y :: y in r <==> y in s
  {
    if s == [] then []
    else
      assert s == [s[0]] + s[1..];
      Insert(SortDistinct(s[1..]), s[0])
  }

  /** In the ascending list of shown pages a gap lies right after page 1 or right before the last page. */
  lemma GapsAreAtTheEnds(pages: seq<int>, current: int, totalPages: int, k: int)
    requires 1 <= current <= totalPages && Ascending(pages)
    requires forall p :: p in pages <==> Shown(p, current, totalPages)
    requires 0 < k < |pages| && pages[k] - pages[k - 1] > 1
    ensures k == 1 || k == |pages| - 1
  {
    var u, v := pages[k - 1], pages[k];
    assert u in pages && v in pages;
    NothingBetween(pages, k, u + 1);
    assert !Shown(u + 1, current, totalPages);
    assert pages[0] in pages && (k > 1 ==> pages[0] < u);
    assert pages[|pages| - 1] in pages && (k < |pages| - 1 ==> v < pages[|pages| - 1]);
  }

  lemma NothingBetween(pages: seq<int>, k: int, p: int)
    requires Ascending(pages) && 0 < k < |pages| && pages[k - 1] < p < pages[k]
    ensures p !in pages
  {
    forall j | 0 <= j < |pages| ensures pages[j] != p {
      assert j < k - 1 ==> pages[j] < pages[k - 1];
      assert k < j ==> pages[k] < pages[j];
    }
  }

  /** `tokens` covers the pages 1 to `last` and ends with `last`. */
  ghost predicate Covers(tokens: seq<Token>, last: int) {
    && tokens != [] && tokens[0] == Page(1) && tokens[|tokens| - 1] == Page(last)
    && Expand(tokens) == PageRange(1, last) && NoEmptyGap(tokens)
  }

  /** One turn of the loop over the shown pages. */
  function Push(tokens: seq<Token>, value: int): seq<Token> {
    var gap := if tokens != [] && tokens[|tokens| - 1].Page? && value - tokens[|tokens| - 1].page > 1
               then [Ellipsis(tokens[|tokens| - 1].page, value)] else [];
    tokens + gap + [Page(value)]
  }

  lemma PushNext(tokens: seq<Token>, last: int)
    requires Covers(tokens, last) && 1 <= last
    ensures Covers(tokens + [Page(last + 1)], last + 1) && Ellipses(tokens + [Page(last + 1)]) == Ellipses(tokens)
  {
    ExpandSnoc(tokens, Page(last + 1));
    assert PageRange(1, last) + [last + 1] == PageRange(1, last + 1);
  }

  lemma PushOverGap(tokens: seq<Token>, last: int, value: int)
    requires Covers(tokens, last) && 1 <= last && last + 1 < value
    ensures Covers(tokens + [Ellipsis(last, value)] + [Page(value)], value)
    ensures Ellipses(tokens + [Ellipsis(last, value)] + [Page(value)]) == Ellipses(tokens) + 1
  {
    var gapped := tokens + [Ellipsis(last, value)];
    ExpandSnoc(tokens, Ellipsis(last, value));
    ExpandSnoc(gapped, Page(value));
    assert PageRange(1, last) + PageRange(last + 1, value - 1) == PageRange(1, value - 1);
    assert PageRange(1, value - 1) + [value] == PageRange(1, value);
  }

  lemma PushCovers(tokens: seq<Token>, last: int, value: int)
    requires Covers(tokens, last) && 1 <= last < value
    ensures Covers(Push(tokens, value), value)
    ensures Ellipses(Push(tokens, value)) == Ellipses(tokens) + if value - last > 1 then 1 else 0
    ensures tokens <= Push(tokens, value)
  {
    if value - last > 1 {
      PushOverGap(tokens, last, value);
    } else {
      PushNext(tokens, last);
      assert tokens + [] + [Page(value)] == tokens + [Page(value)];
    }
  }

  lemma FirstCovers()
    ensures Covers(Push([], 1), 1) && Ellipses(Push([], 1)) == 0 && Push([], 1) == [Page(1)]
  {
    ExpandSnoc([], Page(1));
    assert [] + [Page(1)] == [Page(1)] && PageRange(1, 1) == [1];
  }

  method WithGaps(visiblePages: seq<int>, ghost current: int, ghost totalPages: int) returns (tokens: seq<Token>)
    requires 1 <= current <= totalPages && Ascending(visiblePages)
    requires forall p :: p in visiblePages <==> Shown(p, current, totalPages)
    ensures Covers(tokens, totalPages) && Ellipses(tokens) <= 2
    ensures forall p :: Page(p) in tokens <==> p in visiblePages
  {
    Ends(visiblePages, current, totalPages);
    FirstCovers();
    tokens := Push([], visiblePages[0]);
    var i := 1;
    while i < |visiblePages|
      invariant 1 <= i <= |visiblePages| && Covers(tokens, visiblePages[i - 1])
      invariant Ellipses(tokens) <= (if i == 1 then 0 else if i < |visiblePages| then 1 else 2)
      invariant forall p :: Page(p) in tokens <==> p in visiblePages[..i]
    {
      if visiblePages[i] - visiblePages[i - 1] > 1 {
        GapsAreAtTheEnds(visiblePages, current, totalPages, i);
      }
      assert visiblePages[0] <= visiblePages[i - 1] < visiblePages[i];
      PushCovers(tokens, visiblePages[i - 1], visiblePages[i]);
      assert visiblePages[..i + 1] == visiblePages[..i] + [visiblePages[i]];
      tokens := Push(tokens, visiblePages[i]);
      i := i + 1;
    }
    assert visiblePages[..i] == visiblePages;
  }

  function InRange(pages: seq<int>, totalPages: int): (r: seq<int>)
    ensures forall p :: p in r <==> p in pages && 1 <= p <= totalPages
  {
    if pages == [] then []
    else
      assert pages == [pages[0]] + pages[1..];
      (if 1 <= pages[0] <= totalPages then [pages[0]] else []) + InRange(pages[1..], totalPages)
  }

  lemma RangeMembers(first: int, last: int)
    ensures forall p :: p in PageRange(first, last) <==> first <= p <= last
  {
    forall p ensures p in PageRange(first, last) <==> first <= p <= last {
      if first <= p <= last {
        assert PageRange(first, last)[p - first] == p;
      }
    }
  }

  function VisiblePages(current: int, totalPages: int): (r: seq<int>)
    requires 1 <= current <= totalPages
    ensures Ascending(r) && forall p :: p in r <==> Shown(p, current, totalPages)
  {
    var around := PageRange(current - 2, current + 2);
    RangeMembers(current - 2, current + 2);
    SortDistinct(InRange([1, totalPages] + around, totalPages))
  }

  /** `getPaginationTokens` for the desktop bar. With `totalPages` below 1 there is nothing to show. */
  method DesktopTokens(page: int, totalPages: int) returns (tokens: seq<Token>)
    ensures Expand(tokens) == PageRange(1, totalPages) && NoEmptyGap(tokens) && Ellipses(tokens) <= 2
    ensures totalPages >= 1 ==>
              && |tokens| > 0 && tokens[0] == Page(1) && tokens[|tokens| - 1] == Page(totalPages)
              && Page(if page < 1 then 1 else if page > totalPages then totalPages else page) in tokens
    ensures totalPages > 7 ==>
              var current := if page < 1 then 1 else if page > totalPages then totalPages else page;
              forall p :: Page(p) in tokens
                          <==> 1 <= p <= totalPages && (p == 1 || p == totalPages || current - 2 <= p <= current + 2)
    ensures totalPages <= 7 ==> Ellipses(tokens) == 0
  {
    var clampedPage := Clamp(page, totalPages);
    if totalPages <= DESKTOP_FULL_THRESHOLD {
      tokens := PageTokens(PageRange(1, totalPages));
      ExpandPages(PageRange(1, totalPages));
      assert totalPages >= 1 ==> tokens[clampedPage - 1] == Page(clampedPage);
      return;
    }
    var visiblePages := VisiblePages(clampedPage, totalPages);
    tokens := WithGaps(visiblePages, clampedPage, totalPages);
    assert clampedPage in visiblePages;
  }

  /** `getPaginationTokens` for the compact bar: a run of pages around the current one, never an ellipsis. */
  method CompactTokens(page: int, totalPages: int) returns (tokens: seq<Token>)
    ensures Ellipses(tokens) == 0
    ensures totalPages >= 1 ==>
              Page(if page < 1 then 1 else if page > totalPages then totalPages else page) in tokens
    ensures totalPages <= 5 ==> Expand(tokens) == PageRange(1, totalPages)
    ensures totalPages > 5 ==>
              var current := if page < 1 then 1 else if page > totalPages then totalPages else page;
              Expand(tokens) == PageRange(if current == 1 then 1 else current - 1,
                                          if current == totalPages then current else current + 1)
  {
    var clampedPage := Clamp(page, totalPages);
    var first, last := 1, totalPages;
    if totalPages > COMPACT_FULL_THRESHOLD {
      first, last := Max(1, clampedPage - 1), Min(totalPages, clampedPage + 1);
    }
    tokens := PageTokens(PageRange(first, last));
    ExpandPages(PageRange(first, last));
    assert totalPages >= 1 ==> tokens[clampedPage - first] == Page(clampedPage);
  }

  lemma Ends(pages: seq<int>, current: int, totalPages: int)
    requires 1 <= current <= totalPages && Ascending(pages)
    requires forall p :: p in pages <==> Shown(p, current, totalPages)
    ensures pages != [] && pages[0] == 1 && pages[|pages| - 1] == totalPages
  {
    assert 1 in pages && totalPages in pages;
    assert pages[0] in pages && pages[|pages| - 1] in pages;
  }

  // ------------------------------------------------------------------------------- page windows

  /** `Math.max(Math.ceil(totalItems / pageSize), 1)` */
  function TotalPages(totalItems: nat, pageSize: nat): nat
    requires pageSize > 0
  {
    Max((totalItems + pageSize - 1) / pageSize, 1)
  }

  /** The items page `p` shows: offset (p - 1) * pageSize, at most pageSize of them. */
  predicate OnPage(item: nat, p: int, pageSize: nat) {
    (p - 1) * pageSize <= item < p * pageSize
  }

  lemma Window(item: nat, pageSize: nat)
    requires pageSize > 0
    ensures OnPage(item, item / pageSize + 1, pageSize)
  {
    assert (item / pageSize + 1) * pageSize == (item / pageSize) * pageSize + pageSize;
  }

  lemma WindowIsUnique(item: nat, p: int, q: int, pageSize: nat)
    requires pageSize > 0 && OnPage(item, p, pageSize) && OnPage(item, q, pageSize)
    ensures p == q
  {
    assert p < q ==> p * pageSize <= (q - 1) * pageSize;
    assert q < p ==> q * pageSize <= (p - 1) * pageSize;
  }

  lemma LastWindow(totalItems: nat, pageSize: nat)
    requires pageSize > 0 && totalItems > 0
    ensures OnPage(totalItems - 1, TotalPages(totalItems, pageSize), pageSize)
  {
    Window(totalItems + pageSize - 1, pageSize);
    var last := TotalPages(totalItems, pageSize);
    assert (last - 1) * pageSize + pageSize == last * pageSize;
  }

  lemma WindowsAreOrdered(item: nat, p: int, later: nat, q: int, pageSize: nat)
    requires pageSize > 0 && item <= later && OnPage(item, p, pageSize) && OnPage(later, q, pageSize)
    ensures p <= q
  {
    assert q < p ==> q * pageSize <= (p - 1) * pageSize;
  }

  /** Every item is on exactly one page between 1 and the page count, and the last page is not superfluous. */
  lemma WindowsTile(totalItems: nat, pageSize: nat, item: nat)
    requires pageSize > 0 && item < totalItems
    ensures exists p :: 1 <= p <= TotalPages(totalItems, pageSize) && OnPage(item, p, pageSize)
    ensures forall p, q :: OnPage(item, p, pageSize) && OnPage(item, q, pageSize) ==> p == q
    ensures OnPage(totalItems - 1, TotalPages(totalItems, pageSize), pageSize)
  {
    Window(item, pageSize);
    LastWindow(totalItems, pageSize);
    WindowsAreOrdered(item, item / pageSize + 1, totalItems - 1, TotalPages(totalItems, pageSize), pageSize);
    forall p, q | OnPage(item, p, pageSize) && OnPage(item, q, pageSize) ensures p == q {
      WindowIsUnique(item, p, q, pageSize);
    }
  }
}
