/** The converter from a Dark Horse Comics metadata file to the viewer's
    per-page viewpoint lists (scripts/DarkHorseToVPs.py). A book's pages
    are walked in reading order (backwards for right-to-left books), their
    sort orders and their viewports' sort orders are checked, every viewport
    is normalised to fractions of its page rounded to three decimals, and a
    page whose only viewport is the whole page gets no list at all. The
    decoded JSON is a `Book` value; diagnostics printed to standard error
    are collected as a sequence of `Warning`s. */
module DarkHorse {
  import opened Common

  datatype Viewport = Viewport(id: int, pageId: int, sortOrder: Option<int>, extUrl: string,
                               posX: real, posY: real, width: real, height: real)

  datatype Page = Page(id: int, bookId: int, sortOrder: Option<int>, skip: bool, isPreview: bool,
                       title: string, extUrl: string, width: real, height: real, viewports: seq<Viewport>)

  datatype Book = Book(id: int, pageCount: int, isRtl: bool, viewportCount: int, pages: seq<Page>)

  /** A converted viewpoint: keys "X", "Y", "W", "H". */
  type Panel = map<string, real>

  /** A converted page: its viewpoints, or null when elided. */
  type PageOut = Option<seq<Panel>>

  /** The exceptions the conversion raises (including Python's own
      `TypeError` when a sort order cannot be compared and
      `ZeroDivisionError` for a page of zero width or height). */
  datatype Error =
    | PageCountMismatch(declared: int, actual: int)
    | SortOrderMismatch(previous: int, found: int)
    | UnorderableSortOrder(previous: int)
    | ViewpointSortOrderMismatch(viewportId: int, pageNumber: int, expected: int, foundOrder: Option<int>)
    | ZeroPageSize(pageNumber: int)

  /** The diagnostics printed to standard error; page numbers count from 1
      in reading order. The external-URL warning quotes the page's URL. */
  datatype Warning =
    | BookIdMismatch(pageBookId: int, bookId: int)
    | SkipPage(pageNumber: int)
    | PreviewPage(pageNumber: int)
    | TitledPage(pageNumber: int, title: string)
    | PageIdMismatch(viewportId: int, pageNumber: int, viewportPageId: int, pageId: int)
    | ExternalUrl(viewportId: int, pageNumber: int, url: string)
    | SingleFullViewpoint(pageNumber: int)
    | ViewportCountMismatch(declared: int, counted: int)

  // ---------------------------------------------------------------------
  // Rounding

  /** Round to the nearest integer, ties to the even one (Python's `round`). */
  function RoundHalfEven(x: real): int {
    var f := x.Floor;
    var d := x - f as real;
    if d < 1.0 / 2.0 then f
    else if d > 1.0 / 2.0 then f + 1
    else if f % 2 == 0 then f else f + 1
  }

  /** The rounded value is a nearest integer, the even one on a tie, and an
      integer is left as it is. */
  lemma RoundHalfEvenFacts(x: real)
    ensures var n := RoundHalfEven(x);
            && -(1.0 / 2.0) <= n as real - x <= 1.0 / 2.0
            && ((n as real - x == 1.0 / 2.0 || x - n as real == 1.0 / 2.0) ==> n % 2 == 0)
            && (x == x.Floor as real ==> n == x.Floor)
  {
  }

  /** `round(v, 3)`: the nearest multiple of 1/1000, ties to even. */
  function Round3(v: real): real {
    RoundHalfEven(v * 1000.0) as real / 1000.0
  }

  /** Rounding moves a value by at most half a thousandth. */
  lemma Round3Error(v: real)
    ensures -(1.0 / 2000.0) <= Round3(v) - v <= 1.0 / 2000.0
  {
    var n := RoundHalfEven(v * 1000.0);
    RoundHalfEvenFacts(v * 1000.0);
    assert Round3(v) - v == (n as real - v * 1000.0) / 1000.0;
  }

  /** A rounded value has three decimals, so rounding it again changes
      nothing. */
  lemma Round3Idempotent(v: real)
    ensures Round3(Round3(v)) == Round3(v)
  {
    var n := RoundHalfEven(v * 1000.0);
    assert Round3(v) * 1000.0 == n as real;
    assert (n as real).Floor == n;
    RoundHalfEvenFacts(n as real);
  }

  /** Rounding keeps a fraction of the page inside [0, 1]. */
  lemma Round3Unit(v: real)
    requires 0.0 <= v <= 1.0
    ensures 0.0 <= Round3(v) <= 1.0
  {
    var n := RoundHalfEven(v * 1000.0);
    RoundHalfEvenFacts(v * 1000.0);
    assert -(1.0 / 2.0) <= n as real && n as real <= 1000.0 + 1.0 / 2.0;
    assert 0 <= n <= 1000;
  }

  /** `RoundDict`: every value of the dictionary rounded to three decimals,
      in place, key by key. */
  method RoundDict(input: map<string, real>) returns (output: map<string, real>)
    ensures output.Keys == input.Keys
    ensures forall k :: k in input ==> output[k] == Round3(input[k])
  {
    output := input;
    var keys := input.Keys;
    while keys != {}
      invariant keys <= input.Keys && output.Keys == input.Keys
      invariant forall k :: k in keys ==> output[k] == input[k]
      invariant forall k :: k in input && k !in keys ==> output[k] == Round3(input[k])
      decreases |keys|
    {
      var k :| k in keys;
      output := output[k := Round3(output[k])];
      keys := keys - {k};
    }
  }

  // ---------------------------------------------------------------------
  // The conversion, step by step

  /** Index of the `k`-th page (or viewport) visited out of `n`: backwards
      for right-to-left books. */
  function Order(n: int, rtl: bool, k: int): (i: int)
    ensures 0 <= k < n ==> 0 <= i < n
  {
    if rtl then n - 1 - k else k
  }

  /** Python truthiness of a sort order that may be null. */
  predicate Nonzero(x: Option<int>) {
    x.Some? && x.value != 0
  }

  /** The sort-order check: nothing recorded yet (null or 0), or the new
      order is larger (smaller for right-to-left books). */
  predicate SortAccepts(previous: Option<int>, current: Option<int>, rtl: bool) {
    !Nonzero(previous) || (current.Some? && (if rtl then previous.value > current.value else previous.value < current.value))
  }

  /** The exception a refused sort order raises. */
  function SortError(previous: int, current: Option<int>): Error {
    if current.None? then UnorderableSortOrder(previous) else SortOrderMismatch(previous, current.value)
  }

  function PageWarnings(book: Book, page: Page, pageNumber: int): seq<Warning> {
    (if page.bookId != book.id then [BookIdMismatch(page.bookId, book.id)] else [])
    + (if page.skip then [SkipPage(pageNumber)] else [])
    + (if page.isPreview then [PreviewPage(pageNumber)] else [])
    + (if page.title != "" then [TitledPage(pageNumber, page.title)] else [])
  }

  function ViewportWarnings(page: Page, vp: Viewport, pageNumber: int): seq<Warning> {
    (if vp.pageId != page.id then [PageIdMismatch(vp.id, pageNumber, vp.pageId, page.id)] else [])
    + (if vp.extUrl != "" then [ExternalUrl(vp.id, pageNumber, page.extUrl)] else [])
  }

  /** A viewport as fractions of its page, rounded. */
  function PanelOf(page: Page, vp: Viewport): Panel
    requires page.width != 0.0 && page.height != 0.0
  {
    map["X" := Round3(vp.posX / page.width), "Y" := Round3(vp.posY / page.height),
        "W" := Round3(vp.width / page.width), "H" := Round3(vp.height / page.height)]
  }

  /** The single viewport of a page that is not skipped covers the page. */
  predicate Elided(page: Page) {
    && |page.viewports| == 1 && !page.skip
    && page.viewports[0].posX == 0.0 && page.viewports[0].posY == 0.0
    && page.viewports[0].width == page.width && page.viewports[0].height == page.height
  }

  /** The state of the viewport loop of one page. */
  datatype PageScan = PageScan(panels: seq<Panel>, warnings: seq<Warning>, error: Option<Error>)

  /** The viewport loop after visiting `j` viewports, stopping at the first
      exception. */
  function ScanViewports(page: Page, pageNumber: int, rtl: bool, j: int): PageScan
    requires 0 <= j <= |page.viewports|
  {
    if j == 0 then PageScan([], [], None)
    else
      var s := ScanViewports(page, pageNumber, rtl, j - 1);
      if s.error.Some? then s
      else
        var vp := page.viewports[Order(|page.viewports|, rtl, j - 1)];
        if vp.sortOrder != Some(j) then s.(error := Some(ViewpointSortOrderMismatch(vp.id, pageNumber, j, vp.sortOrder)))
        else
          var w := s.warnings + ViewportWarnings(page, vp, pageNumber);
          if page.width == 0.0 || page.height == 0.0 then PageScan(s.panels, w, Some(ZeroPageSize(pageNumber)))
          else PageScan(s.panels + [PanelOf(page, vp)], w, None)
  }

  /** The state of the page loop. */
  datatype Scan = Scan(pages: seq<PageOut>, warnings: seq<Warning>, sortOrder: Option<int>, viewports: nat, error: Option<Error>)

  /** The outcome of one accepted page: its converted viewpoints (or null
      when elided) or the exception its viewport loop raises, the warnings
      it prints, and its number of viewports. */
  function ConvertedPage(book: Book, page: Page, pageNumber: int): (Result<PageOut, Error>, seq<Warning>, nat) {
    var w := PageWarnings(book, page, pageNumber);
    var v := ScanViewports(page, pageNumber, book.isRtl, |page.viewports|);
    if v.error.Some? then (Failure(v.error.value), w + v.warnings, |page.viewports|)
    else if Elided(page) then (Success(None), w + v.warnings + [SingleFullViewpoint(pageNumber)], |page.viewports|)
    else (Success(Some(v.panels)), w + v.warnings, |page.viewports|)
  }

  /** One pass of the page loop: the `k`-th page visited (from 0), a no-op
      once an exception has been raised. */
  function PageStep(book: Book, s: Scan, k: int): Scan
    requires 0 <= k < |book.pages|
  {
    if s.error.Some? then s
    else
      var page := book.pages[Order(|book.pages|, book.isRtl, k)];
      if !SortAccepts(s.sortOrder, page.sortOrder, book.isRtl) then s.(error := Some(SortError(s.sortOrder.value, page.sortOrder)))
      else
        var c := ConvertedPage(book, page, k + 1);
        if c.0.Failure? then Scan(s.pages, s.warnings + c.1, page.sortOrder, s.viewports, Some(c.0.error))
        else Scan(s.pages + [c.0.value], s.warnings + c.1, page.sortOrder, s.viewports + c.2, None)
  }

  /** The page loop after visiting `k` pages, stopping at the first
      exception. */
  function ScanPages(book: Book, k: int): Scan
    requires 0 <= k <= |book.pages|
  {
    if k == 0 then Scan([], [], None, 0, None) else PageStep(book, ScanPages(book, k - 1), k - 1)
  }

  /** What `ProcessDHFile` returns or raises, and what it prints. */
  function Process(book: Book): (Result<seq<PageOut>, Error>, seq<Warning>) {
    if book.pageCount != |book.pages| then (Failure(PageCountMismatch(book.pageCount, |book.pages|)), [])
    else
      var s := ScanPages(book, |book.pages|);
      if s.error.Some? then (Failure(s.error.value), s.warnings)
      else (Success(s.pages), s.warnings + (if book.viewportCount != s.viewports then [ViewportCountMismatch(book.viewportCount, s.viewports)] else []))
  }

  /** Once the viewport loop has raised, later steps change nothing. */
  lemma {:induction false} ViewportErrorSticks(page: Page, pageNumber: int, rtl: bool, j: int, j': int)
    requires 0 <= j <= j' <= |page.viewports|
    requires ScanViewports(page, pageNumber, rtl, j).error.Some?
    ensures ScanViewports(page, pageNumber, rtl, j') == ScanViewports(page, pageNumber, rtl, j)
    decreases j' - j
  {
    if j < j' {
      ViewportErrorSticks(page, pageNumber, rtl, j, j' - 1);
    }
  }

  /** Once the page loop has raised, later steps change nothing. */
  lemma {:induction false} PageErrorSticks(book: Book, k: int, k': int)
    requires 0 <= k <= k' <= |book.pages|
    requires ScanPages(book, k).error.Some?
    ensures ScanPages(book, k') == ScanPages(book, k)
    decreases k' - k
  {
    if k < k' {
      PageErrorSticks(book, k, k' - 1);
    }
  }

  /** `ProcessDHFile` on an already decoded file: it returns the converted
      pages or the exception it raises, together with everything it
      printed before returning or raising. */
  method ProcessDHFile(book: Book) returns (r: Result<seq<PageOut>, Error>, warnings: seq<Warning>)
    ensures (r, warnings) == Process(book)
  {
    warnings := [];
    var pageCount := book.pageCount;
    if pageCount != |book.pages| {
      return Failure(PageCountMismatch(pageCount, |book.pages|)), warnings;
    }
    var rtl := book.isRtl;
    var newPages: seq<PageOut> := [];
    var totalViewports: nat := 0;
    var sortOrder: Option<int> := None;
    // The exception raised, which ends the loop.
    var error: Option<Error> := None;
    var k := 0;
    while k < pageCount && error.None?
      invariant 0 <= k <= pageCount
      invariant ScanPages(book, k) == Scan(newPages, warnings, sortOrder, totalViewports, error)
    {
      newPages, warnings, sortOrder, totalViewports, error :=
        VisitPage(book, k, newPages, warnings, sortOrder, totalViewports);
      k := k + 1;
    }
    if error.Some? {
      PageErrorSticks(book, k, pageCount);
      return Failure(error.value), warnings;
    }
    ghost var done := ScanPages(book, |book.pages|);
    if book.viewportCount != totalViewports {
      warnings := warnings + [ViewportCountMismatch(book.viewportCount, totalViewports)];
    }
    assert warnings == done.warnings + (if book.viewportCount != done.viewports then [ViewportCountMismatch(book.viewportCount, done.viewports)] else []);
    return Success(newPages), warnings;
  }

  /** One pass of the page loop over the `k`-th page visited: the sort-order
      check, then the page's conversion. */
  method VisitPage(book: Book, k: int, pages: seq<PageOut>, warnings: seq<Warning>, sortOrder: Option<int>, total: nat)
    returns (pages': seq<PageOut>, warnings': seq<Warning>, sortOrder': Option<int>, total': nat, error: Option<Error>)
    requires 0 <= k < |book.pages|
    ensures Scan(pages', warnings', sortOrder', total', error) == PageStep(book, Scan(pages, warnings, sortOrder, total, None), k)
  {
    var page := book.pages[Order(|book.pages|, book.isRtl, k)];
    var realPageNum := k + 1;
    pages', warnings', sortOrder', total' := pages, warnings, sortOrder, total;
    error := CheckSortOrder(sortOrder, page.sortOrder, book.isRtl);
    if error.Some? {
      return;
    }
    ghost var c := ConvertedPage(book, page, realPageNum);
    sortOrder' := page.sortOrder;
    var out, t;
    out, warnings', t := ConvertPage(book, page, realPageNum, warnings, total);
    if out.Failure? {
      error := Some(out.error);
      assert c.0.Failure?;
    } else {
      pages' := pages + [out.value];
      total' := t;
    }
  }

  /** A viewport as fractions of its page's size, rounded by `RoundDict`. */
  method NormaliseViewport(page: Page, vp: Viewport) returns (v: Panel)
    requires page.width != 0.0 && page.height != 0.0
    ensures v == PanelOf(page, vp)
  {
    v := map["X" := vp.posX / page.width, "Y" := vp.posY / page.height,
             "W" := vp.width / page.width, "H" := vp.height / page.height];
    v := RoundDict(v);
  }

  /** The sort-order check of `ProcessDHFile`'s page loop: the exception it
      raises, if any. */
  method CheckSortOrder(sortOrder: Option<int>, pageSortOrder: Option<int>, rtl: bool) returns (error: Option<Error>)
    ensures error.None? <==> SortAccepts(sortOrder, pageSortOrder, rtl)
    ensures error.Some? ==> error.value == SortError(sortOrder.value, pageSortOrder)
  {
    if !Nonzero(sortOrder) || (pageSortOrder.Some? && ((!rtl && sortOrder.value < pageSortOrder.value) || (rtl && sortOrder.value > pageSortOrder.value))) {
      return None;
    } else if pageSortOrder.None? {
      return Some(UnorderableSortOrder(sortOrder.value));
    } else {
      return Some(SortOrderMismatch(sortOrder.value, pageSortOrder.value));
    }
  }

  /** The body of `ProcessDHFile`'s page loop once the sort order is
      accepted: the page's warnings, its viewport loop, and the elision of a
      single viewport covering the page. */
  method ConvertPage(book: Book, page: Page, realPageNum: int, warnings0: seq<Warning>, total0: nat)
    returns (r: Result<PageOut, Error>, warnings: seq<Warning>, total: nat)
    ensures var c := ConvertedPage(book, page, realPageNum);
            r == c.0 && warnings == warnings0 + c.1 && (r.Success? ==> total == total0 + c.2)
  {
    ghost var v := ScanViewports(page, realPageNum, book.isRtl, |page.viewports|);
    warnings := warnings0 + PageWarnings(book, page, realPageNum);
    var converted;
    converted, warnings, total := ConvertViewports(page, realPageNum, book.isRtl, warnings, total0);
    if converted.Failure? {
      assert warnings == warnings0 + (PageWarnings(book, page, realPageNum) + v.warnings);
      return Failure(converted.error), warnings, total;
    }
    var newViewpoint := converted.value;
    // The Python code reads the last viewport visited; with a single one
    // that is the page's only viewport.
    if |newViewpoint| == 1 && !page.skip && page.viewports[0].posX == 0.0 && page.viewports[0].posY == 0.0
       && page.viewports[0].width == page.width && page.viewports[0].height == page.height {
      warnings := warnings + [SingleFullViewpoint(realPageNum)];
      assert warnings == warnings0 + (PageWarnings(book, page, realPageNum) + v.warnings + [SingleFullViewpoint(realPageNum)]);
      return Success(None), warnings, total;
    }
    assert warnings == warnings0 + (PageWarnings(book, page, realPageNum) + v.warnings);
    return Success(Some(newViewpoint)), warnings, total;
  }

  /** The viewport loop of `ProcessDHFile` for one page: it extends the
      printed warnings and the viewport total and yields the page's
      converted viewpoints, or the exception. */
  method ConvertViewports(page: Page, realPageNum: int, rtl: bool, warnings0: seq<Warning>, total0: nat)
    returns (r: Result<seq<Panel>, Error>, warnings: seq<Warning>, total: nat)
    ensures var v := ScanViewports(page, realPageNum, rtl, |page.viewports|);
            && warnings == warnings0 + v.warnings
            && (v.error.None? ==> r == Success(v.panels) && |v.panels| == |page.viewports| && total == total0 + |page.viewports|)
            && (v.error.Some? ==> r == Failure(v.error.value))
  {
    var vps := page.viewports;
    var newViewpoint: seq<Panel> := [];
    warnings, total := warnings0, total0;
    // The warnings this page has printed so far.
    ghost var printed: seq<Warning> := [];
    // The exception raised, which ends the loop.
    var error: Option<Error> := None;
    var realVPNum := 0;
    while realVPNum < |vps| && error.None?
      invariant 0 <= realVPNum <= |vps| && total == total0 + realVPNum && (error.None? ==> |newViewpoint| == realVPNum)
      invariant warnings == warnings0 + printed
      invariant ScanViewports(page, realPageNum, rtl, realVPNum) == PageScan(newViewpoint, printed, error)
    {
      var vw;
      newViewpoint, vw, error := VisitViewport(page, realPageNum, rtl, realVPNum, newViewpoint, printed);
      warnings := warnings + vw;
      printed := printed + vw;
      realVPNum := realVPNum + 1;
      total := total + 1;
    }
    if error.Some? {
      ViewportErrorSticks(page, realPageNum, rtl, realVPNum, |vps|);
      r := Failure(error.value);
    } else {
      r := Success(newViewpoint);
    }
  }

  /** One pass of the viewport loop over the `j`-th viewport visited (from
      0): the numbering check, the warnings it prints, the size check and
      the normalised viewport. */
  method VisitViewport(page: Page, realPageNum: int, rtl: bool, j: int, panels: seq<Panel>, ghost printed: seq<Warning>)
    returns (panels': seq<Panel>, vw: seq<Warning>, error: Option<Error>)
    requires 0 <= j < |page.viewports|
    requires ScanViewports(page, realPageNum, rtl, j) == PageScan(panels, printed, None)
    ensures ScanViewports(page, realPageNum, rtl, j + 1) == PageScan(panels', printed + vw, error)
    ensures error.None? ==> |panels'| == |panels| + 1
  {
    var vp := page.viewports[Order(|page.viewports|, rtl, j)];
    panels', vw, error := panels, [], None;
    if vp.sortOrder != Some(j + 1) {
      error := Some(ViewpointSortOrderMismatch(vp.id, realPageNum, j + 1, vp.sortOrder));
      assert printed + vw == printed;
      return;
    }
    vw := ViewportWarnings(page, vp, realPageNum);
    if page.width == 0.0 || page.height == 0.0 {
      error := Some(ZeroPageSize(realPageNum));
      return;
    }
    var v := NormaliseViewport(page, vp);
    panels' := panels + [v];
  }

  // ---------------------------------------------------------------------
  // Properties of the conversion

  /** The `k`-th page visited. */
  function PageAt(book: Book, k: int): Page
    requires 0 <= k < |book.pages|
  {
    book.pages[Order(|book.pages|, book.isRtl, k)]
  }

  /** The `j`-th viewport of a page visited. */
  function ViewportAt(page: Page, rtl: bool, j: int): Viewport
    requires 0 <= j < |page.viewports|
  {
    page.viewports[Order(|page.viewports|, rtl, j)]
  }

  /** Every sort-order check of the page loop passes. */
  ghost predicate SortOrdersAccepted(book: Book) {
    forall k :: 0 < k < |book.pages| ==> SortAccepts(PageAt(book, k - 1).sortOrder, PageAt(book, k).sortOrder, book.isRtl)
  }

  /** The page's viewports are numbered 1, 2, ... in the order visited, and
      a page with viewports has a non-zero size. */
  ghost predicate ViewportsAccepted(page: Page, rtl: bool) {
    && (forall j :: 0 <= j < |page.viewports| ==> ViewportAt(page, rtl, j).sortOrder == Some(j + 1))
    && (|page.viewports| > 0 ==> page.width != 0.0 && page.height != 0.0)
  }

  /** Number of viewports of a sequence of pages. */
  function ViewportTotal(pages: seq<Page>): nat {
    if pages == [] then 0 else |pages[0].viewports| + ViewportTotal(pages[1..])
  }

  /** Number of viewports of the first `k` pages visited. */
  function Visited(book: Book, k: int): nat
    requires 0 <= k <= |book.pages|
  {
    if k == 0 then 0 else Visited(book, k - 1) + |PageAt(book, k - 1).viewports|
  }

  /** The first `j` viewports visited, normalised. */
  function PanelsOf(page: Page, rtl: bool, j: int): (r: seq<Panel>)
    requires 0 <= j <= |page.viewports| && (j > 0 ==> page.width != 0.0 && page.height != 0.0)
    ensures |r| == j
    ensures forall i :: 0 <= i < j ==> r[i] == PanelOf(page, ViewportAt(page, rtl, i))
  {
    if j == 0 then [] else PanelsOf(page, rtl, j - 1) + [PanelOf(page, ViewportAt(page, rtl, j - 1))]
  }

  /** No warning in `ws` is the viewport-count warning. */
  predicate NoCountWarning(ws: seq<Warning>) {
    ws == [] || (!ws[0].ViewportCountMismatch? && NoCountWarning(ws[1..]))
  }

  lemma {:induction false} NoCountWarningAppend(a: seq<Warning>, b: seq<Warning>)
    ensures NoCountWarning(a + b) <==> NoCountWarning(a) && NoCountWarning(b)
  {
    if a == [] {
      assert a + b == b;
    } else {
      assert (a + b)[1..] == a[1..] + b;
      NoCountWarningAppend(a[1..], b);
    }
  }

  lemma {:induction false} NoCountWarningMeans(ws: seq<Warning>)
    ensures NoCountWarning(ws) <==> forall w :: w in ws ==> !w.ViewportCountMismatch?
  {
    if ws != [] {
      NoCountWarningMeans(ws[1..]);
      assert forall w :: w in ws <==> w == ws[0] || w in ws[1..];
    }
  }

  /** The viewport loop of a page never prints the viewport-count warning. */
  lemma {:induction false} ScanViewportsWarnings(page: Page, pageNumber: int, rtl: bool, j: int)
    requires 0 <= j <= |page.viewports|
    ensures NoCountWarning(ScanViewports(page, pageNumber, rtl, j).warnings)
  {
    if j > 0 {
      ScanViewportsWarnings(page, pageNumber, rtl, j - 1);
      var s := ScanViewports(page, pageNumber, rtl, j - 1);
      var vw := ViewportWarnings(page, ViewportAt(page, rtl, j - 1), pageNumber);
      NoCountWarningMeans(vw);
      NoCountWarningAppend(s.warnings, vw);
    }
  }

  /** The viewport loop of a page runs to the end exactly when the page's
      viewports are accepted, and then yields every viewport normalised, in
      the order visited. */
  lemma {:induction false} ScanViewportsFacts(page: Page, pageNumber: int, rtl: bool, j: int)
    requires 0 <= j <= |page.viewports|
    ensures var v := ScanViewports(page, pageNumber, rtl, j);
            && (v.error.None? <==> NumberedUpTo(page, rtl, j) && (j > 0 ==> page.width != 0.0 && page.height != 0.0))
            && (v.error.None? ==> v.panels == PanelsOf(page, rtl, j))
  {
    if j > 0 {
      ScanViewportsFacts(page, pageNumber, rtl, j - 1);
    }
  }

  /** The first `j` viewports visited are numbered 1 to `j`. */
  ghost predicate NumberedUpTo(page: Page, rtl: bool, j: int)
    requires 0 <= j <= |page.viewports|
  {
    j == 0 || (NumberedUpTo(page, rtl, j - 1) && ViewportAt(page, rtl, j - 1).sortOrder == Some(j))
  }

  lemma {:induction false} NumberedUpToAll(page: Page, rtl: bool, j: int)
    requires 0 <= j <= |page.viewports|
    ensures NumberedUpTo(page, rtl, j) <==> forall i :: 0 <= i < j ==> ViewportAt(page, rtl, i).sortOrder == Some(i + 1)
  {
    if j > 0 {
      NumberedUpToAll(page, rtl, j - 1);
    }
  }

  /** The output for one accepted page: null when elided, otherwise its
      viewports normalised in the order visited. */
  ghost function PageOutput(page: Page, rtl: bool): PageOut
    requires ViewportsAccepted(page, rtl)
  {
    if Elided(page) then None
    else Some(PanelsOf(page, rtl, |page.viewports|))
  }

  /** A page converts without an exception exactly when its viewports are
      accepted, and then into `PageOutput`. */
  lemma ConvertedPageFacts(book: Book, page: Page, pageNumber: int)
    ensures var c := ConvertedPage(book, page, pageNumber);
            && (c.0.Success? <==> ViewportsAccepted(page, book.isRtl))
            && (c.0.Success? ==> c.0.value == PageOutput(page, book.isRtl))
            && c.2 == |page.viewports|
  {
    ScanViewportsFacts(page, pageNumber, book.isRtl, |page.viewports|);
    NumberedUpToAll(page, book.isRtl, |page.viewports|);
  }

  /** One accepted pass of the page loop, in terms of the page visited. */
  lemma PageStepFacts(book: Book, s: Scan, k: int)
    requires 0 <= k < |book.pages| && s.error.None?
    ensures var t := PageStep(book, s, k);
            var page := PageAt(book, k);
            && (t.error.None? <==> SortAccepts(s.sortOrder, page.sortOrder, book.isRtl) && ViewportsAccepted(page, book.isRtl))
            && (t.error.None? ==> t.sortOrder == page.sortOrder && t.viewports == s.viewports + |page.viewports|)
            && (t.error.None? ==> t.pages == s.pages + [PageOutput(page, book.isRtl)])
  {
    ConvertedPageFacts(book, PageAt(book, k), k + 1);
  }

  /** A pass of the page loop prints no viewport-count warning. */
  lemma PageStepWarnings(book: Book, s: Scan, k: int)
    requires 0 <= k < |book.pages|
    requires NoCountWarning(s.warnings)
    ensures NoCountWarning(PageStep(book, s, k).warnings)
  {
    var c := ConvertedPage(book, PageAt(book, k), k + 1);
    ConvertedPageWarnings(book, PageAt(book, k), k + 1);
    NoCountWarningAppend(s.warnings, c.1);
  }

  /** A converted page prints no viewport-count warning. */
  lemma ConvertedPageWarnings(book: Book, page: Page, pageNumber: int)
    ensures NoCountWarning(ConvertedPage(book, page, pageNumber).1)
  {
    var pw := PageWarnings(book, page, pageNumber);
    var vw := ScanViewports(page, pageNumber, book.isRtl, |page.viewports|).warnings;
    ScanViewportsWarnings(page, pageNumber, book.isRtl, |page.viewports|);
    NoCountWarningMeans(pw);
    NoCountWarningMeans([SingleFullViewpoint(pageNumber)]);
    NoCountWarningAppend(pw, vw);
    NoCountWarningAppend(pw + vw, [SingleFullViewpoint(pageNumber)]);
  }

  /** Every check of the first `k` pages visited passes: each sort order
      against the one before it, and each page's viewports. */
  ghost predicate AcceptedUpTo(book: Book, k: int)
    requires 0 <= k <= |book.pages|
  {
    k == 0 ||
    (&& AcceptedUpTo(book, k - 1)
     && (k > 1 ==> SortAccepts(PageAt(book, k - 2).sortOrder, PageAt(book, k - 1).sortOrder, book.isRtl))
     && ViewportsAccepted(PageAt(book, k - 1), book.isRtl))
  }

  /** `AcceptedUpTo` checks every page visited so far. */
  lemma {:induction false} AcceptedUpToAll(book: Book, k: int)
    requires 0 <= k <= |book.pages|
    ensures AcceptedUpTo(book, k) <==>
              && (forall i :: 0 < i < k ==> SortAccepts(PageAt(book, i - 1).sortOrder, PageAt(book, i).sortOrder, book.isRtl))
              && (forall i :: 0 <= i < k ==> ViewportsAccepted(PageAt(book, i), book.isRtl))
  {
    if k > 0 {
      AcceptedUpToAll(book, k - 1);
    }
  }

  /** Without an exception, the page loop remembers the sort order of the
      last page visited. */
  lemma {:induction false} ScanPagesSortOrder(book: Book, k: int)
    requires 0 <= k <= |book.pages|
    ensures var s := ScanPages(book, k);
            s.error.None? ==> s.sortOrder == if k == 0 then None else PageAt(book, k - 1).sortOrder
  {
    if k > 0 {
      ScanPagesSortOrder(book, k - 1);
      var s := ScanPages(book, k - 1);
      assert ScanPages(book, k) == PageStep(book, s, k - 1);
    }
  }

  /** The page loop after `k` pages has raised nothing exactly when every
      check so far passed. */
  lemma {:induction false} ScanPagesAccepted(book: Book, k: int)
    requires 0 <= k <= |book.pages|
    ensures ScanPages(book, k).error.None? <==> AcceptedUpTo(book, k)
  {
    if k > 0 {
      ScanPagesAccepted(book, k - 1);
      ScanPagesSortOrder(book, k - 1);
      PageStepAccepted(book, ScanPages(book, k - 1), k - 1);
    }
  }

  /** A pass of the page loop keeps the correspondence between raising
      nothing and every check passing. */
  lemma PageStepAccepted(book: Book, s: Scan, k: int)
    requires 0 <= k < |book.pages|
    requires s.error.None? <==> AcceptedUpTo(book, k)
    requires s.error.None? ==> s.sortOrder == if k == 0 then None else PageAt(book, k - 1).sortOrder
    ensures PageStep(book, s, k).error.None? <==> AcceptedUpTo(book, k + 1)
  {
    if s.error.None? {
      PageStepFacts(book, s, k);
    }
  }

  /** Without an exception, the page loop after `k` pages has produced one
      output per page and counted the viewports of the pages visited. */
  lemma {:induction false} ScanPagesCounts(book: Book, k: int)
    requires 0 <= k <= |book.pages|
    ensures var s := ScanPages(book, k);
            s.error.None? ==> |s.pages| == k && s.viewports == Visited(book, k)
  {
    if k > 0 {
      ScanPagesCounts(book, k - 1);
      PageStepCounts(book, ScanPages(book, k - 1), k - 1);
    }
  }

  lemma PageStepCounts(book: Book, s: Scan, k: int)
    requires 0 <= k < |book.pages|
    requires s.error.None? ==> |s.pages| == k && s.viewports == Visited(book, k)
    ensures var t := PageStep(book, s, k);
            t.error.None? ==> |t.pages| == k + 1 && t.viewports == Visited(book, k + 1)
  {
    if s.error.None? {
      PageStepFacts(book, s, k);
    }
  }

  /** `outs` holds the outputs of the first `k` pages visited, each of
      which passed its viewport checks. */
  ghost predicate OutputsUpTo(book: Book, outs: seq<PageOut>, k: int)
    requires 0 <= k <= |book.pages|
  {
    && |outs| == k
    && forall i :: 0 <= i < k ==> (ViewportsAccepted(PageAt(book, i), book.isRtl)
                                  && outs[i] == PageOutput(PageAt(book, i), book.isRtl))
  }

  /** Without an exception, output `i` of the page loop is the output of
      the `i`-th page visited. */
  lemma {:induction false} ScanPagesContents(book: Book, k: int)
    requires 0 <= k <= |book.pages|
    ensures ScanPages(book, k).error.None? ==> OutputsUpTo(book, ScanPages(book, k).pages, k)
  {
    if k > 0 {
      ScanPagesContents(book, k - 1);
      PageStepContents(book, ScanPages(book, k - 1), k - 1);
    }
  }

  lemma PageStepContents(book: Book, s: Scan, k: int)
    requires 0 <= k < |book.pages|
    requires s.error.None? ==> OutputsUpTo(book, s.pages, k)
    ensures PageStep(book, s, k).error.None? ==> OutputsUpTo(book, PageStep(book, s, k).pages, k + 1)
  {
    if s.error.None? {
      PageStepFacts(book, s, k);
    }
  }

  /** The page loop never prints a viewport-count warning. */
  lemma {:induction false} ScanPagesWarnings(book: Book, k: int)
    requires 0 <= k <= |book.pages|
    ensures NoCountWarning(ScanPages(book, k).warnings)
  {
    if k > 0 {
      ScanPagesWarnings(book, k - 1);
      var s := ScanPages(book, k - 1);
      PageStepWarnings(book, s, k - 1);
      assert ScanPages(book, k).warnings == PageStep(book, s, k - 1).warnings;
    }
  }

  /** The conversion succeeds exactly when the page count is right, every
      sort-order check passes, and every page's viewports are numbered in
      order (and sit on a page of non-zero size). */
  lemma ProcessSucceeds(book: Book)
    ensures Process(book).0.Success? <==>
              && book.pageCount == |book.pages|
              && SortOrdersAccepted(book)
              && (forall p :: 0 <= p < |book.pages| ==> ViewportsAccepted(book.pages[p], book.isRtl))
  {
    var n := |book.pages|;
    ScanPagesAccepted(book, n);
    AcceptedUpToAll(book, n);
    assert SortOrdersAccepted(book) <==> (forall i :: 0 < i < n ==> SortAccepts(PageAt(book, i - 1).sortOrder, PageAt(book, i).sortOrder, book.isRtl));
    EveryPageVisited(book);
  }

  /** Every page is visited: the viewport checks pass for every page
      visited exactly when they pass for every page of the book. */
  lemma EveryPageVisited(book: Book)
    ensures (forall i :: 0 <= i < |book.pages| ==> ViewportsAccepted(PageAt(book, i), book.isRtl)) <==>
            (forall p :: 0 <= p < |book.pages| ==> ViewportsAccepted(book.pages[p], book.isRtl))
  {
    var n := |book.pages|;
    if forall i :: 0 <= i < n ==> ViewportsAccepted(PageAt(book, i), book.isRtl) {
      forall p | 0 <= p < n ensures ViewportsAccepted(book.pages[p], book.isRtl) {
        var i := Order(n, book.isRtl, p);
        assert Order(n, book.isRtl, i) == p;
        assert PageAt(book, i) == book.pages[p];
      }
    }
  }

  /** On success there is one output per page, in reading order (the last
      page first for right-to-left books); a page's output is null exactly
      when it is elided, and otherwise lists its viewports in reading order
      as fractions of the page, rounded. */
  lemma ProcessOutput(book: Book)
    requires Process(book).0.Success?
    ensures var out := Process(book).0.value;
            && |out| == |book.pages|
            && (forall k :: 0 <= k < |out| ==> (out[k].None? <==> Elided(PageAt(book, k))))
            && (forall k :: 0 <= k < |out| && out[k].Some? ==> |out[k].value| == |PageAt(book, k).viewports|)
            && (forall k, j :: 0 <= k < |out| && out[k].Some? && 0 <= j < |out[k].value| ==>
                  PageAt(book, k).width != 0.0 && PageAt(book, k).height != 0.0
                  && out[k].value[j] == PanelOf(PageAt(book, k), ViewportAt(PageAt(book, k), book.isRtl, j)))
  {
    ScanPagesContents(book, |book.pages|);
  }

  /** Consecutive accepted sort orders that are all non-zero increase from
      page to page, in either reading direction. */
  lemma {:induction false} SortOrdersIncrease(book: Book)
    requires Process(book).0.Success?
    requires forall p :: 0 <= p < |book.pages| ==> book.pages[p].sortOrder.Some? && book.pages[p].sortOrder.value != 0
    ensures forall p, q :: 0 <= p < q < |book.pages| ==> book.pages[p].sortOrder.value < book.pages[q].sortOrder.value
  {
    var n := |book.pages|;
    ProcessSucceeds(book);
    forall p | 0 <= p < n - 1
      ensures book.pages[p].sortOrder.value < book.pages[p + 1].sortOrder.value
    {
      if book.isRtl {
        var k := n - 1 - p;
        assert PageAt(book, k - 1) == book.pages[p + 1] && PageAt(book, k) == book.pages[p];
      } else {
        assert PageAt(book, p) == book.pages[p] && PageAt(book, p + 1) == book.pages[p + 1];
      }
    }
    forall p, q | 0 <= p < q < n
      ensures book.pages[p].sortOrder.value < book.pages[q].sortOrder.value
    {
      ChainIncreases(book.pages, p, q);
    }
  }

  /** Adjacent increase gives increase between any two pages. */
  lemma {:induction false} ChainIncreases(pages: seq<Page>, p: int, q: int)
    requires forall i :: 0 <= i < |pages| ==> pages[i].sortOrder.Some?
    requires forall i :: 0 <= i < |pages| - 1 ==> pages[i].sortOrder.value < pages[i + 1].sortOrder.value
    requires 0 <= p < q < |pages|
    ensures pages[p].sortOrder.value < pages[q].sortOrder.value
    decreases q - p
  {
    if p + 1 < q {
      ChainIncreases(pages, p + 1, q);
    }
  }

  /** On success the viewports of every page carry sort orders 1, 2, ...
      in reading order: left to right, or from the last one for
      right-to-left books. */
  lemma ViewpointNumbering(book: Book)
    requires Process(book).0.Success?
    ensures forall p, j :: 0 <= p < |book.pages| && 0 <= j < |book.pages[p].viewports| ==>
              book.pages[p].viewports[j].sortOrder == Some(if book.isRtl then |book.pages[p].viewports| - j else j + 1)
  {
    ProcessSucceeds(book);
    forall p, j | 0 <= p < |book.pages| && 0 <= j < |book.pages[p].viewports|
      ensures book.pages[p].viewports[j].sortOrder == Some(if book.isRtl then |book.pages[p].viewports| - j else j + 1)
    {
      var page := book.pages[p];
      var m := |page.viewports|;
      assert ViewportsAccepted(page, book.isRtl);
      assert ViewportAt(page, book.isRtl, Order(m, book.isRtl, j)) == page.viewports[j];
    }
  }

  lemma {:induction false} ViewportTotalAppend(a: seq<Page>, b: seq<Page>)
    ensures ViewportTotal(a + b) == ViewportTotal(a) + ViewportTotal(b)
  {
    if a != [] {
      assert (a + b)[1..] == a[1..] + b;
      ViewportTotalAppend(a[1..], b);
    } else {
      assert a + b == b;
    }
  }

  lemma ViewportTotalOne(p: Page)
    ensures ViewportTotal([p]) == |p.viewports|
  {
    assert [p][1..] == [];
  }

  /** The viewports visited by the first `k` pages are those of the first
      `k` pages, or of the last `k` for right-to-left books. */
  lemma {:induction false} VisitedPages(book: Book, k: int)
    requires 0 <= k <= |book.pages|
    ensures !book.isRtl ==> Visited(book, k) == ViewportTotal(book.pages[..k])
    ensures book.isRtl ==> Visited(book, k) == ViewportTotal(book.pages[|book.pages| - k..])
  {
    var n := |book.pages|;
    if k == 0 {
      assert book.pages[..0] == [] && book.pages[n..] == [];
    } else {
      VisitedPages(book, k - 1);
      assert Visited(book, k) == Visited(book, k - 1) + |PageAt(book, k - 1).viewports|;
      if book.isRtl {
        var p := book.pages[n - k];
        assert PageAt(book, k - 1) == p;
        assert book.pages[n - k..] == [p] + book.pages[n - k + 1..];
        ViewportTotalAppend([p], book.pages[n - k + 1..]);
        ViewportTotalOne(p);
      } else {
        var p := book.pages[k - 1];
        assert PageAt(book, k - 1) == p;
        assert book.pages[..k] == book.pages[..k - 1] + [p];
        ViewportTotalAppend(book.pages[..k - 1], [p]);
        ViewportTotalOne(p);
      }
    }
  }

  /** On success the count warning is printed, last, exactly when the
      book's declared viewport count differs from the number of viewports
      of its pages. */
  lemma ViewportCountWarning(book: Book)
    requires Process(book).0.Success?
    ensures var ws := Process(book).1;
            && ((exists w :: w in ws && w.ViewportCountMismatch?) <==> book.viewportCount != ViewportTotal(book.pages))
            && (book.viewportCount != ViewportTotal(book.pages) ==>
                  ws[|ws| - 1] == ViewportCountMismatch(book.viewportCount, ViewportTotal(book.pages)))
  {
    var n := |book.pages|;
    ScanPagesCounts(book, n);
    ScanPagesWarnings(book, n);
    NoCountWarningMeans(ScanPages(book, n).warnings);
    VisitedPages(book, n);
    assert book.pages[..n] == book.pages && book.pages[n - n..] == book.pages;
    var ws := Process(book).1;
    if book.viewportCount != ViewportTotal(book.pages) {
      assert ws[|ws| - 1] in ws;
    }
  }

  /** A viewport inside a page of positive size is normalised to values in
      [0, 1]. */
  lemma NormalisedInUnit(page: Page, vp: Viewport)
    requires page.width > 0.0 && page.height > 0.0
    requires 0.0 <= vp.posX && 0.0 <= vp.width && vp.posX + vp.width <= page.width
    requires 0.0 <= vp.posY && 0.0 <= vp.height && vp.posY + vp.height <= page.height
    ensures forall key :: key in PanelOf(page, vp) ==> 0.0 <= PanelOf(page, vp)[key] <= 1.0
  {
    Fraction(vp.posX, page.width);
    Fraction(vp.width, page.width);
    Fraction(vp.posY, page.height);
    Fraction(vp.height, page.height);
  }

  /** A part of a positive whole, rounded, is a fraction in [0, 1]. */
  lemma Fraction(part: real, whole: real)
    requires whole > 0.0 && 0.0 <= part <= whole
    ensures 0.0 <= Round3(part / whole) <= 1.0
  {
    var f := part / whole;
    assert f * whole == part;
    Round3Unit(f);
  }
}
