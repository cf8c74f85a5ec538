/**
 * The offset-based pager of the merchant list: pages are numbered from 1, the position is an offset
 * into the rows, and the page window marks skipped pages with `-1`.
 */
module CommonPagination {
  import opened Wrappers
  import Decimal

  /** The window entry that renders as an ellipsis. */
  const EllipsisMark: int := -1

  /** Up to this many pages are all shown. */
  const MaxVisible: int := 5

  /** `Math.floor(offset / limit) + 1`: the page that holds row `offset`. */
  function CurrentPage(offset: int, limit: int): (p: int)
    requires limit >= 1
    ensures limit * (p - 1) <= offset < limit * p
  {
    offset / limit + 1
  }

  /** `Math.ceil(total / limit)`: the number of pages. */
  function TotalPages(total: int, limit: int): (n: int)
    requires limit >= 1
    ensures limit * (n - 1) < total <= limit * n
  {
    (total + limit - 1) / limit
  }

  /** The page numbers `from`, ..., `to` (none when `to < from`). */
  function Span(from: int, to: int): (r: seq<int>)
    ensures |r| == if to < from then 0 else to - from + 1
    ensures forall k :: 0 <= k < |r| ==> r[k] == from + k
  {
    if to < from then [] else seq(to - from + 1, k => from + k)
  }

  /** The window `getPageNumbers` returns for a current page and a page count. */
  function PageWindow(currentPage: int, totalPages: int): seq<int> {
    if totalPages <= MaxVisible then Span(1, totalPages)
    else if currentPage <= 3 then [1, 2, 3, 4, EllipsisMark, totalPages]
    else if currentPage >= totalPages - 2 then
      [1, EllipsisMark, totalPages - 3, totalPages - 2, totalPages - 1, totalPages]
    else [1, EllipsisMark, currentPage - 1, currentPage, currentPage + 1, EllipsisMark, totalPages]
  }

  /** `getPageNumbers`: pushes the entries of the window onto a local array. */
  method GetPageNumbers(currentPage: int, totalPages: int) returns (pages: seq<int>)
    ensures pages == PageWindow(currentPage, totalPages)
  {
    pages := [];
    if totalPages <= MaxVisible {
      var i := 1;
      while i <= totalPages
        invariant 1 <= i <= (if totalPages >= 1 then totalPages + 1 else 1)
        invariant pages == Span(1, i - 1)
      {
        pages := pages + [i];
        i := i + 1;
      }
    } else if currentPage <= 3 {
      pages := pages + [1, 2, 3, 4, EllipsisMark, totalPages];
    } else if currentPage >= totalPages - 2 {
      pages := pages + [1, EllipsisMark, totalPages - 3, totalPages - 2, totalPages - 1, totalPages];
    } else {
      pages := pages + [1, EllipsisMark, currentPage - 1, currentPage, currentPage + 1, EllipsisMark, totalPages];
    }
  }

  /** The page numbers of a window are strictly increasing and lie in `1..totalPages`. */
  predicate PagesIncreasing(w: seq<int>, totalPages: int) {
    (forall i :: 0 <= i < |w| && w[i] != EllipsisMark ==> 1 <= w[i] <= totalPages) &&
    (forall i, j :: 0 <= i < j < |w| && w[i] != EllipsisMark && w[j] != EllipsisMark ==> w[i] < w[j])
  }

  /** Every `-1` sits between two page numbers at least two apart, so it hides at least one page. */
  predicate EllipsesHidePages(w: seq<int>) {
    forall i :: 0 <= i < |w| && w[i] == EllipsisMark ==>
      0 < i < |w| - 1 && w[i - 1] != EllipsisMark && w[i + 1] != EllipsisMark && w[i + 1] - w[i - 1] > 1
  }

  /** Up to five pages, the window is exactly `1..totalPages`. */
  lemma SmallWindowListsAll(currentPage: int, totalPages: int)
    requires 0 <= totalPages <= MaxVisible
    ensures |PageWindow(currentPage, totalPages)| == totalPages
    ensures forall k :: 0 <= k < totalPages ==> PageWindow(currentPage, totalPages)[k] == k + 1
  {
  }

  /**
   * Beyond five pages, the window has six or seven entries, starts at page 1 and ends at the last page,
   * its page numbers increase strictly and every `-1` hides at least one page, whatever the current page.
   */
  lemma LargeWindowShape(currentPage: int, totalPages: int)
    requires totalPages > MaxVisible
    ensures 6 <= |PageWindow(currentPage, totalPages)| <= 7
    ensures PageWindow(currentPage, totalPages)[0] == 1
    ensures PageWindow(currentPage, totalPages)[|PageWindow(currentPage, totalPages)| - 1] == totalPages
    ensures PagesIncreasing(PageWindow(currentPage, totalPages), totalPages)
    ensures EllipsesHidePages(PageWindow(currentPage, totalPages))
  {
    if currentPage <= 3 {
      HeadWindow(currentPage, totalPages);
    } else if currentPage >= totalPages - 2 {
      TailWindow(currentPage, totalPages);
    } else {
      MiddleWindow(currentPage, totalPages);
    }
  }

  /** The shape a window of more than five pages keeps: see `LargeWindowShape`. */
  predicate WellShaped(w: seq<int>, totalPages: int) {
    6 <= |w| <= 7 && w[0] == 1 && w[|w| - 1] == totalPages
    && PagesIncreasing(w, totalPages) && EllipsesHidePages(w)
  }

  lemma HeadWindow(currentPage: int, totalPages: int)
    requires totalPages > MaxVisible && currentPage <= 3
    ensures WellShaped(PageWindow(currentPage, totalPages), totalPages)
  {
  }

  lemma TailWindow(currentPage: int, totalPages: int)
    requires totalPages > MaxVisible && 3 < currentPage && currentPage >= totalPages - 2
    ensures WellShaped(PageWindow(currentPage, totalPages), totalPages)
  {
  }

  lemma MiddleWindow(currentPage: int, totalPages: int)
    requires totalPages > MaxVisible && 3 < currentPage < totalPages - 2
    ensures WellShaped(PageWindow(currentPage, totalPages), totalPages)
  {
  }

  /** A current page inside the page range always appears in the window. */
  lemma CurrentPageShown(currentPage: int, totalPages: int)
    requires 1 <= currentPage <= totalPages
    ensures currentPage in PageWindow(currentPage, totalPages)
  {
    var w := PageWindow(currentPage, totalPages);
    if totalPages <= MaxVisible {
      assert w[currentPage - 1] == currentPage;
    } else if currentPage <= 3 {
      assert w[currentPage - 1] == currentPage;
    } else if currentPage >= totalPages - 2 {
      assert w[currentPage - totalPages + 5] == currentPage;
    } else {
      assert w[3] == currentPage;
    }
  }

  /** What the pager shows: its window, the row range of the info line and the two disabled flags. */
  datatype PagerView = PagerView(
    pages: seq<int>,
    firstShown: int,
    lastShown: int,
    previousDisabled: bool,
    nextDisabled: bool)

  /** The rendered pager, or nothing at all when there is at most one page. */
  function Render(total: int, limit: int, offset: int): (v: Option<PagerView>)
    requires limit >= 1
    ensures v.None? <==> TotalPages(total, limit) <= 1
    ensures v.Some? ==> v.value.pages == PageWindow(CurrentPage(offset, limit), TotalPages(total, limit))
  {
    var totalPages := TotalPages(total, limit);
    if totalPages <= 1 then None
    else
      Some(PagerView(
        PageWindow(CurrentPage(offset, limit), totalPages),
        offset + 1,
        if offset + limit < total then offset + limit else total,
        offset == 0,
        offset + limit >= total))
  }

  /** Nothing is rendered exactly when all rows fit on one page. */
  lemma HiddenIffOnePage(total: int, limit: int, offset: int)
    requires limit >= 1
    ensures Render(total, limit, offset).None? <==> total <= limit
  {
    var n := TotalPages(total, limit);
    if n >= 2 {
      Decimal.MulLe(limit, 1, n - 1);
    } else {
      Decimal.MulLe(limit, n, 1);
    }
  }

  /**
   * The info line "Showing first - last of total" of a page that starts inside the rows names rows of
   * the list only, at most a page of them, and a full page whenever rows remain after it.
   */
  lemma InfoLineWithinRows(total: int, limit: int, offset: int)
    requires limit >= 1 && 0 <= offset < total
    ensures Render(total, limit, offset).Some? ==>
              var v := Render(total, limit, offset).value;
              1 <= v.firstShown <= v.lastShown <= total &&
              v.lastShown - v.firstShown + 1 <= limit &&
              (offset + limit <= total ==> v.lastShown - v.firstShown + 1 == limit)
  {
  }

  /** `handlePrevious`: the offset of the previous page, not below 0, emitted only when `offset > 0`. */
  function PreviousOffset(offset: int, limit: int): (r: Option<int>)
    requires limit >= 1
    ensures r.Some? <==> offset > 0
    ensures r.Some? ==> r.value >= 0 && r.value < offset
  {
    if offset > 0 then Some(if offset - limit > 0 then offset - limit else 0) else None
  }

  /** `handleNext`: the offset of the next page, emitted only when rows remain after this page. */
  function NextOffset(total: int, limit: int, offset: int): (r: Option<int>)
    ensures r.Some? <==> offset + limit < total
    ensures r.Some? ==> r.value < total
  {
    if offset + limit < total then Some(offset + limit) else None
  }

  /** `handlePageClick`: the offset of the first row of a 1-based page. */
  function PageOffset(page: int, limit: int): (o: int)
    ensures limit >= 1 ==> limit * (page - 1) <= o < limit * page
    ensures page >= 1 && limit >= 0 ==> o >= 0
  {
    (page - 1) * limit
  }

  /** Clicking a page button moves to that very page. */
  lemma PageClickLandsOnPage(page: int, limit: int)
    requires limit >= 1
    ensures CurrentPage(PageOffset(page, limit), limit) == page
  {
    var o := PageOffset(page, limit);
    assert o == limit * (page - 1);
  }

  /** From a page boundary, Next moves to the following page. */
  lemma NextMovesOnePage(total: int, limit: int, offset: int)
    requires limit >= 1 && offset >= 0 && offset % limit == 0
    ensures NextOffset(total, limit, offset).Some? ==>
              CurrentPage(NextOffset(total, limit, offset).value, limit) == CurrentPage(offset, limit) + 1
  {
    var k := offset / limit;
    assert offset == limit * k;
    if offset + limit < total {
      assert PageOffset(k + 2, limit) == offset + limit;
      PageClickLandsOnPage(k + 2, limit);
    }
  }

  /** From a page boundary after the first page, Previous moves to the page before. */
  lemma PreviousMovesOnePage(limit: int, offset: int)
    requires limit >= 1 && offset >= 0 && offset % limit == 0
    ensures PreviousOffset(offset, limit).Some? ==>
              CurrentPage(PreviousOffset(offset, limit).value, limit) == CurrentPage(offset, limit) - 1
  {
    var k := offset / limit;
    assert offset == limit * k;
    if offset > 0 {
      assert k >= 1;
      assert offset - limit >= 0;
      assert PageOffset(k, limit) == offset - limit;
      PageClickLandsOnPage(k, limit);
    }
  }

  /** Each button of a rendered pager is enabled exactly when its handler emits an offset. */
  lemma ButtonsMatchHandlers(total: int, limit: int, offset: int)
    requires limit >= 1
    ensures Render(total, limit, offset).Some? ==>
              (Render(total, limit, offset).value.previousDisabled <==> offset == 0) &&
              (offset >= 0 ==> (Render(total, limit, offset).value.previousDisabled <==> PreviousOffset(offset, limit).None?)) &&
              (Render(total, limit, offset).value.nextDisabled <==> NextOffset(total, limit, offset).None?)
  {
  }
}
