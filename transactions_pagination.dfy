/**
 * The pager under the transaction table: pages are numbered from 0, a window of at most seven entries
 * shows the first page, the last page and the pages around the current one, and `'...'` stands for the
 * pages it skips.
 */
module TransactionsPagination {

  /** One entry of the page window: a page button or the `'...'` marker. */
  datatype Entry = Page(n: int) | Ellipsis

  /** Up to this many pages are all shown. */
  const MaxVisible: int := 5

  /** The page buttons `from`, `from + 1`, ..., `to - 1` (none when `to <= from`). */
  function Run(from: int, to: int): (r: seq<Entry>)
    ensures |r| == if to <= from then 0 else to - from
    ensures forall k :: 0 <= k < |r| ==> r[k] == Page(from + k)
  {
    if to <= from then [] else seq(to - from, k => Page(from + k))
  }

  /** The window `getPageNumbers` returns for a current page and a page count. */
  function PageWindow(currentPage: int, totalPages: int): seq<Entry> {
    if totalPages <= MaxVisible then Run(0, totalPages)
    else if currentPage <= 2 then Run(0, 3) + [Ellipsis, Page(totalPages - 1)]
    else if currentPage >= totalPages - 3 then [Page(0), Ellipsis] + Run(totalPages - 3, totalPages)
    else [Page(0), Ellipsis, Page(currentPage - 1), Page(currentPage), Page(currentPage + 1), Ellipsis,
          Page(totalPages - 1)]
  }

  /** `getPageNumbers`: pushes the entries of the window one by one. */
  method GetPageNumbers(currentPage: int, totalPages: int) returns (pages: seq<Entry>)
    ensures pages == PageWindow(currentPage, totalPages)
  {
    pages := [];
    if totalPages <= MaxVisible {
      var i := 0;
      while i < totalPages
        invariant 0 <= i <= (if totalPages > 0 then totalPages else 0)
        invariant pages == Run(0, i)
      {
        pages := pages + [Page(i)];
        i := i + 1;
      }
    } else if currentPage <= 2 {
      var i := 0;
      while i < 3
        invariant 0 <= i <= 3
        invariant pages == Run(0, i)
      {
        pages := pages + [Page(i)];
        i := i + 1;
      }
      pages := pages + [Ellipsis];
      pages := pages + [Page(totalPages - 1)];
    } else if currentPage >= totalPages - 3 {
      pages := pages + [Page(0)];
      pages := pages + [Ellipsis];
      var i := totalPages - 3;
      while i < totalPages
        invariant totalPages - 3 <= i <= totalPages
        invariant pages == [Page(0), Ellipsis] + Run(totalPages - 3, i)
      {
        pages := pages + [Page(i)];
        i := i + 1;
      }
    } else {
      pages := pages + [Page(0)];
      pages := pages + [Ellipsis];
      pages := pages + [Page(currentPage - 1)];
      pages := pages + [Page(currentPage)];
      pages := pages + [Page(currentPage + 1)];
      pages := pages + [Ellipsis];
      pages := pages + [Page(totalPages - 1)];
    }
  }

  /** The page buttons of a window are strictly increasing and lie in `[0, totalPages)`. */
  predicate PagesIncreasing(w: seq<Entry>, totalPages: int) {
    (forall i :: 0 <= i < |w| && w[i].Page? ==> 0 <= w[i].n < totalPages) &&
    (forall i, j :: 0 <= i < j < |w| && w[i].Page? && w[j].Page? ==> w[i].n < w[j].n)
  }

  /** Every `'...'` sits between two page buttons at least two apart, so it hides at least one page. */
  predicate EllipsesHidePages(w: seq<Entry>) {
    forall i :: 0 <= i < |w| && w[i].Ellipsis? ==>
      0 < i < |w| - 1 && w[i - 1].Page? && w[i + 1].Page? && w[i + 1].n - w[i - 1].n > 1
  }

  /** Up to five pages, the window lists every page in order and nothing else. */
  lemma SmallWindowListsAll(currentPage: int, totalPages: int)
    requires 0 <= totalPages <= MaxVisible
    ensures |PageWindow(currentPage, totalPages)| == totalPages
    ensures forall k :: 0 <= k < totalPages ==> PageWindow(currentPage, totalPages)[k] == Page(k)
  {
  }

  /**
   * Beyond five pages, the window holds at most seven entries, starts with the first page and ends with
   * the last, its page buttons increase strictly within the page range and every `'...'` hides at least
   * one page, whatever the current page is.
   */
  lemma LargeWindowShape(currentPage: int, totalPages: int)
    requires totalPages > MaxVisible
    ensures 5 <= |PageWindow(currentPage, totalPages)| <= 7
    ensures PageWindow(currentPage, totalPages)[0] == Page(0)
    ensures PageWindow(currentPage, totalPages)[|PageWindow(currentPage, totalPages)| - 1] == Page(totalPages - 1)
    ensures PagesIncreasing(PageWindow(currentPage, totalPages), totalPages)
    ensures EllipsesHidePages(PageWindow(currentPage, totalPages))
  {
    if currentPage <= 2 {
      HeadWindow(currentPage, totalPages);
    } else if currentPage >= totalPages - 3 {
      TailWindow(currentPage, totalPages);
    } else {
      MiddleWindow(currentPage, totalPages);
    }
  }

  /** The shape a window of more than five pages keeps: see `LargeWindowShape`. */
  predicate WellShaped(w: seq<Entry>, totalPages: int) {
    5 <= |w| <= 7 && w[0] == Page(0) && w[|w| - 1] == Page(totalPages - 1)
    && PagesIncreasing(w, totalPages) && EllipsesHidePages(w)
  }

  lemma HeadWindow(currentPage: int, totalPages: int)
    requires totalPages > MaxVisible && currentPage <= 2
    ensures WellShaped(PageWindow(currentPage, totalPages), totalPages)
  {
    var w := PageWindow(currentPage, totalPages);
    assert |w| == 5 && w[0] == Page(0) && w[1] == Page(1) && w[2] == Page(2);
    assert w[3] == Ellipsis && w[4] == Page(totalPages - 1);
  }

  lemma TailWindow(currentPage: int, totalPages: int)
    requires totalPages > MaxVisible && 2 < currentPage && currentPage >= totalPages - 3
    ensures WellShaped(PageWindow(currentPage, totalPages), totalPages)
  {
    var w := PageWindow(currentPage, totalPages);
    assert |w| == 5 && w[0] == Page(0) && w[1] == Ellipsis;
    assert w[2] == Page(totalPages - 3) && w[3] == Page(totalPages - 2) && w[4] == Page(totalPages - 1);
  }

  lemma MiddleWindow(currentPage: int, totalPages: int)
    requires totalPages > MaxVisible && 2 < currentPage < totalPages - 3
    ensures WellShaped(PageWindow(currentPage, totalPages), totalPages)
  {
  }

  /** A current page inside the page range always has its own button in the window. */
  lemma CurrentPageShown(currentPage: int, totalPages: int)
    requires 0 <= currentPage < totalPages
    ensures Page(currentPage) in PageWindow(currentPage, totalPages)
  {
    var w := PageWindow(currentPage, totalPages);
    if totalPages <= MaxVisible {
      assert w[currentPage] == Page(currentPage);
    } else if currentPage <= 2 {
      assert w[currentPage] == Page(currentPage);
    } else if currentPage >= totalPages - 3 {
      assert w[currentPage - totalPages + 5] == Page(currentPage);
    } else {
      assert w[3] == Page(currentPage);
    }
  }

  /** `startItem`: the 1-based number of the first row of the page. */
  function StartItem(currentPage: int, itemsPerPage: int): (s: int)
    ensures s - 1 == currentPage * itemsPerPage
  {
    currentPage * itemsPerPage + 1
  }

  /** `endItem`: the 1-based number of the last row of the page, cut at the row count. */
  function EndItem(currentPage: int, itemsPerPage: int, totalItems: int): (e: int)
    ensures e <= totalItems && e <= (currentPage + 1) * itemsPerPage
    ensures e == totalItems || e == (currentPage + 1) * itemsPerPage
  {
    var pageEnd := (currentPage + 1) * itemsPerPage;
    if pageEnd < totalItems then pageEnd else totalItems
  }

  /**
   * The info line counts exactly the rows of the page: at most a page of them, and a full page whenever
   * rows remain after it. A page that starts past the last row (such as page 0 of no rows, "1 to 0")
   * shows an end before its start.
   */
  lemma ShownRows(currentPage: int, itemsPerPage: int, totalItems: int)
    requires currentPage >= 0 && itemsPerPage >= 1
    ensures EndItem(currentPage, itemsPerPage, totalItems) - StartItem(currentPage, itemsPerPage) + 1 <= itemsPerPage
    ensures (currentPage + 1) * itemsPerPage <= totalItems ==>
              EndItem(currentPage, itemsPerPage, totalItems) - StartItem(currentPage, itemsPerPage) + 1 == itemsPerPage
    ensures totalItems <= currentPage * itemsPerPage <==>
              EndItem(currentPage, itemsPerPage, totalItems) < StartItem(currentPage, itemsPerPage)
  {
  }

  /** The Previous button is disabled exactly on the first page. */
  predicate PreviousDisabled(currentPage: int)
    ensures currentPage >= 0 ==> (!PreviousDisabled(currentPage) <==> currentPage - 1 >= 0)
  {
    currentPage == 0
  }

  /** The Next button is disabled from the last page on. */
  predicate NextDisabled(currentPage: int, totalPages: int)
    ensures !NextDisabled(currentPage, totalPages) <==> currentPage + 1 < totalPages
  {
    currentPage >= totalPages - 1
  }

  /**
   * Within the page range the enabled buttons lead to pages of the range: Previous to
   * `currentPage - 1 >= 0`, Next to `currentPage + 1 < totalPages`.
   */
  lemma ButtonsStayInRange(currentPage: int, totalPages: int)
    requires 0 <= currentPage < totalPages
    ensures !PreviousDisabled(currentPage) <==> 0 <= currentPage - 1
    ensures !NextDisabled(currentPage, totalPages) <==> currentPage + 1 < totalPages
  {
  }
}
