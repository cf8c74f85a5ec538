/**
 * The pagination block of the merchant list response: a page of `limit` rows starting at row `offset`
 * out of `total` rows, described by the page number, the page count and whether there are further pages
 * on either side.
 */
module PageMetadata {

  datatype PaginationMetadata = PaginationMetadata(
    total: int,
    limit: int,
    offset: int,
    currentPage: int,
    totalPages: int,
    hasNext: bool,
    hasPrevious: bool)

  /** ⌈a / b⌉ for a positive divisor. */
  function CeilDiv(a: int, b: int): (q: int)
    requires b > 0
    ensures b * (q - 1) < a <= b * q
  {
    (a + b - 1) / b
  }

  /**
   * The constructor `PaginationMetadata(total, limit, offset)`. Before calling it, the controller
   * replaces a `limit` outside 1..100 by 10 and a negative `offset` by 0, so Java's truncating
   * `offset / limit` is the floor here.
   */
  function NewPaginationMetadata(total: int, limit: int, offset: int): (p: PaginationMetadata)
    requires limit >= 1 && offset >= 0
    ensures p.total == total && p.limit == limit && p.offset == offset
    ensures p.currentPage >= 1
    ensures limit * (p.currentPage - 1) <= offset < limit * p.currentPage
    ensures limit * (p.totalPages - 1) < total <= limit * p.totalPages
    ensures p.hasNext <==> offset + limit < total
    ensures p.hasPrevious <==> offset > 0
  {
    PaginationMetadata(
      total, limit, offset,
      offset / limit + 1,
      CeilDiv(total, limit),
      offset + limit < total,
      offset > 0)
  }

  /** The page count is 0 exactly when there are no rows, and never negative for a row count. */
  lemma NoRowsNoPages(total: int, limit: int, offset: int)
    requires limit >= 1 && offset >= 0 && total >= 0
    ensures NewPaginationMetadata(total, limit, offset).totalPages >= 0
    ensures NewPaginationMetadata(total, limit, offset).totalPages == 0 <==> total == 0
  {
  }

  /**
   * A next page is announced only before the last page: when `hasNext` holds, the current page number
   * is below the page count, and a page that starts inside the rows is never past the last page.
   */
  lemma NextBeforeLastPage(total: int, limit: int, offset: int)
    requires limit >= 1 && offset >= 0
    ensures NewPaginationMetadata(total, limit, offset).hasNext ==>
              NewPaginationMetadata(total, limit, offset).currentPage < NewPaginationMetadata(total, limit, offset).totalPages
    ensures offset < total ==>
              NewPaginationMetadata(total, limit, offset).currentPage <= NewPaginationMetadata(total, limit, offset).totalPages
  {
  }

  /** On a page boundary, `hasPrevious` says exactly that the page is not the first. */
  lemma PreviousIffNotFirstPage(total: int, limit: int, offset: int)
    requires limit >= 1 && offset >= 0 && offset % limit == 0
    ensures NewPaginationMetadata(total, limit, offset).hasPrevious <==>
              NewPaginationMetadata(total, limit, offset).currentPage > 1
  {
  }
}
