/**
 * Page metadata (pkg/pagination). Go's `/` on int truncates toward zero,
 * which is written out here; a zero divisor panics in Go, hence the
 * precondition on the number of items per page.
 */
module Pagination {

  /** Go's integer quotient: rounds toward zero. */
  function GoQuot(a: int, b: int): (q: int)
    requires b != 0
    ensures a >= 0 && b > 0 ==> q == a / b
  {
    var mag := (if a < 0 then -a else a) / (if b < 0 then -b else b);
    if (a < 0) != (b < 0) then -mag else mag
  }

  datatype Metadata = Metadata(
    totalItems: int,
    currentPage: int,
    itemsPerPage: int,
    totalPages: int,
    hasPreviousPage: bool,
    hasNextPage: bool,
    isFirstPage: bool,
    isLastPage: bool)

  datatype Paginated<T> = Paginated(meta: Metadata, data: seq<T>)

  /** Number of pages that `total` items fill when `perPage` fit on one page. */
  function TotalPages(total: int, perPage: int): int
    requires perPage != 0
  {
    GoQuot(total + perPage - 1, perPage)
  }

  function Meta(total: int, current: int, perPage: int): (m: Metadata)
    requires perPage != 0
    ensures m.totalItems == total && m.currentPage == current && m.itemsPerPage == perPage
    ensures m.totalPages == TotalPages(total, perPage)
    ensures m.hasPreviousPage <==> current > 1
    ensures m.isFirstPage <==> current == 1
    ensures m.hasNextPage <==> current < m.totalPages
    ensures m.isLastPage <==> current == m.totalPages
  {
    var pages := TotalPages(total, perPage);
    Metadata(total, current, perPage, pages, current > 1, current < pages, current == 1, current == pages)
  }

  function New<T>(data: seq<T>, total: int, current: int, perPage: int): (p: Paginated<T>)
    requires perPage != 0
    ensures p.data == data
    ensures p.meta == Meta(total, current, perPage)
  {
    Paginated(Meta(total, current, perPage), data)
  }

  /**
   * For a non-negative count and a positive page size the page count is the
   * ceiling of total / perPage: enough pages to hold every item, and one
   * page fewer would not.
   */
  lemma TotalPagesIsCeiling(total: int, perPage: int)
    requires total >= 0 && perPage > 0
    ensures TotalPages(total, perPage) >= 0
    ensures TotalPages(total, perPage) * perPage >= total
    ensures (TotalPages(total, perPage) - 1) * perPage < total || total == 0
    ensures TotalPages(total, perPage) == 0 <==> total == 0
  {
    var q := TotalPages(total, perPage);
    var n := total + perPage - 1;
    assert q == n / perPage;
    assert n == q * perPage + n % perPage;
  }

  /** The cases of pagination_test.go. */
  lemma KnownCases()
    ensures TotalPages(0, 5) == 0 && TotalPages(1, 5) == 1 && TotalPages(5, 5) == 1
    ensures TotalPages(6, 5) == 2 && TotalPages(10, 5) == 2 && TotalPages(11, 5) == 3
    ensures TotalPages(15, 5) == 3 && TotalPages(16, 5) == 4
    ensures var m := Meta(10, 1, 3);
      m.totalPages == 4 && !m.hasPreviousPage && m.hasNextPage && m.isFirstPage && !m.isLastPage
    ensures var m := Meta(10, 2, 3);
      m.totalPages == 4 && m.hasPreviousPage && m.hasNextPage && !m.isFirstPage && !m.isLastPage
    ensures var m := Meta(10, 4, 3);
      m.totalPages == 4 && m.hasPreviousPage && !m.hasNextPage && !m.isFirstPage && m.isLastPage
  {
  }

  /** Exactly one of "has a next page" and "is the last page" holds on pages 1..totalPages. */
  lemma LastPageHasNoNext(total: int, current: int, perPage: int)
    requires perPage != 0
    requires 1 <= current <= TotalPages(total, perPage)
    ensures Meta(total, current, perPage).hasNextPage != Meta(total, current, perPage).isLastPage
    ensures Meta(total, current, perPage).hasPreviousPage != Meta(total, current, perPage).isFirstPage
  {
  }
}
