/**
 * The page arithmetic every list view repeats: ten rows per page,
 * `Math.ceil(n / 10)` pages, the rows `slice((page - 1) * 10, page * 10)`,
 * and previous/next buttons clamped to the page range.
 */
module Pagination {
  import opened Collections

  const ItemsPerPage: nat := 10

  /** `Math.ceil(n / ItemsPerPage)`: the fewest pages of ten that hold n rows. */
  function TotalPages(n: nat): (r: nat)
    ensures r * ItemsPerPage >= n
    ensures r == 0 || (r - 1) * ItemsPerPage < n
    ensures r == 0 <==> n == 0
  {
    (n + ItemsPerPage - 1) / ItemsPerPage
  }

  /** The rows shown on a page. */
  function PageRows<T>(xs: seq<T>, page: int): seq<T>
  {
    Slice(xs, (page - 1) * ItemsPerPage, (page - 1) * ItemsPerPage + ItemsPerPage)
  }

  /** `Math.max(prev - 1, 1)` */
  function PreviousPage(page: int): (r: int)
    ensures r >= 1
    ensures page > 1 ==> r == page - 1
    ensures page <= 1 ==> r == 1
  {
    if page - 1 > 1 then page - 1 else 1
  }

  /** `Math.min(prev + 1, totalPages)` */
  function NextPage(page: int, total: nat): (r: int)
    ensures r <= total
    ensures page < total ==> r == page + 1
    ensures page >= total ==> r == total
  {
    if page + 1 < total then page + 1 else total
  }

  /**
   * A page from 1 onwards shows at most ten rows, those at positions
   * (page - 1) * 10 up to page * 10; every page up to the total shows at
   * least one row, and pages past it show none.
   */
  lemma PageRowsShape<T>(xs: seq<T>, page: int)
    requires page >= 1
    ensures var rows := PageRows(xs, page);
      var start := (page - 1) * ItemsPerPage;
      && |rows| <= ItemsPerPage
      && (forall k :: 0 <= k < |rows| ==> start + k < |xs| && rows[k] == xs[start + k])
      && (page <= TotalPages(|xs|) ==> |rows| >= 1)
      && (page > TotalPages(|xs|) ==> rows == [])
  {
  }

  /** Every row within the first ten times `page` rows is on some page up to `page`. */
  function PagesUpTo<T>(xs: seq<T>, page: nat): seq<T>
  {
    if page == 0 then [] else PagesUpTo(xs, page - 1) + PageRows(xs, page)
  }

  lemma {:induction false} PagesUpToPrefix<T>(xs: seq<T>, page: nat)
    ensures PagesUpTo(xs, page) == xs[..if page * ItemsPerPage <= |xs| then page * ItemsPerPage else |xs|]
  {
    if page > 0 {
      PagesUpToPrefix(xs, page - 1);
      var a := if (page - 1) * ItemsPerPage <= |xs| then (page - 1) * ItemsPerPage else |xs|;
      var b := if page * ItemsPerPage <= |xs| then page * ItemsPerPage else |xs|;
      assert PageRows(xs, page) == xs[a..b];
      assert xs[..a] + xs[a..b] == xs[..b];
    }
  }

  /** The pages from 1 to the total, read in order, are the whole list: no row is skipped or shown twice. */
  lemma PagesCoverList<T>(xs: seq<T>)
    ensures PagesUpTo(xs, TotalPages(|xs|)) == xs
  {
    PagesUpToPrefix(xs, TotalPages(|xs|));
  }

  /** Within [1, total] the buttons keep the page within [1, total]; at the ends they do nothing. */
  lemma ButtonsStayInRange(page: int, total: nat)
    requires 1 <= page <= total
    ensures 1 <= PreviousPage(page) <= total && 1 <= NextPage(page, total) <= total
    ensures page == 1 ==> PreviousPage(page) == page
    ensures page == total ==> NextPage(page, total) == page
  {
  }

  /**
   * When the row deleted was alone on page p > 1, the list had (p - 1) * 10 + 1
   * rows, so one page back is exactly the new last page.
   */
  lemma LoneRowDeleted<T>(xs: seq<T>, page: int)
    requires 1 < page && |PageRows(xs, page)| == 1
    ensures |xs| == (page - 1) * ItemsPerPage + 1
    ensures TotalPages(|xs| - 1) == page - 1
  {
    PageRowsShape(xs, page);
  }

  /** The page after a delete: one back when the deleted row was alone on a page after the first. */
  function PageAfterDelete<T>(xs: seq<T>, page: int): (r: int)
    ensures r == page || r == page - 1
    ensures r == page - 1 <==> |PageRows(xs, page)| == 1 && page > 1
  {
    if |PageRows(xs, page)| == 1 && page > 1 then page - 1 else page
  }

  /** The same rule with the extra `totalPages > 1` test some lists add. */
  function GuardedPageAfterDelete<T>(xs: seq<T>, page: int): int
  {
    if |PageRows(xs, page)| == 1 && page > 1 && TotalPages(|xs|) > 1 then page - 1 else page
  }

  /** A row on a page after the first means there are at least two pages, so the extra test never changes the result. */
  lemma GuardedPageAfterDeleteSame<T>(xs: seq<T>, page: int)
    ensures GuardedPageAfterDelete(xs, page) == PageAfterDelete(xs, page)
  {
    if |PageRows(xs, page)| == 1 && page > 1 {
      LoneRowDeleted(xs, page);
    }
  }

  /** After deleting the lone row of a page p > 1 the page steps back onto the new last page. */
  lemma PageAfterDeleteLandsOnLastPage<T>(xs: seq<T>, page: int)
    requires |PageRows(xs, page)| == 1 && page > 1
    ensures PageAfterDelete(xs, page) == TotalPages(|xs| - 1)
  {
    LoneRowDeleted(xs, page);
  }
}
