/**
 * Pagination: the query parameters of a page request, with their defaults
 * and bounds, and the page envelope `PageResponse.of` builds.
 */
module Paging {

  /** `page`, `size` and `sort` as bound from the query string. */
  datatype PageRequest = PageRequest(page: int, size: int, sort: string)

  /** The values bound when a parameter is absent. */
  const DefaultPageRequest := PageRequest(0, 20, "code")

  const MaxPageSize: int := 100

  /** `@Min(0)` on the page and `@Min(1) @Max(100)` on the size. */
  predicate ValidPageRequest(r: PageRequest)
  {
    r.page >= 0 && 1 <= r.size <= MaxPageSize
  }

  lemma DefaultPageRequestValid()
    ensures ValidPageRequest(DefaultPageRequest)
    ensures DefaultPageRequest.page == 0 && DefaultPageRequest.size == 20 && DefaultPageRequest.sort == "code"
  {
  }

  predicate Descending(sort: string)
  {
    |sort| > 0 && sort[0] == '-'
  }

  /** `isAscending`: the sort does not start with '-'. */
  function IsAscending(r: PageRequest): (b: bool)
    ensures b <==> !(|r.sort| > 0 && r.sort[0] == '-')
  {
    !Descending(r.sort)
  }

  /** `getSortField`: the sort without one leading '-', if it has one. */
  function SortField(r: PageRequest): (field: string)
    ensures |field| == if IsAscending(r) then |r.sort| else |r.sort| - 1
  {
    if Descending(r.sort) then r.sort[1..] else r.sort
  }

  /** The field and the direction give back the sort parameter. */
  lemma SortRoundTrip(r: PageRequest)
    ensures (if IsAscending(r) then "" else "-") + SortField(r) == r.sort
  {
  }

  /** Only one '-' is stripped: "--name" sorts descending by "-name". */
  lemma SortStripsOneDash(field: string)
    ensures var r := PageRequest(0, 20, "-" + field);
      SortField(r) == field && !IsAscending(r)
  {
    assert ("-" + field)[1..] == field;
  }

  datatype PageResponse<T> = PageResponse(
    content: seq<T>, page: int, size: int, totalElements: int, totalPages: int, first: bool, last: bool)

  /** Kotlin's `/` on integers: the quotient rounded towards zero. */
  function TruncDiv(a: int, b: int): (q: int)
    requires b > 0
    ensures a >= 0 ==> q * b <= a < q * b + b
  {
    if a >= 0 then a / b else 0 - ((0 - a) / b)
  }

  /** `PageResponse.of`. */
  function Of<T>(content: seq<T>, page: int, size: int, totalElements: int): (r: PageResponse<T>)
    ensures r.content == content && r.page == page && r.size == size && r.totalElements == totalElements
    ensures size <= 0 ==> r.totalPages == 0
    ensures r.first <==> page == 0
    ensures r.last <==> page >= r.totalPages - 1
  {
    var totalPages := if size > 0 then TruncDiv(totalElements + size - 1, size) else 0;
    PageResponse(content, page, size, totalElements, totalPages, page == 0, page >= totalPages - 1)
  }

  /**
   * For a positive size the page count is the ceiling of elements over
   * size: enough pages for every element, and no page left empty.
   */
  lemma TotalPagesCeiling<T>(content: seq<T>, page: int, size: int, totalElements: int)
    requires size > 0 && totalElements >= 0
    ensures var n := Of(content, page, size, totalElements).totalPages;
      n >= 0 && totalElements <= n * size && (totalElements > 0 ==> (n - 1) * size < totalElements)
      && (totalElements == 0 ==> n == 0)
  {
  }

  /** With no elements there are no pages, and any page at or after the first is the last. */
  lemma EmptyIsLast<T>(content: seq<T>, page: int, size: int)
    requires page >= 0
    ensures Of(content, page, size, 0).totalPages == 0
    ensures Of(content, page, size, 0).last
  {
    if size > 0 {
      assert TruncDiv(size - 1, size) == 0;
    }
  }

  function Min(a: int, b: int): int { if a <= b then a else b }

  /** The rows of page `page` of `size` rows in an ordered listing. */
  function PageSlice<T>(rows: seq<T>, page: int, size: int): (s: seq<T>)
    requires page >= 0 && size >= 1
    ensures |s| <= size
    ensures page * size >= |rows| ==> s == []
    ensures page * size < |rows| ==> |s| == Min(size, |rows| - page * size)
    ensures forall i :: 0 <= i < |s| ==> page * size + i < |rows| && s[i] == rows[page * size + i]
  {
    var start := Min(page * size, |rows|);
    var end := Min(start + size, |rows|);
    rows[start..end]
  }

  /** Every row of the listing is on page k / size, at position k % size. */
  lemma PageSliceCovers<T>(rows: seq<T>, size: int, k: int) returns (page: int, i: int)
    requires size >= 1 && 0 <= k < |rows|
    ensures page == k / size && i == k % size
    ensures page >= 0 && 0 <= i < |PageSlice(rows, page, size)|
    ensures PageSlice(rows, page, size)[i] == rows[k]
  {
    page, i := k / size, k % size;
    assert page * size + i == k;
    assert page * size <= k;
  }
}
