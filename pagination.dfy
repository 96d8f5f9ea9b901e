/** Pagination of list endpoints: the page, page size and offset taken from
    a query string, and the metadata wrapped around one page of results.
    `parseInt` is not modelled: each parameter arrives already parsed, with
    `None` standing for NaN (a missing or unparsable parameter). */
module Pagination {
  import opened Wrappers

  const DefaultPage: int := 1
  const DefaultPageSize: int := 25

  datatype PaginationParams = PaginationParams(page: int, pageSize: int, offset: int, limit: int)

  datatype PageInfo = PageInfo(page: int, pageSize: int, total: int, totalPages: int, hasMore: bool)

  datatype PaginatedResponse<T> =
    PaginatedResponse(total: int, page: int, page_size: int, data: seq<T>, pagination: PageInfo)

  /** `parseInt(x) || fallback`: NaN and 0 are both falsy. */
  function ParsedOr(parsed: Option<int>, fallback: int): int {
    if parsed.Some? && parsed.value != 0 then parsed.value else fallback
  }

  /** The page number, page size, offset and limit a query string asks for. */
  function GetPaginationParams(page: Option<int>, pageSize: Option<int>, limit: Option<int>): (p: PaginationParams)
    ensures p.page != 0 && p.pageSize != 0
    ensures page.Some? && page.value != 0 ==> p.page == page.value
    ensures page.None? || page.value == 0 ==> p.page == DefaultPage
    ensures pageSize.Some? && pageSize.value != 0 ==> p.pageSize == pageSize.value
    ensures (pageSize.None? || pageSize.value == 0) && limit.Some? && limit.value != 0 ==> p.pageSize == limit.value
    ensures (pageSize.None? || pageSize.value == 0) && (limit.None? || limit.value == 0) ==> p.pageSize == DefaultPageSize
    ensures p.offset == (p.page - 1) * p.pageSize && p.limit == p.pageSize
  {
    var pg := ParsedOr(page, DefaultPage);
    var size := ParsedOr(pageSize, ParsedOr(limit, DefaultPageSize));
    PaginationParams(pg, size, (pg - 1) * size, size)
  }

  /** `Math.ceil(a / d)` for a non-zero integer divisor. */
  function CeilDiv(a: int, d: int): (q: int)
    requires d != 0
    ensures d > 0 ==> (q - 1) * d < a <= q * d
    ensures d < 0 ==> q * d <= a < (q - 1) * d
  {
    if d > 0 then
      var f := a / d;
      assert f * d <= a < f * d + d;
      if a % d == 0 then f else f + 1
    else
      var f := a / (-d);
      assert f * (-d) <= a < f * (-d) + (-d);
      assert -f * d == f * (-d);
      -f
  }

  /** The response for one page of `data` out of `total` records. */
  function FormatPaginatedResponse<T>(data: seq<T>, total: int, page: int, pageSize: int): (r: PaginatedResponse<T>)
    requires pageSize != 0
    ensures r.total == total && r.page == page && r.page_size == pageSize && r.data == data
    ensures r.pagination.page == page && r.pagination.pageSize == pageSize && r.pagination.total == total
    ensures pageSize > 0 ==> (r.pagination.totalPages - 1) * pageSize < total <= r.pagination.totalPages * pageSize
    ensures r.pagination.hasMore <==> page * pageSize < total
  {
    PaginatedResponse(total, page, pageSize, data,
      PageInfo(page, pageSize, total, CeilDiv(total, pageSize), page * pageSize < total))
  }

  /** With a positive page size, more records remain after `page` exactly
      when `page` comes before the last page. */
  lemma HasMoreIffBeforeLastPage<T>(data: seq<T>, total: int, page: int, pageSize: int)
    requires pageSize > 0
    ensures var info := FormatPaginatedResponse(data, total, page, pageSize).pagination;
            info.hasMore <==> page < info.totalPages
  {
    var q := CeilDiv(total, pageSize);
    if page < q {
      MulMonotonic(page, q - 1, pageSize);
    } else {
      MulMonotonic(q, page, pageSize);
    }
  }

  lemma MulMonotonic(a: int, b: int, d: int)
    requires a <= b && d > 0
    ensures a * d <= b * d
  {
    assert b * d - a * d == (b - a) * d;
  }

  /** Consecutive pages of the same size are adjacent: the next page starts
      where this one ends. */
  lemma NextPageStartsWhereThisEnds(page: int, pageSize: Option<int>, limit: Option<int>)
    requires page != 0 && page + 1 != 0
    ensures var p := GetPaginationParams(Some(page), pageSize, limit);
            var q := GetPaginationParams(Some(page + 1), pageSize, limit);
            q.pageSize == p.pageSize && q.offset == p.offset + p.limit
  {
    var p := GetPaginationParams(Some(page), pageSize, limit);
    assert page * p.pageSize == (page - 1) * p.pageSize + p.pageSize;
  }

  /** With a positive page size every record index lies on exactly one
      page: page `k / size + 1`. */
  lemma RecordOnExactlyOnePage(k: nat, page: int, pageSize: Option<int>, limit: Option<int>)
    requires page != 0
    requires GetPaginationParams(Some(page), pageSize, limit).pageSize > 0
    ensures var p := GetPaginationParams(Some(page), pageSize, limit);
            p.offset <= k < p.offset + p.limit <==> page == k / p.pageSize + 1
  {
    var p := GetPaginationParams(Some(page), pageSize, limit);
    var d := p.pageSize;
    var n := k / d + 1;
    assert (n - 1) * d <= k < (n - 1) * d + d;
    if page < n {
      MulMonotonic(page, n - 1, d);
      assert p.offset + d == page * d;
    } else if page > n {
      MulMonotonic(n, page - 1, d);
      assert n * d == (n - 1) * d + d;
    }
  }
}
