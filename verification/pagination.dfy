/** `getPaginationParams` and `createPaginationResult`: clamping of the page
    and page size, and the page count by ceiling division. */
module Pagination {
  import opened Values

  /** `PaginationQuery` after `Number.parseInt(String(...))`: `None` is `NaN`
      (including a missing field, which stringifies to "undefined"). */
  datatype PaginationQuery = PaginationQuery(page: Option<int>, limit: Option<int>,
                                             sortBy: Option<string>, sortOrder: Option<string>)

  datatype PaginationParams = PaginationParams(page: int, limit: int, skip: int,
                                               sortBy: string, sortOrder: int)

  /** `parsed || fallback`: `NaN` and 0 are falsy. */
  function OrDefault(parsed: Option<int>, fallback: int): int {
    if parsed.Some? && parsed.value != 0 then parsed.value else fallback
  }

  function Max(a: int, b: int): int { if a >= b then a else b }
  function Min(a: int, b: int): int { if a <= b then a else b }

  /** `getPaginationParams` */
  function GetPaginationParams(q: PaginationQuery): (p: PaginationParams)
    ensures p.page >= 1
    ensures (q.page.None? || q.page == Some(0)) ==> p.page == 1
    ensures q.page.Some? && q.page.value > 0 ==> p.page == q.page.value
    ensures q.page.Some? && q.page.value < 0 ==> p.page == 1
    ensures 1 <= p.limit <= 100
    ensures (q.limit.None? || q.limit == Some(0)) ==> p.limit == 10
    ensures q.limit.Some? && q.limit.value < 0 ==> p.limit == 1
    ensures q.limit.Some? && q.limit.value > 100 ==> p.limit == 100
    ensures q.limit.Some? && 0 < q.limit.value <= 100 ==> p.limit == q.limit.value
    ensures p.skip == (p.page - 1) * p.limit && p.skip >= 0
    ensures p.sortBy == (if Filled(q.sortBy) then q.sortBy.value else "createdAt")
    ensures p.sortOrder == 1 <==> q.sortOrder == Some("asc")
    ensures p.sortOrder == 1 || p.sortOrder == -1
  {
    var page := Max(1, OrDefault(q.page, 1));
    var limit := Min(100, Max(1, OrDefault(q.limit, 10)));
    var skip := (page - 1) * limit;
    assert skip >= 0 by { NonNegativeProduct(page - 1, limit); }
    PaginationParams(page, limit, skip,
                     if Filled(q.sortBy) then q.sortBy.value else "createdAt",
                     if q.sortOrder == Some("asc") then 1 else -1)
  }

  lemma NonNegativeProduct(a: int, b: int)
    requires a >= 0 && b >= 0
    ensures a * b >= 0
  {
  }

  /** `PaginationResult<T>.pagination` */
  datatype PageInfo = PageInfo(total: int, page: int, limit: int, totalPages: int,
                               hasNextPage: bool, hasPrevPage: bool)

  datatype PaginationResult<T> = PaginationResult(data: seq<T>, pagination: PageInfo)

  /** `Math.ceil(total / limit)` for a count and a positive page size. */
  function CeilDiv(total: nat, limit: nat): (pages: nat)
    requires limit >= 1
    ensures (pages - 1) * limit < total <= pages * limit || (total == 0 && pages == 0)
  {
    var q := total / limit;
    var rem := total % limit;
    assert total == q * limit + rem;
    if rem == 0 then
      assert total == q * limit;
      assert q == 0 || (q - 1) * limit < total by {
        if q > 0 { assert (q - 1) * limit == q * limit - limit; }
      }
      q
    else
      assert (q + 1) * limit == q * limit + limit;
      q + 1
  }

  /** `createPaginationResult`. Callers pass a count of records and the page
      size `getPaginationParams` produced, so `total >= 0` and `limit >= 1`. */
  function CreatePaginationResult<T>(data: seq<T>, total: nat, page: int, limit: nat): (r: PaginationResult<T>)
    requires limit >= 1
    ensures r.data == data
    ensures r.pagination.total == total && r.pagination.page == page && r.pagination.limit == limit
    ensures r.pagination.totalPages >= 0
    ensures r.pagination.totalPages * limit >= total
    ensures r.pagination.totalPages == 0 || (r.pagination.totalPages - 1) * limit < total
    ensures r.pagination.hasNextPage <==> page < r.pagination.totalPages
    ensures r.pagination.hasPrevPage <==> page > 1
  {
    var totalPages := CeilDiv(total, limit);
    PaginationResult(data, PageInfo(total, page, limit, totalPages, page < totalPages, page > 1))
  }

  /** The page count is the least number of pages of `limit` records that hold
      `total` records. */
  lemma TotalPagesIsLeast(total: nat, limit: nat, pages: nat)
    requires limit >= 1
    requires pages * limit >= total
    ensures CeilDiv(total, limit) <= pages
  {
    var c := CeilDiv(total, limit);
    if c > pages {
      assert (c - 1) * limit >= pages * limit by {
        MulMonotone(pages, c - 1, limit);
      }
    }
  }

  lemma MulMonotone(a: int, b: int, k: nat)
    requires a <= b
    ensures a * k <= b * k
  {
  }

  /** On the last page there is no next page; every earlier positive page
      has one. */
  lemma LastPageHasNoNext<T>(data: seq<T>, total: nat, limit: nat)
    requires limit >= 1 && total >= 1
    ensures var pages := CeilDiv(total, limit);
      && pages >= 1
      && !CreatePaginationResult(data, total, pages, limit).pagination.hasNextPage
      && (pages > 1 ==> CreatePaginationResult(data, total, pages - 1, limit).pagination.hasNextPage)
  {
  }
}
