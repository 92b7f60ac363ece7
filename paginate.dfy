/** Pagination defaults and bounds of `src/models/paginate.rs`, the
    handlers' bounds check, and the `(page - 1) * limit` offset that every
    paged query computes on `u32`. */
module Paginate {
  import opened Wrappers
  import opened AppErrors

  const U32_LIMIT: int := 0x1_0000_0000

  /** Rust's `u32`. */
  type u32 = x: int | 0 <= x < U32_LIMIT

  const PAGINATE_MAX_LIMIT: u32 := 100

  /** The first page. */
  function DefaultPage(): (p: u32)
    ensures p >= 1
  {
    1
  }

  /** A limit within the handlers' bounds. */
  function DefaultLimit(): (l: u32)
    ensures 1 <= l <= PAGINATE_MAX_LIMIT
  {
    20
  }

  function DefaultSortOrder(): string { "asc" }

  datatype PaginateQuery = PaginateQuery(page: u32, limit: u32)

  /** The bounds the paged handlers enforce before calling a service. */
  function CheckPagination(q: PaginateQuery): (r: Result<PaginateQuery>)
    ensures r.Ok? <==> q.page >= 1 && 1 <= q.limit <= PAGINATE_MAX_LIMIT
    ensures r.Ok? ==> r.value == q
    ensures r.Err? ==> r.error.Validation?
  {
    if q.page <= 0 then Err(Validation("Page must be greater than 0"))
    else if q.limit <= 0 || q.limit > PAGINATE_MAX_LIMIT then
      Err(Validation("Limit must be between 1 and 100."))
    else Ok(q)
  }

  /** `PaginateQuery::default`: built from the default page and limit, so
      the handlers' bounds accept it. */
  function DefaultQuery(): (q: PaginateQuery)
    ensures q.page == DefaultPage() && q.limit == DefaultLimit()
    ensures CheckPagination(q).Ok?
  {
    PaginateQuery(DefaultPage(), DefaultLimit())
  }

  /** `u32` subtraction and multiplication as a release build performs
      them: without overflow checks the result wraps around modulo 2^32. */
  function WrappingSub(a: u32, b: u32): u32
  {
    (a - b) % U32_LIMIT
  }

  function WrappingMul(a: u32, b: u32): u32
  {
    (a * b) % U32_LIMIT
  }

  /** `(page - 1) * limit` on `u32`: the true offset whenever it fits, and
      otherwise wrapped around. */
  function Offset(page: u32, limit: u32): (r: u32)
    ensures page >= 1 && (page - 1) * limit < U32_LIMIT ==> r == (page - 1) * limit
    ensures page >= 1 ==> r == ((page - 1) * limit) % U32_LIMIT
  {
    WrappingMul(WrappingSub(page, 1), limit)
  }

  /** A page far enough out wraps around to an offset near the start: page
      42 949 674 of 100 rows starts at row 4 rather than row 4 294 967 300. */
  lemma LargePageWrapsAround()
    ensures CheckPagination(PaginateQuery(42949674, 100)).Ok?
    ensures Offset(42949674, 100) == 4
  {
    assert (42949674 - 1) * 100 == U32_LIMIT + 4;
  }

  /** Consecutive pages are adjacent windows: as long as the offsets fit,
      page `p + 1` starts exactly where page `p` ends, so paging neither
      skips nor repeats rows. */
  lemma ConsecutivePagesAdjacent(page: u32, limit: u32)
    requires page >= 1 && page + 1 < U32_LIMIT && page * limit < U32_LIMIT
    ensures Offset(page + 1, limit) == Offset(page, limit) + limit
  {
    assert (page - 1) * limit <= page * limit;
  }

  /** The first page always starts at row 0. */
  lemma FirstPageStartsAtZero(limit: u32)
    ensures Offset(1, limit) == 0
  {
  }
}
