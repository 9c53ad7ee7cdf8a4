/**
 * store/store.go: the limit/offset clamp applied to list queries.
 */
module Pagination {
  import opened Wrappers
  import opened Errors

  const DefaultLimit: int := 20
  const MaxLimit: int := 100

  /** Go's int32. */
  type Int32 = x: int | -0x8000_0000 <= x < 0x8000_0000

  datatype Page = Page(limit: Int32, offset: Int32)

  /**
   * calculateLimitOffset: a limit above MaxLimit is refused first, then a
   * negative limit or offset; a zero limit means DefaultLimit.
   */
  function CalculateLimitOffset(limit: Int32, offset: Int32): (r: Result<Page, Error>)
    ensures limit > MaxLimit ==> r == Err(Message("limit exceeds the maximum allowed value of 100"))
    ensures limit <= MaxLimit && (limit < 0 || offset < 0) ==> r == Err(Message("limit and offset must be non-negative"))
    ensures r.Ok? <==> 0 <= limit <= MaxLimit && 0 <= offset
    ensures r.Ok? ==> r.value.offset == offset && 1 <= r.value.limit <= MaxLimit
    ensures r.Ok? ==> r.value.limit == (if limit == 0 then DefaultLimit else limit)
  {
    if limit > MaxLimit then Err(Message("limit exceeds the maximum allowed value of 100"))
    else if limit < 0 || offset < 0 then Err(Message("limit and offset must be non-negative"))
    else Ok(Page(if limit == 0 then DefaultLimit else limit, offset))
  }

  /** An accepted page is a fixed point: clamping it again changes nothing. */
  lemma ClampIdempotent(limit: Int32, offset: Int32)
    requires CalculateLimitOffset(limit, offset).Ok?
    ensures var p := CalculateLimitOffset(limit, offset).value;
            CalculateLimitOffset(p.limit, p.offset) == Ok(p)
  {
  }
}
