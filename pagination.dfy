// The `limit`/`offset` query every list endpoint takes. Each models file
// declares its own copy of the record (`ListContactsInput`, `ListUsersInput`,
// ...) with the same two validated fields; the handlers fill in the same
// defaults with `unwrap_or`.

module Pagination {
  import opened Wrappers
  import opened Ints

  const DEFAULT_LIMIT: U64 := 100
  const DEFAULT_OFFSET: U64 := 0
  const MAX_LIMIT: U64 := 100

  datatype ListQuery = ListQuery(limit: Option<U64>, offset: Option<U64>)

  /** `#[validate(range(min = 1, max = 100))]` on `limit` and
      `#[validate(range(min = 0))]` on `offset`; an absent field is not checked.
      The offset bound always holds for a `u64`. */
  predicate ValidListQuery(q: ListQuery)
  {
    && (q.limit.Some? ==> 1 <= q.limit.value <= MAX_LIMIT)
    && (q.offset.Some? ==> 0 <= q.offset.value)
  }

  /** `limit.unwrap_or(100)` and `offset.unwrap_or(0)`. A validated query
      always yields a limit between 1 and 100. */
  function Window(q: ListQuery): (w: (U64, U64))
    ensures q.limit.None? ==> w.0 == DEFAULT_LIMIT
    ensures q.offset.None? ==> w.1 == DEFAULT_OFFSET
    ensures q.limit.Some? ==> w.0 == q.limit.value
    ensures q.offset.Some? ==> w.1 == q.offset.value
    ensures ValidListQuery(q) ==> 1 <= w.0 <= MAX_LIMIT
  {
    (match q.limit case Some(l) => l case None => DEFAULT_LIMIT,
     match q.offset case Some(o) => o case None => DEFAULT_OFFSET)
  }
}
