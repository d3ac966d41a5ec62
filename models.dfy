/**
 * The values the SQL-backed models hand to the web layer. Their
 * implementation is not part of this model: the handlers only see these
 * values and the sentinel errors.
 */
module Models {
  /** Go's `int` on a 64-bit platform. */
  const INT64_MIN: int := -0x8000_0000_0000_0000
  const INT64_MAX: int := 0x7FFF_FFFF_FFFF_FFFF

  predicate InInt64(n: int) { INT64_MIN <= n <= INT64_MAX }

  type Int64 = n: int | InInt64(n)

  /** A stored snippet, as `models.Snippet` returns it. */
  datatype Snippet = Snippet(id: Int64, title: string, content: string)

  /** The sentinel errors of the models package, and every other failure. */
  datatype DbError = ErrNoRecord | ErrInvalidCredentials | ErrDuplicateEmail | OtherDbError
}
