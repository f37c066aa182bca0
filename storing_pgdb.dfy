/** The storing service's translation of Postgres errors into its sentinels (`handleDBError`). */
module StoringPgdb {
  import opened Wrappers
  import opened Errdefs

  const UniqueViolation := "23505"
  const ForeignKeyViolation := "23503"
  const NotNullViolation := "23502"
  const CheckViolation := "23514"

  /** The sentinel a Postgres error code is translated to, if any. */
  function PgCodeSentinel(code: string): Option<Sentinel> {
    if code == UniqueViolation then Some(AlreadyExists)
    else if code == ForeignKeyViolation || code == NotNullViolation || code == CheckViolation then Some(InvalidArgument)
    else None
  }

  /** `handleDBError`: no rows first, then the Postgres code, else the error unchanged. */
  function HandleDbError(err: Option<GoError>): (r: Option<GoError>)
    ensures r == None <==> err == None
    ensures err.Some? && err.value.noRows ==> r == Some(SentinelError(NotFound))
    ensures err.Some? && !err.value.noRows && err.value.pgCode.Some? && PgCodeSentinel(err.value.pgCode.value).Some? ==>
      r == Some(SentinelError(PgCodeSentinel(err.value.pgCode.value).value))
  {
    match err
    case None => None
    case Some(e) =>
      if e.noRows then Some(SentinelError(NotFound))
      else if e.pgCode.Some? && PgCodeSentinel(e.pgCode.value).Some? then
        Some(SentinelError(PgCodeSentinel(e.pgCode.value).value))
      else err
  }

  /** An error `handleDBError` passes through unchanged. */
  predicate Untranslated(e: GoError) {
    !e.noRows && (e.pgCode.None? || PgCodeSentinel(e.pgCode.value).None?)
  }

  /**
   * Every error is either translated to one of the sentinels or passed
   * through unchanged, and what comes out is never translated again.
   */
  lemma {:induction false} HandleDbErrorNormalForm(err: Option<GoError>)
    ensures err.Some? && Untranslated(err.value) ==> HandleDbError(err) == err
    ensures err.Some? && !Untranslated(err.value) ==>
      exists s :: HandleDbError(err) == Some(SentinelError(s)) && s != Unavailable
    ensures HandleDbError(err).Some? ==> Untranslated(HandleDbError(err).value)
  {
    if err.Some? && !Untranslated(err.value) {
      if err.value.noRows {
        assert HandleDbError(err) == Some(SentinelError(NotFound));
      } else {
        var s := PgCodeSentinel(err.value.pgCode.value).value;
        assert HandleDbError(err) == Some(SentinelError(s));
      }
    }
  }

  /** `handleDBError` is idempotent. */
  lemma {:induction false} HandleDbErrorIdempotent(err: Option<GoError>)
    ensures HandleDbError(HandleDbError(err)) == HandleDbError(err)
  {
    HandleDbErrorNormalForm(err);
  }

  /** The translation table: 23505 is "already exists", 23503, 23502 and 23514 are "invalid argument". */
  lemma {:induction false} PgCodeTable(code: string)
    ensures PgCodeSentinel(code) == Some(AlreadyExists) <==> code == "23505"
    ensures PgCodeSentinel(code) == Some(InvalidArgument) <==> code in {"23503", "23502", "23514"}
    ensures PgCodeSentinel(code).Some? ==> PgCodeSentinel(code).value in {AlreadyExists, InvalidArgument}
  {
  }
}
