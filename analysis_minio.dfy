/**
 * The analysis service's object-store adapter: the classification of
 * object-store errors into the service's error kinds (`handleMinioError` and
 * its hand-written substring search), and the store itself, seen as an
 * abstract listing plus a key-to-content map with failure oracles.
 */
module AnalysisMinio {
  import opened Wrappers
  import opened Errdefs

  // ---------------------------------------------------------------------------
  // Substring search: indexOf and contains
  // ---------------------------------------------------------------------------

  /** `sub` occurs in `s` starting at index i. */
  predicate MatchAt(s: string, sub: string, i: int) {
    0 <= i && i + |sub| <= |s| && s[i..i + |sub|] == sub
  }

  /** `sub` occurs contiguously somewhere in `s`. */
  ghost predicate Occurs(sub: string, s: string) {
    exists i :: MatchAt(s, sub, i)
  }

  /** The first index at or after i where `sub` occurs in `s`, or -1. */
  function FirstMatchFrom(s: string, sub: string, i: nat): (r: int)
    ensures r == -1 || (i <= r && MatchAt(s, sub, r))
    ensures r == -1 ==> forall j :: i <= j ==> !MatchAt(s, sub, j)
    ensures r != -1 ==> forall j :: i <= j < r ==> !MatchAt(s, sub, j)
    decreases |s| - i
  {
    if i + |sub| > |s| then -1
    else if s[i..i + |sub|] == sub then i
    else FirstMatchFrom(s, sub, i + 1)
  }

  /** `indexOf`: the smallest i with `s[i..i+|substr|] == substr`, or -1 when there is none. */
  method IndexOf(s: string, substr: string) returns (index: int)
    ensures index == FirstMatchFrom(s, substr, 0)
    ensures index == -1 <==> !Occurs(substr, s)
    ensures index != -1 ==> MatchAt(s, substr, index) && forall j :: 0 <= j < index ==> !MatchAt(s, substr, j)
  {
    var i := 0;
    while i <= |s| - |substr|
      invariant 0 <= i
      invariant FirstMatchFrom(s, substr, i) == FirstMatchFrom(s, substr, 0)
      invariant forall j :: 0 <= j < i ==> !MatchAt(s, substr, j)
      decreases |s| - |substr| - i
    {
      if s[i..i + |substr|] == substr {
        return i;
      }
      i := i + 1;
    }
    return -1;
  }

  /** `contains`, with the same short-cuts as the source before it falls back on `indexOf`. */
  function Contains(s: string, substr: string): (r: bool)
    ensures r <==> Occurs(substr, s)
  {
    var n := |substr|;
    var found := |s| >= n &&
      (s == substr || (|s| > n &&
        (s[..n] == substr || s[|s| - n..] == substr || FirstMatchFrom(s, substr, 0) >= 0)));
    assert s == substr ==> MatchAt(s, substr, 0);
    assert |s| >= n && s[..n] == substr ==> MatchAt(s, substr, 0);
    assert |s| >= n && s[|s| - n..] == substr ==> MatchAt(s, substr, |s| - n);
    assert Occurs(substr, s) && |s| == n ==> s == s[0..n] == substr;
    found
  }

  /** Some pattern of the list occurs in the message. */
  predicate MatchesAny(message: string, patterns: seq<string>) {
    exists k :: 0 <= k < |patterns| && Contains(message, patterns[k])
  }

  const NetworkPatterns: seq<string> := [
    "connection refused", "connection reset", "no such host", "timeout",
    "deadline exceeded", "network is unreachable", "dial tcp"]

  const ReadPatterns: seq<string> := ["unexpected EOF", "read:", "io:"]

  method IsNetworkError(err: GoError) returns (b: bool)
    ensures b <==> exists k :: 0 <= k < |NetworkPatterns| && Occurs(NetworkPatterns[k], err.text)
  {
    var errStr := err.text;
    for k := 0 to |NetworkPatterns|
      invariant forall j :: 0 <= j < k ==> !Occurs(NetworkPatterns[j], errStr)
    {
      if Contains(errStr, NetworkPatterns[k]) {
        return true;
      }
    }
    return false;
  }

  method IsReadError(err: GoError) returns (b: bool)
    ensures b <==> exists k :: 0 <= k < |ReadPatterns| && Occurs(ReadPatterns[k], err.text)
  {
    var errStr := err.text;
    for k := 0 to |ReadPatterns|
      invariant forall j :: 0 <= j < k ==> !Occurs(ReadPatterns[j], errStr)
    {
      if Contains(errStr, ReadPatterns[k]) {
        return true;
      }
    }
    return false;
  }

  // ---------------------------------------------------------------------------
  // handleMinioError
  // ---------------------------------------------------------------------------

  const MissingCodes: set<string> := {"NoSuchKey", "NoSuchBucket"}
  const AuthCodes: set<string> := {"AccessDenied", "InvalidAccessKeyId", "SignatureDoesNotMatch"}
  const BadNameCodes: set<string> := {"InvalidBucketName", "InvalidObjectName"}

  /** The sentinel `handleMinioError` chooses for a non-nil error, first match winning. */
  function MinioKind(e: GoError): Sentinel {
    if e.minioCode.Some? then
      var code := e.minioCode.value;
      if code in MissingCodes then NotFound
      else if code in AuthCodes then Unavailable
      else if code in BadNameCodes then InvalidArgument
      else Unavailable
    else if e.credentialsFailure then Unavailable
    else if MatchesAny(e.text, NetworkPatterns) then Unavailable
    else if MatchesAny(e.text, ReadPatterns) then InvalidArgument
    else Unavailable
  }

  function HandleMinioError(err: Option<GoError>): (r: Option<GoError>)
    ensures r.None? <==> err.None?
    ensures r.Some? ==> r.value.wraps == {MinioKind(err.value)}
  {
    if err.None? then None
    else
      var e := err.value;
      if e.minioCode.Some? then Some(Annotate(MinioKind(e), "", e))
      else if e.credentialsFailure then Some(Annotate(Unavailable, "invalid credentials: ", e))
      else if MatchesAny(e.text, NetworkPatterns) then Some(Annotate(Unavailable, "minio connection failed: ", e))
      else if MatchesAny(e.text, ReadPatterns) then Some(Annotate(InvalidArgument, "", e))
      else Some(Annotate(Unavailable, "", e))
  }

  /** A non-nil error is never lost: the result wraps one kind and ends with the original text. */
  lemma {:induction false} HandleMinioErrorKeepsText(e: GoError)
    ensures HandleMinioError(Some(e)).Some?
    ensures var t := HandleMinioError(Some(e)).value.text;
            |t| > |e.text| && t[|t| - |e.text|..] == e.text
  {
  }

  /** The object-store code table: missing object or bucket, bad name, and everything else. */
  lemma {:induction false} MinioCodeTable(e: GoError)
    requires e.minioCode.Some?
    ensures e.minioCode.value in MissingCodes ==> MinioKind(e) == NotFound
    ensures e.minioCode.value in BadNameCodes ==> MinioKind(e) == InvalidArgument
    ensures e.minioCode.value !in MissingCodes + BadNameCodes ==> MinioKind(e) == Unavailable
  {
  }

  /** NotFound comes only from the codes NoSuchKey and NoSuchBucket. */
  lemma {:induction false} NotFoundOnlyFromMissing(e: GoError)
    ensures MinioKind(e) == NotFound <==> e.minioCode.Some? && e.minioCode.value in MissingCodes
  {
  }

  /** The order of the tests: a message that looks like both a network and a read failure is Unavailable. */
  lemma {:induction false} NetworkBeforeRead(e: GoError)
    requires e.minioCode.None?
    requires exists k :: 0 <= k < |NetworkPatterns| && Occurs(NetworkPatterns[k], e.text)
    ensures MinioKind(e) == Unavailable
  {
  }

  /** InvalidArgument comes from a bad-name code, or from a read failure that no earlier test claimed. */
  lemma {:induction false} InvalidArgumentSources(e: GoError)
    ensures MinioKind(e) == InvalidArgument <==>
      (e.minioCode.Some? && e.minioCode.value in BadNameCodes) ||
      (e.minioCode.None? && !e.credentialsFailure
       && !(exists k :: 0 <= k < |NetworkPatterns| && Occurs(NetworkPatterns[k], e.text))
       && (exists k :: 0 <= k < |ReadPatterns| && Occurs(ReadPatterns[k], e.text)))
  {
  }

  // ---------------------------------------------------------------------------
  // The object store seen by the analysis service
  // ---------------------------------------------------------------------------

  /**
   * A snapshot of the bucket: what listing the keys yields (or the raw error
   * it fails with), and what reading each object yields. A key absent from
   * `objects` does not exist.
   */
  datatype ObjectStore = ObjectStore(
    listing: Result<seq<string>, GoError>,
    objects: map<string, Result<string, GoError>>)

  /** The raw error the store reports for a missing object. */
  function NoSuchKeyError(): GoError {
    GoError("The specified key does not exist.", {}, Some("NoSuchKey"), false, false, None, None)
  }

  /** `GetAllKeys`: the keys, or the listing error passed through `handleMinioError`. */
  function GetAllKeys(store: ObjectStore): (r: Result<seq<string>, GoError>)
    ensures r.Success? <==> store.listing.Success?
    ensures r.Success? ==> r.value == store.listing.value
    ensures r.Failure? ==> r.error.wraps == {MinioKind(store.listing.error)}
  {
    match store.listing
    case Success(keys) => Success(keys)
    case Failure(e) => Failure(HandleMinioError(Some(e)).value)
  }

  /** `GetFile`: the content, or the read error passed through `handleMinioError`. */
  function GetFile(store: ObjectStore, key: string): (r: Result<string, GoError>)
    ensures r.Success? <==> key in store.objects && store.objects[key].Success?
    ensures r.Success? ==> r.value == store.objects[key].value
    ensures key in store.objects && store.objects[key].Failure? ==> r.error.wraps == {MinioKind(store.objects[key].error)}
  {
    var raw := if key in store.objects then store.objects[key] else Failure(NoSuchKeyError());
    match raw
    case Success(content) => Success(content)
    case Failure(e) => Failure(HandleMinioError(Some(e)).value)
  }

  /** Reading a key that is not in the store fails with NotFound. */
  lemma {:induction false} MissingObjectIsNotFound(store: ObjectStore, key: string)
    requires key !in store.objects
    ensures GetFile(store, key).Failure? && GetFile(store, key).error.wraps == {NotFound}
  {
  }
}
