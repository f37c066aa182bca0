/**
 * The storing service's MinIO client helpers: the endpoint normalisation of
 * `NewClient` and `replaceHost`, which points a presigned URL made by the
 * internal client at the externally reachable endpoint.
 */
module StoringMinio {
  import opened Wrappers
  import opened Errdefs

  /** `strings.HasPrefix`. */
  predicate HasPrefix(s: string, prefix: string) {
    |prefix| <= |s| && s[..|prefix|] == prefix
  }

  /** `strings.TrimPrefix`: drop one leading `prefix`, if there is one. */
  function TrimPrefix(s: string, prefix: string): (r: string)
    ensures HasPrefix(s, prefix) ==> prefix + r == s
    ensures !HasPrefix(s, prefix) ==> r == s
  {
    if HasPrefix(s, prefix) then s[|prefix|..] else s
  }

  const HttpScheme := "http://"
  const HttpsScheme := "https://"

  /**
   * `strings.TrimPrefix(strings.TrimPrefix(endpoint, "http://"), "https://")`:
   * a tail of the endpoint, the whole of it when it starts with neither prefix.
   */
  function NormalizeEndpoint(endpoint: string): (r: string)
    ensures |r| <= |endpoint| && r == endpoint[|endpoint| - |r|..]
    ensures !HasPrefix(endpoint, HttpScheme) && !HasPrefix(endpoint, HttpsScheme) ==> r == endpoint
  {
    TrimPrefix(TrimPrefix(endpoint, HttpScheme), HttpsScheme)
  }

  /**
   * Normalisation strips at most one "http://" and then at most one
   * "https://": the result is what is left of the endpoint after a prefix
   * that is "", "http://", "https://" or "http://https://".
   */
  lemma {:induction false} NormalizeEndpointStrips(endpoint: string)
    ensures exists p :: (p in {"", HttpScheme, HttpsScheme, HttpScheme + HttpsScheme} &&
                         p + NormalizeEndpoint(endpoint) == endpoint)
  {
    var once := TrimPrefix(endpoint, HttpScheme);
    var p1 := if HasPrefix(endpoint, HttpScheme) then HttpScheme else "";
    var p2 := if HasPrefix(once, HttpsScheme) then HttpsScheme else "";
    assert p1 + once == endpoint;
    assert p2 + NormalizeEndpoint(endpoint) == once;
    assert (p1 + p2) + NormalizeEndpoint(endpoint) == endpoint;
  }

  /** A bare host is kept, and a host behind one scheme prefix loses it. */
  lemma {:induction false} NormalizeEndpointOfHost(host: string)
    requires !HasPrefix(host, HttpScheme) && !HasPrefix(host, HttpsScheme)
    ensures NormalizeEndpoint(host) == host
    ensures NormalizeEndpoint(HttpScheme + host) == host
    ensures NormalizeEndpoint(HttpsScheme + host) == host
  {
    assert (HttpScheme + host)[..|HttpScheme|] == HttpScheme;
    assert (HttpScheme + host)[|HttpScheme|..] == host;
    assert (HttpsScheme + host)[..|HttpsScheme|] == HttpsScheme;
    assert (HttpsScheme + host)[|HttpsScheme|..] == host;
    assert !HasPrefix(HttpsScheme + host, HttpScheme) by {
      assert (HttpsScheme + host)[4] == 's';
    }
  }

  /** The fields of Go's `url.URL`. */
  datatype Url = Url(
    scheme: string,
    opaqueData: string,
    user: string,
    host: string,
    path: string,
    rawPath: string,
    omitHost: bool,
    forceQuery: bool,
    rawQuery: string,
    fragment: string,
    rawFragment: string)

  /**
   * `replaceHost`: a copy of the URL whose host is the external endpoint and
   * whose scheme, when empty, becomes "http" unless the endpoint itself
   * carries a scheme prefix.
   */
  function ReplaceHost(u: Url, externalEndpoint: string): (r: Url)
    ensures r.host == externalEndpoint
    ensures r.scheme == u.scheme || (u.scheme == "" && r.scheme == "http")
    ensures r.scheme != u.scheme <==>
      u.scheme == "" && !HasPrefix(externalEndpoint, HttpScheme) && !HasPrefix(externalEndpoint, HttpsScheme)
    ensures r.(host := u.host, scheme := u.scheme) == u
  {
    var bare := !HasPrefix(externalEndpoint, HttpScheme) && !HasPrefix(externalEndpoint, HttpsScheme);
    u.(host := externalEndpoint, scheme := if bare && u.scheme == "" then "http" else u.scheme)
  }

  /** Rewriting twice towards the same endpoint changes nothing more. */
  lemma {:induction false} ReplaceHostIdempotent(u: Url, externalEndpoint: string)
    ensures ReplaceHost(ReplaceHost(u, externalEndpoint), externalEndpoint) == ReplaceHost(u, externalEndpoint)
  {
  }

  /**
   * For an endpoint written as a host, "http://" + host or "https://" + host,
   * the normalised endpoint is the host, and an empty scheme becomes "http".
   */
  lemma {:induction false} NormalizedEndpointGetsScheme(u: Url, host: string)
    requires !HasPrefix(host, HttpScheme) && !HasPrefix(host, HttpsScheme)
    requires u.scheme == ""
    ensures ReplaceHost(u, NormalizeEndpoint(host)) == u.(host := host, scheme := "http")
    ensures ReplaceHost(u, NormalizeEndpoint(HttpScheme + host)) == u.(host := host, scheme := "http")
    ensures ReplaceHost(u, NormalizeEndpoint(HttpsScheme + host)) == u.(host := host, scheme := "http")
  {
    NormalizeEndpointOfHost(host);
  }

  /**
   * Only one prefix of each kind is stripped: "http://http://minio" keeps
   * "http://minio" as its endpoint, and an empty scheme then stays empty.
   */
  lemma {:induction false} DoublePrefixKeepsEmptyScheme(u: Url)
    requires u.scheme == ""
    ensures NormalizeEndpoint("http://http://minio") == "http://minio"
    ensures ReplaceHost(u, NormalizeEndpoint("http://http://minio")).scheme == ""
  {
    assert HasPrefix("http://http://minio", HttpScheme);
    assert "http://http://minio"[|HttpScheme|..] == "http://minio";
    assert !HasPrefix("http://minio", HttpsScheme) by {
      assert "http://minio"[4] != HttpsScheme[4];
    }
  }

  /**
   * The client: what the internal client's `PresignHeader` produces for an
   * object key (for PUT and for GET), and the external endpoint the URLs are
   * rewritten to. Signing itself is not part of this model.
   */
  datatype Presigner = Presigner(
    presignPut: string -> Result<Url, GoError>,
    presignGet: string -> Result<Url, GoError>,
    externalEndpoint: string)

  /** `PresignedPutObject`: the internal client's URL, re-hosted, or its error unchanged. */
  function PresignedPutObject(p: Presigner, objectKey: string): (r: Result<Url, GoError>)
    ensures r.Failure? <==> p.presignPut(objectKey).Failure?
    ensures r.Failure? ==> r.error == p.presignPut(objectKey).error
    ensures r.Success? ==> r.value.host == p.externalEndpoint && r.value.path == p.presignPut(objectKey).value.path
  {
    match p.presignPut(objectKey)
    case Success(u) => Success(ReplaceHost(u, p.externalEndpoint))
    case Failure(e) => Failure(e)
  }

  /** `PresignedGetObject`: as `PresignedPutObject`, for downloads. */
  function PresignedGetObject(p: Presigner, objectKey: string): (r: Result<Url, GoError>)
    ensures r.Failure? <==> p.presignGet(objectKey).Failure?
    ensures r.Failure? ==> r.error == p.presignGet(objectKey).error
    ensures r.Success? ==> r.value.host == p.externalEndpoint && r.value.path == p.presignGet(objectKey).value.path
  {
    match p.presignGet(objectKey)
    case Success(u) => Success(ReplaceHost(u, p.externalEndpoint))
    case Failure(e) => Failure(e)
  }
}
