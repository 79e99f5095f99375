/** The shared axios client: its defaults, the request interceptor that adds
    the bearer credentials of section 2.1 of RFC 6750, and the response
    interceptor that passes everything through. */
module ApiClient {
  import opened Common
  import opened LocalStorage

  datatype RequestConfig = RequestConfig(baseUrl: string, withCredentials: bool, headers: map<string, string>)

  /** The client's defaults: base URL `/api`, credentials sent, JSON bodies. */
  function Defaults(): (c: RequestConfig)
    ensures c.baseUrl == "/api" && c.withCredentials
    ensures c.headers == map["Content-Type" := "application/json"]
  {
    RequestConfig("/api", true, map["Content-Type" := "application/json"])
  }

  const Scheme: string := "Bearer "

  function Bearer(token: string): (h: string)
    ensures |h| == |Scheme| + |token| && h[..|Scheme|] == Scheme && h[|Scheme|..] == token
  {
    Scheme + token
  }

  /** The characters of a `b64token` (RFC 6750, section 2.1). */
  predicate IsTokenChar(c: char) {
    ('a' <= c <= 'z') || ('A' <= c <= 'Z') || ('0' <= c <= '9')
    || c == '-' || c == '.' || c == '_' || c == '~' || c == '+' || c == '/'
  }

  /** `1*( ALPHA / DIGIT / "-" / "." / "_" / "~" / "+" / "/" ) *"="`. */
  predicate IsB64Token(t: string) {
    exists n | 1 <= n <= |t| :: SplitsAt(t, n)
  }

  predicate SplitsAt(t: string, n: int) {
    && 1 <= n <= |t|
    && (forall k :: 0 <= k < n ==> IsTokenChar(t[k]))
    && (forall k :: n <= k < |t| ==> t[k] == '=')
  }

  /** Reads the credentials back out of an `Authorization` value. */
  function ParseBearer(h: string): (r: Option<string>)
    ensures r.Some? ==> IsB64Token(r.value) && h == Bearer(r.value)
  {
    if |h| >= |Scheme| && h[..|Scheme|] == Scheme && IsB64Token(h[|Scheme|..]) then
      assert h == Scheme + h[|Scheme|..];
      Some(h[|Scheme|..])
    else None
  }

  /** Header and parser are inverse on well-formed tokens. */
  lemma BearerRoundTrip(token: string)
    ensures IsB64Token(token) ==> ParseBearer(Bearer(token)) == Some(token)
    ensures !IsB64Token(token) ==> ParseBearer(Bearer(token)) == None
  {
    var h := Bearer(token);
    assert h[..|Scheme|] == Scheme && h[|Scheme|..] == token;
  }

  /** A JSON web token (three base64url segments joined by dots) is a
      `b64token`. */
  lemma JwtIsB64Token(t: string)
    requires |t| >= 1 && forall k :: 0 <= k < |t| ==> IsTokenChar(t[k])
    ensures IsB64Token(t)
  {
    assert SplitsAt(t, |t|);
  }

  /** The request interceptor: with a stored token, `Authorization` is set
      to `Bearer <token>`; without one the request goes out as it was. */
  function InterceptRequest(st: Store, config: RequestConfig): (r: RequestConfig)
    ensures HasToken(st, AccessKey) ==> r == config.(headers := config.headers["Authorization" := Bearer(st[AccessKey])])
    ensures !HasToken(st, AccessKey) ==> r == config
    ensures r.baseUrl == config.baseUrl && r.withCredentials == config.withCredentials
    ensures forall k :: k in config.headers && k != "Authorization" ==> k in r.headers && r.headers[k] == config.headers[k]
  {
    if HasToken(st, AccessKey) then config.(headers := config.headers["Authorization" := Bearer(st[AccessKey])])
    else config
  }

  /** A token whose characters are those of a `b64token` travels intact: the
      server reads back exactly the stored token. */
  lemma InterceptedTokenReadsBack(st: Store, config: RequestConfig)
    requires HasToken(st, AccessKey) && IsB64Token(st[AccessKey])
    ensures var r := InterceptRequest(st, config);
            "Authorization" in r.headers && ParseBearer(r.headers["Authorization"]) == Some(st[AccessKey])
  {
    BearerRoundTrip(st[AccessKey]);
  }

  /** The response interceptor: responses and errors, a 401 included, come
      out exactly as they went in, and storage is not touched. */
  function InterceptResponse<T>(st: Store, o: HttpOutcome<T>): (r: (HttpOutcome<T>, Store))
    ensures r.0 == o && r.1 == st
  {
    (o, st)
  }

  /** The same holds for every client a page builds this way, such as the
      groups page's own instance: the interceptor is applied once per
      request, and applying it again changes nothing. */
  lemma InterceptRequestIdempotent(st: Store, config: RequestConfig)
    ensures InterceptRequest(st, InterceptRequest(st, config)) == InterceptRequest(st, config)
  {
  }
}
