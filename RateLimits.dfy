/**
 * The rate-limit snapshot read from a response's headers (`BaseApi.getRateLimits`).
 */
module RateLimits {
  import opened Js

  /** Response headers by lower-case name; `get` of an absent name is `null`. */
  type Headers = map<string, string>

  function HeaderGet(h: Headers, name: string): Option<string>
  {
    if name in h then Some(h[name]) else None
  }

  const RATE_LIMIT_TYPE_HEADER := "x-rate-limit-type"
  const APP_RATE_LIMIT_HEADER := "x-app-rate-limit"
  const APP_RATE_LIMIT_COUNT_HEADER := "x-app-rate-limit-count"
  const METHOD_RATE_LIMIT_HEADER := "x-method-rate-limit"
  const METHOD_RATE_LIMIT_COUNT_HEADER := "x-method-rate-limit-count"
  const RETRY_AFTER_HEADER := "retry-after"
  const EDGE_TRACE_ID_HEADER := "x-riot-edge-trace-id"

  const DEFAULT_RATE_LIMIT_VALUE: string := ""
  const DEFAULT_RATE_LIMIT_RETRY_AFTER: real := 0.0

  datatype RateLimitDto = RateLimitDto(
    Type: Option<string>,
    AppRateLimit: string,
    AppRateLimitCount: string,
    MethodRateLimit: string,
    MethodRatelimitCount: string,
    RetryAfter: real,
    EdgeTraceId: string)

  /** The snapshot an empty header set gives. */
  const DEFAULT_RATE_LIMITS := RateLimitDto(None, "", "", "", "", 0.0, "")

  /** `headers.get(name) || fallback`: a missing or empty header falls back. */
  function HeaderOr(h: Headers, name: string, fallback: string): string
  {
    match HeaderGet(h, name)
    case Some(v) => if v != "" then v else fallback
    case None => fallback
  }

  /** `Number(headers.get(name)) || 0`: `Number(null)` is 0, and NaN and 0 are falsy. */
  function NumericHeader(h: Headers, name: string): real
  {
    match HeaderGet(h, name)
    case None => DEFAULT_RATE_LIMIT_RETRY_AFTER
    case Some(v) =>
      match StringToNumber(v)
      case Some(x) => if x != 0.0 then x else DEFAULT_RATE_LIMIT_RETRY_AFTER
      case None => DEFAULT_RATE_LIMIT_RETRY_AFTER
  }

  function GetRateLimits(h: Headers): RateLimitDto
  {
    RateLimitDto(
      Type := match HeaderGet(h, RATE_LIMIT_TYPE_HEADER)
              case Some(v) => if v != "" then Some(v) else None
              case None => None,
      AppRateLimit := HeaderOr(h, APP_RATE_LIMIT_HEADER, DEFAULT_RATE_LIMIT_VALUE),
      AppRateLimitCount := HeaderOr(h, APP_RATE_LIMIT_COUNT_HEADER, DEFAULT_RATE_LIMIT_VALUE),
      MethodRateLimit := HeaderOr(h, METHOD_RATE_LIMIT_HEADER, DEFAULT_RATE_LIMIT_VALUE),
      MethodRatelimitCount := HeaderOr(h, METHOD_RATE_LIMIT_COUNT_HEADER, DEFAULT_RATE_LIMIT_VALUE),
      RetryAfter := NumericHeader(h, RETRY_AFTER_HEADER),
      EdgeTraceId := HeaderOr(h, EDGE_TRACE_ID_HEADER, DEFAULT_RATE_LIMIT_VALUE))
  }

  /** A header set without any of the seven names gives the all-default snapshot. */
  lemma NoRateLimitHeaders(h: Headers)
    requires RATE_LIMIT_TYPE_HEADER !in h && APP_RATE_LIMIT_HEADER !in h
    requires APP_RATE_LIMIT_COUNT_HEADER !in h && METHOD_RATE_LIMIT_HEADER !in h
    requires METHOD_RATE_LIMIT_COUNT_HEADER !in h && RETRY_AFTER_HEADER !in h
    requires EDGE_TRACE_ID_HEADER !in h
    ensures GetRateLimits(h) == DEFAULT_RATE_LIMITS
  {
  }

  /** The headers a server sends to announce a snapshot, Retry-After in delay-seconds form. */
  function SnapshotHeaders(kind: Option<string>, appLimit: string, appCount: string,
                           methodLimit: string, methodCount: string, retryAfter: nat,
                           traceId: string): Headers
  {
    var h := map[APP_RATE_LIMIT_HEADER := appLimit, APP_RATE_LIMIT_COUNT_HEADER := appCount,
                 METHOD_RATE_LIMIT_HEADER := methodLimit, METHOD_RATE_LIMIT_COUNT_HEADER := methodCount,
                 RETRY_AFTER_HEADER := NatToString(retryAfter), EDGE_TRACE_ID_HEADER := traceId];
    match kind
    case Some(t) => h[RATE_LIMIT_TYPE_HEADER := t]
    case None => h
  }

  /**
   * Reading back the headers of a snapshot recovers every field: the strings as
   * sent, an empty type as absent, and the delay-seconds value of Retry-After.
   */
  lemma ReadSnapshotHeaders(kind: Option<string>, appLimit: string, appCount: string,
                            methodLimit: string, methodCount: string, retryAfter: nat,
                            traceId: string)
    ensures GetRateLimits(SnapshotHeaders(kind, appLimit, appCount, methodLimit, methodCount, retryAfter, traceId))
         == RateLimitDto(if kind == Some("") then None else kind, appLimit, appCount,
                         methodLimit, methodCount, retryAfter as real, traceId)
  {
    NumberOfNatToString(retryAfter);
  }

  /** Retry-After in its delay-seconds form is read as that many seconds. */
  lemma RetryAfterSeconds(h: Headers, seconds: nat)
    requires HeaderGet(h, RETRY_AFTER_HEADER) == Some(NatToString(seconds))
    ensures GetRateLimits(h).RetryAfter == seconds as real
  {
    NumberOfNatToString(seconds);
  }

  /** Retry-After in its HTTP-date form is not a number, so it reads as 0. */
  lemma RetryAfterHttpDate(h: Headers)
    requires HeaderGet(h, RETRY_AFTER_HEADER) == Some("Wed, 21 Oct 2015 07:28:00 GMT")
    ensures GetRateLimits(h).RetryAfter == 0.0
  {
    var t := "Wed, 21 Oct 2015 07:28:00 GMT";
    assert TrimEnd(TrimStart(t)) == t;
    assert DigitPrefix(t) == [];
  }
}
