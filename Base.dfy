/**
 * `BaseApi`: the client's configuration, the composition of request URLs from
 * endpoint templates, the classification of failures into the public error
 * kinds, and the request loop that retries on 429 and 503.
 *
 * The network, the clock and `Math.random` are parameters: `net(options, k)` is
 * how the k-th call of `RequestBase.request` settles and `random(k)` is the value
 * `Math.random()` yields for the k-th wait. The waits themselves are returned as
 * a sequence of milliseconds instead of being slept.
 */
module Base {
  import opened Js
  import opened JsonValue
  import opened RateLimits
  import opened Errors

  // ---------------------------------------------------------------------------
  // Configuration
  // ---------------------------------------------------------------------------

  /** The values of `BaseConstants`; delays are in seconds. */
  datatype BaseConstants = BaseConstants(
    baseUrl: string,
    retryAttempts: int,
    rateLimitDelay: real,
    serviceUnavailableDelay: real)

  datatype Debug = Debug(logTime: bool, logUrls: bool, logRatelimits: bool)

  const NO_DEBUG := Debug(false, false, false)

  /** `IBaseApiParams`: every property is optional. */
  datatype DebugParams = DebugParams(logTime: Option<bool>, logUrls: Option<bool>, logRatelimits: Option<bool>)

  datatype ApiParams = ApiParams(
    key: Option<string>,
    rateLimitRetry: Option<bool>,
    rateLimitRetryAttempts: Option<int>,
    concurrency: Option<int>,
    baseURL: Option<string>,
    debug: Option<DebugParams>)

  /** The constructor's optional argument: an API key or a parameter object. */
  datatype ApiArg = NoArg | KeyArg(key: string) | ParamsArg(params: ApiParams)

  /** The configuration fields of a `BaseApi`. */
  datatype Settings = Settings(
    key: string,
    rateLimitRetry: bool,
    rateLimitRetryAttempts: int,
    debug: Debug,
    baseUrl: string,
    concurrency: Option<int>)

  function ApplyDebug(d: Debug, p: DebugParams): Debug
  {
    Debug(if p.logTime.Some? then p.logTime.value else d.logTime,
          if p.logUrls.Some? then p.logUrls.value else d.logUrls,
          if p.logRatelimits.Some? then p.logRatelimits.value else d.logRatelimits)
  }

  /** What `setParams` does: defined properties overwrite, `concurrency` is always copied. */
  function ApplyParams(s: Settings, p: ApiParams): Settings
  {
    Settings(
      s.key,
      p.rateLimitRetry.GetOr(s.rateLimitRetry),
      p.rateLimitRetryAttempts.GetOr(s.rateLimitRetryAttempts),
      match p.debug
      case Some(d) => ApplyDebug(s.debug, d)
      case None => s.debug,
      p.baseURL.GetOr(s.baseUrl),
      p.concurrency)
  }

  /** The configuration before the constructor looks at its argument; `envKey` is `RIOT_API_KEY || ''`. */
  function DefaultSettings(envKey: string, c: BaseConstants): Settings
  {
    Settings(envKey, true, c.retryAttempts, NO_DEBUG, c.baseUrl, None)
  }

  /** The configuration the constructor leaves. */
  function InitialSettings(envKey: string, arg: ApiArg, c: BaseConstants): Settings
  {
    var d := DefaultSettings(envKey, c);
    match arg
    case NoArg => d
    case KeyArg(k) => d.(key := k)
    case ParamsArg(p) => ApplyParams(d.(key := p.key.GetOr(envKey)), p)
  }

  /** The parameter object `getParam` returns. */
  function ParamsOf(s: Settings): ApiParams
  {
    ApiParams(Some(s.key), Some(s.rateLimitRetry), Some(s.rateLimitRetryAttempts), s.concurrency,
              Some(s.baseUrl),
              Some(DebugParams(Some(s.debug.logTime), Some(s.debug.logUrls), Some(s.debug.logRatelimits))))
  }

  /** Applying the same parameter object twice changes nothing more than applying it once. */
  lemma ApplyParamsIdempotent(s: Settings, p: ApiParams)
    ensures ApplyParams(ApplyParams(s, p), p) == ApplyParams(s, p)
  {
  }

  /** A client built from a key alone has the documented defaults. */
  lemma KeyDefaults(envKey: string, k: string, c: BaseConstants)
    ensures ParamsOf(InitialSettings(envKey, KeyArg(k), c))
         == ApiParams(Some(k), Some(true), Some(c.retryAttempts), None, Some(c.baseUrl),
                      Some(DebugParams(Some(false), Some(false), Some(false))))
  {
  }

  // ---------------------------------------------------------------------------
  // URL composition
  // ---------------------------------------------------------------------------

  const GAME_PLACEHOLDER := ":game"

  /** `baseUrl.replace(':game', game)`: the leftmost `:game`, if any, becomes the game. */
  function BaseUrlFor(baseUrl: string, game: string): (r: string)
    ensures (forall i :: !OccursAt(baseUrl, GAME_PLACEHOLDER, i)) ==> r == baseUrl
    ensures forall i :: OccursAt(baseUrl, GAME_PLACEHOLDER, i)
                        && (forall j :: 0 <= j < i ==> !OccursAt(baseUrl, GAME_PLACEHOLDER, j))
                        ==> r == baseUrl[..i] + game + baseUrl[i + |GAME_PLACEHOLDER|..]
  {
    ReplaceFirst(baseUrl, GAME_PLACEHOLDER, game)
  }

  /** `IEndpoint`. */
  datatype Endpoint = Endpoint(prefix: string, version: int, path: string)

  function BasePath(e: Endpoint): string
  {
    e.prefix + "/v" + IntToString(e.version) + "/" + e.path
  }

  /** The URL before substitution: the base URL, a slash and `prefix/v{version}/path`. */
  function ApiTemplate(baseUrl: string, e: Endpoint): string
  {
    baseUrl + "/" + BasePath(e)
  }

  /** The values a caller puts in `params`. */
  datatype Scalar = Text(text: string) | Integer(n: int) | Flag(b: bool)
  datatype ParamValue = Single(value: Scalar) | List(items: seq<Scalar>)

  function ScalarString(x: Scalar): string
  {
    match x
    case Text(t) => t
    case Integer(n) => IntToString(n)
    case Flag(b) => if b then "true" else "false"
  }

  function JoinScalars(items: seq<Scalar>): string
  {
    if |items| == 0 then ""
    else if |items| == 1 then ScalarString(items[0])
    else ScalarString(items[0]) + "," + JoinScalars(items[1..])
  }

  /** `String(v)`: an array is its elements joined by commas. */
  function Stringify(v: ParamValue): string
  {
    match v
    case Single(x) => ScalarString(x)
    case List(items) => JoinScalars(items)
  }

  /** `String(params[name])`: a missing parameter renders as "undefined". */
  function ParamText(params: map<string, ParamValue>, name: string): string
  {
    if name in params then Stringify(params[name]) else "undefined"
  }

  /** A match of `/\$\(([^)]+)?\)/` starts at `p`: `$(` followed, later, by a `)`. */
  predicate TokenAt(s: string, p: int)
  {
    0 <= p && p + 2 <= |s| && s[p] == '$' && s[p + 1] == '(' && ')' in s[p + 2..]
  }

  /** Where `re.exec(s)` finds its match, scanning from `from`. */
  function FirstToken(s: string, from: nat): (r: Option<nat>)
    requires from <= |s|
    ensures r.Some? ==> from <= r.value && TokenAt(s, r.value)
    ensures forall q :: from <= q && (r.Some? ==> q < r.value) ==> !TokenAt(s, q)
    decreases |s| - from
  {
    if from == |s| then None
    else if TokenAt(s, from) then Some(from)
    else FirstToken(s, from + 1)
  }

  /** The first `)` at or after `from`. */
  function CloseAt(s: string, from: nat): (j: nat)
    requires from <= |s| && ')' in s[from..]
    ensures from <= j < |s| && s[j] == ')'
    ensures forall k :: from <= k < j ==> s[k] != ')'
    decreases |s| - from
  {
    assert s[from..] == [s[from]] + s[from + 1..];
    if s[from] == ')' then from else CloseAt(s, from + 1)
  }

  /** The matched text `match[0]`: from `$(` to the first `)` after it. */
  function TokenText(s: string, p: nat): (t: string)
    requires TokenAt(s, p)
    ensures |t| >= 3 && t[0] == '$' && t[1] == '(' && t[|t| - 1] == ')'
    ensures p + |t| <= |s| && t == s[p..p + |t|]
    ensures forall k :: 2 <= k < |t| - 1 ==> t[k] != ')'
  {
    s[p..CloseAt(s, p + 2) + 1]
  }

  /** The group `match[1]` used as a key; an empty group is `undefined`, read as the key "undefined". */
  function TokenName(s: string, p: nat): string
    requires TokenAt(s, p)
  {
    var t := TokenText(s, p);
    if |t| == 3 then "undefined" else t[2..|t| - 1]
  }

  /** One pass of the loop body: `base.replace(match[0], encodeURI(String(params[match[1]])))`. */
  function Substitute(s: string, p: nat, params: map<string, ParamValue>, encode: string -> string): string
    requires TokenAt(s, p)
  {
    ReplaceFirst(s, TokenText(s, p), encode(ParamText(params, TokenName(s, p))))
  }

  predicate DollarFree(t: string)
  {
    '$' !in t
  }

  predicate DollarFreeParams(params: map<string, ParamValue>)
  {
    forall k :: k in params ==> DollarFree(Stringify(params[k]))
  }

  /** The encoder never introduces a `$` (true of `encodeURI`, which leaves `$` as it is). */
  ghost predicate KeepsDollarFree(encode: string -> string)
  {
    forall t :: DollarFree(t) ==> DollarFree(encode(t))
  }

  lemma TokenTextOccurrence(s: string, t: string, q: int)
    requires |t| >= 3 && t[0] == '$' && t[1] == '(' && t[|t| - 1] == ')'
    ensures OccursAt(s, t, q) ==> TokenAt(s, q)
  {
    if OccursAt(s, t, q) {
      assert s[q..q + |t|] == t;
      assert s[q] == '$' && s[q + 1] == '(';
      assert s[q + 2..][|t| - 3] == s[q + |t| - 1] == ')';
    }
  }

  /**
   * `replace` finds the matched text at the match itself: one pass removes
   * exactly the leftmost token and puts the encoded value in its place,
   * keeping everything before and after it.
   */
  lemma SubstituteSplices(s: string, p: nat, params: map<string, ParamValue>, encode: string -> string)
    requires FirstToken(s, 0) == Some(p)
    ensures Substitute(s, p, params, encode)
         == s[..p] + encode(ParamText(params, TokenName(s, p))) + s[p + |TokenText(s, p)|..]
  {
    var t := TokenText(s, p);
    forall q | 0 <= q < p
      ensures !OccursAt(s, t, q)
    {
      TokenTextOccurrence(s, t, q);
    }
    ReplaceFirstSpec(s, t, encode(ParamText(params, TokenName(s, p))), p);
  }

  lemma ParamTextDollarFree(params: map<string, ParamValue>, name: string)
    requires DollarFreeParams(params)
    ensures DollarFree(ParamText(params, name))
  {
    if name !in params {
      assert "undefined"[0] != '$';
      assert forall i :: 0 <= i < |"undefined"| ==> "undefined"[i] != '$';
    }
  }

  /** With `$`-free values, every pass removes a `$`: the loop terminates. */
  lemma SubstituteShrinks(s: string, p: nat, params: map<string, ParamValue>, encode: string -> string)
    requires FirstToken(s, 0) == Some(p)
    requires DollarFreeParams(params) && KeepsDollarFree(encode)
    ensures Count(Substitute(s, p, params, encode), '$') < Count(s, '$')
  {
    var t := TokenText(s, p);
    var e := p + |t|;
    var v := encode(ParamText(params, TokenName(s, p)));
    assert Substitute(s, p, params, encode) == s[..p] + v + s[e..] by {
      SubstituteSplices(s, p, params, encode);
    }
    assert DollarFree(v) by {
      ParamTextDollarFree(params, TokenName(s, p));
    }
    assert s == s[..p] + t + s[e..] by {
      assert t == s[p..e];
    }
    CountSplice(s[..p], t, v, s[e..]);
  }

  /** Replacing a piece holding a `$` by one without lowers the count of `$`. */
  lemma CountSplice(before: string, t: string, v: string, after: string)
    requires t != [] && t[0] == '$' && DollarFree(v)
    ensures Count(before + v + after, '$') < Count(before + t + after, '$')
  {
    CountAppend(before + t, after, '$');
    CountAppend(before, t, '$');
    CountAppend(before + v, after, '$');
    CountAppend(before, v, '$');
    CountZero(v, '$');
  }

  /** What `getApiUrl` computes from a template: passes until no token is left. */
  function SubstituteAll(s: string, params: map<string, ParamValue>, encode: string -> string): (r: string)
    requires DollarFreeParams(params) && KeepsDollarFree(encode)
    ensures FirstToken(r, 0).None?
    ensures FirstToken(s, 0).None? ==> r == s
    decreases Count(s, '$')
  {
    match FirstToken(s, 0)
    case None => s
    case Some(p) =>
      SubstituteShrinks(s, p, params, encode);
      SubstituteAll(Substitute(s, p, params, encode), params, encode)
  }

  // ---------------------------------------------------------------------------
  // Error classification
  // ---------------------------------------------------------------------------

  /** The snapshot `wrapError` attaches: from the error's headers, else from an empty header set. */
  function SnapshotOf(e: Err): RateLimitDto
  {
    match HeadersOf(e)
    case Some(h) => GetRateLimits(h)
    case None => GetRateLimits(map[])
  }

  const TOO_MANY_REQUEST_PREFIX := "Too many request : "

  /**
   * `wrapError`: classified errors are returned as they are; any other error
   * becomes a RateLimitError (status 429), a ServiceUnavailable (status 503) or
   * a GenericError (any other or no status), carrying the original and the
   * rate-limit snapshot of its headers.
   */
  function WrapError(e: Err): (w: Err)
    ensures IsWrapped(w)
    ensures IsWrapped(e) ==> w == e
    ensures Status(w) == if Status(e).Some? then Status(e) else Some(UNDEFINED_STATUS)
    ensures !IsWrapped(e) ==> w.rateLimits == SnapshotOf(e)
    ensures !IsWrapped(e) ==> (w.RateLimitError? <==> Status(e) == Some(TOO_MANY_REQUESTS))
    ensures !IsWrapped(e) ==> (w.ServiceUnavailable? <==> Status(e) == Some(SERVICE_UNAVAILABLE))
    ensures !IsWrapped(e) && w.RateLimitError? ==>
              w.error == Some(e) && Message(w) == TOO_MANY_REQUEST_PREFIX + Message(e)
    ensures !IsWrapped(e) && w.ServiceUnavailable? ==> w.cause == e && w.messagePrefix == ""
    ensures !IsWrapped(e) && w.GenericError? ==> w == NewGenericError(SnapshotOf(e), e)
  {
    if IsWrapped(e) then e
    else if Status(e) == Some(TOO_MANY_REQUESTS) then
      NewRateLimitError(SnapshotOf(e), TOO_MANY_REQUEST_PREFIX + Message(e), Some(e))
    else if Status(e) == Some(SERVICE_UNAVAILABLE) then
      NewServiceUnavailable(SnapshotOf(e), e)
    else
      NewGenericError(SnapshotOf(e), e)
  }

  /** A failure without headers (a network error, say) is classified with the all-default snapshot. */
  lemma WrapWithoutHeaders(e: Err)
    requires !IsWrapped(e) && HeadersOf(e).None?
    ensures WrapError(e).rateLimits == DEFAULT_RATE_LIMITS
  {
    NoRateLimitHeaders(map[]);
  }

  /** A FetchError has neither status nor headers: it becomes a GenericError with status 500 and the default snapshot. */
  lemma WrapFetchError(message: string, cause: Option<Err>)
    ensures var w := WrapError(NewFetchError(message, cause));
            && w.GenericError? && Status(w) == Some(UNDEFINED_STATUS) && w.rateLimits == DEFAULT_RATE_LIMITS
            && w.cause == FetchError(message, cause, Some(UNDEFINED_STATUS))
  {
    WrapWithoutHeaders(NewFetchError(message, cause));
  }

  // ---------------------------------------------------------------------------
  // One call
  // ---------------------------------------------------------------------------

  /** What `fetchResponse.json()` gives: a value, or the error it throws. */
  datatype JsonBody = Parsed(value: Value) | Malformed(name: string, message: string)

  /** How one call of `RequestBase.request(options)` settles. */
  datatype Outcome =
    | Resolved(status: int, headers: Headers, text: string, json: JsonBody)
    | Rejected(error: Err)

  /** `FetchRequestConfig`: the URL, the method, the `X-Riot-Token` header and the query parameters. */
  datatype RequestOptions = RequestOptions(url: string, httpMethod: string, token: string, params: Value)

  /** `ApiResponseDTO`. */
  datatype ApiResponse = ApiResponse(rateLimits: RateLimitDto, response: Value)

  datatype AttemptResult = Succeeded(response: ApiResponse) | Raised(error: Err)

  /** An attempt's result and the snapshot it stored in `rateLimits`, if it stored one. */
  datatype Attempted = Attempted(result: AttemptResult, snapshot: Option<RateLimitDto>)

  const REQUEST_FAILED_MESSAGE := "Request failed"
  const SERVICE_UNAVAILABLE_MESSAGE := "Request failed with status code 503"
  const TOO_MANY_REQUESTS_MESSAGE := "Too many requests (response status : 429)"

  /** `internalRequest`'s rejection: FetchError and ResponseError pass, anything else is wrapped in a FetchError. */
  function InternalRequestError(e: Err): (r: Err)
    ensures r.FetchError? || r.ResponseError?
    ensures (e.FetchError? || e.ResponseError?) ==> r == e
    ensures !(e.FetchError? || e.ResponseError?) ==> r.FetchError? && r.message == REQUEST_FAILED_MESSAGE && r.error == Some(e)
    ensures Status(r) == if e.FetchError? || e.ResponseError? then Status(e) else None
  {
    if e.FetchError? || e.ResponseError? then e else NewFetchError(REQUEST_FAILED_MESSAGE, Some(e))
  }

  /** One pass of the `try` block of the request loop. */
  function Attempt(o: Outcome): (a: Attempted)
    ensures a.snapshot == if o.Resolved? then Some(GetRateLimits(o.headers)) else None
    ensures o.Rejected? ==> a.result == Raised(InternalRequestError(o.error))
    ensures a.result.Succeeded? <==> o.Resolved? && o.status != SERVICE_UNAVAILABLE && o.status != TOO_MANY_REQUESTS && o.json.Parsed?
    ensures a.result.Succeeded? ==> a.result.response == ApiResponse(GetRateLimits(o.headers), o.json.value)
    ensures a.result.Raised? && o.Resolved? ==>
              Status(a.result.error) == if o.status == SERVICE_UNAVAILABLE || o.status == TOO_MANY_REQUESTS then Some(o.status) else None
  {
    match o
    case Rejected(e) => Attempted(Raised(InternalRequestError(e)), None)
    case Resolved(status, headers, text, json) =>
      var rl := GetRateLimits(headers);
      if status == SERVICE_UNAVAILABLE then
        Attempted(Raised(NewServiceUnavailable(rl, NewResponseError(SERVICE_UNAVAILABLE_MESSAGE, status, Some(text), headers))), Some(rl))
      else if status == TOO_MANY_REQUESTS then
        Attempted(Raised(NewRateLimitError(rl, TOO_MANY_REQUESTS_MESSAGE, None)), Some(rl))
      else
        match json
        case Parsed(v) => Attempted(Succeeded(ApiResponse(rl, v)), Some(rl))
        case Malformed(name, message) => Attempted(Raised(OtherError(name, message, None)), Some(rl))
  }

  // ---------------------------------------------------------------------------
  // The request loop
  // ---------------------------------------------------------------------------

  /** An error the loop retries: status 429 or 503. */
  predicate IsRetryable(e: Err)
  {
    Status(e) == Some(TOO_MANY_REQUESTS) || Status(e) == Some(SERVICE_UNAVAILABLE)
  }

  /**
   * The Retry-After, in seconds, a wait starts from. As written the loop only
   * reads the stored snapshot; with `honourRetryAfter` the headers of the
   * failing response are read first (see `RetryAfterHonoured`).
   */
  function RetryAfterUsed(honourRetryAfter: bool, err: Err, rateLimits: Option<RateLimitDto>): real
  {
    if honourRetryAfter && HeadersOf(err).Some? then GetRateLimits(HeadersOf(err).value).RetryAfter
    else match rateLimits
      case None => DEFAULT_RATE_LIMIT_RETRY_AFTER
      case Some(rl) => rl.RetryAfter
  }

  /** The milliseconds waited before the next attempt, `r` being `Math.random()`. */
  function WaitMs(c: BaseConstants, honourRetryAfter: bool, err: Err, rateLimits: Option<RateLimitDto>, r: real): real
  {
    var waitSeconds := if Status(err) == Some(SERVICE_UNAVAILABLE) then c.serviceUnavailableDelay else c.rateLimitDelay;
    RetryAfterUsed(honourRetryAfter, err, rateLimits) * 1000.0 + waitSeconds * 1000.0 * r
  }

  const NO_RETRY_MESSAGE :=
    "No result retrieved. Retrying would be possible according to the HTTP response but is not allowed by configuration"

  /** The text prepended to the final error once every attempt has failed. */
  function ExhaustedPrefix(retries: int): string
  {
    "All " + IntToString(retries) + " retry attemps failed. "
  }

  /** Reading `.stack` of the undefined last error when no attempt was made. */
  const NO_ATTEMPT_ERROR := OtherError("TypeError", "Cannot read properties of undefined (reading 'stack')", None)

  /** Everything one request holds fixed. */
  datatype Env = Env(
    settings: Settings,
    consts: BaseConstants,
    forceError: bool,
    options: RequestOptions,
    net: (RequestOptions, nat) -> Outcome,
    random: nat -> real,
    honourRetryAfter: bool)

  /** The loop's variables; `calls` counts the calls made and `waits` the waits done. */
  datatype LoopState = LoopState(
    attemptsLeft: int,
    lastAttemptError: Option<Err>,
    rateLimits: Option<RateLimitDto>,
    calls: nat,
    waits: seq<real>)

  datatype RequestResult = Returned(response: ApiResponse) | Threw(error: Err)

  /** How a request ends, with the calls made and the waits done on the way. */
  datatype Run = Run(result: RequestResult, calls: nat, waits: seq<real>)

  datatype Step = Continue(next: LoopState) | Stop(run: Run)

  /** Attempts allowed: the first one plus the configured retries. */
  function Budget(env: Env): int
  {
    env.settings.rateLimitRetryAttempts + 1
  }

  function Start(env: Env): LoopState
  {
    LoopState(Budget(env), None, None, 0, [])
  }

  /** One iteration of the `while` loop. */
  function Iteration(env: Env, st: LoopState): (step: Step)
    requires st.attemptsLeft > 0
    ensures step.Continue? ==> step.next.attemptsLeft == st.attemptsLeft - 1
  {
    var a := Attempt(env.net(env.options, st.calls));
    var rateLimits := if a.snapshot.Some? then a.snapshot else st.rateLimits;
    var calls := st.calls + 1;
    match a.result
    case Succeeded(resp) => Stop(Run(Returned(resp), calls, st.waits))
    case Raised(e) =>
      if env.forceError || !IsRetryable(e) then
        Stop(Run(Threw(WrapError(e)), calls, st.waits))
      else if !env.settings.rateLimitRetry then
        Stop(Run(Threw(if rateLimits.None? then WrapError(e) else NewRateLimitError(rateLimits.value, NO_RETRY_MESSAGE, None)),
                 calls, st.waits))
      else
        var w := WaitMs(env.consts, env.honourRetryAfter, e, rateLimits, env.random(|st.waits|));
        Continue(LoopState(st.attemptsLeft - 1, Some(e), rateLimits, calls, st.waits + [w]))
  }

  /** The loop from a state to the end of `request`. */
  function RetryLoop(env: Env, st: LoopState): Run
    decreases if st.attemptsLeft > 0 then st.attemptsLeft else 0
  {
    if st.attemptsLeft > 0 then
      match Iteration(env, st)
      case Stop(r) => r
      case Continue(next) => RetryLoop(env, next)
    else
      match st.lastAttemptError
      case None => Run(Threw(NO_ATTEMPT_ERROR), st.calls, st.waits)
      case Some(e) =>
        Run(Threw(PrefixMessage(WrapError(e), ExhaustedPrefix(env.settings.rateLimitRetryAttempts))), st.calls, st.waits)
  }

  // ----- A run explained call by call ----------------------------------------

  function AttemptAt(env: Env, k: nat): Attempted
  {
    Attempt(env.net(env.options, k))
  }

  predicate RetryableAt(env: Env, k: nat)
  {
    AttemptAt(env, k).result.Raised? && IsRetryable(AttemptAt(env, k).result.error)
  }

  /** The `rateLimits` variable once call `k` has settled. */
  function SnapshotAfter(env: Env, k: nat): Option<RateLimitDto>
  {
    var s := AttemptAt(env, k).snapshot;
    if s.Some? then s else if k == 0 then None else SnapshotAfter(env, k - 1)
  }

  /** The wait that follows the retryable failure of call `k`. */
  function ExpectedWait(env: Env, k: nat): real
    requires RetryableAt(env, k)
  {
    WaitMs(env.consts, env.honourRetryAfter, AttemptAt(env, k).result.error, SnapshotAfter(env, k), env.random(k))
  }

  /** Another attempt may follow a retryable failure. */
  predicate KeepsRetrying(env: Env)
  {
    !env.forceError && env.settings.rateLimitRetry
  }

  /** How the run ends, decided by how its last call settled. */
  predicate LastCall(env: Env, r: Run)
    requires r.calls >= 1
  {
    match AttemptAt(env, r.calls - 1).result
    case Succeeded(resp) => r.result == Returned(resp) && |r.waits| == r.calls - 1
    case Raised(e) =>
      if env.forceError || !IsRetryable(e) then
        r.result == Threw(WrapError(e)) && |r.waits| == r.calls - 1
      else if !env.settings.rateLimitRetry then
        r.calls == 1 && r.waits == []
        && r.result == Threw(match SnapshotAfter(env, 0)
                             case None => WrapError(e)
                             case Some(rl) => NewRateLimitError(rl, NO_RETRY_MESSAGE, None))
      else
        r.calls == Budget(env) && |r.waits| == r.calls
        && r.result == Threw(PrefixMessage(WrapError(e), ExhaustedPrefix(env.settings.rateLimitRetryAttempts)))
  }

  /**
   * Every run with a budget of at least one attempt: between one call and the
   * budget; every call but the last failed with 429 or 503 and was followed by
   * its wait; and the last call decides the result.
   */
  predicate Explained(env: Env, r: Run)
  {
    && 1 <= r.calls <= Budget(env)
    && (forall k :: 0 <= k < r.calls - 1 ==> RetryableAt(env, k))
    && (r.calls > 1 ==> KeepsRetrying(env))
    && (|r.waits| == r.calls || |r.waits| == r.calls - 1)
    && (forall k :: 0 <= k < |r.waits| ==> RetryableAt(env, k) && r.waits[k] == ExpectedWait(env, k))
    && LastCall(env, r)
  }

  lemma {:induction false} LoopFrom(env: Env, st: LoopState)
    requires Budget(env) >= 1
    requires st.attemptsLeft >= 0 && st.attemptsLeft + st.calls == Budget(env)
    requires st.calls == |st.waits|
    requires forall k :: 0 <= k < st.calls ==> RetryableAt(env, k) && st.waits[k] == ExpectedWait(env, k)
    requires st.calls > 0 ==> KeepsRetrying(env) && RetryableAt(env, st.calls - 1)
    requires st.lastAttemptError == if st.calls == 0 then None else Some(AttemptAt(env, st.calls - 1).result.error)
    requires st.rateLimits == if st.calls == 0 then None else SnapshotAfter(env, st.calls - 1)
    ensures Explained(env, RetryLoop(env, st))
    decreases st.attemptsLeft
  {
    var r := RetryLoop(env, st);
    if st.attemptsLeft == 0 {
      assert RetryableAt(env, st.calls - 1);
      assert LastCall(env, r);
    } else {
      var a := AttemptAt(env, st.calls);
      var step := Iteration(env, st);
      match step
      case Stop(run) =>
        assert r == run;
        assert r.calls == st.calls + 1;
        assert LastCall(env, r);
      case Continue(next) =>
        assert a.result.Raised? && IsRetryable(a.result.error);
        assert next.rateLimits == SnapshotAfter(env, st.calls);
        assert next.waits[st.calls] == ExpectedWait(env, st.calls);
        LoopFrom(env, next);
    }
  }

  /** The complete description of the loop's runs for every environment. */
  lemma LoopOutcome(env: Env)
    ensures Budget(env) <= 0 ==> RetryLoop(env, Start(env)) == Run(Threw(NO_ATTEMPT_ERROR), 0, [])
    ensures Budget(env) >= 1 ==> Explained(env, RetryLoop(env, Start(env)))
  {
    if Budget(env) >= 1 {
      LoopFrom(env, Start(env));
    }
  }

  // ----- Properties of every run ---------------------------------------------

  /** A request that fails throws one of the classified kinds, the missing-key error, or the no-attempt TypeError. */
  lemma ThrownKinds(env: Env)
    ensures var r := RetryLoop(env, Start(env));
            r.result.Threw? ==> IsWrapped(r.result.error) || (Budget(env) <= 0 && r.result.error == NO_ATTEMPT_ERROR)
  {
    LoopOutcome(env);
  }

  /** A request that returns does so with the body and the snapshot of a response that resolved. */
  lemma SuccessCarriesSnapshot(env: Env)
    ensures var r := RetryLoop(env, Start(env));
            r.result.Returned? ==>
              && r.calls >= 1
              && var o := env.net(env.options, r.calls - 1);
                 && o.Resolved? && o.json.Parsed?
                 && r.result.response == ApiResponse(GetRateLimits(o.headers), o.json.value)
  {
    LoopOutcome(env);
  }

  /** When every call fails with 429 or 503 and retrying is on, the whole budget is used and the last failure is thrown, prefixed. */
  lemma PersistentFailure(env: Env)
    requires Budget(env) >= 1 && KeepsRetrying(env)
    requires forall k :: RetryableAt(env, k)
    ensures var r := RetryLoop(env, Start(env));
            && r.calls == Budget(env) && |r.waits| == Budget(env)
            && RetryableAt(env, r.calls - 1)
            && var e := AttemptAt(env, r.calls - 1).result.error;
               && r.result == Threw(PrefixMessage(WrapError(e), ExhaustedPrefix(env.settings.rateLimitRetryAttempts)))
               && Status(r.result.error) == Status(e)
  {
    LoopOutcome(env);
    var r := RetryLoop(env, Start(env));
    assert RetryableAt(env, r.calls - 1);
  }

  /** Retryable failures followed, within the budget, by a success: the success is returned after exactly that many calls. */
  lemma RecoversAfterRetryableFailures(env: Env, m: nat)
    requires KeepsRetrying(env) && m < Budget(env)
    requires forall k :: 0 <= k < m ==> RetryableAt(env, k)
    requires AttemptAt(env, m).result.Succeeded?
    ensures var r := RetryLoop(env, Start(env));
            r == Run(Returned(AttemptAt(env, m).result.response), m + 1, r.waits) && |r.waits| == m
  {
    LoopOutcome(env);
    var r := RetryLoop(env, Start(env));
    assert !RetryableAt(env, m);
    assert r.calls - 1 <= m;
    assert RetryableAt(env, r.calls - 1) ==> r.calls == Budget(env);
    assert r.calls - 1 == m;
  }

  /** With `forceError`, the first call decides: nothing is retried and nothing is waited for. */
  lemma ForceErrorSingleCall(env: Env)
    requires env.forceError && Budget(env) >= 1
    ensures var r := RetryLoop(env, Start(env));
            r.calls == 1 && r.waits == []
            && (AttemptAt(env, 0).result.Raised? ==> r.result == Threw(WrapError(AttemptAt(env, 0).result.error)))
  {
    LoopOutcome(env);
  }

  /** With `rateLimitRetry` off, the first call decides as well; a retryable failure throws without waiting. */
  lemma NoRetrySingleCall(env: Env)
    requires !env.settings.rateLimitRetry && Budget(env) >= 1
    ensures var r := RetryLoop(env, Start(env));
            && r.calls == 1 && r.waits == []
            && (!env.forceError && RetryableAt(env, 0) ==>
                  r.result == Threw(match AttemptAt(env, 0).snapshot
                                    case None => WrapError(AttemptAt(env, 0).result.error)
                                    case Some(rl) => NewRateLimitError(rl, NO_RETRY_MESSAGE, None)))
  {
    LoopOutcome(env);
  }

  /**
   * Every wait lasts at least the Retry-After of the latest snapshot, 0 when
   * none was read, whatever `Math.random()` yields in [0, 1).
   */
  lemma WaitsCoverRetryAfter(env: Env)
    requires !env.honourRetryAfter && Budget(env) >= 1
    requires env.consts.rateLimitDelay >= 0.0 && env.consts.serviceUnavailableDelay >= 0.0
    requires forall k :: 0.0 <= env.random(k) < 1.0
    ensures var r := RetryLoop(env, Start(env));
            forall k :: 0 <= k < |r.waits| ==> r.waits[k] >= StoredRetryAfter(SnapshotAfter(env, k)) * 1000.0
  {
    LoopOutcome(env);
    var r := RetryLoop(env, Start(env));
    forall k | 0 <= k < |r.waits|
      ensures r.waits[k] >= StoredRetryAfter(SnapshotAfter(env, k)) * 1000.0
    {
      assert RetryableAt(env, k) && r.waits[k] == ExpectedWait(env, k);
      ExpectedWaitBound(env, k);
    }
  }

  lemma ExpectedWaitBound(env: Env, k: nat)
    requires !env.honourRetryAfter && RetryableAt(env, k)
    requires env.consts.rateLimitDelay >= 0.0 && env.consts.serviceUnavailableDelay >= 0.0
    requires 0.0 <= env.random(k)
    ensures ExpectedWait(env, k) >= StoredRetryAfter(SnapshotAfter(env, k)) * 1000.0
  {
    StoredWaitBound(env.consts, AttemptAt(env, k).result.error, SnapshotAfter(env, k), env.random(k));
  }

  lemma StoredWaitBound(c: BaseConstants, e: Err, rateLimits: Option<RateLimitDto>, r: real)
    requires c.rateLimitDelay >= 0.0 && c.serviceUnavailableDelay >= 0.0 && 0.0 <= r
    ensures WaitMs(c, false, e, rateLimits, r) >= StoredRetryAfter(rateLimits) * 1000.0
  {
    var delay := RandomDelay(c, e) * 1000.0;
    ProductNonNegative(delay, r);
    assert WaitMs(c, false, e, rateLimits, r) == StoredRetryAfter(rateLimits) * 1000.0 + delay * r;
  }

  /** `rateLimits.RetryAfter`, or 0 when no snapshot was stored. */
  function StoredRetryAfter(rateLimits: Option<RateLimitDto>): real
  {
    match rateLimits
    case None => DEFAULT_RATE_LIMIT_RETRY_AFTER
    case Some(rl) => rl.RetryAfter
  }

  // ----- Retry-After ----------------------------------------------------------

  /** How `RequestBase.request` settles: it resolves with 2xx responses only and rejects with a status-less FetchError or a ResponseError. */
  predicate FromRequestBase(o: Outcome)
  {
    match o
    case Resolved(status, _, _, _) => 200 <= status <= 299
    case Rejected(e) => (e.FetchError? && e.assignedStatus.None?) || e.ResponseError?
  }

  ghost predicate RequestBaseNet(env: Env)
  {
    forall k: nat :: FromRequestBase(env.net(env.options, k))
  }

  /** A retryable failure of `RequestBase` is a rejected ResponseError, which stores no snapshot. */
  lemma RetryableIsResponseError(env: Env, k: nat)
    requires RequestBaseNet(env) && RetryableAt(env, k)
    ensures env.net(env.options, k).Rejected? && env.net(env.options, k).error.ResponseError?
    ensures AttemptAt(env, k).result.error == env.net(env.options, k).error
    ensures AttemptAt(env, k).snapshot.None?
  {
    assert FromRequestBase(env.net(env.options, k));
  }

  lemma {:induction false} NoSnapshotBeforeWait(env: Env, k: nat)
    requires RequestBaseNet(env)
    requires forall j :: 0 <= j <= k ==> RetryableAt(env, j)
    ensures SnapshotAfter(env, k).None?
  {
    RetryableIsResponseError(env, k);
    if k > 0 {
      NoSnapshotBeforeWait(env, k - 1);
    }
  }

  /** The delay of a wait, in seconds, before the Retry-After part. */
  function RandomDelay(c: BaseConstants, err: Err): real
  {
    if Status(err) == Some(SERVICE_UNAVAILABLE) then c.serviceUnavailableDelay else c.rateLimitDelay
  }

  /**
   * As written, against `RequestBase`: the snapshot is only stored from a
   * resolved (2xx) response, which never leads to a retry, so every wait is the
   * random part alone and the server's Retry-After is never waited for.
   */
  lemma RetryAfterIgnored(env: Env)
    requires RequestBaseNet(env) && !env.honourRetryAfter && Budget(env) >= 1
    ensures var r := RetryLoop(env, Start(env));
            forall k :: 0 <= k < |r.waits| ==>
              RetryableAt(env, k)
              && r.waits[k] == RandomDelay(env.consts, AttemptAt(env, k).result.error) * 1000.0 * env.random(k)
  {
    LoopOutcome(env);
    var r := RetryLoop(env, Start(env));
    forall k | 0 <= k < |r.waits|
      ensures RetryableAt(env, k)
              && r.waits[k] == RandomDelay(env.consts, AttemptAt(env, k).result.error) * 1000.0 * env.random(k)
    {
      assert forall j :: 0 <= j <= k ==> RetryableAt(env, j);
      NoSnapshotBeforeWait(env, k);
    }
  }

  /**
   * With the Retry-After of the failing response read first, every wait lasts
   * at least as long as the server asked for.
   */
  lemma RetryAfterHonoured(env: Env)
    requires RequestBaseNet(env) && env.honourRetryAfter && Budget(env) >= 1
    requires env.consts.rateLimitDelay >= 0.0 && env.consts.serviceUnavailableDelay >= 0.0
    requires forall k :: 0.0 <= env.random(k) < 1.0
    ensures var r := RetryLoop(env, Start(env));
            forall k :: 0 <= k < |r.waits| ==>
              && env.net(env.options, k).Rejected? && env.net(env.options, k).error.ResponseError?
              && r.waits[k] >= GetRateLimits(env.net(env.options, k).error.headers).RetryAfter * 1000.0
  {
    LoopOutcome(env);
    var r := RetryLoop(env, Start(env));
    forall k | 0 <= k < |r.waits|
      ensures env.net(env.options, k).Rejected? && env.net(env.options, k).error.ResponseError?
      ensures r.waits[k] >= GetRateLimits(env.net(env.options, k).error.headers).RetryAfter * 1000.0
    {
      assert RetryableAt(env, k) && r.waits[k] == ExpectedWait(env, k);
      HonouredWaitBound(env, k);
    }
  }

  lemma HonouredWaitBound(env: Env, k: nat)
    requires RequestBaseNet(env) && env.honourRetryAfter && RetryableAt(env, k)
    requires env.consts.rateLimitDelay >= 0.0 && env.consts.serviceUnavailableDelay >= 0.0
    requires 0.0 <= env.random(k)
    ensures env.net(env.options, k).Rejected? && env.net(env.options, k).error.ResponseError?
    ensures ExpectedWait(env, k) >= GetRateLimits(env.net(env.options, k).error.headers).RetryAfter * 1000.0
  {
    RetryableIsResponseError(env, k);
    var e := AttemptAt(env, k).result.error;
    var delay := RandomDelay(env.consts, e) * 1000.0;
    ProductNonNegative(delay, env.random(k));
    assert ExpectedWait(env, k) == GetRateLimits(e.headers).RetryAfter * 1000.0 + delay * env.random(k);
  }

  lemma ProductNonNegative(a: real, b: real)
    requires a >= 0.0 && b >= 0.0
    ensures a * b >= 0.0
  {
  }

  /** A server that answers every call with 429 and `retry-after: 2`. */
  function Throttled(options: RequestOptions, k: nat): Outcome
  {
    Rejected(NewResponseError("Request failed with status code 429", TOO_MANY_REQUESTS, Some(""), map[RETRY_AFTER_HEADER := "2"]))
  }

  function ThrottledEnv(honourRetryAfter: bool): Env
  {
    Env(Settings("key", true, 2, NO_DEBUG, "https://example", None), BaseConstants("https://example", 1, 1.0, 1.0),
        false, RequestOptions("https://example/x", "GET", "key", Undefined), Throttled, (k: nat) => 0.0, honourRetryAfter)
  }

  /** The loop as written, two retries, `Math.random()` returning 0: three waits of 0 ms although 2 s were asked for. */
  lemma RetryAfterCounterexample()
    ensures RequestBaseNet(ThrottledEnv(false))
    ensures RetryLoop(ThrottledEnv(false), Start(ThrottledEnv(false))).waits == [0.0, 0.0, 0.0]
  {
    var env := ThrottledEnv(false);
    RetryAfterSeconds(map[RETRY_AFTER_HEADER := "2"], 2);
    assert forall k :: RetryableAt(env, k);
    PersistentFailure(env);
    RetryAfterIgnored(env);
  }

  /** The corrected loop on the same server waits the 2 s each time. */
  lemma RetryAfterCorrected()
    ensures RetryLoop(ThrottledEnv(true), Start(ThrottledEnv(true))).waits == [2000.0, 2000.0, 2000.0]
  {
    var env := ThrottledEnv(true);
    var h: Headers := map[RETRY_AFTER_HEADER := "2"];
    RetryAfterSeconds(h, 2);
    assert NatToString(2) == "2";
    assert forall k :: RetryableAt(env, k);
    PersistentFailure(env);
    LoopOutcome(env);
  }

  // ---------------------------------------------------------------------------
  // request
  // ---------------------------------------------------------------------------

  const REGION_PARAM := "region"

  /** `params.region = region.toLowerCase()`. */
  function RequestParams(params: map<string, ParamValue>, region: string): map<string, ParamValue>
  {
    params[REGION_PARAM := Single(Text(ToLower(region)))]
  }

  lemma LowerKeepsDollarFree(s: string)
    requires DollarFree(s)
    ensures DollarFree(ToLower(s))
  {
    forall i | 0 <= i < |s|
      ensures ToLower(s)[i] != '$'
    {
      assert s[i] != '$';
    }
  }

  lemma RequestParamsDollarFree(params: map<string, ParamValue>, region: string)
    requires DollarFreeParams(params) && DollarFree(region)
    ensures DollarFreeParams(RequestParams(params, region))
  {
    LowerKeepsDollarFree(region);
  }

  /** The URL `request` sends to. */
  function RequestUrl(s: Settings, game: string, region: string, endpoint: Endpoint,
                      params: map<string, ParamValue>, encode: string -> string): (url: string)
    requires DollarFreeParams(params) && DollarFree(region) && KeepsDollarFree(encode)
    ensures FirstToken(url, 0).None?
  {
    RequestParamsDollarFree(params, region);
    SubstituteAll(ApiTemplate(BaseUrlFor(s.baseUrl, game), endpoint), RequestParams(params, region), encode)
  }

  /** The whole of `request`, given the client's configuration. */
  function RequestRun(s: Settings, c: BaseConstants, game: string, region: string, endpoint: Endpoint,
                      params: map<string, ParamValue>, forceError: bool, queryParams: Value,
                      net: (RequestOptions, nat) -> Outcome, random: nat -> real,
                      encode: string -> string, honourRetryAfter: bool): (r: Run)
    requires DollarFreeParams(params) && DollarFree(region) && KeepsDollarFree(encode)
    ensures s.key == "" ==> r == Run(Threw(NewApiKeyNotFound()), 0, [])
    ensures s.key != "" ==>
              var env := Env(s, c, forceError, RequestOptions(RequestUrl(s, game, region, endpoint, params, encode), "GET", s.key, queryParams),
                             net, random, honourRetryAfter);
              && (Budget(env) <= 0 ==> r == Run(Threw(NO_ATTEMPT_ERROR), 0, []))
              && (Budget(env) >= 1 ==> Explained(env, r))
  {
    if s.key == "" then Run(Threw(NewApiKeyNotFound()), 0, [])
    else
      var options := RequestOptions(RequestUrl(s, game, region, endpoint, params, encode), "GET", s.key, queryParams);
      var env := Env(s, c, forceError, options, net, random, honourRetryAfter);
      LoopOutcome(env);
      RetryLoop(env, Start(env))
  }

  /** The caller's `params` object, into which `request` writes `region`. */
  class ParamBag {
    var values: map<string, ParamValue>

    constructor (values: map<string, ParamValue>)
      ensures this.values == values
    {
      this.values := values;
    }
  }

  class BaseApi {
    const game: string
    const consts: BaseConstants
    var baseUrl: string
    var key: string
    var concurrency: Option<int>
    var rateLimitRetry: bool
    var rateLimitRetryAttempts: int
    var debug: Debug

    function Config(): Settings
      reads this
    {
      Settings(key, rateLimitRetry, rateLimitRetryAttempts, debug, baseUrl, concurrency)
    }

    /** `new BaseApi()`, `new BaseApi(key)` or `new BaseApi(params)`; `envKey` is `RIOT_API_KEY || ''`. */
    constructor (game: string, consts: BaseConstants, envKey: string, arg: ApiArg)
      ensures this.game == game && this.consts == consts
      ensures Config() == InitialSettings(envKey, arg, consts)
    {
      this.game := game;
      this.consts := consts;
      baseUrl := consts.baseUrl;
      key := envKey;
      concurrency := None;
      rateLimitRetry := true;
      rateLimitRetryAttempts := consts.retryAttempts;
      debug := NO_DEBUG;
      new;
      match arg {
        case NoArg =>
        case KeyArg(k) =>
          key := k;
        case ParamsArg(p) =>
          if p.key.Some? {
            key := p.key.value;
          }
          SetParams(p);
      }
    }

    method SetParams(p: ApiParams)
      modifies this
      ensures Config() == ApplyParams(old(Config()), p)
    {
      if p.rateLimitRetry.Some? {
        rateLimitRetry := p.rateLimitRetry.value;
      }
      if p.rateLimitRetryAttempts.Some? {
        rateLimitRetryAttempts := p.rateLimitRetryAttempts.value;
      }
      if p.debug.Some? {
        var d := p.debug.value;
        var logTime, logUrls, logRatelimits := debug.logTime, debug.logUrls, debug.logRatelimits;
        if d.logTime.Some? {
          logTime := d.logTime.value;
        }
        if d.logUrls.Some? {
          logUrls := d.logUrls.value;
        }
        if d.logRatelimits.Some? {
          logRatelimits := d.logRatelimits.value;
        }
        assert Debug(logTime, logUrls, logRatelimits) == ApplyDebug(debug, d);
        debug := Debug(logTime, logUrls, logRatelimits);
      }
      if p.baseURL.Some? {
        baseUrl := p.baseURL.value;
      }
      concurrency := p.concurrency;
    }

    /** `getParam()`: a client built from the returned object, whatever the environment, has this client's configuration. */
    function GetParam(): (p: ApiParams)
      reads this
      ensures forall envKey :: InitialSettings(envKey, ParamsArg(p), consts) == Config()
    {
      ParamsOf(Config())
    }

    function GetBaseUrl(): string
      reads this
    {
      BaseUrlFor(baseUrl, game)
    }

    /** `getApiUrl`: every `$(name)` of the template, leftmost first, is replaced by the encoded parameter. */
    method GetApiUrl(endpoint: Endpoint, params: map<string, ParamValue>, encode: string -> string) returns (url: string)
      requires DollarFreeParams(params) && KeepsDollarFree(encode)
      ensures url == SubstituteAll(ApiTemplate(GetBaseUrl(), endpoint), params, encode)
      ensures FirstToken(url, 0).None?
    {
      var basePath := endpoint.prefix + "/v" + IntToString(endpoint.version) + "/" + endpoint.path;
      var base := GetBaseUrl() + "/" + basePath;
      var match_ := FirstToken(base, 0);
      while match_.Some?
        invariant match_ == FirstToken(base, 0)
        invariant SubstituteAll(base, params, encode) == SubstituteAll(ApiTemplate(GetBaseUrl(), endpoint), params, encode)
        decreases Count(base, '$')
      {
        var p := match_.value;
        var token := TokenText(base, p);
        var value := encode(ParamText(params, TokenName(base, p)));
        SubstituteShrinks(base, p, params, encode);
        base := ReplaceFirst(base, token, value);
        match_ := FirstToken(base, 0);
      }
      url := base;
    }

    /**
     * `request(region, endpoint, params, forceError, queryParams)`. `calls` is the
     * number of calls made to the network and `waits` the waits done between them.
     */
    method Request(region: string, endpoint: Endpoint, params: ParamBag?, forceError: bool, queryParams: Value,
                   net: (RequestOptions, nat) -> Outcome, random: nat -> real, encode: string -> string)
      returns (result: RequestResult, calls: nat, waits: seq<real>)
      requires DollarFree(region) && KeepsDollarFree(encode)
      requires params != null ==> DollarFreeParams(params.values)
      modifies params
      ensures Run(result, calls, waits)
           == RequestRun(Config(), consts, game, region, endpoint, if params == null then map[] else old(params.values),
                         forceError, queryParams, net, random, encode, false)
      ensures params != null && key != "" ==> params.values == RequestParams(old(params.values), region)
      ensures params != null && key == "" ==> params.values == old(params.values)
    {
      if key == "" {
        return Threw(NewApiKeyNotFound()), 0, [];
      }
      var bag := params;
      if bag == null {
        bag := new ParamBag(map[]);
      }
      ghost var given := bag.values;
      bag.values := bag.values[REGION_PARAM := Single(Text(ToLower(region)))];
      RequestParamsDollarFree(given, region);
      var url := GetApiUrl(endpoint, bag.values, encode);
      var options := RequestOptions(url, "GET", key, queryParams);
      result, calls, waits := SendWithRetries(options, forceError, net, random);
    }

    /** The retry loop of `request`, once the options are built. */
    method SendWithRetries(options: RequestOptions, forceError: bool, net: (RequestOptions, nat) -> Outcome, random: nat -> real)
      returns (result: RequestResult, calls: nat, waits: seq<real>)
      ensures Run(result, calls, waits) == RetryLoop(Env(Config(), consts, forceError, options, net, random, false),
                                                     Start(Env(Config(), consts, forceError, options, net, random, false)))
    {
      ghost var env := Env(Config(), consts, forceError, options, net, random, false);
      var attemptsLeft := rateLimitRetryAttempts + 1;
      var lastAttemptError: Option<Err> := None;
      var rateLimits: Option<RateLimitDto> := None;
      calls, waits := 0, [];
      while attemptsLeft > 0
        invariant RetryLoop(env, LoopState(attemptsLeft, lastAttemptError, rateLimits, calls, waits)) == RetryLoop(env, Start(env))
        decreases attemptsLeft
      {
        ghost var st := LoopState(attemptsLeft, lastAttemptError, rateLimits, calls, waits);
        var attempt := Attempt(net(options, calls));
        calls := calls + 1;
        if attempt.snapshot.Some? {
          rateLimits := attempt.snapshot;
        }
        match attempt.result {
          case Succeeded(response) =>
            return Returned(response), calls, waits;
          case Raised(e) =>
            lastAttemptError := Some(e);
            if forceError || !IsRetryable(e) {
              return Threw(WrapError(e)), calls, waits;
            }
            if !rateLimitRetry {
              if rateLimits.None? {
                return Threw(WrapError(e)), calls, waits;
              }
              return Threw(NewRateLimitError(rateLimits.value, NO_RETRY_MESSAGE, None)), calls, waits;
            }
            attemptsLeft := attemptsLeft - 1;
            var msToWait := WaitMs(consts, false, e, rateLimits, random(|waits|));
            waits := waits + [msToWait];
            assert Iteration(env, st) == Continue(LoopState(attemptsLeft, lastAttemptError, rateLimits, calls, waits));
        }
      }
      match lastAttemptError {
        case None =>
          result := Threw(NO_ATTEMPT_ERROR);
        case Some(e) =>
          result := Threw(PrefixMessage(WrapError(e), ExhaustedPrefix(rateLimitRetryAttempts)));
      }
    }
  }
}
