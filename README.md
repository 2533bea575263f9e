# twisted core in Dafny

A model of the request pipeline of the `twisted` Riot Games API client. It
covers these parts, with proofs of what each of them promises:

- `BaseApi`:
  - its configuration (constructor, `setParams`, `getParam`);
  - how request URLs are composed from endpoint templates (`getBaseUrl`, the
    `$(name)` substitution loop of `getApiUrl`);
  - the rate-limit snapshot read from response headers (`getRateLimits`);
  - the classification of failures (`wrapError`);
  - the `request` loop, which retries on 429 and 503 and waits before every
    retry.
- The error records that loop produces and consumes: `FetchError`,
  `ResponseError`, `RateLimitError`, `ServiceUnavailable`, `GenericError` and
  `ApiKeyNotFound`.
- The champion table (`championIdMap`):
  - how it is built from the `Champions` enum, and the "add only if absent"
    update rule with its camelCase to SNAKE_CASE alias rewrite;
  - `getChampionName` and `getChampionNameCapital`;
  - the choice of the auto-update interval and the parse of
    `UPDATE_CHAMPION_IDS`.
- The recursive structural check `hasSamePropertyNames`, which the tests use.

Files (modules), in dependency order:

- `Js.dfy`: the ECMAScript built-ins the code relies on:
  - ASCII case mapping;
  - `String(n)` for integers, and that distinct integers give distinct
    object keys;
  - a subset of `Number(s)` on strings;
  - `x | 0` (ToInt32);
  - `String.prototype.replace` with a string pattern.
- `JsonValue.dfy`: JSON-like values: response bodies and the inputs of the
  structural check.
- `PropertyNames.dfy`: `hasSamePropertyNames`.
- `RateLimits.dfy`: headers and `getRateLimits`.
- `Errors.dfy`: the error taxonomy as one datatype, with a function per
  constructor.
- `Base.dfy`:
  - the configuration and URL functions, `wrapError`, and one attempt of the
    loop;
  - the loop as a step function (`Iteration`, `RetryLoop`), with the proof
    that explains every run call by call;
  - the class `BaseApi`, whose methods are proved against those functions.
- `Champions.dfy`:
  - the enum table, the update rule, the capitalisation, and the interval
    logic;
  - the class `ChampionRegistry`, holding the module's mutable state
    (`championIdMap` and `championUpdateInterval`).

Inputs are parameters rather than effects:

- The network is a function `net(options, k)`, giving how the k-th call of
  `RequestBase.request` settles.
- `Math.random()` is `random(k)`, the factor of the k-th wait.
- `encodeURI` is a function parameter that never introduces a `$`.
- `RIOT_API_KEY` is the `envKey` argument.
- `UPDATE_CHAMPION_IDS` is an optional string.
- The CommunityDragon download is the already-fetched list of `(id, alias)`
  pairs, or `None` when it failed.
- The waits of the request loop are returned as a sequence of milliseconds
  instead of being slept.

## Model

| member | source | states |
|---|---|---|
| PropertyNames.HasSamePropertyNames | test/fetch/has-same-property-names.ts:3-8 | the check itself; what it promises is stated by the lemmas below |
| PropertyNames.NonObjectReference | test/fetch/has-same-property-names.ts:4 | a reference that is not an object, or is null, accepts every value |
| PropertyNames.NonObjectCandidate | test/fetch/has-same-property-names.ts:5 | an object reference rejects every value that is not an object or is null |
| PropertyNames.KeylessReference | test/fetch/has-same-property-names.ts:7 | an object reference without keys accepts every object |
| PropertyNames.EmptyCandidate | test/fetch/has-same-property-names.ts:24-26 | an empty object fails against a reference that has a key |
| PropertyNames.ExtraKeys | test/fetch/has-same-property-names.ts:14-22 | keys of the candidate that the reference lacks never change the result |
| PropertyNames.Reflexive | test/fetch/has-same-property-names.ts:3-8 | every value passes the check against itself (by induction on the value) |
| PropertyNames.Transitive | test/fetch/has-same-property-names.ts:3-8 | the check is transitive, so it is a preorder on values |
| PropertyNames.SourceFileAssertions | test/fetch/has-same-property-names.ts:10-26 | the two assertions at the end of the file hold: the object with an extra key passes and `{}` fails |
| JsonValue.ArrayKeys | test/fetch/has-same-property-names.ts:7 | `Object.keys` of an array lists exactly the canonical decimal indices below its length |
| JsonValue.Get | test/fetch/has-same-property-names.ts:7 | `obj[key]` of an existing key is a strictly smaller value, so the recursion terminates |
| Js.ReplaceFirstSpec | src/base/base.ts:117 | `replace` with a string pattern rewrites exactly the leftmost occurrence and keeps the text around it |
| Js.IntToStringInjective | src/constants/champions.ts:185 | distinct ids are distinct object keys |
| Js.NumberOfNatToString | src/base/base.ts:94 | `Number(String(n))` is `n` for every non-negative integer |
| Js.StringToNumber | src/base/base.ts:94 | `Number(s)` on strings; stated by `NumberOfNatToString`, `RetryAfterSeconds` and `RetryAfterHttpDate` |
| Js.ToInt32 | src/constants/champions.ts:271 | `x \| 0` lies in the 32-bit signed range and agrees with the truncated value modulo 2^32 |
| RateLimits.GetRateLimits | src/base/base.ts:87-97 | the snapshot read from headers; stated by `NoRateLimitHeaders`, `ReadSnapshotHeaders`, `RetryAfterSeconds` and `RetryAfterHttpDate` |
| RateLimits.NoRateLimitHeaders | src/base/base.ts:84-96 | without any of the seven headers the snapshot is all defaults: `""` for the strings, no `Type` and `RetryAfter` 0 |
| RateLimits.ReadSnapshotHeaders | src/base/base.ts:87-97 | reading the headers of a snapshot back recovers every field; an empty type reads as absent |
| RateLimits.RetryAfterSeconds | src/base/base.ts:94 | a delay-seconds Retry-After is read as that many seconds |
| RateLimits.RetryAfterHttpDate | src/base/base.ts:94 | an HTTP-date Retry-After is not a number, so it reads as 0 |
| Errors.NewFetchError | src/errors/fetch.error.ts:6-16 | message and cause are the arguments; the name is the inherited `Error`; there is no status and no headers |
| Errors.NewResponseError | src/errors/response.error.ts:4-21 | name `ResponseError`; message, status, body and headers are the arguments, so a ResponseError always has headers |
| Errors.NewRateLimitError | src/errors/rate-limit.error.ts:8-19 | status 429 whatever the arguments; snapshot, message and optional cause are the arguments |
| Errors.NewServiceUnavailable | src/base/base.ts:148 | status 503, with the snapshot and the cause as given |
| Errors.NewApiKeyNotFound | src/errors/api-key-not-found.error.ts:4-17 | status 501, name `ApiKeyNotFound`, message `Api key not found`, with no argument |
| Errors.WithDefaultStatus | src/errors/Generic.error.ts:24 | `status ??= 500`: a present status is kept, a missing one becomes 500, the message is unchanged |
| Errors.NewGenericError | src/errors/Generic.error.ts:7-31 | name `GenericError`; the wrapped message, or `Generic error` when it is empty; the wrapped status, or 500; the cause is the wrapped error itself, with that status written into it; a non-empty body; the snapshot as given |
| Errors.PrefixMessage | src/base/base.ts:292 | the prefix is prepended to the message of a classified error; its kind, status and every other field stay the same |
| Base.ApplyParamsIdempotent | src/base/base.ts:53-80 | applying the same parameter object twice is the same as applying it once |
| Base.KeyDefaults | src/base/base.ts:22-44 | a client built from a key has retries on, the default attempt count and base URL, no concurrency and every debug flag off |
| Base.BaseApi.constructor | src/base/base.ts:41-51 | the configuration is the defaults, then the key argument or the parameter object's key (else `RIOT_API_KEY`), then `setParams` |
| Base.BaseApi.SetParams | src/base/base.ts:53-80 | every defined property overwrites its field, the debug flags one by one; `concurrency` is always copied |
| Base.BaseApi.GetParam | src/base/base.ts:169-178 | a client constructed from the returned object, whatever the environment key, has exactly this client's configuration |
| Base.BaseUrlFor | src/base/base.ts:99-101 | only the leftmost `:game` is replaced by the game; a URL without one is unchanged |
| Base.FirstToken | src/base/base.ts:110-114 | the regular expression's match is the leftmost `$(` that has a `)` somewhere after it |
| Base.TokenText | src/base/base.ts:110-115 | the matched text runs from `$(` to the first `)` after it |
| Base.SubstituteSplices | src/base/base.ts:115-117 | one pass replaces exactly the leftmost token by the encoded parameter text and keeps everything before and after it |
| Base.SubstituteShrinks | src/base/base.ts:110-119 | with `$`-free parameter values, every pass removes a `$`, so the loop terminates |
| Base.SubstituteAll | src/base/base.ts:109-120 | the substitution leaves no token, and a template without tokens is returned unchanged |
| Base.BaseApi.GetApiUrl | src/base/base.ts:103-121 | the `while` loop computes the substitution of the template `base/prefix/v{version}/path` and leaves no token |
| Base.WrapError | src/base/base.ts:126-152 | classified errors are returned unchanged, so wrapping is idempotent; otherwise 429 gives a RateLimitError carrying the original, 503 a ServiceUnavailable and anything else a GenericError; the status is kept (500 when missing) and the snapshot comes from the error's headers |
| Base.SnapshotOf | src/base/base.ts:133-140 | the snapshot `wrapError` attaches; stated by `WrapError` and `WrapWithoutHeaders` |
| Base.WrapWithoutHeaders | src/base/base.ts:133-140 | an error without headers is classified with the all-default snapshot |
| Base.WrapFetchError | src/errors/fetch.error.ts:1-16 | a FetchError always becomes a GenericError with status 500 and the default snapshot, and 500 is written into it |
| Base.InternalRequestError | src/base/base.ts:158-167 | FetchError and ResponseError pass through; any other rejection becomes a status-less FetchError `Request failed` carrying it |
| Base.Attempt | src/base/base.ts:216-244 | a resolved response always stores its snapshot; it succeeds exactly when the status is neither 503 nor 429 and the body parses, with the body and that snapshot |
| Base.Iteration | src/base/base.ts:210-287 | an iteration that continues consumes one attempt; what a step does otherwise is stated through `LoopFrom` and `LoopOutcome` |
| Base.RetryLoop | src/base/base.ts:206-294 | the loop from a state to the end of `request`; stated by `LoopFrom` and `LoopOutcome` |
| Base.LoopFrom | src/base/base.ts:210-294 | from any state reached after retryable failures, the rest of the loop is explained call by call (by induction on the attempts left) |
| Base.LoopOutcome | src/base/base.ts:206-294 | with no attempt allowed, nothing is called and the no-attempt TypeError is thrown; otherwise 1 to `rateLimitRetryAttempts + 1` calls; every call but the last failed with 429/503 and was followed by exactly its wait; the last call decides the result |
| Base.ThrownKinds | src/base/base.ts:246-294 | a request that throws, throws a classified error, or the no-attempt TypeError when the budget is empty |
| Base.SuccessCarriesSnapshot | src/base/base.ts:235-259 | a returned result is the parsed body of the last call, with the snapshot of that response's headers |
| Base.ForceErrorSingleCall | src/base/base.ts:249-252 | with `forceError`, one call is made, nothing is waited for and a failure is thrown wrapped |
| Base.NoRetrySingleCall | src/base/base.ts:262-270 | with retries off, one call is made and nothing is waited for; a 429/503 throws the `No result retrieved` RateLimitError when a snapshot was read, and the wrapped error otherwise |
| Base.PersistentFailure | src/base/base.ts:272-294 | when every call fails with 429 or 503, the whole budget is used, each failure is followed by a wait, and the last failure is thrown with the `All N retry attemps failed.` prefix and its status |
| Base.RecoversAfterRetryableFailures | src/base/base.ts:210-260 | m retryable failures then a success, within the budget: the success is returned after m + 1 calls and m waits |
| Base.WaitsCoverRetryAfter | src/base/base.ts:272-286 | every wait is at least `RetryAfter * 1000` ms, where `RetryAfter` comes from the latest stored snapshot (0 if none) |
| Base.RetryAfterUsed | src/base/base.ts:275-279 | the Retry-After a wait starts from; stated by `ExpectedWaitBound`, `RetryAfterIgnored` and `RetryAfterHonoured` |
| Base.WaitMs | src/base/base.ts:275-280 | the milliseconds of one wait; stated by `ExpectedWaitBound` and `WaitsCoverRetryAfter` |
| Base.ExpectedWaitBound | src/base/base.ts:275-280 | one wait is the Retry-After part plus a non-negative random part |
| Base.RetryableIsResponseError | src/base/request.base.ts:68-82 | with `RequestBase`, a 429/503 arrives as a rejected ResponseError, so it stores no snapshot |
| Base.NoSnapshotBeforeWait | src/base/base.ts:216-219 | with `RequestBase`, no snapshot has been stored before any wait |
| Base.RetryAfterIgnored | src/base/base.ts:217-280 | as written, with `RequestBase`, every wait is only the random part: the server's Retry-After is never waited for |
| Base.RetryAfterCounterexample | src/base/base.ts:272-286 | a server answering 429 with `retry-after: 2`, two retries, random 0: the waits are 0, 0, 0 ms |
| Base.RetryAfterHonoured | src/base/base.ts:279-280 | corrected: reading the failing response's headers first, every wait lasts at least that response's Retry-After |
| Base.RetryAfterCorrected | src/base/base.ts:279-280 | corrected, on the same server: the waits are 2000, 2000, 2000 ms |
| Base.RequestParamsDollarFree | src/base/base.ts:188-189 | writing the lower-cased region into the parameters keeps them `$`-free |
| Base.RequestUrl | src/base/base.ts:188-190 | the URL a request sends to has no `$(...)` token left |
| Base.RequestRun | src/base/base.ts:184-294 | an empty key throws ApiKeyNotFound with no call; otherwise the run is the loop over the built options, described as in `LoopOutcome` |
| Base.BaseApi.Request | src/base/base.ts:184-303 | the method's result, calls and waits are `RequestRun` of the client's configuration; with a key, the caller's `params.region` is overwritten by the lower-cased region; without one, the parameters are left as they were |
| Base.BaseApi.SendWithRetries | src/base/base.ts:204-294 | the `while` loop over `attemptsLeft`, `lastAttemptError` and `rateLimits` computes `RetryLoop` from its start state |
| Champions.BuildIdMap | src/constants/champions.ts:182-186 | the `forEach` over the enum's entries builds the map `FromEnum` |
| Champions.ChampionRegistry.constructor | src/constants/champions.ts:182-186 | at load time the map is built from the enum and no update is scheduled |
| Champions.FromEnum | src/constants/champions.ts:183-186 | the map the enum gives; stated by `FromEnumLookup`, `FromEnumMissing` and `FromEnumKeys` |
| Champions.FromEnumLookup | src/constants/champions.ts:183-186 | an entry whose value is not repeated later is found under its value (by induction on the entries) |
| Champions.FromEnumMissing | src/constants/champions.ts:183-186 | a value no entry has is not a key |
| Champions.FromEnumKeys | src/constants/champions.ts:183-186 | every key is the rendering of an enum value |
| Champions.NameIn | src/constants/champions.ts:281-287 | a name is returned exactly when the id has a non-empty entry, and it is that entry; otherwise the error is `Invalid champ id <id>` |
| Champions.AatroxResolves | test/fetch/champions-update.test.ts:14 | after loading, `getChampionName(Champions.AATROX)` is `AATROX` |
| Champions.AatroxSurvivesUpdates | test/fetch/champions-update.test.ts:14 | whatever updates are applied, `AATROX` still resolves |
| Champions.UnknownIdRejected | src/constants/champions.ts:283-285 | an id that is not an enum value is rejected with its message |
| Champions.InsertUnderscores | src/constants/champions.ts:198 | the regular-expression rewrite; stated by `InsertOnlyUnderscores`, `NoLowerUpperLeft`, `InsertNothing` and `InsertIdempotent` |
| Champions.AliasKey | src/constants/champions.ts:198 | the alias key; stated by `AliasMonkeyKing` and `AliasJarvanIV` |
| Champions.InsertOnlyUnderscores | src/constants/champions.ts:198 | the alias rewrite only inserts underscores |
| Champions.NoLowerUpperLeft | src/constants/champions.ts:198 | after the rewrite no lower-case letter is directly followed by an upper-case one |
| Champions.InsertNothing | src/constants/champions.ts:198 | a string without a lower-upper pair is unchanged |
| Champions.InsertIdempotent | src/constants/champions.ts:198 | rewriting twice is rewriting once |
| Champions.AliasMonkeyKing | src/constants/champions.ts:198 | `MonkeyKing` becomes `MONKEY_KING` |
| Champions.AliasJarvanIV | src/constants/champions.ts:198 | `JarvanIV` becomes `JARVAN_IV` |
| Champions.UpdateOne | src/constants/champions.ts:199-203 | the update of one fetched pair; stated by `UpdateOneAdds`, `UpdatedIdResolves` and `UpdateOneKnown` |
| Champions.UpdateAll | src/constants/champions.ts:197-203 | the updates of a fetched list, in order; stated by `UpdateKeeps` and `UpdateGrows` |
| Champions.UpdateOneAdds | src/constants/champions.ts:199-203 | a new id gets its alias key, and that key gets its existing non-empty value, else the id |
| Champions.UpdatedIdResolves | src/constants/champions.ts:199-203 | after the update a new id resolves to its alias key, unless the alias is empty |
| Champions.UpdateOneKnown | src/constants/champions.ts:199 | an id that already has a name leaves the whole map unchanged |
| Champions.UpdateKeeps | src/constants/champions.ts:197-203 | no update overwrites or removes a non-empty entry (by induction on the list) |
| Champions.UpdateGrows | src/constants/champions.ts:197-203 | no update removes a key |
| Champions.ChampionRegistry.UpdateChampionIds | src/constants/champions.ts:193-209 | the `forEach` applies the update rule to each fetched pair in order; a failed download changes nothing |
| Champions.LetterPrefix | src/constants/champions.ts:294 | the longest prefix made only of ASCII letters |
| Champions.RunStarts | src/constants/champions.ts:294 | one mark per letter of the name, saying whether that letter starts a run of letters; see `RunStartAt` |
| Champions.RunStartAt | src/constants/champions.ts:294 | the mark of the letter at position p is set exactly when p is 0 or the character before it is not a letter (by induction on p) |
| Champions.LetterRuns | src/constants/champions.ts:294 | `match(/[a-zA-Z]+/g)` gives non-empty runs of letters; joined they are exactly the name's letters, and a run begins exactly at each letter whose predecessor is not a letter, so the runs are the maximal ones |
| Champions.CapitalizeRun | src/constants/champions.ts:294 | a capitalised run is the run up to case, with its first letter upper case and the rest lower case |
| Champions.CapitalizeAll | src/constants/champions.ts:294 | the joined result is the runs' letters up to case, with upper case exactly at the first letter of each run |
| Champions.CaseByRun | src/constants/champions.ts:294 | a letter-by-letter reading: the name's letters up to case, upper case exactly where a letter starts a run, everything else dropped |
| Champions.SpecialCase | src/constants/champions.ts:295-301 | the two special spellings change case only; every other name is kept |
| Champions.Capital | src/constants/champions.ts:293-302 | no result exactly when the name has no letter; otherwise the letter-by-letter capitalisation with the two special spellings, non-empty and starting upper case |
| Champions.CapitalUpperAtRunStarts | src/constants/champions.ts:293-302 | apart from the special spellings, the result keeps the name's letters up to case, and the letter at position p is upper case exactly when p is 0 or the character before it is not a letter |
| Champions.CapitalIn | src/constants/champions.ts:292-302 | an id lookup failure is passed on; a name without letters gives the TypeError of `null.map`; any other name gives its capitalisation |
| Champions.CapitalMonkeyKing | src/constants/champions.ts:294 | `MONKEY_KING` capitalises to `MonkeyKing` |
| Champions.CapitalJarvanIV | src/constants/champions.ts:298-299 | `JARVAN_IV` gives `JarvanIV` through the special case |
| Champions.CapitalRekSai | src/constants/champions.ts:296-297 | `REKSAI` gives `RekSai` through the special case |
| Champions.CapitalWithoutLetters | src/constants/champions.ts:294 | a name without letters has no result (`match` returns null) |
| Champions.ParseUpdateChampionIds | src/constants/champions.ts:268-272 | an unset or empty variable gives 0; otherwise the daily delay or a 32-bit signed integer |
| Champions.ParseNumeral | src/constants/champions.ts:268-272 | a decimal number below 2^31 is read as itself: `\| 0 * 1000` only truncates |
| Champions.ParseNonNumeric | src/constants/champions.ts:268-272 | a non-numeric value such as `true` gives the daily delay |
| Champions.RefreshInterval | src/constants/champions.ts:238-242 | a truthy (non-zero) delay wins; otherwise a non-zero parsed variable; otherwise 86,400,000; so the interval is never 0 |
| Champions.ZeroDelayStarts | src/constants/champions.ts:238-242 | a zero delay falls back to the parsed variable, then to the daily delay |
| Champions.AutoStart | src/constants/champions.ts:273-276 | updates start at load time exactly when the parsed variable is non-zero, with that interval |
| Champions.ChampionRegistry.StartChampionUpdates | src/constants/champions.ts:236-249 | runs one update, then schedules and returns the interval in that precedence: the truthy delay, else the non-zero parsed variable, else the daily delay |
| Champions.ChampionRegistry.StopChampionUpdates | src/constants/champions.ts:251-256 | no update is scheduled afterwards and the map is unchanged |

## Left out

- Logging: `console.debug` and `console.warn`, and the `Logger` calls guarded by the debug flags. The flags are modelled as configuration only.
- `dotenv` and `process.env`: the API key and `UPDATE_CHAMPION_IDS` are inputs.
- The concurrency queue of `RequestBase`, with `setConcurrency`. `RequestBase.request` is the `net` parameter, and `FromRequestBase` states which outcomes it can produce.
- `fetch`, the `json()` and `text()` body readers, and `encodeURI`: the body is given already parsed, or as the error parsing threw, and the encoder is a parameter.
- `waiter` and `Math.random()`: waits are returned, not slept, and the random factor is a parameter.
- `setInterval` and `clearInterval`: `championUpdateInterval` records the scheduled period, not a timer handle.
- `startChampionUpdates` called twice leaves the first timer running; the model keeps only the latest interval.
- `ServiceUnavailable`'s own message and name: its class file is not part of this model, so the variant records only the text prepended to its message.
- Floating point: statuses, ids and attempt counts are integers; delays and waits are exact reals.
- Base.BaseApi.GetApiUrl: requires parameter values, the region and the encoder to be `$`-free. The source demands nothing, but a value containing `$(...)` can keep the JavaScript loop from terminating. The `$` patterns of a replacement string (`$&` and the like) are not modelled either.
- Base.BaseApi.Request: the same `$`-free requirement as `GetApiUrl`. Also, `params || {}` writes `region` into a fresh object when no `params` is given, and that object is not visible to the caller.
- Base.RequestRun: the same `$`-free requirement as `GetApiUrl`.
- Base.RequestUrl: the same `$`-free requirement as `GetApiUrl`.
- Base.BaseApi.SendWithRetries: the write-back `rateLimits.RetryAfter ??= 0` is omitted, because a snapshot's `RetryAfter` is always a number, so it never writes.
- Base.BaseApi.SetParams: the `RequestBase.setConcurrency` call is not modelled.
- Base.BaseApi.GetParam: the returned object's `debug` is a copy of the flags; in the source it is the client's own `debug` object, so a caller that mutates it changes the client's flags. That aliasing is not modelled.
- Errors.WithDefaultStatus: `??=` writes 500 into the wrapped error object in place. The model stores the updated copy as the GenericError's cause, so other references to the original object are not updated.
- Errors.BodyOf: a body is a string or absent, and the `data` fallback is always undefined, since no modelled error has a `data` property.
- Js.StringToNumber: covers decimal literals with an optional sign and surrounding white space (every white space and line terminator character that `Number` trims). Exponents, hexadecimal, binary and octal literals, and `Infinity` are not covered; the model reads them as NaN.
- RateLimits.GetRateLimits: a Retry-After such as `1e3` reads as 0 in the model, not as its value, because `Js.StringToNumber` does not cover exponents.
- Champions.ParseUpdateChampionIds: a value such as `Infinity` or `1e3` gives the daily delay in the model. In the source `Infinity` gives 0 and `1e3` gives 1000.
- Champions.ChampionRegistry.UpdateChampionIds: an exception in the middle of the `forEach` (a malformed entry) leaves the pairs before it applied; the model receives well-formed pairs only.
- Champions.NameIn: ids are integers; a fractional or NaN id, which renders as another key, is not modelled.
- Js.ToUpper and Js.ToLower: case mapping is ASCII only, so the alias rewrite of a non-ASCII alias and the lower-casing of a non-ASCII region are not modelled; region values are ASCII enum strings. The capitalisation only ever sees ASCII letter runs, so ASCII case mapping is exact there.
- `getChampionName` and `getChampionNameCapital` themselves: the class functions `ChampionRegistry.GetChampionName` and `ChampionRegistry.GetChampionNameCapital` call `NameIn` and `CapitalIn` on the current map, and those carry the contracts.

## Findings

| source | as written | input that shows it | evidently intended | confidence | as-written member | corrected member |
|---|---|---|---|---|---|---|
| src/base/base.ts:279 | The wait reads `RetryAfter` from the snapshot stored at line 219. Only a resolved response stores one, and `RequestBase` resolves only 2xx responses, which are never retried. A 429 or 503 arrives as a rejected ResponseError whose headers are never read, so the server's Retry-After is never waited for. | A server answering every call with 429 and `retry-after: 2`, with `rateLimitRetryAttempts` 2 and `Math.random()` returning 0: the three waits are 0 ms each. | Each wait lasts at least the failing response's Retry-After: 2000 ms each here. | not executed | Base.RetryAfterIgnored, Base.RetryAfterCounterexample | Base.RetryAfterHonoured, Base.RetryAfterCorrected |

`RetryLoop` and `RequestRun` take a flag that chooses between the two wait rules. The method `BaseApi.Request` follows the source as written. With the flag set, the loop reads the Retry-After of the failing response first, and that is the corrected rule.
