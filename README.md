# SayEcho bot — a verified model of its decision logic

The SayEcho bot logs into the SayEcho API with one bearer token per account.
For each account it checks the profile, completes the "check out post" quests
and claims the daily waves. Accounts run in worker threads, at most
`maxThreads` at a time, in endless cycles. This project models the logic under
that plumbing, with the network, the clock, randomness and the threads
replaced by inputs:

- `Client` (client.dfy) models `SayEchoClientAPI` (sayecho_client.js):
  - the `_makeRequest` retry loop, as a method over the outcomes of its three possible attempts, returning the result and a per-attempt record (headers sent, re-authentication, 60 s pause, random backoff);
  - the error-detail extraction;
  - `authSayEcho`, and the checks `getMeInfo` and `fetchQuests`;
  - the quest submission;
  - the daily-waves claim, with its two flags as fields of the client object.
- `Accounts` (accounts.dfy) models `loadAccountsData` (main.js): token-line filtering, then the round-robin proxy assignment.
- `Workflow` (workflow.dfy) models `runSingleAccountWorkerLogic` (main.js). It turns the server's answers into the trace of steps one worker takes, as a method over the client and as the function that specifies it.
- `Scheduler` (scheduler.dfy) models one cycle of `startMainProcess` (main.js):
  - a class holding `taskPointer`, the active workers, `processedInCycleCount` and `resolveCalled`;
  - a method per event: `launchNextWorker`, a worker's `error` or `exit`, and the start of the cycle;
  - the sleep between cycles.
- `Config` (config.js) models the environment-to-configuration rules. It includes `parseInt` with radix 10 as ECMA-262 defines it (section 19.2.5 in recent editions).
- `Utils` (utils.js) models `getRandomNumber` and `isSayEchoTokenExpired`. The `exp` claim is the one defined in section 4.1.4 of RFC 7519.
- `Text` and `JsValues` hold the JavaScript string operations and values the rest needs: `trim`, `split("\n")`, `toLowerCase`, `startsWith`, truthiness, `||` and property access.

A request's outcome is an input to the model:
- `Responded(status, data)`;
- `Rejected(status, data, message)` for an error with a response;
- `NoResponse(code, message)` for a transport failure.

A worker run takes the answers to all of its requests as one `Answers` value. A worker is identified by its account's queue position.

## Model

| member | source | states |
|---|---|---|
| Client.StatusOf | sayecho_client.js:86-88 | a failure with a response carries that response's HTTP status; one without carries the transport code, or `NETWORK_ERROR` when the code is absent |
| Client.ErrorDetail | sayecho_client.js:89-104 | a string body is the detail. For an object body the detail is its truthy `message`, else its truthy `error`, else (both falsy) the body itself. In every other case the detail is the transport message |
| Client.RequestHeaders | sayecho_client.js:56-69 | the sent headers are the common headers overridden by the extra ones. `Content-Type: application/json` is added exactly for a POST or PUT with a body. Every common header (Authorization with the bearer token, Accept, Origin, Referer, User-Agent) keeps its value unless the caller overrides it |
| Client.GetMeInfo | sayecho_client.js:207-226 | the profile is returned exactly when the request succeeded with a truthy body, and it is that body |
| Client.FetchQuests | sayecho_client.js:228-244 | the quest list is returned exactly when the request succeeded with an array body, and it is that array |
| Client.CompleteCheckOutPostQuest | sayecho_client.js:291-350 | a quest that is missing, of another type, or lacks `id` or `metadata.post` is rejected without a request. Otherwise the quest is submitted (the visit of `metadata.post`, when `visitExternalLinks` is on, is a step of `Workflow.SubmitSteps`) and completion is reported exactly for a success with status 200 and a truthy body. A failure, 409 included, is never completion |
| Client.ClaimVerdict | sayecho_client.js:352-421 | the claim succeeds exactly for `didCollect === true` with a defined `score`. `didCollect === false` sets only "available". `didCollect === true`, or a 409, sets "already collected". The two flags are never both set, and success implies "already collected" |
| Client.SayEchoClient.constructor | sayecho_client.js:15-39 | the client keeps the token, index and proxy URL. It has a proxy agent only with proxies on and a non-empty URL, and both claim flags start false |
| Client.SayEchoClient.AuthSayEcho | sayecho_client.js:166-205 | authentication succeeds exactly when a token is present and not expired, whether or not a refresh is forced |
| Client.SayEchoClient.MakeRequest | sayecho_client.js:45-164 | without a token the result is `TOKEN_ERROR` and no attempt is made. Otherwise there are 1 to 3 attempts. Every attempt but the last was a retryable failure: not a 409, and not a 401 whose re-authentication failed. The last attempt is the third or a non-retryable one, and the result is its verdict. The first headers are the request headers, and each later attempt's headers are the previous ones with Authorization rewritten after a 401. Every attempt is recorded as `AttemptRecordFor` states |
| Client.SayEchoClient.TryOnce | sayecho_client.js:83-156 | one pass of the loop body stops exactly at the last attempt or at a non-retryable outcome, and then returns that outcome's verdict. A 401 with a failed re-authentication gives "Re-authentication failed". A 409, or a failure on the last attempt, keeps the status, detail and body |
| Client.SayEchoClient.AttemptRecordFor | sayecho_client.js:113-156 | only a 401 re-authenticates, with `authSayEcho(true)`, and only a 429 pauses 60 s. The random backoff happens exactly when another attempt follows a failure that is not a 401, and lies in 5-10 s for a draw in range |
| Client.SayEchoClient.ClaimSayEchoDailyWaves | sayecho_client.js:352-421 | the result and both claim flags are reset, then set exactly as `ClaimVerdict` classifies the response |
| Client.NoTokenNoAuth | sayecho_client.js:169-176 | with no token, authentication fails for every clock reading, forced or not |
| Text.TrimStart | main.js:24 | `trimStart` removes exactly the leading white space, leaving a suffix that does not start with white space |
| Text.TrimEnd | main.js:24 | `trimEnd` removes exactly the trailing white space, leaving a prefix that does not end with white space |
| Text.TrimIsTrimmedSlice | main.js:24 | `trim` yields a slice of the line with no white space at either end |
| Text.TrimIdempotent | main.js:24 | trimming a trimmed line changes nothing |
| Text.SplitJoinRoundTrip | main.js:23 | `split("\n")` loses nothing: joining the pieces with line feeds restores the text, and no piece contains a line feed |
| Text.Lower | config.js:10 | `toLowerCase` maps each character independently and keeps the length |
| Utils.GetRandomNumber | utils.js:9-12 | the result is the lower bound plus the draw, and a draw in range gives a result between the bounds, in either order |
| Utils.GetRandomNumberSymmetric | utils.js:10 | swapping the bounds does not change the result |
| Utils.GetRandomNumberCoversRange | utils.js:11 | every integer between the bounds comes from exactly one admissible draw |
| Utils.IsSayEchoTokenExpired | utils.js:39-64 | an empty token or an undecodable one is expired. A payload without `exp` is not expired and reports "No Expiry Claim". Otherwise the token is expired exactly when `now > exp` |
| Utils.ExpiryIsMonotone | utils.js:52-55 | an expired token stays expired as the clock advances |
| Utils.ValidAtExpSecond | utils.js:54 | a token is still valid at the second of its `exp` and expired one second later |
| Config.ParseSigned | config.js:15 | after the white space, `parseInt` yields a number exactly when a digit follows the optional sign |
| Config.ParseIntRoundTrip | config.js:15 | `parseInt` reads back the decimal text of any integer, whatever non-digit text follows it |
| Config.ParseIntSkipsWhitespace | config.js:15 | leading white space never changes what `parseInt` reads |
| Config.PlusSignIgnored | config.js:15 | a `+` before the digits does not change the value (`parseInt("+7")` is 7, not -7) |
| Config.PlusRoundTrip | config.js:52 | `+` followed by a natural number's decimal text, and any non-digit text, reads as that number, so `SAYECHO_MAX_THREADS=+2` gives 2 threads |
| Config.LeadingZeroIgnored | config.js:15 | a leading zero before the digits does not change the value (`parseInt("05")` is 5) |
| Config.BoolSetting | config.js:9-11 | an unset or empty variable gives the default; otherwise the flag is true exactly when the lower-cased value is `"true"` |
| Config.IntSetting | config.js:14-21 | the setting is the parsed integer unless parsing gives NaN or 0, in which case it is the default; a non-zero default never yields 0 |
| Config.StringSetting | config.js:12 | the proxy URL is set exactly when the variable is non-empty, and it is then the variable's value |
| Config.Load | config.js:6-54 | the `config` object: the fixed API base URL, proxies on exactly when `SAYECHO_USE_PROXY` lower-cases to `"true"`, and none of the eight numeric settings (the three delay ranges, the cycle sleep, the thread limit) is 0 |
| Config.MaxThreadsFollowsUseProxy | config.js:49-53 | `maxThreads` reads `SAYECHO_MAX_THREADS` (default 3) exactly when proxies are on, else `SAYECHO_MAX_THREADS_NO_PROXY` (default 1). No numeric setting, including `delayAfterVisit` and `delayBetweenAccounts`, is 0 |
| Config.DefaultConfig | config.js:6-54 | with an empty environment every setting takes its documented default |
| Config.ProxyModeExample | config.js:9-11 | worked case: `TRUE` turns proxies on, a thread count of `0` falls back to 3, and `"7m"` reads as 7 minutes |
| Accounts.LoadAccounts | main.js:14-86 | an unreadable token file gives no accounts. Otherwise the accounts are the filtered tokens with proxies assigned, and an unread proxy file gives no proxies |
| Accounts.Assign | main.js:71-85 | there is one account per token, in order, whose `originalIndex` is its position and whose proxy is `ProxyFor` that position |
| Accounts.ProxyFor | main.js:72-79 | with proxies off there is no proxy. With a non-empty list the proxy is `proxies[index % length]`. Otherwise it is the global URL when that is set |
| Accounts.ProxiesRead | main.js:42-69 | proxies off, or a proxy file that cannot be read, gives an empty proxy list; otherwise the list is the file's trimmed non-empty lines, in order |
| Accounts.ReadProxiesExactly | main.js:44-48 | the proxies read are exactly the trimmed lines that are non-empty |
| Accounts.ReadTokensExactly | main.js:21-25 | the tokens are exactly the trimmed lines that are non-empty and start with `eyJhbGciOiJI` |
| Accounts.TokensAreTrimmed | main.js:24-25 | every token is already trimmed and starts with the JWT prefix |
| Accounts.TokensInLineOrder | main.js:21-25 | tokens keep the order of the lines: an earlier block of lines contributes its tokens first |
| Accounts.RoundRobin | main.js:74-75 | proxies repeat with period equal to the number of proxies. With at least as many accounts as proxies, the first accounts take the proxies in file order |
| Accounts.NoProxyWhenDisabled | main.js:73 | with proxies off no account gets a proxy |
| Workflow.RunWorker | main.js:88-194 | the worker's trace is `WorkerSteps` of the authentication result. The client's claim flags are the claim's classification exactly when the claim runs, and the client is unchanged otherwise |
| Workflow.QuestLoop | main.js:128-142 | the loop's trace is `QuestSteps`, and it reports a crash exactly when the trace ends with one |
| Workflow.ClaimPhase | main.js:152-175 | the claim's trace is `ClaimSteps`, and the client's flags are the claim's classification |
| Workflow.Qualifying | main.js:128-133 | the positions to submit are strictly increasing. They are exactly the quests of type CHECK_OUT_POST that are active, with submissions on, before the first nullish quest |
| Workflow.QuestPositions | main.js:128-142 | the quest loop submits exactly the `Qualifying` positions, in list order |
| Workflow.QuestLoopSteps | main.js:128-142 | the quest loop only visits, submits, pauses or crashes |
| Workflow.VisitFollowsFlag | sayecho_client.js:291-307 | a post is opened in the browser exactly when `visitExternalLinks` is on, and the posts opened are exactly the `metadata.post` of the submittable quests among those the loop handles |
| Workflow.NoVisitWhenDisabled | sayecho_client.js:304 | with `visitExternalLinks` off (its default, config.js:38-40) no step of a worker run opens a browser |
| Workflow.CrashIffNullish | main.js:128-130 | the quest loop crashes exactly when the list holds a `null` or `undefined` quest, whose `type` read throws |
| Workflow.AuthFailureStops | main.js:101-105 | a failed authentication ends the worker before any request |
| Workflow.ProfilePhaseFollowsFlag | main.js:113-123 | the first `/me` runs exactly after a successful authentication with `performMeCheck` on |
| Workflow.QuestPhaseFollowsFlag | main.js:125-150 | `/quests` is fetched exactly after a successful authentication with `fetchQuests` on |
| Workflow.ClaimPhaseFollowsFlag | main.js:152-153 | the claim runs exactly after a successful authentication, with `claimDailyWaves` on, and when the quest loop did not crash |
| Workflow.RecheckFollowsClaim | main.js:154-164 | the second `/me` runs exactly when the claim ran, `performMeCheck` is on, the initial score is not `null`, and the claim succeeded or was already collected |
| Workflow.IncreaseIsPositive | main.js:163-173 | a reported increase is the new score minus the initial one, both numbers, and it is positive |
| Scheduler.Cycle.constructor | main.js:230-236 | a cycle starts with nothing launched, active or counted, and unresolved |
| Scheduler.Cycle.LaunchNextWorker | main.js:248-313 | one call of `launchNextWorker` moves the cycle as `Launch` says |
| Scheduler.Cycle.OnWorkerSignal | main.js:286-311 | the `error` or `exit` handler, as written, moves the cycle as `Signal` says |
| Scheduler.Cycle.OnWorkerFinished | main.js:286-311 | the handler that counts each worker once moves the cycle as `SignalOnce` says |
| Scheduler.Cycle.Start | main.js:315-329 | the promise body leaves the cycle in `StartState`: `maxThreads` launches, then the two final checks |
| Scheduler.LaunchAdmission | main.js:260-283 | a launch keeps the pool within `maxThreads` and drops no worker. It adds only the account at `taskPointer`, and only when one is left and a thread is free, advancing the pointer by one. A resolved cycle stays resolved |
| Scheduler.SignalAdmission | main.js:286-311 | an `error` or `exit` removes its worker for good, counts one, keeps the pool within `maxThreads`, and advances `taskPointer` by at most one |
| Scheduler.LaunchKeepsSound | main.js:248-259 | a launch keeps the cycle sound. Active workers are launched ones, launched workers are active or counted, and a resolution means every account was launched and counted |
| Scheduler.SignalOnceKeepsSound | main.js:286-311 | counting each worker once keeps the cycle sound, and live with at least one thread. A real completion counts one, and a repeated signal changes nothing |
| Scheduler.LaunchTimesKeepsSound | main.js:315-317 | any number of launches keeps the cycle sound |
| Scheduler.StartIsSound | main.js:315-329 | the start of a cycle is sound |
| Scheduler.LaunchTimesAdmits | main.js:315-317 | after `k` launches the accounts `0 .. min(n, k, maxThreads)` run and nothing is counted; only an empty queue is resolved |
| Scheduler.StartAdmits | main.js:315-329 | starting a cycle launches the first `min(n, maxThreads)` accounts and resolves only an empty queue |
| Scheduler.StartIsLive | main.js:315-329 | with at least one thread the started cycle is resolved or has an active worker |
| Scheduler.NoThreadsNoProgress | main.js:315-329 | with a thread limit that is not positive and a non-empty queue, nothing is launched and nothing can ever resolve the cycle |
| Scheduler.SignalKeepsOverCounted | main.js:294-300 | the handlers as written can only over-count: processed plus active never falls below the launched count |
| Scheduler.DoubleCountSkipsAccount | main.js:249-252 | three accounts and one thread. The first worker sends `error` then `exit`, and the second sends `error`. The cycle resolves with the third account never launched |
| Scheduler.RunCycle | main.js:230-330 | with at least one thread (or no accounts), and workers finishing in any order with each counted once, the cycle ends resolved, with every account launched and counted and no worker running |
| Scheduler.CycleSleepFromEnv | main.js:337 | the sleep between cycles is the configured minutes in seconds, one hour by default; the `\|\| 60` fallback is never taken |

## Left out

- Network I/O: the `axios` call, the 30 s timeout, the URL and body of each request and `HttpsProxyAgent` are not modelled. Each attempt's outcome is an input, and the proxy agent is recorded as the proxy URL it would use.
- `_visitPostWithBrowser` (Puppeteer) is a `PostVisited` step whose result is ignored, as the source ignores it.
- `sleep` is recorded as a `Pause` step with its range of seconds, or as a field of an attempt record. `Math.random` becomes an integer draw passed in.
- The user-agent choice in the constructor is a constructor argument, because it depends on the `userAgents` list, which is not part of this model.
- Worker threads, `postMessage` and `process.exit` are left out. The scheduler sees only the `error` and `exit` events, as method calls in any order.
- The endless `while (true)` over cycles, the early return for an empty account list and the logging around them are not modelled; one cycle is. The `accounts.length === 0` check inside a cycle is modelled.
- `fs.readFileSync` becomes the file's content as an optional string, with `None` for a read that throws. `jwtDecode` becomes its decoded `exp` claim, as an optional optional integer.
- `dotenv` loading is left out; the environment is a map.
- Logging, colours and `toLocaleString` formatting are left out.
- The unused `tryResolveCycle` (main.js:237-246) is not modelled.
- The final "Max retries loop issue" return of `_makeRequest` is unreachable, because the last attempt always returns, so it is not modelled.
- In `completeCheckOutPostQuest`, the `questId` check only chooses between two log lines with the same result, so it is not modelled.
- Client.SayEchoClient.MakeRequest: needs exactly three attempt outcomes. Any that the loop does not reach are ignored.
- Workflow.RunWorker: each request's result comes from `Answers` rather than from a run of `MakeRequest` on attempt outcomes. The composition is left to the separate contracts of the two.
- Workflow.RunWorker: a thrown error is modelled only where the source can throw on its inputs, which is a nullish quest. Other exceptions come from code outside this model.
- JsValues.Greater: it compares only two numbers. JavaScript's `>` also compares strings and coerces other values; API scores are not expected to be either.
- JsValues.Json: numbers are integers, so fractional scores and floating-point rounding are not modelled.
- Config.ParseSigned: the value is not rounded to a double, so integers above 2^53 read exactly.
- Text.Lower: only ASCII letters are lower-cased.
- Utils.IsSayEchoTokenExpired: the expiration text is the time itself, not its locale string. A non-numeric `exp` is not modelled.
- Scheduler.RunCycle: requires at least one thread when there are accounts. Otherwise the source's cycle never resolves, as `Scheduler.NoThreadsNoProgress` shows, and a terminating method cannot model that.

## Findings

| source | as written | input that shows it | evidently intended | confidence | as-written member | corrected member |
|---|---|---|---|---|---|---|
| main.js:295, main.js:300 | both the `error` and the `exit` handler remove the worker, increment `processedInCycleCount` and call `launchNextWorker`. A worker that dies of an uncaught exception emits both events, so it is counted twice, and the `processedInCycleCount >= accountQueue.length` branch (main.js:251-252) can resolve the cycle before every account was launched | three accounts, `maxThreads` 1: worker 0 sends `error` then `exit`, and worker 1 sends `error`. The cycle resolves with `taskPointer` 2, so account 3 never runs in this cycle | each worker counted once, so that a resolved cycle has launched and finished every account | not executed; follows from the handlers as written | Scheduler.DoubleCountSkipsAccount | Scheduler.SignalOnceKeepsSound |
