/** The REST client of one account (sayecho_client.js): the request loop with
    its retry policy, the authentication check and the classifiers that turn a
    request's result into what the workflow uses. */
module Client {
  import opened Wrappers
  import opened JsValues
  import opened Text
  import opened Utils

  /** `retries = 2`: attempts 0, 1 and 2. */
  const MaxAttempts: nat := 3
  /** The wait after a 429 answer, in seconds. */
  const RateLimitPauseSeconds: int := 60
  /** The random backoff between attempts is drawn from this range of seconds. */
  const BackoffMin: int := 5
  const BackoffMax: int := 10

  type Headers = map<string, string>

  /** An HTTP status code, or the string code of a failure without a response. */
  datatype Status = Http(code: int) | Code(name: string)

  /** The object `_makeRequest` resolves to: `{success: true, status, data}` or
      `{success: false, status, error, data}` (`data` may be `undefined`). */
  datatype RequestResult =
    | Success(httpStatus: int, data: Json)
    | Failure(status: Status, error: Json, data: Json)

  const TokenError: RequestResult :=
    Failure(Code("TOKEN_ERROR"), JStr("SayEcho token not provided to client"), JUndefined)

  /** What one `axios` call does: resolve with a response, reject with an
      HTTP response, or reject without one (`code` is "" when absent). */
  datatype AttemptOutcome =
    | Responded(status: int, data: Json)
    | Rejected(status: int, data: Json, message: string)
    | NoResponse(code: string, message: string)

  /** What the world supplies for one attempt: the call's outcome, the clock
      reading if a re-authentication runs, and the integer draw of the random
      backoff. */
  datatype Attempt = Attempt(outcome: AttemptOutcome, now: int, backoffDraw: int)

  /** What happened in one attempt of the request loop: the headers sent, the
      result of the forced re-authentication (401 only), whether the 60 s
      rate-limit pause ran, and the random backoff slept before the next attempt. */
  datatype AttemptRecord = AttemptRecord(
    headers: Headers, reauth: Option<bool>, rateLimitPause: bool, backoff: Option<int>)

  /** `error.response ? error.response.status : error.code || "NETWORK_ERROR"` */
  function StatusOf(o: AttemptOutcome): (s: Status)
    requires !o.Responded?
    ensures o.Rejected? ==> s == Http(o.status)
    ensures o.NoResponse? ==> s == Code(if o.code == "" then "NETWORK_ERROR" else o.code)
  {
    match o
    case Rejected(status, _, _) => Http(status)
    case NoResponse(code, _) => Code(if code == "" then "NETWORK_ERROR" else code)
  }

  /** The error detail: a string body as it is; for an object body its
      `message`, else its `error`, else the body itself; otherwise the
      transport's message. */
  function ErrorDetail(o: AttemptOutcome): (d: Json)
    requires !o.Responded?
    ensures o.NoResponse? ==> d == JStr(o.message)
    ensures o.Rejected? && o.data.JStr? ==> d == o.data
    ensures o.Rejected? && IsObjectLike(o.data) ==>
              d in {Get(o.data, "message"), Get(o.data, "error"), o.data} &&
              (Truthy(Get(o.data, "message")) ==> d == Get(o.data, "message")) &&
              (!Truthy(Get(o.data, "message")) && Truthy(Get(o.data, "error")) ==> d == Get(o.data, "error")) &&
              (!Truthy(Get(o.data, "message")) && !Truthy(Get(o.data, "error")) ==> d == o.data)
    ensures o.Rejected? && !o.data.JStr? && !IsObjectLike(o.data) ==> d == JStr(o.message)
  {
    match o
    case NoResponse(_, message) => JStr(message)
    case Rejected(_, data, message) =>
      if data.JStr? then data
      else if IsObjectLike(data) then Or(Or(Get(data, "message"), Get(data, "error")), data)
      else JStr(message)
  }

  /** `error.response ? error.response.data : null` */
  function ResponseData(o: AttemptOutcome): Json
    requires !o.Responded?
  {
    if o.Rejected? then o.data else JNull
  }

  function Bearer(token: string): string
  {
    "Bearer " + token
  }

  function CommonHeaders(token: string, userAgent: string): Headers
  {
    map["Authorization" := Bearer(token),
        "Accept" := "application/json, text/plain, */*",
        "Origin" := "https://www.sayecho.xyz",
        "Referer" := "https://www.sayecho.xyz/",
        "User-Agent" := userAgent]
  }

  predicate SendsJsonBody(verb: string, hasBody: bool)
  {
    (Lower(verb) == "post" || Lower(verb) == "put") && hasBody
  }

  /** `{...commonHeaders, ...extraHeaders}`, plus a JSON content type for a
      POST or PUT with a body. */
  function RequestHeaders(token: string, userAgent: string, verb: string, hasBody: bool, extra: Headers): (h: Headers)
    ensures h.Keys == CommonHeaders(token, userAgent).Keys + extra.Keys +
                      (if SendsJsonBody(verb, hasBody) then {"Content-Type"} else {})
    ensures forall k :: k in extra && k != "Content-Type" ==> h[k] == extra[k]
    ensures forall k :: k in CommonHeaders(token, userAgent) && k !in extra ==> h[k] == CommonHeaders(token, userAgent)[k]
    ensures "Authorization" !in extra ==> h["Authorization"] == Bearer(token)
    ensures "Content-Type" in h ==>
              h["Content-Type"] == if SendsJsonBody(verb, hasBody) then "application/json" else extra["Content-Type"]
  {
    var merged := CommonHeaders(token, userAgent) + extra;
    if SendsJsonBody(verb, hasBody) then merged["Content-Type" := "application/json"] else merged
  }

  /** The headers of the next attempt: a 401 rewrites the Authorization header. */
  function NextHeaders(h: Headers, o: AttemptOutcome, token: string): Headers
  {
    if !o.Responded? && StatusOf(o) == Http(401) then h["Authorization" := Bearer(token)] else h
  }

  /** The `/me` check: the profile when the request succeeded with a truthy body. */
  function GetMeInfo(response: RequestResult): (me: Option<Json>)
    ensures me.Some? <==> response.Success? && Truthy(response.data)
    ensures me.Some? ==> me.value == response.data && Truthy(me.value)
  {
    if response.Success? && Truthy(response.data) then Some(response.data) else None
  }

  /** The `/quests` check: the list when the request succeeded with an array body. */
  function FetchQuests(response: RequestResult): (quests: Option<seq<Json>>)
    ensures quests.Some? <==> response.Success? && response.data.JArr?
    ensures quests.Some? ==> quests.value == response.data.items
  {
    if response.Success? && response.data.JArr? then Some(response.data.items) else None
  }

  const CheckOutPost := "CHECK_OUT_POST"

  /** What `completeCheckOutPostQuest` does with a quest: reject it without a
      request, or submit it and report completion. `post` is the page the
      browser visits first when `visitExternalLinks` is on (see
      `Workflow.SubmitSteps`). */
  datatype QuestOutcome = InvalidQuest | Submitted(post: Json, completed: bool)
  {
    predicate Completed() { Submitted? && completed }
  }

  /** A quest can be submitted when it is truthy, of type CHECK_OUT_POST, and
      has a truthy `id` and `metadata.post`. */
  predicate IsSubmittable(quest: Json)
  {
    Truthy(quest) && Get(quest, "type") == JStr(CheckOutPost) &&
    Truthy(Get(quest, "id")) && Truthy(Get(Get(quest, "metadata"), "post"))
  }

  /** `completeCheckOutPostQuest(quest)` given the completion POST's result
      (used only when the quest is valid). */
  function CompleteCheckOutPostQuest(quest: Json, response: RequestResult): (q: QuestOutcome)
    ensures q.InvalidQuest? <==> !IsSubmittable(quest)
    ensures q.Submitted? ==> q.post == Get(Get(quest, "metadata"), "post")
    ensures q.Completed() <==> IsSubmittable(quest) && response.Success? && response.httpStatus == 200 && Truthy(response.data)
    ensures response.Failure? ==> !q.Completed()
  {
    if !Truthy(quest) || Get(quest, "type") != JStr(CheckOutPost) ||
       !Truthy(Get(quest, "id")) || !Truthy(Get(Get(quest, "metadata"), "post"))
    then InvalidQuest
    else
      var post := Get(Get(quest, "metadata"), "post");
      if response.Success? && response.httpStatus == 200 && Truthy(response.data)
      then Submitted(post, true)
      else Submitted(post, false)
  }

  /** The return value of `claimSayEchoDailyWaves` and the two flags it leaves. */
  datatype ClaimOutcome = ClaimOutcome(success: bool, alreadyCollected: bool, available: bool)

  function DidCollect(response: RequestResult): Json
    requires response.Success?
  {
    Get(response.data, "didCollect")
  }

  /** The classification of the daily-waves POST. */
  function ClaimVerdict(response: RequestResult): (v: ClaimOutcome)
    ensures !(v.alreadyCollected && v.available)
    ensures v.success ==> v.alreadyCollected
    ensures v.success <==>
              response.Success? && Truthy(response.data) && DidCollect(response) == JBool(true) &&
              Get(response.data, "score") != JUndefined
    ensures v.available <==> response.Success? && Truthy(response.data) && DidCollect(response) == JBool(false)
    ensures v.alreadyCollected <==>
              (response.Success? && Truthy(response.data) && DidCollect(response) == JBool(true)) ||
              (response.Failure? && response.status == Http(409))
  {
    if response.Success? && Truthy(response.data) then
      var didCollect := Get(response.data, "didCollect");
      if didCollect == JBool(true) && Get(response.data, "score") != JUndefined then ClaimOutcome(true, true, false)
      else if didCollect == JBool(false) then ClaimOutcome(false, false, true)
      else ClaimOutcome(false, didCollect == JBool(true), false)
    else if response.Failure? && response.status == Http(409) then ClaimOutcome(false, true, false)
    else ClaimOutcome(false, false, false)
  }

  /** `SayEchoClientAPI`: one account's token, identity and claim flags. */
  class SayEchoClient {
    const accountIndex: nat
    const token: string
    /** What `jwtDecode(token)` gives (see `Utils.IsSayEchoTokenExpired`). */
    const payload: Option<Option<int>>
    const userAgent: string
    const proxyUrl: Option<string>
    /** The proxy the requests go through, if any. */
    const proxyAgent: Option<string>
    var lastClaimWasAlreadyCollected: bool
    var lastClaimWasAvailable: bool

    constructor (accountIndex: nat, token: string, payload: Option<Option<int>>,
                 proxyUrl: Option<string>, userAgent: string, useProxy: bool)
      ensures this.accountIndex == accountIndex && this.token == token && this.payload == payload
      ensures this.proxyUrl == proxyUrl && this.userAgent == userAgent
      ensures proxyAgent == if useProxy && proxyUrl.Some? && proxyUrl.value != "" then proxyUrl else None
      ensures !lastClaimWasAlreadyCollected && !lastClaimWasAvailable
    {
      this.accountIndex := accountIndex;
      this.token := token;
      this.payload := payload;
      this.proxyUrl := proxyUrl;
      this.userAgent := userAgent;
      this.proxyAgent := if useProxy && proxyUrl.Some? && proxyUrl.value != "" then proxyUrl else None;
      lastClaimWasAlreadyCollected := false;
      lastClaimWasAvailable := false;
    }

    /** `authSayEcho(forceRefresh)` at clock reading `now`. There is no refresh
        flow: forcing a refresh of an unexpired token still succeeds. */
    function AuthSayEcho(forceRefresh: bool, now: int): (ok: bool)
      ensures ok <==> token != "" && !IsSayEchoTokenExpired(token, payload, now).isExpired
    {
      if token == "" then false
      else
        var info := IsSayEchoTokenExpired(token, payload, now);
        if !info.isExpired && !forceRefresh then true
        else if info.isExpired then false
        else true
    }

    /** A failed attempt after which the loop goes on (if attempts remain):
        not a 409, and not a 401 whose re-authentication failed. */
    predicate Retryable(a: Attempt)
    {
      !a.outcome.Responded? && StatusOf(a.outcome) != Http(409) &&
      (StatusOf(a.outcome) == Http(401) ==> AuthSayEcho(true, a.now))
    }

    /** What the request resolves to when the loop stops at attempt `a`. */
    function Verdict(a: Attempt): RequestResult
    {
      var o := a.outcome;
      if o.Responded? then Success(o.status, o.data)
      else if StatusOf(o) == Http(401) && !AuthSayEcho(true, a.now) then
        Failure(Http(401), JStr("Re-authentication failed"), JUndefined)
      else Failure(StatusOf(o), ErrorDetail(o), ResponseData(o))
    }

    /** `_makeRequest`: at most three attempts. The loop stops at the first
        success, 409, or 401 whose re-authentication fails, and otherwise after
        the third attempt, whose failure is returned as it came. Each attempt
        is recorded as `AttemptRecordFor` says; a 401 rewrites the
        Authorization header for the next attempt. */
    method MakeRequest(verb: string, hasBody: bool, extra: Headers, attempts: seq<Attempt>)
      returns (r: RequestResult, trace: seq<AttemptRecord>)
      requires |attempts| == MaxAttempts
      ensures token == "" ==> r == TokenError && trace == []
      ensures token != "" ==> 1 <= |trace| <= MaxAttempts
      ensures token != "" ==> trace[0].headers == RequestHeaders(token, userAgent, verb, hasBody, extra)
      ensures forall k :: 0 <= k < |trace| - 1 ==> Retryable(attempts[k])
      ensures token != "" ==> |trace| == MaxAttempts || !Retryable(attempts[|trace| - 1])
      ensures token != "" ==> r == Verdict(attempts[|trace| - 1])
      ensures forall k :: 0 <= k < |trace| - 1 ==>
                trace[k + 1].headers == NextHeaders(trace[k].headers, attempts[k].outcome, token)
      ensures forall k :: 0 <= k < |trace| ==>
                trace[k] == AttemptRecordFor(attempts[k], trace[k].headers, k < |trace| - 1)
    {
      if token == "" {
        return TokenError, [];
      }
      var headers := RequestHeaders(token, userAgent, verb, hasBody, extra);
      trace := [];
      var i := 0;
      while true
        invariant 0 <= i < MaxAttempts && |trace| == i
        invariant i == 0 ==> headers == RequestHeaders(token, userAgent, verb, hasBody, extra)
        invariant i > 0 ==> headers == NextHeaders(trace[i - 1].headers, attempts[i - 1].outcome, token)
        invariant i > 0 ==> trace[0].headers == RequestHeaders(token, userAgent, verb, hasBody, extra)
        invariant forall k :: 0 <= k < i ==> Retryable(attempts[k])
        invariant forall k :: 0 <= k < i - 1 ==>
                    trace[k + 1].headers == NextHeaders(trace[k].headers, attempts[k].outcome, token)
        invariant forall k :: 0 <= k < i ==> trace[k] == AttemptRecordFor(attempts[k], trace[k].headers, true)
        decreases MaxAttempts - i
      {
        var rec, stop, result, next := TryOnce(attempts[i], headers, i == MaxAttempts - 1);
        trace := trace + [rec];
        if stop {
          return result, trace;
        }
        headers := next;
        i := i + 1;
      }
    }

    /** One pass of the loop body of `_makeRequest`: send with `headers` and
        decide. `stop` says the loop ends here (a response, a 409, a failed
        re-authentication, or the failure of the last attempt) and `r` is then
        what the request resolves to; otherwise `next` are the headers of the
        next attempt and `r` is a placeholder that no caller reads. */
    method TryOnce(a: Attempt, headers: Headers, isLast: bool)
      returns (rec: AttemptRecord, stop: bool, r: RequestResult, next: Headers)
      ensures stop <==> isLast || !Retryable(a)
      ensures stop ==> r == Verdict(a)
      ensures !stop ==> next == NextHeaders(headers, a.outcome, token)
      ensures rec == AttemptRecordFor(a, headers, !stop)
    {
      var o := a.outcome;
      next := headers;
      r := Success(0, JUndefined);
      if o.Responded? {
        return AttemptRecord(headers, None, false, None), true, Success(o.status, o.data), next;
      }
      var status := StatusOf(o);
      var detail := ErrorDetail(o);
      var reauth: Option<bool> := None;
      var pause := false;
      if status == Http(401) {
        var ok := AuthSayEcho(true, a.now);
        reauth := Some(ok);
        if ok {
          next := headers["Authorization" := Bearer(token)];
        } else {
          rec := AttemptRecord(headers, reauth, false, None);
          return rec, true, Failure(status, JStr("Re-authentication failed"), JUndefined), next;
        }
      } else if status == Http(409) {
        rec := AttemptRecord(headers, None, false, None);
        return rec, true, Failure(status, detail, ResponseData(o)), next;
      } else if status == Http(429) {
        pause := true;
      }
      if isLast {
        rec := AttemptRecord(headers, reauth, pause, None);
        return rec, true, Failure(status, detail, ResponseData(o)), next;
      }
      var backoff: Option<int> := None;
      if status != Http(401) {
        backoff := Some(GetRandomNumber(BackoffMin, BackoffMax, a.backoffDraw));
      }
      rec := AttemptRecord(headers, reauth, pause, backoff);
      stop := false;
    }

    /** The record of one attempt sent with `headers`; `continues` says whether
        another attempt follows it. Only a 401 re-authenticates, only a 429
        pauses 60 s, and the random 5-10 s backoff happens exactly when another
        attempt follows an attempt that was not a 401 - so never after the last. */
    function AttemptRecordFor(a: Attempt, headers: Headers, continues: bool): (rec: AttemptRecord)
      ensures rec.headers == headers
      ensures rec.reauth.Some? <==> !a.outcome.Responded? && StatusOf(a.outcome) == Http(401)
      ensures rec.reauth.Some? ==> rec.reauth.value == AuthSayEcho(true, a.now)
      ensures rec.rateLimitPause <==> !a.outcome.Responded? && StatusOf(a.outcome) == Http(429)
      ensures rec.backoff.Some? <==> continues && !a.outcome.Responded? && StatusOf(a.outcome) != Http(401)
      ensures rec.backoff.Some? && 0 <= a.backoffDraw <= BackoffMax - BackoffMin ==>
                BackoffMin <= rec.backoff.value <= BackoffMax
    {
      if a.outcome.Responded? then AttemptRecord(headers, None, false, None)
      else
        var status := StatusOf(a.outcome);
        AttemptRecord(
          headers,
          if status == Http(401) then Some(AuthSayEcho(true, a.now)) else None,
          status == Http(429),
          if continues && status != Http(401) then Some(GetRandomNumber(BackoffMin, BackoffMax, a.backoffDraw)) else None)
    }

    /** `claimSayEchoDailyWaves` given the POST's result: both flags are
        cleared, then set from the classification. */
    method ClaimSayEchoDailyWaves(response: RequestResult) returns (success: bool)
      modifies this
      ensures success == ClaimVerdict(response).success
      ensures lastClaimWasAlreadyCollected == ClaimVerdict(response).alreadyCollected
      ensures lastClaimWasAvailable == ClaimVerdict(response).available
    {
      lastClaimWasAlreadyCollected := false;
      lastClaimWasAvailable := false;
      if response.Success? && Truthy(response.data) {
        var didCollect := Get(response.data, "didCollect");
        if didCollect == JBool(true) && Get(response.data, "score") != JUndefined {
          lastClaimWasAlreadyCollected := true;
          return true;
        } else if didCollect == JBool(false) {
          lastClaimWasAvailable := true;
          return false;
        } else {
          if didCollect == JBool(true) {
            lastClaimWasAlreadyCollected := true;
          }
          return false;
        }
      } else if response.Failure? && response.status == Http(409) {
        lastClaimWasAlreadyCollected := true;
        return false;
      }
      return false;
    }
  }

  /** Without a token authentication fails, forced or not, at every clock
      reading (`MakeRequest` returns `TOKEN_ERROR` before any attempt). */
  lemma NoTokenNoAuth(c: SayEchoClient)
    requires c.token == ""
    ensures forall now :: !c.AuthSayEcho(false, now) && !c.AuthSayEcho(true, now)
  {
  }
}
