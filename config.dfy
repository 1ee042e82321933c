/** The configuration record of config.js, built once from the environment. */
module Config {
  import opened Wrappers
  import opened Text

  /** The process environment: variable name to value. */
  type Env = map<string, string>

  predicate IsDigit(c: char) { '0' <= c <= '9' }

  function DigitValue(c: char): (v: nat)
    requires IsDigit(c)
    ensures v < 10
  {
    c as int - '0' as int
  }

  function DigitChar(v: nat): (c: char)
    requires v < 10
    ensures IsDigit(c) && DigitValue(c) == v
  {
    ('0' as int + v) as char
  }

  /** The longest prefix of decimal digits. */
  function DigitPrefix(s: string): (d: string)
    ensures |d| <= |s| && d == s[..|d|]
    ensures forall i :: 0 <= i < |d| ==> IsDigit(d[i])
    ensures |d| < |s| ==> !IsDigit(s[|d|])
  {
    if s != [] && IsDigit(s[0]) then [s[0]] + DigitPrefix(s[1..]) else []
  }

  /** The value of a string of decimal digits, most significant first. */
  function DigitsValue(d: string): (v: nat)
    requires forall i :: 0 <= i < |d| ==> IsDigit(d[i])
  {
    if d == [] then 0 else DigitsValue(d[..|d| - 1]) * 10 + DigitValue(d[|d| - 1])
  }

  /** `parseInt(s, 10)` of ECMA-262 (section 19.2.5 in recent editions):
      leading white space is skipped, one sign is read, then the longest run
      of decimal digits; no digit gives NaN (`None`). Results are not rounded
      to doubles. */
  function ParseInt(s: string): (r: Option<int>)
  {
    ParseSigned(TrimStart(s))
  }

  /** The part of `parseInt` after the white space. */
  function ParseSigned(t: string): (r: Option<int>)
    ensures var body := if t != [] && (t[0] == '-' || t[0] == '+') then t[1..] else t;
            r.Some? <==> body != [] && IsDigit(body[0])
  {
    var negative := t != [] && t[0] == '-';
    var body := if t != [] && (t[0] == '-' || t[0] == '+') then t[1..] else t;
    var digits := DigitPrefix(body);
    var magnitude: int := if digits == [] then 0 else DigitsValue(digits);
    if digits == [] then None
    else if negative then Some(-magnitude)
    else Some(magnitude)
  }

  /** Decimal rendering of a natural number, without leading zeros. */
  function DecimalString(n: nat): (s: string)
    ensures s != [] && forall i :: 0 <= i < |s| ==> IsDigit(s[i])
  {
    if n < 10 then [DigitChar(n)] else DecimalString(n / 10) + [DigitChar(n % 10)]
  }

  /** `String(n)` for an integer. */
  function IntToString(n: int): string
  {
    if n < 0 then "-" + DecimalString(-n) else DecimalString(n)
  }

  lemma {:induction false} DecimalStringValue(n: nat)
    ensures DigitsValue(DecimalString(n)) == n
  {
    if n >= 10 {
      var s := DecimalString(n);
      DecimalStringValue(n / 10);
      assert s[..|s| - 1] == DecimalString(n / 10);
    }
  }

  lemma {:induction false} DigitPrefixOfDigits(d: string, rest: string)
    requires forall i :: 0 <= i < |d| ==> IsDigit(d[i])
    requires rest == [] || !IsDigit(rest[0])
    ensures DigitPrefix(d + rest) == d
  {
    if d != [] {
      assert (d + rest)[1..] == d[1..] + rest;
      DigitPrefixOfDigits(d[1..], rest);
    } else {
      assert d + rest == rest;
    }
  }

  lemma TrimStartAtNonSpace(s: string)
    requires s != [] && (IsDigit(s[0]) || s[0] == '-' || s[0] == '+')
    ensures TrimStart(s) == s
  {
    assert !IsJsWhitespace(s[0]);
  }

  lemma ParseIntOfDigitsFirst(s: string)
    requires s != [] && IsDigit(s[0])
    ensures ParseInt(s) == Some(DigitsValue(DigitPrefix(s)))
  {
    TrimStartAtNonSpace(s);
  }

  lemma ParseIntOfMinus(t: string)
    requires t != [] && IsDigit(t[0])
    ensures ParseInt("-" + t).Some?
    ensures ParseInt("-" + t).value == -(DigitsValue(DigitPrefix(t)) as int)
  {
    var s := "-" + t;
    TrimStartAtNonSpace(s);
    assert s[0] == '-' && s[1..] == t;
    assert ParseInt(s) == ParseSigned(s);
  }

  /** `parseInt` reads back what `String` writes, whatever non-digit text follows. */
  lemma ParseIntRoundTrip(n: int, rest: string)
    requires rest == [] || !IsDigit(rest[0])
    ensures ParseInt(IntToString(n) + rest) == Some(n)
  {
    var m: nat := if n < 0 then -n else n;
    var d := DecimalString(m);
    var s := IntToString(n) + rest;
    DecimalStringValue(m);
    if n < 0 {
      assert s == "-" + (d + rest);
      MinusDigitsThenRest(d, rest);
    } else {
      assert s == d + rest;
      DigitsThenRest(d, rest);
    }
    var r := ParseInt(s);
    assert r.Some? && r.value == n;
  }

  /** A run of digits followed by a non-digit reads as its value. */
  lemma DigitsThenRest(d: string, rest: string)
    requires d != [] && forall i :: 0 <= i < |d| ==> IsDigit(d[i])
    requires rest == [] || !IsDigit(rest[0])
    ensures ParseInt(d + rest) == Some(DigitsValue(d))
  {
    DigitPrefixOfDigits(d, rest);
    ParseIntOfDigitsFirst(d + rest);
  }

  /** The same run after a minus sign reads as the negated value. */
  lemma MinusDigitsThenRest(d: string, rest: string)
    requires d != [] && forall i :: 0 <= i < |d| ==> IsDigit(d[i])
    requires rest == [] || !IsDigit(rest[0])
    ensures ParseInt("-" + (d + rest)).Some?
    ensures ParseInt("-" + (d + rest)).value == -(DigitsValue(d) as int)
  {
    DigitPrefixOfDigits(d, rest);
    ParseIntOfMinus(d + rest);
  }

  /** A plus sign before the digits changes nothing: `parseInt("+7")` is 7. */
  lemma PlusSignIgnored(t: string)
    requires t != [] && IsDigit(t[0])
    ensures ParseInt("+" + t) == ParseInt(t)
  {
    var s := "+" + t;
    TrimStartAtNonSpace(s);
    TrimStartAtNonSpace(t);
    SignedPlus(s, t);
  }

  lemma SignedPlus(s: string, t: string)
    requires t != [] && IsDigit(t[0]) && s == "+" + t
    ensures ParseSigned(s) == ParseSigned(t)
  {
    assert s[0] == '+' && s[1..] == t;
  }

  /** `parseInt` reads a plus sign and a natural number's decimal text back
      as that number, whatever non-digit text follows. */
  lemma PlusRoundTrip(n: nat, rest: string)
    requires rest == [] || !IsDigit(rest[0])
    ensures ParseInt("+" + IntToString(n) + rest) == Some(n)
  {
    var d := DecimalString(n);
    assert "+" + IntToString(n) + rest == "+" + (d + rest);
    PlusSignIgnored(d + rest);
    ParseIntRoundTrip(n, rest);
  }

  /** A leading zero adds nothing to the value: `parseInt("05")` is 5. */
  lemma LeadingZeroIgnored(s: string)
    requires s != [] && IsDigit(s[0])
    ensures ParseInt("0" + s) == ParseInt(s)
  {
    var z := "0" + s;
    assert z[1..] == s;
    ParseIntOfDigitsFirst(z);
    ParseIntOfDigitsFirst(s);
    assert DigitPrefix(z) == "0" + DigitPrefix(s);
    ZeroDigitsValue(DigitPrefix(s));
  }

  lemma {:induction false} ZeroDigitsValue(d: string)
    requires forall i :: 0 <= i < |d| ==> IsDigit(d[i])
    ensures DigitsValue("0" + d) == DigitsValue(d)
  {
    if d != [] {
      var z := "0" + d;
      assert z[..|z| - 1] == "0" + d[..|d| - 1];
      ZeroDigitsValue(d[..|d| - 1]);
    }
  }

  /** A range of seconds given as `[min, max]`. */
  datatype Range = Range(min: int, max: int)

  datatype Config = Config(
    apiBaseUrl: string,
    useProxy: bool,
    globalProxyUrl: Option<string>,
    delayBetweenActions: Range,
    delayAfterVisit: Range,
    puppeteerHeadless: bool,
    performMeCheck: bool,
    fetchQuests: bool,
    completeCheckOutPosts: bool,
    claimDailyWaves: bool,
    visitExternalLinks: bool,
    delayBetweenAccounts: Range,
    timeSleepMinutesAtCycleEnd: int,
    maxThreads: int)

  const ApiBaseUrl := "https://api.sayecho.xyz"

  /** A variable is truthy when present and not the empty string. */
  predicate IsSet(env: Env, name: string)
  {
    name in env && env[name] != ""
  }

  /** `env[name] ? env[name].toLowerCase() === "true" : default` */
  function BoolSetting(env: Env, name: string, default: bool): (r: bool)
    ensures !IsSet(env, name) ==> r == default
    ensures IsSet(env, name) ==> (r <==> Lower(env[name]) == "true")
  {
    if IsSet(env, name) then Lower(env[name]) == "true" else default
  }

  /** `parseInt(env[name], 10) || default`: NaN and 0 both give the default
      (an unset variable parses as the text "undefined", so as NaN). */
  function IntSetting(env: Env, name: string, default: int): (r: int)
    ensures default != 0 ==> r != 0
    ensures name in env && ParseInt(env[name]).Some? && ParseInt(env[name]).value != 0 ==>
              r == ParseInt(env[name]).value
    ensures name !in env || ParseInt(env[name]) in {None, Some(0)} ==> r == default
  {
    var parsed := if name in env then ParseInt(env[name]) else None;
    match parsed
    case Some(n) => if n != 0 then n else default
    case None => default
  }

  /** `env[name] || null` */
  function StringSetting(env: Env, name: string): (r: Option<string>)
    ensures r.Some? <==> IsSet(env, name)
    ensures r.Some? ==> r.value == env[name]
  {
    if IsSet(env, name) then Some(env[name]) else None
  }

  /** The `config` object literal. No numeric setting is ever 0, and the
      thread limit is read from the variable that matches `useProxy`. */
  function Load(env: Env): (c: Config)
    ensures c.apiBaseUrl == ApiBaseUrl
    ensures c.useProxy <==> IsSet(env, "SAYECHO_USE_PROXY") && Lower(env["SAYECHO_USE_PROXY"]) == "true"
    ensures c.delayBetweenActions.min != 0 && c.delayBetweenActions.max != 0
    ensures c.delayAfterVisit.min != 0 && c.delayAfterVisit.max != 0
    ensures c.delayBetweenAccounts.min != 0 && c.delayBetweenAccounts.max != 0
    ensures c.timeSleepMinutesAtCycleEnd != 0 && c.maxThreads != 0
  {
    Config(
      ApiBaseUrl,
      BoolSetting(env, "SAYECHO_USE_PROXY", false),
      StringSetting(env, "SAYECHO_GLOBAL_PROXY_URL"),
      Range(IntSetting(env, "SAYECHO_DELAY_MIN_ACTIONS", 3), IntSetting(env, "SAYECHO_DELAY_MAX_ACTIONS", 7)),
      Range(IntSetting(env, "SAYECHO_DELAY_MIN_VISIT", 5), IntSetting(env, "SAYECHO_DELAY_MAX_VISIT", 10)),
      BoolSetting(env, "SAYECHO_PUPPETEER_HEADLESS", true),
      BoolSetting(env, "SAYECHO_PERFORM_ME_CHECK", true),
      BoolSetting(env, "SAYECHO_FETCH_QUESTS", true),
      BoolSetting(env, "SAYECHO_COMPLETE_CHECK_OUT_POSTS", true),
      BoolSetting(env, "SAYECHO_CLAIM_DAILY_WAVES", true),
      BoolSetting(env, "SAYECHO_VISIT_EXTERNAL_LINKS", false),
      Range(IntSetting(env, "SAYECHO_DELAY_MIN_ACCOUNTS", 2), IntSetting(env, "SAYECHO_DELAY_MAX_ACCOUNTS", 5)),
      IntSetting(env, "SAYECHO_CYCLE_SLEEP_MINUTES", 60),
      if IsSet(env, "SAYECHO_USE_PROXY") && Lower(env["SAYECHO_USE_PROXY"]) == "true"
      then IntSetting(env, "SAYECHO_MAX_THREADS", 3)
      else IntSetting(env, "SAYECHO_MAX_THREADS_NO_PROXY", 1))
  }

  /** The thread limit is read from the variable that matches `useProxy`,
      and no numeric setting is ever 0. */
  lemma MaxThreadsFollowsUseProxy(env: Env)
    ensures var c := Load(env);
            c.maxThreads == if c.useProxy then IntSetting(env, "SAYECHO_MAX_THREADS", 3)
                            else IntSetting(env, "SAYECHO_MAX_THREADS_NO_PROXY", 1)
    ensures var c := Load(env);
            c.maxThreads != 0 && c.timeSleepMinutesAtCycleEnd != 0 &&
            c.delayBetweenActions.min != 0 && c.delayBetweenActions.max != 0 &&
            c.delayAfterVisit.min != 0 && c.delayAfterVisit.max != 0 &&
            c.delayBetweenAccounts.min != 0 && c.delayBetweenAccounts.max != 0
  {
  }

  /** With an empty environment every setting takes its default. */
  lemma DefaultConfig()
    ensures Load(map[]) == Config(ApiBaseUrl, false, None, Range(3, 7), Range(5, 10), true,
                                  true, true, true, true, false, Range(2, 5), 60, 1)
  {
  }

  /** Leading white space never changes what `parseInt` reads. */
  lemma ParseIntSkipsWhitespace(c: char, s: string)
    requires IsJsWhitespace(c)
    ensures ParseInt([c] + s) == ParseInt(s)
  {
    assert ([c] + s)[1..] == s;
  }

  /** Worked case: the flag is read case-insensitively, a zero thread count
      falls back to the default whatever the no-proxy variable says, and text
      after the digits is ignored. */
  lemma ProxyModeExample(env: Env)
    requires "SAYECHO_USE_PROXY" in env && env["SAYECHO_USE_PROXY"] == "TRUE"
    requires "SAYECHO_MAX_THREADS" in env && env["SAYECHO_MAX_THREADS"] == "0"
    requires "SAYECHO_CYCLE_SLEEP_MINUTES" in env && env["SAYECHO_CYCLE_SLEEP_MINUTES"] == "7m"
    ensures Load(env).useProxy && Load(env).maxThreads == 3 && Load(env).timeSleepMinutesAtCycleEnd == 7
  {
    assert Lower("TRUE") == "true";
    ParseIntRoundTrip(0, "");
    assert IntToString(0) + "" == "0";
    ParseIntRoundTrip(7, "m");
    assert IntToString(7) + "m" == "7m";
  }
}
