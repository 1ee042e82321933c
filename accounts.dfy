/** `loadAccountsData` (main.js): the token and proxy files become the list
    of accounts, each with its proxy assigned round-robin. */
module Accounts {
  import opened Wrappers
  import opened Text

  /** base64url of `{"alg":"H`, the start of every HMAC-signed JWT header. */
  const JwtPrefix := "eyJhbGciOiJI"

  /** `{bearerToken, proxyUrl, originalIndex}` */
  datatype Account = Account(bearerToken: string, proxyUrl: Option<string>, originalIndex: nat)

  /** `lines.map(f)` */
  function Map(f: string -> string, lines: seq<string>): (r: seq<string>)
    ensures |r| == |lines|
    ensures forall i {:trigger r[i]} :: 0 <= i < |lines| ==> r[i] == f(lines[i])
  {
    seq(|lines|, i requires 0 <= i < |lines| => f(lines[i]))
  }

  /** `lines.filter(keep)`: the elements that satisfy `keep`, in order. */
  function Filter(keep: string -> bool, lines: seq<string>): (r: seq<string>)
    ensures |r| <= |lines|
    ensures forall i {:trigger r[i]} :: 0 <= i < |r| ==> keep(r[i])
  {
    if lines == [] then []
    else if keep(lines[0]) then [lines[0]] + Filter(keep, lines[1..])
    else Filter(keep, lines[1..])
  }

  /** A token line survives when it is non-empty and starts with the JWT prefix. */
  predicate IsTokenLine(line: string)
  {
    line != "" && StartsWith(line, JwtPrefix)
  }

  /** `.filter(Boolean)` on strings. */
  predicate IsNonEmpty(line: string)
  {
    line != ""
  }

  function ReadTokens(content: string): seq<string>
  {
    Filter(IsTokenLine, Map(Trim, Split(content)))
  }

  function ReadProxies(content: string): seq<string>
  {
    Filter(IsNonEmpty, Map(Trim, Split(content)))
  }

  /** The proxy of the account at `index`. */
  function ProxyFor(index: nat, proxies: seq<string>, useProxy: bool, globalProxyUrl: Option<string>): (p: Option<string>)
    ensures !useProxy ==> p.None?
    ensures useProxy && proxies != [] ==> p == Some(proxies[index % |proxies|])
    ensures useProxy && proxies == [] ==>
              p == if globalProxyUrl.Some? && globalProxyUrl.value != "" then globalProxyUrl else None
  {
    if !useProxy then None
    else if |proxies| > 0 then Some(proxies[index % |proxies|])
    else if globalProxyUrl.Some? && globalProxyUrl.value != "" then globalProxyUrl
    else None
  }

  /** `loadAccountsData()` given the files' contents (`None` when a read
      throws). A token file that cannot be read gives no accounts; a proxy
      file that cannot be read, or is not read because proxies are off,
      gives no proxies. */
  function LoadAccounts(tokenFile: Option<string>, proxyFile: Option<string>,
                        useProxy: bool, globalProxyUrl: Option<string>): (accounts: seq<Account>)
    ensures tokenFile.None? ==> accounts == []
    ensures tokenFile.Some? ==> accounts == Assign(ReadTokens(tokenFile.value), ProxiesRead(proxyFile, useProxy), useProxy, globalProxyUrl)
  {
    match tokenFile
    case None => []
    case Some(content) => Assign(ReadTokens(content), ProxiesRead(proxyFile, useProxy), useProxy, globalProxyUrl)
  }

  function Assign(tokens: seq<string>, proxies: seq<string>, useProxy: bool, globalProxyUrl: Option<string>): (accounts: seq<Account>)
    ensures |accounts| == |tokens|
    ensures forall i :: 0 <= i < |accounts| ==>
              && accounts[i].originalIndex == i
              && accounts[i].bearerToken == tokens[i]
              && accounts[i].proxyUrl == ProxyFor(i, proxies, useProxy, globalProxyUrl)
  {
    seq(|tokens|, i requires 0 <= i < |tokens| => Account(tokens[i], ProxyFor(i, proxies, useProxy, globalProxyUrl), i))
  }

  /** The `proxies` list after the optional read of the proxy file. */
  function ProxiesRead(proxyFile: Option<string>, useProxy: bool): (proxies: seq<string>)
    ensures !useProxy || proxyFile.None? ==> proxies == []
    ensures useProxy && proxyFile.Some? ==> proxies == ReadProxies(proxyFile.value)
  {
    if useProxy && proxyFile.Some? then ReadProxies(proxyFile.value) else []
  }

  /** A string survives the filter exactly when it is one of the lines and
      satisfies the predicate. */
  lemma {:induction false} FilterMembership(keep: string -> bool, lines: seq<string>, t: string)
    ensures t in Filter(keep, lines) <==> t in lines && keep(t)
  {
    if lines != [] {
      FilterMembership(keep, lines[1..], t);
      assert lines == [lines[0]] + lines[1..];
    }
  }

  /** Filtering keeps the input order: it distributes over concatenation. */
  lemma {:induction false} FilterAppend(keep: string -> bool, a: seq<string>, b: seq<string>)
    ensures Filter(keep, a + b) == Filter(keep, a) + Filter(keep, b)
  {
    if a != [] {
      assert (a + b)[1..] == a[1..] + b;
      FilterAppend(keep, a[1..], b);
    } else {
      assert a + b == b;
    }
  }

  /** The loaded tokens are exactly the trimmed lines that are non-empty and
      start with the JWT prefix, and each of them is already trimmed. */
  lemma ReadTokensExactly(content: string, t: string)
    ensures t in ReadTokens(content) <==> IsTokenLine(t) && t in Map(Trim, Split(content))
  {
    FilterMembership(IsTokenLine, Map(Trim, Split(content)), t);
  }

  /** The proxies read are exactly the trimmed lines that are non-empty. */
  lemma ReadProxiesExactly(content: string, p: string)
    ensures p in ReadProxies(content) <==> p != "" && p in Map(Trim, Split(content))
  {
    FilterMembership(IsNonEmpty, Map(Trim, Split(content)), p);
  }

  lemma TokensAreTrimmed(content: string, t: string)
    requires t in ReadTokens(content)
    ensures Trim(t) == t && StartsWith(t, JwtPrefix)
  {
    var raw := Split(content);
    var lines := Map(Trim, raw);
    FilterMembership(IsTokenLine, lines, t);
    var i :| 0 <= i < |lines| && lines[i] == t;
    assert t == Trim(raw[i]);
    TrimIdempotent(raw[i]);
  }

  /** Lines are read in file order: the tokens found in an earlier block of
      lines come before those of a later block. */
  lemma TokensInLineOrder(first: seq<string>, second: seq<string>)
    ensures Filter(IsTokenLine, Map(Trim, first + second)) ==
            Filter(IsTokenLine, Map(Trim, first)) + Filter(IsTokenLine, Map(Trim, second))
  {
    MapAppend(Trim, first, second);
    FilterAppend(IsTokenLine, Map(Trim, first), Map(Trim, second));
  }

  lemma MapAppend(f: string -> string, a: seq<string>, b: seq<string>)
    ensures Map(f, a + b) == Map(f, a) + Map(f, b)
  {
    var lhs, rhs := Map(f, a + b), Map(f, a) + Map(f, b);
    forall i | 0 <= i < |lhs|
      ensures lhs[i] == rhs[i]
    {
      if i < |a| {
        assert (a + b)[i] == a[i];
      } else {
        assert (a + b)[i] == b[i - |a|];
      }
    }
  }

  /** With proxies on and a non-empty list, the proxies repeat with period
      `|proxies|` along the accounts, and when there are at least as many
      accounts as proxies every proxy is used, the first accounts taking them
      in file order. */
  lemma RoundRobin(tokens: seq<string>, proxies: seq<string>, globalProxyUrl: Option<string>, i: nat)
    requires proxies != []
    ensures var accounts := Assign(tokens, proxies, true, globalProxyUrl);
            i + |proxies| < |accounts| ==> accounts[i + |proxies|].proxyUrl == accounts[i].proxyUrl
    ensures var accounts := Assign(tokens, proxies, true, globalProxyUrl);
            i < |proxies| <= |accounts| ==> accounts[i].proxyUrl == Some(proxies[i])
  {
    var accounts := Assign(tokens, proxies, true, globalProxyUrl);
    if i + |proxies| < |accounts| {
      ModAddPeriod(i, |proxies|);
    }
  }

  /** Without proxies every account runs without one, whatever the files say. */
  lemma NoProxyWhenDisabled(tokens: seq<string>, proxies: seq<string>, globalProxyUrl: Option<string>)
    ensures forall a :: a in Assign(tokens, proxies, false, globalProxyUrl) ==> a.proxyUrl.None?
  {
    var accounts := Assign(tokens, proxies, false, globalProxyUrl);
    forall a | a in accounts
      ensures a.proxyUrl.None?
    {
      var i :| 0 <= i < |accounts| && accounts[i] == a;
    }
  }

  lemma ModAddPeriod(i: int, p: int)
    requires p > 0
    ensures (i + p) % p == i % p
  {
    var k := (i + p) / p - i / p - 1;
    assert p * k == i % p - (i + p) % p;
    if k > 0 {
      assert p * k == p * (k - 1) + p;
    } else if k < 0 {
      assert p * k == p * (k + 1) - p;
    }
  }
}
