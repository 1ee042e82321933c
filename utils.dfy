/** The two helpers of utils.js that decide something: the bounded random
    integer and the expiry test on a token's `exp` claim. */
module Utils {
  import opened Wrappers

  /** The smaller and the larger of two bounds, as `getRandomNumber` orders them. */
  function Low(a: int, b: int): int { if a > b then b else a }
  function High(a: int, b: int): int { if a > b then a else b }

  /** `getRandomNumber(min, max)`: the bounds are swapped when given in the
      wrong order, then the integer draw `Math.floor(Math.random() * (max - min + 1))`
      is added to the lower one. The draw is an input here. */
  function GetRandomNumber(min: int, max: int, draw: int): (r: int)
    ensures 0 <= draw <= High(min, max) - Low(min, max) ==> Low(min, max) <= r <= High(min, max)
    ensures r - draw == Low(min, max)
  {
    var (lo, hi) := if min > max then (max, min) else (min, max);
    lo + draw
  }

  /** The order of the bounds does not matter. */
  lemma GetRandomNumberSymmetric(min: int, max: int, draw: int)
    ensures GetRandomNumber(min, max, draw) == GetRandomNumber(max, min, draw)
  {
  }

  /** Every integer between the bounds is the result of exactly one admissible draw. */
  lemma GetRandomNumberCoversRange(min: int, max: int, v: int)
    requires Low(min, max) <= v <= High(min, max)
    ensures var d := v - Low(min, max); 0 <= d <= High(min, max) - Low(min, max) && GetRandomNumber(min, max, d) == v
    ensures forall d :: GetRandomNumber(min, max, d) == v ==> d == v - Low(min, max)
  {
  }

  /** What `expirationDate` reports: a time in seconds, or the text "No Expiry Claim". */
  datatype Expiration = NoExpiryClaim | At(seconds: int)

  datatype ExpiryInfo = ExpiryInfo(isExpired: bool, expiration: Expiration)

  /** `isSayEchoTokenExpired(token)` at clock reading `now` (seconds).
      `decoded` is what `jwtDecode(token)` gives: `None` when it throws,
      `Some(None)` for a payload without an `exp` claim, `Some(Some(exp))` otherwise.
      An empty token is falsy. */
  function IsSayEchoTokenExpired(token: string, decoded: Option<Option<int>>, now: int): (r: ExpiryInfo)
    ensures token == "" || decoded.None? ==> r == ExpiryInfo(true, At(now))
    ensures token != "" && decoded == Some(None) ==> r == ExpiryInfo(false, NoExpiryClaim)
    ensures token != "" && decoded.Some? && decoded.value.Some? ==>
              r.expiration == At(decoded.value.value) && (r.isExpired <==> now > decoded.value.value)
  {
    if token == "" then ExpiryInfo(true, At(now))
    else match decoded
      case None => ExpiryInfo(true, At(now))
      case Some(None) => ExpiryInfo(false, NoExpiryClaim)
      case Some(Some(exp)) => ExpiryInfo(now > exp, At(exp))
  }

  /** Once a token counts as expired it stays expired as the clock advances,
      and a token is still valid at the very second of its `exp` claim. */
  lemma ExpiryIsMonotone(token: string, decoded: Option<Option<int>>, now: int, later: int)
    requires now <= later
    requires IsSayEchoTokenExpired(token, decoded, now).isExpired
    ensures IsSayEchoTokenExpired(token, decoded, later).isExpired
  {
  }

  lemma ValidAtExpSecond(token: string, exp: int)
    requires token != ""
    ensures !IsSayEchoTokenExpired(token, Some(Some(exp)), exp).isExpired
    ensures IsSayEchoTokenExpired(token, Some(Some(exp)), exp + 1).isExpired
  {
  }
}
