// The client's token-expiry test. The JWT decoder and the clock are
// parameters: the decoder's outcome is None when it throws, and Some(exp)
// otherwise, where exp is None when the payload has no exp claim.

module AuthUtils {
  import opened Common
  import opened AuthStore

  /** The default bufferSeconds. */
  const DefaultBuffer: int := 60

  /** What jwtDecode gives: None when it throws, else the exp claim. */
  type Decoded = Option<Option<int>>

  /** Math.floor(nowMs / 1000); Dafny's division by a positive divisor
      already rounds down, negative times included. */
  function NowSeconds(nowMs: int): (r: int)
    ensures r * 1000 <= nowMs < r * 1000 + 1000
  {
    nowMs / 1000
  }

  /** isTokenExpired: expired when the token does not decode, when exp is
      missing or 0 (falsy), or when it falls before now plus the buffer. */
  function IsTokenExpired(decoded: Decoded, nowMs: int, bufferSeconds: int): bool
  {
    decoded.None? || decoded.value.None? || decoded.value.value == 0 ||
    decoded.value.value < NowSeconds(nowMs) + bufferSeconds
  }

  /** The three ways to be expired, and nothing else. */
  lemma ExpiredExactly(decoded: Decoded, nowMs: int, bufferSeconds: int)
    ensures decoded.None? ==> IsTokenExpired(decoded, nowMs, bufferSeconds)
    ensures decoded == Some(None) || decoded == Some(Some(0)) ==> IsTokenExpired(decoded, nowMs, bufferSeconds)
    ensures decoded.Some? && decoded.value.Some? && decoded.value.value != 0 ==>
      (IsTokenExpired(decoded, nowMs, bufferSeconds) <==> decoded.value.value * 1000 < nowMs - nowMs % 1000 + bufferSeconds * 1000)
  {
  }

  /** A larger buffer never turns an expired token into a live one. */
  lemma ExpiredMonotoneInBuffer(decoded: Decoded, nowMs: int, b1: int, b2: int)
    requires b1 <= b2 && IsTokenExpired(decoded, nowMs, b1)
    ensures IsTokenExpired(decoded, nowMs, b2)
  {
  }

  /** Nor does the passing of time. */
  lemma ExpiredMonotoneInTime(decoded: Decoded, t1: int, t2: int, bufferSeconds: int)
    requires t1 <= t2 && IsTokenExpired(decoded, t1, bufferSeconds)
    ensures IsTokenExpired(decoded, t2, bufferSeconds)
  {
    NowSecondsMonotone(t1, t2);
  }

  lemma NowSecondsMonotone(t1: int, t2: int)
    requires t1 <= t2
    ensures NowSeconds(t1) <= NowSeconds(t2)
  {
    var a, b := NowSeconds(t1), NowSeconds(t2);
    assert a * 1000 <= t1 && t2 < b * 1000 + 1000;
  }

  /** With the default buffer a token counts as expired once fewer than
      sixty whole seconds separate the current second from its exp: from
      59 seconds before exp on. */
  lemma DefaultBufferIsOneMinute(exp: int, nowMs: int)
    requires exp != 0
    ensures IsTokenExpired(Some(Some(exp)), nowMs, DefaultBuffer) <==> exp - NowSeconds(nowMs) < 60
    ensures (exp - 59) * 1000 <= nowMs <==> IsTokenExpired(Some(Some(exp)), nowMs, DefaultBuffer)
  {
    var n := NowSeconds(nowMs);
    assert n * 1000 <= nowMs < n * 1000 + 1000;
  }

  /** useIsTokenExpired: no access token (or an empty one) is expired;
      otherwise the token's own test. */
  function UseIsTokenExpired(store: AuthState, decode: string -> Decoded, nowMs: int, bufferSeconds: int): (r: bool)
    ensures !Truthy(store.accessToken) ==> r
    ensures Truthy(store.accessToken) ==> r == IsTokenExpired(decode(store.accessToken.value), nowMs, bufferSeconds)
  {
    if !Truthy(store.accessToken) then true
    else IsTokenExpired(decode(store.accessToken.value), nowMs, bufferSeconds)
  }

  /** After a logout the hook always reports an expired token. */
  lemma SignedOutIsExpired(s: AuthState, decode: string -> Decoded, nowMs: int, bufferSeconds: int)
    ensures UseIsTokenExpired(Logout(s), decode, nowMs, bufferSeconds)
  {
  }
}
