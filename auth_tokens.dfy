/** The credential side of `AuthService` (src/services/AxiosInterceptor.tsx):
    the two cookie slots, the expiry check, and the single-flight refresh held
    in the `refreshPromise` field, written as a state machine over values.
    The class in module AuthClient is specified by these functions. */
module AuthTokens {
  import opened Wrappers

  const ExpiryMarginSeconds: int := 300
  const NoRefreshTokenMessage: string := "No refresh token available"
  const InvalidRefreshResponseMessage: string := "Invalid response from refresh token endpoint"

  /** JavaScript truthiness of a cookie read: `undefined` and `''` are falsy. */
  predicate Truthy(s: Option<string>) {
    s.Some? && s.value != ""
  }

  /** An error as the request code sees it: an axios error, with the HTTP
      status of its response when there was one, or a plain `Error`. */
  datatype Error = HttpError(status: Option<int>) | PlainError(message: string)

  // ---------------------------------------------------------------- store

  /** The `access_token` and `refresh_token` cookies. */
  datatype Store = Store(access: Option<string>, refresh: Option<string>)

  const EmptyStore: Store := Store(None, None)

  /** `getToken()`: whether a truthy access token is stored. */
  predicate HasToken(st: Store) {
    Truthy(st.access)
  }

  // --------------------------------------------------------------- expiry

  /** The claims of a decoded access token, reduced to its `exp` claim
      (seconds since the epoch), which may be absent. */
  datatype Claims = Claims(exp: Option<int>)

  /** `isTokenExpired`, given the result of decoding the token (`None` when
      decoding throws) and the current time in milliseconds. `!decoded.exp`
      also treats an `exp` of 0 as missing. `exp < now / 1000 + 300` is
      compared exactly as `exp * 1000 < now + 300000`. */
  function IsTokenExpired(decoded: Option<Claims>, nowMs: int): (expired: bool)
    ensures decoded.None? ==> expired
    ensures !expired <==>
      && decoded.Some? && decoded.value.exp.Some? && decoded.value.exp.value != 0
      && decoded.value.exp.value * 1000 >= nowMs + ExpiryMarginSeconds * 1000
  {
    match decoded
    case None => true
    case Some(claims) =>
      if claims.exp.None? || claims.exp.value == 0 then true
      else claims.exp.value * 1000 < nowMs + ExpiryMarginSeconds * 1000
  }

  /** Once a token counts as expired it stays expired as time goes on. */
  lemma ExpiryIsMonotonic(decoded: Option<Claims>, earlier: int, later: int)
    requires earlier <= later
    requires IsTokenExpired(decoded, earlier)
    ensures IsTokenExpired(decoded, later)
  {
  }

  /** A token whose `exp` is 1000 is expired at second 800 (1000 < 800 + 300)
      and not at second 600; the margin is strict at second 700. */
  lemma ExpiryMarginExample()
    ensures IsTokenExpired(Some(Claims(Some(1000))), 800000)
    ensures !IsTokenExpired(Some(Claims(Some(1000))), 600000)
    ensures !IsTokenExpired(Some(Claims(Some(1000))), 700000)
    ensures IsTokenExpired(Some(Claims(Some(1000))), 700001)
  {
  }

  // -------------------------------------------------------------- refresh

  /** The `refreshPromise` field: `null`, a pending promise awaited by
      `waiters` callers, or a promise that has already rejected (see
      BeginRefresh for how the source comes to store one). */
  datatype Slot = Idle | Pending(waiters: nat) | Rejected(error: Error)

  /** The service's state: the cookies, the slot, whether `logout` has sent
      the page to `/login`, and how many refresh exchanges have been sent
      (`exchanges`) and have settled (`settled`). */
  datatype Machine = Machine(store: Store, slot: Slot, loggedOut: bool,
                             exchanges: nat, settled: nat)

  /** Single flight: exactly one exchange is outstanding while the slot is
      pending, none otherwise, and a pending slot has a caller. */
  predicate Inv(m: Machine) {
    && m.settled <= m.exchanges
    && m.exchanges - m.settled == (if m.slot.Pending? then 1 else 0)
    && (m.slot.Pending? ==> m.slot.waiters >= 1)
  }

  const Initial: Machine := Machine(EmptyStore, Idle, false, 0, 0)

  /** `setTokens(a, r)`. */
  function WithTokens(m: Machine, a: string, r: string): (m': Machine)
    ensures m'.store.access == Some(a) && m'.store.refresh == Some(r)
    ensures m'.slot == m.slot && m'.loggedOut == m.loggedOut
    ensures m'.exchanges == m.exchanges && m'.settled == m.settled
  {
    m.(store := Store(Some(a), Some(r)))
  }

  /** `logout()`: clear both cookies and send the page to `/login`. */
  function Logout(m: Machine): (m': Machine)
    ensures m'.store == EmptyStore && m'.loggedOut
    ensures m'.slot == m.slot && m'.exchanges == m.exchanges && m'.settled == m.settled
  {
    m.(store := EmptyStore, loggedOut := true)
  }

  lemma LogoutIdempotent(m: Machine)
    ensures Logout(Logout(m)) == Logout(m)
  {
  }

  /** `setTokens(a, r)` followed by the getters returns the pair, and
      `getToken()` then holds iff `a` is non-empty; a `logout` afterwards
      leaves neither cookie, and storing a pair after a `logout` gives the
      same cookies as storing it at once. */
  lemma StoreRoundTrip(m: Machine, a: string, r: string)
    ensures WithTokens(m, a, r).store.access == Some(a) && WithTokens(m, a, r).store.refresh == Some(r)
    ensures HasToken(WithTokens(m, a, r).store) <==> a != ""
    ensures Logout(WithTokens(m, a, r)).store == EmptyStore && !HasToken(Logout(WithTokens(m, a, r)).store)
    ensures WithTokens(Logout(m), a, r).store == WithTokens(m, a, r).store
  {
  }

  /** What a call of `refreshAccessToken` does before its first `await`:
      it sends the exchange (with the stored refresh token), attaches to the
      pending promise, or has already failed. */
  datatype Begin = Posted(refreshToken: string) | Attached | Failed(error: Error)

  /** The synchronous part of `refreshAccessToken`.
      A pending slot is joined; a slot holding a rejected promise makes the
      call fail with that promise's error; both without an exchange.
      With an empty slot and no truthy refresh token the executor throws
      before any `await`, so its `catch` logs out and its `finally` empties
      the slot while the promise is still being constructed; the assignment
      that then completes stores the rejected promise, and the slot stays
      occupied. Otherwise one exchange is sent and the slot becomes pending. */
  function BeginRefresh(m: Machine): (r: (Machine, Begin))
    ensures r.0.exchanges == m.exchanges + (if r.1.Posted? then 1 else 0)
    ensures r.0.settled == m.settled
    ensures r.1.Posted? <==> m.slot.Idle? && Truthy(m.store.refresh)
    ensures r.1.Posted? ==> m.store.refresh == Some(r.1.refreshToken) && r.0.slot == Pending(1)
    ensures r.1.Attached? <==> m.slot.Pending?
    ensures r.1.Attached? ==> r.0.slot == Pending(m.slot.waiters + 1) && r.0.store == m.store
    ensures m.slot.Rejected? ==> r == (m, Failed(m.slot.error))
    ensures m.slot.Idle? && !Truthy(m.store.refresh) ==>
      && r.1 == Failed(PlainError(NoRefreshTokenMessage))
      && r.0.slot == Rejected(PlainError(NoRefreshTokenMessage))
      && r.0.store == EmptyStore && r.0.loggedOut
    ensures r.0.store != m.store ==> r.0.store == EmptyStore && r.0.loggedOut
    ensures Inv(m) ==> Inv(r.0)
  {
    match m.slot
    case Pending(w) => (m.(slot := Pending(w + 1)), Attached)
    case Rejected(e) => (m, Failed(e))
    case Idle =>
      if !Truthy(m.store.refresh) then
        var e := PlainError(NoRefreshTokenMessage);
        (Logout(m).(slot := Rejected(e)), Failed(e))
      else
        (m.(slot := Pending(1), exchanges := m.exchanges + 1), Posted(m.store.refresh.value))
  }

  /** The body of `POST /auth/refresh`, fields possibly missing. */
  datatype RefreshData = RefreshData(accessToken: Option<string>, refreshToken: Option<string>)

  /** How the refresh exchange settled: a response (whose data may be
      missing) or a request error. */
  datatype ExchangeReply = Exchanged(data: Option<RefreshData>) | ExchangeFailed(error: Error)

  predicate RefreshSucceeds(reply: ExchangeReply) {
    && reply.Exchanged? && reply.data.Some?
    && Truthy(reply.data.value.accessToken) && Truthy(reply.data.value.refreshToken)
  }

  /** The part of `refreshAccessToken` after the exchange settles: on a
      response carrying both tokens store them and resolve with the access
      token; otherwise log out and reject (with the request error, or with
      "Invalid response ..."); in both cases empty the slot. The outcome is
      what the shared promise settles with; what each waiting caller's own
      `refreshAccessToken()` call returns is `Received` of it. */
  function SettleRefresh(m: Machine, reply: ExchangeReply): (r: (Machine, Result<string, Error>))
    requires m.slot.Pending?
    ensures r.0.slot == Idle && r.0.exchanges == m.exchanges && r.0.settled == m.settled + 1
    ensures r.1.Success? <==> RefreshSucceeds(reply)
    ensures r.1.Success? ==>
      && r.0.store == Store(reply.data.value.accessToken, reply.data.value.refreshToken)
      && reply.data.value.accessToken == Some(r.1.value)
      && r.0.loggedOut == m.loggedOut
    ensures r.1.Failure? ==> r.0.store == EmptyStore && r.0.loggedOut
    ensures reply.ExchangeFailed? ==> r.1 == Failure(reply.error)
    ensures reply.Exchanged? && r.1.Failure? ==> r.1.error == PlainError(InvalidRefreshResponseMessage)
    ensures Inv(m) ==> Inv(r.0)
  {
    if RefreshSucceeds(reply) then
      var d := reply.data.value;
      (WithTokens(m, d.accessToken.value, d.refreshToken.value).(slot := Idle, settled := m.settled + 1),
       Success(d.accessToken.value))
    else
      var e := if reply.ExchangeFailed? then reply.error else PlainError(InvalidRefreshResponseMessage);
      (Logout(m).(slot := Idle, settled := m.settled + 1), Failure(e))
  }

  /** `n` callers reach `refreshAccessToken` one after another before the
      exchange settles: one begin each, at most one exchange in all, and the
      single-flight invariant kept. */
  function BeginMany(m: Machine, n: nat): (r: (Machine, seq<Begin>))
    ensures |r.1| == n && r.0.settled == m.settled
    ensures m.exchanges <= r.0.exchanges
    ensures Inv(m) ==> Inv(r.0) && r.0.exchanges <= m.exchanges + 1
    decreases n
  {
    if n == 0 then (m, [])
    else
      var (m1, b) := BeginRefresh(m);
      var (m2, bs) := BeginMany(m1, n - 1);
      (m2, [b] + bs)
  }

  /** What one caller's `refreshAccessToken()` settles with once the shared
      promise settles with `outcome`. The caller that sent the exchange
      returns the promise itself (line 140) and gets `outcome`. A caller that
      attached (`joined`) awaits the promise (line 105) and then returns
      `await this.refreshPromise` (line 106); by then the `finally` of line
      136 has set the field to `null`. So a success reaches a joined caller
      as `null`, written `""` like every other falsy token, while a rejection
      is thrown by the first `await` and reaches it unchanged. */
  function Received(joined: bool, outcome: Result<string, Error>): (r: Result<string, Error>)
    ensures r.Failure? <==> outcome.Failure?
    ensures outcome.Failure? ==> r == outcome
    ensures !joined ==> r == outcome
    ensures joined && outcome.Success? ==> r == Success("")
  {
    if joined && outcome.Success? then Success("") else outcome
  }

  /** Callers arriving while a refresh is pending all attach to it. */
  lemma {:induction false} PendingAbsorbsCallers(m: Machine, n: nat)
    requires m.slot.Pending?
    ensures var (m', bs) := BeginMany(m, n);
      && m' == m.(slot := Pending(m.slot.waiters + n))
      && |bs| == n && forall k :: 0 <= k < n ==> bs[k] == Attached
    decreases n
  {
    if n > 0 {
      var (m1, b) := BeginRefresh(m);
      PendingAbsorbsCallers(m1, n - 1);
    }
  }

  /** The single-flight property: of `n >= 1` callers that need a refresh
      while none is running, the first sends the one exchange and the others
      attach to it; all `n` then await the same promise. */
  lemma {:induction false} SingleFlight(m: Machine, n: nat)
    requires m.slot.Idle? && Truthy(m.store.refresh) && n >= 1
    ensures var (m', bs) := BeginMany(m, n);
      && m'.exchanges == m.exchanges + 1
      && m'.slot == Pending(n) && m'.store == m.store
      && |bs| == n && bs[0] == Posted(m.store.refresh.value)
      && forall k :: 1 <= k < n ==> bs[k] == Attached
  {
    var (m1, b) := BeginRefresh(m);
    PendingAbsorbsCallers(m1, n - 1);
  }

  /** After a refresh attempt that found no refresh token, the slot keeps
      the rejected promise: even once new tokens are stored, the next call
      fails with the same error and sends no exchange. */
  lemma MissingRefreshTokenSticks(m: Machine, a: string, r: string)
    requires m.slot.Idle? && !Truthy(m.store.refresh)
    ensures var (m1, b1) := BeginRefresh(m);
      && b1 == Failed(PlainError(NoRefreshTokenMessage))
      && m1.slot == Rejected(PlainError(NoRefreshTokenMessage))
      && m1.store == EmptyStore && m1.loggedOut
      && var (m2, b2) := BeginRefresh(WithTokens(m1, a, r));
         b2 == b1 && m2.exchanges == m.exchanges
  {
  }

  /** The begin step as `finally { this.refreshPromise = null }` evidently
      intends it: a failed refresh leaves the slot empty. Only the path
      without a refresh token differs from `BeginRefresh`. */
  function BeginRefreshCleared(m: Machine): (r: (Machine, Begin))
    ensures m.slot.Idle? && !Truthy(m.store.refresh) ==>
      r == (Logout(m), Failed(PlainError(NoRefreshTokenMessage)))
    ensures !(m.slot.Idle? && !Truthy(m.store.refresh)) ==> r == BeginRefresh(m)
    ensures Inv(m) ==> Inv(r.0)
  {
    if m.slot.Idle? && !Truthy(m.store.refresh) then
      (Logout(m), Failed(PlainError(NoRefreshTokenMessage)))
    else BeginRefresh(m)
  }

  /** With the slot cleared, a missing refresh token fails only the calls
      made while it is missing: once new tokens are stored, the next call
      sends an exchange with the new refresh token. */
  lemma ClearedSlotRecovers(m: Machine, a: string, r: string)
    requires m.slot.Idle? && !Truthy(m.store.refresh) && r != ""
    ensures var (m1, b1) := BeginRefreshCleared(m);
      && b1 == Failed(PlainError(NoRefreshTokenMessage))
      && m1.slot == Idle && m1.store == EmptyStore && m1.loggedOut
      && var (m2, b2) := BeginRefreshCleared(WithTokens(m1, a, r));
         b2 == Posted(r) && m2.exchanges == m.exchanges + 1
  {
  }
}
