/** `AuthService` (src/services/AxiosInterceptor.tsx) as an object: the
    cookie slots, the `refreshPromise` field and the redirect flag are fields
    its methods update in place. Each method is specified by the matching
    transition of modules AuthTokens and AuthPipeline; `Valid()` is the
    single-flight invariant every method keeps. */
module AuthClient {
  import opened Wrappers
  import opened AuthTokens
  import AuthPipeline

  class AuthService {
    var accessCookie: Option<string>
    var refreshCookie: Option<string>
    var refreshPromise: Slot
    /** `window.location.href = '/login'` has been executed. */
    var redirectedToLogin: bool
    /** Refresh exchanges sent and settled so far. */
    ghost var exchanges: nat
    ghost var settled: nat
    /** `jwtDecode`: `None` where it throws. */
    const decode: string -> Option<Claims>

    ghost function State(): Machine
      reads this
    {
      Machine(Store(accessCookie, refreshCookie), refreshPromise, redirectedToLogin, exchanges, settled)
    }

    ghost predicate Valid()
      reads this
    {
      Inv(State())
    }

    constructor (decode: string -> Option<Claims>)
      ensures Valid() && State() == Initial && this.decode == decode
    {
      accessCookie, refreshCookie := None, None;
      refreshPromise := Idle;
      redirectedToLogin := false;
      exchanges, settled := 0, 0;
      this.decode := decode;
    }

    /** The access-token cookie, `undefined` when absent. */
    function GetAccessToken(): (t: Option<string>)
      reads this
      ensures t == State().store.access
    {
      accessCookie
    }

    /** The refresh-token cookie, `undefined` when absent. */
    function GetRefreshToken(): (t: Option<string>)
      reads this
      ensures t == State().store.refresh
    {
      refreshCookie
    }

    /** `!!token`: an access token is present and non-empty. */
    function GetToken(): (b: bool)
      reads this
      ensures b <==> HasToken(State().store)
      ensures b <==> GetAccessToken().Some? && GetAccessToken().value != ""
    {
      Truthy(accessCookie)
    }

    method SetTokens(accessToken: string, refreshToken: string)
      requires Valid()
      modifies this
      ensures Valid() && State() == WithTokens(old(State()), accessToken, refreshToken)
      ensures GetAccessToken() == Some(accessToken) && GetRefreshToken() == Some(refreshToken)
      ensures GetToken() <==> accessToken != ""
    {
      accessCookie := Some(accessToken);
      refreshCookie := Some(refreshToken);
    }

    method ClearTokens()
      requires Valid()
      modifies this
      ensures Valid() && State() == old(State()).(store := EmptyStore)
      ensures GetAccessToken().None? && GetRefreshToken().None? && !GetToken()
    {
      accessCookie := None;
      refreshCookie := None;
    }

    method Logout()
      requires Valid()
      modifies this
      ensures Valid() && State() == AuthTokens.Logout(old(State()))
    {
      ClearTokens();
      redirectedToLogin := true;
    }

    /** `refreshAccessToken()` up to its first `await`. */
    method RefreshAccessToken() returns (b: Begin)
      requires Valid()
      modifies this
      ensures Valid()
      ensures State() == BeginRefresh(old(State())).0
      ensures b == BeginRefresh(old(State())).1
    {
      if refreshPromise.Pending? {
        refreshPromise := Pending(refreshPromise.waiters + 1);
        return Attached;
      } else if refreshPromise.Rejected? {
        return Failed(refreshPromise.error);
      }
      if !Truthy(refreshCookie) {
        var e := PlainError(NoRefreshTokenMessage);
        Logout();                      // catch
        refreshPromise := Idle;        // finally
        refreshPromise := Rejected(e); // the assignment of the constructed promise
        return Failed(e);
      }
      refreshPromise := Pending(1);
      exchanges := exchanges + 1;
      b := Posted(refreshCookie.value);
    }

    /** `refreshAccessToken()` once `POST /auth/refresh` settles. */
    method SettleRefresh(reply: ExchangeReply) returns (outcome: Result<string, Error>)
      requires Valid() && refreshPromise.Pending?
      modifies this
      ensures Valid()
      ensures State() == AuthTokens.SettleRefresh(old(State()), reply).0
      ensures outcome == AuthTokens.SettleRefresh(old(State()), reply).1
    {
      if RefreshSucceeds(reply) {
        var d := reply.data.value;
        SetTokens(d.accessToken.value, d.refreshToken.value);
        outcome := Success(d.accessToken.value);
      } else {
        Logout();
        outcome := Failure(if reply.ExchangeFailed? then reply.error
                           else PlainError(InvalidRefreshResponseMessage));
      }
      refreshPromise := Idle;
      settled := settled + 1;
    }

    /** The request interceptor up to its `await`. */
    method RequestInterceptor<B>(config: AuthPipeline.Config<B>, nowMs: int)
      returns (p: AuthPipeline.PreFlight<B>)
      requires Valid()
      modifies this
      ensures Valid()
      ensures State() == AuthPipeline.RequestInterceptor(old(State()), decode, config, nowMs).0
      ensures p == AuthPipeline.RequestInterceptor(old(State()), decode, config, nowMs).1
    {
      var token := accessCookie;
      if !Truthy(token) {
        return AuthPipeline.Proceed(config);
      }
      if !IsTokenExpired(decode(token.value), nowMs) {
        return AuthPipeline.Proceed(AuthPipeline.WithAuthorization(config, token.value));
      }
      var b := RefreshAccessToken();
      if b.Failed? {
        p := AuthPipeline.Abort(b.error);
      } else {
        p := AuthPipeline.AwaitToken(config, b.Attached?);
      }
    }

    /** The response interceptor up to its `await`. */
    method ResponseInterceptor<B>(config: AuthPipeline.Config<B>, reply: AuthPipeline.Reply)
      returns (p: AuthPipeline.PostFlight<B>)
      requires Valid()
      modifies this
      ensures Valid()
      ensures State() == AuthPipeline.ResponseInterceptor(old(State()), config, reply).0
      ensures p == AuthPipeline.ResponseInterceptor(old(State()), config, reply).1
    {
      if reply.Ok? {
        return AuthPipeline.Deliver(reply.data);
      }
      if reply.error == AuthPipeline.Unauthorized && !config.retry {
        var retried := config.(retry := true);
        var b := RefreshAccessToken();
        if b.Failed? {
          Logout();
          return AuthPipeline.Reject(b.error);
        }
        return AuthPipeline.AwaitRetry(retried, b.Attached?);
      }
      p := AuthPipeline.Reject(reply.error);
    }

    /** The response interceptor once the refresh it awaited settles. */
    method ResumeResponse<B>(config: AuthPipeline.Config<B>, outcome: Result<string, Error>)
      returns (q: AuthPipeline.Retry<B>)
      requires Valid()
      modifies this
      ensures Valid()
      ensures State() == AuthPipeline.ResumeResponse(old(State()), config, outcome).0
      ensures q == AuthPipeline.ResumeResponse(old(State()), config, outcome).1
    {
      if outcome.Failure? {
        Logout();
        return AuthPipeline.GiveUp(outcome.error);
      }
      if outcome.value != "" {
        q := AuthPipeline.Resend(AuthPipeline.WithAuthorization(config, outcome.value));
      } else {
        q := AuthPipeline.GiveUp(AuthPipeline.Unauthorized);
      }
    }
  }
}
