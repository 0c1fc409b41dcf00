/** The request side of `AuthService` (src/services/AxiosInterceptor.tsx):
    the pre-flight request interceptor, the post-flight response interceptor
    with its retry-once guard, the error mapping of `request`, the
    convenience methods that build request configs, and the life of one
    caller-issued request through them. */
module AuthPipeline {
  import opened Wrappers
  import opened AuthTokens

  const ApiUrl: string := "http://localhost:4000"
  const AuthorizationHeader: string := "Authorization"
  const ContentTypeHeader: string := "Content-Type"
  const JsonContentType: string := "application/json"
  const MultipartContentType: string := "multipart/form-data"
  const NotFoundMessage: string := "Resource not found"
  const ServerErrorMessage: string := "Internal server error"

  const Unauthorized: Error := HttpError(Some(401))

  datatype Method = GET | POST | PUT | DELETE

  /** An axios request config: the fields the core reads or writes, with
      `_retry` as `retry` and the request body of type `B`. */
  datatype Config<B> = Config(httpMethod: Option<Method>, url: Option<string>, data: Option<B>,
                              headers: map<string, string>, retry: bool)

  /** The `{}` that spreading an absent `config` yields. */
  function EmptyConfig<B>(): Config<B> {
    Config(None, None, None, map[], false)
  }

  function Bearer(token: string): string {
    "Bearer " + token
  }

  /** `config.headers['Authorization'] = `Bearer ${token}``. */
  function WithAuthorization<B>(cfg: Config<B>, token: string): (c: Config<B>)
    ensures c.headers == cfg.headers[AuthorizationHeader := Bearer(token)]
    ensures c.(headers := cfg.headers) == cfg
  {
    cfg.(headers := cfg.headers[AuthorizationHeader := Bearer(token)])
  }

  /** The config carries `token` as bearer. */
  predicate HasBearer<B>(cfg: Config<B>, token: string) {
    AuthorizationHeader in cfg.headers && cfg.headers[AuthorizationHeader] == Bearer(token)
  }

  /** Two configs describe the same request: they differ at most in the
      Authorization header. */
  ghost predicate SameRequest<B>(c1: Config<B>, c2: Config<B>) {
    && c1.httpMethod == c2.httpMethod && c1.url == c2.url && c1.data == c2.data && c1.retry == c2.retry
    && c1.headers.Keys - {AuthorizationHeader} == c2.headers.Keys - {AuthorizationHeader}
    && forall h :: h in c1.headers && h != AuthorizationHeader ==> h in c2.headers && c1.headers[h] == c2.headers[h]
  }

  // ----------------------------------------------------------- pre-flight

  /** What the request interceptor does with a config: pass it on to the
      wire, wait for a refresh (one it sent, or one it `joined`), or fail
      (the request is then not sent). */
  datatype PreFlight<B> = Proceed(config: Config<B>) | AwaitToken(config: Config<B>, joined: bool) | Abort(error: Error)

  /** The request interceptor up to its `await`: with no truthy stored
      access token the config goes out as it is; with one that is not
      expired it carries that token as bearer; with an expired one a refresh
      begins (or is joined) and the config waits for it. */
  function RequestInterceptor<B>(m: Machine, decode: string -> Option<Claims>, cfg: Config<B>, nowMs: int)
    : (r: (Machine, PreFlight<B>))
    ensures r.0.exchanges > m.exchanges ==>
      Truthy(m.store.access) && IsTokenExpired(decode(m.store.access.value), nowMs)
    ensures r.1.Proceed? ==> r.0 == m && SameRequest(cfg, r.1.config)
    ensures r.1.AwaitToken? ==> r.1.config == cfg && r.0.slot.Pending?
    ensures r.1.AwaitToken? ==> (r.1.joined <==> m.slot.Pending?)
    ensures Inv(m) ==> Inv(r.0)
  {
    var token := m.store.access;
    if !Truthy(token) then (m, Proceed(cfg))
    else if !IsTokenExpired(decode(token.value), nowMs) then (m, Proceed(WithAuthorization(cfg, token.value)))
    else
      var (m1, b) := BeginRefresh(m);
      match b
      case Failed(e) => (m1, Abort(e))
      case _ => (m1, AwaitToken(cfg, b.Attached?))
  }

  /** The three cases of the pre-flight stage. */
  lemma PreFlightCases<B>(m: Machine, decode: string -> Option<Claims>, cfg: Config<B>, nowMs: int)
    ensures var (m', p) := RequestInterceptor(m, decode, cfg, nowMs);
      && (!Truthy(m.store.access) ==> m' == m && p == Proceed(cfg))
      && (Truthy(m.store.access) && !IsTokenExpired(decode(m.store.access.value), nowMs) ==>
            m' == m && p.Proceed? && HasBearer(p.config, m.store.access.value))
      && (Truthy(m.store.access) && IsTokenExpired(decode(m.store.access.value), nowMs) ==>
            (m', p.Abort?) == (BeginRefresh(m).0, BeginRefresh(m).1.Failed?))
  {
  }

  /** The request interceptor after its `await`: a truthy new token is
      attached; a failed refresh fails the request. */
  function ResumeRequest<B>(cfg: Config<B>, outcome: Result<string, Error>): (p: PreFlight<B>)
    ensures outcome.Failure? <==> p.Abort?
    ensures outcome.Failure? ==> p.error == outcome.error
    ensures p.Proceed? && outcome.value != "" ==>
      HasBearer(p.config, outcome.value)
    ensures p.Proceed? ==> SameRequest(cfg, p.config)
  {
    match outcome
    case Success(t) => if t != "" then Proceed(WithAuthorization(cfg, t)) else Proceed(cfg)
    case Failure(e) => Abort(e)
  }

  // ---------------------------------------------------------- post-flight

  /** The wire's answer: a 2xx response body, or an axios error. */
  datatype Reply = Ok(data: string) | Err(error: Error)

  /** What the response interceptor does with an answer: pass the body on,
      reject, or (after a first 401) mark the request retried and wait for
      a refresh (one it sent, or one it `joined`). */
  datatype PostFlight<B> = Deliver(data: string) | Reject(error: Error) | AwaitRetry(config: Config<B>, joined: bool)

  /** The response interceptor up to its `await`. Only a 401 on a config
      whose `_retry` is unset starts the retry cycle; when the refresh fails
      before any `await` the service logs out and rejects with the refresh
      error, not the 401. */
  function ResponseInterceptor<B>(m: Machine, cfg: Config<B>, reply: Reply): (r: (Machine, PostFlight<B>))
    ensures reply.Ok? ==> r == (m, Deliver(reply.data))
    ensures r.1.AwaitRetry? <==> reply == Err(Unauthorized) && !cfg.retry && !BeginRefresh(m).1.Failed?
    ensures r.1.AwaitRetry? ==> r.1.config == cfg.(retry := true) && r.0.slot.Pending?
    ensures r.1.AwaitRetry? ==> (r.1.joined <==> m.slot.Pending?)
    ensures reply.Err? && (reply.error != Unauthorized || cfg.retry) ==> r == (m, Reject(reply.error))
    ensures r.0.exchanges > m.exchanges ==> reply == Err(Unauthorized) && !cfg.retry
    ensures reply == Err(Unauthorized) && !cfg.retry && BeginRefresh(m).1.Failed? ==>
      r == (Logout(BeginRefresh(m).0), Reject(BeginRefresh(m).1.error))
    ensures Inv(m) ==> Inv(r.0)
  {
    match reply
    case Ok(d) => (m, Deliver(d))
    case Err(e) =>
      if e == Unauthorized && !cfg.retry then
        var (m1, b) := BeginRefresh(m);
        match b
        case Failed(refreshError) => (Logout(m1), Reject(refreshError))
        case _ => (m1, AwaitRetry(cfg.(retry := true), b.Attached?))
      else (m, Reject(e))
  }

  /** How the retry cycle continues once the refresh settles. */
  datatype Retry<B> = Resend(config: Config<B>) | GiveUp(error: Error)

  /** The response interceptor after its `await`: a truthy new token is
      put on the same config, which is sent again; a falsy one lets the
      original 401 through; a failed refresh logs out and rejects with the
      refresh error. */
  function ResumeResponse<B>(m: Machine, cfg: Config<B>, outcome: Result<string, Error>): (r: (Machine, Retry<B>))
    ensures r.1.Resend? <==> outcome.Success? && outcome.value != ""
    ensures r.1.Resend? ==>
      && r.0 == m && SameRequest(cfg, r.1.config)
      && HasBearer(r.1.config, outcome.value)
    ensures outcome == Success("") ==> r == (m, GiveUp(Unauthorized))
    ensures outcome.Failure? ==> r == (Logout(m), GiveUp(outcome.error))
    ensures Inv(m) ==> Inv(r.0)
  {
    match outcome
    case Success(t) => if t != "" then (m, Resend(WithAuthorization(cfg, t))) else (m, GiveUp(Unauthorized))
    case Failure(e) => (Logout(m), GiveUp(e))
  }

  // -------------------------------------------------------------- request

  /** The `catch` of `request`: only a 404 and exactly a 500 are turned into
      plain errors; every other error is rethrown as it is. */
  function MapError(e: Error): (r: Error)
    ensures e == HttpError(Some(404)) ==> r == PlainError(NotFoundMessage)
    ensures e == HttpError(Some(500)) ==> r == PlainError(ServerErrorMessage)
    ensures e != HttpError(Some(404)) && e != HttpError(Some(500)) ==> r == e
  {
    if e == HttpError(Some(404)) then PlainError(NotFoundMessage)
    else if e == HttpError(Some(500)) then PlainError(ServerErrorMessage)
    else e
  }

  /** Other server errors, 401 and 502 among them, reach the caller as they are. */
  lemma OnlyTwoStatusesMapped()
    ensures MapError(HttpError(Some(502))) == HttpError(Some(502))
    ensures MapError(Unauthorized) == Unauthorized
    ensures MapError(HttpError(None)) == HttpError(None)
    ensures MapError(PlainError(NoRefreshTokenMessage)) == PlainError(NoRefreshTokenMessage)
  {
  }

  /** Where one caller-issued request is: built but not dispatched, waiting
      for a refresh in the pre-flight stage, on the wire, waiting for a
      refresh in the retry cycle, or settled (what `request` resolves or
      rejects with). A waiting request records whether it `joined` a
      refresh another caller sent. */
  datatype Phase = Fresh | AwaitingToken(joined: bool) | OnWire | AwaitingRetryToken(joined: bool)
                 | Done(result: Result<string, Error>)

  /** A request attempt: its config (which carries `_retry`), its phase and
      how many times it has been sent. */
  datatype Attempt<B> = Attempt(config: Config<B>, phase: Phase, sends: nat)

  /** What can happen to an attempt: it is dispatched, its own call of
      `refreshAccessToken()` settles with `outcome` (see `Received` for how
      that differs between callers of one refresh), or the wire answers.
      The clock is read when the request interceptor runs. */
  datatype Event = Dispatch(nowMs: int) | TokenSettled(outcome: Result<string, Error>, nowMs: int) | Replied(reply: Reply)

  /** The axios instance's default headers, under the config's own. */
  function WithDefaults<B>(cfg: Config<B>): (c: Config<B>)
    ensures ContentTypeHeader in c.headers
    ensures ContentTypeHeader !in cfg.headers ==> c.headers[ContentTypeHeader] == JsonContentType
    ensures forall h :: h in cfg.headers ==> h in c.headers && c.headers[h] == cfg.headers[h]
  {
    cfg.(headers := map[ContentTypeHeader := JsonContentType] + cfg.headers)
  }

  /** `request(config)` before it is dispatched. */
  function NewAttempt<B>(cfg: Config<B>): (a: Attempt<B>)
    ensures a.phase == Fresh && a.sends == 0
    ensures a.config == WithDefaults(cfg)
  {
    Attempt(WithDefaults(cfg), Fresh, 0)
  }

  /** Apply the result of a pre-flight stage to an attempt: a config that
      proceeds is sent once more, a waiting one keeps its sends, and a
      failure settles the request with the mapped error. */
  function Enter<B>(a: Attempt<B>, p: PreFlight<B>): (r: Attempt<B>)
    ensures p.Proceed? ==> r.phase == OnWire && r.sends == a.sends + 1 && r.config == p.config
    ensures p.AwaitToken? ==> r.phase == AwaitingToken(p.joined) && r.sends == a.sends && r.config == p.config
    ensures p.Abort? ==> r == a.(phase := Done(Failure(MapError(p.error))))
  {
    match p
    case Proceed(c) => a.(config := c, phase := OnWire, sends := a.sends + 1)
    case AwaitToken(c, j) => a.(config := c, phase := AwaitingToken(j))
    case Abort(e) => a.(phase := Done(Failure(MapError(e))))
  }

  /** One event in the life of an attempt; an event its phase does not
      expect leaves everything unchanged. A settled request stays settled.
      On the wire, a 2xx reply resolves `request` with its body; an error
      other than a first 401 rejects it with the error after `MapError`; a
      first 401 either waits for a refresh with `_retry` set, or, when the
      refresh fails at once, logs out and rejects with the refresh error.
      Waiting for a token, a failure rejects the request and a success
      sends it. */
  function Step<B>(m: Machine, decode: string -> Option<Claims>, a: Attempt<B>, ev: Event)
    : (r: (Machine, Attempt<B>))
    ensures Inv(m) ==> Inv(r.0)
    ensures a.phase.Done? ==> r == (m, a)
    ensures a.phase == OnWire && ev.Replied? && ev.reply.Ok? ==>
      r == (m, a.(phase := Done(Success(ev.reply.data))))
    ensures a.phase == OnWire && ev.Replied? && ev.reply.Err? && (ev.reply.error != Unauthorized || a.config.retry) ==>
      r == (m, a.(phase := Done(Failure(MapError(ev.reply.error)))))
    ensures a.phase == OnWire && ev == Replied(Err(Unauthorized)) && !a.config.retry ==>
      var (m1, b) := BeginRefresh(m);
      r == if b.Failed? then (Logout(m1), a.(phase := Done(Failure(MapError(b.error)))))
           else (m1, a.(config := a.config.(retry := true), phase := AwaitingRetryToken(m.slot.Pending?)))
    ensures a.phase.AwaitingToken? && ev.TokenSettled? ==>
      && r.0 == m
      && (ev.outcome.Failure? ==> r.1 == a.(phase := Done(Failure(MapError(ev.outcome.error)))))
      && (ev.outcome.Success? ==> r.1.phase == OnWire && r.1.sends == a.sends + 1)
    ensures a.phase.AwaitingRetryToken? && ev.TokenSettled? && ev.outcome.Failure? ==>
      r == (Logout(m), a.(phase := Done(Failure(MapError(ev.outcome.error)))))
    ensures a.phase.AwaitingRetryToken? && ev.TokenSettled? && ev.outcome == Success("") ==>
      r == (m, a.(phase := Done(Failure(Unauthorized))))
  {
    match (a.phase, ev)
    case (Fresh, Dispatch(now)) =>
      var (m1, p) := RequestInterceptor(m, decode, a.config, now);
      (m1, Enter(a, p))
    case (AwaitingToken(_), TokenSettled(o, _)) =>
      (m, Enter(a, ResumeRequest(a.config, o)))
    case (OnWire, Replied(reply)) =>
      var (m1, p) := ResponseInterceptor(m, a.config, reply);
      (match p
       case Deliver(d) => (m1, a.(phase := Done(Success(d))))
       case Reject(e) => (m1, a.(phase := Done(Failure(MapError(e)))))
       case AwaitRetry(c, j) => (m1, a.(config := c, phase := AwaitingRetryToken(j))))
    case (AwaitingRetryToken(_), TokenSettled(o, now)) =>
      var (m1, q) := ResumeResponse(m, a.config, o);
      (match q
       case GiveUp(e) => (m1, a.(phase := Done(Failure(MapError(e)))))
       case Resend(c) =>
         var (m2, p) := RequestInterceptor(m1, decode, c, now);
         (m2, Enter(a.(config := c), p)))
    case _ => (m, a)
  }

  function Budget<B>(a: Attempt<B>): nat {
    if a.config.retry then 2 else 1
  }

  /** How many sends each phase allows: one until `_retry` is set, two after. */
  ghost predicate AttemptInv<B>(a: Attempt<B>) {
    match a.phase
    case Fresh => a.sends == 0
    case AwaitingToken(_) => a.sends + 1 <= Budget(a)
    case OnWire => 1 <= a.sends <= Budget(a)
    case AwaitingRetryToken(_) => a.config.retry && a.sends <= 1
    case Done(_) => a.sends <= 2
  }

  lemma StepKeepsAttemptInv<B>(m: Machine, decode: string -> Option<Claims>, a: Attempt<B>, ev: Event)
    requires AttemptInv(a)
    ensures AttemptInv(Step(m, decode, a, ev).1)
    ensures Step(m, decode, a, ev).1.sends <= 2
  {
  }

  /** The events `evs` in order; once settled, a request ignores the rest. */
  function Run<B>(m: Machine, decode: string -> Option<Claims>, a: Attempt<B>, evs: seq<Event>)
    : (r: (Machine, Attempt<B>))
    ensures a.phase.Done? ==> r == (m, a)
    ensures Inv(m) ==> Inv(r.0)
    decreases |evs|
  {
    if evs == [] then (m, a)
    else
      var (m1, a1) := Step(m, decode, a, evs[0]);
      Run(m1, decode, a1, evs[1..])
  }

  /** Retry once: whatever the server and the refresh endpoint answer, a
      caller-issued request goes on the wire at most twice, and the single
      flight invariant holds throughout. */
  lemma {:induction false} AtMostTwoSends<B>(m: Machine, decode: string -> Option<Claims>,
                                             a: Attempt<B>, evs: seq<Event>)
    requires AttemptInv(a)
    ensures AttemptInv(Run(m, decode, a, evs).1)
    ensures Run(m, decode, a, evs).1.sends <= 2
    ensures Inv(m) ==> Inv(Run(m, decode, a, evs).0)
    decreases |evs|
  {
    if evs != [] {
      var (m1, a1) := Step(m, decode, a, evs[0]);
      StepKeepsAttemptInv(m, decode, a, evs[0]);
      AtMostTwoSends(m1, decode, a1, evs[1..]);
    }
  }

  /** A second 401, on a request already retried, is the caller's answer. */
  lemma SecondUnauthorizedIsFinal<B>(m: Machine, decode: string -> Option<Claims>, a: Attempt<B>)
    requires a.phase == OnWire && a.config.retry
    ensures Step(m, decode, a, Replied(Err(Unauthorized))) == (m, a.(phase := Done(Failure(Unauthorized))))
  {
  }

  /** Apply one event to each attempt in turn, threading the state. */
  function StepAll<B>(m: Machine, decode: string -> Option<Claims>, attempts: seq<Attempt<B>>, ev: Event)
    : (r: (Machine, seq<Attempt<B>>))
    ensures |r.1| == |attempts|
    ensures Inv(m) ==> Inv(r.0)
    decreases |attempts|
  {
    if attempts == [] then (m, [])
    else
      var (m1, a1) := Step(m, decode, attempts[0], ev);
      var (m2, rest) := StepAll(m1, decode, attempts[1..], ev);
      (m2, [a1] + rest)
  }

  /** Callers dispatching while a refresh is pending with an expired token
      all wait for it and send nothing. */
  lemma {:induction false} DispatchWhilePending<B>(m: Machine, decode: string -> Option<Claims>,
                                                   attempts: seq<Attempt<B>>, now: int)
    requires m.slot.Pending? && Truthy(m.store.access)
    requires IsTokenExpired(decode(m.store.access.value), now)
    requires forall k :: 0 <= k < |attempts| ==> attempts[k].phase == Fresh && attempts[k].sends == 0
    ensures var (m', bs) := StepAll(m, decode, attempts, Dispatch(now));
      && m' == m.(slot := Pending(m.slot.waiters + |attempts|))
      && |bs| == |attempts|
      && forall k :: 0 <= k < |bs| ==> bs[k] == attempts[k].(phase := AwaitingToken(true))
    decreases |attempts|
  {
    if attempts != [] {
      var (m1, a1) := Step(m, decode, attempts[0], Dispatch(now));
      DispatchWhilePending(m1, decode, attempts[1..], now);
    }
  }

  /** Whether a waiting attempt joined a refresh another caller sent. */
  function Joined<B>(a: Attempt<B>): bool {
    match a.phase
    case AwaitingToken(j) => j
    case AwaitingRetryToken(j) => j
    case _ => false
  }

  /** The shared refresh settles with `outcome`: each waiting attempt
      resumes with what its own `refreshAccessToken()` call returns, which
      for a caller that joined is `null` on success (`Received`). */
  function SettleWaiters<B>(m: Machine, decode: string -> Option<Claims>, attempts: seq<Attempt<B>>,
                            outcome: Result<string, Error>, now: int): (r: (Machine, seq<Attempt<B>>))
    ensures |r.1| == |attempts|
    ensures Inv(m) ==> Inv(r.0)
    decreases |attempts|
  {
    if attempts == [] then (m, [])
    else
      var (m1, a1) := Step(m, decode, attempts[0], TokenSettled(Received(Joined(attempts[0]), outcome), now));
      var (m2, rest) := SettleWaiters(m1, decode, attempts[1..], outcome, now);
      (m2, [a1] + rest)
  }

  /** The handoff `return await this.refreshPromise` (line 106) evidently
      intends: every waiting attempt resumes with the value the shared
      promise settled with. */
  function SettleWaitersShared<B>(m: Machine, decode: string -> Option<Claims>, attempts: seq<Attempt<B>>,
                                  outcome: Result<string, Error>, now: int): (r: (Machine, seq<Attempt<B>>))
    ensures |r.1| == |attempts|
    ensures Inv(m) ==> Inv(r.0)
  {
    StepAll(m, decode, attempts, TokenSettled(outcome, now))
  }

  /** As written: of the callers waiting in the pre-flight stage on a
      refresh that succeeds with `token`, the one that sent the exchange goes
      out with the token as bearer, while every caller that joined receives
      `null` and goes out with its config exactly as it was. */
  lemma {:induction false} JoinersMissToken<B>(m: Machine, decode: string -> Option<Claims>,
                                               attempts: seq<Attempt<B>>, token: string, now: int)
    requires token != ""
    requires forall k :: 0 <= k < |attempts| ==> attempts[k].phase.AwaitingToken?
    ensures var (m', bs) := SettleWaiters(m, decode, attempts, Success(token), now);
      && m' == m && |bs| == |attempts|
      && forall k :: 0 <= k < |bs| ==>
           && bs[k].phase == OnWire && bs[k].sends == attempts[k].sends + 1
           && (attempts[k].phase.joined ==> bs[k].config == attempts[k].config)
           && (!attempts[k].phase.joined ==>
                 SameRequest(attempts[k].config, bs[k].config) && HasBearer(bs[k].config, token))
    decreases |attempts|
  {
    if attempts != [] {
      JoinersMissToken(m, decode, attempts[1..], token, now);
    }
  }

  /** With the intended handoff, all callers waiting on one successful
      refresh go on the wire with its token as bearer, each otherwise the
      same request. */
  lemma {:induction false} SharedTokenReachesAll<B>(m: Machine, decode: string -> Option<Claims>,
                                                    attempts: seq<Attempt<B>>, token: string, now: int)
    requires token != ""
    requires forall k :: 0 <= k < |attempts| ==> attempts[k].phase.AwaitingToken?
    ensures var (m', bs) := SettleWaitersShared(m, decode, attempts, Success(token), now);
      && m' == m && |bs| == |attempts|
      && forall k :: 0 <= k < |bs| ==>
           && bs[k].phase == OnWire && bs[k].sends == attempts[k].sends + 1
           && SameRequest(attempts[k].config, bs[k].config)
           && HasBearer(bs[k].config, token)
    decreases |attempts|
  {
    if attempts != [] {
      SharedTokenReachesAll(m, decode, attempts[1..], token, now);
    }
  }

  /** Requests answered 401 while a refresh is pending all join it: each has
      `_retry` set and waits, and no exchange is added. */
  lemma {:induction false} UnauthorizedWhilePending<B>(m: Machine, decode: string -> Option<Claims>,
                                                       attempts: seq<Attempt<B>>)
    requires m.slot.Pending?
    requires forall k :: 0 <= k < |attempts| ==> attempts[k].phase == OnWire && !attempts[k].config.retry
    ensures var (m', bs) := StepAll(m, decode, attempts, Replied(Err(Unauthorized)));
      && m' == m.(slot := Pending(m.slot.waiters + |attempts|))
      && |bs| == |attempts|
      && forall k :: 0 <= k < |bs| ==>
           bs[k] == attempts[k].(config := attempts[k].config.(retry := true), phase := AwaitingRetryToken(true))
    decreases |attempts|
  {
    if attempts != [] {
      var (m1, a1) := Step(m, decode, attempts[0], Replied(Err(Unauthorized)));
      UnauthorizedWhilePending(m1, decode, attempts[1..]);
    }
  }

  /** As written: callers that joined the refresh in the retry cycle receive
      `null` when it succeeds and are rejected with their own 401. */
  lemma {:induction false} RetryJoinersGiveUp<B>(m: Machine, decode: string -> Option<Claims>,
                                                 attempts: seq<Attempt<B>>, token: string, now: int)
    requires forall k :: 0 <= k < |attempts| ==> attempts[k].phase == AwaitingRetryToken(true)
    ensures var (m', bs) := SettleWaiters(m, decode, attempts, Success(token), now);
      && m' == m && |bs| == |attempts|
      && forall k :: 0 <= k < |bs| ==> bs[k] == attempts[k].(phase := Done(Failure(Unauthorized)))
    decreases |attempts|
  {
    if attempts != [] {
      RetryJoinersGiveUp(m, decode, attempts[1..], token, now);
    }
  }

  /** Requests answered 401 while no refresh runs: the first sends the one
      exchange and waits for it, and the others join it. */
  lemma FirstUnauthorizedSendsOthersJoin<B>(m: Machine, decode: string -> Option<Claims>,
                                            attempts: seq<Attempt<B>>)
    requires m.slot.Idle? && Truthy(m.store.refresh) && |attempts| >= 1
    requires forall k :: 0 <= k < |attempts| ==> attempts[k].phase == OnWire && !attempts[k].config.retry
    ensures var (m1, waiting) := StepAll(m, decode, attempts, Replied(Err(Unauthorized)));
      && m1 == m.(slot := Pending(|attempts|), exchanges := m.exchanges + 1)
      && |waiting| == |attempts|
      && waiting[0] == attempts[0].(config := attempts[0].config.(retry := true), phase := AwaitingRetryToken(false))
      && forall k :: 1 <= k < |waiting| ==>
           waiting[k] == attempts[k].(config := attempts[k].config.(retry := true), phase := AwaitingRetryToken(true))
  {
    var (m0, w0) := Step(m, decode, attempts[0], Replied(Err(Unauthorized)));
    UnauthorizedWhilePending(m0, decode, attempts[1..]);
    var (m1, waiting) := StepAll(m, decode, attempts, Replied(Err(Unauthorized)));
    assert waiting[1..] == StepAll(m0, decode, attempts[1..], Replied(Err(Unauthorized))).1;
  }

  /** As written, once the refresh succeeds with `token` (now the stored
      access token, valid at `later`): the caller that sent the exchange is
      sent again with the new bearer, and every caller that joined is
      rejected with its own 401. */
  lemma PosterRetriesOthersGiveUp<B>(m: Machine, decode: string -> Option<Claims>,
                                     waiting: seq<Attempt<B>>, token: string, later: int)
    requires m.store.access == Some(token) && token != "" && !IsTokenExpired(decode(token), later)
    requires |waiting| >= 1 && waiting[0].phase == AwaitingRetryToken(false)
    requires waiting[0].config.retry && waiting[0].sends <= 1
    requires forall k :: 1 <= k < |waiting| ==> waiting[k].phase == AwaitingRetryToken(true)
    ensures var (m', settled) := SettleWaiters(m, decode, waiting, Success(token), later);
      && m' == m && |settled| == |waiting|
      && settled[0].phase == OnWire && settled[0].sends == waiting[0].sends + 1
      && HasBearer(settled[0].config, token)
      && forall k :: 1 <= k < |settled| ==> settled[k] == waiting[k].(phase := Done(Failure(Unauthorized)))
  {
    var (m0, s0) := Step(m, decode, waiting[0], TokenSettled(Success(token), later));
    assert m0 == m && s0.phase == OnWire && HasBearer(s0.config, token);
    RetryJoinersGiveUp(m0, decode, waiting[1..], token, later);
    var (m', settled) := SettleWaiters(m, decode, waiting, Success(token), later);
    assert settled[1..] == SettleWaiters(m0, decode, waiting[1..], Success(token), later).1;
  }

  /** How the retry cycle of the race of concurrent 401s ends, as written,
      from the state `m1` and the waiting requests the 401s left: the
      exchange succeeds with the token it brought, the first request is back
      on the wire for its second send with that token as bearer, and every
      other request is rejected with its own 401 after its one send. */
  ghost predicate RetryCycleAsWritten<B>(m1: Machine, decode: string -> Option<Claims>,
                                         waiting: seq<Attempt<B>>, reply: ExchangeReply, later: int)
    requires m1.slot.Pending? && RefreshSucceeds(reply)
  {
    var (m2, outcome) := SettleRefresh(m1, reply);
    && outcome == Success(reply.data.value.accessToken.value)
    && var (m3, settled) := SettleWaiters(m2, decode, waiting, outcome, later);
    && m3.exchanges == m1.exchanges && |settled| == |waiting| && |settled| >= 1
    && settled[0].phase == OnWire && settled[0].sends == 2 && HasBearer(settled[0].config, outcome.value)
    && forall k :: 1 <= k < |settled| ==> settled[k].phase == Done(Failure(Unauthorized)) && settled[k].sends == 1
  }

  /** The retry cycle of that race once the exchange succeeds: the refresh
      stores the new tokens, the caller that sent it is sent again with the
      new bearer, and every caller that joined is rejected with its own 401. */
  lemma RefreshSettlesRetryCycle<B>(m1: Machine, decode: string -> Option<Claims>,
                                    waiting: seq<Attempt<B>>, reply: ExchangeReply, later: int)
    requires m1.slot.Pending? && RefreshSucceeds(reply)
    requires !IsTokenExpired(decode(reply.data.value.accessToken.value), later)
    requires |waiting| >= 1 && waiting[0].phase == AwaitingRetryToken(false)
    requires waiting[0].config.retry && waiting[0].sends == 1
    requires forall k :: 1 <= k < |waiting| ==> waiting[k].phase == AwaitingRetryToken(true) && waiting[k].sends == 1
    ensures RetryCycleAsWritten(m1, decode, waiting, reply, later)
  {
    var (m2, outcome) := SettleRefresh(m1, reply);
    PosterRetriesOthersGiveUp(m2, decode, waiting, outcome.value, later);
  }

  /** Concurrent requests that all come back 401. The first sends the one
      exchange and the others join it. The exchange's own request goes out,
      provided the stored access token is missing or still valid. Once the
      exchange succeeds with a token that is valid at `later`, the first
      request is sent again with the new bearer. Every other request gets
      `null` from its refresh and is rejected with its own 401. */
  lemma ConcurrentUnauthorizedCallers<B>(m: Machine, decode: string -> Option<Claims>,
                                         attempts: seq<Attempt<B>>, exchange: Config<B>, now: int,
                                         reply: ExchangeReply, later: int)
    requires m.slot.Idle? && Truthy(m.store.refresh)
    requires !Truthy(m.store.access) || !IsTokenExpired(decode(m.store.access.value), now)
    requires |attempts| >= 1
    requires forall k :: 0 <= k < |attempts| ==>
      attempts[k].phase == OnWire && !attempts[k].config.retry && attempts[k].sends == 1
    requires RefreshSucceeds(reply)
    requires !IsTokenExpired(decode(reply.data.value.accessToken.value), later)
    ensures var (m1, waiting) := StepAll(m, decode, attempts, Replied(Err(Unauthorized)));
      && m1.exchanges == m.exchanges + 1 && m1.slot == Pending(|attempts|)
      && RequestInterceptor(m1, decode, exchange, now).0 == m1
      && RequestInterceptor(m1, decode, exchange, now).1.Proceed?
      && RetryCycleAsWritten(m1, decode, waiting, reply, later)
  {
    FirstUnauthorizedSendsOthersJoin(m, decode, attempts);
    var (m1, waiting) := StepAll(m, decode, attempts, Replied(Err(Unauthorized)));
    assert m1.store == m.store;
    RefreshSettlesRetryCycle(m1, decode, waiting, reply, later);
  }

  /** The refresh `POST` passes through the same interceptors while its own
      refresh is pending. Its pre-flight joins that refresh exactly when the
      stored access token is truthy and expired, and a 401 answer to it
      joins that refresh as well: either way the exchange waits on the
      refresh it belongs to, which then never settles. */
  lemma RefreshExchangeWaitsOnItself<B>(m: Machine, decode: string -> Option<Claims>,
                                        exchange: Config<B>, now: int)
    requires m.slot.Pending? && !exchange.retry
    ensures var (m1, p) := RequestInterceptor(m, decode, exchange, now);
      && (p.AwaitToken? <==> Truthy(m.store.access) && IsTokenExpired(decode(m.store.access.value), now))
      && (p.AwaitToken? ==> p.joined && m1.exchanges == m.exchanges)
    ensures ResponseInterceptor(m, exchange, Err(Unauthorized)).1 == AwaitRetry(exchange.(retry := true), true)
  {
  }

  /** Concurrent callers with an expired stored token: the first sends the
      one exchange and waits for it, and the others join it. The exchange's
      own request, reaching the request interceptor at any later time, joins
      it too, so none of these callers is ever sent. */
  lemma ConcurrentExpiredCallers<B>(m: Machine, decode: string -> Option<Claims>,
                                    attempts: seq<Attempt<B>>, exchange: Config<B>, now: int, later: int)
    requires m.slot.Idle? && Truthy(m.store.access) && Truthy(m.store.refresh)
    requires IsTokenExpired(decode(m.store.access.value), now) && now <= later
    requires |attempts| >= 1
    requires forall k :: 0 <= k < |attempts| ==> attempts[k].phase == Fresh && attempts[k].sends == 0
    ensures var (m1, waiting) := StepAll(m, decode, attempts, Dispatch(now));
      && m1.exchanges == m.exchanges + 1 && m1.slot == Pending(|attempts|) && |waiting| == |attempts|
      && waiting[0] == attempts[0].(phase := AwaitingToken(false))
      && (forall k :: 1 <= k < |waiting| ==> waiting[k] == attempts[k].(phase := AwaitingToken(true)))
      && RequestInterceptor(m1, decode, exchange, later).1 == AwaitToken(exchange, true)
  {
    var (m0, a0) := Step(m, decode, attempts[0], Dispatch(now));
    DispatchWhilePending(m0, decode, attempts[1..], now);
    var (m1, waiting) := StepAll(m, decode, attempts, Dispatch(now));
    assert waiting[1..] == StepAll(m0, decode, attempts[1..], Dispatch(now)).1;
    ExpiryIsMonotonic(decode(m.store.access.value), now, later);
  }

  /** `request` resolves with the body the server sends and rejects with the
      mapped error: a request that goes out without a refresh ends with
      `response.data` on a 2xx reply, with "Resource not found" on a 404,
      with "Internal server error" on a 500, and with the error itself on
      any other error but a first 401. */
  lemma RequestResolvesWithReply<B>(m: Machine, decode: string -> Option<Claims>, cfg: Config<B>,
                                    now: int, reply: Reply)
    requires !Truthy(m.store.access) || !IsTokenExpired(decode(m.store.access.value), now)
    ensures var (m', a) := Run(m, decode, NewAttempt(cfg), [Dispatch(now), Replied(reply)]);
      && (reply.Ok? ==> m' == m && a.phase == Done(Success(reply.data)) && a.sends == 1)
      && (reply.Err? && (reply.error != Unauthorized || cfg.retry) ==>
            m' == m && a.phase == Done(Failure(MapError(reply.error))) && a.sends == 1)
      && (reply == Err(HttpError(Some(404))) ==> a.phase == Done(Failure(PlainError(NotFoundMessage))))
      && (reply == Err(HttpError(Some(500))) ==> a.phase == Done(Failure(PlainError(ServerErrorMessage))))
  {
    var evs := [Dispatch(now), Replied(reply)];
    assert evs[1..] == [Replied(reply)] && evs[1..][1..] == [];
  }

  // ------------------------------------------------------------- facade

  /** `get(url, config)`. */
  function GetConfig<B>(url: string, config: Option<Config<B>>): (c: Config<B>)
    ensures c.httpMethod == Some(GET) && c.url == Some(url)
    ensures var base := config.GetOr(EmptyConfig());
      c.data == base.data && c.headers == base.headers && c.retry == base.retry
  {
    config.GetOr(EmptyConfig()).(httpMethod := Some(GET), url := Some(url))
  }

  /** `post(url, data, config)`: `data` replaces any body in `config`. */
  function PostConfig<B>(url: string, data: Option<B>, config: Option<Config<B>>): (c: Config<B>)
    ensures c.httpMethod == Some(POST) && c.url == Some(url) && c.data == data
    ensures var base := config.GetOr(EmptyConfig()); c.headers == base.headers && c.retry == base.retry
  {
    config.GetOr(EmptyConfig()).(httpMethod := Some(POST), url := Some(url), data := data)
  }

  /** `put(url, data, config)`. */
  function PutConfig<B>(url: string, data: Option<B>, config: Option<Config<B>>): (c: Config<B>)
    ensures c.httpMethod == Some(PUT) && c.url == Some(url) && c.data == data
    ensures var base := config.GetOr(EmptyConfig()); c.headers == base.headers && c.retry == base.retry
  {
    config.GetOr(EmptyConfig()).(httpMethod := Some(PUT), url := Some(url), data := data)
  }

  /** `delete(url, config)`. */
  function DeleteConfig<B>(url: string, config: Option<Config<B>>): (c: Config<B>)
    ensures c.httpMethod == Some(DELETE) && c.url == Some(url)
    ensures var base := config.GetOr(EmptyConfig());
      c.data == base.data && c.headers == base.headers && c.retry == base.retry
  {
    config.GetOr(EmptyConfig()).(httpMethod := Some(DELETE), url := Some(url))
  }

  /** `postFormData(url, formData, config)`: a `post` of the form whose
      headers are the caller's with `Content-Type` set to multipart. */
  function PostFormDataConfig<B>(url: string, formData: B, config: Option<Config<B>>): (c: Config<B>)
    ensures c.headers == config.GetOr(EmptyConfig()).headers[ContentTypeHeader := MultipartContentType]
    ensures c == PostConfig(url, Some(formData), config).(headers := c.headers)
  {
    var base := config.GetOr(EmptyConfig());
    base.(headers := base.headers[ContentTypeHeader := MultipartContentType],
          httpMethod := Some(POST), url := Some(url), data := Some(formData))
  }

  /** A form upload is a POST of the form whose config declares a multipart
      body, which the instance's JSON default does not override; nothing
      else differs. */
  lemma FormUploadIsMultipartPost<B>(url: string, formData: B, config: Option<Config<B>>)
    ensures var c := PostFormDataConfig(url, formData, config);
      && c == PostConfig(url, Some(formData), config).(headers := c.headers)
      && WithDefaults(c).headers[ContentTypeHeader] == MultipartContentType
      && forall h :: h in config.GetOr(EmptyConfig()).headers && h != ContentTypeHeader ==>
           h in c.headers && c.headers[h] == config.GetOr(EmptyConfig()).headers[h]
  {
  }

  /** A form upload with no token stored goes out, once dispatched, without
      an Authorization header and without a refresh. */
  lemma FormUploadWithoutToken<B>(m: Machine, decode: string -> Option<Claims>,
                                  url: string, formData: B, now: int)
    requires !Truthy(m.store.access)
    ensures var a := NewAttempt(PostFormDataConfig(url, formData, None));
      var (m', a') := Step(m, decode, a, Dispatch(now));
      && m' == m && a'.phase == OnWire && a'.sends == 1
      && AuthorizationHeader !in a'.config.headers
      && a'.config.headers[ContentTypeHeader] == MultipartContentType
  {
  }
}
