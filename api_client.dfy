// The client's HTTP instance: a request interceptor that attaches the
// access token, and a response interceptor that, on a 401, refreshes the
// tokens once and replays the requests that failed meanwhile. The
// interceptor keeps two module-level variables, the isRefreshing flag and
// the failedQueue of waiting requests; every interceptor invocation, and
// the settling of the refresh call it starts, is one atomic step here.
// A waiting request is its request config; settling it is recorded as the
// outcome its promise receives.

module ApiClient {
  import opened Common
  import opened AuthStore
  import AuthService

  const AuthorizationHeader: string := "Authorization"
  const RefreshUrl: string := "/auth/refresh"
  const BaseUrl: string := "/api/v1"

  /** An axios request config: its url, its headers, and the _retry mark
      the response interceptor writes. */
  datatype Request = Request(url: string, headers: map<string, string>, retry: bool)

  /** An AxiosError: the response status, when there was a response, and
      the config of the request that failed. */
  datatype AxiosError = AxiosError(status: Option<int>, config: Request)

  /** `Bearer ${token}`; a JavaScript null prints as "null". */
  function Bearer(token: Option<string>): string
  {
    "Bearer " + (if token.Some? then token.value else "null")
  }

  /** The request config with one header set. */
  function WithHeader(config: Request, name: string, value: string): Request
  {
    config.(headers := config.headers[name := value])
  }

  // ---------------------------------------------------------------------
  // Request interceptor
  // ---------------------------------------------------------------------

  /** Attach `Authorization: Bearer <accessToken>` when the store's access
      token is truthy; leave the config as it is otherwise. */
  function AttachToken(config: Request, accessToken: Option<string>): (c: Request)
    ensures c.url == config.url && c.retry == config.retry
    ensures forall h :: h != AuthorizationHeader ==>
      (h in c.headers <==> h in config.headers) && (h in c.headers ==> c.headers[h] == config.headers[h])
    ensures Truthy(accessToken) ==>
      AuthorizationHeader in c.headers && c.headers[AuthorizationHeader] == "Bearer " + accessToken.value
    ensures !Truthy(accessToken) ==> c == config
  {
    if Truthy(accessToken) then WithHeader(config, AuthorizationHeader, Bearer(accessToken)) else config
  }

  /** The header the client attaches is the one the API's refresh and
      logout endpoints accept, and it gives back the same token. */
  lemma AttachedTokenParses(config: Request, accessToken: Option<string>)
    requires Truthy(accessToken)
    ensures AuthService.BearerToken(Some(AttachToken(config, accessToken).headers[AuthorizationHeader])) == accessToken
  {
    AuthService.BearerTokenRoundTrip(accessToken.value);
  }

  // ---------------------------------------------------------------------
  // processQueue
  // ---------------------------------------------------------------------

  /** What a waiting request's promise receives. */
  datatype Settlement =
    | Resolve(waiter: Request, token: Option<string>)
    | Reject(waiter: Request, error: AxiosError)

  /** failedQueue.forEach: reject every waiter when there is an error,
      otherwise resolve every waiter with the token. */
  function SettleAll(queue: seq<Request>, error: Option<AxiosError>, token: Option<string>): (out: seq<Settlement>)
    ensures |out| == |queue|
    ensures forall k :: 0 <= k < |out| ==> out[k].waiter == queue[k]
    ensures error.Some? ==> forall k :: 0 <= k < |out| ==> out[k] == Reject(queue[k], error.value)
    ensures error.None? ==> forall k :: 0 <= k < |out| ==> out[k] == Resolve(queue[k], token)
  {
    if queue == [] then []
    else
      var init := queue[..|queue| - 1];
      var w := queue[|queue| - 1];
      SettleAll(init, error, token) + [if error.Some? then Reject(w, error.value) else Resolve(w, token)]
  }

  /** A resolved waiter replays its request with the token it received; a
      rejected one fails with the refresh error and is not replayed. */
  function Replayed(s: Settlement): (r: Option<Request>)
    ensures r.Some? <==> s.Resolve?
    ensures r.Some? ==> r.value.url == s.waiter.url && AuthorizationHeader in r.value.headers
    ensures r.Some? ==> r.value.headers[AuthorizationHeader] == "Bearer " + TokenText(s.token)
  {
    match s
    case Resolve(w, token) => Some(WithHeader(w, AuthorizationHeader, "Bearer " + TokenText(token)))
    case Reject(_, _) => None
  }

  /** "Bearer " + token, with JavaScript's string conversion of null. */
  function TokenText(token: Option<string>): string
  {
    if token.Some? then token.value else "null"
  }

  // ---------------------------------------------------------------------
  // Response interceptor, as a transition of the interceptor's state
  // ---------------------------------------------------------------------

  /** isRefreshing, failedQueue, and the auth store they consult. */
  datatype ClientState = ClientState(isRefreshing: bool, failedQueue: seq<Request>, store: AuthState)

  /** What the interceptor does with the error it was handed. */
  datatype Reaction =
    | Rejected(error: AxiosError)
    | Waiting
    | Refreshing(call: Request, original: Request)
    | Retry(request: Request)

  datatype Transition = Transition(state: ClientState, reaction: Reaction, settled: seq<Settlement>)

  /** Only a 401 from any endpoint but the refresh endpoint is handled. */
  predicate Intercepted(err: AxiosError)
  {
    err.status == Some(401) && err.config.url != RefreshUrl
  }

  /** The refresh POST: the bare axios instance, so it passes through
      neither interceptor. */
  function RefreshCall(refreshToken: string): Request
  {
    Request(BaseUrl + RefreshUrl, map[AuthorizationHeader := "Bearer " + refreshToken], false)
  }

  /** The response interceptor's error handler, up to the refresh call. */
  function OnError(s: ClientState, err: AxiosError): (t: Transition)
    ensures t.settled == []
    ensures !Intercepted(err) ==> t.state == s && t.reaction == Rejected(err)
    ensures Intercepted(err) && s.isRefreshing ==>
      t.state == s.(failedQueue := s.failedQueue + [err.config]) && t.reaction == Waiting
    ensures Intercepted(err) && !s.isRefreshing ==> t.state.isRefreshing && t.state.failedQueue == s.failedQueue
    ensures Intercepted(err) && !s.isRefreshing && !Truthy(s.store.refreshToken) ==>
      t.state.store == SignedOut && t.reaction == Rejected(err)
    ensures Intercepted(err) && !s.isRefreshing && Truthy(s.store.refreshToken) ==>
      t.state.store == s.store &&
      t.reaction == Refreshing(RefreshCall(s.store.refreshToken.value), err.config.(retry := true))
  {
    if !Intercepted(err) then Transition(s, Rejected(err), [])
    else if s.isRefreshing then Transition(s.(failedQueue := s.failedQueue + [err.config]), Waiting, [])
    else
      var original := err.config.(retry := true);
      var s := s.(isRefreshing := true);
      if !Truthy(s.store.refreshToken) then Transition(s.(store := Logout(s.store)), Rejected(err), [])
      else Transition(s, Refreshing(RefreshCall(s.store.refreshToken.value), original), [])
  }

  /** The refresh call answered with new tokens: store them, settle every
      waiter with the new access token, clear the flag, replay the original
      request with the new token. */
  function OnRefreshSuccess(s: ClientState, original: Request, newAccess: string, newRefresh: string): (t: Transition)
    ensures !t.state.isRefreshing && t.state.failedQueue == []
    ensures t.state.store == SetTokens(s.store, Tokens(Some(newAccess), Some(newRefresh)))
    ensures t.settled == SettleAll(s.failedQueue, None, Some(newAccess))
    ensures t.reaction == Retry(WithHeader(original, AuthorizationHeader, "Bearer " + newAccess))
  {
    var store := SetTokens(s.store, Tokens(Some(newAccess), Some(newRefresh)));
    var retried := WithHeader(original, AuthorizationHeader, "Bearer " + newAccess);
    Transition(ClientState(false, [], store), Retry(retried), SettleAll(s.failedQueue, None, Some(newAccess)))
  }

  /** The refresh call failed: reject every waiter with its error, log out,
      clear the flag, and fail with the refresh error. */
  function OnRefreshFailure(s: ClientState, refreshError: AxiosError): (t: Transition)
    ensures !t.state.isRefreshing && t.state.failedQueue == [] && t.state.store == SignedOut
    ensures t.settled == SettleAll(s.failedQueue, Some(refreshError), None)
    ensures t.reaction == Rejected(refreshError)
  {
    Transition(ClientState(false, [], Logout(s.store)), Rejected(refreshError),
               SettleAll(s.failedQueue, Some(refreshError), None))
  }

  /** Requests wait only while a refresh is under way. */
  predicate QueueOnlyWhileRefreshing(s: ClientState)
  {
    !s.isRefreshing ==> s.failedQueue == []
  }

  lemma TransitionsKeepQueueInvariant(s: ClientState, err: AxiosError, original: Request,
                                      newAccess: string, newRefresh: string, refreshError: AxiosError)
    requires QueueOnlyWhileRefreshing(s)
    ensures QueueOnlyWhileRefreshing(OnError(s, err).state)
    ensures QueueOnlyWhileRefreshing(OnRefreshSuccess(s, original, newAccess, newRefresh).state)
    ensures QueueOnlyWhileRefreshing(OnRefreshFailure(s, refreshError).state)
  {
  }

  /** A 403 is not refreshed: it is rejected as it came, although the
      error helpers count it as unauthorized. */
  lemma ForbiddenNotIntercepted(s: ClientState, config: Request)
    ensures OnError(s, AxiosError(Some(403), config)) == Transition(s, Rejected(AxiosError(Some(403), config)), [])
  {
  }

  /** _retry is written but never read: a request that was already replayed
      and meets another 401 starts a second refresh. */
  lemma ReplayedRequestRefreshesAgain(s: ClientState, config: Request)
    requires !s.isRefreshing && Truthy(s.store.refreshToken) && config.url != RefreshUrl && config.retry
    ensures OnError(s, AxiosError(Some(401), config)).reaction.Refreshing?
  {
  }

  /** Several 401s handled one after another, with no refresh settling in
      between. */
  function OnErrors(s: ClientState, errs: seq<AxiosError>): ClientState
    decreases |errs|
  {
    if errs == [] then s else OnErrors(OnError(s, errs[0]).state, errs[1..])
  }

  /** The configs of the errors, in order. */
  function Configs(errs: seq<AxiosError>): (r: seq<Request>)
    ensures |r| == |errs| && forall k :: 0 <= k < |r| ==> r[k] == errs[k].config
  {
    if errs == [] then [] else [errs[0].config] + Configs(errs[1..])
  }

  /** Once isRefreshing is set, every further 401 only joins the queue. When
      the missing-refresh-token branch set it, no refresh call will ever
      clear it: the flag stays up and the waiters are never settled. */
  lemma {:induction false} StuckWhileRefreshing(s: ClientState, errs: seq<AxiosError>)
    requires s.isRefreshing
    requires forall k :: 0 <= k < |errs| ==> Intercepted(errs[k])
    ensures OnErrors(s, errs) == s.(failedQueue := s.failedQueue + Configs(errs))
    decreases |errs|
  {
    if errs != [] {
      var t := OnError(s, errs[0]).state;
      StuckWhileRefreshing(t, errs[1..]);
      assert s.failedQueue + [errs[0].config] + Configs(errs[1..]) == s.failedQueue + Configs(errs);
    }
  }

  /** The branch that leaves the flag up: a 401 with no refresh token. */
  lemma MissingRefreshTokenLeavesFlagUp(s: ClientState, err: AxiosError)
    requires !s.isRefreshing && Intercepted(err) && !Truthy(s.store.refreshToken)
    ensures var t := OnError(s, err);
      t.state.isRefreshing && t.reaction == Rejected(err) && t.settled == []
  {
  }

  // ---------------------------------------------------------------------
  // The missing-refresh-token branch, corrected
  // ---------------------------------------------------------------------

  /** The state the page starts in: no refresh under way, nobody waiting,
      nobody signed in. */
  const Initial: ClientState := ClientState(false, [], SignedOut)

  /** The error handler with the flag raised only when a refresh call is
      made: a 401 with no refresh token logs out and rejects, and leaves
      isRefreshing down. */
  function OnErrorCorrected(s: ClientState, err: AxiosError): (t: Transition)
    ensures t.settled == []
    ensures !Intercepted(err) ==> t.state == s && t.reaction == Rejected(err)
    ensures Intercepted(err) && s.isRefreshing ==>
      t.state == s.(failedQueue := s.failedQueue + [err.config]) && t.reaction == Waiting
    ensures Intercepted(err) && !s.isRefreshing && !Truthy(s.store.refreshToken) ==>
      t.state == s.(store := SignedOut) && t.reaction == Rejected(err)
    ensures Intercepted(err) && !s.isRefreshing && Truthy(s.store.refreshToken) ==>
      t.state == s.(isRefreshing := true) &&
      t.reaction == Refreshing(RefreshCall(s.store.refreshToken.value), err.config.(retry := true))
  {
    if Intercepted(err) && !s.isRefreshing && !Truthy(s.store.refreshToken) then
      Transition(s.(store := Logout(s.store)), Rejected(err), [])
    else OnError(s, err)
  }

  /** The flag tells the truth: it is up exactly while a refresh call, whose
      answer will settle the queue, is pending; and nobody waits otherwise. */
  predicate FlagHonest(s: ClientState, pending: bool)
  {
    s.isRefreshing == pending && QueueOnlyWhileRefreshing(s)
  }

  /** Every step of the corrected interceptor keeps the flag honest: a
      handled error makes a refresh pending only by starting one, and the
      refresh call's answer, either way, leaves none pending. */
  lemma CorrectedKeepsFlagHonest(s: ClientState, pending: bool, err: AxiosError, original: Request,
                                 newAccess: string, newRefresh: string, refreshError: AxiosError)
    requires FlagHonest(s, pending)
    ensures var t := OnErrorCorrected(s, err);
      FlagHonest(t.state, pending || t.reaction.Refreshing?) && (pending ==> !t.reaction.Refreshing?)
    ensures pending ==> FlagHonest(OnRefreshSuccess(s, original, newAccess, newRefresh).state, false)
    ensures pending ==> FlagHonest(OnRefreshFailure(s, refreshError).state, false)
  {
  }

  /** As written the handler breaks that: from an honest idle state, a 401
      with no refresh token raises the flag with no refresh pending. */
  lemma AsWrittenFlagDishonest(s: ClientState, err: AxiosError)
    requires FlagHonest(s, false) && Intercepted(err) && !Truthy(s.store.refreshToken)
    ensures var t := OnError(s, err);
      !t.reaction.Refreshing? && !FlagHonest(t.state, false)
  {
  }

  /** A sign-in with a wrong password is answered with a 401 while no
      refresh token is stored. As written that leaves the flag up: after a
      later successful sign-in, the first 401 of an expired access token
      waits for a refresh that is never made. */
  lemma FailedSignInBlocksRefresh(tokens: Tokens, user: UserService.UserProfile, config: Request)
    requires Truthy(tokens.refreshToken) && config.url != RefreshUrl
    ensures var signIn := Request("/auth/login", map[], false);
      var s1 := OnError(Initial, AxiosError(Some(401), signIn)).state;
      var s2 := s1.(store := Login(s1.store, tokens, user));
      OnError(s2, AxiosError(Some(401), config)).reaction == Waiting
  {
  }

  /** The same sequence with the corrected handler refreshes the tokens. */
  lemma CorrectedSignInRefreshes(tokens: Tokens, user: UserService.UserProfile, config: Request)
    requires Truthy(tokens.refreshToken) && config.url != RefreshUrl
    ensures var signIn := Request("/auth/login", map[], false);
      var s1 := OnErrorCorrected(Initial, AxiosError(Some(401), signIn)).state;
      var s2 := s1.(store := Login(s1.store, tokens, user));
      OnErrorCorrected(s2, AxiosError(Some(401), config)).reaction ==
        Refreshing(RefreshCall(tokens.refreshToken.value), config.(retry := true))
  {
  }

  // ---------------------------------------------------------------------
  // The interceptor's module-level variables
  // ---------------------------------------------------------------------

  class Interceptor {
    var isRefreshing: bool
    var failedQueue: seq<Request>
    const store: Store

    function State(): ClientState
      reads this, store
    {
      ClientState(isRefreshing, failedQueue, store.State())
    }

    constructor (store: Store)
      ensures this.store == store && !isRefreshing && failedQueue == []
    {
      this.store := store;
      isRefreshing := false;
      failedQueue := [];
    }

    /** processQueue(error, token): settle the waiters in order, then empty
        the queue. */
    method ProcessQueue(error: Option<AxiosError>, token: Option<string>) returns (settled: seq<Settlement>)
      modifies this`failedQueue
      ensures settled == SettleAll(old(failedQueue), error, token) && failedQueue == []
    {
      settled := [];
      var i := 0;
      while i < |failedQueue|
        invariant 0 <= i <= |failedQueue|
        invariant settled == SettleAll(failedQueue[..i], error, token)
      {
        var w := failedQueue[i];
        assert failedQueue[..i + 1][..i] == failedQueue[..i];
        settled := settled + [if error.Some? then Reject(w, error.value) else Resolve(w, token)];
        i := i + 1;
      }
      assert failedQueue[..i] == failedQueue;
      failedQueue := [];
    }

    /** The response interceptor's error handler, up to the refresh call,
        as written: the flag goes up before the refresh token is looked at. */
    method HandleError(err: AxiosError) returns (r: Reaction)
      modifies this, store
      ensures Transition(State(), r, []) == OnError(old(State()), err)
    {
      if err.status != Some(401) || err.config.url == RefreshUrl {
        return Rejected(err);
      }
      if isRefreshing {
        failedQueue := failedQueue + [err.config];
        return Waiting;
      }
      var original := err.config.(retry := true);
      isRefreshing := true;
      var refreshToken := store.refreshToken;
      if !Truthy(refreshToken) {
        store.DoLogout();
        return Rejected(err);
      }
      r := Refreshing(RefreshCall(refreshToken.value), original);
    }

    /** The try block after the refresh call answered, and the finally. */
    method RefreshSucceeded(original: Request, newAccess: string, newRefresh: string)
      returns (r: Reaction, settled: seq<Settlement>)
      modifies this, store
      ensures Transition(State(), r, settled) == OnRefreshSuccess(old(State()), original, newAccess, newRefresh)
    {
      store.DoSetTokens(Tokens(Some(newAccess), Some(newRefresh)));
      var retried := WithHeader(original, AuthorizationHeader, "Bearer " + newAccess);
      settled := ProcessQueue(None, Some(newAccess));
      isRefreshing := false;
      r := Retry(retried);
    }

    /** The catch block after the refresh call failed, and the finally. */
    method RefreshFailed(refreshError: AxiosError) returns (r: Reaction, settled: seq<Settlement>)
      modifies this, store
      ensures Transition(State(), r, settled) == OnRefreshFailure(old(State()), refreshError)
    {
      settled := ProcessQueue(Some(refreshError), None);
      store.DoLogout();
      isRefreshing := false;
      r := Rejected(refreshError);
    }
  }
}
