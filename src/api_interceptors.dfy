/** The JWT interceptor pair and its module-level refresh handle, as a
    sequential state machine. JavaScript runs each step below without an
    `await` between testing the handle and creating it, so steps never
    interleave inside one another; a request waiting on the handle is
    resumed when the refresh settles. */
module ApiInterceptors {
  import opened Common
  import opened JsText
  import opened TokenService

  /** The auth routes that never trigger a refresh, matched as substrings of
      the request URL. `/auth/register` is not among them. */
  const AuthRoutes: seq<string> := ["/auth/login", "/auth/refresh", "/auth/change-password"]

  /** `isAuthEndpoint`: the URL contains one of the auth routes; a missing
      URL does not. */
  predicate IsAuthEndpoint(url: Option<string>): (r: bool)
    ensures r <==> url.Some? && exists i, k :: 0 <= i < |AuthRoutes| && OccursAt(url.value, AuthRoutes[i], k)
  {
    if url.None? then false
    else
      IncludesIff(url.value, AuthRoutes[0]);
      IncludesIff(url.value, AuthRoutes[1]);
      IncludesIff(url.value, AuthRoutes[2]);
      Includes(url.value, AuthRoutes[0]) || Includes(url.value, AuthRoutes[1]) || Includes(url.value, AuthRoutes[2])
  }

  /** The `Authorization` value for a token. */
  function Bearer(token: string): (value: string)
  {
    "Bearer " + token
  }

  /** The parts of an axios request config the interceptors read and write:
      the URL, the `Authorization` header and the one-shot `_retry` flag
      (`undefined` reads as false). */
  datatype RequestConfig = RequestConfig(url: Option<string>, authorization: Option<string>, retry: bool)

  /** Where a request stands: on the wire (first attempt or resend), waiting
      for the shared refresh, answered, or rejected to its caller. */
  datatype Phase = Sent | AwaitingRefresh | Answered | Failed

  datatype TrackedRequest = TrackedRequest(config: RequestConfig, phase: Phase)

  /** An axios error: the response status if a response arrived, and the
      request (by id) whose config it carries, if any. */
  datatype HttpError = HttpError(status: Option<int>, config: Option<nat>)

  /** What the backend answers on `POST /auth/refresh`. */
  datatype Exchange = Issued(accessToken: string, refreshToken: string) | ExchangeFailed

  /** Which storage calls of one refresh fault. */
  datatype StoreFaults = StoreFaults(
    readRefresh: bool, saveAccess: bool, saveRefresh: bool, removeAccess: bool, removeRefresh: bool)

  /** The refresh path is entered for a 401 on a known, not yet retried,
      non-auth request. */
  predicate EntersRefreshPath(status: Option<int>, config: Option<RequestConfig>)
  {
    status == Some(401) && config.Some? && !IsAuthEndpoint(config.value.url) && !config.value.retry
  }

  /** What `refreshAccessToken` resolves to: the new access token when the
      stored refresh token is a non-empty string, the backend issues a pair
      and both saves succeed; `null` in every other case. */
  function RefreshResult(stored: Option<string>, backend: string -> Exchange, faults: StoreFaults): (r: Option<string>)
    ensures r.Some? ==> TruthyText(stored) && backend(stored.value).Issued? && r.value == backend(stored.value).accessToken
    ensures r.Some? <==> TruthyText(stored) && backend(stored.value).Issued? && !faults.saveAccess && !faults.saveRefresh
  {
    if !TruthyText(stored) then None
    else match backend(stored.value)
      case ExchangeFailed => None
      case Issued(a, _) => if faults.saveAccess || faults.saveRefresh then None else Some(a)
  }

  /** How the settled refresh resumes one request: a waiter with a truthy
      token is resent carrying `Bearer <token>`; a waiter without one is
      rejected with its original error; other requests are untouched. */
  function Resume(r: TrackedRequest, token: Option<string>): (q: TrackedRequest)
    ensures q.config.url == r.config.url && q.config.retry == r.config.retry
    ensures r.phase != AwaitingRefresh ==> q == r
    ensures r.phase == AwaitingRefresh && TruthyText(token) ==>
              q.phase == Sent && q.config.authorization == Some(Bearer(token.value))
    ensures r.phase == AwaitingRefresh && !TruthyText(token) ==> q == r.(phase := Failed)
  {
    if r.phase != AwaitingRefresh then r
    else if TruthyText(token) then TrackedRequest(r.config.(authorization := Some(Bearer(token.value))), Sent)
    else r.(phase := Failed)
  }

  /** The interceptors' shared state: the token store, the module-level
      `refreshTokenPromise` (present or `null`) and the requests in flight.
      Ghost counters record how many refreshes were started and settled and
      how often each request entered the refresh path. */
  class AuthSession {
    const store: TokenStore
    var refreshInFlight: bool
    var requests: map<nat, TrackedRequest>
    ghost var refreshesStarted: nat
    ghost var refreshesSettled: nat
    ghost var refreshEntries: map<nat, nat>

    /** At most one refresh is outstanding; every request entered the refresh
        path at most once, and exactly when its `_retry` flag is set; every
        waiter waits on the handle that exists. */
    ghost predicate Valid()
      reads this
    {
      && refreshesStarted == refreshesSettled + (if refreshInFlight then 1 else 0)
      && (forall id :: id in requests ==>
            id in refreshEntries && refreshEntries[id] <= 1
            && (refreshEntries[id] == 1 <==> requests[id].config.retry))
      && (forall id :: id in requests && requests[id].phase == AwaitingRefresh ==>
            refreshInFlight && requests[id].config.retry)
    }

    constructor (store: TokenStore)
      ensures Valid() && this.store == store
      ensures !refreshInFlight && requests == map[]
      ensures refreshesStarted == 0 && refreshesSettled == 0
    {
      this.store := store;
      refreshInFlight := false;
      requests := map[];
      refreshesStarted, refreshesSettled := 0, 0;
      refreshEntries := map[];
    }

    /** `authInterceptor`: reads the access token (a storage fault reads as
        `null`, so it never throws) and returns the config, with
        `Authorization: Bearer <token>` set exactly when the token is a
        non-empty string. */
    method AuthInterceptor(config: RequestConfig, readFault: bool) returns (out: RequestConfig)
      ensures var t := if readFault then None else Lookup(store.slots, StorageKey(Access));
              out == if TruthyText(t) then config.(authorization := Some(Bearer(t.value))) else config
    {
      var token := store.Get(Access, readFault);
      if token.Some? && token.value != "" {
        out := config.(authorization := Some(Bearer(token.value)));
      } else {
        out := config;
      }
    }

    /** The application sends a new request through the API instance: its
        config passes `authInterceptor` and goes on the wire. */
    method Issue(id: nat, url: Option<string>, readFault: bool)
      requires Valid() && id !in requests
      modifies this
      ensures Valid()
      ensures var t := if readFault then None else Lookup(store.slots, StorageKey(Access));
              var auth := if TruthyText(t) then Some(Bearer(t.value)) else None;
              requests == old(requests)[id := TrackedRequest(RequestConfig(url, auth, false), Sent)]
      ensures refreshInFlight == old(refreshInFlight)
      ensures refreshesStarted == old(refreshesStarted) && refreshesSettled == old(refreshesSettled)
    {
      var config := AuthInterceptor(RequestConfig(url, None, false), readFault);
      requests := requests[id := TrackedRequest(config, Sent)];
      refreshEntries := refreshEntries[id := 0];
    }

    /** A request on the wire gets a successful response. */
    method Answer(id: nat)
      requires Valid() && id in requests && requests[id].phase == Sent
      modifies this
      ensures Valid()
      ensures requests == old(requests)[id := old(requests)[id].(phase := Answered)]
      ensures refreshInFlight == old(refreshInFlight)
      ensures refreshesStarted == old(refreshesStarted) && refreshesSettled == old(refreshesSettled)
    {
      requests := requests[id := requests[id].(phase := Answered)];
    }

    /** `errorInterceptor`. Outside the refresh path the error is rejected
        unchanged and nothing else changes. On it, `_retry` is set before any
        outcome is known; a refresh is started only if no handle exists,
        otherwise the request waits on the existing one. */
    method ErrorInterceptor(err: HttpError) returns (entered: bool)
      requires Valid()
      requires err.config.Some? ==> err.config.value in requests && requests[err.config.value].phase == Sent
      modifies this
      ensures Valid()
      ensures var config := if err.config.Some? then Some(old(requests)[err.config.value].config) else None;
              entered == EntersRefreshPath(err.status, config)
      ensures entered ==>
                var id := err.config.value;
                && requests == old(requests)[id := TrackedRequest(old(requests)[id].config.(retry := true), AwaitingRefresh)]
                && refreshInFlight
                && refreshesStarted == old(refreshesStarted) + (if old(refreshInFlight) then 0 else 1)
      ensures !entered ==>
                && requests == (if err.config.Some? then old(requests)[err.config.value := old(requests)[err.config.value].(phase := Failed)]
                                else old(requests))
                && refreshInFlight == old(refreshInFlight)
                && refreshesStarted == old(refreshesStarted)
      ensures refreshesSettled == old(refreshesSettled)
    {
      var config := if err.config.Some? then Some(requests[err.config.value].config) else None;
      var isUnauthorized := err.status == Some(401);
      var isAuthEndpoint := config.Some? && config.value.url.Some? &&
        (Includes(config.value.url.value, "/auth/login") || Includes(config.value.url.value, "/auth/refresh")
         || Includes(config.value.url.value, "/auth/change-password"));
      if isUnauthorized && !isAuthEndpoint && config.Some? && !config.value.retry {
        var id := err.config.value;
        requests := requests[id := TrackedRequest(config.value.(retry := true), AwaitingRefresh)];
        refreshEntries := refreshEntries[id := refreshEntries[id] + 1];
        if !refreshInFlight {
          refreshInFlight := true;
          refreshesStarted := refreshesStarted + 1;
        }
        entered := true;
      } else {
        if err.config.Some? {
          var id := err.config.value;
          requests := requests[id := requests[id].(phase := Failed)];
        }
        entered := false;
      }
    }

    /** `refreshAccessToken`: exchanges the stored refresh token for a new
        pair and stores it, resolving to the new access token; on a missing
        or empty refresh token, a failed exchange or a failed save it removes
        both tokens and resolves to `null` (a removal that faults rejects the
        promise, which every waiter also reads as no token). */
    method RefreshAccessToken(backend: string -> Exchange, faults: StoreFaults) returns (token: Option<string>)
      modifies store
      ensures var stored := if faults.readRefresh then None else Lookup(old(store.slots), StorageKey(Refresh));
              token == RefreshResult(stored, backend, faults)
      ensures token.Some? ==>
                var stored := Lookup(old(store.slots), StorageKey(Refresh)).value;
                && Lookup(store.slots, StorageKey(Access)) == Some(token.value)
                && Lookup(store.slots, StorageKey(Refresh)) == Some(backend(stored).refreshToken)
      ensures token.None? ==>
                && (!faults.removeAccess ==> Lookup(store.slots, StorageKey(Access)) == None)
                && (!faults.removeRefresh ==> Lookup(store.slots, StorageKey(Refresh)) == None)
      ensures forall k :: k != StorageKey(Access) && k != StorageKey(Refresh) ==>
                Lookup(store.slots, k) == Lookup(old(store.slots), k)
    {
      var refreshToken := store.Get(Refresh, faults.readRefresh);
      if !(refreshToken.Some? && refreshToken.value != "") {
        var _ := store.RemoveTokens(faults.removeAccess, faults.removeRefresh);
        return None;
      }
      match backend(refreshToken.value)
      case ExchangeFailed =>
        var _ := store.RemoveTokens(faults.removeAccess, faults.removeRefresh);
        token := None;
      case Issued(accessToken, newRefreshToken) =>
        var saved := store.SaveTokens(accessToken, newRefreshToken, faults.saveAccess, faults.saveRefresh);
        if saved.Rejected? {
          var _ := store.RemoveTokens(faults.removeAccess, faults.removeRefresh);
          token := None;
        } else {
          token := Some(accessToken);
        }
    }

    /** The shared refresh settles: the handle is cleared (on success and on
        failure alike) and every waiter is resumed with the one outcome. */
    method RefreshSettles(backend: string -> Exchange, faults: StoreFaults) returns (token: Option<string>)
      requires Valid() && refreshInFlight
      modifies this, store
      ensures Valid()
      ensures !refreshInFlight
      ensures refreshesSettled == old(refreshesSettled) + 1 && refreshesStarted == old(refreshesStarted)
      ensures var stored := if faults.readRefresh then None else Lookup(old(store.slots), StorageKey(Refresh));
              token == RefreshResult(stored, backend, faults)
      ensures token.Some? ==>
                var stored := Lookup(old(store.slots), StorageKey(Refresh)).value;
                && Lookup(store.slots, StorageKey(Access)) == Some(token.value)
                && Lookup(store.slots, StorageKey(Refresh)) == Some(backend(stored).refreshToken)
      ensures token.None? ==>
                && (!faults.removeAccess ==> Lookup(store.slots, StorageKey(Access)) == None)
                && (!faults.removeRefresh ==> Lookup(store.slots, StorageKey(Refresh)) == None)
      ensures requests.Keys == old(requests).Keys
      ensures forall id :: id in requests ==> requests[id] == Resume(old(requests)[id], token)
      ensures forall id :: id in requests ==> requests[id].phase != AwaitingRefresh
    {
      token := RefreshAccessToken(backend, faults);
      refreshInFlight := false;
      refreshesSettled := refreshesSettled + 1;
      requests := map id | id in requests :: Resume(requests[id], token);
    }
  }

  /** Auth routes are matched as substrings: any URL that contains one, at
      any position, is treated as an auth endpoint. */
  lemma AuthRouteMatchedAnywhere(pre: string, i: nat, post: string)
    requires i < |AuthRoutes|
    ensures IsAuthEndpoint(Some(pre + AuthRoutes[i] + post))
  {
    IncludesAt(pre, AuthRoutes[i], post);
  }

  /** `/auth/register` (where `createUser` posts) is not an auth endpoint, so a
      401 on it enters the refresh path. */
  lemma RegisterIsNotAuthEndpoint(url: string, authorization: Option<string>)
    requires url == "/auth/register"
    ensures !IsAuthEndpoint(Some(url))
    ensures EntersRefreshPath(Some(401), Some(RequestConfig(Some(url), authorization, false)))
  {
    assert 'l' !in url && 'f' !in url && 'c' !in url;
    IncludesNeedsChar(url, AuthRoutes[0], 'l');
    IncludesNeedsChar(url, AuthRoutes[1], 'f');
    IncludesNeedsChar(url, AuthRoutes[2], 'c');
  }

  const NoFaults: StoreFaults := StoreFaults(false, false, false, false, false)

  /** Two requests to a non-auth URL both get a 401: one refresh starts, the
      back end issues a new pair for the stored refresh token, and both
      requests are resent carrying the new access token, which the store now
      holds with the new refresh token. */
  method ConcurrentUnauthorizedShareOneRefresh(url: string, stored: string, backend: string -> Exchange)
    returns (r1: TrackedRequest, r2: TrackedRequest, access: Option<string>, refresh: Option<string>,
             ghost refreshes: nat)
    requires !IsAuthEndpoint(Some(url)) && stored != ""
    requires backend(stored).Issued? && backend(stored).accessToken != ""
    ensures r1.phase == Sent && r1.config.authorization == Some(Bearer(backend(stored).accessToken)) && r1.config.retry
    ensures r2.phase == Sent && r2.config.authorization == Some(Bearer(backend(stored).accessToken)) && r2.config.retry
    ensures access == Some(backend(stored).accessToken) && refresh == Some(backend(stored).refreshToken)
    ensures refreshes == 1
  {
    var store := new TokenStore(map[StorageKey(Refresh) := stored]);
    var session := new AuthSession(store);
    session.Issue(1, Some(url), false);
    session.Issue(2, Some(url), false);
    var e1 := session.ErrorInterceptor(HttpError(Some(401), Some(1)));
    assert session.refreshInFlight;
    var e2 := session.ErrorInterceptor(HttpError(Some(401), Some(2)));
    assert session.requests[1].phase == AwaitingRefresh && session.requests[2].phase == AwaitingRefresh;
    var token := session.RefreshSettles(backend, NoFaults);
    r1, r2 := session.requests[1], session.requests[2];
    access := store.Get(Access, false);
    refresh := store.Get(Refresh, false);
    refreshes := session.refreshesStarted;
  }

  /** The refresh call fails: both tokens are gone and the waiting request is
      rejected with its original error. */
  method FailedRefreshLogsOut(url: string, initial: map<string, string>)
    returns (r1: TrackedRequest, access: Option<string>, refresh: Option<string>)
    requires !IsAuthEndpoint(Some(url))
    ensures r1.phase == Failed && r1.config.retry
    ensures access == None && refresh == None
  {
    var store := new TokenStore(initial);
    var session := new AuthSession(store);
    session.Issue(1, Some(url), false);
    var e1 := session.ErrorInterceptor(HttpError(Some(401), Some(1)));
    var token := session.RefreshSettles((rt: string) => ExchangeFailed, NoFaults);
    r1 := session.requests[1];
    access := store.Get(Access, false);
    refresh := store.Get(Refresh, false);
  }

  /** A 401 from a URL containing an auth route is rejected at once and
      starts no refresh. */
  method AuthRouteUnauthorizedNeverRefreshes(pre: string, i: nat, post: string, initial: map<string, string>)
    returns (entered: bool, r1: TrackedRequest, ghost refreshes: nat)
    requires i < |AuthRoutes|
    ensures !entered && r1.phase == Failed && !r1.config.retry
    ensures refreshes == 0
  {
    var store := new TokenStore(initial);
    var session := new AuthSession(store);
    AuthRouteMatchedAnywhere(pre, i, post);
    session.Issue(1, Some(pre + AuthRoutes[i] + post), false);
    entered := session.ErrorInterceptor(HttpError(Some(401), Some(1)));
    r1 := session.requests[1];
    refreshes := session.refreshesStarted;
  }

  /** A request that was already retried and gets a second 401 is rejected;
      no second refresh starts. */
  method SecondUnauthorizedIsRejected(url: string, stored: string, backend: string -> Exchange)
    returns (second: bool, r1: TrackedRequest, ghost refreshes: nat)
    requires !IsAuthEndpoint(Some(url)) && stored != ""
    requires backend(stored).Issued? && backend(stored).accessToken != ""
    ensures !second && r1.phase == Failed && r1.config.retry
    ensures r1.config.authorization == Some(Bearer(backend(stored).accessToken))
    ensures refreshes == 1
  {
    var store := new TokenStore(map[StorageKey(Refresh) := stored]);
    var session := new AuthSession(store);
    session.Issue(1, Some(url), false);
    var first := session.ErrorInterceptor(HttpError(Some(401), Some(1)));
    var token := session.RefreshSettles(backend, NoFaults);
    assert session.requests[1].phase == Sent && session.requests[1].config.retry;
    second := session.ErrorInterceptor(HttpError(Some(401), Some(1)));
    r1 := session.requests[1];
    refreshes := session.refreshesStarted;
  }
}
