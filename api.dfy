/** The authenticated API client: the token store under two fixed
    localStorage keys, the request interceptor that attaches the bearer
    header, and the response interceptor that coordinates a single token
    refresh for every request that fails with 401 while it is in flight.

    JavaScript runs each handler to completion between `await`s, so the
    response interceptor is modelled as a sequential state machine whose
    events are: a response error arrives, the refresh POST succeeds, the
    refresh POST fails. */
module Api {
  import opened Wrappers
  import opened Types
  import opened Http
  import Platform

  const ACCESS_KEY: string := "catalogai_access_token"
  const REFRESH_KEY: string := "catalogai_refresh_token"
  const LOGIN_PATH: string := "/login"
  const TOKEN_TYPE: string := "Bearer"
  const EXPIRES_IN: int := 900

  // ------------------------------------------------------------------
  // Token store
  // ------------------------------------------------------------------

  /** The storage map after `setTokens`: both keys hold the new pair and
      every other key is untouched. */
  function StoreTokens(m: map<string, string>, t: AuthTokens): (r: map<string, string>)
    ensures ACCESS_KEY in r && r[ACCESS_KEY] == t.accessToken
    ensures REFRESH_KEY in r && r[REFRESH_KEY] == t.refreshToken
    ensures forall k :: k != ACCESS_KEY && k != REFRESH_KEY ==> (k in r <==> k in m)
    ensures forall k :: k in m && k != ACCESS_KEY && k != REFRESH_KEY ==> r[k] == m[k]
  {
    m[ACCESS_KEY := t.accessToken][REFRESH_KEY := t.refreshToken]
  }

  /** The storage map after `clearTokens`: both keys gone, every other key
      untouched. */
  function RemoveTokens(m: map<string, string>): (r: map<string, string>)
    ensures ACCESS_KEY !in r && REFRESH_KEY !in r
    ensures forall k :: k != ACCESS_KEY && k != REFRESH_KEY ==> (k in r <==> k in m)
    ensures forall k :: k in r ==> r[k] == m[k]
  {
    m - {ACCESS_KEY, REFRESH_KEY}
  }

  /** `getAccessToken()`: null without a window, else the stored value. */
  function GetAccessToken(b: Platform.Browser): (t: Option<string>)
    reads b
    ensures t.Some? <==> b.hasWindow && ACCESS_KEY in b.localStorage
    ensures t.Some? ==> t.value == b.localStorage[ACCESS_KEY]
  {
    if !b.hasWindow then None else b.GetItem(ACCESS_KEY)
  }

  /** `getRefreshToken()`: null without a window, else the stored value. */
  function GetRefreshToken(b: Platform.Browser): (t: Option<string>)
    reads b
    ensures t.Some? <==> b.hasWindow && REFRESH_KEY in b.localStorage
    ensures t.Some? ==> t.value == b.localStorage[REFRESH_KEY]
  {
    if !b.hasWindow then None else b.GetItem(REFRESH_KEY)
  }

  /** `setTokens(tokens)`: writes both keys; a no-op without a window. */
  method SetTokens(b: Platform.Browser, t: AuthTokens)
    modifies b
    ensures b.localStorage == if b.hasWindow then StoreTokens(old(b.localStorage), t) else old(b.localStorage)
    ensures b.navigations == old(b.navigations)
  {
    if !b.hasWindow {
      return;
    }
    b.localStorage := b.localStorage[ACCESS_KEY := t.accessToken];
    b.localStorage := b.localStorage[REFRESH_KEY := t.refreshToken];
  }

  /** `clearTokens()`: removes both keys; a no-op without a window. */
  method ClearTokens(b: Platform.Browser)
    modifies b
    ensures b.localStorage == if b.hasWindow then RemoveTokens(old(b.localStorage)) else old(b.localStorage)
    ensures b.navigations == old(b.navigations)
  {
    if !b.hasWindow {
      return;
    }
    b.localStorage := b.localStorage - {ACCESS_KEY};
    b.localStorage := b.localStorage - {REFRESH_KEY};
  }

  /** Writing a pair and reading it back, then clearing it and reading
      again, with and without a window. */
  method TokenStoreRoundTrip(hasWindow: bool, storage: map<string, string>, t: AuthTokens)
    returns (access: Option<string>, refresh: Option<string>,
             accessAfterClear: Option<string>, refreshAfterClear: Option<string>)
    ensures hasWindow ==> access == Some(t.accessToken) && refresh == Some(t.refreshToken)
    ensures !hasWindow ==> access == None && refresh == None
    ensures accessAfterClear == None && refreshAfterClear == None
  {
    var b := new Platform.Browser(hasWindow, storage);
    SetTokens(b, t);
    access, refresh := GetAccessToken(b), GetRefreshToken(b);
    ClearTokens(b);
    accessAfterClear, refreshAfterClear := GetAccessToken(b), GetRefreshToken(b);
  }

  // ------------------------------------------------------------------
  // Request interceptor
  // ------------------------------------------------------------------

  /** The request interceptor: the config gets `Authorization: Bearer <token>`
      exactly when a non-empty access token is stored; otherwise it is
      returned unchanged. */
  function AuthorizeRequest(b: Platform.Browser, config: Request): (r: Request)
    reads b
    ensures (b.hasWindow && ACCESS_KEY in b.localStorage && b.localStorage[ACCESS_KEY] != []) ==>
              r.url == config.url && r.retry == config.retry &&
              r.headers == config.headers[AUTHORIZATION := Bearer(b.localStorage[ACCESS_KEY])]
    ensures !(b.hasWindow && ACCESS_KEY in b.localStorage && b.localStorage[ACCESS_KEY] != []) ==>
              r == config
  {
    AttachBearer(GetAccessToken(b), config)
  }

  // ------------------------------------------------------------------
  // Response interceptor: the refresh queue
  // ------------------------------------------------------------------

  /** How `processQueue` settles every waiting caller: resolve with the new
      access token, or reject with the refresh error. */
  datatype Settlement = Resolve(token: string) | Reject(reason: AxiosError)

  /** What the `.then`/`.catch` chained on a queued promise does with one
      settlement: resolved, the caller's own request gets the bearer and is
      dispatched again (without being marked `_retry`); rejected, the caller
      fails with the same reason. */
  function Continue(req: Request, s: Settlement): Outcome
  {
    match s
    case Resolve(t) => Resent(SetBearer(req, t))
    case Reject(e) => Rejected(e)
  }

  /** The outcomes of the waiting callers once the queue is drained, in
      queue order. */
  function Drain(queue: seq<Request>, s: Settlement): (outcomes: seq<Outcome>)
    ensures |outcomes| == |queue|
  {
    if queue == [] then [] else [Continue(queue[0], s)] + Drain(queue[1..], s)
  }

  lemma {:induction false} DrainAppend(a: seq<Request>, b: seq<Request>, s: Settlement)
    ensures Drain(a + b, s) == Drain(a, s) + Drain(b, s)
  {
    if a == [] {
      assert a + b == b;
    } else {
      assert (a + b)[0] == a[0];
      assert (a + b)[1..] == a[1..] + b;
      DrainAppend(a[1..], b, s);
    }
  }

  /** The i-th waiting caller receives the settlement, in queue order. */
  lemma {:induction false} DrainAt(queue: seq<Request>, s: Settlement, i: nat)
    requires i < |queue|
    ensures Drain(queue, s)[i] == Continue(queue[i], s)
  {
    if i > 0 {
      DrainAt(queue[1..], s, i - 1);
    }
  }

  /** After a successful refresh, every waiting caller is dispatched again,
      in arrival order, with the new bearer token and its `_retry` mark
      still as it was when it was queued. */
  lemma ResolvedCallersCarryNewToken(queue: seq<Request>, token: string, i: nat)
    requires i < |queue|
    ensures Drain(queue, Resolve(token))[i].Resent?
    ensures Drain(queue, Resolve(token))[i].request.url == queue[i].url
    ensures Drain(queue, Resolve(token))[i].request.retry == queue[i].retry
    ensures AUTHORIZATION in Drain(queue, Resolve(token))[i].request.headers
    ensures Drain(queue, Resolve(token))[i].request.headers[AUTHORIZATION] == Bearer(token)
  {
    DrainAt(queue, Resolve(token), i);
  }

  /** After a failed refresh, every waiting caller fails with the refresh
      error itself. */
  lemma RejectedCallersShareReason(queue: seq<Request>, e: AxiosError)
    ensures forall i :: 0 <= i < |queue| ==> Drain(queue, Reject(e))[i] == Rejected(e)
  {
    forall i | 0 <= i < |queue| ensures Drain(queue, Reject(e))[i] == Rejected(e) {
      DrainAt(queue, Reject(e), i);
    }
  }

  /** `!refreshToken` is false: a non-empty refresh token is stored. */
  predicate HasRefreshToken(b: Platform.Browser)
    reads b
  {
    GetRefreshToken(b).Some? && GetRefreshToken(b).value != []
  }

  /** The module-level state of the response interceptor (`isRefreshing`,
      `failedQueue`), the refresh POSTs issued so far, and the original
      request of the one handler suspended at `await axios.post(...)`. */
  class RefreshCoordinator {
    const browser: Platform.Browser
    var isRefreshing: bool
    var failedQueue: seq<Request>
    var refreshPosts: seq<string>
    var suspended: Option<Request>

    /** Callers wait only while a refresh is flagged; the handler awaiting the
        POST has marked its request; queued requests are never marked. */
    ghost predicate Valid()
      reads this
    {
      && (failedQueue != [] ==> isRefreshing)
      && (suspended.Some? ==> isRefreshing && suspended.value.retry)
      && (forall i :: 0 <= i < |failedQueue| ==> !failedQueue[i].retry)
    }

    constructor (browser: Platform.Browser)
      ensures Valid() && this.browser == browser
      ensures !isRefreshing && failedQueue == [] && refreshPosts == [] && suspended == None
    {
      this.browser := browser;
      isRefreshing := false;
      failedQueue := [];
      refreshPosts := [];
      suspended := None;
    }

    /** `processQueue(error, token)`: settles every waiting caller in order
        and empties the queue. */
    method ProcessQueue(s: Settlement) returns (outcomes: seq<Outcome>)
      modifies this`failedQueue
      ensures outcomes == Drain(old(failedQueue), s)
      ensures failedQueue == []
    {
      var queue := failedQueue;
      outcomes := [];
      var i := 0;
      while i < |queue|
        invariant 0 <= i <= |queue|
        invariant outcomes == Drain(queue[..i], s)
      {
        assert queue[..i + 1] == queue[..i] + [queue[i]];
        DrainAppend(queue[..i], [queue[i]], s);
        outcomes := outcomes + [Continue(queue[i], s)];
        i := i + 1;
      }
      assert queue[..i] == queue;
      failedQueue := [];
    }

    /** The response interceptor's error handler, run up to its first
        `await` or `return`. */
    method OnResponseError(err: AxiosError) returns (out: Outcome)
      requires Valid()
      modifies this, browser
      ensures Valid()
      ensures !IsFirstUnauthorized(err) ==>
                out == Rejected(err) && unchanged(this) && unchanged(browser)
      ensures IsFirstUnauthorized(err) && old(isRefreshing) ==>
                && out == AwaitingQueue
                && failedQueue == old(failedQueue) + [err.config]
                && isRefreshing && suspended == old(suspended) && refreshPosts == old(refreshPosts)
                && unchanged(browser)
      ensures IsFirstUnauthorized(err) && !old(isRefreshing) ==>
                isRefreshing && failedQueue == old(failedQueue)
      ensures IsFirstUnauthorized(err) && !old(isRefreshing) && !old(HasRefreshToken(browser)) ==>
                && out == Rejected(MarkRetried(err))
                && suspended == None && refreshPosts == old(refreshPosts)
                && browser.localStorage == (if browser.hasWindow then RemoveTokens(old(browser.localStorage))
                                            else old(browser.localStorage))
                && browser.navigations == old(browser.navigations) + (if browser.hasWindow then [LOGIN_PATH] else [])
      ensures IsFirstUnauthorized(err) && !old(isRefreshing) && old(HasRefreshToken(browser)) ==>
                && out == AwaitingRefresh
                && suspended == Some(err.config.(retry := true))
                && refreshPosts == old(refreshPosts) + [old(browser.localStorage[REFRESH_KEY])]
                && unchanged(browser)
    {
      if err.status != Some(401) || err.config.retry {
        return Rejected(err);
      }
      if isRefreshing {
        failedQueue := failedQueue + [err.config];
        return AwaitingQueue;
      }
      var originalRequest := err.config.(retry := true);
      isRefreshing := true;
      var refreshToken := GetRefreshToken(browser);
      if refreshToken.None? || refreshToken.value == [] {
        ClearTokens(browser);
        if browser.hasWindow {
          browser.Navigate(LOGIN_PATH);
        }
        return Rejected(err.(config := originalRequest));
      }
      refreshPosts := refreshPosts + [refreshToken.value];
      suspended := Some(originalRequest);
      out := AwaitingRefresh;
    }

    /** The refresh POST answered with a new pair: store it, settle the
        queue with the new access token, dispatch the original request again
        with that token, and clear the flag (the `finally`). */
    method OnRefreshSuccess(accessToken: string, refreshToken: string) returns (out: Outcome, resumed: seq<Outcome>)
      requires Valid() && suspended.Some?
      modifies this, browser
      ensures Valid()
      ensures browser.localStorage ==
                if browser.hasWindow
                then StoreTokens(old(browser.localStorage), AuthTokens(accessToken, refreshToken, TOKEN_TYPE, EXPIRES_IN))
                else old(browser.localStorage)
      ensures browser.navigations == old(browser.navigations)
      ensures out == Resent(SetBearer(old(suspended).value, accessToken))
      ensures resumed == Drain(old(failedQueue), Resolve(accessToken))
      ensures !isRefreshing && failedQueue == [] && suspended == None && refreshPosts == old(refreshPosts)
    {
      var originalRequest := suspended.value;
      SetTokens(browser, AuthTokens(accessToken, refreshToken, TOKEN_TYPE, EXPIRES_IN));
      originalRequest := SetBearer(originalRequest, accessToken);
      resumed := ProcessQueue(Resolve(accessToken));
      out := Resent(originalRequest);
      suspended := None;
      isRefreshing := false;
    }

    /** The refresh POST failed (an error status, a network error or a
        timeout): reject every waiting caller with the refresh error, clear
        the tokens, redirect to the login page, fail the original call with
        the refresh error, and clear the flag (the `finally`). */
    method OnRefreshFailure(refreshError: AxiosError) returns (out: Outcome, resumed: seq<Outcome>)
      requires Valid() && suspended.Some?
      modifies this, browser
      ensures Valid()
      ensures browser.localStorage ==
                if browser.hasWindow then RemoveTokens(old(browser.localStorage)) else old(browser.localStorage)
      ensures browser.navigations == old(browser.navigations) + (if browser.hasWindow then [LOGIN_PATH] else [])
      ensures out == Rejected(refreshError)
      ensures resumed == Drain(old(failedQueue), Reject(refreshError))
      ensures !isRefreshing && failedQueue == [] && suspended == None && refreshPosts == old(refreshPosts)
    {
      resumed := ProcessQueue(Reject(refreshError));
      ClearTokens(browser);
      if browser.hasWindow {
        browser.Navigate(LOGIN_PATH);
      }
      out := Rejected(refreshError);
      suspended := None;
      isRefreshing := false;
    }
  }

  // ------------------------------------------------------------------
  // Scenarios
  // ------------------------------------------------------------------

  /** Three calls fail with 401 while no refresh is running: the first starts
      the only refresh POST, the other two wait, and once the refresh succeeds
      all three are dispatched again with the new token, the first one (the
      handler's own `return api(...)`) followed by the two waiting callers in
      arrival order. */
  method ConcurrentUnauthorizedShareOneRefresh(a: Request, b: Request, c: Request,
                                               storedRefresh: string, newAccess: string, newRefresh: string)
    returns (outA: Outcome, outB: Outcome, outC: Outcome, posts: seq<string>,
             resentA: Outcome, resumed: seq<Outcome>, stored: Option<string>)
    requires !a.retry && !b.retry && !c.retry
    requires storedRefresh != []
    ensures outA == AwaitingRefresh && outB == AwaitingQueue && outC == AwaitingQueue
    ensures posts == [storedRefresh]
    ensures resentA == Resent(SetBearer(a.(retry := true), newAccess))
    ensures resumed == [Resent(SetBearer(b, newAccess)), Resent(SetBearer(c, newAccess))]
    ensures stored == Some(newAccess)
  {
    var browser := new Platform.Browser(true, map[REFRESH_KEY := storedRefresh]);
    var coordinator := new RefreshCoordinator(browser);
    outA := coordinator.OnResponseError(AxiosError(Some(401), a));
    outB := coordinator.OnResponseError(AxiosError(Some(401), b));
    outC := coordinator.OnResponseError(AxiosError(Some(401), c));
    posts := coordinator.refreshPosts;
    assert coordinator.failedQueue == [b, c];
    resentA, resumed := coordinator.OnRefreshSuccess(newAccess, newRefresh);
    DrainAt([b, c], Resolve(newAccess), 0);
    DrainAt([b, c], Resolve(newAccess), 1);
    stored := GetAccessToken(browser);
  }

  /** The refresh POST fails (for instance by timing out) while two callers
      wait: both fail with that same error, the original call fails with it
      too, the tokens are gone and the login redirect happens exactly once. */
  method RefreshFailureRejectsEveryWaiter(a: Request, b: Request, c: Request,
                                          storedRefresh: string, refreshError: AxiosError)
    returns (resentA: Outcome, resumed: seq<Outcome>, navigations: seq<string>,
             access: Option<string>, refresh: Option<string>)
    requires !a.retry && !b.retry && !c.retry
    requires storedRefresh != []
    ensures resentA == Rejected(refreshError)
    ensures resumed == [Rejected(refreshError), Rejected(refreshError)]
    ensures navigations == [LOGIN_PATH]
    ensures access == None && refresh == None
  {
    var browser := new Platform.Browser(true, map[REFRESH_KEY := storedRefresh]);
    var coordinator := new RefreshCoordinator(browser);
    var _ := coordinator.OnResponseError(AxiosError(Some(401), a));
    var _ := coordinator.OnResponseError(AxiosError(Some(401), b));
    var _ := coordinator.OnResponseError(AxiosError(Some(401), c));
    resentA, resumed := coordinator.OnRefreshFailure(refreshError);
    RejectedCallersShareReason([b, c], refreshError);
    navigations := browser.navigations;
    access, refresh := GetAccessToken(browser), GetRefreshToken(browser);
  }

  /** With no refresh token stored, the first 401 clears the tokens and
      redirects but returns before the `try`, so its `finally` never runs:
      the flag stays set, and a later first-time 401 is queued behind a
      refresh that was never started. */
  method MissingRefreshTokenLeavesFlagSet(a: Request, b: Request)
    returns (outA: Outcome, outB: Outcome, stillRefreshing: bool, waiting: seq<Request>,
             posts: seq<string>, navigations: seq<string>)
    requires !a.retry && !b.retry
    ensures outA == Rejected(AxiosError(Some(401), a.(retry := true)))
    ensures outB == AwaitingQueue
    ensures stillRefreshing && waiting == [b] && posts == []
    ensures navigations == [LOGIN_PATH]
  {
    var browser := new Platform.Browser(true, map[]);
    var coordinator := new RefreshCoordinator(browser);
    outA := coordinator.OnResponseError(AxiosError(Some(401), a));
    outB := coordinator.OnResponseError(AxiosError(Some(401), b));
    stillRefreshing := coordinator.isRefreshing;
    waiting := coordinator.failedQueue;
    posts := coordinator.refreshPosts;
    navigations := browser.navigations;
  }

  /** A caller resumed from the queue is not marked `_retry`, so if its
      second dispatch also fails with 401 it starts a refresh of its own
      instead of being rejected. */
  method ResumedCallerCanRefreshAgain(a: Request, b: Request, storedRefresh: string,
                                      newAccess: string, newRefresh: string)
    returns (resumed: seq<Outcome>, again: Outcome, posts: seq<string>)
    requires !a.retry && !b.retry
    requires storedRefresh != [] && newRefresh != []
    ensures |resumed| == 1 && resumed[0].Resent? && !resumed[0].request.retry
    ensures again == AwaitingRefresh
    ensures posts == [storedRefresh, newRefresh]
  {
    var browser := new Platform.Browser(true, map[REFRESH_KEY := storedRefresh]);
    var coordinator := new RefreshCoordinator(browser);
    var _ := coordinator.OnResponseError(AxiosError(Some(401), a));
    var _ := coordinator.OnResponseError(AxiosError(Some(401), b));
    var resentA;
    resentA, resumed := coordinator.OnRefreshSuccess(newAccess, newRefresh);
    DrainAt([b], Resolve(newAccess), 0);
    again := coordinator.OnResponseError(AxiosError(Some(401), resumed[0].request));
    posts := coordinator.refreshPosts;
  }
}
