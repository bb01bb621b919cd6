/** The older axios client: the same retry-once rule on 401, but with no
    shared flag and no queue, so every first-time 401 issues its own refresh
    POST. It reads and writes localStorage under the keys 'access_token' and
    'refresh_token' and only runs in a browser. */
module LegacyClient {
  import opened Wrappers
  import opened Http
  import Platform

  const ACCESS_KEY: string := "access_token"
  const REFRESH_KEY: string := "refresh_token"
  const LOGIN_PATH: string := "/login"

  /** The request interceptor: `Authorization: Bearer <token>` exactly when a
      non-empty 'access_token' is stored; otherwise the config is unchanged. */
  function AuthorizeRequest(b: Platform.Browser, config: Request): (r: Request)
    reads b
    ensures (ACCESS_KEY in b.localStorage && b.localStorage[ACCESS_KEY] != []) ==>
              r.url == config.url && r.retry == config.retry &&
              r.headers == config.headers[AUTHORIZATION := Bearer(b.localStorage[ACCESS_KEY])]
    ensures !(ACCESS_KEY in b.localStorage && b.localStorage[ACCESS_KEY] != []) ==> r == config
  {
    AttachBearer(b.GetItem(ACCESS_KEY), config)
  }

  /** A handler that has passed the 401 check: it is either finished or
      suspended at the refresh POST, holding the original error (whose
      config is now marked `_retry`). */
  datatype Step =
    | Done(outcome: Outcome)
    | Refreshing(error: AxiosError)

  class Client {
    const browser: Platform.Browser
    var refreshPosts: seq<string>

    ghost predicate Valid()
    {
      browser.hasWindow
    }

    constructor (browser: Platform.Browser)
      requires browser.hasWindow
      ensures Valid() && this.browser == browser && refreshPosts == []
    {
      this.browser := browser;
      refreshPosts := [];
    }

    /** The error handler up to its `await axios.post(...)`. Nothing is
        shared between handlers: the decision depends only on the error and
        the stored refresh token. */
    method OnResponseError(err: AxiosError) returns (step: Step)
      requires Valid()
      modifies this
      ensures Valid()
      ensures !IsFirstUnauthorized(err) ==> step == Done(Rejected(err)) && refreshPosts == old(refreshPosts)
      ensures IsFirstUnauthorized(err) && !(REFRESH_KEY in browser.localStorage && browser.localStorage[REFRESH_KEY] != []) ==>
                step == Done(Rejected(MarkRetried(err))) && refreshPosts == old(refreshPosts)
      ensures IsFirstUnauthorized(err) && REFRESH_KEY in browser.localStorage && browser.localStorage[REFRESH_KEY] != [] ==>
                step == Refreshing(MarkRetried(err)) &&
                refreshPosts == old(refreshPosts) + [browser.localStorage[REFRESH_KEY]]
    {
      if err.status == Some(401) && !err.config.retry {
        var marked := MarkRetried(err);
        var refreshToken := browser.GetItem(REFRESH_KEY);
        if refreshToken.Some? && refreshToken.value != [] {
          refreshPosts := refreshPosts + [refreshToken.value];
          return Refreshing(marked);
        }
        return Done(Rejected(marked));
      }
      return Done(Rejected(err));
    }

    /** The refresh POST answered: overwrite both keys, put the new bearer on
        the original request and dispatch it again, once. */
    method OnRefreshSuccess(pending: AxiosError, accessToken: string, refreshToken: string) returns (out: Outcome)
      requires Valid() && pending.config.retry
      modifies browser
      ensures browser.localStorage == old(browser.localStorage)[ACCESS_KEY := accessToken][REFRESH_KEY := refreshToken]
      ensures browser.navigations == old(browser.navigations)
      ensures out == Resent(SetBearer(pending.config, accessToken))
      ensures out.request.retry
    {
      browser.localStorage := browser.localStorage[ACCESS_KEY := accessToken];
      browser.localStorage := browser.localStorage[REFRESH_KEY := refreshToken];
      out := Resent(SetBearer(pending.config, accessToken));
    }

    /** The refresh POST failed: wipe all of localStorage, redirect to the
        login page, and reject with the original 401 error (not the refresh
        error, which is discarded). */
    method OnRefreshFailure(pending: AxiosError) returns (out: Outcome)
      requires Valid() && pending.config.retry
      modifies browser
      ensures browser.localStorage == map[]
      ensures browser.navigations == old(browser.navigations) + [LOGIN_PATH]
      ensures out == Rejected(pending)
    {
      browser.localStorage := map[];
      browser.Navigate(LOGIN_PATH);
      out := Rejected(pending);
    }
  }

  /** Two calls fail with 401 at the same time: with no flag and no queue,
      each one posts its own refresh with the same stored refresh token. */
  method ConcurrentUnauthorizedRefreshTwice(a: Request, b: Request, storedRefresh: string)
    returns (stepA: Step, stepB: Step, posts: seq<string>)
    requires !a.retry && !b.retry && storedRefresh != []
    ensures stepA.Refreshing? && stepB.Refreshing?
    ensures posts == [storedRefresh, storedRefresh]
  {
    var browser := new Platform.Browser(true, map[REFRESH_KEY := storedRefresh]);
    var client := new Client(browser);
    stepA := client.OnResponseError(AxiosError(Some(401), a));
    stepB := client.OnResponseError(AxiosError(Some(401), b));
    posts := client.refreshPosts;
  }

  /** A first-time 401 with no refresh token stored fails with the original
      error, without touching storage and without a redirect; a retried
      request that gets 401 again is rejected as it is. */
  method WithoutRefreshTokenNothingHappens(a: Request, storage: map<string, string>)
    returns (first: Step, second: Step, posts: seq<string>, after: map<string, string>, navigations: seq<string>)
    requires !a.retry && REFRESH_KEY !in storage
    ensures first == Done(Rejected(AxiosError(Some(401), a.(retry := true))))
    ensures second == Done(Rejected(AxiosError(Some(401), a.(retry := true))))
    ensures posts == [] && after == storage && navigations == []
  {
    var browser := new Platform.Browser(true, storage);
    var client := new Client(browser);
    first := client.OnResponseError(AxiosError(Some(401), a));
    second := client.OnResponseError(first.outcome.reason);
    posts := client.refreshPosts;
    after := browser.localStorage;
    navigations := browser.navigations;
  }
}
