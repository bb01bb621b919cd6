# CatalogAI web client — a Dafny model

CatalogAI is a web application that analyses supplier catalogs against
marketplace (Mercado Livre) listings. This project models the client's
session machinery and the exact rules scattered through its pages, and
proves properties of them.

- **API client** (`Api`, `Http`): a token store under two fixed
  `localStorage` keys. A request interceptor attaches `Authorization: Bearer …`.
  A response interceptor coordinates one token refresh for every request
  that fails with 401 while it is in flight.
  - JavaScript runs each handler to completion between `await`s. The
    interceptor is therefore a class, `RefreshCoordinator`, holding
    `isRefreshing`, the FIFO `failedQueue` and the handler parked at the
    refresh POST.
  - It has one method per event: a response error, refresh success, refresh
    failure.
  - `processQueue` is a loop proved against the pure `Drain`.
- **Older interceptor** (`LegacyClient`): the same retry-once rule with no
  flag and no queue.
- **Session** (`AuthService`, `AuthStore`):
  - the token pairs written on login, register and refresh;
  - the store's record updates for login, register, logout, loadUser and
    clearError.

  Each HTTP response is an input: the fulfilled body or the rejection.
- **Route guard** (`AuthProvider`): the redirect and spinner decision, and the effect runs of a mount, where the first render still sees the initial signed-out record.
- **Pages**:
  - sidebar initials and highlighting;
  - link-analyzer parsing and CSV export;
  - the upload validator and marketplace-link parsing;
  - catalog status badges and menus;
  - product filters and bulk delete;
  - subscription quota and plan gating;
  - settings validators;
  - report chart mapping.
- **Shared helpers**:
  - `Text`: JavaScript `split`/`join`/`trim`/`toUpperCase`/`slice` on `seq<char>`.
  - `Platform`: a browser with a window flag, a `localStorage` map, a
    navigation log, and toasts as values.
  - `Types`: the enumerations of `src/types/index.ts`.

Two behaviours of the code are reproduced, not corrected:
- **Refresh flag can stay set.** When no refresh token is stored, the first
  401 returns before the `try`, so its `finally` never runs. The refresh flag
  stays set, and every later 401 waits in the queue for a refresh that never
  starts (`Api.MissingRefreshTokenLeavesFlagSet`).
- **Resumed requests can refresh again.** Requests resumed from the queue are
  not marked `_retry`, so a second 401 on one of them starts a new refresh
  (`Api.ResumedCallerCanRefreshAgain`).

When the refresh fails, `processQueue` rejects every queued caller with the
refresh error (src/lib/api.ts:157), not with the caller's own 401; the model
follows that.

## Model

| member | source | states |
|---|---|---|
| Api.StoreTokens | src/lib/api.ts:35-39 | after `setTokens` both keys hold the new pair and every other key keeps its value |
| Api.RemoveTokens | src/lib/api.ts:41-45 | after `clearTokens` neither key is present and every other key keeps its value |
| Api.GetAccessToken | src/lib/api.ts:25-28 | null without a window; otherwise present exactly when the access key is stored, with its value |
| Api.GetRefreshToken | src/lib/api.ts:30-33 | null without a window; otherwise present exactly when the refresh key is stored, with its value |
| Api.SetTokens | src/lib/api.ts:35-39 | writes both keys with a window; changes nothing without one; never navigates |
| Api.ClearTokens | src/lib/api.ts:41-45 | removes both keys with a window; changes nothing without one |
| Api.TokenStoreRoundTrip | src/lib/api.ts:25-45 | a written pair reads back as written; after clearing, both getters return null; without a window every read is null |
| Api.AuthorizeRequest | src/lib/api.ts:51-64 | `Authorization` becomes `Bearer <token>` iff a non-empty access token is stored; otherwise the config is unchanged |
| Api.Drain | src/lib/api.ts:76-85 | one outcome per queued caller |
| Api.DrainAppend | src/lib/api.ts:77-83 | draining a queue settles its parts in order |
| Api.DrainAt | src/lib/api.ts:77-83 | the i-th queued caller gets the settlement of the i-th entry |
| Api.ResolvedCallersCarryNewToken | src/lib/api.ts:104-109 | after a successful refresh each queued caller is resent with the new bearer, keeping its URL and its unset `_retry` mark |
| Api.RejectedCallersShareReason | src/lib/api.ts:110-112 | after a failed refresh every queued caller fails with the refresh error |
| Api.RefreshCoordinator.ProcessQueue | src/lib/api.ts:76-85 | the outcomes are the in-order drain of the old queue, and the queue is left empty |
| Api.RefreshCoordinator.OnResponseError | src/lib/api.ts:87-127 | non-401 or retried errors are rejected unchanged with no state change. A 401 during a refresh is appended to the queue, starts no POST and is not marked. A first 401 marks the request and sets the flag. Without a refresh token it clears the tokens, redirects and rejects; otherwise it issues exactly one POST with the stored refresh token. The coordinator invariant is kept. |
| Api.RefreshCoordinator.OnRefreshSuccess | src/lib/api.ts:128-154 | stores the pair ('Bearer', 900). Resends the original request with the new bearer. Resolves the whole queue with the new token and clears the flag (lines 163-165). |
| Api.RefreshCoordinator.OnRefreshFailure | src/lib/api.ts:155-165 | rejects the whole queue with the refresh error. Clears the tokens and redirects to '/login' once. Fails the call with the refresh error and clears the flag. |
| Api.ConcurrentUnauthorizedShareOneRefresh | src/lib/api.ts:100-154 | three concurrent 401s cause exactly one refresh POST; A, B, C are then resent with the new token in that order |
| Api.RefreshFailureRejectsEveryWaiter | src/lib/api.ts:155-165 | a failed refresh rejects both waiters and the original call with its error, clears both tokens and redirects once |
| Api.MissingRefreshTokenLeavesFlagSet | src/lib/api.ts:115-126 | with no refresh token the flag stays set and a later first-time 401 is queued behind a refresh never started |
| Api.ResumedCallerCanRefreshAgain | src/lib/api.ts:100-113 | a resumed caller is not marked `_retry`, so a second 401 on it starts a second refresh |
| LegacyClient.AuthorizeRequest | src/api/client.js:10-15 | the bearer is attached iff a non-empty 'access_token' is stored |
| LegacyClient.Client.OnResponseError | src/api/client.js:18-40 | non-401 or retried errors are rejected unchanged. A first 401 is marked `_retry`. Without a refresh token the marked error is rejected and storage is untouched. Otherwise one refresh POST is issued. |
| LegacyClient.Client.OnRefreshSuccess | src/api/client.js:29-33 | overwrites both keys and resends the original request once, with the new bearer and marked `_retry` |
| LegacyClient.Client.OnRefreshFailure | src/api/client.js:34-40 | clears all of storage, redirects to '/login' and rejects with the original 401 error |
| LegacyClient.ConcurrentUnauthorizedRefreshTwice | src/api/client.js:18-42 | with no shared flag, two concurrent 401s issue two refresh POSTs |
| LegacyClient.WithoutRefreshTokenNothingHappens | src/api/client.js:23-27 | without a refresh token a 401 is rejected with no storage change, no redirect and no POST |
| AuthService.Register | src/services/auth.service.ts:29-50 | on success stores and returns the response's pair ('Bearer', 900) and the user's id, name and email. A failure is propagated with storage untouched. |
| AuthService.Login | src/services/auth.service.ts:55-76 | the same as register, for login |
| AuthService.RefreshToken | src/services/auth.service.ts:81-96 | persists and returns the new pair ('Bearer', 900); a failure changes nothing |
| AuthService.Logout | src/services/auth.service.ts:101-103 | clears both tokens |
| AuthService.GetCurrentUser | src/services/auth.service.ts:108-122 | copies id, name and email; propagates a failure |
| AuthService.IsAuthenticated | src/services/auth.service.ts:127-131 | true iff a window exists and the stored access token is a non-empty string |
| AuthService.LoginThenLogout | src/services/auth.service.ts:55-131 | after a login the session is authenticated iff there is a window and the access token is non-empty; after logout never |
| AuthStore.ErrorMessage | src/store/auth.store.ts:43-47 | an Error's message, otherwise the action's default |
| AuthStore.Store.constructor | src/store/auth.store.ts:20-24 | user null, not loading, not authenticated, no error |
| AuthStore.Store.Login | src/store/auth.store.ts:29-56 | first loading with no error. On success: user set, authenticated, not loading, no navigation. On failure: message or 'Erro ao fazer login', not authenticated, not loading, user unchanged, rethrown. |
| AuthStore.Store.Register | src/store/auth.store.ts:61-88 | the same as login, with 'Erro ao criar conta' |
| AuthStore.Store.Logout | src/store/auth.store.ts:93-107 | whether or not the service rejects, the tokens are cleared and the record is reset; a rejection is rethrown |
| AuthStore.Store.LoadUser | src/store/auth.store.ts:112-135 | with no token: signed out at once, `isLoading` untouched. Otherwise: loading, then the user on success, or tokens cleared and signed out on failure. The error is never touched. The settled user fetch is an input; a 401 first passes the response interceptor (see `AuthProvider.UnauthorizedUserFetchOnMount`). |
| AuthStore.Store.StartLoadUser | src/store/auth.store.ts:112-118 | reports whether a fetch starts, which is exactly when a session token is stored. Without one: signed out, user null, nothing else changes. With one: only `isLoading` becomes true. |
| AuthStore.Store.SettleLoadUser | src/store/auth.store.ts:119-134 | a fetched user is stored, signed in, not loading, and the browser is untouched. On a failure: user null, signed out, not loading, both tokens removed (with a window) and no navigation. |
| AuthStore.Store.ClearError | src/store/auth.store.ts:140-142 | only the error changes, to null |
| AuthStore.FailedLoginsReportMessages | src/store/auth.store.ts:29-56 | the pending state is loading; the end state holds the Error's message, or the default for a non-Error value |
| AuthProvider.Redirects | src/components/providers/auth-provider.tsx:19-34 | at most one push. '/login' iff settled, signed out and the route is not one of the four public ones. '/dashboard' iff settled, signed in and on '/login' or '/register'. None while loading. |
| AuthProvider.RedirectTargetIsStable | src/components/providers/auth-provider.tsx:7-33 | for a session that does not change, the route a redirect leads to triggers no further redirect |
| AuthProvider.NoRedirectBehindSpinner | src/components/providers/auth-provider.tsx:21-45 | while the spinner shows (loading and not authenticated) nothing redirects |
| AuthProvider.MountPushes | src/components/providers/auth-provider.tsx:14-34 | the pushes of one mount: the first render's run with the initial signed-out, not-loading record, then nothing behind the spinner, then the run with the settled record on the route the visitor is on by then |
| AuthProvider.FailedUserFetchOnMount | src/components/providers/auth-provider.tsx:14-45 | a user fetch failing with anything but 401. The first render shows the page, and its effect pushes '/login' on a protected route before the fetch settles; the spinner follows. The interceptor passes the error through with no hard redirect, and the token is cleared. Once the fetch settles, '/login' is pushed again only if the visitor is still on a protected route, so a visitor already on '/login' sees a single push. |
| AuthProvider.UnauthorizedUserFetchOnMount | src/lib/api.ts:95-126 | a user fetch failing with 401 while no refresh token is stored. The page shows first, and the mount push to '/login' happens on a protected route. The interceptor marks the request, clears the tokens and sets `window.location` to '/login' on every route, public ones included. After the fetch settles, '/login' is pushed again only from a protected route. |
| AuthProvider.SuccessfulUserFetchOnMount | src/components/providers/auth-provider.tsx:14-34 | a successful user fetch. The page shows first, then the spinner. The mount push to '/login' still happens on a protected route, and a settled session on '/login' or '/register' is pushed to '/dashboard'. A visitor of a protected page who reached '/login' therefore ends on the dashboard, after the pushes ['/login', '/dashboard']. The user is signed in and the token kept. |
| Sidebar.ActiveLinksOfDistinct | src/components/layout/sidebar.tsx:100 | among distinct hrefs, exactly the one equal to the path is active |
| Sidebar.Highlighted | src/components/layout/sidebar.tsx:21-65 | at most one sidebar link is highlighted: the path's own, if it is one of the eight |
| Sidebar.GetUserInitials | src/components/layout/sidebar.tsx:75-83 | 'U' for a missing or empty name; never longer than two characters |
| Sidebar.NameInitials | src/components/layout/sidebar.tsx:77-82 | a name of space-separated words yields the upper-cased first letters of its first two words |
| Sidebar.InitialsOfNonEmptyWords | src/components/layout/sidebar.tsx:79-80 | one first character per non-empty word, in order |
| Sidebar.Words | src/components/layout/sidebar.tsx:78 | the words of a name are the non-empty pieces between spaces; each is non-empty and space-free |
| Sidebar.InitialsSkipEmpty | src/components/layout/sidebar.tsx:79-80 | empty pieces contribute nothing: the initials of the pieces are those of the words |
| Sidebar.UserInitialsOfName | src/components/layout/sidebar.tsx:75-83 | any non-empty name, with spaces leading, trailing or repeated, shows the upper-cased first letters of its first two words; one letter for one word; nothing when it has no word |
| Sidebar.SpacesOnlyNameHasNoInitials | src/components/layout/sidebar.tsx:76-80 | a name of only spaces passes the 'U' check but yields no initials, since every word is empty |
| Text.SplitJoin | src/components/layout/sidebar.tsx:78 | splitting the join of separator-free pieces gives the pieces back |
| Text.JoinSplit | src/app/link-analyzer/page.tsx:61 | joining the pieces of a split gives the string back |
| Text.TrimEmptyIffBlank | src/app/link-analyzer/page.tsx:61 | `trim` yields the empty string iff the string is all whitespace |
| Text.NonBlankKeeps | src/app/link-analyzer/page.tsx:61 | the filter keeps exactly the input lines that are not blank |
| Text.NonBlankLinesSpec | src/app/link-analyzer/page.tsx:61 | the parsed links are the non-blank lines, untrimmed and free of line breaks; there are none iff every line is blank |
| Text.NonBlankLinesConcat | src/app/link-analyzer/page.tsx:61 | links keep their line order across a line break |
| LinkAnalyzer.BlankTextPassesSchemaWithoutLinks | src/app/link-analyzer/page.tsx:21-26 | a text of blank lines passes the schema (lines 21-26) yet yields no link (lines 61-66) |
| LinkAnalyzer.LinkAnalyzerPage.SubmitBatch | src/app/link-analyzer/page.tsx:56-82 | an invalid form changes nothing. With no valid link: an error and no request. Otherwise one request with the links. On success the results and '<n> produtos analisados!', where n counts the links sent. On failure no results and an error. Always ends not analyzing. |
| LinkAnalyzer.HandleExport | src/app/link-analyzer/page.tsx:84-128 | no file and an error iff there are no results; otherwise a file and a success message |
| LinkAnalyzer.CsvLines | src/app/link-analyzer/page.tsx:91-119 | the file's lines are the header line, then one row per result in order, with no trailing line |
| LinkAnalyzer.RowCells | src/app/link-analyzer/page.tsx:104-117 | a comma-free row splits back into its ten cells |
| LinkAnalyzer.CommaInProductNameShiftsColumns | src/app/link-analyzer/page.tsx:107 | quotes do not escape: a comma in a product name yields eleven cells |
| CatalogUpload.FileProblem | src/app/catalogs/upload/page.tsx:50-66 | accepted iff one of the four MIME types and at most 10·1024·1024 bytes; the type is checked first |
| CatalogUpload.MlLinksParam | src/app/catalogs/upload/page.tsx:86-95 | none for an absent or empty text; otherwise the non-blank lines, and none when there are none |
| CatalogUpload.MlLinksOfLines | src/app/catalogs/upload/page.tsx:86-88 | the links sent are exactly the non-blank lines; none iff every line is blank |
| CatalogUpload.UploadErrorMessage | src/app/catalogs/upload/page.tsx:105 | the server's message unless missing or empty, else 'Erro ao enviar catálogo' |
| CatalogUpload.UploadPage.HandleFileChange | src/app/catalogs/upload/page.tsx:45-69 | no pick or a refused file leaves the selection unchanged, and a refusal is reported; an accepted file replaces it |
| CatalogUpload.UploadPage.RemoveFile | src/app/catalogs/upload/page.tsx:71-74 | file null and progress 0 |
| CatalogUpload.UploadPage.Submit | src/app/catalogs/upload/page.tsx:76-109 | no file: an error and no upload. Otherwise one upload with the parsed links. On success it opens `/catalogs/<id>`; on failure it reports the message. Always ends not uploading. |
| CatalogUpload.SizeLimitIsInclusive | src/app/catalogs/upload/page.tsx:63-68 | exactly 10 MiB is kept; one byte more is refused and the earlier file stays |
| Catalogs.StatusBadgesDistinguishStatuses | src/app/catalogs/page.tsx:33-43 | the six statuses have six different labels; only failed is destructive |
| Catalogs.MenuActions | src/app/catalogs/page.tsx:183-218 | details first and delete last for every status; pause iff analyzing; resume iff paused; reanalyze iff completed |
| Catalogs.OnlyDetailsAndDelete | src/app/catalogs/page.tsx:190-202 | only pending, extracting and failed catalogs offer no status action |
| Catalogs.ProgressMatchesActions | src/app/catalogs/page.tsx:225 | the progress bar is hidden iff completed or failed; reanalyzable catalogs never show it; pausable or resumable ones always do |
| Catalogs.Choose | src/app/catalogs/page.tsx:65-107 | declining delete or reanalyze does nothing. Otherwise each action makes its own call for that catalog: delete, pause, resume or reanalyze. A success shows that action's success message and reloads; a failure shows its error message only. |
| Catalogs.OfferedCallsMatchStatus | src/app/catalogs/page.tsx:190-209 | an offered action's call fits the status: pause only while analyzing, resume only when paused, reanalyze only when completed |
| Products.InitialFilters | src/app/products/page.tsx:55-58 | catalog from a non-empty 'catalog' parameter, else unset; empty search; nothing else set |
| Products.SetSearch | src/app/products/page.tsx:167-169 | only the search changes |
| Products.SelectRecommendation | src/app/products/page.tsx:174-178 | 'all' clears the filter; another entry sets the recommendation of that name; nothing else changes |
| Products.SelectCompetition | src/app/products/page.tsx:194-198 | the same rule for competition |
| Products.SelectsShowTheirPick | src/app/products/page.tsx:173-198 | each select displays the entry last picked in it |
| Products.ToggleFavoritesOnly | src/app/products/page.tsx:214 | becomes the negation of its truthiness, so unset becomes true; nothing else changes |
| Products.ToggleTwice | src/app/products/page.tsx:214 | two presses restore a set flag but turn an unset one into false |
| Products.ProductsPage.HandleToggleFavorite | src/app/products/page.tsx:76-83 | sends the negation of the current favorite state, then reloads or reports |
| Products.ProductsPage.HandleDeleteProduct | src/app/products/page.tsx:85-95 | nothing unless confirmed; then one delete call, then reload or report |
| Products.ProductsPage.HandleBulkDelete | src/app/products/page.tsx:97-109 | a no-op with no selection or when declined; a success clears the selection; a failure keeps it |
| Products.BulkDeleteRetry | src/app/products/page.tsx:97-109 | with a selection set directly in the model, a failed bulk delete can be retried on the same selection; a press after success does nothing |
| Products.SelectionStaysEmpty | src/app/products/page.tsx:53 | no handler of the page adds to the selection, so after favoriting and deleting a product it is still empty and only those two calls were sent (lines 76-95) |
| Subscription.UsagePercentage | src/app/subscription/page.tsx:81-83 | 0 without a subscription or with limit -1; otherwise used/limit·100 |
| Subscription.ShowLimit | src/app/subscription/page.tsx:122-124 | 'Ilimitado' iff the limit is -1 |
| Subscription.NearLimitIsEightyPercent | src/app/subscription/page.tsx:127-130 | for a positive limit, the warning shows iff used·100 ≥ 80·limit; with no limit, never |
| Subscription.CardButton | src/app/subscription/page.tsx:204-224 | 'Plano Atual' iff the card is the current plan. Otherwise disabled iff a checkout is pending, spinning iff it is this card's (also lines 275-294). |
| Subscription.PlanGating | src/app/subscription/page.tsx:85-86 | a trial cannot cancel but can upgrade; Pro can cancel and its card is current (line 153) |
| Subscription.SubscriptionPage.HandleSubscribe | src/app/subscription/page.tsx:41-57 | one checkout request with the origin's success and cancel URLs. Success goes to the checkout URL and stays pending. Failure reports and clears the pending mark. |
| Subscription.SubscriptionPage.HandleCancelSubscription | src/app/subscription/page.tsx:59-69 | nothing unless confirmed; then one cancel, then reload or report |
| Subscription.ProCheckoutGating | src/app/subscription/page.tsx:211-294 | while a Pro checkout is pending its button is disabled and spinning; after a failure it is enabled again |
| Settings.ProfileIssues | src/app/settings/page.tsx:19-22 | a name issue iff the name is under 2 characters; an email issue iff the email check fails |
| Settings.PasswordIssues | src/app/settings/page.tsx:24-33 | an issue on each password under 8 characters. A mismatch issue on confirm_password iff it differs from the new password, even when lengths also fail. Valid iff none. |
| Settings.DefaultProfile | src/app/settings/page.tsx:44-50 | the user's name and email, or empty fields without a user |
| Settings.ShortStoredNameBlocksProfile | src/app/settings/page.tsx:19-50 | a stored name under 2 characters makes the form invalid as it opens |
| Settings.SettingsPage.SubmitProfile | src/app/settings/page.tsx:56-67 | refused by the schema, or reported as saved |
| Settings.SettingsPage.SubmitPassword | src/app/settings/page.tsx:69-81 | refused by the schema, or reported as saved and the form reset |
| Settings.SettingsPage.HandleConnectML | src/app/settings/page.tsx:83-90 | only an informational message; the connection flag, the reset log and both saving flags are unchanged |
| Settings.SettingsPage.HandleDisconnectML | src/app/settings/page.tsx:92-102 | disconnected only after confirmation; both saving flags are unchanged |
| Reports.CompetitionData | src/app/reports/page.tsx:82-86 | one slice per entry, in order, with its count, its level's name ('Baixa'/'Média'/'Alta') and `COLORS[level]` |
| Reports.SlicesIdentifyLevels | src/app/reports/page.tsx:14-21 | different competition levels never share a slice name or a color |
| Reports.ChartKeepsTotal | src/app/reports/page.tsx:82-86 | the chart's values add up to the distribution's total count |
| Reports.SuccessRate | src/app/reports/page.tsx:159-161 | the literal 0 iff there are no products; otherwise opportunities/total·100 |
| Reports.TopProducts | src/app/reports/page.tsx:234 | a prefix of at most ten products, in order |
| Reports.HighPotentialCard | src/app/reports/page.tsx:228-234 | the empty message iff the list is empty; otherwise exactly the first min(n, 10) products, in order |
| Reports.View | src/app/reports/page.tsx:67-86 | empty state iff there are no statistics. Otherwise the chart is `CompetitionData` of the distribution, with the same length and total; the rate is `SuccessRate` and the card is `HighPotentialCard` of the statistics, each with its contract above. |

## Left out

- Number formatting: `String(n)` and `toFixed(2)` in the CSV export are function parameters. `toFixed` on the products and reports pages is not modelled.
- UsagePercentage: uses exact rationals, not IEEE doubles, so float rounding near the 80% threshold is not captured. Division by a zero limit is modelled as an infinity or NaN.
- SuccessRate: uses exact rationals; `toFixed(1)` rounding is not modelled.
- Upload progress callbacks and `Math.round` progress are not modelled. The transport reports them.
- `getErrorMessage` in src/lib/api.ts is not modelled. It depends on `axios.isAxiosError` and runtime `instanceof`.
- The HTTP transport is not modelled: axios, its 30-second timeout, base URLs and the bodies actually sent. A timeout arrives as an `AxiosError` with no status.
- Requests issued by `authService` are not modelled as passing through the interceptors. Their settled result is an input.
- Request configs always carry a header object. This is how axios hands them to interceptors, so the `config.headers` guards always pass.
- The zod `email()` check is not modelled. Its verdict is a boolean parameter.
- String lengths count characters, not UTF-16 code units.
- `toUpperCase` is ASCII-only. Other letters are kept as they are.
- Timestamps (`created_at`, `updated_at`, `Date.now()` file names) and date formatting are not modelled.
- The thin service wrappers for catalogs, products, reports and subscriptions are not modelled. The pages take their outcome as a success flag or result.
- List loading is reduced to a reload counter: `loadCatalogs`, `loadProducts`, `loadData` and `loadStats`.
- Legacy and placeholder pages (`src/pages/*.jsx`, dashboard, layout, header) are presentation only and not modelled.
- Rendering, icons, charts and confirm-dialog texts are not modelled. Toasts are recorded as values, and confirm answers are inputs.
- AuthStore.Store.Logout: the service's own rejection is an input, although `authService.logout` as written never rejects.
- Products.BulkDeleteRetry: the selection is set directly, because the page has no control that fills it. The scenario shows the handler's rule, not a path a user can take.
- When the router's navigation completes is not modelled. The mount scenarios take the route the visitor is on when the user fetch settles as an input, and later effect runs on the landing route are covered by `AuthProvider.RedirectTargetIsStable`.
- Concurrency is modelled as run-to-completion event steps. Interleavings inside one handler are not modelled.
