# A verified model of the listing and login core of a Remix admin app

This project models the state logic around the app's listing pages and its
login page. All of it is React/Remix code, treated as a sequence of events:

- **Listing reconciler** (`useListingData`): keeps one current listing page.
  Listing pages arrive on two channels, the route loader and a fetcher, and
  each arrival follows the same rule:
  - when the page has no hits, the URL's `page` parameter is set and it
    differs from the page the server reported, the hook asks for that nearest
    page (page drift) and keeps its data;
  - otherwise it adopts the arriving page.

  Either way it may raise an error toast. The two channels test for the toast
  differently.
- **Deferred-result handler** (`useDeferData`): resolves loader data
  deeply on every change of its identity. It keeps the last value and
  raises an error flag, except when the failure is the framework's
  "Deferred data aborted" cancellation.
- **Branding listing route**:
  - the loader builds the listing page: default page and page size, the page
    clamped to the pages that exist, a fallback page when the service throws;
  - `handleRequest` overlays new parameters on the URL's parameters, then loads
    the result and writes it to the URL;
  - the delete, create and edit result effects notify, re-request and close
    their modal;
  - each of the three mutations has a busy flag.
- **Login route**:
  - the action validates the form, logs in and assembles the session data:
    the token string, the redirect default and the remember default;
  - the page reports a failed login;
  - the page consumes the session-expired marker in the URL, deleting it from
    the search-params object in place.
- **Small rules**:
  - `handleGetMessageToToast`, the translated description of a failed
    action;
  - `preventRevalidateOnListingPage`, a membership test of the pathname
    against a constant list;
  - `PageErrorBoundary`, which redirects to `/500` unless the path already
    contains `500`.

## How effects and identity are modelled

- An effect becomes an explicit `Render` (or handler) method on a class that
  holds the hook's state fields. The effect runs on mount and when its
  dependency changes.
- Object identity is an object (`Common.Ref` or a class instance), compared
  by reference. Effects keyed on an object, such as the loader data or the
  search-params object, are keyed on that identity.
- Callbacks and notifications are ghost logs on the class: nearest-page
  calls, toasts, notices, loads and URL updates.
- Each state-changing method is tied to a pure specification function of the
  old state: `Arrive`/`Step`/`Replay` for the reconciler and `Start`/`Settle`
  for the deferred handler.
- The properties are proved about those functions, for example that the last
  adopting arrival wins (`ListingData.LastArrivalWins`, proved equal to an
  independent end-first definition).
- Services and framework functions have no visible body here. They appear as
  function-typed parameters or constant fields:
  - `getBrandings`, `login`, `createSession`;
  - `t` (i18n), the URL encryption, `handleCatchClauseAsMessage`;
  - the `RecordsPerPage`, `StatusCodeMappingToString` and
    `SessionExpiredParams` constants.
- JavaScript semantics are written out:
  - `includes` is an occurrence anywhere;
  - `toString` of a number, with its inverse `ParseInt`;
  - truthiness of strings and numbers;
  - `URLSearchParams.get`/`delete` over ordered pairs;
  - object spread as map union, where a key present with `undefined` still
    overrides.

## Model

| member | source | states |
|---|---|---|
| Common.Includes | src/components/PageErrorBoundary/PageErrorBoundary.tsx:11 | `includes`: an occurrence at some position; a string longer than the text never occurs in it |
| Common.IntToString | src/overrides/RemixJS/src/hooks/useListingData/src/useListingData.tsx:37 | `toString` of an integer: `-` iff negative, then at least one decimal digit, digits only, no leading zero |
| Common.IsInFlight | src/overrides/RemixJS/src/hooks/useListingData/src/useListingData.tsx:29 | the busy test holds exactly when the state is not idle (loading or submitting) |
| Common.NatToString | src/overrides/RemixJS/src/hooks/useListingData/src/useListingData.tsx:37 | decimal rendering of a page number: non-empty, digits only, no leading zero |
| Common.ParseIntToString | src/overrides/RemixJS/src/hooks/useListingData/src/useListingData.tsx:37 | parsing the decimal rendering of any integer gives that integer back |
| Common.IntToStringInjective | src/overrides/RemixJS/src/hooks/useListingData/src/useListingData.tsx:37 | distinct page numbers render as distinct strings |
| Common.IncludesAnywhere | src/components/PageErrorBoundary/PageErrorBoundary.tsx:11 | `includes` finds a substring wherever it is placed |
| Common.FirstValue | src/routes/Auth/src/_auth.login.tsx:74 | `get` gives a value iff some pair has that name, and the value is that of the first such pair |
| Common.WithoutName | src/routes/Auth/src/_auth.login.tsx:79 | `delete` keeps only pairs of the original whose name differs |
| Common.WithoutNameGet | src/routes/Auth/src/_auth.login.tsx:74-80 | after `delete(name)`, `get(name)` is null and `get` of every other name is unchanged |
| Common.WithoutAbsentName | src/routes/Auth/src/_auth.login.tsx:73-81 | deleting an absent name leaves the parameters as they were |
| Common.WithoutNameSnoc | src/routes/Auth/src/_auth.login.tsx:79 | deleting distributes over appending one pair: it is kept iff its name differs |
| ListingData.IsPageDrift | src/overrides/RemixJS/src/hooks/useListingData/src/useListingData.tsx:34-38 | drift needs a present, non-empty URL page and never happens for a page with hits (the same test at 55-59) |
| ListingData.ToastOf | src/overrides/RemixJS/src/hooks/useListingData/src/useListingData.tsx:43-48 | fetcher channel toasts iff `toastMessageError` is a string (the empty string included); loader channel iff it is truthy; the message is `toastMessageError` |
| ListingData.Arrive | src/overrides/RemixJS/src/hooks/useListingData/src/useListingData.tsx:32-72 | absent payload changes nothing; drift calls back with the payload's page and keeps the data; otherwise the payload becomes the data; the toast is decided independently |
| ListingData.ReplaySnoc | src/overrides/RemixJS/src/hooks/useListingData/src/useListingData.tsx:51 | processing one more arrival is one more step after the previous ones |
| ListingData.ReplayPages | src/overrides/RemixJS/src/hooks/useListingData/src/useListingData.tsx:34-39 | the nearest-page calls are the pages of the drifting arrivals, in order |
| ListingData.ReplayToasts | src/overrides/RemixJS/src/hooks/useListingData/src/useListingData.tsx:43-48 | the toasts are those of every arrival, in order, whatever the drift decision |
| ListingData.ReplayData | src/overrides/RemixJS/src/hooks/useListingData/src/useListingData.tsx:40-42 | the data after any sequence of arrivals is the payload of the latest adopting arrival, else the initial data |
| ListingData.LastArrivalWins | src/overrides/RemixJS/src/hooks/useListingData/src/useListingData.tsx:32-72 | the whole trace (data, callbacks, toasts) equals the end-first reference definitions |
| ListingData.FetcherAfterLoader | src/overrides/RemixJS/src/hooks/useListingData/src/useListingData.tsx:40-42 | an adopting fetcher payload after a loader payload is the data, whatever the loader carried |
| ListingData.NoPageParameterNoDrift | src/overrides/RemixJS/src/hooks/useListingData/src/useListingData.tsx:36 | without a URL page, or with an empty one, there is never drift |
| ListingData.DriftOnOtherPage | src/overrides/RemixJS/src/hooks/useListingData/src/useListingData.tsx:34-39 | an empty page whose URL page names another number drifts |
| ListingData.NoDriftMeansSamePage | src/overrides/RemixJS/src/hooks/useListingData/src/useListingData.tsx:37 | an empty page that does not drift under a non-empty URL page has exactly the URL's page number |
| ListingData.LeadingZeroIsDrift | src/overrides/RemixJS/src/hooks/useListingData/src/useListingData.tsx:37 | the comparison is textual: for every page, the URL page written with a leading zero (`03` for 3) drifts |
| ListingData.RenderIsReplay | src/overrides/RemixJS/src/hooks/useListingData/src/useListingData.tsx:32-72 | a render is the replay of the fetcher arrival and then the loader arrival, for the handlers that run |
| ListingData.ListingReconciler.constructor | src/overrides/RemixJS/src/hooks/useListingData/src/useListingData.tsx:25 | the initial data is the loader payload given at creation, which is also recorded as the mount-time loader reference; no callbacks, no toasts |
| ListingData.ListingReconciler.IsFetchingList | src/overrides/RemixJS/src/hooks/useListingData/src/useListingData.tsx:28-30 | true iff there is no data or the fetcher is busy |
| ListingData.ListingReconciler.OnFetcherData | src/overrides/RemixJS/src/hooks/useListingData/src/useListingData.tsx:32-49 | the new state and logs are one fetcher-channel step of the old ones |
| ListingData.ListingReconciler.OnLoaderData | src/overrides/RemixJS/src/hooks/useListingData/src/useListingData.tsx:53-70 | the new state and logs are one loader-channel step of the old ones |
| ListingData.ListingReconciler.Render | src/overrides/RemixJS/src/hooks/useListingData/src/useListingData.tsx:51 | the first render sees the loader reference given at creation; each handler runs on mount or when its own payload reference changed; an unchanged re-render changes nothing |
| DeferData.IsAborted | src/overrides/RemixJS/src/hooks/useDeferData/src/useDeferData.ts:28 | a cancellation is an `Error` whose message is at least as long as the marker (it contains it) |
| DeferData.AbortedAnywhere | src/overrides/RemixJS/src/hooks/useDeferData/src/useDeferData.ts:28 | an `Error` whose message contains the marker anywhere is a cancellation |
| DeferData.NonErrorIsNotAborted | src/overrides/RemixJS/src/hooks/useDeferData/src/useDeferData.ts:28 | a thrown non-`Error` is never a cancellation |
| DeferData.ShortMessageIsNotAborted | src/overrides/RemixJS/src/hooks/useDeferData/src/useDeferData.ts:28 | a message shorter than the marker is never a cancellation |
| DeferData.Start | src/overrides/RemixJS/src/hooks/useDeferData/src/useDeferData.ts:22 | an attempt starts by clearing the error flag and keeps the data |
| DeferData.Settle | src/overrides/RemixJS/src/hooks/useDeferData/src/useDeferData.ts:23-30 | a resolution stores the value; a rejection keeps the data and sets the flag iff it is not a cancellation |
| DeferData.ResolvedAttempt | src/overrides/RemixJS/src/hooks/useDeferData/src/useDeferData.ts:22-25 | a successful attempt leaves the value and no error |
| DeferData.RejectedAttemptKeepsData | src/overrides/RemixJS/src/hooks/useDeferData/src/useDeferData.ts:26-29 | a failed attempt keeps the previous value; the flag is raised iff not a cancellation |
| DeferData.CancellationVersusError | src/overrides/RemixJS/src/hooks/useDeferData/src/useDeferData.ts:17-29 | from the start a cancellation leaves nothing and no error; after a value, another failure keeps it and raises the error |
| DeferData.DeferredResolver.constructor | src/overrides/RemixJS/src/hooks/useDeferData/src/useDeferData.ts:17-18 | no data, no error |
| DeferData.DeferredResolver.Render | src/overrides/RemixJS/src/hooks/useDeferData/src/useDeferData.ts:31-35 | an attempt starts exactly on mount or a change of the loader data's identity, clears the error and becomes pending |
| DeferData.DeferredResolver.Settled | src/overrides/RemixJS/src/hooks/useDeferData/src/useDeferData.ts:23-30 | only a pending attempt settles, once; the new state is the settlement of the old one |
| ToastMessage.ErrorKey | src/utils/functions/handleErrors/handleGetMessageToToast.tsx:15 | `error_message:` followed by the code's name, or by `undefined` for an unmapped code |
| ToastMessage.GetMessageToToast | src/utils/functions/handleErrors/handleGetMessageToToast.tsx:10-17 | none iff no error; a truthy code gives the translated key of its name; a falsy code gives the translated `UNKNOWN` key |
| ToastMessage.OnlyErrorFieldsMatter | src/utils/functions/handleErrors/handleGetMessageToToast.tsx:10 | the description depends on `hasError` and `errorCode` only |
| ToastMessage.FailureIsTranslated | src/utils/functions/handleErrors/handleGetMessageToToast.tsx:14-17 | for a failure the result is always a translation of an `error_message:` key |
| Revalidate.Find | src/utils/functions/preventRevalidateOnListingPage.ts:6 | `find` gives an entry iff the pathname is listed, and that entry is the pathname |
| Revalidate.ShouldRevalidate | src/utils/functions/preventRevalidateOnListingPage.ts:5-10 | true iff the pathname is listed exactly (and, by `find`'s truthiness, non-empty) |
| Revalidate.PreventRevalidateOnListingPage | src/utils/functions/preventRevalidateOnListingPage.ts:3-10 | with the list as declared (`Revalidate.Paths`, empty) the answer is always false |
| Revalidate.NoPrefixMatch | src/utils/functions/preventRevalidateOnListingPage.ts:6 | a listed path does not match a longer pathname that extends it |
| Revalidate.OnlyPathnameMatters | src/utils/functions/preventRevalidateOnListingPage.ts:5-6 | arguments with the same current pathname get the same answer |
| ErrorBoundary.ShouldRedirect | src/components/PageErrorBoundary/PageErrorBoundary.tsx:11 | redirect unless the path includes `500`; a path shorter than three characters always redirects |
| ErrorBoundary.NoRedirectLoop | src/components/PageErrorBoundary/PageErrorBoundary.tsx:11-12 | on `/500` itself no redirect happens |
| ErrorBoundary.AnyPathWith500 | src/components/PageErrorBoundary/PageErrorBoundary.tsx:11 | any path containing `500`, such as `/branding/1500`, suppresses the redirect |
| ErrorBoundary.RedirectWithoutFive | src/components/PageErrorBoundary/PageErrorBoundary.tsx:11-13 | a path without the digit 5, such as `/dashboard`, is redirected |
| ErrorBoundary.PageErrorBoundary.constructor | src/components/PageErrorBoundary/PageErrorBoundary.tsx:4-7 | not yet mounted, no navigation |
| ErrorBoundary.PageErrorBoundary.Render | src/components/PageErrorBoundary/PageErrorBoundary.tsx:9-15 | navigates to `/500` once iff the error is new (or on mount) and the path lacks `500` |
| BrandingIndex.NumberOr | src/routes/Dashboard/src/BrandingRoutes/src/_dashboard.branding._index.tsx:34-35 | a destructuring default replaces an absent or undefined number only |
| BrandingIndex.Query | src/routes/Dashboard/src/BrandingRoutes/src/_dashboard.branding._index.tsx:33-54 | page defaults to 1, page size to `RecordsPerPage`; always the four criteria (`status` eq the status; `BrandingCode`, `BrandingName`, `updatedBy` contain the search text) and the sort mapped from the branding-code order |
| BrandingIndex.ClampPage | src/routes/Dashboard/src/BrandingRoutes/src/_dashboard.branding._index.tsx:64 | exactly `Math.min` of the page and the total-or-1: never above the request nor above the total (1 for a total of 0, a negative total taken as it is), and one of the two; at least 1 for a request of at least 1 and a non-negative total |
| BrandingIndex.ClampIdempotent | src/routes/Dashboard/src/BrandingRoutes/src/_dashboard.branding._index.tsx:64 | clamping a clamped page changes nothing |
| BrandingIndex.Loader | src/routes/Dashboard/src/BrandingRoutes/src/_dashboard.branding._index.tsx:28-76 | success: hits and total pages passed through, total records from total rows, page clamped, no toast; failure: requested page, no hits, pagination 1/0/0, a toast |
| BrandingIndex.LoaderPageInRange | src/routes/Dashboard/src/BrandingRoutes/src/_dashboard.branding._index.tsx:64 | a successful response's page is within the pages that exist |
| BrandingIndex.DriftCorrectionSettles | src/routes/Dashboard/src/BrandingRoutes/src/_dashboard.branding._index.tsx:64 | re-requesting the reported page under the same total reports it again, so the correction does not drift again |
| BrandingIndex.Merge | src/routes/Dashboard/src/BrandingRoutes/src/_dashboard.branding._index.tsx:91-94 | key-wise overlay: every key of either, the new value winning |
| BrandingIndex.FilterChangeParams | src/routes/Dashboard/src/BrandingRoutes/src/_dashboard.branding._index.tsx:218-225 | the form values with status and search set (undefined when absent) and page 1 |
| BrandingIndex.PageParams | src/routes/Dashboard/src/BrandingRoutes/src/_dashboard.branding._index.tsx:102 | only the page key, holding the given page |
| BrandingIndex.FilterChangeRequestsFirstPage | src/routes/Dashboard/src/BrandingRoutes/src/_dashboard.branding._index.tsx:218-225 | a filter change asks for page 1 whatever the URL holds |
| BrandingIndex.DriftCorrectionRequestsPage | src/routes/Dashboard/src/BrandingRoutes/src/_dashboard.branding._index.tsx:102 | a drift correction asks for exactly the given page and keeps the URL's other parameters |
| BrandingIndex.MutationResult | src/routes/Dashboard/src/BrandingRoutes/src/_dashboard.branding._index.tsx:116-132 | handled iff data and idle; failure gives the kind's error notice with the toast description; success gives the kind's success notice |
| BrandingIndex.CloseModal | src/routes/Dashboard/src/BrandingRoutes/src/_dashboard.branding._index.tsx:130 | closes the kind's modal and no other |
| BrandingIndex.BrandingPage.constructor | src/routes/Dashboard/src/BrandingRoutes/src/_dashboard.branding._index.tsx:108-110 | all fetchers idle and unseen, all modals closed, no logs |
| BrandingIndex.BrandingPage.IsBusy | src/routes/Dashboard/src/BrandingRoutes/src/_dashboard.branding._index.tsx:112-114 | true iff that mutation's fetcher is not idle |
| BrandingIndex.BrandingPage.HandleRequest | src/routes/Dashboard/src/BrandingRoutes/src/_dashboard.branding._index.tsx:90-97 | the same encrypted overlay is loaded under `/branding` and written to the URL, once each |
| BrandingIndex.BrandingPage.GetNearestPageAvailable | src/routes/Dashboard/src/BrandingRoutes/src/_dashboard.branding._index.tsx:102 | one request for the URL's parameters with the given page |
| BrandingIndex.BrandingPage.OnFilterChange | src/routes/Dashboard/src/BrandingRoutes/src/_dashboard.branding._index.tsx:218-225 | one request for the URL's parameters with the filter and page 1 |
| BrandingIndex.BrandingPage.OpenModal | src/routes/Dashboard/src/BrandingRoutes/src/_dashboard.branding._index.tsx:238-240 | opens the kind's modal, on the record where it holds one |
| BrandingIndex.BrandingPage.OnMutationFetcher | src/routes/Dashboard/src/BrandingRoutes/src/_dashboard.branding._index.tsx:116-134 | runs when the state changed; failure: one notice, no request, modal kept; success: one notice, one request with the URL's parameters, that modal closed; other fetchers untouched |
| AuthLogin.RedirectTarget | src/routes/Auth/src/_auth.login.tsx:27-33 | the `redirectTo` parameter when present, even empty, else `/dashboard` |
| AuthLogin.EmptyRedirectIsKept | src/routes/Auth/src/_auth.login.tsx:33 | an empty `redirectTo` is kept, not replaced by the default |
| AuthLogin.Token | src/routes/Auth/src/_auth.login.tsx:36 | the token type, one space, then the access token |
| AuthLogin.SplitAtFirstSpace | src/routes/Auth/src/_auth.login.tsx:36 | splits at the first space: the parts rejoin with that space and the first has none |
| AuthLogin.TokenRoundTrip | src/routes/Auth/src/_auth.login.tsx:36 | a token type without spaces and the access token are recovered from the joined token |
| AuthLogin.NewSession | src/routes/Auth/src/_auth.login.tsx:31-44 | redirect as above, remember iff the form said true, token joined with a space, the refresh token, an empty avatar with the member's name and role |
| AuthLogin.Action | src/routes/Auth/src/_auth.login.tsx:21-51 | invalid values give the resolver errors without login; a failed (awaited) login or a synchronous throw of the session store gives the catch response; a later rejection of the unawaited session promise rejects the action with no catch response; a session only from a successful login with the form's credentials |
| AuthLogin.InvalidFormIgnoresServices | src/routes/Auth/src/_auth.login.tsx:29-46 | with invalid values neither service affects the answer |
| AuthLogin.UrlSearchParams.constructor | src/routes/Auth/src/_auth.login.tsx:57 | the object holds the given pairs |
| AuthLogin.UrlSearchParams.Get | src/routes/Auth/src/_auth.login.tsx:74 | a value iff some pair has the name, and it is the first such pair's value |
| AuthLogin.UrlSearchParams.Delete | src/routes/Auth/src/_auth.login.tsx:79 | the pairs become those without the name, in order |
| AuthLogin.LoginErrorNotices | src/routes/Auth/src/_auth.login.tsx:63-69 | one notice iff the action data reports an error, titled `auth:login_error` with the toast description |
| AuthLogin.LoginPage.constructor | src/routes/Auth/src/_auth.login.tsx:53-57 | not yet mounted, navigation idle, no notices, no URL updates |
| AuthLogin.LoginPage.IsSubmiting | src/routes/Auth/src/_auth.login.tsx:59-61 | true iff the navigation is loading or submitting |
| AuthLogin.LoginPage.Render | src/routes/Auth/src/_auth.login.tsx:63-83 | per new action data, the login-error notice; per new search-params object holding the marker, exactly one session-expired notice, the marker alone deleted in place, one URL update |

## Left out

- JSX, tables, forms and modal rendering are not modelled. `PageErrorBoundary` renders nothing, and that is not modelled either.
- The `useWindowReactive` refresh is not modelled. Neither are the sort, pagination and refresh callbacks of the table and filter: each is a plain `handleRequest` call of the same shape as those modelled.
- Services and framework functions without a body here are inputs or logged events, not models. These are:
  - `getBrandings`, `login`, `createSession`;
  - `getValidatedFormData`, `handleFormResolverError`, `handleCatchClause*`;
  - `deepAwaited`, the URL encryption and decryption, `notification`, `t`;
  - `updateURLSearchParamsOfBrowserWithoutNavigation`.
- Promise scheduling and React batching are not modelled. Effects are events applied one at a time. Overlapping deferred-resolution attempts settle in any order through `DeferData.DeferredResolver.Settled`.
- `console.log` calls and the debug button are left out.
- Common.NatToString: page numbers are integers; the rendering of non-integral or very large numbers (`1e21`) is not modelled.
- AuthLogin.Action: the session store's redirect response and cookie are abstracted to how its call ends (returns, throws synchronously, rejects later).
- DeferData.DeferredResolver.Settled: the pending count says that a settlement belongs to some started attempt, not to which one.
- BrandingIndex.Loader: the decrypted parameters are assumed to carry the declared types (`WellTyped`); decryption itself is not modelled.
- Behaviour of the code that a reader might not expect, modelled as written:
  - `useDeferData` has no stale-attempt guard: of overlapping attempts, whichever settles last decides.
  - A cancellation leaves `data` as it was, which may be an earlier value rather than `undefined`.
  - The fetcher channel toasts an empty `toastMessageError`; the loader channel does not.
  - `preventRevalidateOnListingPage` tests what `find` returns for truthiness, so an empty listed pathname would not count.
  - A negative `totalPages` is truthy, so the clamp can report a negative page.
