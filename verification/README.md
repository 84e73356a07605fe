# weddingmatch client core in Dafny

A model of the client-side logic of the weddingmatch single-page app, a marketplace
where couples view group discounts on wedding services and vendors answer quote
requests. Matching, pricing, authentication and persistence all run on a REST API
that the client only calls. The model covers the three pieces of client logic with
real contracts:

- **Vendor session store** (`auth_context.dfy`, module `Auth`). A vendor id and a
  bearer token are held in memory and mirrored into browser storage under the keys
  `vendorToken` and `vendorId`. The class `SessionStore` has a
  `map<string, string>` storage field and two `Option<string>` fields. Its invariant
  has two parts: the two fields are set or cleared together, and a reload at any
  moment would restore the current session, up to empty values (a session holding
  an empty id or token reloads as no session).
- **Vendor quotes view** (`vendor_quotes.dfy`, module `VendorQuotes`). The view
  checks the session, fetches the vendor's quotes once, and shows a loading, error
  or list screen. Accept first validates the pricing, and decline builds an optional
  trimmed reason; both happen before any request goes out. On success, only the
  quote with the matching id is replaced.
- **Match results view** (`match_results.dfy`, module `Matches`). The view
  redirects home when no onboarding criteria exist, and otherwise fetches deals once.
  It shows the screens in a fixed order: loading, then error, then the list. For
  each deal it derives the per-couple price and a savings figure that is never
  negative. A quote request does not touch the view's state.

Supporting modules:

- `Api` (`api.dfy`): the gateway. It holds the requests, the possible results of a
  `fetch`, and the check that turns any non-2xx response into a failure.
- `JsString` (`js_string.dfy`): JavaScript string truthiness and `trim`.
- `Entities` (`entities.dfy`) and `Wrappers` (`wrappers.dfy`): the value types.

How side effects are modelled:

- **Network.** A handler takes, as a parameter, the outcome the server would give
  (`Outcome<T>`: a response with its status, text and parsed data, or a transport
  failure). It returns the request it issued as `Option<Request>`. The outcome is
  consulted only when a request was issued, so "no network call on invalid input"
  is stated directly in the contracts.
- **Prompts.** A cancelled prompt is `None`. A pricing prompt is either `Cancelled`
  or `Entered(parsed)`, where `parsed` is what `parseFloat` produced (`None` for
  NaN).
- **Alerts.** Alert texts are returned as strings.

Behaviours of the code worth noting:

- When the vendor id is present but the token is empty or absent, the quotes view
  shows "Error: Vendor not authenticated. Please log in." on its error screen
  (`VendorQuotesPage.jsx` lines 138 and 155). It does not show the auth-required
  screen. `VendorQuotes.VisitQuotesPage` states this case.
- The session is restored only when both stored values are non-empty, not merely
  present. An empty string is falsy in the check at `AuthContext.jsx` line 13. After
  `login` with an empty value, a reload restores no session
  (`Auth.LoginRoundTrip`).
- A matches response whose JSON is `null` renders "No matches found". It is not an
  error (`Matches.Render`).

## Model

| member | source | states |
|---|---|---|
| `Api.CheckOk` | src/utils/api.js:7-10 | A fetch succeeds exactly when a response arrived with a 2xx status, and then yields the parsed data unchanged. A non-ok response fails with "HTTP error! status: N". A transport failure keeps its own message. |
| `Api.CheckOkWithText` | src/pages/VendorQuotesPage.jsx:82-87 | Same as `CheckOk`, except that the error for a non-ok accept or decline also carries " - " and the response text. |
| `Api.MessageOr` | src/pages/VendorQuotesPage.jsx:44 | `err.message` with a fallback: a non-empty message is kept, an empty one is replaced by the fallback. The result is empty only when both are empty. |
| `Api.FailureMessageNonEmpty` | src/pages/MatchResults.jsx:31 | A failed list fetch always leaves a non-empty, and so truthy, error. The error screen is therefore always reached. |
| `Api.DecimalRoundTrip` | src/utils/api.js:8 | The decimal rendering of a status code can be read back to the same number. |
| `Api.HttpErrorMessageNamesStatus` | src/utils/api.js:8 | The HTTP error message names its status: the status can be read back from it, and distinct statuses give distinct messages. |
| `JsString.Trim` | src/pages/VendorQuotesPage.jsx:109-110 | The trimmed reason is no longer than the input and neither starts nor ends with ECMAScript whitespace. |
| `JsString.TrimIsSlice` | src/pages/VendorQuotesPage.jsx:110 | The trimmed string is a contiguous slice of the input, with only whitespace removed on either side. |
| `JsString.TrimEmptyIffBlank` | src/pages/VendorQuotesPage.jsx:109 | Trimming yields the empty string exactly when the input is all whitespace. |
| `JsString.TrimIdempotent` | src/pages/VendorQuotesPage.jsx:110 | Trimming twice is the same as trimming once. |
| `Auth.Restored` | src/context/AuthContext.jsx:10-16 | The restored session has both fields or neither. It has them exactly when both stored values are present and non-empty, and then they equal the stored values. |
| `Auth.LoginTouchesOnlySessionKeys` | src/context/AuthContext.jsx:20-21 | `login` stores the token under `vendorToken` and the id under `vendorId`. Every other storage entry is unchanged. |
| `Auth.LogoutTouchesOnlySessionKeys` | src/context/AuthContext.jsx:28-29 | `logout` removes both session keys. Every other storage entry is unchanged. |
| `Auth.LoginRoundTrip` | src/context/AuthContext.jsx:10-23 | After `login(v, t)`, a restore yields exactly `(v, t)` when both are non-empty, and no session otherwise. |
| `Auth.LogoutRoundTrip` | src/context/AuthContext.jsx:10-31 | After `logout`, a restore yields no session, whatever else storage holds. |
| `Auth.SessionStore.constructor` | src/context/AuthContext.jsx:6-17 | Mounting the provider starts from null fields and runs the restore effect. The session is `Restored(storage)` and the invariant holds. |
| `Auth.SessionStore.Restore` | src/context/AuthContext.jsx:10-17 | Storage is unchanged. Both fields are set from storage only when both stored values are truthy; otherwise the session is left as it was. On a valid store this is a no-op. |
| `Auth.SessionStore.Login` | src/context/AuthContext.jsx:19-25 | Storage becomes the old storage with the two keys written. Both fields become exactly the given values. The invariant holds afterwards. |
| `Auth.SessionStore.Logout` | src/context/AuthContext.jsx:27-33 | Storage loses exactly the two keys. Both fields become null. The invariant holds afterwards. |
| `Auth.ReloadAfterLogin` | src/context/AuthContext.jsx:10-25 | Logging in and then reloading restores exactly the logged-in session when both values are non-empty. Other storage entries survive. |
| `Auth.ReloadAfterLogout` | src/context/AuthContext.jsx:10-33 | Logging out and then reloading restores no session. |
| `VendorQuotes.PlanAccept` | src/pages/VendorQuotesPage.jsx:49-80 | A request is issued exactly when both prompts were answered with numbers greater than 0 and the token is truthy. The request is then a PUT to `/api/quotes/{id}/accept`, with the bearer token and the parsed pricing pair. |
| `VendorQuotes.AcceptAbortOrder` | src/pages/VendorQuotesPage.jsx:54-70 | The aborts are checked in order, and the first to apply gives the alert: a cancelled prompt, then an invalid number, then a missing token. |
| `VendorQuotes.DeclineReasonField` | src/pages/VendorQuotesPage.jsx:108-111 | The body has `reason` exactly when the prompt was answered with something other than whitespace. Its value is then the trimmed, non-empty text. |
| `VendorQuotes.PlanDecline` | src/pages/VendorQuotesPage.jsx:98-120 | Only a missing token aborts a decline. A cancelled or blank reason still sends a PUT to `/api/quotes/{id}/decline` with body `{}`. |
| `VendorQuotes.PatchById` | src/pages/VendorQuotesPage.jsx:88-90 | The patched list has the same length and order. Each quote with the id becomes the reply, and every other quote is unchanged. |
| `VendorQuotes.PatchAbsentIdIsIdentity` | src/pages/VendorQuotesPage.jsx:128-130 | A reply for an id that the list does not hold leaves the list unchanged. |
| `VendorQuotes.PatchKeepsIds` | src/pages/VendorQuotesPage.jsx:88-90 | When the server returns the quote under its own id, the list keeps its ids in order. |
| `VendorQuotes.PatchIdempotent` | src/pages/VendorQuotesPage.jsx:128-130 | Applying the same reply twice gives the same list as applying it once. |
| `VendorQuotes.Cards` | src/pages/VendorQuotesPage.jsx:171-218 | There is one card per quote, in list order. Accept and decline buttons appear exactly for quotes whose status is `pending`. |
| `VendorQuotes.Render` | src/pages/VendorQuotesPage.jsx:138-169 | Precedence: no vendor id and not loading gives the auth screen, whose message is the error when truthy and the not-authenticated text otherwise. Otherwise loading shows the loading screen. Otherwise a truthy error shows the error screen with that error. Otherwise the list shows, or the empty message when there are no quotes. A list is never shown while loading or with an error, and an error screen never without one. |
| `VendorQuotes.QuotesView.constructor` | src/pages/VendorQuotesPage.jsx:12-15 | The first render has an empty list, is loading and has no error. |
| `VendorQuotes.QuotesView.StartFetch` | src/pages/VendorQuotesPage.jsx:17-31 | Without a truthy id and token, no request is issued, loading ends and the not-authenticated error is set. Otherwise the view is loading, the error is cleared and the authorised GET for the vendor's quotes is issued. |
| `VendorQuotes.QuotesView.FinishFetch` | src/pages/VendorQuotesPage.jsx:32-46 | Loading ends. An ok reply's list is stored as received. A failure sets the error (the message or the fallback) and keeps the list. |
| `VendorQuotes.QuotesView.AcceptQuote` | src/pages/VendorQuotesPage.jsx:49-96 | When the plan aborts, no request is sent, the abort alert shows and the list is unchanged. On an ok reply the list is `PatchById(old list, id, reply)`. On an HTTP or transport failure the list is unchanged and the alert carries the message. Loading and error are never touched. |
| `VendorQuotes.QuotesView.DeclineQuote` | src/pages/VendorQuotesPage.jsx:98-136 | Same structure as accept, with only the missing-token abort. |
| `VendorQuotes.VisitQuotesPage` | src/pages/VendorQuotesPage.jsx:17-169 | Without a session, no request is sent and the auth message shows (or the error screen, when only the token is missing). A failed fetch shows the error and never a list. An ok fetch shows exactly the server's list, or the empty message. |
| `VendorQuotes.AcceptAfterLoad` | src/pages/VendorQuotesPage.jsx:17-96 | On a loaded list, invalid pricing stops the request and nothing changes. In every case the list keeps its length and order, and quotes with other ids are untouched. |
| `Matches.ToFixed0` | src/pages/MatchResults.jsx:75 | `toFixed(0)` gives an integer within 0.5 of the value, with ties rounded away from zero. |
| `Matches.PerCouple` | src/pages/MatchResults.jsx:75 | The per-couple price is within 0.5 of the total cost divided by the matched couples. |
| `Matches.PerCoupleOfEvenSplit` | src/pages/MatchResults.jsx:75 | A cost that splits evenly gives exactly the share. |
| `Matches.Savings` | src/pages/MatchResults.jsx:76-78 | Savings are never negative. They are positive exactly when a numeric budget exceeds the per-couple price, and then they equal the difference. |
| `Matches.FlowersExample` | src/pages/MatchResults.jsx:75-78 | A total of 1200 shared by 5 couples gives 240 each. That saves 60 on a budget of 300 and 0 on a budget of 200. |
| `Matches.Card` | src/pages/MatchResults.jsx:74-91 | Each deal card shows the service, couple count, per-couple price and savings. The savings line appears only when the savings are positive. |
| `Matches.Cards` | src/pages/MatchResults.jsx:74 | There is one card per deal, in the server's order. |
| `Matches.Render` | src/pages/MatchResults.jsx:14-127 | Precedence: no criteria redirects to `/`. Otherwise loading shows the loading screen. Otherwise a truthy error shows the error screen carrying that error and the go-home target `/`, and the error screen appears only then. Otherwise the deals show as cards priced against the budget, or "No matches found" when the list is empty or null. Deals never show with an error. |
| `Matches.MatchView.constructor` | src/pages/MatchResults.jsx:9-11 | The first render has an empty list, is loading and has no error. |
| `Matches.MatchView.StartFetch` | src/pages/MatchResults.jsx:20-24 | The effect sets loading, clears the error and issues the matches GET for the criteria. |
| `Matches.MatchView.FinishFetch` | src/pages/MatchResults.jsx:24-33 | Loading ends. An ok reply's list is stored in server order. A failure sets the error (the message or the fallback) and keeps the list. |
| `Matches.MatchView.RequestQuote` | src/pages/MatchResults.jsx:97-121 | The request is a POST to `/api/quotes` with the service, the per-couple price and the criteria, and no auth header. The alert reports the outcome. No state is modified. |
| `Matches.VisitMatchesPage` | src/pages/MatchResults.jsx:6-35 | Without criteria, no request is sent and the view redirects home. A failed fetch shows the error with the go-home action and never a deal. An ok fetch shows the deals in order, or "No matches found". |
| `Matches.QuoteFromLoadedList` | src/pages/MatchResults.jsx:97-121 | On a loaded list, a quote request leaves the rendered screen unchanged, and it sends the deal's displayed per-couple price. |

## Left out

- JSX markup, styling classes and date formatting (`toLocaleDateString` and `toLocaleString`) are presentation only. The quote's group and details blocks are rendered text and are not modelled.
- `fetch`, `prompt`, `alert`, `localStorage`, `JSON.stringify` and `response.json()` are browser APIs. Each network call's result is a parameter, prompts are `Option` inputs, alerts are returned strings, and storage is a map. A body that fails to parse as JSON is treated as a transport failure. The quote-request acknowledgement is a string standing for `JSON.stringify(result)`.
- The query string built by `URLSearchParams` in `src/utils/api.js`: the matches request carries the criteria themselves.
- Floating-point numerics:
  - `parseFloat` leniency (a parsed price is an abstract `Option<real>`, so a parsed `Infinity` is not modelled);
  - binary rounding in `toFixed` (`ToFixed0` rounds the exact real value);
  - the coercion of the budget text to a number (the views take it as an `Option<real>`, with `None` for NaN).
- `Matches.MatchView.RequestQuote`: the source sends `cost` as the string `toFixed` returns; the model sends the integer it denotes.
- React scheduling:
  - effect order between the session provider and its children (on a reload, the quotes page's mount effect can run before the session is restored);
  - StrictMode double effects;
  - the hook-order issue of the early return before `useEffect`;
  - replies that arrive after unmount;
  - duplicate clicks.
- A session that changes while the quotes view is mounted: the view takes the vendor id and token as constants, as its mount effect (empty dependency list) does.
- A quotes reply whose JSON is not a list: the model's reply is a list.
- A matches reply whose JSON is neither a list nor `null`: the model's reply is a list or `null`. In the source, an object or a number renders "No matches found", and a string makes the `.map` call at `src/pages/MatchResults.jsx` line 74 throw.
- A deal with zero matched couples: the model assumes a positive count.
- `login` called with `undefined` values, which the browser would store as the text "undefined": the model's `login` takes strings.
- `console.error` logging, the unused mock deal list, routing (`src/App.jsx`), the static vendor dashboard, the intake form and the onboarding store. The view receives the criteria as an `Option<Criteria>` input.
