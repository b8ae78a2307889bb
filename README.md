# Inmobiliaria frontend — authentication and session lifecycle in Dafny

This project models the authentication core of the inmobiliaria frontend, a React
single-page application for landlords and their legal advisers. It also models a few
small decision rules from the pages around that core. Every operation is stated as
Dafny code and proved against a contract.

- **Token store and request hooks** (`http.dfy`, module `Http`). The module-level
  access token is a `TokenStore` object. The request interceptor adds
  `Authorization: Bearer <token>` (section 2.1 of RFC 6750) only when the token is
  truthy. The response interceptor passes outcomes through unchanged.
- **Auth gateway** (`auth_api.dfy`, module `AuthApi`). The five calls are login, me,
  refresh, logout and the OAuth code exchange. Server payloads are a small JSON
  datatype. Login, refresh and the code exchange validate the payload against the
  login-response schema (refresh only its `accessToken`), project it to
  `AuthTokens`/`AuthUser`, and only then write the token store. `me` validates the
  user object and never writes the store. `logout` validates nothing and clears the
  store once its post resolves.
- **Session state machine** (`auth_session.dfy`, module `AuthSession`). The provider's
  state and the token store together form a `Snapshot`. Every transition is one case
  of the pure function `Next`. The `AuthProvider` class methods are proved to move
  their state exactly as `Next` says. The invariants are proved over arbitrary sequences
  of transitions: user and tokens are both set or both clear, and `isLoading` never
  becomes true again.
- **OAuth authorization-code flow** (RFC 6749 section 4.1, with `state` as the CSRF
  defence of section 10.12). `oauth_initiation.dfy` holds the lowercase base16 encoder
  (section 8 of RFC 4648) that turns 32 random bytes into the 64-character `state`. It
  also holds the Google and Microsoft authorization parameters (section 4.1.1).
  `oauth_callback.dfy` holds the callback page's check-code, check-state,
  remove-challenge, exchange, install, navigate sequence.
- **Route guard** (`router.dfy`). The bounded wait loop of `beforeLoad`, the redirect
  decision, the loading view and the route tree.
- **Pages** (`app_layout.dfy`, `contract_create.dfy`, `buildings.dfy`):
  - the bottom-navigation active-item rule;
  - the four-step contract wizard;
  - the buildings search filter and its validation-error map.

Browser facilities are inputs or plain state:
- sessionStorage is a `SessionStorage` object over a `map<string, string>`;
- `crypto.getRandomValues` is an input byte sequence;
- the network is a `Result<Json, HttpError>` outcome given to each call;
- navigation is a recorded target path;
- the zod email check is a predicate parameter `isEmail`.

Three behaviours of the code deserve a note:
- A failed, uncancelled bootstrap keeps the previous `user` and `tokens`
  (`...prev`), clears the token store and only sets `isLoading` to false. It ends
  signed out only because bootstrap starts from the initial state
  (`AuthSession.FailedBootstrapLogsOut`).
- A cancelled bootstrap does not call `setState`, but `authApi.refresh` has already
  written the refreshed token into the store before the `cancelled` flag is read
  (`AuthSession.CancelledBootstrapKeepsState`).
- Roles from the server are accepted as arbitrary strings. They are not checked
  against the declared set `landlord`/`admin`/`legal` (`AuthApi.UndeclaredRoleAccepted`).

Other notes:
- The gateway's `logout` clears the token store only after the server call succeeds.
  The provider's `logout` always clears it, in its `finally` block.
- A missing OAuth client id only logs and returns. No error is surfaced.

## Model

| member | source | states |
|---|---|---|
| Http.WithBearer | src/api/http.ts:16-24 | the headers after the request hook: every key other than `Authorization` is kept with its value; `Authorization` becomes `Bearer <token>` exactly when the token is truthy; with a null or empty token the headers are returned untouched |
| Http.BearerAttachedIff | src/api/http.ts:17-21 | for headers without an `Authorization` entry, the hook adds one if and only if the token is truthy, and its value is `"Bearer " + token` |
| Http.TokenStore.constructor | src/api/http.ts:3 | the store starts empty (null token) |
| Http.TokenStore.SetAccessToken | src/api/http.ts:5-9 | after `setAccessToken(t)`, `getAccessToken()` returns `t` |
| Http.TokenStore.InterceptRequest | src/api/http.ts:16-24 | the hook returns the same config object and only its headers change, to `WithBearer` of the old headers and the current token |
| Http.InterceptResponse | src/api/http.ts:27-33 | responses and rejections come back unchanged, once, with no retry |
| Http.RequestConfig.constructor | src/api/http.ts:16 | a request config holds its verb, URL, body and headers as given |
| Browser.SessionStorage.constructor | src/shared/pages/OAuthCallbackPage.tsx:27 | storage starts with the given entries |
| Browser.SessionStorage.GetItem | src/shared/pages/OAuthCallbackPage.tsx:27 | `getItem` is null exactly when the key is absent, and otherwise the stored value |
| Browser.SessionStorage.SetItem | src/shared/pages/auth/GoogleOAuthPage.tsx:18 | `setItem` overwrites exactly one key; reading it back gives the value written |
| Browser.SessionStorage.RemoveItem | src/shared/pages/OAuthCallbackPage.tsx:33 | `removeItem` deletes exactly one key; reading it back gives null |
| AuthApi.StringItems | src/api/auth.ts:11 | `z.array(z.string())` accepts an array if and only if every item is a string, and then yields those strings in order |
| AuthApi.ParseUser | src/api/auth.ts:7-13 | the user object is accepted if and only if it has string `id`, `email` (passing the email check), `fullName`, `defaultRole` and a string-array `roles`; a rejection is a validation error; an accepted user copies the payload's fields unchanged |
| AuthApi.ParseLoginResponse | src/api/auth.ts:5-14 | the login payload is accepted if and only if it has a string `accessToken` and a valid `user`; the token and user are projected from the payload unchanged |
| AuthApi.ParseAccessToken | src/api/auth.ts:53-54 | the refresh payload is accepted if and only if it has a string `accessToken`, which becomes the returned token |
| AuthApi.ParseUserRoundTrip | src/api/auth.ts:7-48 | a user's wire form, with any extra fields, parses back to exactly that user when its email passes the email check |
| AuthApi.ParseLoginRoundTrip | src/api/auth.ts:24-32 | a login payload built from a session, with any extra keys at the top level and in the user object, parses back to exactly that session |
| AuthApi.UndeclaredRoleAccepted | src/api/auth.ts:11-31 | a role outside `landlord`/`admin`/`legal` is accepted and copied into the user |
| AuthApi.OAuthCallbackBody | src/api/auth.ts:65-66 | the exchange body always holds `code`; it holds `state` if and only if the state is truthy; it has no other keys |
| AuthApi.LoginWithEmailPassword | src/api/auth.ts:19-35 | posts `{email, password}` to `/auth/login`; the result is the parsed payload or the error; on success the store holds the returned access token; on a transport or validation failure the store is unchanged |
| AuthApi.Me | src/api/auth.ts:37-49 | gets `/auth/me` with the current bearer, returns the validated user or the error, and never writes the store |
| AuthApi.Refresh | src/api/auth.ts:51-57 | posts `/auth/refresh` with no body; on success installs and returns the payload's `accessToken`; on failure leaves the store as it was |
| AuthApi.Logout | src/api/auth.ts:59-62 | posts `/auth/logout`; the store is cleared only when the post succeeds, otherwise it is left as it was and the error is passed on |
| AuthApi.OAuthCallback | src/api/auth.ts:64-80 | posts the code (and a truthy state) to `/auth/<provider>/callback`; applies the full schema; installs the token only after the payload validates |
| AuthSession.NextKeepsPaired | src/auth/AuthProvider.tsx:18-83 | every transition keeps user and tokens both null or both set |
| AuthSession.NextSettlesLoading | src/auth/AuthProvider.tsx:20-82 | a transition leaves `isLoading` true only if it was true before and the transition did not touch the state (a failed login or a cancelled bootstrap) |
| AuthSession.ReplayKeepsPaired | src/auth/AuthProvider.tsx:7-83 | from a paired state, user and tokens stay paired after any sequence of transitions |
| AuthSession.ReplaySettlesLoading | src/auth/AuthProvider.tsx:7-82 | once any state-setting transition has run, `isLoading` is false and never becomes true again |
| AuthSession.CancelledBootstrapKeepsState | src/auth/AuthProvider.tsx:71-89 | a cancelled bootstrap leaves the provider's state untouched; when refresh failed it also leaves the token store untouched |
| AuthSession.FailedBootstrapLogsOut | src/auth/AuthProvider.tsx:79-83 | an uncancelled bootstrap where refresh or me fails, run from the initial state, ends signed out with `isLoading` false and an empty store |
| AuthSession.AnyHeldIffShares | src/auth/AuthProvider.tsx:64 | the `some`/`includes` scan is true if and only if some requested role is among the user's roles |
| AuthSession.HasRoleFor | src/auth/AuthProvider.tsx:60-64 | false without a user; otherwise true if and only if a requested role is held; a single role is a one-element list and an empty list gives false |
| AuthSession.LoginExampleRoles | src/auth/AuthProvider.tsx:49-64 | after logging in as a landlord with token `tok1`, the store holds `tok1`, `hasRole("landlord")` is true and `hasRole("admin")` is false |
| AuthSession.AuthProvider.constructor | src/auth/AuthProvider.tsx:7-16 | the provider starts in `{user: null, tokens: null, isLoading: true}` |
| AuthSession.AuthProvider.SetTokensAndUser | src/auth/AuthProvider.tsx:18-25 | writes the access token to the store and sets `{user, tokens, isLoading: false}` in one step |
| AuthSession.AuthProvider.Logout | src/auth/AuthProvider.tsx:27-38 | whatever the server answers, ends with an empty store and `{null, null, false}`; the gateway's error is still reported |
| AuthSession.AuthProvider.LoginWithEmailPassword | src/auth/AuthProvider.tsx:49-58 | on a valid login installs the returned session; on a failure state and store are unchanged and the error propagates |
| AuthSession.AuthProvider.HasRole | src/auth/AuthProvider.tsx:60-67 | the provider's `hasRole` is the any-of check on the current user |
| AuthSession.AuthProvider.Bootstrap | src/auth/AuthProvider.tsx:69-90 | refresh first; `me` only after refresh succeeds, with the refreshed bearer; then the state and store move as `Next` says for the outcomes and the `cancelled` flag |
| OAuthInitiation.ByteHex | src/shared/pages/auth/GoogleOAuthPage.tsx:94 | `byte.toString(16).padStart(2, "0")` is the two lowercase digits of the byte's high and low nibble |
| OAuthInitiation.ByteBase16 | src/shared/pages/auth/GoogleOAuthPage.tsx:94 | `toString(16)` of a byte is one digit below 16 and two digits otherwise |
| OAuthInitiation.EncodeHex | src/shared/pages/auth/GoogleOAuthPage.tsx:94 | the joined encoding has two lowercase hex characters per byte |
| OAuthInitiation.HexValue | src/shared/pages/auth/GoogleOAuthPage.tsx:94 | a character has a digit value if and only if it is a lowercase hex digit, and the digit maps back to it |
| OAuthInitiation.HexCharValue | src/shared/pages/auth/GoogleOAuthPage.tsx:94 | every nibble's digit decodes back to the nibble |
| OAuthInitiation.DecodeEncodeHex | src/shared/pages/auth/GoogleOAuthPage.tsx:94 | the hex string decodes back to the original bytes, in order |
| OAuthInitiation.EncodeHexInjective | src/shared/pages/auth/GoogleOAuthPage.tsx:94 | different byte strings give different states |
| OAuthInitiation.GenerateRandomState | src/shared/pages/auth/GoogleOAuthPage.tsx:91-95 | 32 bytes give 64 lowercase hex characters that decode back to those bytes |
| OAuthInitiation.LookupFirst | src/shared/pages/OAuthCallbackPage.tsx:17-20 | `searchParams.get` gives the value of the first parameter with the name |
| OAuthInitiation.LookupAbsent | src/shared/pages/OAuthCallbackPage.tsx:18-20 | `get` is null if and only if no parameter has the name |
| OAuthInitiation.LookupDistinct | src/shared/pages/auth/GoogleOAuthPage.tsx:28-34 | in a list of distinct names, every parameter reads back its own value |
| OAuthInitiation.GoogleParamsContents | src/shared/pages/auth/GoogleOAuthPage.tsx:28-34 | exactly `client_id`, `redirect_uri = origin + "/auth/callback?provider=google"`, `response_type=code`, `scope="openid profile email"` and `state`, in that order and with those values |
| OAuthInitiation.MicrosoftParamsExtendGoogle | src/shared/pages/auth/MicrosoftOAuthPage.tsx:28-35 | the Google parameters with `provider=microsoft` in the redirect URI, plus `response_mode=query` |
| OAuthInitiation.InitiateGoogle | src/shared/pages/auth/GoogleOAuthPage.tsx:15-38 | stores the generated state under `oauth_state` before the client-id check; redirects if and only if the client id is set, to the Google endpoint with the Google parameters, whose `state` equals the stored one |
| OAuthInitiation.InitiateMicrosoft | src/shared/pages/auth/MicrosoftOAuthPage.tsx:15-39 | the same with the Microsoft endpoint and parameters |
| OAuthCallback.PlanCallback | src/shared/pages/OAuthCallbackPage.tsx:17-36 | reading each query parameter as its first occurrence, a missing or empty code fails first; otherwise the query state must equal the stored challenge exactly (both absent passes); else the exchange uses the code, the provider (default `google`) and the state only when truthy |
| OAuthCallback.MismatchExample | src/shared/pages/OAuthCallbackPage.tsx:27-30 | a query state that differs from the stored one is a mismatch |
| OAuthCallback.RepeatedStateReadsFirst | src/shared/pages/OAuthCallbackPage.tsx:17-30 | with a repeated `state` parameter only the first value meets the CSRF check: a matching first value passes, a matching later value after a differing first one is a mismatch |
| OAuthCallback.AbsentStatesPass | src/shared/pages/OAuthCallbackPage.tsx:19-30 | with no state in the query and none stored, the check passes and the exchange goes to `google` without a state |
| OAuthCallback.CallbackPage.constructor | src/shared/pages/OAuthCallbackPage.tsx:10-11 | the page starts processing, with no error |
| OAuthCallback.CallbackPage.View | src/shared/pages/OAuthCallbackPage.tsx:53-156 | the spinner shows while processing; the error card shows once processing stopped with a non-empty error |
| OAuthCallback.CallbackPage.Fail | src/shared/pages/OAuthCallbackPage.tsx:43-47 | a failure records its message and stops processing |
| OAuthCallback.CallbackPage.HandleCallback | src/shared/pages/OAuthCallbackPage.tsx:13-51 | missing code: fails before storage is read; mismatch: fails with the challenge still stored and no exchange; otherwise removes the challenge, exchanges, and either installs the session and navigates to `/dashboard` (still processing) or records the error |
| OAuthCallback.CallbackPage.ExchangeAndInstall | src/shared/pages/OAuthCallbackPage.tsx:36-47 | the exchange call, then install and navigate on success, or the error message and no session change on failure |
| OAuthCallback.CallbackPage.BackToLogin | src/shared/pages/OAuthCallbackPage.tsx:143-148 | the error card's only action navigates to `/login` |
| Router.BeforeLoad | src/router/index.tsx:42-53 | the wait loop runs 50 polls of 100 ms when `isLoading` was true on entry and none otherwise; then it redirects to `/login` if and only if there is no user |
| Router.ProtectedComponent | src/router/index.tsx:54-64 | the outlet renders if and only if auth is not loading |
| Router.OnlyLoginUnguarded | src/router/index.tsx:33-127 | every route except `/login` is a child of the protected route |
| AppLayout.PrefixesNest | src/shared/layouts/AppLayout.tsx:64 | two prefixes of one path are prefixes of each other |
| AppLayout.AtMostOneActiveIn | src/shared/layouts/AppLayout.tsx:60-64 | in a menu where no target other than `/` is a prefix of another, at most one item is active for any path |
| AppLayout.NavItemsWellFormed | src/shared/layouts/AppLayout.tsx:5-11 | the fixed menu has that property |
| AppLayout.AtMostOneActive | src/shared/layouts/AppLayout.tsx:5-64 | with the fixed `NAV_ITEMS`, at most one bottom-nav item is active for any path |
| AppLayout.NavTargetsGuarded | src/shared/layouts/AppLayout.tsx:5-11 | every bottom-nav target is a protected route |
| AppLayout.RenderedAtMostOneActive | src/shared/layouts/AppLayout.tsx:58-80 | in the rendered bottom navigation, at most one link is highlighted for any path |
| AppLayout.Render | src/shared/layouts/AppLayout.tsx:36-80 | the user badge and the bottom nav appear only with a user; then there is one link per item, `/` is active exactly on `/`, and every other item is active exactly when the path starts with its target |
| ContractCreate.CanAdvance | src/shared/pages/contracts/ContractCreatePage.tsx:34-45 | step 1 needs a property, step 2 a tenant, step 3 both dates, rent and deposit; the last step never advances |
| ContractCreate.ClickMovesOneStep | src/shared/pages/contracts/ContractCreatePage.tsx:208-218 | a click moves at most one step, and forward only when the current step's fields are filled |
| ContractCreate.NoPropertyStaysOnFirstStep | src/shared/pages/contracts/ContractCreatePage.tsx:10-218 | while no property is chosen, no sequence of clicks leaves step 1 |
| ContractCreate.ReachingStepPassesEarlier | src/shared/pages/contracts/ContractCreatePage.tsx:208-218 | a step is reached only by passing through every step between the start and it |
| ContractCreate.ProgressBar | src/shared/pages/contracts/ContractCreatePage.tsx:59-76 | circle `s` is lit if and only if `step >= s`; a connector is lit if and only if the circles on both its sides are lit |
| ContractCreate.ContractWizard.constructor | src/shared/pages/contracts/ContractCreatePage.tsx:7-10 | the wizard starts at step 1 |
| ContractCreate.ContractWizard.ClickBack | src/shared/pages/contracts/ContractCreatePage.tsx:207-209 | Back moves to `max(1, step - 1)` and does nothing on step 1 |
| ContractCreate.ContractWizard.ClickNext | src/shared/pages/contracts/ContractCreatePage.tsx:214-218 | Next moves to `min(4, step + 1)`, only when `canAdvance` and before the last step |
| Buildings.LowerChar | src/shared/pages/BuildingsPage.tsx:21 | ASCII upper-case letters map to lower case; every other character is kept |
| Buildings.Lower | src/shared/pages/BuildingsPage.tsx:21-25 | lowercasing works character by character and keeps the length |
| Buildings.Includes | src/shared/pages/BuildingsPage.tsx:23-25 | `includes` is true if and only if the query occurs at some position |
| Buildings.EmptyIncluded | src/shared/pages/BuildingsPage.tsx:21-25 | the empty query occurs in every string |
| Buildings.KeepMatching | src/shared/pages/BuildingsPage.tsx:20-26 | the filter result is an order-preserving subsequence that holds each matching building as often as the input and no non-matching one |
| Buildings.FilterBuildings | src/shared/pages/BuildingsPage.tsx:18-27 | no data gives an empty list; otherwise the filter result above |
| Buildings.EmptyQueryKeepsAll | src/shared/pages/BuildingsPage.tsx:21-25 | an empty search keeps every building, in order |
| Buildings.FieldErrorsMeaning | src/shared/pages/BuildingsPage.tsx:43-49 | the error map has exactly one key per field named by an issue, holding the message of the last issue for that field |
| Buildings.CollectFieldErrors | src/shared/pages/BuildingsPage.tsx:42-50 | the `forEach` loop builds exactly that map |
| Buildings.BuildingsPage.constructor | src/shared/pages/BuildingsPage.tsx:7-12 | empty search, closed modal, form `{type: "apartment"}`, no errors |
| Buildings.BuildingsPage.SetSearchQuery | src/shared/pages/BuildingsPage.tsx:7-27 | typing changes only the query |
| Buildings.BuildingsPage.OpenModal | src/shared/pages/BuildingsPage.tsx:65 | the new-building buttons open the modal and change nothing else |
| Buildings.BuildingsPage.HandleCreateBuilding | src/shared/pages/BuildingsPage.tsx:30-52 | errors are cleared first; a valid form is submitted, and on success the modal closes and the form resets; a validation failure fills the error map from its issues; any other throw leaves it empty |
| Buildings.BuildingsPage.Cancel | src/shared/pages/BuildingsPage.tsx:303-307 | Cancel closes the modal, resets the form and clears the errors |

## Left out

- Network timing and async interleaving: every request's outcome is an input. The bootstrap's `cancelled` flag is one boolean read after both calls, which is where the effect reads it.
- The zod `email()` regular expression is the predicate parameter `isEmail`. The text of a `ZodError` message is one fixed string (`ValidationMessage`).
- URLSearchParams serialisation, parsing and percent-encoding: the authorization request and the callback query are both modelled as ordered lists of already-decoded name/value pairs.
- `toLowerCase` is modelled for ASCII only. Unicode case mapping is not modelled.
- `console.error` on a missing client id, and the visual markup of every page.
- The bottom navigation's icons and labels are not modelled. Only the active rule, the targets and the user gating are.
- Router.BeforeLoad: the user read after the wait is an input (`userAfterWait`). The model does not capture how the provider's state changes during the 100 ms timeouts.
- `loginWithOAuth` and the landing page's links: each is one string append to build a URL, with no rules.
- The TanStack Query hooks, the `buildingsApi` wrappers and the declarative schemas in `src/forms/schemas.ts`.
- Buildings.BuildingsPage.HandleCreateBuilding: the result of validating `formData` is an input. So is whether the create mutation later calls `onSuccess`. The form's field values are strings.
- Floating-point totals and date arithmetic on other pages.
- Http.InterceptResponse: the source promises only to pass the outcome through, so its contract is that identity.
- Router.ProtectedComponent: the source promises only the choice between the indicator and the outlet, so its contract is that choice.
