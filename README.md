# Session and pagination core of the social-timeline browser client

This Dafny project models the logic of a React client for a social-timeline
service that is more than rendering:

- **Session** (`Auth`, a class `Session`): the `AuthProvider` state (user,
  access token, refresh token, access-token expiry, loading flag, last error)
  and the persisted `'authTokens'` storage slot; the expiry computation, the
  hand-out-or-refresh of the access token, login, registration, logout,
  teardown on every authentication failure, and the restore at start-up.
  The clock and every network answer are parameters; a ghost log `calls`
  records each request the session makes.
- **Pagination** (`Pagination`, a class `Pager` for the mutable page index):
  `nextPage`/`prevPage`, the defaults before data arrives, the query key, the
  page URL, the `Authorization: Bearer` header (section 2.1 of RFC 6750) and
  the `enabled` switch.
- **Pagination controls** (`PaginationControls`): the Prev/Next `disabled`
  predicates and the "Página X de Y" label, and their agreement with the hook.
- **Profile publications** (`Profile`): the author fallback chains, the
  newest-first ordering and the render-time defaults.
- **`apiFetch`** (`Client`): request building (base URL, default method,
  header merge) and how a response settles into a value, `null` or an error,
  with the error message choice.
- **Like counts** (`Likes`): the normalisation of an untyped payload to a
  number.

Shared helpers: `Wrappers` (Option/Result/Outcome), `Decimal` (how integers
are written and read back), `JsonValues` (JSON values with JavaScript's
truthiness, `??`, optional chaining and `String()`).

## Model

| member | source | states |
|---|---|---|
| `Auth.UsableUntilMargin` | src/context/AuthContext.jsx:97-101 | a stored token is handed out unchanged exactly while less than `expires_in` seconds minus the 5 s margin have passed since it was issued |
| `Auth.ExpiresAt` | src/context/AuthContext.jsx:96-101 | the stored expiry is the issue time plus `expires_in` seconds in milliseconds, less the 5000 ms margin; a missing `expires_in` counts as 0, and a lifetime of at least 5 s never ends before the issue time |
| `Auth.Unexpired` | src/context/AuthContext.jsx:132-135 | the token counts as fresh only with an expiry that is set, non-zero and still ahead of the clock; an expiry of 0 is falsy and always expired |
| `Auth.MissingLifetimeIsExpired` | src/context/AuthContext.jsx:97 | without `expires_in` the token counts as 0 s long and is already expired when stored |
| `Auth.FailureMessage` | src/context/AuthContext.jsx:175-177 | the recorded error is `body.message`, else the error's message, else the fixed default, each only when truthy; it is never falsy |
| `Auth.Session.constructor` | src/context/AuthContext.jsx:39-44 | the provider starts with no user, no tokens, no expiry, no error, loading, and the slot as left by an earlier visit |
| `Auth.Session.ClearSession` | src/context/AuthContext.jsx:169-173 | the teardown every failure path runs: user, tokens and expiry null and the slot removed, with loading, error and the request log untouched |
| `Auth.Session.Restore` | src/context/AuthContext.jsx:49-86 | no slot, an empty slot or no truthy stored access token loads nothing; an unparsable slot is removed; otherwise the tokens are loaded (refresh and expiry default to null), `/me` is asked once with the stored token, and its failure clears everything and removes the slot; loading always ends false |
| `Auth.Session.HandleAuthSuccess` | src/context/AuthContext.jsx:94-118 | the new tokens and the expiry now + 1000·expires_in − 5000 are held in memory and the slot holds exactly the same values (refresh null if absent); one `/me` request with the new token; its user is kept, its failure reported |
| `Auth.Session.EnsureValidAccessToken` | src/context/AuthContext.jsx:126-154 | without both truthy tokens: null, no request, no change; unexpired: the current token, no request, no change; otherwise exactly one refresh with the stored refresh token, returning the new access token with state and slot updated, or on refresh or `/me` failure a cleared session, removed slot and the error passed on |
| `Auth.Session.Login` | src/context/AuthContext.jsx:161-182 | success: tokens, expiry, slot and user set and error null; failure of login or `/me`: user, tokens and expiry null, slot removed, error message recorded with the login default, error passed on; loading ends false |
| `Auth.Session.Register` | src/context/AuthContext.jsx:189-210 | as login, with the registration request and its own default message |
| `Auth.Session.Logout` | src/context/AuthContext.jsx:215-222 | user, tokens, expiry and error null and the slot removed, with no request; on an already signed-out session nothing changes (idempotent) |
| `Auth.RestoreAfterReload` | src/context/AuthContext.jsx:49-114 | a reload restoring from the slot a session left in agreement with its memory gets back the same tokens and expiry (and `/me`'s user), or nothing when `/me` fails or there is no slot |
| `Pagination.QueryKey` | src/hooks/usePagination.js:38 | every key has three parts and starts with `'pagination'` |
| `Pagination.QueryKeyRoundTrip` | src/hooks/usePagination.js:38 | the path and page can be read back from the key, so different (path, page) pairs get different keys |
| `Pagination.PageUrl` | src/hooks/usePagination.js:53 | the request path is exactly the list's path, then `?page=`, then the page number's decimal digits (its length is fixed), which read back as the page number |
| `Pagination.InvalidationReachesEveryPage` | src/components/publication/CreatePublication.jsx:52 | invalidating by the prefix `['pagination']` matches the key of every page of every list |
| `Pagination.PageUrlInjective` | src/hooks/usePagination.js:53 | the URL is `path?page=N` and different pages of one path get different URLs |
| `Pagination.Items` | src/hooks/usePagination.js:61 | the items are the page's content when a page has arrived carrying one; otherwise (no page yet, or no content) the empty list |
| `Pagination.TotalPages` | src/hooks/usePagination.js:62 | the page count is the server's count when a page has arrived carrying one, 0 included; otherwise (no page yet, or no count) 1 |
| `Pagination.NextOf` | src/hooks/usePagination.js:64-68 | the page moves one forward exactly when the page count is non-zero and the page is before the last; otherwise it stays; it stays non-negative and below a positive page count |
| `Pagination.PrevOf` | src/hooks/usePagination.js:70-72 | the page moves one back exactly when it is above 0, so it never becomes negative |
| `Pagination.Pager.constructor` | src/hooks/usePagination.js:28-29 | the page starts at 0 |
| `Pagination.Pager.NextPage` | src/hooks/usePagination.js:64-68 | the page becomes `NextOf` of the old page, stays non-negative and stays below the page count it was below |
| `Pagination.Pager.PrevPage` | src/hooks/usePagination.js:70-72 | the page becomes `PrevOf` of the old page and stays non-negative |
| `Pagination.Pager.Key` | src/hooks/usePagination.js:38 | the current page is cached under a key naming this path and page |
| `Pagination.Pager.Run` | src/hooks/usePagination.js:37-57 | the query runs exactly when the path is non-empty and enabled; a given `getToken` replaces the static token (its rejection stops the query); a GET to base + `path?page=N` carries `Authorization: Bearer <t>` exactly when the token is non-null and no other header; the answer settles as `apiFetch` does |
| `PaginationControls.ShownTotal` | src/components/ui/PaginationControls.jsx:22 | the label shows the page count, and 1 in place of a count of 0 |
| `PaginationControls.PrevDisabled` | src/components/ui/PaginationControls.jsx:16 | on a non-negative page, Prev is disabled exactly when there is no earlier page |
| `PaginationControls.NextDisabled` | src/components/ui/PaginationControls.jsx:27 | with a non-zero count, Next is disabled exactly when no page follows this one; with a count of 0 it is never disabled |
| `PaginationControls.Label` | src/components/ui/PaginationControls.jsx:22 | the label is exactly "Página ", the one-based page number, " de " and the shown count, with nothing else (its length is fixed), both numbers reading back as their values |
| `PaginationControls.PrevAgreesWithPrevPage` | src/components/ui/PaginationControls.jsx:16 | for a non-negative page, Prev is enabled exactly when `prevPage` would change the page |
| `PaginationControls.NextAgreesWithNextPage` | src/components/ui/PaginationControls.jsx:27 | for a positive page count, Next is enabled exactly when `nextPage` would move forward |
| `PaginationControls.NextInertWithoutPages` | src/components/ui/PaginationControls.jsx:27 | with a page count of 0, Next is enabled but `nextPage` leaves the page unchanged |
| `PaginationControls.BeforeDataArrives` | src/components/ui/PaginationControls.jsx:16-27 | before data arrives the items are empty, both buttons are disabled on page 0 and the label reads "Página 1 de 1" |
| `PaginationControls.LabelDeterminesPosition` | src/components/ui/PaginationControls.jsx:22 | the label shows page + 1 and the shown count so that different positions never read the same |
| `Profile.FirstNonNullish` | src/components/profile/GetProfile.jsx:28-34 | a `??` chain yields the first candidate that is neither null nor undefined, else its last fallback |
| `Profile.Normalize` | src/components/profile/GetProfile.jsx:27-43 | `id`, `text`, `createDate` copied; author id = first non-nullish of `user.id`, `userId`, `authorId`, else null; author name = first non-nullish of `user.username`, `username`, `authorName`, else the given fallback; 0 and "" are kept |
| `Profile.NormalizeAll` | src/components/profile/GetProfile.jsx:27 | one entry per publication, in order; a null or undefined list counts as empty |
| `Profile.SortNewestFirst` | src/components/profile/GetProfile.jsx:46-48 | the result is a permutation of the normalised list, ordered by `createDate` newest first; the input list is a value and stays as it was |
| `Profile.Render` | src/components/profile/GetProfile.jsx:74-75 | a null author id is shown as 0 and a nullish author name as `'desconocido'`; everything else passes through |
| `Profile.RenderAll` | src/components/profile/GetProfile.jsx:70-79 | the rendered list has one card per entry, the card at each position being that entry rendered |
| `Profile.ProfileCards` | src/components/profile/GetProfile.jsx:46-79 | the cards are exactly the publications, each normalised and rendered (as a multiset), one per publication, newest first |
| `Profile.RenderPermutation` | src/components/profile/GetProfile.jsx:46-79 | rendering a reordered list gives the same cards reordered, so sorting before rendering loses and adds no card |
| `Profile.ProfileAgreesWithPages` | src/pages/HomePage.jsx:55-58 | the timeline pages' chain (ending in `'desconocido'`) never leaves the name nullish, and renders exactly like the profile with no username |
| `Client.Prepare` | src/api/client.js:11-26 | URL = fixed base + path; method GET by default; caller headers kept and overriding; `Content-Type: application/json` added exactly when the method is neither GET nor HEAD |
| `Client.ErrorMessage` | src/api/client.js:38-40 | the message is the body's `detail`, else its `message`, else `'Error en la API'`, each only when truthy |
| `Client.StatusTextFallback` | src/api/client.js:29-40 | an unparsable error body reports the status text, or the default when the status text is empty |
| `Client.Settle` | src/api/client.js:29-51 | the non-ok check comes first and throws with the status copied and the parsed body or `{message: statusText}`; an ok 204 yields null; any other ok response yields its parsed body; success exactly for those two |
| `Client.ApiFetch` | src/api/client.js:10-51 | the step-by-step call sends the request `Prepare` describes and settles as `Settle` says |
| `Likes.LikesCount` | src/api/commands/likes.js:15-24 | first match wins: a number as is, a numeric string as its value, an object's numeric `count`, otherwise 0 |
| `Likes.ParseIntegerForms` | src/api/commands/likes.js:18-20 | `Number(s)` reads "" as 0, a digit string as its value, a `-` or `+` followed by digits as the negated or unchanged value, and a sign alone as NaN |
| `Likes.WhiteSpaceIgnored` | src/api/commands/likes.js:18-20 | `Number(s)` is unchanged by a white-space character at either end |
| `Likes.ParseNumberText` | src/api/commands/likes.js:18-20 | an integer's decimal text (sign included) reads back as that integer |
| `Likes.CountEncodingsAgree` | src/api/commands/likes.js:15-24 | a count sent as a number, as its decimal text or as `{count: n}` normalises to the same number |

## Left out

- Concurrency: calls are sequential. The code does not coalesce concurrent refreshes, and the model does not invent it; React's batching of state updates and stale closures are not modelled.
- The react-query cache: `useQuery`/`useMutation` internals, `invalidateQueries`, `keepPreviousData`; only the key shape and prefix matching are modelled. There is no optimistic patching or rollback in the code.
- The clock, `localStorage`, `fetch` and `response.json()` are parameters (`now`, `Exchange.clock`, the slot field, `Client.Reply`). `console.error` logging is left out.
- Token responses are a typed record: a response body that is not an object (for example `null` from a 204), which would make `handleAuthSuccess` throw, is not modelled; nor are stored slot fields of other JSON types.
- The request wrappers in `auth.js` are represented by the entries of the `calls` log, not by their paths and bodies.
- Numbers are integers: floating point, NaN and Infinity are not modelled; `createDate` is an integer timestamp, so invalid dates (a NaN comparator) are not modelled.
- Likes.LikesCount: `Number(string)` is modelled for the empty string and signed decimal integers after trimming white space; fractions, exponents, `Infinity` and hexadecimal/octal/binary literals, which JavaScript also accepts, read as NaN here.
- `String(n)` for integers of 10^21 and above (exponent notation) is not modelled.
- Profile.SortNewestFirst: the definition keeps entries with the same date in input order, as JavaScript's stable sort does, but the contract does not state this stability.
- Header names are compared exactly; the case-insensitive merging done later by `fetch`'s `Headers` is not modelled.
- The V8 text of the TypeError thrown when an error body parses to `null` is a constant.
- Screens, routing, animations, form validation, the profile header and the one-line fetch wrappers are rendering or glue and are not part of this model.

## Behaviour notes

What the code does, and the model with it:

- Token renewal is not coalesced: each `ensureValidAccessToken` call that finds the token expired awaits a refresh of its own.
- `ensureValidAccessToken` returns null when the access token is missing or empty, not only when the refresh token is.
- `handleAuthSuccess` leaves the tokens stored when `/me` fails; its callers (`login`, `register`, the refresh path) clear the session.
- A restored slot may load an access token with a null expiry, so an access token can be held without an expiry; an expiry of 0 counts as expired.
- Because the page count defaults to 1 before data arrives, Next is disabled on page 0 until a page arrives; a server count of 0 leaves Next enabled but inert.
- There is no optimistic patching of cached pages and no rollback: a new publication invalidates every `pagination` query.
