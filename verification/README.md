# express-front: the session, guard and admin-view logic, in Dafny

This project models the client-side logic of the `express-front` React
application. It covers three groups.

- **Session and access control.**
  - The session manager of `src/context/AuthContext.js` (`checkAuth`,
    `login`, `register`, `logout`). It works over one stored token, an
    in-memory user and a `loading` flag.
  - The shared HTTP client of `src/utils/axios.js`: the base URL, the bearer
    header, and the 401 eviction.
  - The role guard and route table of `src/App.js`, and their copy in
    `src/routes/index.js`.
  - The simpler guards of `src/App.jsx` and `src/components/ProtectedRoute.js`.
  - The token provider of `src/contexts/AuthContext.jsx`.
  - The OAuth callback redirect rule.
- **Admin views.**
  - Wallet sorting, filtering, pagination and the page window.
  - Dashboard statistics and the verification update.
  - KYC list URLs, filters and badges.
  - Wallet-detail classification.
- **Small state machines and validators.**
  - The issuer KYC panel.
  - The issuer registration form.
  - Issuer wallet error handling and the send form.
  - The relative-time formatter in `dateUtils.js`.

How the modules are built:

- **Network answers are inputs.** A request is not performed; its outcome is
  an `ApiClient.Exchange<T>`. That is an answer with a status, a body and the
  body's `message` field, or no answer at all. An answer resolves exactly
  when its status is 2xx.
- **Calls through the shared `api` client** run its request step (the bearer
  header) and its response step (a 401 empties the token slot and sends the
  browser to `/`). Calls through plain `axios` only settle. `login` and
  `register` also go through `api`, so a 401 answer to either empties the
  token slot and navigates to `/`; any other failure leaves the session
  unchanged. `Session.AuthenticateStep` states this.
- **Step functions and classes.** Where a component mutates state, the state
  is a class whose methods carry `modifies` clauses. Where the logic is pure,
  it is a function. Session operations exist twice: a step function on a
  `SessionState` value, about which the properties are proved, and a method
  of `Session.AuthProvider` proved to agree with it.
- **Browser globals.** `localStorage`'s `token` slot and
  `window.location.href` are the two fields of `Platform.Browser`.
- **JavaScript semantics.** Truthiness, ASCII case mapping, `includes`,
  `substring`/`slice` clamping, integer-to-string conversion and a
  character-by-character string order are spelled out in module `Js`. A
  string is a sequence of Unicode characters, not of UTF-16 code units (see
  "## Left out").

## Model

| member | source | states |
|---|---|---|
| ApiClient.BaseUrl | src/utils/axios.js:4-18 | localhost gives `http://localhost:5000/api`; any other host gives protocol, `//`, host, an optional `:port`, then `/api`; the `ngrok` test never changes the result; every URL ends in `/api` |
| ApiClient.WithBearer | src/utils/axios.js:38-49 | with a stored token, `Authorization` parses back as a bearer credential carrying exactly that token, and every other header keeps its value; without a token the headers are unchanged |
| ApiClient.Settle | src/utils/axios.js:52-67 | a call resolves iff it was answered 2xx, with the answer's body; otherwise it rejects with the status and server message, or with neither when unanswered |
| ApiClient.Client.constructor | src/utils/axios.js:21-30 | the instance uses the derived base URL, a JSON content type, credentials mode and a 10000 ms timeout |
| ApiClient.Client.AttachToken | src/utils/axios.js:38-49 | the outgoing headers are the given ones decorated with the stored token |
| ApiClient.Client.Intercept | src/utils/axios.js:52-67 | the call settles as `Settle` says; a 401 empties the token slot and moves to `/`; any other outcome leaves both alone, and the error still reaches the caller (no retry) |
| ApiClient.Client.Send | src/utils/axios.js:21-67 | one call: the headers sent carry the token stored before the call, and the answer is settled and evicts as the response step says |
| Session.WithRole | src/context/AuthContext.js:78-82 | the merged user has the caller's role upper-cased, and every other field is the server user's |
| Session.CheckAuthStep | src/context/AuthContext.js:25-57 | no stored token: the user is cleared and the token kept; a confirmed check keeps the token and takes the server's user; any other outcome clears both; `loading` ends false on every path |
| Session.CheckAuthIdempotent | src/context/AuthContext.js:25-57 | re-running `checkAuth` against the same answer changes nothing further |
| Session.AuthenticateStep | src/context/AuthContext.js:71-95 | success iff a 2xx answer carries a token, in which case the token is stored and the user gets the caller's role; a 2xx answer without a token changes nothing and returns `undefined`; a failure returns the server message or the fallback and keeps the user, losing the token only on a 401 |
| Session.LoginRequest | src/context/AuthContext.js:71-74 | posts to `/auth/<lower-case role>/login` a body with exactly the email and password |
| Session.LoginStep | src/context/AuthContext.js:59-95 | a granted answer returns success with the caller's role and stores the token; a failure returns the server message or 'Invalid credentials' |
| Session.RegisterRequest | src/context/AuthContext.js:99-113 | a request is built iff the form has a `role`; it posts to `/auth/<lower-case role>/register`, with a body equal to the form minus `role` |
| Session.RegisterStep | src/context/AuthContext.js:97-134 | a form without `role` fails with 'Registration failed' and changes nothing; with `role`, a granted answer signs in with that role and stores the token, and a failure shows the server message or 'Registration failed' |
| Session.LogoutStep | src/context/AuthContext.js:136-151 | the token and the user are gone and `loading` is untouched |
| Session.LogoutIdempotent | src/context/AuthContext.js:141-144 | logging out twice equals logging out once |
| Session.AuthProvider.constructor | src/context/AuthContext.js:12-13 | no user, loading |
| Session.AuthProvider.CheckAuth | src/context/AuthContext.js:25-57 | the new state is `CheckAuthStep` of the old; a request is sent iff a token was stored, and it carries that token; the browser moves to `/` only on a 401 |
| Session.AuthProvider.Authenticate | src/context/AuthContext.js:71-95 | the new state and result are those of `AuthenticateStep` |
| Session.AuthProvider.Login | src/context/AuthContext.js:59-95 | posts `{email, password}` to `/auth/<lower-case role>/login`; the new state and result are `LoginStep`'s |
| Session.AuthProvider.Register | src/context/AuthContext.js:97-134 | the request is `RegisterRequest(form)`; the new state and result are `RegisterStep`'s; it only navigates when a request was made and answered 401 |
| Session.AuthProvider.Logout | src/context/AuthContext.js:136-151 | the new state is `LogoutStep` of the old; the result is success; there is no navigation |
| AppRoutes.PrivateRoute | src/App.js:14-38 | a placeholder while loading; `/` without a user; the user's own dashboard for a wrong role (`/` for an unknown one); the element iff loaded, signed in and admitted |
| AppRoutes.DashboardFor | src/App.js:27-34 | the wrong-role target is `/` exactly for a role outside ADMIN, ISSUER and INVESTOR |
| AppRoutes.RouteAt | src/App.js:45-86 | every guarded route admits a single known role and is that role's dashboard path; only `/` is the home page |
| AppRoutes.Visit | src/App.js:14-86 | the placeholder appears only while loading and only on a guarded route; a guarded page is shown only to a signed-in user whose role it admits |
| AppRoutes.DashboardAdmitsOnlyItsRole | src/App.js:57-83 | each role's dashboard is guarded and admits that role and no other |
| AppRoutes.UnknownRoleGoesHome | src/App.js:27-34 | a role outside the enumeration is sent to `/`, the open home page |
| AppRoutes.WrongRoleRedirectAdmits | src/App.js:27-33 | a wrong-role redirect for a known role lands on a route whose guard renders for that user |
| AppRoutes.NavigationSettles | src/App.js:14-86 | once loaded, every path shows a page either at once or after exactly one redirect, for any user |
| AppRoutes.UnknownPathGoesHome | src/App.js:86 | an unlisted path redirects to `/` |
| AppRoutes.LoginOpensOwnDashboard | src/App.js:57-83 | after a granted login for a known role (in any letter case), the user's own dashboard renders |
| RoutesIndex.PrivateRoute | src/routes/index.js:16-40 | a placeholder while loading; `/` without a user; the element iff loaded, signed in and admitted |
| RoutesIndex.RouteAt | src/routes/index.js:47-86 | every guarded route admits a single known role; a path this table sends to the catch-all is one `App.js` sends there too |
| RoutesIndex.SameGuardAsApp | src/routes/index.js:16-40 | this file's guard decides exactly as `App.js`'s for every input |
| RoutesIndex.SameRoutesAsApp | src/routes/index.js:47-86 | this file's route table routes every path as `App.js`'s does |
| Platform.Browser.constructor | src/utils/axios.js:40 | the browser starts with the stored token that `localStorage.getItem('token')` reads and the current page |
| Platform.Browser.SetToken | src/context/AuthContext.js:77 | `localStorage.setItem('token', …)`: the slot holds exactly the given token |
| Platform.Browser.RemoveToken | src/context/AuthContext.js:141 | `localStorage.removeItem('token')`: the slot is empty |
| Platform.Browser.Assign | src/utils/axios.js:63 | `window.location.href = …`: the location is the given path |
| TokenAuth.HeadersFor | src/contexts/AuthContext.jsx:20-30 | with a token, `Authorization` carries it as a bearer credential; without one the header is absent; every other header is kept with its value |
| TokenAuth.AuthProvider.constructor | src/contexts/AuthContext.jsx:14-17 | the initial token is whatever the store holds; not authenticated, loading |
| TokenAuth.AuthProvider.TokenEffect | src/contexts/AuthContext.jsx:20-30 | the default headers follow the token; afterwards the provider is in sync (authenticated iff a token is present, not loading) |
| TokenAuth.AuthProvider.Login | src/contexts/AuthContext.jsx:33-38 | the token is stored in both places, the user is set, and the provider is authenticated |
| TokenAuth.AuthProvider.Logout | src/contexts/AuthContext.jsx:41-46 | the token is gone from both places, there is no user, not authenticated; the outcome does not depend on the prior state |
| TokenAuth.AuthProvider.VerifyToken | src/contexts/AuthContext.jsx:49-77 | no token means no request and no change; a verified answer sets the user; anything else logs out; `loading` ends false |
| TokenAuth.AuthProvider.Mount | src/contexts/AuthContext.jsx:20-77 | after mounting, the provider is in sync and authenticated iff the stored token was present and verified |
| IssuerApp.ProtectedRoute | src/App.jsx:25-37 | a placeholder while loading, `/login` when not authenticated, and the element iff loaded and authenticated |
| IssuerApp.RouteAt | src/App.jsx:45-55 | exactly `/login`, `/issuer/dashboard` and `/` are routes; the only redirect is from `/` to `/login` |
| IssuerApp.RouteTableShape | src/App.jsx:45-55 | `/issuer/dashboard` is the only guarded route; `/` redirects to `/login`, which is open |
| IssuerApp.GuardFollowsToken | src/App.jsx:25-37 | for an in-sync token provider, the guard renders iff a token is present |
| RoleGuard.LoginPathsAreLoginPages | src/components/ProtectedRoute.js:32-34 | each role's `/<role>/login` redirect is that role's open login page in `App.js` |
| RoleGuard.LoginPathFor | src/components/ProtectedRoute.js:32-34 | the redirect target is `/`, the lower-cased role, then `/login` |
| RoleGuard.ProtectedRoute.constructor | src/components/ProtectedRoute.js:6-8 | unauthenticated, no role, loading |
| RoleGuard.ProtectedRoute.CheckAuth | src/components/ProtectedRoute.js:10-26 | afterwards not loading; authenticated only when the answer is 2xx, `authenticated`, and lists the route's role, which then records the first listed role; a failure leaves the guard as it was; a 401 also empties the token slot and sends the browser to `/`, and any other answer leaves both as they were |
| RoleGuard.ProtectedRoute.Decision | src/components/ProtectedRoute.js:28-36 | a placeholder while loading, the role's login path when unauthenticated, and the children iff loaded and authenticated |
| OAuthCallback.QueryGet | src/utils/GoogleLoginCallback.js:16-17 | the value found is that of the first parameter of that name; nothing is found iff no parameter has that name |
| OAuthCallback.DashboardForPath | src/utils/GoogleLoginCallback.js:28-37 | `admin` takes precedence over `issuer`, then `investor`; otherwise `/` |
| OAuthCallback.CallbackTargetsAreRoutes | src/utils/GoogleLoginCallback.js:28-37 | every dashboard the callback navigates to is a listed route of `App.js`, and each is the guarded dashboard of the role named in the path: ADMIN to the admin dashboard, ISSUER to the issuer dashboard, INVESTOR to the investor dashboard, anything else to the home page |
| OAuthCallback.LoginIsNotAnAppRoute | src/utils/GoogleLoginCallback.js:38-41 | the tokenless fallback `/login` is not a route of `App.js`, so it lands on the catch-all |
| OAuthCallback.HandleCallback | src/utils/GoogleLoginCallback.js:14-42 | with a token parameter, it is stored and exactly one navigation goes to the path's dashboard; without one, the store is untouched and the navigation goes to `/login` |
| AdminWallets.Compare | src/components/dashboard/AdminWallets.js:39-76 | text columns compare to -1, 0 or 1 and tie iff their keys are equal; a numeric column is negative iff the first wallet's number is smaller (ascending) or larger (descending) |
| AdminWallets.MatchesSearch | src/components/dashboard/AdminWallets.js:80-83 | the empty search term matches every wallet |
| AdminWallets.MatchesRole | src/components/dashboard/AdminWallets.js:85 | the empty role filter matches every wallet; otherwise a wallet matches iff one of its user's roles is the filter |
| AdminWallets.DescNegatesAsc | src/components/dashboard/AdminWallets.js:39-76 | for every sort field, the descending comparator is the negation of the ascending one |
| AdminWallets.CompareAntisymmetric | src/components/dashboard/AdminWallets.js:39-76 | swapping the two wallets negates the comparison |
| AdminWallets.CompareTransitive | src/components/dashboard/AdminWallets.js:39-76 | the comparator's "not after" relation is transitive, so it is a total preorder |
| AdminWallets.Insert | src/components/dashboard/AdminWallets.js:39 | inserting adds exactly that wallet to the list's multiset |
| AdminWallets.InsertKeepsSorted | src/components/dashboard/AdminWallets.js:39-76 | inserting into a sorted list keeps it sorted |
| AdminWallets.SortWallets | src/components/dashboard/AdminWallets.js:39-76 | the sorted copy is a permutation of the wallets and is ordered by the comparator |
| AdminWallets.SortIsStable | src/components/dashboard/AdminWallets.js:39-76 | the sort is stable: the wallets sharing any one key value keep the order the server sent them in |
| AdminWallets.TiesOfInsert | src/components/dashboard/AdminWallets.js:39-76 | an inserted wallet lands ahead of every wallet it ties with |
| AdminWallets.FilterWallets | src/components/dashboard/AdminWallets.js:79-88 | a wallet is kept iff it matches the lower-cased search term (address, email or full name) and the role filter, every copy of it kept; the kept wallets stay in their original order |
| AdminWallets.FilterKeepsOrder | src/components/dashboard/AdminWallets.js:79-88 | filtering a sorted list yields a sorted list |
| AdminWallets.EmptyFiltersKeepAll | src/components/dashboard/AdminWallets.js:79-88 | with no search term and no role filter every wallet is kept |
| AdminWallets.TotalPages | src/components/dashboard/AdminWallets.js:94 | the page count is the ceiling of the count over 10 |
| AdminWallets.PageOf | src/components/dashboard/AdminWallets.js:91-93 | a page holds at most 10 wallets; page p is the slice `[(p-1)*10, p*10)` clamped to the list; pages past the last are empty |
| AdminWallets.PagesCoverList | src/components/dashboard/AdminWallets.js:91-94 | the pages 1..totalPages, concatenated, are the whole filtered list |
| AdminWallets.PaginationShown | src/components/dashboard/AdminWallets.js:463 | the pagination bar is drawn iff there is more than one page |
| AdminWallets.ButtonFor | src/components/dashboard/AdminWallets.js:527-566 | page k gets a number iff it is first, last or within two of the current page; otherwise it gets an ellipsis iff it is page 2 with the current page past 4, or the last page but one with the current page more than three before the last |
| AdminWallets.PrevNextStayInRange | src/components/dashboard/AdminWallets.js:467-478 | from a page in range, Previous and Next stay in `[1, totalPages]`, moving by one except at the ends |
| AdminWallets.EllipsesMarkEveryGap | src/components/dashboard/AdminWallets.js:527-566 | the first, last and current pages always get a button; an ellipsis only ever sits at position 2 or totalPages-1; every hidden page lies next to an ellipsis |
| AdminWallets.SortAfterClick | src/components/dashboard/AdminWallets.js:96-103 | the clicked field becomes the sort field; clicking the current field flips the direction; a new field starts ascending |
| AdminWallets.DoubleClickRestores | src/components/dashboard/AdminWallets.js:96-103 | clicking the current sort field twice restores the sort |
| AdminWallets.Truncate | src/components/dashboard/AdminWallets.js:111-114 | an empty address shows 'N/A'; any other shows its first `head` characters (all of it when shorter), '...', then its last `tail` characters (all of it when shorter) |
| AdminWallets.TruncateAddress | src/components/dashboard/AdminWallets.js:111-114 | the table's truncation: 'N/A', or up to 6 leading characters, '...', and up to 4 trailing ones, for every length |
| AdminWallets.StalePageShowsNothing | src/components/dashboard/AdminWallets.js:91-94 | as written: on page 2 or later, a filter that leaves at most 10 wallets shows an empty page and no pagination bar |
| AdminWallets.WalletsTable.constructor | src/components/dashboard/AdminWallets.js:7-17 | the initial table state: no wallets, loading, page 1, sorted by creation date descending, no filters |
| AdminWallets.WalletsTable.RowsAreFilteredAndSorted | src/components/dashboard/AdminWallets.js:39-94 | the filtered list is sorted and holds exactly the matching fetched wallets, each as often as fetched; the rows on screen are its current page, sorted, at most 10 |
| AdminWallets.WalletsTable.Screen | src/components/dashboard/AdminWallets.js:124-145 | the spinner iff loading; the error screen iff loaded with an error; the table iff loaded, no error and no wallet selected |
| AdminWallets.WalletsTable.FetchWallets | src/components/dashboard/AdminWallets.js:23-36 | as written: a 2xx answer replaces the wallets and keeps any earlier error; a failure sets the error; an earlier error keeps the error screen up |
| AdminWallets.WalletsTable.FetchWalletsClearingError | src/components/dashboard/AdminWallets.js:23-36 | corrected: a 2xx answer replaces the wallets and clears the error, so the error screen goes away |
| AdminWallets.WalletsTable.HandleSort | src/components/dashboard/AdminWallets.js:96-103 | the new sort is `SortAfterClick` of the old one |
| AdminWallets.WalletsTable.SetSearchTerm | src/components/dashboard/AdminWallets.js:168 | as written: the search term changes and the current page does not |
| AdminWallets.WalletsTable.SetFilterRole | src/components/dashboard/AdminWallets.js:185 | the role filter changes and the current page does not |
| AdminWallets.WalletsTable.SetSearchTermFromFirstPage | src/components/dashboard/AdminWallets.js:168 | corrected: the search term changes and the page resets to 1, so any match is on screen |
| AdminWallets.WalletsTable.Previous | src/components/dashboard/AdminWallets.js:467 | the page moves back one, but not below 1 |
| AdminWallets.WalletsTable.Next | src/components/dashboard/AdminWallets.js:478 | the page moves forward one, but not past the last |
| AdminWallets.WalletsTable.GoToPage | src/components/dashboard/AdminWallets.js:538 | the clicked page becomes current |
| AdminWallets.WalletsTable.ViewWalletDetails | src/components/dashboard/AdminWallets.js:116-118 | the clicked wallet is selected for the details view |
| AdminWallets.WalletsTable.BackToWallets | src/components/dashboard/AdminWallets.js:120-122 | the selection is cleared |
| AdminDashboard.PendingCount | src/components/dashboard/AdminDashboard.js:28-30 | counts users with a profile that is not verified; never more than the list |
| AdminDashboard.ActiveCount | src/components/dashboard/AdminDashboard.js:31 | counts active users; never more than the list |
| AdminDashboard.ComputeStats | src/components/dashboard/AdminDashboard.js:27-31 | the total is the list length and bounds both other counts |
| AdminDashboard.ApplyVerification | src/components/dashboard/AdminDashboard.js:55-66 | only the profile verification flag of users with the matching id and a profile changes; length, order and all other users are unchanged |
| AdminDashboard.RecountPending | src/components/dashboard/AdminDashboard.js:69-72 | the recount never exceeds the list length; `RecountMatchesUpdatedList` ties it to the updated list |
| AdminDashboard.RecountMatchesUpdatedList | src/components/dashboard/AdminDashboard.js:69-72 | the incremental recount over the old list equals the pending count of the updated list |
| AdminDashboard.VerificationKeepsActive | src/components/dashboard/AdminDashboard.js:74-77 | verification never changes the active count |
| AdminDashboard.VerificationKeepsStatsAccurate | src/components/dashboard/AdminDashboard.js:69-77 | the updated stats (pending recounted, others kept) are the stats of the updated list |
| AdminDashboard.Dashboard.constructor | src/components/dashboard/AdminDashboard.js:8-17 | empty list, loading, zero stats, users tab; the stats are accurate |
| AdminDashboard.Dashboard.Screen | src/components/dashboard/AdminDashboard.js:96-97 | the loading and error screens only cover the users tab; every other tab renders regardless |
| AdminDashboard.Dashboard.FetchUsers | src/components/dashboard/AdminDashboard.js:20-45 | a 2xx answer replaces the users and computes their stats; a failure sets the error; a 401 also empties the token slot and sends the browser to `/`, and any other answer leaves both as they were |
| AdminDashboard.Dashboard.HandleVerification | src/components/dashboard/AdminDashboard.js:50-83 | on success the list and the stats are updated together; on failure the error is set and nothing else changes; accurate stats stay accurate; a 401 also empties the token slot and sends the browser to `/`, and any other answer leaves both as they were |
| AdminDashboard.Dashboard.ViewKyc | src/components/dashboard/AdminDashboard.js:91-94 | selects the user and switches to the KYC tab |
| AdminDashboard.Dashboard.SelectTab | src/components/dashboard/AdminDashboard.js:157-187 | the clicked tab becomes active |
| AdminKyc.LocalListUrl | src/components/dashboard/AdminKYCVerifications.js:31-33 | the URL starts with the list path, and is that path alone iff no user is selected |
| AdminKyc.DetailPath | src/components/dashboard/AdminKYCVerifications.js:76-82 | the detail endpoint is the data source's prefix followed by the row's id |
| AdminKyc.LocalListUrlRoundTrip | src/components/dashboard/AdminKYCVerifications.js:31-33 | the user id is recovered from the list URL, and no id gives the bare list path |
| AdminKyc.VendorList | src/components/dashboard/AdminKYCVerifications.js:50 | the vendor list is the answer's `items`, or empty when absent |
| AdminKyc.IssuerUsers | src/components/dashboard/AdminKYCVerifications.js:63-65 | a user is kept iff one of their roles is ISSUER, every copy kept, in the original order |
| AdminKyc.BadgeFor | src/components/dashboard/AdminKYCVerifications.js:104-126 | green, yellow, red and blue each hold iff the status is one of that badge's listed values; anything else is gray |
| AdminKyc.RowStatus | src/components/dashboard/AdminKYCVerifications.js:205-207 | local rows show `reviewStatus`; vendor rows show the review's status when it is non-empty and 'init' otherwise, so never an empty one |
| AdminKyc.RowKey | src/components/dashboard/AdminKYCVerifications.js:201-203 | local rows are keyed by `applicantId`, vendor rows by `id` |
| AdminKyc.RowUserLabel | src/components/dashboard/AdminKYCVerifications.js:223 | the user's email, else the external user id, else 'Unknown User'; never empty |
| AdminKyc.RowExternalId | src/components/dashboard/AdminKYCVerifications.js:234 | the external user id, or 'N/A' |
| AdminKyc.RowType | src/components/dashboard/AdminKYCVerifications.js:213-215 | local rows show the type as given; vendor rows default to 'individual' |
| AdminKyc.UnreviewedVendorRowIsBlue | src/components/dashboard/AdminKYCVerifications.js:104-126 | a vendor row without a review gets the blue badge |
| AdminKyc.KycList.constructor | src/components/dashboard/AdminKYCVerifications.js:5-12 | the selected user id is the `userId` prop as text, or '' when absent or zero; vendor source; list view |
| AdminKyc.KycList.FetchLocal | src/components/dashboard/AdminKYCVerifications.js:28-43 | requests the list URL for the selected user; a 2xx answer replaces the list; a failure sets the error; `loading` ends false; a 401 also empties the token slot and sends the browser to `/`, and any other answer leaves both as they were |
| AdminKyc.KycList.FetchVendor | src/components/dashboard/AdminKYCVerifications.js:45-57 | a 2xx answer replaces the list with the vendor list; a failure sets the error; `loading` ends false; a 401 also empties the token slot and sends the browser to `/`, and any other answer leaves both as they were |
| AdminKyc.KycList.FetchUsers | src/components/dashboard/AdminKYCVerifications.js:59-70 | a 2xx answer replaces the users with the issuer users; a failure keeps them; a 401 also empties the token slot and sends the browser to `/`, and any other answer leaves both as they were |
| AdminKyc.KycList.ViewDetails | src/components/dashboard/AdminKYCVerifications.js:72-92 | requests the detail path for the source; a 2xx answer selects it and opens the detailed view; a failure sets the error; a 401 also empties the token slot and sends the browser to `/`, and any other answer leaves both as they were |
| AdminKyc.KycList.BackToList | src/components/dashboard/AdminKYCVerifications.js:94-97 | leaves the detailed view and clears the selection |
| AdminKyc.KycList.SetDataSource | src/components/dashboard/AdminKYCVerifications.js:141 | the chosen source becomes current |
| WalletDetails.TruncateAddress | src/components/dashboard/AdminWalletDetails.js:75-78 | an empty address shows 'N/A'; any other shows up to 8 leading characters, '...', then up to 6 trailing ones, for every length |
| WalletDetails.FlowOf | src/components/dashboard/AdminWalletDetails.js:339-343 | 'Sent' iff the sender equals the wallet address ignoring case |
| WalletDetails.FlowIgnoresCase | src/components/dashboard/AdminWalletDetails.js:339-343 | changing the letter case of either address never changes the classification |
| WalletDetails.SelfTransferIsSent | src/components/dashboard/AdminWalletDetails.js:339-343 | a transfer from the wallet's own address is 'Sent' |
| WalletDetails.StatusTone | src/components/dashboard/AdminWalletDetails.js:351-353 | green iff CONFIRMED, yellow iff PENDING, red otherwise |
| WalletDetails.Details.constructor | src/components/dashboard/AdminWalletDetails.js:6-10 | no wallet, no balances, no transactions, loading |
| WalletDetails.Details.Screen | src/components/dashboard/AdminWalletDetails.js:80-98 | nothing is rendered iff not loading, no error and no wallet |
| WalletDetails.Details.FetchBalance | src/components/dashboard/AdminWalletDetails.js:39-52 | the balances are replaced only by a 2xx answer carrying `balances` |
| WalletDetails.Details.FetchTransactions | src/components/dashboard/AdminWalletDetails.js:54-67 | the transactions are replaced only by a 2xx answer that is a list |
| WalletDetails.Details.FetchWalletDetails | src/components/dashboard/AdminWalletDetails.js:17-37 | as written: a 2xx answer sets the wallet and then fetches balances and transactions, keeping any earlier error; a failure sets the error and fetches nothing; `loading` ends false; an earlier error keeps the error screen up |
| WalletDetails.Details.FetchWalletDetailsClearingError | src/components/dashboard/AdminWalletDetails.js:17-37 | corrected: a 2xx answer also clears the error, so the wallet is shown |
| IssuerWallet.ClassifyLoadError | src/components/wallet/IssuerWallet.js:49-72 | 404 and 500 mean "no wallet yet" (no error); 401 and 403 get their own messages; other statuses get `Error: ` plus the server message; no answer gets the connection message |
| IssuerWallet.ServerMessagesAreLabelled | src/components/wallet/IssuerWallet.js:65-71 | any message other than the three fixed ones comes from an unlisted status and starts with `Error: ` |
| IssuerWallet.WalletScreen.constructor | src/components/wallet/IssuerWallet.js:5-22 | no wallet, loading, the initial send form |
| IssuerWallet.WalletScreen.FetchBalance | src/components/wallet/IssuerWallet.js:76-86 | a 2xx answer replaces the balance; a failure keeps it |
| IssuerWallet.WalletScreen.FetchTransactions | src/components/wallet/IssuerWallet.js:88-98 | a 2xx answer replaces the transactions; a failure keeps them |
| IssuerWallet.WalletScreen.FetchWalletData | src/components/wallet/IssuerWallet.js:29-74 | a 2xx answer sets the wallet; balance and transactions are fetched exactly when it has an address, each taking its 2xx answer and otherwise staying as it was; a failure is handled as `ClassifyLoadError` says; `loading` ends false on every path |
| IssuerWallet.WalletScreen.CreateWallet | src/components/wallet/IssuerWallet.js:100-115 | a 2xx answer installs the new wallet; a failure sets the error; the creating flag ends false |
| IssuerWallet.WalletScreen.HandleSendFormChange | src/components/wallet/IssuerWallet.js:117-123 | only the named field of the send form changes |
| IssuerWallet.WalletScreen.HandleSendTokens | src/components/wallet/IssuerWallet.js:125-151 | posts the current form; success resets it to the initial form; failure reports the server message or 'Failed to send transaction' |
| IssuerRegister.ValidateForm | src/components/auth/IssuerRegister.js:29-39 | valid iff the passwords match and have at least 6 characters; a mismatch is reported before the length |
| IssuerRegister.RegistrationPayload | src/components/auth/IssuerRegister.js:49-58 | exactly the seven form fields plus role ISSUER; no `confirmPassword` |
| IssuerRegister.RegistrationPostsIssuerForm | src/components/auth/IssuerRegister.js:49-58 | the session manager posts the payload to `/auth/issuer/register` without its `role` |
| IssuerRegister.RegisteredIssuerReachesDashboard | src/components/auth/IssuerRegister.js:60-62 | a granted registration signs in an ISSUER, whose dashboard then renders |
| IssuerRegister.RegisterForm.constructor | src/components/auth/IssuerRegister.js:8-19 | every form field is present and empty; no error, not loading |
| IssuerRegister.RegisterForm.HandleChange | src/components/auth/IssuerRegister.js:21-27 | only the named field changes, and the form keeps all its fields; a name outside the form adds that key, as the spread does, and the payload ignores it |
| IssuerRegister.RegisterForm.HandleSubmit | src/components/auth/IssuerRegister.js:41-70 | an invalid form sets the validation error and never registers; a valid one registers with the payload, navigates to the dashboard on success with the error cleared, shows the error on failure, and ends not loading; only a valid form's 401 sends the browser to `/` |
| IssuerKyc.FailureMessage | src/components/kyc/IssuerKYC.js:29-33 | the message embeds the error's text, or 'Unknown error' |
| IssuerKyc.WidgetUserId | src/components/kyc/IssuerKYC.js:85 | the user's id, or 'temp-user-id' when there is none; never empty |
| IssuerKyc.Panel.constructor | src/components/kyc/IssuerKYC.js:7-9 | pending, hidden, with the start button offered |
| IssuerKyc.Panel.Start | src/components/kyc/IssuerKYC.js:11-15 | shows the panel in progress, with the widget mounted and no retry |
| IssuerKyc.Panel.Succeed | src/components/kyc/IssuerKYC.js:17-20 | completed: the widget is gone and neither retry nor start is offered |
| IssuerKyc.Panel.Fail | src/components/kyc/IssuerKYC.js:29-33 | failed with the failure message: the widget is gone and retry is offered |
| IssuerKyc.Panel.WidgetUser | src/components/kyc/IssuerKYC.js:83-89 | the mounted widget gets the fallback-aware user id |
| IssuerKyc.RetryOnlyAfterFailure | src/components/kyc/IssuerKYC.js:69-78 | once shown, retry is offered iff the status is failed; completed offers nothing |
| DateUtils.FormatDate | src/utils/dateUtils.js:11-35 | 'N/A' iff no date, 'Invalid date' iff unparsable, otherwise the formatted instant |
| DateUtils.NestedFloor | src/utils/dateUtils.js:60-81 | flooring twice by 60 and 60 (and so on) is flooring once by the product |
| DateUtils.RelativeBucket | src/utils/dateUtils.js:54-81 | the unit follows the thresholds 60 s, 60 min, 24 h, 30 d, 12 mo; the count is the elapsed seconds floored by the unit's length, at least 1 past seconds |
| DateUtils.UnitWord | src/utils/dateUtils.js:62-81 | past seconds, the unit word ends in 's' iff the count is not 1 |
| DateUtils.FormatRelativeTime | src/utils/dateUtils.js:42-86 | 'N/A' for no date, 'Invalid date' for an unparsable one, otherwise count, unit word and 'ago' as the bucket says |
| DateUtils.UnderAMinuteInSeconds | src/utils/dateUtils.js:54-58 | under a minute reads '<s> seconds ago' |
| DateUtils.FutureDatesReadAsSeconds | src/utils/dateUtils.js:54-58 | a future date reads as a non-positive number of seconds ago |
| DateUtils.OneDayAgo | src/utils/dateUtils.js:70-72 | one day ago reads '1 day ago' (singular) |
| DateUtils.IsDatePast | src/utils/dateUtils.js:93-110 | true iff a parsable date lies strictly before now |
| DateUtils.NotPastReadsAsSeconds | src/utils/dateUtils.js:93-110 | a date that is not past always falls in the seconds bucket |

## Left out

- The `HEAD` side of the merge conflicts in `src/context/AuthContext.js` is not modelled. The model follows the `24656c3` side throughout.
- Network I/O is not modelled: axios round trips, `Promise.all` and `withCredentials` on the wire. Every answer is an input.
- `setTimeout` refreshes are left out. This includes the delayed balance and transaction refresh after a send in `IssuerWallet`.
- React effect scheduling, re-render timing and races between in-flight requests are left out. Each handler runs to completion on the answers it is given.
- `window.location.href` assignment is a field write. The page reload it causes is not modelled.
- The clipboard, `matchMedia`, the console and script-tag injection are not modelled.
- The KYC rows' second user line (`first_name last_name`) and their creation date are shown as given and are not modelled.
- Date parsing is abstracted as `DateUtils.DateArg` (missing, unparsable, or an instant in ms). So are `Intl.DateTimeFormat`, `toLocaleString`, and the `'Format error'` catch paths.
- `parseFloat(...).toFixed` in the wallet details is floating point and is not modelled.
- Js.LexCompare: stands in for `localeCompare` as a total order that compares character by character. Locale collation is not modelled.
- Js.LexCompare: compares Unicode scalar values, while JavaScript strings are UTF-16 code units. For characters outside the Basic Multilingual Plane the two orders can differ.
- IssuerRegister.ValidateForm: `|password|` counts Unicode characters, whereas JavaScript's `.length` counts UTF-16 code units. A password of three characters outside the Basic Multilingual Plane (such as "😀😀😀") is accepted by the source (length 6) and rejected by the model (length 3).
- AdminWallets.Truncate: its offsets count Unicode characters, not UTF-16 code units, so for characters outside the Basic Multilingual Plane the cut falls elsewhere than `substring`'s. The same holds for `AdminWallets.TruncateAddress` and `WalletDetails.TruncateAddress`. Wallet addresses are ASCII, so this does not arise for them.
- AppRoutes.RouteAt: matches paths exactly. React Router 6 matches case-insensitively by default and ignores a trailing slash, so `/Admin/Dashboard` or `/admin/dashboard/` reach the guarded dashboard in the application but are `CatchAll` in the model. `AppRoutes.UnknownPathGoesHome`, `RoutesIndex.RouteAt` and `IssuerApp.RouteAt` inherit this. What they prove holds for the listed spellings of each path.
- `toLowerCase`/`toUpperCase` map ASCII letters only. Unicode case mapping is not modelled.
- Wallet ids are numbers and `createdAt` is milliseconds. A `null` first or last name renders as "null" inside the full-name search text; the model treats names as strings.
- `IssuerWallet.WalletScreen.FetchTransactions` does not model the `TypeError` a 2xx answer with a `null` body would raise.
- Sumsub flows (`src/pages/KYCVerificationPage.js`, `src/components/kyc/SumsubVerification.js`) wrap a vendor SDK that is not visible. The widget's callbacks appear only as the `IssuerKyc.Panel.Succeed` and `Fail` transitions.
- `src/components/dashboard/IssuerDashboard.js`, `Home.js`, `InvestorDashboard.js`, `IssuerDID.js`, `IssuerCredentials.jsx`, `IssuerLogin.js`, `KYCVerificationButton.js` and `LoadingSpinner.js` are presentation. They are not part of this model, and neither are JSX markup and CSS.
- `src/utils/GoogleLoginCallback.js` navigates to `/login` when there is no token. `App.js` has no such route, so that navigation reaches the catch-all (`OAuthCallback.LoginIsNotAnAppRoute`).

## Findings

| source | as written | input that shows it | evidently intended | confidence | as-written member | corrected member |
|---|---|---|---|---|---|---|
| src/components/dashboard/AdminWallets.js:23-36 | `fetchWallets` sets `error` on failure but never clears it on success, and the error screen (lines 130-140) offers only "Try Again", which calls `fetchWallets` | a first fetch that fails, then a 2xx answer to "Try Again": the wallets load but the error screen stays | a successful fetch clears `error` and shows the table | high, not executed | AdminWallets.WalletsTable.FetchWallets | AdminWallets.WalletsTable.FetchWalletsClearingError |
| src/components/dashboard/AdminWalletDetails.js:17-37 | `fetchWalletDetails` sets `error` on failure but never clears it on success, and the error screen (lines 86-96) offers only "Try Again", which calls `fetchWalletDetails` | a first fetch that fails, then a 2xx answer to "Try Again": the wallet loads but the error screen stays | a successful fetch clears `error` and shows the wallet | high, not executed | WalletDetails.Details.FetchWalletDetails | WalletDetails.Details.FetchWalletDetailsClearingError |
| src/components/dashboard/AdminWallets.js:168 | changing the search term (and likewise the role filter, line 185) does not reset `currentPage`, and the pagination bar is drawn only for more than 10 results (line 463) | 25 wallets, the user on page 3, then a search term matching 5: page 3 of a 5-item list is empty and no page buttons are shown | a filter change returns to page 1 | high, not executed | AdminWallets.StalePageShowsNothing | AdminWallets.WalletsTable.SetSearchTermFromFirstPage |
