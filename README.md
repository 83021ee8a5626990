# Admin dashboard core, modelled in Dafny

This project models the client-side core of a React admin dashboard for a game backend. Admins, staff and players sign in, and each role is sent to its own section. The sections list users and players in paginated, sortable tables, debounce a player search, and edit records through forms.

The model covers these parts of the source:

- the shared HTTP session: the `Authorization` header and the response interceptor;
- the authentication context: the reducer, `login` and `initialize`;
- the three route guards and the route table;
- the sidebar;
- the player, leaderboard and user tables;
- the debounced search bar and the layout that runs its searches;
- the login page, the two user and player forms, and the registration page.

Everything is modelled as the code is written, including its oddities. Where a behaviour looks unintended, a lemma states it as it is; nothing is corrected.

Modelling choices:

- Dynamic JavaScript data is a `Js.JsValue`: undefined, null, booleans, integers, strings and objects as maps of own properties. This covers response bodies, stored users and table rows.
- Truthiness, `?.`, `.` and `String(v)` are each defined once in `Js`. A `.` read on a nullish value is a `TypeError`.
- Every backend reply is a parameter `Result<T, Session.AxiosError>`. Each operation passes it through `Session.Intercept`, as the shared axios instance does.
- `localStorage` and what the page does to the outside world live in a `Browser.Browser` object:
  - `storage` holds the parsed values;
  - `effects` is an append-only log of requests, navigations, `window.location.href` assignments, reloads, alerts and `close()` callbacks.
- Component state is a class whose fields are the component's `useState` variables. Each handler is a method with a `modifies` frame and an ensures that states the whole new state.
- Pure parts are functions with lemmas:
  - the reducer, the guards and the route table;
  - the comparator and the sort;
  - pagination arithmetic, query parameters and form records.
- JavaScript's `Array.prototype.sort` is a stable insertion sort (`Sorting.InsertionSort`). A comparator that throws makes the sort `None`.
- `localeCompare` is an abstract parameter `lc`.
- The debounce helper is a timer with one pending slot, driven by discrete `Call` and `Elapse(dt)` events.

## Behaviour as written

The code does a few surprising things. The model follows the code in each of them.

- `setSession` with a falsy token leaves an earlier header in place; nothing clears it.
- `login` throws a `TypeError` for a nullish response body, because the body is destructured before it is tested. Only a falsy non-nullish body dispatches INITIAL.
- AuthGuard and GuestGuard never consult `isInitialized`. Only ProtectedRoute has a loading state.
- The pagers disable Previous at page 1 and Next when the page equals `meta.totalPages`. They do not read `hasPreviousPage`/`hasNextPage`.
- The leaderboard request carries no page parameters.
- The search sends no sequence number, and a late response simply overwrites the list.
- PlayerTable's optional role gate is an `<AuthGuard>` without `allowedRoles`. It throws for every signed-in user (`PlayerTable.ActionsCellFaultsWhenSignedIn`).
- PlayerTable renders `data`, not the sorted copy (`PlayerTable.RenderedRowsIgnoreTheSort`).

## Model

| member | source | states |
|---|---|---|
| Session.NextAuthorization | src/utils/session.tsx:24-28 | a truthy token makes the header one that reads back as exactly that token; any other token leaves the header exactly as it was, so no header is ever cleared |
| Session.HeaderTokenRoundTrip | src/utils/session.tsx:26 | the token can be read back out of the `Bearer ` header written from it |
| Session.SetSessionIdempotent | src/utils/session.tsx:24-28 | setting the same token twice gives the same header as setting it once |
| Session.StringTokenHeader | src/utils/session.tsx:26 | a non-empty string token gives the header `"Bearer " + token` |
| Session.Transport.constructor | src/utils/session.tsx:7-12 | the shared instance starts without an Authorization header |
| Session.Transport.SetSession | src/utils/session.tsx:24-28 | the new header is NextAuthorization of the old one; a falsy token changes nothing |
| Session.RejectionValue | src/utils/session.tsx:16-19 | the rejection reason is the response data when a response with truthy data exists, otherwise "Something went wrong"; it is always truthy |
| Session.Intercept | src/utils/session.tsx:14-20 | success passes through unchanged; a failure becomes a rejection with RejectionValue, never nullish |
| Session.ErrorMessage | src/component/user/UserTable.tsx:39-41 | `error.message` of a rejection reason is the data's `message` field as text, or "undefined" when there is none |
| Session.RejectionMessage | src/utils/session.tsx:16-19 | without a response the alerted message is "undefined"; with one it is the `message` of the response data |
| Roles.HomePath | src/guard/AuthGuard.tsx:19-25 | a home path exists exactly for the strings admin, staff and player, and it is "/" followed by the role |
| AuthContext.PayloadUser | src/context/AuthContext.tsx:54 | the payload user, or null when it is falsy, is null or truthy |
| AuthContext.Reduce | src/context/AuthContext.tsx:48-72 | no action resets `isInitialized`; only INITIAL sets it; an unknown action leaves the state unchanged; a changed user is null or truthy |
| AuthContext.InitialSetsInitialized | src/context/AuthContext.tsx:50-55 | INITIAL sets `isInitialized`, takes `isAuthenticated` from the payload (default false), installs a truthy payload user and otherwise sets the user to null |
| AuthContext.LoginAndRegisterAuthenticate | src/context/AuthContext.tsx:56-62 | LOGIN and REGISTER authenticate, keep `isInitialized`, and set the user to the payload user or null |
| AuthContext.AuthenticatedWithoutUserIsReachable | src/context/AuthContext.tsx:56-62 | LOGIN without a payload yields an authenticated state with a null user |
| AuthContext.LogoutIsIdempotent | src/context/AuthContext.tsx:63-68 | LOGOUT signs out, clears the user, keeps `isInitialized`, and a second LOGOUT changes nothing |
| AuthContext.InitializedIffInitialDispatched | src/context/AuthContext.tsx:48-72 | after any sequence of actions the state is initialized exactly when it was before or some INITIAL was dispatched |
| AuthContext.LoginRequest | src/context/AuthContext.tsx:120-123 | `login` POSTs to `player` with no query parameters, and the body reads back as the email and password |
| AuthContext.LoginOutcomeOf | src/context/AuthContext.tsx:119-144 | `login` throws exactly when the request fails or the body is nullish; it signs in exactly when the body is truthy, with the body as the record and its `accessToken` as the token |
| AuthContext.LoginOutcomeState | src/context/AuthContext.tsx:126-143 | a sign-in stores the record as the authenticated user; a falsy body resets to an initialized, signed-out state |
| AuthContext.RestoreNavigation | src/context/AuthContext.tsx:97-106 | `initialize` navigates at most once, to the home of a known role in the fetched record, and does navigate whenever the record has one |
| AuthContext.RestoreNavigatesByRole | src/context/AuthContext.tsx:98-106 | admin, staff and player go to /admin, /staff and /player; any other role goes nowhere |
| AuthContext.AuthProvider.constructor | src/context/AuthContext.tsx:42-46 | the provider starts uninitialized, signed out, without a user and with an empty player list |
| AuthContext.AuthProvider.Dispatch | src/context/AuthContext.tsx:85 | the new state is the reducer applied to the old state |
| AuthContext.AuthProvider.Login | src/context/AuthContext.tsx:119-144 | sends the POST; on rejection it throws and changes nothing; on sign-in it stores the record under "user", sets the session token and dispatches LOGIN; on a falsy body it dispatches INITIAL only |
| AuthContext.AuthProvider.Initialize | src/context/AuthContext.tsx:90-112 | never dispatches; with a truthy stored user it sets the session from its token, fetches `user/<id>` and performs RestoreNavigation; with none it does nothing |
| Guards.Admits | src/guard/ProtectGuard.tsx:27 | a guard admits exactly when it neither redirects, shows the loading state nor faults |
| Guards.AuthGuard | src/guard/AuthGuard.tsx:10-29 | signed out redirects to /login and carries the location; children render exactly when signed in and the user is absent, allowed or of an unknown role; every other signed-in case redirects to the role's home; it fails exactly when `allowedRoles` is missing for a truthy user |
| Guards.AuthGuardBouncesKnownRole | src/guard/AuthGuard.tsx:18-25 | a known role that is not allowed is sent to "/" + role |
| Guards.AuthGuardAdmitsUnknownRole | src/guard/AuthGuard.tsx:18-28 | a role that is not a known one falls through to the children |
| Guards.GuestGuard | src/guard/GuestGuard.tsx:9-23 | signed out renders the children; signed in with a known role redirects home, with another role renders the children, and with a nullish user throws |
| Guards.ProtectedRoute | src/guard/ProtectGuard.tsx:10-28 | loading exactly when uninitialized; /login exactly when initialized and signed out; /unauthorized exactly when the role is not allowed; admits exactly when initialized, signed in and allowed, rendering the children if given and the outlet otherwise |
| App.Routes | src/App.tsx:14-78 | the route literal has four top-level routes with distinct paths, each opening with an index child that redirects |
| App.RootRedirectsToLogin | src/App.tsx:15-18 | the index of `/` redirects to /login |
| App.LoginAndRegisterAreGuestOnly | src/App.tsx:19-34 | `login` and `register` render their pages inside GuestGuard |
| App.SectionsAdmitOneRoleEach | src/App.tsx:37-75 | /admin, /staff and /player are the layout behind an AuthGuard allowing exactly that role, and each index redirects to its own section |
| App.SectionPages | src/App.tsx:44-74 | the child pages of /admin, /staff and /player, in order |
| App.KnownRoleReachesOwnSectionOnly | src/App.tsx:37-75 | a known role enters its own section and is redirected home from the other two |
| App.UnknownRoleEntersEverySection | src/App.tsx:37-75 | a signed-in context with no user or an unknown role enters every section |
| SideBar.MenuFor | src/component/SideBar.tsx:15-33 | each known role gets its own menu and any other role value gets an empty one |
| SideBar.AdminMenuOrder | src/component/SideBar.tsx:16-21 | the admin entries are Dashboard, User Management, Player Management and Leaderboard, in that order |
| SideBar.StaffAndPlayerMenuNames | src/component/SideBar.tsx:22-29 | the staff entries are Dashboard and Player Management, the player entries Dashboard and Leaderboard, in that order |
| SideBar.StaffMenuIsRouted | src/component/SideBar.tsx:22-25 | every staff menu path is a child route of /staff |
| SideBar.AdminDashboardIsNotRouted | src/component/SideBar.tsx:17 | the admin Dashboard entry names a path that /admin does not route |
| SideBar.PlayerMenuLeavesTheTable | src/component/SideBar.tsx:26-29 | the player entries are absolute paths that no section of the route table answers |
| SideBar.Sidebar.constructor | src/component/SideBar.tsx:12 | the sidebar starts closed |
| SideBar.Sidebar.Toggle | src/component/SideBar.tsx:38-40 | the toggle button flips `isOpen` |
| SideBar.Sidebar.LinkClicked | src/component/SideBar.tsx:69 | a link click closes the sidebar |
| SideBar.Sidebar.Logout | src/component/SideBar.tsx:81-85 | logout removes exactly the "user" key, sets the location to `/` and alerts |
| Rows.SetActiveWhereId | src/component/player/PlayerTable.tsx:150-156 | same length; rows with the id get the new `active` flag, all other rows are unchanged |
| Rows.ReplaceWhereId | src/component/player/PlayerTable.tsx:95-97 | same length; every row whose id strictly equals the edited id becomes the edited record, the others are unchanged |
| Rows.ReplaceWithoutIdHitsRowsWithoutId | src/component/player/PlayerTable.tsx:96 | an edited record without an id replaces every row without an id |
| Rows.FilterOutId | src/component/user/UserTable.tsx:35 | no kept row has the id |
| Rows.FilterOutIdCounts | src/component/user/UserTable.tsx:35 | every row without the id is kept as often as it occurred, rows with the id are all dropped |
| Rows.FilterOutIdConcat | src/component/user/UserTable.tsx:35 | filtering distributes over concatenation, so the order of kept rows is preserved |
| Rows.FilterOutIdIdempotent | src/component/user/UserTable.tsx:35 | filtering twice by the same id is filtering once |
| Sorting.HandleSort | src/component/player/PlayerTable.tsx:75-82 | the clicked column becomes the sort column; the same column flips the direction, a new column sorts ascending |
| Sorting.HandleSortCycles | src/component/player/PlayerTable.tsx:75-82 | clicking the current column twice restores the state, and three clicks on any column equal one |
| Sorting.SortValue | src/component/player/PlayerTable.tsx:53-60 | the key is the row's own field when present, otherwise the field of `statistics`; the lookup throws exactly when the field is missing and `statistics` is nullish |
| Sorting.Key | src/component/player/PlayerTable.tsx:53-60 | the key is the row's own field when present, else the field of a non-nullish `statistics`, and undefined where that lookup would throw |
| Sorting.Compare | src/component/player/PlayerTable.tsx:62-72 | two strings compare by `localeCompare`, with the operands swapped for descending; two numbers compare by `a - b`, reversed for descending, so the result is positive exactly when the pair is out of order; any other pair of keys ties |
| Sorting.Insert | src/component/player/PlayerTable.tsx:52-73 | one insertion step adds exactly one row to the multiset |
| Sorting.InsertionSort | src/component/player/PlayerTable.tsx:52-73 | the sort is a permutation of its input |
| Sorting.SortRows | src/component/player/PlayerTable.tsx:52-73 | `sortedData` is a permutation of `data`, and it throws exactly when there are at least two rows and one key lookup throws |
| Sorting.InsertOrdered | src/component/player/PlayerTable.tsx:68-70 | inserting a numeric row into a list ordered by numeric key keeps it ordered |
| Sorting.InsertionSortOrdered | src/component/player/PlayerTable.tsx:68-70 | rows with numeric keys come out ordered ascending or descending by the direction |
| Sorting.NumericColumnSorts | src/component/player/PlayerTable.tsx:68-70 | on a numeric column the sort succeeds, is a permutation and is ordered by the key in the chosen direction |
| Sorting.AllTiesKeepOrder | src/component/player/PlayerTable.tsx:72 | when every pair compares as 0 the rows keep their order |
| Sorting.TiesKeepSuffix | src/component/player/PlayerTable.tsx:72 | when every pair compares as 0, every suffix of the rows is already sorted |
| Sorting.AbsentKeyKeepsOrder | src/component/player/PlayerTable.tsx:53-72 | a column that no row nor statistics object holds leaves the rows in order |
| Sorting.LowerCase | src/component/player/PlayerTable.tsx:194 | lower-casing keeps the length, maps each ASCII capital to its small letter and leaves every other character in place |
| Sorting.LowerCaseKeepsSpaces | src/component/player/PlayerTable.tsx:194 | lower-casing keeps every space, so a multi-word header stays multi-word |
| Pagination.PreviousDisabled | src/component/player/PlayerTable.tsx:300 | Previous is disabled exactly on page 1 |
| Pagination.NextDisabled | src/component/player/PlayerTable.tsx:307 | Next is disabled exactly when `meta` is an object whose `totalPages` is the current page |
| Pagination.PreviousPage | src/component/player/PlayerTable.tsx:298-300 | Previous goes back one page unless it is disabled |
| Pagination.NextPage | src/component/player/PlayerTable.tsx:305-307 | Next goes forward one page unless it is disabled |
| Pagination.ShowingTo | src/component/player/PlayerTable.tsx:322 | without `meta` the range ends at `min(p*10, 0)`; with a numeric `totalItems` it ends at `min(p*10, totalItems)`; there is no value exactly when `totalItems` is truthy and not a number |
| Pagination.NextDisabledExactlyOnLastPage | src/component/player/PlayerTable.tsx:307 | with a loaded `meta`, Next is disabled exactly on page `totalPages` |
| Pagination.NextEnabledWithoutMeta | src/component/player/PlayerTable.tsx:307 | before `meta` arrives, Next is enabled and advances |
| Pagination.ShowingRange | src/component/player/PlayerTable.tsx:316-322 | the shown range is `(p-1)*10+1` to `min(p*10, totalItems)` |
| Pagination.EmptyRangeWithoutMeta | src/component/player/PlayerTable.tsx:316-325 | before `meta` arrives, page 1 reads "Showing 1 to 0" |
| Pagination.ButtonsStayInRange | src/component/player/PlayerTable.tsx:298-311 | from a page within 1..totalPages, both buttons stay within 1..totalPages |
| Pagination.NextPassesAnEmptyListing | src/component/player/PlayerTable.tsx:305-307 | with zero total pages Next still moves from page 1 to page 2 |
| PlayerTable.ToggleRequest | src/component/player/PlayerTable.tsx:143-145 | the toggle is a PATCH with no query parameters and no body, to `/user/player/setInactive/` followed by the user id |
| PlayerTable.ListingRequest | src/component/player/PlayerTable.tsx:128-130 | the listing GET carries the page and a page size of 10 |
| PlayerTable.ToggledActive | src/component/player/PlayerTable.tsx:148 | a nullish body throws; otherwise the new flag is true exactly when the message is "player set to Active" |
| PlayerTable.ActionsCellFaultsWhenSignedIn | src/component/player/PlayerTable.tsx:275-290 | the role-less AuthGuard throws for a signed-in user, redirects a signed-out one, and never shows the actions to a signed-in user |
| PlayerTable.SwappedPair | src/component/player/PlayerTable.tsx:52-73 | two rows whose keys are present and compare out of order come back from the sort swapped |
| PlayerTable.RenderedRowsIgnoreTheSort | src/component/player/PlayerTable.tsx:212 | a sort by Name reorders the sorted copy while the rendered `data` keeps fetch order |
| PlayerTable.PlayerTable.SortedData | src/component/player/PlayerTable.tsx:52-73 | the sorted copy is missing exactly when the comparator throws, and otherwise is a permutation of `data` |
| PlayerTable.PlayerTable.constructor | src/component/player/PlayerTable.tsx:29-49 | the table starts empty on page 1, sorted by id ascending, with no edit in progress |
| PlayerTable.PlayerTable.EditDismissed | src/component/player/PlayerTable.tsx:363-367 | the modal's close button clears the edited user and the editing flag |
| PlayerTable.PlayerTable.EditorClosed | src/component/player/PlayerTable.tsx:373-377 | the form's close callback clears the user and `createNew`, which closes the modal |
| PlayerTable.PlayerTable.HandleSort | src/component/player/PlayerTable.tsx:75-82 | the sort state follows Sorting.HandleSort |
| PlayerTable.PlayerTable.HeaderClicked | src/component/player/PlayerTable.tsx:188-196 | a header click sorts by the lower-cased header text |
| PlayerTable.PlayerTable.HandleEdit | src/component/player/PlayerTable.tsx:88-91 | editing opens with the chosen row |
| PlayerTable.PlayerTable.SaveEdit | src/component/player/PlayerTable.tsx:93-102 | with an edited record every row with its id is replaced and the edit is closed; without one nothing changes |
| PlayerTable.PlayerTable.HandleChange | src/component/player/PlayerTable.tsx:104-108 | an edit sets the one named field of the edited record, and does nothing without one |
| PlayerTable.PlayerTable.HandlePageChange | src/component/player/PlayerTable.tsx:110-112 | the page becomes the argument |
| PlayerTable.PlayerTable.PreviousClicked | src/component/player/PlayerTable.tsx:298-300 | the page becomes Pagination.PreviousPage of the old page |
| PlayerTable.PlayerTable.NextClicked | src/component/player/PlayerTable.tsx:305-307 | the page becomes Pagination.NextPage of the old page |
| PlayerTable.PlayerTable.FetchData | src/component/player/PlayerTable.tsx:125-138 | sends the listing request for the current page; a body replaces `data` and `meta`; a failure or nullish body keeps both |
| PlayerTable.PlayerTable.ToggleSwitch | src/component/player/PlayerTable.tsx:140-161 | sends the PATCH; success sets the flag on rows with that id only; failure or a nullish body alerts and leaves `data` unchanged |
| LeaderBoard.RankFrom | src/component/player/LeaderBoard.tsx:123-130 | each row is paired with its position counted from the first rank |
| LeaderBoard.RanksAreOneToN | src/component/player/LeaderBoard.tsx:123-129 | the displayed ranks are exactly 1..n, in sorted order |
| LeaderBoard.SpacedKeyIsAbsent | src/component/player/LeaderBoard.tsx:31-39 | a key containing a space names no field of a row whose keys have no spaces |
| LeaderBoard.MultiWordHeaderKeys | src/component/player/LeaderBoard.tsx:95-105 | the lower-cased keys of Experience Points, Games Played and Games Won contain a space |
| LeaderBoard.MultiWordHeaderKeepsOrder | src/component/player/LeaderBoard.tsx:91-107 | clicking one of those headers sorts nothing: the rows keep their order in either direction |
| LeaderBoard.InitialOrderIsAscendingExperience | src/component/player/LeaderBoard.tsx:25-28 | the initial sort succeeds, is a permutation and orders the board by experience points ascending |
| LeaderBoard.LeaderBoard.Board | src/component/player/LeaderBoard.tsx:123-144 | the board fails to render exactly when the comparator throws or some row has a nullish `statistics`, whose cells throw; otherwise it is `sortedData` ranked from 1, so it has one entry per row of `data`, ranked 1 to n |
| LeaderBoard.LeaderBoard.constructor | src/component/player/LeaderBoard.tsx:21-28 | the board starts empty on page 1, sorted by experience_point ascending |
| LeaderBoard.LeaderBoard.HandleSort | src/component/player/LeaderBoard.tsx:54-61 | the sort state follows Sorting.HandleSort |
| LeaderBoard.LeaderBoard.HeaderClicked | src/component/player/LeaderBoard.tsx:99-107 | a header click sorts by the lower-cased header text |
| LeaderBoard.LeaderBoard.HandlePageChange | src/component/player/LeaderBoard.tsx:63-65 | the page becomes the argument |
| LeaderBoard.LeaderBoard.PreviousClicked | src/component/player/LeaderBoard.tsx:158-160 | the page becomes Pagination.PreviousPage of the old page |
| LeaderBoard.LeaderBoard.NextClicked | src/component/player/LeaderBoard.tsx:165-167 | the page becomes Pagination.NextPage of the old page |
| LeaderBoard.LeaderBoard.FetchData | src/component/player/LeaderBoard.tsx:67-78 | sends the same request whatever the page; a body replaces `data` and `meta`, a failure keeps both |
| UserTable.ListingRequest | src/component/user/UserTable.tsx:61-63 | the listing GET carries the page and a page size of 10 |
| UserTable.UserTable.constructor | src/component/user/UserTable.tsx:22-30 | the table starts empty on page 1 with no modal open |
| UserTable.UserTable.FormUser | src/component/user/UserTable.tsx:175 | the form gets a truthy user exactly when `editUser` is set |
| UserTable.UserTable.CreateClicked | src/component/user/UserTable.tsx:82 | Create New User opens the create modal |
| UserTable.UserTable.EditDismissed | src/component/user/UserTable.tsx:167-171 | the edit modal's close button clears the user and the flag |
| UserTable.UserTable.EditorClosed | src/component/user/UserTable.tsx:175 | the edit form's callback lowers the flag and keeps `editUser` |
| UserTable.UserTable.CreateDismissed | src/component/user/UserTable.tsx:185-188 | the create modal's close button clears the user and closes it |
| UserTable.UserTable.CreateClosed | src/component/user/UserTable.tsx:194 | the create form's callback closes the modal |
| UserTable.DeleteRequest | src/component/user/UserTable.tsx:36 | the delete is a DELETE with no query parameters and no body, to `/user/` followed by the id |
| UserTable.UserTable.HandleDelete | src/component/user/UserTable.tsx:33-42 | sends the DELETE; success installs the pre-call list without rows of that id and alerts; failure alerts `error.message` and keeps `data` |
| UserTable.UserTable.HandleEdit | src/component/user/UserTable.tsx:45-48 | editing opens with the chosen row |
| UserTable.UserTable.HandlePageChange | src/component/user/UserTable.tsx:51-53 | the page becomes the argument, without bounds check |
| UserTable.UserTable.PreviousClicked | src/component/user/UserTable.tsx:142-143 | the page becomes Pagination.PreviousPage of the old page |
| UserTable.UserTable.NextClicked | src/component/user/UserTable.tsx:152-153 | the page becomes Pagination.NextPage of the old page |
| UserTable.UserTable.FetchData | src/component/user/UserTable.tsx:58-71 | sends the listing request for the current page; a body replaces `data` and `meta`, a failure keeps both |
| UserTable.DeleteKeepsOtherRowsInOrder | src/component/user/UserTable.tsx:35-37 | deleting a row keeps the rows before and after it, in order, minus rows of the same id |
| UserTable.StaleUserTurnsCreateIntoEdit | src/component/user/UserTable.tsx:192-196 | a create modal opened while `editUser` is still set submits a PUT to that user |
| Debounce.Step | src/component/SearchBar.tsx:31-37 | a call replaces any pending call with its own arguments and the full delay; an elapse fires the pending call exactly when its remaining time has run out |
| Debounce.RunConcat | src/component/SearchBar.tsx:31-37 | running two event sequences one after another is running their concatenation |
| Debounce.BurstSchedulesLast | src/component/SearchBar.tsx:33-36 | calls spaced less than the delay apart fire nothing and leave only the last one pending |
| Debounce.LastCallWins | src/component/SearchBar.tsx:31-37 | after such a burst and a full delay exactly one call runs, with the last call's arguments |
| Debounce.ShortPauseKeepsWaiting | src/component/SearchBar.tsx:35 | a pause shorter than the remaining time fires nothing and shortens the wait |
| Debounce.Debouncer.constructor | src/component/SearchBar.tsx:31-32 | a debouncer starts with no pending call |
| Debounce.Debouncer.Invoke | src/component/SearchBar.tsx:33-36 | a call leaves exactly this call pending with the full delay |
| Debounce.Debouncer.Advance | src/component/SearchBar.tsx:35 | time passing follows Debounce.Step and returns the call that fired, if any |
| SearchBar.With | src/component/SearchBar.tsx:67-70 | an input change sets only the named field |
| SearchBar.PanelFor | src/component/SearchBar.tsx:132-153 | Loading while loading; otherwise nothing for two empty fields, the players when there are some, else "No data found" |
| SearchBar.SearchBar.constructor | src/component/SearchBar.tsx:43-63 | the query starts empty with page 1 and page size 1000, not loading, with a fresh 500 ms debouncer |
| SearchBar.SearchBar.HandleInputChange | src/component/SearchBar.tsx:65-77 | updates the field, clears the player list at once when the value is empty, starts loading and schedules the search with the updated query |
| SearchBar.SearchBar.HandleBlur | src/component/SearchBar.tsx:79-86 | loading becomes false whenever the value captured at blur was false, even if a keystroke has turned it on since, and is otherwise kept |
| SearchBar.SearchBar.PlayerClicked | src/component/SearchBar.tsx:91-93 | a click selects that player for the modal |
| SearchBar.SearchBar.CloseModal | src/component/SearchBar.tsx:95-97 | closing clears the selection |
| SearchBar.SearchBar.Reset | src/component/SearchBar.tsx:119-125 | Reset empties both fields and drops `page` and `pageSize`, with no search and no clearing |
| SearchBar.SearchBar.TimerElapsed | src/component/SearchBar.tsx:52-63 | the timer follows Debounce.Step, and loading ends when the search fires |
| SearchBar.ResetHidesPanel | src/component/SearchBar.tsx:139-153 | after Reset the panel is hidden whatever the list holds |
| Layout.TrimStart | src/layout/Layout.tsx:13 | keeps a suffix that starts with a non-space, drops only whitespace, and is empty exactly when the string is all whitespace |
| Layout.TrimEnd | src/layout/Layout.tsx:13 | keeps a prefix that ends with a non-space, drops only whitespace, and is empty exactly when the string is all whitespace |
| Layout.TrimEmptyIffBlank | src/layout/Layout.tsx:13 | a string trims to empty exactly when it is all whitespace |
| Layout.SearchParams | src/layout/Layout.tsx:12-24 | no request exactly when both fields trim to empty |
| Layout.SearchParamsContents | src/layout/Layout.tsx:17-23 | a search sends page 1 and page size 1000 always, country and searchKey each exactly when non-blank and with the untrimmed value, and no other parameter |
| Layout.Present | src/layout/Layout.tsx:13 | a trimmed field is truthy exactly when something other than whitespace is left |
| Layout.AssembledParams | src/layout/Layout.tsx:18-23 | the spread object literal holds page and pageSize, each optional part exactly when its condition holds, and only the four known names |
| Layout.Spread | src/layout/Layout.tsx:19-22 | a conditional spread adds its parameter exactly when the condition holds |
| Layout.SidebarRole | src/layout/Layout.tsx:34 | without a user the sidebar gets an undefined role, and with one it gets the user's own `role` |
| Layout.SignedOutSidebarIsEmpty | src/layout/Layout.tsx:34 | signed out, the sidebar shows no entries |
| Layout.Layout.constructor | src/layout/Layout.tsx:37-40 | the layout owns a fresh search bar sharing its context |
| Layout.Layout.OnQueryChange | src/layout/Layout.tsx:12-30 | a blank query does nothing; otherwise it sends the search, and a reply body replaces the player list while a failure keeps it |
| Layout.Layout.TimerElapsed | src/component/SearchBar.tsx:52-63 | when the debounced search fires, it runs `onQueryChange` with its query and ends loading; otherwise nothing else changes |
| Layout.BlankQueryShowsPreviousResults | src/layout/Layout.tsx:13 | a query of spaces is not searched yet counts as non-empty, so the previous players or "No data found" are shown |
| Login.StateAfter | src/context/AuthContext.tsx:119-144 | a rejected login leaves the state alone; a truthy body signs in with the body as the user; a falsy body resets to an initialized, signed-out state |
| Login.Feedback | src/Pages/Login.tsx:13-26 | "Login failed" exactly when `login` threw or the captured user is nullish; otherwise one navigation for a known captured role and none for another |
| Login.FirstSignInAlertsYetRedirects | src/Pages/Login.tsx:9-26 | signing in from a fresh page alerts "Login failed", though the user is stored and GuestGuard then sends them home |
| Login.CapturedRoleNavigates | src/Pages/Login.tsx:15-23 | a captured admin, staff or player role navigates to its home |
| Login.LoginPage.constructor | src/Pages/Login.tsx:6-7 | both fields start empty |
| Login.LoginPage.SetEmail | src/Pages/Login.tsx:38 | typing sets the email only |
| Login.LoginPage.SetPassword | src/Pages/Login.tsx:47 | typing sets the password only |
| Login.LoginPage.HandleSubmit | src/Pages/Login.tsx:11-27 | runs `login` with the two fields, then appends Feedback; storage and header change only on sign-in |
| CreateUser.InitialForm | src/component/user/form/CreateUser.tsx:5-10 | name and email come from the user when truthy, else ""; the password is ""; the role comes from the user, else "player" |
| CreateUser.Prefill | src/component/user/form/CreateUser.tsx:13-22 | a truthy user overwrites name, email and role without fallbacks and empties the password; otherwise the form stays |
| CreateUser.PrefillKeepsInitialForm | src/component/user/form/CreateUser.tsx:5-22 | for a user with non-empty string fields the prefill agrees with the initial form |
| CreateUser.PrefillDropsDefaultRole | src/component/user/form/CreateUser.tsx:9-19 | a user without a role starts as "player" and is prefilled to undefined |
| CreateUser.DefaultRoleIsNotOffered | src/component/user/form/CreateUser.tsx:105-114 | the create default "player" is not one of the offered roles |
| CreateUser.With | src/component/user/form/CreateUser.tsx:24-32 | an input change sets the named field |
| CreateUser.WithChangesOneField | src/component/user/form/CreateUser.tsx:27-31 | and leaves the other three unchanged |
| CreateUser.VisibleFields | src/component/user/form/CreateUser.tsx:86-100 | the password input is shown exactly when creating; name, email and role always |
| CreateUser.SubmitRequest | src/component/user/form/CreateUser.tsx:36-47 | with a user it is a PUT to `/user/<id>`, without one a POST to `/user`, carrying the form |
| CreateUser.Outcome | src/component/user/form/CreateUser.tsx:36-51 | success alerts updated or created, closes and reloads; failure only alerts `error.message`; it closes exactly on success |
| CreateUser.CreateUserForm.constructor | src/component/user/form/CreateUser.tsx:5-10 | the form starts as InitialForm of the user |
| CreateUser.CreateUserForm.UserChanged | src/component/user/form/CreateUser.tsx:13-22 | the effect replaces the form by Prefill |
| CreateUser.CreateUserForm.HandleInputChange | src/component/user/form/CreateUser.tsx:24-32 | an input change applies With |
| CreateUser.CreateUserForm.HandleSubmit | src/component/user/form/CreateUser.tsx:34-52 | sends SubmitRequest, then the Outcome effects |
| PlayerForm.Prefill | src/component/player/PlayerForm.tsx:12-21 | a truthy user sets each field from the user, falling back to "" or "np" for the country |
| PlayerForm.PrefillFallsBackToDefaults | src/component/player/PlayerForm.tsx:14-19 | a record with none of the fields prefills exactly the defaults |
| PlayerForm.PrefilledCountryIsTruthy | src/component/player/PlayerForm.tsx:17 | the prefilled country is never empty |
| PlayerForm.With | src/component/player/PlayerForm.tsx:23-31 | an input change sets the named field |
| PlayerForm.WithChangesOneField | src/component/player/PlayerForm.tsx:26-30 | and leaves the other three unchanged |
| PlayerForm.Submittable | src/component/player/PlayerForm.tsx:55-111 | a submittable form has non-nullish name, email and password; an empty string in any of them blocks submit; on string fields submit is allowed exactly when all three are non-empty |
| PlayerForm.ControlValue | src/component/player/PlayerForm.tsx:55-63 | a controlled input shows nothing for a nullish value and a string as itself |
| PlayerForm.PasswordlessRecordBlocksSubmit | src/component/player/PlayerForm.tsx:101-111 | a prefilled record without a password cannot be submitted, and typing a password unblocks it when name and email are filled |
| PlayerForm.UpdateRequest | src/component/player/PlayerForm.tsx:33-50 | a PUT with no query parameters to `/user/player/update/<user?.id>` with the form as the body; the id reads "undefined" without a user |
| PlayerForm.PlayerEditor.constructor | src/component/player/PlayerForm.tsx:5-10 | the form starts as the defaults |
| PlayerForm.PlayerEditor.UserChanged | src/component/player/PlayerForm.tsx:12-21 | the effect replaces the form by Prefill |
| PlayerForm.PlayerEditor.HandleInputChange | src/component/player/PlayerForm.tsx:23-31 | an input change applies With |
| PlayerForm.PlayerEditor.Submit | src/component/player/PlayerForm.tsx:33-42 | nothing while a required input is empty; otherwise the PUT, then either the success alert and `close()`, or the failure alert without `close()` |
| Register.RegisterRequest | src/Pages/Register.tsx:25 | registration POSTs to `/player` with no query parameters, and the body reads back as the four form fields |
| Register.FailureMessage | src/Pages/Register.tsx:31 | the alert is the nested `response.data.message` when truthy, else "Error registering player" |
| Register.FallbackUnlessDataHasResponse | src/Pages/Register.tsx:29-31 | since the interceptor rejects with the data, the fallback is shown unless the data itself has a `response` field |
| Register.BlankFormIsNotSubmittable | src/Pages/Register.tsx:5-10 | the blank sign-up form cannot be submitted |
| Register.CountriesExtendEditForm | src/Pages/Register.tsx:93-97 | the countries are those of the edit form and Afghanistan |
| Register.RegisterPage.constructor | src/Pages/Register.tsx:5-10 | the form starts as the defaults |
| Register.RegisterPage.HandleInputChange | src/Pages/Register.tsx:12-20 | an input change applies PlayerForm.With |
| Register.RegisterPage.Submit | src/Pages/Register.tsx:22-33 | nothing while a required input is empty; otherwise the POST to `/player`, then the success alert and a move to `/`, or the failure alert |

## Left out

- HTTP itself is not modelled: the base URL, JSON encoding and the transport. Each reply is a parameter. Response bodies are taken to have the listed shape: `data` is a list of rows and `meta` is any value.
- `JSON.parse` cannot fail in the model: storage holds already-parsed values, so a corrupt stored string is not modelled.
- `console.log` and `console.error` are left out: they have no observable effect on state.
- The model has no React scheduling. Each handler runs atomically, to completion, in the order the methods are called. Left out as a result:
  - stale closures beyond Login's captured user;
  - the debouncer being recreated when Layout's `onQueryChange` changes identity;
  - responses that arrive out of order;
  - UserTable's delete racing a refetch.
- The PlayerTable fetch effect also lists `isActive` as a dependency. Nothing ever changes `isActive`, so that dependency never refetches and is not modelled.
- Timers are discrete `Elapse(dt)` events, not wall-clock time. `handleBlur`'s 200 ms delay is folded into the value of `loading` it captured.
- `Stats.tsx`, `handleViewStats` and the stats modal are presentation only.
- The PlayerTable create modal is left out: its button is commented out, so `createNew` is never set. Only the `createNew` resets are modelled.
- PlayerTable `handleDelete` is an empty function, so there is nothing to model.
- `UserManagement.tsx` and `StaffDashboard.tsx` are static pages: there is nothing to model.
- `localeCompare` is an arbitrary comparison parameter. Collation, and a non-consistent comparator making the engine's sort unspecified, are not modelled.
- Numbers are integers: `NaN`, fractions and floating point in the comparator and the pager are not modelled.
- Pagination.ShowingTo: `Math.min` with a non-numeric `totalItems` coerces it to a number, possibly `NaN`. The model returns `None` there instead of a value.
- Sorting.LowerCase: lower-cases ASCII letters only; Unicode case mapping is not modelled.
- Property reads see own fields only, not the prototype chain. So reads such as `menuItems["toString"]` are not modelled.
- The `email` input type's format check in PlayerForm and Register is not modelled. Only the `required` rule is.
- The edit form's `setData` prop is not modelled: PlayerForm and CreateUser accept it and never call it.
- The AuthContext has no `logout` operation; the sidebar's logout only clears storage, sets the location and alerts.
