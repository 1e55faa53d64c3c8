# K-12 LLM tutor dashboard: session, filters, navigation and mock identity

A Dafny model of the rules that sit under the dashboard of the K-12 LLM tutor:

- the simulated role login of the front end (`login`, `logout`, `getAuthToken` and the role-to-token table) over a cookie jar object;
- the audit-log viewer's search-and-role filter over its fixture records;
- the class radar's two-selector filter, its topic list (each topic once, in first-occurrence order), its score and uncertainty colour classes, and the component state that `fetchRadarData` updates on success and on failure;
- the dashboard shell: the provider holding the active view and the sidebar flag, the guard that demands a provider, and the dispatch from a view name to a component;
- the plain sidebar: its collapsed flag, the four menu entries, which entry is marked active, and the click that switches the view;
- the role-based access API of the back end with the database abstracted away: the mock user table, the administrator identity every request receives, and how each endpoint shapes the rows its query returns.

Modules, file by file:

- `wrappers.dfy`: `Option` and `Result`.
- `strings.dfy`: ASCII `toLowerCase`, `includes`, the ECMAScript `trim` (its exact white-space set) and decimal rendering.
- `seqs.dfy`: `filter`, subsequences, and `Array.from(new Set(...))` as de-duplication in first-occurrence order.
- `session.dfy`: `frontend/lib/actions.ts`.
- `audit_log_viewer.dfy`: `frontend/components/audit-log-viewer.tsx`.
- `class_radar.dfy`: `frontend/components/enhanced-class-radar.tsx`.
- `dashboard.dfy`: `frontend/app/page.tsx`.
- `sidebar.dfy`: `frontend/components/plain-sidebar.tsx`.
- `rbac_api.dfy`: `backend/rbac_api.py`.

State that the source changes in place is kept in classes:

- the cookie jar (`Session.CookieJar`);
- the radar component's state (`EnhancedClassRadar.RadarState`);
- the dashboard provider (`Dashboard.DashboardViewProvider`);
- the sidebar (`PlainSidebar.Sidebar`);
- the user dictionaries and the `MOCK_USERS` table (`RbacApi.UserInfo`, `RbacApi.UserTable`).

The endpoints' for-loops are methods with loop invariants, proved against per-row projection functions.

Login is parametrised by its token table, so that the defensive "known role without a token" branch can be reached with a table that has an empty token. The application's table is `Session.MockTokens`.

`RbacApi.TokensNameTheirUsers` proves the invariant across the two tiers: every token of the front-end table names a user of the back-end table whose role is the role that yields the token. It also shows that the fourth user, `teacher_456`, is reachable by no token.

Two facts of the source show up in the model:

- The sidebar's header chevron tests `isCollapsed` again inside a branch that already requires it to be false, so the downward chevron can never appear. `PlainSidebar.HeaderChevron` states this.
- `get_current_user` never reads its header, so every endpoint answers as the administrator whatever the front end sends. `RbacApi.RadarRoleIgnoresToken` states this for the class radar, whose component sends the token `teacher_123` and falls back to the role "teacher".

## Model

| member | source | states |
|---|---|---|
| Strings.LowerChar | frontend/components/audit-log-viewer.tsx:54-56 | an upper-case ASCII letter becomes the letter 32 code points up, its lower-case form; every other character is kept; the result is never upper case |
| Strings.Lower | frontend/components/audit-log-viewer.tsx:54-56 | `toLowerCase` keeps the length and lower-cases character by character |
| Strings.LowerIdempotent | frontend/components/audit-log-viewer.tsx:54-56 | lower-casing twice is lower-casing once |
| Strings.EmptyIsContained | frontend/components/audit-log-viewer.tsx:54-56 | every string includes the empty string |
| Strings.ContainsIffOccurs | frontend/components/audit-log-viewer.tsx:54-56 | `includes` holds exactly when the term occurs at some position |
| Strings.Contains | frontend/components/audit-log-viewer.tsx:54-56 | `includes(t)`: t is found at the front of s or of a later suffix, so it is never longer than s |
| Strings.IsWhiteSpace | frontend/lib/actions.ts:22 | the white space `trim` removes: the ECMAScript white-space and line-terminator characters, none of which is an ASCII letter or digit |
| Strings.TrimStart | frontend/lib/actions.ts:22 | the result is a suffix of the input; what was dropped is all white space; the result does not start with white space |
| Strings.TrimEnd | frontend/lib/actions.ts:22 | the result is a prefix of the input; what was dropped is all white space; the result does not end with white space |
| Strings.Trim | frontend/lib/actions.ts:22 | the trimmed role neither starts nor ends with white space |
| Strings.WhiteSpaceOnlyTrimStart | frontend/lib/actions.ts:22 | white space only loses everything at the front |
| Strings.WhiteSpaceTrimsToEmpty | frontend/lib/actions.ts:22 | a role of white space only, the empty one included, trims to "" |
| Strings.TrimStartPadded | frontend/lib/actions.ts:22 | leading white space before a non-blank start is exactly what is dropped |
| Strings.TrimEndPadded | frontend/lib/actions.ts:22 | trailing white space after a non-blank end is exactly what is dropped |
| Strings.TrimPadded | frontend/lib/actions.ts:22 | any white space around a trimmed string is removed, recovering the string |
| Strings.TrimOfTrimmed | frontend/lib/actions.ts:22 | a string without surrounding white space is its own trim |
| Strings.DigitChar | frontend/components/enhanced-class-radar.tsx:47 | the digit d renders as the decimal digit character d places after '0' |
| Strings.NatToString | frontend/components/enhanced-class-radar.tsx:47 | a status code renders as a non-empty run of decimal digits whose decimal value (`Strings.DigitsValue`) is the code; it starts with "0" only when it is "0" |
| Seqs.Filter | frontend/components/audit-log-viewer.tsx:52-59 | `filter` keeps exactly the elements satisfying the predicate, and never more elements than it was given |
| Seqs.FilterMultiplicity | frontend/components/audit-log-viewer.tsx:52-59 | `filter` keeps every copy of an element that passes and no copy of one that fails |
| Seqs.FilterIsSubsequence | frontend/components/audit-log-viewer.tsx:52-59 | what `filter` keeps appears in the input in the same order |
| Seqs.FilterKeepsAll | frontend/components/audit-log-viewer.tsx:52-59 | a filter that rejects nothing returns its input |
| Seqs.FilterMonotone | frontend/components/enhanced-class-radar.tsx:94-98 | a stronger predicate keeps a subsequence of what a weaker one keeps |
| Seqs.FirstIndex | frontend/components/enhanced-class-radar.tsx:101 | the position of the first occurrence of an element |
| Seqs.Dedup | frontend/components/enhanced-class-radar.tsx:101 | `Array.from(new Set(s))` repeats nothing, holds every element of s and nothing else |
| Seqs.DedupSnoc | frontend/components/enhanced-class-radar.tsx:101 | a new element is appended to the set's order; a repeated one changes nothing |
| Seqs.FirstIndexAppend | frontend/components/enhanced-class-radar.tsx:101 | appending leaves earlier first occurrences where they were |
| Seqs.DedupFirstOccurrenceOrder | frontend/components/enhanced-class-radar.tsx:101 | the de-duplicated elements are in the order of their first occurrences |
| Seqs.DedupOfDistinct | frontend/components/enhanced-class-radar.tsx:101 | a sequence without repeats is unchanged by de-duplication |
| Session.SessionOptions | frontend/lib/actions.ts:34-40 | the session cookie's attributes: HttpOnly, one week (604800 seconds), path "/", SameSite lax, and Secure exactly when NODE_ENV is "production" |
| Session.CookieJar.constructor | frontend/lib/actions.ts:3 | the cookie store of a browser that holds no cookies is empty |
| Session.CookieJar.Set | frontend/lib/actions.ts:34-40 | `cookies().set` replaces the cookie of that name and leaves every other cookie alone |
| Session.CookieJar.Delete | frontend/lib/actions.ts:48 | `cookies().delete` removes that cookie only; an absent one changes nothing |
| Session.CookieJar.Get | frontend/lib/actions.ts:54 | `cookies().get` finds a cookie exactly when one of that name is stored |
| Session.AuthTokenOf | frontend/lib/actions.ts:54 | the token read is present exactly when `auth_token` is stored, and is its value |
| Session.GetAuthToken | frontend/lib/actions.ts:53-55 | `getAuthToken` reads the `auth_token` value and changes nothing |
| Session.FormGet | frontend/lib/actions.ts:22 | `formData.get` finds nothing exactly when no entry has that name, and otherwise the value of the first entry with that name |
| Session.EntryString | frontend/lib/actions.ts:22 | `String(value)` of an entry: a text entry is itself, a file is "[object File]" |
| Session.RoleField | frontend/lib/actions.ts:22 | the role read from a form has no surrounding white space, and a form without a role entry gives the empty role |
| Session.SelectedArg | frontend/lib/actions.ts:14-16 | a form is selected exactly when one of the first two arguments is a form; whatever else is selected is one of the arguments or undefined |
| Session.Decide | frontend/lib/actions.ts:23-31 | empty or unknown roles are refused, a known role with an empty token fails as the defensive branch, every other known role is granted its token; the three cases are exhaustive |
| Session.Resolve | frontend/lib/actions.ts:16-31 | a falsy selection is "no form data", an object without `get` is the TypeError, and a form, or any object with a `get` such as a Map, is decided on its trimmed role |
| Session.ResultOf | frontend/lib/actions.ts:18-43 | only a granted attempt redirects; unknown roles and missing tokens both answer "Invalid role selected." |
| Session.CookiesAfterLogin | frontend/lib/actions.ts:34-40 | a failed attempt leaves the cookies as they were; a granted one stores `auth_token` with the token and the session attributes; no other cookie changes |
| Session.Login | frontend/lib/actions.ts:13-44 | `login` returns the result of its decision and writes `auth_token`, with the session attributes, exactly when the role was granted |
| Session.Logout | frontend/lib/actions.ts:46-51 | `logout` deletes `auth_token`, nothing else, and redirects to "/login" |
| Session.RoleFormField | frontend/lib/actions.ts:22 | the role read from a one-entry form is that entry trimmed |
| Session.ResolveRoleForm | frontend/lib/actions.ts:16-31 | a one-entry form is decided on its entry, trimmed |
| Session.CallShapesAgree | frontend/lib/actions.ts:14-16 | `login(formData)` and `login(prevState, formData)` decide alike |
| Session.GetterArgumentIsRead | frontend/lib/actions.ts:16-22 | an object that is not a FormData but has a `get` is read like a form: its role is trimmed and decided, and a missing role is the empty one |
| Session.MockTokenValues | frontend/lib/actions.ts:7-11 | the table has exactly the roles teacher, administrator and dpo, with tokens teacher_123, admin_001 and dpo_001 |
| Session.MockTokenKeyBoundaries | frontend/lib/actions.ts:7-11 | every role name of the table is non-empty, starts and ends with a character that is not white space, and has a token |
| Session.MockTokenKeysTrimmed | frontend/lib/actions.ts:7-11 | every role name of the table is its own trim |
| Session.KnownRoleResolves | frontend/lib/actions.ts:22-27 | a known role surrounded by any white space (" teacher ") is granted that role's token |
| Session.BlankRoleRejected | frontend/lib/actions.ts:22-25 | a blank role is refused with "Invalid role selected." |
| Session.MissingRoleRejected | frontend/lib/actions.ts:22-25 | any form without a role entry is treated as the empty role and refused |
| Session.UnknownRoleRejected | frontend/lib/actions.ts:23-25 | a role that is not in the table after trimming is refused with "Invalid role selected." |
| Session.SuperadminIsUnknown | frontend/lib/actions.ts:23 | "superadmin" is not a role |
| Session.NoFormRejected | frontend/lib/actions.ts:16-20 | no arguments, or a non-form first argument without a form second, answer "No form data submitted." |
| Session.MockTokensHaveTokens | frontend/lib/actions.ts:27-31 | with the application's table the defensive branch is never taken |
| Session.InconsistentTableRejected | frontend/lib/actions.ts:27-31 | a table listing a role with an empty token fails that role with "Invalid role selected." |
| Session.GrantedTokenIsFixed | frontend/lib/actions.ts:7-11 | whatever the arguments, a granted login carries one of the three fixed role/token pairs |
| Session.PropertyOf | frontend/lib/actions.ts:27 | `MOCK_TOKENS[name]` finds an own entry first, then an inherited member, else nothing |
| Session.DecideAsWritten | frontend/lib/actions.ts:23-28 | the guards as written accept a non-empty role that is an own key with a token or an inherited name |
| Session.AsWrittenAgreesOnOwnNames | frontend/lib/actions.ts:23-28 | away from inherited names, the guards as written decide as the own-key decision does, token included |
| Session.InheritedNameAccepted | frontend/lib/actions.ts:23-28 | an inherited name passes the guards as written while the own-key decision refuses it |
| Session.PrototypeNameAccepted | frontend/lib/actions.ts:23-28 | the role "toString" passes the guards as written, yet is an invalid role for the own-key decision |
| Session.FailedLoginChangesNothing | frontend/lib/actions.ts:18-31 | a failed login leaves every cookie as it was |
| Session.SessionCookieAttributes | frontend/lib/actions.ts:34-40 | the session cookie is HttpOnly, lasts 604800 seconds on path "/" with SameSite lax, and is Secure exactly in production |
| Session.LoginThenRead | frontend/lib/actions.ts:34 | after a granted login `getAuthToken` returns its token and all other cookies are untouched |
| Session.LastLoginWins | frontend/lib/actions.ts:34-40 | after two logins the second successful one's token is read, as if the first never happened |
| Session.LogoutClears | frontend/lib/actions.ts:48 | after `logout` nothing is read whatever was stored, and a second logout changes nothing |
| Session.LoginLogoutSession | frontend/lib/actions.ts:13-55 | log in, read, log out, read: the role's token while logged in, nothing afterwards |
| Session.UnknownRoleKeepsSession | frontend/lib/actions.ts:23-25 | a failed attempt after a login fails with "Invalid role selected." and keeps the first session's token |
| AuditLogViewer.MatchesSearch | frontend/components/audit-log-viewer.tsx:53-56 | the case-insensitive search over action, user id and log id; an empty search matches every record |
| AuditLogViewer.MatchesRole | frontend/components/audit-log-viewer.tsx:57 | the role selector: "all" passes every record, any other value only the records of exactly that role |
| AuditLogViewer.Shown | frontend/components/audit-log-viewer.tsx:58 | a record is shown when it passes both the search and the role test |
| AuditLogViewer.FilteredLogs | frontend/components/audit-log-viewer.tsx:52-59 | the shown records are an order-preserving subsequence of the records; a record is shown exactly when it passes both the search and the role test, and as many times as it occurs |
| AuditLogViewer.MatchesSearchIffOccurs | frontend/components/audit-log-viewer.tsx:53-56 | the search matches exactly when the lower-cased term occurs in the lower-cased action, user id or log id |
| AuditLogViewer.SearchIgnoresCase | frontend/components/audit-log-viewer.tsx:53-56 | the case of the search term makes no difference |
| AuditLogViewer.NoFilterShowsAll | frontend/components/audit-log-viewer.tsx:52-59 | an empty search with role "all" shows every record |
| AuditLogViewer.RoleFilterNarrows | frontend/components/audit-log-viewer.tsx:57 | a specific role shows a subsequence of what "all" shows |
| AuditLogViewer.UnknownRoleShowsNothing | frontend/components/audit-log-viewer.tsx:57 | a role no record carries shows nothing |
| AuditLogViewer.RoleFilterIsCaseSensitive | frontend/components/audit-log-viewer.tsx:57 | the role test is case-sensitive: "teacher" shows none of the "Teacher" records |
| EnhancedClassRadar.TopicMatch | frontend/components/enhanced-class-radar.tsx:95 | the topic selector: "all" passes every item, any other value only the items of that topic |
| EnhancedClassRadar.UncertaintyMatch | frontend/components/enhanced-class-radar.tsx:96 | the uncertainty selector: "all" passes every item, any other value only the items of that level |
| EnhancedClassRadar.FilteredData | frontend/components/enhanced-class-radar.tsx:94-98 | the cards shown are an order-preserving subsequence of the data; an item is shown exactly when it matches both selectors, and as many times as it occurs |
| EnhancedClassRadar.NoFilterShowsAll | frontend/components/enhanced-class-radar.tsx:94-98 | with both selectors on "all" every item is shown |
| EnhancedClassRadar.TopicFilterNarrows | frontend/components/enhanced-class-radar.tsx:95 | choosing a topic shows a subsequence of what "all" topics shows |
| EnhancedClassRadar.Topics | frontend/components/enhanced-class-radar.tsx:101 | the topic of each item, position by position |
| EnhancedClassRadar.UniqueTopics | frontend/components/enhanced-class-radar.tsx:101 | the topic list repeats nothing, has every item's topic and nothing else |
| EnhancedClassRadar.UniqueTopicsInFirstOccurrenceOrder | frontend/components/enhanced-class-radar.tsx:101 | the topics are listed in the order in which they first occur |
| EnhancedClassRadar.OfferedTopicsAreNonEmpty | frontend/components/enhanced-class-radar.tsx:94-101 | each topic the selector offers shows at least one card |
| EnhancedClassRadar.ScoreColor | frontend/components/enhanced-class-radar.tsx:87-91 | green exactly from 80, yellow exactly from 60 below 80, red exactly below 60 |
| EnhancedClassRadar.ProgressBarColor | frontend/components/enhanced-class-radar.tsx:213 | the progress bar is green, yellow or red |
| EnhancedClassRadar.BarMatchesScoreColor | frontend/components/enhanced-class-radar.tsx:213 | the progress bar uses the same bands as the score text |
| EnhancedClassRadar.ScoreColorMonotone | frontend/components/enhanced-class-radar.tsx:87-91 | a higher score never gets a worse colour |
| EnhancedClassRadar.HaloClasses | frontend/components/enhanced-class-radar.tsx:77-81 | a halo in one colour is three classes, border, shadow and background, 30 characters plus three times the colour name; that `HaloClasses("red")` equals the literal `border-red-500 shadow-red-200 bg-red-50` of line 77 (and likewise for yellow and green) is not proved, because the definition spells it out |
| EnhancedClassRadar.LegendColour | frontend/components/enhanced-class-radar.tsx:237-248 | the legend has a swatch for exactly "high", "medium" and "low" |
| EnhancedClassRadar.UncertaintyClass | frontend/components/enhanced-class-radar.tsx:74-85 | a halo class is given exactly to "high", "medium" and "low" |
| EnhancedClassRadar.UncertaintyClassInjective | frontend/components/enhanced-class-radar.tsx:74-85 | a level with a halo shares it with no other level |
| EnhancedClassRadar.UncertaintyClassFollowsLegend | frontend/components/enhanced-class-radar.tsx:237-248 | each level's halo is in the legend's colour for it (high red, medium yellow, low green: border, shadow and background); a level the legend does not list has no halo |
| EnhancedClassRadar.Ok | frontend/components/enhanced-class-radar.tsx:46 | `response.ok`: the status is from 200 to 299 |
| EnhancedClassRadar.HttpErrorMessage | frontend/components/enhanced-class-radar.tsx:46-48 | the message is "HTTP ", the status's decimal digits (whose value is the status, and which start with "0" only when they are "0"), ": " and the status text |
| EnhancedClassRadar.CaughtMessage | frontend/components/enhanced-class-radar.tsx:54 | an `Error` shows its message, anything else "Failed to fetch data" |
| EnhancedClassRadar.CaughtValue | frontend/components/enhanced-class-radar.tsx:38-54 | nothing is caught exactly when an ok response parses; a rejection, a non-ok status and an unparsable body are each caught with their own value |
| EnhancedClassRadar.RadarState.constructor | frontend/components/enhanced-class-radar.tsx:24-32 | no data, loading, no error, no role, both selectors "all", token teacher_123 |
| EnhancedClassRadar.RadarState.SetFilterTopic | frontend/components/enhanced-class-radar.tsx:28 | the topic selector changes and nothing else |
| EnhancedClassRadar.RadarState.SetFilterUncertainty | frontend/components/enhanced-class-radar.tsx:29 | the uncertainty selector changes and nothing else |
| EnhancedClassRadar.RadarState.FetchRadarData | frontend/components/enhanced-class-radar.tsx:34-68 | loading ends; on success the server's data and role with no error; on any failure the six fallback items, role "teacher" and the caught message; the selectors are kept |
| EnhancedClassRadar.RadarState.Visible | frontend/components/enhanced-class-radar.tsx:94-113 | no cards while loading (only the spinner is drawn); the cards on screen are always a subsequence of the data |
| EnhancedClassRadar.FallbackTopics | frontend/components/enhanced-class-radar.tsx:56-63 | over the fallback data the topic selector offers Algebra, Geometry, Calculus and Statistics, in that order |
| EnhancedClassRadar.MountOffline | frontend/components/enhanced-class-radar.tsx:53-67 | a component mounted while the server is unreachable shows all six fallback cards as "teacher" with the rejection's message |
| EnhancedClassRadar.RefreshAfterFailure | frontend/components/enhanced-class-radar.tsx:34-67 | a successful refresh after a failure clears the error and shows the server's data |
| Dashboard.ViewName | frontend/app/page.tsx:47-54 | the view name under which the dispatch selects each component |
| Dashboard.RenderView | frontend/app/page.tsx:45-58 | each of the four names selects its component, and every other string the class radar |
| Dashboard.RenderViewName | frontend/app/page.tsx:45-58 | the name of a component renders that component |
| Dashboard.ViewNameInjective | frontend/app/page.tsx:47-54 | the four view names are distinct |
| Dashboard.DashboardViewProvider.constructor | frontend/app/page.tsx:28-29 | the class radar is shown first, with the sidebar open |
| Dashboard.DashboardViewProvider.SetActiveView | frontend/app/page.tsx:28 | the active view becomes the given string; the sidebar flag is kept |
| Dashboard.DashboardViewProvider.ToggleSidebar | frontend/app/page.tsx:31-33 | the sidebar flag flips; the active view is kept |
| Dashboard.DashboardViewProvider.Shown | frontend/app/page.tsx:45-58 | the component shown is the active view's, or the class radar |
| Dashboard.UseDashboardView | frontend/app/page.tsx:19-25 | the provider's value, unchanged, when there is one; the error "useDashboardView must be used within a DashboardViewProvider" otherwise |
| Dashboard.HomePage | frontend/app/page.tsx:42-58 | under a provider the page shows the active view's component; outside one it fails with the guard's error |
| Dashboard.ToggleTwice | frontend/app/page.tsx:31-33 | two toggles restore the sidebar flag |
| Dashboard.Navigate | frontend/app/page.tsx:28-58 | a fresh dashboard shows the class radar, and after choosing a view that view's component |
| PlainSidebar.MenuMatchesDispatch | frontend/components/plain-sidebar.tsx:23-44 | the four entries' views are exactly the four names the dispatch knows, each leading to its own component |
| PlainSidebar.MenuViewsDistinct | frontend/components/plain-sidebar.tsx:23-44 | no two entries share a view |
| PlainSidebar.IsActive | frontend/components/plain-sidebar.tsx:69 | an entry is active when its view is the active view |
| PlainSidebar.ButtonClass | frontend/components/plain-sidebar.tsx:69 | "active" is appended exactly for the entry of the active view |
| PlainSidebar.AtMostOneActive | frontend/components/plain-sidebar.tsx:69 | at most one entry is active |
| PlainSidebar.SomeActiveIffNamedView | frontend/components/plain-sidebar.tsx:69 | some entry is active exactly when the active view is one of the four names |
| PlainSidebar.ItemLabel | frontend/components/plain-sidebar.tsx:74 | an entry's title is shown exactly while the sidebar is expanded |
| PlainSidebar.NavClass | frontend/components/plain-sidebar.tsx:47 | the sidebar's class carries "collapsed" exactly when collapsed |
| PlainSidebar.HeaderChevron | frontend/components/plain-sidebar.tsx:52-58 | a chevron is shown exactly while expanded, and it is never the downward one |
| PlainSidebar.Sidebar.constructor | frontend/components/plain-sidebar.tsx:11-13 | the sidebar starts collapsed exactly when not open by default, open by default |
| PlainSidebar.Sidebar.ToggleCollapsed | frontend/components/plain-sidebar.tsx:50 | the header button flips the collapsed flag |
| PlainSidebar.Sidebar.Click | frontend/components/plain-sidebar.tsx:70 | a click makes the entry's view the dashboard's active view and keeps the sidebar-open flag |
| PlainSidebar.Sidebar.ButtonClasses | frontend/components/plain-sidebar.tsx:66-69 | one button class per entry, in menu order |
| PlainSidebar.ClickedEntryIsTheActiveOne | frontend/components/plain-sidebar.tsx:69-70 | after a click on an entry that entry and no other is active |
| PlainSidebar.ClickEntry | frontend/components/plain-sidebar.tsx:66-70 | clicking an entry shows its component and marks it alone active |
| RbacApi.UserInfo.constructor | backend/rbac_api.py:39-60 | a user dictionary holding the given record |
| RbacApi.UserInfo.Copy | backend/rbac_api.py:70 | `copy()` is a new dictionary with the same entries |
| RbacApi.UserInfo.SetUserId | backend/rbac_api.py:71 | setting "user_id" changes that key only |
| RbacApi.UserTable.constructor | backend/rbac_api.py:39-60 | the table holds one dictionary per record, with exactly the records' contents |
| RbacApi.GetCurrentUser | backend/rbac_api.py:67-73 | whatever the header, a fresh copy of the administrator's record with user_id admin_001; the table is unchanged |
| RbacApi.AdminRecord | backend/rbac_api.py:45-49 | the administrator record exists, with role "administrator", classes ["*"] and no user_id of its own |
| RbacApi.TokensNameTheirUsers | backend/rbac_api.py:37-60 | every front-end token names a user whose role is the token's role, and teacher_456 is reachable by no token |
| RbacApi.RoundHalfEven | backend/rbac_api.py:108 | the integer within one half of y, the even one when y is halfway |
| RbacApi.RoundHalfEvenIsNearest | backend/rbac_api.py:108 | no integer is nearer to y than its rounding |
| RbacApi.RoundTenth | backend/rbac_api.py:108 | `round(d, 1)` is a whole number of tenths within 0.05 of d, the rounding of ten times d divided by ten |
| RbacApi.RoundTenthIsNearest | backend/rbac_api.py:108 | no whole number of tenths is nearer to d than `round(d, 1)` |
| RbacApi.RoundTenthOfTenths | backend/rbac_api.py:189 | an average that is already a whole number of tenths is kept |
| RbacApi.RoundTenthHalves | backend/rbac_api.py:189 | halves go to the even tenth: 0.25 to 0.2, 0.35 to 0.4; 72.36 goes to 72.4 |
| RbacApi.RadarItemOf | backend/rbac_api.py:103-111 | the average rounded to a tenth, a NULL or zero one reported as 0; every other field is passed through |
| RbacApi.GetClassRadar | backend/rbac_api.py:101-119 | one item per group, in query order, with the user's role and permissions and the given time |
| RbacApi.TimelineEventOf | backend/rbac_api.py:162-172 | the timestamp is the ISO text when present and None otherwise; the other fields are passed through |
| RbacApi.MasteryOf | backend/rbac_api.py:187-191 | a mastery summary carries the group's topic, its average rounded to a tenth and its count; a NULL average gives no summary |
| RbacApi.Head | backend/rbac_api.py:194 | `s[:n]` is the first n characters, or all of a shorter s |
| RbacApi.StudentName | backend/rbac_api.py:194 | "Student ", at most eight characters of the pseudonym, "..."; at most 19 characters |
| RbacApi.StudentNameIdentifiesPrefix | backend/rbac_api.py:194 | two pseudonyms get the same name exactly when their first eight characters agree |
| RbacApi.GetStudentData | backend/rbac_api.py:157-211 | 404 "Student not found or no interactions recorded" exactly when the timeline is empty; otherwise a 500 with the TypeError of rounding None exactly when some mastery average is NULL; otherwise one event per timeline row and one summary per mastery row, in order, with access level "full" |
| RbacApi.AuditLogOf | backend/rbac_api.py:236-243 | each record renamed to the viewer's fields, the timestamp as ISO text when present |
| RbacApi.GetAuditLogs | backend/rbac_api.py:234-249 | one record per row in order, and `total_logs` equals the number of records |
| RbacApi.GetUserInfo | backend/rbac_api.py:266-270 | the user's role, permissions and classes, and nothing else |
| RbacApi.UserInfoEndpoint | backend/rbac_api.py:263-270 | whatever the caller sends, the administrator's role, six permissions and classes ["*"] |
| RbacApi.Lookup | backend/rbac_api.py:289-290 | `dict.get(key, default)` |
| RbacApi.LogAction | backend/rbac_api.py:286-291 | the user's id or "unknown", the user's role, the posted action type or "UNKNOWN_ACTION", the posted details or an empty object |
| RbacApi.LogActionEndpoint | backend/rbac_api.py:272-293 | every logged action is attributed to admin_001 as administrator, never to "unknown", and answers success |
| RbacApi.RadarRoleIgnoresToken | backend/rbac_api.py:81-119 | whatever token the front end sends, the class radar reports the administrator's role |

## Left out

- The database and its error handling: connecting, executing, commit and rollback, and the 500 responses for database errors and for unexpected errors other than rounding a NULL average. Query results are input sequences of rows; the SQL grouping, ordering and aggregates are not modelled.
- RbacApi.GetAuditLogs: `LIMIT 50` is part of the query, which is not modelled, so the count is not bounded by 50.
- FastAPI routing, dependency injection, the CORS set-up and the root endpoint.
- RbacApi.RoundTenth: averages are assumed to be exact decimals. No database schema is part of this model; the assumption rests on `backend/data_ingest.py:81`, which inserts each score as `int(row['Score'])`. If the score column is an integer column, AVG is a PostgreSQL numeric and arrives as a Python Decimal. If it were a floating-point column, `round` would act on binary floats and could differ from RoundTenthHalves: `round(0.35, 1)` on a float is 0.3.
- RbacApi.RadarItemOf: the integer `0` reported for a falsy average is the real 0.
- `isoformat()`: a date-time is represented by its ISO 8601 text.
- `json.dumps` of the details: the details stay a JSON value.
- `datetime.now()`: the current time is a parameter.
- The debug `print` calls and the console logging of login and logout.
- The redirects of login and logout are recorded as results only (`Redirected("/")`, `"/login"`); navigation is not modelled.
- The `fetch` request, its headers and `response.json()`: how a fetch ends is an input (`FetchOutcome`).
- React's asynchronous batching of state updates: FetchRadarData applies its updates in order, as one call.
- `toFixed`, the percentage widths and NaN: scores are reals.
- The effect that fetches on mount: MountOffline starts the fetch explicitly.
- Session.CookieJar.Delete: it removes the cookie from the jar. Next.js instead sends an expired cookie of the same name, which the browser then drops.
- Session.CookieJar.Set: only the attributes the application passes are modelled (section 5.2 of RFC 6265, and the SameSite attribute of its revision in draft). Domain and Expires are not modelled. The jar also has no clock: it never drops the cookie once its Max-Age of 604800 seconds has run out. So Session.LoginThenRead holds at any later time, where a browser would have discarded the cookie a week after login.
- Strings.Lower: ASCII only; Unicode case mapping is not modelled.
- Session.Resolve: what an object's `get("role")` returns is given already converted by `String(...)`; a `get` that throws, and conversions that run code of their own, are not modelled.
- The inherited properties of `MOCK_TOKENS` (see Findings). Login uses the own-key decision. The names `Object.prototype` provides are listed in `Session.InheritedNames`; a getter defined on the prototype by other code is not modelled.
- Dashboard.DashboardViewProvider: the context value passes `activeView`, `setActiveView` and `toggleSidebar` but not `isSidebarOpen`. The flag is therefore kept in the provider but read by no component, as in the source.
- RbacApi.UserTable.constructor: it builds the table from any record map. The application's table is built from MockUserRecords, and the endpoints require exactly that.
- `backend/data_ingest.py` (file input, hashing and database inserts) is not part of this model.
- `frontend/components/override-panel.tsx`, `student-drill-down.tsx`, `class-radar.tsx` and `app-sidebar.tsx`, the login and launch pages and the layout are presentation over fixtures and are not part of this model.
- The JSX markup, icons and styles other than the class names modelled above.

## Findings

| source | as written | input that shows it | evidently intended | confidence | as-written member | corrected member |
|---|---|---|---|---|---|---|
| frontend/lib/actions.ts:23-28 | `role in MOCK_TOKENS` also holds for the names every object inherits from `Object.prototype`. The value `MOCK_TOKENS[role]` is then a function, which is truthy, so the `!token` guard lets it through and the function becomes the cookie value (see `Session.PrototypeNameAccepted`) | the role "toString" | only the three roles of the table log in, each with its own token (`Session.GrantedTokenIsFixed` is proved of the corrected decision) | medium; not executed | Session.DecideAsWritten | Session.Decide |
