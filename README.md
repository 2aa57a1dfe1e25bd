# MaitClub admin dashboard, modelled in Dafny

MaitClub is a coaching platform for athletes. Its admin dashboard is a Next.js
application whose client state lives in Redux Toolkit slices. This project
models the behaviour of that dashboard's logic:

- the slice reducers, with each async thunk reduced to the outcome it dispatches;
- the session slice, mirrored into browser storage;
- the request-header preparation (CSRF cookie and bearer token);
- the route guard and the sidebar's active-link rule;
- the sign-in, one-time-code and reset-password forms;
- the list logic of the dashboard pages.

How each part is modelled:

- **Slices are classes.** Each slice (`UsersSlice.UsersStore`, `AuthSlice.AuthStore`, ...) is a `class` whose fields are the slice state. Every reducer case is a method with a `modifies` clause, and its `ensures` gives the whole new state as `old(State())` with the changed fields.
- **Thunk outcomes are inputs.** A thunk's dispatched action is a `Thunks.Outcome`: `Pending`, `Fulfilled(payload)` or `Rejected(serverMessage)`. The rejected payload `err.response?.data?.message || "<fixed text>"` is `Thunks.MessageOr`, which the login page reuses for its own `message || "<fixed text>"` toasts.
- **List updates are shared functions.** The in-place `state.list[index] = payload` after `findIndex` is `Seqs.ReplaceFirst`. The `filter(x => x.id !== id)` delete is `Seqs.RemoveKey`. The lemmas about both are in `seqs.dfy`.
- **Pages are functions.** Dashboard pages hold React state that is replaced, never mutated, so each handler is a function from page state to page state. Lemmas state what the handlers promise.
- **Side effects are values.** Toasts, navigation and the server's answers are inputs or results. Nothing performs I/O.
- **Code entry is a method.** The code-entry paste handler writes slots in a loop, so `OtpBuffer.Paste` is a method; the header preparation mutates a `Headers` object.

## Model

| member | source | states |
|---|---|---|
| Thunks.MessageOr | features/users/usersSlice.ts:29-40 | the rejected payload is the server's message when it is present and non-empty, and the thunk's fixed text otherwise |
| Thunks.MessageOrNonEmpty | features/accessControl/accessControlSlice.ts:30 | every thunk's fixed text is non-empty, so a rejection always stores a non-empty (truthy) error |
| UsersSlice.UsersStore.constructor | features/users/usersSlice.ts:16-26 | the initial state: no users, total 0, page 1, limit 10, no selection, no error, both loading flags false |
| UsersSlice.UsersStore.SetFilters | features/users/usersSlice.ts:111-113 | the filters are replaced wholesale; nothing else changes |
| UsersSlice.UsersStore.ClearFilters | features/users/usersSlice.ts:114-116 | the filters become empty; nothing else changes |
| UsersSlice.UsersStore.SetSelectedUser | features/users/usersSlice.ts:117-119 | only the selection changes |
| UsersSlice.UsersStore.ClearError | features/users/usersSlice.ts:120-122 | only the error is cleared |
| UsersSlice.UsersStore.FetchUsers | features/users/usersSlice.ts:127-141 | pending sets loading and clears the error; success replaces users, total, page and limit; rejection stores the message; only `loading` among the flags moves |
| UsersSlice.UsersStore.FetchUserById | features/users/usersSlice.ts:143-154 | pending raises actionLoading and clears the error; success selects the payload; rejection stores the message |
| UsersSlice.UsersStore.ReplaceById | features/users/usersSlice.ts:161-164 | the first user with the payload's id is replaced; length and every other entry are kept, and no match leaves the list as it was |
| UsersSlice.UsersStore.UpdateUser | features/users/usersSlice.ts:156-171 | success replaces the first id match and selects the payload even when no id matched; the other outcomes touch only actionLoading and error |
| UsersSlice.UsersStore.DeleteUser | features/users/usersSlice.ts:173-185 | success removes every user with the id and lowers total by exactly one, whether or not one matched |
| UsersSlice.UsersStore.SuspendUser | features/users/usersSlice.ts:187-193 | success only replaces by id; no flag and no error changes; other outcomes change nothing |
| UsersSlice.UsersStore.ActivateUser | features/users/usersSlice.ts:194-200 | as for suspend: replace by id on success, nothing else |
| TrainingSlice.TrainingStore.constructor | features/training/trainingSlice.ts:16-26 | the initial state: empty library, page 1, limit 10, nothing selected or loading |
| TrainingSlice.TrainingStore.SetFilters | features/training/trainingSlice.ts:97-99 | only the filters change |
| TrainingSlice.TrainingStore.ClearFilters | features/training/trainingSlice.ts:100-102 | the filters become empty; nothing else changes |
| TrainingSlice.TrainingStore.SetSelectedContent | features/training/trainingSlice.ts:103-105 | only the selection changes |
| TrainingSlice.TrainingStore.ClearError | features/training/trainingSlice.ts:106-108 | only the error is cleared |
| TrainingSlice.TrainingStore.FetchTrainingContent | features/training/trainingSlice.ts:112-126 | pending sets loading and clears the error; success replaces content, total, page and limit; rejection stores the message and clears loading |
| TrainingSlice.TrainingStore.CreateTrainingContent | features/training/trainingSlice.ts:127-138 | pending raises actionLoading and keeps the error; success puts the new item first, shifts the rest and raises total by one |
| TrainingSlice.TrainingStore.ReplaceById | features/training/trainingSlice.ts:140-143 | the first item with the payload's id is replaced |
| TrainingSlice.TrainingStore.UpdateTrainingContent | features/training/trainingSlice.ts:139-144 | success replaces the first id match; no other outcome changes anything |
| TrainingSlice.TrainingStore.DeleteTrainingContent | features/training/trainingSlice.ts:145-148 | success removes every item with the id and lowers total by one; other outcomes change nothing |
| TrainingSlice.TrainingStore.PublishTrainingContent | features/training/trainingSlice.ts:149-154 | success replaces the first id match; other outcomes change nothing |
| SupportSlice.MergeTicket | features/support/supportSlice.ts:135-137 | `{ ...selected, ...payload }` takes every required ticket field from the payload, takes `assignedTo` from the payload only when the payload has one (an absent key keeps the selected ticket's assignee), and keeps the selected ticket's responses |
| SupportSlice.SupportStore.constructor | features/support/supportSlice.ts:16-26 | the initial state |
| SupportSlice.SupportStore.SetFilters | features/support/supportSlice.ts:84-86 | only the filters change |
| SupportSlice.SupportStore.ClearFilters | features/support/supportSlice.ts:87-89 | the filters become empty |
| SupportSlice.SupportStore.SetSelectedTicket | features/support/supportSlice.ts:90-92 | only the selected ticket changes |
| SupportSlice.SupportStore.ClearError | features/support/supportSlice.ts:93-95 | only the error is cleared |
| SupportSlice.SupportStore.FetchTickets | features/support/supportSlice.ts:99-113 | pending sets loading and clears the error; success replaces tickets, total, page and limit; rejection stores the message |
| SupportSlice.SupportStore.FetchTicketById | features/support/supportSlice.ts:114-124 | pending raises actionLoading without clearing the error; success selects the ticket and clears actionLoading |
| SupportSlice.SupportStore.RespondToTicket | features/support/supportSlice.ts:125-129 | the response is appended to the selected ticket's responses; without a selected ticket the state is unchanged |
| SupportSlice.SupportStore.UpdateTicketStatus | features/support/supportSlice.ts:130-139 | the first ticket with the id is replaced; the detail view is merged with the payload only when its id is the payload's |
| SubscriptionsSlice.SubscriptionsStore.constructor | features/subscriptions/subscriptionsSlice.ts:17-28 | the initial state |
| SubscriptionsSlice.SubscriptionsStore.SetFilters | features/subscriptions/subscriptionsSlice.ts:86-88 | only the filters change |
| SubscriptionsSlice.SubscriptionsStore.ClearFilters | features/subscriptions/subscriptionsSlice.ts:89-91 | the filters become empty |
| SubscriptionsSlice.SubscriptionsStore.SetSelectedSubscription | features/subscriptions/subscriptionsSlice.ts:92-94 | only the selection changes |
| SubscriptionsSlice.SubscriptionsStore.ClearError | features/subscriptions/subscriptionsSlice.ts:95-97 | only the error is cleared |
| SubscriptionsSlice.SubscriptionsStore.FetchSubscriptions | features/subscriptions/subscriptionsSlice.ts:101-115 | pending sets loading and clears the error; success sets subscriptions, total, page and limit and clears loading |
| SubscriptionsSlice.SubscriptionsStore.FetchPayments | features/subscriptions/subscriptionsSlice.ts:116-126 | pending sets loading but keeps the error; success replaces only the payments, leaving total, page and limit |
| SubscriptionsSlice.SubscriptionsStore.CancelSubscription | features/subscriptions/subscriptionsSlice.ts:127-132 | the first subscription with the id is replaced; payments are untouched |
| SubscriptionsSlice.SubscriptionsStore.RefundPayment | features/subscriptions/subscriptionsSlice.ts:133-138 | the first payment with the id is replaced; subscriptions are untouched |
| AccessControlSlice.AccessControlStore.constructor | features/accessControl/accessControlSlice.ts:13-20 | the initial state |
| AccessControlSlice.AccessControlStore.SetSelectedRole | features/accessControl/accessControlSlice.ts:91-93 | only the selected role changes |
| AccessControlSlice.AccessControlStore.ClearError | features/accessControl/accessControlSlice.ts:94-96 | only the error is cleared |
| AccessControlSlice.AccessControlStore.FetchRoles | features/accessControl/accessControlSlice.ts:100-111 | pending sets loading and clears the error; success replaces roles; rejection stores the message |
| AccessControlSlice.AccessControlStore.FetchPermissions | features/accessControl/accessControlSlice.ts:112-114 | success replaces the permissions and touches neither loading nor roles |
| AccessControlSlice.AccessControlStore.CreateRole | features/accessControl/accessControlSlice.ts:115-125 | success appends the role at the end and clears actionLoading; rejection stores the message and clears actionLoading |
| AccessControlSlice.AccessControlStore.UpdateRole | features/accessControl/accessControlSlice.ts:126-131 | the first role with the id is replaced; no match leaves the roles as they were |
| AccessControlSlice.AccessControlStore.DeleteRole | features/accessControl/accessControlSlice.ts:132-134 | every role with the id is removed; no other field changes |
| SettingsSlice.WriteSection | features/settings/settingsSlice.ts:108-131 | a section write replaces that one section and keeps the other three |
| SettingsSlice.UpdateSection | features/settings/settingsSlice.ts:108-132 | settings that were never loaded stay absent; loaded settings get the section written |
| SettingsSlice.WriteSectionIdempotent | features/settings/settingsSlice.ts:108-131 | writing the same section payload twice is the same as writing it once |
| SettingsSlice.SettingsStore.constructor | features/settings/settingsSlice.ts:11-16 | the initial state: no settings, nothing loading, no error |
| SettingsSlice.SettingsStore.ClearError | features/settings/settingsSlice.ts:87-89 | only the error is cleared |
| SettingsSlice.SettingsStore.FetchSettings | features/settings/settingsSlice.ts:93-104 | pending sets loading and clears the error; success stores the settings; rejection stores the message |
| SettingsSlice.SettingsStore.UpdateGeneralSettings | features/settings/settingsSlice.ts:105-117 | pending sets saveLoading; success and rejection clear it; rejection also stores the error; success writes the general section |
| SettingsSlice.SettingsStore.UpdateNotificationSettings | features/settings/settingsSlice.ts:118-122 | success writes only the notifications section; no flag or error changes |
| SettingsSlice.SettingsStore.UpdateSecuritySettings | features/settings/settingsSlice.ts:123-127 | success writes only the security section; no flag or error changes |
| SettingsSlice.SettingsStore.UpdateIntegrationSettings | features/settings/settingsSlice.ts:128-132 | success writes only the integrations section; no flag or error changes |
| DashboardSlice.DashboardStore.constructor | features/dashboard/dashboardSlice.ts:21-29 | no stats, empty series, not loading, no error |
| DashboardSlice.DashboardStore.ClearError | features/dashboard/dashboardSlice.ts:100-102 | only the error is cleared |
| DashboardSlice.DashboardStore.FetchDashboardStats | features/dashboard/dashboardSlice.ts:106-117 | pending sets loading and clears the error; success stores the stats; rejection stores the message; both clear loading |
| DashboardSlice.DashboardStore.FetchUserGrowth | features/dashboard/dashboardSlice.ts:118-120 | success replaces the user-growth series only |
| DashboardSlice.DashboardStore.FetchVideoUploads | features/dashboard/dashboardSlice.ts:121-123 | success replaces the video-upload series only |
| DashboardSlice.DashboardStore.FetchSubscriptionDistribution | features/dashboard/dashboardSlice.ts:124-126 | success replaces the distribution series only |
| DashboardSlice.DashboardStore.FetchQuickActions | features/dashboard/dashboardSlice.ts:127-129 | success replaces the quick actions only |
| AiPerformanceSlice.AIPerformanceStore.constructor | features/aiPerformance/aiPerformanceSlice.ts:13-20 | the initial state |
| AiPerformanceSlice.AIPerformanceStore.ClearError | features/aiPerformance/aiPerformanceSlice.ts:78-80 | only the error is cleared |
| AiPerformanceSlice.AIPerformanceStore.FetchAIMetrics | features/aiPerformance/aiPerformanceSlice.ts:84-95 | pending sets loading and clears the error; success stores the metrics; rejection stores the message |
| AiPerformanceSlice.AIPerformanceStore.FetchAIFailures | features/aiPerformance/aiPerformanceSlice.ts:96-107 | pending sets loading but keeps the error; success sets failures and total and clears loading |
| AiPerformanceSlice.AIPerformanceStore.RetryAnalysis | features/aiPerformance/aiPerformanceSlice.ts:48-59 | the reducer has no case for it: no outcome changes the state |
| AiPerformanceSlice.AIPerformanceStore.ResolveFailure | features/aiPerformance/aiPerformanceSlice.ts:108-113 | the first failure with the id is replaced; other outcomes change nothing |
| AuthSlice.GetItem | features/auth/authSlice.ts:82-84 | `localStorage.getItem` yields the stored string exactly when the key is present |
| AuthSlice.AuthStore.constructor | features/auth/authSlice.ts:17-23 | the initial state: not authenticated, no tokens, no user, no reset e-mail |
| AuthSlice.AuthStore.SetCredentials | features/auth/authSlice.ts:29-52 | sets both tokens and the flag; replaces the user (state and storage) only when one is given; never touches the reset e-mail; writes storage only with a window |
| AuthSlice.AuthStore.SetUser | features/auth/authSlice.ts:53-58 | sets the user and its storage key |
| AuthSlice.AuthStore.SetForgotPasswordEmail | features/auth/authSlice.ts:59-61 | only the reset e-mail changes |
| AuthSlice.AuthStore.ClearForgotPasswordEmail | features/auth/authSlice.ts:62-64 | only the reset e-mail is cleared |
| AuthSlice.AuthStore.Logout | features/auth/authSlice.ts:65-78 | the state is the initial state; the three session keys leave storage and no other key changes |
| AuthSlice.AuthStore.InitializeAuth | features/auth/authSlice.ts:79-100 | authenticates only when both stored tokens are present and non-empty; an unparsable or empty stored user leaves the user as it was; storage is only read |
| AuthSlice.ReloadAfterSignIn | features/auth/authSlice.ts:44-90 | signing in and restoring a fresh store from the storage left behind gives back the same tokens and flag, and the user when parsing undoes serialising |
| SubscribersSlice.SubscribersStore.constructor | features/subscribers/subscribersSlice.ts:8-11 | page 1 and an empty search |
| SubscribersSlice.SubscribersStore.SetCurrentPage | features/subscribers/subscribersSlice.ts:17-19 | the page changes and the search is kept |
| SubscribersSlice.SubscribersStore.SetSearchQuery | features/subscribers/subscribersSlice.ts:20-23 | the search changes and the page goes back to 1 |
| SubscribersSlice.SubscribersStore.ResetSubscribersState | features/subscribers/subscribersSlice.ts:24 | any state returns to the initial state |
| OtpBuffer.Empty | app/auth/verify-otp/page.tsx:17 | the starting buffer has one empty slot per digit, is well formed, and is not complete |
| OtpBuffer.Code | app/auth/verify-otp/page.tsx:81 | with one character in every slot, the joined code is those characters in slot order, one per slot |
| OtpBuffer.WellFormed | app/auth/verify-otp/page.tsx:44-47 | a well-formed buffer holds at most one character per slot |
| OtpBuffer.Complete | app/auth/verify-otp/page.tsx:117 | on a well-formed buffer, the code is complete exactly when every slot holds one digit |
| OtpBuffer.CompleteIffFullLength | app/auth/verify-otp/page.tsx:81-117 | with at most one character per slot, every slot is filled exactly when the joined code is as long as the buffer |
| OtpBuffer.Change | app/auth/verify-otp/page.tsx:42-48 | a non-empty input with a non-digit is ignored; otherwise that slot takes the input's last character ("" for an empty input), the other slots and the length are kept |
| OtpBuffer.ChangeWellFormed | app/auth/verify-otp/page.tsx:44-47 | typing keeps every slot empty or a single digit |
| OtpBuffer.Prefix | app/auth/verify-otp/page.tsx:65 | `slice(0, n)` is the text's first min(n, length) characters |
| OtpBuffer.Paste | app/auth/verify-otp/page.tsx:63-77 | the first n pasted characters, if all digits (an empty paste is not), overwrite slots 0..k-1 and keep the rest, focus moving to min(k, n-1); otherwise nothing changes; well-formedness is kept |
| OtpBuffer.TickStep | app/auth/verify-otp/page.tsx:33-40 | a tick above 1 only counts down; from 1 it reaches 0 and enables resending |
| OtpBuffer.TicksCount | app/auth/verify-otp/page.tsx:33-40 | after k seconds the count is max(t-k, 0), and resending is possible exactly from second t on |
| OtpBuffer.ResendAfterSixtySeconds | app/auth/verify-otp/page.tsx:18-40 | from the page's start, resending becomes possible after exactly 60 seconds |
| OtpBuffer.Settle | app/auth/verify-otp/page.tsx:33-40 | the effect never changes the count; it enables resending exactly when the count has run out or resending was already enabled |
| OtpBuffer.Tick | app/auth/verify-otp/page.tsx:35 | one second lowers a positive count by one; afterwards resending is enabled exactly when it was, or when the count has run out |
| VerifyOtpPage.Submit | app/auth/verify-otp/page.tsx:79-91 | the code is sent, with the stored e-mail, exactly when it joins to 4 characters and an e-mail is stored |
| VerifyOtpPage.RedirectsToForgotPassword | app/auth/verify-otp/page.tsx:26-30 | without a stored (truthy) e-mail the page leaves for /auth/forgot-password, and then no code is ever sent for checking and a resend changes nothing |
| VerifyOtpPage.SubmitNeedsCompleteCode | app/auth/verify-otp/page.tsx:81-117 | on a well-formed buffer, submitting goes ahead exactly when every slot is filled and an e-mail is stored |
| OtpBuffer.VerifyDisabled | app/auth/verify-otp/page.tsx:169 | the Verify button (the same condition as app/auth/verify-email/page.tsx:155) is enabled exactly when no request is in flight and every slot is filled; on a well-formed buffer, exactly when the joined code has one character per slot |
| VerifyOtpPage.Resend | app/auth/verify-otp/page.tsx:101-115 | with canResend, a stored e-mail and a successful send, the countdown restarts at 60 and the buffer empties; every other case changes nothing |
| VerifyOtpPage.ResendRestartsCountdown | app/auth/verify-otp/page.tsx:101-109 | after a resend the buffer is empty and resending is blocked for exactly 60 more seconds |
| VerifyEmailPage.Submit | app/auth/verify-email/page.tsx:73-85 | the page goes to /auth/login exactly when the code joins to 6 characters |
| VerifyEmailPage.SubmitNeedsCompleteCode | app/auth/verify-email/page.tsx:75-108 | on a well-formed 6-slot buffer, submitting goes ahead exactly when every slot is filled |
| VerifyEmailPage.Resend | app/auth/verify-email/page.tsx:93-101 | needs only canResend (no e-mail check); it restarts the countdown and empties the 6 slots |
| ResetPasswordPage.Issues | app/auth/reset-password/page.tsx:14-22 | the schema reports a too-short password, a too-short confirmation and a mismatch (on confirmPassword), each exactly when it holds; "too short" is fewer than 6 UTF-16 code units, as JavaScript's `length` counts |
| ResetPasswordPage.FieldError | app/auth/reset-password/page.tsx:36 | a field shows a message exactly when some issue is on it, and the message is one of its issues |
| ResetPasswordPage.ShownErrors | app/auth/reset-password/page.tsx:14-22 | the password field shows the length message exactly when it is under 6 UTF-16 units; the confirmation shows its length message when short and otherwise the mismatch message when they differ |
| ResetPasswordPage.Submit | app/auth/reset-password/page.tsx:14-43 | the form goes to /auth/login exactly when the passwords are equal and at least 6 UTF-16 units long |
| ResetPasswordPage.AstralPasswordAccepted | app/auth/reset-password/page.tsx:16 | three emoji count as six units, so a three-character emoji password passes the length rule and the form proceeds |
| LoginPage.SchemaErrors | app/auth/login/page.tsx:23-26 | the password fails exactly when it is shorter than 6 UTF-16 units, with its message; the e-mail fails exactly when the (parameter) e-mail check does |
| LoginPage.FirstMessage | app/auth/login/page.tsx:82-89 | a field present in the server's errors gets the first message of its list |
| LoginPage.SignInOrDeny | app/auth/login/page.tsx:56-76 | a returned user whose role is not "Admin" is refused and nothing is stored; otherwise the tokens and the user (or the fallback admin user) are stored and the success toast shown |
| LoginPage.Submit | app/auth/login/page.tsx:48-95 | success goes through the role gate with the entered e-mail as fallback; a failure with field errors sets each present field and shows no generic message; other failures toast the server message or the default text |
| LoginPage.GoogleSubmit | app/auth/login/page.tsx:97-130 | as for the form, with an empty fallback e-mail, the Google success text, and failures always a toast |
| LoginPage.OnlyAdminsAreStored | app/auth/login/page.tsx:56-122 | whatever the server answers, only an "Admin" user is handed to setCredentials |
| LoginPage.LoginDisabled | app/auth/login/page.tsx:234 | the button is enabled exactly when not loading and the terms are accepted |
| ProtectedRoute.QuerySkipped | components/auth/ProtectedRoute.tsx:26-28 | the profile is fetched exactly when the user is authenticated and the guard initialized |
| ProtectedRoute.Redirects | components/auth/ProtectedRoute.tsx:30-50 | once initialized, the guard redirects exactly when unauthenticated, or the profile's role is not "Admin", or the fetch failed |
| ProtectedRoute.Render | components/auth/ProtectedRoute.tsx:53-70 | loading is shown exactly when uninitialized, loading or without a profile; the children render exactly when initialized, loaded and the profile is "Admin" |
| ProtectedRoute.ChildrenOnlyForAdmins | components/auth/ProtectedRoute.tsx:26-70 | rendered children imply an initialized, authenticated admin, and then no redirect unless the fetch failed |
| ProtectedRoute.OutsidersAreTurnedAway | components/auth/ProtectedRoute.tsx:34-67 | an initialized visitor who is unauthenticated or not an admin is redirected and never sees the children |
| BaseApi.TakeUntil | store/api/baseApi.ts:10 | the text before the first occurrence of a character: a prefix without it, ending where it occurs |
| BaseApi.SplitFirstPart | store/api/baseApi.ts:10 | the first part of `split('=')` is the text before the first '=' |
| BaseApi.CsrfValue | store/api/baseApi.ts:10 | for a "csrftoken=" row, `split('=')[1]` is the text between the first and second '=' |
| BaseApi.IsCsrfRow | store/api/baseApi.ts:9 | a cookie row is chosen exactly when its name, the text before its first `=`, is `csrftoken` and an `=` follows it |
| BaseApi.GetCsrfToken | store/api/baseApi.ts:4-12 | null without a document; otherwise the value of the first "; "-separated row starting with "csrftoken=" (so "csrftokenX=" does not match), null when there is none or it is empty; a token is never empty and has no '=' |
| BaseApi.SingleCsrfCookie | store/api/baseApi.ts:4-12 | a cookie "csrftoken=v" gives back exactly v |
| BaseApi.UsableBearerToken | store/api/baseApi.ts:28 | a token is used exactly when present, not blank after trimming, and neither "null" nor "undefined" |
| BaseApi.Headers.constructor | store/api/baseApi.ts:17 | a headers object holding the given entries |
| BaseApi.Headers.Set | store/api/baseApi.ts:21-29 | `headers.set` writes one entry and keeps the others |
| BaseApi.StoredAccessToken | store/api/baseApi.ts:25 | the stored access token when there is a window, null otherwise |
| BaseApi.PrepareHeaders | store/api/baseApi.ts:17-33 | X-CSRFToken is set exactly when a token is found, Authorization to "Bearer " + token exactly when the token is usable, and no other header changes |
| BaseApi.NoBearerAfterLogout | store/api/baseApi.ts:25-30 | once the access token has left storage, no Authorization header is added |
| Sidebar.DashboardActiveOnlyOnItself | layout/Sidebar.tsx:66-68 | "/dashboard" is active only on that exact path |
| Sidebar.IsActive | layout/Sidebar.tsx:66-68 | an item is active on its own path, and only on paths its link is a prefix of |
| Sidebar.HrefsDistinct | layout/Sidebar.tsx:16-47 | the six items have distinct links |
| Sidebar.NoNestedHrefs | layout/Sidebar.tsx:16-47 | no item's link is a prefix of another's, apart from "/dashboard" |
| Sidebar.AtMostOneActive | layout/Sidebar.tsx:16-68 | for any path, at most one sidebar item is active |
| UsersPage.FilteredUsers | app/dashboard/users/page.tsx:200-208 | a user is listed exactly when the lower-cased query is in the lower-cased name or e-mail and each filter is "all" or matches; the list keeps the order of the users |
| UsersPage.MatchesSearch | app/dashboard/users/page.tsx:201-203 | the empty search matches every user |
| UsersPage.MatchesSearchIgnoresCase | app/dashboard/users/page.tsx:201-203 | a query and its lower-cased form match the same users |
| UsersPage.Listed | app/dashboard/users/page.tsx:200-207 | with an empty search and both filters on "all" every user is listed; a listed user has the status and the plan the filters name when they are not "all" |
| UsersPage.UnfilteredShowsAll | app/dashboard/users/page.tsx:200-208 | an empty query with both filters on "all" lists every user |
| UsersPage.Stats | app/dashboard/users/page.tsx:210-213 | total is the list length; active counts "Active" users and paid counts non-"Free" plans |
| UsersPage.PaidPlusFree | app/dashboard/users/page.tsx:213 | paid users plus free users are all users |
| UsersPage.PayingIsNotFree | app/dashboard/users/page.tsx:213 | the paid users are the users with every "Free" one removed, in order |
| UsersPage.ConfirmDelete | app/dashboard/users/page.tsx:242-248 | removes every user with the selected id and clears the selection; nothing happens without one |
| UsersPage.ConfirmDeleteTwice | app/dashboard/users/page.tsx:242-248 | confirming the delete of the same user again has nothing left to remove |
| UsersPage.FormOf | app/dashboard/users/page.tsx:224-235 | the edit form opened on a user, merged back, gives that user unchanged |
| UsersPage.Merge | app/dashboard/users/page.tsx:254 | `{ ...u, ...editForm }` overwrites name, e-mail, sport, level, plan and status, and keeps id, videos, engagement and dates |
| UsersPage.ApplyEdit | app/dashboard/users/page.tsx:252-256 | users with the selected id get the form; every other user is kept; the length is kept |
| UsersPage.SaveEdit | app/dashboard/users/page.tsx:250-260 | with a selection the form is merged into the matching users and the selection cleared; without one nothing happens |
| UsersPage.ApplyEditIdempotent | app/dashboard/users/page.tsx:250-260 | saving the same form twice is saving it once |
| UsersPage.SaveUnchangedForm | app/dashboard/users/page.tsx:224-260 | opening a user and saving without edits leaves the list as it was |
| UsersPage.WordStarts | app/dashboard/users/page.tsx:262-268 | the characters that begin a word (at the start or after a space) are never more than the name's characters |
| UsersPage.Initials | app/dashboard/users/page.tsx:262-268 | the initials are the upper-cased first characters of the space-separated words |
| UsersPage.HeadsOfWords | app/dashboard/users/page.tsx:264-266 | `split(" ").map(n => n[0]).join("")` is the word-start characters, empty words contributing nothing |
| UsersPage.Heads | app/dashboard/users/page.tsx:265-266 | at most one character per part; when no part is empty, exactly the first character of each part, in order |
| UsersPage.NoSpaceStarts | app/dashboard/users/page.tsx:264-266 | a word without spaces contributes only its first character, and only when it starts at a word boundary |
| UsersPage.WordStartsAfterSpace | app/dashboard/users/page.tsx:264-266 | a space ends a word: the initials of `word + " " + rest` are the word's first character followed by the initials of rest |
| TrainingPage.FilteredContent | app/dashboard/training/page.tsx:143-147 | an item is shown exactly when each drop-down is "all" or names its value; the list keeps the order and is never longer than the library |
| TrainingPage.UnfilteredShowsAll | app/dashboard/training/page.tsx:143-147 | both drop-downs on "all" show everything |
| TrainingPage.Stats | app/dashboard/training/page.tsx:149-154 | the per-category counts add up to the total |
| TrainingPage.ConfirmDelete | app/dashboard/training/page.tsx:161-167 | removes the selected id and clears the selection; nothing without a selection |
| TrainingPage.ConfirmDeleteTotal | app/dashboard/training/page.tsx:149-167 | a delete lowers the total by the number of items with that id |
| SupportPage.FilteredTickets | app/dashboard/support/page.tsx:141-148 | a ticket is listed exactly when the query is in its subject or user name (not the e-mail, ignoring case) and the status filter is "all" or matches |
| SupportPage.MatchesSearch | app/dashboard/support/page.tsx:142-144 | the empty search matches every ticket |
| SupportPage.MatchesSearchIgnoresCase | app/dashboard/support/page.tsx:142-144 | a query and its lower-cased form match the same tickets |
| SupportPage.Listed | app/dashboard/support/page.tsx:141-147 | with an empty search and the filter on "all" every ticket is listed; a listed ticket has the status the filter names when it is not "all" |
| SupportPage.UnfilteredShowsAll | app/dashboard/support/page.tsx:141-148 | an empty query on "all" lists every ticket |
| SupportPage.Stats | app/dashboard/support/page.tsx:150-155 | "Resolved" counts resolved and closed tickets, and open + in progress + resolved is the total |
| SupportPage.AssigneeLabel | app/dashboard/support/page.tsx:325 | a missing or empty assignee shows as "Unassigned"; the label is never empty |
| AccessControlPage.Toggle | app/dashboard/access-control/page.tsx:139-145 | a checked permission is removed (every copy), an unchecked one appended; membership flips and no other permission changes |
| AccessControlPage.ToggleTwiceAbsent | app/dashboard/access-control/page.tsx:139-145 | checking and unchecking an absent permission restores the selection exactly |
| AccessControlPage.ToggleTwicePresent | app/dashboard/access-control/page.tsx:139-145 | unchecking and rechecking keeps the same permissions, moved to the end without duplicates |
| AccessControlPage.CategoryList | app/dashboard/access-control/page.tsx:148 | the category of each permission, in order |
| AccessControlPage.PermissionCategories | app/dashboard/access-control/page.tsx:147-149 | each category of some permission appears, exactly once |
| AccessControlPage.ConfirmDelete | app/dashboard/access-control/page.tsx:131-137 | removes the roles with the selected id and clears the selection; nothing without one |
| AccessControlPage.SuperAdminSurvivesDelete | app/dashboard/access-control/page.tsx:276 | with unique role ids, deleting through an enabled delete button keeps every "Super Admin" role, whose button is disabled |
| AccessControlPage.BadgeRow | app/dashboard/access-control/page.tsx:240-256 | the first min(n, 3) permissions are shown, and "+(n-3)" exactly when n > 3 |
| AccessControlPage.TotalUsers | app/dashboard/access-control/page.tsx:174 | the sum of the user counts, never negative when no count is |
| AccessControlPage.TotalUsersAppend | app/dashboard/access-control/page.tsx:174 | the total of two lists of roles is the sum of their totals |
| AccessControlPage.TotalUsersAfterDelete | app/dashboard/access-control/page.tsx:131-137 | deleting a role lowers "Total Users" by the user counts of the roles removed |
| AccessControlPage.OpenCreate | app/dashboard/access-control/page.tsx:157 | "Create Role" opens the dialog over whatever selection and form it holds |
| AccessControlPage.OpenEdit | app/dashboard/access-control/page.tsx:119-124 | editing opens the dialog on the role's name, description and permissions |
| AccessControlPage.Dismiss | app/dashboard/access-control/page.tsx:292-299 | closing the dialog clears the checked permissions and the form |
| AccessControlPage.CancelAsWritten | app/dashboard/access-control/page.tsx:367-373 | the Cancel button only clears the two open flags; the permissions and form survive |
| AccessControlPage.CancelLeaksIntoCreate | app/dashboard/access-control/page.tsx:367-373 | after editing a role and pressing Cancel, "Create Role" opens with that role's permissions and name |
| AccessControlPage.Cancel | app/dashboard/access-control/page.tsx:367-373 | Cancel as intended: the same reset as closing the dialog |
| AccessControlPage.CreateAfterCloseIsEmpty | app/dashboard/access-control/page.tsx:292-299 | after a cancel or a close, "Create Role" starts from an empty selection and form |
| SubscriptionsPage.ApplyEdit | app/dashboard/subscriptions/page.tsx:575-638 | each dialog input writes its one field of the copy; id, price label and subscriber count never change |
| SubscriptionsPage.EditPlan | app/dashboard/subscriptions/page.tsx:224-227 | the dialog opens on a copy of the plan and the list is untouched |
| SubscriptionsPage.EditField | app/dashboard/subscriptions/page.tsx:575-638 | an edit changes only the copy, never the plans |
| SubscriptionsPage.ReplaceById | app/dashboard/subscriptions/page.tsx:231 | every plan with the copy's id is replaced; others and the length are kept |
| SubscriptionsPage.SavePlan | app/dashboard/subscriptions/page.tsx:229-235 | with a copy, it is written over the matching plans, the dialog closes and the copy is dropped; without one, nothing |
| SubscriptionsPage.SaveWithoutMatch | app/dashboard/subscriptions/page.tsx:231 | a copy whose id no plan has changes no plan |
| SubscriptionsPage.EditThenSaveUnchanged | app/dashboard/subscriptions/page.tsx:224-235 | opening a plan and saving it unedited leaves the list as it was |
| SubscriptionsPage.EditsReachPlansOnSave | app/dashboard/subscriptions/page.tsx:224-235 | after edit and save, the plans with the id carry exactly the edit, the rest are kept, and the dialog is closed |
| SubscriptionsPage.DeletePlan | app/dashboard/subscriptions/page.tsx:237-239 | every plan with the id is removed and the rest keep their order |
| SubscriptionsPage.ColorOf | app/dashboard/subscriptions/page.tsx:548-549 | every transaction status has a colour entry |
| SubscriptionsPage.StatusColorsDistinct | app/dashboard/subscriptions/page.tsx:207-211 | the three statuses get three different colours |
| AIPerformancePage.Retry | app/dashboard/ai-performance/page.tsx:98-104 | the failures with the id become resolved; every other entry and the length are kept |
| AIPerformancePage.RetryIdempotent | app/dashboard/ai-performance/page.tsx:98-104 | a second retry of the same id changes nothing |
| AIPerformancePage.UnresolvedCount | app/dashboard/ai-performance/page.tsx:106 | the number of unresolved failures |
| AIPerformancePage.RetryCount | app/dashboard/ai-performance/page.tsx:98-106 | a retry lowers the count by the unresolved failures carrying the id |
| AIPerformancePage.CountUniqueMatch | app/dashboard/ai-performance/page.tsx:98-106 | with unique ids, exactly one unresolved failure carries a given unresolved failure's id |
| AIPerformancePage.RetryLowersCountByOne | app/dashboard/ai-performance/page.tsx:98-106 | with unique ids, retrying an unresolved failure lowers the count by exactly one |
| AIPerformancePage.StatusLabel | app/dashboard/ai-performance/page.tsx:285 | "Resolved" exactly for resolved failures, "Pending" exactly for the others |
| AIPerformancePage.RetryOffered | app/dashboard/ai-performance/page.tsx:289 | Retry is offered exactly on the rows whose badge reads "Pending" |
| AIPerformancePage.RetryWithdrawsButton | app/dashboard/ai-performance/page.tsx:289-299 | a retried row no longer offers Retry |
| SubscribersPage.TotalPages | app/dashboard/subscribers/page.tsx:78 | 0 without a count; otherwise the fewest pages of 10 that hold every subscriber (the ceiling) |
| SubscribersPage.PaginationShown | app/dashboard/subscribers/page.tsx:204 | the pagination bar shows exactly when there are more than 10 subscribers |
| SubscribersPage.TotalSubscribers | app/dashboard/subscribers/page.tsx:106 | the server's count, or 0 without a response; it is 0 exactly when the bar has no pages, and otherwise the pages of 10 hold exactly that many subscribers (all but the last page full) |
| SubscribersPage.PreviousDisabled | app/dashboard/subscribers/page.tsx:214 | Previous is enabled exactly when the server sent a previous link |
| SubscribersPage.NextDisabled | app/dashboard/subscribers/page.tsx:222 | Next is enabled exactly when the server sent a next link |
| SubscribersPage.HandleSearch | app/dashboard/subscribers/page.tsx:47-49 | the typed text becomes the search and the table returns to page 1 |
| SubscribersPage.ClickPrevious | app/dashboard/subscribers/page.tsx:210-217 | an enabled Previous lowers the page by one; a disabled one does nothing |
| SubscribersPage.ClickNext | app/dashboard/subscribers/page.tsx:218-225 | an enabled Next raises the page by one; a disabled one does nothing |
| SubscribersPage.DeleteClick | app/dashboard/subscribers/page.tsx:51-54 | clicking delete on a row remembers that row's id and opens the confirmation |
| SubscribersPage.DeleteConfirm | app/dashboard/subscribers/page.tsx:56-67 | a delete request is sent exactly for a selected id that is truthy (not 0), and for that id; a success toasts, closes the dialog and forgets the id; a failure toasts and leaves the dialog; without a request nothing changes and nothing is toasted |
| SubscribersPage.ClickThenConfirm | app/dashboard/subscribers/page.tsx:51-57 | clicking a row's delete and confirming requests that row's id, except id 0, for which nothing is sent and the dialog stays open |
| SubscribersPage.ConfirmAfterDeleteSendsNothing | app/dashboard/subscribers/page.tsx:62-63 | after a successful delete the id is forgotten, so confirming again sends no second request |
| SubscribersPage.Body | app/dashboard/subscribers/page.tsx:124-136 | loading takes precedence; an empty result shows "No subscribers found"; otherwise the rows are the results |
| Entities.NamesDistinct | api/users.api.ts:8-10 | distinct plans, statuses and levels have distinct names, none of them "all", so the page filters are unambiguous |
| Seqs.ReplaceFirstTwice | features/users/usersSlice.ts:161-164 | replacing by id twice with the same payload is replacing once |
| Seqs.RemoveKeyIdempotent | features/users/usersSlice.ts:177-181 | deleting by id twice is deleting once |
| Seqs.RemoveKeyCount | features/users/usersSlice.ts:177-181 | a delete by id removes exactly the entries carrying that id |
| Seqs.DedupOrder | app/dashboard/access-control/page.tsx:147-149 | `Array.from(new Set(...))` keeps each element at its first occurrence, in order |

## Left out

- The HTTP layer is not modelled: the endpoint tables in `api/*.api.ts` and `store/api/*Api.ts`, axios and RTK Query. A thunk is only the outcome it dispatches, and the server's answers on the pages are inputs.
- `api/axiosInstance.ts` is not modelled: its interceptors do I/O (`window.location`, storage removal). Its request interceptor reads the storage key `authToken`, while the session slice writes `access_token`.
- Floating point is left out: the users page's `avgEngagement` (a `Math.round` of a division that is NaN for an empty list), the subscriptions page's chart geometry and its `parseFloat` of the price (the price is a `real` input), and `StatsCard` formatting.
- zod's e-mail check is not modelled; its verdict is the `emailValid` parameter of `LoginPage.SchemaErrors`.
- `JSON.parse` and `JSON.stringify` of the stored user are the store's `parse` and `stringify` parameters, with `parse` returning `None` where `JSON.parse` throws; the `console.error` there is not modelled.
- Case mapping (`toLowerCase`/`toUpperCase`) and `trim` cover ASCII letters and ASCII whitespace only, not full Unicode.
- Timers, focus and `inputRefs`, toasts and router navigation are not performed. Seconds are an explicit tick (`OtpBuffer.Tick`), navigation and toasts are returned values, and the focus index of a paste is a method result.
- The keyboard handler `handleKeyDown` only moves focus; it changes no state and is not modelled.
- `OtpBuffer.Paste` takes the clipboard text as a parameter; `e.preventDefault()` is not modelled.
- `BaseApi.Headers`: header names are compared case-sensitively, whereas the Fetch API's `Headers` ignores case; only the two names the code sets are involved.
- `ProtectedRoute.Redirects` and `ProtectedRoute.Render` take the query's `isLoading`, `isError` and profile as independent inputs. RTK Query can keep a stale profile next to `isError`, so both "render children" and "redirect" can hold in one render, and the model allows that too.
- `ProtectedRoute`'s effect ordering (`initializeAuth` before `isInitialized`) is not modelled; the two are independent inputs.
- `AccessControlPage.PermissionCategories` states membership and distinctness; the first-occurrence order is stated separately, by `Seqs.DedupOrder` on the underlying `Seqs.Dedup`.
- The field-error toasts of the login form duplicate the field messages and are not a separate outcome.
- SignInOrDeny: the `baseApi.util.resetApiState()` dispatched before the credentials are stored (app/auth/login/page.tsx:62) is not an effect of the outcome, because the RTK Query cache is not modelled; a `SignedIn` outcome does not say that the cached query results of the previous session are dropped.
- InitializeAuth: the store's `parse` returns an `AuthUser` or `None`, so a stored text that `JSON.parse` turns into something other than a user object ("null", "42") is treated like a parse failure and keeps the previous user, where features/auth/authSlice.ts:92 stores that value (null, 42) as the user.
- Initials: JavaScript's `n[0]` is one UTF-16 code unit, so a word that starts with a character outside the Basic Multilingual Plane contributes half of a surrogate pair; the model's strings are sequences of whole Unicode characters, which cannot hold a lone surrogate, so it takes the whole character.
- The filter values the slices store (`Record<string, unknown>`) are modelled as `map<string, string>`.
- The subscribers page's delete and status-toggle mutations are server calls. The delete's result is an input of `SubscribersPage.DeleteConfirm`; `handleToggleStatus`, which only calls the server and toasts, is not modelled.
- The view and delete dialogs' open flags on the dashboard pages only show or hide content and are not modelled.
- Not modelled because they are presentation or wiring: `app/auth/signup`, `app/auth/forgot-password`, `app/dashboard/settings`, `app/dashboard/page.tsx`, the layouts, `Topbar`, `DataTable`, `StatsCard`, `PageHeader`, `providers.tsx`, `GoogleAuthProvider.tsx`, `store.ts` and `rootReducer.ts`.

## Findings

| source | as written | input that shows it | evidently intended | confidence | as-written member | corrected member |
|---|---|---|---|---|---|---|
| app/dashboard/access-control/page.tsx:367-373 | the Cancel button clears only `createModalOpen` and `editModalOpen`; the dialog's reset in `onOpenChange` (lines 292-299) does not run, because a change of the `open` property does not call `onOpenChange` | edit role "Editor" (permissions ["users.read"]), press Cancel, press "Create Role": the new-role dialog opens with "users.read" checked and the name "Editor" filled in | Cancel resets the checked permissions and the form, as closing the dialog by any other way does | not executed | AccessControlPage.CancelLeaksIntoCreate | AccessControlPage.CreateAfterCloseIsEmpty |
