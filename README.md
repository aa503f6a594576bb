# AutoBlogger dashboard session and credentials form, modelled in Dafny

This project models the client-side core of the AutoBlogger dashboard front end:

- the `DashboardLayout` component (`components/dashboard-layout.tsx`): the session state (who is signed in, mirrored in the browser's `localStorage` under `accesstoken`, `username`, `email` and `profilepic`), the selected page and the `renderPageContent` view selector, the create-post form with its success and error popups, the post-statistics loader (one call per mount), and the signup form's picture guard;
- the `WordPressSettings` component (`components/settings.tsx`): the three credential fields, the `isLoading` flag that disables the submit button, and the submit handler.

Every network call is replaced by its outcome, a `Reply<T>`: `Ok(body)` for a 2xx response (whose JSON parsed, where the handler reads it), `NotOk(error)` for any other status, and `Thrown(message)` for a `fetch` or parse error. Each handler logs the call it issues in a `requests` sequence, so "no call is made" can be stated and proved.

Each component appears twice:

- as a value (`Dashboard.Layout`, `Settings.Form`) with one transition function per handler or effect. Lemmas about these functions state what the source promises. They also cover whole runs: any sequence of user events, responses, renders and timer firings (`Dashboard.Run`, `Settings.RunForm`);
- as a class (`Dashboard.DashboardLayout`, `Settings.WordPressSettings`). Its fields are the component's `useState` slots. Each React setter is a method that changes one slot, and so are `localStorage.setItem`, `localStorage.clear()`, issuing a `fetch` and raising a toast. Each handler calls those methods in the source's order and is proved to produce exactly the state its transition function describes.

Files: `outcomes.dfy` (Option, Reply), `storage.dfy` (`localStorage` reads and JavaScript truthiness), `views.dfy` (nav items, view selector), `dashboard.dfy` and `dashboard_properties.dfy`, `settings.dfy` and `settings_properties.dfy`.

## Model

| member | source | states |
|---|---|---|
| `Views.SelectView` | components/dashboard-layout.tsx:250-437 | signed out: LoginForm exactly when `isLoginFormVisible`, else SignupForm, whatever the page; signed in: blank (`null`) exactly when `activePage` is no sidebar title, otherwise the section that title leads to |
| `Views.SignedInIgnoresFormFlag` | components/dashboard-layout.tsx:252-259 | signed in, the view does not depend on `isLoginFormVisible` |
| `Views.SignedOutIgnoresPage` | components/dashboard-layout.tsx:252-258 | signed out, the view does not depend on `activePage` |
| `BrowserStorage.GetOrEmpty` | components/dashboard-layout.tsx:206-208 | `getItem(key) \|\| ""` is the stored value when truthy and "" when the key is missing or empty |
| `Dashboard.SignupGuard` | components/dashboard-layout.tsx:588-595 | the guard of the signup form: a picture to sign up with exactly when a file was chosen, that same file; what it decides for the whole form is stated by `SignupWithoutPictureIsLocal` and `SignupThenLogin` |
| `Dashboard.ToSend` | components/dashboard-layout.tsx:162-167 | the payload copy keeps title, keywords and content verbatim; an empty date stays empty; a non-empty date is replaced by its ISO conversion |
| `Dashboard.RestoreSession` | components/dashboard-layout.tsx:204-221 | after restore, signed in exactly when storage holds a truthy token; storage and the login-form flag are unchanged |
| `Dashboard.DashboardLayout.constructor` | components/dashboard-layout.tsx:71-248 | mounting: the `useState` initial values (page "Dashboard", empty profile, signed out, login form shown, blank form, zero stats, loading, no error, popups hidden), then the first render's restore effect and the stats effect's call, that is `Mounted` |
| `Dashboard.DashboardLayout.SetActivePage` | components/dashboard-layout.tsx:71 | `setActivePage`: only `activePage` changes |
| `Dashboard.DashboardLayout.SetUsername` | components/dashboard-layout.tsx:72 | `setUsername`: only the session's username changes |
| `Dashboard.DashboardLayout.SetEmail` | components/dashboard-layout.tsx:73 | `setEmail`: only the session's email changes |
| `Dashboard.DashboardLayout.SetProfilepic` | components/dashboard-layout.tsx:74 | `setProfilepic`: only the session's picture changes |
| `Dashboard.DashboardLayout.SetPopupVisible` | components/dashboard-layout.tsx:75 | `setPopupVisible`: only the success popup flag changes |
| `Dashboard.DashboardLayout.SetIsLoginFormVisible` | components/dashboard-layout.tsx:76 | `setIsLoginFormVisible`: only the login-form flag changes |
| `Dashboard.DashboardLayout.SetIsAuthenticated` | components/dashboard-layout.tsx:77 | `setIsAuthenticated`: only the signed-in flag changes |
| `Dashboard.DashboardLayout.SetFormData` | components/dashboard-layout.tsx:78-83 | `setFormData`: only the create-post form changes |
| `Dashboard.DashboardLayout.SetData` | components/dashboard-layout.tsx:84-87 | `setData`: only the counters change |
| `Dashboard.DashboardLayout.SetLoading` | components/dashboard-layout.tsx:88 | `setLoading`: only the loading flag changes |
| `Dashboard.DashboardLayout.SetError` | components/dashboard-layout.tsx:89 | `setError`: only the error slot changes, to the given message |
| `Dashboard.DashboardLayout.SetErrorPopupVisible` | components/dashboard-layout.tsx:91 | `setErrorPopupVisible`: only the error popup flag changes |
| `Dashboard.DashboardLayout.Issue` | components/dashboard-layout.tsx:102-106 | issuing a `fetch`: the call is appended to the log, whatever its outcome, and nothing else changes |
| `Dashboard.DashboardLayout.RenderPageContent` | components/dashboard-layout.tsx:250-437 | `renderPageContent` on the current slots; its behaviour is stated by `Views.SelectView`, `NeverBlank` and `LoginShowsDashboard` |
| `Dashboard.DashboardLayout.HandleChange` | components/dashboard-layout.tsx:93-98 | performs the `Edit` transition: the changed input's field takes the new value |
| `Dashboard.DashboardLayout.HandleLogin` | components/dashboard-layout.tsx:100-123 | performs the `Login` transition: on an ok reply, three profile slots, four storage writes, signed in, login form hidden; otherwise only the call is logged |
| `Dashboard.DashboardLayout.SetItem` | components/dashboard-layout.tsx:114-117 | one `localStorage.setItem`: that key now maps to the value, nothing else changes |
| `Dashboard.DashboardLayout.ClearStorage` | components/dashboard-layout.tsx:131 | `localStorage.clear()` empties storage and changes nothing else |
| `Dashboard.DashboardLayout.HandleLogout` | components/dashboard-layout.tsx:125-137 | performs the `Logout` transition |
| `Dashboard.DashboardLayout.HandleSignup` | components/dashboard-layout.tsx:139-157 | performs the `Signup` transition: the signup call, then a login with the same email and password only after an ok reply |
| `Dashboard.DashboardLayout.SubmitSignup` | components/dashboard-layout.tsx:588-595 | performs `SubmitSignupForm`: `HandleSignup` runs only when a picture was chosen |
| `Dashboard.DashboardLayout.HandleSubmit` | components/dashboard-layout.tsx:159-202 | performs the `SubmitPost` transition: sends the converted copy with the stored token, clears the form, raises the popup for the outcome |
| `Dashboard.DashboardLayout.RestoreFromStorage` | components/dashboard-layout.tsx:204-221 | performs the `Restore` transition |
| `Dashboard.DashboardLayout.StartFetchStats` | components/dashboard-layout.tsx:224-234 | the stats effect up to its awaited `fetch`: performs `IssueStats`, one call carrying the stored token |
| `Dashboard.DashboardLayout.FinishFetchStats` | components/dashboard-layout.tsx:235-244 | the stats effect once the response is in: performs `SettleStats` |
| `Dashboard.DashboardLayout.Handle` | components/dashboard-layout.tsx:459-488 | every event (sidebar click, "Create New Post", form toggles, handlers, effects, popup timers) performs `Step` |
| `Dashboard.Edit` | components/dashboard-layout.tsx:93-98 | `handleChange` as a transition; stated by `EditSetsOnlyItsField` |
| `Dashboard.Login` | components/dashboard-layout.tsx:100-123 | `handleLogin` as a transition; stated by `LoginSuccess`, `LoginFailureChangesNothing`, `LoginKeepsInSync`, `LoginWithEmptyTokenIsUndone` |
| `Dashboard.Logout` | components/dashboard-layout.tsx:125-137 | `handleLogout` as a transition; stated by `LogoutIsConstant` and `LogoutKeepsInSync` |
| `Dashboard.Signup` | components/dashboard-layout.tsx:139-157 | `handleSignup` as a transition; stated by `SignupThenLogin` |
| `Dashboard.SubmitSignupForm` | components/dashboard-layout.tsx:588-595 | the signup form's submit; stated by `SignupWithoutPictureIsLocal` and `SignupThenLogin` |
| `Dashboard.SubmitPost` | components/dashboard-layout.tsx:159-202 | the create-post `handleSubmit`; stated by `SubmitPostResetsForm` |
| `Dashboard.Restore` | components/dashboard-layout.tsx:204-221 | the restore effect; stated by `RestoreSession` and the `Restore…` and `…KeepsInSync` lemmas |
| `Dashboard.Mounted` | components/dashboard-layout.tsx:71-248 | the state after mount; stated by `MountIssuesStatsCall` |
| `Dashboard.IssueStats` | components/dashboard-layout.tsx:224-234 | the stats effect's call; stated by `MountIssuesStatsCall` and `OneStatsCallPerMount` |
| `Dashboard.SettleStats` | components/dashboard-layout.tsx:235-244 | the stats effect's response handling; stated by `StatsLoadSettles`, `StatsSettleOnce` and `FailedLoadOnMountShowsZeros` |
| `Dashboard.Navigate` | components/dashboard-layout.tsx:459-472 | a sidebar click; stated by `StepKeepsNavPage` |
| `Dashboard.Step` | components/dashboard-layout.tsx:250-488 | any event after mount; stated by the whole-run lemmas (`RunKeepsNavPage`, `RunOnlyAppendsRequests`, `OneStatsCallPerMount`, `StatsSettleOnce`, `LoadingStaysOff`) |
| `DashboardProperties.LoginSuccess` | components/dashboard-layout.tsx:100-119 | an ok login sets the profile from the reply, writes all four storage keys from the reply's token, username, email and profile_pic, keeps the other keys, signs in, hides the login form, and changes nothing outside the session |
| `DashboardProperties.LoginFailureChangesNothing` | components/dashboard-layout.tsx:100-122 | a non-ok or thrown login leaves state and storage unchanged; only the call is logged |
| `DashboardProperties.LogoutIsConstant` | components/dashboard-layout.tsx:125-137 | whatever the prior state, logout gives the same session (empty profile, empty storage, signed out, login form shown) and touches nothing else |
| `DashboardProperties.SignupWithoutPictureIsLocal` | components/dashboard-layout.tsx:588-595 | the signup form without a picture makes no call and changes nothing |
| `DashboardProperties.SignupThenLogin` | components/dashboard-layout.tsx:139-157 | with a picture, signup is posted; an ok reply is followed by a login call with the same email and password, anything else only logs the signup call |
| `DashboardProperties.RestoreDependsOnlyOnStorage` | components/dashboard-layout.tsx:204-221 | the restored profile depends on storage alone; nothing outside the session changes |
| `DashboardProperties.RestoreWithToken` | components/dashboard-layout.tsx:204-214 | a truthy token signs in and loads username, email and profilepic from storage, a missing entry as "" |
| `DashboardProperties.RestoreWithoutToken` | components/dashboard-layout.tsx:215-220 | no token, or an empty one, signs out and clears the profile |
| `DashboardProperties.RestoreIdempotent` | components/dashboard-layout.tsx:204-221 | running the effect twice equals running it once |
| `DashboardProperties.LogoutKeepsInSync` | components/dashboard-layout.tsx:125-137 | after logout the next restore changes nothing |
| `DashboardProperties.FailedLoginKeepsInSync` | components/dashboard-layout.tsx:108-122 | a failed login keeps state and storage in agreement |
| `DashboardProperties.LoginKeepsInSync` | components/dashboard-layout.tsx:110-119 | a login whose token is non-empty leaves state and storage in agreement |
| `DashboardProperties.LoginWithEmptyTokenIsUndone` | components/dashboard-layout.tsx:110-119 | a reply with an empty token still signs in; the next restore signs out again, and the pane is then the signup form, because the login-form flag stays false |
| `DashboardProperties.EditSetsOnlyItsField` | components/dashboard-layout.tsx:93-98 | `handleChange` replaces exactly the changed input's field and nothing else |
| `DashboardProperties.SubmitPostResetsForm` | components/dashboard-layout.tsx:159-202 | the call carries the converted copy and the stored token; the form is blank after both outcomes; only the popup for the outcome is raised |
| `DashboardProperties.StatsLoadSettles` | components/dashboard-layout.tsx:235-244 | loading ends on every path; success replaces the numbers wholesale; failure keeps them and records "Network response was not ok" or the thrown message; the response issues no call and changes nothing else |
| `DashboardProperties.FailedLoadOnMountShowsZeros` | components/dashboard-layout.tsx:84-88 | a failed first load leaves the initial zero counters |
| `DashboardProperties.OnlyNavigationMovesPage` | components/dashboard-layout.tsx:71 | only the sidebar and the "Create New Post" button change `activePage` |
| `DashboardProperties.StepKeepsNavPage` | components/dashboard-layout.tsx:459-472 | every event keeps `activePage` a sidebar title |
| `DashboardProperties.RunKeepsNavPage` | components/dashboard-layout.tsx:29-55 | any run from a sidebar title stays on sidebar titles |
| `DashboardProperties.NeverBlank` | components/dashboard-layout.tsx:435-436 | from mount, after any events, the view is never the `default: null` branch |
| `DashboardProperties.LocalEventsIssueNoCall` | components/dashboard-layout.tsx:125-137 | logout, navigation, toggles, typing, restore, the stats response and the popup timers issue no network call |
| `DashboardProperties.LoginAppendsRequests` | components/dashboard-layout.tsx:100-106 | a login always issues a call |
| `DashboardProperties.CallingEventsAppend` | components/dashboard-layout.tsx:139-153 | login, signup with a picture and post submit each add calls after those already issued |
| `DashboardProperties.RunOnlyAppendsRequests` | components/dashboard-layout.tsx:100-248 | over any run, the calls already issued stay a prefix of the log |
| `DashboardProperties.OnlyStatsLoadTouchesStats` | components/dashboard-layout.tsx:84-89 | no event but the stats load changes the statistics slots |
| `DashboardProperties.LoadingStaysOff` | components/dashboard-layout.tsx:242-248 | once loading is false it stays false over any run |
| `DashboardProperties.MountIssuesStatsCall` | components/dashboard-layout.tsx:224-234 | mounting restores the session from storage and issues exactly one call, the stats call with the token storage held at mount; the counters start at zero and loading |
| `DashboardProperties.StepIssuesNoStatsCall` | components/dashboard-layout.tsx:224-248 | no event issues a stats call: the effect has dependencies `[]`, so its call belongs to the mount alone |
| `DashboardProperties.RunIssuesNoStatsCall` | components/dashboard-layout.tsx:224-248 | over any run, no call added after the start is a stats call |
| `DashboardProperties.OneStatsCallPerMount` | components/dashboard-layout.tsx:224-248 | whatever happens after mount, the log holds exactly one stats call, the first, carrying the token persisted at mount; a later sign-in never triggers another |
| `DashboardProperties.StatsSettleOnce` | components/dashboard-layout.tsx:235-248 | in a feasible run the stats response arrives at most once, only while loading, and `loading` stays on exactly until it has |
| `DashboardProperties.OneStatsReplyPerMount` | components/dashboard-layout.tsx:224-248 | after mount the single stats call is answered at most once, and the counters show as loading exactly until then |
| `DashboardProperties.LoginShowsDashboard` | components/dashboard-layout.tsx:259-260 | a fresh dashboard whose login succeeds shows the Dashboard section |
| `Settings.FailureText` | components/settings.tsx:58-73 | the error toast text is never empty, and it is the server's `error` or the thrown message whenever that is non-empty |
| `Settings.Begin` | components/settings.tsx:30-56 | `handleSubmit` up to the awaited `fetch`; stated by `MissingTokenFailsFast` and `SaveSendsFieldsVerbatim` |
| `Settings.Finish` | components/settings.tsx:58-76 | `handleSubmit` after the response; stated by `EveryResponseClearsCredentials` |
| `Settings.Submit` | components/settings.tsx:30-77 | a whole submission; stated by `SubmitNeverLeavesLoading` |
| `Settings.Apply` | components/settings.tsx:86-117 | any event of the form; stated by `EditTouchesOnlyItsField`, `CallsMatchResponses`, `OnlyAuthenticatedSaves` |
| `Settings.WordPressSettings.constructor` | components/settings.tsx:16-19 | three empty fields, not loading, no toast, no call |
| `Settings.WordPressSettings.SetWordpressUrl` | components/settings.tsx:90 | sets the URL field only |
| `Settings.WordPressSettings.SetWordpressUsername` | components/settings.tsx:99 | sets the username field only |
| `Settings.WordPressSettings.SetWordpressPassword` | components/settings.tsx:109 | sets the password field only |
| `Settings.WordPressSettings.SetIsLoading` | components/settings.tsx:19 | `setIsLoading`: only the busy flag changes |
| `Settings.WordPressSettings.ShowToast` | components/settings.tsx:67-73 | `toast.success` or `toast.error`: the toast is recorded as the last one shown, nothing else changes |
| `Settings.WordPressSettings.Send` | components/settings.tsx:49-56 | issuing the save's `fetch`: the call is appended to the log, nothing else changes |
| `Settings.WordPressSettings.StartSubmit` | components/settings.tsx:30-56 | performs `Begin`; reports whether a call went out, which happens exactly when a truthy token is stored |
| `Settings.WordPressSettings.FinishSubmit` | components/settings.tsx:58-76 | performs `Finish` |
| `Settings.WordPressSettings.HandleSubmit` | components/settings.tsx:30-77 | performs `Submit`, a whole submission |
| `SettingsProperties.MissingTokenFailsFast` | components/settings.tsx:40-45 | without a token: no call, fields unchanged, toast "Authentication token is missing", not loading |
| `SettingsProperties.SaveSendsFieldsVerbatim` | components/settings.tsx:32-56 | with a token, one call carries url, username and password under their wire names, plus the stored token; the form is then loading with its button disabled and its fields untouched |
| `SettingsProperties.EveryResponseClearsCredentials` | components/settings.tsx:58-76 | on any response the three fields become "", the toast reports the outcome, loading ends, no further call |
| `SettingsProperties.SubmitNeverLeavesLoading` | components/settings.tsx:30-77 | every exit path of the handler leaves `isLoading` false |
| `SettingsProperties.FailureTextFallbacks` | components/settings.tsx:60-73 | with no message the toast reads "Something went wrong" (non-ok) or "An error occurred" (thrown) |
| `SettingsProperties.EditTouchesOnlyItsField` | components/settings.tsx:86-110 | each input's `onChange` changes its own field and nothing else |
| `SettingsProperties.CallsMatchResponses` | components/settings.tsx:112-117 | over any feasible run of one mounted form, calls issued equal responses received plus the one still pending |
| `SettingsProperties.AtMostOneSaveInFlight` | components/settings.tsx:112-117 | per mounted form: from a fresh form at most one save is ever unanswered, and none once loading is off |
| `SettingsProperties.OnlyAuthenticatedSaves` | components/settings.tsx:40-56 | every save that goes out carries a non-empty token |

## Behaviour as written

Where the code's behaviour is surprising, the model keeps it:

- A failed login or signup is only written to the console. No notification is raised and nothing changes.
- A signup form submitted without a picture only writes a console error.
- A settings submit with no stored token leaves the three fields as they were. It does not clear them.
- `handleLogin` sets `isAuthenticated` to true whatever token the reply carries. With an empty token, state and storage disagree until the next render's restore signs out again (`LoginWithEmptyTokenIsUndone`).
- The four storage keys are written one `setItem` at a time. Logout calls `localStorage.clear()`.
- Login and signup have no in-flight guard. A new submission does not cancel a pending popup timer, so an earlier timer can hide a later popup.
- The stats effect runs once on mount, whether or not anyone is signed in, and reads the token before any user event. Without a token its header reads `Bearer null`: the request's `bearer` is `None`. A user who signs in afterwards keeps the counters from that one call (`OneStatsCallPerMount`).

## Left out

- Rendering, styling and the UI library components are not modelled. This covers the static counters and the recent-post and keyword lists on the Dashboard view, the header search and bell, and the avatars.
- `fetch`, HTTP headers and JSON parsing are not modelled. Each endpoint's outcome is a `Reply` parameter, and the request is logged as a value.
- `console.log` and `console.error` output is not modelled.
- Timers are not modelled as time. The three-second popup dismissals are the events `PopupTimerFired` and `ErrorPopupTimerFired`, which may occur at any point. The 3000 ms delay is not modelled.
- `new Date(...).toISOString()` depends on the host time zone, so it is a function parameter `toIso`.
- Handlers are not modelled as asynchronous. Each handler runs to completion before the next event. This includes `handleLogin`, which `handleSignup` calls without `await`. Two handlers are also split at their `await`, so that the pending period can be stated: the settings submit (`Begin` and `Finish`) and the stats effect (`IssueStats` on mount, then the `StatsLoaded` response).
- React's batching of `setState` calls is not modelled: a setter applies at once. No handler reads a slot after setting it, so the final state is the same.
- Dashboard.AcceptLogin: does not model login replies whose fields are missing or not strings. JavaScript would store the text "undefined". The model takes the four fields as strings.
- Dashboard.SettleStats: does not model a stats body of another shape. The body is taken to be the two counters.
- The login and signup forms' own `onChange` handlers are not modelled. Their values are parameters of the submit events.
- components/login-layout.tsx, components/signup-layout.tsx and components/api/auth/*.ts are not part of this model. They are routing glue and stub request handlers with no logic to prove.
- Toasts are not modelled as a list. Only the last toast is kept.
- Dashboard.AcceptLogin: does not model a `localStorage.setItem` that throws, for example on a full quota. The storage calls are taken never to throw. In the code, a throw part-way through lines 114-117 would leave some keys written and the three profile slots already set; line 121 only logs it.
- Dashboard.ToSend: does not model `toISOString` throwing `RangeError` on an invalid date, which would happen outside the `try` and reject the handler with no call and no form reset. `toIso` is a total function, on the grounds that a datetime-local input yields only "" or a valid date.
- SettingsProperties.AtMostOneSaveInFlight: holds per mounted form. The dashboard mounts `WordPressSettings` only while "Settings" is the active page (components/dashboard-layout.tsx:428-433). Navigating away during a save unmounts the form, and coming back mounts a fresh one with `isLoading` false, which can submit while the first save is still unanswered. The first response's setters then land on the unmounted instance, but its toast still shows. `SettingsProperties.CallsMatchResponses` has the same per-instance scope.
