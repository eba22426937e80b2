# UnityMedia client logic in Dafny

A model of the client-side logic of the UnityMedia booking site: the session
state container (`AuthProvider`), the sign-in / sign-up / reset dialog, the
dashboard's menu and tab dispatch, the bookings and quotes lists with their
fetches, the profile page, the English/Arabic text lookup and its toggle
button, and the state kept by the home page and the application shell. The
React markup, styling and animations are not modelled.

Files, one module each: `common.dfy` (Option, Result, Outcome), `text.dfy`
(the JavaScript string operations used for display), `table_query.dfy` (the
hosted table store's query, its answer and a reference definition of a correct
answer), `status_badge.dfy`, `auth_context.dfy`, `auth_modal.dfy`,
`dashboard.dfy`, `bookings_list.dfy`, `quotes_list.dfy`,
`profile_settings.dfy`, `language_context.dfy`, `language_switcher.dfy`,
`app.dfy`.

Components that hold React state (`useState`) are classes whose fields are
that state; every setter call becomes an assignment in a method, and the
`modifies` clause of each method says which state it may change. Every call to
the hosted auth or database service is a parameter: a function from the
request to what the awaited promise settled to, so a contract can say both
what was sent and what happens for every answer. An `async` handler that sets
`loading` before an `await` and clears it in `finally` is one method that
asserts `loading` while the awaited call is in flight, or, in the dialog, a
`BeginSubmit` and an `End…` method split at the `await`.

Two behaviours of the code deserve a note: `signOut` does not clear the user
itself (only the auth-change listener does), and `updateProfile` does not
merge fields into the profile but replaces the profile with the one the
service returns.

## Model

| member | source | states |
|---|---|---|
| Auth.AuthProvider.constructor | src/contexts/AuthContext.tsx:26-27 | a new provider has no user and is loading |
| Auth.AuthProvider.FinishInitialLookup | src/contexts/AuthContext.tsx:31 | a resolved lookup sets `user` to its result, a rejected one leaves `user`; `loading` is false either way |
| Auth.AuthProvider.OnAuthStateChange | src/contexts/AuthContext.tsx:34 | the notified user replaces `user`; `loading` cannot change |
| Auth.AuthProvider.SignIn | src/contexts/AuthContext.tsx:39-47 | the outcome is the service's answer to exactly the given credentials, failures rethrown; no provider state can change |
| Auth.AuthProvider.SignUp | src/contexts/AuthContext.tsx:49-57 | the outcome is the service's answer to email, password and full name; no provider state can change |
| Auth.AuthProvider.SignOut | src/contexts/AuthContext.tsx:59-67 | the service's outcome is rethrown; no provider state can change, so the user is cleared only by the listener |
| Auth.AuthProvider.ResetPassword | src/contexts/AuthContext.tsx:80-88 | the outcome is the service's answer for the email; no provider state can change |
| Auth.AuthProvider.UpdateProfile | src/contexts/AuthContext.tsx:69-78 | succeeds iff the service accepts the forwarded updates; then the returned profile replaces the user's, else `user` is unchanged and the message rethrown; `loading` cannot change |
| Auth.WithProfile | src/contexts/AuthContext.tsx:72 | a present user keeps id, email and creation time and gets the new profile; no user stays no user |
| Auth.UseAuth | src/contexts/AuthContext.tsx:17-23 | succeeds iff there is a provider, with that provider; otherwise fails with the source's message |
| AuthDialog.SignInIssues | src/components/auth/AuthModal.tsx:9-12 | no issue iff the email is well-formed and the password has at least 6 characters; each failing check has its issue on its field |
| AuthDialog.SignUpIssues | src/components/auth/AuthModal.tsx:14-22 | no issue iff full name has 2+ characters, email well-formed, password 6+ and equal to the confirmation; a mismatch is reported on the `confirmPassword` path and nothing else is |
| AuthDialog.ResetIssues | src/components/auth/AuthModal.tsx:46-49 | no issue iff the email is well-formed |
| AuthDialog.Check | src/components/auth/AuthModal.tsx:10-11 | one schema check: no issue iff it holds, else one issue on its field |
| AuthDialog.Links | src/components/auth/AuthModal.tsx:184-200 | the sign-in form offers "Forgot password?" and "Sign up"; the other two forms offer only "Sign in" |
| AuthDialog.Target | src/components/auth/AuthModal.tsx:186-340 | "Forgot password?" is the only way to the reset form and "Sign up" the only way to the sign-up form; no rendered button targets the form it is on |
| AuthDialog.StepsAreExactly | src/components/auth/AuthModal.tsx:186-195 | the mode machine's transitions are exactly signin→reset, signin→signup, signup→signin, reset→signin |
| AuthDialog.Render | src/components/auth/AuthModal.tsx:87-123 | nothing is rendered iff the dialog is closed; otherwise the current mode's form, title and switching buttons, with submit disabled iff loading |
| AuthDialog.Title | src/components/auth/AuthModal.tsx:115-117 | `Sign In`, `Create Account` and `Reset Password`, each iff its mode |
| AuthDialog.SubmitLabel | src/components/auth/AuthModal.tsx:180-333 | idle, the sign-in and sign-up buttons repeat the title and the reset button says `Send Reset Email`; in flight, every label differs from the title and ends in `...` |
| AuthDialog.TitleNamesMode | src/components/auth/AuthModal.tsx:115-117 | two modes have the same title iff they are the same mode |
| AuthDialog.AuthModal.constructor | src/components/auth/AuthModal.tsx:30-33 | the dialog starts in its initial mode (never reset), not loading, password hidden |
| AuthDialog.AuthModal.Follow | src/components/auth/AuthModal.tsx:300 | a click on a rendered switching button sets its target mode, which is a step of the machine |
| AuthDialog.AuthModal.ToggleShowPassword | src/components/auth/AuthModal.tsx:158 | the eye button flips password visibility |
| AuthDialog.AuthModal.BeginSubmit | src/components/auth/AuthModal.tsx:52 | a submit raises `loading` before the await |
| AuthDialog.AuthModal.EndSubmit | src/components/auth/AuthModal.tsx:54-60 | after the await `loading` is false; `onClose` is called iff the call succeeded |
| AuthDialog.AuthModal.EndReset | src/components/auth/AuthModal.tsx:78-84 | after the await `loading` is false; the mode becomes signin iff the reset succeeded, else it is unchanged |
| AuthDialog.AuthModal.HandleSignIn | src/components/auth/AuthModal.tsx:51-61 | loading while the sign-in is in flight, false afterwards; closes iff the service accepted the credentials |
| AuthDialog.AuthModal.HandleSignUp | src/components/auth/AuthModal.tsx:63-73 | loading while in flight, false afterwards; closes iff the service accepted email, password and full name |
| AuthDialog.AuthModal.HandleReset | src/components/auth/AuthModal.tsx:75-85 | loading while in flight, false afterwards; mode becomes signin iff the reset succeeded |
| DashboardNav.IsAdmin | src/components/dashboard/Dashboard.tsx:35 | holds iff there is a user with a profile whose role is `admin` |
| DashboardNav.NavItems | src/components/dashboard/Dashboard.tsx:18-37 | the 4 client items always come first; an admin sees 8 items, the last 4 the admin items; a non-admin sees exactly the 4 |
| DashboardNav.NavIdsDistinct | src/components/dashboard/Dashboard.tsx:18-30 | no two items of a sidebar share an id |
| DashboardNav.RenderContent | src/components/dashboard/Dashboard.tsx:39-52 | bookings, quotes and profile have their own views; every other id gives the overview |
| DashboardNav.AdminTabsShowOverview | src/components/dashboard/Dashboard.tsx:25-30 | every admin item shows the overview |
| DashboardNav.ClientTabsShowDistinctViews | src/components/dashboard/Dashboard.tsx:18-23 | the four client items show four different views |
| DashboardNav.Dashboard.constructor | src/components/dashboard/Dashboard.tsx:34 | the active tab starts as `overview`, an id of the sidebar |
| DashboardNav.Dashboard.Select | src/components/dashboard/Dashboard.tsx:70 | clicking a rendered item makes its id the active tab, which stays an id of some sidebar |
| TableQuery.Received | src/components/dashboard/BookingsList.tsx:54-55 | an error leaves the list unchanged; otherwise the list becomes the data, or `[]` when there is none |
| TableQuery.OwnedBy | src/components/dashboard/BookingsList.tsx:51 | keeps exactly the rows owned by the user, each as often as in the table |
| TableQuery.SelectIsAnswer | src/components/dashboard/BookingsList.tsx:48-52 | the reference query (filter, then sort newest first) is a correct answer: the user's rows, newest first |
| TableQuery.AnswersExist | src/components/dashboard/BookingsList.tsx:48-52 | every request on an existing table with known column names has a correct answer |
| TableQuery.InsertPermutes | src/components/dashboard/BookingsList.tsx:52 | inserting into the sorted rows adds exactly the one row |
| TableQuery.InsertKeepsOrder | src/components/dashboard/BookingsList.tsx:52 | inserting into newest-first rows keeps them newest first |
| TableQuery.SortPermutes | src/components/dashboard/BookingsList.tsx:52 | sorting is a permutation |
| TableQuery.SortOrders | src/components/dashboard/BookingsList.tsx:52 | sorting yields newest-first rows |
| TableQuery.AnswerHoldsExactlyOwnRows | src/components/dashboard/QuotesList.tsx:48-52 | a correct answer holds only the user's rows and all of them |
| TableQuery.NoRowsGivesEmptyAnswer | src/components/dashboard/QuotesList.tsx:48-52 | a user without rows gets the empty list, not an error |
| TableQuery.ScreenOf | src/components/dashboard/BookingsList.tsx:64-98 | spinner iff loading, whatever the rows; then the empty state iff there are no rows, else every row |
| Text.Slice | src/components/dashboard/BookingsList.tsx:113 | the first 8 characters (or all when shorter), a prefix of the id |
| Text.FirstIndex | src/components/dashboard/BookingsList.tsx:121 | the position of the first occurrence, or the length when there is none |
| Text.FirstIndexSplit | src/components/dashboard/BookingsList.tsx:121 | with no occurrence before it, the first occurrence is the one just after the prefix |
| Text.ReplaceFirst | src/components/dashboard/BookingsList.tsx:121 | same length; only the first occurrence is replaced |
| Text.ReplaceFirstReplacesAll | src/components/dashboard/BookingsList.tsx:121 | when the character occurs at most once, every occurrence is replaced |
| Text.ReplaceFirstSplit | src/components/dashboard/BookingsList.tsx:121 | the text before the first occurrence and everything after it are kept; only that character changes |
| Text.ToUpper | src/components/dashboard/QuotesList.tsx:121 | same length, each character upper-cased |
| Text.UpperChar | src/components/dashboard/QuotesList.tsx:121 | lower-case ASCII letters map to their capitals, everything else to itself |
| Text.OrEmpty | src/components/dashboard/ProfileSettings.tsx:25-27 | a present value is kept; absence or `''` gives `''` |
| Bookings.ParseStatus | src/components/dashboard/BookingsList.tsx:14 | a stored name parses only to the status with that name |
| Bookings.StatusRoundTrip | src/components/dashboard/BookingsList.tsx:14 | each of the five statuses parses back from its name |
| Bookings.TonesDistinct | src/components/dashboard/BookingsList.tsx:19-25 | the colour map is total and gives the five statuses five colours |
| Bookings.StatusTone | src/components/dashboard/BookingsList.tsx:19-25 | yellow iff pending, blue iff confirmed, green iff in progress, gray iff completed, red iff cancelled |
| Bookings.StatusIcon | src/components/dashboard/BookingsList.tsx:27-33 | clock iff pending, check-circle iff confirmed or completed, calendar iff in progress, x-circle iff cancelled; never the document icon |
| StatusBadge.ToneClasses | src/components/dashboard/BookingsList.tsx:19-25 | each class pair is the `-100` background and the `-800` text of one colour family |
| Bookings.SharedIcons | src/components/dashboard/BookingsList.tsx:27-33 | the icon map is total; only confirmed and completed share an icon |
| Bookings.StatusLabel | src/components/dashboard/BookingsList.tsx:121 | the label is the name upper-cased with its underscore shown as a space |
| Bookings.InProgressLabel | src/components/dashboard/BookingsList.tsx:121 | `in_progress` is labelled `IN PROGRESS` |
| Bookings.Header | src/components/dashboard/BookingsList.tsx:113 | `Booking #` followed by the first 8 characters of the id |
| Bookings.CardOf | src/components/dashboard/BookingsList.tsx:110-158 | the card shows header, badge and item count; the Cancel button appears iff the booking is pending |
| Bookings.Request | src/components/dashboard/BookingsList.tsx:48-52 | the query asks the `bookings` table for the rows whose owner column is the user's id, newest `created_at` first |
| Bookings.FetchedBookingsAreTheUsers | src/components/dashboard/BookingsList.tsx:48-55 | when the store answers `Request(uid)` correctly (`TableQuery.Answers`), the list holds exactly the user's rows of the `bookings` table, newest first, and is empty for a user without bookings |
| Bookings.BookingsList.constructor | src/components/dashboard/BookingsList.tsx:37-38 | no bookings, loading |
| Bookings.BookingsList.FetchBookings | src/components/dashboard/BookingsList.tsx:44-62 | without a user nothing changes; otherwise the answer to the user's query is received and `loading` is false |
| Bookings.SpinnerWithoutUser | src/components/dashboard/BookingsList.tsx:38-45 | without a user the page stays on the spinner |
| Quotes.ParseStatus | src/components/dashboard/QuotesList.tsx:14 | a stored name parses only to the status with that name |
| Quotes.StatusRoundTrip | src/components/dashboard/QuotesList.tsx:14 | each of the five statuses parses back from its name |
| Quotes.TonesDistinct | src/components/dashboard/QuotesList.tsx:19-25 | the colour map is total and gives the five statuses five colours |
| Quotes.StatusTone | src/components/dashboard/QuotesList.tsx:19-25 | gray iff draft, blue iff sent, green iff approved, red iff rejected, yellow iff expired |
| Quotes.StatusIcon | src/components/dashboard/QuotesList.tsx:27-33 | document iff draft, clock iff sent or expired, check-circle iff approved, x-circle iff rejected; never the calendar icon |
| Quotes.SharedIcons | src/components/dashboard/QuotesList.tsx:27-33 | the icon map is total; only sent and expired share an icon |
| Quotes.StatusLabel | src/components/dashboard/QuotesList.tsx:121 | the label is the name in capitals, letter for letter |
| Quotes.CardOf | src/components/dashboard/QuotesList.tsx:110-161 | the amount is shown iff present and nonzero, the validity date iff present and non-empty; the Accept button appears iff the quote is approved |
| Quotes.Request | src/components/dashboard/QuotesList.tsx:48-52 | the query asks the `quotes` table for the rows whose owner column is the user's id, newest `created_at` first |
| Quotes.FetchedQuotesAreTheUsers | src/components/dashboard/QuotesList.tsx:48-55 | when the store answers `Request(uid)` correctly (`TableQuery.Answers`), the list holds exactly the user's rows of the `quotes` table, newest first, and is empty for a user without quotes |
| Quotes.QuotesList.constructor | src/components/dashboard/QuotesList.tsx:37-38 | no quotes, loading |
| Quotes.QuotesList.FetchQuotes | src/components/dashboard/QuotesList.tsx:44-62 | without a user nothing changes; otherwise the answer to the user's query is received and `loading` is false |
| Quotes.SpinnerWithoutUser | src/components/dashboard/QuotesList.tsx:38-45 | without a user the page stays on the spinner |
| Profiles.ProfileIssues | src/components/dashboard/ProfileSettings.tsx:10-14 | valid iff the full name has at least 2 characters; company name and phone are never checked |
| Profiles.DefaultValues | src/components/dashboard/ProfileSettings.tsx:24-28 | each default is the profile's field when present and non-empty, otherwise `''` |
| Profiles.DisplayRole | src/components/dashboard/ProfileSettings.tsx:135 | the profile's role, or `Client` when it is absent or empty; never empty |
| Profiles.MemberSinceOf | src/components/dashboard/ProfileSettings.tsx:142 | the creation date, or N/A iff there is no user or no creation date |
| Profiles.ProfileSettings.constructor | src/components/dashboard/ProfileSettings.tsx:20 | not loading |
| Profiles.ProfileSettings.HandleSubmit | src/components/dashboard/ProfileSettings.tsx:31-40 | the form data goes unchanged to `updateProfile`; the user changes exactly as that call says; `loading` is false afterwards whatever the outcome |
| Languages.SameKeys | src/contexts/LanguageContext.tsx:12-109 | the English and Arabic tables have the same key set |
| Languages.Lookup | src/contexts/LanguageContext.tsx:117-119 | the table's text when the key is present with non-empty text, otherwise the key |
| Languages.FallbackAgrees | src/contexts/LanguageContext.tsx:11-119 | a key falls back in English iff it falls back in Arabic, iff it is not a table key |
| Languages.LanguageProvider.constructor | src/contexts/LanguageContext.tsx:115 | the language starts as English |
| Languages.LanguageProvider.SetLanguage | src/contexts/LanguageContext.tsx:115 | the language becomes the one given, always English or Arabic |
| Languages.LanguageProvider.T | src/contexts/LanguageContext.tsx:117-119 | a table key gives its non-empty text in the current language; any other key gives itself |
| Languages.UseLanguage | src/contexts/LanguageContext.tsx:128-133 | succeeds iff there is a provider; otherwise fails with the source's message |
| LanguageToggle.Toggle | src/components/LanguageSwitcher.tsx:9 | a click always switches to the other language |
| LanguageToggle.ToggleTwice | src/components/LanguageSwitcher.tsx:9 | two clicks give back the original language |
| LanguageToggle.ButtonLabel | src/components/LanguageSwitcher.tsx:12 | the label is the native name of the language a click switches to, never of the current one |
| LanguageToggle.Click | src/components/LanguageSwitcher.tsx:9 | the provider's language becomes the other one |
| Shell.ContentScreen | src/App.tsx:35-50 | the spinner while loading whatever the user; then the dashboard iff there is a user, else the home page |
| Shell.FirstScreen | src/App.tsx:31-41 | right after mounting the spinner is shown |
| Shell.ClickPackage | src/App.tsx:499 | clicking the open package closes it; clicking any other opens exactly that one |
| Shell.HomePage.constructor | src/App.tsx:58-60 | menu closed, no package selected, category `cameras` |
| Shell.HomePage.ScrollToSection | src/App.tsx:64-70 | the mobile menu is closed afterwards, whether or not the target exists |
| Shell.HomePage.ToggleMenu | src/App.tsx:205 | the menu button flips `isMenuOpen` |
| Shell.HomePage.SelectPackage | src/App.tsx:499-506 | the selection follows `ClickPackage` and stays a package name |
| Shell.HomePage.SelectCategory | src/App.tsx:323-328 | the shown category becomes the clicked key, always a key of the category table |
| Shell.HomePage.CategoryIndex | src/App.tsx:346 | the shown category's lookup always finds an entry |
| Shell.AppContent.constructor | src/App.tsx:32-33 | `AppContent`'s own flag starts closed and its mode `signin` |
| Shell.AppContent.OnAuthOpen | src/App.tsx:47-50 | the home page's buttons set `AppContent`'s own flag and mode |
| Shell.App.constructor | src/App.tsx:1019-1020 | the rendered dialog starts closed (`Closed`), in sign-in mode |
| Shell.App.CloseAuthModal | src/App.tsx:1032 | the only assignment to the flag keeps the dialog closed (`Closed`) |
| Shell.App.Dialog | src/App.tsx:1030-1034 | while `App` is `Closed`, which its constructor and its only method keep, the dialog it renders is nothing, whatever state the dialog is in |
| Shell.SignInClickAsWritten | src/App.tsx:47-50 | as written, a Sign In click leaves the rendered dialog closed |
| Shell.WiredApp.constructor | src/App.tsx:1019-1020 | corrected wiring: the dialog starts closed, in sign-in mode |
| Shell.WiredApp.CloseAuthModal | src/App.tsx:1032 | corrected wiring: closing clears the flag |
| Shell.WiredApp.OpenAuthModal | src/App.tsx:47-50 | corrected wiring: the buttons set the flag and mode the rendered dialog reads |
| Shell.SignInClickCorrected | src/App.tsx:1030-1034 | corrected, a Sign In click shows the dialog's sign-in form, enabled |
| Shell.GetStartedClickCorrected | src/components/auth/AuthModal.tsx:31 | even with the corrected wiring, Get Started shows the sign-in form: the mounted dialog read `initialMode` once |

## Findings

| source | as written | input that shows it | evidently intended | confidence | as-written member | corrected member |
|---|---|---|---|---|---|---|
| src/App.tsx:47-50 | the home page's Sign In and Get Started buttons call `AppContent`'s `onAuthOpen`, which sets `AppContent`'s own `authModalOpen`; no dialog reads it, and the only rendered `AuthModal` (in `App`, line 1030-1034) reads `App`'s flag, which is only ever set to false | click Sign In on the home page: no dialog appears, so no one can sign in or sign up | the buttons open the rendered auth dialog; the corrected wiring establishes this for Sign In only, since the mounted dialog reads `initialMode` once (src/components/auth/AuthModal.tsx:31) and Get Started then still shows the sign-in form (Shell.GetStartedClickCorrected) | not executed | Shell.SignInClickAsWritten | Shell.WiredApp.OpenAuthModal, Shell.SignInClickCorrected |

## Left out

- Rendering, CSS classes, icons as pictures, animations: visual only. Status colours are modelled as colour families and icons as names.
- The calls into the hosted auth and database services: each is a function parameter giving the settled outcome. What the service itself does (accounts, sessions, tokens, rows) is not modelled.
- Concurrency: the race between overlapping async operations, and the subscription made at line 34 of src/contexts/AuthContext.tsx and released at line 36. Each handler is modelled as running to completion.
- Toast notifications and `console.error`: side effects with no state.
- Email well-formedness: the schema library's regular expression is a parameter `isEmail`.
- The schema library's exact issue ordering and its behaviour on non-string inputs: the forms always supply strings; the sign-up refinement is modelled as running beside the field checks.
- AuthDialog.SignInIssues, AuthDialog.SignUpIssues, Profiles.ProfileIssues, Text.Slice: string length and `slice` positions are counted in Unicode scalar values, while JavaScript counts UTF-16 code units; they differ for characters outside the Basic Multilingual Plane (the ids cut by `slice` are ASCII).
- Languages.LanguageProvider.T, Languages.FallbackAgrees: the translation tables are plain JavaScript objects, so a key inherited from `Object.prototype` (`toString`, `constructor`, ...) finds a function there and `t` returns that function, not the key; the model treats every key outside the table as missing. No call site passes such a key.
- Text.ToUpper: upper-cases ASCII letters only, where JavaScript's `toUpperCase` covers all of Unicode; the status names it is applied to are ASCII.
- Dates and amounts: `format`, `toLocaleString`, `toLocaleDateString` are locale-dependent formatting. Creation times are integers, so the store's `created_at` ordering is integer order; amounts are integers (floating point and NaN are left out).
- Quotes.CardOf: hides an amount of 0, as the `&&` guard intends; React then renders the number 0 itself as text, which the model does not represent.
- The marketing copy and the translation texts: the tables are constructor arguments with exactly the source's key sets and non-empty texts.
- The DOM scrolling of `scrollToSection`: only its effect on the menu is modelled.
- The HomePage's own `authModalOpen` and `authMode` (src/App.tsx:61-62) are never read or set and are not modelled.
- The `AuthModal`'s mode comes from `initialMode` only when it is mounted; later changes to the prop do not reach it, and the model's constructor likewise reads it once.
- The dashboard overview panel, the equipment and package catalogs' contents, and the `user_id` of rows beyond its use in the query.
