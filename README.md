# HomeTaste front end: subscription and address logic in Dafny

HomeTaste is a home-cooked meal subscription site. Its React front end sits over a
hosted backend: the backend holds accounts, sessions and the `subscriptions` and
`delivery_addresses` tables. The front end still makes a handful of decisions of its
own, and this project models them and proves what they guarantee:

- **Plans and records** (`src/lib/auth.ts`). Plan pricing (day 299, week 1499,
  month 4999) and durations (1, 7 and 30 days) set the `active_until` timestamp.
  `createSubscription` builds the subscription record. `createDeliveryAddress`
  refuses to insert an address when nobody is signed in. Module `Auth`.
- **Pincode validation** (`src/components/AddressForm.tsx`). The address form
  accepts a pincode when `parseInt(pincode)` lies in 600001..600100, and the input
  also carries an HTML `pattern`. Module `AddressForm`. `parseInt` without a radix
  (section 19.2.5 of ECMA-262) is modelled in module `EcmaParseInt`.
- **Subscription list** (`src/components/SubscriptionManage.tsx`). This covers the
  Active/Expired status, the plan icon, the capitalised plan title, and the
  loading / empty / cards states of the "Your Subscriptions" page. Module
  `SubscriptionManage`.
- **Session and routing** (`src/App.tsx`). The `user` field follows session events.
  The route table guards pages behind sign-in. `handleSubscribe` refuses to
  subscribe without a user. Module `App`.
- **OAuth callback** (`src/components/AuthCallback.tsx`). The outcome of
  `getSession` decides the single navigation the callback page makes. Module
  `AuthCallback`.

The backend is not modelled. Module `Backend` holds its rows and a `Database` class.
The class has the two tables and whatever `getUser` currently answers. Every answer
the backend gives is a parameter: the session, the insert error, the fetched rows and
the new row's id. `Date.now()` is a parameter `now`, in integer milliseconds.

The code behaves as follows where a reader might expect otherwise:

- `createSubscription` does not refuse an absent user. It stores `"Anonymous"` and
  no e-mail.
- The delivery address of a subscription is never checked against the user's
  addresses. Through the plan dialog it is `undefined`.
- On a session error the callback page navigates to `/error`, which is not a
  declared route, rather than back to the login page.
- With no session and no error, the callback page does not navigate at all.
- The pincode check is `parseInt` followed by a range check. It is not a strict
  "six digits" test: `"600050abc"`, `"0x927C1"` and `"0600050"` pass.

## Model

| member | source | states |
|---|---|---|
| Auth.ActiveUntil | src/lib/auth.ts:92-94 | the expiry of every plan lies strictly after the moment of subscribing |
| Auth.PlanTables | src/lib/auth.ts:71-81 | the price table is day 299, week 1499, month 4999; the duration table is 1, 7, 30 days; a day is 86 400 000 ms |
| Auth.MonthIsThirtyDays | src/lib/auth.ts:92-94 | the month plan always runs exactly 30 × 86 400 000 ms, whatever the calendar month |
| Auth.LongerPlansCostMore | src/lib/auth.ts:71-81 | across day < week < month, price, duration and expiry all increase strictly |
| Auth.SubscriptionRecordFields | src/lib/auth.ts:83-96 | the inserted record has user_id = the argument, user_name and user_email from the current user (UserName, UserEmail), the period, the table price, expiry = now + days·86 400 000, "All Cuisines" when no cuisine is passed (a given cuisine unchanged), and the address id unchanged |
| Auth.SubscriptionWithoutUser | src/lib/auth.ts:68-87 | with nobody signed in the record is still built: name "Anonymous", no e-mail, user_id the argument |
| Auth.SubscriptionNamesUser | src/lib/auth.ts:86-87 | a signed-in user's non-empty full name is stored; an empty or missing one falls back to "Anonymous"; the e-mail is the user's |
| Auth.WeekBengaliScenario | src/lib/auth.ts:83-96 | a week plan with cuisine "Bengali" for user "u1" stores price 1499, period "week" and seven days of access |
| Auth.AddressRoundTrip | src/lib/auth.ts:43-50 | the five address fields read back unchanged from the stored row, whose user_id is the user's id |
| Auth.Price | src/lib/auth.ts:71-75 | the price table; PlanTables and LongerPlansCostMore state its values and order |
| Auth.DurationInDays | src/lib/auth.ts:77-81 | the duration table; PlanTables and LongerPlansCostMore state its values and order |
| Auth.UserName | src/lib/auth.ts:86 | the full name, or "Anonymous" when it is missing or empty; SubscriptionNamesUser and SubscriptionWithoutUser state both branches |
| Auth.UserEmail | src/lib/auth.ts:87 | the signed-in user's e-mail, undefined without a user; SubscriptionNamesUser and SubscriptionWithoutUser state it |
| Auth.SubscriptionRecord | src/lib/auth.ts:83-96 | the inserted record; SubscriptionRecordFields states every field |
| Auth.DeliveryAddressOutcome | src/lib/auth.ts:35-59 | "not authenticated" (message "User not authenticated") exactly when there is no user; success exactly when there is a user and the insert succeeds; a backend error is rethrown; on success the row carries the five fields, the user's id and the new id |
| Auth.CreateDeliveryAddress | src/lib/auth.ts:28-60 | returns that outcome and appends the row to the address table exactly on success; otherwise the table is unchanged |
| Auth.CreateSubscription | src/lib/auth.ts:62-103 | appends the subscription record built from the arguments, the current user and now, unless the insert fails, in which case it rethrows and the table is unchanged |
| EcmaParseInt.DigitValue | src/components/AddressForm.tsx:34 | a character's digit value is below 10 exactly for the decimal digits and never above 36 |
| EcmaParseInt.TrimStart | src/components/AddressForm.tsx:34 | the trimmed string is no longer than the input and does not start with white space |
| EcmaParseInt.TrimStartRemovesWhiteSpace | src/components/AddressForm.tsx:34 | trimming removes a prefix made only of white space and keeps the rest |
| EcmaParseInt.DigitPrefixIsLongest | src/components/AddressForm.tsx:34 | the digit prefix read consists of digits of the radix and is followed by the end or by a non-digit |
| EcmaParseInt.DecimalPrefix | src/components/AddressForm.tsx:34 | white space, a decimal run (leading zeros allowed, "0" followed by "x" or "X" excluded), then a non-digit: parseInt is the run's decimal value, whatever follows |
| EcmaParseInt.SignedDecimalPrefix | src/components/AddressForm.tsx:34 | the same run after "-" gives the negated value, and after "+" the same value |
| EcmaParseInt.HexPrefix | src/components/AddressForm.tsx:34 | "0x" or "0X" and a hexadecimal run: parseInt is the run's hexadecimal value |
| EcmaParseInt.SignedHexPrefix | src/components/AddressForm.tsx:34 | the same after a sign: "+0x927C1" is 600001 and "-0x1A" is -26 |
| EcmaParseInt.SignedHexWithoutDigits | src/components/AddressForm.tsx:34 | a sign and "0x" with no hexadecimal digit after it: parseInt is NaN |
| EcmaParseInt.ValueLeadingZero | src/components/AddressForm.tsx:34 | a leading "0" does not change the value of a digit run |
| EcmaParseInt.ParseInt | src/components/AddressForm.tsx:34 | a blank string is NaN, and a negative result comes only after a leading "-"; after leading white space the input starts with nothing or a non-sign non-digit (NoDigits), a decimal digit (DecimalPrefix, or HexPrefix and HexWithoutDigits after "0x"), or a sign (SignedDecimalPrefix, SignWithoutDigits, SignedHexPrefix, SignedHexWithoutDigits), and those lemmas give the value for each case |
| EcmaParseInt.NoDigits | src/components/AddressForm.tsx:34 | white space, then nothing or a character that is neither a sign nor a digit: parseInt is NaN (this includes "" and "   ") |
| EcmaParseInt.SignWithoutDigits | src/components/AddressForm.tsx:34 | a sign not followed by a decimal digit ("-", "+x"): parseInt is NaN |
| EcmaParseInt.HexWithoutDigits | src/components/AddressForm.tsx:34 | "0x" or "0X" not followed by a hexadecimal digit: parseInt is NaN |
| EcmaParseInt.ValueBelowPow | src/components/AddressForm.tsx:34 | a run of k digits of a radix has a value below radix^k |
| EcmaParseInt.ShortInputBelow600001 | src/components/AddressForm.tsx:34-35 | when at most five characters remain after leading white space, parseInt is NaN or below 600001 |
| AddressForm.PincodeAccepted | src/components/AddressForm.tsx:34-35 | the script check; an accepted pincode has at least six characters after leading white space. Its verdict by value is AcceptedByValue |
| AddressForm.MatchesPattern | src/components/AddressForm.tsx:81 | the `pattern` attribute as a predicate; PatternPincode, PatternValue and BothChecksOnlyAdmit state that it admits exactly "600000".."600099" |
| AddressForm.RequiredFieldsPresent | src/components/AddressForm.tsx:47-84 | the `required` attributes of address line 1, area and pincode; RequiredOnlyByAttributes shows the script does not enforce them |
| AddressForm.EmptyPincodeRejected | src/components/AddressForm.tsx:34-35 | an empty pincode fails the pattern predicate and the script check |
| AddressForm.NaNPincodesRejected | src/components/AddressForm.tsx:34-35 | "", "   ", "-", "+x" and "0x" parse to NaN and are rejected |
| AddressForm.Submit | src/components/AddressForm.tsx:33-41 | the address is submitted exactly when the pincode passes the parseInt range check, with the fields as read; otherwise it is rejected with the Chennai pincode message |
| AddressForm.Form.constructor | src/components/AddressForm.tsx:18-19 | the form starts with no error and no submission, with `loading` as given |
| AddressForm.Form.HandleSubmit | src/components/AddressForm.tsx:22-42 | on acceptance error becomes "" and the address is handed on once; on rejection error becomes the message and nothing is handed on |
| AddressForm.SubmitButtonFor | src/components/AddressForm.tsx:94-96 | the button is disabled exactly while loading and reads "Saving..." exactly while loading |
| AddressForm.AcceptedByValue | src/components/AddressForm.tsx:34-35 | a pincode whose parseInt is a number is accepted exactly when that number is in 600001..600100 |
| AddressForm.SixDigitPincode | src/components/AddressForm.tsx:34-35 | white space, six decimal digits (a leading 0 allowed), then a non-digit: parseInt is the six-digit value, and acceptance is its range check |
| AddressForm.HexPincode | src/components/AddressForm.tsx:34 | parseInt("0x927C1") is 600001 |
| AddressForm.LeadingZeroPincode | src/components/AddressForm.tsx:34-35 | "0600050" parses to 600050, so the script check accepts it, while the pattern rejects it |
| AddressForm.LenientPincodesAccepted | src/components/AddressForm.tsx:34-35 | "600050abc", " 600050", "600050.9" and "0x927C1" all pass the script check |
| AddressForm.OutOfRangePincodesRejected | src/components/AddressForm.tsx:34-35 | "abcde", "599999" and "600101" fail the script check |
| AddressForm.OnlyPincodeInspected | src/components/AddressForm.tsx:25-41 | two addresses with the same pincode get the same verdict, whatever their other fields |
| AddressForm.RequiredOnlyByAttributes | src/components/AddressForm.tsx:47-84 | an address with empty line 1 and area and a valid pincode passes the script check but not the `required` attributes |
| AddressForm.PatternPincode | src/components/AddressForm.tsx:81 | every number from 600000 to 600099, written out, matches the pattern |
| AddressForm.PatternValue | src/components/AddressForm.tsx:81 | a string matching `^6000[0-9]{2}$` parses to 600000 plus its last two digits |
| AddressForm.PatternThenScript | src/components/AddressForm.tsx:81 | among strings the pattern admits, the script check rejects exactly "600000" |
| AddressForm.BothChecksAdmit | src/components/AddressForm.tsx:81 | every pincode 600001..600099 passes both the pattern and the script check |
| AddressForm.BothChecksOnlyAdmit | src/components/AddressForm.tsx:81 | a string passing both checks is the six-digit form of a number in 600001..600099 |
| AddressForm.ChecksDisagreeAtTheEnds | src/components/AddressForm.tsx:81 | "600000" passes the pattern but not the script check; "600100" passes the script check but not the pattern |
| SubscriptionManage.StatusAt | src/components/SubscriptionManage.tsx:121-125 | Active exactly when active_until is strictly after now; equality is Expired |
| SubscriptionManage.PlanIcon | src/components/SubscriptionManage.tsx:40-51 | CalendarDays exactly for "week", Calendar exactly for "month", Clock for every other period |
| SubscriptionManage.IconsOfPlans | src/components/SubscriptionManage.tsx:40-51 | the three plans get Clock, CalendarDays and Calendar |
| SubscriptionManage.Capitalize | src/components/SubscriptionManage.tsx:95-96 | the title keeps the length, upper-cases the first character and leaves the rest unchanged |
| SubscriptionManage.PlanTitles | src/components/SubscriptionManage.tsx:95-96 | "day", "week" and "month" become "Day", "Week" and "Month"; "" stays "" |
| SubscriptionManage.CapitalizeIdempotent | src/components/SubscriptionManage.tsx:95-96 | capitalising twice is capitalising once |
| SubscriptionManage.CardOf | src/components/SubscriptionManage.tsx:90-126 | the card of one row; CardShowsRow states its fields |
| SubscriptionManage.CardShowsRow | src/components/SubscriptionManage.tsx:91-126 | a card shows the row's id, price and plan icon, the title is exactly Capitalize(period) followed by " Plan" (first letter upper-cased, the rest of the period unchanged), and the status text and colour agree: green "Active" exactly while active_until is after now, red "Expired" otherwise |
| SubscriptionManage.Render | src/components/SubscriptionManage.tsx:61-90 | the loading screen exactly while loading; the "no active subscriptions" card exactly when the loaded list is empty; otherwise one card per row, in the list's order |
| SubscriptionManage.ExpiredListShowsCards | src/components/SubscriptionManage.tsx:77-90 | a non-empty list whose rows are all expired shows cards marked "Expired", not the empty-state message |
| SubscriptionManage.ExpiredStaysExpired | src/components/SubscriptionManage.tsx:121-125 | once expired, a subscription stays expired at every later time |
| SubscriptionManage.ActiveForThePlanDuration | src/components/SubscriptionManage.tsx:121-125 | a subscription made at t shows Active for t ≤ now < t + days·86 400 000 and Expired from then on |
| SubscriptionManage.SubscriptionList.constructor | src/components/SubscriptionManage.tsx:17-18 | the page starts loading with an empty list |
| SubscriptionManage.SubscriptionList.FetchSubscriptions | src/components/SubscriptionManage.tsx:24-38 | after a fetch loading is off; the list is the data (or [] for null data) on success and unchanged on error |
| App.UserOf | src/App.tsx:20 | the user is present exactly when there is a session, and is that session's user |
| App.UserAfter | src/App.tsx:19-28 | the user after a run of session reports; LastReportWins and ReportsCompose state how it behaves |
| App.LastReportWins | src/App.tsx:19-28 | after any non-empty run of session reports the user is the one the last report gives |
| App.ReportsCompose | src/App.tsx:19-28 | processing two runs of reports one after the other is processing their concatenation |
| App.AppState.constructor | src/App.tsx:14 | the app starts with no user, no listener and no toasts |
| App.AppState.Mount | src/App.tsx:24-28 | mounting starts listening to auth changes |
| App.AppState.OnInitialSession | src/App.tsx:19-21 | the initial session sets the user to the session's user or none |
| App.AppState.OnAuthStateChange | src/App.tsx:24-28 | while listening an auth event sets the user to the event's session user or none; after unmount it changes nothing |
| App.AppState.Unmount | src/App.tsx:30 | unmounting releases the auth-change listener |
| App.SubscribeToast | src/App.tsx:39-60 | "Please login" without a user; "Subscription failed" when the insert fails; "Subscription successful!" naming the plan otherwise; destructive exactly in the first two cases |
| App.AppState.HandleSubscribe | src/App.tsx:33-61 | shows that toast; without a user the subscription table is untouched; with one, createSubscription's record for user.id and the call's arguments is appended unless the insert fails |
| App.NoUserNoSubscription | src/App.tsx:39-46 | without a user the toast is the destructive "Please login", whatever the plan |
| App.DialogSubscriptionDefaults | src/components/SubscriptionDialog.tsx:84 | a plan chosen in the dialog reaches createSubscription with no cuisine and no address, so the record stores "All Cuisines", no address and the plan's price |
| App.DialogChoosePlan | src/components/SubscriptionDialog.tsx:84 | the dialog's `onSubscribe(plan.id)`; DialogSubscriptionDefaults states what it stores |
| App.MatchRoute | src/App.tsx:66-92 | a path that matches `/chef/:id` is "/chef/" followed by that id, which is non-empty and has no "/"; GuardedRoutes gives the converse |
| App.Element | src/App.tsx:67-91 | a redirect goes to "/" when signed in and to "/login" when not; the login page renders only when signed out; home, subscriptions and chef pages render only when signed in |
| App.RouteView | src/App.tsx:66-92 | home, subscriptions and chef pages are never shown to a signed-out visitor; nothing is shown exactly when no route matches |
| App.GuardedRoutes | src/App.tsx:67-90 | "/", "/subscriptions" and "/chef/:id" render their page exactly when signed in, and otherwise redirect to "/login" |
| App.LoginAndCallbackRoutes | src/App.tsx:77-91 | "/login" renders Login exactly when signed out and otherwise redirects to "/"; "/auth/callback" always renders the callback page |
| App.NoRedirectLoop | src/App.tsx:66-92 | for a fixed user, a redirect always lands on a route that renders a page |
| App.ErrorPathUnmatched | src/App.tsx:66-92 | "/error" matches no declared route |
| AuthCallback.HandleAuthRedirect | src/components/AuthCallback.tsx:10-30 | at most one navigation, always with replace; none exactly when there is no session and no error; "/" for a session; "/error" for an error or a throw |
| AuthCallback.SessionTargetIsHome | src/components/AuthCallback.tsx:22-25 | a found session navigates to "/", which renders the home page when the user is signed in and otherwise redirects to "/login" |
| AuthCallback.ErrorTargetMatchesNoRoute | src/components/AuthCallback.tsx:14-28 | the error target of the callback matches no declared route |

## Left out

- Backend calls (`getSession`, `getUser`, `onAuthStateChange`, `signInWithOAuth`, `signOut`, `insert`, `select`) are not modelled. Their answers are parameters or the `Database` fields. `signInWithGoogle`, `signOut` and `getCurrentUser` in `src/lib/auth.ts` only forward to these calls and are left out.
- A failed insert is assumed to store nothing. Throws from `getUser` or from the network inside `createSubscription` are not modelled; only the insert's error is.
- The `created_at` descending sort is the backend's job. The model shows rows in the order they arrive.
- `toISOString` and `toLocaleDateString` are not modelled. Timestamps are integer milliseconds, so an unparsable `active_until` string (an invalid `Date`, whose comparison is false, so "Expired") cannot arise.
- Promise ordering, `useEffect` and re-render timing are not modelled. Each handler is one atomic step. The app's `user` and the backend's `getUser` answer are kept as separate state.
- Presentational components (HeroSection, MealCard, MealGrid, SubscriptionFAB, NavMenu, Login, LoginDialog, home, SubscriptionDialog apart from its `onSubscribe` call) and ChefProfile are not modelled. They hold markup, static data and two backend selects.
- DOM constraint validation and `FormData` extraction are browser behaviour. The `pattern` and `required` attributes enter only as predicates (`MatchesPattern`, `RequiredFieldsPresent`).
- OAuth token parsing happens inside the backend SDK and is not modelled.
- Console logging is not modelled.
- EcmaParseInt.ParseInt: results are exact integers. The rounding of a digit run longer than 2^53 to a double, and the distinction between -0 and 0, are not modelled. Neither can move a value into or out of 600001..600100.
- EcmaParseInt.ParseInt: characters are Unicode scalar values, not UTF-16 code units. A lone surrogate cannot be written.
- SubscriptionManage.CardOf: one instant `now` is used for every card and for both the status text and its colour. The page calls `new Date()` separately for the colour (line 121) and the text (line 123) of each card, and the colour is computed first. A card rendered as its `active_until` passes could therefore show a green "Expired". This is not modelled.
- SubscriptionManage.CardShowsRow: the agreement of status text and colour it states holds only because of the single instant described for CardOf; the page itself can show a green "Expired".
- SubscriptionManage.Capitalize: upper-cases only ASCII a-z. The full Unicode mapping of `toUpperCase` (for instance "ß" to "SS", which lengthens the string) is not modelled. The stored periods are "day", "week" and "month".
- App.RouteView: route matching is exact and case-sensitive, with no trailing slash and no URL decoding. The router's case-insensitive matching and its optional trailing slash are not modelled.
- App.MatchRoute: the same exact matching. The router also decodes the `:id` parameter, so "/chef/a%2Fb" gives the id "a/b". The "no /" part of its contract holds for the raw path segment, not for the decoded id.
