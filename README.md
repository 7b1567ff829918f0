# LifeFlow blood-bank front end: a Dafny model of its page logic

LifeFlow is a blood-donation web front end. Its pages render in-memory mock data. The logic behind them is small, and this project models it:

- **Search filters.** Three pages filter record lists: the blood-bank directory, the blood-request board, and the community page (posts, events and donor stories).
  - A text dimension is a case-insensitive substring test against one field or several fields joined by OR.
  - A categorical dimension is exact string equality.
  - An empty query value matches everything.
  - Dimensions are joined by AND.
  - Every filter is an `Array.filter`, so each result is an order-preserving subsequence of its list.
- **Form state machines.**
  - The three-step donor registration wizard: a step counter, a submission that a timer completes, and "Register Another Donor".
  - The three-step account registration page: a donor/hospital switch over one shared field record.
  - The contact form: idle → submitting → success with the fields cleared → idle, driven by two timers.
- **Hospital dashboard.**
  - Submitting the entry form prepends a new `Pending` request, with a `REQ-NNN` id, to the request list, then resets the form.
  - The low-stock alert list filters the inventory.
- **Donor badge.** A donor story shows Gold from 25 donations and Silver from 10 to 24.

Layout, one module per file:

- `wrappers.dfy`: Wrappers, an `Option` type.
- `text.dfy`: JsText, ASCII `toLowerCase` and `String.prototype.includes`.
- `seqs.dfy`: Seqs, `Array.prototype.filter` and the subsequence relation.
- `numbers.dfy`: JsNumber, `Number.prototype.toString`, `padStart` and `parseInt`.
- `stock.dfy`: BloodStock, the shared stock-entry record.
- One module per page or component: BloodBanks, Requests, Community, DonorRegistration, Registration, HospitalDashboard and Contact.

Pure filters are functions over `seq`. A page whose handlers update state is a class: each handler is a method whose `modifies` clause names the fields it sets.

Other modelling choices:

- **Button guards.** A wizard's handlers check nothing themselves. What limits them is which buttons are rendered: Back iff `step > 1`, Next iff `step < 3`, and the submit button's `disabled` condition. These guards are method preconditions.
- **Enter-key submission.** Step 2 of the donor wizard renders no submit button, and its date input is the only field there that blocks implicit submission. Pressing Enter in that input therefore submits the form, by section 4.10.21.2 ("Implicit submission") of the HTML Living Standard, once the required blood-type select has a value. This is a separate event, `ImplicitSubmit`. It does not need the terms to be accepted, it can be repeated while a submission runs, and each repetition schedules one more completion timer.
- **Timers.** Each `setTimeout` callback is an event method. It is guarded by a counter of scheduled, not-yet-run callbacks.
- **Clock and randomness.** `Math.random()` becomes a `draw` parameter below 1000. `new Date().toISOString()` becomes a `now` parameter.
- **Initial lists.** The literal lists a page starts with are constructor parameters.

Three facts about the code shape the state machines:

- Next and Back add or subtract exactly one step and run no validation (DonorRegistrationForm.tsx lines 63-64, RegisterPage.tsx lines 49-55).
- A donor submission has no failure branch: the timer always ends in success (DonorRegistrationForm.tsx lines 57-60).
- "Register Another Donor" restores the initial record, every text field `""` and the terms unticked (DonorRegistrationForm.tsx lines 99-117).

## Model

| member | source | states |
|---|---|---|
| JsText.Lower | project/src/pages/BloodBanksPage.tsx:96 | `toLowerCase` keeps the length and lowers each character on its own (ASCII letters only) |
| JsText.Includes | project/src/pages/BloodBanksPage.tsx:96-98 | `String.prototype.includes`: the needle is a prefix of the text or of one of its suffixes (a definition; `IncludesIff` states its meaning) |
| JsText.IncludesIff | project/src/pages/BloodBanksPage.tsx:96-98 | `includes` holds exactly when the needle occurs as a contiguous block at some index of the text |
| JsText.IncludesIgnoringCase | project/src/pages/CommunityPage.tsx:155 | the lowered-text-includes-lowered-query test: the empty query is in every string, and otherwise the test is index-based substring containment of the lowered strings |
| JsText.LowerIdempotent | project/src/pages/CommunityPage.tsx:155 | lowering twice is lowering once |
| JsText.LowerOfUpper | project/src/pages/CommunityPage.tsx:155 | lowering an upper-cased string gives the lowered original |
| JsText.QueryCaseIsIrrelevant | project/src/pages/CommunityPage.tsx:155 | an upper-cased or lower-cased query is the same query up to case |
| Seqs.Filter | project/src/pages/BloodBanksPage.tsx:94 | `Array.filter` returns an order-preserving subsequence in which each element occurs as often as in the input when it passes the callback, and not at all otherwise |
| Seqs.FilterKeepsAll | project/src/pages/CommunityPage.tsx:154-169 | a callback true of every element returns the whole list in order |
| Seqs.FilterMonotone | project/src/pages/RequestsPage.tsx:161-168 | a stronger callback yields a subsequence of a weaker callback's result |
| Seqs.FilterAgree | project/src/pages/CommunityPage.tsx:154-169 | callbacks that agree on the list give the same result |
| BloodBanks.SearchParams.With | project/src/pages/BloodBanksPage.tsx:86-92 | `{...searchParams, [name]: value}` sets the named key and leaves the other one unchanged |
| BloodBanks.InStock | project/src/pages/BloodBanksPage.tsx:101-103 | `availability.some(...)` holds iff some entry has exactly the type and `units > 0` |
| BloodBanks.FilterBloodBanks | project/src/pages/BloodBanksPage.tsx:94-106 | the result is a subsequence of the banks, and a bank is in it iff it passes both the location test and the blood-type test, and a passing bank listed several times is kept as often as it is listed |
| BloodBanks.EmptySearchKeepsAll | project/src/pages/BloodBanksPage.tsx:94-106 | with both keys `""` every bank is returned, in the original order |
| BloodBanks.LocationMatchIff | project/src/pages/BloodBanksPage.tsx:95-98 | a non-empty location matches iff its lowered text is a substring of the lowered city, address or name |
| BloodBanks.EmptyStockExcluded | project/src/pages/BloodBanksPage.tsx:100-103 | a bank listing the type only with 0 units does not match that type |
| BloodBanks.NarrowingShrinks | project/src/pages/BloodBanksPage.tsx:94-106 | setting an empty key to a value yields a subsequence of the previous result |
| BloodBanks.StockedBankExample | project/src/pages/BloodBanksPage.tsx:100-103 | of two banks listing O-, with 5 and 0 units, a search for O- returns only the first |
| BloodBanks.BloodBanksPage.constructor | project/src/pages/BloodBanksPage.tsx:21-26 | the page starts with both search keys `""` and the given bank list |
| BloodBanks.BloodBanksPage.HandleSearchChange | project/src/pages/BloodBanksPage.tsx:86-92 | only the named search key changes, and the bank list is untouched |
| BloodBanks.BloodBanksPage.ResetSearch | project/src/pages/BloodBanksPage.tsx:240 | both keys become `""`, after which the rendered list is the whole bank list |
| Requests.SearchParams.With | project/src/pages/RequestsPage.tsx:92-98 | only the named one of the four keys changes |
| Requests.FilterRequests | project/src/pages/RequestsPage.tsx:161-168 | the result is a subsequence of the requests, and a request is in it iff all four dimension tests hold; every copy of a passing request is kept |
| Requests.AllDimensions | project/src/pages/RequestsPage.tsx:161-168 | the filter condition is exactly the AND of the four dimension tests |
| Requests.EmptyValueMatches | project/src/pages/RequestsPage.tsx:163-166 | an empty value in any dimension accepts every request |
| Requests.EmptySearchKeepsAll | project/src/pages/RequestsPage.tsx:161-168 | with all four keys `""` every request is returned, in order |
| Requests.NarrowingShrinks | project/src/pages/RequestsPage.tsx:161-168 | changing one dimension from `""` to a value yields a subsequence of the previous result |
| Requests.HospitalIsNotSearched | project/src/pages/RequestsPage.tsx:164 | the location search reads `location` only: a request at "Central Hospital" in "Downtown" contains "central" in its hospital name but is not found by it |
| Requests.HospitalNeverSearched | project/src/pages/RequestsPage.tsx:161-168 | for every search, a request and the same request at another hospital are kept or dropped alike |
| Requests.RequestsPage.constructor | project/src/pages/RequestsPage.tsx:19-26 | the page starts with all four keys `""` |
| Requests.RequestsPage.HandleSearchChange | project/src/pages/RequestsPage.tsx:92-98 | only the named key changes |
| Requests.RequestsPage.ResetSearch | project/src/pages/RequestsPage.tsx:355 | all four keys become `""`, after which every request is rendered |
| Community.SomeTagIncludes | project/src/pages/CommunityPage.tsx:157 | `tags.some(...)` holds iff some tag contains the query, ignoring case |
| Community.FilterPosts | project/src/pages/CommunityPage.tsx:154-158 | a post is kept iff the query is in its content, its author name or one of its tags; order and the number of copies of each kept post are kept |
| Community.FilterEvents | project/src/pages/CommunityPage.tsx:160-164 | an event is kept iff the query is in its title, description or location; order and the number of copies of each kept event are kept |
| Community.FilterStories | project/src/pages/CommunityPage.tsx:166-169 | a story is kept iff the query is in its name or story text; order and the number of copies of each kept story are kept |
| Community.ClearSearchShowsAll | project/src/pages/CommunityPage.tsx:321 | the cleared query `""` restores all three lists at once, in order |
| Community.SomeTagIgnoresQueryCase | project/src/pages/CommunityPage.tsx:157 | the tag test gives the same answer for two queries equal up to case |
| Community.QueryCaseIsIgnored | project/src/pages/CommunityPage.tsx:154-169 | two queries equal up to case select the same posts, events and stories |
| Community.UpperCaseQuery | project/src/pages/CommunityPage.tsx:154-169 | typing the query in capitals selects the same three lists |
| Community.DonorBadge | project/src/pages/CommunityPage.tsx:412-423 | Gold iff the count is at least 25, Silver iff it is 10 to 24, no badge below 10; the two badge conditions never both hold |
| DonorRegistration.FormData.With | project/src/components/DonorRegistrationForm.tsx:42-50 | setting a text field changes that field only, the checkbox included |
| DonorRegistration.DonorRegistrationForm.Valid | project/src/components/DonorRegistrationForm.tsx:52-64 | the invariant every handler keeps: step in 1..3, a completion timer pending whenever a submission runs, never submitting and successful at once |
| DonorRegistration.DonorRegistrationForm.BackShown | project/src/components/DonorRegistrationForm.tsx:435 | the Back button is rendered iff `step > 1` |
| DonorRegistration.DonorRegistrationForm.NextShown | project/src/components/DonorRegistrationForm.tsx:447 | the Next button is rendered iff `step < 3` |
| DonorRegistration.DonorRegistrationForm.SubmitEnabled | project/src/components/DonorRegistrationForm.tsx:458 | the submit button is shown on step 3 and enabled iff no submission runs and the terms are ticked |
| DonorRegistration.DonorRegistrationForm.constructor | project/src/components/DonorRegistrationForm.tsx:22-40 | step 1, not submitting, not successful, every text field `""`, terms not accepted |
| DonorRegistration.DonorRegistrationForm.HandleChange | project/src/components/DonorRegistrationForm.tsx:42-50 | only the named field changes; the checkbox stores `checked` and the other inputs store their value |
| DonorRegistration.DonorRegistrationForm.NextStep | project/src/components/DonorRegistrationForm.tsx:63 | adds exactly 1, whatever the fields hold; offered only below step 3 (line 447), so the step stays in 1..3 |
| DonorRegistration.DonorRegistrationForm.PrevStep | project/src/components/DonorRegistrationForm.tsx:64 | subtracts exactly 1; offered only above step 1 (line 435) |
| DonorRegistration.DonorRegistrationForm.HandleSubmit | project/src/components/DonorRegistrationForm.tsx:52-57 | only at step 3, with the terms accepted and no submission running (line 458); sets `isSubmitting` and schedules one timer |
| DonorRegistration.DonorRegistrationForm.ImplicitSubmit | project/src/components/DonorRegistrationForm.tsx:52-57 | Enter in the step-2 date input (lines 327-333), with the blood type chosen (line 316): sets `isSubmitting` and schedules one more timer, with no check of the terms or of a running submission |
| DonorRegistration.DonorRegistrationForm.TimerFires | project/src/components/DonorRegistrationForm.tsx:57-60 | clears `isSubmitting`, sets `isSuccess`, and leaves the fields and step unchanged |
| DonorRegistration.DonorRegistrationForm.RegisterAnother | project/src/components/DonorRegistrationForm.tsx:99-117 | restores exactly the initial state: step 1, not submitting, not successful, the initial fields; a timer left over from a repeated submission stays pending |
| Registration.FormData.With | project/src/pages/RegisterPage.tsx:41-47 | setting a text field changes that field only |
| Registration.RegisterPage.Valid | project/src/pages/RegisterPage.tsx:49-55 | the invariant every handler keeps: step in 1..3 |
| Registration.RegisterPage.BackShown | project/src/pages/RegisterPage.tsx:685 | the Back button is rendered iff `step > 1` |
| Registration.RegisterPage.NextShown | project/src/pages/RegisterPage.tsx:697 | the Next button is rendered iff `step < 3` |
| Registration.RegisterPage.constructor | project/src/pages/RegisterPage.tsx:6-39 | donor account type, step 1, passwords hidden, all text fields `""`, terms not accepted |
| Registration.RegisterPage.SelectUserType | project/src/pages/RegisterPage.tsx:73-97 | changes the account type only; the step and every field, including the shared email and passwords, are kept |
| Registration.RegisterPage.TogglePassword | project/src/pages/RegisterPage.tsx:149 | flips the password's visibility |
| Registration.RegisterPage.ToggleConfirmPassword | project/src/pages/RegisterPage.tsx:187 | flips the confirmation password's visibility |
| Registration.RegisterPage.HandleChange | project/src/pages/RegisterPage.tsx:41-47 | only the named field changes; the checkbox stores `checked` and the other inputs store their value |
| Registration.RegisterPage.NextStep | project/src/pages/RegisterPage.tsx:49-51 | `step + 1` with no condition; offered only below step 3 (line 697) |
| Registration.RegisterPage.PrevStep | project/src/pages/RegisterPage.tsx:53-55 | `step - 1` with no condition; offered only above step 1 (line 685) |
| Registration.RegisterPage.HandleSubmit | project/src/pages/RegisterPage.tsx:57-61 | changes no state and logs exactly the current form data |
| JsNumber.NatToString | project/src/components/HospitalDashboard.tsx:73 | `toString()` of a non-negative integer: at least one digit, all decimal digits, no leading zero, fewer digits than needed to reach the next power of ten |
| JsNumber.NatToStringValue | project/src/components/HospitalDashboard.tsx:73 | the digits spell the number |
| JsNumber.ShortNumbers | project/src/components/HospitalDashboard.tsx:73 | a number below 10^k has at most k digits |
| JsNumber.PadStart | project/src/components/HospitalDashboard.tsx:73 | `padStart` reaches the width, ends with the original string, and fills the front with the fill character |
| JsNumber.LeadingZeros | project/src/components/HospitalDashboard.tsx:73 | zero padding does not change a digit string's value |
| JsNumber.ParseInt | project/src/components/HospitalDashboard.tsx:65 | `parseInt(value)`: skip leading white space, take an optional sign, read the longest run of decimal digits, NaN when there is none (a definition; the next three lemmas state its meaning) |
| JsNumber.ParseIntOfNat | project/src/components/HospitalDashboard.tsx:65 | `parseInt` reads back a number's decimal form and ignores a non-digit tail (such as a fraction) |
| JsNumber.ParseIntOfNeg | project/src/components/HospitalDashboard.tsx:65 | the same with a leading minus sign |
| JsNumber.ParseIntNaN | project/src/components/HospitalDashboard.tsx:65 | a string with no digit, such as a cleared input, parses to NaN |
| HospitalDashboard.RequestId | project/src/components/HospitalDashboard.tsx:73 | the id template: `REQ-`, then the draw written in decimal and left-padded with `0` to three digits (a definition; the next three lemmas state its meaning) |
| HospitalDashboard.RequestIdShape | project/src/components/HospitalDashboard.tsx:73 | a new id is `REQ-` followed by exactly three digits, which spell the draw from 0..999 |
| HospitalDashboard.RequestIdInjective | project/src/components/HospitalDashboard.tsx:73 | different draws give different ids |
| HospitalDashboard.RequestIdMayRepeat | project/src/components/HospitalDashboard.tsx:73 | a draw of 1 yields `REQ-001`, an id the initial list already holds (line 29): ids are not guaranteed unique |
| HospitalDashboard.NewRequestRecord | project/src/components/HospitalDashboard.tsx:72-79 | the new record is `Pending`, has no hospital, copies blood type, units and urgency from the form, carries the given time, and has a `REQ-NNN` id |
| HospitalDashboard.LowStockAlerts | project/src/components/HospitalDashboard.tsx:174-175 | exactly the Low and Critical inventory entries, in inventory order, each as often as the inventory lists it |
| HospitalDashboard.AdequatelyStockedIff | project/src/components/HospitalDashboard.tsx:199-204 | the "adequately stocked" message appears iff every entry is High or Medium |
| HospitalDashboard.Dashboard.constructor | project/src/components/HospitalDashboard.tsx:16-59 | the given inventory and requests, with the entry form at blood type `""`, 1 unit and Normal urgency |
| HospitalDashboard.Dashboard.HandleRequestChange | project/src/components/HospitalDashboard.tsx:61-67 | only the named key changes; units stores `parseInt(value)`, NaN included |
| HospitalDashboard.Dashboard.HandleRequestSubmit | project/src/components/HospitalDashboard.tsx:69-88 | `requests' == [newObj] + requests`: one longer, with the old entries in order; the form is reset; the inventory is unchanged |
| Contact.FormData.With | project/src/pages/ContactPage.tsx:16-22 | setting a field changes that field only |
| Contact.EmptyFormIsBlank | project/src/pages/ContactPage.tsx:34-40 | the cleared form has all five fields `""` |
| Contact.ContactPage.Valid | project/src/pages/ContactPage.tsx:24-45 | the invariant every handler keeps: one send timer pending exactly while submitting, and a shown success banner always has a dismiss timer pending |
| Contact.ContactPage.SubmitEnabled | project/src/pages/ContactPage.tsx:173 | the Send Message button is enabled iff no submission runs |
| Contact.ContactPage.constructor | project/src/pages/ContactPage.tsx:5-14 | five fields `""`, not submitting, not successful, no timer scheduled |
| Contact.ContactPage.HandleChange | project/src/pages/ContactPage.tsx:16-22 | only the named field changes |
| Contact.ContactPage.HandleSubmit | project/src/pages/ContactPage.tsx:24-26 | allowed only while not submitting (line 173); sets `isSubmitting` and schedules the send timer |
| Contact.ContactPage.SendTimerFires | project/src/pages/ContactPage.tsx:29-41 | clears `isSubmitting`, sets `isSuccess`, clears all five fields and schedules the dismiss timer |
| Contact.ContactPage.DismissTimerFires | project/src/pages/ContactPage.tsx:43-45 | sets `isSuccess` back to false and leaves the fields as they are |

## Left out

- Rendering: JSX, CSS classes, Tailwind theme, animation, the Chart.js chart and badge colours. These are presentational.
- `utils/communication.ts`, routing and the navigation bar. These are asynchronous library calls and browser events.
- Pages with no state logic: FindBloodPage, LoginPage, HomePage, DonatePage, DashboardPage, EmergencyTicker, ThemeToggle.
- The literal mock lists (banks, requests, posts, events, stories, inventory). Constructors and filters take the lists as parameters.
- A blood bank's floating-point `distance`. The search never reads it.
- The community page's `activeTab` and its `handleSearchChange`. The page replaces the whole query, so the query is a plain parameter of the three filters.
- Browser constraint validation (`required`, and `min`/`max` on the units input). The model lets any guarded submit through, including ones the browser would block.
- Timer delays (2000, 1500 and 5000 ms). Any scheduled callback may fire next, so the model allows more interleavings than real timing does.
- `Math.random()` and `new Date()`. They become the `draw` and `now` parameters of `HandleRequestSubmit`.
- `console.log` in `handleSubmit`. It becomes `RegisterPage.HandleSubmit`'s return value.
- JsText.Lower: ASCII letters only. Full Unicode case mapping is not modelled.
- JsNumber.ParseInt:
  - no `0x` hexadecimal prefix;
  - the only start-of-string white space skipped is ASCII white space, U+00A0 and U+FEFF;
  - results are unbounded integers, so precision loss above 2^53 is not modelled.
  A number input never produces the first two.
- React's asynchronous batching of state updates. Each handler's updates apply at once, which matches the source because every handler runs on its own event.
