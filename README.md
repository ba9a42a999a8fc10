# Voyage lucky-draw site: a model of its page logic

The repository is a React presentation site for a monthly travel lottery. Every page
holds mocked data, and the site contains no draw, referral or eligibility engine. What
it does contain is the sequential logic inside a few event handlers and effects. This
project models that logic in Dafny and proves what each piece promises:

- **Sign-up, login and password-change forms** (`register.dfy`, `login.dfy`,
  `profile.dfy`, sharing `form_record.dfy`). A form's state is a JavaScript object,
  modelled as a map from key to value. A value is a string, a boolean or `undefined`.
  A change handler is the spread `{...form, [name]: value}`. A validator is a pure
  function that returns `Pass` or the first failing error, in the source's order.
  Each page is a class that holds the form records and the submitting flags. An
  async submit handler is split in two methods: the part that runs up to the
  `await` or `setTimeout`, and the continuation that runs once the promise settles
  or the timer fires.
- **The winners list** (`winners.dfy`). The filter effect narrows the list by
  country and then by destination, and each filter has the sentinel `'all'`.
  The option lists are `'all'` followed by the distinct values in first-occurrence
  order. `formatMonth` turns `"YYYY-MM"` into the year and zero-based month that
  `new Date` is built from.
- **Dashboard values** (`dashboard.dfy`). This covers the relative-date label over
  a millisecond gap, the rounded-up days until the draw, the status text and
  colour switches, the payment and entry-status labels, and the three-item
  recent-activity list.
- **The hero carousel** (`hero.dfy`). A class holds the shown slide's index. It
  moves on by a modular tick and is set directly when an indicator is clicked.

`strings.dfy` holds the string operations these rely on. These are `${n}` for a
natural number, `parseInt` in base 10, and `split` on one character. No page calls
`join`; `Join` is there only to state `split`'s round trip.
`basics.dfy` holds `Option` and `Outcome`.

The external `signUp` and `login` calls come from an authentication context that is
not part of this model. Each page records the arguments of every call it makes in a
log field. How the call's promise settles is a parameter of the continuation method.
The clock (`new Date()`) is an integer parameter. Parsing a date string into a
timestamp is done by the caller, with `None` standing for the NaN of an unparsable
string.

## Model

| member | source | states |
|---|---|---|
| FormRecord.CheckboxAwareValue | src/pages/Register.tsx:30-31 | A checkbox stores its boolean `checked`; every other input stores its string `value` |
| FormRecord.Assign | src/pages/Register.tsx:33-36 | The spread update: the named key holds the new value, every other key keeps its value, and the key set gains only that name |
| FormRecord.FalsyCases | src/pages/Register.tsx:43-44 | JavaScript's `!` on a form value: a string is falsy exactly when empty, a boolean exactly when false, and `undefined` always |
| FormRecord.FirstMissing | src/pages/Register.tsx:43-44 | The short-circuit chain of `!form.x` tests: `None` exactly when every listed field is truthy, otherwise the first falsy field, with all earlier ones truthy |
| Register.Validate | src/pages/Register.tsx:43-69 | The missing-field error exactly when a required field is empty. The mismatch error exactly when all are filled and the passwords differ. The terms error exactly when those pass and `agreeToTerms` is falsy. `Pass` exactly when all three checks pass |
| Register.EmptyRequiredFieldTakesPrecedence | src/pages/Register.tsx:43-60 | Emptying any one required field gives the missing-field error, whatever the passwords and terms hold |
| Register.TermsNotInMissingCheck | src/pages/Register.tsx:43-44 | Changing `agreeToTerms` never changes whether the missing-field error is reported |
| Register.InitialFormIsIncomplete | src/pages/Register.tsx:18-27 | The untouched form is rejected with the missing-field error |
| Register.CallFor | src/pages/Register.tsx:74 | The `signUp` call takes email, password, first name and last name from the form, in that order |
| Register.AcceptedCallIsComplete | src/pages/Register.tsx:43-74 | A form that passes sends four truthy values, and its password equals the confirmation |
| Register.RegisterPage.constructor | src/pages/Register.tsx:17-27 | The empty form, not submitting, no call made |
| Register.RegisterPage.HandleChange | src/pages/Register.tsx:29-37 | Only the named field changes, and it receives the checkbox-aware value |
| Register.RegisterPage.HandleSubmit | src/pages/Register.tsx:39-74 | On a failed check: that error is returned and nothing changes. Otherwise `isSubmitting` is raised and exactly one `signUp` call with the form's values is logged |
| Register.RegisterPage.OnSignUpSettled | src/pages/Register.tsx:73-79 | `isSubmitting` is false afterwards whether `signUp` resolved or threw; the error is logged exactly when it threw |
| Login.CanSubmit | src/pages/Login.tsx:34-36 | The handler goes on exactly when email and password are both truthy |
| Login.RememberMeIgnored | src/pages/Login.tsx:34 | The remember-me checkbox never affects the guard |
| Login.LoginPage.constructor | src/pages/Login.tsx:16-21 | The empty form, not submitting, no call made |
| Login.LoginPage.HandleChange | src/pages/Login.tsx:23-29 | Only the named field changes: `checked` for a checkbox, `value` otherwise |
| Login.LoginPage.HandleSubmit | src/pages/Login.tsx:31-41 | With a credential empty it returns, leaving `isSubmitting` and the call log alone. Otherwise it raises `isSubmitting` and logs `login(email, password)` with exactly the form's values |
| Login.LoginPage.OnLoginSettled | src/pages/Login.tsx:40-46 | `isSubmitting` is false afterwards even if `login` threw |
| Profile.ValidatePasswordChange | src/pages/Profile.tsx:76-92 | The missing-field error exactly when one of the three password fields is empty. The mismatch error exactly when all are filled and the new password differs from its confirmation. `Pass` otherwise |
| Profile.CurrentPasswordNotCompared | src/pages/Profile.tsx:76-92 | Replacing a filled-in current password by any other filled-in value never changes the outcome |
| Profile.EmptyPasswordDataIsIncomplete | src/pages/Profile.tsx:99-103 | The emptied password record is rejected with the missing-field error |
| Profile.ProfilePage.constructor | src/pages/Profile.tsx:26-40 | The mock profile, the empty password record, neither flag raised |
| Profile.ProfilePage.HandleProfileChange | src/pages/Profile.tsx:42-48 | Only the named profile field changes, to the input's `value` |
| Profile.ProfilePage.HandlePasswordChange | src/pages/Profile.tsx:50-56 | Only the named password field changes, to the input's `value` |
| Profile.ProfilePage.HandleProfileSubmit | src/pages/Profile.tsx:58-63 | No validation: `isSubmitting` is raised and one save is scheduled |
| Profile.ProfilePage.OnProfileTimer | src/pages/Profile.tsx:63-69 | `isSubmitting` goes back to false and success is reported |
| Profile.ProfilePage.HandlePasswordSubmit | src/pages/Profile.tsx:72-96 | On a failed check: that error is returned and nothing changes. Otherwise `isPasswordSubmitting` is raised and one save is scheduled |
| Profile.ProfilePage.OnPasswordTimer | src/pages/Profile.tsx:97-108 | The flag is cleared, all three password fields are reset to empty and success is reported |
| Winners.ByCountry | src/pages/Winners.tsx:116 | The country `.filter`: a winner is kept exactly when it is in the list and has that country, and the result is no longer than the list |
| Winners.ByDestination | src/pages/Winners.tsx:120 | The destination `.filter`: a winner is kept exactly when it is in the list and has that destination, and the result is no longer than the list |
| Winners.FilterWinners | src/pages/Winners.tsx:112-123 | The two reassignment steps yield exactly the one-pass selection of the winners that pass both filters |
| Winners.FilterStepsAgree | src/pages/Winners.tsx:113-121 | Narrowing by country (when on) and then by destination (when on) equals the single selection by both |
| Winners.BothOffKeepsAll | src/pages/Winners.tsx:113-123 | With both filters `'all'` the whole list is shown, in its order |
| Winners.SelectedMembership | src/pages/Winners.tsx:112-124 | A winner is shown exactly when it is in the list and passes both active filters |
| Winners.SelectedSatisfiesFilters | src/pages/Winners.tsx:115-121 | Every shown winner has the chosen country when that filter is on, and the chosen destination when that one is |
| Winners.SelectedIsSubsequence | src/pages/Winners.tsx:112-124 | The shown list is an order-preserving subsequence of the list |
| Winners.FiltersCommute | src/pages/Winners.tsx:115-121 | Filtering by country then destination equals filtering by destination then country |
| Winners.Distinct | src/pages/Winners.tsx:133-134 | The values of `new Set(...)` are exactly the list's values not already taken |
| Winners.DistinctHasNoRepeats | src/pages/Winners.tsx:133-134 | No option value repeats |
| Winners.DistinctKeepsFirstOccurrenceOrder | src/pages/Winners.tsx:133-134 | The options follow the order of the values' first occurrences |
| Winners.CountryOptions | src/pages/Winners.tsx:133 | Starts with `'all'`; the rest are exactly the countries some winner has |
| Winners.DestinationOptions | src/pages/Winners.tsx:134 | Starts with `'all'`; the rest are exactly the destinations some winner has |
| Winners.CountryOptionsDistinctInOrder | src/pages/Winners.tsx:133 | After `'all'` each country appears once, in first-occurrence order |
| Winners.DestinationOptionsDistinctInOrder | src/pages/Winners.tsx:134 | After `'all'` each destination appears once, in first-occurrence order |
| Winners.WinnersPage.Countries | src/pages/Winners.tsx:133 | The page's country options: `'all'` first, then exactly the countries of the loaded winners, each once, in first-occurrence order |
| Winners.WinnersPage.Destinations | src/pages/Winners.tsx:134 | The page's destination options: `'all'` first, then exactly the destinations of the loaded winners, each once, in first-occurrence order |
| Winners.DateFromParts | src/pages/Winners.tsx:128 | The `Date` constructor's month: the index lands in 0..11, and `FullYear(y) × 12 + m` is preserved, where a year from 0 to 99 means 1900 + y |
| Winners.FormatMonth | src/pages/Winners.tsx:126-128 | A valid result always has a month index in 0..11 |
| Winners.FormatMonthOfYearMonth | src/pages/Winners.tsx:126-128 | For `Zeros(k) + NatToString(y) + "-" + MM`, with any number k of padding zeros and month 01..12, the date has year `FullYear(y)` (so y for y ≥ 100 and 1900 + y below; `"0050-01"` is January 1950) and month index MM − 1 |
| Winners.FormatMonthWithoutMonth | src/pages/Winners.tsx:127-128 | Any string with no `'-'` gives the invalid date |
| Winners.WinnersPage.constructor | src/pages/Winners.tsx:93-97 | Empty lists, both filters `'all'`, loading |
| Winners.WinnersPage.RunFilterEffect | src/pages/Winners.tsx:112-124 | The shown list becomes the selection of the list under the current filters |
| Winners.WinnersPage.OnWinnersFetched | src/pages/Winners.tsx:99-110 | The list becomes the mock list, loading ends, and the shown list is its selection under the filters as they stand |
| Winners.WinnersPage.SetCountryFilter | src/pages/Winners.tsx:165 | The country filter changes and the shown list follows it; nothing else changes |
| Winners.WinnersPage.SetDestinationFilter | src/pages/Winners.tsx:180 | The destination filter changes and the shown list follows it; nothing else changes |
| Dashboard.DiffDays | src/pages/Dashboard.tsx:62-65 | The whole number of days in the absolute gap: d days ≤ gap < d + 1 days |
| Dashboard.DiffDaysSymmetric | src/pages/Dashboard.tsx:64 | Past and future instants at the same distance give the same count |
| Dashboard.FormatDateRelative | src/pages/Dashboard.tsx:61-76 | "Today" exactly for a gap under a day, "Yesterday" for one to two days, "N days ago" for two to seven, the absolute date from seven days on and for an unparsable date. The buckets are disjoint and cover every gap |
| Dashboard.DaysAgoLabel | src/pages/Dashboard.tsx:71-72 | Between two and seven days the label is the single digit N (2..6) followed by " days ago" |
| Dashboard.RelativeDateSymmetric | src/pages/Dashboard.tsx:62-65 | A date the same distance before or after now gets the same label |
| Dashboard.DaysUntilDraw | src/pages/Dashboard.tsx:82-87 | The gap rounded up to whole days. It is 0 exactly when the instants are equal, lies between `DiffDays` and `DiffDays + 1`, and is NaN for an unparsable date |
| Dashboard.StatusColor | src/pages/Dashboard.tsx:89-100 | The grey default exactly for statuses other than selected, not_selected and pending |
| Dashboard.StatusText | src/pages/Dashboard.tsx:102-113 | "Unknown" exactly for statuses other than selected, not_selected and pending |
| Dashboard.StatusMappingsAgree | src/pages/Dashboard.tsx:89-113 | The two switches agree on which statuses are known, and give distinct known statuses distinct labels and colours |
| Dashboard.StatusTextTable | src/pages/Dashboard.tsx:102-113 | selected → "Selected", not_selected → "Not Selected", pending → "Pending" |
| Dashboard.PaymentLabel | src/pages/Dashboard.tsx:197-201 | "Paid" exactly for paid, "Pending" exactly for pending, "Unpaid" for any other value |
| Dashboard.EntryStatusLabel | src/pages/Dashboard.tsx:231-235 | "Winner!" exactly for selected, "Draw Pending" exactly for pending, "Active Entry" for any other value |
| Dashboard.RecentActivity | src/pages/Dashboard.tsx:254 | A prefix of the participations of length min(3, count) |
| Hero.Next | src/components/Hero.tsx:30 | The next index is always in range; from a valid index it is the successor, wrapping to 0 after the last slide |
| Hero.TicksAreModular | src/components/Hero.tsx:30 | k ticks from a valid index i land on (i + k) mod length |
| Hero.FullCycleReturns | src/components/Hero.tsx:30 | After `length` ticks the index is back where it started |
| Hero.Opacity | src/components/Hero.tsx:43-47 | A slide's opacity is 1 exactly when it is the current slide, and 0 otherwise |
| Hero.Carousel.constructor | src/components/Hero.tsx:26 | The carousel starts on slide 0 |
| Hero.Carousel.Tick | src/components/Hero.tsx:29-31 | The index moves to `Next` of its old value and stays in range |
| Hero.Carousel.SelectIndicator | src/components/Hero.tsx:92 | Clicking indicator i sets the index to exactly i |
| Hero.Carousel.VisibleSlides | src/components/Hero.tsx:38-50 | Exactly one slide, the current one, is drawn with opacity 1 |
| Strings.NatToString | src/pages/Dashboard.tsx:72 | `${n}` is a non-empty string of decimal digits with no leading zero |
| Strings.DigitPrefix | src/pages/Winners.tsx:128 | The longest run of decimal digits at the start of a string, the part `parseInt` reads |
| Strings.ParseInt | src/pages/Winners.tsx:128 | NaN exactly when no digit follows the optional sign |
| Strings.ParseIntReadsNatToString | src/pages/Winners.tsx:128 | `parseInt` reads back a rendered number and stops at the first non-digit |
| Strings.ParseIntLeadingZero | src/pages/Winners.tsx:128 | A leading zero changes nothing, so `"07"` parses as 7 |
| Strings.ParseIntLeadingZeros | src/pages/Winners.tsx:128 | Any number of leading zeros changes nothing, so `"0050"` parses as 50 |
| Strings.Split | src/pages/Winners.tsx:127 | `split` yields at least one part, and no part contains the separator |
| Strings.JoinSplit | src/pages/Winners.tsx:127 | Joining the parts of a split gives back the original string |
| Strings.SplitJoin | src/pages/Winners.tsx:127 | Splitting a join of separator-free parts gives back the parts |

## Left out

- Rendering: the rendered markup, CSS class strings other than `getStatusColor`'s, icons, the toasts' titles, description texts and styling, the show-password toggle and tab state. Toasts appear only as returned error or notice values.
- React hooks and timers: the scheduling of effects, `setTimeout`, `setInterval` and the simulated delays. Each delayed callback is a method a caller invokes. A count of scheduled timers or unsettled calls is its precondition. The filter effect runs at the end of every method that changes one of its dependencies.
- The submit buttons are disabled while a submission is in flight. That is rendering, so the handlers are modelled as written: none of them checks its own flag.
- The authentication context's `signUp` and `login`: they are not part of this model. Their calls are logged and their outcome is a parameter.
- `console.error` in the `catch` blocks: reduced to a boolean saying the catch ran.
- `new Date(dateString)`, `new Date()` and `toLocaleDateString`: timestamps are integer inputs and the absolute date text is left uninterpreted (`Absolute(dateString)`); `formatMonth` stops at the year and month the `Date` is built from.
- Dashboard.DiffDays: `Math.floor`/`Math.ceil` over double division is modelled as exact integer division, which could differ only by floating-point rounding at gaps near 2^53 ms.
- Winners.FormatMonth: the Date constructor's range limit (about ±275,760 years) is not modelled.
- Strings.ParseInt: `parseInt`'s trimming of leading whitespace and its `0x` hexadecimal prefix are not modelled.
- Hero.Carousel.SelectIndicator: it requires an index below the slide count, since indicators exist only for the three slides. The carousel's `%` is truncating in JavaScript, but the index is never negative, so it agrees with Dafny's `%`.
- `src/components/ReferralSystem.tsx`: a constant referral code plus clipboard and `window.location` I/O.
- `src/components/PaymentPopup.tsx`, `src/components/Header.tsx` and the static content pages. They are UI state and fixed content.
- The referral-weighted draw, tier table, payment eligibility and draw cycles: no code for them exists in the repository.
