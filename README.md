# NailStudio front-end logic in Dafny

This project models the sequential logic behind the NailStudio salon web
front end (a Next.js application) and proves properties of it:

- the **booking wizard** (`Booking`): a three-step state machine
  (service, then date and time, then customer details) over a booking
  draft, the per-step guard that enables the forward and submit buttons,
  the generator of the 21 bookable days and the date label shown on each
  day button;
- the **registration form** (`Register`): the password-strength score, the
  ordered error list built by `validateForm`, the input handler that
  clears a field's errors, and the validation gate at the start of submit;
- the **login form** (`Login`): the same shape with two rules;
- the **gallery and artist directory filters** (`Gallery`, `Artists`): the
  chip toggle shared by the style and specialty filters (`ListToggle`), the
  difficulty colour, the ranking badge (colour, icon and label), and the id
  and rank layout of the artist roster.

Shared pieces live in their own modules: `Text` (JavaScript's `\s` class,
`trim`, decimal printing and parsing, `padStart`, and the e-mail pattern
`\S+@\S+\.\S+` written as a predicate), `FormErrors` (the error record with
an optional field, `getFieldError`, `getGeneralErrors`, the per-field
pruning of `handleInputChange`, and the e-mail rule both forms use) and
`Wrappers` (`Option`).

Where the page keeps state and changes it step by step, the model is a
class: `Booking.BookingWizard` (fields `step` and `draft`),
`Register.RegisterPage` and `Login.LoginPage`. The validators that push
errors one by one are methods proved equal to a specification function
(`ExpectedErrors`), and the lemmas about that function state what the list
means. `getAvailableDates` is a loop method proved equal to the first 21
non-Sunday offsets in 1..30. The gallery and artist helpers are pure and
are functions.

Calendar days are modelled as offsets from today (1 = tomorrow) with a
weekday `(todayWeekday + offset) % 7`, 0 being Sunday. The booking guard is
a function of the step and the draft; as in the page, the handlers
`nextStep` and `handleSubmit` do not check it themselves. The buttons that
call them are disabled while it fails, so the guard appears as the
precondition of the button actions `PressNext` and `PressSubmit`.

A consequence proved in `Artists.BadgeLabel`: the badge shows `#rank` for
every rank up to ten and the rank icon otherwise, so the icon shown is
always the star; the crown and the two medals of `getRankIcon` never reach
the badge.

## Model

| member | source | states |
|---|---|---|
| Booking.WithCustomerField | app/booking/components/BookingPage.tsx:155-163 | the named customer field takes the new value and every other customer field keeps its value |
| Booking.FindService | app/booking/components/BookingPage.tsx:150-152 | `None` exactly when no catalog entry has the id; otherwise an entry of the catalog with that id |
| Booking.CatalogLookup | app/booking/components/BookingPage.tsx:82-119 | the five services have ids 1 to 5 in catalog order: an id finds a service exactly when it is in 1..5, and then it is the entry at position id-1 |
| Booking.StripSpaceAndHyphen | app/booking/components/BookingPage.tsx:218 | removing whitespace and hyphens never lengthens the phone |
| Booking.CountDigitsAll | app/booking/components/BookingPage.tsx:217 | in a string of digits every character counts as a digit |
| Booking.StripAllDigitsIff | app/booking/components/BookingPage.tsx:217-218 | the stripped phone is all digits exactly when every character of the phone is a digit, whitespace or a hyphen, and then its length is the number of digits |
| Booking.IsBookingPhone | app/booking/components/BookingPage.tsx:217-219 | the phone check passes exactly when the phone holds only digits, whitespace and hyphens and at least nine digits |
| Booking.CanProceedAt | app/booking/components/BookingPage.tsx:209-224 | step 1: a service is chosen; step 2: date and time are both non-empty; step 3: the name is not all whitespace and the phone check passes; any other step: false |
| Booking.StripAppend | app/booking/components/BookingPage.tsx:218 | stripping distributes over concatenation, so the remaining characters keep their order |
| Booking.StripDigits | app/booking/components/BookingPage.tsx:218 | a digit string is left unchanged by stripping |
| Booking.HyphenatedPhonePasses | app/booking/components/BookingPage.tsx:217-219 | three digit groups joined by hyphens with nine or more digits in all pass the phone check (as `0912-345-678` does) |
| Booking.ShortPhoneFails | app/booking/components/BookingPage.tsx:217-219 | a phone with fewer than nine digits fails (as `091234` and the empty phone do) |
| Booking.ForeignCharacterFails | app/booking/components/BookingPage.tsx:217-219 | a phone with any character other than a digit, whitespace or hyphen fails (as `0912a45678` does) |
| Booking.WeekdayOf | app/booking/components/BookingPage.tsx:139 | the weekday of a day offset is in 0..6 |
| Booking.OpenDays | app/booking/components/BookingPage.tsx:136-142 | the non-Sunday offsets among 1..n: each in range and not a Sunday, strictly increasing, at most n of them |
| Booking.OpenDaysComplete | app/booking/components/BookingPage.tsx:136-142 | every non-Sunday offset in 1..n is among them |
| Booking.OpenDaysPrefix | app/booking/components/BookingPage.tsx:136-143 | scanning fewer days yields a prefix of scanning more, which is why stopping early is sound |
| Booking.WeekdayStep | app/booking/components/BookingPage.tsx:137-139 | the next day's weekday is the following weekday, Saturday (6) wrapping round to Sunday (0) |
| Booking.OpenDaysLength | app/booking/components/BookingPage.tsx:136-142 | the number of open days equals a plain count of non-Sunday offsets |
| Booking.OpenCountWeek | app/booking/components/BookingPage.tsx:136-142 | any seven consecutive days contain exactly six open days |
| Booking.OpenDaysEnough | app/booking/components/BookingPage.tsx:136-143 | 25 days always contain at least 21 open days, so the limit of 21 is always reached inside the 30-day scan |
| Booking.AvailableDatesFull | app/booking/components/BookingPage.tsx:133-146 | the generator returns exactly 21 days, the first 21 open days |
| Booking.AvailableDatesSound | app/booking/components/BookingPage.tsx:133-146 | 21 days, each 1 to 25 days after today, none a Sunday, strictly increasing |
| Booking.AvailableDatesComplete | app/booking/components/BookingPage.tsx:133-146 | every open day up to a returned day is itself returned |
| Booking.GetAvailableDates | app/booking/components/BookingPage.tsx:133-146 | the loop over days 1..30 that pushes non-Sundays and stops at 21 returns exactly the first 21 open days |
| Booking.FormatDate | app/booking/components/BookingPage.tsx:196-207 | the weekday label is the table entry for the weekday index |
| Booking.FormatDateRoundTrip | app/booking/components/BookingPage.tsx:196-207 | the label reads back as the same month and day, and its first dot sits right after the month printed without padding |
| Booking.FormatDateDayPadding | app/booking/components/BookingPage.tsx:204 | after the month and the dot the day takes exactly two characters below 10, the first a `0`, and exactly as many as its own digits from 10 on, so it is padded to two and no further |
| Booking.AvailableDatesNeverSundayLabel | app/booking/components/BookingPage.tsx:133-146 | in the model, where a day keeps the weekday it was generated with, no day button is labelled 週日 |
| Booking.BookingWizard.constructor | app/booking/components/BookingPage.tsx:53-69 | the wizard starts at step 1 with the empty draft |
| Booking.BookingWizard.NextStep | app/booking/components/BookingPage.tsx:165-169 | the step increases by one below step 3 and stays at 3; the draft is untouched; the step stays in 1..3 |
| Booking.BookingWizard.PrevStep | app/booking/components/BookingPage.tsx:171-175 | the step decreases by one above step 1 and stays at 1; the draft is untouched; the step stays in 1..3 |
| Booking.BookingWizard.HandleServiceSelect | app/booking/components/BookingPage.tsx:150-153 | the draft's service becomes the catalog lookup of the id; date, time, customer details and step are unchanged |
| Booking.BookingWizard.SelectDate | app/booking/components/BookingPage.tsx:395-397 | only the draft's date changes |
| Booking.BookingWizard.SelectTime | app/booking/components/BookingPage.tsx:416-426 | a button of one of the seven offered slots: only the draft's time changes |
| Booking.BookingWizard.HandleCustomerInfoChange | app/booking/components/BookingPage.tsx:155-163 | exactly the named customer field changes; service, date, time, other customer fields and step are unchanged |
| Booking.BookingWizard.HandleSubmit | app/booking/components/BookingPage.tsx:177-194 | the success notice is shown, the submitted draft is the old draft, and the wizard is back at step 1 with the empty draft |
| Booking.BookingWizard.CloseModalAndReset | app/booking/components/BookingPage.tsx:225-235 | back at step 1 with the empty draft |
| Booking.BookingWizard.PressNext | app/booking/components/BookingPage.tsx:576-588 | the enabled forward button moves exactly one step ahead and keeps the draft |
| Booking.BookingWizard.PressSubmit | app/booking/components/BookingPage.tsx:589-597 | the enabled submit button only submits a draft that passes the step-3 guard, then resets the wizard |
| FormErrors.FindFieldError | app/register/components/RegisterPage.tsx:169-171 | `None` exactly when no error has the field; otherwise the message of the first error with that field |
| FormErrors.GeneralErrors | app/register/components/RegisterPage.tsx:174-176 | exactly the errors without a field, never more than the list |
| FormErrors.PruneField | app/register/components/RegisterPage.tsx:123-125 | exactly the errors of other fields and the general errors remain |
| FormErrors.PruneFieldAppend | app/register/components/RegisterPage.tsx:124 | pruning distributes over concatenation: the remaining errors keep their order |
| FormErrors.GeneralErrorsAppend | app/register/components/RegisterPage.tsx:175 | the general-error filter distributes over concatenation, keeping order |
| FormErrors.PruneFieldAbsent | app/register/components/RegisterPage.tsx:123-125 | with no error for the field the list is unchanged, so skipping the update when nothing matches agrees with pruning |
| FormErrors.PruneFieldClears | app/register/components/RegisterPage.tsx:123-125 | after pruning no error for the field remains |
| FormErrors.PruneFieldKeepsOthers | app/register/components/RegisterPage.tsx:123-125 | looking up any other field gives the same answer as before pruning |
| FormErrors.PruneFieldKeepsGeneral | app/register/components/RegisterPage.tsx:123-125 | pruning a field never removes or reorders a general error |
| FormErrors.FindFieldErrorEntry | app/register/components/RegisterPage.tsx:169-171 | looking a field up in one optional entry followed by more errors |
| FormErrors.RankedEntry | app/register/components/RegisterPage.tsx:62-111 | putting a lower-ranked entry in front of a ranked list keeps it ranked |
| FormErrors.RankedDistinctFields | app/register/components/RegisterPage.tsx:62-111 | in a list ranked by field no field occurs twice |
| FormErrors.EmailRule | app/login/components/LoginPage.tsx:40-44 | the e-mail error is "請輸入電子信箱" exactly when empty, "電子信箱格式不正確" exactly when non-empty and the pattern `\S+@\S+\.\S+` matches nowhere, and absent exactly when it matches |
| Text.Trim | app/register/components/RegisterPage.tsx:66 | the result is a stretch of the input, starting where the leading whitespace ends, with only whitespace before and after it, and it neither starts nor ends with whitespace |
| Text.TrimStart | app/register/components/RegisterPage.tsx:66 | the result is a suffix, the removed prefix is whitespace, and the result does not start with whitespace |
| Text.TrimEnd | app/register/components/RegisterPage.tsx:66 | the result is a prefix, the removed suffix is whitespace, and the result does not end with whitespace |
| Text.TrimEmptyIff | app/booking/components/BookingPage.tsx:220 | a string trims to empty exactly when it is all whitespace |
| Text.NatToString | app/artists/Artists.tsx:380 | a non-empty digit string without a leading zero unless it is the single digit `0` (the shortest decimal form) |
| Text.IntToString | app/artists/Artists.tsx:380 | for a non-negative number a non-empty digit string that reads back as the number; for a negative one a minus sign followed by a digit string that reads back as its absolute value; in both cases no leading zero before further digits |
| Text.ParseNatToString | app/booking/components/BookingPage.tsx:204 | printing then reading a number gives the number back |
| Text.LeadingZerosValue | app/booking/components/BookingPage.tsx:204 | leading zeros do not change a digit string's value |
| Text.PadStart | app/booking/components/BookingPage.tsx:204 | the padded string has at least the width, ends with the input and is padded only with the fill character |
| Text.PadStartZeroValue | app/booking/components/BookingPage.tsx:204 | zero-padding a digit string keeps it a digit string of the same value |
| Text.EmailShapeIsRegex | app/register/components/RegisterPage.tsx:75 | the two-position check agrees with the unanchored pattern `\S+@\S+\.\S+` on every string |
| Text.EmailShapeNonEmpty | app/register/components/RegisterPage.tsx:73-75 | the empty string never matches the pattern |
| Register.WithField | app/register/components/RegisterPage.tsx:117-120 | the named form field takes the new value and the others keep theirs |
| Register.CheckPasswordStrength | app/register/components/RegisterPage.tsx:46-57 | the checks are exactly the five tests (eight or more characters, an upper-case letter, a lower-case letter, a digit, a special character) and the score is the number of them that are true; so it lies in 0..5, is 0 exactly when no check passes and 5 exactly when all pass |
| Register.StrengthMonotone | app/register/components/RegisterPage.tsx:46-57 | appending characters to a password never lowers its score: every check that passed still passes, and the score counts the passing checks |
| Register.EmptyPasswordScoresZero | app/register/components/RegisterPage.tsx:48-55 | the empty password passes no check |
| Register.CheckName | app/register/components/RegisterPage.tsx:65-70 | the name block pushes exactly the name rule's error |
| Register.CheckEmail | app/register/components/RegisterPage.tsx:72-77 | the e-mail block pushes exactly the e-mail rule's error |
| Register.CheckPhone | app/register/components/RegisterPage.tsx:79-87 | the phone block pushes exactly the phone rule's error |
| Register.CheckPassword | app/register/components/RegisterPage.tsx:89-97 | the password block pushes exactly the password rule's error |
| Register.CheckConfirm | app/register/components/RegisterPage.tsx:99-104 | the confirmation block pushes exactly the confirmation rule's error |
| Register.ValidateForm | app/register/components/RegisterPage.tsx:62-112 | the list built is the specification list: one optional entry per rule in rule order, then the terms error |
| Register.ExpectedErrorsOrdered | app/register/components/RegisterPage.tsx:62-111 | errors come in the order name, e-mail, phone, password, confirmation, general, and no field appears twice |
| Register.FieldErrorIsRule | app/register/components/RegisterPage.tsx:62-111 | looking up any field in the list gives exactly that field's rule outcome |
| Register.GeneralErrorIsTerms | app/register/components/RegisterPage.tsx:106-109 | the only general error is the terms error, present exactly when the terms are not accepted |
| Register.NameRule | app/register/components/RegisterPage.tsx:66-70 | "請輸入您的姓名" exactly when the name is all whitespace, "姓名至少需要 2 個字符" exactly when one character remains after trimming, no error exactly when two or more remain |
| Register.PhoneRule | app/register/components/RegisterPage.tsx:80-87 | no error exactly for `09` and eight more digits; "請輸入手機號碼" exactly when empty; the format error otherwise |
| Register.PasswordRule | app/register/components/RegisterPage.tsx:90-97 | a password error exactly when fewer than three checks pass; "請輸入密碼" exactly when empty; the strength message exactly when non-empty and fewer than three checks pass |
| Register.ConfirmRule | app/register/components/RegisterPage.tsx:100-104 | a confirmation error exactly when it is empty or differs from the password; "請確認密碼" exactly when empty; "密碼不一致" exactly when non-empty and different |
| Register.ExpectedErrorsEmptyIff | app/register/components/RegisterPage.tsx:62-111 | the list is empty exactly when every rule passes and the terms are accepted |
| Register.RegisterPage.constructor | app/register/components/RegisterPage.tsx:30-43 | empty form, no errors, boxes unticked, not loading |
| Register.RegisterPage.HandleInputChange | app/register/components/RegisterPage.tsx:115-126 | only the named field changes, and the errors become the old errors minus exactly that field's errors |
| Register.RegisterPage.SetAgreeToTerms | app/register/components/RegisterPage.tsx:440 | only the terms box changes |
| Register.RegisterPage.SetAgreeToMarketing | app/register/components/RegisterPage.tsx:465 | only the marketing box changes |
| Register.RegisterPage.ShowValidation | app/register/components/RegisterPage.tsx:133-139 | a non-empty list is stored as the errors with loading unchanged; an empty one clears the errors and starts loading; the form and both boxes are unchanged |
| Register.RegisterPage.HandleSubmit | app/register/components/RegisterPage.tsx:129-139 | submission starts exactly when all rules pass; a failing form stores the non-empty validated list and leaves loading unchanged; a passing one clears the errors and starts loading |
| Register.RegisterPage.FinishSubmit | app/register/components/RegisterPage.tsx:154-158 | from any state, loading ends; a failed request leaves the single general error "註冊失敗，請稍後再試" |
| Login.WithField | app/login/components/LoginPage.tsx:58-61 | the named field takes the new value and the other keeps its value |
| Login.ValidateForm | app/login/components/LoginPage.tsx:37-53 | the list built is the e-mail rule's optional error followed by the password rule's |
| Login.ExpectedErrorsOrdered | app/login/components/LoginPage.tsx:37-53 | at most two errors, e-mail before password, no field twice |
| Login.FieldErrorIsRule | app/login/components/LoginPage.tsx:106-108 | looking up a field gives exactly that field's rule outcome |
| Login.NoGeneralErrors | app/login/components/LoginPage.tsx:111-113 | validation never produces a general error |
| Login.PasswordRule | app/login/components/LoginPage.tsx:46-50 | "請輸入密碼" exactly when empty, "密碼至少需要 6 個字符" exactly for one to five characters, no error from six on |
| Login.ExpectedErrorsEmptyIff | app/login/components/LoginPage.tsx:37-53 | the list is empty exactly when the e-mail matches the pattern and the password has at least six characters |
| Login.LoginPage.constructor | app/login/components/LoginPage.tsx:26-34 | empty form, no errors, not loading, boxes unticked, password hidden |
| Login.LoginPage.HandleInputChange | app/login/components/LoginPage.tsx:56-67 | only the named field changes, and the errors become the old errors minus exactly that field's errors |
| Login.LoginPage.SetRememberMe | app/login/components/LoginPage.tsx:220 | only the remember-me box changes |
| Login.LoginPage.TogglePasswordVisibility | app/login/components/LoginPage.tsx:197 | only the password visibility flips |
| Login.LoginPage.HandleSubmit | app/login/components/LoginPage.tsx:70-80 | submission starts exactly when both rules pass; a failing form stores the non-empty validated list and leaves loading unchanged; a passing one clears the errors and starts loading |
| Login.LoginPage.FinishSubmit | app/login/components/LoginPage.tsx:91-95 | from any state, loading ends; a failed request leaves the single general error "登入失敗，請檢查您的帳號密碼" |
| ListToggle.RemoveAll | app/gallery/Gallery.tsx:138 | no copy of the removed option remains and every other option keeps its count |
| ListToggle.RemoveAllAppend | app/gallery/Gallery.tsx:138 | removal distributes over concatenation, so the remaining options keep their relative order |
| ListToggle.RemoveAllAbsent | app/gallery/Gallery.tsx:138 | removing an absent option changes nothing |
| ListToggle.Toggle | app/gallery/Gallery.tsx:136-140 | the clicked option ends up with no copy when it was selected and exactly one when it was not; every other option keeps its count |
| ListToggle.ToggleFlips | app/gallery/Gallery.tsx:136-140 | the clicked option's membership flips, every other option keeps its membership, an absent option is appended after the unchanged list, and a present one loses every copy |
| ListToggle.ToggleTwiceAbsent | app/gallery/Gallery.tsx:136-140 | clicking an unselected option twice restores the list exactly |
| ListToggle.ToggleTwiceSameSet | app/gallery/Gallery.tsx:136-140 | clicking any option twice restores the set of selected options |
| ListToggle.ToggleKeepsNoDuplicates | app/gallery/Gallery.tsx:136-140 | a duplicate-free selection stays duplicate-free |
| ListToggle.ToggleKeepsSelection | app/gallery/Gallery.tsx:136-140 | clicking an offered option keeps a selection a duplicate-free list of offered options |
| Gallery.ToggleStyle | app/gallery/Gallery.tsx:136-140 | the clicked style's membership flips, other styles keep theirs, and a well-formed selection of offered styles stays one |
| Gallery.GetDifficultyColor | app/gallery/Gallery.tsx:143-154 | `#10B981` for 簡約, `#F59E0B` for 中等, `#EF4444` for 複雜, and the default grey `#6B7280` exactly for any other value |
| Gallery.DifficultyColorsDistinct | app/gallery/Gallery.tsx:143-154 | the three difficulties have three different colours |
| Artists.ToggleSpecialty | app/artists/Artists.tsx:326-331 | the clicked specialty's membership flips, other entries keep theirs, and a well-formed selection of offered specialties stays one |
| Artists.GetRankBadgeColor | app/artists/Artists.tsx:224-228 | the gold gradient exactly for rank up to 3, the silver one exactly for 4 to 10, the bronze one exactly above 10 |
| Artists.GetRankIcon | app/artists/Artists.tsx:230-235 | a single symbol, the star exactly for ranks other than 1, 2 and 3 |
| Artists.MedalsDistinct | app/artists/Artists.tsx:230-235 | ranks 1, 2 and 3 get three different medals |
| Artists.BadgeLabel | app/artists/Artists.tsx:379-381 | above rank 10 the star; otherwise `#` followed by the rank's digits without a leading zero, reading back as the rank; never a medal |
| Artists.GenerateMoreArtists | app/artists/Artists.tsx:178-220 | one artist per name, in name order |
| Artists.AllArtistsLayout | app/artists/Artists.tsx:57-222 | 21 artists; the one at position k has id and rank k+1, so ids are distinct and ranks follow list order |
| Artists.RosterBadges | app/artists/Artists.tsx:222-235 | every artist from the eleventh on shows the star, and the first three get the gold badge |

## Left out

- Rendering, Tailwind class names other than the badge gradients, icons, the modal's visibility and title/message fields (apart from the notice `handleSubmit` shows), and the `router.push` navigation calls are not modelled.
- The simulated request in both forms (the `setTimeout` promise, `alert` and `console.log`) is reduced to `FinishSubmit(failed)`, whose flag stands for the outcome the `catch` would see; `console.log` of the booking in `handleSubmit` is left out.
- `handleKeyPress` is not modelled separately: it calls `handleSubmit`, which the models take without a precondition, so a submit by Enter is covered even while loading, and so is the second request's completion, which `FinishSubmit` accepts with loading already off.
- The JavaScript `Date` object is not modelled: days are offsets from today with a weekday index, `formatDate` takes month, day and weekday as numbers, and the ISO string `toISOString().split("T")[0]`, with the time-zone shift it can cause, is not modelled.
- Booking.GetAvailableDates: returns day offsets rather than date strings.
- Booking.AvailableDatesNeverSundayLabel: holds only for the model's day offsets. The page stores each day as the UTC date of `toISOString` (BookingPage.tsx:141) and `formatDate` reads it back with `new Date` and the local `getDay` (BookingPage.tsx:199-205); west of UTC, or before 08:00 in UTC+8, that round trip can move the label a day, so a Monday can be shown as 週日.
- Text.TrimStart, Text.TrimEnd and the length checks work on Unicode scalar values; JavaScript measures strings in UTF-16 code units, so a name or password with characters outside the Basic Multilingual Plane is shorter here than in the page.
- The regular expressions are written as predicates over characters (`\s` as a fixed whitespace set, `\d` as ASCII digits); no regular-expression engine is modelled.
- Form fields are identified by an enumeration instead of the input element's `name` string, so an input with an unknown name is not representable.
- The random fields of `generateMoreArtists` (rating, reviews, specialties, location, price and the rest), the avatar URLs and the fixed artists' descriptive fields are left out; an artist keeps id, rank, name and the featured flag.
- Floating-point display (`toFixed`, follower counts, price formatting) is left out.
- `showConfirmPassword`, the register page's password visibility toggles and the gallery's search box, filter panel visibility and selected work are presentation state and are left out.
- Booking.BookingWizard.NextStep and Booking.BookingWizard.HandleSubmit do not check the step guard, as in the page; the guard is a precondition only of the button actions `PressNext` and `PressSubmit`.
- Booking.StripSpaceAndHyphen: its own contract only bounds the length; what it keeps and removes is stated by the lemmas about it.
- The phone check follows the code: after stripping, the whole remaining string must be nine or more digits (`^\d{9,}$` is anchored), not merely contain a run of nine digits; `0912-345-678` has ten digits after stripping.
- Booking.BookingScenario is a worked example through the enabled buttons and states no postcondition.
