# Carpet-cleaning order wizard — a Dafny model

This project models the logic of a carpet-cleaning pickup order wizard. The wizard is a web front end with five screens:

1. A calculator. The customer enters carpet sizes and sees area, price, the free-shipping flag and progress.
2. A contact and address form. It has seven required-field checks, a sector rule tied to the locality, street suggestions and a composed address.
3. A pickup-date calendar. Past days, today, Sundays and listed holidays are blocked.
4. An observations screen. It has a small arithmetic challenge.
5. A success screen.

A separate builder assembles the order record that is sent to the mail script.

The model is split into modules:

| file | module | models |
|---|---|---|
| `wrappers.dfy` | `Wrappers` | `Option` |
| `js_text.dfy` | `JsText` | the JavaScript built-ins the code relies on: `parseFloat`, `parseFloat(x) \|\| 0`, `parseInt`, `Number` on digit strings, `String(n)`, `padStart`, `split`, `trim`, `toLowerCase`, the `\s` class |
| `types.dfy` | `Types` | carpets, totals, screens, order data, the price constants and the block list |
| `carpet_card.dfy` | `CarpetCard` | one card's area, price and highlight |
| `totals.dfy` | `TotalsEngine` | the `totals` memo of the wizard |
| `calendar.dfy` | `Calendar` | the parts of JavaScript `Date` the calendar uses: month length, weekday, month arithmetic, the `YYYY-MM-DD` string and its parse |
| `scheduling_form.dfy` | `SchedulingForm` | the blocked-day rule, the month grid, and the calendar screen as a class |
| `location_form.dfy` | `LocationForm` | the form record, the sector rule, validation, the e-mail pattern, the composed address, street suggestions, and the screen as a class |
| `observations_form.dfy` | `ObservationsForm` | the arithmetic challenge, and the screen as a class |
| `app.dfy` | `App` | the wizard: a pure `Step` over (screen, carpets, order data), and the class `Wizard`, whose handlers are proved to perform `Step` |
| `email_service.dfy` | `EmailService` | the `orderDetails` record |

Modelling choices:

- Numbers are reals.
- `Math.random()` draws are parameters in [0, 1).
- The clock is a parameter: "today" is a civil date given when the calendar opens.
- A day is an integer day number: day 0 is 0001-01-01, a Monday.
- `new Date(y, m, d)` is modelled with its month overflow. It also keeps the rule that maps years 0..99 to 1900..1999.
- Handlers of a screen are callable only while that screen is shown, so the class methods require it. The pure `App.Step` instead treats an action the screen does not offer as a no-op.

Where the code and the wizard's documented behaviour differ, the model follows the code:

- The calculator opens with two carpets: 250 × 200 cm and an empty one (`App.tsx:13-16`). After "new order" there is one empty carpet.
- Finishing the order only logs it and shows the success screen (`App.tsx:78-85`). It does not call the e-mail builder and does not store the observations in the order data. `EmailService` is therefore modelled as a standalone function.
- The challenge accepts any answer that `parseInt` reads as the sum. "7.9", "7e1" and "07", all values a number input can hold, pass for 3 + 4, not only "7". A new challenge is drawn at random and may equal the old one.

## Model

| member | source | states |
|---|---|---|
| CarpetCard.Area | components/CarpetCard.tsx:14-17 | the card's area (l/100)(w/100) m², each dimension read with `parseFloat(x) \|\| 0`; its values are stated by `AreaOfWholeDimensions`, `UnreadableDimensionGivesZero` and `ActiveCardHasPositiveArea` |
| CarpetCard.Price | components/CarpetCard.tsx:18 | the card's price, its area at 20 lei per m² with no minimum; stated by the same lemmas |
| CarpetCard.IsActive | App.tsx:172 | a card is highlighted when `parseFloat` reads both dimensions as positive numbers; `ActiveCardHasPositiveArea` states what that implies |
| CarpetCard.AreaOfWholeDimensions | components/CarpetCard.tsx:14-18 | whole-centimetre dimensions l, w give the card area (l/100)(w/100) and the price area × 20 |
| CarpetCard.UnreadableDimensionGivesZero | components/CarpetCard.tsx:14-18 | a length or a width with no digit (empty included) reads as 0, so the card's area and price are 0 |
| CarpetCard.ActiveCardHasPositiveArea | App.tsx:172 | a highlighted card (both dimensions parse to positive numbers) has positive area and price |
| TotalsEngine.TotalArea | App.tsx:46-50 | the memo's `reduce` from 0, adding (l/100)(w/100) per carpet with each dimension read leniently; stated by `TotalAreaIsSumOfCards` and `TotalAreaAppend` |
| TotalsEngine.ComputeTotals | App.tsx:45-66 | the area is the fold over the carpets; the price is max(area × 20, 100), so never below 100; free shipping holds iff the price reaches the threshold; progress is min(price / threshold × 100, 100) and lies in (0, 100] |
| TotalsEngine.ShippingAlwaysFree | App.tsx:52-57 | with the shipped constants, shipping is always free and progress is exactly 100 |
| TotalsEngine.PriceAboveMinimum | App.tsx:52-54 | once area × 20 reaches 100, the price is exactly area × 20 |
| TotalsEngine.UnreadableCarpetsCostMinimum | App.tsx:46-54 | when no length parses (all empty, say), the area is 0 and the price is exactly the minimum 100 |
| TotalsEngine.TotalAreaIsSumOfCards | App.tsx:46-50 | the total area equals the sum of the areas the cards show |
| TotalsEngine.TotalAreaAppend | App.tsx:46-50 | appending a carpet adds exactly its card area to the total |
| TotalsEngine.AddingCarpetNeverLowersPrice | App.tsx:45-54 | adding a carpet of non-negative area never lowers the price |
| Calendar.NewDate | components/SchedulingForm.tsx:25 | `new Date(y, m, d)` as a day number, with month and day overflow carried and years 0..99 read as 1900..1999; stated by `NewDateInRange`, `DayZeroIsLastDayOfMonth` and `NewYearFollowsDecember` |
| Calendar.DateString | components/SchedulingForm.tsx:105 | the `YYYY-MM-DD` string of a grid day; stated by `DateStringRoundTrip` |
| Calendar.ParseDateString | components/SchedulingForm.tsx:24-25 | `split('-').map(Number)` read into `new Date(year, month - 1, day)`, with `None` for an Invalid Date; stated by `ParseDateStringOfDate` and `ParseDateStringOfGridDay` |
| Calendar.DaysInMonth | components/SchedulingForm.tsx:17 | month length is 28..31; February has 29 days iff the year is a leap year; April, June, September and November have 30 |
| Calendar.YearLength | components/SchedulingForm.tsx:17 | a year has 366 days iff it is a leap year, and its twelve months add up to it |
| Calendar.DayZeroIsLastDayOfMonth | components/SchedulingForm.tsx:17 | `new Date(y, m + 1, 0)` is the last day of month m |
| Calendar.NewYearFollowsDecember | components/SchedulingForm.tsx:17 | the day after 31 December is 1 January of the next year |
| Calendar.NewDateInRange | components/SchedulingForm.tsx:25 | outside years 0..99, `new Date(y, m, d)` is the civil day (y, m, d) |
| Calendar.FirstDayOffset | components/SchedulingForm.tsx:45 | the grid offset lies in 0..6 |
| Calendar.OffsetIsZeroOnMonday | components/SchedulingForm.tsx:44-45 | the offset is 0 exactly when the month starts on a Monday; offset plus month length is at most 37 cells |
| Calendar.GridColumnIsWeekday | components/SchedulingForm.tsx:101-104 | day d of the grid falls in its Monday-first weekday column |
| Calendar.ShiftMonth | components/SchedulingForm.tsx:20-21 | moving the cursor always gives a real month |
| Calendar.NextFromDecember | components/SchedulingForm.tsx:21 | next month from December is January of the next year |
| Calendar.PrevFromJanuary | components/SchedulingForm.tsx:20 | previous month from January is December of the previous year |
| Calendar.ShiftWithinYear | components/SchedulingForm.tsx:20-21 | inside a year, next and previous change the month by one |
| Calendar.NavigationRoundTrip | components/SchedulingForm.tsx:20-21 | for years above 100, previous after next and next after previous return to the same month |
| Calendar.NavigationAtYearHundred | components/SchedulingForm.tsx:20-21 | going back from January 100 gives December 99, which `Date` reads as 1999, so going forward again gives January 2000 |
| Calendar.TwoDigitsRoundTrip | components/SchedulingForm.tsx:105 | a zero-padded two-digit field has no '-' and `Number` reads its value back |
| Calendar.DateStringRoundTrip | components/SchedulingForm.tsx:105 | the day string splits on '-' into year, month and day fields, and `Number` reads back y, m + 1 and d |
| Calendar.ParseDateStringOfGridDay | components/SchedulingForm.tsx:23-25 | parsing the string of a grid day gives back that very day |
| SchedulingForm.IsDateBlocked | components/SchedulingForm.tsx:23-33 | a date on the block list is always blocked; the full rule for grid days is `GridDayBlocked`, for unreadable strings `UnreadableDateBlockedOnlyIfListed` |
| SchedulingForm.GridDays | components/SchedulingForm.tsx:44 | the grid shows 28..31 day buttons |
| SchedulingForm.GridDayBlocked | components/SchedulingForm.tsx:23-33 | a grid day is blocked iff it is on or before today, or a Sunday, or its string is on the block list |
| SchedulingForm.TodayIsBlocked | components/SchedulingForm.tsx:29 | today and every earlier day are blocked |
| SchedulingForm.UnreadableDateBlockedOnlyIfListed | components/SchedulingForm.tsx:24-31 | a string that is not a date is blocked exactly when it is listed |
| SchedulingForm.JuneExample | components/SchedulingForm.tsx:23-33 | with today 2025-06-10 and "2025-06-20" listed: the 10th, Sunday the 15th and the 20th are blocked; Thursday the 12th is not |
| SchedulingForm.CellsLayout | components/SchedulingForm.tsx:101-104 | the grid is the empty leading cells then days 1..n; day d is at index offset + d − 1 in its weekday column; at most 37 cells |
| SchedulingForm.SchedulingForm.constructor | components/SchedulingForm.tsx:13-15 | the screen opens on the current month with nothing selected and no error |
| SchedulingForm.SchedulingForm.ShowPrevMonth | components/SchedulingForm.tsx:20 | only the shown month changes, to the previous one |
| SchedulingForm.SchedulingForm.ShowNextMonth | components/SchedulingForm.tsx:21 | only the shown month changes, to the next one |
| SchedulingForm.SchedulingForm.ClickDay | components/SchedulingForm.tsx:103-117 | a blocked day changes nothing; any other day is selected and the error cleared; the selection is always empty or unblocked |
| SchedulingForm.SchedulingForm.ClickNext | components/SchedulingForm.tsx:35-41 | without a selection the fixed error is set and nothing is passed on; otherwise exactly the selected, unblocked day is passed on |
| LocationForm.InitialForm | components/LocationForm.tsx:44-58 | the form opens on the capital with no sector and floor "0" |
| LocationForm.SectorAfterCityChange | components/LocationForm.tsx:64-70 | another locality forces "IF"; the capital with "IF" clears the sector; otherwise the sector stays |
| LocationForm.CityChangeKeepsSectorConsistent | components/LocationForm.tsx:64-70 | after a locality change, the sector is "IF" outside the capital and empty or 1..6 in it |
| LocationForm.MatchedEmailHasShape | components/LocationForm.tsx:94 | a string matching `^\S+@\S+\.\S+$` has no white space and has an '@' and a later '.', with characters before, between and after |
| LocationForm.ShapedEmailMatches | components/LocationForm.tsx:94 | every string of that shape matches the pattern |
| LocationForm.EmailPatternMeaning | components/LocationForm.tsx:94 | the pattern accepts exactly the strings of that shape |
| LocationForm.PhoneCheckIsLengthOnly | components/LocationForm.tsx:93 | the phone check fails iff the phone has fewer than 10 characters, whatever they are |
| LocationForm.EmailCheck | components/LocationForm.tsx:94 | the e-mail check fails iff the address does not have the e-mail shape |
| LocationForm.ValidationErrors | components/LocationForm.tsx:90-99 | the error map has a key exactly for each failing check, with that field's message |
| LocationForm.ComposeAddress | components/LocationForm.tsx:107 | the address: locality, sector, street type, street and number, then each non-empty optional field with its tag; stated by `AddressStartsWithLocality`, `AddressWithoutOptionalFields` and `DefaultFloorAppears` |
| LocationForm.AddressStartsWithLocality | components/LocationForm.tsx:107 | the address begins with the locality, ", Sector ", the sector, ", " and the street type |
| LocationForm.AddressWithoutOptionalFields | components/LocationForm.tsx:107 | with every optional field empty, no optional segment is appended |
| LocationForm.DefaultFloorAppears | components/LocationForm.tsx:107 | with the default floor "0" and the other optional fields empty, the address ends in ", Et. 0" |
| LocationForm.MatchingStreets | components/LocationForm.tsx:85-86 | exactly the streets whose lower-cased name starts with the query, none added |
| LocationForm.MatchingStreetsInOrder | components/LocationForm.tsx:85-86 | the matches keep the table's order |
| LocationForm.FilteredStreets | components/LocationForm.tsx:82-88 | a blank query gives no suggestions; otherwise the matching streets (table streets starting with the trimmed, lower-cased query) in table order, cut to the first 15 when there are more |
| LocationForm.SuggestionsInOrderAndComplete | components/LocationForm.tsx:82-88 | suggestions keep the table order, and with at most 15 matches every match is suggested |
| LocationForm.LocationForm.constructor | components/LocationForm.tsx:43-59 | the screen opens on the initial form with no errors and a consistent sector |
| LocationForm.LocationForm.EditText | components/LocationForm.tsx:161-353 | typing into a text input, or picking a suggestion, changes that field only |
| LocationForm.LocationForm.SelectCity | components/LocationForm.tsx:64-70 | a new locality is stored and the sector rule applied; the same locality changes nothing |
| LocationForm.LocationForm.SelectSector | components/LocationForm.tsx:218-232 | in the capital the sector is set to "" or 1..6; elsewhere the list is disabled |
| LocationForm.LocationForm.SelectStreetType | components/LocationForm.tsx:241-247 | the street type becomes one of the five offered |
| LocationForm.LocationForm.Validate | components/LocationForm.tsx:90-102 | the error map is replaced by the failing checks' messages; the result is true iff it is empty, iff no check fails |
| LocationForm.LocationForm.ClickNext | components/LocationForm.tsx:104-116 | only a form passing every check is handed on: contact fields unchanged, address composed, phone of at least 10 characters, e-mail of the e-mail shape |
| ObservationsForm.Operand | components/ObservationsForm.tsx:22-23 | every drawn operand lies in 1..10 |
| ObservationsForm.EveryOperandReachable | components/ObservationsForm.tsx:22-23 | each of 1..10 comes out of some draw |
| ObservationsForm.Accepts | components/ObservationsForm.tsx:29 | the challenge passes when `parseInt` of the answer equals the expected sum; stated by the lemmas below |
| ObservationsForm.DecimalAnswerAcceptedIffSum | components/ObservationsForm.tsx:29 | a plain decimal answer passes iff it is the expected sum |
| ObservationsForm.TrailingTextAccepted | components/ObservationsForm.tsx:29 | the sum followed by text not starting with a digit (or an x) passes too |
| ObservationsForm.FractionalAnswerAccepted | components/ObservationsForm.tsx:29 | the answer "7.9" passes the challenge 3 + 4, because `parseInt` stops at the decimal point |
| ObservationsForm.BlankAnswerRejected | components/ObservationsForm.tsx:29 | an empty or blank answer never passes, whatever the expected sum, including 0 before the first draw |
| ObservationsForm.ObservationsForm.constructor | components/ObservationsForm.tsx:12-15 | the first render holds 0 + 0 = 0, empty texts and no error |
| ObservationsForm.ObservationsForm.GenerateCaptcha | components/ObservationsForm.tsx:21-26 | new operands in 1..10, their sum in 2..20, an empty answer; nothing else changes |
| ObservationsForm.ObservationsForm.EditObservations | components/ObservationsForm.tsx:73-74 | only the observations text changes |
| ObservationsForm.ObservationsForm.EditAnswer | components/ObservationsForm.tsx:94-98 | the answer changes and the error is cleared |
| ObservationsForm.ObservationsForm.ClickFinish | components/ObservationsForm.tsx:28-35 | the observations are handed on iff the answer passes, with nothing changed; otherwise the fixed error is set, a new challenge drawn and the answer cleared |
| App.Step | App.tsx:28-124 | the wizard's reaction to one action on the screen that offers it: edit, add or remove a carpet, move forward with the submitted data, go back, restart; stated by the lemmas below and proved of the `Wizard` handlers |
| App.UpdateCarpets | App.tsx:28-30 | same length and order; carpets with another id are unchanged; carpets with the id get the new value in that dimension |
| App.UpdateChangesOnlyThatDimension | App.tsx:28-30 | an edit keeps every id and the other dimension, and sets the edited one exactly where the id matches |
| App.ScreenChangesFollowEdges | App.tsx:68-124 | every change of screen is a forward step, a back step or the restart; no screen is skipped |
| App.BackKeepsData | App.tsx:95-124 | going back changes only the screen, to the previous one |
| App.CarpetsNeverEmpty | App.tsx:39-43 | no action empties the carpet list |
| App.AlwaysACarpet | App.tsx:39-43 | whatever the user does from the opening state, at least one carpet remains |
| App.CarpetsChangeOnlyOnCalculator | App.tsx:95-124 | off the calculator, only the restart changes the carpets |
| App.LocationRecorded | App.tsx:68-71 | the location step stores name, phone, e-mail and address, and keeps the date and observations |
| App.FinishStoresNothing | App.tsx:78-85 | finishing only switches to the success screen |
| App.RestartForgets | App.tsx:88-92 | "new order" gives the calculator, one empty carpet with id "1" and empty order data, so the price is the minimum |
| App.AddCarpetKeepsTotals | App.tsx:32-37 | adding appends one empty carpet, leaves the others unchanged and leaves the totals unchanged |
| App.EmptyCarpetAddsNothing | App.tsx:32-37 | an appended empty carpet adds no area |
| App.SameAreaSameTotals | App.tsx:45-66 | the totals depend on the carpets only through the total area |
| App.RemoveLastCarpetArea | App.tsx:39-43 | removing keeps the prefix, drops exactly the last carpet, and takes exactly its area off the total |
| App.OrderPath | App.tsx:68-85 | the forward path reaches success with contact, address and date recorded, and carpets untouched |
| App.Wizard.constructor | App.tsx:12-26 | the opening state: the calculator, two carpets, empty order data |
| App.Wizard.UpdateCarpet | App.tsx:28-30 | the loop builds the updated list in place of `map`; the new state is `Step` of the old |
| App.Wizard.AddCarpet | App.tsx:32-37 | one empty carpet with the given id is appended |
| App.Wizard.RemoveLastCarpet | App.tsx:39-43 | with more than one carpet the last one is removed; a single carpet is kept; the new state is `Step` of the old |
| App.Wizard.Continue | App.tsx:229-232 | the calculator moves on to the location screen, keeping carpets and order data |
| App.Wizard.SubmitLocation | App.tsx:68-71 | the new state is `Step` of the old on the location submission |
| App.Wizard.SubmitSchedule | App.tsx:73-76 | the new state is `Step` of the old: the date is stored and the observations screen shown |
| App.Wizard.Finish | App.tsx:78-85 | the success screen is shown; the logged record is the order data with the observations |
| App.Wizard.Back | App.tsx:95-124 | the new state is `Step` of the old on a back button |
| App.Wizard.Restart | App.tsx:88-92 | the new state is the restarted state |
| EmailService.OrderSerial | services/emailService.ts:6 | the order serial lies in 1000..9999 |
| EmailService.OrderNumberShape | services/emailService.ts:6 | the order number is "DBY-" followed by four digits whose value is the serial |
| EmailService.OrderNumber | services/emailService.ts:6 | "DBY-" and the serial; stated by `OrderNumberShape` |
| EmailService.ActiveCarpets | services/emailService.ts:9 | the highlighted carpets in their order: an ordered selection of the list holding every highlighted carpet as often as it occurs, and nothing else |
| EmailService.Line | services/emailService.ts:11-15 | one carpet's line: its index, "LxW cm" from the raw texts, the card's area and price; stated by `ListedLinePositive` and `OrderDetailsOf` |
| EmailService.Lines | services/emailService.ts:10-15 | one line per carpet, numbered consecutively from the first index |
| EmailService.ListedLinePositive | services/emailService.ts:13-14 | a listed carpet's area and price are positive |
| EmailService.OrderDetailsOf | services/emailService.ts:5-21 | client unchanged; no more lines than carpets; line i has index i + 1, dimensions "LxW cm", and the card's area and price; totals copied; shipping "Gratuit" iff free |
| EmailService.ListedCarpetsPositive | services/emailService.ts:9-15 | every listed carpet has positive area and price |
| EmailService.ShippingAlwaysFreeInMail | services/emailService.ts:19 | with the wizard's own totals the shipping line always reads "Gratuit" |
| EmailService.InactiveCardAddsNothing | services/emailService.ts:9 | a card left out of the list with no negative dimension has area 0 |
| EmailService.ListedAreaIsTotalArea | services/emailService.ts:9-18 | with no negative dimension, the listed areas add up to the total area |
| EmailService.NegativeCardCountedButNotListed | services/emailService.ts:9 | a −50 × −50 cm card is left out of the list, yet adds 0.25 m² to the total area |
| EmailService.ActiveCarpetsKeepArea | services/emailService.ts:9 | when no dimension is negative, leaving out the cards that are not highlighted keeps the sum of the card areas |
| EmailService.ListedAreaOfLines | services/emailService.ts:10-15 | the areas of the lines add up to the sum of the listed cards' areas |
| Calendar.ParseDateStringOfDate | components/SchedulingForm.tsx:24-25 | reading back the string of any day (y, m, d) with d below 100 gives `new Date(y, m, d)` |
| App.RunKeepsCarpets | App.tsx:39-43 | after any sequence of actions from a state with carpets, at least one carpet remains |
| App.RestartedCostsMinimum | App.tsx:88-92 | the restarted order's single empty carpet costs exactly the minimum price |
| JsText.TrimStartShape | components/LocationForm.tsx:83 | trimming the start removes exactly the leading white space: the result is a suffix, everything removed is white space, and the result does not start with white space |
| JsText.TrimEndShape | components/LocationForm.tsx:83 | trimming the end removes exactly the trailing white space, in the same sense |
| JsText.PadStart | components/SchedulingForm.tsx:105 | a string of at least n characters is unchanged; a shorter one becomes n characters: fill characters, then the string itself |
| JsText.Filter | services/emailService.ts:9 | the kept elements all pass the test, come from the input, and include every element that passes |
| JsText.FilterInOrder | services/emailService.ts:9 | the kept elements keep their order in the input |
| JsText.FilterCounts | services/emailService.ts:9 | each element that passes is kept as often as it occurs, each other one never |
| JsText.ParseFloat | components/CarpetCard.tsx:14-15 | `parseFloat`: leading white space, a sign, digits with at most one decimal point, the rest ignored, `None` for NaN; stated by the `ParseFloat…` lemmas below |
| JsText.ParseFloatOfNatString | components/CarpetCard.tsx:14-15 | `parseFloat`, and `parseFloat(x) \|\| 0`, read a decimal digit string as its value |
| JsText.ParseFloatOfNegative | components/CarpetCard.tsx:14-15 | a '-' before a digit string negates what `parseFloat` reads |
| JsText.ParseFloatOfBlank | components/CarpetCard.tsx:14-15 | an empty or blank field is not a number, so `\|\| 0` reads it as 0 |
| JsText.ParseFloatWithoutDigits | components/CarpetCard.tsx:14-15 | a field without any digit is not a number and reads as 0 |
| JsText.ParseInt | components/ObservationsForm.tsx:29 | `parseInt` with no radix: leading white space, a sign, decimal digits or a 0x hex prefix, the rest ignored, `None` for NaN; stated by the `ParseInt…` lemmas below |
| JsText.ParseIntOfNatString | components/ObservationsForm.tsx:29 | `parseInt` reads a decimal digit string as its value |
| JsText.ParseIntOfNatStringThen | components/ObservationsForm.tsx:29 | `parseInt` stops at the first character that is not a digit (and not the x of a hex prefix) |
| JsText.ParseIntOfBlank | components/ObservationsForm.tsx:29 | `parseInt` of an empty or blank string is NaN |
| JsText.NumberOfNatString | components/SchedulingForm.tsx:24 | `Number` reads a decimal digit string as its value |
| JsText.SplitAtSeparator | components/SchedulingForm.tsx:24 | splitting a + sep + b, where a has no separator, gives a followed by the parts of b |
| JsText.SplitWithoutSeparator | components/SchedulingForm.tsx:24 | a string without the separator splits into itself alone |

## Left out

- Display formatting is not modelled: `toFixed(2)` of areas, prices and totals, and `toLocaleString`. The e-mail record keeps the reals.
- The HTTP request to the mail script and its result mapping are I/O and are not modelled.
- Whether the success screen is shown regardless of delivery is not modelled, because the e-mail builder is never called by the wizard.
- The success screen is presentation plus an order number drawn at random, so it is not modelled.
- The build configuration is not modelled.
- `parseFloat` covers white space, sign, digits and one decimal point. Exponents, "Infinity" and IEEE rounding are left out.
- `Number` covers only strings of decimal digits, with surrounding white space. Those are the strings the calendar produces.
- `toLowerCase` maps ASCII letters, Latin-1 capitals and the Romanian letters Ă Â Î Ș Ş Ț Ţ. Other letters are left unchanged.
- String length is counted in characters, not UTF-16 code units, so the phone check on astral characters differs.
- The locality and street tables are inputs taken in their display order. Their `localeCompare` sort is not modelled.
- `Date` is modelled on whole days. Time of day, time zones and daylight saving are left out, as is the limit of ±10⁸ days.
- The clock is read once: a `SchedulingForm` keeps the "today" it was opened with.
- Every `Math.random()` draw is a parameter. Carpet ids are not claimed to be unique, and a new challenge is not claimed to differ from the old one.
- The screens' own state is not kept across back navigation: each screen starts afresh, and only the wizard's order data persists. Each class models one visit to its screen.
- Effects are modelled as their net change. `SelectCity` applies the sector rule at once, where the source runs it in an effect after the render.
- The suggestion list's visibility and the click-outside listener are not modelled, because they are UI only.
- EmailService.Line: a line is built from the card's lenient reading (`parseFloat(x) || 0`), not from plain `parseFloat`. The two agree on every highlighted carpet, and only highlighted carpets reach a line.
- App.Step: the remove-last handler reads the carpet count of the last render, where the model reads the current state. They agree because every click is followed by a render.
- LocationForm.ValidationErrors: the seven checks of `validate` are modelled as one map of the failing checks, not as seven successive insertions into an object. The resulting map is the same.
- The answer box is a number input: the browser hands the handler an empty value when the text is not a valid number. The model takes the answer as the string the handler receives, and does not model that cleaning.
