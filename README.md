# Nway Htway web app: cycle dashboard, calendar and check-in logic in Dafny

This project models the client-side logic of a menstrual-cycle tracking mini-app:

- **Cycle status calculator** (`src/utils/cycleUtils.js`, module `CycleUtils`): from the cycle length and the
  signed number of days until the next period, the day of the cycle to display (a number or `"Late"`), the
  progress-ring angle and the status sentence with its day count.
- **Dashboard screens** (`src/components/views/DashboardView.jsx`, module `DashboardView`, and the older inline
  copy in `src/App.jsx`, module `App`): which branch is shown (loading, welcome, cycle card), the "Day N" label,
  and the number emboldened in the status line, which the component recovers with `split(/(\d+)/)`.
- **Calendar day classifier** (`src/components/views/CalendarView.jsx`, module `CalendarView`): the past-period,
  predicted-period and fertile windows and the first-match-wins tile class.
- **Selection toggles** (`toggleSymptom` in `src/App.jsx`, `handleSelect`/`handleToggle` in
  `src/components/CheckInPage.jsx`, modules `ListToggle`, `App` and `CheckInPage`).

Modelling choices:

- Dates are whole day numbers (`CycleState.Date = int`), so `addDays`/`subDays` are `+`/`-` and `isSameDay` is `==`.
- The constants 5 (period length) and 14 (ovulation before the next period) are `Constants.PeriodDuration` and
  `Constants.OvulationDaysBeforeNextPeriod`, as in `src/utils/constants.js`.
- The ring angle is a `real`. A zero cycle length makes JavaScript divide by zero; that outcome is the
  `NonFinite` case of `CycleUtils.Angle`, so no operation needs a precondition on the cycle length.
- The two loops of the calendar (`for (let i = 0; i < 5; i++)`, lines 14-16 and 25-27) are one method,
  `CalendarView.ScanPeriodWindow`, proved equal to an existential window predicate; `history.some(...)` is
  the loop of `CalendarView.IsPastPeriod`.
- JavaScript truthiness is modelled where the code depends on it: an absent or `null` history, last log date or
  record reads as `None`, a cycle length of 0 is falsy, and `prev[category] || []` treats a missing own field,
  `null` and `""` as the empty list.
- `logData` is updated with computed keys, so it is a `map<string, Value>` held by the class
  `CheckInPage.CheckInForm`; the app's symptom list is the field of `App.SymptomSelection`.
- The status sentences keep their Burmese wording as string constants; what the proofs use is that the wording
  holds no ASCII digit, so the only digit run in the sentence is the day count.

Behaviour of the code worth knowing, which the model follows:

- `calculateProgressDegree` is documented as returning 0-360, but it has no clamp: on the due day it gives
  exactly 360 and once the period is overdue it gives more than 360 (`CycleUtils.ProgressDegreeUnclampedWhenLate`).
  Only the inline copy in `src/App.jsx` sets the ring to 360 when late; the two copies are both modelled and
  `App.ClampDiffersOnlyWhenOverdue` states exactly where they differ.
- The displayed day is `cycleLength - daysUntil`, which for `0 < daysUntil <= cycleLength` lies in
  `[0, cycleLength)`: it is 0 when `daysUntil = cycleLength` (the first day of the cycle) and
  `cycleLength - 1` on the last day before the period; for `daysUntil > cycleLength` it is negative ("Day -3").
- The calendar's predicted and fertile windows are guarded by the truthiness of the cycle length, so a cycle
  length of 0 switches them off just as an absent one does.

## Model

| member | source | states |
|---|---|---|
| `CycleUtils.CalculateProgressDegree` | src/utils/cycleUtils.js:11-14 | non-finite exactly when the cycle length is 0; otherwise angle × cycleLength = (cycleLength − daysUntil) × 360 |
| `CycleUtils.GetDisplayDay` | src/utils/cycleUtils.js:22-27 | "Late" exactly when daysUntil ≤ 0; otherwise the shown day plus the days to go equals the cycle length |
| `CycleUtils.DisplayDayInCycle` | src/utils/cycleUtils.js:26 | for 0 < daysUntil ≤ cycleLength the shown day is a number in [0, cycleLength) |
| `CycleUtils.RingMatchesDisplayDay` | src/utils/cycleUtils.js:12-13 | when not late, the ring angle is the shown day as a fraction of the cycle, times 360 |
| `CycleUtils.ProgressDegreeInRange` | src/utils/cycleUtils.js:9-13 | for cycleLength > 0 and 0 ≤ daysUntil ≤ cycleLength the angle lies in [0, 360], as documented |
| `CycleUtils.ProgressDegreeDecreasing` | src/utils/cycleUtils.js:12-13 | for a fixed cycle the angle strictly decreases as daysUntil grows |
| `CycleUtils.ProgressDegreeUnclampedWhenLate` | src/utils/cycleUtils.js:11-14 | no late clamp: exactly 360 when daysUntil = 0, above 360 when daysUntil < 0 |
| `CycleUtils.StatusOf` | src/utils/cycleUtils.js:35-38 | the overdue wording is chosen exactly when daysUntil ≤ 0, and the count shown is abs(daysUntil) |
| `CycleUtils.StatusRoundTrip` | src/utils/cycleUtils.js:35-38 | wording plus count determine daysUntil: decoding the status gives daysUntil back |
| `CycleUtils.OverdueWordingHasNoDigits` | src/utils/cycleUtils.js:36 | the fixed wording of the overdue sentence contains no ASCII digit |
| `CycleUtils.UntilWordingHasNoDigits` | src/utils/cycleUtils.js:38 | the fixed wording of the "days to go" sentence contains no ASCII digit |
| `CycleUtils.GetStatusTextString` | src/utils/cycleUtils.js:34-39 | splitting the sentence on digit runs gives three parts: the overdue or the "days to go" opening (chosen by daysUntil ≤ 0), the decimal count, and the matching closing; the count reads back as abs(daysUntil) |
| `CycleUtils.HalfwayThroughCycle` | src/utils/cycleUtils.js:11-27 | (28, 14) gives day 14, angle 180 and "14 days to go" |
| `CycleUtils.DueToday` | src/utils/cycleUtils.js:11-38 | (28, 0) gives "Late", angle 360 and "0 days overdue" |
| `DecimalText.Decimal` | src/utils/cycleUtils.js:36-38 | the text of a whole number is a non-empty run of ASCII digits with no leading zero |
| `DecimalText.ParseDecimalOfDecimal` | src/components/views/DashboardView.jsx:46-56 | reading the decimal text of n back gives n |
| `DecimalText.IntText` | src/components/views/DashboardView.jsx:75 | the text of an integer starts with '-' exactly for negatives and is otherwise digits |
| `DecimalText.ParseIntOfIntText` | src/components/views/DashboardView.jsx:75 | reading the text of an integer back gives the integer |
| `DecimalText.SplitDigitRuns` | src/components/views/DashboardView.jsx:46 | `split(/(\d+)/)`: odd number of parts, digit-free parts at even places, non-empty digit runs at odd places, the runs maximal (no two touch), joined back they give the string |
| `DecimalText.SplitIsUnique` | src/components/views/DashboardView.jsx:46 | any alternation of digit-free text and maximal digit runs that joins back to the string is its split, so `parts[1]` is the whole first digit run of any string |
| `DecimalText.SplitAroundNumber` | src/components/views/DashboardView.jsx:46-56 | digit-free text, a digit run, digit-free text split into exactly those three parts, so `parts[1]` is the run |
| `DashboardView.DayLabel` | src/components/views/DashboardView.jsx:75 | the label is "Late" exactly for the late sentinel and starts with "Day " for a number |
| `DashboardView.DayLabelReadsBack` | src/components/views/DashboardView.jsx:75 | the number after "Day " reads back as the day shown |
| `DashboardView.DashboardView` | src/components/views/DashboardView.jsx:7-60 | loading wins; no record or not found gives the welcome card; otherwise the card shows the cycleUtils angle and day label, the overdue wording iff daysUntil ≤ 0, and a bold number equal to the decimal text of abs(daysUntil) |
| `DashboardView.CycleCardDeterminesDaysUntil` | src/components/views/DashboardView.jsx:44-60 | the wording choice and the bold number together give back daysUntil |
| `CalendarView.InPeriodWindowIff` | src/components/views/CalendarView.jsx:14-16 | the days the five-step scan matches are exactly start … start + 4 |
| `CalendarView.ScanPeriodWindow` | src/components/views/CalendarView.jsx:25-28 | the early-return loop returns true iff some offset 0 ≤ i < 5 has date = start + i |
| `CalendarView.IsPastPeriod` | src/components/views/CalendarView.jsx:10-19 | true iff a history is present and some logged start has the date in its five-day window |
| `CalendarView.PastPeriodIff` | src/components/views/CalendarView.jsx:11-18 | past-period day iff a history is present and some start h has 0 ≤ date − h ≤ 4; never without a history |
| `CalendarView.IsPredictedPeriod` | src/components/views/CalendarView.jsx:21-29 | true iff a last log date and a non-zero cycle length exist and the date is in the window from lastLogDate + cycleLength |
| `CalendarView.PredictedPeriodIff` | src/components/views/CalendarView.jsx:22-28 | predicted day iff both guards hold and L + C ≤ date ≤ L + C + 4: five consecutive days |
| `CalendarView.IsOvulationDay` | src/components/views/CalendarView.jsx:31-41 | fertile iff both guards hold and the date is within one day of L + C − 14 |
| `CalendarView.FertileDaysAreThree` | src/components/views/CalendarView.jsx:33-40 | the fertile days are exactly the three days centred on the ovulation day |
| `CalendarView.FertileBeforePredicted` | src/components/views/CalendarView.jsx:24-40 | no day is both fertile and predicted |
| `CalendarView.TileClassName` | src/components/views/CalendarView.jsx:44-50 | the tile class is the first-match-wins classification: past, then predicted, then fertile, none outside the month view |
| `CalendarView.ClassifyPrecedence` | src/components/views/CalendarView.jsx:45-49 | each class exactly when its window holds and no earlier one does; no class outside the month view or outside every window |
| `CalendarView.ShortCyclePastWins` | src/components/views/CalendarView.jsx:45-47 | with a cycle shorter than 5 days the predicted start is also a past-period day and is coloured past |
| `CalendarView.NewYearExample` | src/components/views/CalendarView.jsx:10-49 | period logged on 1 January 2024, 28-day cycle: 3 January past, 29 January predicted, 15 January fertile, 1 February not past, no class in the year view |
| `App.ClampedProgressInRange` | src/App.jsx:136-138 | the inline ring angle stays in [0, 360] for every daysUntil ≤ cycleLength, late or not |
| `App.ClampDiffersOnlyWhenOverdue` | src/App.jsx:131-138 | the inline angle equals the cycleUtils angle exactly when daysUntil ≥ 0 |
| `App.DashboardFigures` | src/App.jsx:131-140 | the inline computation yields the cycleUtils display day and status, and the ring clamped to 360 when late |
| `App.DashboardScreen` | src/App.jsx:104-166 | the app's dashboard takes the same branches and shows the same figures as the later component (wording choice and count), except that the ring is clamped when late; its bold element, which holds the count and the word "ရက်", is abstracted to the count |
| `App.SymptomSelection.constructor` | src/App.jsx:38 | no symptom starts selected |
| `App.SymptomSelection.ToggleSymptom` | src/App.jsx:81-87 | the id's membership flips; a selected id has every copy removed, an unselected one is appended |
| `ListToggle.RemoveAll` | src/App.jsx:83 | `filter(s => s !== id)` drops every copy of id (the length shrinks by its count) and keeps the count of every other entry |
| `ListToggle.RemoveAllAbsent` | src/App.jsx:83 | filtering an id that is not in the list leaves the list as it was |
| `ListToggle.RemoveAllAppend` | src/App.jsx:83 | filtering distributes over concatenation, so the remaining entries keep their order |
| `ListToggle.Toggle` | src/App.jsx:82-85 | membership of the value flips, other entries keep their counts, a present value has every copy removed by RemoveAll (the rest keep their order) and an absent one is appended at the end |
| `ListToggle.ToggleTwiceRestores` | src/App.jsx:82-85 | toggling an unselected value twice restores the list |
| `ListToggle.ToggleTwiceMovesToEnd` | src/App.jsx:82-85 | toggling a selected value twice leaves a single copy at the end |
| `CheckInPage.InitialLogData` | src/components/CheckInPage.jsx:14-22 | the record has the seven fields flow, mood, energy, symptoms, vaginalSymptoms, sexualActivity, notes, with flow, energy and sexualActivity `null`, mood, symptoms and vaginalSymptoms empty lists, notes the empty string, and so no option selected in any field but notes |
| `CheckInPage.InitialFormToggles` | src/components/CheckInPage.jsx:14-22 | on the initial record no toggle throws: toggling any of its own fields, or a name it lacks as an own field, stores the one-element list [value] |
| `CheckInPage.Select` | src/components/CheckInPage.jsx:24-26 | the named field gets the value and every other field is unchanged |
| `CheckInPage.SelectIsSingleChoice` | src/components/CheckInPage.jsx:25 | after selecting an option it is the one selected option of that field |
| `CheckInPage.ToggleField` | src/components/CheckInPage.jsx:28-37 | on a list (or missing, null, empty) field the value's membership flips, a present value has every copy removed (RemoveAll, which keeps the order of the rest) and an absent one is appended at the end; other fields unchanged; on a non-empty string field it throws exactly when the value is a substring, and otherwise stores the string's characters followed by the value |
| `CheckInPage.FirstToggle` | src/components/CheckInPage.jsx:30-34 | a missing own field, or one that is null, the empty string or the empty list, toggles to the one-element list [value] |
| `CheckInPage.ToggleTwiceRestores` | src/components/CheckInPage.jsx:31-34 | toggling a value absent from a list field twice restores the whole record |
| `CheckInPage.CheckInForm.constructor` | src/components/CheckInPage.jsx:14-22 | the form starts with the initial record |
| `CheckInPage.CheckInForm.HandleSelect` | src/components/CheckInPage.jsx:24-26 | the record becomes the select update of the old one; other fields unchanged |
| `CheckInPage.CheckInForm.HandleToggle` | src/components/CheckInPage.jsx:28-37 | the record becomes the toggle update of the old one, or stays as it was when the updater throws |

## Left out

- The chat-platform host integration (theme variables, `ready`/`expand`, `sendData`/`close`, the user record): foreign globals and I/O.
- The network: fetching the cycle record (`src/App.jsx` lines 58-67) and submitting a check-in (`handleSubmit` in `src/components/CheckInPage.jsx`) with its alerts and advice modal.
- Parsing ISO date strings with `new Date(...)` and the local-time-zone behaviour of date-fns: dates enter the model as already-normalised day numbers; an unparsable date string is not modelled.
- Floating point: the ring angle is an exact `real`, and JavaScript's `Infinity` and `NaN` from a zero cycle length are one `NonFinite` value.
- All rendering: react-calendar, JSX markup, the presentational components under `src/components/ui/`, `useMemo` caching (it does not change results), tabs and navigation, `selectedMood`.
- Number width: day counts, cycle lengths and dates are exact unbounded integers. JavaScript numbers are doubles, exact
  only up to 2^53 and printed in exponent form from 10^21 on ("1e+21", whose first digit run is "1"), so the
  round trip of the status number through its text (`CycleUtils.GetStatusTextString`, `DashboardView.DashboardView`)
  holds in JavaScript only for counts below 2^53.
- The records as JavaScript objects with arbitrary extra fields: the dashboard reads only `found`, `cycleLength` and `daysUntil` as integers; a missing cycle length or a fractional `daysUntil` (which JavaScript would turn into `NaN` or a decimal point) is not modelled.
- CheckInPage.CheckInForm.HandleToggle: a `TypeError` thrown by the state updater is returned as a flag with the record left unchanged; how React propagates the error is not modelled. Values are toggled as strings, as every caller passes.
- CheckInPage.ToggleField: a category naming a property inherited from `Object.prototype` (`constructor`, `toString`, `__proto__`, …) reads in JavaScript as a truthy function or object, on which `includes` throws; the model reads every name missing from the record as the empty list. The form toggles only its own fields (`mood`, `symptoms`), so this case is not modelled.
- App.DashboardScreen: the bold element, which in this copy holds the count followed by the word "ရက်", is modelled as the count's decimal text alone; the rest of the markup is not modelled.
- The selected-date annotation line that shows several calendar badges at once is not part of the calendar component modelled here.
- `src/main.jsx`, `vite.config.js`, `eslint.config.js` and the remaining constants (URL, tabs, colours, default cycle length): bootstrap and configuration.
