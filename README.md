# Medication checklist: a verified model

The application is a single-page, 60-day medication checklist. The user picks a start
date. The page then lists the sixty calendar days from that date and pre-checks every day
whose `YYYY-MM-DD` key is at most today's key. It counts the checked days and shows a renewal
warning when 15 or fewer days remain, or a completion notice at sixty. The plan
`{startDate, days}` is kept in one `localStorage` slot. It can be cleared after a
confirmation, exported as a backup and imported again.

The model is written in Dafny and has five modules:

- `Wrappers` (`wrappers.dfy`) holds `Option`.
- `Calendar` (`calendar.dfy`) holds Gregorian dates as `(year, month, day)`. It defines
  `NextDay` and `AddDays` (the reference: adding days one at a time). It also defines
  `SetDate`, which is JavaScript's day-of-month normalisation, so `setDate(getDate() + i)`
  rolls over month ends, year ends and leap days. The lemma `SetDateAddsDays` proves the two
  agree.
- `DayKeys` (`day_keys.dfy`) holds the following:
  - zero-padded digit strings and `Key`, which is `dateToKey`: the calendar-date part of
    `toISOString`. Years 0..9999 get four digits. Years after 9999 get `+YYYYYY`.
    Negative years are outside the model.
  - `StrLe`, which is JavaScript's `<=` on strings.
  - the picker's validity rule (`IsDateString`, `PickerValue`).
  - `ParseDateString`, which is `new Date(y, m - 1, d)`. It includes the Date constructor's
    rule that reads years 0..99 as 1900..1999.
- `Schedule` (`schedule.dfy`) holds the 60-iteration generation loop (`GenerateSchedule`),
  the completion map it builds, and `updateProgress` (`CountCompleted`, `TierOf`).
- `PlanStore` (`plan_store.dfy`) holds the page: the storage slot, the picker value and the
  screen.
  - Each handler is a transition function on a `Page` value. The lemmas are stated on these
    functions.
  - A `class App` performs the handlers' steps on mutable fields. Each method is proved to
    reach the page its function gives.

## Premises

- `parseDateString` builds a local midnight, but `dateToKey` reads the UTC date. The model
  assumes the local calendar date equals the UTC calendar date, so the key of
  `start + i days` is the ISO key of calendar day `start + i`. This holds when the local
  zone is at or behind UTC.
- Today's key (`dateToKey(new Date())`) is an input. So are the following:
  - the answer to the confirmation dialog;
  - whether storage accepts writes (`writeOk`, one flag per user action);
  - whether `localStorage` can be reached at all when clearing (`storageOk`). Only
    `clearState` calls it outside a `try` (app.js:91).
  - the chosen backup file, already parsed.
- The start-date field is taken to be an `<input type="date">`. Assigning it a string that is
  not a valid date leaves it empty. This matters on the reload path at app.js:239. An
  imported `startDate` that is not a date empties the picker, and generation then stops with
  "select a date".

## Model

| member | source | states |
|---|---|---|
| `Calendar.NextDay` | app.js:210-212 | the following day is a valid date, strictly later, at most one year on |
| `Calendar.NextDayIsSuccessor` | app.js:210-212 | no valid day lies strictly between a day and its next day (days are consecutive) |
| `Calendar.AddDays` | app.js:210-212 | adding n days gives a valid date, not earlier, whose year grows by at most n |
| `Calendar.AddDaysIncreasing` | app.js:210-212 | more days added gives a strictly later date, so the sixty dates strictly increase |
| `Calendar.Normalize` | app.js:206 | JavaScript's carry of a day-of-month past the month end always yields a valid date |
| `Calendar.SetDate` | app.js:205-206 | `setDate` on a copy yields a valid date, and keeps year and month when the day fits |
| `Calendar.NormalizeStep` | app.js:212 | one more day-of-month under normalisation is exactly the next calendar day |
| `Calendar.SetDateAddsDays` | app.js:211-212 | `setDate(getDate() + i)` is exactly `i` calendar days later, across month, year and leap-day boundaries |
| `DayKeys.Digits` | app.js:29 | zero-padded fields have the given width and contain only digits |
| `DayKeys.Value` | app.js:40-41 | the number read from a digit string is below 10 to the string's length |
| `DayKeys.ValueOfDigits` | app.js:29-41 | reading a padded number back gives the number |
| `DayKeys.DigitsOfValue` | app.js:29-41 | padding a digit string's value to its width gives the string back |
| `DayKeys.DigitsInjective` | app.js:29 | different numbers below 10^w have different padded forms |
| `DayKeys.StrLeReflexive` | app.js:214 | string `<=` is reflexive, so a day whose key equals today's key is checked |
| `DayKeys.StrLeTransitive` | app.js:214 | string `<=` is transitive |
| `DayKeys.StrLeTotal` | app.js:214 | any two strings are comparable |
| `DayKeys.StrLeAntisymmetric` | app.js:214 | mutual `<=` means equal strings |
| `DayKeys.StrLeConcat` | app.js:214 | strings that begin with fields of equal width compare by the first field that differs |
| `DayKeys.DigitsOrder` | app.js:214 | padded numbers of equal width compare as strings exactly as they compare as numbers |
| `DayKeys.KeyOrder` | app.js:28-30 | for four-digit years, key `<=` key as strings iff the first day is not after the second |
| `DayKeys.KeyFields` | app.js:28-30 | a key is `YYYY-MM-DD` (or `+YYYYYY-MM-DD` past 9999), with each field at its fixed position |
| `DayKeys.KeyInjective` | app.js:213-215 | different days have different keys, so no day's flag overwrites another's |
| `DayKeys.ExtendedKeySortsFirst` | app.js:28-30 | a key of a year after 9999 sorts before every four-digit key, although its day is later |
| `DayKeys.DigitChar` | app.js:29 | a digit character encodes its value |
| `DayKeys.PickerValue` | app.js:236-239 | the picker keeps any date string it is given and becomes empty for every other string |
| `DayKeys.NewDate` | app.js:41 | `new Date(y, monthIndex, d)` is the first of that month (years 0..99 read as 1900..1999) plus d - 1 calendar days |
| `DayKeys.LeapYearUnshifted` | app.js:41 | reading year 1..99 as 1900..1999 does not change whether it is a leap year |
| `DayKeys.ParseDateString` | app.js:39-42 | a picked date parses to a valid date with the picked month and day, in year 100..9999, with years 1..99 read as 1900..1999 |
| `DayKeys.ParseKeyRoundTrip` | app.js:28-42 | the key of a day in years 100..9999 is a date string that parses back to that day |
| `DayKeys.KeyParseRoundTrip` | app.js:28-42 | a picked date with year 100 or more is the key of the day it parses to |
| `DayKeys.TwoDigitYearShift` | app.js:41 | a picked year 1..99 is read as 1900 more, and the key then differs from the picked string |
| `Schedule.DefaultDayFlag` | app.js:213-215 | day i's key is in the new map, flagged iff it is `<=` today's key |
| `Schedule.EndDate` | app.js:205-222 | the displayed end date is start + 59 days, the date of the last generated key |
| `Schedule.GenerateSchedule` | app.js:208-218 | the loop's rows and map are exactly the sixty days from the start, each key flagged iff `<=` today's key |
| `Schedule.ScheduleKeysDistinct` | app.js:210-215 | the sixty keys are distinct, so the stored map has exactly sixty entries |
| `Schedule.ScheduleKeysIncrease` | app.js:213-214 | within four-digit years the keys strictly increase as strings |
| `Schedule.CheckedDaysArePrefix` | app.js:213-215 | the flags are a run of checked days followed by unchecked ones, and the day equal to today is checked |
| `Schedule.CheckedIffNotAfterToday` | app.js:207-214 | with four-digit years, a day is pre-checked iff it is not after today |
| `Schedule.CountCompleted` | app.js:55 | the checked count is at most the number of days, and equals it iff every day is checked |
| `Schedule.TierOf` | app.js:60-71 | complete iff the count is 60; up to 60, warning iff 45 <= count <= 59; a warning shows 60 - count days remaining, at most 15 |
| `Schedule.UpdateProgress` | app.js:54-72 | the shown count is the number of checked days; on a sixty-day map, complete iff every day is checked, and a warning iff 45 to 59 days are checked; a warning shows 60 - count days remaining |
| `Schedule.TierNeverMovesBack` | app.js:60-71 | as the count rises the tier only moves from no warning to warning to complete |
| `Schedule.CheckingADayCountsOnce` | app.js:55 | checking one unchecked day raises the count by exactly one |
| `Schedule.FreshPlanCount` | app.js:54-72 | a fresh plan's count is the number of window days on or before today |
| `Schedule.CheckedIffBeforeBoundary` | app.js:213-214 | when day p is the first after today, day i is checked iff i < p |
| `Schedule.CheckedIsPrefix` | app.js:55 | when exactly the first p distinct keys are `<=` today, the count is p |
| `Schedule.JanuaryStartDays` | app.js:211-212 | 2024-01-01 plus 44 and 45 days is 2024-02-14 and 2024-02-15 |
| `Schedule.FirstDayScenario` | app.js:197-227 | started and viewed on 2024-01-01: count 1, no warning |
| `Schedule.DayFortyFiveScenario` | app.js:197-227 | started 2024-01-01, viewed 2024-02-14: count 45, warning with 15 days left |
| `PlanStore.LoadState` | app.js:81-88 | a plan loads iff the slot holds readable text, and it is exactly the stored plan |
| `PlanStore.Generate` | app.js:197-227 | generation keeps the picker value and its validity |
| `PlanStore.Clear` | app.js:89-100 | a confirmed clear that reaches storage leaves the picker holding nothing or a date |
| `PlanStore.Initialize` | app.js:229-242 | initialisation leaves the picker holding nothing or a date |
| `PlanStore.ImportedPlan` | app.js:127-134 | a file is accepted iff it parsed and both `startDate` and `days` are truthy |
| `PlanStore.Import` | app.js:121-141 | an import leaves the picker holding nothing or a date |
| `PlanStore.GenerateStoresDefaultPlan` | app.js:197-227 | an empty start date only shows an error; a failed write keeps the slot; otherwise the slot holds the default plan for the picked date, with sixty days, replacing the old plan |
| `PlanStore.GenerateShowsWindow` | app.js:210-226 | generation shows exactly the sixty default rows (each checked iff its key is `<=` today's) from the start to the shown end date, the progress of the generated map, whose count is that of the stored plan when the write succeeds, and the "updated" notice |
| `PlanStore.ClearNeedsConfirmation` | app.js:89-100 | without confirmation, or when `removeItem` throws, nothing changes; otherwise the slot is empty, loads as none, and the cleared notice shows |
| `PlanStore.RejectedImportKeepsStore` | app.js:121-141 | no file, or a file failing the check, leaves the slot and the picker unchanged and reports an invalid file |
| `PlanStore.ImportRegenerates` | app.js:127-131 | an accepted import with a pickable start date ends storing the default flags for that date, not the imported ones |
| `PlanStore.ImportWithoutPickableDateKeepsImport` | app.js:128-131 | an accepted import whose start date the picker refuses stays stored as imported, with an empty picker |
| `PlanStore.ExportPassesImportCheck` | app.js:101-117 | an exported stored plan with a start date passes the import check unchanged |
| `PlanStore.ExportImportRoundTrip` | app.js:101-141 | re-importing the backup of a plan generated the same day leaves the slot as it was |
| `PlanStore.InitializeReloads` | app.js:236-241 | with nothing readable stored only the picker is set to today; a stored plan with a date is regenerated and re-saved with today's default flags |
| `PlanStore.App.constructor` | app.js:244 | the page starts with the previously stored slot, an empty picker and nothing shown |
| `PlanStore.App.ShowNotice` | app.js:44-51 | only the notice changes |
| `PlanStore.App.SetStartInput` | app.js:236 | the picker takes the value if it is a date string, else becomes empty |
| `PlanStore.App.SaveState` | app.js:73-80 | the slot takes the whole plan, or on a failed write keeps its text and an error notice shows |
| `PlanStore.App.HandleGenerateClick` | app.js:197-227 | the fields reach exactly the page `Generate` gives |
| `PlanStore.App.ClearState` | app.js:89-100 | the fields reach exactly the page `Clear` gives |
| `PlanStore.App.InitializeApp` | app.js:229-242 | the fields reach exactly the page `Initialize` gives |
| `PlanStore.App.ExportData` | app.js:101-117 | returns the stored plan (none when absent or unreadable) with the matching notice |
| `PlanStore.App.HandleFileImport` | app.js:121-141 | the fields reach exactly the page `Import` gives |

## Behaviour of app.js worth knowing

- A failed `saveState` shows "Erro ao salvar." (app.js:78). The same handler then replaces
  that notice with its success notice: "Plano atualizado." at app.js:226, or "Restaurado!"
  at app.js:131. So the notice left on screen after a failed write is the success notice.
- Export followed by import does not restore the exported checkmarks in general. Import saves
  the file and then regenerates from its start date, so the stored flags become the defaults
  for today. `ExportImportRoundTrip` proves that the slot comes back unchanged when the plan
  was generated on the same day.
- After an import whose save fails, `initializeApp` reloads the previous plan, if one is
  stored, and regenerates it.

## Left out

- DOM rendering: `createTableRow`, the hard-coded dosage cells, CSS classes and styles, and
  `showMessage`'s markup. The model keeps only which notice is shown.
- `formatDateBR`: locale formatting through `Intl.DateTimeFormat`. The window keeps the
  dates themselves.
- The floating-point percentage, the progress-bar width and `Math.round` (app.js:56-59).
  Only the integer count and the tier are modelled.
- `localStorage`, `JSON.parse`/`JSON.stringify`, `FileReader`, the data-URI download and
  `e.target.value = ""`. These are I/O and library calls. The slot is an abstract
  `Option<StoredText>`. A stored text that parses to a falsy value counts as `Unreadable`.
- `console.error(e)` in `saveState` (app.js:77). It only writes to the developer console.
- Imported records are abstracted to a `startDate` string and a map of boolean flags. Extra
  fields, non-string start dates and non-boolean flag values are not modelled.
- Event-listener registration, `triggerImport` and `window.print` (app.js:118-120, 230-235).
  These are plumbing.
- Time zones and daylight saving. The premise above stands in for them.
- Dates past JavaScript's range (year 275760). There `toISOString` throws. Keys are defined
  for years up to 999999.
- `DayKeys.IsDateString`: picker values with five or more year digits are not accepted.
  HTML allows them, but the model's picker takes four-digit years only.
- `Calendar.SetDate`: a day-of-month below 1 (rolling back into earlier months) is not
  modelled. The source only passes `getDate() + i` with `i >= 0`.
- `Schedule.CheckedDaysArePrefix`, `Schedule.CheckedIffNotAfterToday` and
  `Schedule.FreshPlanCount` hold only while the whole window stays within year 9999.
  `DayKeys.ExtendedKeySortsFirst` shows why. Starting from 9999-11-03 or later, keys of
  year 10000 sort before today's key and are pre-checked.
