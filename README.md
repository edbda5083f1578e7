# clockify-bulk: working days, lunch split and run counters in Dafny

`clockify-bulk` is a command-line tool that creates Clockify time entries for every working
day of a month. For each Monday-to-Friday date it builds a morning entry and an afternoon
entry around a randomly placed one-hour lunch break. In live mode it POSTs both entries to the
Clockify API. In simulate mode it only shows them. It counts the days that succeeded and the
days that failed.

This project models the deterministic core of `cli.ts` and proves properties of it:

- `calendar.dfy` (module `Calendar`) holds the ECMAScript `Date` arithmetic the tool relies on,
  as integers on the proleptic Gregorian calendar. It covers leap years, month lengths,
  the day number since 1970-01-01 (the `DayFromYear` formula of ECMA-262 section 21.4) and
  `getDay()` as `(day number + 4) mod 7`. It also covers `new Date(year, monthIndex, 1)` with
  its month roll-over. Its two-digit-year rule maps years 0..99 to 1900..1999. Finally it
  covers the one-day step `setDate(getDate() + 1)`.
- `working_days.dfy` (module `WorkingDays`) holds `getWorkingDays`. It is a `while` loop over a
  date cursor that grows a sequence. The loop is proved equal to the specification function
  `WorkingDaysOf`, and the lemmas state what that function returns.
- `time_entries.dfy` (module `TimeEntries`) holds the interval computation of
  `createTimeEntry`, in integer minutes since local midnight. It also holds the branching of
  `createTimeEntry` between simulate mode, a failed morning POST, a failed afternoon POST and
  success. Each POST's answer is an input (`PostOutcome`). The model records the bodies that
  were sent, in order.
- `bulk_run.dfy` (module `BulkRun`) holds the per-day `for` loop of `run`, with its try/catch
  and its `success`/`failed` counters. It is a method proved against recursive specification
  functions.

The lunch start and the remote service's answers are given per date as a total function
`env: Date -> DayInput`. This is faithful because a run's working days are pairwise distinct
(`WorkingDays.WorkingDaysOfAscending`), so each date stands for one call.

Facts about `cli.ts` that the model keeps:

- Every entry's description is the fixed string `"shiroo"` (cli.ts:86, cli.ts:97). The
  configured description is not used.
- Each working day always becomes two entries, a morning one and an afternoon one, split
  around the lunch break.
- The start and end hours are each checked only to lie in 0..23 (cli.ts:210-219). Nothing
  checks that they are ordered or that they bracket the lunch break. So the model does not
  claim `start < end` for an entry. `TimeEntries.EntriesNonEmptyIff` states exactly when each
  entry is non-empty, and `TimeEntries.MorningMayBeInverted` gives a configuration where the
  morning entry is inverted.
- A month outside 1..12 is not rejected. The `Date` constructor rolls it over into another
  month, the loop guard fails at once, and the run processes no day.

## Model

| member | source | states |
|---|---|---|
| `Calendar.FullYear` | cli.ts:39 | The year `new Date(year, …)` uses: a year in 0..99 becomes 1900..1999 with the same last two digits; any other year is kept; the result is never a two-digit year. |
| `Calendar.GetMonth` | cli.ts:41 | `getMonth()` is a month index in 0..11 exactly when the date's month is a month of the calendar. |
| `Calendar.GetDay` | cli.ts:42 | `getDay()` is a weekday number in 0..6, counted from Thursday 1970-01-01. |
| `Calendar.NextDay` | cli.ts:46 | `setDate(getDate() + 1)` gives a valid date. It stays in the same month, one day later, exactly when the day is not the month's last. It is the 1st exactly when the day was the month's last. It moves to the next year exactly on December 31st. |
| `Calendar.FirstOfMonth` | cli.ts:39-41 | `new Date(year, month - 1, 1)` is always a valid 1st of a month. For a month index in 0..11 it is that month of the full year. For any other index it rolls over, so `getMonth()` differs from the index and the loop guard fails. |
| `Calendar.NextDayIsOneDayLater` | cli.ts:46 | `setDate(getDate() + 1)` advances the day number by exactly one, across month ends and across December 31st. |
| `Calendar.NextDayWeekDay` | cli.ts:42-46 | After the one-day step, `getDay()` is the next weekday, with Saturday wrapping to Sunday. |
| `WorkingDays.GetWorkingDays` | cli.ts:37-50 | The loop from the 1st, while `getMonth()` is the requested month, pushing each date whose `getDay()` is neither 0 nor 6, returns exactly `WorkingDaysOf(year, month)`. |
| `WorkingDays.StepThroughMonth` | cli.ts:41-46 | One iteration either moves the cursor to the next day of the same month, or leaves the month with every working day of the month collected. |
| `WorkingDays.WorkingDaysOfMembers` | cli.ts:39-47 | A date is returned if and only if the month is in 1..12, the date lies in that month of the constructor's year, and its weekday is Monday to Friday. So the result holds no weekend day and no day of another month, and every working day is included. |
| `WorkingDays.WorkingDaysOfAscending` | cli.ts:41-46 | The returned dates strictly ascend by day of month, so no date appears twice. |
| `WorkingDays.OutOfRangeMonthIsEmpty` | cli.ts:39-41 | A month outside 1..12 yields no dates. |
| `WorkingDays.SevenConsecutiveDays` | cli.ts:42-44 | Any seven consecutive days of a month add exactly five working days to the enumeration. |
| `WorkingDays.WorkingDaysPerMonth` | cli.ts:37-50 | Every valid month has between 20 and 23 working days. |
| `WorkingDays.February2024` | cli.ts:37-50 | February 2024, a leap month starting on a Thursday, has 21 working days. |
| `WorkingDays.June2024` | cli.ts:37-50 | June 2024 has 20 working days. The first is the 3rd and the last is the 28th. |
| `TimeEntries.PlanDay` | cli.ts:57-104 | The two bodies built for a date: the morning runs from `startHour:00` to the lunch start, the afternoon from 60 minutes after the lunch start to `endHour:00`, all on that date; the minute carry of `setHours` is folded into minutes. |
| `TimeEntries.PlanShape` | cli.ts:58-104 | Both bodies are billable and carry `"shiroo"` and the configured project. All four times lie on the given date. The morning starts at `startHour:00` and ends at the lunch start. The afternoon starts exactly 60 minutes after the lunch start and ends at `endHour:00`. |
| `TimeEntries.LunchWindow` | cli.ts:57-77 | For a lunch start from `getLunchBreakTime` (11:30 to 13:00), the morning ends in [11:30, 13:00] and the afternoon starts in [12:30, 14:00]. |
| `TimeEntries.EntriesNonEmptyIff` | cli.ts:63-80 | The morning entry is non-empty if and only if `startHour:00` is before the lunch start. The afternoon entry is non-empty if and only if the lunch end is before `endHour:00`. Nothing else orders them. |
| `TimeEntries.MorningMayBeInverted` | cli.ts:64-71 | A start hour of 13 with lunch at 11:30 gives a morning entry whose end precedes its start. |
| `TimeEntries.PlanPartitionsWorkingHours` | cli.ts:63-80 | When the lunch break lies inside the working hours, each minute from `startHour:00` to `endHour:00` is in exactly one of the morning, the lunch break and the afternoon, and no other minute is in any of them. The entries total the working hours less 60 minutes. |
| `TimeEntries.CreateTimeEntry` | cli.ts:106-179 | Simulate mode sends nothing and returns both bodies. In live mode the morning body is always sent first. The afternoon body is sent if and only if the morning POST was accepted. The call fails if and only if a sent POST was rejected, with the morning or afternoon message carrying the status text, or with the fetch error. |
| `TimeEntries.SimulateShowsWhatLiveSends` | cli.ts:106-173 | The bodies shown in simulate mode are the ones live mode sends for the same lunch start. |
| `BulkRun.RunDays` | cli.ts:292-315 | The loop leaves `success` and `failed` equal to the number of days that returned and that threw, and `success + failed` equals the number of days. The bodies sent and the error lines logged are the in-order concatenation over all days. |
| `BulkRun.Run` | cli.ts:289-315 | The run enumerates `WorkingDaysOf(year, month)`. Its counters add up to the number of working days, and its sends and error lines are those of every working day. |
| `BulkRun.CountsCoverEveryDay` | cli.ts:295-315 | Each day increments exactly one of the two counters. |
| `BulkRun.ErrorLogListsFailures` | cli.ts:306-314 | There is one error line per failed day. A line for a date and a message is logged if and only if that date was processed and its submission threw that message. |
| `BulkRun.EveryDayIsAttempted` | cli.ts:295-315 | A failing day does not abort the loop. In live mode the morning body of every day is sent, whatever happened to earlier days. |
| `BulkRun.LivePostCount` | cli.ts:135-173 | In live mode the number of POSTs is the number of days plus the number of days whose morning POST was accepted. |
| `BulkRun.SimulatedRun` | cli.ts:295-298 | A simulated run sends nothing, logs no error, and counts every day as a success. |
| `BulkRun.AllAcceptedRun` | cli.ts:295-305 | When every POST is accepted, no day fails and every day counts as a success. |

## Left out

- The `fetch` calls, the URL, the headers and the JSON body encoding (cli.ts:136-167) are network I/O. Each POST is reduced to an abstract `PostOutcome`: accepted, a non-2xx status with its text, or a failed fetch.
- Parsing the response bodies with `.json()` (cli.ts:176-179) is left out. `Created` carries no payload, and a body that fails to parse is not modelled as a failure.
- `Math.random` in `getLunchBreakTime` (cli.ts:32-35) is left out, and so is the float-to-hour/minute rounding (cli.ts:69-76). The lunch start is an integer minute, and `IsLunchStart` gives its range [690, 780]. The end is taken as exactly 60 minutes later. Rounding the end separately from the start in floating point is not modelled.
- `toISOString`, the local time zone and daylight saving (cli.ts:90-91, cli.ts:102-103) are left out. Times are local minutes since midnight on the entry's date.
- `WorkingDays.GetWorkingDays`: the `Date` time-value limit is not modelled. Outside about the years -271,821 to 275,760, the source gets an invalid date and returns no working days. The model enumerates such months like any other.
- `promptForConfig`, the `Conf` store, and the "All fields are required" check (cli.ts:19-29, cli.ts:182-242) are interactive I/O and persisted settings. `Config` is taken as given.
- Console output, `date-fns` formatting, `citty` argument parsing and `parseInt` (cli.ts:244-344) are presentation and plumbing. So is the summary printed after the loop. Month and year are taken as integers, so a non-numeric argument (NaN) is not modelled.
- `setHours` with an hour outside 0..23 would move to another date. The configured hours are validated to 0..23, and the model keeps each time as a minute offset from the entry's date.
