# Overtime tracker: a Dafny model of its logic

The tracker is a single-page browser app. A user records overtime (OT)
sessions: a date, a start and end clock time and a description. The app
computes each session's duration and pay from an hourly rate and an OT
multiplier. It keeps the records newest first and shows daily, monthly and
yearly totals. All of its logic lives in `script.js`, mixed with DOM code.
This project models that logic:

- `numbers.dfy` (module `Numbers`): a JavaScript number as `NaN | Num(real)`,
  so that the script's `isNaN` guards can be stated. It also holds the Option
  and Result wrappers.
- `duration.dfy` (module `Duration`): `calculateOTDuration`. Clock times are
  minutes since midnight. An end strictly earlier than the start moves to the
  next day. Proved: the duration is the unique length below one day that takes
  the clock from start to end, and equal times give zero.
- `wages.dfy` (module `Wages`): `calculateEarnings`, the default settings
  (rate 0, multiplier 1.5) and the save-settings checks as a function. Proved:
  pay is zero unless the rate is a positive number, and pay is never negative
  for non-negative hours and multiplier. Validation accepts exactly the
  well-formed settings.
- `records.dfy` (module `Records`): the record, the date triple and
  `splice(i, 1)` as `RemoveAt`.
- `summary.dfy` (module `Summary`): the three windows, the per-window totals
  and the one-pass six-accumulator loop of `updateSummary`, proved equal to
  the totals. Also proved: how adding or deleting a record changes each total,
  that a narrower window never totals more than a wider one, and the
  three-record example (today, earlier this month, last year).
- `tracker.dfy` (module `Tracker`): class `OTTracker` holds the record list
  (`otRecords`) and the settings (`appSettings`). Its three handlers change
  them in place: save settings, add a record at the head, delete one position.
  The invariant `Valid()` says two things. The settings are always ones the
  save checks accept. Every record's duration matches its clock times and its
  pay is not negative. `OvernightScenario` is a client of the class. It
  replays a session through the handlers' contracts alone:
  - a record is refused while no rate is set;
  - with rate 100 and multiplier 1.5 saved, an add with an empty end field is refused and the list stays empty;
  - a 09:00–09:00 shift lasts 0 hours and earns 0;
  - an 18:00–20:00 shift lasts 2 hours and earns 300;
  - a 22:00–06:00 shift lasts 8 hours and earns 1200;
  - the list is newest first;
  - a multiplier of 0.5 is refused and the settings are kept;
  - deleting position 0 removes exactly the newest record.

"Today" is a parameter of the summary. The browser clock, `Date` and time
zones are not part of the model.

## Model

| member | source | states |
|---|---|---|
| Duration.ShiftMinutes | script.js:68-77 | the duration is under one day, and start plus duration lands on the end time modulo a day |
| Duration.ShiftMinutesUnique | script.js:72-76 | every length under a day that takes the clock from start to end equals the computed duration, so start == end gives 0 and not 24 h |
| Duration.CrossesMidnight | script.js:72-76 | the end is moved to the next day exactly when end < start (strict), and then the duration is end + 24 h − start; otherwise it is end − start |
| Duration.DurationHours | script.js:76-78 | hours lie in [0, 24), are the minute duration divided by 60, and are 0 for equal times |
| Wages.Earnings | script.js:81-88 | zero whenever the rate is NaN or ≤ 0. Otherwise hours × rate × multiplier, NaN for a NaN multiplier, and ≥ 0 for hours ≥ 0 and multiplier ≥ 0 |
| Wages.NonNegativeProduct | script.js:87 | hours × rate × multiplier is not negative when all three are non-negative |
| Wages.ValidateSettings | script.js:186-196 | accepts exactly a numeric rate ≥ 0 with a numeric multiplier ≥ 1, returning those values. Reports the rate error exactly when the rate is NaN or negative, since the rate is checked first |
| Wages.ValidateRoundTrip | script.js:189-199 | validating a settings value's own fields gives that value back exactly when it is well-formed |
| Wages.DefaultsRefuseRecords | script.js:44-47 | the defaults (rate 0, multiplier 1.5) are well-formed, yet their rate blocks record creation and prices every shift at 0 |
| Records.RemoveAt | script.js:131 | for an index in range: one element fewer, the elements before it unchanged, the ones after it shifted down by one, and the same multiset once the removed element is added back. An index past the end changes nothing |
| Records.PrependThenRemove | script.js:228 | after `unshift` the old element at i is at i + 1, and removing position 0 gives the old list back |
| Summary.WindowNesting | script.js:157-167 | over single-calendar date triples, a date counted in a window is counted in every wider one (daily ⇒ monthly ⇒ yearly) |
| Summary.TotalAppend | script.js:152-169 | a window total over a concatenation is the sum of the totals of the parts |
| Summary.TotalAfterPrepend | script.js:228 | adding a record at the head raises each window total by that record's share and nothing else |
| Summary.TotalAfterRemove | script.js:131 | deleting position i lowers each window total by exactly that record's share; deleting past the end leaves it unchanged |
| Summary.TotalMonotone | script.js:161-168 | with no negative amounts, every total is ≥ 0 and a narrower window totals no more than a wider one |
| Summary.Summarize | script.js:140-169 | the one-pass loop with six accumulators yields, for each window and for hours and earnings, the sum over the records whose date falls in that window |
| Summary.SummaryOrdered | script.js:145-169 | for consistent records and single-calendar dates: 0 ≤ daily ≤ monthly ≤ yearly, for hours and for earnings |
| Summary.ThreeWindowsExample | script.js:152-169 | three records (today, earlier this month, last year): daily totals only the first, monthly and yearly the first two |
| Tracker.OTTracker.constructor | script.js:43-47 | a new tracker has no records and the default settings, and satisfies the invariant |
| Tracker.OTTracker.SaveSettings | script.js:185-204 | the result is the validation outcome. On refusal the settings are unchanged, on acceptance both fields are replaced. The record list is never changed, so stored earnings are not recomputed |
| Tracker.OTTracker.AddRecord | script.js:210-238 | refused when the rate is NaN or ≤ 0, checked first. Otherwise refused when date, start or end is empty. A refusal changes nothing. Success puts the new record at the head of the old list. The record's duration comes from its clock times, and its earnings are duration × rate × multiplier under the settings in effect |
| Tracker.OTTracker.DeleteRecord | script.js:129-131 | the list becomes `RemoveAt(old list, index)`: exactly that record is removed and the rest keep their order; settings are unchanged |

## Left out

- Service-worker registration (script.js:1-12): asynchronous browser plumbing with no effect on the logic.
- DOM lookup, section switching, table rendering, listener wiring and `showAlert` with its timer (script.js:15-40, 59-66, 91-128, 132-138, 171-176, 206-208, 232-235, 240-245): presentation only.
- Persistence through `localStorage` (script.js:43, 48-57): state is held in memory. `saveRecords` and `saveSettings` are not modelled, because the model keeps no separate stored copy.
- Loading: a malformed stored value makes `JSON.parse` throw (script.js:43-44); the load path is not modelled.
- Tracker.OTTracker.constructor: models only the defaults (no records, rate 0, multiplier 1.5). It does not model loading previously stored records or settings, whose contents the app does not check when it reads them.
- Duration.DurationHours: exact. The source rounds hours to hundredths with `toFixed(2)`, which is floating-point formatting.
- Wages.Earnings: exact. The source rounds the product to hundredths, and it prices the already-rounded duration.
- Numbers.Mul: JavaScript doubles are modelled as exact reals, with no IEEE rounding, no overflow and no infinities. A product such as 8 × 1e200 × 1e200 is `Infinity` in the source but a finite `Num` here. `parseFloat("Infinity")` passes the save checks, and pricing a zero-length shift at that rate gives NaN, not 0. Wages.Earnings and the records' `earnings >= 0` therefore hold only for finite values.
- Parsing of the `HH:MM` and `YYYY-MM-DD` field strings and of the rate and multiplier inputs (`parseFloat`): times arrive as minutes since midnight, dates as (year, month, day) triples, numbers as `Number`. An empty field is `None`.
- Time zones: the source compares a record's date with today's UTC date for the daily window, but with local month and year for the other two. With abstract date triples and one "today", all three windows use the same calendar.
- Summary.WindowNesting and Summary.SummaryOrdered: daily ⇒ monthly and daily ≤ monthly hold only in the single-calendar model. In the source they can fail. Take UTC+7 at 03:00 local time on 2024-06-01. Today's UTC date is 2024-05-31 while the local month is June. A record dated 2024-05-31 is counted daily but not monthly, so daily > monthly. On 2025-01-01 at the same hour, a record dated 2024-12-31 is counted daily but not yearly. West of UTC the effect on the monthly and yearly totals is larger and lasts all day. There `new Date("YYYY-MM-01")` (script.js:153) is UTC midnight, and `getMonth`/`getFullYear` (script.js:161, 165) read it as the previous local day. So every record dated the 1st of a month counts in the previous month's monthly total, and one dated 1 January counts in the previous year's yearly total. The model's Monthly and Yearly windows use the date's own month and year. Monthly ⇒ yearly and monthly ≤ yearly do hold in the source.
- Tracker.OTTracker.DeleteRecord: takes a non-negative index. `splice` with a negative or NaN index (which removes from the end, or the first record) is not modelled, because indices come only from the rendered row positions.
- Tracker.OTTracker.AddRecord: stores the description as given. The source's `trim()` of surrounding whitespace is not modelled.
