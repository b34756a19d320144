# Health sync app — a verified Dafny model of its core

The app runs on a phone. It reads five kinds of health record from Android Health Connect: step counts, heart-rate samples, energy burned, sleep sessions and weight measurements. It folds them into one record per calendar day and shows them on a single home screen. From there the user submits each daily record to a remote service that writes it into Notion. The app can also bring records back from that service for a range of days.

This project models that core in Dafny and proves properties of the model.

- `wrappers.dfy` defines `Option`.
- `dates.dfy` covers calendar dates:
  - the date key `toISOString().split('T')[0]`;
  - the day order the code gets from `new Date(..)` comparisons.
- `health_connect.dfy` covers the per-day reduction and the daily merge:
  - `aggregateDataByDate`;
  - the sleep map and the weight map;
  - the union of dates, the per-field null rules and the newest-first sort of `getAllHealthDataByDateRange`.
  - Loops are methods. Each is proved equal to a specification function, except three: `Array.from`, the sort and the merge. Those are proved to have the properties that determine their result. The sort is an insertion sort in place on an array.
- `health_connect_lemmas.dfy` proves facts about those specification functions.
- `api.dfy` covers the client's own logic:
  - the availability probe `checkServerHealth`;
  - the client-side range filter of `getRecordsByDateRange`.
- `home_screen.dfy` models the home screen as a `Screen` class. Its fields are the screen's state: user id, server status, records, logs and the Health Connect flags. Its methods are the handlers:
  - the log buffer with its cap of 50 entries;
  - the availability probe with its 5-second self-retry, and the wake-up button;
  - Health Connect initialisation and the permission request;
  - the device fetch, which stamps each record with the trimmed user id;
  - the server fetch;
  - the batch submission, which counts successes and keeps going after a failure.

Inputs that come from outside the code are parameters:
- what the device SDK returns;
- whether each submission succeeds (`accepted(i)` for the i-th one);
- how the probe ended;
- the formatted clock reading.

Alerts are returned as `Notice` values.

Three behaviours of the code worth knowing:
- A date whose weight record has no `inKilograms` still joins the union of dates.
- Steps become null when their *rounded* sum is 0. Heart rate and calories become null only when the *unrounded* value is 0, so a heart rate of 0.25 bpm gives the field `0`, while 0.25 steps gives null.
- A retry does not show `checking`. `checkServerStatus` never sets that status; only `wakeUpServer` does before it probes. While a retry's probe is in flight, the screen still shows the `starting` status that armed it (`HomeScreen.RetryKeepsStartingShown`).

`formatDate` (`src/screens/HomeScreen.js:304-306`) is the same expression as `Dates.DateOf`. So are the date strings built in `handleFetchData` (`src/screens/HomeScreen.js:256-257`), which `HomeScreen.Screen.FetchFromServer` computes with `DateOf`.

## Model

| member | source | states |
|---|---|---|
| Dates.DateKey | src/services/healthConnect.js:146 | `split('T')[0]`: the result is a prefix of the input, contains no `T`, and is followed by a `T` whenever it is shorter than the input |
| Dates.DateOf | src/services/healthConnect.js:146 | the date key of an instant's ISO text; `DateKey`, `DateKeyOfTimestamp` and `DateKeyAtFirstT` state what it is |
| Dates.DateKeyOfTimestamp | src/services/healthConnect.js:146 | for an ISO timestamp `date + "T" + time`, the key is exactly `date` |
| Dates.DateKeyAtFirstT | src/services/healthConnect.js:146 | when the first `T` of a text is at position n, the key is the n characters before it |
| Dates.EarlierIrreflexive | src/services/healthConnect.js:238 | no date is earlier than itself |
| Dates.EarlierTransitive | src/services/healthConnect.js:238 | the day order is transitive |
| Dates.EarlierTotal | src/services/healthConnect.js:238 | of two different dates, one is earlier |
| Dates.EarlierAsymmetric | src/services/healthConnect.js:238 | two dates are never each earlier than the other |
| Dates.SameMonthEarlierDay | src/services/healthConnect.js:238 | `2024-01-01` comes before `2024-01-02` and not after it |
| HealthConnect.Total | src/services/healthConnect.js:168 | `reduce((a, b) => a + b, 0)` from the left; `TotalConcat` and `TotalBounds` state its properties |
| HealthConnect.Reduce | src/services/healthConnect.js:166-174 | the three aggregation modes over a non-empty value list; `OneValueReduces`, `MeanBounded` and `AverageIsSumOverCount` state their properties |
| HealthConnect.Aggregated | src/services/healthConnect.js:142-178 | the reducer's result as a map; `AggregatedDomain`, `AggregatedEntry`, `NullRecordIgnored`, `SumSplits`, `LastIsLatestRecord` and `AverageBounded` state what it holds |
| HealthConnect.NoValuesOffRecordDates | src/services/healthConnect.js:145-160 | a date that no record carries collects no values |
| HealthConnect.Buckets | src/services/healthConnect.js:143-160 | the `dailyData` object after the first pass; `BucketsStepNull` and `BucketsStepValue` state how each record changes it, and `ReducedBuckets` how the second pass turns it into `Aggregated` |
| HealthConnect.ValuesOnSnoc | src/services/healthConnect.js:145-159 | one more record adds its value to its own date's values, at the end, and changes no other date |
| HealthConnect.OpenBucket | src/services/healthConnect.js:148-153 | a bucket exists afterwards for the date, and no other bucket is added |
| HealthConnect.AddValue | src/services/healthConnect.js:155-159 | pushing a value onto an open bucket adds no bucket |
| HealthConnect.BucketsStepNull | src/services/healthConnect.js:145-160 | a record without a value only opens the bucket of its date: the buckets after it are those of the records so far, opened for that date |
| HealthConnect.BucketsStepValue | src/services/healthConnect.js:145-160 | a record with a value opens its date's bucket and appends the value to it, incrementing the count |
| HealthConnect.ReducedStep | src/services/healthConnect.js:164-175 | reducing one more date adds its entry exactly when its bucket holds a value |
| HealthConnect.ReducedBuckets | src/services/healthConnect.js:142-178 | the second pass over the buckets the first pass builds yields `Aggregated` |
| HealthConnect.ReduceBuckets | src/services/healthConnect.js:163-176 | the loop over the bucket dates yields, for each date whose bucket holds a value, the sum, the average or the last value of the bucket |
| HealthConnect.AggregateByDate | src/services/healthConnect.js:142-178 | the two loops compute `Aggregated`: one entry per date that has a value, reduced by sum, average or last in input order |
| HealthConnect.DurationMinutes | src/services/healthConnect.js:203 | `Math.floor` of the millisecond difference over 60000: m·60000 ≤ diff < (m+1)·60000, negative durations included |
| HealthConnect.NoSleepOffSessionDates | src/services/healthConnect.js:198-209 | a date with no session has no minutes |
| HealthConnect.SleepTotals | src/services/healthConnect.js:198-209 | the sleep map: per start date, its sessions' minutes; `SingleSession`, `SleepOnConcat`, `AddSession` and `NoSleepOffSessionDates` state its properties |
| HealthConnect.SleepByDate | src/services/healthConnect.js:198-209 | the loop computes `SleepTotals`: per start date, the sum of the sessions' floored minutes |
| HealthConnect.LatestWeights | src/services/healthConnect.js:212-216 | the weight map; `LatestWeightIsLastRecord` and `WeightDatesMembers` state which record each entry comes from and which dates are keys |
| HealthConnect.WeightByDate | src/services/healthConnect.js:212-216 | the loop computes `LatestWeights`: per date, the `inKilograms` of the last record of that date |
| HealthConnect.Round | src/services/healthConnect.js:230-232 | `Math.round`: the nearest integer, with halves rounded up |
| HealthConnect.RoundedOrNull | src/services/healthConnect.js:230 | `Math.round(x) \|\| null`; `FieldsOfBuiltRecord` states when it is null |
| HealthConnect.RoundedIfTruthy | src/services/healthConnect.js:231-232 | `x ? Math.round(x) : null`; `FieldsOfBuiltRecord` and `SmallValuesRoundDifferently` state when it is null |
| HealthConnect.MinutesOrNull | src/services/healthConnect.js:233 | `x \|\| null` on minutes; `FieldsOfBuiltRecord` states when it is null |
| HealthConnect.WeightOrNull | src/services/healthConnect.js:234 | `x \|\| null` on a weight that may be missing; `FieldsOfBuiltRecord` states when it is null |
| HealthConnect.BuildRecord | src/services/healthConnect.js:228-235 | the object literal for one date; `FieldsOfBuiltRecord` states each field in both directions |
| HealthConnect.SortNewestFirst | src/services/healthConnect.js:238 | in place, the array becomes a permutation of itself with its dates strictly newest first |
| HealthConnect.SetToSeq | src/services/healthConnect.js:219-228 | `Array.from(new Set(..))`: the sequence has exactly the set's members, each once |
| HealthConnect.PermutedRecords | src/services/healthConnect.js:228-238 | sorting the built records keeps one record per union date, each built from the maps |
| HealthConnect.MergeDaily | src/services/healthConnect.js:219-238 | the result is `MergedFrom` the maps: exactly the union of dates, newest first, each record built by the field rules |
| HealthConnect.DailyMapsOf | src/services/healthConnect.js:193-216 | steps and calories by sum, heart rate by average, then the sleep and weight maps; `GetAllHealthData` and `EmptyInputsNoRecords` state what the merge makes of them |
| HealthConnect.GetAllHealthData | src/services/healthConnect.js:181-240 | steps and calories by sum, heart rate by average, sleep and weight maps, then the merge: the result is `MergedFrom(DailyMapsOf(..))` |
| HealthConnectLemmas.ValuesOnConcat | src/services/healthConnect.js:145-159 | the values collected for a date from two runs of records are the first run's followed by the second's |
| HealthConnectLemmas.RecordDatesConcat | src/services/healthConnect.js:145-153 | the dates seen in two runs of records are the union of each run's |
| HealthConnectLemmas.ValuesOnMembers | src/services/healthConnect.js:155-159 | a value is collected for a date if and only if some record of that date carries it |
| HealthConnectLemmas.ValuesOnSound | src/services/healthConnect.js:155-159 | every value collected for a date comes from a record of that date |
| HealthConnectLemmas.ValuesOnComplete | src/services/healthConnect.js:155-159 | every record of a date that has a value contributes it |
| HealthConnectLemmas.AggregatedDomain | src/services/healthConnect.js:164-175 | a date has an entry exactly when some record of that date has a non-null value, in every mode |
| HealthConnectLemmas.EmptyInputEmptyMap | src/services/healthConnect.js:142-178 | no records give an empty map |
| HealthConnectLemmas.NullRecordIgnored | src/services/healthConnect.js:155-159 | inserting a record without a value changes no mode's result |
| HealthConnectLemmas.TotalConcat | src/services/healthConnect.js:168 | the `reduce((a, b) => a + b, 0)` total distributes over concatenation |
| HealthConnectLemmas.SumSplits | src/services/healthConnect.js:168 | in sum mode, a date's total over two runs is the sum of the runs' totals (absent counting as 0) |
| HealthConnectLemmas.SingleRecord | src/services/healthConnect.js:142-178 | one record with a value gives one entry, its date mapped to its value, in every mode |
| HealthConnectLemmas.OneValueReduces | src/services/healthConnect.js:166-174 | one value reduces to itself in every mode |
| HealthConnectLemmas.SingleRecordValues | src/services/healthConnect.js:145-159 | a single record with a value gives its date exactly that value and no other date anything |
| HealthConnectLemmas.AggregatedOneDate | src/services/healthConnect.js:163-176 | records whose only date is d, with at least one value, give a one-entry map: d mapped to the reduction of its values |
| HealthConnectLemmas.TotalBounds | src/services/healthConnect.js:168 | values within [lo, hi] give a total within [lo·n, hi·n] |
| HealthConnectLemmas.AverageBounded | src/services/healthConnect.js:170 | an average lies between bounds that hold for all of that date's values |
| HealthConnectLemmas.ValuesOnBounded | src/services/healthConnect.js:155-159 | a bound holding for the values of every record of a date holds for the values collected for it |
| HealthConnectLemmas.MeanBounded | src/services/healthConnect.js:170 | the mean of a non-empty list of values within [lo, hi] lies within [lo, hi] |
| HealthConnectLemmas.AverageIsSumOverCount | src/services/healthConnect.js:168-170 | a date's average is its sum divided by the number of values collected for it |
| HealthConnectLemmas.QuotientBounds | src/services/healthConnect.js:170 | dividing a total within [lo·n, hi·n] by n > 0 lands in [lo, hi] |
| HealthConnectLemmas.LastIsLatestRecord | src/services/healthConnect.js:172 | in last mode, a date's value is that of a record of the date after which no record of the date has a value |
| HealthConnectLemmas.LastValueIsLatest | src/services/healthConnect.js:155-159 | the last value collected for a date is carried by a record of that date after which no record of the date has a value |
| HealthConnectLemmas.AggregatedEntry | src/services/healthConnect.js:164-175 | an entry of the result has at least one collected value and is their reduction by the mode |
| HealthConnectLemmas.MidnightSessionCountsForStartDate | src/services/healthConnect.js:199-208 | a session from 2024-01-01T23:30Z to 2024-01-02T06:00Z gives `{2024-01-01: 390}` and nothing for the next day |
| HealthConnectLemmas.LateEveningDate | src/services/healthConnect.js:200 | that session's start time has the date key `2024-01-01` |
| HealthConnectLemmas.SixAndAHalfHours | src/services/healthConnect.js:203 | a session from 23:30 to 06:00 the next day lasts 390 minutes |
| HealthConnectLemmas.NegativeDurationKept | src/services/healthConnect.js:203-208 | a session ending before it starts contributes its negative floored minutes |
| HealthConnectLemmas.SingleSession | src/services/healthConnect.js:198-209 | one session gives one entry, its start date mapped to its duration |
| HealthConnectLemmas.SleepOnConcat | src/services/healthConnect.js:208 | a date's minutes over two runs of sessions are the sum of each run's |
| HealthConnectLemmas.AddSession | src/services/healthConnect.js:205-208 | one more session adds its date if new and changes only that date, by its minutes |
| HealthConnectLemmas.LatestWeightIsLastRecord | src/services/healthConnect.js:213-215 | a date's weight is the `inKilograms` of a record of that date after which no record has that date |
| HealthConnectLemmas.WeightDatesMembers | src/services/healthConnect.js:213-215 | a date has a weight entry if and only if some weight record has that date, with or without a value |
| HealthConnectLemmas.FieldsOfBuiltRecord | src/services/healthConnect.js:228-235 | each field is null exactly when its metric is absent or falsy (rounded steps are 0; unrounded heart rate or calories are 0; minutes are 0; weight is missing or 0), and otherwise is the rounded or plain value |
| HealthConnectLemmas.SmallValuesRoundDifferently | src/services/healthConnect.js:230-231 | 0.25 steps gives null steps but a 0.25 bpm heart rate gives the field 0 |
| HealthConnectLemmas.NewestFirstDistinct | src/services/healthConnect.js:238 | a newest-first list repeats no date |
| HealthConnectLemmas.NewestFirstUnique | src/services/healthConnect.js:238 | two newest-first lists of the same set of dates have the same dates at the same positions |
| HealthConnectLemmas.TailDates | src/services/healthConnect.js:238 | without its first record, a list with distinct dates has all its dates but the first |
| HealthConnectLemmas.MergedUnique | src/services/healthConnect.js:219-238 | the merged output is fully determined by the five maps |
| HealthConnectLemmas.EmptyMapsNoRecords | src/services/healthConnect.js:219-238 | five empty maps give no records |
| HealthConnectLemmas.EmptyInputsNoRecords | src/services/healthConnect.js:181-240 | five empty record lists give no daily records |
| HealthConnectLemmas.WeightOnlyRecordsMerged | src/services/healthConnect.js:212-238 | two weight-only days merge into the two expected records, newest first |
| HealthConnectLemmas.WeightOnlyDates | src/services/healthConnect.js:219-225 | the union of dates of the weight-only example is its two dates |
| HealthConnectLemmas.WeightOnlyBuilt | src/services/healthConnect.js:228-235 | each record of the weight-only example has null metrics and its day's weight |
| HealthConnectLemmas.WeightOnlyOrdered | src/services/healthConnect.js:238 | the two weight-only records are newest first |
| HealthConnectLemmas.WeightOnlyExample | src/services/healthConnect.js:212-238 | every merge of the weight-only maps equals those two records, the later day first |
| Api.CheckServerHealth | src/services/api.js:14-26 | `checkServerHealth`; `ProbeClassification` states which outcome gives which status |
| Api.ProbeClassification | src/services/api.js:14-26 | `online` if and only if a 2xx response arrived; `starting` if and only if the error code is `ECONNABORTED`; `offline` if and only if any other error, a non-2xx response included (axios rejects it); never `checking` or `error` |
| Api.InRange | src/services/api.js:55-56 | both ends inclusive; `BoundsIncluded` states that records on either end are kept |
| Api.RecordsInDateRange | src/services/api.js:49-58 | the kept records are a subsequence of the response, each dated within the inclusive range, each in-range record kept as often as it was sent |
| Api.FilterIdempotent | src/services/api.js:54-57 | filtering twice with the same range equals filtering once |
| Api.BoundsIncluded | src/services/api.js:56 | a record dated on either end of a non-empty range is kept |
| HomeScreen.OrElse | src/screens/HomeScreen.js:97 | the string `\|\|`, with the empty string falsy; `CheckServerStatus` and `RequestPermissions` log its result |
| HomeScreen.PushLog | src/screens/HomeScreen.js:70 | the new entry is first, followed by the previous entries, at most 50 in all |
| HomeScreen.IsJsWhitespace | src/screens/HomeScreen.js:205 | the characters `trim()` removes; `TrimStart`, `TrimEnd` and `BlankIffAllWhitespace` state their removal |
| HomeScreen.Trim | src/screens/HomeScreen.js:205 | `s.trim()`; `TrimIdempotent` states that trimming twice changes nothing more |
| HomeScreen.Blank | src/screens/HomeScreen.js:205 | `!s.trim()`; `BlankIffAllWhitespace` states when it holds |
| HomeScreen.TrimStart | src/screens/HomeScreen.js:205 | the result is a suffix of the input, starts with a non-space, and only white space was removed |
| HomeScreen.TrimEnd | src/screens/HomeScreen.js:205 | the result is a prefix of the input, ends with a non-space, and only white space was removed |
| HomeScreen.StampUserId | src/screens/HomeScreen.js:225-228 | same length; every record carries the user id; nothing else in any record changes |
| HomeScreen.CountAccepted | src/screens/HomeScreen.js:282-290 | the success count never exceeds the number of submissions |
| HomeScreen.LogsNewestFirst | src/screens/HomeScreen.js:63-70 | after any run of `addLog` calls, the list is the new entries newest first, then the old ones, cut to 50 |
| HomeScreen.OldEntriesDropped | src/screens/HomeScreen.js:70 | after 50 or more `addLog` calls, only the newest 50 entries remain |
| HomeScreen.PushLogsTwo | src/screens/HomeScreen.js:63-70 | two `addLog` calls push the first entry, then the second |
| HomeScreen.PushLogsThree | src/screens/HomeScreen.js:63-70 | three `addLog` calls push the entries in order |
| HomeScreen.ProbePushed | src/screens/HomeScreen.js:84-101 | the probe's two or three log entries are pushed one by one, in order |
| HomeScreen.BlankIffAllWhitespace | src/screens/HomeScreen.js:205 | `!userId.trim()` holds if and only if every character is white space |
| HomeScreen.TrimIdempotent | src/screens/HomeScreen.js:205 | trimming twice equals trimming once |
| HomeScreen.StampKeepsOrder | src/screens/HomeScreen.js:225-230 | stamping keeps the newest-first order and the set of dates |
| HomeScreen.StatusAfterProbe | src/screens/HomeScreen.js:84-101 | the status a probe leaves; `ErrorOnlyWhenProbeThrows` states when it is `error` |
| HomeScreen.RetriesArmed | src/screens/HomeScreen.js:92-95 | the retries a probe arms; `RetryOnlyAfterTimeout` states when it is one |
| HomeScreen.ProbeLogEntries | src/screens/HomeScreen.js:84-101 | the probe's log entries, oldest first; `ProbePushed` states that they are pushed one by one |
| HomeScreen.RetryOnlyAfterTimeout | src/screens/HomeScreen.js:92-95 | a retry is armed if and only if the probe timed out |
| HomeScreen.ErrorOnlyWhenProbeThrows | src/screens/HomeScreen.js:97-100 | the status becomes `error` if and only if the probe call threw |
| HomeScreen.ServerStatusColor | src/screens/HomeScreen.js:322-329 | `getServerStatusColor`; `StatusColours` states each colour's states |
| HomeScreen.StatusColours | src/screens/HomeScreen.js:322-329 | green for online, orange for starting, blue for checking, red for offline and error, each colour for those states only |
| HomeScreen.AllAccepted | src/screens/HomeScreen.js:282-290 | when every submission succeeds, all are counted |
| HomeScreen.NoneAccepted | src/screens/HomeScreen.js:282-290 | when every submission fails, none is counted |
| HomeScreen.FailureInTheMiddle | src/screens/HomeScreen.js:283-289 | three records with the second failing count two: a failure does not stop the loop |
| HomeScreen.PermissionGranted | src/screens/HomeScreen.js:181-192 | `requestHealthConnectPermissions` resolves to true exactly when Health Connect is available and a non-empty permission list came back; `RequestPermissions` and `FetchFromHealthConnect` state its use |
| HomeScreen.PermissionNotice | src/screens/HomeScreen.js:183-199 | the alert for an unavailable Health Connect or a failed dialog, none otherwise; `RequestPermissions` states it is the alert shown |
| HomeScreen.PermissionLogEntries | src/screens/HomeScreen.js:179-197 | the permission request's log entries, oldest first; `RequestPermissions` states that they are pushed in order |
| HomeScreen.InitLogEntries | src/screens/HomeScreen.js:150-167 | the log entries of `initHealthConnect`, oldest first; `InitHealthConnect` states that they are pushed in order |
| HomeScreen.Screen.constructor | src/screens/HomeScreen.js:25-36 | the initial state: empty user id, records and logs; status `checking` with its message; both Health Connect flags false; no retry armed; `Valid`: at most 50 log entries |
| HomeScreen.Screen.SetUserId | src/screens/HomeScreen.js:402 | the text field sets the user id |
| HomeScreen.Screen.AddLog | src/screens/HomeScreen.js:63-70 | the log list becomes `PushLog` of the old list and the new entry, so it holds at most 50 entries |
| HomeScreen.Screen.CheckServerStatus | src/screens/HomeScreen.js:84-101 | the status becomes the probe's classification, or `error` when it throws; one retry is armed exactly when the server is starting; the log gains the probe's entries in order and holds at most 50 |
| HomeScreen.Screen.FireRetry | src/screens/HomeScreen.js:94 | an armed retry is consumed and probes again, with the same effects as `CheckServerStatus` |
| HomeScreen.Screen.WakeUpServer | src/screens/HomeScreen.js:103-107 | logs the wake-up, shows `checking` with "서버 깨우는 중..." while the probe is in flight, then probes |
| HomeScreen.RetryKeepsStartingShown | src/screens/HomeScreen.js:84-107 | after a probe that finds the server starting, the retry's probe runs while `starting` is still shown; only `wakeUpServer` shows `checking` |
| HomeScreen.Screen.InitHealthConnect | src/screens/HomeScreen.js:148-168 | the availability flag is the SDK's answer; the initialised flag changes only when the SDK is available; the log gains the matching entries and holds at most 50 |
| HomeScreen.Screen.RequestPermissions | src/screens/HomeScreen.js:177-202 | granted exactly when Health Connect is available and a non-empty list of permissions came back; an alert when unavailable or when the dialog throws; the log gains the matching entries, a thrown error logged by its `message` or else its `toString()`; at most 50 entries remain |
| HomeScreen.Screen.FetchFromHealthConnect | src/screens/HomeScreen.js:204-243 | a blank user id changes nothing and alerts; without permission the records stay; with permission the records are the merged daily records stamped with the trimmed id, and the alert reports their number or that there are none; a log within its cap of 50 stays within it |
| HomeScreen.Screen.LoadStamped | src/screens/HomeScreen.js:220-229 | the records become some newest-first merge of the five maps, each stamped with the id, and the count is their number |
| HomeScreen.Screen.FetchFromServer | src/screens/HomeScreen.js:245-271 | a blank user id or a failed request leaves the records as they were; otherwise the records are the response filtered to the chosen days' date keys, with an alert when none are left |
| HomeScreen.Screen.SyncToNotion | src/screens/HomeScreen.js:273-302 | no records: nothing submitted, an alert; otherwise every record is submitted once, in order, and the completion alert reports the number of successes out of the total |

## Left out

- Reading from Health Connect: the SDK calls, `Promise.all` and the per-kind `readRecords` time-range filter. Their results are parameters, and each reader's catch that returns `[]` is just an empty list.
- The HTTP transport: the axios instance, `syncHealthData`, the server request of `getRecordsByDateRange`, and the other endpoints. How a request ends is a parameter.
- Timing: the 60-second probe timeout and the 5-second `setTimeout`. An armed retry is counted in `pendingRetries` and fired by `FireRetry`.
- Each handler runs to completion: interleaving at `await` is not modelled. On mount, `checkServerStatus` and `initHealthConnect` start together (`src/screens/HomeScreen.js:38-42`), so their log entries interleave. The wake-up button is disabled only while the status is `checking` (`src/screens/HomeScreen.js:386`), so a press during a retry's probe starts an overlapping probe, and whichever returns last sets the status. The log and `statusDuringProbe` contracts of `HomeScreen.Screen.CheckServerStatus` hold under this assumption.
- React rendering and state batching. Consecutive `setLogs(prev => ...)` updates are applied in order.
- The `loading` and `syncing` flags. They only drive spinners and disabled buttons.
- Mounting: loading the user id and running the first probe and `initHealthConnect`.
- `saveUserId`/`loadUserId` and device storage.
- Writing logs to a file, `exportLogs` and `clearLogs`. These are file-system and sharing I/O.
- `console` output.
- The date pickers and the start and end dates they set. The model takes both dates as `Instant` parameters.
- The record list and input screens, and app navigation. They are outside the core.
- JavaScript `Date`:
  - Parsing of record times and timezones. A time is an `Instant` holding its ISO text and its epoch milliseconds, and the model does not relate the two.
  - Comparing dates as `Date` objects. The model compares `YYYY-MM-DD` strings lexicographically, which agrees for well-formed keys.
- Floating-point arithmetic. Values are exact reals, so rounding error in sums and averages, `NaN` and object-valued payloads are not modelled. Undefined and null payloads are modelled, as `None` in `MetricRecord.value`.
- `HomeScreen.TrimStart`, `HomeScreen.TrimEnd`: string handling works on code points, while JavaScript works on UTF-16 code units. Trimming agrees because every JavaScript white-space character is a single code unit.
- One clock reading per handler call stands for the per-entry `new Date()` of `addLog`.
- HealthConnect.GetAllHealthData / HomeScreen.Screen.FetchFromHealthConnect: the catch of `getAllHealthDataByDateRange` and the failure alert of `handleFetchFromHealthConnect` (`src/screens/HomeScreen.js:237-239`, which keeps the old records) are not modelled. The try block throws on inputs the model cannot represent: a weight record without a `weight` object (`record.weight.inKilograms` at `src/services/healthConnect.js:215` throws a TypeError) and an invalid time (`toISOString()` at `src/services/healthConnect.js:146`, `200` and `214` throws a RangeError). `WeightRecord` has no "weight missing" case and every `Instant` is valid.
- Catch branches that no input reaches, because the callees never throw: the outer catch of `handleSyncToNotion` and the catch of `initHealthConnect`.
- The `Threw` case of the probe is kept, although `checkServerHealth` always returns.
- The JSX layout and styles.

