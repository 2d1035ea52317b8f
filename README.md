# Dashboard event aggregation

The analytics dashboard page (`src/pages/dashboard.js`) fetches the raw event
records for a time range and turns them into four bar-chart summaries:

- **views per day**: the number of `page_view` events on each UTC calendar day, days sorted;
- **events by location**: the number of events per location, with `"Unknown"` when the location is missing or empty, in order of first occurrence;
- **events by type**: the number of events per `type`, in order of first occurrence;
- **duration per day**: the total `duration` of all events on each UTC day, days sorted.

Each summary is an `events.reduce(callback, {})` that fills a dictionary
accumulator, followed by `Object.keys(acc)`, which is sorted for the two day
charts, and `labels.map(label => acc[label])`.

The project models this as follows:

- `strings.dfy` (`Strings`): JavaScript's default string order `Below`, which `Array.prototype.sort()` uses without a comparator, and `UpToFirst`, the first piece of `split('T')`.
- `sorting.dfy` (`Sorting`): an insertion sort in that order, proved to give an ascending permutation of its input. On distinct keys the result is strictly ascending.
- `tally.dfy` (`Tallies`): the accumulator as a `Tally`. A `Tally` holds the insertion order of the keys and the map of totals. `Bump` is the `acc[key] = (acc[key] || 0) + amount` update and `Build` is the left fold of the updates. The file proves what the fold's key set, totals, sum and key order are.
- `charts.dfy` (`Charts`): the `labels`/`data` pair. `SortedChart` sorts the keys and `InsertionChart` keeps insertion order.
- `dashboard.dfy` (`Dashboard`): the event record, the four reducers and the lemmas about the four summaries.
  - `Reduce` is the imperative `reduce` loop, proved equal to the specification `Aggregate`.
  - `ProcessViewData`, `ProcessLocationData`, `ProcessTypeData` and `ProcessDurationData` are the four functions.
  - `ProcessResponse` runs all four on the same response.
  - The lemmas relate each summary to reference definitions stated directly on the events, such as `ViewsOn`, `DurationOn`, `PageViews`, `LocationKeys` and `TypeKeys`.

`new Date(timestamp).toISOString()` is the runtime's date conversion, so it
is the parameter `iso: DateToIso`. `iso` returns `None` for an invalid date.
On an invalid date, `toISOString` throws a `RangeError`, and the model carries
that as the `RangeError` outcome. The views reducer converts only the
timestamps of `page_view` events. The duration reducer converts every
timestamp. So one bad timestamp on any event makes the whole refresh fail
(`ProcessResponse`). The location and type reducers never throw.

## Model

| member | source | states |
|---|---|---|
| Dashboard.Reduce | src/pages/dashboard.js:32-38 | the loop over the events, which rebinds the accumulator's keys and totals once per update, returns exactly the left fold `Aggregate` of the callback's updates, or RangeError when some invocation throws |
| Dashboard.AddTo | src/pages/dashboard.js:35 | the `acc[key]` update, which the source makes in place (missing key read as 0, plus amount): the new keys and totals are the accumulator `Bump` describes |
| Dashboard.ProcessViewData | src/pages/dashboard.js:31-55 | the views chart is the sorted chart of the views fold, or RangeError |
| Dashboard.ProcessLocationData | src/pages/dashboard.js:57-79 | the location chart is the insertion-order chart of the location fold, which never throws |
| Dashboard.ProcessTypeData | src/pages/dashboard.js:81-103 | the type chart is the insertion-order chart of the type fold, which never throws |
| Dashboard.ProcessDurationData | src/pages/dashboard.js:105-127 | the duration chart is the sorted chart of the duration fold, or RangeError |
| Dashboard.ProcessResponse | src/pages/dashboard.js:131-136 | all four charts are computed from the same events; the refresh succeeds if and only if every event's timestamp is a valid date, and then each chart is its summary |
| Dashboard.ViewsPerDay | src/pages/dashboard.js:32-41 | the views chart's labels are exactly the days with at least one page_view event, strictly ascending, aligned with the data, and each value is that day's page_view count, at least 1 |
| Dashboard.ViewsTotal | src/pages/dashboard.js:32-41 | the view counts add up to the number of page_view events |
| Dashboard.ViewsIgnoreOtherTypes | src/pages/dashboard.js:33 | dropping every event that is not a page_view leaves the views summary unchanged, including whether it fails |
| Dashboard.ViewsFailure | src/pages/dashboard.js:33-34 | the views reducer fails if and only if some page_view event has an invalid timestamp |
| Dashboard.DurationsPerDay | src/pages/dashboard.js:106-113 | the duration chart's labels are exactly the days on which any event happened, including days whose durations are all 0; they are strictly ascending and aligned with the data, and each value is the total duration on that day |
| Dashboard.DurationsTotal | src/pages/dashboard.js:106-113 | the duration values add up to the total duration of all events, with a missing duration counted as 0 |
| Dashboard.DurationsFailure | src/pages/dashboard.js:107 | the duration reducer fails if and only if some event, of any type, has an invalid timestamp |
| Dashboard.LocationsByFirstSeen | src/pages/dashboard.js:58-65 | location labels are distinct, are exactly the defaulted locations, come in order of first occurrence, align with the data, and each value counts the events with that location |
| Dashboard.LocationsTotal | src/pages/dashboard.js:58-65 | the location counts add up to the number of events |
| Dashboard.UnknownLocation | src/pages/dashboard.js:59 | "Unknown" is a label if and only if some event has a missing or empty location or the literal location "Unknown" |
| Dashboard.TypesByFirstSeen | src/pages/dashboard.js:82-89 | type labels are distinct, are exactly the event types, come in order of first occurrence, align with the data, and each value counts the events of that type |
| Dashboard.TypesTotal | src/pages/dashboard.js:82-89 | the type counts add up to the number of events |
| Dashboard.CountingChart | src/pages/dashboard.js:58-65 | for any counting fold with one key per event: distinct labels, first-occurrence order, per-key counts and a sum equal to the number of events |
| Dashboard.ThrowsIff | src/pages/dashboard.js:32-38 | a fold throws if and only if the callback throws on some single event |
| Dashboard.NeverThrows | src/pages/dashboard.js:58-62 | the location and type callbacks never throw |
| Dashboard.EntryKeys | src/pages/dashboard.js:32-38 | a key is updated by the fold if and only if the callback adds under it for some event |
| Dashboard.PageViewsSameEntries | src/pages/dashboard.js:33 | the views callback makes the same updates, and throws on the same inputs, whether or not the other event types are present |
| Dashboard.ViewAmounts | src/pages/dashboard.js:33-35 | the views fold adds under a day exactly the number of page_view events on that day |
| Dashboard.DurationAmounts | src/pages/dashboard.js:107-108 | the duration fold adds under a day exactly the total duration of that day's events |
| Dashboard.ViewTotal | src/pages/dashboard.js:32-38 | the views fold's updates total the number of page_view events |
| Dashboard.DurationTotal | src/pages/dashboard.js:106-110 | the duration fold's updates total the duration of all events |
| Dashboard.OneEntryPerEvent | src/pages/dashboard.js:58-62 | the location and type folds make exactly one update per event, in order |
| Dashboard.UnitEntries | src/pages/dashboard.js:35 | every update of the three counting folds adds 1 |
| Charts.InsertionChart | src/pages/dashboard.js:64-65 | `Object.keys(acc)` in insertion order and the mapped values: the labels are exactly the accumulator's key order, distinct, the same set as the keys, aligned with the data, each value the total under its label, and the same sum as the accumulator; the type chart does the same at lines 88-89 |
| Tallies.Values | src/pages/dashboard.js:41 | `labels.map((label) => acc[label])`: one value per label, in label order, each the accumulator's total under that label; the same holds at lines 65, 89 and 113 |
| Dashboard.DayOf | src/pages/dashboard.js:34 | the day key is absent exactly when the timestamp is not a valid date; otherwise it is the prefix of the ISO string before its first 'T', and contains no 'T'; the same conversion is at line 107 |
| Dashboard.LocationOf | src/pages/dashboard.js:59 | the location key is never empty; it is "Unknown" exactly when the location is missing, empty or literally "Unknown", and otherwise it is the location itself |
| Dashboard.DurationOf | src/pages/dashboard.js:108 | a missing duration counts as 0 and a present one as itself |
| Dashboard.StepOf | src/pages/dashboard.js:33-36 | one callback invocation: the views callback skips exactly the events that are not page views; only the views and duration callbacks throw, exactly on an invalid timestamp; an update adds the duration for the duration chart and 1 otherwise, under the event's day, defaulted location or type; the same holds for the callbacks at lines 59-60, 83-84 and 107-108 |
| Charts.SortedChart | src/pages/dashboard.js:40-41 | `Object.keys(acc).sort()` and the mapped values: aligned, strictly ascending labels that are exactly the accumulator's keys, each value the total under its label, and the same sum as the accumulator |
| Sorting.Sort | src/pages/dashboard.js:40 | the sorted keys are ascending and a permutation of the keys |
| Sorting.SortDistinct | src/pages/dashboard.js:112 | sorting distinct keys gives distinct, strictly ascending keys with the same members |
| Sorting.Insert | src/pages/dashboard.js:40 | one insertion step adds exactly its element |
| Strings.UpToFirst | src/pages/dashboard.js:34 | `split('T')[0]` is a prefix of the ISO string that contains no 'T' and stops just before the first 'T' |
| Strings.Below | src/pages/dashboard.js:40 | JavaScript's string `<`, which `sort()` uses without a comparator: a proper prefix sorts first, and no string sorts before one of its prefixes or itself |
| Strings.BelowAtDifference | src/pages/dashboard.js:112 | past a common prefix, the first differing character decides the order |
| Strings.BelowTransitive | src/pages/dashboard.js:40 | the default sort order is transitive |
| Strings.BelowTotal | src/pages/dashboard.js:112 | any two different strings are ordered one way or the other |
| Tallies.Bump | src/pages/dashboard.js:35 | one `acc[key]` update (missing key read as 0, plus amount) keeps the accumulator well formed, with each key listed once in insertion order |
| Tallies.Build | src/pages/dashboard.js:32-38 | the folded accumulator is well formed |
| Tallies.BuildTotals | src/pages/dashboard.js:60 | a key is in the accumulator if and only if some update names it, and its total is the sum of that key's amounts |
| Tallies.BuildSum | src/pages/dashboard.js:106-110 | the accumulator's values add up to the total of all amounts |
| Tallies.BuildFirstSeen | src/pages/dashboard.js:64 | the accumulator's key order is the order in which keys first occur |
| Tallies.UnitAmounts | src/pages/dashboard.js:60 | with unit amounts, a key's total is the number of times it occurs |

## Left out

- React state (lines 24-29 of `src/pages/dashboard.js`), the state updates and error logging of the effect (lines 138-148), the range selector and the chart options and JSX (lines 150-267 apart from the colours) are not modelled. They are UI plumbing. A failed refresh only leaves the previous charts in place.
- The HTTP request to the events API (axios) is not modelled. The response body is the parameter `events`.
- `getRandomColor`, the colours, the dataset `label` strings, the border widths and the Chart.js registration and options are not modelled. They are presentation only.
- Date parsing and ISO formatting are runtime functions, so they are the parameter `iso`. The model does not state which inputs JavaScript's `Date` accepts.
- Strings are sequences of Dafny `char`, not UTF-16 code units. For characters outside the Basic Multilingual Plane the default sort order can differ.
- `Object.keys` lists keys that look like array indices ("0", "42") first, in numeric order. The model keeps plain insertion order for every key. ISO day labels never look like indices, but a location or type such as "42" would move to the front. Keys that clash with `Object.prototype` are not modelled either. The model treats them as ordinary keys, but in the source they behave differently. An assignment to `acc['__proto__']` at lines 35, 60, 84 and 108 is silently ignored, so those events drop out of the chart and its totals. An inherited name such as `constructor`, `toString` or `valueOf` makes `acc[key] || 0` read a function, so the value becomes a string. A location or a type can be such a string.
- `Dashboard.LocationOf` treats a location as a string or absent. Other falsy values (`null`, `0`, `false`) fall back to "Unknown" in the source the same way; non-string locations are not modelled.
- `Dashboard.Event` takes `type` to be a string. A record without a `type` would be counted under "undefined" in the source; the model does not cover that case.
- `Dashboard.DurationOf` models durations as natural numbers. Negative and fractional durations are not modelled, and neither is floating-point rounding of the sums. In the source, `|| 0` turns only `NaN` (and 0) into 0; negative and fractional values are added unchanged.
- `Dashboard.Event` can express only well-formed records. The source also receives inputs the record cannot express, which the model does not cover:
  - a `null` record, on which `event.type` throws a TypeError, or a `response.data` that is not an array, on which `events.reduce` throws a TypeError; the `catch` at lines 142-143 logs either;
  - a number, string or boolean record, which has no fields: the views callback skips it, the location callback counts it under "Unknown" and the type callback under "undefined", and the refresh then fails with a RangeError at line 107;
  - a record without `timestamp`: `new Date(undefined).toISOString()` throws a RangeError;
  - a `duration` that is a numeric string: line 108 concatenates strings instead of adding numbers.
- The rest of the repository is not part of this model: the landing page, the stub stats API route, the chart card component and the authentication pages. The events API lives outside the repository; only its response body, the parameter `events`, is modelled.
