# StarNet dashboard: a verified model of its data logic

The StarNet dashboard is a React page. It shows an internet provider's
payments, per-client bandwidth usage, the router's health and the active
sessions. It reads all of these from a spreadsheet-backed web API. This
project models in Dafny the parts of the dashboard that compute something.
It then proves what those parts promise.

- **JsValues** (`js_values.dfy`) covers the JavaScript values the code
  works on: truthiness, `Number()` and `String()`, property reads and
  writes, object spread, `Object.keys/values/entries`, `trim`,
  `toLowerCase`, `padStart`, `Math.round/floor`, `toFixed`. It also models
  walks over lists (`forEach`/`map`) whose callback may throw.
- **Ordering** (`ordering.dfy`) covers `Array.prototype.sort` with a
  comparator, modelled as a stable insertion sort. It has a sequence form
  and an in-place array form. It also holds `filter` and the "keep the
  strictly later entry per key" fold used by the payment code.
- **Api** (`lib/api.js`) builds the request query: `key` and `sheet`, then
  the caller's parameters without null or undefined values. It checks the
  two settings before any request, turns a failed HTTP response into an
  error, and brings every answer into one fixed shape.
- **Payments** (`adaptPaymentsResponse` in `App.jsx`) normalises a grouped
  payload (phone, then month, then payments) or a legacy list of rows. The
  result holds the totals, the pending count, the flat row list and one
  latest payment per client. Each loop is a method proved against the
  function that specifies it.
- **PaymentCard** (`PaymentOverviewCard.jsx`) covers the card's memo (the
  total and the latest payment per client), the month ordering and the
  date labels.
- **Units** covers `formatMB` (`App.jsx`), `fmtMbHuman`
  (`ActiveSessionsTable.jsx`), and `fmtBytes` and `secondsToDhms`
  (`RouterHealthPanel.jsx`).
- **RouterHealth** (`RouterHealthPanel.jsx`) classifies the uptime, CPU and
  memory readings. **Normalize** holds `normalizeIfaceTotals` and
  `normalizeRouterHealth` from `App.jsx`.
- **Sessions** (`ActiveSessionsTable.jsx`) covers the totals display, the
  search filter and the sort of the session table.
- **Chart** (`BandwidthUsageChart.jsx`) covers the points, their order, the
  width clamp, the maximum and the step.
- **Toast** (`hooks/use-toast.js`) covers the reducer, and the module-level
  store as a class. The store holds the id counter, the removal queue, the
  listeners and the memory state.
- **Week** covers `dateToKey` and the seven-day week of the client modal.
- **Sync** covers the per-endpoint loading of `App` (`loadEndpoint`,
  `handleRetry`, `handleSave`/`postRow`, `openClientModal`). It is the class
  `Dashboard`, whose fields are the component's state and refs. A load is
  two steps. `Begin` is what happens before the request is awaited.
  `Complete` applies the outcome once it arrives.

The model does no input or output. What the dashboard gets from its
environment is passed in as parameters:

- the outcome of each request (`Completion<Shape>`, or a `Response` for the
  raw fetch);
- a date parser `string -> Option<int>` standing for `new Date(s)` and
  `Date.parse`;
- a `Clock` giving today's ISO day and the current time;
- a `Calendar` giving the local date of each day number;
- a `collate` function standing for `localeCompare`.

Numbers are exact reals. JSON has no Infinity and no NaN, so a `Num` is
always finite, and NaN appears only where `Number()` fails to read a value.
Objects are lists of entries in property order.

## Model

| member | source | states |
|---|---|---|
| JsValues.MapThrowShape | dashboard-main/starnet-dashboard/src/App.jsx:139-166 | a walk over a list (`forEach`/`map` whose callback may throw) throws exactly when the callback throws on some element; otherwise it has one result per element, each the callback's |
| JsValues.MapThrowFirst | dashboard-main/starnet-dashboard/src/App.jsx:139-166 | the walk throws the error of the first element whose callback throws |
| JsValues.MapThrowPrefix | dashboard-main/starnet-dashboard/src/App.jsx:139-166 | once a prefix of the walk throws, the whole walk throws that same error: the later elements are never reached |
| JsValues.ConcatMapPrefix | dashboard-main/starnet-dashboard/src/App.jsx:68-88 | the same for the nested walks that push several results per element |
| JsValues.ConcatMapNext | dashboard-main/starnet-dashboard/src/App.jsx:68-88 | one more element of a nested walk either throws its error for the whole walk or appends its results |
| JsValues.ConcatMapLength | dashboard-main/starnet-dashboard/src/App.jsx:67-88 | a nested walk that does not throw pushes, in total, the sum of the per-element counts |
| JsValues.Lookup | dashboard-main/starnet-dashboard/src/App.jsx:249-250 | reading a property an object does not have gives `undefined` |
| JsValues.LookupAt | dashboard-main/starnet-dashboard/src/lib/api.js:46-53 | a property reads the value of its entry |
| JsValues.AssignFacts | dashboard-main/starnet-dashboard/src/App.jsx:352 | after `obj[key] = val` the key reads `val`, every other key reads what it read, a new key is appended at the end and an existing one keeps its place |
| JsValues.AssignExisting | dashboard-main/starnet-dashboard/src/App.jsx:352 | writing a property's own value back changes nothing |
| JsValues.HasKeyOf | dashboard-main/starnet-dashboard/src/App.jsx:168 | an object has a property exactly when its name is among its keys |
| JsValues.ExtendOther | dashboard-main/starnet-dashboard/src/hooks/use-toast.js:44 | in `{ ...t, ...patch }` a key the patch does not name reads the value it had in `t` |
| JsValues.ExtendNamed | dashboard-main/starnet-dashboard/src/hooks/use-toast.js:44 | a key the patch names (once) reads the patch's value |
| JsValues.ExtendKeys | dashboard-main/starnet-dashboard/src/hooks/use-toast.js:44 | the spread has the keys of both objects and no others |
| JsValues.ExtendUnchanged | dashboard-main/starnet-dashboard/src/App.jsx:251-259 | spreading properties that the object already holds with the same values gives the object back |
| JsValues.Entries | dashboard-main/starnet-dashboard/src/App.jsx:68-69 | `Object.entries` of an object is its entries; of an array, one entry per item holding that item; of a number, boolean, null or undefined, none |
| JsValues.LookupIsValue | dashboard-main/starnet-dashboard/src/components/ActiveSessionsTable.jsx:57 | the value of a present property is among the object's values |
| JsValues.AssignValues | dashboard-main/starnet-dashboard/src/App.jsx:106 | after an assignment the values are the old ones or the assigned one |
| JsValues.ExtendValues | dashboard-main/starnet-dashboard/src/components/ActiveSessionsTable.jsx:50-56 | the values of a spread come from one of the two objects |
| JsValues.TrimStart | dashboard-main/starnet-dashboard/src/components/ActiveSessionsTable.jsx:46 | the result is a suffix of the input that does not start with white space, and only white space was dropped |
| JsValues.TrimEnd | dashboard-main/starnet-dashboard/src/components/ActiveSessionsTable.jsx:46 | the result is a prefix of the input that does not end with white space, and only white space was dropped |
| JsValues.Trim | dashboard-main/starnet-dashboard/src/components/ActiveSessionsTable.jsx:46 | `trim()` is no longer than its input and neither starts nor ends with white space |
| JsValues.TrimOfTrimmed | dashboard-main/starnet-dashboard/src/App.jsx:151-152 | a string with no white space at either end is its own `trim()` |
| JsValues.TrimIdempotent | dashboard-main/starnet-dashboard/src/App.jsx:151-152 | trimming twice is trimming once |
| JsValues.ToLower | dashboard-main/starnet-dashboard/src/components/ActiveSessionsTable.jsx:46 | `toLowerCase()` keeps the length and lowers each character |
| JsValues.IndexOf | dashboard-main/starnet-dashboard/src/components/PaymentOverviewCard.jsx:78-79 | the first position of the character, or none exactly when it does not occur |
| JsValues.SliceTo | dashboard-main/starnet-dashboard/src/App.jsx:97 | `slice(0, n)` is a prefix of length n, or the whole string when shorter |
| JsValues.PadStart | dashboard-main/starnet-dashboard/src/App.jsx:17-18 | `padStart(width, c)` ends with the input and is filled with `c` in front up to the width |
| JsValues.NatToString | dashboard-main/starnet-dashboard/src/hooks/use-toast.js:13 | `String(n)` of a whole number is a nonempty string of digits without a leading zero |
| JsValues.DigitsValueOfNatToString | dashboard-main/starnet-dashboard/src/hooks/use-toast.js:13 | reading those digits back gives the number (round trip) |
| JsValues.NatToStringDigitsValue | dashboard-main/starnet-dashboard/src/hooks/use-toast.js:13 | writing the value of a digit string without leading zeros gives the string back (the other direction) |
| JsValues.UnsignedDecimal | dashboard-main/starnet-dashboard/src/components/RouterHealthPanel.jsx:59 | a decimal numeral without a sign reads a value that is not negative; a digit string reads its value |
| JsValues.DigitStringToNumber | dashboard-main/starnet-dashboard/src/components/RouterHealthPanel.jsx:59 | `Number(s)` of a digit string is its value |
| JsValues.NumberOfNumberText | dashboard-main/starnet-dashboard/src/components/ActiveSessionsTable.jsx:117-118 | `Number` reads back a whole number from the text `String` writes for it, and so does `Number(..) || 0` |
| JsValues.NumberTextOfNat | dashboard-main/starnet-dashboard/src/components/RouterHealthPanel.jsx:59 | a whole number is written as its decimal digits |
| JsValues.Round | dashboard-main/starnet-dashboard/src/App.jsx:28 | `Math.round(x)` lies within one half of `x`, halves rounding up |
| JsValues.Floor | dashboard-main/starnet-dashboard/src/components/RouterHealthPanel.jsx:6-9 | `Math.floor(x)` is the greatest integer not above `x` |
| Ordering.Insert | dashboard-main/starnet-dashboard/src/App.jsx:180-184 | inserting into a sorted run adds exactly one element |
| Ordering.Sort | dashboard-main/starnet-dashboard/src/App.jsx:180-184 | `Array.prototype.sort(compare)`, modelled as a stable sort, keeps the length |
| Ordering.InsertAt | dashboard-main/starnet-dashboard/src/App.jsx:180-184 | the new element goes after every element that does not compare above it and before the run that does |
| Ordering.SortInPlace | dashboard-main/starnet-dashboard/src/App.jsx:169 | sorting an array in place leaves it holding the sorted sequence of its old contents |
| Ordering.InsertInPlace | dashboard-main/starnet-dashboard/src/App.jsx:169 | one insertion step in place: the first i + 1 cells hold the insertion of cell i into the first i, and the rest is untouched |
| Ordering.InsertPermutes | dashboard-main/starnet-dashboard/src/App.jsx:180-184 | an insertion adds the element and loses nothing (multisets) |
| Ordering.SortPermutes | dashboard-main/starnet-dashboard/src/App.jsx:180-184 | the sorted list is a permutation of the input |
| Ordering.SortMembers | dashboard-main/starnet-dashboard/src/App.jsx:180-184 | the sorted list holds exactly the input's elements |
| Ordering.InsertSorted | dashboard-main/starnet-dashboard/src/App.jsx:180-184 | with a consistent comparator, inserting into a sorted list keeps it sorted |
| Ordering.SortSorted | dashboard-main/starnet-dashboard/src/App.jsx:180-184 | with a comparator consistent on the elements, the result is sorted |
| Ordering.InsertHead | dashboard-main/starnet-dashboard/src/App.jsx:169-170 | the head after an insertion is the new element exactly when every old element compares after it |
| Ordering.Sign | dashboard-main/starnet-dashboard/src/App.jsx:183 | the sign of a difference: positive, negative or zero as the difference is |
| Ordering.NumericConsistent | dashboard-main/starnet-dashboard/src/App.jsx:180-184 | a comparator that subtracts numeric keys, all present, is consistent (a total preorder) |
| Ordering.NumericSorted | dashboard-main/starnet-dashboard/src/App.jsx:180-184 | a list sorted by such a comparator has its keys in ascending or descending order |
| Ordering.SortByNumber | dashboard-main/starnet-dashboard/src/components/ActiveSessionsTable.jsx:62-68 | sorting by a key difference orders the keys |
| Ordering.Keep | dashboard-main/starnet-dashboard/src/hooks/use-toast.js:51 | `filter` never lengthens the list |
| Ordering.KeepMembers | dashboard-main/starnet-dashboard/src/hooks/use-toast.js:51 | `filter` keeps exactly the elements that pass, without adding any |
| Ordering.KeepAppend | dashboard-main/starnet-dashboard/src/hooks/use-toast.js:51 | filtering distributes over concatenation (the order of survivors is kept) |
| Ordering.KeepIdempotent | dashboard-main/starnet-dashboard/src/hooks/use-toast.js:51 | filtering twice is filtering once |
| Ordering.KeepAll | dashboard-main/starnet-dashboard/src/components/ActiveSessionsTable.jsx:45-47 | when every element passes, the filter returns the list unchanged |
| Ordering.KeepLatest | dashboard-main/starnet-dashboard/src/App.jsx:106 | the "replace only when strictly later" fold keeps one of the entries |
| Ordering.KeepLatestIsFirstMax | dashboard-main/starnet-dashboard/src/App.jsx:106 | when "later" is "greater timestamp", the fold keeps the first entry with the greatest timestamp |
| Ordering.SortHeadIsKeepLatest | dashboard-main/starnet-dashboard/src/App.jsx:169-170 | since the sort is stable, the head of a list sorted newest first is the entry that fold keeps |
| Ordering.HeadPrecedesAll | dashboard-main/starnet-dashboard/src/App.jsx:169-170 | in a sorted list, an element that the head precedes is preceded by every element |
| Ordering.WithKey | dashboard-main/starnet-dashboard/src/App.jsx:155-156 | the entries of one key are exactly the entries with that key, in order |
| Ordering.WithKeyAbsent | dashboard-main/starnet-dashboard/src/App.jsx:155-156 | a key that no entry has has no entries |
| Ordering.FirstAppearance | dashboard-main/starnet-dashboard/src/App.jsx:168 | the keys of an object filled from a list are distinct and are exactly the keys of the list's entries |
| Ordering.LatestPerKey | dashboard-main/starnet-dashboard/src/App.jsx:102-107 | the per-key record lists the keys in order of first appearance, keeps one entry per key, of that key and from the list |
| Ordering.LatestPerKeyKeeps | dashboard-main/starnet-dashboard/src/App.jsx:102-107 | the entry kept for a key is the fold over that key's entries |
| Ordering.LatestPerKeyPush | dashboard-main/starnet-dashboard/src/App.jsx:106 | one more entry adds its key if new, replaces that key's entry only when it is later, and leaves the other keys alone |
| Ordering.RecordLatest | dashboard-main/starnet-dashboard/src/App.jsx:103-107 | one step of the per-key loop gives the record of the list extended by one entry |
| Ordering.KeptValues | dashboard-main/starnet-dashboard/src/App.jsx:108 | `Object.values` of the record has one value per distinct key |
| Ordering.OnePerKey | dashboard-main/starnet-dashboard/src/App.jsx:108-111 | the kept values, in any order, hold one entry per key, each from the list, and every key of the list is represented |
| Ordering.KeptInjective | dashboard-main/starnet-dashboard/src/App.jsx:108 | two kept values with the same key are the same value |
| Ordering.KeptIsFirstMax | dashboard-main/starnet-dashboard/src/App.jsx:102-107 | when "later" is "greater timestamp", the entry kept for a key is the first of that key's entries with the greatest timestamp |
| Units.UnitBytes | dashboard-main/starnet-dashboard/src/App.jsx:23-29 | every unit is a positive number of bytes (B, KB, MB and GB are 1024 apart) |
| Units.MBScale | dashboard-main/starnet-dashboard/src/App.jsx:23-29 | `formatMB` shows GB above 1024 MB, MB above 1 MB up to 1024, and rounded KB otherwise; GB and MB have two decimals; the shown figure and unit always denote the input amount |
| Units.FormatMBFigureRange | dashboard-main/starnet-dashboard/src/App.jsx:26-27 | above 1 MB the shown figure is above 1, and in MB it is at most 1024 |
| Units.FormatMBZero | dashboard-main/starnet-dashboard/src/App.jsx:24-28 | 0 is shown as "0 KB", because every amount up to 1 MB takes the KB branch, and null as "0 MB" |
| Units.FormatMBExample | dashboard-main/starnet-dashboard/src/App.jsx:26 | 1536 MB is shown as "1.50 GB" |
| Units.TwoDecimals | dashboard-main/starnet-dashboard/src/App.jsx:26-27 | `toFixed(2)` of a number with at most two decimals writes the whole part, a point and the hundredths padded to two digits |
| Units.HumanMBScale | dashboard-main/starnet-dashboard/src/components/ActiveSessionsTable.jsx:4-9 | `fmtMbHuman` shows GB from 1024 MB on, MB from 1 MB on, and rounded KB below; its thresholds are inclusive where `formatMB`'s are strict |
| Units.FormatMBAtBoundary | dashboard-main/starnet-dashboard/src/App.jsx:26-27 | exactly 1024 MB is shown by `formatMB` as "1024.00 MB" |
| Units.FmtMbHumanAtBoundary | dashboard-main/starnet-dashboard/src/components/ActiveSessionsTable.jsx:6 | and by `fmtMbHuman` as "1.00 GB": the two formatters disagree at the boundary |
| Units.FixedWhole | dashboard-main/starnet-dashboard/src/App.jsx:27 | `toFixed(2)` of a whole number is its digits followed by ".00" |
| Units.BytesScale | dashboard-main/starnet-dashboard/src/components/RouterHealthPanel.jsx:18-24 | `fmtBytes` shows GB from 2^30 bytes, MB from 2^20, KB (no decimals) from 1024, and plain bytes below; GB and MB have two decimals |
| Units.FmtBytesGigabytes | dashboard-main/starnet-dashboard/src/components/RouterHealthPanel.jsx:20 | 2^31 bytes are shown as "2.00 GB" |
| Units.FmtBytesSmall | dashboard-main/starnet-dashboard/src/components/RouterHealthPanel.jsx:23 | 512 bytes are shown as "512 B" |
| Units.DhmsParts | dashboard-main/starnet-dashboard/src/components/RouterHealthPanel.jsx:10-15 | at least one part is always shown |
| Units.FloorQuotient | dashboard-main/starnet-dashboard/src/components/RouterHealthPanel.jsx:6-8 | `Math.floor(n / m)` of whole numbers is their integer quotient |
| Units.RemOfNat | dashboard-main/starnet-dashboard/src/components/RouterHealthPanel.jsx:7-9 | JavaScript's `%` on whole numbers is the integer remainder |
| Units.DhmsOfNat | dashboard-main/starnet-dashboard/src/components/RouterHealthPanel.jsx:5-9 | the days, hours, minutes and seconds of a whole number of seconds are its integer quotients and remainders |
| Units.DhmsDecomposes | dashboard-main/starnet-dashboard/src/components/RouterHealthPanel.jsx:5-9 | hours below 24, minutes and seconds below 60, and together they add up to the input |
| Units.SecondsToDhmsUnderAMinute | dashboard-main/starnet-dashboard/src/components/RouterHealthPanel.jsx:14 | under a minute, only the seconds are shown, as "<n>s" |
| Units.SecondsToDhmsExample | dashboard-main/starnet-dashboard/src/components/RouterHealthPanel.jsx:11-15 | 90061 s is "1d 1h 1m" (the seconds are dropped once a larger part shows) and 7200 s is "2h" |
| Units.DhmsOfSeconds | dashboard-main/starnet-dashboard/src/components/RouterHealthPanel.jsx:4-9 | for any non-negative number of seconds, the days, hours, minutes and seconds are those of `Math.floor(sec)`: hours below 24, minutes and seconds below 60, adding up to `Math.floor(sec)` |
| Units.DhmsPartsListed | dashboard-main/starnet-dashboard/src/components/RouterHealthPanel.jsx:10-15 | the parts are the days, hours and minutes that are not zero, in that order, and the seconds exactly when all three are zero |
| Units.SecondsToDhmsOfNothing | dashboard-main/starnet-dashboard/src/components/RouterHealthPanel.jsx:5 | a value `Number` reads as NaN or 0 is shown as "0s" |
| Api.Param | dashboard-main/starnet-dashboard/src/lib/api.js:14-18 | a read of the query answers only with a pair actually stored under that key |
| Api.SetParamReads | dashboard-main/starnet-dashboard/src/lib/api.js:14-15 | after `searchParams.set(key, val)` the key reads `val` and every other key reads what it read before |
| Api.LastSet | dashboard-main/starnet-dashboard/src/lib/api.js:17-19 | the value a parameter ends with is that of an entry under the key that is neither null nor undefined; when there is none, every entry under the key is null or undefined |
| Api.AddParamsReads | dashboard-main/starnet-dashboard/src/lib/api.js:17-19 | after the parameter loop a key reads `String(v)` of the last entry set under it, and otherwise what it read before |
| Api.RequestQueryReads | dashboard-main/starnet-dashboard/src/lib/api.js:13-19 | the query starts from the base URL's own pairs; it carries `key` = the secret and `sheet` = the sheet key unless a caller's parameter overrides them; any other key reads its last non-null parameter, or else what the base URL carries |
| Api.BuildQuery | dashboard-main/starnet-dashboard/src/lib/api.js:13-19 | the loop that sets `key`, `sheet` and then each parameter builds exactly the request query that RequestQueryReads describes |
| Api.FetchDataRaw | dashboard-main/starnet-dashboard/src/lib/api.js:9-13 | an unset base URL fails with "VITE_API_BASE_URL not set", a set URL with an unset secret fails with "VITE_SECRET_KEY not set", and a base URL that does not parse throws the TypeError of `new URL` |
| Api.FetchDataRawAsks | dashboard-main/starnet-dashboard/src/lib/api.js:13-21 | with both settings present and a base URL that parses, the server is asked for the query built from the base URL's pairs, and each parameter reads as `RequestQueryReads` gives |
| Api.Answer | dashboard-main/starnet-dashboard/src/lib/api.js:21-32 | a response that is not ok fails with `HTTP <status> <statusText> <text>` (an empty text when reading the body fails); an ok response gives its JSON, or fails with "Invalid JSON from backend" |
| Api.SettingsCheckedFirst | dashboard-main/starnet-dashboard/src/lib/api.js:10-11 | with a setting missing, the outcome does not depend on the server: no request is made |
| Api.HttpErrorNamesStatus | dashboard-main/starnet-dashboard/src/lib/api.js:25 | the error of a failed response starts with "HTTP ", then the status digits, then a space |
| Api.ShapeOf | dashboard-main/starnet-dashboard/src/lib/api.js:42-53 | a falsy or non-object body gives the empty shape for the sheet; otherwise every list field and `totals` is truthy, and the sheet is truthy or the requested sheet key |
| Api.ShapeKeeps | dashboard-main/starnet-dashboard/src/lib/api.js:46-53 | each of `sheet`, `data`, `summary`, `daily`, `latest` and `totals` is kept when the body gives it truthily and otherwise becomes its default (the sheet key, `[]` or `{}`) |
| Api.ShapeStable | dashboard-main/starnet-dashboard/src/lib/api.js:39-54 | normalising an already normalised response changes nothing (idempotence) |
| Api.ShapeObjectReads | dashboard-main/starnet-dashboard/src/lib/api.js:46-53 | each of the six fields of the returned object reads back the normalised value |
| Api.FetchData | dashboard-main/starnet-dashboard/src/lib/api.js:39-54 | `fetchData` fails exactly when `fetchDataRaw` does, and otherwise returns the normalised shape of the raw JSON |
| Payments.ParseDateTimeAttempts | dashboard-main/starnet-dashboard/src/App.jsx:42-59 | `parseDateTime` tries "date time", then the date, then the time, each only when its parts are truthy; it gives the first that parses, and nothing exactly when every attempt made fails |
| Payments.PaymentOf | dashboard-main/starnet-dashboard/src/App.jsx:71-84 | reading a grouped payment throws exactly on null or undefined; the record carries its month key |
| Payments.FlatPaymentsCount | dashboard-main/starnet-dashboard/src/App.jsx:67-88 | the flat list holds one record per payment of every month group that is a list |
| Payments.PhoneLength | dashboard-main/starnet-dashboard/src/App.jsx:69-87 | one phone contributes the payments of its month groups |
| Payments.FlattenMonth | dashboard-main/starnet-dashboard/src/App.jsx:70-86 | the innermost `forEach` pushes one record per payment, or throws on the first null or undefined payment |
| Payments.FlattenPhone | dashboard-main/starnet-dashboard/src/App.jsx:69-87 | the middle `forEach` appends the records of each month in turn, or stops at the first error |
| Payments.FlattenGrouped | dashboard-main/starnet-dashboard/src/App.jsx:67-88 | the nested loops build exactly the flat list (or throw its first error) |
| Payments.GroupedTotals | dashboard-main/starnet-dashboard/src/App.jsx:91-99 | the totals loop sums every amount, and the amounts of payments whose date starts with today's ISO day |
| Payments.TodayWithinTotal | dashboard-main/starnet-dashboard/src/App.jsx:91-99 | with no negative amount, today's total lies between 0 and the total |
| Payments.LatestByPhone | dashboard-main/starnet-dashboard/src/App.jsx:102-107 | the `byPhone` loop keeps, per phone (or name, or "Unknown"), the payment with a strictly later timestamp, listing phones in order of first appearance |
| Payments.GroupedRecentOnePerKey | dashboard-main/starnet-dashboard/src/App.jsx:102-111 | the grouped `recent` has one payment per phone key, each from the flat list, and every phone key is represented |
| Payments.GroupedRecentIsLatest | dashboard-main/starnet-dashboard/src/App.jsx:102-111 | each payment in `recent` is the first of its phone's payments with the greatest timestamp |
| Payments.GroupedRecentNewestFirst | dashboard-main/starnet-dashboard/src/App.jsx:108-111 | when every payment is dated, `recent` runs newest first |
| Payments.LegacyRowOf | dashboard-main/starnet-dashboard/src/App.jsx:139-140 | reading a legacy row throws exactly on null or undefined |
| Payments.RowFields | dashboard-main/starnet-dashboard/src/App.jsx:140-165 | the derived row keeps the original row, and its name is never empty (name, else phone, else "Unknown") |
| Payments.PendingCount | dashboard-main/starnet-dashboard/src/App.jsx:149 | the pending count never exceeds the number of rows |
| Payments.TallyFoldSums | dashboard-main/starnet-dashboard/src/App.jsx:139-149 | the legacy loop's total, today's total and pending count are the sums over the rows |
| Payments.TallyFoldGroups | dashboard-main/starnet-dashboard/src/App.jsx:151-166 | the groups list the keys in order of first appearance and hold, per key, exactly that key's rows in order |
| Payments.AddRow | dashboard-main/starnet-dashboard/src/App.jsx:140-165 | one turn of the legacy loop adds the amount, today's amount, the pending mark and the row to its group |
| Payments.ReadLegacyRows | dashboard-main/starnet-dashboard/src/App.jsx:139-145 | the rows are read one by one, stopping at the first null or undefined row |
| Payments.LegacyPass | dashboard-main/starnet-dashboard/src/App.jsx:139-166 | the legacy `forEach` loop computes the fold over the rows |
| Payments.TallyGroupsNonEmpty | dashboard-main/starnet-dashboard/src/App.jsx:155-156 | every listed key has a nonempty group, so `list[0]` is defined |
| Payments.HeadsOf | dashboard-main/starnet-dashboard/src/App.jsx:168-179 | one latest row per key |
| Payments.HeadsOfAt | dashboard-main/starnet-dashboard/src/App.jsx:168-179 | the row of key i is the head of that key's group sorted newest first |
| Payments.GroupHeads | dashboard-main/starnet-dashboard/src/App.jsx:168-179 | the `map` over the keys builds exactly those rows |
| Payments.HeadOfGroupIsFirstMax | dashboard-main/starnet-dashboard/src/App.jsx:169-170 | the head of a group sorted by `(b.dt \|\| 0) - (a.dt \|\| 0)` is the group's first row with the greatest sort time |
| Payments.LegacyRecentNewestFirst | dashboard-main/starnet-dashboard/src/App.jsx:180-184 | the legacy `recent` runs newest first (an undated row counts as time 0) |
| Payments.LegacyRecentOnePerKey | dashboard-main/starnet-dashboard/src/App.jsx:168-184 | the legacy `recent` has one row per client key, each that key's first row with the greatest sort time |
| Payments.Adapt | dashboard-main/starnet-dashboard/src/App.jsx:39-195 | a grouped payload is adapted by the grouped branch and a non-empty legacy list by the legacy branch; grouped payloads give pending 0, the flat list, the total of its amounts and the grouped and summary objects; an empty legacy list gives the empty record; a legacy list throws exactly when a row is null or undefined, and otherwise keeps its rows with at most one pending per row |
| Payments.AdaptGrouped | dashboard-main/starnet-dashboard/src/App.jsx:62-125 | the grouped branch: pending 0, one record per payment, the total of the amounts, today's total over the payments dated today, the latest payment per phone newest first as the recent rows, and the grouped and summary objects passed through |
| Payments.AdaptLegacy | dashboard-main/starnet-dashboard/src/App.jsx:128-195 | the legacy branch throws exactly on a null or undefined row; otherwise it keeps the rows as `rawRows`, and its total, today's total and pending count are the sums over the read rows, and its recent rows are the latest row per key, newest first |
| Payments.AdaptPaymentsResponse | dashboard-main/starnet-dashboard/src/App.jsx:39-195 | the imperative adapter computes what `Adapt` specifies |
| Payments.AdaptGroupedPayload | dashboard-main/starnet-dashboard/src/App.jsx:62-125 | the grouped branch's loops compute what `AdaptGrouped` specifies |
| Payments.AdaptLegacyRows | dashboard-main/starnet-dashboard/src/App.jsx:133-194 | the legacy branch's loops compute what `AdaptLegacy` specifies |
| PaymentCard.ShownDateTime | dashboard-main/starnet-dashboard/src/components/PaymentOverviewCard.jsx:9-32 | the date reads "Invalid Date" and the time "Invalid Time" exactly when the value is falsy or does not parse; otherwise both are the locale texts of the same instant |
| PaymentCard.MonthHeaderOfKey | dashboard-main/starnet-dashboard/src/components/PaymentOverviewCard.jsx:107-124 | a month key "month year" of two words is shown as it is |
| PaymentCard.MonthHeaderOfWord | dashboard-main/starnet-dashboard/src/components/PaymentOverviewCard.jsx:107-124 | a month key of one word has no year and is shown as "Invalid Date" |
| PaymentCard.CheckPayment | dashboard-main/starnet-dashboard/src/components/PaymentOverviewCard.jsx:47 | destructuring a payment throws exactly for null and undefined, and otherwise passes the payment on |
| PaymentCard.AmountTotalPush | dashboard-main/starnet-dashboard/src/components/PaymentOverviewCard.jsx:48 | each payment adds `Number(amount) \|\| 0` to the total |
| PaymentCard.CheckedAll | dashboard-main/starnet-dashboard/src/components/PaymentOverviewCard.jsx:46-47 | the walk over the array throws exactly when some payment is null or undefined, and otherwise visits the payments themselves |
| PaymentCard.Visit | dashboard-main/starnet-dashboard/src/components/PaymentOverviewCard.jsx:47-55 | the body of the loop turns the total and latest-per-client of the first k payments into those of the first k + 1 |
| PaymentCard.TallyPush | dashboard-main/starnet-dashboard/src/components/PaymentOverviewCard.jsx:48-55 | the tally after one more payment adds its amount and applies the per-client step |
| PaymentCard.TallyPayments | dashboard-main/starnet-dashboard/src/components/PaymentOverviewCard.jsx:46-56 | the `forEach` loop computes the total of the amounts and, per client, the payment the "later date replaces" rule keeps |
| PaymentCard.CheckPayments | dashboard-main/starnet-dashboard/src/components/PaymentOverviewCard.jsx:46-47 | the loop stops with the error of the first null or undefined payment, or passes all of them |
| PaymentCard.CollectGroups | dashboard-main/starnet-dashboard/src/components/PaymentOverviewCard.jsx:59-71 | the loop over the groups throws on a null or undefined group, on a group that is not an array ("payments.forEach is not a function") and on a null payment, and otherwise lists every payment of every group in order |
| PaymentCard.Summarize | dashboard-main/starnet-dashboard/src/components/PaymentOverviewCard.jsx:40-75 | the memo gives the total, the latest payment per client and the grouped object for an array, an object or anything else, or the error its walk throws (null data throws) |
| PaymentCard.CardTotals | dashboard-main/starnet-dashboard/src/components/PaymentOverviewCard.jsx:40-75 | the total is the sum of the amounts; the clients are listed in order of first appearance; each kept payment belongs to its client and is one of the payments walked |
| PaymentCard.LatestIsFirstLatest | dashboard-main/starnet-dashboard/src/components/PaymentOverviewCard.jsx:49-54 | when every payment has a readable date, the payment kept for a client is the first of that client's payments with the greatest date (ties keep the earlier one) |
| PaymentCard.DatesDecide | dashboard-main/starnet-dashboard/src/components/PaymentOverviewCard.jsx:51-52 | with readable dates, "later" is exactly "greater timestamp" |
| PaymentCard.CardPaymentsOf | dashboard-main/starnet-dashboard/src/components/PaymentOverviewCard.jsx:45-71 | an array walk fails exactly on a null or undefined payment and otherwise walks the items; an object whose groups are arrays of payments walks all of them, as many as the groups hold together |
| PaymentCard.GroupsWalked | dashboard-main/starnet-dashboard/src/components/PaymentOverviewCard.jsx:59-71 | groups that are arrays of payments are walked without a throw, all their payments in turn |
| PaymentCard.AdapterRecordThrows | dashboard-main/starnet-dashboard/src/App.jsx:648 | the record the payments adapter returns starts with the number `today`, so the card's object branch calls `forEach` on a number and throws "payments.forEach is not a function" |
| PaymentCard.SortedMonthsNewestFirst | dashboard-main/starnet-dashboard/src/components/PaymentOverviewCard.jsx:77-83 | the sorted months are a permutation of the group keys and, when every key names a month, run newest first |
| RouterHealth.HealthData | dashboard-main/starnet-dashboard/src/components/RouterHealthPanel.jsx:28 | the panel reads a truthy object: the first item of an array (or `{}` when it is missing or falsy), or the data itself when truthy |
| RouterHealth.RouterName | dashboard-main/starnet-dashboard/src/components/RouterHealthPanel.jsx:29 | the name is truthy: `name`, else `router`, else "Router" |
| RouterHealth.ElapsedSeconds | dashboard-main/starnet-dashboard/src/components/RouterHealthPanel.jsx:42 | the elapsed whole seconds are the floor of the elapsed milliseconds over 1000 |
| RouterHealth.DurationOfSeconds | dashboard-main/starnet-dashboard/src/components/RouterHealthPanel.jsx:4-16 | `secondsToDhms(n)` shows a duration whose parts add up to n when the seconds are shown, and to n less its seconds otherwise |
| RouterHealth.UptimeOfNumber | dashboard-main/starnet-dashboard/src/components/RouterHealthPanel.jsx:36-37 | a numeric uptime is shown as that many seconds |
| RouterHealth.UptimeOfDigits | dashboard-main/starnet-dashboard/src/components/RouterHealthPanel.jsx:36-37 | so is a string of digits, read as its value |
| RouterHealth.UptimeOfTimestamp | dashboard-main/starnet-dashboard/src/components/RouterHealthPanel.jsx:38-46 | a parsable timestamp is an anchor: a positive elapsed time is shown as a duration; otherwise the raw text is shown |
| RouterHealth.UptimeOfOtherText | dashboard-main/starnet-dashboard/src/components/RouterHealthPanel.jsx:44-50 | any other text, or a timestamp that does not parse, is shown as it is |
| RouterHealth.ContainsChar | dashboard-main/starnet-dashboard/src/components/RouterHealthPanel.jsx:58 | `includes` of a one-character string is membership of that character |
| RouterHealth.TrimKeeps | dashboard-main/starnet-dashboard/src/components/RouterHealthPanel.jsx:57-58 | trimming keeps every character that is not white space, so a "%" survives it |
| RouterHealth.TrimmedFrom | dashboard-main/starnet-dashboard/src/components/RouterHealthPanel.jsx:57-58 | trimming adds no character |
| RouterHealth.TrimDigits | dashboard-main/starnet-dashboard/src/components/RouterHealthPanel.jsx:57 | a digit string is its own trim and has no "%" |
| RouterHealth.TextOfStr | dashboard-main/starnet-dashboard/src/components/RouterHealthPanel.jsx:56-80 | a nonempty string reading is trimmed and then classified |
| RouterHealth.PercentPassesThrough | dashboard-main/starnet-dashboard/src/components/RouterHealthPanel.jsx:54-81 | a CPU or memory reading with a "%" is shown trimmed, as it is |
| RouterHealth.ReadingOfNat | dashboard-main/starnet-dashboard/src/components/RouterHealthPanel.jsx:57-59 | a whole number reads as its digits, which read back as the number and hold no "%" |
| RouterHealth.CpuOfNat | dashboard-main/starnet-dashboard/src/components/RouterHealthPanel.jsx:59 | a numeric CPU n is shown as "n%" |
| RouterHealth.NumericCpu | dashboard-main/starnet-dashboard/src/components/RouterHealthPanel.jsx:56-60 | a CPU reading without "%" that is a number is shown as that number followed by "%" |
| RouterHealth.NumericMemory | dashboard-main/starnet-dashboard/src/components/RouterHealthPanel.jsx:70-77 | a numeric memory reading up to 100 is a percentage, above 100 a byte count shown by `fmtBytes` |
| RouterHealth.CpuOfDigits | dashboard-main/starnet-dashboard/src/components/RouterHealthPanel.jsx:59 | a digit string is shown as its value without leading zeros, followed by "%" |
| RouterHealth.CpuReadingOfDigits | dashboard-main/starnet-dashboard/src/components/RouterHealthPanel.jsx:58-59 | the same, for a trimmed reading |
| RouterHealth.CpuOfBlank | dashboard-main/starnet-dashboard/src/components/RouterHealthPanel.jsx:56-59 | a nonempty all-blank reading trims to "", which `Number` reads as 0, so it shows "0%" |
| RouterHealth.CpuOfEmptyReading | dashboard-main/starnet-dashboard/src/components/RouterHealthPanel.jsx:59 | an empty trimmed reading shows "0%" |
| RouterHealth.CpuOfText | dashboard-main/starnet-dashboard/src/components/RouterHealthPanel.jsx:54-81 | a reading that is neither a percentage nor a number is shown trimmed |
| RouterHealth.MemoryOfPercentage | dashboard-main/starnet-dashboard/src/components/RouterHealthPanel.jsx:72-73 | a memory value up to 100 is shown as "n%" |
| RouterHealth.MemoryOfBytes | dashboard-main/starnet-dashboard/src/components/RouterHealthPanel.jsx:74-77 | a memory value above 100 is shown as a byte count |
| RouterHealth.PanelOfArray | dashboard-main/starnet-dashboard/src/components/RouterHealthPanel.jsx:28 | an empty array shows "Router" with dashes; an array whose first item is a truthy non-array shows that item's panel |
| Normalize.TotalsProps | dashboard-main/starnet-dashboard/src/App.jsx:251-259 | the literal sets RX_MB, TX_MB, RX_HUMAN, TX_HUMAN, RX and TX, in that order |
| Normalize.FormatMBNonEmpty | dashboard-main/starnet-dashboard/src/App.jsx:23-29 | `formatMB` never returns the empty string |
| Normalize.TotalsNamed | dashboard-main/starnet-dashboard/src/App.jsx:251-259 | each of the six properties reads the value the literal gives it |
| Normalize.IfaceTotalsFields | dashboard-main/starnet-dashboard/src/App.jsx:248-260 | `normalizeIfaceTotals` throws exactly for null (the default covers only undefined); otherwise the six properties read their computed values, every other property reads what the input had, and the keys are the input's plus the six |
| Normalize.IfaceTotalsShown | dashboard-main/starnet-dashboard/src/App.jsx:255-258 | the four human texts of the result are always truthy |
| Normalize.LiteralShown | dashboard-main/starnet-dashboard/src/App.jsx:255-258 | with nonempty formatted sizes the texts are truthy |
| Normalize.LiteralStable | dashboard-main/starnet-dashboard/src/App.jsx:249-258 | normalised totals read back the same megabytes and give the same six properties |
| Normalize.LiteralIdempotent | dashboard-main/starnet-dashboard/src/App.jsx:251-259 | spreading the six properties over normalised totals gives them back |
| Normalize.IfaceTotalsIdempotent | dashboard-main/starnet-dashboard/src/App.jsx:248-260 | normalising normalised totals changes nothing |
| Normalize.RouterHealthOutcome | dashboard-main/starnet-dashboard/src/App.jsx:262-273 | `normalizeRouterHealth` throws exactly when a truthy response's data is an array whose first row is null or undefined; otherwise its result is truthy |
| Normalize.RouterHealthData | dashboard-main/starnet-dashboard/src/App.jsx:264 | an object `data` is returned as it is |
| Normalize.RowRecordRead | dashboard-main/starnet-dashboard/src/App.jsx:265-268 | the record built from the first row is shown by the panel with the name "Router" and the row's uptime (or Timestamp), CPU and memory, or dashes |
| Normalize.FlatRecordRead | dashboard-main/starnet-dashboard/src/App.jsx:269-271 | the record built from a flat response is shown with the response's uptime, CPU and memory, or dashes |
| Normalize.RecordRead | dashboard-main/starnet-dashboard/src/App.jsx:265-271 | those records have no `name` or `router`, and read their `uptime`, `cpu` and `memory` |
| Normalize.DashShown | dashboard-main/starnet-dashboard/src/components/RouterHealthPanel.jsx:32-80 | a dash placed by the normaliser is shown as a dash by the panel in all three places |
| Sessions.ParseTsOfDateTime | dashboard-main/starnet-dashboard/src/components/ActiveSessionsTable.jsx:12-18 | a "date time" text with no white space at its ends and no space in the date is read by the date parser as "dateTtime"; the first space is the one replaced |
| Sessions.TotalsTextShown | dashboard-main/starnet-dashboard/src/components/ActiveSessionsTable.jsx:34-41 | both totals texts are always truthy; without a human or raw text, the RX text is "0 MB" for zero and otherwise `fmtMbHuman` of the megabytes |
| Sessions.TotalsOfNormalized | dashboard-main/starnet-dashboard/src/App.jsx:248-260 | on totals that `normalizeIfaceTotals` produced, the table shows the normalised human texts and the normalised megabytes |
| Sessions.SearchProps | dashboard-main/starnet-dashboard/src/components/ActiveSessionsTable.jsx:52-56 | the search object adds `RX_HUMAN` and `TX_HUMAN`, in that order |
| Sessions.Filtered | dashboard-main/starnet-dashboard/src/components/ActiveSessionsTable.jsx:45-59 | the search never adds rows |
| Sessions.FilteredMembers | dashboard-main/starnet-dashboard/src/components/ActiveSessionsTable.jsx:45-59 | a row is listed exactly when it is a row and the term is empty or one of its searched values contains the term; no row is duplicated |
| Sessions.SearchValuesFrom | dashboard-main/starnet-dashboard/src/components/ActiveSessionsTable.jsx:52-57 | every searched value is a value of the row or one of the two human sizes |
| Sessions.SearchValuesHoldSizes | dashboard-main/starnet-dashboard/src/components/ActiveSessionsTable.jsx:54-55 | both human sizes are searched |
| Sessions.SearchValuesHoldField | dashboard-main/starnet-dashboard/src/components/ActiveSessionsTable.jsx:52-57 | every other field of the row is searched |
| Sessions.RowMatchesFields | dashboard-main/starnet-dashboard/src/components/ActiveSessionsTable.jsx:50-58 | a row matches only through one of its values or a human size, and it matches whenever a human size or another field contains the term |
| Sessions.FilterSessions | dashboard-main/starnet-dashboard/src/components/ActiveSessionsTable.jsx:45-74 | the memo copies the rows into a fresh array, filters it and sorts it in place, leaving the rows untouched and ending with the specified list |
| Sessions.ListedPermutes | dashboard-main/starnet-dashboard/src/components/ActiveSessionsTable.jsx:45-74 | the list is a permutation of the filtered rows, and with a blank search, of all the rows |
| Sessions.ListedMembers | dashboard-main/starnet-dashboard/src/components/ActiveSessionsTable.jsx:45-74 | with a search term, the list holds exactly the matching rows |
| Sessions.ListedByNumber | dashboard-main/starnet-dashboard/src/components/ActiveSessionsTable.jsx:61-67 | sorted by RX_MB or TX_MB, with numbers in every row, the list is in ascending or descending order of that column, as `desc` says |
| Sessions.TextOrderConsistent | dashboard-main/starnet-dashboard/src/components/ActiveSessionsTable.jsx:61-70 | on a text column the row comparator is consistent wherever `localeCompare` is consistent on the rows' texts, ascending or descending |
| Sessions.ListedByText | dashboard-main/starnet-dashboard/src/components/ActiveSessionsTable.jsx:61-70 | sorted by a text column, with a consistent `localeCompare`, the rows are listed in the order of their texts, reversed when `desc` is set |
| Sessions.RowCells | dashboard-main/starnet-dashboard/src/components/ActiveSessionsTable.jsx:115-121 | the interface, RX and TX cells are never blank: a dash or a formatted size stands in |
| Chart.PointOf | dashboard-main/starnet-dashboard/src/components/BandwidthUsageChart.jsx:18-21 | reading a summary item throws exactly for null and undefined |
| Chart.Points | dashboard-main/starnet-dashboard/src/components/BandwidthUsageChart.jsx:13-23 | data that is not an array, or an empty array, has no points |
| Chart.PointsOfItems | dashboard-main/starnet-dashboard/src/components/BandwidthUsageChart.jsx:16-23 | the points throw exactly when an item is null or undefined; otherwise they are the items' points, each as often as it occurs, reordered |
| Chart.PointsDescending | dashboard-main/starnet-dashboard/src/components/BandwidthUsageChart.jsx:21 | when every total is a number, the points run from the largest total down |
| Chart.Width | dashboard-main/starnet-dashboard/src/components/BandwidthUsageChart.jsx:35-36 | the width is 60 px per point, clamped to 300..1200 |
| Chart.MaxVal | dashboard-main/starnet-dashboard/src/components/BandwidthUsageChart.jsx:38 | `Math.max(1, ...)` is NaN exactly when a value is NaN; otherwise it is at least 1, bounds every value and is 1 or one of the values |
| Chart.Step | dashboard-main/starnet-dashboard/src/components/BandwidthUsageChart.jsx:39 | with several points the steps span the width exactly; with one point the step is the width |
| Chart.ChartLayout | dashboard-main/starnet-dashboard/src/components/BandwidthUsageChart.jsx:12-48 | the chart throws exactly when building its points throws |
| Chart.LayoutCases | dashboard-main/starnet-dashboard/src/components/BandwidthUsageChart.jsx:25-39 | no data shows "No usage summary available."; an array with no null items draws one point per item |
| Toast.Reduce | dashboard-main/starnet-dashboard/src/hooks/use-toast.js:33-57 | adding puts the new toast first and keeps at most TOAST_LIMIT (1) toasts; an update keeps the number of toasts; an unknown action returns the state unchanged; the limit is preserved by every action |
| Toast.UpdateMerges | dashboard-main/starnet-dashboard/src/hooks/use-toast.js:40-46 | an update leaves toasts with another id untouched and merges the patch into the matching one: a key of the patch reads the patch's value, any other key the toast's old value |
| Toast.UpdateIdempotent | dashboard-main/starnet-dashboard/src/hooks/use-toast.js:40-46 | applying the same update twice gives the state of applying it once |
| Toast.RemoveById | dashboard-main/starnet-dashboard/src/hooks/use-toast.js:47-51 | removing by a truthy id keeps exactly the toasts whose id differs, without adding any |
| Toast.RemoveAbsent | dashboard-main/starnet-dashboard/src/hooks/use-toast.js:47-51 | removing an id that no toast has changes nothing |
| Toast.RemoveKeepsOrder | dashboard-main/starnet-dashboard/src/hooks/use-toast.js:51 | removal by id is a filter: it distributes over concatenation, so the survivors keep their order |
| Toast.RemoveIdempotent | dashboard-main/starnet-dashboard/src/hooks/use-toast.js:47-51 | removing the same truthy id twice is the same as removing it once |
| Toast.RemoveWithoutId | dashboard-main/starnet-dashboard/src/hooks/use-toast.js:50-52 | a removal with a falsy id drops the first toast only (and nothing from an empty list) |
| Toast.NextCount | dashboard-main/starnet-dashboard/src/hooks/use-toast.js:11-14 | the counter stays below `Number.MAX_SAFE_INTEGER` |
| Toast.CountAfterCycles | dashboard-main/starnet-dashboard/src/hooks/use-toast.js:10-14 | after k calls of `genId` the counter is (count + k) mod `MAX_SAFE_INTEGER` |
| Toast.CountsDistinct | dashboard-main/starnet-dashboard/src/hooks/use-toast.js:11-14 | any two counters fewer than `MAX_SAFE_INTEGER` calls apart differ |
| Toast.IdsDistinct | dashboard-main/starnet-dashboard/src/hooks/use-toast.js:11-14 | so do the ids they are written as: no id repeats within one cycle of the counter |
| Toast.Notices | dashboard-main/starnet-dashboard/src/hooks/use-toast.js:63-66 | every listener is called once, in order, with the new state |
| Toast.FindListener | dashboard-main/starnet-dashboard/src/hooks/use-toast.js:105 | `indexOf` finds the first position of the listener, or none exactly when it is not subscribed |
| Toast.ToastFields | dashboard-main/starnet-dashboard/src/hooks/use-toast.js:81-91 | the added toast's `id` is the fresh id and `open` is true, whatever the caller's props hold |
| Toast.Store.constructor | dashboard-main/starnet-dashboard/src/hooks/use-toast.js:10-16 | the counter starts at 0, with no timers, no listeners and no toasts |
| Toast.Store.GenId | dashboard-main/starnet-dashboard/src/hooks/use-toast.js:11-14 | advances the counter by one modulo `MAX_SAFE_INTEGER` and returns it as a decimal string; nothing else changes |
| Toast.Store.AddToRemoveQueue | dashboard-main/starnet-dashboard/src/hooks/use-toast.js:18-30 | an id that already has a timer is left alone; otherwise one timer is added for it; each id has at most one pending timer |
| Toast.Store.Dispatch | dashboard-main/starnet-dashboard/src/hooks/use-toast.js:63-66 | the state becomes the reducer's result and every listener is notified of it in order; nothing else changes |
| Toast.Store.FireRemoval | dashboard-main/starnet-dashboard/src/hooks/use-toast.js:21-27 | the oldest timer fires: its id leaves the timer map and a removal of that id is dispatched |
| Toast.Store.Show | dashboard-main/starnet-dashboard/src/hooks/use-toast.js:69-96 | `toast(props)` takes a fresh id, shows exactly the new toast (the limit is 1), notifies the listeners and schedules the toast's removal: a new id joins the end of the removal queue, an id already timed leaves the queue as it was |
| Toast.Store.Update | dashboard-main/starnet-dashboard/src/hooks/use-toast.js:72-76 | the returned `update` dispatches the patch with the toast's own id |
| Toast.Store.Dismiss | dashboard-main/starnet-dashboard/src/hooks/use-toast.js:78-79 | `dismiss` dispatches a removal of the given id |
| Toast.Store.OnOpenChange | dashboard-main/starnet-dashboard/src/hooks/use-toast.js:87-89 | closing the toast dismisses it; opening it changes nothing |
| Toast.Store.Subscribe | dashboard-main/starnet-dashboard/src/hooks/use-toast.js:102-103 | the listener is appended |
| Toast.Store.Unsubscribe | dashboard-main/starnet-dashboard/src/hooks/use-toast.js:104-107 | the first occurrence of the listener is removed and the others keep their order; an unknown listener changes nothing |
| Week.TwoDigits | dashboard-main/starnet-dashboard/src/App.jsx:17-18 | a number below 100 is written with two digits |
| Week.PaddedTwo | dashboard-main/starnet-dashboard/src/App.jsx:17-18 | `String(n).padStart(2, '0')` of a month or day is its two digits |
| Week.KeyTail | dashboard-main/starnet-dashboard/src/App.jsx:19 | the part of the key after the year has six characters |
| Week.DateKeyDigits | dashboard-main/starnet-dashboard/src/App.jsx:15-20 | the key of a valid date is the year's digits, then "-MM-DD" |
| Week.DateKeyInjective | dashboard-main/starnet-dashboard/src/App.jsx:15-20 | different valid dates have different keys |
| Week.WeekKeysDistinct | dashboard-main/starnet-dashboard/src/App.jsx:448-454 | when the last seven days are seven different valid dates, the week lists seven different keys |
| Week.WeekDays | dashboard-main/starnet-dashboard/src/App.jsx:448-454 | the `for` loop builds the seven keys of `WeekKeys`: `dateToKey` of today and of each of the six days before, in that order |
| Week.FindUser | dashboard-main/starnet-dashboard/src/App.jsx:459 | `find` gives nothing exactly when no item is null or undefined and none has the user; what it finds is an item with the user; a null or undefined item before a match throws |
| Week.DayOf | dashboard-main/starnet-dashboard/src/App.jsx:457-476 | a rejected day reads zero; every record carries its day; a settled day that does not list the user reads zero; a truthy row with the user gives its totalRx, totalTx, totalRxHuman and totalTxHuman; the day throws exactly when it settled with a `daily` that is not an array or a search that throws |
| Week.DailyOf | dashboard-main/starnet-dashboard/src/App.jsx:458 | the rows of a settled day, `daily` with `[]` as its fallback, are not an array exactly when `daily` is truthy and not an array |
| Week.FindUserThrows | dashboard-main/starnet-dashboard/src/App.jsx:459 | the search throws exactly when a null or undefined row comes before the user's row |
| Week.ClientWeekEmpty | dashboard-main/starnet-dashboard/src/App.jsx:456-481 | a week of at least one day is empty exactly when some settled day has a truthy non-array `daily` or a null or undefined row before the user's |
| Week.ClientWeekDay | dashboard-main/starnet-dashboard/src/App.jsx:456-481 | the week has one record per day or, after a throw, none; record i is dated with day i, reads zero ("0 MB") when that day's request failed or the user is absent, and carries the user's row totals when a truthy row lists the user |
| Week.DayRequest | dashboard-main/starnet-dashboard/src/App.jsx:455 | each day's request asks for that date and at most 5 samples |
| Week.DayRequestSheet | dashboard-main/starnet-dashboard/src/App.jsx:455 | and keeps the secret and the `user_usage` sheet |
| Sync.ProcessTouchesOwnSlice | dashboard-main/starnet-dashboard/src/App.jsx:301-336 | a response changes only its own endpoint's slice, and nothing for an unknown endpoint; usage and interface responses never throw while being processed |
| Sync.ErrorText | dashboard-main/starnet-dashboard/src/App.jsx:354 | the error text shown is never empty: the message, or the error's name when the message is empty |
| Sync.Bumped | dashboard-main/starnet-dashboard/src/App.jsx:298-352 | a failure adds one to the endpoint's count (from 0 when the response arrived and processing threw after the reset) and leaves the other endpoints' counts alone |
| Sync.RetryTargetsExact | dashboard-main/starnet-dashboard/src/App.jsx:399-405 | retry reloads exactly the endpoints whose recorded error is truthy |
| Sync.RetryAfterOutcome | dashboard-main/starnet-dashboard/src/App.jsx:345-355 | after a failure the endpoint is retried; after a success it is not |
| Sync.SignalInQuery | dashboard-main/starnet-dashboard/src/App.jsx:295 | the abort signal is passed as a query parameter, so the request carries the text "[object AbortSignal]" instead of a signal, and aborting cancels nothing |
| Sync.PostOutcome | dashboard-main/starnet-dashboard/src/App.jsx:408-422 | `postRow` fails with `HTTP <status> <statusText> <text>` when the response is not ok, and an ok response fails exactly when its JSON is truthy and has a truthy `error` |
| Sync.Dashboard.constructor | dashboard-main/starnet-dashboard/src/App.jsx:197-240 | the state starts from the cached slices or their defaults, with an endpoint loading exactly when it has no cache, no failures, no controllers, no errors and both modals closed |
| Sync.Dashboard.Begin | dashboard-main/starnet-dashboard/src/App.jsx:276-293 | a background load starts only for an endpoint with failures; a started load aborts the endpoint's previous controller, installs a new one and, in the foreground, marks the endpoint loading; nothing else changes |
| Sync.Dashboard.Install | dashboard-main/starnet-dashboard/src/App.jsx:282-288 | the previous controller of the endpoint is aborted and a fresh one takes its place |
| Sync.Dashboard.Complete | dashboard-main/starnet-dashboard/src/App.jsx:295-360 | on success the count resets, the slices become the processed response, the time and version advance and the error is cleared; on failure the count is bumped and the error text recorded while the slices stay; in the foreground loading ends either way |
| Sync.Dashboard.Succeed | dashboard-main/starnet-dashboard/src/App.jsx:298-345 | the success path: count 0, new slices, last updated now, version + 1, error cleared |
| Sync.Dashboard.Fail | dashboard-main/starnet-dashboard/src/App.jsx:346-355 | the failure path: count bumped and error text recorded, nothing else |
| Sync.Dashboard.Load | dashboard-main/starnet-dashboard/src/App.jsx:276-361 | a skipped background load changes nothing; a started load installs a fresh controller, aborts the previous one and then settles as Complete states: on success the count resets, the slices become the processed response, the time and version advance and the error clears; on failure the count is bumped and the error stored; a foreground load ends with its endpoint not loading |
| Sync.Dashboard.Retry | dashboard-main/starnet-dashboard/src/App.jsx:399-405 | `handleRetry` starts a foreground load of exactly the failed endpoints, each then loading with a controller, and leaves the others' loading flags as they were |
| Sync.Dashboard.Edit | dashboard-main/starnet-dashboard/src/App.jsx:424-428 | `handleEdit` opens the editor on the row (or `{}`) and the sheet |
| Sync.Dashboard.Save | dashboard-main/starnet-dashboard/src/App.jsx:430-441 | `handleSave` returns the post's outcome and closes the editor either way; a failed post, or a sheet with no failures (so the background reload is skipped), changes no data; after a successful post on a sheet with failures, the background reload settles as Complete states and leaves the loading flags as they were |
| Sync.Dashboard.OpenClient | dashboard-main/starnet-dashboard/src/App.jsx:444-455 | up to its `await`, the modal opens on the user, keeping the week it held, and the seven day keys are requested; nothing else changes |
| Sync.Dashboard.ReceiveClientWeek | dashboard-main/starnet-dashboard/src/App.jsx:456-481 | once the requests settle, only the week changes: one record per day from its settled request, or none if reading them throws |
| Sync.Dashboard.OpenClientSettled | dashboard-main/starnet-dashboard/src/App.jsx:444-482 | opening the modal and letting the requests settle shows the user's week in the open modal |
| Sync.Dashboard.CloseBeforeWeekArrives | dashboard-main/starnet-dashboard/src/App.jsx:444-487 | a modal closed while the requests are pending is left closed with no user, but holds the week they bring |
| Sync.Dashboard.CloseClient | dashboard-main/starnet-dashboard/src/App.jsx:483-487 | the client modal closes with no user and an empty week |

## Left out

- Rendering: the JSX, styling, the theme toggle and the SVG coordinates of the chart's polyline. Only the numbers the chart derives (points, width, maximum, step) are modelled.
- The `EditRowModal`, `ClientPaymentHistoryModal` and `Spinner` components and `constants.js` hold no logic beyond markup and configuration.
- The placeholder `dashboard-main/src/App.jsx` is not part of this model.
- The network: `fetch`, building the URL string and `encodeURIComponent`. The query is modelled as the list of parameters it holds, and each response is a parameter.
- Timers and intervals: the 300 ms stagger of the first load, the polling intervals and the toast removal delay. Each timer callback is a step (`Load` with `background`, `Toast.Store.FireRemoval`), and the order in which those steps happen is left to the caller.
- The abort signal: `AbortController` is modelled only as replacing and aborting controllers. The signal is passed as a query parameter, so no request is ever cancelled and no `AbortError` arises. A superseded response is applied like any other.
- `localStorage`: the cached slices are inputs to the constructor; the writes after a successful load are not modelled.
- The global `loading` and `error` state, `endpointErrorLines` and `anyEndpointLoading` only feed the render.
- Dates: parsing, time zones, `toISOString` and `toLocaleDateString/TimeString` are parameters (the parser, the clock, the calendar, the locale formatter).
- Floating point: numbers are exact reals. `toFixed` and `Math.round` are exact, so double rounding is not modelled. The text `Number()` reads is a plain decimal numeral; `Infinity`, exponents and hexadecimal spellings read as NaN.
- Strings: no Unicode case mapping beyond ASCII `toLowerCase`, and no normalisation. `localeCompare` is the `collate` parameter.
- Objects: property order is insertion order, without the engine's reordering of integer-like keys. Inherited properties (such as `constructor`) are not seen. `Get` reads named properties and the `length` of arrays and strings, not array elements by index.
- Error messages: the text of a TypeError thrown by the engine (reading a property of null, calling `forEach` on a non-array) is a fixed message per case, not the engine's wording.
- Sync.ErrorText: `err.message || String(err)` is modelled for errors whose name is "Error"; an error with an empty message shows "Error".
- Payments.AdaptPaymentsResponse: the legacy branch reads the rows in one pass and folds them in a second. The result, and the error on a null row, are those of the single `forEach`.
- Sessions.FilterSessions: requires every row not to be null or undefined. Such a row makes the table throw when it is rendered or searched, which the model does not follow further.
- PaymentCard.Summarize: the object branch fails on the adapter's own record (`PaymentCard.AdapterRecordThrows`). The model states this as a throw, not as a precondition.
- Ordering.Sort: the model sorts by stable insertion, which fixes one order for every comparator. ECMAScript leaves the order of `sort` implementation-defined when the comparator is not consistent, and four of the comparators here are not on every input. The grouped recent comparator returns 0 when either date is missing (App.jsx:111). The sessions sort meets NaN keys when a numeric column holds text that is not a number (ActiveSessionsTable.jsx:62-68). Chart.ByValue subtracts totals that are NaN when a total is non-numeric text (BandwidthUsageChart.jsx:19-21). PaymentCard.NewestFirst subtracts dates that are NaN when a month key does not parse (PaymentOverviewCard.jsx:77-83). For such inputs the model's order is one possible outcome, not the engine's.
- Overlapping client requests: the week is stored whether or not the modal is still open on the same user, as the code does (`Sync.Dashboard.CloseBeforeWeekArrives`). When two opens overlap, the older week can be stored last. The order in which pending requests settle is left to the caller.
