# LuminAV in Dafny

LuminAV is a home-energy application. A Spring backend stores users, devices, power readings, tariffs and recommendations. It summarises an owner's consumption, computes an hourly baseline and lets a scheduled agent raise "high consumption" recommendations. A React frontend signs users in and keeps the session in browser storage. It offers pages for devices, readings, a dashboard, recommendations, tariff settings and CSV export.

This project models both halves.

**Backend.**
- The JPA repositories become classes holding their table as a sequence, with the next IDENTITY id.
- The controllers become classes whose methods return either a body or an HTTP status with its message. A thrown `orElseThrow()` answers 500, and a `ResponseStatusException` answers its own status.
- `DashboardService`, `ForecastService` and `RecommendationAgent` are modelled with their grouping loops. The loops are proved against specification functions: TreeMap and HashMap merging, bucket totals, ranking of the top five devices, the 24-hour baseline, the peak-hour rule and the 1.25x threshold.

**Frontend.**
- Each page component becomes a class whose fields are the component's state.
- A handler that calls the API is a method. It receives the call's outcome (success with data, an HTTP failure with status and body, no response, or another failure) and returns the request it issued (`None` when it issued none). The new state is stated for every outcome.
- The pure helpers are functions with their properties proved:
  - path-to-tab routing;
  - `parseInt`, `split` and `join`;
  - JSON quoting;
  - CSV generation;
  - session storage;
  - error texts.

**Conventions.**
- Amounts are exact reals. `Math.round` is rounding half up.
- Instants are integer milliseconds.
- The clock, time zones, `Number()`, `JSON.parse` of the stored session object, number formatting and date formatting are passed in as parameters. The decoding of JSON string literals is modelled (`Json.Unescape`).

**Files.** The modules follow the program's files:

| module | file |
|---|---|
| `Common`, `Http`, `Entities`, `Energy` | shared types and the kWh formula |
| `JavaStrings` | `toUpperCase`, `isBlank`, `compareTo` |
| `Seqs` | find, filter, stable sort, limit |
| `Repositories` | the five JPA repositories |
| `Dashboard` | `DashboardService` |
| `Forecast` | `ForecastService` |
| `Agent` | `RecommendationAgent` |
| `AuthControl` | `AuthController` |
| `DeviceControl` | `DeviceController` |
| `ReadingControl` | `ReadingController` |
| `RecommendationControl` | `RecommendationController` |
| `TariffControl` | `TariffController` |
| `Json` | `JSON.stringify` of strings and its inverse |
| `Js` | `parseInt`, `String(n)`, `split`, `join` |
| `Browser` | storage and call outcomes |
| `AuthSession` | `AuthContext` |
| `App` | `MainApp` |
| `DashboardPage` | `Dashboard` |
| `DevicesPage` | `DeviceManager` |
| `ReadingsPage` | `ReadingsManager` |
| `RecommendationsPage` | `RecommendationsManager` |
| `TariffPage` | `TariffManager` |
| `ExportPage` | `ExportManager` |

## Model

| member | source | states |
|---|---|---|
| Energy.KwhOf | LuminAVbackend/src/main/java/com/luminav/service/DashboardService.java:80-83 | kWh of a sample is non-negative for non-negative watt and minutes, and a 60-minute sample of w watts is w/1000 kWh |
| Energy.Kwh | LuminAVbackend/src/main/java/com/luminav/service/DashboardService.java:80-83 | an absent duration counts as 60 minutes (k·1000 = watt); a present one uses its value; non-negative inputs give non-negative kWh |
| Energy.RoundHalfUp | LuminAVbackend/src/main/java/com/luminav/service/DashboardService.java:85-86 | Math.round: the result is the integer within half a unit of x, ties rounded up |
| Energy.RoundHalfUpMonotone | LuminAVbackend/src/main/java/com/luminav/service/DashboardService.java:85-86 | Math.round never reverses the order of two values |
| Energy.RoundHalfUpOfInt | LuminAVbackend/src/main/java/com/luminav/service/DashboardService.java:85-86 | Math.round leaves integers unchanged |
| Energy.Round2 | LuminAVbackend/src/main/java/com/luminav/service/DashboardService.java:85 | round2 is within half a cent of its argument |
| Energy.Round3 | LuminAVbackend/src/main/java/com/luminav/service/DashboardService.java:86 | round3 is within half a thousandth of its argument |
| Energy.Round3Monotone | LuminAVbackend/src/main/java/com/luminav/service/ForecastService.java:44 | round3 preserves order |
| Energy.Round3OfZero | LuminAVbackend/src/main/java/com/luminav/service/ForecastService.java:34-35 | Round3 and Round2 of 0 are 0 (used for the zero-hour baseline and the empty-window cost) |
| Energy.RecoverWatt | LuminAVfrontend/src/components/readings/ReadingsManager.tsx:103-104 | the watt sent for a non-negative kWh over a positive duration is non-negative |
| Energy.WattRoundTrip | LuminAVfrontend/src/components/readings/ReadingsManager.tsx:103-104 | converting a whole wattage to kWh and back yields that wattage again |
| Energy.RedisplayError | LuminAVfrontend/src/components/readings/ReadingsManager.tsx:103-113 | the kWh shown after saving differs from the kWh typed by at most minutes/120000 (the rounding of the watt) |
| Entities.TotalKwh | LuminAVbackend/src/main/java/com/luminav/service/DashboardService.java:33 | the total kWh of readings with non-negative watt and minutes is non-negative |
| Entities.KeyedKwh | LuminAVbackend/src/main/java/com/luminav/service/DashboardService.java:40 | the kWh of one bucket is 0 when no reading falls into it and the whole total when every reading does |
| JavaStrings.UpperChar | LuminAVbackend/src/main/java/com/luminav/controller/RecommendationController.java:33 | toUpperCase of one char maps a..z to A..Z and leaves every other char alone |
| JavaStrings.ToUpperCase | LuminAVbackend/src/main/java/com/luminav/controller/RecommendationController.java:33 | toUpperCase keeps the length and upper-cases each char in place |
| JavaStrings.ToUpperCaseIdempotent | LuminAVbackend/src/main/java/com/luminav/controller/RecommendationController.java:41 | upper-casing twice is upper-casing once: a stored status is already normalised |
| JavaStrings.LessIrreflexive | LuminAVbackend/src/main/java/com/luminav/service/DashboardService.java:36 | String.compareTo order: no key is below itself |
| JavaStrings.LessTransitive | LuminAVbackend/src/main/java/com/luminav/service/DashboardService.java:36 | String.compareTo order is transitive |
| JavaStrings.LessTotal | LuminAVbackend/src/main/java/com/luminav/service/DashboardService.java:36 | String.compareTo order is total on distinct keys |
| JavaStrings.LessAsymmetric | LuminAVbackend/src/main/java/com/luminav/service/DashboardService.java:36 | String.compareTo order is asymmetric |
| Seqs.Find | LuminAVbackend/src/main/java/com/luminav/service/DashboardService.java:63 | finds the first element satisfying the test, and None exactly when none does |
| Seqs.ReplaceWhere | LuminAVbackend/src/main/java/com/luminav/controller/TariffController.java:26 | same length; every element matching the test is replaced and the others are kept |
| Seqs.Filter | LuminAVfrontend/src/components/readings/ReadingsManager.tsx:126-127 | keeps exactly the elements that pass the test, each as often as in the input |
| Seqs.FilterMembership | LuminAVfrontend/src/components/readings/ReadingsManager.tsx:126-127 | x survives filtering iff it was in the input and passes the test |
| Seqs.FilterMembershipAll | LuminAVfrontend/src/components/readings/ReadingsManager.tsx:126-127 | the membership rule for every element at once |
| Seqs.InsertDesc | LuminAVbackend/src/main/java/com/luminav/service/DashboardService.java:56-57 | inserting into a descending sequence keeps it descending and adds exactly that element |
| Seqs.SortedCons | LuminAVbackend/src/main/java/com/luminav/service/DashboardService.java:56-57 | a head no smaller than a descending tail gives a descending sequence |
| Seqs.SortDesc | LuminAVbackend/src/main/java/com/luminav/service/DashboardService.java:56-57 | the result is sorted descending by the key and is a permutation of the input |
| Seqs.SortAsc | LuminAVfrontend/src/components/readings/ReadingsManager.tsx:128 | the result is sorted ascending by the key and is a permutation of the input |
| Seqs.Take | LuminAVbackend/src/main/java/com/luminav/service/DashboardService.java:58 | limit(n): a prefix of length min(n, size), 0 for negative n |
| Seqs.TakeSortedDesc | LuminAVbackend/src/main/java/com/luminav/service/DashboardService.java:56-58 | a prefix of a descending sequence is descending and nothing after it ranks above its last element |
| Seqs.TopDesc | LuminAVbackend/src/main/java/com/luminav/controller/RecommendationController.java:31 | the n highest by key, descending, drawn from the input, and nothing left out ranks above anything kept |
| Seqs.PrefixMultiset | LuminAVbackend/src/main/java/com/luminav/service/DashboardService.java:58 | a prefix holds no element more often than the whole |
| Seqs.LeftOutRanksLower | LuminAVbackend/src/main/java/com/luminav/service/DashboardService.java:56-58 | an element cut off by the limit ranks no higher than any element kept |
| Seqs.NoDuplicatesCount | LuminAVbackend/src/main/java/com/luminav/service/DashboardService.java:52-54 | in a duplicate-free sequence each element occurs at most once |
| Seqs.RepeatCount | LuminAVbackend/src/main/java/com/luminav/service/DashboardService.java:52-54 | an element at two positions occurs at least twice |
| Seqs.SubNoDuplicates | LuminAVbackend/src/main/java/com/luminav/service/DashboardService.java:56-58 | a sub-multiset of a duplicate-free sequence is duplicate-free |
| Repositories.DevicesExcept | LuminAVbackend/src/main/java/com/luminav/controller/DeviceController.java:57 | deleteById leaves exactly the devices with another id, still in id order |
| Repositories.RecommendationsExcept | LuminAVbackend/src/main/java/com/luminav/controller/RecommendationController.java:48 | deleteById leaves exactly the recommendations with another id, still in id order |
| Repositories.CurrentDevices | LuminAVbackend/src/main/java/com/luminav/entity/Reading.java:11-12 | the invariant that every stored reading carries a stored device (a non-null foreign key); the device and reading controllers preserve it |
| Repositories.DeviceWithId | LuminAVbackend/src/main/java/com/luminav/controller/ReadingController.java:41 | findById: the stored device with that id, None exactly when no device has it |
| Repositories.FirstOwned | LuminAVbackend/src/main/java/com/luminav/repository/TariffRepository.java:10 | the position of the first tariff of an owner, past every row of other owners |
| Repositories.TariffOf | LuminAVbackend/src/main/java/com/luminav/repository/TariffRepository.java:10 | findByOwnerId: a stored tariff of that owner, None exactly when there is none |
| Repositories.UserRepository.constructor | LuminAVbackend/src/main/java/com/luminav/entity/User.java:10-11 | an empty table whose first IDENTITY id is 1 |
| Repositories.UserRepository.FindById | LuminAVbackend/src/main/java/com/luminav/controller/DeviceController.java:35 | a stored user with the id, None exactly when no user has it |
| Repositories.UserRepository.FindByEmail | LuminAVbackend/src/main/java/com/luminav/controller/AuthController.java:39 | a stored user with that e-mail, None exactly when none has it |
| Repositories.UserRepository.Insert | LuminAVbackend/src/main/java/com/luminav/controller/AuthController.java:51 | save of a new user: appended under the next id, which then advances |
| Repositories.DeviceRepository.constructor | LuminAVbackend/src/main/java/com/luminav/entity/Device.java:8-9 | an empty table whose first IDENTITY id is 1 |
| Repositories.DeviceRepository.FindById | LuminAVbackend/src/main/java/com/luminav/controller/DeviceController.java:44 | a stored device with the id, None exactly when no device has it |
| Repositories.DeviceRepository.FindByOwnerId | LuminAVbackend/src/main/java/com/luminav/repository/DeviceRepository.java:10 | exactly the stored devices of that owner |
| Repositories.DeviceRepository.Insert | LuminAVbackend/src/main/java/com/luminav/controller/DeviceController.java:39 | save of a new device: appended under the next id |
| Repositories.DeviceRepository.Replace | LuminAVbackend/src/main/java/com/luminav/controller/DeviceController.java:50 | save of an existing device: the row with its id is replaced, nothing else changes |
| Repositories.DeviceRepository.DeleteById | LuminAVbackend/src/main/java/com/luminav/controller/DeviceController.java:57 | the row with that id is gone and every other row stays |
| Repositories.ReadingRepository.constructor | LuminAVbackend/src/main/java/com/luminav/entity/Reading.java:8-9 | an empty table whose first IDENTITY id is 1 |
| Repositories.ReadingRepository.Between | LuminAVbackend/src/main/java/com/luminav/repository/ReadingRepository.java:10 | exactly the stored readings of that owner's devices with from <= recordedAt <= to |
| Repositories.ReadingRepository.BetweenForDevice | LuminAVbackend/src/main/java/com/luminav/repository/ReadingRepository.java:11 | the same, restricted to one device |
| Repositories.ReadingRepository.Insert | LuminAVbackend/src/main/java/com/luminav/controller/ReadingController.java:47 | save of a new reading: appended under the next id |
| Repositories.ReadingRepository.RefreshDevice | LuminAVbackend/src/main/java/com/luminav/entity/Reading.java:11-12 | a reading references its device's row: after a device is saved, exactly the readings of that id show its new values and nothing else changes |
| Repositories.TariffRepository.constructor | LuminAVbackend/src/main/java/com/luminav/entity/Tariff.java:7-8 | an empty table whose first IDENTITY id is 1 |
| Repositories.TariffRepository.FindByOwnerId | LuminAVbackend/src/main/java/com/luminav/repository/TariffRepository.java:10 | a stored tariff of that owner, None exactly when there is none |
| Repositories.TariffRepository.Insert | LuminAVbackend/src/main/java/com/luminav/controller/TariffController.java:27 | save of a new tariff: appended under the next id |
| Repositories.TariffRepository.Replace | LuminAVbackend/src/main/java/com/luminav/controller/TariffController.java:26 | save of an existing tariff: only the row with its id changes |
| Repositories.RecommendationRepository.constructor | LuminAVbackend/src/main/java/com/luminav/entity/Recommendation.java:14-16 | an empty table whose first IDENTITY id is 1 |
| Repositories.RecommendationRepository.FindById | LuminAVbackend/src/main/java/com/luminav/controller/RecommendationController.java:39-40 | a stored recommendation with the id, None exactly when none has it |
| Repositories.RecommendationRepository.Insert | LuminAVbackend/src/main/java/com/luminav/service/RecommendationAgent.java:124 | save of a new recommendation: appended under the next id |
| Repositories.RecommendationRepository.Replace | LuminAVbackend/src/main/java/com/luminav/controller/RecommendationController.java:42 | save of an existing recommendation: only the row with its id changes |
| Repositories.RecommendationRepository.DeleteById | LuminAVbackend/src/main/java/com/luminav/controller/RecommendationController.java:48 | the row with that id is gone (a missing id removes nothing) |
| Json.HexValue | LuminAVfrontend/src/contexts/AuthContext.tsx:44 | the value of a hexadecimal digit, -1 for any other char |
| Json.HexRoundTrip | LuminAVfrontend/src/contexts/AuthContext.tsx:44 | reading back a written hex digit gives its value |
| Json.EscapeChar | LuminAVfrontend/src/components/export/ExportManager.tsx:41 | JSON.stringify's escape of one char is printable and contains no unescaped quote |
| Json.Escape | LuminAVfrontend/src/components/export/ExportManager.tsx:41 | the escaped text holds no control character |
| Json.Quote | LuminAVfrontend/src/components/export/ExportManager.tsx:41 | JSON.stringify of a string is quoted at both ends and holds no control character and so no line feed |
| Json.UnescapeControl | LuminAVfrontend/src/contexts/AuthContext.tsx:44 | a \u00XX escape decodes back to its control character |
| Json.UnescapeShort | LuminAVfrontend/src/contexts/AuthContext.tsx:44 | the two-character escapes decode back to their chars |
| Json.UnescapeChar | LuminAVfrontend/src/contexts/AuthContext.tsx:44 | decoding undoes the escape of any one char |
| Json.UnescapeEscape | LuminAVfrontend/src/contexts/AuthContext.tsx:44 | JSON.parse inverts JSON.stringify on strings: decoding the escaped text gives the string back |
| Json.Unescape | LuminAVfrontend/src/contexts/AuthContext.tsx:44 | the decoding JSON.parse applies to a string literal's body (escapes, with a surrogate pair decoded to one character), None when malformed; Json.UnescapeEscape proves it inverts Json.Escape and Json.UnescapePair that it decodes pairs |
| Json.Hex4 | LuminAVfrontend/src/contexts/AuthContext.tsx:44 | the value of four hex digits, non-negative iff all four are hex digits |
| Json.UnitEscape | LuminAVfrontend/src/contexts/AuthContext.tsx:44 | the six-char \\uXXXX escape of a UTF-16 unit |
| Json.UnitEscapeValue | LuminAVfrontend/src/contexts/AuthContext.tsx:44 | a unit's escape reads back as that unit |
| Json.HighSurrogate | LuminAVfrontend/src/contexts/AuthContext.tsx:44 | the high surrogate of a character above U+FFFF lies in D800-DBFF |
| Json.LowSurrogate | LuminAVfrontend/src/contexts/AuthContext.tsx:44 | the low surrogate of a character above U+FFFF lies in DC00-DFFF |
| Json.SurrogatesCombine | LuminAVfrontend/src/contexts/AuthContext.tsx:44 | the pair combines back to the character |
| Json.PairEscape | LuminAVfrontend/src/contexts/AuthContext.tsx:44 | the twelve-char surrogate-pair escape of a character above U+FFFF |
| Json.UnescapeHighLow | LuminAVfrontend/src/contexts/AuthContext.tsx:44 | an escaped high surrogate followed by an escaped low one decodes to the character the pair encodes |
| Json.UnescapePair | LuminAVfrontend/src/contexts/AuthContext.tsx:44 | decoding the surrogate-pair escape of a character gives that character back |
| Json.UnescapeUpperPair | LuminAVfrontend/src/contexts/AuthContext.tsx:44 | the escape \\uD83D\\uDE00 decodes to U+1F600 |
| Dashboard.Lookup | LuminAVbackend/src/main/java/com/luminav/service/DashboardService.java:40 | a key absent from the map reads as 0 kWh |
| Dashboard.KeysIndex | LuminAVbackend/src/main/java/com/luminav/service/DashboardService.java:36-41 | a key is in the map iff some entry carries it |
| Dashboard.AscendingDistinct | LuminAVbackend/src/main/java/com/luminav/service/DashboardService.java:36 | a TreeMap in key order has no repeated key |
| Dashboard.AboveAll | LuminAVbackend/src/main/java/com/luminav/service/DashboardService.java:36 | a key below every entry is below every key of the map |
| Dashboard.TreeMerge | LuminAVbackend/src/main/java/com/luminav/service/DashboardService.java:40 | TreeMap.merge(k, v, sum) keeps key order, adds k, adds v to k's total only, and adds v to the grand total |
| Dashboard.HashMerge | LuminAVbackend/src/main/java/com/luminav/service/DashboardService.java:54 | HashMap.merge(k, v, sum) keeps keys distinct, adds v to k's total only; a new key is appended |
| Dashboard.TreeTotals | LuminAVbackend/src/main/java/com/luminav/service/DashboardService.java:36-49 | the buckets are exactly the readings' keys, in order, each holding its readings' kWh, summing to the total |
| Dashboard.HashTotals | LuminAVbackend/src/main/java/com/luminav/service/DashboardService.java:52-55 | one entry per key (for byDevice, per device id), each holding the kWh of the readings with that key, summing to the total |
| Dashboard.GroupSorted | LuminAVbackend/src/main/java/com/luminav/service/DashboardService.java:36-49 | the grouping loop builds exactly TreeTotals |
| Dashboard.GroupHashed | LuminAVbackend/src/main/java/com/luminav/service/DashboardService.java:52-55 | the grouping loop builds exactly HashTotals |
| Dashboard.BucketsPartitionTotal | LuminAVbackend/src/main/java/com/luminav/service/DashboardService.java:33-49 | the bucket totals add up to totalKwh, and each bucket holds its own readings' kWh |
| Dashboard.LookupAt | LuminAVbackend/src/main/java/com/luminav/service/DashboardService.java:40 | the entry at a position is the one a lookup of its key finds |
| Dashboard.CutOffBelow | LuminAVbackend/src/main/java/com/luminav/service/DashboardService.java:56-58 | entries past the limit rank no higher than the last one kept |
| Dashboard.Ranked | LuminAVbackend/src/main/java/com/luminav/service/DashboardService.java:56-58 | at most five device totals, highest first, drawn from the totals, and every left-out total is no larger than the last kept |
| Dashboard.Usages | LuminAVbackend/src/main/java/com/luminav/service/DashboardService.java:59 | each ranked total becomes a DeviceUsage in the same order |
| Dashboard.DeviceIdOf | LuminAVbackend/src/main/java/com/luminav/service/DashboardService.java:52-54 | the byDevice key: one managed Device instance per id and no equals of its own make the map keyed by device id; the Ranked*/TopDevices* lemmas state what follows |
| Dashboard.DeviceIn | LuminAVbackend/src/main/java/com/luminav/service/DashboardService.java:59 | the device some reading with that id carries, None exactly when no reading has that id |
| Dashboard.TopDevices | LuminAVbackend/src/main/java/com/luminav/service/DashboardService.java:52-60 | the ranking as DeviceUsage rows; specified by the TopDevices* lemmas below |
| Dashboard.RankedEntriesAreDeviceTotals | LuminAVbackend/src/main/java/com/luminav/service/DashboardService.java:52-58 | each ranked entry is the id of a device of the window with the kWh of all that device's readings |
| Dashboard.RankedOnePerDevice | LuminAVbackend/src/main/java/com/luminav/service/DashboardService.java:52-58 | no device id is ranked twice |
| Dashboard.RankedLeavesOutSmaller | LuminAVbackend/src/main/java/com/luminav/service/DashboardService.java:56-58 | a device of the window left out of the ranking used, over all its readings, no more than the last ranked one |
| Dashboard.TopDevicesSize | LuminAVbackend/src/main/java/com/luminav/service/DashboardService.java:58 | topDevices has at most five entries and is empty exactly when the window is |
| Dashboard.TopDevicesNonIncreasing | LuminAVbackend/src/main/java/com/luminav/service/DashboardService.java:57-59 | topDevices' kWh are non-increasing |
| Dashboard.TopDevicesAreDevices | LuminAVbackend/src/main/java/com/luminav/service/DashboardService.java:59 | each top device is a device of the window, shown with its id, the name its readings carry and the rounded kWh of all its readings |
| Dashboard.TopDevicesOnePerDevice | LuminAVbackend/src/main/java/com/luminav/service/DashboardService.java:52-60 | no device id appears twice in topDevices |
| Dashboard.TopDevicesShowStoredNames | LuminAVbackend/src/main/java/com/luminav/service/DashboardService.java:59 | when every reading carries a stored device, each listed name is that stored device's current name |
| Dashboard.TopDevicesLeaveOutSmaller | LuminAVbackend/src/main/java/com/luminav/service/DashboardService.java:56-59 | a device of the window is listed with the rounded kWh of all its readings, or used no more than the last one listed |
| Dashboard.PriceOf | LuminAVbackend/src/main/java/com/luminav/service/DashboardService.java:63-64 | the owner's price per kWh, or 650 when there is no tariff |
| Dashboard.Cost | LuminAVbackend/src/main/java/com/luminav/service/DashboardService.java:65 | no consumption costs 0, and the cost is non-negative for non-negative kWh and price |
| Dashboard.Rounded | LuminAVbackend/src/main/java/com/luminav/service/DashboardService.java:70-75 | every point keeps its bucket and has its kWh rounded to three decimals |
| Dashboard.DashboardService.constructor | LuminAVbackend/src/main/java/com/luminav/service/DashboardService.java:25-28 | the service reads the given repositories |
| Dashboard.DashboardService.Summarize | LuminAVbackend/src/main/java/com/luminav/service/DashboardService.java:30-78 | the summary of the owner's window: rounded total, cost at the tariff price, hour and day buckets, top devices per device id; an empty window gives zeros and empty lists |
| Forecast.HourAverage | LuminAVbackend/src/main/java/com/luminav/service/ForecastService.java:31-35 | 0 when days <= 0 or no reading falls in the hour; otherwise round3 of the hour's kWh over days |
| Forecast.BaselineUpTo | LuminAVbackend/src/main/java/com/luminav/service/ForecastService.java:29-36 | the hours 0..n-1 filled so far, each holding its average; its step lemma is Forecast.BaselineStep |
| Forecast.HoursKwh | LuminAVbackend/src/main/java/com/luminav/service/ForecastService.java:25-32 | the kWh of hours 0..n-1 added up; Forecast.HoursPartitionTotal proves the 24 hours hold the window's total |
| Forecast.Baseline | LuminAVbackend/src/main/java/com/luminav/service/ForecastService.java:29-37 | the map has exactly the hours 0..23, each holding its average |
| Forecast.HoursKwhLast | LuminAVbackend/src/main/java/com/luminav/service/ForecastService.java:25-32 | adding one reading adds its kWh to exactly its hour |
| Forecast.HoursKwhEmpty | LuminAVbackend/src/main/java/com/luminav/service/ForecastService.java:31 | with no readings every hour sums to 0 |
| Forecast.HoursPartitionTotal | LuminAVbackend/src/main/java/com/luminav/service/ForecastService.java:25-32 | the 24 hour sums add up to the window's total kWh |
| Forecast.ForecastService.constructor | LuminAVbackend/src/main/java/com/luminav/service/ForecastService.java:16 | the service reads the given repository |
| Forecast.ForecastService.Window | LuminAVbackend/src/main/java/com/luminav/service/ForecastService.java:20-22 | exactly the owner's readings in [now - days, now] |
| Forecast.ForecastService.HourlyBaseline | LuminAVbackend/src/main/java/com/luminav/service/ForecastService.java:19-38 | the loop builds exactly Baseline of the window |
| Agent.InPeak | LuminAVbackend/src/main/java/com/luminav/service/RecommendationAgent.java:128-136 | a missing bound is never peak, equal bounds are always peak, start < end means [start, end), otherwise the window wraps midnight |
| Agent.InPeakSwap | LuminAVbackend/src/main/java/com/luminav/service/RecommendationAgent.java:131-135 | swapping distinct bounds gives the complementary hours |
| Agent.WindowLength | LuminAVbackend/src/main/java/com/luminav/service/RecommendationAgent.java:74 | the window is at least one minute and equals the configured minutes when those are positive |
| Agent.Expected | LuminAVbackend/src/main/java/com/luminav/service/RecommendationAgent.java:95-96 | the baseline of the hour when positive, otherwise 0.01; always positive |
| Agent.Threshold | LuminAVbackend/src/main/java/com/luminav/service/RecommendationAgent.java:104 | the threshold lies strictly above a positive expectation |
| Agent.Decide | LuminAVbackend/src/main/java/com/luminav/service/RecommendationAgent.java:82-106 | no recommendation for an empty window or under 0.01 kWh; any recommendation is ALERT in peak hours and WARN otherwise |
| Agent.RecommendationAgent.constructor | LuminAVbackend/src/main/java/com/luminav/service/RecommendationAgent.java:39-51 | the agent holds the given repositories, forecast and window length |
| Agent.RecommendationAgent.DraftRule | LuminAVbackend/src/main/java/com/luminav/service/RecommendationAgent.java:80-125 | a recommendation is drafted iff the window is non-empty, reaches 0.01 kWh and exceeds 1.25 times the expectation; it is NEW, of the owner, at now, ALERT exactly at a peak hour and WARN otherwise, and its message reports the window's length, kWh and expectation |
| Agent.RecommendationAgent.Evaluate | LuminAVbackend/src/main/java/com/luminav/service/RecommendationAgent.java:71-116 | computes exactly the draft for the owner |
| Agent.RecommendationAgent.Draft | LuminAVbackend/src/main/java/com/luminav/service/RecommendationAgent.java:73-124 | the recommendation generateForOwner would save, or none; Agent.RecommendationAgent.DraftRule states when there is one and what it holds |
| Agent.Message | LuminAVbackend/src/main/java/com/luminav/service/RecommendationAgent.java:107-115 | the message opens with the high-use phrase and ends with the peak advice at a peak hour and the off-peak advice otherwise |
| Agent.RecommendationAgent.GenerateForOwner | LuminAVbackend/src/main/java/com/luminav/service/RecommendationAgent.java:71-126 | appends the draft, if any, under the next id and nothing else |
| Agent.RecommendationAgent.Drafts | LuminAVbackend/src/main/java/com/luminav/service/RecommendationAgent.java:64-66 | one draft per user |
| Agent.RecommendationAgent.ScheduledRun | LuminAVbackend/src/main/java/com/luminav/service/RecommendationAgent.java:63-67 | appends every user's draft in user order, with consecutive ids |
| Agent.Planned | LuminAVbackend/src/main/java/com/luminav/service/RecommendationAgent.java:64-66 | the drafts that exist, numbered consecutively from the first free id |
| Agent.PlannedSnoc | LuminAVbackend/src/main/java/com/luminav/service/RecommendationAgent.java:64-66 | one more user adds its saved draft at the end |
| Agent.PlannedStep | LuminAVbackend/src/main/java/com/luminav/service/RecommendationAgent.java:64-66 | the loop invariant of the run is kept by one more user |
| Agent.Saved | LuminAVbackend/src/main/java/com/luminav/service/RecommendationAgent.java:117-124 | no draft saves nothing; a draft is saved under the given id |
| AuthControl.IndexFrom | LuminAVbackend/src/main/java/com/luminav/controller/AuthController.java:35 | the first occurrence of a char at or after a position |
| AuthControl.LastIndexBelow | LuminAVbackend/src/main/java/com/luminav/controller/AuthController.java:35 | the last occurrence of a char below a position |
| AuthControl.MatchesEmail | LuminAVbackend/src/main/java/com/luminav/controller/AuthController.java:35 | the e-mail check; AuthControl.MatchesEmailShape proves it accepts exactly the .+@.+\..+ shape |
| AuthControl.MatchesEmailShape | LuminAVbackend/src/main/java/com/luminav/controller/AuthController.java:35 | the matcher accepts exactly the strings of the form .+@.+\..+ without line terminators |
| AuthControl.AuthController.constructor | LuminAVbackend/src/main/java/com/luminav/controller/AuthController.java:22-24 | the controller uses the given user table |
| AuthControl.AuthController.Register | LuminAVbackend/src/main/java/com/luminav/controller/AuthController.java:26-56 | 400 for a missing or blank field or a malformed e-mail, 409 for a taken e-mail, else a RESIDENT user stored under the next id and returned; e-mails stay unique |
| AuthControl.AuthController.Login | LuminAVbackend/src/main/java/com/luminav/controller/AuthController.java:58-80 | 400 for a missing or blank field, 401 for an unknown e-mail or a wrong password, else the user's id, name, e-mail and role |
| DeviceControl.Edited | LuminAVbackend/src/main/java/com/luminav/controller/DeviceController.java:46-49 | the update copies name, type, watt and location from the body and keeps id, owner and creation time |
| DeviceControl.DeviceController.constructor | LuminAVbackend/src/main/java/com/luminav/controller/DeviceController.java:24-26 | the controller uses the given tables |
| DeviceControl.DeviceController.List | LuminAVbackend/src/main/java/com/luminav/controller/DeviceController.java:28-31 | exactly the owner's devices |
| DeviceControl.DeviceController.Create | LuminAVbackend/src/main/java/com/luminav/controller/DeviceController.java:33-40 | 500 for an unknown owner; otherwise the body is stored as a new device of that owner at now; every reading still carries a stored device |
| DeviceControl.DeviceController.Update | LuminAVbackend/src/main/java/com/luminav/controller/DeviceController.java:42-51 | 500 for an unknown id, 403 for another owner's device, else the edited device replaces it and its readings show the new values; every reading still carries a stored device |
| DeviceControl.DeviceController.Delete | LuminAVbackend/src/main/java/com/luminav/controller/DeviceController.java:53-58 | 500 for an unknown id, 403 for another owner's device, 500 while readings reference it (the foreign key refuses the delete), else the rows are exactly DevicesExcept(rows, id); every reading still carries a stored device |
| DeviceControl.RefreshKeepsCurrent | LuminAVbackend/src/main/java/com/luminav/controller/DeviceController.java:42-51 | an update, with its readings refreshed, keeps every reading on a stored device |
| DeviceControl.DeleteKeepsCurrent | LuminAVbackend/src/main/java/com/luminav/controller/DeviceController.java:53-58 | deleting a device no reading references keeps every reading on a stored device |
| DeviceControl.ReplaceKeepsOwners | LuminAVbackend/src/main/java/com/luminav/controller/DeviceController.java:42-51 | an update that keeps the owner keeps every device owned by a stored user |
| DeviceControl.DeleteKeepsOwners | LuminAVbackend/src/main/java/com/luminav/controller/DeviceController.java:53-58 | deleting a device keeps every remaining device owned by a stored user |
| ReadingControl.Built | LuminAVbackend/src/main/java/com/luminav/controller/ReadingController.java:42-46 | the stored reading takes the body's watt, 60 minutes when absent and now when no time is given |
| ReadingControl.DeviceFor | LuminAVbackend/src/main/java/com/luminav/controller/ReadingController.java:41 | a known request's device is stored and has the requested id |
| ReadingControl.KnownPrefix | LuminAVbackend/src/main/java/com/luminav/controller/ReadingController.java:53-54 | the batch is processed up to the first request naming an unknown device |
| ReadingControl.Stored | LuminAVbackend/src/main/java/com/luminav/controller/ReadingController.java:53-61 | one stored reading per processed request |
| ReadingControl.StoredAt | LuminAVbackend/src/main/java/com/luminav/controller/ReadingController.java:53-61 | the i-th request becomes the i-th reading, on its device, under id first + i |
| ReadingControl.StoredSnoc | LuminAVbackend/src/main/java/com/luminav/controller/ReadingController.java:53-61 | storing one more request appends its reading |
| ReadingControl.StoredStep | LuminAVbackend/src/main/java/com/luminav/controller/ReadingController.java:53-61 | the loop invariant of bulk is kept by one more request (one that names a stored device, at or before the first unknown one) |
| ReadingControl.ReadingController.constructor | LuminAVbackend/src/main/java/com/luminav/controller/ReadingController.java:22-24 | the controller uses the given tables |
| ReadingControl.ReadingController.List | LuminAVbackend/src/main/java/com/luminav/controller/ReadingController.java:26-37 | exactly the owner's readings in [from, to], of one device when one is named |
| ReadingControl.ReadingController.Create | LuminAVbackend/src/main/java/com/luminav/controller/ReadingController.java:39-48 | 500 for an unknown device, otherwise exactly one reading built from the body is appended; every reading still carries a stored device |
| ReadingControl.ReadingController.Bulk | LuminAVbackend/src/main/java/com/luminav/controller/ReadingController.java:50-63 | 400 for a missing or empty batch; otherwise the requests before the first unknown device are stored in order, and the answer is 200 only if there was none; every reading still carries a stored device |
| ReadingControl.StoredKeepsCurrent | LuminAVbackend/src/main/java/com/luminav/controller/ReadingController.java:50-63 | the readings a batch stores carry stored devices, so every reading still does |
| ReadingControl.BatchKeepsCurrent | LuminAVbackend/src/main/java/com/luminav/controller/ReadingController.java:53-61 | what bulk stores before its first unknown device keeps every reading on a stored device |
| RecommendationControl.ClampLimit | LuminAVbackend/src/main/java/com/luminav/controller/RecommendationController.java:29 | the page size lies in 1..200 and equals the limit when that is in range |
| RecommendationControl.Wanted | LuminAVbackend/src/main/java/com/luminav/controller/RecommendationController.java:30-33 | no status filter iff the status is missing, blank or ALL in any case; otherwise the upper-cased status |
| RecommendationControl.Matching | LuminAVbackend/src/main/java/com/luminav/controller/RecommendationController.java:30-33 | exactly the owner's recommendations with the wanted status, each as often as stored |
| RecommendationControl.RecommendationController.constructor | LuminAVbackend/src/main/java/com/luminav/controller/RecommendationController.java:19-21 | the controller uses the given table |
| RecommendationControl.RecommendationController.List | LuminAVbackend/src/main/java/com/luminav/controller/RecommendationController.java:23-35 | at most the clamped limit of matching recommendations, newest first, and no newer match is left out |
| RecommendationControl.RecommendationController.UpdateStatus | LuminAVbackend/src/main/java/com/luminav/controller/RecommendationController.java:37-43 | 404 for an unknown id, otherwise only that row's status becomes the upper-cased status |
| RecommendationControl.RecommendationController.Delete | LuminAVbackend/src/main/java/com/luminav/controller/RecommendationController.java:45-49 | answers 204 and removes exactly the rows with that id |
| TariffControl.Edited | LuminAVbackend/src/main/java/com/luminav/controller/TariffController.java:26 | price and peak hours come from the body; id and owner stay |
| TariffControl.TariffController.constructor | LuminAVbackend/src/main/java/com/luminav/controller/TariffController.java:15 | the controller uses the given tables |
| TariffControl.TariffController.Get | LuminAVbackend/src/main/java/com/luminav/controller/TariffController.java:17-20 | a stored tariff of the owner, or none exactly when there is none |
| TariffControl.TariffController.Upsert | LuminAVbackend/src/main/java/com/luminav/controller/TariffController.java:22-28 | 500 for an unknown owner; else the existing tariff is edited or a new one stored, Get then returns it, and one tariff per owner is kept |
| TariffControl.ReplacedFirst | LuminAVbackend/src/main/java/com/luminav/controller/TariffController.java:26 | after the edit the owner's tariff is the edited one |
| TariffControl.AppendedFirst | LuminAVbackend/src/main/java/com/luminav/controller/TariffController.java:27 | after the insert the owner's tariff is the new one |
| Js.Split | LuminAVfrontend/src/pages/MainApp.tsx:19 | at least one part, none holding the separator; a string without it is its own single part |
| Js.Join | LuminAVfrontend/src/components/export/ExportManager.tsx:39-43 | joining one part gives that part |
| Js.JoinCons | LuminAVfrontend/src/components/export/ExportManager.tsx:38-43 | joining a head before a non-empty rest puts the separator between them |
| Js.JoinAvoids | LuminAVfrontend/src/components/export/ExportManager.tsx:38-43 | a char in no part and not in the separator is not in the join |
| Js.SplitPrefix | LuminAVfrontend/src/components/export/ExportManager.tsx:134 | splitting at the first separator peels off the text before it |
| Js.SplitJoin | LuminAVfrontend/src/components/export/ExportManager.tsx:134 | split undoes join when no part holds the separator |
| Js.TrimStart | LuminAVfrontend/src/components/devices/DeviceManager.tsx:151 | parseInt drops a suffix-preserving run of leading whitespace |
| Js.DigitCount | LuminAVfrontend/src/components/devices/DeviceManager.tsx:151 | the length of the leading run of decimal digits |
| Js.ParseInt | LuminAVfrontend/src/components/devices/DeviceManager.tsx:151 | parseInt(s, 10) is NaN exactly when no digit follows the blanks and the sign |
| Js.DigitChar | LuminAVfrontend/src/contexts/AuthContext.tsx:55 | a digit value is written as a decimal digit |
| Js.NatText | LuminAVfrontend/src/contexts/AuthContext.tsx:55 | the decimal text of a natural number reads back as that number |
| Js.DecimalText | LuminAVfrontend/src/contexts/AuthContext.tsx:55 | String(n): a digit first, or a minus sign for negative n |
| Js.ParseIntDecimal | LuminAVfrontend/src/components/devices/DeviceManager.tsx:106-115 | parseInt of String(n) gives back n |
| Js.ParseIntIgnoresTail | LuminAVfrontend/src/components/devices/DeviceManager.tsx:151 | parseInt reads the leading digits and ignores what follows them |
| Js.DigitCountPrefix | LuminAVfrontend/src/components/devices/DeviceManager.tsx:151 | the leading digit run ends where the digits do |
| Browser.StoredOwnerId | LuminAVfrontend/src/components/readings/ReadingsManager.tsx:38-42 | no id when the key is missing or empty, otherwise Number() of the stored text |
| Browser.Delivered | LuminAVfrontend/src/contexts/AuthContext.tsx:74-76 | a 2xx answer becomes the call's data, an error its status and text body |
| ReadingsPage.ToUi | LuminAVfrontend/src/components/readings/ReadingsManager.tsx:60-65 | a row keeps the reading's id, device id and name and time, and shows the backend's kWh |
| ReadingsPage.UiRows | LuminAVfrontend/src/components/readings/ReadingsManager.tsx:60-65 | one row per reading, in order |
| ReadingsPage.Request | LuminAVfrontend/src/components/readings/ReadingsManager.tsx:91-108 | a reading is sent iff every field is filled, the numbers parse, kWh and minutes are positive and the time parses; the watt is then Math.round of kWh x 1000 over the hours (RecoverWatt), non-negative, and redisplays within minutes/120000 kWh of the input |
| ReadingsPage.ChartRows | LuminAVfrontend/src/components/readings/ReadingsManager.tsx:125-128 | exactly the device's rows, oldest first |
| ReadingsPage.ReadingsManager.constructor | LuminAVfrontend/src/components/readings/ReadingsManager.tsx:28-45 | nothing loaded, no dialog, the minutes field at 60 |
| ReadingsPage.ReadingsManager.LoadAll | LuminAVfrontend/src/components/readings/ReadingsManager.tsx:47-75 | no request without an active owner; otherwise the last seven days are requested and on success the rows are the readings, newest first |
| ReadingsPage.ReadingsManager.OpenDialog | LuminAVfrontend/src/components/readings/ReadingsManager.tsx:79-89 | the form is reset to today, now and 60 minutes and the dialog opens |
| ReadingsPage.ReadingsManager.SaveReading | LuminAVfrontend/src/components/readings/ReadingsManager.tsx:91-123 | sends Request of the form; on success the saved reading is prepended and the dialog closes, otherwise nothing changes |
| ReadingsPage.ReadingsManager.DeviceChartData | LuminAVfrontend/src/components/readings/ReadingsManager.tsx:125-144 | one label and one value per reading of the device, oldest first, kWh as Number(kwh.toFixed(3)) |
| ReadingsPage.DayLabels | LuminAVfrontend/src/components/readings/ReadingsManager.tsx:130 | one day label per row |
| ReadingsPage.Rounded | LuminAVfrontend/src/components/readings/ReadingsManager.tsx:131 | each row's kWh as Number(kwh.toFixed(3)), in order |
| ReadingsPage.Fixed3 | LuminAVfrontend/src/components/readings/ReadingsManager.tsx:131 | Number(x.toFixed(3)): within half a thousandth of x, and equal to round3 for non-negative x |
| ReadingsPage.Fixed3Odd | LuminAVfrontend/src/components/readings/ReadingsManager.tsx:131 | toFixed rounds the magnitude: the result for -x is minus the result for x |
| ReadingsPage.LoadedKwhIsBackendKwh | LuminAVfrontend/src/components/readings/ReadingsManager.tsx:64 | the page's kWh for a loaded row equals the backend's kWh for that reading |
| DevicesPage.ToUi | LuminAVfrontend/src/components/devices/DeviceManager.tsx:74-81 | a device row keeps id, name, type, watt and location |
| DevicesPage.UiRows | LuminAVfrontend/src/components/devices/DeviceManager.tsx:74-81 | one ACTIVE row per device, in order |
| DevicesPage.EditForm | LuminAVfrontend/src/components/devices/DeviceManager.tsx:106-115 | the edit form holds the device's fields and a power text that parses back to its watt |
| DevicesPage.SavePayload | LuminAVfrontend/src/components/devices/DeviceManager.tsx:133-163 | a payload is sent iff all fields are filled, the owner is active and the power parses to a positive integer |
| DevicesPage.Without | LuminAVfrontend/src/components/devices/DeviceManager.tsx:121 | exactly the rows with another id, each as often as before |
| DevicesPage.WithoutKeepsOthers | LuminAVfrontend/src/components/devices/DeviceManager.tsx:121 | rows none of which has the id are kept whole and in order |
| DevicesPage.DeviceManager.constructor | LuminAVfrontend/src/components/devices/DeviceManager.tsx:26-32 | no rows, no dialog, an empty form |
| DevicesPage.DeviceManager.Load | LuminAVfrontend/src/components/devices/DeviceManager.tsx:62-93 | no request without an active owner; on success the rows are the owner's devices |
| DevicesPage.DeviceManager.Add | LuminAVfrontend/src/components/devices/DeviceManager.tsx:100-104 | an empty form for a new device and the dialog open |
| DevicesPage.DeviceManager.Edit | LuminAVfrontend/src/components/devices/DeviceManager.tsx:106-115 | the device's form and the dialog open |
| DevicesPage.DeviceManager.Delete | LuminAVfrontend/src/components/devices/DeviceManager.tsx:117-131 | sends the delete; on success the rows become Without(rows, id), otherwise they stay |
| DevicesPage.DeviceManager.Save | LuminAVfrontend/src/components/devices/DeviceManager.tsx:133-200 | sends an update or a create of SavePayload; on success the edited row is replaced keeping its status or the new row is appended as active, and the form closes |
| DevicesPage.UntouchedEditSendsSamePower | LuminAVfrontend/src/components/devices/DeviceManager.tsx:106-163 | saving an untouched edit form sends the device's own values |
| AuthSession.Persisted | LuminAVfrontend/src/contexts/AuthContext.tsx:52-56 | storage gets the user's JSON and String(id) and keeps every other key |
| AuthSession.Cleared | LuminAVfrontend/src/contexts/AuthContext.tsx:58-62 | both session keys are removed and every other key stays |
| AuthSession.BadRequestText | LuminAVfrontend/src/contexts/AuthContext.tsx:76-78 | a 400 shows its text body, "Error de red" without a body, "Datos inválidos" for a non-text body |
| AuthSession.FailureText | LuminAVfrontend/src/contexts/AuthContext.tsx:73-80 | the page-specific status, 400, other statuses, no answer and a non-HTTP failure map to their texts |
| AuthSession.RegisterErrorText | LuminAVfrontend/src/contexts/AuthContext.tsx:73-80 | register's error text: FailureText with 409 mapped to the taken-e-mail text; AuthSession.RegisterRefusalText states its cases |
| AuthSession.LoginErrorText | LuminAVfrontend/src/contexts/AuthContext.tsx:96-103 | login's error text: FailureText with 401 mapped to the bad-credentials text; AuthSession.LoginRefusalShownVerbatim states its cases |
| AuthSession.AuthContext.constructor | LuminAVfrontend/src/contexts/AuthContext.tsx:34-37 | no user, not loading, no error |
| AuthSession.AuthContext.Hydrate | LuminAVfrontend/src/contexts/AuthContext.tsx:40-50 | the stored user is restored when present and parsable, otherwise nothing changes |
| AuthSession.AuthContext.PersistUser | LuminAVfrontend/src/contexts/AuthContext.tsx:52-56 | the user is set and stored as in Persisted |
| AuthSession.AuthContext.Logout | LuminAVfrontend/src/contexts/AuthContext.tsx:110-112 | the user is cleared and the storage is Cleared |
| AuthSession.AuthContext.Register | LuminAVfrontend/src/contexts/AuthContext.tsx:64-85 | sends the form; true iff the call succeeded, then the user is persisted, otherwise the register error text is set |
| AuthSession.AuthContext.Login | LuminAVfrontend/src/contexts/AuthContext.tsx:87-108 | sends the credentials; true iff the call succeeded, then the user is persisted, otherwise the login error text is set |
| AuthSession.OwnerIdAfterSignIn | LuminAVfrontend/src/contexts/AuthContext.tsx:55 | after sign-in the pages read the user's id as the owner, and it is active iff it is not 0 |
| AuthSession.NoOwnerAfterLogout | LuminAVfrontend/src/contexts/AuthContext.tsx:58-62 | after logout the pages find no owner |
| AuthSession.ReloadRestoresUser | LuminAVfrontend/src/contexts/AuthContext.tsx:40-56 | reloading after sign-in restores the same user |
| AuthSession.LoginRefusalShownVerbatim | LuminAVfrontend/src/contexts/AuthContext.tsx:96-104 | the backend's 400 and 401 refusals of a login are shown with the backend's own text |
| AuthSession.RegisterRefusalText | LuminAVfrontend/src/contexts/AuthContext.tsx:73-81 | the backend's 400 texts are shown as sent and its 409 as "El email ya está registrado" |
| App.TrimSlashes | LuminAVfrontend/src/pages/MainApp.tsx:19 | the leading slashes are removed and nothing else |
| App.PathToTab | LuminAVfrontend/src/pages/MainApp.tsx:18-22 | always one of the six tabs: the first path segment when it is one, else dashboard |
| App.TabPath | LuminAVfrontend/src/pages/MainApp.tsx:32-35 | the route of a tab starts with a slash |
| App.TabShape | LuminAVfrontend/src/pages/MainApp.tsx:10-20 | tab names are non-empty and hold no slash |
| App.TabPathRoundTrip | LuminAVfrontend/src/pages/MainApp.tsx:18-35 | navigating to a tab makes it the active tab; the empty tab shows the dashboard |
| App.NestedPathKeepsTab | LuminAVfrontend/src/pages/MainApp.tsx:19 | any number of leading slashes and any sub-path keep the tab of the first segment |
| App.LeadingSlashes | LuminAVfrontend/src/pages/MainApp.tsx:19 | the trimming removes exactly a run of leading slashes |
| App.MainApp.constructor | LuminAVfrontend/src/pages/MainApp.tsx:24-30 | starts at the given location with the sidebar closed |
| App.MainApp.ActiveTab | LuminAVfrontend/src/pages/MainApp.tsx:30 | the active tab is always one of the six |
| App.MainApp.TabChange | LuminAVfrontend/src/pages/MainApp.tsx:32-35 | navigates to the tab's route, which then is the active tab, and closes the sidebar on mobile |
| App.MainApp.ToggleSidebar | LuminAVfrontend/src/pages/MainApp.tsx:62 | flips the sidebar only |
| App.MainApp.CloseSidebar | LuminAVfrontend/src/pages/MainApp.tsx:40-43 | closes the sidebar only |
| RecommendationsPage.LevelColor | LuminAVfrontend/src/components/recommendations/RecommendationsManager.tsx:40-41 | destructive iff ALERT, secondary iff WARN, default otherwise |
| RecommendationsPage.RecommendationsManager.constructor | LuminAVfrontend/src/components/recommendations/RecommendationsManager.tsx:12-13 | no items, not loading |
| RecommendationsPage.RecommendationsManager.Load | LuminAVfrontend/src/components/recommendations/RecommendationsManager.tsx:21-36 | no request without an active owner; otherwise asks for 20 and shows them on success |
| TariffPage.Apply | LuminAVfrontend/src/components/tariffs/TariffManager.tsx:33-39 | exactly the changed field takes the new value |
| TariffPage.PeakPrice | LuminAVfrontend/src/components/tariffs/TariffManager.tsx:53-55 | a number iff price and factor are; at least the base price for factors of 1 or more, equal to it for 1 |
| TariffPage.CurrencySymbol | LuminAVfrontend/src/components/tariffs/TariffManager.tsx:125 | € iff EUR, $ iff USD, £ otherwise |
| TariffPage.TariffManager.constructor | LuminAVfrontend/src/components/tariffs/TariffManager.tsx:11-30 | the default configuration, unmodified |
| TariffPage.TariffManager.Change | LuminAVfrontend/src/components/tariffs/TariffManager.tsx:33-39 | applies the change and marks the form modified |
| TariffPage.TariffManager.Save | LuminAVfrontend/src/components/tariffs/TariffManager.tsx:41-51 | clears the modified mark; what is shown is what was last saved |
| TariffPage.TariffManager.SaveButtonShown | LuminAVfrontend/src/components/tariffs/TariffManager.tsx:73-78 | the save button is hidden only when the shown configuration is the saved one |
| DashboardPage.HourLabel | LuminAVfrontend/src/components/dashboard/Dashboard.tsx:57 | the label holds no space, and a bucket without a space is its own label |
| DashboardPage.HourLabelOfBucket | LuminAVfrontend/src/components/dashboard/Dashboard.tsx:57 | an hour bucket "day hour" is labelled with its hour |
| DashboardPage.HourlyChart | LuminAVfrontend/src/components/dashboard/Dashboard.tsx:56-66 | one label and one value per hour bucket, in order |
| DashboardPage.DailyChart | LuminAVfrontend/src/components/dashboard/Dashboard.tsx:68-75 | one label, value and colour per day bucket, in order |
| DashboardPage.ConsumptionText | LuminAVfrontend/src/components/dashboard/Dashboard.tsx:49 | "0 kWh" without data, else the total followed by kWh |
| DashboardPage.CostText | LuminAVfrontend/src/components/dashboard/Dashboard.tsx:50 | "$0" without data, else the formatted cost |
| DashboardPage.NoDataExactlyWhenWindowEmpty | LuminAVfrontend/src/components/dashboard/Dashboard.tsx:120-122 | for a summary computed by `Dashboard.DashboardService.Summarize`, "Sin datos" shows exactly when the window had no readings |
| DashboardPage.DashboardView.constructor | LuminAVfrontend/src/components/dashboard/Dashboard.tsx:15-16 | no data, not loading |
| DashboardPage.DashboardView.Load | LuminAVfrontend/src/components/dashboard/Dashboard.tsx:24-43 | no request without an active owner; otherwise the last seven days are asked for and the answer shown on success |
| ExportPage.Apply | LuminAVfrontend/src/components/export/ExportManager.tsx:30-35 | exactly the changed field takes the new value |
| ExportPage.CellText | LuminAVfrontend/src/components/export/ExportManager.tsx:41 | falsy values become "", other text is JSON-quoted, other numbers keep their numeral; never a line feed |
| ExportPage.Line | LuminAVfrontend/src/components/export/ExportManager.tsx:40-42 | a CSV line holds no line feed |
| ExportPage.Lines | LuminAVfrontend/src/components/export/ExportManager.tsx:40-42 | one line per record, in order |
| ExportPage.GenerateCsv | LuminAVfrontend/src/components/export/ExportManager.tsx:37-46 | the header line joined with the record lines; ExportPage.CsvLines proves it splits back into them |
| ExportPage.Content | LuminAVfrontend/src/components/export/ExportManager.tsx:132-135 | the file text, the header line swapped for the labels when headers are on; ExportPage.ContentLines and ExportPage.LabelledContent state its lines |
| ExportPage.CsvLines | LuminAVfrontend/src/components/export/ExportManager.tsx:37-46 | the CSV splits into the header line and then one line per record |
| ExportPage.LabelledContent | LuminAVfrontend/src/components/export/ExportManager.tsx:133-135 | with headers the field-name line is swapped for the Spanish labels |
| ExportPage.ContentLines | LuminAVfrontend/src/components/export/ExportManager.tsx:132-135 | a non-empty file splits into one header line and one line per record |
| ExportPage.LabelsOnlyEndWithLineFeed | LuminAVfrontend/src/components/export/ExportManager.tsx:133-135 | with no records the labelled file is the labels and a trailing line feed |
| ExportPage.TextCellRoundTrip | LuminAVfrontend/src/components/export/ExportManager.tsx:41 | a non-empty text cell decodes back to its text |
| ExportPage.CurrentDate | LuminAVfrontend/src/components/export/ExportManager.tsx:125 | the date part holds no T |
| ExportPage.DevicesFile | LuminAVfrontend/src/components/export/ExportManager.tsx:127-142 | the devices file is sent as text/csv |
| ExportPage.ReadingsFile | LuminAVfrontend/src/components/export/ExportManager.tsx:144-159 | the readings file is sent as text/csv |
| ExportPage.Downloads | LuminAVfrontend/src/components/export/ExportManager.tsx:125-159 | one file per selected data type, devices first, all text/csv |
| ExportPage.FilesHoldOneLinePerRecord | LuminAVfrontend/src/components/export/ExportManager.tsx:127-159 | each file is a header line and one line per sample record |
| ExportPage.RecordCountIsExported | LuminAVfrontend/src/components/export/ExportManager.tsx:363-364 | the estimated count shown is the number of records the export writes |
| ExportPage.ExportIgnoresRangeAndMetadata | LuminAVfrontend/src/components/export/ExportManager.tsx:60-175 | the date range and metadata options do not change the files |
| ExportPage.ExportManager.constructor | LuminAVfrontend/src/components/export/ExportManager.tsx:19-27 | the default configuration, not exporting |
| ExportPage.ExportManager.Change | LuminAVfrontend/src/components/export/ExportManager.tsx:30-35 | applies the change |
| ExportPage.ExportManager.Export | LuminAVfrontend/src/components/export/ExportManager.tsx:60-175 | produces exactly Downloads of the configuration and ends not exporting |

## Left out

**Numbers and text**
- Floating point: amounts are exact reals. Double rounding error and `Math.round` on values beyond 2^53 are not modelled.
- Number formatting is a parameter of the model: `%d` and `%.3f` in the agent's message, `toLocaleString` and `toFixed` on the pages. The exception is the chart's `Number(kwh.toFixed(3))`, modelled on exact values by `ReadingsPage.Fixed3`.
- `Number()` and the `JSON.parse` of the stored session object are parameters; `NaN` is represented as "no number".
- Json.Unescape: an escape of a lone surrogate (a \\uD800-\\uDFFF escape that is not a high-then-low pair) is refused, because a Dafny char is a Unicode scalar value. JSON.parse keeps it as a lone UTF-16 unit. `Json.Escape` never writes one.
- Java's `toUpperCase` and `equalsIgnoreCase` are modelled for ASCII letters only. Other scripts' case mappings are not modelled.
- `String.compareTo` is modelled as lexicographic order on characters. This is the same as UTF-16 order for the bucket keys, which are digits and punctuation.
- `Js.ParseInt` works on unbounded integers. Its results are not rounded to a double for numerals longer than 15 digits.

**Time**
- Time zones and daylight saving: the hour and day buckets, the hour of the day and the agent's Bogotá hour are functions passed in.
- `setDate(getDate() - 7)` is modelled as exactly seven days, so a daylight-saving change inside the week is not modelled.
- `Instant.now()` is a parameter. The agent uses one `now` for its window and for `createdAt`, where the source reads the clock twice.
- `ReadingController.bulk` reads the clock per item; this is modelled by a `clock(i)` parameter.
- The agent's scheduling (`@Scheduled` delays) and its `@Transactional` rollback are not modelled.

**Persistence and the backend**
- BCrypt is an abstract encoder with `encode` and `matches`.
- Null fields in request bodies are not modelled, except where the source tests for them (register and login fields, reading minutes and time, tariff peak hours).
- A reading holds its device as a value, not a reference to the device's row. `Repositories.ReadingRepository.RefreshDevice` stands for the reference: when a device is updated, its readings are given its new values. `Repositories.CurrentDevices` states that every stored reading carries a stored device, and the device and reading controllers preserve it.
- The database's order among rows with equal `createdAt` is not modelled. `Seqs.SortDesc` is stable, but stability is not proved.
- The iteration order of Java's `HashMap` is not modelled: top devices with equal kWh may come out in another order.
- Jackson's coercion of a fractional `minutes` or `deviceId` in a request body is not modelled. `ReadingsPage.Request` sends them as reals, and the backend model takes integers.
- Exceptions other than the ones the controllers raise themselves or through `orElseThrow()` are not modelled (database errors, malformed JSON).
- `DashboardController` answers `/api/dashboard/summary` with a fixed sample map: total 23.5 kWh, cost 14500, two top devices without an id, and an `hourly` list where the page reads `byHour` and `byDay`. It never calls `DashboardService`. The sample is not modelled. `Dashboard.DashboardService.Summarize` models the service as written, which no endpoint serves. `ForecastController` delegates directly and has no separate model.
- DashboardPage.NoDataExactlyWhenWindowEmpty: holds only for a summary the service computed (its requires ties `topDevices` to `Dashboard.TopDevices` of the window). The summary the page actually loads is the controller's fixed sample. Its two top devices mean the "Sin datos" row never shows.
- `UserRepository.java` is not part of this model. Its `findById` and `findByEmail` are modelled from their uses in the controllers.

**Frontend**
- The intermediate `loading` and `isExporting` states while a call is in flight are not modelled. Only the state after the call is.
- Toasts, console logging and rendering are not modelled, apart from the values the pages compute for display.
- `TariffPage.TariffManager.PeakShown` is rendering only, so it has no contract.
- The Blob, object-URL and link mechanics of a download are not modelled. A download is its content, file name and MIME type.
- The export's two-second delay is not modelled.
- The export descriptions (`ExportManager.tsx` lines 177-203) are display text and are not modelled.
- The `xlsx` choice only changes the file extension: the content is still CSV and the MIME type `text/csv`. This is modelled as written.
- `TariffManager` saves nothing to the backend; its save only clears the "modified" mark. This is modelled as written.
- An invalid date in the readings form makes `toISOString()` throw before the `try`. In the model it is a form that sends no request.
- `AuthSession.UserJson` writes the session object with `JSON.stringify` field order and has no contract of its own. Its round trip is assumed as the `parse` parameter of `AuthSession.ReloadRestoresUser`.
- `AuthSession.AuthContext.Register` and `AuthSession.AuthContext.Login` cover JSON bodies as "structured". For an object body the source shows "Datos inválidos"; the model does not look inside that body.
