# MacroScope meal store and nutrition logic, modelled in Dafny

MacroScope is a meal-logging app. The user photographs a meal, the app
stores the nutrition analysis per day, and it shows section totals, weekly
and monthly trend charts, and USDA food search. It can also sync meals to
Android Health Connect. This project models the logic around the app's
local store:

- `meal_store.dfy` (module `MealStore`) is `services/db.js`. It has two
  classes:
  - `WebStore` is the web branch: the `meals` list and `settings` map kept
    under two `localStorage` keys.
  - `NativeStore` is the native branch: the lazily opened, module-level
    SQLite handle and the `meals` (`AUTOINCREMENT` rowid) and `settings`
    tables, kept as a sequence, a counter and a map.

  Both branches share the reference functions for filtering by date,
  decoding and deleting by id.
- `payload_codec.dfy` (module `PayloadCodec`) is the `JSON.stringify` /
  `JSON.parse` of the analysis payload that both branches store in the
  `data` column. It works on a token-level encoding and proves the round
  trip.
- `nutrition.dfy` (module `Nutrition`) is the payload itself. `base.dfy`
  (module `Base`) holds `Option`/`Result`, `x || 0` and `Math.round`.
- `meal_section.dfy` (module `MealSection`) is the `sectionTotals` fold of
  the meal section component. The React Native and web components contain
  the same fold.
- `nutrition_charts.dfy` (module `NutritionCharts`) is the data-building
  part of `loadChartData`: the per-day loop, the averages and the month
  downsampling.
- `health.dfy` (module `HealthSync`) is `services/health.js`.
- `usda.dfy` (module `Usda`) is `services/usda.js`.
- `health_connect_plugin.dfy` (module `HealthConnectPlugin`) is the Expo
  config plugin `plugins/withHealthConnect.js`. It covers the manifest
  edits and the `MainActivity` source edits.

The model takes several things as parameters instead of computing them:

- Clock readings (`Date.now()`).
- The outcome of opening the database.
- Whether `localStorage.setItem` accepts a web write or throws.
- The date keys and day labels of the date library.
- The `fetch` response of the USDA search.
- The three Health Connect calls.
- The rendering of a number as text.

Numbers are exact reals.

## Model

| member | source | states |
|---|---|---|
| PayloadCodec.RoundTrip | services/db.js:86 | parsing the serialised payload gives the payload back, which is what `getMealsByDate` relies on when it reads what `addMeal` wrote |
| PayloadCodec.EncodeInjective | services/db.js:99 | distinct payloads are stored as distinct texts |
| PayloadCodec.Decode | services/db.js:114 | parsing succeeds only on a text that is the serialisation of the payload it returns |
| PayloadCodec.DecodeInvertsEncode | services/db.js:114-121 | a text parses to a payload exactly when it is that payload's serialisation (both directions) |
| PayloadCodec.DecodeItemsParsesEncoding | services/db.js:114 | when the item list parses, it has the announced length and the consumed tokens are exactly the items' serialisation |
| MealStore.NewRecord | services/db.js:82-89 | the record carries the given id, date, meal type, image and timestamp, and its `data` is text that parses back to the payload |
| MealStore.OnDate | services/db.js:111 | a record is kept exactly when it is stored and has that date |
| MealStore.RemoveId | services/db.js:129 | a record survives a delete exactly when it is stored and has a different id |
| MealStore.ListByDate | services/db.js:109-115 | the listing succeeds iff every meal of that day parses; it has one entry per stored meal of the day, in stored order, each carrying its decoded `analysis` |
| MealStore.OnDateAppend | services/db.js:110-111 | the date filter keeps stored order (it distributes over concatenation) |
| MealStore.RemoveIdAppend | services/db.js:129 | the delete filter keeps the remaining records in order |
| MealStore.RemoveAbsentId | services/db.js:129 | deleting an id that no record carries leaves the list unchanged |
| MealStore.RemoveIdIdempotent | services/db.js:128-130 | a second delete of the same id is a no-op |
| MealStore.ListByDateAppend | services/db.js:109-115 | listing a concatenation lists each part in turn, and fails iff either part fails |
| MealStore.AddThenList | services/db.js:81-92 | after an add, listing its day gives the earlier listing plus the new meal at the end, with its analysis decoded back |
| MealStore.AddedMealIsListed | services/db.js:86 | after `addMeal(d, t, a, img)` the listing of `d` contains a meal with that id, type `t` and analysis `a` |
| MealStore.SameMillisecondDeleteRemovesBoth | services/db.js:84 | two web adds in the same millisecond share an id, and one delete removes both |
| MealStore.DeleteNewestOnly | services/db.js:129 | when the clock strictly increases, deleting the newest meal removes exactly that record |
| MealStore.WebLookup | services/db.js:60 | a web setting reads as present iff the key is stored with a non-empty value |
| MealStore.WebSaveThenGet | services/db.js:70-72 | a web save then read gives the value back (`""` reads as null), and other keys are unchanged |
| MealStore.WebStore.constructor | services/db.js:7-22 | both `localStorage` entries start unwritten |
| MealStore.WebStore.Meals | services/db.js:8-11 | a missing `meals` entry reads as the empty list |
| MealStore.WebStore.Settings | services/db.js:15-18 | a missing `settings` entry reads as the empty map |
| MealStore.WebStore.GetSetting | services/db.js:57-60 | the web read is `WebLookup` on the stored settings |
| MealStore.WebStore.SaveSetting | services/db.js:68-72 | when `setItem` accepts the write, the settings are written back with that one key set to the value; when it throws, the call fails and the entry is unchanged; meals untouched |
| MealStore.WebStore.AddMeal | services/db.js:79-92 | when `setItem` accepts the write, the new list is the old one with exactly one record appended (serialised payload, the clock as id) and the id is returned; when it throws, the call fails and the list is unchanged |
| MealStore.WebStore.GetMealsByDate | services/db.js:107-115 | the web listing is `ListByDate` of the stored list |
| MealStore.WebStore.DeleteMeal | services/db.js:126-130 | when `setItem` accepts the write, the new list is the old one without the records of that id, in order; when it throws, the call fails and the list is unchanged |
| MealStore.ConnectReusesCachedHandle | services/db.js:27 | once a handle is cached it is returned without reopening |
| MealStore.ConnectRetriesAfterFailure | services/db.js:48-51 | a failed initialisation resets the handle, so the next call opens again |
| MealStore.ConnectCachesOnSuccess | services/db.js:26-53 | a handle is cached exactly when initialisation succeeded, and it is the returned one |
| MealStore.NativeStore.constructor | services/db.js:25 | no handle, empty tables, no rowid issued yet |
| MealStore.NativeStore.InitNativeDB | services/db.js:26-53 | the result and the cached handle afterwards follow `Connect` |
| MealStore.NativeStore.GetSetting | services/db.js:61-64 | the native read fails with the open error, or gives the stored value (`""` included) or null |
| MealStore.NativeStore.SaveSetting | services/db.js:73-76 | `INSERT OR REPLACE`: on a good handle the key maps to the value; meals and the rowid counter are untouched |
| MealStore.NativeStore.AddMeal | services/db.js:93-103 | the returned id is the previous largest rowid plus one, so it is larger than every id ever issued; the row is appended and table order is kept |
| MealStore.NativeStore.GetMealsByDate | services/db.js:116-123 | the native listing is `ListByDate` of the table, and a row that does not parse fails the call |
| MealStore.NativeStore.DeleteMeal | services/db.js:131-140 | the rows of that id go, order is kept, and the rowid counter and issued ids stay (ids are not reused) |
| MealStore.RemoveIdKeepsOrder | services/db.js:135 | deleting rows keeps the table in ascending rowid order |
| MealStore.AppendKeepsOrder | services/db.js:34 | inserting a row with a fresh `AUTOINCREMENT` id keeps the table in ascending rowid order |
| MealSection.EmptySectionIsZero | components/MealSection.tsx:6-14 | an empty section totals 0 in all four fields |
| MealSection.StepAddsContribution | components/MealSection.tsx:7-12 | one reducer step adds the meal's field, or 0 |
| MealSection.ReduceIsFieldSum | components/MealSection.tsx:6-14 | the left fold from any accumulator adds the field sum over the meals |
| MealSection.TotalsAreFieldSums | src/components/MealSection.jsx:8-16 | each section total is the sum of that field over all meals |
| MealSection.ReduceAppend | src/components/MealSection.jsx:8-16 | folding over one more meal is one more step |
| MealSection.AppendAddsContribution | components/MealSection.tsx:8-11 | appending a meal raises each total by exactly that meal's field |
| MealSection.NoTotalContributesNothing | components/MealSection.tsx:7 | a meal without analysis or without a total leaves all totals unchanged |
| MealSection.MissingFieldAddsZero | src/components/MealSection.jsx:10-13 | a missing field adds 0 to its sum |
| MealSection.FieldSumDependsOnFieldOnly | src/components/MealSection.jsx:9-13 | a field sum reads only that field of each meal |
| MealSection.TotalsIndependent | components/MealSection.tsx:8-11 | sections that agree on one field have the same total for it, whatever the other fields hold |
| MealSection.ChangingOneFieldChangesOnlyItsTotal | src/components/MealSection.jsx:10-13 | changing one field of one meal leaves the other three totals unchanged |
| NutritionCharts.DayCount | components/NutritionCharts.tsx:43 | the period has at least 7 days (7 for week, 30 for month) |
| NutritionCharts.Series | components/NutritionCharts.tsx:60-65 | one entry per day of the period, oldest first |
| NutritionCharts.MissingDayIsZero | components/NutritionCharts.tsx:65 | a date missing from the aggregated map contributes 0 to every dataset |
| NutritionCharts.CountIsDaysWithData | components/NutritionCharts.tsx:71-75 | `daysWithData` counts exactly the days with calories above 0 |
| NutritionCharts.CountBounded | components/NutritionCharts.tsx:102 | `0 <= totalDays <= days` |
| NutritionCharts.NoDataNoTotals | components/NutritionCharts.tsx:71-75 | with no day above 0 the count and both totals are 0 |
| NutritionCharts.BuildDailySeries | components/NutritionCharts.tsx:50-76 | the loop fills labels and the four datasets with exactly one entry per day, and its accumulators hold the count and the sums over the days with data |
| NutritionCharts.ColumnSnoc | components/NutritionCharts.tsx:66-69 | each push extends a dataset by that day's field |
| NutritionCharts.KeptIndices | components/NutritionCharts.tsx:85 | the kept positions lie in range |
| NutritionCharts.KeptIndicesKeepLast | components/NutritionCharts.tsx:85 | no more positions are kept than there are, and the last position is always the last one kept |
| NutritionCharts.Downsample | components/NutritionCharts.tsx:85-94 | the week view passes the series through unchanged; the month view never lengthens it |
| NutritionCharts.DownsampleKeepsEnds | components/NutritionCharts.tsx:85-94 | both views keep the first and the last day of a non-empty series |
| NutritionCharts.KeptIndicesMembers | components/NutritionCharts.tsx:85-94 | position `i` is kept iff `i % 5 == 0` or it is the last position |
| NutritionCharts.KeptIndicesIncreasing | components/NutritionCharts.tsx:85-94 | the filter keeps positions in their original order |
| NutritionCharts.DownsampleKeepsLengthsEqual | components/NutritionCharts.tsx:85-94 | labels and datasets are filtered by the same positions, so their lengths agree |
| NutritionCharts.SkipToNextFifth | components/NutritionCharts.tsx:86 | from a multiple of 5, the next kept position is 5 further on |
| NutritionCharts.SkipDropped | components/NutritionCharts.tsx:86 | a position the filter drops does not change the kept list |
| NutritionCharts.LastFiveOfThirty | components/NutritionCharts.tsx:86 | of positions 25 to 29 of 30, the filter keeps 25 and the last position |
| NutritionCharts.ThirtyDayIndices | components/NutritionCharts.tsx:86 | of 30 positions, 0, 5, 10, 15, 20, 25 and 29 are kept |
| NutritionCharts.MonthKeepsSevenDays | components/NutritionCharts.tsx:85-94 | a 30-day series is reduced to those seven days |
| NutritionCharts.WeekKeepsAll | components/NutritionCharts.tsx:85 | the week view passes every series through |
| NutritionCharts.Average | components/NutritionCharts.tsx:100-101 | the average is 0 without days with data, else the quotient rounded to the nearest integer |
| NutritionCharts.LoadChartData | components/NutritionCharts.tsx:43-103 | the chart's labels and datasets are the per-day series, downsampled by period, all of length 7; the stats are the rounded averages over days with data and that count, at most `days` |
| HealthSync.InitHealthConnect | services/health.js:3-12 | initialised iff `initialize` resolves to true; `false` when it throws |
| HealthSync.RequestHealthPermissions | services/health.js:14-27 | the grant for exactly the requested permissions, or `[]` when the request throws |
| HealthSync.RequestedPermissionsAreExactly | services/health.js:16-20 | the request is read Nutrition, write Nutrition and read TotalCaloriesBurned, and writes nothing but Nutrition |
| HealthSync.RecordFor | services/health.js:32-47 | start is the meal's timestamp and end is 60000 ms later; the four values are copied with kilocalorie/gram units; the name is the meal type or `Meal` |
| HealthSync.Batch | services/health.js:30-48 | a batch exists iff meal, analysis and total are all present, and it holds exactly that meal's one record |
| HealthSync.SyncMealToHealthConnect | services/health.js:29-53 | nothing is written when the guard fails; a record time outside the range of a `Date` rejects without writing; otherwise exactly one record is written, and a failed write ends normally too |
| HealthSync.EnergyAppend | services/health.js:42 | record energies add up over concatenated batches |
| HealthSync.WrittenEnergyIsFieldSum | services/health.js:42 | when every write succeeds and every meal time is a valid `Date`, the energy written for a list of meals is the sum of their calorie totals |
| HealthSync.SyncedEnergyIsSectionCalories | services/health.js:29-53 | when every write succeeds and every meal time is a valid `Date`, the energy synced for a meal section equals that section's calorie total |
| Usda.TrimStart | services/usda.js:26 | strips exactly the leading blanks |
| Usda.TrimEnd | services/usda.js:26 | strips exactly the trailing blanks |
| Usda.Trim | services/usda.js:26 | no white space is left at either end, the text never grows, and the result is empty exactly when the text is blank |
| Usda.Utf16Length | services/usda.js:26 | the UTF-16 length lies between the character count and twice it |
| Usda.TrimStartSkipsBlanks | services/usda.js:26 | leading blank padding does not affect the trimmed text |
| Usda.TrimEndSkipsBlanks | services/usda.js:26 | trailing blank padding does not affect the trimmed text |
| Usda.TrimPaddedWord | services/usda.js:26 | trimming a word padded with blanks gives the word |
| Usda.BmpLength | services/usda.js:26 | a text without astral characters has UTF-16 length equal to its character count |
| Usda.PaddedQueryGuard | services/usda.js:26-28 | a blank-padded query is rejected iff it has fewer than 2 characters |
| Usda.Find | services/usda.js:62 | `find` yields an entry with the id, and nothing iff no entry has it |
| Usda.GetNutrientReadsFirstMatch | services/usda.js:61-64 | the value is the first matching entry's value rounded to one decimal |
| Usda.AbsentNutrientIsZero | services/usda.js:63 | an absent nutrient id gives 0 |
| Usda.ExtractNutrients | services/usda.js:66-75 | all eight fields are present, each looked up by its own USDA nutrient id |
| Usda.UnrelatedNutrientsIgnored | services/usda.js:8-17 | entries with any other nutrient id change none of the eight values |
| Usda.ShapeFood | services/usda.js:41-47 | brand is null when missing or empty; serving size defaults to 100 and unit to `g`; missing nutrients read as none |
| Usda.ShapeAll | services/usda.js:41 | one shaped result per returned food, in order |
| Usda.SearchFoods | services/usda.js:25-53 | a too-short query gives `[]`; a network error or non-ok status is raised; otherwise the result is the shaped foods of the response, one per food in order (`[]` when `foods` is missing) |
| Usda.ShortQueryNeverFetches | services/usda.js:26-28 | for a too-short query the result does not depend on the fetch, so nothing is fetched |
| Usda.SearchSendsQueryAsTyped | services/usda.js:25-31 | the request carries the untrimmed query and page size 15 by default |
| Usda.FormatFoodForMeal | services/usda.js:84-116 | exactly one item, whose nutrients are the scaled totals; the total equals the item's fields; quantity is the servings (1 when none are given), unit and name come from the food; the description is name, ` (`, the portion and `)` |
| Usda.ServingsOrDefault | services/usda.js:84 | the servings given, or 1 when the argument is left out |
| Usda.ScaledUnitsAreNear | services/usda.js:105-112 | calories, sodium and cholesterol are the nutrient times the servings, rounded to the nearest unit |
| Usda.ScaledTenthsAreNear | services/usda.js:106-110 | protein, carbs, fats, sugar and fiber are the nutrient times the servings, rounded to the nearest tenth |
| HealthConnectPlugin.FindMainActivity | plugins/withHealthConnect.js:7-9 | the first activity named `.MainActivity`, or none when there is none |
| HealthConnectPlugin.PatchActivities | plugins/withHealthConnect.js:11-40 | the activity list keeps its length |
| HealthConnectPlugin.Manifest.constructor | plugins/withHealthConnect.js:5-6 | the parsed manifest as given |
| HealthConnectPlugin.Manifest.ApplyHealthConnect | plugins/withHealthConnect.js:3-85 | the callback patches the main activity's filters, adds the alias when absent and appends the packages to `queries` |
| HealthConnectPlugin.PatchFiltersKeepsAndAdds | plugins/withHealthConnect.js:23-39 | existing filters are kept in order; afterwards both actions are present, and each filter was added only if its action was missing |
| HealthConnectPlugin.HasActionAppend | plugins/withHealthConnect.js:24-26 | a list with more filters has an action iff either part has it |
| HealthConnectPlugin.HasActionPrefix | plugins/withHealthConnect.js:33-35 | an action present in kept filters stays present |
| HealthConnectPlugin.PatchFiltersIdempotent | plugins/withHealthConnect.js:24-39 | running the filter edits twice adds each filter once |
| HealthConnectPlugin.PatchActivitiesTouchesOnlyMain | plugins/withHealthConnect.js:7-11 | only the first `.MainActivity` changes, and only in its filters |
| HealthConnectPlugin.NoMainActivityNoFilters | plugins/withHealthConnect.js:11 | without a `.MainActivity` no filter is touched |
| HealthConnectPlugin.PatchActivitiesIdempotent | plugins/withHealthConnect.js:11-40 | the activity edits twice equal them once |
| HealthConnectPlugin.SameNamesSameMain | plugins/withHealthConnect.js:7-9 | patching filters does not move the `.MainActivity` found |
| HealthConnectPlugin.PatchAliasesAddsOnce | plugins/withHealthConnect.js:59-67 | existing aliases are kept, the alias is present afterwards, and a second run changes nothing |
| HealthConnectPlugin.PatchQueriesDuplicates | plugins/withHealthConnect.js:75-81 | existing queries are kept, and a second run appends both packages again (not idempotent) |
| HealthConnectPlugin.IndexOf | plugins/withHealthConnect.js:96 | the leftmost occurrence at or after a position, or none |
| HealthConnectPlugin.Includes | plugins/withHealthConnect.js:95 | `includes` holds iff the text occurs somewhere |
| HealthConnectPlugin.InsertAt | plugins/withHealthConnect.js:96 | inserted text sits between the untouched prefix and suffix |
| HealthConnectPlugin.SuperOnCreate | plugins/withHealthConnect.js:103-106 | the leftmost position at or after the start where `super.onCreate(null)` or `super.onCreate(savedInstanceState)` occurs, with the length of the text found there; none exactly when neither occurs |
| HealthConnectPlugin.PatchMainActivity | plugins/withHealthConnect.js:87-112 | the new source is the import step followed by the hook step |
| HealthConnectPlugin.ImportStep | plugins/withHealthConnect.js:93-97 | the reassigned source is `AddImport` of the original |
| HealthConnectPlugin.HookStep | plugins/withHealthConnect.js:99-107 | the reassigned source is `AddHook` of its input |
| HealthConnectPlugin.InsertedTextIsContained | plugins/withHealthConnect.js:96 | after an insertion the inserted text occurs |
| HealthConnectPlugin.AddImportInserts | plugins/withHealthConnect.js:95-97 | afterwards the import is present iff it was already present or a package line exists |
| HealthConnectPlugin.AddImportIdempotent | plugins/withHealthConnect.js:95-97 | the import step twice equals it once |
| HealthConnectPlugin.AddHookInserts | plugins/withHealthConnect.js:101-107 | afterwards the hook is present iff it was already present or the text contains `super.onCreate(null)` or `super.onCreate(savedInstanceState)` |
| HealthConnectPlugin.AddHookIdempotent | plugins/withHealthConnect.js:101-107 | the hook step twice equals it once |

## Left out

- `services/db.js` has no shared pending initialisation promise, no check
  of a stale handle, no meal update, no water log and no client-side id,
  so the model has none of them either. A native read of a setting stored
  as `""` gives `""`, while the web branch gives null.
- The web settings are a plain object, modelled as a map. Setting keys are
  assumed not to be names of `Object.prototype` properties: for such a key
  (`toString`, `__proto__`) the object's inherited members would change
  what `getSetting` reads and what `saveSetting` stores. The app only uses
  its API key setting.
- The `localStorage` text encoding of the whole meal list and settings map
  is not modelled. The two entries are held as values, and only the payload
  in `data` is serialised.
- `JSON.stringify` / `JSON.parse` are modelled as tokens. Character-level
  lexing and escaping are not modelled. The parser accepts what the encoder
  produces, and a `data` value that is not a payload fails the listing.
- The payload has a fixed schema: every item has a name, quantity, unit,
  nutrients and portion, and the analysis has items, an optional total and
  a description. The app stores whatever analysis it is given, and
  `JSON.parse` reads back any JSON value; payloads of other shapes are not
  modelled.
- PayloadCodec.Decode: "only a serialisation parses" holds of the token
  sequence, not of JSON text. `JSON.parse` accepts many texts for the same
  value (other white space, key order, escapes), so at the level of text
  the parse is not injective.
- SQL statement failures after a successful open are not modelled. Only a
  failing open or schema script fails an operation. The `WAL` pragma and
  the column types are not modelled.
- Concurrency is not modelled. `initNativeDB` publishes the handle before
  the schema exists, so a concurrent caller could see it half-initialised.
  The model is sequential.
- JavaScript numbers are modelled as exact reals. Floating-point rounding
  error, `NaN`, `undefined` arithmetic and the text rendering of numbers
  are not modelled. `Math.round` is `floor(x + 1/2)`.
- Dates are not modelled. `format`/`subDays` are not part of this model,
  and the day keys and labels are supplied as functions of "days ago". The
  aggregation query `getAggregatedMealData` is not part of this model; its
  map is an input with all four fields present.
- The chart JSX, colours, legend and loading state are presentation and
  are not modelled.
- URL building, `encodeURIComponent`, the API key and the HTTP transport of
  `searchFoods` are left to the fetch oracle. Logging is dropped everywhere.
- The Health Connect library calls are oracles. The ISO-8601 text of the
  record times is not modelled; times are kept as epoch milliseconds. Only
  whether the rendering succeeds is modelled: it throws, before the write
  is attempted, for a time outside the range of a `Date`. A missing or
  non-numeric timestamp, which also throws there, is not modelled, because
  a stored meal always carries a number.
- The regular-expression replacements of the activity plugin are modelled
  as "insert after the leftmost anchor". Only attributes the plugin reads
  or writes are kept in the manifest model. A manifest without an
  application or an activity list, on which the code would throw, is not
  modelled.
- HealthConnectPlugin.PatchMainActivity: idempotence is proved for each of
  the two steps on its own, not for the two steps run one after the other.
- Usda.FormatFoodForMeal: the portion text `${servingSize * servings}${unit}`
  uses a supplied number-to-text function.
