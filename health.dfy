/**
 * The Health Connect bridge of `services/health.js`: initialising the
 * client, asking for the app's permissions and writing one `Nutrition`
 * record per logged meal. The three calls into the platform library
 * (`initialize`, `requestPermission`, `writeRecords`) are supplied as
 * oracles that either succeed or fail; every failure of those calls is
 * caught and turned into a plain return value. The one error that escapes
 * is the conversion of the record times to ISO-8601 text, which runs
 * before the `try` and throws for a time outside the range of a `Date`.
 */
module HealthSync {
  import opened Base
  import opened Nutrition
  import opened MealStore
  import opened MealSection

  /** Whatever the platform library throws. */
  datatype ForeignError = ForeignError

  datatype AccessType = Read | Write
  datatype RecordType = Nutrition | TotalCaloriesBurned
  datatype Permission = Permission(accessType: AccessType, recordType: RecordType)

  datatype Unit = Kilocalories | Grams

  /** `{ value, unit }`; a field missing from the meal's total is passed on as missing. */
  datatype Measure = Measure(value: Option<real>, unit: Unit)

  /**
   * A `Nutrition` record. Times are milliseconds since the epoch; their
   * rendering as ISO-8601 text is left to the date library.
   */
  datatype NutritionRecord = NutritionRecord(
    startTime: int,
    endTime: int,
    energy: Measure,
    protein: Measure,
    totalCarbohydrate: Measure,
    totalFat: Measure,
    name: string)

  /** The length of the interval every meal record covers: one minute. */
  const MealDuration := 60000

  /** The largest distance from the epoch, in milliseconds, that a `Date` can hold. */
  const MaxDateMillis := 8640000000000000

  /** `new Date(t).toISOString()` succeeds exactly for these times. */
  predicate IsDateTime(t: int) {
    -MaxDateMillis <= t <= MaxDateMillis
  }

  /** Both ends of the record for a meal logged at `timestamp` can be rendered. */
  predicate RecordTimesValid(timestamp: int) {
    IsDateTime(timestamp) && IsDateTime(timestamp + MealDuration)
  }

  // ----- initHealthConnect / requestHealthPermissions ------------------------------

  /** The client reports itself initialised only when `initialize` resolves to `true`. */
  function InitHealthConnect(initialize: Result<bool, ForeignError>): (initialized: bool)
    ensures initialized <==> initialize == Success(true)
    ensures initialize.Failure? ==> !initialized
  {
    match initialize
    case Success(b) => b
    case Failure(_) => false
  }

  /** The permissions the app asks for. */
  const RequestedPermissions: seq<Permission> :=
    [Permission(Read, Nutrition), Permission(Write, Nutrition), Permission(Read, TotalCaloriesBurned)]

  /**
   * Asks for exactly the three permissions above and hands back what the
   * platform granted, or nothing when the request fails.
   */
  function RequestHealthPermissions(requestPermission: seq<Permission> -> Result<seq<Permission>, ForeignError>)
    : (granted: seq<Permission>)
    ensures requestPermission(RequestedPermissions).Failure? ==> granted == []
    ensures requestPermission(RequestedPermissions).Success? ==>
      granted == requestPermission(RequestedPermissions).value
  {
    match requestPermission(RequestedPermissions)
    case Success(ps) => ps
    case Failure(_) => []
  }

  /** The request reads and writes nutrition and only reads burned calories. */
  lemma RequestedPermissionsAreExactly(p: Permission)
    ensures p in RequestedPermissions <==>
      p == Permission(Read, Nutrition) || p == Permission(Write, Nutrition) ||
      p == Permission(Read, TotalCaloriesBurned)
    ensures p in RequestedPermissions && p.accessType == Write ==> p.recordType == Nutrition
  {
  }

  // ----- syncMealToHealthConnect -----------------------------------------------------

  /** The guard: a meal is synced only when it carries an analysis with a total. */
  predicate Syncable(meal: Option<Meal>) {
    meal.Some? && HasTotal(meal.value)
  }

  /** The record written for a meal with a total. */
  function RecordFor(meal: Meal, total: Totals): (r: NutritionRecord)
    ensures r.startTime == meal.timestamp && r.endTime - r.startTime == MealDuration
    ensures r.energy == Measure(total.calories, Kilocalories)
    ensures r.protein == Measure(total.protein, Grams)
    ensures r.totalCarbohydrate == Measure(total.carbs, Grams)
    ensures r.totalFat == Measure(total.fats, Grams)
    ensures meal.mealType != "" ==> r.name == meal.mealType
    ensures meal.mealType == "" ==> r.name == "Meal"
  {
    NutritionRecord(
      meal.timestamp,
      meal.timestamp + MealDuration,
      Measure(total.calories, Kilocalories),
      Measure(total.protein, Grams),
      Measure(total.carbs, Grams),
      Measure(total.fats, Grams),
      if meal.mealType != "" then meal.mealType else "Meal")
  }

  /** The batch handed to `writeRecords`, if the guard lets the meal through. */
  function Batch(meal: Option<Meal>): (b: Option<seq<NutritionRecord>>)
    ensures b.Some? <==> Syncable(meal)
    ensures b.Some? ==> |b.value| == 1
    ensures b.Some? ==> b.value[0] == RecordFor(meal.value, meal.value.analysis.value.total.value)
  {
    if Syncable(meal) then Some([RecordFor(meal.value, meal.value.analysis.value.total.value)]) else None
  }

  /** How a sync ended; all but `Threw` end normally. */
  datatype SyncOutcome =
    | Skipped                                   // the guard returned early, nothing was written
    | Threw                                     // a record time could not be rendered; the promise rejects
    | Synced(written: seq<NutritionRecord>)     // `writeRecords` succeeded
    | WriteFailed(tried: seq<NutritionRecord>)  // `writeRecords` threw and the error was swallowed

  /**
   * Writes the meal's record through the `writeRecords` oracle, which says
   * whether the write succeeded. The record times are rendered before the
   * write is attempted, so a time out of range rejects without writing.
   */
  function SyncMealToHealthConnect(meal: Option<Meal>, writeRecords: seq<NutritionRecord> -> bool)
    : (r: SyncOutcome)
    ensures r.Skipped? <==> !Syncable(meal)
    ensures r.Threw? <==> Syncable(meal) && !RecordTimesValid(meal.value.timestamp)
    ensures r.Synced? ==> |r.written| == 1 && Some(r.written) == Batch(meal) && writeRecords(r.written)
    ensures r.WriteFailed? ==> |r.tried| == 1 && Some(r.tried) == Batch(meal) && !writeRecords(r.tried)
  {
    match Batch(meal)
    case None => Skipped
    case Some(batch) =>
      if !RecordTimesValid(meal.value.timestamp) then Threw
      else if writeRecords(batch) then Synced(batch) else WriteFailed(batch)
  }

  /** The records that reach Health Connect when every meal of a list is synced. */
  function WrittenRecords(meals: seq<Meal>, writeRecords: seq<NutritionRecord> -> bool): seq<NutritionRecord>
    decreases |meals|
  {
    if meals == [] then []
    else
      var head := match SyncMealToHealthConnect(Some(meals[0]), writeRecords)
        case Synced(written) => written
        case _ => [];
      head + WrittenRecords(meals[1..], writeRecords)
  }

  /** The energy of a list of records, a missing value counting as zero. */
  function Energy(records: seq<NutritionRecord>): real
    decreases |records|
  {
    if records == [] then 0.0 else OrZero(records[0].energy.value) + Energy(records[1..])
  }

  lemma {:induction false} EnergyAppend(a: seq<NutritionRecord>, b: seq<NutritionRecord>)
    ensures Energy(a + b) == Energy(a) + Energy(b)
    decreases |a|
  {
    if a != [] {
      assert (a + b)[1..] == a[1..] + b;
      EnergyAppend(a[1..], b);
    } else {
      assert a + b == b;
    }
  }

  /**
   * When every write succeeds and every meal carries a time a `Date` can
   * hold (as every `Date.now()` stamp does), the energy that reaches Health
   * Connect for a meal section equals the section's calorie total shown in
   * the app.
   */
  lemma {:induction false} SyncedEnergyIsSectionCalories(meals: seq<Meal>, writeRecords: seq<NutritionRecord> -> bool)
    requires forall b :: writeRecords(b)
    requires forall m | m in meals :: RecordTimesValid(m.timestamp)
    ensures Energy(WrittenRecords(meals, writeRecords)) == Get(SectionTotalsOf(meals), Calories)
  {
    WrittenEnergyIsFieldSum(meals, writeRecords);
    TotalsAreFieldSums(meals, Calories);
  }

  lemma {:induction false} WrittenEnergyIsFieldSum(meals: seq<Meal>, writeRecords: seq<NutritionRecord> -> bool)
    requires forall b :: writeRecords(b)
    requires forall m | m in meals :: RecordTimesValid(m.timestamp)
    ensures Energy(WrittenRecords(meals, writeRecords)) == FieldSum(meals, Calories)
    decreases |meals|
  {
    if meals != [] {
      var r := SyncMealToHealthConnect(Some(meals[0]), writeRecords);
      var head := if r.Synced? then r.written else [];
      assert WrittenRecords(meals, writeRecords) == head + WrittenRecords(meals[1..], writeRecords);
      EnergyAppend(head, WrittenRecords(meals[1..], writeRecords));
      WrittenEnergyIsFieldSum(meals[1..], writeRecords);
      if HasTotal(meals[0]) {
        assert Energy(head) == OrZero(head[0].energy.value);
      } else {
        assert head == [];
      }
    }
  }
}
