/**
 * The local meal and settings store of `services/db.js`.
 *
 * Each exported function branches on the platform. The web branch keeps the
 * meal list and the settings map under two `localStorage` keys (`WebStore`);
 * the native branch keeps them in two SQLite tables behind a lazily opened,
 * module-level handle (`NativeStore`). The clock (`Date.now()`) and the outcome
 * of opening the database are parameters.
 */
module MealStore {
  import opened Base
  import opened Nutrition
  import opened PayloadCodec

  /**
   * A record's `data` field: the serialised payload on every record `addMeal`
   * writes; `getMealsByDate` also accepts an already-decoded value.
   */
  datatype Blob = Text(toks: seq<Tok>) | Value(payload: Analysis)

  datatype StoredMeal = StoredMeal(
    id: int,
    date: string,
    mealType: string,
    data: Blob,
    imageBase64: Option<string>,
    timestamp: int)

  /** A meal as `getMealsByDate` hands it out: the stored fields plus `analysis`. */
  datatype Meal = Meal(
    id: int,
    date: string,
    mealType: string,
    data: Blob,
    imageBase64: Option<string>,
    timestamp: int,
    analysis: Option<Analysis>)

  function View(m: StoredMeal, a: Analysis): Meal {
    Meal(m.id, m.date, m.mealType, m.data, m.imageBase64, m.timestamp, Some(a))
  }

  /** `typeof data === 'string' ? JSON.parse(data) : data` */
  function DecodeBlob(b: Blob): Result<Analysis, ParseError> {
    match b
    case Text(ts) => Decode(ts)
    case Value(a) => Success(a)
  }

  /**
   * The record `addMeal` builds: the payload is serialised into `data` as
   * text, and reading that text back gives the payload.
   */
  function NewRecord(id: int, date: string, mealType: string, analysis: Analysis,
                     imageBase64: Option<string>, timestamp: int): (m: StoredMeal)
    ensures m.id == id && m.date == date && m.mealType == mealType
    ensures m.imageBase64 == imageBase64 && m.timestamp == timestamp
    ensures m.data.Text? && DecodeBlob(m.data) == Success(analysis)
  {
    RoundTrip(analysis);
    StoredMeal(id, date, mealType, Text(Encode(analysis)), imageBase64, timestamp)
  }

  // ----- Reference filters -----------------------------------------------------

  /** The stored meals of one day, in stored order. */
  function OnDate(meals: seq<StoredMeal>, date: string): (r: seq<StoredMeal>)
    ensures |r| <= |meals|
    ensures forall m :: m in r <==> m in meals && m.date == date
  {
    if meals == [] then []
    else (if meals[0].date == date then [meals[0]] else []) + OnDate(meals[1..], date)
  }

  /** `meals.filter(m => m.id !== id)` */
  function RemoveId(meals: seq<StoredMeal>, id: int): (r: seq<StoredMeal>)
    ensures |r| <= |meals|
    ensures forall m :: m in r <==> m in meals && m.id != id
  {
    if meals == [] then []
    else (if meals[0].id != id then [meals[0]] else []) + RemoveId(meals[1..], id)
  }

  /**
   * `getMealsByDate`: the meals of `date`, each with its payload decoded. Only
   * the meals of that day are parsed; one that does not parse fails the call.
   */
  function ListByDate(meals: seq<StoredMeal>, date: string): (r: Result<seq<Meal>, ParseError>)
    ensures r.Success? <==> forall m | m in OnDate(meals, date) :: DecodeBlob(m.data).Success?
    ensures r.Success? ==>
      var ds := OnDate(meals, date);
      && |r.value| == |ds|
      && forall i | 0 <= i < |ds| ::
           DecodeBlob(ds[i].data).Success? && r.value[i] == View(ds[i], DecodeBlob(ds[i].data).value)
  {
    if meals == [] then Success([])
    else if meals[0].date != date then ListByDate(meals[1..], date)
    else
      var a :- DecodeBlob(meals[0].data);
      var rest :- ListByDate(meals[1..], date);
      Success([View(meals[0], a)] + rest)
  }

  // ----- Properties of the list operations --------------------------------------

  /** Filtering keeps order: it distributes over concatenation. */
  lemma {:induction false} OnDateAppend(a: seq<StoredMeal>, b: seq<StoredMeal>, date: string)
    ensures OnDate(a + b, date) == OnDate(a, date) + OnDate(b, date)
    decreases |a|
  {
    if a == [] {
      assert a + b == b;
    } else {
      assert (a + b)[1..] == a[1..] + b;
      OnDateAppend(a[1..], b, date);
    }
  }

  /** Deleting keeps the remaining records in order: it distributes over concatenation. */
  lemma {:induction false} RemoveIdAppend(a: seq<StoredMeal>, b: seq<StoredMeal>, id: int)
    ensures RemoveId(a + b, id) == RemoveId(a, id) + RemoveId(b, id)
    decreases |a|
  {
    if a == [] {
      assert a + b == b;
    } else {
      assert (a + b)[1..] == a[1..] + b;
      RemoveIdAppend(a[1..], b, id);
    }
  }

  /** Deleting an id no record carries leaves the list as it was. */
  lemma {:induction false} RemoveAbsentId(meals: seq<StoredMeal>, id: int)
    requires forall m | m in meals :: m.id != id
    ensures RemoveId(meals, id) == meals
    decreases |meals|
  {
    if meals != [] {
      RemoveAbsentId(meals[1..], id);
    }
  }

  /** A second delete of the same id changes nothing. */
  lemma RemoveIdIdempotent(meals: seq<StoredMeal>, id: int)
    ensures RemoveId(RemoveId(meals, id), id) == RemoveId(meals, id)
  {
    RemoveAbsentId(RemoveId(meals, id), id);
  }

  /**
   * Adding a meal and listing its day: the listing is the earlier listing with
   * the new meal's view appended, and fails exactly when it failed before.
   */
  lemma AddThenList(meals: seq<StoredMeal>, id: int, date: string, mealType: string,
                    analysis: Analysis, imageBase64: Option<string>, timestamp: int)
    ensures var m := NewRecord(id, date, mealType, analysis, imageBase64, timestamp);
      && ListByDate(meals + [m], date).Success? == ListByDate(meals, date).Success?
      && (ListByDate(meals, date).Success? ==>
            ListByDate(meals + [m], date).value == ListByDate(meals, date).value + [View(m, analysis)])
  {
    var m := NewRecord(id, date, mealType, analysis, imageBase64, timestamp);
    RoundTrip(analysis);
    assert DecodeBlob(m.data) == Success(analysis);
    assert [m][0] == m && m.date == date && [m][1..] == [];
    assert ListByDate([m][1..], date) == Success([]);
    assert [View(m, analysis)] + [] == [View(m, analysis)];
    assert ListByDate([m], date) == Success([View(m, analysis)]);
    ListByDateAppend(meals, [m], date);
  }

  /** Listing a concatenation lists each part; it fails when either part fails. */
  lemma {:induction false} ListByDateAppend(a: seq<StoredMeal>, b: seq<StoredMeal>, date: string)
    ensures ListByDate(a + b, date).Success? <==> ListByDate(a, date).Success? && ListByDate(b, date).Success?
    ensures ListByDate(a + b, date).Success? ==>
      ListByDate(a + b, date).value == ListByDate(a, date).value + ListByDate(b, date).value
    decreases |a|
  {
    if a == [] {
      assert a + b == b;
    } else {
      assert (a + b)[0] == a[0];
      assert (a + b)[1..] == a[1..] + b;
      ListByDateAppend(a[1..], b, date);
      if a[0].date == date && DecodeBlob(a[0].data).Success? && ListByDate(a + b, date).Success? {
        var v := View(a[0], DecodeBlob(a[0].data).value);
        var x, y := ListByDate(a[1..], date).value, ListByDate(b, date).value;
        assert [v] + (x + y) == ([v] + x) + y;
      }
    }
  }

  /**
   * Round trip through the store: after `addMeal(d, t, a, img)` the listing of
   * `d`, if it succeeds, holds a meal of type `t` whose `analysis` is `a`.
   */
  lemma AddedMealIsListed(meals: seq<StoredMeal>, id: int, date: string, mealType: string,
                          analysis: Analysis, imageBase64: Option<string>, timestamp: int)
    requires ListByDate(meals, date).Success?
    ensures var r := ListByDate(meals + [NewRecord(id, date, mealType, analysis, imageBase64, timestamp)], date);
      && r.Success?
      && exists v | v in r.value :: v.id == id && v.mealType == mealType && v.analysis == Some(analysis)
  {
    var m := NewRecord(id, date, mealType, analysis, imageBase64, timestamp);
    AddThenList(meals, id, date, mealType, analysis, imageBase64, timestamp);
    var r := ListByDate(meals + [m], date);
    assert r.value[|r.value| - 1] == View(m, analysis);
  }

  /**
   * Web ids are clock readings. Two meals added in the same millisecond share
   * an id, and deleting that id removes both of them.
   */
  lemma SameMillisecondDeleteRemovesBoth(meals: seq<StoredMeal>, first: StoredMeal, second: StoredMeal)
    requires first.id == second.id
    ensures RemoveId(meals + [first, second], first.id) == RemoveId(meals, first.id)
  {
    RemoveIdAppend(meals, [first, second], first.id);
    assert RemoveId([first, second], first.id) == [];
  }

  /**
   * With a strictly increasing clock every new id exceeds the stored ones, so
   * deleting the newest meal removes that record and nothing else.
   */
  lemma DeleteNewestOnly(meals: seq<StoredMeal>, newest: StoredMeal)
    requires forall m | m in meals :: m.id < newest.id
    ensures RemoveId(meals + [newest], newest.id) == meals
  {
    RemoveIdAppend(meals, [newest], newest.id);
    RemoveAbsentId(meals, newest.id);
    assert RemoveId([newest], newest.id) == [];
  }

  // ----- Web backend ---------------------------------------------------------------

  /** `settings[key] || null`: an absent key and an empty value both read as null. */
  function WebLookup(settings: map<string, string>, key: string): (v: Option<string>)
    ensures v.Some? <==> key in settings && settings[key] != ""
    ensures v.Some? ==> v.value == settings[key]
  {
    if key in settings && settings[key] != "" then Some(settings[key]) else None
  }

  /** On the web, saving then reading a key gives the value back, or null for `""`. */
  lemma WebSaveThenGet(settings: map<string, string>, key: string, value: string, other: string)
    requires other != key
    ensures WebLookup(settings[key := value], key) == (if value == "" then None else Some(value))
    ensures WebLookup(settings[key := value], other) == WebLookup(settings, other)
  {
  }

  /**
   * `localStorage.setItem` threw (the storage quota is exceeded or storage is
   * disabled); the call rejects and the entry keeps its old value.
   */
  datatype StorageError = StorageError

  /**
   * The web backend: the two `localStorage` entries that `WebDB` reads and
   * writes. Each write method takes `accepted`, whether `setItem` stores the
   * new entry or throws.
   */
  class WebStore {
    /** The `meals` entry; `None` while the key has never been written. */
    var mealsEntry: Option<seq<StoredMeal>>
    /** The `settings` entry; `None` while the key has never been written. */
    var settingsEntry: Option<map<string, string>>

    constructor ()
      ensures mealsEntry == None && settingsEntry == None
    {
      mealsEntry := None;
      settingsEntry := None;
    }

    /** `WebDB.getMeals`: a missing entry reads as the empty list. */
    function Meals(): (ms: seq<StoredMeal>)
      reads this
      ensures mealsEntry.None? ==> ms == []
    {
      if mealsEntry.Some? then mealsEntry.value else []
    }

    /** `WebDB.getSettings`: a missing entry reads as the empty map. */
    function Settings(): (s: map<string, string>)
      reads this
      ensures settingsEntry.None? ==> s == map[]
    {
      if settingsEntry.Some? then settingsEntry.value else map[]
    }

    method GetSetting(key: string) returns (v: Option<string>)
      ensures v == WebLookup(Settings(), key)
    {
      var settings := Settings();
      v := WebLookup(settings, key);
    }

    method SaveSetting(key: string, value: string, accepted: bool) returns (r: Result<(), StorageError>)
      modifies this
      ensures r.Success? <==> accepted
      ensures accepted ==> settingsEntry == Some(old(Settings())[key := value])
      ensures !accepted ==> r == Failure(StorageError) && settingsEntry == old(settingsEntry)
      ensures mealsEntry == old(mealsEntry)
    {
      var settings := Settings();
      settings := settings[key := value];
      if accepted {
        settingsEntry := Some(settings);
        r := Success(());
      } else {
        r := Failure(StorageError);
      }
    }

    /**
     * `addMeal`: `idClock` and `stampClock` are the two `Date.now()` readings
     * taken for the id and for the timestamp.
     */
    method AddMeal(date: string, mealType: string, analysis: Analysis, imageBase64: Option<string>,
                   idClock: int, stampClock: int, accepted: bool) returns (id: Result<int, StorageError>)
      modifies this
      ensures accepted ==> id == Success(idClock)
      ensures accepted ==>
        mealsEntry == Some(old(Meals()) + [NewRecord(idClock, date, mealType, analysis, imageBase64, stampClock)])
      ensures !accepted ==> id == Failure(StorageError) && mealsEntry == old(mealsEntry)
      ensures settingsEntry == old(settingsEntry)
    {
      var meals := Meals();
      var newMeal := StoredMeal(idClock, date, mealType, Text(Encode(analysis)), imageBase64, stampClock);
      meals := meals + [newMeal];
      if accepted {
        mealsEntry := Some(meals);
        id := Success(newMeal.id);
      } else {
        id := Failure(StorageError);
      }
    }

    method GetMealsByDate(date: string) returns (r: Result<seq<Meal>, ParseError>)
      ensures r == ListByDate(Meals(), date)
    {
      var meals := Meals();
      r := ListByDate(meals, date);
    }

    method DeleteMeal(id: int, accepted: bool) returns (r: Result<(), StorageError>)
      modifies this
      ensures r.Success? <==> accepted
      ensures accepted ==> mealsEntry == Some(RemoveId(old(Meals()), id))
      ensures !accepted ==> r == Failure(StorageError) && mealsEntry == old(mealsEntry)
      ensures settingsEntry == old(settingsEntry)
    {
      var meals := Meals();
      meals := RemoveId(meals, id);
      if accepted {
        mealsEntry := Some(meals);
        r := Success(());
      } else {
        r := Failure(StorageError);
      }
    }
  }

  // ----- Native backend ------------------------------------------------------------

  /** An open database connection. */
  datatype Handle = Handle(connection: nat)

  datatype DbError = OpenFailed | SchemaFailed | MalformedPayload

  /**
   * What the platform does on the next open: `openDatabaseAsync` yields a
   * handle or throws (`None`), and the schema script then succeeds or throws.
   */
  datatype OpenOutcome = OpenOutcome(handle: Option<Handle>, schemaOk: bool)

  /**
   * `initNativeDB` as a transition of the cached handle: the result and the
   * handle cached afterwards.
   */
  function Connect(db: Option<Handle>, next: OpenOutcome): (Result<Handle, DbError>, Option<Handle>) {
    if db.Some? then (Success(db.value), db)
    else if next.handle.None? then (Failure(OpenFailed), None)
    else if !next.schemaOk then (Failure(SchemaFailed), None)
    else (Success(next.handle.value), next.handle)
  }

  /** Once a handle is cached it is returned as is, whatever opening would do. */
  lemma ConnectReusesCachedHandle(h: Handle, next: OpenOutcome)
    ensures Connect(Some(h), next) == (Success(h), Some(h))
  {
  }

  /**
   * A failed initialisation leaves no handle behind, so the following call
   * opens afresh and succeeds when that open succeeds.
   */
  lemma ConnectRetriesAfterFailure(db: Option<Handle>, failing: OpenOutcome, h: Handle)
    requires Connect(db, failing).0.Failure?
    ensures Connect(Connect(db, failing).1, OpenOutcome(Some(h), true)) == (Success(h), Some(h))
  {
  }

  /** The handle is cached exactly when a call has succeeded. */
  lemma ConnectCachesOnSuccess(db: Option<Handle>, next: OpenOutcome)
    ensures Connect(db, next).0.Success? <==> Connect(db, next).1.Some?
    ensures Connect(db, next).0.Success? ==> Connect(db, next).1 == Some(Connect(db, next).0.value)
  {
  }

  /**
   * The native backend: the module-level `db` handle and the contents of the
   * `meals` and `settings` tables, which survive a reset of the handle.
   */
  class NativeStore {
    var db: Option<Handle>
    /** The `meals` table in rowid order. */
    var rows: seq<StoredMeal>
    /** The largest rowid `AUTOINCREMENT` has handed out (0 before the first insert). */
    var lastRowId: int
    /** The `settings` table. */
    var settings: map<string, string>
    /** Every id ever issued, including those of deleted rows. */
    ghost var issued: set<int>

    ghost predicate Valid()
      reads this
    {
      && lastRowId >= 0
      && (forall x | x in issued :: 0 < x <= lastRowId)
      && (forall m | m in rows :: m.id in issued && m.data.Text?)
      && Ascending(rows)
    }

    constructor ()
      ensures Valid()
      ensures db == None && rows == [] && settings == map[] && lastRowId == 0
    {
      db := None;
      rows := [];
      lastRowId := 0;
      settings := map[];
      issued := {};
    }

    method InitNativeDB(next: OpenOutcome) returns (r: Result<Handle, DbError>)
      modifies this`db
      ensures (r, db) == Connect(old(db), next)
    {
      if db.Some? {
        return Success(db.value);
      }
      if next.handle.None? {
        db := None;
        return Failure(OpenFailed);
      }
      db := next.handle;
      if !next.schemaOk {
        db := None;
        return Failure(SchemaFailed);
      }
      r := Success(db.value);
    }

    /** Native `getSetting`: unlike the web branch, a stored `""` reads back as `""`. */
    method GetSetting(next: OpenOutcome, key: string) returns (r: Result<Option<string>, DbError>)
      modifies this`db
      ensures db == Connect(old(db), next).1
      ensures Connect(old(db), next).0.Failure? ==> r == Failure(Connect(old(db), next).0.error)
      ensures Connect(old(db), next).0.Success? ==>
        r == Success(if key in settings then Some(settings[key]) else None)
    {
      var h := InitNativeDB(next);
      if h.Failure? {
        return Failure(h.error);
      }
      if key in settings {
        r := Success(Some(settings[key]));
      } else {
        r := Success(None);
      }
    }

    /** Native `saveSetting`: `INSERT OR REPLACE`. */
    method SaveSetting(next: OpenOutcome, key: string, value: string) returns (err: Option<DbError>)
      requires Valid()
      modifies this
      ensures Valid()
      ensures db == Connect(old(db), next).1
      ensures rows == old(rows) && lastRowId == old(lastRowId) && issued == old(issued)
      ensures Connect(old(db), next).0.Failure? ==>
        err == Some(Connect(old(db), next).0.error) && settings == old(settings)
      ensures Connect(old(db), next).0.Success? ==>
        err == None && settings == old(settings)[key := value]
    {
      var h := InitNativeDB(next);
      if h.Failure? {
        return Some(h.error);
      }
      settings := settings[key := value];
      err := None;
    }

    /** Native `addMeal`: the id is the next `AUTOINCREMENT` rowid. */
    method AddMeal(next: OpenOutcome, date: string, mealType: string, analysis: Analysis,
                   imageBase64: Option<string>, now: int) returns (r: Result<int, DbError>)
      requires Valid()
      modifies this
      ensures Valid()
      ensures db == Connect(old(db), next).1 && settings == old(settings)
      ensures Connect(old(db), next).0.Failure? ==>
        && r == Failure(Connect(old(db), next).0.error)
        && rows == old(rows) && lastRowId == old(lastRowId) && issued == old(issued)
      ensures Connect(old(db), next).0.Success? ==>
        && r.Success?
        && r.value == old(lastRowId) + 1 == lastRowId
        && (forall x | x in old(issued) :: x < r.value)
        && issued == old(issued) + {r.value}
        && rows == old(rows) + [NewRecord(r.value, date, mealType, analysis, imageBase64, now)]
    {
      var h := InitNativeDB(next);
      if h.Failure? {
        return Failure(h.error);
      }
      var id := lastRowId + 1;
      AppendKeepsOrder(rows, StoredMeal(id, date, mealType, Text(Encode(analysis)), imageBase64, now));
      rows := rows + [StoredMeal(id, date, mealType, Text(Encode(analysis)), imageBase64, now)];
      lastRowId := id;
      issued := issued + {id};
      r := Success(id);
    }

    /** Native `getMealsByDate`: a row whose `data` does not parse fails the call. */
    method GetMealsByDate(next: OpenOutcome, date: string) returns (r: Result<seq<Meal>, DbError>)
      modifies this`db
      ensures db == Connect(old(db), next).1
      ensures Connect(old(db), next).0.Failure? ==> r == Failure(Connect(old(db), next).0.error)
      ensures Connect(old(db), next).0.Success? ==>
        && (r.Success? <==> ListByDate(rows, date).Success?)
        && (r.Success? ==> r.value == ListByDate(rows, date).value)
        && (r.Failure? ==> r.error == MalformedPayload)
    {
      var h := InitNativeDB(next);
      if h.Failure? {
        return Failure(h.error);
      }
      var listed := ListByDate(rows, date);
      if listed.Failure? {
        return Failure(MalformedPayload);
      }
      r := Success(listed.value);
    }

    /** Native `deleteMeal`: `DELETE ... WHERE id = ?`; the rowid counter is kept. */
    method DeleteMeal(next: OpenOutcome, id: int) returns (err: Option<DbError>)
      requires Valid()
      modifies this
      ensures Valid()
      ensures db == Connect(old(db), next).1 && settings == old(settings)
      ensures lastRowId == old(lastRowId) && issued == old(issued)
      ensures Connect(old(db), next).0.Failure? ==>
        err == Some(Connect(old(db), next).0.error) && rows == old(rows)
      ensures Connect(old(db), next).0.Success? ==>
        err == None && rows == RemoveId(old(rows), id)
    {
      var h := InitNativeDB(next);
      if h.Failure? {
        return Some(h.error);
      }
      RemoveIdKeepsOrder(rows, id);
      rows := RemoveId(rows, id);
      err := None;
    }
  }

  /** Every id in `rows` exceeds `x`. */
  predicate Above(rows: seq<StoredMeal>, x: int) {
    forall m | m in rows :: x < m.id
  }

  /** Ids strictly increase along the table: rowid order. */
  predicate Ascending(rows: seq<StoredMeal>) {
    rows == [] || (Above(rows[1..], rows[0].id) && Ascending(rows[1..]))
  }

  /** Deleting rows keeps the table in rowid order. */
  lemma {:induction false} RemoveIdKeepsOrder(rows: seq<StoredMeal>, id: int)
    requires Ascending(rows)
    ensures Ascending(RemoveId(rows, id))
    decreases |rows|
  {
    if rows != [] {
      RemoveIdKeepsOrder(rows[1..], id);
      var r := RemoveId(rows, id);
      if rows[0].id != id {
        assert r[0] == rows[0] && r[1..] == RemoveId(rows[1..], id);
        assert Above(r[1..], rows[0].id);
      } else {
        assert r == RemoveId(rows[1..], id);
      }
    }
  }

  /** Appending a row whose id exceeds every stored id keeps the table in rowid order. */
  lemma {:induction false} AppendKeepsOrder(rows: seq<StoredMeal>, m: StoredMeal)
    requires Ascending(rows)
    requires forall r | r in rows :: r.id < m.id
    ensures Ascending(rows + [m])
    decreases |rows|
  {
    if rows != [] {
      assert (rows + [m])[1..] == rows[1..] + [m];
      AppendKeepsOrder(rows[1..], m);
    } else {
      assert rows + [m] == [m];
      assert [m][1..] == [];
    }
  }
}
