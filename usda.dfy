/**
 * The USDA FoodData Central client of `services/usda.js`: the query guard
 * and result shaping of `searchFoods`, the nutrient lookup by id and the
 * single-item meal payload built from a chosen food.
 *
 * The HTTP request is an oracle from the request (query and page size) to
 * the decoded response or a network error; building the URL is left to it.
 * Turning a number into text (the portion string) is a parameter as well.
 */
module Usda {
  import opened Base
  import opened Nutrition

  // ----- The response as the API sends it -------------------------------------------------

  datatype RawNutrient = RawNutrient(nutrientId: int, value: real)

  /** A search hit; every field the code defaults may be absent. */
  datatype RawFood = RawFood(
    fdcId: int,
    description: string,
    brandName: Option<string>,
    servingSize: Option<real>,
    servingSizeUnit: Option<string>,
    foodNutrients: Option<seq<RawNutrient>>)

  datatype Response = Response(ok: bool, status: int, foods: Option<seq<RawFood>>)

  datatype SearchRequest = SearchRequest(query: string, pageSize: int)

  datatype SearchError = NetworkError | ApiError(status: int)

  // ----- The shaped results ------------------------------------------------------------------

  datatype NutrientValues = NutrientValues(
    calories: real,
    protein: real,
    carbs: real,
    fats: real,
    fiber: real,
    sugar: real,
    sodium: real,
    cholesterol: real)

  datatype Food = Food(
    fdcId: int,
    name: string,
    brand: Option<string>,
    servingSize: real,
    servingSizeUnit: string,
    nutrients: NutrientValues)

  // The nutrient ids of the USDA database.
  const CaloriesId := 1008
  const ProteinId := 1003
  const CarbsId := 1005
  const FatId := 1004
  const FiberId := 1079
  const SugarId := 2000
  const SodiumId := 1093
  const CholesterolId := 1253

  const DefaultPageSize := 15

  // ----- The query guard -------------------------------------------------------------------

  /** The characters `String.prototype.trim` strips: white space and line terminators. */
  predicate IsTrimmed(c: char) {
    c == '\t' || c == '\n' || c == '\U{000B}' || c == '\U{000C}' || c == '\r' || c == ' ' ||
    c == '\U{00A0}' || c == '\U{1680}' || ('\U{2000}' <= c <= '\U{200A}') ||
    c == '\U{2028}' || c == '\U{2029}' || c == '\U{202F}' || c == '\U{205F}' ||
    c == '\U{3000}' || c == '\U{FEFF}'
  }

  function TrimStart(s: string): (r: string)
    ensures |r| <= |s| && r == s[|s| - |r|..]
    ensures r == [] || !IsTrimmed(r[0])
    ensures forall k | 0 <= k < |s| - |r| :: IsTrimmed(s[k])
    decreases |s|
  {
    if s != [] && IsTrimmed(s[0]) then TrimStart(s[1..]) else s
  }

  function TrimEnd(s: string): (r: string)
    ensures |r| <= |s| && r == s[..|r|]
    ensures r == [] || !IsTrimmed(r[|r| - 1])
    ensures forall k | |r| <= k < |s| :: IsTrimmed(s[k])
    decreases |s|
  {
    if s != [] && IsTrimmed(s[|s| - 1]) then TrimEnd(s[..|s| - 1]) else s
  }

  /** `s.trim()`: no white space is left at either end, and nothing is left of blank text. */
  function Trim(s: string): (r: string)
    ensures |r| <= |s|
    ensures r != [] ==> !IsTrimmed(r[0]) && !IsTrimmed(r[|r| - 1])
    ensures r == [] <==> Blank(s)
  {
    var t := TrimStart(s);
    var r := TrimEnd(t);
    assert r != [] ==> r[0] == t[0];
    r
  }

  /** `.length` counts UTF-16 code units: a character outside the BMP counts twice. */
  function Utf16Length(s: string): (n: nat)
    ensures |s| <= n <= 2 * |s|
    decreases |s|
  {
    if s == [] then 0 else (if s[0] as int >= 0x1_0000 then 2 else 1) + Utf16Length(s[1..])
  }

  /** `!query || query.trim().length < 2` */
  predicate TooShort(query: Option<string>) {
    query.None? || query.value == "" || Utf16Length(Trim(query.value)) < 2
  }

  predicate Blank(s: string) {
    forall k | 0 <= k < |s| :: IsTrimmed(s[k])
  }

  lemma {:induction false} TrimStartSkipsBlanks(pad: string, x: string)
    requires Blank(pad)
    ensures TrimStart(pad + x) == TrimStart(x)
    decreases |pad|
  {
    if pad == [] {
      assert pad + x == x;
    } else {
      assert (pad + x)[0] == pad[0];
      assert (pad + x)[1..] == pad[1..] + x;
      TrimStartSkipsBlanks(pad[1..], x);
    }
  }

  lemma {:induction false} TrimEndSkipsBlanks(x: string, pad: string)
    requires Blank(pad)
    ensures TrimEnd(x + pad) == TrimEnd(x)
    decreases |pad|
  {
    if pad == [] {
      assert x + pad == x;
    } else {
      var n := |pad| - 1;
      assert (x + pad)[|x + pad| - 1] == pad[n];
      assert (x + pad)[..|x + pad| - 1] == x + pad[..n];
      TrimEndSkipsBlanks(x, pad[..n]);
    }
  }

  /** Trimming strips blank padding on both sides and keeps the word between intact. */
  lemma TrimPaddedWord(pad1: string, w: string, pad2: string)
    requires Blank(pad1) && Blank(pad2)
    requires w != [] && !IsTrimmed(w[0]) && !IsTrimmed(w[|w| - 1])
    ensures Trim(pad1 + w + pad2) == w
  {
    assert pad1 + w + pad2 == pad1 + (w + pad2);
    TrimStartSkipsBlanks(pad1, w + pad2);
    assert (w + pad2)[0] == w[0];
    TrimEndSkipsBlanks(w, pad2);
  }

  /** One character between blanks is too short, and two are not. */
  lemma PaddedQueryGuard(pad1: string, w: string, pad2: string)
    requires Blank(pad1) && Blank(pad2)
    requires w != [] && !IsTrimmed(w[0]) && !IsTrimmed(w[|w| - 1])
    requires forall k | 0 <= k < |w| :: w[k] as int < 0x1_0000
    ensures TooShort(Some(pad1 + w + pad2)) <==> |w| < 2
  {
    TrimPaddedWord(pad1, w, pad2);
    BmpLength(w);
  }

  lemma {:induction false} BmpLength(s: string)
    requires forall k | 0 <= k < |s| :: s[k] as int < 0x1_0000
    ensures Utf16Length(s) == |s|
    decreases |s|
  {
    if s != [] {
      BmpLength(s[1..]);
    }
  }

  // ----- Result shaping ---------------------------------------------------------------------

  /** `foodNutrients.find(n => n.nutrientId === id)` */
  function Find(ns: seq<RawNutrient>, id: int): (r: Option<RawNutrient>)
    ensures r.Some? ==> r.value in ns && r.value.nutrientId == id
    ensures r.None? <==> forall k | 0 <= k < |ns| :: ns[k].nutrientId != id
    decreases |ns|
  {
    if ns == [] then None
    else if ns[0].nutrientId == id then Some(ns[0])
    else Find(ns[1..], id)
  }

  /** `getNutrient(id)`: the first matching entry's value to one decimal, else 0. */
  function GetNutrient(ns: seq<RawNutrient>, id: int): real {
    match Find(ns, id)
    case Some(n) => RoundTenth(n.value)
    case None => 0.0
  }

  /** The lookup reads the first entry with the id; a later entry with the same id is ignored. */
  lemma {:induction false} GetNutrientReadsFirstMatch(ns: seq<RawNutrient>, id: int, k: nat)
    requires k < |ns| && ns[k].nutrientId == id
    requires forall j | 0 <= j < k :: ns[j].nutrientId != id
    ensures GetNutrient(ns, id) == RoundTenth(ns[k].value)
    decreases k
  {
    if k > 0 {
      assert ns[0].nutrientId != id;
      GetNutrientReadsFirstMatch(ns[1..], id, k - 1);
    }
  }

  /** An absent nutrient reads as 0. */
  lemma AbsentNutrientIsZero(ns: seq<RawNutrient>, id: int)
    requires forall k | 0 <= k < |ns| :: ns[k].nutrientId != id
    ensures GetNutrient(ns, id) == 0.0
  {
  }

  /** The eight nutrients, each looked up by its own id. */
  function ExtractNutrients(ns: seq<RawNutrient>): (v: NutrientValues)
    ensures v.calories == GetNutrient(ns, CaloriesId) && v.protein == GetNutrient(ns, ProteinId)
    ensures v.carbs == GetNutrient(ns, CarbsId) && v.fats == GetNutrient(ns, FatId)
    ensures v.fiber == GetNutrient(ns, FiberId) && v.sugar == GetNutrient(ns, SugarId)
    ensures v.sodium == GetNutrient(ns, SodiumId) && v.cholesterol == GetNutrient(ns, CholesterolId)
  {
    NutrientValues(
      GetNutrient(ns, CaloriesId), GetNutrient(ns, ProteinId), GetNutrient(ns, CarbsId),
      GetNutrient(ns, FatId), GetNutrient(ns, FiberId), GetNutrient(ns, SugarId),
      GetNutrient(ns, SodiumId), GetNutrient(ns, CholesterolId))
  }

  /** Entries of other nutrients do not change any of the eight values. */
  lemma {:induction false} UnrelatedNutrientsIgnored(ns: seq<RawNutrient>, extra: RawNutrient)
    requires extra.nutrientId !in {CaloriesId, ProteinId, CarbsId, FatId, FiberId, SugarId, SodiumId, CholesterolId}
    ensures ExtractNutrients([extra] + ns) == ExtractNutrients(ns)
  {
    var s := [extra] + ns;
    assert s[1..] == ns;
  }

  /** One search hit with the code's defaults filled in. */
  function ShapeFood(f: RawFood): (r: Food)
    ensures r.fdcId == f.fdcId && r.name == f.description
    ensures r.brand.None? <==> f.brandName.None? || f.brandName.value == ""
    ensures r.brand.Some? ==> r.brand == f.brandName
    ensures r.servingSize == (if f.servingSize.None? || f.servingSize.value == 0.0 then 100.0 else f.servingSize.value)
    ensures r.servingSizeUnit == (if f.servingSizeUnit.None? || f.servingSizeUnit.value == "" then "g" else f.servingSizeUnit.value)
    ensures r.nutrients == ExtractNutrients(if f.foodNutrients.Some? then f.foodNutrients.value else [])
  {
    Food(
      f.fdcId,
      f.description,
      if f.brandName.Some? && f.brandName.value != "" then f.brandName else None,
      if f.servingSize.Some? && f.servingSize.value != 0.0 then f.servingSize.value else 100.0,
      if f.servingSizeUnit.Some? && f.servingSizeUnit.value != "" then f.servingSizeUnit.value else "g",
      ExtractNutrients(if f.foodNutrients.Some? then f.foodNutrients.value else []))
  }

  /** `(data.foods || []).map(...)` */
  function ShapeAll(foods: seq<RawFood>): (r: seq<Food>)
    ensures |r| == |foods|
    ensures forall k | 0 <= k < |foods| :: r[k] == ShapeFood(foods[k])
  {
    seq(|foods|, k requires 0 <= k < |foods| => ShapeFood(foods[k]))
  }

  /**
   * `searchFoods(query, pageSize)`: no request for a too-short query; a
   * network failure or a non-ok status is raised to the caller.
   */
  function SearchFoods(query: Option<string>, pageSize: Option<int>,
                       fetch: SearchRequest -> Result<Response, SearchError>): (r: Result<seq<Food>, SearchError>)
    ensures TooShort(query) ==> r == Success([])
    ensures !TooShort(query) ==>
      var req := SearchRequest(query.value, if pageSize.Some? then pageSize.value else DefaultPageSize);
      && (fetch(req).Failure? ==> r == Failure(fetch(req).error))
      && (fetch(req).Success? && !fetch(req).value.ok ==> r == Failure(ApiError(fetch(req).value.status)))
      && (fetch(req).Success? && fetch(req).value.ok ==>
            r == Success(ShapeAll(if fetch(req).value.foods.Some? then fetch(req).value.foods.value else [])))
  {
    if TooShort(query) then Success([])
    else
      var response :- fetch(SearchRequest(query.value, if pageSize.Some? then pageSize.value else DefaultPageSize));
      if !response.ok then Failure(ApiError(response.status))
      else Success(ShapeAll(if response.foods.Some? then response.foods.value else []))
  }

  /** A too-short query never reaches the network: the result does not depend on `fetch`. */
  lemma ShortQueryNeverFetches(query: Option<string>, pageSize: Option<int>,
                               fetch1: SearchRequest -> Result<Response, SearchError>,
                               fetch2: SearchRequest -> Result<Response, SearchError>)
    requires TooShort(query)
    ensures SearchFoods(query, pageSize, fetch1) == SearchFoods(query, pageSize, fetch2) == Success([])
  {
  }

  /** The request carries the query as typed, untrimmed, and page size 15 unless one is given. */
  lemma SearchSendsQueryAsTyped(query: string, fetch: SearchRequest -> Result<Response, SearchError>)
    requires !TooShort(Some(query))
    requires forall q | q != SearchRequest(query, DefaultPageSize) :: fetch(q).Failure?
    requires fetch(SearchRequest(query, DefaultPageSize)) == Success(Response(true, 200, None))
    ensures SearchFoods(Some(query), None, fetch) == Success([])
  {
  }

  // ----- formatFoodForMeal -------------------------------------------------------------------

  /**
   * The item's nutrients and the payload's total: calories, sodium and
   * cholesterol to the nearest unit, the rest to the nearest tenth.
   */
  function ScaledTotals(n: NutrientValues, servings: real): Totals {
    Totals(
      Some(Round(n.calories * servings) as real),
      Some(RoundTenth(n.protein * servings)),
      Some(RoundTenth(n.carbs * servings)),
      Some(RoundTenth(n.fats * servings)),
      Some(RoundTenth(n.sugar * servings)),
      Some(RoundTenth(n.fiber * servings)),
      Some(Round(n.sodium * servings) as real),
      Some(Round(n.cholesterol * servings) as real))
  }

  /** The number of servings when the caller passes none. */
  const DefaultServings := 1.0

  /** `servings = 1`: the servings given, or the default. */
  function ServingsOrDefault(servings: Option<real>): (n: real)
    ensures servings.None? ==> n == DefaultServings
    ensures servings.Some? ==> n == servings.value
  {
    if servings.Some? then servings.value else DefaultServings
  }

  /**
   * The payload for `servings` servings of `food` (one serving when none is
   * given); `numberText` renders a number as text.
   */
  function FormatFoodForMeal(food: Food, servings: Option<real>, numberText: real -> string): (a: Analysis)
    ensures |a.items| == 1
    ensures a.total == Some(a.items[0].nutrients)
    ensures a.items[0].nutrients == ScaledTotals(food.nutrients, ServingsOrDefault(servings))
    ensures a.items[0].name == food.name && a.items[0].quantity == ServingsOrDefault(servings)
    ensures a.items[0].unit == food.servingSizeUnit
    ensures a.items[0].portion == numberText(food.servingSize * ServingsOrDefault(servings)) + food.servingSizeUnit
    ensures a.description == food.name + " (" + a.items[0].portion + ")"
  {
    var totals := ScaledTotals(food.nutrients, ServingsOrDefault(servings));
    var portion := numberText(food.servingSize * ServingsOrDefault(servings)) + food.servingSizeUnit;
    Analysis([FoodItem(food.name, ServingsOrDefault(servings), food.servingSizeUnit, totals, portion)], Some(totals),
             food.name + " (" + portion + ")")
  }

  /** Calories, sodium and cholesterol are the scaled nutrient to within half a unit. */
  lemma ScaledUnitsAreNear(n: NutrientValues, servings: real)
    ensures Near(ScaledTotals(n, servings).calories, n.calories * servings, 0.5)
    ensures Near(ScaledTotals(n, servings).sodium, n.sodium * servings, 0.5)
    ensures Near(ScaledTotals(n, servings).cholesterol, n.cholesterol * servings, 0.5)
  {
    RoundNear(n.calories * servings);
    RoundNear(n.sodium * servings);
    RoundNear(n.cholesterol * servings);
  }

  /** Protein, carbs, fats, sugar and fiber are the scaled nutrient to within half a tenth. */
  lemma ScaledTenthsAreNear(n: NutrientValues, servings: real)
    ensures Near(ScaledTotals(n, servings).protein, n.protein * servings, 0.05)
    ensures Near(ScaledTotals(n, servings).carbs, n.carbs * servings, 0.05)
    ensures Near(ScaledTotals(n, servings).fats, n.fats * servings, 0.05)
    ensures Near(ScaledTotals(n, servings).sugar, n.sugar * servings, 0.05)
    ensures Near(ScaledTotals(n, servings).fiber, n.fiber * servings, 0.05)
  {
    RoundTenthNear(n.protein * servings);
    RoundTenthNear(n.carbs * servings);
    RoundTenthNear(n.fats * servings);
    RoundTenthNear(n.sugar * servings);
    RoundTenthNear(n.fiber * servings);
  }

  lemma RoundNear(x: real)
    ensures Near(Some(Round(x) as real), x, 0.5)
  {
  }

  lemma RoundTenthNear(x: real)
    ensures Near(Some(RoundTenth(x)), x, 0.05)
  {
  }

  /** A present value within `eps` of `x` (half-open, as rounding halves up). */
  predicate Near(v: Option<real>, x: real, eps: real) {
    v.Some? && x - eps < v.value <= x + eps
  }
}
