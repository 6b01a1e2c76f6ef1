/**
 * The nutrition payload that meal records carry: a list of food items,
 * their aggregated totals and a free-text description. A numeric field the
 * payload may lack (or hold as `undefined`/`null`) is an `Option<real>`.
 */
module Nutrition {
  import opened Base

  /** The eight numeric fields of a food item and of the payload's `total`. */
  datatype Totals = Totals(
    calories: Option<real>,
    protein: Option<real>,
    carbs: Option<real>,
    fats: Option<real>,
    sugar: Option<real>,
    fiber: Option<real>,
    sodium: Option<real>,
    cholesterol: Option<real>)

  datatype FoodItem = FoodItem(
    name: string,
    quantity: real,
    unit: string,
    nutrients: Totals,
    portion: string)

  datatype Analysis = Analysis(
    items: seq<FoodItem>,
    total: Option<Totals>,
    description: string)
}
