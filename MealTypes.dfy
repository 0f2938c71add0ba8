/** The records of the meal planner: recipes, the rows of the weekly plan table and the per-day
  * settings. Fields the database may hand back as `null` although the interface declares them
  * are `Option`s, so that the `||` defaults of the screens can be stated. */
module MealTypes {
  import opened Wrappers

  datatype Frequency = Biweekly | Monthly | Quarterly | NoFrequency
  datatype Category = MainDish | SideDish | SoupDish

  /** A work day (cooked quickly) or a home day. */
  datatype DayType = Work | Home

  function Flip(t: DayType): (r: DayType)
    ensures r != t
  {
    if t == Work then Home else Work
  }

  /** One entry of a recipe's arrangement log. */
  datatype Arrangement = Arrangement(date: string, text: string)

  /** The array object holding a recipe's arrangement log; it is shared with whoever holds the
    * recipe, so a push through one holder is seen by every other. */
  class ArrangementLog {
    var entries: seq<Arrangement>

    constructor(entries: seq<Arrangement>)
      ensures this.entries == entries
    {
      this.entries := entries;
    }
  }

  datatype Recipe = Recipe(
    id: string,
    name: string,
    url: Option<string>,
    frequency: Option<Frequency>,
    childRating: int,
    memo: Option<string>,
    category: Option<Category>,
    ingredients: Option<seq<string>>,
    workDuration: Option<int>,
    arrangements: Option<ArrangementLog>,
    rating: Option<int>,
    isHibernating: Option<bool>)

  /** A row of the weekly plan: which recipe is planned for which slot of which day. The slot
    * type is kept as the text written to the table. */
  datatype PlanItem = PlanItem(id: string, recipeId: string, slotType: string, date: string, dayType: DayType)

  datatype DaySetting = DaySetting(date: string, dayType: DayType)
}
