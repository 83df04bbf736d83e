/** The entities the client exchanges with the recipe server, under their wire
    field names, and the calls an item component makes on the application. */
module Domain {

  /** The conventional Some/None datatype; `None` stands for JavaScript's
      `undefined` (what `Array.prototype.find` returns when nothing matches). */
  datatype Option<+T> = None | Some(value: T)

  /** An ingredient as the server lists it. */
  datatype Ingredient = Ingredient(_id: string, name: string)

  /** A recipe as the server lists it. Costs are integer cents: the client's
      floating-point arithmetic on costs is not part of this model. */
  datatype Recipe = Recipe(
    _id: string,
    name: string,
    time_preparation: int,
    aproxim_cost: int,
    ingredientsId: seq<string>)

  /** The partial ingredient an ingredient row sends on save. */
  datatype IngredientPatch = IngredientPatch(name: string)

  /** The partial recipe a recipe row sends on save. */
  datatype RecipePatch = RecipePatch(name: string, aproxim_cost: int)

  /** One invocation of a callback that the application hands to its rows and
      forms; each constructor names the application function it calls. */
  datatype Command =
    | CreateRecipe(name: string, cost: int)
    | DeleteRecipe(id: string)
    | UpdateRecipe(id: string, recipePatch: RecipePatch)
    | AddIngredientToRecipe(recipeId: string, ingredientId: string)
    | RemoveIngredientFromRecipe(recipeId: string, ingredientId: string)
    | CreateIngredient(ingredientName: string)
    | DeleteIngredient(id: string)
    | UpdateIngredient(id: string, ingredientPatch: IngredientPatch)
  {
    /** The two update calls are the only ones whose caller awaits a result. */
    predicate IsUpdate() {
      UpdateRecipe? || UpdateIngredient?
    }
  }
}
