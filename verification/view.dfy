/** The application wiring: the creation forms, and the rows' buttons connected
    to the mutation functions, with each row's edit mode driven by what the
    update call returns. */
module View {
  import opened Domain
  import Resolution
  import IngredientItem
  import RecipeItem
  import Store

  /** The recipe form's Create button: creates a recipe from the form's fields
      and clears the form. */
  function SubmitRecipeForm(a: Store.App, after: Store.Server): (o: Store.Outcome)
    ensures o.sent == Store.PostRecipe(a.newRecipeName, 0, a.newRecipeCost, [])
    ensures o.app.recipes == after.recipes && o.app.ingredients == a.ingredients
    ensures o.app.newRecipeName == "" && o.app.newRecipeCost == 0
    ensures o.app.newIngredientName == a.newIngredientName
  {
    Store.Dispatch(a, CreateRecipe(a.newRecipeName, a.newRecipeCost), after, false)
  }

  /** The ingredient form's Create button: creates an ingredient named by the
      form and clears the name (the button does that, not `createIngredient`). */
  function SubmitIngredientForm(a: Store.App, after: Store.Server): (o: Store.Outcome)
    ensures o.sent == Store.PostIngredient(a.newIngredientName)
    ensures o.app.ingredients == after.ingredients && o.app.recipes == a.recipes
    ensures o.app.newIngredientName == ""
    ensures o.app.newRecipeName == a.newRecipeName && o.app.newRecipeCost == a.newRecipeCost
  {
    var o := Store.Dispatch(a, CreateIngredient(a.newIngredientName), after, false);
    o.(app := o.app.(newIngredientName := ""))
  }

  /** An ingredient row's Edit/Save button together with the call it makes. */
  datatype IngredientClick = IngredientClick(app: Store.App, session: IngredientItem.Session, sent: Option<Store.Request>)

  function ClickIngredientRow(a: Store.App, s: IngredientItem.Session, prop: Ingredient,
                              after: Store.Server, status: bool): (r: IngredientClick)
    ensures s.mode == IngredientItem.Viewing ==>
              r == IngredientClick(a, IngredientItem.Session(IngredientItem.Editing, s.draft), None)
    ensures s.mode == IngredientItem.Editing ==>
              && r.sent == Some(Store.PutIngredient(prop._id, IngredientPatch(s.draft)))
              && r.app.ingredients == after.ingredients
              && r.app.recipes == a.recipes
              && (r.session.mode == IngredientItem.Viewing <==> status)
              && r.session.draft == s.draft
  {
    if s.mode == IngredientItem.Editing then
      var o := Store.Dispatch(a, UpdateIngredient(prop._id, IngredientPatch(s.draft)), after, status);
      var row := IngredientItem.OnToggle(s, prop, o.ok.value);
      IngredientClick(o.app, row.session, Some(o.sent))
    else
      IngredientClick(a, IngredientItem.OnToggle(s, prop, status).session, None)
  }

  /** When the server takes the new name, the saved row, re-rendered from the
      reloaded snapshot, shows the name that was typed. */
  lemma SavedIngredientShowsDraft(a: Store.App, s: IngredientItem.Session, prop: Ingredient, after: Store.Server)
    requires s.mode == IngredientItem.Editing
    requires Resolution.Find(after.ingredients, prop._id) == Some(Ingredient(prop._id, s.draft))
    ensures var r := ClickIngredientRow(a, s, prop, after, true);
            var shown := Resolution.Find(r.app.ingredients, prop._id);
            && r.session.mode == IngredientItem.Viewing
            && shown.Some?
            && IngredientItem.Shown(r.session, shown.value) == s.draft
  {
  }

  /** A recipe row's Edit/Save button together with the call it makes. */
  datatype RecipeClick = RecipeClick(app: Store.App, session: RecipeItem.Session, sent: Option<Store.Request>)

  function ClickRecipeRow(a: Store.App, s: RecipeItem.Session, prop: Recipe, parse: string -> int,
                          after: Store.Server, status: bool): (r: RecipeClick)
    ensures s.mode == RecipeItem.Viewing ==> r.app == a && r.sent == None && r.session.mode == RecipeItem.Editing
    ensures s.mode == RecipeItem.Editing ==>
              && r.sent == Some(Store.PutRecipe(prop._id, RecipePatch(s.draftName, parse(s.draftCost))))
              && r.app.recipes == after.recipes
              && r.app.ingredients == a.ingredients
              && (r.session.mode == RecipeItem.Viewing <==> status)
    ensures r.session == s.(mode := r.session.mode)
  {
    if s.mode == RecipeItem.Editing then
      var o := Store.Dispatch(a, UpdateRecipe(prop._id, RecipePatch(s.draftName, parse(s.draftCost))), after, status);
      var row := RecipeItem.OnToggle(s, prop, parse, o.ok.value);
      RecipeClick(o.app, row.session, Some(o.sent))
    else
      RecipeClick(a, RecipeItem.OnToggle(s, prop, parse, status).session, None)
  }

  /** A recipe row's Add button: with the placeholder selected nothing is sent
      and nothing reloads; otherwise the reference is added and recipes reload. */
  function AddFromRow(a: Store.App, s: RecipeItem.Session, prop: Recipe, after: Store.Server):
    (r: (Store.App, RecipeItem.Session, Option<Store.Request>))
    ensures s.selected == "" ==> r == (a, s, None)
    ensures s.selected != "" ==>
              && r.2 == Some(Store.PutAddIngredient(prop._id, s.selected))
              && r.0.recipes == after.recipes && r.0.ingredients == a.ingredients
              && r.1 == s.(selected := "")
  {
    var row := RecipeItem.OnAdd(s, prop);
    match row.call
    case None => (a, row.session, None)
    case Some(c) =>
      var o := Store.Dispatch(a, c, after, false);
      (o.app, row.session, Some(o.sent))
  }

  /** Deleting an ingredient reloads only the ingredients: every recipe keeps
      its `ingredientsId`, possibly still naming the deleted id, yet no recipe
      row lists the deleted ingredient any more. */
  lemma DeletedIngredientDisappears(a: Store.App, d: string, after: Store.Server, status: bool)
    requires forall x :: x in after.ingredients ==> x._id != d
    ensures var o := Store.Dispatch(a, DeleteIngredient(d), after, status);
            && o.sent == Store.DeleteIngredientAt(d)
            && o.app.recipes == a.recipes
            && forall r, x :: r in o.app.recipes && x in Resolution.Resolve(r.ingredientsId, o.app.ingredients) ==> x._id != d
  {
    var o := Store.Dispatch(a, DeleteIngredient(d), after, status);
    forall r, x | r in o.app.recipes && x in Resolution.Resolve(r.ingredientsId, o.app.ingredients)
      ensures x._id != d
    {
      Resolution.ResolveSound(r.ingredientsId, o.app.ingredients);
    }
  }

  /** Deleting a recipe is the one mutation that reloads both collections, in
      the order recipes then ingredients. */
  lemma DeleteRecipeReloadsBoth(a: Store.App, prop: Recipe, after: Store.Server, status: bool)
    ensures var o := Store.Dispatch(a, RecipeItem.OnDelete(prop), after, status);
            && o.sent == Store.DeleteRecipeAt(prop._id)
            && o.refetched == [Store.Recipes, Store.Ingredients]
            && Store.InSync(o.app, after)
  {
  }
}
