/** The application's two collection snapshots and its mutation functions.
    Every mutation sends one request and waits for it; once the request has
    completed it reloads the affected collection(s) from the server, replacing
    the local snapshot wholesale. A request that fails in transport is not
    modelled. The server itself is not modelled: a mutation is given the
    server's collections as the following reload sees them (`after`) and the
    success flag of the response (`status`). */
module Store {
  import opened Domain

  datatype Collection = Recipes | Ingredients

  /** What the two list endpoints return. */
  datatype Server = Server(recipes: seq<Recipe>, ingredients: seq<Ingredient>)

  /** The application's state: the two snapshots and the two creation forms. */
  datatype App = App(
    recipes: seq<Recipe>,
    ingredients: seq<Ingredient>,
    newRecipeName: string,
    newRecipeCost: int,
    newIngredientName: string)

  /** The state before anything has loaded. */
  function Initial(): (a: App)
    ensures a.recipes == [] && a.ingredients == []
    ensures a.newRecipeName == "" && a.newRecipeCost == 0 && a.newIngredientName == ""
  {
    App([], [], "", 0, "")
  }

  /** The request each mutation sends, with its body under the wire names. */
  datatype Request =
    | PostRecipe(name: string, time_preparation: int, aproxim_cost: int, ingredients: seq<string>)
    | DeleteRecipeAt(id: string)
    | PutRecipe(id: string, recipePatch: RecipePatch)
    | PutAddIngredient(recipeId: string, ingredientId: string)
    | PutRemoveIngredient(recipeId: string, ingredientId: string)
    | PostIngredient(ingredientName: string)
    | DeleteIngredientAt(id: string)
    | PutIngredient(id: string, ingredientPatch: IngredientPatch)

  /** The request a mutation sends. A new recipe always has no preparation
      time and no ingredients. */
  function RequestOf(c: Command): (r: Request)
    ensures c.CreateRecipe? ==> r == PostRecipe(c.name, 0, c.cost, [])
  {
    match c
    case CreateRecipe(name, cost) => PostRecipe(name, 0, cost, [])
    case DeleteRecipe(id) => DeleteRecipeAt(id)
    case UpdateRecipe(id, patch) => PutRecipe(id, patch)
    case AddIngredientToRecipe(r, i) => PutAddIngredient(r, i)
    case RemoveIngredientFromRecipe(r, i) => PutRemoveIngredient(r, i)
    case CreateIngredient(name) => PostIngredient(name)
    case DeleteIngredient(id) => DeleteIngredientAt(id)
    case UpdateIngredient(id, patch) => PutIngredient(id, patch)
  }

  /** Reads a request back as the call that produced it; recipe creations
      with a preparation time or ingredients are not produced by any call. */
  function CommandOf(r: Request): (c: Option<Command>) {
    match r
    case PostRecipe(name, time, cost, ids) =>
      if time == 0 && ids == [] then Some(CreateRecipe(name, cost)) else None
    case DeleteRecipeAt(id) => Some(DeleteRecipe(id))
    case PutRecipe(id, patch) => Some(UpdateRecipe(id, patch))
    case PutAddIngredient(r, i) => Some(AddIngredientToRecipe(r, i))
    case PutRemoveIngredient(r, i) => Some(RemoveIngredientFromRecipe(r, i))
    case PostIngredient(name) => Some(CreateIngredient(name))
    case DeleteIngredientAt(id) => Some(DeleteIngredient(id))
    case PutIngredient(id, patch) => Some(UpdateIngredient(id, patch))
  }

  /** The request carries everything the call was given. */
  lemma RequestRoundTrip(c: Command)
    ensures CommandOf(RequestOf(c)) == Some(c)
  {
  }

  /** The collections a mutation reloads: deleting a recipe reloads both,
      every other mutation only its own collection. */
  function Refreshes(c: Command): (ks: set<Collection>)
    ensures Recipes in ks <==> !(c.CreateIngredient? || c.DeleteIngredient? || c.UpdateIngredient?)
    ensures Ingredients in ks <==> (c.DeleteRecipe? || c.CreateIngredient? || c.DeleteIngredient? || c.UpdateIngredient?)
  {
    match c
    case DeleteRecipe(_) => {Recipes, Ingredients}
    case CreateRecipe(_, _) => {Recipes}
    case UpdateRecipe(_, _) => {Recipes}
    case AddIngredientToRecipe(_, _) => {Recipes}
    case RemoveIngredientFromRecipe(_, _) => {Recipes}
    case CreateIngredient(_) => {Ingredients}
    case DeleteIngredient(_) => {Ingredients}
    case UpdateIngredient(_, _) => {Ingredients}
  }

  /** The reloads a mutation issues, in the order it issues them. */
  function RefetchOrder(c: Command): (r: seq<Collection>)
    ensures forall k :: k in r <==> k in Refreshes(c)
    ensures |r| == |Refreshes(c)|
  {
    if c.DeleteRecipe? then [Recipes, Ingredients]
    else if c.CreateRecipe? || c.UpdateRecipe? || c.AddIngredientToRecipe? || c.RemoveIngredientFromRecipe? then [Recipes]
    else [Ingredients]
  }

  /** `fetchRecipes` / `fetchIngredients`: one snapshot replaced by the
      server's list, the other left alone. */
  function Refetch(a: App, k: Collection, s: Server): (r: App)
    ensures k == Recipes ==> r.recipes == s.recipes && r.ingredients == a.ingredients
    ensures k == Ingredients ==> r.ingredients == s.ingredients && r.recipes == a.recipes
    ensures r.newRecipeName == a.newRecipeName && r.newRecipeCost == a.newRecipeCost
    ensures r.newIngredientName == a.newIngredientName
  {
    match k
    case Recipes => a.(recipes := s.recipes)
    case Ingredients => a.(ingredients := s.ingredients)
  }

  /** A sequence of reloads against the same server state. */
  function RefetchAll(a: App, order: seq<Collection>, s: Server): (r: App)
    ensures r.recipes == if Recipes in order then s.recipes else a.recipes
    ensures r.ingredients == if Ingredients in order then s.ingredients else a.ingredients
    ensures r.newRecipeName == a.newRecipeName && r.newRecipeCost == a.newRecipeCost
    ensures r.newIngredientName == a.newIngredientName
    decreases |order|
  {
    if |order| == 0 then a
    else RefetchAll(Refetch(a, order[0], s), order[1..], s)
  }

  /** What a mutation leaves behind: the new state, the request sent, the
      reloads issued, and the result handed back to the caller (only the two
      updates return one). */
  datatype Outcome = Outcome(app: App, sent: Request, refetched: seq<Collection>, ok: Option<bool>)

  predicate Synced(a: App, s: Server, k: Collection) {
    match k
    case Recipes => a.recipes == s.recipes
    case Ingredients => a.ingredients == s.ingredients
  }

  predicate Kept(a: App, a': App, k: Collection) {
    match k
    case Recipes => a'.recipes == a.recipes
    case Ingredients => a'.ingredients == a.ingredients
  }

  /** One completed mutation (`createRecipe` … `updateIngredient`). The
      request is sent and answered before the reload, so the reload sees the
      server state `after`; updates return the response's success flag and
      reload whatever it is; creating a recipe also clears the recipe form. */
  function Dispatch(a: App, c: Command, after: Server, status: bool): (o: Outcome)
    ensures forall k :: k in Refreshes(c) ==> Synced(o.app, after, k)
    ensures forall k :: k !in Refreshes(c) ==> Kept(a, o.app, k)
    ensures o.ok.Some? <==> c.IsUpdate()
    ensures o.ok.Some? ==> o.ok.value == status
    ensures c.CreateRecipe? ==> o.sent == PostRecipe(c.name, 0, c.cost, [])
    ensures c.CreateRecipe? ==> o.app.newRecipeName == "" && o.app.newRecipeCost == 0
    ensures !c.CreateRecipe? ==> o.app.newRecipeName == a.newRecipeName && o.app.newRecipeCost == a.newRecipeCost
    ensures o.app.newIngredientName == a.newIngredientName
  {
    var synced := RefetchAll(a, RefetchOrder(c), after);
    var a' := if c.CreateRecipe? then synced.(newRecipeName := "", newRecipeCost := 0) else synced;
    Outcome(a', RequestOf(c), RefetchOrder(c), if c.IsUpdate() then Some(status) else None)
  }

  // ---------------------------------------------------------------------------

  /** The reload does not depend on whether an update was accepted. */
  lemma UpdateReloadsRegardless(a: App, c: Command, after: Server)
    requires c.IsUpdate()
    ensures Dispatch(a, c, after, true).app == Dispatch(a, c, after, false).app
    ensures Dispatch(a, c, after, true).refetched == Dispatch(a, c, after, false).refetched
  {
  }

  predicate InSync(a: App, s: Server) {
    Synced(a, s, Recipes) && Synced(a, s, Ingredients)
  }

  /** The server changed nothing outside the collections in `ks`. */
  predicate ChangedOnly(s: Server, s': Server, ks: set<Collection>) {
    && (Recipes !in ks ==> s'.recipes == s.recipes)
    && (Ingredients !in ks ==> s'.ingredients == s.ingredients)
  }

  /** Starting in sync, a mutation ends in sync exactly when the server's
      change stayed inside the collections that mutation reloads. A deleted
      ingredient that the server also strips from recipes, for instance,
      leaves the local recipes stale. */
  lemma DispatchKeepsSync(a: App, c: Command, before: Server, after: Server, status: bool)
    requires InSync(a, before)
    ensures InSync(Dispatch(a, c, after, status).app, after) <==> ChangedOnly(before, after, Refreshes(c))
  {
  }

  // ---------------------------------------------------------------------------
  // Sequences of mutations.

  /** One mutation with the server state its reload sees and its status. */
  datatype Step = Step(cmd: Command, after: Server, status: bool)

  function Replay(a: App, steps: seq<Step>): (r: App)
    decreases |steps|
  {
    if |steps| == 0 then a
    else Replay(Dispatch(a, steps[0].cmd, steps[0].after, steps[0].status).app, steps[1..])
  }

  /** Reference definition, read from the end: a snapshot is the collection as
      reloaded by the last mutation that reloads it, or the initial one. */
  function LastReload<T>(init: T, steps: seq<Step>, k: Collection, view: Server -> T): (r: T)
    decreases |steps|
  {
    if |steps| == 0 then init
    else
      var last := steps[|steps| - 1];
      if k in Refreshes(last.cmd) then view(last.after)
      else LastReload(init, steps[..|steps| - 1], k, view)
  }

  lemma {:induction false} ReplaySnoc(a: App, steps: seq<Step>, s: Step)
    ensures Replay(a, steps + [s]) == Dispatch(Replay(a, steps), s.cmd, s.after, s.status).app
    decreases |steps|
  {
    if |steps| == 0 {
      assert (steps + [s])[1..] == [];
    } else {
      assert (steps + [s])[1..] == steps[1..] + [s];
      ReplaySnoc(Dispatch(a, steps[0].cmd, steps[0].after, steps[0].status).app, steps[1..], s);
    }
  }

  /** No drift: after any sequence of mutations, each local snapshot is exactly
      the server's collection as last reloaded. */
  lemma {:induction false} ReplaySnapshots(a: App, steps: seq<Step>)
    ensures Replay(a, steps).recipes == LastReload(a.recipes, steps, Recipes, (s: Server) => s.recipes)
    ensures Replay(a, steps).ingredients == LastReload(a.ingredients, steps, Ingredients, (s: Server) => s.ingredients)
    decreases |steps|
  {
    if |steps| > 0 {
      var n := |steps| - 1;
      assert steps == steps[..n] + [steps[n]];
      ReplaySnoc(a, steps[..n], steps[n]);
      ReplaySnapshots(a, steps[..n]);
    }
  }

  /** In particular, after a non-empty run of ingredient mutations the local
      ingredients are the server's current ones, and the recipes are as they
      were. */
  lemma IngredientRunNoDrift(a: App, steps: seq<Step>)
    requires |steps| > 0
    requires forall i :: 0 <= i < |steps| ==> Refreshes(steps[i].cmd) == {Ingredients}
    ensures Replay(a, steps).ingredients == steps[|steps| - 1].after.ingredients
    ensures Replay(a, steps).recipes == a.recipes
  {
    ReplaySnapshots(a, steps);
    RecipesUntouched(a.recipes, steps);
  }

  lemma {:induction false} RecipesUntouched(init: seq<Recipe>, steps: seq<Step>)
    requires forall i :: 0 <= i < |steps| ==> Refreshes(steps[i].cmd) == {Ingredients}
    ensures LastReload(init, steps, Recipes, (s: Server) => s.recipes) == init
    decreases |steps|
  {
    if |steps| > 0 {
      RecipesUntouched(init, steps[..|steps| - 1]);
    }
  }
}
