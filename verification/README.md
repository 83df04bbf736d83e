# Recipe and ingredient client: a Dafny model of its state-sync layer

This project models the client-side logic of a small browser app that manages
recipes and ingredients stored on a server. The model covers three parts:

- **Reference resolution.** A recipe row shows its ingredients by looking up each
  entry of `ingredientsId` in the current ingredient snapshot with `find` (first
  match by `_id`). It then drops the misses with `filter(Boolean)`. This is module
  `Resolution`, which keeps both stages.
- **Per-row edit sessions.** Each ingredient row and each recipe row has an
  `editMode` flag and draft fields. One button enters Editing, or in Editing it
  sends an update and returns to Viewing only when the update reports `ok`. The
  recipe row also has an ingredient picker whose Add button fires only for a
  non-empty selection. These are modules `IngredientItem` and `RecipeItem`.
- **Refetch after mutation.** Every mutation of the application sends one request
  and awaits it. Once the request completes, it reloads the affected collection(s)
  and replaces the local snapshot wholesale. Deleting a recipe reloads both
  collections. Every other mutation reloads only its own collection. This is module
  `Store`. Module `View` wires the rows and forms to the store.

Entity fields keep their wire names: `_id`, `name`, `time_preparation`,
`aproxim_cost` and `ingredientsId`. Costs are integer cents. The
two-decimal formatting that seeds a recipe's cost draft is a parameter `fmt`. The
parsing applied on save is a parameter `parse`.

The server is not modelled. A mutation takes two parameters: the server's
collections as the following reload sees them (`after`), and the response's
success flag (`status`). Rows take the update's `ok` result as a parameter
(`accepted`). The View functions connect that parameter to what the store returns.

Three behaviours of the code shape the row model:

- **Drafts are seeded once.** The drafts are `useState` values seeded when the row
  mounts (src/components/IngredientItem.tsx:10, src/components/RecipeItem.tsx:15-16).
  Nothing re-seeds them on entering Editing (IngredientItem.tsx:24,
  RecipeItem.tsx:40), and nothing clears them after a successful save
  (IngredientItem.tsx:23, RecipeItem.tsx:39). So a later edit starts from the last
  typed text. A save after a reload sends the mount-time values, not the reloaded
  ones.
- **Drafts always exist.** The drafts live for the whole lifetime of the row, in
  both modes. Only their inputs are limited to Editing: they are rendered only then
  (IngredientItem.tsx:14-18, RecipeItem.tsx:25-32), so typing is only possible
  while Editing.
- **Creation is not validated.** The Create buttons forward whatever the forms hold,
  including an empty name (src/App.tsx:203, src/App.tsx:218).

## Model

| member | source | states |
|---|---|---|
| Resolution.Find | src/App.tsx:61 | finds nothing exactly when no ingredient has the id; otherwise returns the ingredient at the earliest matching position |
| Resolution.Resolve | src/App.tsx:60-62 | never fails and yields at most one entry per listed id |
| Resolution.ResolveSingle | src/App.tsx:60-62 | one id resolves to its first match, or to nothing when it has none |
| Resolution.ResolveAppend | src/App.tsx:60-62 | relative order is kept: resolving a concatenation gives the concatenation of the resolutions |
| Resolution.UnknownIdDropped | src/App.tsx:60-62 | an id with no match is dropped silently wherever it is listed |
| Resolution.ResolveLength | src/App.tsx:60-62 | the length is exactly the number of listed ids that have a match |
| Resolution.ResolveMultiplicity | src/App.tsx:60-62 | no deduplication: a matched ingredient appears as often as its `_id` is listed |
| Resolution.ResolveMember | src/components/RecipeItem.tsx:19-21 | an ingredient is listed iff its `_id` is listed and it is that id's first match, so a later duplicate `_id` never shows |
| Resolution.ResolveSound | src/components/RecipeItem.tsx:19-21 | every listed ingredient belongs to the snapshot and its `_id` occurs in `ingredientsId` |
| Resolution.ResolveAfterDrop | src/components/RecipeItem.tsx:19-21 | taking every ingredient with `_id` d out of the snapshot drops exactly the entries with `_id` d from the resolved list |
| Resolution.ResolveDependsOnFirstMatches | src/components/RecipeItem.tsx:19-21 | the list is a pure function of the ids and each id's first match in the snapshot |
| IngredientItem.Mount | src/components/IngredientItem.tsx:9-10 | a new row starts in Viewing with the draft equal to `ingredient.name` |
| IngredientItem.Step | src/components/IngredientItem.tsx:17-24 | an event calls something iff it is Delete or a Save while Editing, and the call is the delete or the draft update for the shown ingredient's `_id` |
| IngredientItem.Shown | src/components/IngredientItem.tsx:14-18 | Viewing displays the committed `ingredient.name`; Editing displays the draft |
| IngredientItem.OnType | src/components/IngredientItem.tsx:17 | typing replaces the draft while Editing and changes nothing in Viewing, where the input does not exist |
| IngredientItem.OnToggle | src/components/IngredientItem.tsx:20-25 | an update is sent iff the row was Editing, and it carries exactly `(ingredient._id, {name: draft})`; the row ends in Viewing iff it was Editing and the update was ok; the draft is never touched |
| IngredientItem.OnDelete | src/components/IngredientItem.tsx:19 | delete dispatches `deleteIngredient(ingredient._id)` whatever the mode |
| IngredientItem.EditThenSave | src/components/IngredientItem.tsx:9-24 | from mount, Edit then Save sends the mount-time name even after a reload renamed the ingredient, and ends in Viewing iff ok |
| IngredientItem.FailedSaveRetriesSameUpdate | src/components/IngredientItem.tsx:23 | a failed save leaves the row unchanged in Editing, so a retry sends the identical update |
| IngredientItem.DraftNotReseeded | src/components/IngredientItem.tsx:10-24 | after a successful save, editing again shows the last draft, not the committed name |
| IngredientItem.RunKeepsDraftWithoutTyping | src/components/IngredientItem.tsx:10-24 | over any event sequence without typing, the draft stays as it was |
| IngredientItem.RunCallsOwnIngredient | src/components/IngredientItem.tsx:19-24 | every call a row makes is a delete or an update of its own `_id` |
| RecipeItem.Mount | src/components/RecipeItem.tsx:14-17 | a new row starts in Viewing with the drafts equal to `recipe.name` and the formatted cost, and the placeholder selected |
| RecipeItem.OnSelect | src/components/RecipeItem.tsx:59 | choosing an option sets the selection and nothing else, in either mode |
| RecipeItem.Step | src/components/RecipeItem.tsx:29-66 | typing and selecting call nothing; the toggle calls iff Editing; every call addresses the shown recipe and Add never sends `""` |
| RecipeItem.DraftsNotReseeded | src/components/RecipeItem.tsx:15-41 | after a successful save the row shows the reloaded recipe, and editing again shows the last drafts, not the committed name and cost |
| RecipeItem.Shown | src/components/RecipeItem.tsx:25-32 | Viewing shows the committed name and formatted cost; Editing shows the two drafts |
| RecipeItem.OnTypeName | src/components/RecipeItem.tsx:29 | typing a name changes only the name draft, and only while Editing |
| RecipeItem.OnTypeCost | src/components/RecipeItem.tsx:30 | typing a cost changes only the cost draft, and only while Editing |
| RecipeItem.OnToggle | src/components/RecipeItem.tsx:36-41 | an update is sent iff the row was Editing, and it carries `(recipe._id, {name, aproxim_cost: parse(cost draft)})`; the row ends in Viewing iff it was Editing and ok; drafts and selection are kept |
| RecipeItem.OnDelete | src/components/RecipeItem.tsx:35 | delete dispatches `deleteRecipe(recipe._id)` whatever the mode |
| RecipeItem.Options | src/components/RecipeItem.tsx:59-64 | the picker offers the placeholder `""` and then every ingredient's `_id` in snapshot order |
| RecipeItem.OnAdd | src/components/RecipeItem.tsx:65-66 | Add calls `addIngredientToRecipe(recipe._id, sel)` iff `sel != ""`; afterwards the selection is `""`; nothing else changes |
| RecipeItem.RemoveButtons | src/components/RecipeItem.tsx:51-54 | one remove button per resolved ingredient, in list order, each dispatching `removeIngredientFromRecipe(recipe._id, ing._id)` |
| RecipeItem.RemoveButtonsSound | src/components/RecipeItem.tsx:19-54 | every remove button names an id listed by the recipe that belongs to a snapshot ingredient |
| RecipeItem.EditThenSave | src/components/RecipeItem.tsx:14-41 | from mount, Edit then Save sends the mount-time name and `parse(fmt(mount-time cost))`, and ends in Viewing iff ok |
| RecipeItem.FailedSaveRetriesSameUpdate | src/components/RecipeItem.tsx:39 | a failed save leaves the row unchanged, so a retry sends the identical update |
| RecipeItem.SelectThenAdd | src/components/RecipeItem.tsx:59-66 | picking the placeholder and pressing Add sends nothing; picking an ingredient sends its `_id` unless that id is empty; the picker ends on the placeholder |
| RecipeItem.RunKeepsDraftsWithoutTyping | src/components/RecipeItem.tsx:15-41 | over any event sequence without typing, both drafts stay as they were |
| RecipeItem.RunCallsOwnRecipe | src/components/RecipeItem.tsx:35-66 | every call a row makes addresses its own recipe, and Add never sends an empty ingredient id |
| Store.Initial | src/App.tsx:119-123 | both snapshots start empty; the forms start as `""`, `0` and `""` |
| Store.RequestOf | src/App.tsx:142-147 | a new recipe is always submitted with `time_preparation = 0` and `ingredients = []` |
| Store.RequestRoundTrip | src/App.tsx:142-192 | each mutation's request can be read back as the exact call that produced it |
| Store.Refreshes | src/App.tsx:148-190 | recipes reload for every mutation except the three ingredient ones; ingredients reload for those three and for deleting a recipe |
| Store.RefetchOrder | src/App.tsx:148-190 | a mutation reloads exactly the collections in its refresh set, each once |
| Store.Refetch | src/App.tsx:128-135 | a reload replaces one snapshot by the server's list and leaves the rest of the state alone |
| Store.Dispatch | src/App.tsx:142-192 | after a completed mutation each refreshed snapshot equals the server's collection and the others are unchanged; updates return `res.ok`, other mutations nothing; creating a recipe sends the zero defaults and resets the form to `""`/`0` |
| Store.UpdateReloadsRegardless | src/App.tsx:157-192 | an update reloads the same collection with the same result whether or not it was accepted |
| Store.DispatchKeepsSync | src/App.tsx:142-192 | starting in sync, a mutation ends in sync iff the server changed nothing outside the collections it reloads |
| Store.ReplaySnapshots | src/App.tsx:128-192 | after any sequence of mutations each snapshot is the server's collection as last reloaded, or the initial one |
| Store.IngredientRunNoDrift | src/App.tsx:175-192 | after ingredient mutations the local ingredients equal the server's current ones and the recipes are untouched |
| View.SubmitRecipeForm | src/App.tsx:142-151 | the recipe form submits its name and cost with the defaults, reloads recipes and clears the form |
| View.SubmitIngredientForm | src/App.tsx:218 | the ingredient form submits its name, reloads ingredients and clears the name |
| View.ClickIngredientRow | src/App.tsx:33-36 | saving an ingredient row sends the draft, reloads ingredients, and leaves Editing iff the server answered ok |
| View.SavedIngredientShowsDraft | src/App.tsx:26-36 | when the server stored the draft, the saved row re-rendered from the reloaded snapshot shows the typed name |
| View.ClickRecipeRow | src/App.tsx:78-82 | saving a recipe row sends the drafts, reloads recipes, and leaves Editing iff ok; the drafts are kept |
| View.AddFromRow | src/App.tsx:107 | an empty selection sends and reloads nothing; otherwise the reference is added, recipes reload and the picker resets |
| View.DeletedIngredientDisappears | src/App.tsx:180-183 | deleting an ingredient leaves every recipe's `ingredientsId` alone, yet no recipe lists the deleted ingredient any more |
| View.DeleteRecipeReloadsBoth | src/App.tsx:152-156 | deleting a recipe reloads recipes, then ingredients, and leaves both snapshots equal to the server |

The inline `IngredientItem` and `RecipeItem` in src/App.tsx (lines 16-44 and 46-116)
are line-for-line copies of src/components/IngredientItem.tsx and
src/components/RecipeItem.tsx. One model covers both copies.

## Left out

- Failed requests: when a mutation's `fetch` rejects (src/App.tsx:143, 153, 158, 167, 172, 176, 181, 185), the source throws before reloading, skips the recipe form reset and returns no `ok`, so the row's `.then` never runs and the row keeps its state. A failing reload (`fetch` or `res.json()` at App.tsx:129-134) leaves that snapshot unchanged. The model covers completed requests only, so `Store.Dispatch`, `View.ClickIngredientRow` and `View.ClickRecipeRow` always reload.
- HTTP: URLs, methods, headers, `fetch` and JSON. A request is a value of `Store.Request`. The server is the `after`/`status` parameters.
- Server behaviour: what a create, delete, cascade or add/remove actually does to the server's collections is not visible in the client code.
- Concurrency: the reloads are not awaited, so responses of two quick actions may arrive out of order. The model runs each mutation and its reloads as one sequential step. A second click on Save while an update is pending is not modelled either.
- Floating point: `parseFloat`, `toFixed(2)` and `Number(...)` on costs. Costs are integer cents, and formatting and parsing are the abstract functions `fmt` and `parse`. A `NaN` from unparsable cost text is therefore not represented.
- The startup load in `useEffect` and React's hook and render mechanics. The JSX layout, CSS classes, button labels and the `<option>` text are also left out.
- Typing into the creation forms (App.tsx:201-202, 217) is not modelled. The forms only appear through the values they hold when submitted and through their reset.
