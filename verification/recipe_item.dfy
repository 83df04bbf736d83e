/** One row of the recipe list: an edit toggle with name and cost drafts, a
    delete button, the resolved ingredient list with one remove button per
    entry, and an ingredient picker with an Add button. As for ingredient
    rows, the drafts are seeded once when the row mounts.

    Costs are integer cents; `fmt` stands for the two-decimal formatting that
    seeds the cost draft and `parse` for the parsing applied on save. */
module RecipeItem {
  import opened Domain
  import Resolution

  datatype Mode = Viewing | Editing

  /** The row's local state: `editMode`, the `name` and `aproximCost` drafts
      and the picker's `selectedIngredient` (`""` is the placeholder option). */
  datatype Session = Session(mode: Mode, draftName: string, draftCost: string, selected: string)

  datatype Reaction = Reaction(session: Session, call: Option<Command>)

  /** The header: the committed name and cost while viewing, the two inputs
      holding the drafts while editing. */
  datatype Header = Heading(name: string, cost: string) | Inputs(name: string, cost: string)

  /** A user action on the row. `Remove(k)` is the remove button of the k-th
      listed ingredient. */
  datatype Action =
    | TypeName(text: string)
    | TypeCost(text: string)
    | Toggle(accepted: bool)
    | Delete
    | Select(value: string)
    | Add
    | Remove(k: nat)

  /** An action with the recipe and the ingredient snapshot the row is showing
      at that time. */
  datatype Event = Event(prop: Recipe, all: seq<Ingredient>, action: Action)

  /** The state a freshly mounted row starts in: viewing, drafts seeded from
      the recipe's name and formatted cost, placeholder selected. */
  function Mount(recipe: Recipe, fmt: int -> string): (r: Session)
    ensures r.mode == Viewing && r.selected == ""
    ensures r.draftName == recipe.name && r.draftCost == fmt(recipe.aproxim_cost)
  {
    Session(Viewing, recipe.name, fmt(recipe.aproxim_cost), "")
  }

  function Shown(s: Session, prop: Recipe, fmt: int -> string): (h: Header)
    ensures h.Heading? <==> s.mode == Viewing
    ensures h.Heading? ==> h.name == prop.name && h.cost == fmt(prop.aproxim_cost)
    ensures h.Inputs? ==> h.name == s.draftName && h.cost == s.draftCost
  {
    match s.mode
    case Viewing => Heading(prop.name, fmt(prop.aproxim_cost))
    case Editing => Inputs(s.draftName, s.draftCost)
  }

  /** Typing into the name input, which only exists while editing. */
  function OnTypeName(s: Session, text: string): (r: Session)
    ensures r.mode == s.mode && r.selected == s.selected && r.draftCost == s.draftCost
    ensures r.draftName == if s.mode == Editing then text else s.draftName
  {
    if s.mode == Editing then s.(draftName := text) else s
  }

  /** Typing into the cost input, which only exists while editing. */
  function OnTypeCost(s: Session, text: string): (r: Session)
    ensures r.mode == s.mode && r.selected == s.selected && r.draftName == s.draftName
    ensures r.draftCost == if s.mode == Editing then text else s.draftCost
  {
    if s.mode == Editing then s.(draftCost := text) else s
  }

  /** The Edit/Save button. In Editing it sends the name draft and the parsed
      cost draft, and leaves Editing exactly when the update reports success;
      drafts and selection are never touched. */
  function OnToggle(s: Session, prop: Recipe, parse: string -> int, accepted: bool): (r: Reaction)
    ensures r.session.draftName == s.draftName && r.session.draftCost == s.draftCost
    ensures r.session.selected == s.selected
    ensures r.call.Some? <==> s.mode == Editing
    ensures r.call.Some? ==> r.call.value == UpdateRecipe(prop._id, RecipePatch(s.draftName, parse(s.draftCost)))
    ensures r.session.mode == Viewing <==> s.mode == Editing && accepted
  {
    if s.mode == Editing then
      Reaction(if accepted then s.(mode := Viewing) else s,
               Some(UpdateRecipe(prop._id, RecipePatch(s.draftName, parse(s.draftCost)))))
    else
      Reaction(s.(mode := Editing), None)
  }

  function OnDelete(prop: Recipe): (c: Command)
    ensures c.DeleteRecipe? && c.id == prop._id
  {
    DeleteRecipe(prop._id)
  }

  /** The picker's options: the placeholder, then every ingredient's `_id`. */
  function Options(all: seq<Ingredient>): (r: seq<string>)
    ensures |r| == |all| + 1 && r[0] == ""
    ensures forall k :: 0 <= k < |all| ==> r[k + 1] == all[k]._id
  {
    [""] + seq(|all|, k requires 0 <= k < |all| => all[k]._id)
  }

  /** Choosing an option of the picker; it is shown in both modes. */
  function OnSelect(s: Session, value: string): (r: Session)
    ensures r.selected == value
    ensures r.mode == s.mode && r.draftName == s.draftName && r.draftCost == s.draftCost
  {
    s.(selected := value)
  }

  /** The Add button: fires only for a non-empty selection and then resets the
      picker; with the placeholder selected nothing at all changes. */
  function OnAdd(s: Session, prop: Recipe): (r: Reaction)
    ensures r.call.Some? <==> s.selected != ""
    ensures r.call.Some? ==> r.call.value == AddIngredientToRecipe(prop._id, s.selected)
    ensures r.session == s.(selected := "")
  {
    if s.selected != "" then
      Reaction(s.(selected := ""), Some(AddIngredientToRecipe(prop._id, s.selected)))
    else
      Reaction(s, None)
  }

  /** The calls of the remove buttons, one per listed ingredient, in list order. */
  function RemoveButtons(prop: Recipe, all: seq<Ingredient>): (r: seq<Command>)
    ensures var listed := Resolution.Resolve(prop.ingredientsId, all);
            && |r| == |listed|
            && forall k :: 0 <= k < |r| ==> r[k] == RemoveIngredientFromRecipe(prop._id, listed[k]._id)
  {
    var listed := Resolution.Resolve(prop.ingredientsId, all);
    seq(|listed|, k requires 0 <= k < |listed| => RemoveIngredientFromRecipe(prop._id, listed[k]._id))
  }

  /** The calls a recipe row may make while its key `_id` stays `id`. */
  ghost predicate OwnCall(c: Command, id: string) {
    || c == DeleteRecipe(id)
    || (c.UpdateRecipe? && c.id == id)
    || (c.AddIngredientToRecipe? && c.recipeId == id && c.ingredientId != "")
    || (c.RemoveIngredientFromRecipe? && c.recipeId == id)
  }

  /** One event: typing, selecting and the Edit button call nothing; every
      call made is addressed to the shown recipe; only the edit toggle changes
      the mode. */
  function Step(s: Session, e: Event, parse: string -> int): (r: Reaction)
    ensures (e.action.TypeName? || e.action.TypeCost? || e.action.Select?) ==> r.call.None?
    ensures e.action.Toggle? ==> (r.call.Some? <==> s.mode == Editing)
    ensures (e.action.Delete? || e.action.Add? || e.action.Remove?) ==> r.session.mode == s.mode
    ensures r.call.Some? ==> OwnCall(r.call.value, e.prop._id)
  {
    match e.action
    case TypeName(text) => Reaction(OnTypeName(s, text), None)
    case TypeCost(text) => Reaction(OnTypeCost(s, text), None)
    case Toggle(accepted) => OnToggle(s, e.prop, parse, accepted)
    case Delete => Reaction(s, Some(OnDelete(e.prop)))
    case Select(value) => Reaction(OnSelect(s, value), None)
    case Add => OnAdd(s, e.prop)
    case Remove(k) =>
      var buttons := RemoveButtons(e.prop, e.all);
      Reaction(s, if k < |buttons| then Some(buttons[k]) else None)
  }

  datatype Trace = Trace(session: Session, calls: seq<Command>)

  function Run(s: Session, events: seq<Event>, parse: string -> int): (t: Trace)
    decreases |events|
  {
    if |events| == 0 then Trace(s, [])
    else
      var r := Step(s, events[0], parse);
      var rest := Run(r.session, events[1..], parse);
      Trace(rest.session, (if r.call.Some? then [r.call.value] else []) + rest.calls)
  }

  // ---------------------------------------------------------------------------

  /** Every remove button names a listed id of this recipe that belongs to an
      ingredient of the current snapshot. */
  lemma RemoveButtonsSound(prop: Recipe, all: seq<Ingredient>)
    ensures forall c :: c in RemoveButtons(prop, all) ==>
              && c.RemoveIngredientFromRecipe?
              && c.recipeId == prop._id
              && c.ingredientId in prop.ingredientsId
              && exists x :: x in all && x._id == c.ingredientId
  {
    var listed := Resolution.Resolve(prop.ingredientsId, all);
    Resolution.ResolveSound(prop.ingredientsId, all);
    forall c | c in RemoveButtons(prop, all)
      ensures c.ingredientId in prop.ingredientsId && exists x :: x in all && x._id == c.ingredientId
    {
      var k :| 0 <= k < |listed| && RemoveButtons(prop, all)[k] == c;
      assert listed[k] in listed;
    }
  }

  /** Entering edit mode and saving at once sends the name the row mounted
      with and the cost parsed back from its formatted mount-time cost, even
      if a refetch has changed the recipe since. */
  lemma EditThenSave(mounted: Recipe, current: Recipe, all: seq<Ingredient>,
                     fmt: int -> string, parse: string -> int, accepted: bool)
    requires current._id == mounted._id
    ensures var e := [Event(current, all, Toggle(true)), Event(current, all, Toggle(accepted))];
            var t := Run(Mount(mounted, fmt), e, parse);
            && t.calls == [UpdateRecipe(mounted._id, RecipePatch(mounted.name, parse(fmt(mounted.aproxim_cost))))]
            && (t.session.mode == Viewing <==> accepted)
  {
    var e := [Event(current, all, Toggle(true)), Event(current, all, Toggle(accepted))];
    var editing := Step(Mount(mounted, fmt), e[0], parse).session;
    assert e[1..] == [e[1]] && e[1..][1..] == [];
    assert Run(editing, e[1..], parse) == Trace(Step(editing, e[1], parse).session, [Step(editing, e[1], parse).call.value]);
  }

  /** A failed save leaves the row exactly as it was, so Save again sends the
      identical update. */
  lemma FailedSaveRetriesSameUpdate(s: Session, prop: Recipe, parse: string -> int, accepted: bool)
    requires s.mode == Editing
    ensures var r1 := OnToggle(s, prop, parse, false);
            var r2 := OnToggle(r1.session, prop, parse, accepted);
            && r1.session == s
            && r2.call == r1.call
  {
  }

  /** The drafts survive a successful save: after a reload the row shows the
      committed recipe, but editing again shows the last drafts rather than
      the committed name and cost. */
  lemma DraftsNotReseeded(s: Session, prop: Recipe, later: Recipe, fmt: int -> string, parse: string -> int)
    requires s.mode == Editing
    ensures var saved := OnToggle(s, prop, parse, true).session;
            var reopened := OnToggle(saved, later, parse, true).session;
            && Shown(saved, later, fmt) == Heading(later.name, fmt(later.aproxim_cost))
            && Shown(reopened, later, fmt) == Inputs(s.draftName, s.draftCost)
  {
  }

  /** Picking option `k` and pressing Add: the placeholder sends nothing; an
      ingredient sends its `_id`, unless that `_id` is itself empty. Either way
      the picker is back on the placeholder. */
  lemma SelectThenAdd(s: Session, prop: Recipe, all: seq<Ingredient>, k: nat)
    requires k <= |all|
    ensures var r := OnAdd(OnSelect(s, Options(all)[k]), prop);
            && r.session.selected == ""
            && (r.call.Some? <==> k > 0 && all[k - 1]._id != "")
            && (r.call.Some? ==> r.call.value == AddIngredientToRecipe(prop._id, all[k - 1]._id))
  {
  }

  /** Only typing changes the drafts. */
  lemma {:induction false} RunKeepsDraftsWithoutTyping(s: Session, events: seq<Event>, parse: string -> int)
    requires forall i :: 0 <= i < |events| ==> !events[i].action.TypeName? && !events[i].action.TypeCost?
    ensures Run(s, events, parse).session.draftName == s.draftName
    ensures Run(s, events, parse).session.draftCost == s.draftCost
    decreases |events|
  {
    if |events| > 0 {
      RunKeepsDraftsWithoutTyping(Step(s, events[0], parse).session, events[1..], parse);
    }
  }

  /** A row only addresses its own recipe, and never adds the empty id. */
  lemma {:induction false} RunCallsOwnRecipe(s: Session, events: seq<Event>, parse: string -> int, id: string)
    requires forall i :: 0 <= i < |events| ==> events[i].prop._id == id
    ensures forall c :: c in Run(s, events, parse).calls ==> OwnCall(c, id)
    decreases |events|
  {
    if |events| > 0 {
      RunCallsOwnRecipe(Step(s, events[0], parse).session, events[1..], parse, id);
    }
  }
}
