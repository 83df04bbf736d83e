/** One row of the ingredient list: an edit toggle with a name draft, a delete
    button, and the text the row shows. The draft is component state created
    once when the row mounts; it is neither re-seeded on entering Editing nor
    cleared after a successful save. */
module IngredientItem {
  import opened Domain

  datatype Mode = Viewing | Editing

  /** The row's local state: `editMode` and the `name` draft. */
  datatype Session = Session(mode: Mode, draft: string)

  /** What a row event leaves behind: the new state and the application
      callback it invoked, if any. */
  datatype Reaction = Reaction(session: Session, call: Option<Command>)

  /** A user action on the row. `Toggle` is the Edit/Save button; `accepted` is
      the `ok` flag the update call resolves to, and only matters when the
      button saves. */
  datatype Action = Type(text: string) | Toggle(accepted: bool) | Delete

  /** An action together with the ingredient the row is showing at that time
      (a refetch may have replaced it since the row mounted). */
  datatype Event = Event(prop: Ingredient, action: Action)

  /** The state a freshly mounted row starts in: viewing, with the draft
      seeded from the ingredient's name. */
  function Mount(ingredient: Ingredient): (r: Session)
    ensures r.mode == Viewing && r.draft == ingredient.name
  {
    Session(Viewing, ingredient.name)
  }

  /** The name the row displays: the committed name while viewing, the draft
      while editing. */
  function Shown(s: Session, prop: Ingredient): (r: string)
    ensures s.mode == Viewing ==> r == prop.name
    ensures s.mode == Editing ==> r == s.draft
  {
    match s.mode
    case Viewing => prop.name
    case Editing => s.draft
  }

  /** Typing into the name input; the input only exists while editing. */
  function OnType(s: Session, text: string): (r: Session)
    ensures r.mode == s.mode
    ensures r.draft == if s.mode == Editing then text else s.draft
  {
    if s.mode == Editing then s.(draft := text) else s
  }

  /** The Edit/Save button. In Viewing it only enters Editing; in Editing it
      sends the draft as the new name and leaves Editing exactly when the
      update reports success. The draft is never touched. */
  function OnToggle(s: Session, prop: Ingredient, accepted: bool): (r: Reaction)
    ensures r.session.draft == s.draft
    ensures r.call.Some? <==> s.mode == Editing
    ensures r.call.Some? ==> r.call.value == UpdateIngredient(prop._id, IngredientPatch(s.draft))
    ensures r.session.mode == Viewing <==> s.mode == Editing && accepted
  {
    if s.mode == Editing then
      Reaction(if accepted then s.(mode := Viewing) else s,
               Some(UpdateIngredient(prop._id, IngredientPatch(s.draft))))
    else
      Reaction(s.(mode := Editing), None)
  }

  /** The delete button, present in both modes. */
  function OnDelete(prop: Ingredient): (c: Command)
    ensures c.DeleteIngredient? && c.id == prop._id
  {
    DeleteIngredient(prop._id)
  }

  /** One event: typing and the Edit button call nothing, Save calls the
      update and the delete button calls the delete, both for the shown
      ingredient's `_id`. */
  function Step(s: Session, e: Event): (r: Reaction)
    ensures r.call.Some? <==> e.action.Delete? || (e.action.Toggle? && s.mode == Editing)
    ensures r.call.Some? ==> r.call.value == DeleteIngredient(e.prop._id)
                             || r.call.value == UpdateIngredient(e.prop._id, IngredientPatch(s.draft))
    ensures e.action.Delete? ==> r.session == s
  {
    match e.action
    case Type(text) => Reaction(OnType(s, text), None)
    case Toggle(accepted) => OnToggle(s, e.prop, accepted)
    case Delete => Reaction(s, Some(OnDelete(e.prop)))
  }

  /** The calls an event sequence makes, in order, and the state it ends in. */
  datatype Trace = Trace(session: Session, calls: seq<Command>)

  function Run(s: Session, events: seq<Event>): (t: Trace)
    decreases |events|
  {
    if |events| == 0 then Trace(s, [])
    else
      var r := Step(s, events[0]);
      var rest := Run(r.session, events[1..]);
      Trace(rest.session, (if r.call.Some? then [r.call.value] else []) + rest.calls)
  }

  // ---------------------------------------------------------------------------

  /** Entering edit mode and saving at once sends the name the row had when it
      mounted, even if a refetch has renamed the ingredient since; the row is
      back in Viewing exactly when the update succeeded. */
  lemma EditThenSave(mounted: Ingredient, current: Ingredient, accepted: bool)
    requires current._id == mounted._id
    ensures var t := Run(Mount(mounted), [Event(current, Toggle(true)), Event(current, Toggle(accepted))]);
            && t.calls == [UpdateIngredient(mounted._id, IngredientPatch(mounted.name))]
            && (t.session.mode == Viewing <==> accepted)
            && t.session.draft == mounted.name
  {
    var e := [Event(current, Toggle(true)), Event(current, Toggle(accepted))];
    var editing := Step(Mount(mounted), e[0]).session;
    assert e[1..] == [e[1]] && e[1..][1..] == [];
    assert Run(editing, e[1..]) == Trace(Step(editing, e[1]).session, [Step(editing, e[1]).call.value]);
  }

  /** A failed save leaves the row editing with the same draft, so pressing
      Save again sends the identical update. */
  lemma FailedSaveRetriesSameUpdate(s: Session, prop: Ingredient, accepted: bool)
    requires s.mode == Editing
    ensures var r1 := OnToggle(s, prop, false);
            var r2 := OnToggle(r1.session, prop, accepted);
            && r1.session == s
            && r2.call == r1.call
  {
  }

  /** A draft survives a successful save: the next edit starts from what was
      last typed, not from the committed name. */
  lemma DraftNotReseeded(s: Session, prop: Ingredient, later: Ingredient)
    requires s.mode == Editing
    ensures var saved := OnToggle(s, prop, true).session;
            var reopened := OnToggle(saved, later, true).session;
            && saved.mode == Viewing
            && reopened.mode == Editing
            && Shown(reopened, later) == s.draft
  {
  }

  /** Only typing changes the draft: any run of events without a `Type` keeps
      it. */
  lemma {:induction false} RunKeepsDraftWithoutTyping(s: Session, events: seq<Event>)
    requires forall i :: 0 <= i < |events| ==> !events[i].action.Type?
    ensures Run(s, events).session.draft == s.draft
    decreases |events|
  {
    if |events| > 0 {
      RunKeepsDraftWithoutTyping(Step(s, events[0]).session, events[1..]);
    }
  }

  /** A row only ever addresses its own ingredient: while its key `_id` stays
      `id`, every call it makes is a delete or an update of `id`. */
  lemma {:induction false} RunCallsOwnIngredient(s: Session, events: seq<Event>, id: string)
    requires forall i :: 0 <= i < |events| ==> events[i].prop._id == id
    ensures forall c :: c in Run(s, events).calls ==>
              c == DeleteIngredient(id) || (c.UpdateIngredient? && c.id == id)
    decreases |events|
  {
    if |events| > 0 {
      RunCallsOwnIngredient(Step(s, events[0]).session, events[1..], id);
    }
  }
}
