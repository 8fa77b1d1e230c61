/** The state machine of the idea-tracking page: the idea list, the add/edit
    form, and the storage slot that mirrors the list.

    Each handler is one atomic transition. A handler that calls `setIdeas`
    is followed by the write-through effect, which copies the new list into
    the storage slot. `isAdding` and `editingId` are independent fields:
    nothing keeps them exclusive. Fresh ids and timestamps are parameters. */
module Page {
  import opened Wrappers
  import opened VideoIdeas
  import opened IdeaList

  /** The page's state. `stored` is the storage slot under the page's key:
      `None` when nothing was ever saved, otherwise the saved list. */
  datatype State = State(
    ideas: seq<VideoIdea>,
    isAdding: bool,
    editingId: Option<string>,
    form: FormData,
    stored: Option<seq<VideoIdea>>)

  /** The stored copy equals the in-memory list. */
  predicate Synced(s: State)
  {
    s.stored == Some(s.ideas)
  }

  /** JavaScript truthiness of `editingId`: `null` and the empty string are
      falsy, every other string is truthy. */
  predicate InEditMode(editingId: Option<string>)
    ensures editingId.None? ==> !InEditMode(editingId)
    ensures editingId == Some("") ==> !InEditMode(editingId)
    ensures editingId.Some? && |editingId.value| > 0 ==> InEditMode(editingId)
  {
    editingId.Some? && editingId.value != ""
  }

  /** Whether the add/edit form, with its inputs and its Save and Cancel
      buttons, is rendered: `isAdding || editingId`. */
  predicate FormShown(s: State)
    ensures s.isAdding ==> FormShown(s)
    ensures InEditMode(s.editingId) ==> FormShown(s)
    ensures !s.isAdding && (s.editingId.None? || s.editingId == Some("")) ==> !FormShown(s)
  {
    s.isAdding || InEditMode(s.editingId)
  }

  // ----- persistence -----

  /** The write-through effect: the whole list replaces the stored value. */
  function Persist(s: State): (r: State)
    ensures Synced(r)
    ensures r.ideas == s.ideas && r.isAdding == s.isAdding
    ensures r.editingId == s.editingId && r.form == s.form
  {
    s.(stored := Some(s.ideas))
  }

  /** `setIdeas(list)` followed by the write-through effect it triggers. */
  function Commit(s: State, ideas: seq<VideoIdea>): (r: State)
    ensures r.ideas == ideas && Synced(r)
    ensures r.isAdding == s.isAdding && r.editingId == s.editingId && r.form == s.form
  {
    Persist(s.(ideas := ideas))
  }

  // ----- start-up -----

  /** The three example ideas used when nothing is stored. Each `createdAt`
      comes from its own clock reading, so each takes its own parameter. */
  function Seed(t1: string, t2: string, t3: string): (r: seq<VideoIdea>)
    ensures |r| == 3 && Ids(r) == ["1", "2", "3"] && DistinctIds(r)
    ensures r[0].createdAt == t1 && r[1].createdAt == t2 && r[2].createdAt == t3
  {
    [ VideoIdea("1", "10 Essential Running Form Tips for Beginners",
                "Cover proper posture, foot strike, arm movement, and breathing techniques",
                "Running Tips", High, Scripting, t1),
      VideoIdea("2", "Best Trail Running Shoes of 2024 - Comprehensive Review",
                "Test and review top 5 trail running shoes with different terrain tests",
                "Gear Reviews", High, Idea, t2),
      VideoIdea("3", "Marathon Training Plan: Week by Week Guide",
                "16-week marathon training program with weekly breakdowns",
                "Training Plans", Medium, Idea, t3) ]
  }

  /** The state before any effect has run: an empty list, no form, default fields. */
  function Initial(slot: Option<seq<VideoIdea>>): (s: State)
    ensures s.ideas == [] && s.stored == slot
    ensures !FormShown(s) && s.editingId == None && s.form == DefaultForm
  {
    State([], false, None, DefaultForm, slot)
  }

  /** The list the load effect chooses: the stored one verbatim, else the seed. */
  function Load(slot: Option<seq<VideoIdea>>, t1: string, t2: string, t3: string): (r: seq<VideoIdea>)
    ensures slot.Some? ==> r == slot.value
    ensures slot.None? ==> r == Seed(t1, t2, t3)
  {
    match slot
    case Some(l) => l
    case None => Seed(t1, t2, t3)
  }

  /** First render. The load effect reads the slot; then the write-through
      effect runs once with the initial empty list; then the loaded list is
      set and written through. The read happens before the empty write, so
      stored data survives start-up. */
  function Mount(slot: Option<seq<VideoIdea>>, t1: string, t2: string, t3: string): (s: State)
    ensures slot.Some? ==> s.ideas == slot.value
    ensures slot.None? ==> s.ideas == Seed(t1, t2, t3)
    ensures slot.None? ==> DistinctIds(s.ideas)
    ensures Synced(s)
    ensures !s.isAdding && s.editingId == None && s.form == DefaultForm
  {
    var s0 := Initial(slot);
    var loaded := Load(s0.stored, t1, t2, t3);
    var s1 := Persist(s0);
    Commit(s1, loaded)
  }

  // ----- handlers -----

  /** The "Add New Video Idea" button: only `isAdding` changes; an edit in
      progress stays in progress. */
  function StartAdd(s: State): (r: State)
    ensures r.isAdding
    ensures r.ideas == s.ideas && r.editingId == s.editingId
    ensures r.form == s.form && r.stored == s.stored
  {
    s.(isAdding := true)
  }

  /** A change in one form field. */
  function Input(s: State, e: FieldEdit): (r: State)
    ensures r.form == ApplyEdit(s.form, e)
    ensures r.ideas == s.ideas && r.isAdding == s.isAdding
    ensures r.editingId == s.editingId && r.stored == s.stored
  {
    s.(form := ApplyEdit(s.form, e))
  }

  /** `handleAdd`: the form becomes a new idea with the given id and time,
      placed first; the form is reset and `isAdding` cleared. `editingId` is
      not touched. No check is made that `id` is unused. */
  function Add(s: State, id: string, createdAt: string): (r: State)
    ensures |r.ideas| == |s.ideas| + 1 && r.ideas[1..] == s.ideas
    ensures r.ideas[0].id == id && r.ideas[0].createdAt == createdAt
    ensures FormOf(r.ideas[0]) == s.form
    ensures r.form == DefaultForm && !r.isAdding && r.editingId == s.editingId
    ensures Synced(r)
  {
    var r := Commit(s, [Create(id, s.form, createdAt)] + s.ideas);
    r.(form := DefaultForm, isAdding := false)
  }

  /** `handleEdit`: when an idea has this id, the first such idea's five
      fields are copied into the form and `editingId` is set; otherwise
      nothing changes. The list, `isAdding` and storage are never touched. */
  function Edit(s: State, id: string): (r: State)
    ensures HasId(s.ideas, id) ==> r.editingId == Some(id)
    ensures HasId(s.ideas, id) ==>
      exists k :: 0 <= k < |s.ideas| && r.form == FormOf(s.ideas[k])
                  && s.ideas[k].id == id && forall j :: 0 <= j < k ==> s.ideas[j].id != id
    ensures !HasId(s.ideas, id) ==> r == s
    ensures r.ideas == s.ideas && r.isAdding == s.isAdding && r.stored == s.stored
  {
    match Find(s.ideas, id)
    case None => s
    case Some(v) => s.(form := FormOf(v), editingId := Some(id))
  }

  /** `handleUpdate`: every idea whose id equals `editingId` receives the
      form's five fields and keeps its id and creation time; the others are
      unchanged. Then `editingId` is cleared and the form reset. `isAdding`
      is not touched. */
  function Update(s: State): (r: State)
    ensures |r.ideas| == |s.ideas|
    ensures forall i :: 0 <= i < |s.ideas| ==>
      r.ideas[i].id == s.ideas[i].id && r.ideas[i].createdAt == s.ideas[i].createdAt
    ensures forall i :: 0 <= i < |s.ideas| && Some(s.ideas[i].id) == s.editingId ==>
      FormOf(r.ideas[i]) == s.form
    ensures forall i :: 0 <= i < |s.ideas| && Some(s.ideas[i].id) != s.editingId ==>
      r.ideas[i] == s.ideas[i]
    ensures r.editingId == None && r.form == DefaultForm && r.isAdding == s.isAdding
    ensures Synced(r)
  {
    var r := Commit(s, UpdateMatching(s.ideas, s.editingId, s.form));
    r.(editingId := None, form := DefaultForm)
  }

  /** `handleDelete`: the ideas with a different id, in their order. The form
      state is not touched. */
  function Delete(s: State, id: string): (r: State)
    ensures forall x :: x in r.ideas <==> x in s.ideas && x.id != id
    ensures |r.ideas| == |s.ideas| - Count(s.ideas, id)
    ensures !HasId(s.ideas, id) ==> r.ideas == s.ideas
    ensures r.isAdding == s.isAdding && r.editingId == s.editingId && r.form == s.form
    ensures Synced(r)
  {
    Commit(s, Without(s.ideas, id))
  }

  /** `handleCancel`: leaves both modes and resets the form. */
  function Cancel(s: State): (r: State)
    ensures !r.isAdding && r.editingId == None && r.form == DefaultForm
    ensures !FormShown(r)
    ensures r.ideas == s.ideas && r.stored == s.stored
  {
    s.(isAdding := false, editingId := None, form := DefaultForm)
  }

  /** The form's submit button: `editingId ? handleUpdate : handleAdd`. An
      empty-string `editingId` is falsy, so it dispatches to add. */
  function Submit(s: State, id: string, createdAt: string): (r: State)
    ensures InEditMode(s.editingId) ==>
      r.ideas == UpdateMatching(s.ideas, s.editingId, s.form)
      && r.editingId == None && r.isAdding == s.isAdding
    ensures !InEditMode(s.editingId) ==>
      r.ideas == [Create(id, s.form, createdAt)] + s.ideas
      && r.editingId == s.editingId && !r.isAdding
    ensures r.form == DefaultForm && Synced(r)
  {
    if InEditMode(s.editingId) then Update(s) else Add(s, id, createdAt)
  }

  // ----- event sequences -----

  /** One user action on the page; a submit carries the clock readings the
      add path would take (the update path ignores them). */
  datatype Event =
    | ClickAdd
    | Type(edit: FieldEdit)
    | ClickEdit(editId: string)
    | ClickDelete(deleteId: string)
    | ClickSubmit(newId: string, now: string)
    | ClickCancel

  /** Whether an event leaves the list as it was. */
  predicate KeepsList(e: Event)
  {
    e.ClickAdd? || e.Type? || e.ClickEdit? || e.ClickCancel?
  }

  /** Whether an event comes from the add/edit form, which is only rendered
      while `FormShown` holds. */
  predicate FromForm(e: Event)
  {
    e.Type? || e.ClickSubmit? || e.ClickCancel?
  }

  /** The transition for one event. Events of the form do nothing while the
      form is hidden, since their controls are not on the page. Events that
      change no list leave storage alone; the others write the new list
      through. */
  function Step(s: State, e: Event): (r: State)
    ensures FromForm(e) && !FormShown(s) ==> r == s
    ensures KeepsList(e) ==> r.ideas == s.ideas && r.stored == s.stored
    ensures e.ClickDelete? || (e.ClickSubmit? && FormShown(s)) ==> Synced(r)
    ensures Synced(s) ==> Synced(r)
  {
    if FromForm(e) && !FormShown(s) then s
    else
      match e
      case ClickAdd => StartAdd(s)
      case Type(f) => Input(s, f)
      case ClickEdit(id) => Edit(s, id)
      case ClickDelete(id) => Delete(s, id)
      case ClickSubmit(id, now) => Submit(s, id, now)
      case ClickCancel => Cancel(s)
  }

  /** The state after a sequence of events, applied in order. */
  function Run(s: State, events: seq<Event>): State
    decreases |events|
  {
    if |events| == 0 then s else Run(Step(s, events[0]), events[1..])
  }

}
