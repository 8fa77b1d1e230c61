# Running Channel Manager: idea-list state machine

This project models the logic of the page component `Home` in `app/page.tsx`.
The page keeps an ordered list of video ideas, a form used both to draft a new
idea and to edit an existing one, and a copy of the list in browser storage.
Every handler is a pure transition over immutable values, so the model is a
set of Dafny functions over `seq`.

- `wrappers.dfy` (`Wrappers`): `Option`, used for the nullable `editingId`, for
  the storage slot and for lookups.
- `video_idea.dfy` (`VideoIdeas`): the `VideoIdea` record, the priority and
  status enumerations, the five-field `FormData`, the default form, and the
  two object spreads the handlers use (`{ id, ...formData, createdAt }` and
  `{ ...idea, ...formData }`).
- `idea_list.dfy` (`IdeaList`): the three array operations the handlers use,
  `find`, the matching `map` and `filter`, with their lemmas. Ids are not
  assumed distinct anywhere. Every fact that needs distinct ids states that
  as a precondition.
- `page.dfy` (`Page`): the page `State`, the write-through effect, start-up,
  the handlers, the submit dispatch, and a `Run` over a sequence of user events.
  Typing, Save and Cancel belong to the add/edit form. The page renders that
  form only while `isAdding || editingId` holds, so `Step` ignores those
  events while the form is hidden.
- `page_properties.dfy` (`PageProperties`): lemmas that relate several calls.

Modelling choices:

- The fresh id (`Date.now().toString()`) and the timestamps
  (`new Date().toISOString()`) are parameters. The three seed ideas each read
  the clock separately, so start-up takes three timestamps.
- Storage is an abstract slot `Option<seq<VideoIdea>>` under the page's key
  `youtube-ideas`. `None` means nothing was ever saved. Serialising the list
  and parsing it back is treated as lossless.
- A stored empty list is loaded as an empty list. The serialised text `"[]"` is
  a non-empty, truthy string, so the page does not fall back to the seed.
- JavaScript truthiness is modelled where the page relies on it. Both the submit
  dispatch (`editingId ? handleUpdate : handleAdd`) and the form's visibility
  test (`isAdding || editingId`) treat a `null` or empty-string `editingId` as
  false (`Page.InEditMode`). The update's `idea.id === editingId` never matches
  when `editingId` is `null`.
- Start-up follows the effect order. The load effect reads the slot first.
  Then the write-through effect runs once with the initial empty list. Then
  the loaded list is set and written through. Because the read comes before
  the empty write, stored data survives start-up.
- `isAdding` and `editingId` are independent fields. The add button sets
  `isAdding` even during an edit, and neither `handleEdit` nor `handleUpdate`
  clears it. A design in which the two modes exclude each other would disagree
  with the code. The model follows the code (`PageProperties.AddAndEditCoexist`).
- Id uniqueness is not an invariant of the code: nothing checks that a new id
  is unused. Uniqueness appears only in conditional lemmas that assume the
  supplied id is fresh (`PageProperties.AddKeepsDistinct`,
  `PageProperties.RunKeepsDistinct`). `PageProperties.AddCanDuplicateId` shows
  the duplicate that a repeated id produces.

## Model

| member | source | states |
|---|---|---|
| `VideoIdeas.FormOf` | app/page.tsx:103-109 | the five fields copied into the form by an edit, together with the idea's id and createdAt, rebuild the idea exactly |
| `VideoIdeas.Create` | app/page.tsx:84-88 | a new idea carries exactly the form's five fields, plus the supplied id and creation time |
| `VideoIdeas.Overwrite` | app/page.tsx:117 | spreading the form over an idea replaces its five mutable fields and keeps its id and createdAt |
| `VideoIdeas.OverwriteWithOwnForm` | app/page.tsx:100-119 | writing an idea's own form fields back over it gives the same idea |
| `VideoIdeas.ApplyEdit` | app/page.tsx:244-288 | a field change sets exactly the named form field and keeps the other four |
| `IdeaList.FindIndex` | app/page.tsx:101 | the index found carries the id and no earlier idea does; nothing is found exactly when no idea has the id |
| `IdeaList.Find` | app/page.tsx:101-102 | `find` yields an idea of the list with that id, the first such, and yields nothing exactly when the id is absent |
| `IdeaList.UpdateMatching` | app/page.tsx:115-119 | the map keeps length, order, every id and createdAt; matching ideas take the form's fields; all others are unchanged |
| `IdeaList.Without` | app/page.tsx:131 | the filter keeps exactly the ideas with a different id; its length drops by the number of matches; an absent id changes nothing |
| `IdeaList.WithoutAppend` | app/page.tsx:131 | filtering distributes over concatenation, so survivors keep their original relative order |
| `IdeaList.WithoutIdempotent` | app/page.tsx:131 | filtering twice by one id equals filtering once |
| `IdeaList.CountDistinct` | app/page.tsx:131 | with distinct ids, at most one idea matches, and exactly one when the id is present |
| `IdeaList.PrependDistinct` | app/page.tsx:89 | prepending keeps ids distinct if and only if they were distinct and the new id is absent |
| `IdeaList.UpdateMatchingKeepsIds` | app/page.tsx:115-119 | the update's map leaves the sequence of ids unchanged, so distinctness holds after it exactly when it held before |
| `IdeaList.WithoutKeepsDistinct` | app/page.tsx:131 | deleting keeps distinct ids distinct |
| `Page.InEditMode` | app/page.tsx:302 | JavaScript truthiness of `editingId`: null and the empty string are false, every other string is true |
| `Page.FormShown` | app/page.tsx:233 | the form is shown in add mode or when `editingId` is truthy; with add mode off, a null or empty `editingId` hides it |
| `Page.Seed` | app/page.tsx:46-74 | the seed is three ideas with distinct ids "1", "2", "3", whose createdAt values are the three clock readings in order |
| `Page.Initial` | app/page.tsx:24-33 | before any effect runs, the list is empty, no form is shown, `editingId` is null and the form holds the defaults; storage is whatever was there |
| `Page.Persist` | app/page.tsx:79-81 | the write-through replaces the stored value with the whole current list and changes nothing else |
| `Page.Commit` | app/page.tsx:79-81 | setting the list is followed by a write, so storage equals the new list |
| `Page.Load` | app/page.tsx:42-76 | a stored list is used verbatim; with nothing stored, the seed is used |
| `Page.Mount` | app/page.tsx:41-81 | after start-up the list is the stored one, or the three-idea seed with distinct ids when nothing was stored; storage equals the list; no form mode is active; the form holds the defaults |
| `Page.StartAdd` | app/page.tsx:224 | the add button sets only `isAdding`; an edit in progress stays in progress |
| `Page.Input` | app/page.tsx:244-288 | typing changes only the form |
| `Page.Add` | app/page.tsx:83-98 | the new idea is at index 0, followed by the old list unchanged, so length grows by one; it carries the form's fields and the given id and time; the form is reset; `isAdding` is false; `editingId` is kept; storage is updated |
| `Page.Edit` | app/page.tsx:100-112 | for a present id, the first match's fields go into the form and `editingId` is set; for an absent id nothing changes; the list, `isAdding` and storage are never touched |
| `Page.Update` | app/page.tsx:114-128 | length, order, ids and createdAt are kept; ideas matching `editingId` take the form's fields; all others are unchanged; `editingId` becomes null; the form is reset; `isAdding` is kept; storage is updated |
| `Page.Delete` | app/page.tsx:130-132 | the result is exactly the ideas with a different id; an absent id is a no-op; the form state is kept; storage is updated |
| `Page.Cancel` | app/page.tsx:134-144 | both modes end and the form is reset, from any state; the form is hidden; the list and storage are kept |
| `Page.Submit` | app/page.tsx:302 | a truthy `editingId` dispatches to update and anything else to add (null or empty string), with each path's effect on the list, the modes and the form |
| `Page.Step` | app/page.tsx:221-362 | typing, Save and Cancel do nothing while the form is hidden; events that keep the list also keep storage; a delete, or a save on a shown form, writes the new list through; storage equal to the list stays equal after any event |
| `PageProperties.AddKeepsDistinct` | app/page.tsx:83-89 | add keeps ids distinct if and only if they were distinct and the supplied id is fresh |
| `PageProperties.AddCanDuplicateId` | app/page.tsx:83-89 | on a fresh install, two add-and-save rounds that read the same clock value leave two ideas with one id, so uniqueness is not an invariant |
| `PageProperties.UpdateWithoutMatch` | app/page.tsx:115-127 | update with a null `editingId`, or one no idea carries, leaves the list unchanged, still clears `editingId` and still resets the form |
| `PageProperties.UpdateKeepsDistinct` | app/page.tsx:114-119 | update keeps the sequence of ids, so distinctness holds after it exactly when it held before |
| `PageProperties.EditThenSubmitUnchanged` | app/page.tsx:100-128 | with distinct ids, opening an idea and saving the form unchanged gives the same list |
| `PageProperties.EditThenSubmitWithDuplicateIds` | app/page.tsx:101-119 | with a duplicated id, edit fills the form from the first match but the save overwrites every match |
| `PageProperties.RenameThroughForm` | app/page.tsx:100-128 | edit, then a new title, then save: that idea gets the title and keeps every other field, and all other ideas are untouched |
| `PageProperties.DeleteIdempotent` | app/page.tsx:130-132 | deleting twice is deleting once |
| `PageProperties.DeleteKeepsOrder` | app/page.tsx:130-132 | deleting from a list split in two equals deleting from each part, so order is kept |
| `PageProperties.DeleteRemovesAtMostOne` | app/page.tsx:130-132 | with distinct ids, delete removes one idea if the id is present and none otherwise, and ids stay distinct |
| `PageProperties.CancelIdempotent` | app/page.tsx:134-144 | cancel twice equals cancel once |
| `PageProperties.AddAndEditCoexist` | app/page.tsx:100-128 | the add button during an edit leaves both modes set; saving the edit leaves the add form open |
| `PageProperties.RunKeepsSynced` | app/page.tsx:79-81 | over any event sequence, storage equal to the list stays equal |
| `PageProperties.ReloadRestores` | app/page.tsx:41-44 | reloading from storage that equals the list gives back exactly that list |
| `PageProperties.SessionSurvivesReload` | app/page.tsx:41-81 | after a start-up and any events, a reload gives back the session's list |
| `PageProperties.StepKeepsDistinct` | app/page.tsx:83-132 | any one event keeps ids distinct, provided a save that adds uses a fresh id |
| `PageProperties.FreshInstallKeepsDistinct` | app/page.tsx:41-132 | a fresh install whose adds all use fresh ids keeps its ids distinct for the whole session |
| `PageProperties.RunKeepsDistinct` | app/page.tsx:83-132 | a session that starts with distinct ids and adds only with fresh ids ends with distinct ids |
| `PageProperties.AddsGrowByOne` | app/page.tsx:83-98 | outside edit mode, each click of the add button followed by a save grows the list by exactly one. The old list stays at the end, the last idea added comes first, the add form is closed, and `editingId` is kept |

## Left out

- Rendering: the JSX markup, Tailwind classes, lucide-react icons, the form's
  heading text and the `getPriorityColor`/`getStatusColor` helpers are
  presentation only.
- `app/layout.tsx` holds only page metadata and root markup, so it has no logic to model.
- The static channel statistics (`app/page.tsx:34-39`) are never changed.
- The browser storage API and JSON encoding are calls into code outside the page.
  Storage is an abstract slot. A malformed stored value, or an empty stored
  string (which the page would treat as "nothing stored"), is not modelled.
  The page never writes either of them.
- Storage reads and writes are assumed never to throw. A browser can refuse a
  write when the quota is exceeded, or refuse any access when storage is
  disabled, and the model has no such failure. `Page.Synced`,
  `PageProperties.RunKeepsSynced`, `PageProperties.SessionSurvivesReload` and
  `PageProperties.ReloadRestores` hold only under that assumption.
- `Date.now()`, `toISOString()` and the locale formatting of dates read the
  clock and locale. Their results are parameters.
- React scheduling, batching and stale closures are not modelled. Each handler
  is one atomic transition, followed by the write-through effect whenever it
  set the list. Development-mode double effects are not modelled either.
- Category is a free string, as in the page's type. The seven category labels
  offered by the form's select box are not enforced, and neither does the
  page enforce them. The priority and status selects pass their option
  values through untyped casts. These are modelled as the closed enumerations
  the options offer.
- The edit and delete buttons are rendered once per idea, so the page only
  ever passes ids of listed ideas. `Step` also accepts other ids. An edit with
  such an id changes nothing, and a delete with it keeps the list.
- Storage shared between browser tabs is not modelled. The page has one
  writer per tab, and the last full-list write wins.
