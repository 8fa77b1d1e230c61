/** The records the page keeps: a video idea, and the five-field form that is
    used both to draft a new idea and to edit an existing one. */
module VideoIdeas {

  /** The three priority labels a form may carry. */
  datatype Priority = Low | Medium | High

  /** The production stages; any stage may follow any other. */
  datatype Status = Idea | Scripting | Filming | Editing | Scheduled | Published

  /** One stored idea. `id` and `createdAt` are assigned on creation; the
      other five fields are the ones a form can overwrite. */
  datatype VideoIdea = VideoIdea(
    id: string,
    title: string,
    description: string,
    category: string,
    priority: Priority,
    status: Status,
    createdAt: string)

  /** The form's contents: the five mutable fields of an idea. */
  datatype FormData = FormData(
    title: string,
    description: string,
    category: string,
    priority: Priority,
    status: Status)

  /** The blank form the page starts with and returns to after add, update and cancel. */
  const DefaultForm := FormData("", "", "Running Tips", Medium, Idea)

  /** The five form fields of an idea, as copied into the form by an edit.
      Together with the id and creation time they rebuild the idea. */
  function FormOf(v: VideoIdea): (f: FormData)
    ensures VideoIdea(v.id, f.title, f.description, f.category, f.priority, f.status, v.createdAt) == v
  {
    FormData(v.title, v.description, v.category, v.priority, v.status)
  }

  /** A new idea `{ id, ...formData, createdAt }`. */
  function Create(id: string, form: FormData, createdAt: string): (v: VideoIdea)
    ensures v.id == id && v.createdAt == createdAt
    ensures FormOf(v) == form
  {
    VideoIdea(id, form.title, form.description, form.category, form.priority, form.status, createdAt)
  }

  /** An existing idea with the form spread over it, `{ ...idea, ...formData }`:
      the five form fields are replaced, identity and creation time are kept. */
  function Overwrite(v: VideoIdea, form: FormData): (r: VideoIdea)
    ensures r.id == v.id && r.createdAt == v.createdAt
    ensures FormOf(r) == form
  {
    v.(title := form.title, description := form.description, category := form.category,
       priority := form.priority, status := form.status)
  }

  /** Spreading an idea's own fields back over it changes nothing, and an idea
      is determined by its identity, its creation time and its form fields. */
  lemma OverwriteWithOwnForm(v: VideoIdea)
    ensures Overwrite(v, FormOf(v)) == v
  {
  }

  /** One keystroke or selection in the form: a single field receives a value. */
  datatype FieldEdit =
    | SetTitle(title: string)
    | SetDescription(description: string)
    | SetCategory(category: string)
    | SetPriority(priority: Priority)
    | SetStatus(status: Status)

  /** `setFormData({ ...formData, <field>: value })`: the named field takes the
      value and the other four keep theirs. */
  function ApplyEdit(f: FormData, e: FieldEdit): (r: FormData)
    ensures e.SetTitle? ==> r.title == e.title
    ensures e.SetDescription? ==> r.description == e.description
    ensures e.SetCategory? ==> r.category == e.category
    ensures e.SetPriority? ==> r.priority == e.priority
    ensures e.SetStatus? ==> r.status == e.status
    ensures !e.SetTitle? ==> r.title == f.title
    ensures !e.SetDescription? ==> r.description == f.description
    ensures !e.SetCategory? ==> r.category == f.category
    ensures !e.SetPriority? ==> r.priority == f.priority
    ensures !e.SetStatus? ==> r.status == f.status
  {
    match e
    case SetTitle(t) => f.(title := t)
    case SetDescription(d) => f.(description := d)
    case SetCategory(c) => f.(category := c)
    case SetPriority(p) => f.(priority := p)
    case SetStatus(s) => f.(status := s)
  }

}
