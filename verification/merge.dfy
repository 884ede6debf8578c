/** The shallow merge `Object.assign(task, body)` of `PUT /tasks/:id`: every
    field the body carries replaces the task's, every other field stays. */
module TaskMerge {
  import opened Records

  /** An update body: each task field is either present or absent. A present
      `assignedWorkerId` may itself be `null` (`Some(None)`). */
  datatype TaskPatch = TaskPatch(
    id: Option<int>,
    title: Option<string>,
    description: Option<string>,
    kind: Option<string>,
    date: Option<string>,
    location: Option<string>,
    category: Option<string>,
    assignedWorkerId: Option<Option<int>>,
    status: Option<string>)

  const EmptyPatch := TaskPatch(None, None, None, None, None, None, None, None, None)

  /** The body `{status: s}`. */
  function StatusPatch(s: string): TaskPatch {
    EmptyPatch.(status := Some(s))
  }

  function Merge(t: Task, p: TaskPatch): (m: Task)
    ensures p.id.Some? ==> m.id == p.id.value
    ensures p.id.None? ==> m.id == t.id
    ensures p.title.Some? ==> m.title == p.title.value
    ensures p.title.None? ==> m.title == t.title
    ensures p.description.Some? ==> m.description == p.description.value
    ensures p.description.None? ==> m.description == t.description
    ensures p.kind.Some? ==> m.kind == p.kind.value
    ensures p.kind.None? ==> m.kind == t.kind
    ensures p.date.Some? ==> m.date == p.date.value
    ensures p.date.None? ==> m.date == t.date
    ensures p.location.Some? ==> m.location == p.location.value
    ensures p.location.None? ==> m.location == t.location
    ensures p.category.Some? ==> m.category == p.category.value
    ensures p.category.None? ==> m.category == t.category
    ensures p.assignedWorkerId.Some? ==> m.assignedWorkerId == p.assignedWorkerId.value
    ensures p.assignedWorkerId.None? ==> m.assignedWorkerId == t.assignedWorkerId
    ensures p.status.Some? ==> m.status == p.status.value
    ensures p.status.None? ==> m.status == t.status
  {
    Task(
      p.id.GetOr(t.id),
      p.title.GetOr(t.title),
      p.description.GetOr(t.description),
      p.kind.GetOr(t.kind),
      p.date.GetOr(t.date),
      p.location.GetOr(t.location),
      p.category.GetOr(t.category),
      p.assignedWorkerId.GetOr(t.assignedWorkerId),
      p.status.GetOr(t.status))
  }

  function Later<T>(first: Option<T>, second: Option<T>): Option<T> {
    if second.Some? then second else first
  }

  /** `Object.assign({}, p, q)`: the fields of both bodies, `q`'s winning. */
  function Then(p: TaskPatch, q: TaskPatch): TaskPatch {
    TaskPatch(
      Later(p.id, q.id),
      Later(p.title, q.title),
      Later(p.description, q.description),
      Later(p.kind, q.kind),
      Later(p.date, q.date),
      Later(p.location, q.location),
      Later(p.category, q.category),
      Later(p.assignedWorkerId, q.assignedWorkerId),
      Later(p.status, q.status))
  }

  /** An empty body changes nothing. */
  lemma MergeEmpty(t: Task)
    ensures Merge(t, EmptyPatch) == t
  {
  }

  /** Applying the same body twice is applying it once. */
  lemma MergeIdempotent(t: Task, p: TaskPatch)
    ensures Merge(Merge(t, p), p) == Merge(t, p)
  {
  }

  /** Two updates in a row equal one update with the combined body. */
  lemma MergeThen(t: Task, p: TaskPatch, q: TaskPatch)
    ensures Merge(Merge(t, p), q) == Merge(t, Then(p, q))
  {
  }

  /** `{status: "done"}` changes the status and leaves every other field. */
  lemma MergeStatusOnly(t: Task, s: string)
    ensures Merge(t, StatusPatch(s)) == t.(status := s)
  {
  }
}
