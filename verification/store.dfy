/** The handlers of index.js that change or search the two collections. Each
    handler loads a whole collection, changes it in memory and writes it back;
    here the two collections are the fields of one `Store` object and writing
    back is assigning the field. */
module Handlers {
  import opened Records
  import opened TaskMerge

  /** `tasks.findIndex(t => t.id === id)`, with `None` for JavaScript's -1:
      the position of the first task with that id. */
  function FindIndex(tasks: seq<Task>, id: int): (r: Option<nat>)
    ensures r.Some? ==> r.value < |tasks| && tasks[r.value].id == id
    ensures r.Some? ==> forall j :: 0 <= j < r.value ==> tasks[j].id != id
    ensures r.None? <==> forall j :: 0 <= j < |tasks| ==> tasks[j].id != id
  {
    if tasks == [] then None
    else if tasks[0].id == id then Some(0)
    else match FindIndex(tasks[1..], id)
      case None => None
      case Some(i) => Some(i + 1)
  }

  /** Any position holding the id, with no earlier one, is what FindIndex
      returns. */
  lemma FindIndexIsFirst(tasks: seq<Task>, id: int, i: nat)
    requires i < |tasks| && tasks[i].id == id
    requires forall j :: 0 <= j < i ==> tasks[j].id != id
    ensures FindIndex(tasks, id) == Some(i)
  {
  }

  /** A merge that does not rewrite the id leaves the task the first one with
      that id, so a later update or delete of that id finds it again. */
  lemma UpdateKeepsPosition(tasks: seq<Task>, id: int, i: nat, p: TaskPatch)
    requires FindIndex(tasks, id) == Some(i)
    requires p.id.None?
    ensures FindIndex(tasks[i := Merge(tasks[i], p)], id) == Some(i)
  {
    var updated := tasks[i := Merge(tasks[i], p)];
    assert forall j :: 0 <= j < i ==> updated[j] == tasks[j];
    FindIndexIsFirst(updated, id, i);
  }

  /** Splicing out position i removes exactly that one record. */
  lemma RemoveOneRecord(tasks: seq<Task>, i: nat)
    requires i < |tasks|
    ensures |tasks[..i] + tasks[i + 1..]| == |tasks| - 1
    ensures multiset(tasks[..i] + tasks[i + 1..]) + multiset{tasks[i]} == multiset(tasks)
  {
    assert tasks == tasks[..i] + [tasks[i]] + tasks[i + 1..];
  }

  class Store {
    var workers: seq<Worker>
    var tasks: seq<Task>

    /** The state when neither collection file exists: `readJSON` then
        yields an empty array for both. */
    constructor ()
      ensures workers == [] && tasks == []
    {
      workers := [];
      tasks := [];
    }

    /** The state read back from two existing collection files. */
    constructor Load(workers: seq<Worker>, tasks: seq<Task>)
      ensures this.workers == workers && this.tasks == tasks
    {
      this.workers := workers;
      this.tasks := tasks;
    }

    /** `POST /workers`. */
    method CreateWorker(input: WorkerInput) returns (r: Result<Worker>)
      modifies this
      ensures tasks == old(tasks)
      ensures r.Err? <==> !Truthy(input.name) || !Truthy(input.category)
      ensures r.Err? ==> r.error == MissingField(WORKER_FIELDS_REQUIRED) && workers == old(workers)
      ensures r.Err? ==> r.error.Status() == 400
      ensures r.Ok? ==> workers == old(workers) + [r.value]
      ensures r.Ok? ==> r.value.id == |old(workers)| + 1
      ensures r.Ok? ==> r.value.name == input.name.value && r.value.category == input.category.value
      ensures r.Ok? ==> r.value.skills == (if input.skills.Some? then input.skills.value else [])
      ensures r.Ok? ==> r.value.rate == (if input.rate.Some? then input.rate.value else 0.0)
      ensures r.Ok? ==> r.value.location == (if Truthy(input.location) then input.location.value else "")
      ensures r.Ok? ==> r.value.contact == (if Truthy(input.contact) then input.contact.value else "")
      ensures r.Ok? ==> r.value.rating == 0.0 && r.value.tasksCompleted == 0
    {
      if !Truthy(input.name) || !Truthy(input.category) {
        return Err(MissingField(WORKER_FIELDS_REQUIRED));
      }
      var worker := Worker(
        |workers| + 1,
        input.name.value,
        input.category.value,
        input.skills.GetOr([]),
        input.rate.GetOr(0.0),
        OrElse(input.location, ""),
        OrElse(input.contact, ""),
        0.0,
        0);
      workers := workers + [worker];
      r := Ok(worker);
    }

    /** `POST /tasks`; `today` is the server's current date as `YYYY-MM-DD`. */
    method CreateTask(input: TaskInput, today: string) returns (r: Result<Task>)
      modifies this
      ensures workers == old(workers)
      ensures r.Err? <==> !Truthy(input.title) || !Truthy(input.kind) || !Truthy(input.category)
      ensures r.Err? ==> r.error == MissingField(TASK_FIELDS_REQUIRED) && tasks == old(tasks)
      ensures r.Err? ==> r.error.Status() == 400
      ensures r.Ok? ==> tasks == old(tasks) + [r.value]
      ensures r.Ok? ==> r.value.id == |old(tasks)| + 1
      ensures r.Ok? ==> r.value.title == input.title.value && r.value.kind == input.kind.value
      ensures r.Ok? ==> r.value.category == input.category.value
      ensures r.Ok? ==> r.value.description == (if Truthy(input.description) then input.description.value else "")
      ensures r.Ok? ==> r.value.date == (if Truthy(input.date) then input.date.value else today)
      ensures r.Ok? ==> r.value.location == (if Truthy(input.location) then input.location.value else "")
      ensures r.Ok? ==> r.value.assignedWorkerId == None && r.value.status == "pending"
    {
      if !Truthy(input.title) || !Truthy(input.kind) || !Truthy(input.category) {
        return Err(MissingField(TASK_FIELDS_REQUIRED));
      }
      var task := Task(
        |tasks| + 1,
        input.title.value,
        OrElse(input.description, ""),
        input.kind.value,
        OrElse(input.date, today),
        OrElse(input.location, ""),
        input.category.value,
        None,
        "pending");
      tasks := tasks + [task];
      r := Ok(task);
    }

    /** `PUT /tasks/:id`. */
    method UpdateTask(id: int, patch: TaskPatch) returns (r: Result<Task>)
      modifies this
      ensures workers == old(workers)
      ensures r.Err? <==> forall j :: 0 <= j < |old(tasks)| ==> old(tasks)[j].id != id
      ensures r.Err? ==> r.error == NotFound(TASK_NOT_FOUND) && tasks == old(tasks)
      ensures r.Err? ==> r.error.Status() == 404
      ensures r.Ok? ==> FindIndex(old(tasks), id).Some?
      ensures r.Ok? ==>
        var i := FindIndex(old(tasks), id).value;
        && r.value == Merge(old(tasks)[i], patch)
        && tasks == old(tasks)[i := r.value]
        && |tasks| == |old(tasks)|
        && forall j :: 0 <= j < |tasks| && j != i ==> tasks[j] == old(tasks)[j]
    {
      var found := FindIndex(tasks, id);
      match found {
        case None =>
          r := Err(NotFound(TASK_NOT_FOUND));
        case Some(i) =>
          var merged := Merge(tasks[i], patch);
          tasks := tasks[i := merged];
          r := Ok(merged);
      }
    }

    /** `DELETE /tasks/:id`; the removed task is the `task` of the reply. */
    method DeleteTask(id: int) returns (r: Result<Task>)
      modifies this
      ensures workers == old(workers)
      ensures r.Err? <==> forall j :: 0 <= j < |old(tasks)| ==> old(tasks)[j].id != id
      ensures r.Err? ==> r.error == NotFound(TASK_NOT_FOUND) && tasks == old(tasks)
      ensures r.Err? ==> r.error.Status() == 404
      ensures r.Ok? ==> FindIndex(old(tasks), id).Some?
      ensures r.Ok? ==>
        var i := FindIndex(old(tasks), id).value;
        && r.value == old(tasks)[i]
        && r.value.id == id
        && tasks == old(tasks)[..i] + old(tasks)[i + 1..]
        && |tasks| == |old(tasks)| - 1
      ensures r.Ok? ==> multiset(tasks) + multiset{r.value} == multiset(old(tasks))
    {
      var found := FindIndex(tasks, id);
      match found {
        case None =>
          r := Err(NotFound(TASK_NOT_FOUND));
        case Some(i) =>
          RemoveOneRecord(tasks, i);
          r := Ok(tasks[i]);
          tasks := tasks[..i] + tasks[i + 1..];
      }
    }
  }
}
