/** The records kept by the HomeAssist backend (index.js): workers and tasks,
    the request bodies that create them, and the two error outcomes a handler
    can answer with instead of a record. */
module Records {

  datatype Option<+T> = None | Some(value: T) {
    function GetOr(default: T): T {
      match this
      case Some(v) => v
      case None => default
    }
  }

  /** The two client errors of the handlers, with the message each sends. */
  datatype Error = MissingField(message: string) | NotFound(message: string) {
    /** HTTP status the handler answers with. */
    function Status(): (code: nat)
      ensures code == 400 || code == 404
      ensures code == 400 <==> MissingField?
    {
      if MissingField? then 400 else 404
    }
  }

  datatype Result<+T> = Ok(value: T) | Err(error: Error)

  const WORKER_FIELDS_REQUIRED: string := "Name and category required"
  const TASK_FIELDS_REQUIRED: string := "Title, type, category required"
  const TASK_NOT_FOUND: string := "Task not found"

  /** JavaScript truthiness of an optional string field of a request body:
      a missing field and the empty string are both falsy. */
  predicate Truthy(s: Option<string>)
    ensures !Truthy(s) <==> s == None || s == Some("")
  {
    s.Some? && s.value != ""
  }

  /** `s || fallback` for an optional string field. */
  function OrElse(s: Option<string>, fallback: string): (r: string)
    ensures Truthy(s) ==> r == s.value
    ensures !Truthy(s) ==> r == fallback
    ensures fallback != "" ==> r != ""
  {
    if Truthy(s) then s.value else fallback
  }

  /** A stored worker. `rating` and `tasksCompleted` are set at creation and
      no handler changes them afterwards. */
  datatype Worker = Worker(
    id: int,
    name: string,
    category: string,
    skills: seq<string>,
    rate: real,
    location: string,
    contact: string,
    rating: real,
    tasksCompleted: int)

  /** The body of `POST /workers`; every field may be missing. */
  datatype WorkerInput = WorkerInput(
    name: Option<string>,
    category: Option<string>,
    skills: Option<seq<string>>,
    rate: Option<real>,
    location: Option<string>,
    contact: Option<string>)

  /** A stored task; `kind` is the JSON field `type`, and `assignedWorkerId`
      is `None` where the JSON holds `null`. */
  datatype Task = Task(
    id: int,
    title: string,
    description: string,
    kind: string,
    date: string,
    location: string,
    category: string,
    assignedWorkerId: Option<int>,
    status: string)

  /** The body of `POST /tasks`; every field may be missing. */
  datatype TaskInput = TaskInput(
    title: Option<string>,
    description: Option<string>,
    kind: Option<string>,
    date: Option<string>,
    location: Option<string>,
    category: Option<string>)
}
