/** Request sequences run against a fresh store, showing what a client can
    conclude from the handlers' contracts alone. */
module Scenarios {
  import opened Records
  import opened Handlers

  function FixSinkInput(): TaskInput {
    TaskInput(Some("Fix sink"), None, Some("repair"), None, None, Some("plumbing"))
  }

  /** `POST /tasks` with only title, type and category on an empty task
      collection: the reply is the first task with every default filled in,
      and the collection then holds exactly that task. */
  method FixSink(today: string) returns (r: Result<Task>, tasks: seq<Task>)
    ensures r == Ok(Task(1, "Fix sink", "", "repair", today, "", "plumbing", None, "pending"))
    ensures tasks == [r.value]
  {
    var store := new Store();
    r := store.CreateTask(FixSinkInput(), today);
    tasks := store.tasks;
  }

  function TitledInput(title: string): TaskInput {
    TaskInput(Some(title), None, Some("repair"), None, None, Some("plumbing"))
  }

  /** Ids come from the collection's length, so a create after a delete hands
      out an id that is still in use: after creating two tasks, deleting the
      first and creating a third, both remaining tasks have id 2, and an
      update or delete of id 2 can only reach the older one. */
  method IdReusedAfterDelete(today: string) returns (tasks: seq<Task>)
    ensures |tasks| == 2
    ensures tasks[0].id == 2 && tasks[1].id == 2
    ensures tasks[0].title == "B" && tasks[1].title == "C"
    ensures FindIndex(tasks, 2) == Some(0)
  {
    var store := new Store();
    var a := store.CreateTask(TitledInput("A"), today);
    var b := store.CreateTask(TitledInput("B"), today);
    assert store.tasks[0].id == 1;
    FindIndexIsFirst(store.tasks, 1, 0);
    var gone := store.DeleteTask(1);
    var c := store.CreateTask(TitledInput("C"), today);
    tasks := store.tasks;
    FindIndexIsFirst(tasks, 2, 0);
  }
}
