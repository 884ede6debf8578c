# HomeAssist backend: the worker and task collections

HomeAssist's backend (`index.js`) keeps two flat collections, workers and
tasks. Each is a JSON array in its own file. Every HTTP handler loads a
whole array, changes it in memory, and writes the whole array back. This
project models what those handlers do to the arrays:

- `POST /workers` creates a worker. It checks `name` and `category`, gives
  the worker id `length + 1`, fills in defaults and appends it.
- `GET /workers/search` filters workers by exact category and by a
  case-insensitive location fragment.
- `POST /tasks` creates a task. It checks `title`, `type` and `category`,
  gives the task id `length + 1`, fills in defaults and appends it.
- `PUT /tasks/:id` merges the request body into the first task with that id.
- `DELETE /tasks/:id` splices out the first task with that id and returns it.

Files:

- `records.dfy` (module `Records`): the records, request bodies and errors,
  and JavaScript truthiness of an optional string.
- `text.dfy` (`Text`): ASCII lower-casing and substring containment.
- `search.dfy` (`WorkerSearch`): `filter` as a generic function, and the
  search as `filter` with the query's predicate, with lemmas.
- `merge.dfy` (`TaskMerge`): the update body as a record of optional fields,
  and the shallow merge.
- `store.dfy` (`Handlers`): `FindIndex`, and a `Store` class. Its fields
  `workers` and `tasks` are the two collections. Its methods are the
  mutating handlers. Each returns `Ok(record)` or `Err(error)` and leaves
  the collections unchanged on error.
- `scenarios.dfy` (`Scenarios`): two request sequences against a fresh store.

How the model follows the code where the two could be read differently:

- Search treats an empty `category` or `location` query the same as a
  missing one: no filter. This is because the code tests `!category`.
- A task `date` given as the empty string falls back to today, as
  `date || today` does.
- Ids are not unique. The code computes each id from the current length,
  so a create that follows a delete can hand out an id that is still in
  use (`Scenarios.IdReusedAfterDelete`). Update and delete then act only on
  the first task with that id.
- The JSON field `type` of a task is called `kind`, because `type` is a
  Dafny keyword. `null` for `assignedWorkerId` is `None`.

## Model

| member | source | states |
|---|---|---|
| `Records.Truthy` | index.js:39 | a request field is falsy (`!x`) exactly when it is missing or the empty string |
| `Records.OrElse` | index.js:79-82 | JavaScript's or-default of a string field is the field's value when it is truthy and the default otherwise, so a non-empty default always gives a non-empty result |
| `Records.Error.Status` | index.js:39-106 | a missing field answers 400 and an unknown id 404, and no other code is used for errors |
| `Text.LowerChar` | index.js:61 | an upper-case ASCII letter becomes the lower-case letter 32 code points later, every other character is kept, and the result is never an upper-case letter |
| `Text.Lower` | index.js:61 | lower-casing keeps the length and lower-cases each character on its own |
| `Text.LowerHasNoUpper` | index.js:61 | the result has no upper-case ASCII letter; characters that are not upper-case letters are kept |
| `Text.LowerIdempotent` | index.js:61 | lower-casing twice is the same as lower-casing once |
| `Text.Includes` | index.js:61 | `includes` is true exactly when the needle occurs at some position of the string; the empty needle always occurs |
| `WorkerSearch.Filter` | index.js:60 | `filter` never returns more elements than it was given |
| `WorkerSearch.FilterMembers` | index.js:60 | an element is in the result exactly when it is in the input and passes the predicate |
| `WorkerSearch.FilterConcat` | index.js:60 | filtering a concatenation concatenates the two filtered parts, so input order is kept |
| `WorkerSearch.FilterAll` | index.js:60 | when every element passes, the input comes back unchanged |
| `WorkerSearch.FilterSound` | index.js:60 | every element of the result is an input element that passes the predicate |
| `WorkerSearch.FilterBoth` | index.js:60-62 | filtering by a conjunction equals filtering by the first conjunct, then by the second |
| `WorkerSearch.FilterSame` | index.js:60-62 | two predicates that agree on every element select the same elements |
| `WorkerSearch.Matches` | index.js:61 | a worker passes exactly when the category query is missing, empty or equal to its category, and the location query is missing, empty, or occurs somewhere in its lower-cased location after lower-casing |
| `WorkerSearch.Search` | index.js:60-62 | the result is no longer than the collection, and each worker in it is in the collection and passes `Matches`; `SearchMembers`, `SearchConcat` and `SearchSingle` prove the rest of its meaning (both directions of membership, and collection order) |
| `WorkerSearch.SearchMembers` | index.js:60-62 | a worker is in the result exactly when it is in the collection and passes both filters: category missing, empty or equal; location missing, empty, or a case-insensitive substring of the worker's location |
| `WorkerSearch.SearchConcat` | index.js:60-62 | searching a concatenation gives the concatenation of the two searches, so the order of the collection is kept |
| `WorkerSearch.SearchSingle` | index.js:60-62 | a one-worker collection yields that worker when it matches and nothing otherwise |
| `WorkerSearch.SearchWithoutFilters` | index.js:61 | with both filters missing or empty, the whole collection is returned |
| `WorkerSearch.SearchKeepsMatching` | index.js:60-62 | when every worker passes both filters, the whole collection is returned |
| `WorkerSearch.SearchComposes` | index.js:61 | filtering by both parameters equals filtering by category and then by location |
| `WorkerSearch.SearchIgnoresQueryCase` | index.js:61 | two location fragments that lower-case alike select the same workers |
| `WorkerSearch.SearchTownExample` | index.js:60-62 | the fragment "town" (and "TOWN") selects both "Downtown" and "Uptown" |
| `TaskMerge.Merge` | index.js:97 | every field present in the body replaces the task's field; every absent field keeps its old value |
| `TaskMerge.MergeEmpty` | index.js:97 | an empty body leaves the task unchanged |
| `TaskMerge.MergeIdempotent` | index.js:97 | applying the same body twice equals applying it once |
| `TaskMerge.MergeThen` | index.js:97 | two updates in a row equal one update whose body combines both, with the second body's fields winning |
| `TaskMerge.MergeStatusOnly` | index.js:97 | the body `{status: s}` sets the status and changes no other field |
| `Handlers.FindIndex` | index.js:105 | returns the first position holding the id, or `None` (JavaScript's -1) exactly when no task holds it |
| `Handlers.FindIndexIsFirst` | index.js:95 | a position that holds the id, with no earlier position holding it, is the one found |
| `Handlers.UpdateKeepsPosition` | index.js:95-97 | a merge that does not change the id leaves the updated task as the first one with that id |
| `Handlers.RemoveOneRecord` | index.js:107 | splicing out position i removes exactly that one record: the length drops by one and the multiset loses only `tasks[i]` |
| `Handlers.Store.constructor` | index.js:21-22 | when no collection file exists, both collections are empty |
| `Handlers.Store.Load` | index.js:23-24 | the store holds the collections read from existing files |
| `Handlers.Store.CreateWorker` | index.js:37-55 | fails with the 400 message exactly when `name` or `category` is missing or empty, and then changes nothing. Otherwise it appends one worker with id = old length + 1, the given name and category, the defaults `skills = []`, `rate = 0`, `location = ""`, `contact = ""`, and `rating = 0`, `tasksCompleted = 0`. Tasks are untouched |
| `Handlers.Store.CreateTask` | index.js:72-90 | fails with the 400 message exactly when `title`, `type` or `category` is missing or empty, and then changes nothing. Otherwise it appends one task with id = old length + 1, `description` and `location` defaulting to `""`, `date` defaulting to today, `assignedWorkerId = null` and `status = "pending"`. Workers are untouched |
| `Handlers.Store.UpdateTask` | index.js:92-100 | fails with the 404 `NotFound` error exactly when no task has the id, and then changes nothing. Otherwise only the first task with the id is replaced by its merge with the body. The length and every other task are unchanged, and the merged task is returned |
| `Handlers.Store.DeleteTask` | index.js:102-110 | fails with 404 exactly when no task has the id, and then changes nothing. Otherwise the collection becomes `tasks[..i] + tasks[i+1..]` for the first index i holding the id, the length drops by one, the multiset of tasks loses exactly the removed task, and the removed task is returned |
| `Scenarios.FixSink` | index.js:76-88 | creating `{title: "Fix sink", type: "repair", category: "plumbing"}` on an empty store returns task 1 with every default filled in, and the collection is exactly that task |
| `Scenarios.IdReusedAfterDelete` | index.js:77 | create, create, delete id 1, create leaves two tasks that both have id 2, and a lookup of id 2 reaches only the older one |

## Left out

- HTTP plumbing is not modelled: routing, CORS, body and query parsing, status codes on the wire, static files and the single-page fallback (index.js:3-14, 113-123). Only the error messages and their 400/404 codes are kept (`Records.Error`).
- The delete reply wraps the removed task as `{message: "Task deleted", task}`. The model returns only the task.
- `GET /workers` and `GET /tasks` are not modelled as operations: each returns its field unchanged.
- JSON files are not modelled. Reading and writing the files and `JSON.parse`/`JSON.stringify` become the two fields of `Store`. A missing file is the empty collection, and writing back is assigning the field. A corrupt file, which makes `JSON.parse` throw, is not modelled.
- The clock: `new Date().toISOString().split('T')[0]` is the `today` parameter of `CreateTask`.
- `parseInt` of the path parameter is not modelled: the id is an `int`. A non-numeric id parses to `NaN`, matches no task and yields NotFound. The model has no counterpart for it.
- Text.Lower: lower-cases only the ASCII letters A-Z, where JavaScript's `toLowerCase` handles all of Unicode.
- JavaScript's dynamic typing is not modelled. Fields have fixed types: strings, `real` for `rate` and `rating`, `int` for ids. Truthiness is reduced to "missing or empty string" for strings and "missing" for `skills` and `rate`. A numeric `0` rate and a missing one give the same default.
- TaskMerge.Merge: the body may only carry the task's own fields, each with its own type. `Object.assign` would also add unknown fields and accept any JSON value, for instance a string id that no later lookup would match.
- Concurrency between requests is not modelled: the model is sequential. Interleaved load/modify/write cycles can lose updates and hand out duplicate ids.
