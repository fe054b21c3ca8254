# Soft-delete todo store

A model of the todo service in `main.py`: four request handlers over one
MongoDB collection of todo documents. Documents are never removed. Deleting a
task sets its `is_deleted` flag, and listing, updating and deleting only see
documents whose flag is false.

- `objectid.dfy`, module `ObjectIds`: the store's twelve-byte document id and its
  text form of 24 hexadecimal digits. `Parse` builds an id from a `task_id`,
  like `ObjectId(task_id)` does. `Format` gives the text the service returns, like
  `str(resp.inserted_id)` does.
- `todo_api.dfy`, module `TodoApi`: the `Todo` document, the handlers' result
  values and the collection as a map from id to document. `ListActive`, `Create`,
  `Update` and `Delete` are pure functions. Each one says what a handler leaves in
  the collection and what it answers. The class `TodoStore` owns the collection.
  Its four methods, `GetAllTodos`, `CreateTask`, `UpdateTask` and `DeleteTask`,
  are the handlers. Each method is proved to do what the matching function says.
  The lemmas state the service's properties about those functions.

Each handler returns a `Response`: `Inserted` for create's `{status_code, id}`,
`Acknowledged` for the `{status_code, id, message}` of update and delete, and
`HttpException(status, detail)` for errors. The handlers return their
`HTTPException` values instead of raising them, so errors are ordinary results
in the model too.

Points where `main.py` behaves differently from what one might expect:
- A `task_id` that is not 24 hexadecimal digits makes `ObjectId(task_id)` raise
  inside the `try`. The generic `except` turns that into a 500, not a 404.
- Update writes the whole payload with `$set`. The stored document becomes the
  payload with `updated_at` replaced, so `created_at` and `is_deleted` come from
  the payload and are not kept from the stored document. An update therefore
  cannot make a deleted document active, because the lookup skips deleted
  documents. It can, however, store a payload whose `is_deleted` is true.
- Create inserts the payload as it is. `main.py` sets no timestamps and does not
  force `is_deleted` to false, so the model promises `updated_at >= created_at`
  nowhere.
- Case does not matter in ids. A `task_id` in upper-case hexadecimal names the
  same document as its lower-case text (`CaseOfIdIrrelevant`). Update and delete
  echo the caller's text as it was given.

## Model

| member | source | states |
|---|---|---|
| `ObjectIds.Parse` | main.py:31 | `ObjectId(task_id)` succeeds exactly when the text is 24 hexadecimal digits |
| `ObjectIds.Format` | main.py:24 | the id text the service hands out is 24 lower-case hexadecimal digits |
| `ObjectIds.DecodePairs` | main.py:31 | each byte of the parsed id is the value of its two hexadecimal digits, high nibble first |
| `ObjectIds.EncodeBytes` | main.py:24 | each byte is written as two lower-case digits, high nibble first, twice as many characters as bytes |
| `ObjectIds.ParseFormat` | main.py:24 | the id text returned by create parses back to the same id |
| `ObjectIds.FormatParse` | main.py:31 | formatting a parsed id gives the caller's text in lower case |
| `ObjectIds.ParseNames` | main.py:31 | a text names an id exactly when it is that id's text in some mix of upper and lower case |
| `TodoApi.ListActive` | main.py:14 | the listing holds exactly the documents whose `is_deleted` is false, each as stored |
| `TodoApi.FindActive` | main.py:32 | the lookup `find_one({"_id": id, "is_deleted": False})`, also at main.py:45, finds a document exactly when the listing holds it, and finds it as listed |
| `TodoApi.MalformedId` | main.py:38-39 | the generic `except`, also at main.py:50-51, answers a rejected `task_id` with an HTTPException of status 500 whose detail starts with "Some error occured: " |
| `TodoApi.Create` | main.py:18-24 | create grows the key set by exactly the fresh id and keeps every other document; `CreateInsertsFresh` and `CreateThenList` below carry the rest of its contract |
| `TodoApi.Update` | main.py:29-39 | update keeps the key set and leaves every deleted document as it was; `UpdateOutcomes` and `UpdateOverwrites` below carry the rest of its contract |
| `TodoApi.Delete` | main.py:42-51 | delete keeps the key set, leaves every deleted document as it was, and changes no field other than `is_deleted` in any document; `DeleteOutcomes`, `DeleteSoftDeletes` and `DeleteThenGone` below carry the rest of its contract |
| `TodoApi.CreateInsertsFresh` | main.py:22-24 | create adds exactly one document, the payload, under the fresh id, keeps every other document, and answers 200 with a text that parses back to that id |
| `TodoApi.CreateThenList` | main.py:14-24 | a created task not marked deleted joins the listing, and looking up the returned id finds the payload |
| `TodoApi.UpdateOutcomes` | main.py:30-39 | update answers 500 exactly for a malformed id, 404 "Task does not exist" exactly for a well-formed id with no active document, 200 "Task updated successfully" with the caller's id otherwise, and only the 200 case writes |
| `TodoApi.DeleteOutcomes` | main.py:43-51 | the same three outcomes for delete, with "Task deleted successfully" |
| `TodoApi.UpdateOverwrites` | main.py:35-36 | update on an active document stores the payload with `updated_at` set to the current time, and no other document changes |
| `TodoApi.DeleteSoftDeletes` | main.py:48 | delete on an active document keeps it, sets its `is_deleted`, and changes no other field and no other document |
| `TodoApi.DeleteThenGone` | main.py:45-48 | after a successful delete the document leaves the listing, and a second delete through any text naming it answers 404 and changes nothing |
| `TodoApi.CaseOfIdIrrelevant` | main.py:31-48 | task ids that differ only in the case of their digits have the same effect on the collection |
| `TodoApi.StepKeepsDeleted` | main.py:14-48 | no handler removes a document or changes a deleted one |
| `TodoApi.RunKeepsDeleted` | main.py:14-48 | over any sequence of requests no document is removed and a deleted document never changes again, so it never becomes active |
| `TodoApi.TodoStore.constructor` | main.py:2 | the store starts with the given collection |
| `TodoApi.TodoStore.GetAllTodos` | main.py:13-15 | `get_all_todos` returns the listing of the current collection and changes nothing |
| `TodoApi.TodoStore.CreateTask` | main.py:18-24 | `create_task` leaves the collection and answer that `Create` gives |
| `TodoApi.TodoStore.UpdateTask` | main.py:29-39 | `update_task` leaves the collection and answer that `Update` gives |
| `TodoApi.TodoStore.DeleteTask` | main.py:42-51 | `delete_task` leaves the collection and answer that `Delete` gives |

## Left out

- The FastAPI application, the router and the HTTP decorators (main.py:9-12, main.py:54) are framework wiring. Each handler is a plain method. How the framework serializes a returned `HTTPException` is not modelled; the result value carries the status code and detail that the handler put in it.
- The audit log and its background tasks (main.py:21, main.py:23, `log/log.py`) append to a file and do not affect any result. They are not modelled.
- The MongoDB driver and its connection (`configurations`) are replaced by an in-memory map. Driver failures are not modelled, so create's 500 path (main.py:25-26) and the store-failure side of the generic `except` in update and delete never occur in the model.
- `database/models` and `database/schemas` are not part of this model. The `Todo` fields are the ones the stored documents carry, and the listing's output shaping (`all_tasks`) is taken as the identity.
- The listing is a map from id to document. The order in which the cursor yields documents is not modelled.
- The wall clock and the generation of new ObjectIds are nondeterministic. They are parameters: `now` for update, and a `freshId` that must not be in use for create.
- Concurrency, including the race between `find_one` and `update_one`, is not modelled. The handlers run one after another.
- ObjectIds.Parse: the ObjectId library is not part of this model. Parsing follows its documented rule of exactly 24 hexadecimal digits in either case. The library decodes with `bytes.fromhex`, which skips ASCII whitespace between digit pairs. So a 24-character text such as two spaces followed by 22 hexadecimal digits is accepted there and gives an 11-byte id. `Parse` rejects that text, and the model answers 500 where the library would go on to the lookup.
- TodoApi.InvalidIdReason: the library's exception message is modelled with the rejected text in single quotes. Python's `repr` quoting and escaping are not reproduced.
