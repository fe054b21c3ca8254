/**
 * The todo service: four request handlers over one document collection with
 * soft delete. Documents are never removed; delete only sets `is_deleted`,
 * and every handler looks documents up among the ones not deleted.
 *
 * The pure functions below (ListActive, Create, Update, Delete) state what each
 * handler does to the collection and what it answers; the class TodoStore holds
 * the collection and its methods are proved to behave as those functions say.
 */
module TodoApi {
  import opened ObjectIds

  /**
   * A stored todo document. The handlers read `is_deleted`, write `updated_at`
   * and `is_deleted`, and otherwise store the request payload as it is.
   */
  datatype Todo = Todo(
    title: string,
    description: Option<string>,
    isCompleted: bool,
    isDeleted: bool,
    createdAt: int,
    updatedAt: int)

  /** The collection: documents by their `_id`. */
  type Collection = map<ObjectId, Todo>

  /**
   * What a handler returns. The handlers return their HTTPException values
   * rather than raising them, so an error is an ordinary result here too.
   */
  datatype Response =
    | Inserted(statusCode: int, id: string)
    | Acknowledged(statusCode: int, id: string, message: string)
    | HttpException(statusCode: int, detail: string)

  const TaskDoesNotExist := "Task does not exist"
  const TaskUpdated := "Task updated successfully"
  const TaskDeleted := "Task deleted successfully"
  const SomeErrorOccured := "Some error occured: "

  /** The message of the ObjectId constructor's exception for a text it rejects. */
  function InvalidIdReason(taskId: string): string {
    "'" + taskId + "' is not a valid ObjectId, it must be a 12-byte input or a 24-character hex string"
  }

  /** The answer to a task_id that is not an ObjectId: the generic handler's 500. */
  function MalformedId(taskId: string): (r: Response)
    ensures r.HttpException? && r.statusCode == 500
    ensures SomeErrorOccured <= r.detail
  {
    HttpException(500, SomeErrorOccured + InvalidIdReason(taskId))
  }

  const NotFound := HttpException(404, TaskDoesNotExist)

  /** The listing: the documents whose `is_deleted` is false, each as stored. */
  function ListActive(c: Collection): (r: Collection)
    ensures forall id :: id in r <==> id in c && !c[id].isDeleted
    ensures forall id :: id in r ==> r[id] == c[id]
  {
    map id | id in c && !c[id].isDeleted :: c[id]
  }

  /**
   * The lookup by `_id` among the documents whose `is_deleted` is false: it
   * finds a document exactly when the listing holds it.
   */
  function FindActive(c: Collection, id: ObjectId): (r: Option<Todo>)
    ensures r.Some? <==> id in ListActive(c)
    ensures r.Some? ==> r.value == ListActive(c)[id]
  {
    if id in c && !c[id].isDeleted then Some(c[id]) else None
  }

  /** What a handler leaves in the collection and what it answers. */
  datatype Outcome = Outcome(collection: Collection, response: Response)

  /** Creating a task: the payload is inserted as it is under a fresh id. */
  function Create(c: Collection, newTask: Todo, freshId: ObjectId): (o: Outcome)
    requires freshId !in c
    ensures o.collection.Keys == c.Keys + {freshId}
    ensures forall id :: id in c ==> o.collection[id] == c[id]
  {
    Outcome(c[freshId := newTask], Inserted(200, Format(freshId)))
  }

  /** Updating a task: the whole payload, stamped with `now`, replaces an active document. */
  function Update(c: Collection, taskId: string, updatedTask: Todo, now: int): (o: Outcome)
    ensures o.collection.Keys == c.Keys
    ensures forall id :: id in c && c[id].isDeleted ==> o.collection[id] == c[id]
  {
    match Parse(taskId)
    case None => Outcome(c, MalformedId(taskId))
    case Some(id) =>
      if FindActive(c, id).None? then Outcome(c, NotFound)
      else Outcome(c[id := updatedTask.(updatedAt := now)], Acknowledged(200, taskId, TaskUpdated))
  }

  /** Deleting a task: an active document gets `is_deleted` set and nothing else. */
  function Delete(c: Collection, taskId: string): (o: Outcome)
    ensures o.collection.Keys == c.Keys
    ensures forall id :: id in c && c[id].isDeleted ==> o.collection[id] == c[id]
    ensures forall id :: id in c ==> o.collection[id].(isDeleted := false) == c[id].(isDeleted := false)
  {
    match Parse(taskId)
    case None => Outcome(c, MalformedId(taskId))
    case Some(id) =>
      if FindActive(c, id).None? then Outcome(c, NotFound)
      else Outcome(c[id := c[id].(isDeleted := true)], Acknowledged(200, taskId, TaskDeleted))
  }

  /** Whether a task_id names a document that update and delete can reach. */
  predicate Reaches(c: Collection, taskId: string) {
    Parse(taskId).Some? && FindActive(c, Parse(taskId).value).Some?
  }

  // ---------------------------------------------------------------------------
  // Create

  /**
   * Create grows the collection by exactly the new document, leaves the others
   * alone and answers 200 with a text that parses back to the new id.
   */
  lemma CreateInsertsFresh(c: Collection, newTask: Todo, freshId: ObjectId)
    requires freshId !in c
    ensures var o := Create(c, newTask, freshId);
      && o.collection.Keys == c.Keys + {freshId}
      && |o.collection| == |c| + 1
      && o.collection[freshId] == newTask
      && (forall id :: id in c ==> o.collection[id] == c[id])
      && o.response.Inserted? && o.response.statusCode == 200
      && Parse(o.response.id) == Some(freshId)
  {
    var o := Create(c, newTask, freshId);
    assert o.collection.Keys == c.Keys + {freshId};
    assert |c.Keys + {freshId}| == |c.Keys| + 1;
    ParseFormat(freshId);
  }

  /**
   * A created task that is not marked deleted is listed, and looking up the
   * returned id finds the payload.
   */
  lemma CreateThenList(c: Collection, newTask: Todo, freshId: ObjectId)
    requires freshId !in c
    requires !newTask.isDeleted
    ensures var o := Create(c, newTask, freshId);
      && ListActive(o.collection) == ListActive(c)[freshId := newTask]
      && Parse(o.response.id).Some?
      && FindActive(o.collection, Parse(o.response.id).value) == Some(newTask)
  {
    var o := Create(c, newTask, freshId);
    ParseFormat(freshId);
    assert ListActive(o.collection).Keys == ListActive(c).Keys + {freshId};
  }

  // ---------------------------------------------------------------------------
  // Update and delete: the three outcomes

  /**
   * Update answers 500 exactly for a malformed id, 404 exactly for a well-formed
   * id with no active document, and 200 otherwise; only the 200 case writes.
   */
  lemma UpdateOutcomes(c: Collection, taskId: string, updatedTask: Todo, now: int)
    ensures var o := Update(c, taskId, updatedTask, now);
      && (o.response == MalformedId(taskId) <==> !IsObjectIdString(taskId))
      && (o.response == NotFound <==> IsObjectIdString(taskId) && !Reaches(c, taskId))
      && (o.response == Acknowledged(200, taskId, TaskUpdated) <==> Reaches(c, taskId))
      && (!Reaches(c, taskId) ==> o.collection == c)
  {
  }

  /** Delete has the same three outcomes as update. */
  lemma DeleteOutcomes(c: Collection, taskId: string)
    ensures var o := Delete(c, taskId);
      && (o.response == MalformedId(taskId) <==> !IsObjectIdString(taskId))
      && (o.response == NotFound <==> IsObjectIdString(taskId) && !Reaches(c, taskId))
      && (o.response == Acknowledged(200, taskId, TaskDeleted) <==> Reaches(c, taskId))
      && (!Reaches(c, taskId) ==> o.collection == c)
  {
  }

  /**
   * Update on an active document stores the payload with `updated_at` set to
   * `now` under that id, and no other document changes.
   */
  lemma UpdateOverwrites(c: Collection, taskId: string, updatedTask: Todo, now: int)
    requires Reaches(c, taskId)
    ensures var o, id := Update(c, taskId, updatedTask, now), Parse(taskId).value;
      && o.collection.Keys == c.Keys
      && o.collection[id] == updatedTask.(updatedAt := now)
      && (forall other :: other in c && other != id ==> o.collection[other] == c[other])
  {
  }

  /**
   * Delete on an active document sets its `is_deleted` and changes no other
   * field of it and no other document; the document stays in the collection.
   */
  lemma DeleteSoftDeletes(c: Collection, taskId: string)
    requires Reaches(c, taskId)
    ensures var o, id := Delete(c, taskId), Parse(taskId).value;
      && o.collection.Keys == c.Keys
      && o.collection[id].isDeleted
      && o.collection[id].(isDeleted := false) == c[id].(isDeleted := false)
      && (forall other :: other in c && other != id ==> o.collection[other] == c[other])
  {
  }

  /**
   * After a successful delete the document leaves the listing, and a second
   * delete through any text naming it answers 404 and changes nothing.
   */
  lemma DeleteThenGone(c: Collection, taskId: string, again: string)
    requires Reaches(c, taskId)
    requires Parse(again) == Parse(taskId)
    ensures var o := Delete(c, taskId);
      && ListActive(o.collection) == ListActive(c) - {Parse(taskId).value}
      && Delete(o.collection, again) == Outcome(o.collection, NotFound)
  {
  }

  /**
   * A text names the same document as the lower-case text of its id: task ids
   * differing only in the case of their hexadecimal digits have the same effect.
   */
  lemma CaseOfIdIrrelevant(c: Collection, taskId: string, other: string, updatedTask: Todo, now: int)
    requires IsObjectIdString(taskId) && IsObjectIdString(other)
    requires LowerCase(taskId) == LowerCase(other)
    ensures Update(c, taskId, updatedTask, now).collection == Update(c, other, updatedTask, now).collection
    ensures Delete(c, taskId).collection == Delete(c, other).collection
  {
    FormatParse(taskId);
    ParseNames(other, Parse(taskId).value);
  }

  // ---------------------------------------------------------------------------
  // Soft delete is final

  /** The requests a client can send, with the clock and the id supply as arguments. */
  datatype Request =
    | GetAll
    | Post(newTask: Todo, freshId: ObjectId)
    | Put(taskId: string, updatedTask: Todo, now: int)
    | Del(taskId: string)

  /** A request can be served: a post's id is not yet in use. */
  predicate Servable(c: Collection, req: Request) {
    req.Post? ==> req.freshId !in c
  }

  function Step(c: Collection, req: Request): Collection
    requires Servable(c, req)
  {
    match req
    case GetAll => c
    case Post(t, f) => Create(c, t, f).collection
    case Put(taskId, t, now) => Update(c, taskId, t, now).collection
    case Del(taskId) => Delete(c, taskId).collection
  }

  /** Every request of the sequence can be served in turn. */
  predicate ServableAll(c: Collection, reqs: seq<Request>)
    decreases |reqs|
  {
    reqs == [] || (Servable(c, reqs[0]) && ServableAll(Step(c, reqs[0]), reqs[1..]))
  }

  /** The collection after serving the requests one after another. */
  function Run(c: Collection, reqs: seq<Request>): Collection
    requires ServableAll(c, reqs)
    decreases |reqs|
  {
    if reqs == [] then c else Run(Step(c, reqs[0]), reqs[1..])
  }

  /**
   * One request removes no document and leaves a deleted document exactly as
   * it was: no handler reaches a deleted document.
   */
  lemma StepKeepsDeleted(c: Collection, req: Request)
    requires Servable(c, req)
    ensures c.Keys <= Step(c, req).Keys
    ensures forall id :: id in c && c[id].isDeleted ==> Step(c, req)[id] == c[id]
  {
  }

  /**
   * Over any sequence of requests, no document is removed and a deleted
   * document never changes again, so it never becomes active.
   */
  lemma {:induction false} RunKeepsDeleted(c: Collection, reqs: seq<Request>)
    requires ServableAll(c, reqs)
    ensures c.Keys <= Run(c, reqs).Keys
    ensures forall id :: id in c && c[id].isDeleted ==> Run(c, reqs)[id] == c[id]
    decreases |reqs|
  {
    if reqs != [] {
      StepKeepsDeleted(c, reqs[0]);
      RunKeepsDeleted(Step(c, reqs[0]), reqs[1..]);
    }
  }

  // ---------------------------------------------------------------------------
  // The handlers

  /** The service's collection handle and the four handlers over it. */
  class TodoStore {
    var collection: Collection

    constructor (initial: Collection)
      ensures collection == initial
    {
      collection := initial;
    }

    /** get_all_todos: reads the collection and changes nothing. */
    method GetAllTodos() returns (data: Collection)
      ensures data == ListActive(collection)
    {
      data := map id | id in collection && !collection[id].isDeleted :: collection[id];
    }

    /** create_task: inserts the payload under the fresh id and answers with the id's text. */
    method CreateTask(newTask: Todo, freshId: ObjectId) returns (resp: Response)
      requires freshId !in collection
      modifies this
      ensures Outcome(collection, resp) == Create(old(collection), newTask, freshId)
    {
      collection := collection[freshId := newTask];
      resp := Inserted(200, Format(freshId));
    }

    /** update_task: parse, look up among active documents, stamp and write the payload. */
    method UpdateTask(taskId: string, updatedTask: Todo, now: int) returns (resp: Response)
      modifies this
      ensures Outcome(collection, resp) == Update(old(collection), taskId, updatedTask, now)
    {
      var parsed := Parse(taskId);
      if parsed.None? {
        return MalformedId(taskId);
      }
      var id := parsed.value;
      var existing := FindActive(collection, id);
      if existing.None? {
        return NotFound;
      }
      var task := updatedTask;
      task := task.(updatedAt := now);
      collection := collection[id := task];
      resp := Acknowledged(200, taskId, TaskUpdated);
    }

    /** delete_task: parse, look up among active documents, set `is_deleted` only. */
    method DeleteTask(taskId: string) returns (resp: Response)
      modifies this
      ensures Outcome(collection, resp) == Delete(old(collection), taskId)
    {
      var parsed := Parse(taskId);
      if parsed.None? {
        return MalformedId(taskId);
      }
      var id := parsed.value;
      var existing := FindActive(collection, id);
      if existing.None? {
        return NotFound;
      }
      collection := collection[id := collection[id].(isDeleted := true)];
      resp := Acknowledged(200, taskId, TaskDeleted);
    }
  }
}
