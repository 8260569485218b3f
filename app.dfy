/** The application (package `app`): handlers bound to one store, calling it
    and answering as the pure decisions in module Handlers say. */
module Application {
  import opened Outcomes
  import opened Todos
  import opened Storage
  import opened Handlers

  /** The store an application is built over: the working store or the
      double that fails every operation. */
  datatype Backend = Working(store: Store) | Failing(broken: BrokenStore)

  class App {
    const db: Backend

    /** `New(storage)`. */
    constructor New(db: Backend)
      ensures this.db == db
    {
      this.db := db;
    }

    /** The objects a handler may read or change. */
    function Repr(): set<object>
    {
      match db
      case Working(s) => {s}
      case Failing(b) => {}
    }

    predicate Valid()
      reads Repr()
    {
      db.Working? ==> db.store.Valid()
    }

    /** `list`: 200 with every record, in storage order and field by field;
        500 when listing fails. */
    method List() returns (resp: Response)
      ensures db.Working? ==> resp == Response(StatusOK, TodoList(db.store.View()))
      ensures db.Failing? ==> resp == ServerError()
    {
      match db
      case Working(s) =>
        var listed := s.GetAll();
        resp := ListResponse(Ok(Values(listed.value)));
      case Failing(b) =>
        var listed := b.GetAll();
        resp := ListResponse(Err(listed.error));
    }

    /** `addTodo`: validates the body, and only then asks the store to add. */
    method AddTodo(body: Decoded) returns (resp: Response)
      requires Valid()
      modifies Repr()
      ensures Valid()
      ensures CheckCreate(body).Err? ==> resp == BadRequest(CheckCreate(body).error)
      ensures db.Failing? ==> resp == AddTodoResponse(body, Err(Broken))
      ensures db.Working? && CheckCreate(body).Err? ==> db.store.todos == old(db.store.todos)
      ensures db.Working? && CheckCreate(body).Ok? ==>
        var created := TodoValue(db.store.base + |old(db.store.todos)|, body.payload.title, body.payload.content, false);
        && db.store.View() == old(db.store.View()) + [created]
        && resp == AddTodoResponse(body, Ok(created))
    {
      var checked := CheckCreate(body);
      if checked.Err? {
        resp := BadRequest(checked.error);
        return;
      }
      var p := checked.value;
      match db
      case Working(s) =>
        var added := s.AddTodo(p.title, p.content);
        resp := AddTodoResponse(body, Ok(added.value.Value()));
      case Failing(b) =>
        var added := b.AddTodo(p.title, p.content);
        resp := AddTodoResponse(body, Err(added.error));
    }

    /** `getTodo`, given the handler's own parse of the id (None: unparseable). */
    method GetTodo(id: Option<ID>) returns (resp: Response)
      ensures id.None? ==> resp == BadRequest(BadId)
      ensures db.Working? && id.Some? ==> resp == GetTodoResponse(id, Lookup(db.store.View(), id.value))
      ensures db.Failing? ==> resp == GetTodoResponse(id, Err(NotFound))
    {
      if id.None? {
        return BadRequest(BadId);
      }
      match db
      case Working(s) =>
        var found := s.GetTodo(id.value);
        var v := if found.Ok? then Ok(found.value.Value()) else Err(found.error);
        resp := GetTodoResponse(id, v);
      case Failing(b) =>
        var found := b.GetTodo(id.value);
        resp := GetTodoResponse(id, Err(found.error));
    }

    /** `finishTodo`, given the handler's own parse of the id (None: unparseable). */
    method FinishTodo(id: Option<ID>) returns (resp: Response)
      requires Valid()
      modifies if db.Working? then db.store.Records() else {}
      ensures Valid()
      ensures id.None? ==> resp == BadRequest(BadId)
      ensures db.Failing? ==> resp == FinishTodoResponse(id, Some(NotFound))
      ensures db.Working? && id.None? ==> db.store.View() == old(db.store.View())
      ensures db.Working? && id.Some? ==>
        && (Finish(old(db.store.View()), id.value).None? ==>
              resp == ServerError() && db.store.View() == old(db.store.View()))
        && (Finish(old(db.store.View()), id.value).Some? ==>
              resp == Response(StatusOK, NoBody) && db.store.View() == Finish(old(db.store.View()), id.value).value)
    {
      if id.None? {
        return BadRequest(BadId);
      }
      match db
      case Working(s) =>
        var failed := s.FinishTodo(id.value);
        resp := FinishTodoResponse(id, failed);
      case Failing(b) =>
        var failed := b.FinishTodo(id.value);
        resp := FinishTodoResponse(id, failed);
    }

    /** `GET /todo/{id}` through the router: a non-numeric segment is answered
        404 before any handler runs. */
    method ServeGetTodo(seg: Segment) returns (resp: Response)
      ensures seg.NonNumeric? ==> resp == RouterNotFound()
      ensures seg.Numeric? && db.Working? ==> resp == GetTodoResponse(Some(seg.n), Lookup(db.store.View(), seg.n))
      ensures seg.Numeric? && db.Failing? ==> resp == ServerError()
    {
      var id := RouteId(seg);
      if id.None? {
        return RouterNotFound();
      }
      resp := GetTodo(id);
    }

    /** `POST /todo/{id}/finish` through the router. */
    method ServeFinishTodo(seg: Segment) returns (resp: Response)
      requires Valid()
      modifies if db.Working? then db.store.Records() else {}
      ensures Valid()
      ensures seg.NonNumeric? ==> resp == RouterNotFound()
      ensures db.Working? && seg.NonNumeric? ==> db.store.View() == old(db.store.View())
      ensures db.Failing? && seg.Numeric? ==> resp == ServerError()
      ensures db.Working? && seg.Numeric? ==>
        && (Finish(old(db.store.View()), seg.n).None? ==>
              resp == ServerError() && db.store.View() == old(db.store.View()))
        && (Finish(old(db.store.View()), seg.n).Some? ==>
              resp == Response(StatusOK, NoBody) && db.store.View() == Finish(old(db.store.View()), seg.n).value)
    {
      var id := RouteId(seg);
      if id.None? {
        return RouterNotFound();
      }
      resp := FinishTodo(id);
    }
  }
}
