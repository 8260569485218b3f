/** The repository's test cases replayed against the model: each method runs
    one test's sequence of calls and its postcondition implies what the test asserts. */
module Scenarios {
  import opened Outcomes
  import opened Todos
  import opened Storage
  import opened Handlers
  import opened Application

  /** The first record added to a fresh store gets id 0 and the given fields. */
  method FirstAddOnFreshStore() returns (added: TodoValue)
    ensures added == TodoValue(0, "lol", "kek", false)
  {
    var s := new Store.InMemory();
    var r := s.AddTodo("lol", "kek");
    added := r.value.Value();
  }

  /** A lookup of the id just assigned yields the very record the add returned;
      a lookup of an id never assigned fails. */
  method GetAfterAdd() returns (sameRecord: bool, missingFails: bool)
    ensures sameRecord && missingFails
  {
    var s := new Store.InMemory();
    var r := s.AddTodo("lol", "kek");
    AppendPositional([], 0, "lol", "kek");
    var got := s.GetTodo(0);
    sameRecord := got == Ok(r.value);
    FindPositional(s.View(), 0, 1);
    var miss := s.GetTodo(1);
    missingFails := miss == Err(NotFound);
  }

  /** After two adds, listing yields both records, in the order they were added. */
  method ListAfterTwoAdds() returns (count: nat, inOrder: bool, listed: seq<TodoValue>)
    ensures count == 2 && inOrder
    ensures listed == Added(0, [("lol", "kek"), ("kek", "lol")])
    ensures listed == [TodoValue(0, "lol", "kek", false), TodoValue(1, "kek", "lol", false)]
  {
    var s := new Store.InMemory();
    var r1 := s.AddTodo("lol", "kek");
    AddedStep(0, [], "lol", "kek");
    var r2 := s.AddTodo("kek", "lol");
    AddedStep(0, [("lol", "kek")], "kek", "lol");
    var all := s.GetAll();
    count := |all.value|;
    inOrder := all.value[0] == r1.value && all.value[1] == r2.value;
    listed := Values(all.value);
  }

  /** Finishing the id just assigned succeeds and shows through the record the
      add returned; finishing an id never assigned fails. */
  method FinishThroughSharedRecord() returns (shownFinished: bool, firstOk: bool, missingFails: bool)
    ensures shownFinished && firstOk && missingFails
  {
    var s := new Store.InMemory();
    var r := s.AddTodo("lol", "kek");
    var todo := r.value;
    ghost var v := TodoValue(0, "lol", "kek", false);
    assert s.View() == [v];
    assert FirstIndex([v], 0) == Some(0);
    assert [v][0 := v.(finished := true)] == [v.(finished := true)];
    assert Finish([v], 0) == Some([v.(finished := true)]);
    var err := s.FinishTodo(0);
    assert s.View()[0] == todo.Value();
    shownFinished := todo.finished;
    firstOk := err.None?;
    assert FirstIndex(s.View(), 1) == None;
    var err2 := s.FinishTodo(1);
    missingFails := err2 == Some(NotFound);
  }

  /** Finishing and then unfinishing a record changes the same record in place
      and restores its original contents. */
  method FinishUnfinish() returns (afterFinish: bool, afterUnfinish: bool, restored: bool)
    ensures afterFinish && !afterUnfinish && restored
  {
    var todo := new Todo(1, "Test Todo 1", "Some content", false);
    var original := todo.Value();
    todo.MarkFinished();
    afterFinish := todo.finished;
    todo.MarkUnfinished();
    afterUnfinish := todo.finished;
    restored := todo.Value() == original;
  }

  /** Listing the seeded double answers 200 with its records field by field;
      the failing double answers 500. */
  method ListSeeded() returns (ok: Response, failed: Response)
    ensures ok == Response(StatusOK, TodoList([
      TodoValue(1, "Test Todo 1", "Some content", false),
      TodoValue(2, "Test Todo 2", "Some content", true),
      TodoValue(3, "Test Todo 3", "Some content", false)]))
    ensures failed.code == StatusInternalServerError
  {
    var t1 := new Todo(1, "Test Todo 1", "Some content", false);
    var t2 := new Todo(2, "Test Todo 2", "Some content", true);
    var t3 := new Todo(3, "Test Todo 3", "Some content", false);
    var s := new Store.Mock([t1, t2, t3]);
    assert s.View() == [t1.Value(), t2.Value(), t3.Value()];
    var a := new App.New(Working(s));
    ok := a.List();
    var u1 := new Todo(1, "Test Todo 1", "Some content", false);
    var u2 := new Todo(2, "Test Todo 2", "Some content", true);
    var u3 := new Todo(3, "Test Todo 3", "Some content", false);
    var b := new BrokenStore([u1, u2, u3]);
    var fa := new App.New(Failing(b));
    failed := fa.List();
  }

  /** The health handler answers 200 with the fixed JSON string. */
  method StatusCase() returns (r: Response)
    ensures r == Response(StatusOK, JsonString("API is up and working!"))
  {
    r := StatusResponse();
  }

  /** Creating: 201 for a body with a title, 400 for an empty title, 400 for a
      body that is not a request object, 500 when the store fails. */
  method CreateCases() returns (created: Response, emptyTitle: Response, notAnObject: Response, storeFails: Response)
    ensures created == Response(StatusCreated, TodoRecord(TodoValue(3, "Test Todo 1", "Some content", false)))
    ensures emptyTitle.code == StatusBadRequest
    ensures notAnObject.code == StatusBadRequest
    ensures storeFails.code == StatusInternalServerError
  {
    var t1 := new Todo(1, "Test Todo 1", "Some content", false);
    var t2 := new Todo(2, "", "Some content", false);
    var s := new Store.Mock([t1, t2]);
    var a := new App.New(Working(s));
    created := a.AddTodo(Decoded(Payload("Test Todo 1", "Some content")));
    emptyTitle := a.AddTodo(Decoded(Payload("", "Some content")));
    notAnObject := a.AddTodo(Undecodable);
    var u1 := new Todo(1, "Test Todo 1", "Some content", false);
    var b := new BrokenStore([u1]);
    var fa := new App.New(Failing(b));
    storeFails := fa.AddTodo(Decoded(Payload("Test Todo 1", "Some content")));
  }

  /** Looking up through the router: 200 with the record, 404 from the router
      for a non-numeric id, 500 with the fixed message for a missing id; and
      400 when the handler is reached without an id it can parse. */
  method GetCases() returns (found: Response, notRouted: Response, missing: Response, unparsed: Response)
    ensures found == Response(StatusOK, TodoRecord(TodoValue(1, "lol", "", false)))
    ensures notRouted == Response(StatusNotFound, PlainText("404 page not found\n"))
    ensures missing == Response(StatusInternalServerError, PlainText("Server encountered an error."))
    ensures unparsed.code == StatusBadRequest
  {
    var t := new Todo(1, "lol", "", false);
    var s := new Store.Mock([t]);
    var a := new App.New(Working(s));
    found := a.ServeGetTodo(Numeric(1));
    notRouted := a.ServeGetTodo(NonNumeric("invalid"));
    missing := a.ServeGetTodo(Numeric(999));
    unparsed := a.GetTodo(None);
  }

  /** Finishing: 400 without a parseable id; 200 through the router for an
      existing id, after which the seeded record is finished; 500 for a
      missing id. */
  method FinishCases() returns (unparsed: Response, finished: Response, recordFinished: bool, missing: Response)
    ensures unparsed.code == StatusBadRequest
    ensures finished.code == StatusOK && recordFinished
    ensures missing.code == StatusInternalServerError
  {
    var t1 := new Todo(1, "Test Todo 1", "Some content", false);
    var t2 := new Todo(2, "", "Some content", false);
    var s := new Store.Mock([t1, t2]);
    var a := new App.New(Working(s));
    unparsed := a.FinishTodo(None);
    finished := a.ServeFinishTodo(Numeric(1));
    assert s.View()[0] == t1.Value();
    recordFinished := t1.finished;
    missing := a.ServeFinishTodo(Numeric(3));
  }
}
