/** The todo stores: the slice-backed in-memory store (with its two id rules:
    the package's store numbers from 0, the test double from 1) and the test
    double whose every operation fails. */
module Storage {
  import opened Outcomes
  import opened Todos

  /** The error a store operation returns; only its message is observable. */
  datatype StoreError = StoreError(message: string)

  /** Returned by a scan that finds no record with the requested id. */
  const NotFound := StoreError("not found")

  /** Returned by the failing store for the operations that are not lookups. */
  const Broken := StoreError("lol")

  /** The value a lookup of `id` yields on a store whose contents are `vs`. */
  function Lookup(vs: seq<TodoValue>, id: ID): (r: Result<TodoValue, StoreError>)
    ensures r.Ok? <==> exists j :: 0 <= j < |vs| && vs[j].id == id
    ensures r.Ok? ==> r.value.id == id && r.value in vs
    ensures r.Ok? ==> exists k :: 0 <= k < |vs| && r.value == vs[k] && forall j :: 0 <= j < k ==> vs[j].id != id
    ensures r.Err? ==> r.error == NotFound
  {
    match FirstIndex(vs, id)
    case Some(k) => Ok(vs[k])
    case None => Err(NotFound)
  }

  /** A lookup of the id the next add assigns finds the record that add creates. */
  lemma AddThenLookup(vs: seq<TodoValue>, base: ID, title: string, content: string)
    requires IdsFrom(vs, base)
    ensures Lookup(vs + [TodoValue(base + |vs|, title, content, false)], base + |vs|)
         == Ok(TodoValue(base + |vs|, title, content, false))
  {
    AppendPositional(vs, base, title, content);
  }

  /** The contents of a store numbering from `base` after adding the
      (title, content) pairs `adds` one after another, starting empty: each
      step appends what one AddTodo call appends. */
  function Added(base: ID, adds: seq<(string, string)>): seq<TodoValue>
  {
    if adds == [] then []
    else
      var before := Added(base, adds[..|adds| - 1]);
      var (title, content) := adds[|adds| - 1];
      before + [TodoValue(base + |before|, title, content, false)]
  }

  /** Listing after a run of adds yields one record per add, in the order of
      the adds, with ids `base, base + 1, ...`, unfinished. */
  lemma {:induction false} AddedInOrder(base: ID, adds: seq<(string, string)>)
    ensures |Added(base, adds)| == |adds|
    ensures forall i :: 0 <= i < |adds| ==>
      Added(base, adds)[i] == TodoValue(base + i, adds[i].0, adds[i].1, false)
    ensures IdsFrom(Added(base, adds), base)
  {
    if adds != [] {
      var init := adds[..|adds| - 1];
      AddedInOrder(base, init);
      forall i | 0 <= i < |init| ensures init[i] == adds[i] { }
    }
  }

  /** One more add extends the run by exactly the record AddTodo appends. */
  lemma AddedStep(base: ID, adds: seq<(string, string)>, title: string, content: string)
    ensures Added(base, adds + [(title, content)])
         == Added(base, adds) + [TodoValue(base + |Added(base, adds)|, title, content, false)]
  {
    assert (adds + [(title, content)])[..|adds|] == adds;
  }

  /** An ordered, slice-backed collection of shared records. A new record
      gets id `base + (number of records held)`. */
  class Store {
    const base: ID
    var todos: seq<Todo>

    /** No record object sits in two slots. */
    predicate Valid()
      reads this
    {
      forall i, j :: 0 <= i < j < |todos| ==> todos[i] != todos[j]
    }

    /** The records the store holds, as a set of objects. */
    function Records(): set<Todo>
      reads this
    {
      set t | t in todos
    }

    /** The contents of the store, in insertion order. */
    function View(): seq<TodoValue>
      reads this, Records()
    {
      Values(todos)
    }

    /** The package's `NewInMemoryStorage`: empty, numbering from 0. */
    constructor InMemory()
      ensures Valid() && base == 0 && todos == []
    {
      base := 0;
      todos := [];
    }

    /** The test double `mockStorage`, seeded with records; it numbers a new
        record one past the current length. */
    constructor Mock(records: seq<Todo>)
      requires forall i, j :: 0 <= i < j < |records| ==> records[i] != records[j]
      ensures Valid() && base == 1 && todos == records
    {
      base := 1;
      todos := records;
    }

    /** Returns the held records themselves, in insertion order; never fails. */
    method GetAll() returns (r: Result<seq<Todo>, StoreError>)
      ensures r == Ok(todos)
      ensures Values(r.value) == View()
    {
      r := Ok(todos);
    }

    /** Appends a fresh, unfinished record with the next id and returns it;
        never fails. Records already held are not touched. */
    method AddTodo(title: string, content: string) returns (r: Result<Todo, StoreError>)
      requires Valid()
      modifies this
      ensures Valid()
      ensures r.Ok? && fresh(r.value)
      ensures todos == old(todos) + [r.value]
      ensures r.value.Value() == TodoValue(base + |old(todos)|, title, content, false)
      ensures View() == old(View()) + [TodoValue(base + |old(todos)|, title, content, false)]
      ensures IdsFrom(old(View()), base) ==> IdsFrom(View(), base)
    {
      var todo := new Todo(base + |todos|, title, content, false);
      ghost var before := View();
      todos := todos + [todo];
      assert View() == before + [todo.Value()];
      r := Ok(todo);
      if IdsFrom(before, base) {
        AppendPositional(before, base, title, content);
      }
    }

    /** Linear scan from the front: the first record holding `id`, or
        NotFound when none does. The record returned is the shared object. */
    method GetTodo(id: ID) returns (r: Result<Todo, StoreError>)
      ensures FirstIndex(View(), id).Some? ==> r == Ok(todos[FirstIndex(View(), id).value])
      ensures FirstIndex(View(), id).None? ==> r == Err(NotFound)
      ensures r.Ok? ==> Lookup(View(), id) == Ok(r.value.Value())
    {
      var i := 0;
      while i < |todos|
        invariant 0 <= i <= |todos|
        invariant forall j :: 0 <= j < i ==> todos[j].id != id
      {
        if todos[i].id == id {
          assert View()[i].id == id;
          assert forall j :: 0 <= j < i ==> View()[j].id != id;
          return Ok(todos[i]);
        }
        i := i + 1;
      }
      return Err(NotFound);
    }

    /** Linear scan from the front; the first record holding `id` is marked
        finished in place. NotFound, and no change, when no record holds it. */
    method FinishTodo(id: ID) returns (err: Option<StoreError>)
      requires Valid()
      modifies Records()
      ensures Valid()
      ensures Finish(old(View()), id).None? ==> err == Some(NotFound) && View() == old(View())
      ensures Finish(old(View()), id).Some? ==> err == None && View() == Finish(old(View()), id).value
    {
      var i := 0;
      while i < |todos|
        invariant 0 <= i <= |todos|
        invariant forall j :: 0 <= j < i ==> todos[j].id != id
      {
        if todos[i].id == id {
          ghost var before := View();
          todos[i].MarkFinished();
          assert View() == before[i := before[i].(finished := true)];
          return None;
        }
        i := i + 1;
      }
      return Some(NotFound);
    }
  }

  /** Adds the (title, content) pairs one after another to an empty store;
      afterwards the store holds exactly the records the run of adds yields. */
  method AddAll(s: Store, adds: seq<(string, string)>)
    requires s.Valid() && s.todos == []
    modifies s
    ensures s.Valid() && s.View() == Added(s.base, adds)
  {
    var i := 0;
    while i < |adds|
      invariant 0 <= i <= |adds|
      invariant s.Valid()
      invariant |s.todos| == i
      invariant s.View() == Added(s.base, adds[..i])
    {
      var (title, content) := adds[i];
      ghost var done := adds[..i];
      assert |Added(s.base, done)| == i;
      AddedStep(s.base, done, title, content);
      var _ := s.AddTodo(title, content);
      assert adds[..i + 1] == done + [(title, content)];
      i := i + 1;
    }
    assert adds[..|adds|] == adds;
  }

  /** The test double `brokenMockStorage`: every operation fails. */
  class BrokenStore {
    var todos: seq<Todo>

    constructor (records: seq<Todo>)
      ensures todos == records
    {
      todos := records;
    }

    method GetAll() returns (r: Result<seq<Todo>, StoreError>)
      ensures r.Err? && r.error == Broken
    {
      r := Err(Broken);
    }

    method AddTodo(title: string, content: string) returns (r: Result<Todo, StoreError>)
      ensures r.Err? && r.error == Broken
    {
      r := Err(Broken);
    }

    method GetTodo(id: ID) returns (r: Result<Todo, StoreError>)
      ensures r.Err? && r.error == NotFound
    {
      r := Err(NotFound);
    }

    method FinishTodo(id: ID) returns (err: Option<StoreError>)
      ensures err == Some(NotFound)
    {
      err := Some(NotFound);
    }
  }
}
