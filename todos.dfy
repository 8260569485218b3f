/** The todo record (package `models`): the record class, its value view,
    and the value-level facts the store's linear scans rely on. */
module Todos {
  import opened Outcomes

  /** Identifier of a record (`models.ID`). */
  type ID = int

  /** What a record holds, field by field: what the JSON encoding shows and the tests compare. */
  datatype TodoValue = TodoValue(id: ID, title: string, content: string, finished: bool)

  /** A record lives on the heap; the store and its callers share it by reference. */
  class Todo {
    var id: ID
    var title: string
    var content: string
    var finished: bool

    constructor (id: ID, title: string, content: string, finished: bool)
      ensures Value() == TodoValue(id, title, content, finished)
    {
      this.id := id;
      this.title := title;
      this.content := content;
      this.finished := finished;
    }

    /** The record's current contents. */
    function Value(): TodoValue
      reads this
    {
      TodoValue(id, title, content, finished)
    }

    /** Sets the completion flag in place; every other field is kept. */
    method MarkFinished()
      modifies this
      ensures Value() == old(Value()).(finished := true)
    {
      finished := true;
    }

    /** Clears the completion flag in place; every other field is kept. */
    method MarkUnfinished()
      modifies this
      ensures Value() == old(Value()).(finished := false)
    {
      finished := false;
    }
  }

  /** The contents of a sequence of records, slot by slot. */
  function Values(ts: seq<Todo>): seq<TodoValue>
    reads set t | t in ts
  {
    seq(|ts|, i reads set t | t in ts requires 0 <= i < |ts| => ts[i].Value())
  }

  /** The slot a front-to-back scan for `id` stops at: the first one holding
      that id, or None when no slot holds it. */
  function FirstIndex(vs: seq<TodoValue>, id: ID): (k: Option<nat>)
    ensures k.Some? ==> k.value < |vs| && vs[k.value].id == id
    ensures k.Some? ==> forall j :: 0 <= j < k.value ==> vs[j].id != id
    ensures k.None? <==> forall j :: 0 <= j < |vs| ==> vs[j].id != id
  {
    if |vs| == 0 then None
    else if vs[0].id == id then Some(0)
    else match FirstIndex(vs[1..], id)
      case None => None
      case Some(k) => Some(k + 1)
  }

  /** Ids are assigned by position: slot i holds id `base + i`. */
  predicate IdsFrom(vs: seq<TodoValue>, base: ID)
  {
    forall i :: 0 <= i < |vs| ==> vs[i].id == base + i
  }

  /** With positional ids, an id is found exactly when it lies in
      `[base, base + |vs|)`, and it is found at slot `id - base`. */
  lemma {:induction false} FindPositional(vs: seq<TodoValue>, base: ID, id: ID)
    requires IdsFrom(vs, base)
    ensures FirstIndex(vs, id) == if base <= id < base + |vs| then Some(id - base) else None
  {
    if base <= id < base + |vs| {
      assert vs[id - base].id == id;
    } else {
      assert forall j :: 0 <= j < |vs| ==> vs[j].id != id;
    }
  }

  /** Positional ids are strictly increasing along the sequence, so none is used twice. */
  lemma IdsIncreasing(vs: seq<TodoValue>, base: ID)
    requires IdsFrom(vs, base)
    ensures forall i, j :: 0 <= i < j < |vs| ==> vs[i].id < vs[j].id
  {
  }

  /** Two sequences with the same ids slot by slot are scanned alike. */
  lemma {:induction false} FirstIndexSeesOnlyIds(vs: seq<TodoValue>, ws: seq<TodoValue>, id: ID)
    requires |vs| == |ws|
    requires forall i :: 0 <= i < |vs| ==> vs[i].id == ws[i].id
    ensures FirstIndex(vs, id) == FirstIndex(ws, id)
  {
    if |vs| > 0 && vs[0].id != id {
      FirstIndexSeesOnlyIds(vs[1..], ws[1..], id);
    }
  }

  /** The value-level effect of finishing `id`: None when no slot holds that id,
      otherwise the sequence in which the first slot holding it is finished. */
  function Finish(vs: seq<TodoValue>, id: ID): (r: Option<seq<TodoValue>>)
    ensures r.None? <==> forall j :: 0 <= j < |vs| ==> vs[j].id != id
    ensures r.Some? ==> |r.value| == |vs|
    ensures r.Some? ==> forall j :: 0 <= j < |vs| ==>
      r.value[j] == vs[j].(finished := vs[j].finished || Some(j) == FirstIndex(vs, id))
  {
    match FirstIndex(vs, id)
    case None => None
    case Some(k) => Some(vs[k := vs[k].(finished := true)])
  }

  /** Finishing twice is the same as finishing once: the second call succeeds too
      and changes nothing. */
  lemma FinishIdempotent(vs: seq<TodoValue>, id: ID)
    requires Finish(vs, id).Some?
    ensures Finish(Finish(vs, id).value, id) == Finish(vs, id)
  {
    var k := FirstIndex(vs, id).value;
    var ws := vs[k := vs[k].(finished := true)];
    assert Finish(vs, id) == Some(ws);
    FirstIndexSeesOnlyIds(vs, ws, id);
    assert ws[k := ws[k].(finished := true)] == ws;
  }

  /** Appending the record the next add creates keeps the ids positional,
      and a scan for its id finds it in the last slot. */
  lemma {:induction false} AppendPositional(vs: seq<TodoValue>, base: ID, title: string, content: string)
    requires IdsFrom(vs, base)
    ensures IdsFrom(vs + [TodoValue(base + |vs|, title, content, false)], base)
    ensures FirstIndex(vs + [TodoValue(base + |vs|, title, content, false)], base + |vs|) == Some(|vs|)
  {
    var ws := vs + [TodoValue(base + |vs|, title, content, false)];
    assert IdsFrom(ws, base);
    FindPositional(ws, base, base + |vs|);
  }
}
