/**
 * The to-do list operations of the to-do provider. Each operation computes the
 * new list as a pure transformation of the current one and then commits it:
 * the list is written to storage and only then does it replace the in-memory
 * list. The id of a new item and the current time are parameters.
 */
module TodoContext {
  import opened Types
  import opened JsString
  import TodoStorage

  /** The item `addTodo` creates: its text is trimmed and both dates are the creation instant. */
  function NewTodo(text: string, id: string, now: int): Todo
  {
    Todo(id, Trim(text), now, now)
  }

  /** The list after adding: the new item first, newest first, the old list untouched behind it. */
  function Added(todos: seq<Todo>, text: string, id: string, now: int): (r: seq<Todo>)
    ensures |r| == |todos| + 1
    ensures r[1..] == todos
    ensures r[0].id == id && r[0].text == Trim(text)
    ensures r[0].createdAt == now && r[0].updatedAt == now
  {
    [NewTodo(text, id, now)] + todos
  }

  /** An item after its text is edited: trimmed text and a new update date, id and creation date kept. */
  function Revised(t: Todo, text: string, now: int): Todo
  {
    t.(text := Trim(text), updatedAt := now)
  }

  /**
   * The list after editing item `id`: same length and order; each item with
   * that id carries the trimmed text and the new update date, with its id and
   * creation date unchanged; every other item is as it was.
   */
  function Updated(todos: seq<Todo>, id: string, text: string, now: int): (r: seq<Todo>)
    ensures |r| == |todos|
    ensures forall i :: 0 <= i < |todos| ==> r[i].id == todos[i].id && r[i].createdAt == todos[i].createdAt
    ensures forall i :: 0 <= i < |todos| && todos[i].id == id ==> r[i].text == Trim(text) && r[i].updatedAt == now
    ensures forall i :: 0 <= i < |todos| && todos[i].id != id ==> r[i] == todos[i]
  {
    if todos == [] then []
    else
      var head := if todos[0].id == id then Revised(todos[0], text, now) else todos[0];
      [head] + Updated(todos[1..], id, text, now)
  }

  /** The list after deleting `id`: exactly the items whose id differs, in their original order. */
  function Removed(todos: seq<Todo>, id: string): (r: seq<Todo>)
    ensures |r| <= |todos|
    ensures forall t :: t in r <==> t in todos && t.id != id
  {
    if todos == [] then []
    else (if todos[0].id == id then [] else [todos[0]]) + Removed(todos[1..], id)
  }

  /** No item of `todos` carries the id `id`. */
  predicate IdAbsent(todos: seq<Todo>, id: string)
  {
    forall t :: t in todos ==> t.id != id
  }

  /** No two items of `todos` share an id. */
  predicate DistinctIds(todos: seq<Todo>)
  {
    forall i, j :: 0 <= i < j < |todos| ==> todos[i].id != todos[j].id
  }

  /** Deletion keeps the order: it distributes over concatenation. */
  lemma {:induction false} RemovedConcat(a: seq<Todo>, b: seq<Todo>, id: string)
    ensures Removed(a + b, id) == Removed(a, id) + Removed(b, id)
  {
    if a == [] {
      assert a + b == b;
    } else {
      assert (a + b)[1..] == a[1..] + b;
      RemovedConcat(a[1..], b, id);
    }
  }

  /** Deleting an id that no item carries leaves the list as it is. */
  lemma {:induction false} RemovedAbsent(todos: seq<Todo>, id: string)
    requires IdAbsent(todos, id)
    ensures Removed(todos, id) == todos
  {
    if todos != [] {
      assert todos[0] in todos;
      RemovedAbsent(todos[1..], id);
      assert [todos[0]] + todos[1..] == todos;
    }
  }

  /** Deleting twice is deleting once. */
  lemma RemovedIdempotent(todos: seq<Todo>, id: string)
    ensures Removed(Removed(todos, id), id) == Removed(todos, id)
  {
    RemovedAbsent(Removed(todos, id), id);
  }

  /** Adding an item whose id is fresh keeps ids distinct. */
  lemma AddedKeepsIdsDistinct(todos: seq<Todo>, text: string, id: string, now: int)
    requires DistinctIds(todos) && IdAbsent(todos, id)
    ensures DistinctIds(Added(todos, text, id, now))
  {
  }

  /** Editing keeps the id of every position, so ids stay distinct. */
  lemma UpdatedKeepsIdsDistinct(todos: seq<Todo>, id: string, text: string, now: int)
    requires DistinctIds(todos)
    ensures DistinctIds(Updated(todos, id, text, now))
  {
  }

  /** Deleting keeps ids distinct. */
  lemma {:induction false} RemovedKeepsIdsDistinct(todos: seq<Todo>, id: string)
    requires DistinctIds(todos)
    ensures DistinctIds(Removed(todos, id))
  {
    if todos != [] {
      var rest := Removed(todos[1..], id);
      assert DistinctIds(todos[1..]) by {
        forall i, j | 0 <= i < j < |todos[1..]|
          ensures todos[1..][i].id != todos[1..][j].id
        {
          assert todos[1..][i] == todos[i + 1] && todos[1..][j] == todos[j + 1];
        }
      }
      RemovedKeepsIdsDistinct(todos[1..], id);
      if todos[0].id != id {
        var r := [todos[0]] + rest;
        forall i, j | 0 <= i < j < |r|
          ensures r[i].id != r[j].id
        {
          if i == 0 {
            assert r[j] in rest;
            var k :| 0 <= k < |todos[1..]| && todos[1..][k] == r[j];
            assert todos[k + 1] == r[j];
          } else {
            assert r[i] == rest[i - 1] && r[j] == rest[j - 1];
          }
        }
      }
    }
  }

  /** How a call of one of the operations settles: resolved, or rejected with the storage error. */
  datatype Completion = Resolved | Rejected

  /**
   * The provider's state: the in-memory list shown to the user, the record
   * stored under `secure_todos`, and the loading flag.
   */
  class TodoProvider {
    var todos: seq<Todo>
    var store: TodoStorage.Record
    var loading: bool

    /** A fresh provider over whatever the store holds; the list starts empty until loaded. */
    constructor (store: TodoStorage.Record)
      ensures todos == [] && this.store == store && !loading
    {
      todos := [];
      this.store := store;
      loading := false;
    }

    /** `loadTodos`: replace the list by the stored one; on a load error keep the current list. */
    method LoadTodos()
      modifies this`todos, this`loading
      ensures !loading
      ensures todos == match TodoStorage.LoadTodos(store)
                       case Loaded(items) => items
                       case LoadFailed => old(todos)
    {
      loading := true;
      var loaded := TodoStorage.LoadTodos(store);
      if loaded.Loaded? {
        todos := loaded.todos;
      }
      loading := false;
    }

    /**
     * `saveTodos`: write the new list, then replace the in-memory list. When
     * the write throws (`writeFails`), the rejection propagates and neither
     * the list nor the store changes; otherwise both hold the new list.
     */
    method SaveTodos(newTodos: seq<Todo>, writeFails: bool) returns (c: Completion)
      modifies this`todos, this`store
      ensures c == (if writeFails then Rejected else Resolved)
      ensures c == Resolved ==> todos == newTodos && TodoStorage.LoadTodos(store) == TodoStorage.Loaded(todos)
      ensures c == Rejected ==> todos == old(todos) && store == old(store)
    {
      if writeFails {
        return Rejected;
      }
      store := TodoStorage.SaveTodos(newTodos);
      todos := newTodos;
      c := Resolved;
    }

    /** `addTodo`: blank text is ignored without a save; otherwise the new item is committed at the front. */
    method AddTodo(text: string, freshId: string, now: int, writeFails: bool) returns (c: Completion)
      modifies this`todos, this`store
      ensures IsBlank(text) ==> c == Resolved && todos == old(todos) && store == old(store)
      ensures !IsBlank(text) ==> c == (if writeFails then Rejected else Resolved)
      ensures todos == if c == Resolved && !IsBlank(text) then Added(old(todos), text, freshId, now) else old(todos)
      ensures c == Resolved && !IsBlank(text) ==> TodoStorage.LoadTodos(store) == TodoStorage.Loaded(todos)
      ensures c == Rejected ==> store == old(store)
    {
      if IsBlank(text) {
        return Resolved;
      }
      var newTodos := Added(todos, text, freshId, now);
      c := SaveTodos(newTodos, writeFails);
    }

    /** `updateTodo`: blank text is ignored without a save; otherwise the edited list is committed. */
    method UpdateTodo(id: string, text: string, now: int, writeFails: bool) returns (c: Completion)
      modifies this`todos, this`store
      ensures IsBlank(text) ==> c == Resolved && todos == old(todos) && store == old(store)
      ensures !IsBlank(text) ==> c == (if writeFails then Rejected else Resolved)
      ensures todos == if c == Resolved && !IsBlank(text) then Updated(old(todos), id, text, now) else old(todos)
      ensures c == Resolved && !IsBlank(text) ==> TodoStorage.LoadTodos(store) == TodoStorage.Loaded(todos)
      ensures c == Rejected ==> store == old(store)
    {
      if IsBlank(text) {
        return Resolved;
      }
      var newTodos := Updated(todos, id, text, now);
      c := SaveTodos(newTodos, writeFails);
    }

    /** `deleteTodo`: the filtered list is always committed, even when nothing was removed. */
    method DeleteTodo(id: string, writeFails: bool) returns (c: Completion)
      modifies this`todos, this`store
      ensures c == (if writeFails then Rejected else Resolved)
      ensures todos == if c == Resolved then Removed(old(todos), id) else old(todos)
      ensures c == Resolved ==> TodoStorage.LoadTodos(store) == TodoStorage.Loaded(todos)
      ensures c == Rejected ==> store == old(store)
    {
      var newTodos := Removed(todos, id);
      c := SaveTodos(newTodos, writeFails);
    }
  }
}
