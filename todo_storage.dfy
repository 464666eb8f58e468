/**
 * The persisted to-do list under the key `secure_todos`, seen as an abstract
 * record: serialisation and parsing are not modelled, only whether a record
 * is missing, unreadable or holds a list.
 */
module TodoStorage {
  import opened Types

  const TODOS_KEY: string := "secure_todos"

  /** What the key holds: nothing (or the empty string), text that does not parse as a list of to-dos, or a list. */
  datatype Record = NoRecord | Unreadable | Stored(items: seq<Todo>)

  /** The outcome of a load: the list, or the error "Failed to load todos". */
  datatype Loaded = Loaded(todos: seq<Todo>) | LoadFailed

  /** Loading fails loudly on an unreadable record and yields the empty list when there is none. */
  function LoadTodos(rec: Record): (r: Loaded)
    ensures r.LoadFailed? <==> rec.Unreadable?
    ensures rec.NoRecord? ==> r == Loaded([])
    ensures rec.Stored? ==> r == Loaded(rec.items)
  {
    match rec
    case NoRecord => Loaded([])
    case Unreadable => LoadFailed
    case Stored(items) => Loaded(items)
  }

  /** The record a successful save leaves behind; loading it gives back the saved list. */
  function SaveTodos(todos: seq<Todo>): (rec: Record)
    ensures LoadTodos(rec) == Loaded(todos)
  {
    Stored(todos)
  }
}
