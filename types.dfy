/** The record shape of one to-do item. */
module Types {

  /** A to-do item; the two dates are milliseconds since the epoch. */
  datatype Todo = Todo(id: string, text: string, createdAt: int, updatedAt: int)
}
