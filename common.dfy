/** Values shared by the history store and the shape editors. */
module Common {

  /** A value that JavaScript may leave `undefined`. */
  datatype Option<+T> = None | Some(value: T)

  /** A serialized copy of the whole scene (the JSON text of `canvas.toJSON(["id"])`). */
  type Snapshot = string

  /** A page identifier; the empty string means "no active page". */
  type PageId = string

  /** The identifier stored on every scene object (a uuid). */
  type ObjectId = string

  /** A done-callback handed to an editor's `init`, identified by a number. */
  type Callback = nat

  /** JavaScript truthiness of a string: only the empty string is falsy. */
  predicate Truthy(s: string)
  {
    |s| > 0
  }
}
