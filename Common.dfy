/** Values shared by both stores: JavaScript values as the stores compare
    them, the user and message records, and the outcome of one HTTP request. */
module Common {

  datatype Option<+T> = None | Some(value: T)

  /** A JavaScript value in an id position. Strict equality (`===`) between two
      such values is structural equality of this datatype: no coercion between
      a number and a string, and `undefined === undefined` holds. */
  datatype Val = Undefined | Null | Bool(b: bool) | Num(n: int) | Str(s: string)

  /** JavaScript truthiness, as used by `if (x)` and `x && y`. */
  predicate Truthy(v: Val)
  {
    match v
    case Undefined => false
    case Null => false
    case Bool(b) => b
    case Num(n) => n != 0
    case Str(s) => s != ""
  }

  /** A user record; `id` is its `_id` field (Undefined when the field is missing). */
  datatype User = User(id: Val, profile: string)

  /** A chat message record as received from the server. */
  datatype Message = Message(id: Val, senderId: Val, receiverId: Val, text: string)

  /** `authUser?._id`: Undefined when no user is held. */
  function IdOf(authUser: Option<User>): Val
  {
    if authUser.Some? then authUser.value.id else Undefined
  }

  /** How one awaited HTTP request ended: the response body, or a rejection
      carrying `error.response?.status` (None when no response arrived). */
  datatype Outcome<+T> = Success(data: T) | Failure(status: Option<int>)
}
