/** Values shared by the front end and the back end: optional values, the
    outcome of a call to an external collaborator, chat messages and the
    book record that a prescription carries. */
module Common {

  datatype Option<+T> = None | Some(value: T)

  /** The outcome of an awaited call into code the model cannot see
      (a `fetch`, a call into the text-generation SDK): either the value the
      call produced, or a thrown error with its message. */
  datatype Outcome<+T> = Returned(value: T) | Threw(message: string)

  /** A function result or a rethrown error. */
  datatype Result<+T> = Ok(value: T) | Err(message: string)

  /** One chat message as the front end stores it: `{ role, content }`. */
  datatype Message = Message(role: string, content: string)

  /** A prescription object as it travels between server and client.
      Every field may be absent: the server does not check the fields of
      the object it parses, and the client reads whatever JSON it receives. */
  datatype Book = Book(
    book: Option<string>,
    author: Option<string>,
    line: Option<string>,
    reason: Option<string>,
    imageUrl: Option<string>)

  /** JavaScript truthiness of an optional string: absent and "" are falsy. */
  predicate Truthy(s: Option<string>) {
    s.Some? && s.value != []
  }

  /** `a || b` on an optional string. */
  function OrElse(s: Option<string>, default: string): (r: string)
    ensures Truthy(s) ==> r == s.value
    ensures !Truthy(s) ==> r == default
  {
    if Truthy(s) then s.value else default
  }

  /** The roles the front end writes. */
  const UserRole := "user"
  const AssistantRole := "assistant"
}
