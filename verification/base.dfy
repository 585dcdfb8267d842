/** Shared vocabulary: optional values, results, instants and record identifiers. */
module Base {

  /** An optional value; `None` stands for a field the caller did not send. */
  datatype Option<+T> = None | Some(value: T) {
    function GetOr(default: T): T {
      match this
      case Some(v) => v
      case None => default
    }
  }

  /** A text value JavaScript treats as true: present and non-empty. It is
      also what Mongoose's `required` asks of a String path. */
  predicate Truthy(v: Option<string>) {
    v.Some? && v.value != ""
  }

  /** JavaScript `v || fallback` on a possibly absent text value. */
  function OrElse(v: Option<string>, fallback: string): (r: string)
    ensures Truthy(v) ==> r == v.value
    ensures !Truthy(v) ==> r == fallback
  {
    if Truthy(v) then v.value else fallback
  }

  /** The outcome of a validation: a value, or the reasons it was refused. */
  datatype Result<+T, +E> = Ok(value: T) | Err(error: E)

  /** Instants are milliseconds since the epoch, as JavaScript `Date` values are. */
  type Time = int

  /** Store-assigned primary identifiers (the document `_id`). */
  type Id = nat
}
