/** Failure-compatible wrappers shared by the modules of the model, and a
    three-way view of a JSON object key (absent, present as null, present
    with a value) that the vendor replies are read through. */
module Basics {

  datatype Option<+T> = None | Some(value: T)

  datatype Result<+R, +E> = Success(value: R) | Failure(error: E)

  /** The outcome of a step that yields no value: it either passes or fails. */
  datatype Outcome<+E> = Pass | Fail(error: E)

  /** A key of a decoded JSON object: missing, present with `null`, or
      present with a value. */
  datatype Field<+T> = Absent | Null | Present(v: T)

  /** Python's `obj.get(key, default)` rendered the way an f-string renders
      it: a missing key gives the default, a `null` gives the text "None". */
  function TextOr(f: Field<string>, default: string): (s: string)
    ensures f.Absent? ==> s == default
    ensures f.Null? ==> s == "None"
    ensures f.Present? ==> s == f.v
  {
    match f
    case Absent => default
    case Null => "None"
    case Present(v) => v
  }
}
