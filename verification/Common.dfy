/** Values shared by every part of the model. */
module Common {
  datatype Option<+T> = None | Some(value: T)

  /** A handler either finishes or hits one of the source's ordering panics, asserts or bails. */
  datatype Outcome<+S> = Ok(value: S) | Fault

  function Flatten<T>(parts: seq<seq<T>>): seq<T> {
    if parts == [] then [] else Flatten(parts[..|parts| - 1]) + parts[|parts| - 1]
  }
}
