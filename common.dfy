/** Small value wrappers shared by the whole model. */
module Common {

  /** A value that may be absent: JavaScript's `undefined`/`null` for an optional field. */
  datatype Option<+T> = None | Some(value: T) {
    function GetOr(default: T): T {
      match this
      case Some(v) => v
      case None => default
    }
  }

  /** The outcome of an operation that can be rejected. */
  datatype Result<+T, +E> = Ok(value: T) | Err(error: E)

  /** A string field that JavaScript treats as true: present and not empty. */
  predicate HasText(s: Option<string>) {
    s.Some? && s.value != ""
  }

  /** `s || fallback` for an optional string. */
  function TextOr(s: Option<string>, fallback: string): string {
    if HasText(s) then s.value else fallback
  }
}
