/** A value that may be absent: JavaScript's `undefined`/`null`, or a
    request-body field the caller left out. */
module Optional {

  datatype Option<+T> = None | Some(value: T) {

    /** `x || fallback` for a value whose only falsy form is absence. */
    function GetOr(fallback: T): T {
      match this
      case Some(v) => v
      case None => fallback
    }
  }

  /** `s || fallback` for an optional string: absent and `""` are both falsy. */
  function StringOr(s: Option<string>, fallback: string): (r: string)
    ensures s.Some? && s.value != "" ==> r == s.value
    ensures s.None? || s.value == "" ==> r == fallback
  {
    if s.Some? && s.value != "" then s.value else fallback
  }

  /** `n || 0` for an optional number: absent and `0` are both falsy, and both give 0. */
  function NumberOrZero(n: Option<int>): (r: int)
    ensures n.Some? ==> r == n.value
    ensures n.None? ==> r == 0
  {
    if n.Some? && n.value != 0 then n.value else 0
  }
}
