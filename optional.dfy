/** Optional values, and the Python truthiness tests the source applies to them. */
module Optional {

  /** A value that may be absent: a missing dictionary key, a JSON null or a Python None. */
  datatype Option<+T> = None | Some(value: T)

  /** `if s:` on a value that is None or a string: false for None and for "". */
  predicate Truthy(s: Option<string>)
  {
    s.Some? && s.value != ""
  }

  /** `s or ""`: the string itself when it is truthy, else the empty string. */
  function OrEmpty(s: Option<string>): (r: string)
    ensures Truthy(s) ==> r == s.value
    ensures !Truthy(s) ==> r == ""
  {
    if s.Some? then s.value else ""
  }
}
