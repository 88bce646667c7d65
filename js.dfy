/** Values the worker reads from JavaScript objects and the `||` defaulting
    it applies to them. */
module Js {

  datatype Option<+T> = None | Some(value: T)

  /** `v || fallback` where `v` is a string that may be missing (a header
      `get` returning null, an absent body field): a missing value and the
      empty string are both falsy and give `fallback`. */
  function OrElse(v: Option<string>, fallback: string): (r: string)
    ensures r == fallback || (v == Some(r) && r != "")
    ensures v.Some? && v.value != "" ==> r == v.value
    ensures (v.None? || v == Some("")) ==> r == fallback
    ensures fallback != "" ==> r != ""
  {
    if v.Some? && v.value != "" then v.value else fallback
  }
}
