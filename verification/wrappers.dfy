/** The optional-value type the model uses for JavaScript's `null`/`undefined`. */
module Wrappers {

  /** `None` stands for a JavaScript `null` or `undefined`, `Some(v)` for a present value. */
  datatype Option<+T> = None | Some(value: T)

  /** JavaScript's `s || null` on a string: the empty string is falsy and becomes `null`. */
  function NonEmpty(s: string): (r: Option<string>)
    ensures r.Some? <==> s != ""
    ensures r.Some? ==> r.value == s
  {
    if s == "" then None else Some(s)
  }
}
