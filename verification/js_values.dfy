/** JavaScript value conventions the handlers rely on: optional JSON fields, the
    truthiness test behind `!x` and `a || b`, and how a template literal renders
    a missing field. Only string-valued fields are modelled. */
module JsValues {

  /** A JSON field that may be absent (`undefined`). */
  datatype Option<+T> = None | Some(value: T)

  /** `!!x` for an optional string: absent and the empty string are falsy. */
  predicate Truthy(o: Option<string>)
  {
    o.Some? && o.value != ""
  }

  /** `a || b` where both operands are optional strings. */
  function Or(a: Option<string>, b: Option<string>): Option<string>
  {
    if Truthy(a) then a else b
  }

  /** `a || fallback` where the fallback is a string constant. */
  function OrElse(a: Option<string>, fallback: string): string
  {
    if Truthy(a) then a.value else fallback
  }

  /** `${x}` inside a template literal: an absent field renders as "undefined". */
  function Render(o: Option<string>): string
  {
    match o
    case Some(s) => s
    case None => "undefined"
  }
}
