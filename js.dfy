/** JavaScript values as the settings editor sees them: a property is either
    missing (`undefined`) or holds a value, and `if (x)` / `x || y` test
    truthiness. */
module Js {

  /** A property that may be missing. */
  datatype Option<+T> = None | Some(value: T)

  /** Truthiness of a string-valued property: present and not the empty string. */
  predicate Truthy(v: Option<string>)
  {
    v.Some? && v.value != ""
  }

  /** Truthiness of a boolean-valued property: present and `true`. */
  predicate IsTrue(v: Option<bool>)
  {
    v == Some(true)
  }

  /** Truthiness of a numeric property: present and not zero. */
  predicate NonZero(v: Option<int>)
  {
    v.Some? && v.value != 0
  }

  /** `v || fallback` for a string-valued property and a string fallback. */
  function Or(v: Option<string>, fallback: string): (r: string)
    ensures Truthy(v) ==> Some(r) == v
    ensures !Truthy(v) ==> r == fallback
  {
    if Truthy(v) then v.value else fallback
  }
}
