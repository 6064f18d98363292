/**
 * The few JavaScript run-time notions the two sandboxes depend on: a nullable
 * value, a thrown value, the completion of a call into foreign code, and the
 * truthiness tests that `&&` and `!` perform in the rendered markup.
 */
module Js {

  datatype Option<+T> = None | Some(value: T)

  /** What a `throw` delivers: an `Error` instance, or any other value
      together with what `String(err)` makes of it. */
  datatype Thrown = ErrorInstance(message: string) | NonError(asString: string)

  /** How a call into foreign code (Babel, `new Function`, `eval`, the
      compiled snippet) ends: it returns a value or it throws. */
  datatype Completion<+T> = Normal(value: T) | Threw(thrown: Thrown)

  /** A value produced by user code, seen only through what the markup does
      with it: the `null` the sandbox stores itself; a falsy number (`0`,
      `-0`, `NaN`, `0n`), which React prints as `text` when it is the value
      of a `&&`; any other falsy value (`undefined`, `false`, `""`), which
      prints nothing; or a truthy value such as a function, named by an
      opaque handle. */
  datatype Value = Null | Falsy | FalsyNumber(text: string) | Truthy(handle: nat)

  /** `err instanceof Error ? err.message : String(err)` */
  function Describe(e: Thrown): (r: string)
    ensures e.ErrorInstance? ==> r == e.message
    ensures e.NonError? ==> r == e.asString
  {
    match e
    case ErrorInstance(m) => m
    case NonError(s) => s
  }

  /** Truthiness of a nullable string: `null` and `""` are falsy. */
  predicate TruthyText(s: Option<string>) {
    s.Some? && s.value != ""
  }

  /** Truthiness of a stored value. */
  predicate TruthyValue(v: Value) {
    v.Truthy?
  }
}
