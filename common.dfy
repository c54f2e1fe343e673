/** Small helpers shared by every module: an optional value, the two shapes of a
    caught exception, and the JavaScript truthiness rules the storefront relies on
    when it writes `a || b` or `if (s)` over strings and numbers. */
module Common {

  datatype Option<+T> = None | Some(value: T)

  /** What a `catch (err)` block can receive: an `Error` instance, whose
      `message` the code reads, or any other thrown value. */
  datatype Thrown = ErrorThrown(message: string) | OtherThrown

  /** What an awaited backend call gives back: a response, or a thrown value. */
  datatype Reply<T> = Answered(response: T) | Threw(thrown: Thrown)

  /** `err instanceof Error ? err.message : fallback` */
  function ThrownMessage(err: Thrown, fallback: string): (r: string)
    ensures err.ErrorThrown? ==> r == err.message
    ensures err.OtherThrown? ==> r == fallback
  {
    match err
    case ErrorThrown(m) => m
    case OtherThrown => fallback
  }

  /** A string is truthy in JavaScript exactly when it is not empty;
      `undefined` and `null` are falsy. */
  predicate TruthyString(s: Option<string>)
  {
    s.Some? && s.value != ""
  }

  /** `s || fallback` for an optional string. */
  function OrElse(s: Option<string>, fallback: string): (r: string)
    ensures TruthyString(s) ==> r == s.value
    ensures !TruthyString(s) ==> r == fallback
  {
    if s.Some? && s.value != "" then s.value else fallback
  }

  /** A number is truthy in JavaScript exactly when it is present and not 0
      (NaN, also falsy, has no counterpart among integers). */
  predicate TruthyNumber(n: Option<int>)
  {
    n.Some? && n.value != 0
  }
}
