/** JavaScript values shared by the whole model: strings as sequences of
    UTF-16 code units, nullable values, thrown exceptions and the outcome of
    a call that may throw. */
module JsText {

  /** One UTF-16 code unit: the element of a JavaScript string. `.length`
      counts these, not code points. */
  newtype CodeUnit = x: int | 0 <= x < 0x1_0000

  /** A JavaScript string. */
  type Text = seq<CodeUnit>

  /** The code units of a string literal. Every literal of the model lies in
      the Basic Multilingual Plane, where a character is one code unit. */
  function Lit(s: string): (t: Text)
    ensures |t| == |s|
    ensures forall i :: 0 <= i < |s| && s[i] as int < 0x1_0000 ==> t[i] as int == s[i] as int
  {
    seq(|s|, i requires 0 <= i < |s| => (s[i] as int % 0x1_0000) as CodeUnit)
  }

  /** `T | null` (and `undefined` where the source treats them alike). */
  datatype Option<T> = None | Some(value: T)

  /** JavaScript truthiness of a `string | null`: null and '' are falsy. */
  predicate Truthy(o: Option<Text>) {
    o.Some? && |o.value| > 0
  }

  /** A value thrown by `throw`: an `Error` object with its `message`, or
      some other value (which a `catch` can receive from foreign code). */
  datatype Thrown = ErrorWith(message: Text) | NonError

  /** The settled result of a call that may throw. */
  datatype Outcome<T> = Ok(value: T) | Fail(thrown: Thrown)
}
