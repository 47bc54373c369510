/** Values shared by every module of the side-panel model. */
module Common {

  /** A value that the host may or may not provide (`undefined` in the panel's script). */
  datatype Option<T> = None | Some(value: T)

  /**
   * What an awaited request to the generation service delivers: the parsed
   * response body, or the message of the exception thrown on the way (a
   * transport failure, a non-OK HTTP status, or a body that is not JSON).
   */
  datatype Reply<B> = Thrown(message: string) | Received(body: B)

  /** The script's `a || b` on strings: the empty string is falsy, so `b` takes its place. */
  function OrElse(s: string, fallback: string): (r: string)
    ensures s != "" ==> r == s
    ensures s == "" ==> r == fallback
    ensures r == s || r == fallback
  {
    if s == "" then fallback else s
  }

  /** `x || b` where `x` may be undefined (a missing storage key) or the empty string. */
  function OptOrElse(x: Option<string>, fallback: string): (r: string)
    ensures (x.Some? && x.value != "") ==> r == x.value
    ensures (x.None? || x.value == "") ==> r == fallback
  {
    match x
    case None => fallback
    case Some(s) => OrElse(s, fallback)
  }
}
