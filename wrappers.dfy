/** Optional values and the outcome of an awaited request, shared by every module. */
module Wrappers {

  /** A value that may be absent (`undefined` or `null` in the application). */
  datatype Option<+T> = None | Some(value: T) {
    function GetOr(default: T): T {
      match this
      case Some(v) => v
      case None => default
    }
  }

  /**
   * The settled state of a promise the application awaits: it resolved with a
   * value, or it rejected with an error message.
   */
  datatype Outcome<+T> = Resolved(value: T) | Rejected(message: string)

  /** JavaScript truthiness of an optional string: present and non-empty. */
  predicate TruthyString(s: Option<string>) {
    s.Some? && s.value != ""
  }

  /** JavaScript truthiness of an optional number: present and non-zero. */
  predicate TruthyNumber(n: Option<int>) {
    n.Some? && n.value != 0
  }
}
