/** Values shared by every store: JavaScript's `undefined`/`null` as `Option`,
    and the error a store records in its `error` field. */
module Common {

  /** A possibly absent value: `None` stands for `undefined` or `null`. */
  datatype Option<T> = None | Some(value: T) {

    /** The value, or `default` when absent (JavaScript's `x ?? default`). */
    function GetOr(default: T): T {
      match this
      case Some(v) => v
      case None => default
    }
  }

  /** The error a store keeps: one it raised itself with a fixed message, or
      whatever the remote document store or auth provider threw. */
  datatype Error = Message(text: string) | Storage

  /** JavaScript truthiness of an optional string: absent and "" are both falsy. */
  predicate Truthy(s: Option<string>) {
    s.Some? && s.value != ""
  }

  /** `s || undefined` for an optional string: keeps it only when truthy. */
  function KeepTruthy(s: Option<string>): (r: Option<string>)
    ensures r.Some? <==> Truthy(s)
    ensures r.Some? ==> r == s
  {
    if Truthy(s) then s else None
  }
}
