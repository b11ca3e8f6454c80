/** Optional values, standing for a JavaScript value that may be `undefined` or `null`. */
module Wrappers {

  datatype Option<+T> = None | Some(value: T) {

    /** The value, or `default` when there is none (JavaScript's `x ?? default`). */
    function GetOr(default: T): T {
      match this
      case Some(v) => v
      case None => default
    }
  }

  /** `s || undefined`: the empty string is falsy. */
  function OrUndefined(s: string): (r: Option<string>)
    ensures r.None? <==> s == ""
    ensures r.Some? ==> r.value == s
    ensures r != Some("") && r.GetOr("") == s
  {
    if s == "" then None else Some(s)
  }
}

/** What a `localStorage` key holds, as seen through `JSON.parse`. */
module Storage {

  /**
   * `Missing`: `getItem` returned `null`; `Corrupt`: the text does not parse (the
   * `catch` branch); `Present(value)`: the parsed value.
   */
  datatype Stored<+T> = Missing | Corrupt | Present(value: T)
}
