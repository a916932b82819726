/** Types shared by every part of the controller model. */
module Common {

  /** One octet as it arrives from the serial line. */
  type Byte = x: int | 0 <= x < 256

  datatype Option<+T> = None | Some(value: T)

  /**
   * A JSON-like value, as held in the settings dictionary and as carried by
   * the `command` field of an API message. Floating-point numbers are not
   * represented.
   */
  datatype Value =
    | Int(i: int)
    | Str(s: string)
    | Bool(b: bool)
    | Dict(fields: map<string, Value>)

  function Max(a: real, b: real): (m: real)
    ensures m >= a && m >= b
    ensures m == a || m == b
  {
    if a >= b then a else b
  }
}
