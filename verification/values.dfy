/** The scalar values records hold: what the input parser produces and what
    the exporter writes out. */
module Values {
  import opened Numerals
  import opened Dicts

  /** A float is kept as the literal text it was read from; its binary
      rounding is not part of this model. */
  datatype Value =
    | VStr(s: string)
    | VInt(i: int)
    | VFloat(literal: string)
    | VBool(b: bool)
    | VNone

  /** A record: an ordered dict from column name to value. */
  type Record = Dict<Value>

  /** Python's `str(value)`, with a float shown as its literal text. */
  function PyStr(v: Value): string {
    match v
    case VStr(s) => s
    case VInt(i) => IntToString(i)
    case VFloat(t) => t
    case VBool(b) => if b then "True" else "False"
    case VNone => "None"
  }
}
