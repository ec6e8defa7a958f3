/** The untyped (`Any`) values held by intent requirements, intent QoS entries
    and service characteristics, as a tagged union of the kinds the schema's
    documented examples use, with Python's `str()` of each. */
module Values {
  import Strings

  datatype Value =
    | IntValue(i: int)
    | BoolValue(b: bool)
    | StrValue(s: string)
    | ListValue(items: seq<string>)

  /** A Python dict with string keys, in insertion (iteration) order. The
      association list does not itself forbid a repeated key; the operations
      over it only read it in order, so a repeated key would be rendered twice. */
  type Dict = seq<(string, Value)>

  /** Python's `str(value)`; a list of strings renders as its repr. */
  function PyStr(v: Value): (r: string)
    ensures v.StrValue? ==> r == v.s
    ensures v.IntValue? ==> r == Strings.IntToString(v.i)
    ensures v.ListValue? ==> r != [] && r[0] == '[' && r[|r| - 1] == ']'
  {
    match v
    case IntValue(i) => Strings.IntToString(i)
    case BoolValue(b) => if b then "True" else "False"
    case StrValue(s) => s
    case ListValue(items) => "[" + Strings.Join(Quoted(items), ", ") + "]"
  }

  function Quoted(items: seq<string>): (r: seq<string>)
    ensures |r| == |items|
  {
    seq(|items|, i requires 0 <= i < |items| => "'" + items[i] + "'")
  }
}
