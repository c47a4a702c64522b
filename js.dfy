/** The JavaScript values that cross the IPC boundaries of the scrape pipeline. */
module Js {

  /** A reference that is either `null` or holds a value. */
  datatype Option<+T> = None | Some(value: T)

  /** A JavaScript value as far as the pipeline passes it around.
      Numbers are integers here: the only number the pipeline sends is `1`. */
  datatype Value =
    | Undefined
    | Null
    | Bool(b: bool)
    | Num(n: int)
    | Str(s: string)
    | List(items: seq<Value>)
    | Record(fields: seq<(string, Value)>)

  /** The i-th argument a listener binds: `undefined` when the sender passed fewer. */
  function Arg(args: seq<Value>, i: nat): Value {
    if i < |args| then args[i] else Undefined
  }
}
