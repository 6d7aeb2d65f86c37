/** The JavaScript values the modelled code handles, the conversion that
    string concatenation (`'...' + v`) applies to them, property lookup on a
    plain object, and the `dataLayer` global the tag helpers push to. */
module Js {
  import opened Common

  /** A JavaScript value as read from parsed JSON, built by a constructor, or left unset. */
  datatype Value = Undefined | Null | Num(n: int) | Str(s: string) | Obj(props: Object)

  /** A plain object: its own enumerable properties. */
  type Object = map<string, Value>

  /** `o[key]`: undefined when the object has no such own property. */
  function Get(o: Object, key: string): (v: Value)
    ensures key !in o ==> v == Undefined
    ensures key in o ==> v == o[key]
  {
    if key in o then o[key] else Undefined
  }

  /** ToString as applied by `+` on a string and a value (also the key
      conversion of `o[v]` and `v in o`). */
  function ToStr(v: Value): string
  {
    match v
    case Undefined => "undefined"
    case Null => "null"
    case Num(n) => IntToString(n)
    case Str(s) => s
    case Obj(_) => "[object Object]"
  }

  /** The `dataLayer` global of Google Tag Manager: an append-only list of pushed values. */
  class DataLayer {
    var entries: seq<Value>

    constructor ()
      ensures entries == []
    {
      entries := [];
    }
  }
}
