/** JSON-like values as the feed and the forms see them, with JavaScript's
    notions of property access and truthiness. */
module Values {

  datatype Option<+T> = None | Some(value: T)

  /** A field value. `ServerTimestamp` is the store's placeholder that the
      server replaces by its own clock when it applies a write; `Undefined` is
      what reading a missing property yields. */
  datatype Value = Str(s: string) | Num(n: int) | Bool(b: bool) | ServerTimestamp | Undefined

  /** A record of the messages collection: field name to value. */
  type Record = map<string, Value>

  /** `r.f` in JavaScript: a missing field reads as `undefined`. */
  function Get(r: Record, f: string): (v: Value)
  {
    if f in r then r[f] else Undefined
  }

  /** JavaScript truthiness: the falsy values are the empty string, zero,
      `false` and `undefined`; the timestamp placeholder is an object and so truthy. */
  function Truthy(v: Value): (r: bool)
    ensures !r <==> v in {Str(""), Num(0), Bool(false), Undefined}
  {
    match v
    case Str(s) => s != ""
    case Num(n) => n != 0
    case Bool(b) => b
    case ServerTimestamp => true
    case Undefined => false
  }
}
