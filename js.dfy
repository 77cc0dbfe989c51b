/** The slice of JavaScript's value model that the catalogue's data handling relies on:
    plain objects as finite maps from property names to values, object spread as map
    union (later properties win), `delete` as key removal, and truthiness. */
module Js {

  datatype Option<+T> = None | Some(value: T)

  /** The instant held by a JavaScript `Date` object, in milliseconds since the epoch. */
  type Timestamp = int

  /** A JavaScript value. Numbers are integers here: no decision in the modelled code
      depends on a fractional part or an infinity. A `Date` always holds a valid
      instant: an Invalid Date (time value NaN), on which `toISOString` throws, is not
      represented. Objects are compared by value, not by reference. */
  datatype Value =
    | Undefined
    | Null
    | Bool(b: bool)
    | Num(n: int)
    | Str(s: string)
    | Date(t: Timestamp)
    | Arr(items: seq<Value>)
    | Obj(fields: map<string, Value>)

  /** The own enumerable properties of a plain object. */
  type Record = map<string, Value>

  /** `obj[key]`: a property the object does not have reads as `undefined`. */
  function Get(r: Record, key: string): Value
  {
    if key in r then r[key] else Undefined
  }

  /** `obj.key` where `obj` is a value: `undefined` unless `obj` is an object holding `key`. */
  function Field(v: Value, key: string): Value
  {
    if v.Obj? then Get(v.fields, key) else Undefined
  }

  /** JavaScript's truthiness: `undefined`, `null`, `false`, `0` and `''` are falsy;
      every object, array and date is truthy. */
  predicate Truthy(v: Value)
  {
    match v
    case Undefined => false
    case Null => false
    case Bool(b) => b
    case Num(n) => n != 0
    case Str(s) => s != ""
    case Date(_) => true
    case Arr(_) => true
    case Obj(_) => true
  }

  /** True iff `v` is an object with an object-valued property `key`. */
  predicate HasObject(v: Value, key: string)
  {
    v.Obj? && key in v.fields && v.fields[key].Obj?
  }
}
