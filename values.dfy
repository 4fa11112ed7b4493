/** JavaScript values as the services see them, and the shared result types.

    A request payload or a database row is a JavaScript object; it is modelled
    as a sequence of (key, value) pairs in `Object.keys` order. */
module Values {

  datatype Option<T> = None | Some(value: T)

  /** A value, or the message of the Error the service throws. */
  datatype Result<T> = Ok(value: T) | Err(message: string)

  /** The JavaScript values the core distinguishes. Numbers are integers here
      (a money amount stands for its value in cents); NaN is kept apart
      because `typeof NaN === 'number'`. `Date` is a Date object and `Object`
      any other object or array. */
  datatype Value =
    | Undefined
    | Null
    | Str(s: string)
    | Num(n: int)
    | NaN
    | Bool(b: bool)
    | Date
    | Object

  /** JavaScript's ToBoolean. */
  predicate Truthy(v: Value)
  {
    match v
    case Undefined => false
    case Null => false
    case Str(s) => s != ""
    case Num(n) => n != 0
    case NaN => false
    case Bool(b) => b
    case Date => true
    case Object => true
  }

  type Record = seq<(string, Value)>

  /** `obj[k]`: the value stored under `k`, or undefined. */
  function Get(r: Record, k: string): (v: Value)
    ensures v != Undefined ==> exists i :: 0 <= i < |r| && r[i] == (k, v)
  {
    if r == [] then Undefined
    else if r[0].0 == k then r[0].1
    else Get(r[1..], k)
  }

  /** `Object.keys(obj)`. */
  function Keys(r: Record): (ks: seq<string>)
    ensures |ks| == |r|
    ensures forall i :: 0 <= i < |r| ==> ks[i] == r[i].0
  {
    if r == [] then [] else [r[0].0] + Keys(r[1..])
  }

  /** Host parsing that the model does not reimplement (floating point and
      date parsing): `!Number.isNaN(Number(s))`, `!Number.isNaN(Date.parse(s))`,
      and PostgreSQL's cast of a text value into an integer or NUMERIC(12,2)
      column (in cents), None when the cast fails. */
  datatype Host = Host(
    isNumberText: string -> bool,
    isDateText: string -> bool,
    castNumber: string -> Option<int>)

  /** The value PostgreSQL stores for a JavaScript value bound to a numeric
      column: None when the database rejects it. */
  function CastNumber(v: Value, host: Host): Option<int>
  {
    match v
    case Num(n) => Some(n)
    case Str(s) => host.castNumber(s)
    case _ => None
  }
}
