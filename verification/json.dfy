/**
 * JSON-like values as the kernel passes them around (workflow contexts, wire payloads,
 * tool-server replies). Numbers are integers; floating point is not modelled.
 */
module Json {
  import opened Wrappers
  import Decimal

  datatype Value =
    | Null
    | Bool(b: bool)
    | Num(n: int)
    | Str(s: string)
    | Arr(items: seq<Value>)
    | Obj(fields: map<string, Value>)

  /** A string-keyed record (`Record<string, unknown>`). */
  type Object = map<string, Value>

  /** Reading `o[key]`: an absent key reads as `undefined`. */
  function Get(o: Object, key: string): (r: Option<Value>)
    ensures r.Some? <==> key in o
    ensures r.Some? ==> r.value == o[key]
  {
    if key in o then Some(o[key]) else None
  }

  /**
   * JavaScript truthiness of a value read from a record: `undefined`, `null`, `false`,
   * `0` and `""` are falsy, every other value (including empty arrays and objects) is truthy.
   */
  predicate Truthy(v: Option<Value>)
  {
    match v
    case None => false
    case Some(Null) => false
    case Some(Bool(b)) => b
    case Some(Num(n)) => n != 0
    case Some(Str(s)) => s != ""
    case Some(Arr(_)) => true
    case Some(Obj(_)) => true
  }

  /**
   * Object spread `{ ...base, ...overlay }`: every key of either record, the overlay's
   * value winning on a clash.
   */
  function Spread(base: Object, overlay: Object): (r: Object)
    ensures r.Keys == base.Keys + overlay.Keys
    ensures forall k :: k in overlay ==> r[k] == overlay[k]
    ensures forall k :: k in base && k !in overlay ==> r[k] == base[k]
  {
    base + overlay
  }

  /** The properties every plain object inherits from `Object.prototype`; all of them are truthy. */
  const InheritedProperties: set<string> :=
    {"constructor", "__defineGetter__", "__defineSetter__", "hasOwnProperty",
     "__lookupGetter__", "__lookupSetter__", "isPrototypeOf", "propertyIsEnumerable",
     "toString", "valueOf", "__proto__", "toLocaleString"}

  /**
   * Truthiness of `o[key]` on a plain object: an own property is read first, otherwise the
   * lookup falls through to `Object.prototype`, whose members are all truthy.
   */
  predicate PropertyTruthy(o: Object, key: string)
  {
    if key in o then Truthy(Some(o[key])) else key in InheritedProperties
  }

  /**
   * `String(v)`: the text a value converts to. An array converts to its elements' texts
   * joined by `,` (with `null` elements empty); an object to `[object Object]`.
   */
  function ToText(v: Value): string
  {
    match v
    case Null => "null"
    case Bool(b) => if b then "true" else "false"
    case Num(n) => Decimal.IntText(n)
    case Str(s) => s
    case Arr(items) => JoinTexts(items)
    case Obj(_) => "[object Object]"
  }

  function JoinTexts(items: seq<Value>): string
    decreases items
  {
    if items == [] then ""
    else
      var first := if items[0].Null? then "" else ToText(items[0]);
      if |items| == 1 then first else first + "," + JoinTexts(items[1..])
  }
}
