/**
 * The values an options object holds, and the JavaScript operations the
 * client's option handling applies to them: truthiness (`x || d`), the keys
 * `_.extend` copies out of a source, what `[].concat(x)` adds, and `String(x)`.
 */
module JsValues {
  import opened NumberText

  /** A JavaScript value as it appears in an options object (functions are not modelled). */
  datatype Value =
    | Undefined
    | Null
    | Bool(b: bool)
    | Num(n: int)
    | Str(s: string)
    | List(items: seq<Value>)
    | Object(fields: map<string, Value>)

  predicate Truthy(v: Value) {
    match v
    case Undefined => false
    case Null => false
    case Bool(b) => b
    case Num(n) => n != 0
    case Str(s) => s != ""
    case List(_) => true
    case Object(_) => true
  }

  /** `o[key]` on an object: a missing key reads as undefined. */
  function Get(o: map<string, Value>, key: string): Value {
    if key in o then o[key] else Undefined
  }

  /** `v || fallback`. */
  function Or(v: Value, fallback: Value): (r: Value)
    ensures Truthy(v) ==> r == v
    ensures !Truthy(v) ==> r == fallback
  {
    if Truthy(v) then v else fallback
  }

  /**
   * The key/value pairs `_.extend` copies out of a source: an object's own
   * fields, an array's indices; a primitive source contributes nothing.
   */
  function OwnFields(v: Value): (m: map<string, Value>)
    ensures v.Object? ==> m == v.fields
    ensures v.List? ==> forall i :: 0 <= i < |v.items| ==> NatToString(i) in m && m[NatToString(i)] == v.items[i]
    ensures v.List? ==> forall k :: k in m ==> exists i :: 0 <= i < |v.items| && k == NatToString(i)
    ensures !v.Object? && !v.List? ==> m == map[]
  {
    match v
    case Object(fields) => fields
    case List(items) => IndexFields(items)
    case _ => map[]
  }

  /** An array seen as an object: each element under its decimal index. */
  function IndexFields(items: seq<Value>): (m: map<string, Value>)
    ensures forall i :: 0 <= i < |items| ==> NatToString(i) in m && m[NatToString(i)] == items[i]
    ensures forall k :: k in m ==> exists i :: 0 <= i < |items| && k == NatToString(i)
  {
    IndicesDistinct(|items|);
    map i | 0 <= i < |items| :: NatToString(i) := items[i]
  }

  lemma IndicesDistinct(n: nat)
    ensures forall i, j :: 0 <= i < n && 0 <= j < n && NatToString(i) == NatToString(j) ==> i == j
  {
    forall i, j | 0 <= i < n && 0 <= j < n && NatToString(i) == NatToString(j) ensures i == j {
      NatToStringInjective(i, j);
    }
  }

  /** The elements `[].concat(v)` appends: an array is spread, any other value is one element. */
  function Spread(v: Value): (r: seq<Value>)
    ensures v.List? ==> r == v.items
    ensures !v.List? ==> r == [v]
  {
    if v.List? then v.items else [v]
  }

  /** `String(v)`; an array is joined with commas, its null and undefined elements printed empty. */
  function ToJsString(v: Value): string
    decreases v
  {
    match v
    case Undefined => "undefined"
    case Null => "null"
    case Bool(b) => if b then "true" else "false"
    case Num(n) => IntToString(n)
    case Str(s) => s
    case List(items) => JoinItems(items)
    case Object(_) => "[object Object]"
  }

  /** `items.join(",")`. */
  function JoinItems(items: seq<Value>): string
    decreases items
  {
    if items == [] then ""
    else
      var first := if items[0].Undefined? || items[0].Null? then "" else ToJsString(items[0]);
      if |items| == 1 then first else first + "," + JoinItems(items[1..])
  }
}
