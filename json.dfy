/**
 * The dynamically typed values the services pass around and store: request
 * bodies, Firestore documents and the records returned to callers.
 */
module Json {
  import opened Text

  datatype Option<T> = None | Some(value: T)

  /** A JavaScript value as it reaches the services. `Undefined` is a missing
      property, `Time` a `Date` or Firestore timestamp carried as an opaque
      clock reading, `Num` an integer (floating-point numbers are not modelled). */
  datatype Value =
    | Undefined
    | Null
    | Bool(b: bool)
    | Num(n: int)
    | Str(s: string)
    | Time(t: int)
    | Arr(items: seq<Value>)
    | Obj(fields: Doc)

  /** A plain object; also the contents of one Firestore document. */
  type Doc = map<string, Value>

  /** `d.k` on an object: `undefined` when the property is missing. */
  function At(d: Doc, k: string): (r: Value)
    ensures k !in d ==> r == Undefined
    ensures k in d ==> r == d[k]
  {
    if k in d then d[k] else Undefined
  }

  /** `v?.k`: a property of an object, `undefined` for every other value
      (the core never reads properties of strings, numbers or arrays). */
  function Prop(v: Value, k: string): (r: Value)
    ensures !v.Obj? ==> r == Undefined
  {
    if v.Obj? then At(v.fields, k) else Undefined
  }

  /** JavaScript truthiness. */
  predicate Truthy(v: Value) {
    match v
    case Undefined => false
    case Null => false
    case Bool(b) => b
    case Num(n) => n != 0
    case Str(s) => s != ""
    case Time(_) => true
    case Arr(_) => true
    case Obj(_) => true
  }

  /** `a || b`. */
  function Or(a: Value, b: Value): (r: Value)
    ensures Truthy(a) ==> r == a
    ensures !Truthy(a) ==> r == b
  {
    if Truthy(a) then a else b
  }

  /** `x ?? default` as produced by destructuring with a default:
      the default replaces `undefined` only. */
  function Default(v: Value, d: Value): (r: Value)
    ensures v != Undefined ==> r == v
    ensures v == Undefined ==> r == d
  {
    if v == Undefined then d else v
  }

  /** `typeof v === "number" || typeof v === "string"`. */
  predicate NumOrStr(v: Value) {
    v.Num? || v.Str?
  }

  /** A value Firestore accepts in a document: no `undefined` anywhere in it. */
  predicate Storable(v: Value) {
    match v
    case Undefined => false
    case Arr(items) => forall i :: 0 <= i < |items| ==> Storable(items[i])
    case Obj(m) => forall k :: k in m ==> Storable(m[k])
    case _ => true
  }

  predicate StorableDoc(d: Doc) {
    forall k :: k in d ==> Storable(d[k])
  }

  /** What `set(patch, { merge: true })` leaves in a document that held `old_`:
      non-empty nested objects are merged field by field, every other value
      of `patch` (an empty object included) replaces the old one, and fields
      `patch` does not name stay. */
  function MergeDeep(old_: Doc, patch: Doc): (r: Doc)
    ensures r.Keys == old_.Keys + patch.Keys
    ensures forall k :: k in old_ && k !in patch ==> r[k] == old_[k]
    ensures forall k :: k in patch && !(k in old_ && old_[k].Obj? && patch[k].Obj? && patch[k].fields != map[]) ==>
      r[k] == patch[k]
    decreases Obj(patch)
  {
    map k | k in old_.Keys + patch.Keys ::
      if k in patch then
        (if k in old_ && old_[k].Obj? && patch[k].Obj? && patch[k].fields != map[]
         then Obj(MergeDeep(old_[k].fields, patch[k].fields))
         else patch[k])
      else old_[k]
  }

  /** `String(v)`, also what `v.toString()` and a template literal produce. */
  function ToJsString(v: Value): string
    decreases v, 1
  {
    match v
    case Undefined => "undefined"
    case Null => "null"
    case Bool(b) => if b then "true" else "false"
    case Num(n) => IntToString(n)
    case Str(s) => s
    case Time(t) => "Timestamp(seconds=" + IntToString(t) + ")"
    case Arr(items) => JoinValues(items, 0)
    case Obj(_) => "[object Object]"
  }

  /** `items.slice(i).join(",")`: `null` and `undefined` elements print as "". */
  function JoinValues(items: seq<Value>, i: nat): string
    decreases Arr(items), 0, |items| - i
  {
    if i >= |items| then ""
    else
      var head := if items[i].Null? || items[i].Undefined? then "" else ToJsString(items[i]);
      if i == |items| - 1 then head else head + "," + JoinValues(items, i + 1)
  }

  /** `{ id, ...data }`: the snapshot's id first, then the document's own
      fields, so a stored `id` field wins. */
  function WithId(id: string, data: Doc): (r: Doc)
    ensures r.Keys == data.Keys + {"id"}
    ensures "id" !in data ==> r["id"] == Str(id)
    ensures forall k :: k in data ==> r[k] == data[k]
  {
    map["id" := Str(id)] + data
  }

  /** The fields `{ ...v }` copies: an object's own fields; `null`,
      `undefined` and the other scalars spread to nothing. */
  function Spread(v: Value): (r: Doc)
    ensures v.Obj? ==> r == v.fields
    ensures !v.Obj? && !v.Str? && !v.Arr? ==> r == map[]
  {
    if v.Obj? then v.fields else map[]
  }
}
