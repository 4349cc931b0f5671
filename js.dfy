/**
 * The JavaScript runtime values that travel through the data layer: request
 * bodies, response payloads and the loosely typed objects the session holder
 * keeps. Numbers are integers here (see README, "Left out").
 */
module Js {
  import opened Wrappers

  datatype Json =
    | Null
    | Bool(b: bool)
    | Num(n: int)
    | Str(s: string)
    | Arr(items: seq<Json>)
    | Obj(fields: map<string, Json>)

  /** JavaScript truthiness: what `if (v)` and `v && ...` test. */
  predicate Truthy(v: Json) {
    match v
    case Null => false
    case Bool(b) => b
    case Num(n) => n != 0
    case Str(s) => s != ""
    case Arr(_) => true
    case Obj(_) => true
  }

  /** Truthiness of a value that may be `undefined` (None). */
  predicate Present(v: Option<Json>) {
    v.Some? && Truthy(v.value)
  }

  /** Property read `v.key`; `undefined` (None) when `v` is not an object or lacks the key. */
  function Field(v: Json, key: string): (r: Option<Json>)
    ensures r.Some? <==> v.Obj? && key in v.fields
    ensures r.Some? ==> r.value == v.fields[key]
  {
    if v.Obj? && key in v.fields then Some(v.fields[key]) else None
  }

  /** Property read on a value that may itself be undefined: `v?.key`. */
  function OptField(v: Option<Json>, key: string): Option<Json> {
    if v.Some? then Field(v.value, key) else None
  }

  /** `v.id === id`: the strict-equality id test used by every lookup and splice. */
  predicate HasId(v: Json, id: int) {
    Field(v, "id") == Some(Num(id))
  }

  /** The position of the first element of `xs` whose id is `id`. */
  function IndexOfId(xs: seq<Json>, id: int): (r: Option<nat>)
    ensures r.Some? ==> r.value < |xs| && HasId(xs[r.value], id)
    ensures r.Some? ==> forall j :: 0 <= j < r.value ==> !HasId(xs[j], id)
    ensures r.None? ==> forall j :: 0 <= j < |xs| ==> !HasId(xs[j], id)
  {
    if xs == [] then None
    else if HasId(xs[0], id) then Some(0)
    else
      match IndexOfId(xs[1..], id)
      case None => None
      case Some(k) => Some(k + 1)
  }

  /** `xs.find(x => x.id === id)`: the first element whose id is `id`, or undefined. */
  function FindById(xs: seq<Json>, id: int): (r: Option<Json>)
    ensures r.Some? <==> exists j :: 0 <= j < |xs| && HasId(xs[j], id)
    ensures r.Some? ==> HasId(r.value, id) && r.value == xs[IndexOfId(xs, id).value]
  {
    match IndexOfId(xs, id)
    case None => None
    case Some(k) => Some(xs[k])
  }

  /** A thrown value: an `Error` instance carries a message; anything else does not. */
  datatype Exception = Error(message: string) | NonError

  /** `e instanceof Error ? e.message : fallback`, the mapping every catch block uses. */
  function MessageOr(e: Exception, fallback: string): string {
    if e.Error? then e.message else fallback
  }

  /** How an `async` operation settles: it returns a value or it throws. */
  datatype Completion<T> = Returned(value: T) | Threw(exception: Exception)
}
