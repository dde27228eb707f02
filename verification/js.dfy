/** The loosely typed JavaScript values the front end reads from the backend and
    keeps in its stores, with the handful of language operations the code relies
    on: truthiness, `a || b`, optional property reads `v?.key`, property reads
    that throw on null, object spread `{...a, ...b}` and `String(v)`. */
module Js {

  import opened Options
  import Text

  /** A JavaScript value. Numbers are integers: nothing in the modelled code
      computes fractions on backend data. `File` stands for a browser File
      object chosen in a file input. */
  datatype Value =
    | Undefined
    | Null
    | Bool(b: bool)
    | Num(n: int)
    | Str(s: string)
    | Arr(items: seq<Value>)
    | Obj(fields: map<string, Value>)
    | File(handle: nat)

  /** JavaScript truthiness: `undefined`, `null`, `false`, `0` and `""` are
      falsy; every object, array and File is truthy. */
  predicate Truthy(v: Value) {
    match v
    case Undefined => false
    case Null => false
    case Bool(b) => b
    case Num(n) => n != 0
    case Str(s) => s != ""
    case _ => true
  }

  /** `a || b`. */
  function Or(a: Value, b: Value): (r: Value)
    ensures Truthy(a) ==> r == a
    ensures !Truthy(a) ==> r == b
  {
    if Truthy(a) then a else b
  }

  /** `v?.key`: undefined unless `v` is an object that has `key`. */
  function Get(v: Value, key: string): Value {
    if v.Obj? && key in v.fields then v.fields[key] else Undefined
  }

  /** `v.key` without optional chaining: `None` when it throws a TypeError
      (reading a property of null or undefined). */
  function Read(v: Value, key: string): Option<Value> {
    if v.Undefined? || v.Null? then None else Some(Get(v, key))
  }

  /** The own properties that object spread copies out of `v`; null and
      undefined spread nothing. */
  function Fields(v: Value): map<string, Value> {
    if v.Obj? then v.fields else map[]
  }

  /** `{...a, ...b}`: the properties of both, those of `b` winning. */
  function Merge(a: Value, b: Value): (r: Value)
    ensures r.Obj?
    ensures r.fields.Keys == Fields(a).Keys + Fields(b).Keys
    ensures forall k :: k in Fields(b) ==> r.fields[k] == Fields(b)[k]
    ensures forall k :: k in Fields(a) && k !in Fields(b) ==> r.fields[k] == Fields(a)[k]
    ensures forall k :: Get(r, k) == if k in Fields(b) then Fields(b)[k] else Get(a, k)
  {
    Obj(Fields(a) + Fields(b))
  }

  /** `o.key = x` on an object; other values are left as they are. */
  function SetField(o: Value, key: string, x: Value): Value {
    if o.Obj? then Obj(o.fields[key := x]) else o
  }

  /** `String(v)`, the conversion used by template literals and by
      `localStorage.setItem`. */
  function ToText(v: Value): string
    decreases v, 0
  {
    match v
    case Undefined => "undefined"
    case Null => "null"
    case Bool(b) => if b then "true" else "false"
    case Num(n) => Text.IntToString(n)
    case Str(s) => s
    case Arr(items) => Join(seq(|items|, i requires 0 <= i < |items| => ElementText(items[i])))
    case Obj(_) => "[object Object]"
    case File(_) => "[object File]"
  }

  /** An array element inside `String(array)`: null and undefined print as "". */
  function ElementText(v: Value): string
    decreases v, 1
  {
    if v.Undefined? || v.Null? then "" else ToText(v)
  }

  /** `parts.join(",")`. */
  function Join(parts: seq<string>): string
    decreases |parts|
  {
    if |parts| == 0 then ""
    else if |parts| == 1 then parts[0]
    else Join(parts[..|parts| - 1]) + "," + parts[|parts| - 1]
  }
}

/** `window.localStorage` as a map from key to stored string. */
module BrowserStorage {

  import opened Options

  type Storage = map<string, string>

  /** `localStorage.getItem(key)`; `None` is JavaScript's `null`. */
  function GetItem(st: Storage, key: string): Option<string> {
    if key in st then Some(st[key]) else None
  }

  /** `localStorage.getItem(key)` used as a condition: present and non-empty. */
  predicate HasItem(st: Storage, key: string) {
    key in st && st[key] != ""
  }

  function SetItem(st: Storage, key: string, text: string): (r: Storage)
    ensures GetItem(r, key) == Some(text)
    ensures forall k :: k != key ==> GetItem(r, k) == GetItem(st, k)
  {
    st[key := text]
  }

  function RemoveItem(st: Storage, key: string): (r: Storage)
    ensures GetItem(r, key) == None
    ensures forall k :: k != key ==> GetItem(r, k) == GetItem(st, k)
  {
    st - {key}
  }
}
