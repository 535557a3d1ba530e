/** An already-parsed JSON document, as `json.load` hands it to the summariser,
    together with the few Python operations the summariser applies to it:
    `dict.get`, truthiness and `str()`. */
module Json {
  import opened Wrappers
  import opened Text

  /** A JSON value. Objects keep their members in document order. */
  datatype Value =
    | Null
    | Bool(b: bool)
    | Num(n: int)
    | Str(s: string)
    | Arr(items: seq<Value>)
    | Obj(fields: seq<(string, Value)>)

  type Fields = seq<(string, Value)>

  /** The value stored under `key`. When a document repeats a key, the last
      occurrence wins, as it does for the dict `json.load` builds. */
  function Lookup(fields: Fields, key: string): Option<Value> {
    if |fields| == 0 then None
    else if fields[|fields| - 1].0 == key then Some(fields[|fields| - 1].1)
    else Lookup(fields[..|fields| - 1], key)
  }

  /** `Lookup` finds nothing exactly when no member has the key, and otherwise
      finds the value of the last member with that key. */
  lemma {:induction false} LookupFindsLastMember(fields: Fields, key: string)
    ensures Lookup(fields, key).None? <==> forall i :: 0 <= i < |fields| ==> fields[i].0 != key
    ensures Lookup(fields, key).Some? ==>
              exists i :: 0 <= i < |fields| && fields[i] == (key, Lookup(fields, key).value) &&
                          forall j :: i < j < |fields| ==> fields[j].0 != key
  {
    if |fields| > 0 && fields[|fields| - 1].0 != key {
      var init := fields[..|fields| - 1];
      LookupFindsLastMember(init, key);
      assert forall i :: 0 <= i < |init| ==> init[i] == fields[i];
    }
  }

  /** Python's `d.get(key, default)`. */
  function Get(fields: Fields, key: string, default: Value): Value {
    match Lookup(fields, key)
    case Some(v) => v
    case None => default
  }

  /** Python's truthiness of a JSON value. */
  predicate Truthy(v: Value) {
    match v
    case Null => false
    case Bool(b) => b
    case Num(n) => n != 0
    case Str(s) => s != []
    case Arr(items) => items != []
    case Obj(fields) => fields != []
  }

  /** Python's `repr()` of a JSON value. Nested strings are quoted with `'`;
      Python's escaping of quotes and control characters inside them is not modelled. */
  function Repr(v: Value): string {
    match v
    case Null => "None"
    case Bool(b) => if b then "True" else "False"
    case Num(n) => IntToString(n)
    case Str(s) => "'" + s + "'"
    case Arr(items) =>
      "[" + Join(", ", seq(|items|, i requires 0 <= i < |items| => Repr(items[i]))) + "]"
    case Obj(fields) =>
      "{" + Join(", ", seq(|fields|, i requires 0 <= i < |fields| =>
                             "'" + fields[i].0 + "': " + Repr(fields[i].1))) + "}"
  }

  /** Python's `str()`, which is what an f-string placeholder renders:
      a string as itself, anything else as its `repr()`. */
  function Show(v: Value): string {
    if v.Str? then v.s else Repr(v)
  }
}
