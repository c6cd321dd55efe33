/**
 * The dynamically typed request data (`resume_data`, the parsed JSON body)
 * that the export route and the LaTeX renderer read: a Python value, with
 * dicts kept as insertion-ordered key/value lists, and the three Python
 * operations those modules apply to it: `d.get(key, default)`, truth
 * testing, and iteration by `for x in v`.
 */
module PyValues {
  import opened Seqs

  datatype Value =
    | VNone
    | VBool(b: bool)
    | VInt(i: int)
    | VStr(s: string)
    | VList(items: seq<Value>)
    | VDict(entries: seq<(string, Value)>)

  /** The exceptions these modules can raise, by Python class name. */
  datatype PyError =
    | NameError(name: string)
    | AttributeError(attribute: string)
    | TypeError(what: string)
    | Raised(message: string)

  datatype Result<T> = Ok(value: T) | Err(error: PyError)

  /** `bool(v)`. */
  predicate Truthy(v: Value)
  {
    match v
    case VNone => false
    case VBool(b) => b
    case VInt(i) => i != 0
    case VStr(s) => s != []
    case VList(items) => items != []
    case VDict(entries) => entries != []
  }

  function Keys(entries: seq<(string, Value)>): (ks: seq<string>)
    ensures |ks| == |entries|
    ensures forall i :: 0 <= i < |entries| ==> ks[i] == entries[i].0
  {
    if entries == [] then [] else [entries[0].0] + Keys(entries[1..])
  }

  /** The value stored under `key`, looked up as Python does in a dict whose keys are distinct. */
  function Lookup(entries: seq<(string, Value)>, key: string): (r: Option<Value>)
    ensures r.None? <==> key !in Keys(entries)
    ensures r.Some? ==> exists i :: 0 <= i < |entries| && entries[i] == (key, r.value)
  {
    if entries == [] then None
    else if entries[0].0 == key then Some(entries[0].1)
    else
      var r := Lookup(entries[1..], key);
      assert Keys(entries) == [entries[0].0] + Keys(entries[1..]);
      assert r.Some? ==> exists i :: 0 <= i < |entries| && entries[i] == (key, r.value) by {
        if r.Some? {
          var i :| 0 <= i < |entries[1..]| && entries[1..][i] == (key, r.value);
          assert entries[i + 1] == (key, r.value);
        }
      }
      r
  }

  /** A list of Python strings. */
  function StrValues(xs: seq<string>): (r: seq<Value>)
    ensures |r| == |xs| && forall i :: 0 <= i < |xs| ==> r[i] == VStr(xs[i])
  {
    seq(|xs|, i requires 0 <= i < |xs| => VStr(xs[i]))
  }

  /** `d.get(key, default)` on a dict's entries. */
  function Get(entries: seq<(string, Value)>, key: string, default: Value): (r: Value)
    ensures key !in Keys(entries) ==> r == default
    ensures key in Keys(entries) ==> exists i :: 0 <= i < |entries| && entries[i] == (key, r)
  {
    match Lookup(entries, key)
    case Some(v) => v
    case None => default
  }

  /** `get` on a dict whose first key is `k`: its value when the key is `k`, else `get` on the rest. */
  lemma GetCons(k: string, v: Value, rest: seq<(string, Value)>, key: string, default: Value)
    ensures Get([(k, v)] + rest, key, default) == if k == key then v else Get(rest, key, default)
  {
    assert ([(k, v)] + rest)[1..] == rest;
  }

  /** `v.get(key, default)` where `v` may be any value: only a dict has `get`. */
  function GetAttr(v: Value, key: string, default: Value): (r: Result<Value>)
    ensures r.Ok? <==> v.VDict?
    ensures !v.VDict? ==> r == Err(AttributeError("get"))
    ensures v.VDict? && key !in Keys(v.entries) ==> r == Ok(default)
    ensures v.VDict? && key in Keys(v.entries) ==> r.Ok? && exists i :: 0 <= i < |v.entries| && v.entries[i] == (key, r.value)
  {
    if v.VDict? then Ok(Get(v.entries, key, default)) else Err(AttributeError("get"))
  }

  /** `for x in v`: a list yields its items, a string its characters, a dict its keys; anything else is not iterable. */
  function Iterate(v: Value): (r: Result<seq<Value>>)
    ensures r.Err? <==> !(v.VList? || v.VStr? || v.VDict?)
    ensures v.VList? ==> r == Ok(v.items)
    ensures v.VStr? ==> r.Ok? && |r.value| == |v.s| && forall i :: 0 <= i < |v.s| ==> r.value[i] == VStr([v.s[i]])
    ensures v.VDict? ==> r.Ok? && r.value == StrValues(Keys(v.entries))
  {
    match v
    case VList(items) => Ok(items)
    case VStr(s) => Ok(seq(|s|, i requires 0 <= i < |s| => VStr([s[i]])))
    case VDict(entries) => Ok(seq(|entries|, i requires 0 <= i < |entries| => VStr(entries[i].0)))
    case _ => Err(TypeError("object is not iterable"))
  }
}
