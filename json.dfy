/** Optional values: `None` stands for JavaScript's `undefined` (a missing key,
    a missing property in an optional chain). */
module Wrappers {

  datatype Option<+T> = None | Some(value: T) {

    /** The value, or `default` when there is none. */
    function GetOr(default: T): T {
      match this
      case Some(v) => v
      case None => default
    }
  }
}

/** JSON values as the tool schemas and request bodies carry them, with the
    JavaScript notions the source relies on: truthiness (`!v`), property read
    (`o[k]`) and property write (`o[k] = v`). */
module JsonValues {

  import opened Wrappers

  /** A JSON value. Objects keep their keys in insertion order, as JavaScript
      objects do for non-numeric keys. Numbers are integers. */
  datatype Json =
    | JNull
    | JBool(b: bool)
    | JNum(n: int)
    | JStr(s: string)
    | JArr(elems: seq<Json>)
    | JObj(fields: seq<Field>)

  datatype Field = Field(key: string, value: Json)

  /** JavaScript truthiness: `null`, `false`, `0` and `""` are falsy; every
      array and every object, even an empty one, is truthy. */
  predicate Truthy(v: Json)
    ensures !Truthy(v) <==> v == JNull || v == JBool(false) || v == JNum(0) || v == JStr("")
  {
    match v
    case JNull => false
    case JBool(b) => b
    case JNum(n) => n != 0
    case JStr(s) => s != ""
    case JArr(_) => true
    case JObj(_) => true
  }

  /** Truthiness of a property read that may be `undefined` (falsy). */
  predicate TruthyOpt(v: Option<Json>)
    ensures v.None? ==> !TruthyOpt(v)
  {
    v.Some? && Truthy(v.value)
  }

  /** The keys of an object, in order. */
  function Keys(fs: seq<Field>): (ks: seq<string>)
    ensures |ks| == |fs|
    ensures forall i :: 0 <= i < |fs| ==> ks[i] == fs[i].key
  {
    if fs == [] then [] else [fs[0].key] + Keys(fs[1..])
  }

  /** `o[k]`: the value under key `k`, or `None` (undefined) when `o` has no such key. */
  function Get(fs: seq<Field>, k: string): (r: Option<Json>)
    ensures r.Some? <==> k in Keys(fs)
  {
    if fs == [] then None
    else if fs[0].key == k then Some(fs[0].value)
    else Get(fs[1..], k)
  }

  /** The value read is stored under the key, in the first field carrying it. */
  lemma {:induction false} GetValue(fs: seq<Field>, k: string)
    ensures Get(fs, k).Some? ==>
      exists i :: 0 <= i < |fs| && fs[i] == Field(k, Get(fs, k).value) && forall j :: 0 <= j < i ==> fs[j].key != k
  {
    if fs != [] && fs[0].key != k && Get(fs, k).Some? {
      GetValue(fs[1..], k);
      var i :| 0 <= i < |fs[1..]| && fs[1..][i] == Field(k, Get(fs, k).value) && forall j :: 0 <= j < i ==> fs[1..][j].key != k;
      assert fs[i + 1] == Field(k, Get(fs, k).value);
      forall j | 0 <= j < i + 1 ensures fs[j].key != k {
        if j > 0 { assert fs[j] == fs[1..][j - 1]; }
      }
    } else if fs != [] && fs[0].key == k {
      assert fs[0] == Field(k, Get(fs, k).value);
    }
  }

  /** Conversely, the first field carrying the key is the one read. */
  lemma {:induction false} GetFirst(fs: seq<Field>, k: string, i: nat)
    requires i < |fs| && fs[i].key == k
    requires forall j :: 0 <= j < i ==> fs[j].key != k
    ensures Get(fs, k) == Some(fs[i].value)
  {
    if i > 0 {
      GetFirst(fs[1..], k, i - 1);
    }
  }

  /** `o[k] = v`: overwrites the value in place when `k` is a key of `o`,
      and otherwise adds `k` after the existing keys. */
  function Put(fs: seq<Field>, k: string, v: Json): (r: seq<Field>)
    ensures Get(r, k) == Some(v)
    ensures forall k' :: k' != k ==> Get(r, k') == Get(fs, k')
  {
    if fs == [] then [Field(k, v)]
    else if fs[0].key == k then
      var r := [Field(k, v)] + fs[1..];
      assert r[1..] == fs[1..];
      r
    else
      var r := [fs[0]] + Put(fs[1..], k, v);
      assert r[1..] == Put(fs[1..], k, v);
      r
  }

  /** Writing a key never removes or reorders keys: an existing key keeps
      its place, a new one goes last. */
  lemma {:induction false} PutKeys(fs: seq<Field>, k: string, v: Json)
    ensures Keys(Put(fs, k, v)) == if k in Keys(fs) then Keys(fs) else Keys(fs) + [k]
  {
    if fs != [] && fs[0].key != k {
      PutKeys(fs[1..], k, v);
      assert Keys(fs) == [fs[0].key] + Keys(fs[1..]);
    }
  }
}
