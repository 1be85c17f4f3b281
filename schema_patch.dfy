/** `patchSchema` of the CRM-agent provisioning script: before tool schemas
    are advertised to the LLM service, every array-typed schema node must
    declare the type of its items. */
module SchemaPatch {

  import opened Wrappers
  import opened JsonValues

  /** `{type: 'string'}`, the item schema given to arrays that lack one. */
  const DefaultItems: Json := JObj([Field("type", JStr("string"))])

  /** `schema.type === 'array'`: strict equality with the string, so
      neither `["array"]` nor `"Array"` qualifies. */
  predicate IsArrayNode(fs: seq<Field>)
    ensures IsArrayNode(fs) ==> "type" in Keys(fs)
  {
    Get(fs, "type") == Some(JStr("array"))
  }

  /** `!schema.items`: the key is absent or holds a falsy value. */
  predicate LacksItems(fs: seq<Field>)
    ensures "items" !in Keys(fs) ==> LacksItems(fs)
  {
    !TruthyOpt(Get(fs, "items"))
  }

  /** The node-level step: an array node lacking items receives the default. */
  function FillItems(fs: seq<Field>): (r: seq<Field>)
    ensures IsArrayNode(fs) && LacksItems(fs) ==> Get(r, "items") == Some(DefaultItems)
    ensures !(IsArrayNode(fs) && LacksItems(fs)) ==> r == fs
    ensures forall k :: k != "items" ==> Get(r, k) == Get(fs, k)
  {
    if IsArrayNode(fs) && LacksItems(fs) then Put(fs, "items", DefaultItems) else fs
  }

  /** `patchSchema(schema)`. The source mutates the object in place, first
      filling `items` and then recursing into every property (`for…in`, which
      for an array visits its elements); the value returned here is the tree
      it leaves behind. Recursing first and filling afterwards gives the same
      tree (see `FillThenRecurse`). Values that are not objects are returned
      unchanged. */
  function Patch(j: Json): (r: Json)
    decreases j
    ensures !(j.JArr? || j.JObj?) ==> r == j
    ensures j.JArr? <==> r.JArr?
    ensures j.JObj? <==> r.JObj?
    ensures Truthy(r) == Truthy(j)
  {
    match j
    case JArr(es) => JArr(PatchElems(es))
    case JObj(fs) => JObj(FillItems(PatchFields(fs)))
    case _ => j
  }

  /** Patches each element of an array, keeping length and order. */
  function PatchElems(es: seq<Json>): (r: seq<Json>)
    decreases es
    ensures |r| == |es|
    ensures forall i :: 0 <= i < |es| ==> r[i] == Patch(es[i])
  {
    if es == [] then [] else [Patch(es[0])] + PatchElems(es[1..])
  }

  /** Patches the value under each key of an object, keeping the keys. */
  function PatchFields(fs: seq<Field>): (r: seq<Field>)
    decreases fs
    ensures |r| == |fs|
    ensures forall i :: 0 <= i < |fs| ==> r[i] == Field(fs[i].key, Patch(fs[i].value))
  {
    if fs == [] then [] else [Field(fs[0].key, Patch(fs[0].value))] + PatchFields(fs[1..])
  }

  /** A property read on a patched object yields the patched value. */
  lemma {:induction false} GetPatchFields(fs: seq<Field>, k: string)
    ensures Get(PatchFields(fs), k) == if Get(fs, k).Some? then Some(Patch(Get(fs, k).value)) else None
  {
    if fs != [] {
      var r := PatchFields(fs);
      assert r[1..] == PatchFields(fs[1..]);
      GetPatchFields(fs[1..], k);
    }
  }

  /** Patching the children does not change whether a node is an array node
      lacking items: the `type` string is a leaf, and patching keeps truthiness. */
  lemma PatchFieldsKeepsGuard(fs: seq<Field>)
    ensures IsArrayNode(PatchFields(fs)) == IsArrayNode(fs)
    ensures LacksItems(PatchFields(fs)) == LacksItems(fs)
  {
    GetPatchFields(fs, "type");
    GetPatchFields(fs, "items");
  }

  /** Every array node in the tree has truthy `items`: the invariant the LLM
      service demands of a function's parameter schema. */
  ghost predicate Complete(j: Json)
    decreases j
  {
    match j
    case JArr(es) => forall i :: 0 <= i < |es| ==> Complete(es[i])
    case JObj(fs) =>
      && (IsArrayNode(fs) ==> !LacksItems(fs))
      && forall i :: 0 <= i < |fs| ==> Complete(fs[i].value)
    case _ => true
  }

  /** The default item schema is itself complete and left alone by patching. */
  lemma DefaultItemsFixed()
    ensures Patch(DefaultItems) == DefaultItems
    ensures Complete(DefaultItems)
  {
    var fs := [Field("type", JStr("string"))];
    assert PatchFields(fs) == fs;
    assert !IsArrayNode(fs);
  }

  /** Completeness: after patching, every array node has truthy `items`. */
  lemma {:induction false} PatchComplete(j: Json)
    decreases j
    ensures Complete(Patch(j))
  {
    match j
    case JArr(es) =>
      forall i | 0 <= i < |es| ensures Complete(PatchElems(es)[i]) {
        PatchComplete(es[i]);
      }
    case JObj(fs) =>
      var p := PatchFields(fs);
      var r := FillItems(p);
      forall i | 0 <= i < |p| ensures Complete(p[i].value) {
        PatchComplete(fs[i].value);
      }
      if IsArrayNode(p) && LacksItems(p) {
        PutKeys(p, "items", DefaultItems);
        PutCompleteValues(p, "items", DefaultItems);
        DefaultItemsFixed();
      }
    case _ =>
  }

  /** Writing a complete value into an object whose values are all complete
      leaves all its values complete. */
  lemma {:induction false} PutCompleteValues(fs: seq<Field>, k: string, v: Json)
    requires Complete(v)
    requires forall i :: 0 <= i < |fs| ==> Complete(fs[i].value)
    ensures forall i :: 0 <= i < |Put(fs, k, v)| ==> Complete(Put(fs, k, v)[i].value)
  {
    if fs != [] && fs[0].key != k {
      PutCompleteValues(fs[1..], k, v);
      var r := Put(fs, k, v);
      assert r[1..] == Put(fs[1..], k, v);
      forall i | 0 <= i < |r| ensures Complete(r[i].value) {
        if i > 0 { assert r[i] == r[1..][i - 1]; }
      }
    }
  }

  /** A complete tree is left unchanged by patching. */
  lemma {:induction false} PatchFixesComplete(j: Json)
    decreases j
    requires Complete(j)
    ensures Patch(j) == j
  {
    match j
    case JArr(es) =>
      forall i | 0 <= i < |es| ensures PatchElems(es)[i] == es[i] {
        PatchFixesComplete(es[i]);
      }
      assert PatchElems(es) == es;
    case JObj(fs) =>
      forall i | 0 <= i < |fs| ensures PatchFields(fs)[i] == fs[i] {
        PatchFixesComplete(fs[i].value);
      }
      assert PatchFields(fs) == fs;
    case _ =>
  }

  /** The trees patching leaves unchanged are exactly the complete ones. */
  lemma PatchFixpointIff(j: Json)
    ensures Patch(j) == j <==> Complete(j)
  {
    PatchComplete(j);
    if Complete(j) {
      PatchFixesComplete(j);
    }
  }

  /** Idempotence: patching a patched tree changes nothing. */
  lemma PatchIdempotent(j: Json)
    ensures Patch(Patch(j)) == Patch(j)
  {
    PatchComplete(j);
    PatchFixesComplete(Patch(j));
  }

  /** The object-level effect of patching, stated on keys and values:
      no key is removed or reordered; `items` is added (last) only to an
      array node that lacks it; an array node lacking items gets exactly the
      default; every other property holds the patched old value. */
  lemma PatchObject(fs: seq<Field>, k: string)
    ensures Patch(JObj(fs)).JObj?
    ensures Keys(Patch(JObj(fs)).fields) ==
      if IsArrayNode(fs) && LacksItems(fs) && "items" !in Keys(fs) then Keys(fs) + ["items"] else Keys(fs)
    ensures Get(Patch(JObj(fs)).fields, k) ==
      if k == "items" && IsArrayNode(fs) && LacksItems(fs) then Some(DefaultItems)
      else if Get(fs, k).Some? then Some(Patch(Get(fs, k).value))
      else None
  {
    var p := PatchFields(fs);
    PatchFieldsKeepsGuard(fs);
    GetPatchFields(fs, k);
    assert Keys(p) == Keys(fs);
    if IsArrayNode(fs) && LacksItems(fs) {
      PutKeys(p, "items", DefaultItems);
    }
  }

  /** An array node whose `items` was truthy keeps it, patched in turn; in
      particular it stays exactly as it was when it was already complete. */
  lemma PatchKeepsTruthyItems(fs: seq<Field>)
    requires TruthyOpt(Get(fs, "items"))
    ensures Get(Patch(JObj(fs)).fields, "items") == Some(Patch(Get(fs, "items").value))
    ensures Complete(Get(fs, "items").value) ==> Get(Patch(JObj(fs)).fields, "items") == Get(fs, "items")
  {
    PatchObject(fs, "items");
    if Complete(Get(fs, "items").value) {
      PatchFixesComplete(Get(fs, "items").value);
    }
  }

  /** The source's own order, filling `items` first and then recursing into
      every property (including the freshly written default), produces the
      same object. */
  lemma FillThenRecurse(fs: seq<Field>)
    ensures PatchFields(FillItems(fs)) == FillItems(PatchFields(fs))
  {
    PatchFieldsKeepsGuard(fs);
    if IsArrayNode(fs) && LacksItems(fs) {
      DefaultItemsFixed();
      PatchPut(fs, "items", DefaultItems);
    }
  }

  /** Patching commutes with writing a value that patching leaves alone. */
  lemma {:induction false} PatchPut(fs: seq<Field>, k: string, v: Json)
    requires Patch(v) == v
    ensures PatchFields(Put(fs, k, v)) == Put(PatchFields(fs), k, v)
  {
    if fs == [] {
    } else if fs[0].key == k {
      var r := Put(fs, k, v);
      assert r[1..] == fs[1..];
      assert PatchFields(r)[1..] == PatchFields(r[1..]);
      assert PatchFields(fs)[1..] == PatchFields(fs[1..]);
    } else {
      PatchPut(fs[1..], k, v);
      var r := Put(fs, k, v);
      assert r[1..] == Put(fs[1..], k, v);
      assert PatchFields(r)[1..] == PatchFields(r[1..]);
      assert PatchFields(fs)[1..] == PatchFields(fs[1..]);
    }
  }
}
