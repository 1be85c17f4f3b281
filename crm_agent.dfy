/** The tool selection of the CRM-agent provisioning script: the tools listed
    by the tool bridge are narrowed to the CRM ones and turned into function
    descriptors whose parameter schemas are patched. The network calls around
    it (listing the tools, creating the assistant) are not modelled. */
module CrmAgent {

  import opened Wrappers
  import opened JsonValues
  import opened SchemaPatch

  /** A tool as listed by the bridge. `None` is an absent (undefined) property;
      `Some(JNull)` a property that is present and null. */
  datatype Tool = Tool(
    name: string,
    description: Option<Json>,
    inputSchema: Option<Json>,
    parameters: Option<Json>)

  /** `{type: 'function', function: {name, description, parameters}}`. */
  datatype FunctionTool = FunctionTool(kind: string, name: string, description: Option<Json>, parameters: Json)

  const CrmPrefix: string := "crm"

  /** `name.startsWith('crm')`. */
  predicate IsCrm(t: Tool)
    ensures IsCrm(t) <==> |t.name| >= 3 && t.name[..3] == "crm"
  {
    CrmPrefix <= t.name
  }

  /** `allTools.filter(tool => tool.name.startsWith('crm'))`. */
  function CrmTools(tools: seq<Tool>): (r: seq<Tool>)
    ensures |r| <= |tools|
    ensures forall t :: t in r <==> t in tools && IsCrm(t)
  {
    if tools == [] then []
    else if IsCrm(tools[0]) then [tools[0]] + CrmTools(tools[1..])
    else CrmTools(tools[1..])
  }

  /** The filter keeps relative order: filtering a concatenation is the
      concatenation of the filtered parts. With the single-tool case below
      this fixes the result completely. */
  lemma {:induction false} CrmToolsAppend(a: seq<Tool>, b: seq<Tool>)
    ensures CrmTools(a + b) == CrmTools(a) + CrmTools(b)
  {
    if a == [] {
      assert a + b == b;
    } else {
      assert (a + b)[0] == a[0];
      assert (a + b)[1..] == a[1..] + b;
      CrmToolsAppend(a[1..], b);
    }
  }

  lemma CrmToolsSingle(t: Tool)
    ensures CrmTools([t]) == if IsCrm(t) then [t] else []
  {
  }

  /** A catalogue holding only CRM tools passes unchanged; conversely an
      unchanged catalogue holds only CRM tools. */
  lemma {:induction false} CrmToolsKeepsAllIff(tools: seq<Tool>)
    ensures CrmTools(tools) == tools <==> forall i :: 0 <= i < |tools| ==> IsCrm(tools[i])
  {
    if tools != [] {
      CrmToolsKeepsAllIff(tools[1..]);
      if !IsCrm(tools[0]) {
        assert |CrmTools(tools)| < |tools|;
      }
      assert forall i :: 1 <= i < |tools| ==> tools[i] == tools[1..][i - 1];
    }
  }

  /** A property that is null or undefined. */
  predicate Nullish(a: Option<Json>)
    ensures Nullish(a) ==> !TruthyOpt(a)
  {
    a.None? || a.value == JNull
  }

  /** `a ?? b`: `a` unless it is null or undefined. */
  function Coalesce(a: Option<Json>, b: Json): (r: Json)
    ensures !Nullish(a) ==> r == a.value
    ensures Nullish(a) ==> r == b
  {
    if Nullish(a) then b else a.value
  }

  /** `patchSchema(tool.inputSchema ?? tool.parameters ?? {})`. */
  function ParametersOf(t: Tool): (r: Json)
    ensures Complete(r)
  {
    var schema := Coalesce(t.inputSchema, Coalesce(t.parameters, JObj([])));
    PatchComplete(schema);
    Patch(schema)
  }

  /** Which schema a descriptor advertises, and that it is complete. */
  lemma ParametersChoice(t: Tool)
    ensures !Nullish(t.inputSchema) ==> ParametersOf(t) == Patch(t.inputSchema.value)
    ensures Nullish(t.inputSchema) && !Nullish(t.parameters) ==> ParametersOf(t) == Patch(t.parameters.value)
    ensures Nullish(t.inputSchema) && Nullish(t.parameters) ==> ParametersOf(t) == JObj([])
    ensures Complete(ParametersOf(t))
  {
  }

  /** The descriptor of one tool. */
  function Format(t: Tool): (r: FunctionTool)
    ensures r.kind == "function" && r.name == t.name && r.description == t.description
    ensures Complete(r.parameters)
  {
    FunctionTool("function", t.name, t.description, ParametersOf(t))
  }

  /** `filteredTools.map(...)`: one descriptor per tool, in order. */
  function FormatAll(ts: seq<Tool>): (r: seq<FunctionTool>)
    ensures |r| == |ts|
    ensures forall i :: 0 <= i < |ts| ==> r[i] == Format(ts[i])
  {
    if ts == [] then [] else [Format(ts[0])] + FormatAll(ts[1..])
  }

  /** What the provisioning script advertises for a `listTools` answer whose
      `tools` property may be missing (`toolsResult.tools || []`). */
  function Advertised(listed: Option<seq<Tool>>): (r: seq<FunctionTool>)
    ensures listed.None? ==> r == []
    ensures |r| <= |listed.GetOr([])|
  {
    FormatAll(CrmTools(listed.GetOr([])))
  }

  /** Everything advertised is a CRM function whose parameter schema is
      complete, carrying the name and description of a listed tool. */
  lemma AdvertisedWellFormed(listed: Option<seq<Tool>>)
    ensures listed.None? ==> Advertised(listed) == []
    ensures forall d :: d in Advertised(listed) ==>
      && d.kind == "function"
      && CrmPrefix <= d.name
      && Complete(d.parameters)
      && exists t :: t in listed.GetOr([]) && t.name == d.name && t.description == d.description
  {
    var kept := CrmTools(listed.GetOr([]));
    var r := Advertised(listed);
    forall d | d in r
      ensures d.kind == "function" && CrmPrefix <= d.name && Complete(d.parameters)
      ensures exists t :: t in listed.GetOr([]) && t.name == d.name && t.description == d.description
    {
      var i :| 0 <= i < |r| && r[i] == d;
      assert kept[i] in kept;
    }
  }

  /** Every CRM tool of the catalogue is advertised, in catalogue order:
      the descriptors are those of the CRM tools, one for one. */
  lemma AdvertisedAppend(a: seq<Tool>, b: seq<Tool>)
    ensures Advertised(Some(a + b)) == Advertised(Some(a)) + Advertised(Some(b))
  {
    CrmToolsAppend(a, b);
    FormatAllAppend(CrmTools(a), CrmTools(b));
  }

  lemma FormatAllAppend(a: seq<Tool>, b: seq<Tool>)
    ensures FormatAll(a + b) == FormatAll(a) + FormatAll(b)
  {
    var l, r := FormatAll(a + b), FormatAll(a) + FormatAll(b);
    assert |l| == |r|;
    forall i | 0 <= i < |l| ensures l[i] == r[i] {
      if i < |a| { assert (a + b)[i] == a[i]; } else { assert (a + b)[i] == b[i - |a|]; }
    }
  }
}
