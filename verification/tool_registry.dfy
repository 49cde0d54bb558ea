/** The tool registry: a catalog from tool name to tool, kept in insertion order
    like a Python dict, plus one ordered bucket of names per category.  Functions
    are registered from an explicit declaration of their signature (the part of
    the source that reads it by reflection), and executed through a guard that
    separates three failures: unknown tool, invalid arguments, failing tool.
 */
module ToolRegistry {
  import opened Common
  import opened Strings
  import opened Values
  import opened ToolModel

  // ---------------------------------------------------------------------------
  // Declared signatures
  // ---------------------------------------------------------------------------

  /** One parameter of a function signature: its annotation and its default, each
      possibly absent. */
  datatype ParamDecl = ParamDecl(name: string, annotation: Option<TypeTag>, default: Option<Value>)

  /** What registration reads off a function: its `__name__`, `__doc__`, signature
      and return annotation, and the function itself. */
  datatype FuncDecl = FuncDecl(
    name: string,
    doc: Option<string>,
    params: seq<ParamDecl>,
    returnAnnotation: Option<TypeTag>,
    body: ToolFunction)

  /** The arguments of `register(name, description, category, return_description)`. */
  datatype RegisterOptions = RegisterOptions(
    name: Option<string>,
    description: string,
    category: ToolCategory,
    returnDescription: string)

  /** `register()` with every argument left at its default. */
  const DefaultOptions := RegisterOptions(None, "", Utility, "")

  // ---------------------------------------------------------------------------
  // Parameter descriptions from the docstring
  // ---------------------------------------------------------------------------

  /** The index of the first line containing `key`, if any. */
  function FirstLineWith(lines: seq<string>, key: string): (r: Option<nat>)
    ensures r.Some? ==> r.value < |lines| && Contains(lines[r.value], key)
    ensures r.Some? ==> forall j :: 0 <= j < r.value ==> !Contains(lines[j], key)
    ensures r.None? ==> forall j :: 0 <= j < |lines| ==> !Contains(lines[j], key)
  {
    if lines == [] then None
    else if Contains(lines[0], key) then Some(0)
    else
      match FirstLineWith(lines[1..], key)
      case None => None
      case Some(k) => Some(k + 1)
  }

  /** The text between the first and the second `':'` of a line holding one
      (Python's `line.split(":")[1]`). */
  function SecondField(line: string): (f: string)
    requires ':' in line
    ensures ':' !in f
  {
    var parts := Split(line, ':');
    assert multiset(line)[':'] > 0;
    parts[1]
  }

  /** The description registration gives parameter `pname` from docstring `doc`:
      empty without a docstring, otherwise the whole docstring or a colon-free
      piece of one of its lines. */
  function DocDescription(doc: Option<string>, pname: string): (d: string)
    ensures doc.None? ==> d == []
    ensures d == [] || (doc.Some? && (d == doc.value || ':' !in d))
  {
    if doc.None? || doc.value == [] then
      []
    else
      var key := pname + ":";
      var lines := Split(doc.value, '\n');
      match FirstLineWith(lines, key)
      case None => doc.value
      case Some(i) =>
        ContainsHasChars(lines[i], key, |key| - 1);
        StripWithout(SecondField(lines[i]), ':');
        Strip(SecondField(lines[i]))
  }

  /** Without a docstring, or with an empty one, the description is empty. */
  lemma DocDescriptionWithoutDoc(doc: Option<string>, pname: string)
    requires doc.None? || doc.value == []
    ensures DocDescription(doc, pname) == []
  {
  }

  /** When no line of the docstring mentions `pname:`, the description is the
      whole docstring. */
  lemma DocDescriptionUnmentioned(doc: string, pname: string)
    requires doc != []
    requires forall j :: 0 <= j < |Split(doc, '\n')| ==> !Contains(Split(doc, '\n')[j], pname + ":")
    ensures DocDescription(Some(doc), pname) == doc
  {
  }

  /** When line `i` is the first to mention `pname:`, the description is the text
      between that line's first and second colon, stripped. */
  lemma DocDescriptionFromLine(doc: string, pname: string, i: nat)
    requires doc != [] && i < |Split(doc, '\n')|
    requires Contains(Split(doc, '\n')[i], pname + ":")
    requires forall j :: 0 <= j < i ==> !Contains(Split(doc, '\n')[j], pname + ":")
    ensures ':' in Split(doc, '\n')[i]
    ensures DocDescription(Some(doc), pname) == Strip(SecondField(Split(doc, '\n')[i]))
  {
    var key := pname + ":";
    var lines := Split(doc, '\n');
    ContainsHasChars(lines[i], key, |key| - 1);
    var k := FirstLineWith(lines, key);
    assert k == Some(i);
  }

  // ---------------------------------------------------------------------------
  // Parameter derivation
  // ---------------------------------------------------------------------------

  /** The schema registration derives for one declared parameter. */
  function SchemaOfDecl(d: ParamDecl, doc: Option<string>): (p: ParameterSchema)
    ensures p.name == d.name
    ensures p.paramType == d.annotation.GetOr(StrT)
    ensures p.required <==> d.default.None?
    ensures d.default.None? ==> p.default == NoneV
    ensures d.default.Some? ==> p.default == d.default.value
    ensures p.description == DocDescription(doc, d.name)
  {
    ParameterSchema(
      d.name,
      d.annotation.GetOr(StrT),
      DocDescription(doc, d.name),
      d.default.None?,
      d.default.GetOr(NoneV))
  }

  function DeclNames(ds: seq<ParamDecl>): (names: seq<string>)
    ensures |names| == |ds|
    ensures forall i :: 0 <= i < |ds| ==> names[i] == ds[i].name
  {
    if ds == [] then [] else [ds[0].name] + DeclNames(ds[1..])
  }

  /** The parameter schemas of a signature: one per parameter except the receiver
      `self`, in declaration order. */
  function DeriveParameters(ds: seq<ParamDecl>, doc: Option<string>): (ps: seq<ParameterSchema>)
    ensures |ps| <= |ds|
    ensures forall i :: 0 <= i < |ps| ==> ps[i].name != "self"
  {
    if ds == [] then
      []
    else
      var rest := DeriveParameters(ds[1..], doc);
      if ds[0].name == "self" then rest else [SchemaOfDecl(ds[0], doc)] + rest
  }

  /** Exactly the receiver parameters are dropped: one schema per other parameter. */
  lemma {:induction false} DeriveParametersCount(ds: seq<ParamDecl>, doc: Option<string>)
    ensures |DeriveParameters(ds, doc)| == |ds| - multiset(DeclNames(ds))["self"]
  {
    if ds != [] {
      DeriveParametersCount(ds[1..], doc);
      assert DeclNames(ds) == [ds[0].name] + DeclNames(ds[1..]);
    }
  }

  /** Derivation distributes over concatenated signatures, so a receiver anywhere in
      the signature is simply dropped. */
  lemma {:induction false} DeriveParametersAppend(a: seq<ParamDecl>, b: seq<ParamDecl>, doc: Option<string>)
    ensures DeriveParameters(a + b, doc) == DeriveParameters(a, doc) + DeriveParameters(b, doc)
  {
    if a == [] {
      assert a + b == b;
    } else {
      var ab := a + b;
      assert ab[0] == a[0] && ab[1..] == a[1..] + b;
      DeriveParametersAppend(a[1..], b, doc);
      if a[0].name != "self" {
        var s := SchemaOfDecl(a[0], doc);
        calc {
          DeriveParameters(ab, doc);
          [s] + DeriveParameters(a[1..] + b, doc);
          [s] + (DeriveParameters(a[1..], doc) + DeriveParameters(b, doc));
          ([s] + DeriveParameters(a[1..], doc)) + DeriveParameters(b, doc);
        }
      }
    }
  }

  /** Without a receiver, the i-th schema is derived from the i-th parameter. */
  lemma {:induction false} DeriveParametersPointwise(ds: seq<ParamDecl>, doc: Option<string>)
    requires forall j :: 0 <= j < |ds| ==> ds[j].name != "self"
    ensures |DeriveParameters(ds, doc)| == |ds|
    ensures forall i :: 0 <= i < |ds| ==> DeriveParameters(ds, doc)[i] == SchemaOfDecl(ds[i], doc)
  {
    if ds != [] {
      DeriveParametersPointwise(ds[1..], doc);
      var rest := DeriveParameters(ds[1..], doc);
      forall i | 0 <= i < |ds| ensures DeriveParameters(ds, doc)[i] == SchemaOfDecl(ds[i], doc) {
        if i > 0 { assert rest[i - 1] == SchemaOfDecl(ds[1..][i - 1], doc); }
      }
    }
  }

  // ---------------------------------------------------------------------------
  // Building a tool
  // ---------------------------------------------------------------------------

  /** `name or func.__name__`: an explicit, non-empty name wins. */
  function ToolName(explicit: Option<string>, funcName: string): string {
    if explicit.Some? && explicit.value != [] then explicit.value else funcName
  }

  /** `description or func.__doc__ or ""`. */
  function ToolDescription(explicit: string, doc: Option<string>): string {
    if explicit != [] then explicit else doc.GetOr([])
  }

  /** The tool the decorator creates for a function: named by the explicit name
      when one is given and non-empty, else by the function; with one parameter per
      signature parameter other than `self`. */
  function BuildTool(opts: RegisterOptions, f: FuncDecl): (t: Tool)
    ensures opts.name.Some? && opts.name.value != [] ==> t.name == opts.name.value
    ensures t.name != f.name ==> opts.name == Some(t.name)
    ensures opts.description != [] ==> t.description == opts.description
    ensures opts.description == [] ==> t.description == f.doc.GetOr([])
    ensures |t.parameters| == |f.params| - multiset(DeclNames(f.params))["self"]
    ensures forall i :: 0 <= i < |t.parameters| ==> t.parameters[i].name != "self"
  {
    DeriveParametersCount(f.params, f.doc);
    Tool(
      ToolName(opts.name, f.name),
      f.body,
      ToolDescription(opts.description, f.doc),
      opts.category,
      DeriveParameters(f.params, f.doc),
      f.returnAnnotation.GetOr(StrT),
      opts.returnDescription)
  }

  // ---------------------------------------------------------------------------
  // The registry
  // ---------------------------------------------------------------------------

  /** `tools` is the name-to-tool dict as the sequence of its values in insertion
      order (each keyed by its own name); `buckets` maps categories to names. */
  datatype Registry = Registry(tools: seq<Tool>, buckets: map<ToolCategory, seq<string>>)

  /** The keys of the tool dict, in insertion order. */
  function ToolNames(tools: seq<Tool>): (names: seq<string>)
    ensures |names| == |tools|
    ensures forall i :: 0 <= i < |tools| ==> names[i] == tools[i].name
  {
    if tools == [] then [] else [tools[0].name] + ToolNames(tools[1..])
  }

  predicate DistinctToolNames(tools: seq<Tool>) {
    forall i, j :: 0 <= i < j < |tools| ==> tools[i].name != tools[j].name
  }

  /** `self._categories.get(category, [])`. */
  function Bucket(reg: Registry, c: ToolCategory): seq<string> {
    if c in reg.buckets then reg.buckets[c] else []
  }

  /** The two-index invariant: the dict has one entry per name; there is a bucket
      for every category; every bucketed name is a registered tool; every tool is
      listed in the bucket of its own category. */
  ghost predicate Valid(reg: Registry) {
    && DistinctToolNames(reg.tools)
    && (forall c: ToolCategory :: c in reg.buckets)
    && (forall c, n :: c in reg.buckets && n in reg.buckets[c] ==> n in ToolNames(reg.tools))
    && ToolsBucketed(reg)
  }

  /** Every tool is listed in the bucket of its own category. */
  ghost predicate ToolsBucketed(reg: Registry) {
    forall i :: 0 <= i < |reg.tools| ==> reg.tools[i].name in Bucket(reg, reg.tools[i].category)
  }

  /** `ToolRegistry()`: no tools and one empty bucket per category. */
  function NewRegistry(): (r: Registry)
    ensures Valid(r)
    ensures r.tools == []
    ensures forall c :: c in r.buckets && r.buckets[c] == []
  {
    var r := Registry([], map c | c in AllCategories :: []);
    assert forall c: ToolCategory :: c in r.buckets by {
      forall c: ToolCategory ensures c in r.buckets { AllCategoriesComplete(c); }
    }
    r
  }

  /** The entry for `name` in the tool dict (`dict.get`). */
  function FindTool(tools: seq<Tool>, name: string): (r: Option<Tool>)
    ensures r.Some? <==> name in ToolNames(tools)
    ensures r.Some? ==> r.value.name == name
    ensures r.Some? ==> exists i :: 0 <= i < |tools| && tools[i] == r.value
  {
    if tools == [] then None
    else if tools[0].name == name then Some(tools[0])
    else
      var r := FindTool(tools[1..], name);
      assert ToolNames(tools) == [tools[0].name] + ToolNames(tools[1..]);
      assert r.Some? ==> exists i :: 0 <= i < |tools| && tools[i] == r.value by {
        if r.Some? {
          var i :| 0 <= i < |tools[1..]| && tools[1..][i] == r.value;
          assert tools[i + 1] == r.value;
        }
      }
      r
  }

  /** With one entry per name, looking up the name of entry `i` finds entry `i`. */
  lemma {:induction false} FindToolAt(tools: seq<Tool>, i: nat)
    requires DistinctToolNames(tools) && i < |tools|
    ensures FindTool(tools, tools[i].name) == Some(tools[i])
  {
    if i > 0 {
      assert DistinctToolNames(tools[1..]);
      FindToolAt(tools[1..], i - 1);
    }
  }

  /** `ToolRegistry.get_tool(name)`: the registered tool of that name, if any. */
  function GetTool(reg: Registry, name: string): (r: Option<Tool>)
    ensures r.Some? <==> name in ToolNames(reg.tools)
    ensures r.Some? ==> r.value.name == name && r.value in reg.tools
  {
    FindTool(reg.tools, name)
  }

  /** `self._tools[t.name] = t`: an existing entry is replaced where it stands, a
      new one goes last; no other entry changes. */
  function PutTool(tools: seq<Tool>, t: Tool): (r: seq<Tool>)
    ensures ToolNames(r) == if t.name in ToolNames(tools) then ToolNames(tools) else ToolNames(tools) + [t.name]
  {
    if tools == [] then
      [t]
    else
      assert ToolNames(tools) == [tools[0].name] + ToolNames(tools[1..]);
      if tools[0].name == t.name then
        var r := [t] + tools[1..];
        assert ToolNames(r) == [t.name] + ToolNames(tools[1..]);
        r
      else
        var rest := PutTool(tools[1..], t);
        var r := [tools[0]] + rest;
        assert ToolNames(r) == [tools[0].name] + ToolNames(rest);
        assert (t.name in ToolNames(tools)) == (t.name in ToolNames(tools[1..]));
        r
  }

  /** After a put, looking up the put tool's name finds it, and every other name
      finds what it found before. */
  lemma {:induction false} PutToolLookup(tools: seq<Tool>, t: Tool, n: string)
    ensures FindTool(PutTool(tools, t), t.name) == Some(t)
    ensures n != t.name ==> FindTool(PutTool(tools, t), n) == FindTool(tools, n)
  {
    if tools != [] && tools[0].name != t.name {
      PutToolLookup(tools[1..], t, n);
      var r := PutTool(tools, t);
      assert r[1..] == PutTool(tools[1..], t);
    } else if tools != [] {
      var r := PutTool(tools, t);
      assert r[1..] == tools[1..];
    }
  }

  /** Distinct names stay distinct when a tool is put into the dict. */
  lemma PutToolKeepsDistinct(tools: seq<Tool>, t: Tool)
    requires DistinctToolNames(tools)
    ensures DistinctToolNames(PutTool(tools, t))
  {
    var r := PutTool(tools, t);
    var names := ToolNames(tools);
    forall i, j | 0 <= i < j < |r| ensures r[i].name != r[j].name {
      assert ToolNames(r)[i] == r[i].name && ToolNames(r)[j] == r[j].name;
      if t.name !in names && j == |tools| {
        assert ToolNames(r)[i] == names[i];
      }
    }
  }

  /** The two writes `register` makes: `self._tools[tool.name] = tool`, and the
      name appended to the bucket of the tool's category. */
  function AddTool(reg: Registry, t: Tool): (r: Registry)
    ensures GetTool(r, t.name) == Some(t)
    ensures forall n :: n != t.name ==> GetTool(r, n) == GetTool(reg, n)
    ensures Bucket(r, t.category) == Bucket(reg, t.category) + [t.name]
    ensures forall c :: c != t.category ==> Bucket(r, c) == Bucket(reg, c)
    ensures ToolNames(r.tools) ==
              if t.name in ToolNames(reg.tools) then ToolNames(reg.tools)
              else ToolNames(reg.tools) + [t.name]
  {
    var buckets := reg.buckets[t.category := Bucket(reg, t.category) + [t.name]];
    var r := Registry(PutTool(reg.tools, t), buckets);
    PutToolLookup(reg.tools, t, t.name);
    assert forall n :: n != t.name ==> GetTool(r, n) == GetTool(reg, n) by {
      forall n | n != t.name ensures GetTool(r, n) == GetTool(reg, n) {
        PutToolLookup(reg.tools, t, n);
      }
    }
    r
  }

  /** `register(...)` applied to a function: the registry with the new tool, and the
      tool, which the returned wrapper carries as its `.tool`. */
  function Register(reg: Registry, opts: RegisterOptions, f: FuncDecl): (r: (Registry, Tool))
    ensures r.1.name == ToolName(opts.name, f.name)
    ensures r.1.category == opts.category
    ensures r.0 == AddTool(reg, r.1)
  {
    var t := BuildTool(opts, f);
    (AddTool(reg, t), t)
  }

  /** Adding a tool keeps the two-index invariant. */
  lemma AddToolPreservesValid(reg: Registry, t: Tool)
    requires Valid(reg)
    ensures Valid(AddTool(reg, t))
  {
    var r := AddTool(reg, t);
    PutToolKeepsDistinct(reg.tools, t);
    var names := ToolNames(reg.tools);
    var names' := ToolNames(r.tools);
    assert forall n :: n in names ==> n in names';
    assert t.name in names';
    assert forall c: ToolCategory :: c in r.buckets by {
      forall c: ToolCategory ensures c in r.buckets {
        assert c in reg.buckets;
      }
    }
    forall c, n | c in r.buckets && n in r.buckets[c] ensures n in names' {
      assert Bucket(r, c) == r.buckets[c];
      if c == t.category {
        assert n in Bucket(reg, c) || n == t.name;
      } else {
        assert n in reg.buckets[c];
      }
    }
    forall i | 0 <= i < |r.tools| ensures r.tools[i].name in Bucket(r, r.tools[i].category) {
      AddedToolBucketed(reg, t, i);
    }
  }

  /** Entry `i` of the registry after adding a tool is listed in its category's
      bucket. */
  lemma AddedToolBucketed(reg: Registry, t: Tool, i: nat)
    requires ToolsBucketed(reg)
    requires DistinctToolNames(AddTool(reg, t).tools)
    requires i < |AddTool(reg, t).tools|
    ensures var r := AddTool(reg, t);
            r.tools[i].name in Bucket(r, r.tools[i].category)
  {
    var r := AddTool(reg, t);
    var u := r.tools[i];
    FindToolAt(r.tools, i);
    if u.name != t.name {
      assert GetTool(reg, u.name) == Some(u);
      var k :| 0 <= k < |reg.tools| && reg.tools[k] == u;
      assert u.name in Bucket(reg, u.category);
      BucketKept(reg, t, u.category, u.name);
    }
  }

  /** Adding a tool only appends to a bucket, so a bucketed name stays bucketed. */
  lemma BucketKept(reg: Registry, t: Tool, c: ToolCategory, n: string)
    requires n in Bucket(reg, c)
    ensures n in Bucket(AddTool(reg, t), c)
  {
    if c == t.category {
      var b := Bucket(reg, c);
      var k :| 0 <= k < |b| && b[k] == n;
      assert (b + [t.name])[k] == n;
    }
  }

  /** Registration keeps the two-index invariant. */
  lemma RegisterPreservesValid(reg: Registry, opts: RegisterOptions, f: FuncDecl)
    requires Valid(reg)
    ensures Valid(Register(reg, opts, f).0)
  {
    AddToolPreservesValid(reg, BuildTool(opts, f));
  }

  /** After registration the new tool is found under its name and every other name
      finds what it found before; the name is appended to its category's bucket,
      other buckets are unchanged, and the name takes a new place at the end of the
      tool order only if it was not registered yet. */
  lemma RegisterEffect(reg: Registry, opts: RegisterOptions, f: FuncDecl, n: string, c: ToolCategory)
    ensures var (r, t) := Register(reg, opts, f);
            && GetTool(r, t.name) == Some(t)
            && (n != t.name ==> GetTool(r, n) == GetTool(reg, n))
            && Bucket(r, opts.category) == Bucket(reg, opts.category) + [t.name]
            && (c != opts.category ==> Bucket(r, c) == Bucket(reg, c))
            && ToolNames(r.tools) ==
                 if t.name in ToolNames(reg.tools) then ToolNames(reg.tools)
                 else ToolNames(reg.tools) + [t.name]
  {
  }

  /** The registered tool takes its name, description, category, parameters and
      return type from the options and the declaration. */
  lemma RegisterDerivesTool(reg: Registry, opts: RegisterOptions, f: FuncDecl)
    ensures var t := Register(reg, opts, f).1;
            && t.name == (if opts.name.Some? && opts.name.value != [] then opts.name.value else f.name)
            && t.description == (if opts.description != [] then opts.description
                                 else if f.doc.Some? then f.doc.value else [])
            && t.category == opts.category
            && t.parameters == DeriveParameters(f.params, f.doc)
            && t.returnType == f.returnAnnotation.GetOr(StrT)
            && t.returnDescription == opts.returnDescription
            && t.impl == f.body
  {
  }

  // ---------------------------------------------------------------------------
  // Listing
  // ---------------------------------------------------------------------------

  /** `list_tools()`: the schema of every registered tool, in insertion order. */
  function ListTools(reg: Registry): (r: seq<Schema>)
    ensures |r| == |reg.tools|
    ensures forall i :: 0 <= i < |r| ==> r[i] == GetSchema(reg.tools[i]) && r[i].name == ToolNames(reg.tools)[i]
  {
    seq(|reg.tools|, i requires 0 <= i < |reg.tools| => GetSchema(reg.tools[i]))
  }

  /** The schemas of the bucketed `names` that are registered, in bucket order,
      skipping names without a tool. */
  function SchemasOf(tools: seq<Tool>, names: seq<string>): (r: seq<Schema>)
    ensures |r| <= |names|
    ensures (forall k :: 0 <= k < |names| ==> names[k] in ToolNames(tools)) ==>
              |r| == |names| &&
              forall k :: 0 <= k < |names| ==> r[k] == GetSchema(FindTool(tools, names[k]).value)
    ensures (forall k :: 0 <= k < |names| ==> names[k] !in ToolNames(tools)) ==> r == []
  {
    if names == [] then
      []
    else
      var rest := SchemasOf(tools, names[1..]);
      match FindTool(tools, names[0])
      case None => rest
      case Some(t) => [GetSchema(t)] + rest
  }

  /** `list_tools_by_category(category)`: every schema listed belongs to a
      registered tool whose name is in the category's bucket. */
  function ListToolsByCategory(reg: Registry, c: ToolCategory): (r: seq<Schema>)
    ensures |r| <= |Bucket(reg, c)|
    ensures forall k :: 0 <= k < |r| ==>
              && r[k].name in Bucket(reg, c)
              && GetTool(reg, r[k].name).Some?
              && r[k] == GetSchema(GetTool(reg, r[k].name).value)
  {
    SchemasOfListedAll(reg.tools, Bucket(reg, c));
    assert forall n :: GetTool(reg, n) == FindTool(reg.tools, n);
    SchemasOf(reg.tools, Bucket(reg, c))
  }

  /** Schema `k` of a listing is the schema of a registered tool named in the list. */
  lemma {:induction false} SchemasOfListed(tools: seq<Tool>, names: seq<string>, k: nat)
    requires k < |SchemasOf(tools, names)|
    ensures var s := SchemasOf(tools, names)[k];
            && s.name in names
            && FindTool(tools, s.name).Some?
            && s == GetSchema(FindTool(tools, s.name).value)
  {
    assert names != [];
    var s := SchemasOf(tools, names)[k];
    match FindTool(tools, names[0])
    case None =>
      SchemasOfListed(tools, names[1..], k);
      assert s.name in names[1..];
    case Some(t) =>
      if k > 0 {
        SchemasOfListed(tools, names[1..], k - 1);
        assert s.name in names[1..];
      }
  }

  /** Every schema of a listing is that of a registered tool named in the list. */
  lemma SchemasOfListedAll(tools: seq<Tool>, names: seq<string>)
    ensures forall k :: 0 <= k < |SchemasOf(tools, names)| ==>
              && SchemasOf(tools, names)[k].name in names
              && FindTool(tools, SchemasOf(tools, names)[k].name).Some?
              && SchemasOf(tools, names)[k] == GetSchema(FindTool(tools, SchemasOf(tools, names)[k].name).value)
  {
    forall k | 0 <= k < |SchemasOf(tools, names)| {
      SchemasOfListed(tools, names, k);
    }
  }

  /** Listing a bucket goes entry by entry, so it distributes over concatenation. */
  lemma {:induction false} SchemasOfAppend(tools: seq<Tool>, a: seq<string>, b: seq<string>)
    ensures SchemasOf(tools, a + b) == SchemasOf(tools, a) + SchemasOf(tools, b)
  {
    if a == [] {
      assert a + b == b;
    } else {
      assert (a + b)[1..] == a[1..] + b;
      SchemasOfAppend(tools, a[1..], b);
    }
  }

  /** One bucket entry lists the schema of its tool, or nothing when the name has
      no tool. */
  lemma SchemasOfSingle(tools: seq<Tool>, n: string)
    ensures n in ToolNames(tools) ==> SchemasOf(tools, [n]) == [GetSchema(FindTool(tools, n).value)]
    ensures n !in ToolNames(tools) ==> SchemasOf(tools, [n]) == []
  {
    assert [n][1..] == [];
  }

  /** A bucketed name without a tool is skipped wherever it stands. */
  lemma SchemasOfSkip(tools: seq<Tool>, a: seq<string>, n: string, b: seq<string>)
    requires n !in ToolNames(tools)
    ensures SchemasOf(tools, a + [n] + b) == SchemasOf(tools, a + b)
  {
    SchemasOfAppend(tools, a + [n], b);
    SchemasOfAppend(tools, a, [n]);
    SchemasOfSingle(tools, n);
    SchemasOfAppend(tools, a, b);
  }

  /** In a valid registry every bucketed name is registered, so a category lists one
      schema per bucket entry, duplicates included, named as the entry. */
  lemma ListByCategoryValid(reg: Registry, c: ToolCategory)
    requires Valid(reg)
    ensures |ListToolsByCategory(reg, c)| == |Bucket(reg, c)|
    ensures forall k :: 0 <= k < |Bucket(reg, c)| ==>
              && GetTool(reg, Bucket(reg, c)[k]).Some?
              && ListToolsByCategory(reg, c)[k] == GetSchema(GetTool(reg, Bucket(reg, c)[k]).value)
              && ListToolsByCategory(reg, c)[k].name == Bucket(reg, c)[k]
  {
    assert c in reg.buckets;
  }

  /** The schema of a registered tool lists one parameter per signature parameter
      other than the receiver `self`. */
  lemma RegisteredSchemaParameterCount(reg: Registry, opts: RegisterOptions, f: FuncDecl)
    ensures |GetSchema(Register(reg, opts, f).1).parameters| == |f.params| - multiset(DeclNames(f.params))["self"]
  {
    DeriveParametersCount(f.params, f.doc);
  }

  /** Putting a tool under a new name appends it. */
  lemma {:induction false} PutToolFresh(tools: seq<Tool>, t: Tool)
    requires t.name !in ToolNames(tools)
    ensures PutTool(tools, t) == tools + [t]
  {
    if tools != [] {
      var rest := tools[1..];
      assert ToolNames(tools)[0] == tools[0].name;
      assert t.name !in ToolNames(rest) by {
        forall k | 0 <= k < |rest|
          ensures ToolNames(rest)[k] != t.name
        {
          assert ToolNames(tools)[k + 1] == rest[k].name;
        }
      }
      PutToolFresh(rest, t);
      assert tools[0].name != t.name;
      assert PutTool(tools, t) == [tools[0]] + PutTool(rest, t);
      assert [tools[0]] + (rest + [t]) == tools + [t];
    }
  }

  /** Adding a new name adds its schema at the end of `list_tools()`; adding an
      existing name keeps the number of listed tools. */
  lemma ListToolsAfterAdd(reg: Registry, t: Tool)
    ensures t.name !in ToolNames(reg.tools) ==> ListTools(AddTool(reg, t)) == ListTools(reg) + [GetSchema(t)]
    ensures t.name in ToolNames(reg.tools) ==> |ListTools(AddTool(reg, t))| == |ListTools(reg)|
  {
    var r := AddTool(reg, t);
    if t.name !in ToolNames(reg.tools) {
      PutToolFresh(reg.tools, t);
      ListToolsAppend(reg.tools, t, reg.buckets, r.buckets);
    } else {
      assert |ToolNames(r.tools)| == |ToolNames(reg.tools)|;
    }
  }

  lemma ListToolsAppend(tools: seq<Tool>, t: Tool, b: map<ToolCategory, seq<string>>, b': map<ToolCategory, seq<string>>)
    ensures ListTools(Registry(tools + [t], b')) == ListTools(Registry(tools, b)) + [GetSchema(t)]
  {
    var before := ListTools(Registry(tools, b));
    var after := ListTools(Registry(tools + [t], b'));
    var expected := before + [GetSchema(t)];
    forall i | 0 <= i < |after|
      ensures after[i] == expected[i]
    {
      if i < |tools| {
        assert (tools + [t])[i] == tools[i];
      }
    }
  }

  /** `list_tools()` after registering: one more schema at the end for a new name,
      the same number of schemas for a name already registered. */
  lemma ListToolsAfterRegister(reg: Registry, opts: RegisterOptions, f: FuncDecl)
    ensures var (r, t) := Register(reg, opts, f);
            && (t.name !in ToolNames(reg.tools) ==> ListTools(r) == ListTools(reg) + [GetSchema(t)])
            && (t.name in ToolNames(reg.tools) ==> |ListTools(r)| == |ListTools(reg)|)
  {
    ListToolsAfterAdd(reg, BuildTool(opts, f));
  }

  /** Adding two tools of the same name and category keeps one entry, the second,
      but leaves the name twice in the bucket. */
  lemma ReAddDuplicatesBucket(reg: Registry, t1: Tool, t2: Tool)
    requires t1.name == t2.name && t1.category == t2.category
    ensures var r1 := AddTool(reg, t1);
            var r2 := AddTool(r1, t2);
            && |r2.tools| == |r1.tools|
            && GetTool(r2, t2.name) == Some(t2)
            && Bucket(r2, t2.category) == Bucket(reg, t2.category) + [t2.name, t2.name]
  {
    ReAddAppendsNameTwice(reg, t1, t2);
    ReAddKeepsToolCount(reg, t1, t2);
  }

  /** Adding two tools of one name and category appends the name to that bucket
      twice. */
  lemma ReAddAppendsNameTwice(reg: Registry, t1: Tool, t2: Tool)
    requires t1.name == t2.name && t1.category == t2.category
    ensures Bucket(AddTool(AddTool(reg, t1), t2), t2.category) == Bucket(reg, t2.category) + [t2.name, t2.name]
  {
    var r1 := AddTool(reg, t1);
    var b0 := Bucket(reg, t1.category);
    assert Bucket(r1, t1.category) == b0 + [t1.name];
    AppendTwice(b0, t1.name);
  }

  lemma AppendTwice(s: seq<string>, x: string)
    ensures s + [x] + [x] == s + [x, x]
  {
  }

  /** The second of two tools with one name replaces the first: the number of
      tools does not grow. */
  lemma ReAddKeepsToolCount(reg: Registry, t1: Tool, t2: Tool)
    requires t1.name == t2.name
    ensures |AddTool(AddTool(reg, t1), t2).tools| == |AddTool(reg, t1).tools|
  {
    var r1 := AddTool(reg, t1);
    var r2 := AddTool(r1, t2);
    var names := ToolNames(r1.tools);
    assert t1.name in names by {
      if t1.name !in ToolNames(reg.tools) {
        assert names == ToolNames(reg.tools) + [t1.name];
        assert names[|names| - 1] == t1.name;
      }
    }
    assert ToolNames(r2.tools) == names;
  }

  /** Registering the same name twice in one category replaces the tool in the dict
      but leaves the name twice in the bucket. */
  lemma ReRegisterDuplicatesBucket(reg: Registry, opts: RegisterOptions, f: FuncDecl, g: FuncDecl)
    requires ToolName(opts.name, f.name) == ToolName(opts.name, g.name)
    ensures var r1 := Register(reg, opts, f).0;
            var (r2, t2) := Register(r1, opts, g);
            && |r2.tools| == |r1.tools|
            && GetTool(r2, t2.name) == Some(t2)
            && Bucket(r2, opts.category) == Bucket(reg, opts.category) + [t2.name, t2.name]
  {
    ReAddDuplicatesBucket(reg, BuildTool(opts, f), BuildTool(opts, g));
  }

  /** So in a valid registry that category then lists the second tool's schema
      twice, at the end. */
  lemma ReAddListsTwice(reg: Registry, t1: Tool, t2: Tool)
    requires Valid(reg)
    requires t1.name == t2.name && t1.category == t2.category
    ensures var r2 := AddTool(AddTool(reg, t1), t2);
            var listed := ListToolsByCategory(r2, t2.category);
            var n := |Bucket(reg, t2.category)|;
            |listed| == n + 2 && listed[n] == GetSchema(t2) && listed[n + 1] == GetSchema(t2)
  {
    var r1 := AddTool(reg, t1);
    AddToolPreservesValid(reg, t1);
    var r2 := AddTool(r1, t2);
    AddToolPreservesValid(r1, t2);
    ReAddDuplicatesBucket(reg, t1, t2);
    var n := |Bucket(reg, t2.category)|;
    ListByCategoryValid(r2, t2.category);
    assert Bucket(r2, t2.category)[n] == t2.name;
    assert Bucket(r2, t2.category)[n + 1] == t2.name;
  }

  lemma ReRegisterListsTwice(reg: Registry, opts: RegisterOptions, f: FuncDecl, g: FuncDecl)
    requires Valid(reg)
    requires ToolName(opts.name, f.name) == ToolName(opts.name, g.name)
    ensures var r1 := Register(reg, opts, f).0;
            var (r2, t2) := Register(r1, opts, g);
            var listed := ListToolsByCategory(r2, opts.category);
            var n := |Bucket(reg, opts.category)|;
            |listed| == n + 2 && listed[n] == GetSchema(t2) && listed[n + 1] == GetSchema(t2)
  {
    ReAddListsTwice(reg, BuildTool(opts, f), BuildTool(opts, g));
  }

  // ---------------------------------------------------------------------------
  // Clearing
  // ---------------------------------------------------------------------------

  /** `clear()`: the dict emptied and every existing bucket emptied. */
  function Clear(reg: Registry): (r: Registry)
    ensures r.tools == [] && ListTools(r) == []
    ensures r.buckets.Keys == reg.buckets.Keys
    ensures forall c :: Bucket(r, c) == [] && ListToolsByCategory(r, c) == []
  {
    Registry([], map c | c in reg.buckets :: [])
  }

  lemma ClearPreservesValid(reg: Registry)
    requires Valid(reg)
    ensures Valid(Clear(reg))
  {
  }

  // ---------------------------------------------------------------------------
  // Execution
  // ---------------------------------------------------------------------------

  /** The exceptions `execute` lets escape, with their messages. */
  datatype ExecError =
    | ValueError(message: string)
    | RuntimeError(message: string)
    | TypeError(message: string)

  function NotFoundMessage(name: string): string {
    "工具 '" + name + "' 不存在"
  }

  function InvalidArgumentsMessage(name: string): string {
    "工具 '" + name + "' 参数验证失败"
  }

  function FailedMessage(name: string, error: string): string {
    "执行工具 '" + name + "' 时出错: " + error
  }

  /** What Python says when a keyword argument repeats one of `execute`'s own
      parameters. */
  function ArgumentClashMessage(k: string): string {
    "ToolRegistry.execute() got multiple values for argument '" + k + "'"
  }

  /** The keyword that clashes with `execute`'s own parameters `self` and
      `tool_name`, if any; `self` is reported when both are given. */
  function ClashingKey(args: Args): (k: Option<string>)
    ensures k.None? <==> "self" !in args && "tool_name" !in args
    ensures k.Some? ==> k.value in args && k.value in {"self", "tool_name"}
  {
    if "self" in args then Some("self")
    else if "tool_name" in args then Some("tool_name")
    else None
  }

  /** What `isinstance` says when handed a subscripted generic. */
  const GenericCheckMessage := "Subscripted generics cannot be used with class and instance checks"

  /** `execute(name, **kwargs)`.  A keyword named like one of `execute`'s own
      parameters fails the call before its body runs.  Validation works on its own
      copy of the arguments, so the tool function receives the arguments exactly as
      the caller gave them. */
  function Execute(reg: Registry, name: string, args: Args, conv: Conversions): (r: Result<Value, ExecError>)
    ensures ClashingKey(args).Some? ==> r == Err(TypeError(ArgumentClashMessage(ClashingKey(args).value)))
    ensures ClashingKey(args).None? && GetTool(reg, name).None? ==> r == Err(ValueError(NotFoundMessage(name)))
    ensures ClashingKey(args).None? && GetTool(reg, name).Some? ==>
              var t := GetTool(reg, name).value;
              match ValidateArguments(t, args, conv)
              case Rejected => r == Err(ValueError(InvalidArgumentsMessage(name)))
              case TypeCheckRaised => r == Err(TypeError(GenericCheckMessage))
              case Accepted =>
                && (r.Ok? <==> t.impl(args).Ok?)
                && (r.Ok? ==> r.value == t.impl(args).value)
                && (r.Err? ==> r.error == RuntimeError(FailedMessage(name, t.impl(args).error)))
  {
    if ClashingKey(args).Some? then Err(TypeError(ArgumentClashMessage(ClashingKey(args).value)))
    else
    match GetTool(reg, name)
    case None => Err(ValueError(NotFoundMessage(name)))
    case Some(t) =>
      match ValidateArguments(t, args, conv)
      case Rejected => Err(ValueError(InvalidArgumentsMessage(name)))
      case TypeCheckRaised => Err(TypeError(GenericCheckMessage))
      case Accepted =>
        match t.Call(args)
        case Ok(v) => Ok(v)
        case Err(e) => Err(RuntimeError(FailedMessage(name, e)))
  }

  /** For a registered tool whose parameters have distinct names, and arguments
      that do not clash with `execute`'s own, the call reaches the tool function
      exactly when every declared parameter passes its check. */
  lemma ExecuteRunsTool(reg: Registry, name: string, args: Args, conv: Conversions)
    requires GetTool(reg, name).Some?
    requires ClashingKey(args).None?
    requires DistinctNames(GetTool(reg, name).value.parameters)
    ensures var t := GetTool(reg, name).value;
            var r := Execute(reg, name, args, conv);
            (r.Ok? || r.error.RuntimeError?) <==>
              forall i :: 0 <= i < |t.parameters| ==> ParamOk(t.parameters[i], args, conv)
  {
    var t := GetTool(reg, name).value;
    ValidateCharacterization(t.parameters, args, conv);
  }

  /** The error for an unknown tool says the tool does not exist (`不存在`). */
  lemma NotFoundMentionsMissing(name: string)
    ensures Contains(NotFoundMessage(name), "不存在")
  {
    var m := NotFoundMessage(name);
    assert m[|m| - 3..] == "不存在";
    assert OccursAt(m, "不存在", |m| - 3);
    ContainsSpec(m, "不存在");
  }
}
