/** The tool descriptor of the registry: the closed set of tool categories, one
    parameter's schema, a tool (its function, metadata and parameter list), the
    JSON-like schema a tool emits, and the validation (with attempted coercion)
    of keyword arguments against the declared parameters.
 */
module ToolModel {
  import opened Common
  import opened Strings
  import opened Values

  // ---------------------------------------------------------------------------
  // ToolCategory
  // ---------------------------------------------------------------------------

  datatype ToolCategory =
    | Travel
    | Calculation
    | Information
    | Utility
    | Weather
    | Transportation
    | Accommodation

  /** Every category, in declaration order (the enum's iteration order). */
  const AllCategories: seq<ToolCategory> :=
    [Travel, Calculation, Information, Utility, Weather, Transportation, Accommodation]

  /** The enum member's `.value`. */
  function CategoryValue(c: ToolCategory): string {
    match c
    case Travel => "travel"
    case Calculation => "calculation"
    case Information => "information"
    case Utility => "utility"
    case Weather => "weather"
    case Transportation => "transportation"
    case Accommodation => "accommodation"
  }

  /** The member with a given value (Python's `ToolCategory(value)`), if any. */
  function CategoryFromValue(s: string): Option<ToolCategory> {
    if s == "travel" then Some(Travel)
    else if s == "calculation" then Some(Calculation)
    else if s == "information" then Some(Information)
    else if s == "utility" then Some(Utility)
    else if s == "weather" then Some(Weather)
    else if s == "transportation" then Some(Transportation)
    else if s == "accommodation" then Some(Accommodation)
    else None
  }

  /** A category's value names exactly that category, and only values of categories
      name one: the string in a schema identifies the category. */
  lemma CategoryValueRoundTrip(c: ToolCategory, s: string)
    ensures CategoryFromValue(CategoryValue(c)) == Some(c)
    ensures CategoryFromValue(s) == Some(c) ==> CategoryValue(c) == s
  {
  }

  /** The enumeration lists each category exactly once. */
  lemma AllCategoriesComplete(c: ToolCategory)
    ensures c in AllCategories
    ensures forall i, j :: 0 <= i < j < |AllCategories| ==> AllCategories[i] != AllCategories[j]
  {
  }

  // ---------------------------------------------------------------------------
  // ParameterSchema and Tool
  // ---------------------------------------------------------------------------

  /** One declared parameter: `default` is `NoneV` when the parameter has none. */
  datatype ParameterSchema = ParameterSchema(
    name: string,
    paramType: TypeTag,
    description: string,
    required: bool,
    default: Value)

  /** What the underlying function does when called with keyword arguments: returns
      a value, or raises an exception whose `str()` is the error string.  Binding
      errors of the call itself (an unexpected keyword) are among its failures. */
  type ToolFunction = Args -> Result<Value, string>

  datatype Tool = Tool(
    name: string,
    impl: ToolFunction,
    description: string,
    category: ToolCategory,
    parameters: seq<ParameterSchema>,
    returnType: TypeTag,
    returnDescription: string)
  {
    /** `tool(**kwargs)`: calls the underlying function with the arguments as given. */
    function Call(args: Args): Result<Value, string> {
      impl(args)
    }
  }

  /** The parameter names, in declaration order. */
  function ParameterNames(ps: seq<ParameterSchema>): (names: seq<string>)
    ensures |names| == |ps|
    ensures forall i :: 0 <= i < |ps| ==> names[i] == ps[i].name
  {
    seq(|ps|, i requires 0 <= i < |ps| => ps[i].name)
  }

  /** No two parameters share a name (Python refuses duplicate parameter names). */
  predicate DistinctNames(ps: seq<ParameterSchema>) {
    forall i, j :: 0 <= i < j < |ps| ==> ps[i].name != ps[j].name
  }

  // ---------------------------------------------------------------------------
  // get_schema
  // ---------------------------------------------------------------------------

  datatype ParameterInfo = ParameterInfo(
    name: string,
    typeName: string,
    description: string,
    required: bool,
    default: Value)

  datatype ReturnInfo = ReturnInfo(typeName: string, description: string)

  /** The JSON-like description of a tool. */
  datatype Schema = Schema(
    name: string,
    description: string,
    category: string,
    parameters: seq<ParameterInfo>,
    returnInfo: ReturnInfo)

  /** `Tool.get_schema()`: one parameter entry per declared parameter, in order,
      with the type's `__name__`; the category as its string value. */
  function GetSchema(t: Tool): (s: Schema)
    ensures s.name == t.name && s.description == t.description
    ensures CategoryFromValue(s.category) == Some(t.category)
    ensures |s.parameters| == |t.parameters|
    ensures forall i :: 0 <= i < |t.parameters| ==>
              && s.parameters[i].name == t.parameters[i].name
              && s.parameters[i].typeName == TypeName(t.parameters[i].paramType)
              && s.parameters[i].description == t.parameters[i].description
              && s.parameters[i].required == t.parameters[i].required
              && s.parameters[i].default == t.parameters[i].default
    ensures s.returnInfo == ReturnInfo(TypeName(t.returnType), t.returnDescription)
  {
    Schema(
      t.name,
      t.description,
      CategoryValue(t.category),
      seq(|t.parameters|, i requires 0 <= i < |t.parameters| =>
        var p := t.parameters[i];
        ParameterInfo(p.name, TypeName(p.paramType), p.description, p.required, p.default)),
      ReturnInfo(TypeName(t.returnType), t.returnDescription))
  }

  /** A schema entry of a primitive-typed parameter determines its declared type. */
  lemma SchemaRecoversPrimitiveTypes(t: Tool, i: nat)
    requires i < |t.parameters| && IsPrimitive(t.parameters[i].paramType)
    ensures PrimitiveNamed(GetSchema(t).parameters[i].typeName) == Some(t.parameters[i].paramType)
  {
    PrimitiveNameRoundTrip(t.parameters[i].paramType);
  }

  // ---------------------------------------------------------------------------
  // validate_arguments
  // ---------------------------------------------------------------------------

  /** How `validate_arguments` ends: `True`, `False`, or the `TypeError` that
      `isinstance` raises on a subscripted generic (it is outside the `try`). */
  datatype Verdict = Accepted | Rejected | TypeCheckRaised

  /** The loop of `validate_arguments` over the parameters still to check, on its
      own copy of the keyword arguments, which successful coercions overwrite.
      Returns the verdict and that copy as it stands when the loop stops. */
  function ValidateFrom(ps: seq<ParameterSchema>, args: Args, conv: Conversions): (r: (Verdict, Args))
    ensures r.1.Keys == args.Keys
  {
    if ps == [] then
      (Accepted, args)
    else
      var p := ps[0];
      if p.required && p.name !in args then
        (Rejected, args)
      else if p.name !in args then
        ValidateFrom(ps[1..], args, conv)
      else
        var v := args[p.name];
        match IsInstance(v, p.paramType)
        case None => (TypeCheckRaised, args)
        case Some(true) => ValidateFrom(ps[1..], args, conv)
        case Some(false) =>
          match Coerce(v, p.paramType, conv)
          case Err(_) => (Rejected, args)
          case Ok(w) => ValidateFrom(ps[1..], args[p.name := w], conv)
  }

  /** `Tool.validate_arguments(**kwargs)`. */
  function ValidateArguments(t: Tool, args: Args, conv: Conversions): (v: Verdict)
    ensures DistinctNames(t.parameters) ==>
              (v == Accepted <==> forall i :: 0 <= i < |t.parameters| ==> ParamOk(t.parameters[i], args, conv))
  {
    if DistinctNames(t.parameters) then
      ValidateCharacterization(t.parameters, args, conv);
      ValidateFrom(t.parameters, args, conv).0
    else
      ValidateFrom(t.parameters, args, conv).0
  }

  /** The value supplied for a parameter is acceptable: already an instance of the
      declared type, or not one but convertible to it (which always holds for a
      type outside str/int/float/bool, as no conversion is tried). */
  predicate ValueFits(v: Value, t: TypeTag, conv: Conversions) {
    IsInstance(v, t) == Some(true) || (IsInstance(v, t) == Some(false) && Coerce(v, t, conv).Ok?)
  }

  /** The parameter is satisfied by the arguments: present if required, and fitting
      if present. */
  predicate ParamOk(p: ParameterSchema, args: Args, conv: Conversions) {
    && (p.required ==> p.name in args)
    && (p.name in args ==> ValueFits(args[p.name], p.paramType, conv))
  }

  /** The verdict a parameter that is not satisfied produces. */
  function FailureOf(p: ParameterSchema, args: Args): Verdict {
    if p.name in args && IsInstance(args[p.name], p.paramType).None? then TypeCheckRaised else Rejected
  }

  /** Overwriting the argument of one parameter does not change whether another
      parameter is satisfied. */
  lemma ParamOkOtherKey(q: ParameterSchema, args: Args, k: string, w: Value, conv: Conversions)
    requires q.name != k
    ensures ParamOk(q, args[k := w], conv) == ParamOk(q, args, conv)
  {
    assert (q.name in args[k := w]) == (q.name in args);
  }

  /** Validation accepts exactly when every parameter is satisfied by the arguments
      as the caller gave them; otherwise the first unsatisfied parameter decides
      between rejection and the raised `TypeError`. */
  lemma {:induction false} ValidateCharacterization(ps: seq<ParameterSchema>, args: Args, conv: Conversions)
    requires DistinctNames(ps)
    ensures ValidateFrom(ps, args, conv).0 == Accepted <==> forall i :: 0 <= i < |ps| ==> ParamOk(ps[i], args, conv)
    ensures forall k :: 0 <= k < |ps| && !ParamOk(ps[k], args, conv) && (forall i :: 0 <= i < k ==> ParamOk(ps[i], args, conv))
              ==> ValidateFrom(ps, args, conv).0 == FailureOf(ps[k], args)
  {
    if ps != [] {
      var p := ps[0];
      var rest := ps[1..];
      assert DistinctNames(rest);
      if p.required && p.name !in args {
        assert !ParamOk(ps[0], args, conv);
      } else if p.name !in args {
        ValidateCharacterization(rest, args, conv);
        assert ParamOk(p, args, conv);
        ShiftOk(ps, args, conv);
      } else {
        var v := args[p.name];
        match IsInstance(v, p.paramType)
        case None =>
          assert !ParamOk(ps[0], args, conv);
        case Some(true) =>
          ValidateCharacterization(rest, args, conv);
          assert ParamOk(p, args, conv);
          ShiftOk(ps, args, conv);
        case Some(false) =>
          match Coerce(v, p.paramType, conv)
          case Err(_) =>
            assert !ParamOk(ps[0], args, conv);
          case Ok(w) =>
            var args' := args[p.name := w];
            ValidateCharacterization(rest, args', conv);
            assert ParamOk(p, args, conv);
            forall i | 0 <= i < |rest|
              ensures ParamOk(rest[i], args', conv) == ParamOk(rest[i], args, conv)
              ensures FailureOf(rest[i], args') == FailureOf(rest[i], args)
            {
              assert rest[i] == ps[i + 1];
              ParamOkOtherKey(rest[i], args, p.name, w, conv);
            }
            ShiftOk(ps, args, conv);
      }
    }
  }

  /** Moving the quantifiers of `ValidateCharacterization` from `ps[1..]` to `ps`
      once the first parameter is known to be satisfied. */
  lemma ShiftOk(ps: seq<ParameterSchema>, args: Args, conv: Conversions)
    requires ps != [] && ParamOk(ps[0], args, conv)
    ensures (forall i :: 0 <= i < |ps| ==> ParamOk(ps[i], args, conv))
        <==> (forall i :: 0 <= i < |ps[1..]| ==> ParamOk(ps[1..][i], args, conv))
  {
    if forall i :: 0 <= i < |ps[1..]| ==> ParamOk(ps[1..][i], args, conv) {
      forall i | 0 <= i < |ps| ensures ParamOk(ps[i], args, conv) {
        if i > 0 { assert ps[i] == ps[1..][i - 1]; }
      }
    }
  }
  /** The keyword arguments restricted to the names in `declared`. */
  function Restrict(args: Args, declared: set<string>): (r: Args)
    ensures r.Keys == args.Keys * declared
    ensures forall k :: k in r ==> r[k] == args[k]
  {
    map k | k in args && k in declared :: args[k]
  }

  /** Keys that name no declared parameter are ignored: validation reaches the same
      verdict on the arguments with every undeclared key removed. */
  lemma {:induction false} ValidateIgnoresUndeclared(ps: seq<ParameterSchema>, args: Args, declared: set<string>, conv: Conversions)
    requires forall i :: 0 <= i < |ps| ==> ps[i].name in declared
    ensures ValidateFrom(ps, args, conv).0 == ValidateFrom(ps, Restrict(args, declared), conv).0
  {
    if ps != [] {
      var p := ps[0];
      var small := Restrict(args, declared);
      assert (p.name in args) == (p.name in small);
      assert forall i :: 0 <= i < |ps[1..]| ==> ps[1..][i].name in declared by {
        forall i | 0 <= i < |ps[1..]| ensures ps[1..][i].name in declared {
          assert ps[1..][i] == ps[i + 1];
        }
      }
      if p.required && p.name !in args {
      } else if p.name !in args {
        ValidateIgnoresUndeclared(ps[1..], args, declared, conv);
      } else {
        var v := args[p.name];
        assert small[p.name] == v;
        match IsInstance(v, p.paramType)
        case None =>
        case Some(true) =>
          ValidateIgnoresUndeclared(ps[1..], args, declared, conv);
        case Some(false) =>
          match Coerce(v, p.paramType, conv)
          case Err(_) =>
          case Ok(w) =>
            ValidateIgnoresUndeclared(ps[1..], args[p.name := w], declared, conv);
            assert Restrict(args[p.name := w], declared) == small[p.name := w];
      }
    }
  }

  /** The copy validation works on carries the coerced value: a string numeral
      supplied for an `int` parameter becomes the integer there. */
  lemma CoercedCopyHoldsInteger(p: ParameterSchema, n: int, conv: Conversions)
    requires p.paramType == IntT
    ensures var args := map[p.name := StrV(IntToDecimal(n))];
            ValidateFrom([p], args, conv) == (Accepted, map[p.name := IntV(n)])
  {
    var args := map[p.name := StrV(IntToDecimal(n))];
    var v := args[p.name];
    CoerceIntFromDecimal(n, conv);
    assert IsInstance(v, p.paramType) == Some(false);
    assert Coerce(v, p.paramType, conv) == Ok(IntV(n));
    var coerced := args[p.name := IntV(n)];
    assert coerced == map[p.name := IntV(n)];
    assert [p][1..] == [];
    assert ValidateFrom([p], args, conv) == ValidateFrom([], coerced, conv);
  }

  /** Validation writes only the arguments of declared parameters: every other key
      of its copy keeps the caller's value, whatever the verdict. */
  lemma {:induction false} ValidateFromFrame(ps: seq<ParameterSchema>, args: Args, k: string, conv: Conversions)
    requires k in args && k !in ParameterNames(ps)
    ensures k in ValidateFrom(ps, args, conv).1 && ValidateFrom(ps, args, conv).1[k] == args[k]
  {
    if ps != [] {
      var p := ps[0];
      assert ParameterNames(ps) == [p.name] + ParameterNames(ps[1..]);
      if p.name in args {
        var v := args[p.name];
        if IsInstance(v, p.paramType) == Some(false) && Coerce(v, p.paramType, conv).Ok? {
          var w := Coerce(v, p.paramType, conv).value;
          ValidateFromFrame(ps[1..], args[p.name := w], k, conv);
        } else if IsInstance(v, p.paramType) == Some(true) {
          ValidateFromFrame(ps[1..], args, k, conv);
        }
      } else if !p.required {
        ValidateFromFrame(ps[1..], args, k, conv);
      }
    }
  }

  /** When validation accepts, its copy holds, for every declared parameter the
      caller supplied, the converted value if `isinstance` said no and the
      caller's value if it said yes. */
  lemma {:induction false} ValidateFromCopy(ps: seq<ParameterSchema>, args: Args, conv: Conversions)
    requires DistinctNames(ps)
    requires ValidateFrom(ps, args, conv).0 == Accepted
    ensures forall i :: 0 <= i < |ps| && ps[i].name in args ==> IsInstance(args[ps[i].name], ps[i].paramType).Some?
    ensures forall i :: 0 <= i < |ps| && ps[i].name in args && IsInstance(args[ps[i].name], ps[i].paramType) == Some(false) ==>
              && Coerce(args[ps[i].name], ps[i].paramType, conv).Ok?
              && ValidateFrom(ps, args, conv).1[ps[i].name] == Coerce(args[ps[i].name], ps[i].paramType, conv).value
    ensures forall i :: 0 <= i < |ps| && ps[i].name in args && IsInstance(args[ps[i].name], ps[i].paramType) == Some(true) ==>
              ValidateFrom(ps, args, conv).1[ps[i].name] == args[ps[i].name]
  {
    if ps != [] {
      var p := ps[0];
      var rest := ps[1..];
      assert DistinctNames(rest);
      assert p.name !in ParameterNames(rest);
      if p.name in args {
        var v := args[p.name];
        if IsInstance(v, p.paramType) == Some(false) {
          var w := Coerce(v, p.paramType, conv).value;
          var args' := args[p.name := w];
          ValidateFromCopy(rest, args', conv);
          ValidateFromFrame(rest, args', p.name, conv);
          forall i | 1 <= i < |ps| && ps[i].name in args
            ensures ps[i].name != p.name && args'[ps[i].name] == args[ps[i].name]
          {
            assert rest[i - 1] == ps[i];
          }
        } else {
          ValidateFromCopy(rest, args, conv);
          ValidateFromFrame(rest, args, p.name, conv);
          forall i | 1 <= i < |ps| ensures rest[i - 1] == ps[i] { }
        }
      } else {
        ValidateFromCopy(rest, args, conv);
        forall i | 1 <= i < |ps| ensures rest[i - 1] == ps[i] { }
      }
    }
  }
}
