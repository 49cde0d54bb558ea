/** Python runtime values as they cross the tool boundary (keyword arguments in,
    structured results out), the type annotations a tool may declare, Python's
    `isinstance` over them, truthiness, and the four built-in conversions
    `str(x)`, `int(x)`, `float(x)` and `bool(x)` that argument validation tries.
 */
module Values {
  import opened Common
  import opened Strings

  /** A value a caller may pass or a tool may return.  Floats are exact reals:
      rounding, infinities and NaN are outside the model. */
  datatype Value =
    | NoneV
    | BoolV(b: bool)
    | IntV(i: int)
    | FloatV(r: real)
    | StrV(s: string)
    | ListV(items: seq<Value>)
    | DictV(entries: seq<(string, Value)>)

  /** Keyword arguments: parameter name to value (Python's `**kwargs`). */
  type Args = map<string, Value>

  /** A declared type annotation.  `DictT` and `ListT` are the plain classes
      `dict` and `list`; `OptionalT(t)` is `typing.Optional[t]`; `GenericT(n)` is a
      subscripted generic alias such as `Dict[str, float]`, whose `__name__` is `n`
      and which `isinstance` refuses. */
  datatype TypeTag =
    | StrT
    | IntT
    | FloatT
    | BoolT
    | DictT
    | ListT
    | OptionalT(inner: TypeTag)
    | GenericT(name: string)

  /** The annotation's `__name__`, as shown in a tool's schema. */
  function TypeName(t: TypeTag): string {
    match t
    case StrT => "str"
    case IntT => "int"
    case FloatT => "float"
    case BoolT => "bool"
    case DictT => "dict"
    case ListT => "list"
    case OptionalT(_) => "Optional"
    case GenericT(n) => n
  }

  /** The annotation named by a primitive type name, the inverse of `TypeName` on
      the four types validation knows how to convert to. */
  function PrimitiveNamed(n: string): (t: Option<TypeTag>)
    ensures t.Some? ==> IsPrimitive(t.value) && TypeName(t.value) == n
  {
    if n == "str" then Some(StrT)
    else if n == "int" then Some(IntT)
    else if n == "float" then Some(FloatT)
    else if n == "bool" then Some(BoolT)
    else None
  }

  /** The four annotations `validate_arguments` tries to convert to. */
  predicate IsPrimitive(t: TypeTag) {
    t == StrT || t == IntT || t == FloatT || t == BoolT
  }

  lemma PrimitiveNameRoundTrip(t: TypeTag)
    requires IsPrimitive(t)
    ensures PrimitiveNamed(TypeName(t)) == Some(t)
  {
  }

  /** Python's `isinstance(v, t)`; `None` when the call raises `TypeError`, which it
      does for a subscripted generic anywhere in the annotation.  A `bool` is an
      instance of `int` (Python's `bool` subclasses `int`); an `int` is not an
      instance of `float`.  `Optional[X]` tests `X` first, then `NoneType`. */
  function IsInstance(v: Value, t: TypeTag): (r: Option<bool>)
    ensures r.None? <==> !Checkable(t)
    ensures t == IntT ==> r == Some(v.IntV? || v.BoolV?)
    ensures t == FloatT ==> r == Some(v.FloatV?)
    ensures t == StrT ==> r == Some(v.StrV?)
    ensures t == BoolT ==> r == Some(v.BoolV?)
    ensures t.OptionalT? && Checkable(t) ==> r == Some(v.NoneV? || IsInstance(v, t.inner) == Some(true))
  {
    match t
    case StrT => Some(v.StrV?)
    case IntT => Some(v.IntV? || v.BoolV?)
    case FloatT => Some(v.FloatV?)
    case BoolT => Some(v.BoolV?)
    case DictT => Some(v.DictV?)
    case ListT => Some(v.ListV?)
    case OptionalT(inner) =>
      (match IsInstance(v, inner)
       case None => None
       case Some(b) => Some(b || v.NoneV?))
    case GenericT(_) => None
  }

  /** An annotation `isinstance` accepts: no subscripted generic inside it. */
  predicate Checkable(t: TypeTag) {
    match t
    case OptionalT(inner) => Checkable(inner)
    case GenericT(_) => false
    case _ => true
  }

  /** Python's `bool(v)`: `None`, `False`, zero and empty containers are false. */
  function Truthy(v: Value): (b: bool)
    ensures !b <==> v in {NoneV, BoolV(false), IntV(0), FloatV(0.0), StrV([]), ListV([]), DictV([])}
  {
    match v
    case NoneV => false
    case BoolV(b) => b
    case IntV(i) => i != 0
    case FloatV(r) => r != 0.0
    case StrV(s) => s != []
    case ListV(items) => items != []
    case DictV(entries) => entries != []
  }

  /** The two exceptions a failed conversion raises, `ValueError` (a bad value of
      the right kind) and `TypeError` (a value of the wrong kind); validation
      catches both. */
  datatype ConversionError = BadValue | BadType

  /** The conversions the model does not spell out: `str(x)` rendering and the
      parsing half of `float(s)` (`None` when `float(s)` raises `ValueError`). */
  datatype Conversions = Conversions(show: Value -> string, parseFloat: string -> Option<real>)

  /** Python's `int(s)` on a string: surrounding whitespace, then an optional sign,
      then one or more ASCII decimal digits; anything else raises `ValueError`.
      The stripped text is a sign or digit followed by digits only, every
      non-empty digit string is accepted, and the sign fixes the sign of the result. */
  function ParseInt(s: string): (r: Option<int>)
    ensures r.Some? ==> Strip(s) != [] && AllDigits(Strip(s)[1..])
    ensures r.Some? ==> IsDigit(Strip(s)[0]) || Strip(s)[0] == '+' || Strip(s)[0] == '-'
    ensures r.Some? && Strip(s)[0] != '-' ==> r.value >= 0
    ensures r.Some? && Strip(s)[0] == '-' ==> r.value <= 0
    ensures AllDigits(Strip(s)) && Strip(s) != [] ==> r.Some?
  {
    var t := Strip(s);
    if t == [] then None
    else if t[0] == '+' || t[0] == '-' then
      var digits := t[1..];
      if digits != [] && AllDigits(digits) then
        var magnitude: int := DigitsValue(digits);
        Some(if t[0] == '-' then -magnitude else magnitude)
      else
        None
    else if AllDigits(t) then
      Some(DigitsValue(t))
    else
      None
  }

  /** `int(str(i)) == i`: reading back a rendered integer gives the integer. */
  lemma IntRoundTrip(i: int)
    ensures ParseInt(IntToDecimal(i)) == Some(i)
  {
    IntToDecimalCases(i);
    if i >= 0 {
      NatRoundTrip(i);
    } else {
      NatRoundTrip(-i);
    }
  }

  lemma IntToDecimalCases(i: int)
    ensures i >= 0 ==> IntToDecimal(i) == NatToDecimal(i)
    ensures i < 0 ==> IntToDecimal(i) == "-" + NatToDecimal(-i)
  {
  }

  lemma NatRoundTrip(n: nat)
    ensures ParseInt(NatToDecimal(n)) == Some(n)
    ensures ParseInt("-" + NatToDecimal(n)) == Some(-(n as int))
  {
    DigitsOfNat(n);
    ParseDigits(NatToDecimal(n), n);
  }

  /** A digit string, with or without a leading minus, reads as its value. */
  lemma ParseDigits(ds: string, n: nat)
    requires ds != [] && AllDigits(ds) && DigitsValue(ds) == n
    ensures ParseInt(ds) == Some(n)
    ensures ParseInt("-" + ds) == Some(-(n as int))
  {
    assert IsDigit(ds[0]) && IsDigit(ds[|ds| - 1]);
    StripUntrimmed(ds);
    var s := "-" + ds;
    assert s[1..] == ds;
    assert s[|s| - 1] == ds[|ds| - 1];
    StripUntrimmed(s);
  }

  /** A string whose non-blank part does not start with a sign or digit is not an
      integer literal: `int("不是数字")` raises `ValueError`. */
  lemma ParseIntRejects(s: string)
    requires Strip(s) == [] || !(IsDigit(Strip(s)[0]) || Strip(s)[0] == '+' || Strip(s)[0] == '-')
    ensures ParseInt(s) == None
  {
  }

  /** Python's `int(x)` on a float: truncation toward zero. */
  function Truncate(r: real): (n: int)
    ensures r >= 0.0 ==> n as real <= r < n as real + 1.0
    ensures r < 0.0 ==> n as real - 1.0 < r <= n as real
  {
    if r >= 0.0 then r.Floor else -((-r).Floor)
  }

  /** One attempt to convert `v` to the declared type `t` (`str(v)`, `int(v)`,
      `float(v)`, `bool(v)`), as `validate_arguments` makes it after `isinstance`
      said no.  Any other annotation is not converted: the value is left alone. */
  function Coerce(v: Value, t: TypeTag, conv: Conversions): (r: Result<Value, ConversionError>)
    ensures !IsPrimitive(t) ==> r == Ok(v)
    ensures r.Err? ==> t == IntT || t == FloatT
    ensures t == StrT ==> r == Ok(StrV(conv.show(v)))
    ensures t == BoolT ==> r == Ok(BoolV(Truthy(v)))
    ensures t == IntT && r.Ok? ==> r.value.IntV?
    ensures t == FloatT && r.Ok? ==> r.value.FloatV?
    ensures t == IntT && v.StrV? ==> (r.Ok? <==> ParseInt(v.s).Some?)
    ensures t == FloatT && v.StrV? ==> (r.Ok? <==> conv.parseFloat(v.s).Some?)
    ensures (t == IntT || t == FloatT) && (v.NoneV? || v.ListV? || v.DictV?) ==> r == Err(BadType)
  {
    match t
    case StrT => Ok(StrV(conv.show(v)))
    case BoolT => Ok(BoolV(Truthy(v)))
    case IntT =>
      (match v
       case IntV(i) => Ok(IntV(i))
       case BoolV(b) => Ok(IntV(if b then 1 else 0))
       case FloatV(x) => Ok(IntV(Truncate(x)))
       case StrV(s) =>
         (match ParseInt(s)
          case Some(n) => Ok(IntV(n))
          case None => Err(BadValue))
       case _ => Err(BadType))
    case FloatT =>
      (match v
       case FloatV(x) => Ok(FloatV(x))
       case IntV(i) => Ok(FloatV(i as real))
       case BoolV(b) => Ok(FloatV(if b then 1.0 else 0.0))
       case StrV(s) =>
         (match conv.parseFloat(s)
          case Some(x) => Ok(FloatV(x))
          case None => Err(BadValue))
       case _ => Err(BadType))
    case _ => Ok(v)
  }

  /** A string holding a rendered integer converts to that integer: the coercion
      `int("7") == 7` that validation performs for an `int` parameter. */
  lemma CoerceIntFromDecimal(i: int, conv: Conversions)
    ensures Coerce(StrV(IntToDecimal(i)), IntT, conv) == Ok(IntV(i))
  {
    IntRoundTrip(i);
    CoerceIntFromString(IntToDecimal(i), i, conv);
  }

  /** A string `int(s)` reads as `n` converts to `n`. */
  lemma CoerceIntFromString(s: string, n: int, conv: Conversions)
    requires ParseInt(s) == Some(n)
    ensures Coerce(StrV(s), IntT, conv) == Ok(IntV(n))
  {
  }
}
