/**
 * Turning an option's text into the argument of its setter: a registered
 * property editor for the exact parameter class first, otherwise the
 * built-in `stringToType` table. Floating values keep their text: the model
 * does not compute binary floating point.
 */
module Coercion {
  import opened Wrappers
  import opened JavaText
  import opened Descriptors

  /** A value handed to a setter. */
  datatype Value =
    | BoolV(b: bool)
    | IntV(kind: Primitive, n: int)
    | FloatV(kind: Primitive, text: string)
    | FileV(path: string)
    | StrV(s: Option<string>)
    | ObjV(tag: TypeTag, repr: string)

  /**
   * The two ways a bind fails: an exception thrown while converting text
   * (NumberFormatException, NullPointerException, or whatever a property
   * editor throws), which propagates as it is; and a reflective failure,
   * rethrown as IllegalArgumentException with `Arrays.toString(args)`.
   */
  datatype BindError = ParseFailure | Reflective(message: string)

  /** A `PropertyEditor.getObject`: a value, or None when it throws. */
  type Editor = Option<string> -> Option<Value>

  /** Which copy of `stringToType`: the legacy one has no File branch. */
  datatype Table = WithFile | WithoutFile

  /** The bounds of `byte`, `short`, `int` and `long`. */
  function Lo(p: Primitive): int
    requires p.IsInteger()
  {
    match p
    case Byte => -0x80
    case Short => -0x8000
    case Int => -0x8000_0000
    case Long => -0x8000_0000_0000_0000
  }

  function Hi(p: Primitive): int
    requires p.IsInteger()
  {
    match p
    case Byte => 0x7F
    case Short => 0x7FFF
    case Int => 0x7FFF_FFFF
    case Long => 0x7FFF_FFFF_FFFF_FFFF
  }

  /** `stringToType` of the trunk parser and of `Utils`. */
  function StringToType(t: TypeTag, v: Option<string>): (r: Result<Value, BindError>)
    ensures r.Failure? ==> r.error == ParseFailure
    ensures t.Prim? && t.kind == Boolean ==> r == Success(BoolV(ParseBoolean(v)))
    ensures t.Prim? && t.kind.IsInteger() ==>
      (r.Success? <==> ParseInteger(v, Lo(t.kind), Hi(t.kind)).Some?) &&
      (r.Success? ==> r.value == IntV(t.kind, ParseInteger(v, Lo(t.kind), Hi(t.kind)).value))
    ensures t.Prim? && (t.kind == Float || t.kind == Double) ==>
      (r.Success? <==> v.Some? && IsFloatLiteral(v.value)) &&
      (r.Success? ==> r.value == FloatV(t.kind, v.value))
    ensures t == FileType ==> (r.Success? <==> v.Some?) && (r.Success? ==> r.value == FileV(v.value))
    ensures t.ClassType? ==> r == Success(StrV(v))
  {
    match t
    case Prim(p, _) =>
      if p == Boolean then Success(BoolV(ParseBoolean(v)))
      else if p.IsInteger() then
        match ParseInteger(v, Lo(p), Hi(p))
        case Some(n) => Success(IntV(p, n))
        case None => Failure(ParseFailure)
      else if v.Some? && IsFloatLiteral(v.value) then Success(FloatV(p, v.value))
      else Failure(ParseFailure)
    case FileType =>
      if v.Some? then Success(FileV(v.value)) else Failure(ParseFailure)
    case ClassType(_) => Success(StrV(v))
  }

  /** `stringToType` of the legacy parser: a File parameter gets the text itself. */
  function LegacyStringToType(t: TypeTag, v: Option<string>): (r: Result<Value, BindError>)
    ensures r.Failure? ==> r.error == ParseFailure
    ensures t == FileType ==> r == Success(StrV(v))
    ensures t != FileType ==> r == StringToType(t, v)
  {
    if t == FileType then Success(StrV(v)) else StringToType(t, v)
  }

  function BuiltIn(table: Table, t: TypeTag, v: Option<string>): (r: Result<Value, BindError>)
    ensures r.Failure? ==> r.error == ParseFailure
  {
    match table
    case WithFile => StringToType(t, v)
    case WithoutFile => LegacyStringToType(t, v)
  }

  /**
   * The argument for a non-flag setter: the editor registered for exactly
   * `t` when there is one (a throwing editor fails the bind), otherwise
   * the built-in table.
   */
  function Coerce(editors: map<TypeTag, Editor>, table: Table, t: TypeTag, v: Option<string>): (r: Result<Value, BindError>)
    ensures r.Failure? ==> r.error == ParseFailure
    ensures t in editors ==> (r.Success? <==> editors[t](v).Some?)
    ensures t in editors && r.Success? ==> r.value == editors[t](v).value
    ensures t !in editors ==> r == BuiltIn(table, t, v)
  {
    if t in editors then
      match editors[t](v)
      case Some(x) => Success(x)
      case None => Failure(ParseFailure)
    else BuiltIn(table, t, v)
  }

  /**
   * `invokeAnnotatedMethod`: a flag's setter gets `true` whatever the text;
   * any other setter gets the coerced text. A conversion failure propagates
   * before the setter is reached; a throwing setter is a reflective failure
   * carrying `message`.
   */
  function Invoke(flag: bool, m: JavaMethod, editors: map<TypeTag, Editor>, table: Table,
                  v: Option<string>, message: string): (r: Result<Value, BindError>)
    ensures r.Success? <==> !m.throws && (flag || Coerce(editors, table, m.paramType, v).Success?)
    ensures r.Success? && flag ==> r.value == BoolV(true)
    ensures r.Success? && !flag ==> r == Coerce(editors, table, m.paramType, v)
    ensures r.Failure? ==> r.error == ParseFailure || r.error == Reflective(message)
    ensures !flag && Coerce(editors, table, m.paramType, v).Failure? ==> r == Coerce(editors, table, m.paramType, v)
    ensures m.throws && (flag || Coerce(editors, table, m.paramType, v).Success?) ==> r == Failure(Reflective(message))
  {
    var arg := if flag then Success(BoolV(true)) else Coerce(editors, table, m.paramType, v);
    match arg
    case Failure(e) => Failure(e)
    case Success(x) => if m.throws then Failure(Reflective(message)) else Success(x)
  }

  /** Registering an editor for `t` again replaces the earlier one. */
  lemma ReRegisterReplaces(editors: map<TypeTag, Editor>, table: Table, t: TypeTag,
                           first: Editor, second: Editor, u: TypeTag, v: Option<string>)
    ensures Coerce(editors[t := first][t := second], table, u, v) == Coerce(editors[t := second], table, u, v)
    ensures Coerce(editors[t := second], table, t, v).Success? <==> second(v).Some?
  {
    assert editors[t := first][t := second] == editors[t := second];
  }

  /**
   * The two tables agree on every class but File, where the legacy one
   * passes the text through and the other wraps it.
   */
  lemma LegacyTableHasNoFileBranch(t: TypeTag, v: Option<string>)
    ensures t != FileType ==> LegacyStringToType(t, v) == StringToType(t, v)
    ensures LegacyStringToType(FileType, v) == Success(StrV(v))
    ensures v.Some? ==> StringToType(FileType, v) == Success(FileV(v.value))
  {
  }

  /**
   * Every built-in integer class reads back the printed form of each value
   * in its range, and Boolean reads back "true" and "false".
   */
  lemma BuiltInRoundTrip(t: TypeTag, n: int, b: bool)
    ensures t.Prim? && t.kind.IsInteger() && Lo(t.kind) <= n <= Hi(t.kind) ==>
      StringToType(t, Some(ToDecimal(n))) == Success(IntV(t.kind, n))
    ensures t.Prim? && t.kind == Boolean ==>
      StringToType(t, Some(if b then "true" else "false")) == Success(BoolV(b))
  {
    if t.Prim? && t.kind.IsInteger() && Lo(t.kind) <= n <= Hi(t.kind) {
      IntegerRoundTrip(n, Lo(t.kind), Hi(t.kind));
    }
  }

  /** A null text (a present option with no value) fails every numeric and File conversion. */
  lemma NullText(t: TypeTag)
    ensures t.Prim? && t.kind != Boolean ==> StringToType(t, None) == Failure(ParseFailure)
    ensures StringToType(FileType, None) == Failure(ParseFailure)
    ensures t.Prim? && t.kind == Boolean ==> StringToType(t, None) == Success(BoolV(false))
  {
  }
}
