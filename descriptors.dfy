/**
 * The option metadata: the two annotation records (their Java defaults are
 * the constructors' default parameter values), the parameter types that
 * drive coercion, and the reflective view of a target class as an explicit
 * sequence of methods.
 */
module Descriptors {
  import opened Wrappers

  /**
   * `@CLIOption`, the multi-alias record read by the trunk parser. Only
   * `name` has no default.
   */
  datatype CLIOption = CLIOption(
    name: string,
    flag: bool := false,
    required: bool := false,
    description: string := "",
    regex: string := ".*",
    alias: seq<string> := [],
    defaultValue: string := "")

  /**
   * `@CLI`, the single-alias record read by the legacy parser and by the help
   * builder; an empty `alias` means "no alias".
   */
  datatype CLI = CLI(
    name: string,
    flag: bool := false,
    required: bool := false,
    description: string := "",
    regex: string := ".*",
    alias: string := "")

  /** The eight primitive kinds of `stringToType` (char is not among them). */
  datatype Primitive = Boolean | Byte | Short | Int | Long | Float | Double {
    predicate IsInteger() {
      this == Byte || this == Short || this == Int || this == Long
    }
  }

  /**
   * A setter's parameter class. `boxed` tells `Integer.class` from
   * `Integer.TYPE`: the coercion table treats them alike, the editor table
   * keys on the exact class.
   */
  datatype TypeTag =
    | Prim(kind: Primitive, boxed: bool)
    | FileType
    | ClassType(className: string)

  /**
   * One public method of the target class as `getMethods` reports it: the
   * annotations present on it, the class of its (single) parameter, and
   * whether invoking it throws (an InvocationTargetException).
   */
  datatype JavaMethod = JavaMethod(
    cliOption: Option<CLIOption>,
    cli: Option<CLI>,
    paramType: TypeTag,
    throws: bool := false)

  /**
   * The target class: its public methods in the order `getMethods` returns
   * them, and whether `newInstance` succeeds.
   */
  datatype TargetClass = TargetClass(methods: seq<JavaMethod>, instantiable: bool := true)

  /**
   * A `@CLIOption` declared with only a name is a value-taking, optional
   * option with no description, a regex accepting anything, no alias and no
   * default.
   */
  lemma CLIOptionDefaults(name: string)
    ensures var o := CLIOption(name);
      && o.name == name && !o.flag && !o.required && o.description == "" && o.regex == ".*"
      && o.alias == [] && o.defaultValue == ""
  {
  }

  /** The same for `@CLI`, whose empty alias means "no alias". */
  lemma CLIDefaults(name: string)
    ensures var c := CLI(name);
      && c.name == name && !c.flag && !c.required && c.description == "" && c.regex == ".*" && c.alias == ""
  {
  }
}
