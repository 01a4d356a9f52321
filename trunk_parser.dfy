/**
 * The trunk `CommandLineParser`: `@CLIOption` methods with several aliases,
 * the `-k=v` form, and default values.
 */
module TrunkParser {
  import opened Wrappers
  import opened LinkedMaps
  import opened JavaText
  import opened Descriptors
  import opened Coercion
  import opened Tokenizer
  import opened Binding

  /** `annotatedMethods` after the constructor has seen the first `n` methods. */
  function DeclaredUpTo(methods: seq<JavaMethod>, n: nat): (m: LinkedMap<string, JavaMethod>)
    requires n <= |methods|
    ensures m.Valid()
  {
    if n == 0 then Empty()
    else
      var m := DeclaredUpTo(methods, n - 1);
      if methods[n - 1].cliOption.Some? then m.Put(methods[n - 1].cliOption.value.name, methods[n - 1]) else m
  }

  /** The alias table after registering `names` (in order) for option `name`. */
  function AddAliases(table: LinkedMap<string, string>, names: seq<string>, name: string): (t: LinkedMap<string, string>)
    ensures table.Valid() ==> t.Valid()
  {
    if names == [] then table
    else AddAliases(table, names[..|names| - 1], name).Put(names[|names| - 1], name)
  }

  /** `aliases` after the constructor has seen the first `n` methods. */
  function AliasesUpTo(methods: seq<JavaMethod>, n: nat): (t: LinkedMap<string, string>)
    requires n <= |methods|
    ensures t.Valid()
  {
    if n == 0 then Empty()
    else
      var t := AliasesUpTo(methods, n - 1);
      if methods[n - 1].cliOption.Some? then
        AddAliases(t, methods[n - 1].cliOption.value.alias, methods[n - 1].cliOption.value.name)
      else t
  }

  /** The declared options are the annotated methods, each under its own name. */
  lemma {:induction false} DeclaredAreAnnotated(methods: seq<JavaMethod>, n: nat, k: string)
    requires n <= |methods|
    ensures k in DeclaredUpTo(methods, n).entries <==>
      exists i :: 0 <= i < n && methods[i].cliOption.Some? && methods[i].cliOption.value.name == k
    ensures k in DeclaredUpTo(methods, n).entries ==>
      var m := DeclaredUpTo(methods, n).entries[k]; m.cliOption.Some? && m.cliOption.value.name == k && m in methods[..n]
  {
    if n > 0 {
      DeclaredAreAnnotated(methods, n - 1, k);
      var m := methods[n - 1];
      if m.cliOption.Some? && m.cliOption.value.name == k {
        assert k in DeclaredUpTo(methods, n).entries;
      }
      assert methods[..n] == methods[..n - 1] + [m];
    }
  }

  /** An alias table entry `a -> name` has `a` among the aliases of an option named `name`. */
  lemma {:induction false} AddedAliasesPointToOption(table: LinkedMap<string, string>, names: seq<string>, name: string, a: string)
    ensures a in AddAliases(table, names, name).entries <==> a in table.entries || a in names
    ensures a in names ==> AddAliases(table, names, name).entries[a] == name
    ensures a !in names && a in table.entries ==> AddAliases(table, names, name).entries[a] == table.entries[a]
  {
    if names != [] {
      AddedAliasesPointToOption(table, names[..|names| - 1], name, a);
      assert names == names[..|names| - 1] + [names[|names| - 1]];
    }
  }

  /**
   * Every alias of every annotated method is in the table, and every table
   * entry maps an alias of some annotated method to that method's name.
   */
  lemma {:induction false} AliasTableSound(methods: seq<JavaMethod>, n: nat, a: string)
    requires n <= |methods|
    ensures a in AliasesUpTo(methods, n).entries <==>
      exists i :: 0 <= i < n && methods[i].cliOption.Some? && a in methods[i].cliOption.value.alias
    ensures a in AliasesUpTo(methods, n).entries ==>
      exists i :: 0 <= i < n && methods[i].cliOption.Some? && a in methods[i].cliOption.value.alias &&
        AliasesUpTo(methods, n).entries[a] == methods[i].cliOption.value.name
  {
    if n > 0 {
      AliasTableSound(methods, n - 1, a);
      var m := methods[n - 1];
      if m.cliOption.Some? {
        AddedAliasesPointToOption(AliasesUpTo(methods, n - 1), m.cliOption.value.alias, m.cliOption.value.name, a);
      }
    }
  }

  /**
   * `parseArguments`: a fresh instance (or the reflective failure of
   * `newInstance`), then the walk over the declared options.
   */
  function Bind(target: TargetClass, declared: LinkedMap<string, JavaMethod>, editors: map<TypeTag, Editor>,
                options: map<string, Option<string>>, args: seq<string>): Result<Instance, BindError>
    requires Declares(declared.keys, declared.entries)
  {
    if !target.instantiable then Failure(Reflective(ArraysToString(args)))
    else BindFrom(declared.keys, 0, declared.entries, editors, options, ArraysToString(args), map[])
  }

  /**
   * What `parseArguments` promises: each declared option is visited once;
   * a present flag gets `true`; a present value gets its coerced text; an
   * absent option with a non-empty default gets the coerced default; an
   * absent option without one is not set; nothing else is set. Required
   * and regex constraints play no part. Any reflective failure carries
   * `Arrays.toString(args)`.
   */
  lemma BindOutcome(target: TargetClass, declared: LinkedMap<string, JavaMethod>, editors: map<TypeTag, Editor>,
                    options: map<string, Option<string>>, args: seq<string>)
    requires declared.Valid() && Declares(declared.keys, declared.entries)
    ensures var r := Bind(target, declared, editors, options, args);
      && (!target.instantiable ==> r == Failure(Reflective(ArraysToString(args))))
      && (r.Failure? ==> r.error == ParseFailure || r.error == Reflective(ArraysToString(args)))
      && (r.Success? ==> forall name :: name in r.value ==> name in declared.entries)
      && (r.Success? ==> forall name :: name in declared.entries ==>
            var m := declared.entries[name];
            var o := m.cliOption.value;
            && (name in options && o.flag ==> name in r.value && r.value[name] == BoolV(true))
            && (name in options && !o.flag ==>
                  (name in r.value && Coerce(editors, WithFile, m.paramType, options[name]) == Success(r.value[name])))
            && (name !in options && o.defaultValue != "" && o.flag ==> name in r.value && r.value[name] == BoolV(true))
            && (name !in options && o.defaultValue != "" && !o.flag ==>
                  (name in r.value && Coerce(editors, WithFile, m.paramType, Some(o.defaultValue)) == Success(r.value[name])))
            && (name !in options && o.defaultValue == "" ==> name !in r.value))
  {
    var r := Bind(target, declared, editors, options, args);
    var message := ArraysToString(args);
    if target.instantiable {
      if r.Success? {
        BindFromSuccess(declared.keys, 0, declared.entries, editors, options, message, map[], r.value);
        forall name | name in declared.entries
          ensures name in declared.keys[0..]
        {
          assert name in declared.keys;
        }
      } else {
        BindFromFailure(declared.keys, 0, declared.entries, editors, options, message, map[], r.error);
      }
    }
  }

  /** An instantiable target binds whenever every call the walk makes succeeds. */
  lemma BindSucceedsWhenEveryCallDoes(target: TargetClass, declared: LinkedMap<string, JavaMethod>,
                                      editors: map<TypeTag, Editor>, options: map<string, Option<string>>, args: seq<string>)
    requires declared.Valid() && Declares(declared.keys, declared.entries) && target.instantiable
    requires forall name :: name in declared.entries && Wanted(name, declared.entries[name].cliOption.value, options).Some? ==>
      InvokeFor(name, declared.entries, editors, options, ArraysToString(args)).Success?
    ensures Bind(target, declared, editors, options, args).Success?
  {
    BindFromTotal(declared.keys, 0, declared.entries, editors, options, ArraysToString(args), map[]);
  }

  class CommandLineParser {
    const targetClass: TargetClass
    /** `annotatedMethods`, whose `@CLIOption`s form the `annotations` map (same keys, same order). */
    const annotatedMethods: LinkedMap<string, JavaMethod>
    const aliases: LinkedMap<string, string>
    var propertyEditors: map<TypeTag, Editor>

    /** The tables are ordered maps, and each declared option carries its annotation under its own name. */
    ghost predicate Valid() {
      && annotatedMethods.Valid()
      && aliases.Valid()
      && Declares(annotatedMethods.keys, annotatedMethods.entries)
      && forall k :: k in annotatedMethods.entries ==> annotatedMethods.entries[k].cliOption.value.name == k
    }

    constructor (targetClass: TargetClass)
      ensures Valid()
      ensures this.targetClass == targetClass
      ensures annotatedMethods == DeclaredUpTo(targetClass.methods, |targetClass.methods|)
      ensures aliases == AliasesUpTo(targetClass.methods, |targetClass.methods|)
      ensures propertyEditors == map[]
    {
      var methods := targetClass.methods;
      var methodTable: LinkedMap<string, JavaMethod> := Empty();
      var aliasTable: LinkedMap<string, string> := Empty();
      for i := 0 to |methods|
        invariant methodTable == DeclaredUpTo(methods, i)
        invariant aliasTable == AliasesUpTo(methods, i)
      {
        var candidate := methods[i];
        if candidate.cliOption.Some? {
          var annotation := candidate.cliOption.value;
          methodTable := methodTable.Put(annotation.name, candidate);
          if |annotation.alias| > 0 {
            for j := 0 to |annotation.alias|
              invariant aliasTable == AddAliases(AliasesUpTo(methods, i), annotation.alias[..j], annotation.name)
            {
              assert annotation.alias[..j + 1][..j] == annotation.alias[..j];
              aliasTable := aliasTable.Put(annotation.alias[j], annotation.name);
            }
            assert annotation.alias[..|annotation.alias|] == annotation.alias;
          }
        }
      }
      forall k | k in methodTable.entries
        ensures methodTable.entries[k].cliOption.Some? && methodTable.entries[k].cliOption.value.name == k
      {
        DeclaredAreAnnotated(methods, |methods|, k);
      }
      this.targetClass := targetClass;
      annotatedMethods := methodTable;
      aliases := aliasTable;
      propertyEditors := map[];
    }

    /** `registerPropertyEditor`: the editor for `clazz`, replacing any earlier one. */
    method RegisterPropertyEditor(clazz: TypeTag, propertyEditor: Editor)
      modifies this`propertyEditors
      ensures propertyEditors == old(propertyEditors)[clazz := propertyEditor]
    {
      propertyEditors := propertyEditors[clazz := propertyEditor];
    }

    /** `hasDefault`, whose name is inverted: true when the default is EMPTY. */
    function HasDefault(optionName: string): (empty: bool)
      requires Valid() && optionName in annotatedMethods.entries
      ensures empty <==> GetDefault(optionName) == ""
    {
      annotatedMethods.entries[optionName].cliOption.value.defaultValue == ""
    }

    function GetDefault(optionName: string): (defaultValue: string)
      requires Valid() && optionName in annotatedMethods.entries
      ensures defaultValue == annotatedMethods.entries[optionName].cliOption.value.defaultValue
      ensures forall options :: optionName !in options ==>
        Wanted(optionName, annotatedMethods.entries[optionName].cliOption.value, options) ==
          if defaultValue == "" then None else Some(Some(defaultValue))
    {
      annotatedMethods.entries[optionName].cliOption.value.defaultValue
    }

    /** `getOptionsMap`: the scan with the '=' form, resolving aliases. */
    method GetOptionsMap(args: seq<string>) returns (optionsMap: Options)
      ensures optionsMap == OptionsMap(EqualsForm, aliases.entries, args)
    {
      optionsMap := Empty();
      for index := 0 to |args|
        invariant optionsMap == OptionsUpTo(EqualsForm, aliases.entries, args, index)
      {
        var arg := args[index];
        if IsOption(arg) {
          var optionName := arg[1..];
          var value: Option<string>;
          if '=' in arg {
            assert arg == [arg[0]] + optionName;
            var k := IndexOf(optionName, '=');
            value := Some(optionName[k + 1..]);
            optionName := optionName[..k];
          } else if index < |args| - 1 && !IsOption(args[index + 1]) {
            value := Some(args[index + 1]);
          } else {
            value := None;
          }
          if optionName in aliases.entries {
            optionName := aliases.entries[optionName];
          }
          optionsMap := optionsMap.Put(optionName, value);
        }
      }
    }

    /**
     * `validate`: exactly the declared options that are required and
     * absent, or present with a non-null text their regex rejects. The
     * target class is not instantiated.
     */
    method Validate(args: seq<string>, matches: Matcher) returns (invalidOptions: set<string>)
      requires Valid()
      ensures forall name :: name in invalidOptions <==>
        name in annotatedMethods.entries &&
        var o := annotatedMethods.entries[name].cliOption.value;
        IsInvalid(name, o.required, o.regex, OptionsMap(EqualsForm, aliases.entries, args).entries, matches)
    {
      invalidOptions := {};
      var optionsMap := GetOptionsMap(args);
      var names := annotatedMethods.keys;
      for i := 0 to |names|
        invariant forall name :: name in invalidOptions <==>
          name in names[..i] &&
          var o := annotatedMethods.entries[name].cliOption.value;
          IsInvalid(name, o.required, o.regex, optionsMap.entries, matches)
      {
        var annotationName := names[i];
        var annotation := annotatedMethods.entries[annotationName].cliOption.value;
        assert names[..i + 1] == names[..i] + [annotationName];
        if annotation.required && annotationName !in optionsMap.entries {
          invalidOptions := invalidOptions + {annotationName};
        } else if annotationName in optionsMap.entries && optionsMap.entries[annotationName] != None {
          var regex := annotation.regex;
          if !matches(optionsMap.entries[annotationName].value, regex) {
            invalidOptions := invalidOptions + {annotationName};
          }
        }
      }
      assert names[..|names|] == names;
    }

    /**
     * `parseArguments`: instantiate, then call the setter of each declared
     * option that is present or has a default; stop at the first failure.
     */
    method ParseArguments(args: seq<string>) returns (result: Result<Instance, BindError>)
      requires Valid()
      ensures result == Bind(targetClass, annotatedMethods, propertyEditors,
                             OptionsMap(EqualsForm, aliases.entries, args).entries, args)
    {
      var message := ArraysToString(args);
      if !targetClass.instantiable {
        return Failure(Reflective(message));
      }
      var targetInstance: Instance := map[];
      var argsMap := GetOptionsMap(args);
      var names := annotatedMethods.keys;
      ghost var whole := BindFrom(names, 0, annotatedMethods.entries, propertyEditors, argsMap.entries, message, map[]);
      for i := 0 to |names|
        invariant whole == BindFrom(names, i, annotatedMethods.entries, propertyEditors, argsMap.entries, message, targetInstance)
      {
        var optionName := names[i];
        var setter := annotatedMethods.entries[optionName];
        var text: Option<string>;
        if optionName in argsMap.entries {
          text := argsMap.entries[optionName];
        } else if !HasDefault(optionName) {
          text := Some(GetDefault(optionName));
        } else {
          continue;
        }
        var invoked := Invoke(setter.cliOption.value.flag, setter, propertyEditors, WithFile, text, message);
        if invoked.Failure? {
          return Failure(invoked.error);
        }
        targetInstance := targetInstance[optionName := invoked.value];
      }
      return Success(targetInstance);
    }
  }
}
