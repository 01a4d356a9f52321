/**
 * The legacy `CommandLineParser`: `@CLI` methods with at most one alias,
 * no `-k=v` form, no defaults, and a binding walk over the parsed entries.
 */
module LegacyParser {
  import opened Wrappers
  import opened LinkedMaps
  import opened JavaText
  import opened Descriptors
  import opened Coercion
  import opened Tokenizer
  import opened Binding

  /** `annotatedMethods` after the constructor has seen the first `n` methods. */
  function DeclaredUpTo(methods: seq<JavaMethod>, n: nat): (m: LinkedMap<string, JavaMethod>)
    requires n <= |methods|
    ensures m.Valid()
  {
    if n == 0 then Empty()
    else
      var m := DeclaredUpTo(methods, n - 1);
      if methods[n - 1].cli.Some? then m.Put(methods[n - 1].cli.value.name, methods[n - 1]) else m
  }

  /** `aliases` after the first `n` methods: a non-empty alias maps to its option's name. */
  function AliasesUpTo(methods: seq<JavaMethod>, n: nat): (t: LinkedMap<string, string>)
    requires n <= |methods|
    ensures t.Valid()
  {
    if n == 0 then Empty()
    else
      var t := AliasesUpTo(methods, n - 1);
      var m := methods[n - 1];
      if m.cli.Some? && m.cli.value.alias != "" then t.Put(m.cli.value.alias, m.cli.value.name) else t
  }

  /** The declared options are the `@CLI` methods, each under its own name. */
  lemma {:induction false} DeclaredAreAnnotated(methods: seq<JavaMethod>, n: nat, k: string)
    requires n <= |methods|
    ensures k in DeclaredUpTo(methods, n).entries <==>
      exists i :: 0 <= i < n && methods[i].cli.Some? && methods[i].cli.value.name == k
    ensures k in DeclaredUpTo(methods, n).entries ==>
      var m := DeclaredUpTo(methods, n).entries[k]; m.cli.Some? && m.cli.value.name == k && m in methods[..n]
  {
    if n > 0 {
      DeclaredAreAnnotated(methods, n - 1, k);
      var m := methods[n - 1];
      if m.cli.Some? && m.cli.value.name == k {
        assert k in DeclaredUpTo(methods, n).entries;
      }
      assert methods[..n] == methods[..n - 1] + [m];
    }
  }

  /**
   * The empty string is never an alias; every alias in the table is the one
   * alias of some `@CLI` method and maps to its name, and every non-empty
   * alias is in the table.
   */
  lemma {:induction false} AliasTableSound(methods: seq<JavaMethod>, n: nat, a: string)
    requires n <= |methods|
    ensures "" !in AliasesUpTo(methods, n).entries
    ensures a in AliasesUpTo(methods, n).entries <==>
      exists i :: 0 <= i < n && methods[i].cli.Some? && methods[i].cli.value.alias == a && a != ""
    ensures a in AliasesUpTo(methods, n).entries ==>
      exists i :: 0 <= i < n && methods[i].cli.Some? && methods[i].cli.value.alias == a &&
        AliasesUpTo(methods, n).entries[a] == methods[i].cli.value.name
  {
    if n > 0 {
      AliasTableSound(methods, n - 1, a);
      var t := AliasesUpTo(methods, n - 1);
      var m := methods[n - 1];
      if m.cli.Some? && m.cli.value.alias != "" {
        assert AliasesUpTo(methods, n) == t.Put(m.cli.value.alias, m.cli.value.name);
        if a == m.cli.value.alias {
          assert methods[n - 1].cli.value.alias == a && AliasesUpTo(methods, n).entries[a] == methods[n - 1].cli.value.name;
        }
      } else {
        assert AliasesUpTo(methods, n) == t;
        if a != "" && methods[n - 1].cli.Some? && methods[n - 1].cli.value.alias == a {
          assert false;
        }
      }
    }
  }

  /** `parseArguments`: a fresh instance, then the walk over the parsed entries. */
  function Bind(target: TargetClass, declared: LinkedMap<string, JavaMethod>, editors: map<TypeTag, Editor>,
                options: Options, args: seq<string>): Result<Instance, BindError>
    requires options.Valid()
    requires forall k :: k in declared.entries ==> declared.entries[k].cli.Some?
  {
    if !target.instantiable then Failure(Reflective(ArraysToString(args)))
    else LegacyBindFrom(options.keys, 0, declared.entries, editors, options.entries, ArraysToString(args), map[])
  }

  /**
   * What the legacy `parseArguments` promises: exactly the declared options
   * that were parsed are set (no defaults, unknown names ignored); a flag
   * gets `true`; a value gets its text coerced by the table without a File
   * branch. Any reflective failure carries `Arrays.toString(args)`.
   */
  lemma BindOutcome(target: TargetClass, declared: LinkedMap<string, JavaMethod>, editors: map<TypeTag, Editor>,
                    options: Options, args: seq<string>)
    requires options.Valid()
    requires forall k :: k in declared.entries ==> declared.entries[k].cli.Some?
    ensures var r := Bind(target, declared, editors, options, args);
      && (!target.instantiable ==> r == Failure(Reflective(ArraysToString(args))))
      && (r.Failure? ==> r.error == ParseFailure || r.error == Reflective(ArraysToString(args)))
      && (r.Success? ==> forall name :: name in r.value <==> name in declared.entries && name in options.entries)
      && (r.Success? ==> forall name :: name in declared.entries && name in options.entries ==>
            var m := declared.entries[name];
            && (m.cli.value.flag ==> r.value[name] == BoolV(true))
            && (!m.cli.value.flag ==> Coerce(editors, WithoutFile, m.paramType, options.entries[name]) == Success(r.value[name])))
  {
    var r := Bind(target, declared, editors, options, args);
    var message := ArraysToString(args);
    if target.instantiable {
      if r.Success? {
        LegacyBindFromSuccess(options.keys, 0, declared.entries, editors, options.entries, message, map[], r.value);
        forall name | name in options.entries
          ensures name in options.keys[0..]
        {
          assert name in options.keys;
        }
      } else {
        LegacyBindFromFailure(options.keys, 0, declared.entries, editors, options.entries, message, map[], r.error);
      }
    }
  }

  class CommandLineParser {
    const targetClass: TargetClass
    /** `annotatedMethods`, whose `@CLI`s form the `annotations` map (same keys, same order). */
    const annotatedMethods: LinkedMap<string, JavaMethod>
    const aliases: LinkedMap<string, string>
    var propertyEditors: map<TypeTag, Editor>

    ghost predicate Valid() {
      && annotatedMethods.Valid()
      && aliases.Valid()
      && forall k :: k in annotatedMethods.entries ==>
           annotatedMethods.entries[k].cli.Some? && annotatedMethods.entries[k].cli.value.name == k
    }

    constructor (targetClass: TargetClass)
      ensures Valid()
      ensures this.targetClass == targetClass
      ensures annotatedMethods == DeclaredUpTo(targetClass.methods, |targetClass.methods|)
      ensures aliases == AliasesUpTo(targetClass.methods, |targetClass.methods|)
      ensures propertyEditors == map[]
    {
      var methods := targetClass.methods;
      var methodTable: LinkedMap<string, JavaMethod> := Empty();
      var aliasTable: LinkedMap<string, string> := Empty();
      for i := 0 to |methods|
        invariant methodTable == DeclaredUpTo(methods, i)
        invariant aliasTable == AliasesUpTo(methods, i)
      {
        var candidate := methods[i];
        if candidate.cli.Some? {
          var annotation := candidate.cli.value;
          methodTable := methodTable.Put(annotation.name, candidate);
          if annotation.alias != "" {
            aliasTable := aliasTable.Put(annotation.alias, annotation.name);
          }
        }
      }
      forall k | k in methodTable.entries
        ensures methodTable.entries[k].cli.Some? && methodTable.entries[k].cli.value.name == k
      {
        DeclaredAreAnnotated(methods, |methods|, k);
      }
      this.targetClass := targetClass;
      annotatedMethods := methodTable;
      aliases := aliasTable;
      propertyEditors := map[];
    }

    /** `registerPropertyEditor`: the editor for `clazz`, replacing any earlier one. */
    method RegisterPropertyEditor(clazz: TypeTag, propertyEditor: Editor)
      modifies this`propertyEditors
      ensures propertyEditors == old(propertyEditors)[clazz := propertyEditor]
    {
      propertyEditors := propertyEditors[clazz := propertyEditor];
    }

    /** `getOptionsMap`: the scan without the '=' form; the alias lookup takes the whole token after the dash. */
    method GetOptionsMap(args: seq<string>) returns (optionsMap: Options)
      ensures optionsMap == OptionsMap(SpaceOnly, aliases.entries, args)
    {
      optionsMap := Empty();
      for index := 0 to |args|
        invariant optionsMap == OptionsUpTo(SpaceOnly, aliases.entries, args, index)
      {
        var arg := args[index];
        if IsOption(arg) {
          var optionName := arg[1..];
          if optionName in aliases.entries {
            optionName := aliases.entries[optionName];
          }
          if index < |args| - 1 && !IsOption(args[index + 1]) {
            optionsMap := optionsMap.Put(optionName, Some(args[index + 1]));
          } else {
            optionsMap := optionsMap.Put(optionName, None);
          }
        }
      }
    }

    /** `validate`: the trunk rule over the `@CLI` options. */
    method Validate(args: seq<string>, matches: Matcher) returns (invalidOptions: set<string>)
      requires Valid()
      ensures forall name :: name in invalidOptions <==>
        name in annotatedMethods.entries &&
        var o := annotatedMethods.entries[name].cli.value;
        IsInvalid(name, o.required, o.regex, OptionsMap(SpaceOnly, aliases.entries, args).entries, matches)
    {
      invalidOptions := {};
      var optionsMap := GetOptionsMap(args);
      var names := annotatedMethods.keys;
      for i := 0 to |names|
        invariant forall name :: name in invalidOptions <==>
          name in names[..i] &&
          var o := annotatedMethods.entries[name].cli.value;
          IsInvalid(name, o.required, o.regex, optionsMap.entries, matches)
      {
        var annotationName := names[i];
        var annotation := annotatedMethods.entries[annotationName].cli.value;
        assert names[..i + 1] == names[..i] + [annotationName];
        if annotation.required && annotationName !in optionsMap.entries {
          invalidOptions := invalidOptions + {annotationName};
        } else if annotationName in optionsMap.entries && optionsMap.entries[annotationName] != None {
          var regex := annotation.regex;
          if !matches(optionsMap.entries[annotationName].value, regex) {
            invalidOptions := invalidOptions + {annotationName};
          }
        }
      }
      assert names[..|names|] == names;
    }

    /**
     * `parseArguments`: instantiate, then for each parsed entry in order that
     * names a declared option, call its setter; stop at the first failure.
     */
    method ParseArguments(args: seq<string>) returns (result: Result<Instance, BindError>)
      requires Valid()
      ensures result == Bind(targetClass, annotatedMethods, propertyEditors, OptionsMap(SpaceOnly, aliases.entries, args), args)
    {
      var message := ArraysToString(args);
      if !targetClass.instantiable {
        return Failure(Reflective(message));
      }
      var targetInstance: Instance := map[];
      var argsMap := GetOptionsMap(args);
      var names := argsMap.keys;
      ghost var whole := LegacyBindFrom(names, 0, annotatedMethods.entries, propertyEditors, argsMap.entries, message, map[]);
      for i := 0 to |names|
        invariant whole == LegacyBindFrom(names, i, annotatedMethods.entries, propertyEditors, argsMap.entries, message, targetInstance)
      {
        var optionName := names[i];
        if optionName in annotatedMethods.entries {
          var setter := annotatedMethods.entries[optionName];
          var invoked := Invoke(setter.cli.value.flag, setter, propertyEditors, WithoutFile, argsMap.entries[optionName], message);
          if invoked.Failure? {
            return Failure(invoked.error);
          }
          targetInstance := targetInstance[optionName := invoked.value];
        }
      }
      return Success(targetInstance);
    }
  }
}
