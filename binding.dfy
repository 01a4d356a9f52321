/**
 * The reference definitions behind `validate` and `parseArguments`: the
 * per-option validity rule, and the two binding walks (the trunk one over
 * the declared options, with defaults; the legacy one over the parsed
 * entries, without). The target instance is a map from option name to the
 * value its setter received; a name not in it keeps the field's own default.
 */
module Binding {
  import opened Wrappers
  import opened Descriptors
  import opened Coercion

  /** `String.matches(regex)`, supplied by the caller: (text, regex) -> matches. */
  type Matcher = (string, string) -> bool

  /** The new target instance after its setters ran. */
  type Instance = map<string, Value>

  /**
   * `validate`'s rule for one declared option: required and absent, or
   * present with a non-null text the regex rejects.
   */
  predicate IsInvalid(name: string, required: bool, regex: string,
                      options: map<string, Option<string>>, matches: Matcher): (invalid: bool)
    ensures invalid ==> (required && name !in options) || (name in options && options[name].Some?)
    ensures name in options && options[name] == None ==> !invalid
  {
    if required && name !in options then true
    else if name in options && options[name] != None then !matches(options[name].value, regex)
    else false
  }

  /** Spelled out: a present required option with null text is valid. */
  lemma InvalidExactly(name: string, required: bool, regex: string,
                       options: map<string, Option<string>>, matches: Matcher)
    ensures IsInvalid(name, required, regex, options, matches) <==>
      (required && name !in options) ||
      (name in options && options[name].Some? && !matches(options[name].value, regex))
    ensures name in options && options[name] == None ==> !IsInvalid(name, required, regex, options, matches)
  {
  }

  // ---------------------------------------------------------------------
  // Trunk parseArguments: a walk over the declared options
  // ---------------------------------------------------------------------

  /** Each declared name is bound to a method carrying `@CLIOption`. */
  ghost predicate Declares(keys: seq<string>, methods: map<string, JavaMethod>) {
    forall k :: k in keys ==> k in methods && methods[k].cliOption.Some?
  }

  /**
   * The text a declared option's setter is called with: its parsed text
   * when present, else its non-empty default, else nothing (no call).
   */
  function Wanted(name: string, o: CLIOption, options: map<string, Option<string>>): Option<Option<string>> {
    if name in options then Some(options[name])
    else if o.defaultValue != "" then Some(Some(o.defaultValue))
    else None
  }

  /** The walk from the `i`th declared option on, with the instance built so far. */
  function BindFrom(keys: seq<string>, i: nat, methods: map<string, JavaMethod>,
                    editors: map<TypeTag, Editor>, options: map<string, Option<string>>,
                    message: string, inst: Instance): (r: Result<Instance, BindError>)
    requires i <= |keys| && Declares(keys, methods)
    ensures r.Failure? ==> r.error == ParseFailure || r.error == Reflective(message)
    ensures r.Success? ==> inst.Keys <= r.value.Keys
    decreases |keys| - i
  {
    if i == |keys| then Success(inst)
    else
      var name := keys[i];
      var m := methods[name];
      var o := m.cliOption.value;
      match Wanted(name, o, options)
      case None => BindFrom(keys, i + 1, methods, editors, options, message, inst)
      case Some(text) =>
        match Invoke(o.flag, m, editors, WithFile, text, message)
        case Failure(e) => Failure(e)
        case Success(v) => BindFrom(keys, i + 1, methods, editors, options, message, inst[name := v])
  }

  /** The call the walk makes for a declared option (only meaningful when Wanted is Some). */
  function InvokeFor(name: string, methods: map<string, JavaMethod>, editors: map<TypeTag, Editor>,
                     options: map<string, Option<string>>, message: string): Result<Value, BindError>
    requires name in methods && methods[name].cliOption.Some?
    requires Wanted(name, methods[name].cliOption.value, options).Some?
  {
    var m := methods[name];
    Invoke(m.cliOption.value.flag, m, editors, WithFile, Wanted(name, m.cliOption.value, options).value, message)
  }

  /**
   * A walk that succeeds calls exactly the wanted setters of the remaining
   * options, each with its coerced text, and leaves every other entry as it was.
   */
  lemma {:induction false} BindFromSuccess(keys: seq<string>, i: nat, methods: map<string, JavaMethod>,
                                           editors: map<TypeTag, Editor>, options: map<string, Option<string>>,
                                           message: string, inst: Instance, r: Instance)
    requires i <= |keys| && Declares(keys, methods)
    requires forall p, q :: 0 <= p < q < |keys| ==> keys[p] != keys[q]
    requires BindFrom(keys, i, methods, editors, options, message, inst) == Success(r)
    ensures forall j :: i <= j < |keys| ==>
      var name := keys[j];
      (name in r <==> name in inst || Wanted(name, methods[name].cliOption.value, options).Some?) &&
      (Wanted(name, methods[name].cliOption.value, options).Some? ==>
        InvokeFor(name, methods, editors, options, message) == Success(r[name]))
    ensures forall n :: n !in keys[i..] ==> (n in r <==> n in inst) && (n in inst ==> r[n] == inst[n])
    decreases |keys| - i
  {
    if i < |keys| {
      var name := keys[i];
      var o := methods[name].cliOption.value;
      var next := match Wanted(name, o, options)
        case None => inst
        case Some(_) => inst[name := InvokeFor(name, methods, editors, options, message).value];
      BindFromSuccess(keys, i + 1, methods, editors, options, message, next, r);
      assert forall j :: i < j < |keys| ==> keys[j] != name;
      assert keys[i..] == [name] + keys[i + 1..];
    }
  }

  /**
   * A failed walk failed on the first wanted option whose call fails, with
   * that call's error: every wanted call before it succeeded.
   */
  lemma {:induction false} BindFromFailure(keys: seq<string>, i: nat, methods: map<string, JavaMethod>,
                                           editors: map<TypeTag, Editor>, options: map<string, Option<string>>,
                                           message: string, inst: Instance, e: BindError)
    requires i <= |keys| && Declares(keys, methods)
    requires BindFrom(keys, i, methods, editors, options, message, inst) == Failure(e)
    ensures exists j :: (i <= j < |keys| &&
                         Wanted(keys[j], methods[keys[j]].cliOption.value, options).Some? &&
                         InvokeFor(keys[j], methods, editors, options, message) == Failure(e) &&
                         forall j' :: i <= j' < j && Wanted(keys[j'], methods[keys[j']].cliOption.value, options).Some? ==>
                           InvokeFor(keys[j'], methods, editors, options, message).Success?)
    decreases |keys| - i
  {
    var name := keys[i];
    var o := methods[name].cliOption.value;
    if Wanted(name, o, options).Some? && InvokeFor(name, methods, editors, options, message).Failure? {
      assert InvokeFor(keys[i], methods, editors, options, message) == Failure(e);
    } else {
      var next := if Wanted(name, o, options).None? then inst
        else inst[name := InvokeFor(name, methods, editors, options, message).value];
      BindFromFailure(keys, i + 1, methods, editors, options, message, next, e);
      var j :| i + 1 <= j < |keys| &&
        Wanted(keys[j], methods[keys[j]].cliOption.value, options).Some? &&
        InvokeFor(keys[j], methods, editors, options, message) == Failure(e) &&
        forall j' :: i + 1 <= j' < j && Wanted(keys[j'], methods[keys[j']].cliOption.value, options).Some? ==>
          InvokeFor(keys[j'], methods, editors, options, message).Success?;
      assert forall j' :: i <= j' < j && Wanted(keys[j'], methods[keys[j']].cliOption.value, options).Some? ==>
        InvokeFor(keys[j'], methods, editors, options, message).Success?;
    }
  }

  /** When every wanted call succeeds, the walk succeeds. */
  lemma {:induction false} BindFromTotal(keys: seq<string>, i: nat, methods: map<string, JavaMethod>,
                                         editors: map<TypeTag, Editor>, options: map<string, Option<string>>,
                                         message: string, inst: Instance)
    requires i <= |keys| && Declares(keys, methods)
    requires forall j :: i <= j < |keys| && Wanted(keys[j], methods[keys[j]].cliOption.value, options).Some? ==>
      InvokeFor(keys[j], methods, editors, options, message).Success?
    ensures BindFrom(keys, i, methods, editors, options, message, inst).Success?
    decreases |keys| - i
  {
    if i < |keys| {
      var name := keys[i];
      var o := methods[name].cliOption.value;
      var next := if Wanted(name, o, options).None? then inst
        else inst[name := InvokeFor(name, methods, editors, options, message).value];
      BindFromTotal(keys, i + 1, methods, editors, options, message, next);
    }
  }

  // ---------------------------------------------------------------------
  // Legacy parseArguments: a walk over the parsed entries
  // ---------------------------------------------------------------------

  /**
   * The walk from the `i`th parsed entry on: an entry naming a declared
   * option calls its setter (a flag with `true`, otherwise the text coerced
   * by the table without a File branch); other entries are ignored.
   */
  function LegacyBindFrom(keys: seq<string>, i: nat, methods: map<string, JavaMethod>,
                          editors: map<TypeTag, Editor>, options: map<string, Option<string>>,
                          message: string, inst: Instance): (r: Result<Instance, BindError>)
    requires i <= |keys|
    requires forall k :: k in keys ==> k in options
    requires forall k :: k in methods ==> methods[k].cli.Some?
    ensures r.Failure? ==> r.error == ParseFailure || r.error == Reflective(message)
    ensures r.Success? ==> inst.Keys <= r.value.Keys
    decreases |keys| - i
  {
    if i == |keys| then Success(inst)
    else
      var name := keys[i];
      if name in methods then
        var m := methods[name];
        match Invoke(m.cli.value.flag, m, editors, WithoutFile, options[name], message)
        case Failure(e) => Failure(e)
        case Success(v) => LegacyBindFrom(keys, i + 1, methods, editors, options, message, inst[name := v])
      else LegacyBindFrom(keys, i + 1, methods, editors, options, message, inst)
  }

  /**
   * A legacy walk that succeeds sets exactly the declared options among the
   * remaining entries (no defaults), flags to `true` and values coerced.
   */
  lemma {:induction false} LegacyBindFromSuccess(keys: seq<string>, i: nat, methods: map<string, JavaMethod>,
                                                 editors: map<TypeTag, Editor>, options: map<string, Option<string>>,
                                                 message: string, inst: Instance, r: Instance)
    requires i <= |keys|
    requires forall k :: k in keys ==> k in options
    requires forall k :: k in methods ==> methods[k].cli.Some?
    requires forall p, q :: 0 <= p < q < |keys| ==> keys[p] != keys[q]
    requires LegacyBindFrom(keys, i, methods, editors, options, message, inst) == Success(r)
    ensures forall j :: i <= j < |keys| && keys[j] in methods ==>
      keys[j] in r &&
      Invoke(methods[keys[j]].cli.value.flag, methods[keys[j]], editors, WithoutFile, options[keys[j]], message) == Success(r[keys[j]])
    ensures forall n :: n !in keys[i..] || n !in methods ==> (n in r <==> n in inst) && (n in inst ==> r[n] == inst[n])
    decreases |keys| - i
  {
    if i < |keys| {
      var name := keys[i];
      var next := if name in methods
        then inst[name := Invoke(methods[name].cli.value.flag, methods[name], editors, WithoutFile, options[name], message).value]
        else inst;
      LegacyBindFromSuccess(keys, i + 1, methods, editors, options, message, next, r);
      assert forall j :: i < j < |keys| ==> keys[j] != name;
      assert keys[i..] == [name] + keys[i + 1..];
    }
  }

  /**
   * A failed legacy walk failed on the first declared, parsed option whose
   * call fails, with that call's error: every declared entry before it succeeded.
   */
  lemma {:induction false} LegacyBindFromFailure(keys: seq<string>, i: nat, methods: map<string, JavaMethod>,
                                                 editors: map<TypeTag, Editor>, options: map<string, Option<string>>,
                                                 message: string, inst: Instance, e: BindError)
    requires i <= |keys|
    requires forall k :: k in keys ==> k in options
    requires forall k :: k in methods ==> methods[k].cli.Some?
    requires LegacyBindFrom(keys, i, methods, editors, options, message, inst) == Failure(e)
    ensures exists j :: (i <= j < |keys| && keys[j] in methods &&
                         Invoke(methods[keys[j]].cli.value.flag, methods[keys[j]], editors, WithoutFile,
                                options[keys[j]], message) == Failure(e) &&
                         forall j' :: i <= j' < j && keys[j'] in methods ==>
                           Invoke(methods[keys[j']].cli.value.flag, methods[keys[j']], editors, WithoutFile,
                                  options[keys[j']], message).Success?)
    decreases |keys| - i
  {
    var name := keys[i];
    if name in methods && Invoke(methods[name].cli.value.flag, methods[name], editors, WithoutFile, options[name], message).Failure? {
      assert Invoke(methods[keys[i]].cli.value.flag, methods[keys[i]], editors, WithoutFile, options[keys[i]], message) == Failure(e);
    } else {
      var next := if name in methods
        then inst[name := Invoke(methods[name].cli.value.flag, methods[name], editors, WithoutFile, options[name], message).value]
        else inst;
      LegacyBindFromFailure(keys, i + 1, methods, editors, options, message, next, e);
      var j :| i + 1 <= j < |keys| && keys[j] in methods &&
        Invoke(methods[keys[j]].cli.value.flag, methods[keys[j]], editors, WithoutFile, options[keys[j]], message) == Failure(e) &&
        forall j' :: i + 1 <= j' < j && keys[j'] in methods ==>
          Invoke(methods[keys[j']].cli.value.flag, methods[keys[j']], editors, WithoutFile, options[keys[j']], message).Success?;
      assert forall j' :: i <= j' < j && keys[j'] in methods ==>
        Invoke(methods[keys[j']].cli.value.flag, methods[keys[j']], editors, WithoutFile, options[keys[j']], message).Success?;
    }
  }
}
