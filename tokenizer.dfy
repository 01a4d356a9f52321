/**
 * The reference definition of `getOptionsMap` / `parseCliOptions`: the
 * arguments are scanned left to right, and every token starting with '-'
 * puts one (name, value) entry into a LinkedHashMap. The scan never skips
 * the token it took as a value; that token does not start with '-', so it
 * never puts an entry of its own.
 */
module Tokenizer {
  import opened Wrappers
  import opened JavaText
  import opened LinkedMaps

  /**
   * `EqualsForm`: `-k=v` splits at the first '=' (trunk and `Utils`).
   * `SpaceOnly`: no '=' form; the whole token after the dash is the name
   * (legacy).
   */
  datatype Syntax = EqualsForm | SpaceOnly

  datatype Entry = Entry(name: string, value: Option<string>)

  /** The parsed map: option name to its text, None standing for null. */
  type Options = LinkedMap<string, Option<string>>

  /** The entry of option token `i` before alias resolution. */
  function RawEntry(syntax: Syntax, args: seq<string>, i: nat): (e: Entry)
    requires i < |args| && IsOption(args[i])
    ensures syntax == EqualsForm && '=' in args[i] ==>
      e.value.Some? && '=' !in e.name && args[i] == "-" + e.name + "=" + e.value.value
    ensures !(syntax == EqualsForm && '=' in args[i]) ==> e.name == args[i][1..]
  {
    var optionName := args[i][1..];
    if syntax == EqualsForm && '=' in args[i] then
      assert args[i] == [args[i][0]] + optionName;
      var k := IndexOf(optionName, '=');
      Entry(optionName[..k], Some(optionName[k + 1..]))
    else if i < |args| - 1 && !IsOption(args[i + 1]) then
      Entry(optionName, Some(args[i + 1]))
    else
      Entry(optionName, None)
  }

  /** A name registered as an alias is replaced by its option's name. */
  function Resolve(aliases: map<string, string>, name: string): string {
    if name in aliases then aliases[name] else name
  }

  /** The entry option token `i` puts into the map. */
  function EntryAt(syntax: Syntax, aliases: map<string, string>, args: seq<string>, i: nat): Entry
    requires i < |args| && IsOption(args[i])
  {
    var e := RawEntry(syntax, args, i);
    Entry(Resolve(aliases, e.name), e.value)
  }

  /** The map after the scan has visited the first `n` tokens. */
  function OptionsUpTo(syntax: Syntax, aliases: map<string, string>, args: seq<string>, n: nat): (m: Options)
    requires n <= |args|
    ensures m.Valid()
  {
    if n == 0 then Empty()
    else
      var m := OptionsUpTo(syntax, aliases, args, n - 1);
      if IsOption(args[n - 1]) then
        var e := EntryAt(syntax, aliases, args, n - 1);
        m.Put(e.name, e.value)
      else m
  }

  /** The whole scan. */
  function OptionsMap(syntax: Syntax, aliases: map<string, string>, args: seq<string>): Options {
    OptionsUpTo(syntax, aliases, args, |args|)
  }

  /** How many of the first `n` tokens start with '-'. */
  function OptionTokenCount(args: seq<string>, n: nat): nat
    requires n <= |args|
  {
    if n == 0 then 0
    else OptionTokenCount(args, n - 1) + (if IsOption(args[n - 1]) then 1 else 0)
  }

  // ---------------------------------------------------------------------
  // Properties of the whole scan
  // ---------------------------------------------------------------------

  /** A name is a key exactly when some option token puts it. */
  lemma {:induction false} KeysComeFromOptionTokens(syntax: Syntax, aliases: map<string, string>, args: seq<string>, n: nat, k: string)
    requires n <= |args|
    ensures k in OptionsUpTo(syntax, aliases, args, n).entries <==>
      exists i :: 0 <= i < n && IsOption(args[i]) && EntryAt(syntax, aliases, args, i).name == k
  {
    if n > 0 {
      KeysComeFromOptionTokens(syntax, aliases, args, n - 1, k);
      if IsOption(args[n - 1]) && EntryAt(syntax, aliases, args, n - 1).name == k {
        assert k in OptionsUpTo(syntax, aliases, args, n).entries;
      }
    }
  }

  /** The last option token putting a name decides its value. */
  lemma {:induction false} LastOccurrenceWins(syntax: Syntax, aliases: map<string, string>, args: seq<string>, n: nat, i: nat)
    requires i < n <= |args| && IsOption(args[i])
    requires forall j :: i < j < n && IsOption(args[j]) ==>
      EntryAt(syntax, aliases, args, j).name != EntryAt(syntax, aliases, args, i).name
    ensures var e := EntryAt(syntax, aliases, args, i);
      e.name in OptionsUpTo(syntax, aliases, args, n).entries &&
      OptionsUpTo(syntax, aliases, args, n).entries[e.name] == e.value
  {
    if i < n - 1 {
      LastOccurrenceWins(syntax, aliases, args, n - 1, i);
    }
  }

  /** The map has no more entries than there are tokens starting with '-'. */
  lemma {:induction false} EntriesBoundedByOptionTokens(syntax: Syntax, aliases: map<string, string>, args: seq<string>, n: nat)
    requires n <= |args|
    ensures |OptionsUpTo(syntax, aliases, args, n).keys| <= OptionTokenCount(args, n)
    ensures |OptionsUpTo(syntax, aliases, args, n).entries| <= OptionTokenCount(args, n)
  {
    if n > 0 {
      EntriesBoundedByOptionTokens(syntax, aliases, args, n - 1);
    }
    CardinalityAgrees(OptionsUpTo(syntax, aliases, args, n));
  }

  /** No arguments, no options. */
  lemma NoArgumentsNoOptions(syntax: Syntax, aliases: map<string, string>)
    ensures OptionsMap(syntax, aliases, []) == Empty()
  {
  }

  // ---------------------------------------------------------------------
  // Properties of one token
  // ---------------------------------------------------------------------

  /**
   * With the '=' form, `-k=v` (k free of '=') gives k and v, whatever v holds,
   * even nothing or further '='.
   */
  lemma EqualsFormSplitsAtFirstEquals(args: seq<string>, i: nat, k: string, v: string)
    requires i < |args| && args[i] == "-" + k + "=" + v && '=' !in k
    ensures RawEntry(EqualsForm, args, i) == Entry(k, Some(v))
  {
    var optionName := args[i][1..];
    assert optionName == k + "=" + v;
    assert optionName[|k|] == '=';
    assert '=' in args[i] by { assert args[i][|k| + 1] == '='; }
    assert optionName[..|k|] == k;
  }

  /**
   * A token without '=' takes the next token as its value when that exists
   * and does not start with '-'; otherwise its value is null.
   */
  lemma SpaceFormTakesNextToken(syntax: Syntax, args: seq<string>, i: nat)
    requires i < |args| && IsOption(args[i]) && '=' !in args[i]
    ensures RawEntry(syntax, args, i).name == args[i][1..]
    ensures i + 1 < |args| && !IsOption(args[i + 1]) ==> RawEntry(syntax, args, i).value == Some(args[i + 1])
    ensures i + 1 == |args| || IsOption(args[i + 1]) ==> RawEntry(syntax, args, i).value == None
  {
  }

  /** Without the '=' form, `-k=v` is the option named `k=v`: the whole token after the dash. */
  lemma SpaceOnlyKeepsWholeToken(args: seq<string>, i: nat)
    requires i < |args| && IsOption(args[i])
    ensures RawEntry(SpaceOnly, args, i).name == args[i][1..]
  {
  }

  /** `-k=v` and `-k v` (v not starting with '-') give the same map. */
  lemma EqualsAndSpaceFormsAgree(aliases: map<string, string>, k: string, v: string)
    requires '=' !in k && !IsOption(v)
    ensures OptionsMap(EqualsForm, aliases, ["-" + k + "=" + v]) == OptionsMap(EqualsForm, aliases, ["-" + k, v])
  {
    var one := ["-" + k + "=" + v];
    var two := ["-" + k, v];
    EqualsFormSplitsAtFirstEquals(one, 0, k, v);
    assert '=' !in two[0] by {
      assert forall j :: 0 < j < |two[0]| ==> two[0][j] == k[j - 1];
    }
    SpaceFormTakesNextToken(EqualsForm, two, 0);
    assert two[0][1..] == k;
    var e := EntryAt(EqualsForm, aliases, one, 0);
    assert e == EntryAt(EqualsForm, aliases, two, 0);
    assert OptionsUpTo(EqualsForm, aliases, one, 1) == Empty<string, Option<string>>().Put(e.name, e.value);
    assert OptionsUpTo(EqualsForm, aliases, two, 1) == Empty<string, Option<string>>().Put(e.name, e.value);
    assert !IsOption(two[1]);
    assert OptionsUpTo(EqualsForm, aliases, two, 2) == OptionsUpTo(EqualsForm, aliases, two, 1);
  }

  /**
   * An alias and its option's name give the same map, provided the name is
   * not itself registered as an alias.
   */
  lemma AliasAndNameAgree(syntax: Syntax, aliases: map<string, string>, alias: string, name: string, v: string)
    requires alias in aliases && aliases[alias] == name && name !in aliases
    requires '=' !in alias && '=' !in name && !IsOption(v)
    ensures OptionsMap(syntax, aliases, ["-" + alias, v]) == OptionsMap(syntax, aliases, ["-" + name, v])
  {
    var a := ["-" + alias, v];
    var b := ["-" + name, v];
    assert '=' !in a[0] by { assert forall j :: 0 < j < |a[0]| ==> a[0][j] == alias[j - 1]; }
    assert '=' !in b[0] by { assert forall j :: 0 < j < |b[0]| ==> b[0][j] == name[j - 1]; }
    assert a[0][1..] == alias && b[0][1..] == name;
    SpaceFormTakesNextToken(syntax, a, 0);
    SpaceFormTakesNextToken(syntax, b, 0);
    var e := EntryAt(syntax, aliases, a, 0);
    assert e == EntryAt(syntax, aliases, b, 0);
    assert OptionsUpTo(syntax, aliases, a, 1) == Empty<string, Option<string>>().Put(e.name, e.value);
    assert OptionsUpTo(syntax, aliases, b, 1) == Empty<string, Option<string>>().Put(e.name, e.value);
    assert OptionsUpTo(syntax, aliases, a, 2) == OptionsUpTo(syntax, aliases, a, 1);
    assert OptionsUpTo(syntax, aliases, b, 2) == OptionsUpTo(syntax, aliases, b, 1);
  }
}
