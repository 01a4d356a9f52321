/** `Utils.parseCliOptions`: the trunk scan without aliases. */
module CliUtils {
  import opened Wrappers
  import opened LinkedMaps
  import opened JavaText
  import opened Tokenizer

  /** Parse raw arguments into a name-to-text map: `-k=v`, `-k v`, or a bare `-k` (null). */
  method ParseCliOptions(args: seq<string>) returns (optionsMap: Options)
    ensures optionsMap == OptionsMap(EqualsForm, map[], args)
  {
    optionsMap := Empty();
    for index := 0 to |args|
      invariant optionsMap == OptionsUpTo(EqualsForm, map[], args, index)
    {
      var arg := args[index];
      if IsOption(arg) {
        var optionName := arg[1..];
        var value: Option<string>;
        if '=' in arg {
          assert arg == [arg[0]] + optionName;
          var k := IndexOf(optionName, '=');
          value := Some(optionName[k + 1..]);
          optionName := optionName[..k];
        } else if index < |args| - 1 && !IsOption(args[index + 1]) {
          value := Some(args[index + 1]);
        } else {
          value := None;
        }
        optionsMap := optionsMap.Put(optionName, value);
      }
    }
  }

  /**
   * `-k=` gives k an empty text; without aliases each name is the token's
   * own, so `parseCliOptions` is the trunk scan with an empty alias table.
   */
  lemma EmptyTextAfterEquals(k: string)
    requires '=' !in k
    ensures OptionsMap(EqualsForm, map[], ["-" + k + "="]).entries == map[k := Some("")]
  {
    var args := ["-" + k + "="];
    assert args[0] == "-" + k + "=" + "";
    EqualsFormSplitsAtFirstEquals(args, 0, k, "");
    assert EntryAt(EqualsForm, map[], args, 0) == Entry(k, Some(""));
    assert IsOption(args[0]);
    assert OptionsUpTo(EqualsForm, map[], args, 1) == OptionsUpTo(EqualsForm, map[], args, 0).Put(k, Some(""));
    assert OptionsMap(EqualsForm, map[], args) == Empty<string, Option<string>>().Put(k, Some(""));
  }
}
