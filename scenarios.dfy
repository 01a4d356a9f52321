/**
 * The behaviour the JUnit suite checks, replayed against the trunk parser.
 * The fixture classes are explicit method sequences; each scenario lemma
 * computes what the specification functions give for one test's
 * arguments, and each test method builds a parser and asserts what the
 * test asserts. The regex engine and the date editor are parameters, with
 * the answers the test relies on as preconditions.
 */
module Scenarios {
  import opened Wrappers
  import opened LinkedMaps
  import opened JavaText
  import opened Descriptors
  import opened Coercion
  import opened Tokenizer
  import opened Binding
  import opened TrunkParser

  // ---------------------------------------------------------------------
  // TestClass
  // ---------------------------------------------------------------------

  const MyPropertySetter := JavaMethod(Some(CLIOption("myproperty", description := "Basic property")), None, ClassType("String"))
  const UppercaseSetter := JavaMethod(Some(CLIOption("uppercase", description := "Basic flag", flag := true)),
                                      None, Prim(Boolean, false))
  const RequiredSetter := JavaMethod(Some(CLIOption("requiredProperty", description := "Basic required property",
                                                    flag := true, required := true)), None, Prim(Boolean, false))
  const NumberSetter := JavaMethod(Some(CLIOption("number", regex := "[0-9]*")), None, Prim(Int, false))
  const DateSetter := JavaMethod(Some(CLIOption("date")), None, ClassType("Date"))
  const AliasedSetter := JavaMethod(Some(CLIOption("aliased", alias := ["a"], required := true)), None, ClassType("String"))

  const TestMethods := [MyPropertySetter, UppercaseSetter, RequiredSetter, NumberSetter, DateSetter, AliasedSetter]
  const TestClass := TargetClass(TestMethods)

  const TestDeclared := LinkedMap(
    ["myproperty", "uppercase", "requiredProperty", "number", "date", "aliased"],
    map["myproperty" := MyPropertySetter, "uppercase" := UppercaseSetter, "requiredProperty" := RequiredSetter,
        "number" := NumberSetter, "date" := DateSetter, "aliased" := AliasedSetter])
  const TestAliasTable := map["a" := "aliased"]

  lemma TestClassDeclaredFront()
    ensures DeclaredUpTo(TestMethods, 3) == LinkedMap(
      ["myproperty", "uppercase", "requiredProperty"],
      map["myproperty" := MyPropertySetter, "uppercase" := UppercaseSetter, "requiredProperty" := RequiredSetter])
  {
    var ms := TestMethods;
    assert DeclaredUpTo(ms, 1) == LinkedMap(["myproperty"], map["myproperty" := MyPropertySetter]);
    assert DeclaredUpTo(ms, 2) == LinkedMap(["myproperty", "uppercase"],
      map["myproperty" := MyPropertySetter, "uppercase" := UppercaseSetter]);
  }

  /** The parser's option table for `TestClass`: every setter, in declaration order. */
  lemma TestClassDeclared()
    ensures DeclaredUpTo(TestMethods, 6) == LinkedMap(
      ["myproperty", "uppercase", "requiredProperty", "number", "date", "aliased"],
      map["myproperty" := MyPropertySetter, "uppercase" := UppercaseSetter, "requiredProperty" := RequiredSetter,
          "number" := NumberSetter, "date" := DateSetter, "aliased" := AliasedSetter])
  {
    var ms := TestMethods;
    TestClassDeclaredFront();
    assert DeclaredUpTo(ms, 4) == LinkedMap(["myproperty", "uppercase", "requiredProperty", "number"],
      map["myproperty" := MyPropertySetter, "uppercase" := UppercaseSetter, "requiredProperty" := RequiredSetter,
          "number" := NumberSetter]);
    assert DeclaredUpTo(ms, 5) == LinkedMap(["myproperty", "uppercase", "requiredProperty", "number", "date"],
      map["myproperty" := MyPropertySetter, "uppercase" := UppercaseSetter, "requiredProperty" := RequiredSetter,
          "number" := NumberSetter, "date" := DateSetter]);
  }

  lemma TestDeclaredDeclares()
    ensures Declares(TestDeclared.keys, TestDeclared.entries)
  {
  }

  /** The parser's alias table for `TestClass`: `a` for `aliased`. */
  lemma TestClassAliases()
    ensures AliasesUpTo(TestMethods, 6).entries == map["a" := "aliased"]
  {
    var ms := TestMethods;
    assert AliasesUpTo(ms, 1) == Empty();
    assert AliasesUpTo(ms, 2) == Empty();
    assert AliasesUpTo(ms, 3) == Empty();
    assert AliasesUpTo(ms, 4) == Empty();
    assert AliasesUpTo(ms, 5) == Empty();
    assert AliasesUpTo(ms, 6) == AddAliases(Empty(), ["a"], "aliased");
  }

  /** A parser over `TestClass` holds the tables above. */
  method NewTestParser() returns (instance: CommandLineParser)
    ensures instance.Valid() && instance.targetClass == TestClass && instance.propertyEditors == map[]
    ensures instance.annotatedMethods == TestDeclared && instance.aliases.entries == TestAliasTable
    ensures fresh(instance)
  {
    instance := new CommandLineParser(TestClass);
    TestClassDeclared();
    TestClassAliases();
  }

  // testParseArguments, first call

  lemma OptionsHelloWorld()
    ensures OptionsMap(EqualsForm, TestAliasTable, ["-myproperty", "Hello world", "-requiredProperty"]).entries
      == map["myproperty" := Some("Hello world"), "requiredProperty" := None]
  {
    var args := ["-myproperty", "Hello world", "-requiredProperty"];
    assert IsOption(args[0]) && !IsOption(args[1]) && IsOption(args[2]);
    assert '=' !in args[0] && '=' !in args[2];
    assert args[0][1..] == "myproperty" && args[2][1..] == "requiredProperty";
    assert EntryAt(EqualsForm, TestAliasTable, args, 0) == Entry("myproperty", Some("Hello world"));
    assert EntryAt(EqualsForm, TestAliasTable, args, 2) == Entry("requiredProperty", None);
    assert OptionsUpTo(EqualsForm, TestAliasTable, args, 1) == Empty().Put("myproperty", Some("Hello world"));
    assert OptionsUpTo(EqualsForm, TestAliasTable, args, 2) == OptionsUpTo(EqualsForm, TestAliasTable, args, 1);
    assert OptionsUpTo(EqualsForm, TestAliasTable, args, 3)
      == OptionsUpTo(EqualsForm, TestAliasTable, args, 2).Put("requiredProperty", None);
  }

  /** The text after `-myproperty` is bound; the flag is set; nothing else is. */
  lemma ParseHelloWorld(message: string)
    ensures BindFrom(TestDeclared.keys, 0, TestDeclared.entries, map[],
                     map["myproperty" := Some("Hello world"), "requiredProperty" := None], message, map[])
      == Success(map["myproperty" := StrV(Some("Hello world")), "requiredProperty" := BoolV(true)])
  {
    TestDeclaredDeclares();
    var options := map["myproperty" := Some("Hello world"), "requiredProperty" := None];
    var keys := TestDeclared.keys;
    var methods := TestDeclared.entries;
    var one := map["myproperty" := StrV(Some("Hello world"))];
    var two := one["requiredProperty" := BoolV(true)];
    calc {
      BindFrom(keys, 0, methods, map[], options, message, map[]);
      BindFrom(keys, 1, methods, map[], options, message, one);
      BindFrom(keys, 2, methods, map[], options, message, one);
      BindFrom(keys, 3, methods, map[], options, message, two);
      BindFrom(keys, 4, methods, map[], options, message, two);
      BindFrom(keys, 5, methods, map[], options, message, two);
      BindFrom(keys, 6, methods, map[], options, message, two);
    }
  }

  method TestParseArguments() {
    var instance := NewTestParser();
    var args := ["-myproperty", "Hello world", "-requiredProperty"];
    var result := instance.ParseArguments(args);
    OptionsHelloWorld();
    ParseHelloWorld(ArraysToString(args));
    assert result.Success? && result.value["myproperty"] == StrV(Some("Hello world"));
  }

  // testParseArguments, second call: a flag between options

  lemma OptionsHelloWorld2()
    ensures OptionsMap(EqualsForm, TestAliasTable, ["-myproperty", "Hello World 2", "-uppercase", "-requiredProperty"]).entries
      == map["myproperty" := Some("Hello World 2"), "uppercase" := None, "requiredProperty" := None]
  {
    var args := ["-myproperty", "Hello World 2", "-uppercase", "-requiredProperty"];
    assert IsOption(args[0]) && !IsOption(args[1]) && IsOption(args[2]) && IsOption(args[3]);
    assert '=' !in args[0] && '=' !in args[2] && '=' !in args[3];
    assert args[0][1..] == "myproperty" && args[2][1..] == "uppercase" && args[3][1..] == "requiredProperty";
    assert EntryAt(EqualsForm, TestAliasTable, args, 0) == Entry("myproperty", Some("Hello World 2"));
    assert EntryAt(EqualsForm, TestAliasTable, args, 2) == Entry("uppercase", None);
    assert EntryAt(EqualsForm, TestAliasTable, args, 3) == Entry("requiredProperty", None);
    assert OptionsUpTo(EqualsForm, TestAliasTable, args, 1) == Empty().Put("myproperty", Some("Hello World 2"));
    assert OptionsUpTo(EqualsForm, TestAliasTable, args, 2) == OptionsUpTo(EqualsForm, TestAliasTable, args, 1);
    assert OptionsUpTo(EqualsForm, TestAliasTable, args, 3)
      == OptionsUpTo(EqualsForm, TestAliasTable, args, 2).Put("uppercase", None);
    assert OptionsUpTo(EqualsForm, TestAliasTable, args, 4)
      == OptionsUpTo(EqualsForm, TestAliasTable, args, 3).Put("requiredProperty", None);
  }

  lemma ParseHelloWorld2(message: string)
    ensures BindFrom(TestDeclared.keys, 0, TestDeclared.entries, map[],
                     map["myproperty" := Some("Hello World 2"), "uppercase" := None, "requiredProperty" := None],
                     message, map[])
      == Success(map["myproperty" := StrV(Some("Hello World 2")), "uppercase" := BoolV(true), "requiredProperty" := BoolV(true)])
  {
    TestDeclaredDeclares();
    var options := map["myproperty" := Some("Hello World 2"), "uppercase" := None, "requiredProperty" := None];
    var keys := TestDeclared.keys;
    var methods := TestDeclared.entries;
    var one := map["myproperty" := StrV(Some("Hello World 2"))];
    var two := one["uppercase" := BoolV(true)];
    var three := two["requiredProperty" := BoolV(true)];
    calc {
      BindFrom(keys, 0, methods, map[], options, message, map[]);
      BindFrom(keys, 1, methods, map[], options, message, one);
      BindFrom(keys, 2, methods, map[], options, message, two);
      BindFrom(keys, 3, methods, map[], options, message, three);
      BindFrom(keys, 4, methods, map[], options, message, three);
      BindFrom(keys, 5, methods, map[], options, message, three);
      BindFrom(keys, 6, methods, map[], options, message, three);
    }
  }

  // testParseArguments, third call: an int despite the missing required options

  lemma OptionsNumber()
    ensures OptionsMap(EqualsForm, TestAliasTable, ["-number", "1"]).entries == map["number" := Some("1")]
  {
    var args := ["-number", "1"];
    assert IsOption(args[0]) && !IsOption(args[1]);
    assert '=' !in args[0] && args[0][1..] == "number";
    assert EntryAt(EqualsForm, TestAliasTable, args, 0) == Entry("number", Some("1"));
    assert OptionsUpTo(EqualsForm, TestAliasTable, args, 1) == Empty().Put("number", Some("1"));
  }

  lemma ParseNumber(message: string)
    ensures BindFrom(TestDeclared.keys, 0, TestDeclared.entries, map[], map["number" := Some("1")], message, map[])
      == Success(map["number" := IntV(Int, 1)])
  {
    TestDeclaredDeclares();
    var options := map["number" := Some("1")];
    var keys := TestDeclared.keys;
    var methods := TestDeclared.entries;
    var one := map["number" := IntV(Int, 1)];
    assert ToDecimal(1) == "1";
    IntegerRoundTrip(1, Lo(Int), Hi(Int));
    calc {
      BindFrom(keys, 0, methods, map[], options, message, map[]);
      BindFrom(keys, 3, methods, map[], options, message, map[]);
      BindFrom(keys, 4, methods, map[], options, message, one);
      BindFrom(keys, 6, methods, map[], options, message, one);
    }
  }

  // testParseArguments, fourth call: the '=' form

  lemma OptionsEqualsValue()
    ensures OptionsMap(EqualsForm, TestAliasTable, ["-myproperty=value"]).entries == map["myproperty" := Some("value")]
  {
    var args := ["-myproperty=value"];
    assert args[0] == "-" + "myproperty" + "=" + "value";
    EqualsFormSplitsAtFirstEquals(args, 0, "myproperty", "value");
    assert EntryAt(EqualsForm, TestAliasTable, args, 0) == Entry("myproperty", Some("value"));
    assert IsOption(args[0]);
    assert OptionsUpTo(EqualsForm, TestAliasTable, args, 1) == Empty().Put("myproperty", Some("value"));
  }

  lemma ParseEqualsValue(message: string)
    ensures BindFrom(TestDeclared.keys, 0, TestDeclared.entries, map[], map["myproperty" := Some("value")], message, map[])
      == Success(map["myproperty" := StrV(Some("value"))])
  {
    TestDeclaredDeclares();
    var options := map["myproperty" := Some("value")];
    var keys := TestDeclared.keys;
    var methods := TestDeclared.entries;
    var one := map["myproperty" := StrV(Some("value"))];
    calc {
      BindFrom(keys, 0, methods, map[], options, message, map[]);
      BindFrom(keys, 1, methods, map[], options, message, one);
      BindFrom(keys, 6, methods, map[], options, message, one);
    }
  }

  method TestParseArgumentsContinued() {
    var instance := NewTestParser();
    var args := ["-myproperty", "Hello World 2", "-uppercase", "-requiredProperty"];
    var result := instance.ParseArguments(args);
    OptionsHelloWorld2();
    ParseHelloWorld2(ArraysToString(args));
    assert result.Success? && result.value["myproperty"] == StrV(Some("Hello World 2"));
    assert result.value["uppercase"] == BoolV(true);

    args := ["-number", "1"];
    result := instance.ParseArguments(args);
    OptionsNumber();
    ParseNumber(ArraysToString(args));
    assert result.Success? && result.value["number"] == IntV(Int, 1);

    args := ["-myproperty=value"];
    result := instance.ParseArguments(args);
    OptionsEqualsValue();
    ParseEqualsValue(ArraysToString(args));
    assert result.Success? && result.value["myproperty"] == StrV(Some("value"));
  }

  // testPropertyEditor

  lemma OptionsDate()
    ensures OptionsMap(EqualsForm, TestAliasTable, ["-date", "01/01/1999"]).entries == map["date" := Some("01/01/1999")]
  {
    var args := ["-date", "01/01/1999"];
    assert IsOption(args[0]) && !IsOption(args[1]);
    assert '=' !in args[0] && args[0][1..] == "date";
    assert EntryAt(EqualsForm, TestAliasTable, args, 0) == Entry("date", Some("01/01/1999"));
    assert OptionsUpTo(EqualsForm, TestAliasTable, args, 1) == Empty().Put("date", Some("01/01/1999"));
  }

  /** The Date setter receives what the registered editor makes of the text; the flag stays unset. */
  lemma ParseDate(dateEditor: Editor, date: Value, message: string)
    requires dateEditor(Some("01/01/1999")) == Some(date)
    ensures BindFrom(TestDeclared.keys, 0, TestDeclared.entries, map[ClassType("Date") := dateEditor],
                     map["date" := Some("01/01/1999")], message, map[])
      == Success(map["date" := date])
  {
    TestDeclaredDeclares();
    var editors := map[ClassType("Date") := dateEditor];
    var options := map["date" := Some("01/01/1999")];
    var keys := TestDeclared.keys;
    var methods := TestDeclared.entries;
    var one := map["date" := date];
    calc {
      BindFrom(keys, 0, methods, editors, options, message, map[]);
      BindFrom(keys, 4, methods, editors, options, message, map[]);
      BindFrom(keys, 5, methods, editors, options, message, one);
      BindFrom(keys, 6, methods, editors, options, message, one);
    }
  }

  /** `dateEditor` stands for the test's SimpleDateFormat("dd/MM/yyyy") editor. */
  method TestPropertyEditor(dateEditor: Editor, date: Value)
    requires dateEditor(Some("01/01/1999")) == Some(date)
  {
    var instance := NewTestParser();
    instance.RegisterPropertyEditor(ClassType("Date"), dateEditor);
    var args := ["-date", "01/01/1999"];
    var result := instance.ParseArguments(args);
    OptionsDate();
    ParseDate(dateEditor, date, ArraysToString(args));
    assert result.Success? && result.value["date"] == date;
    assert "uppercase" !in result.value;
  }

  // testValidate and the validate calls of testAliases

  /** The names `validate` reports for `options`. */
  function Reported(declared: LinkedMap<string, JavaMethod>, options: map<string, Option<string>>, matches: Matcher): set<string>
    requires Declares(declared.keys, declared.entries)
  {
    set name | name in declared.keys &&
      var o := declared.entries[name].cliOption.value; IsInvalid(name, o.required, o.regex, options, matches)
  }

  lemma OptionsHelloWorldAlias()
    ensures OptionsMap(EqualsForm, TestAliasTable, ["-myproperty", "Hello world", "-a"]).entries
      == map["myproperty" := Some("Hello world"), "aliased" := None]
  {
    var args := ["-myproperty", "Hello world", "-a"];
    assert IsOption(args[0]) && !IsOption(args[1]) && IsOption(args[2]);
    assert '=' !in args[0] && '=' !in args[2];
    assert args[0][1..] == "myproperty" && args[2][1..] == "a";
    assert EntryAt(EqualsForm, TestAliasTable, args, 0) == Entry("myproperty", Some("Hello world"));
    assert EntryAt(EqualsForm, TestAliasTable, args, 2) == Entry("aliased", None);
    assert OptionsUpTo(EqualsForm, TestAliasTable, args, 1) == Empty().Put("myproperty", Some("Hello world"));
    assert OptionsUpTo(EqualsForm, TestAliasTable, args, 2) == OptionsUpTo(EqualsForm, TestAliasTable, args, 1);
    assert OptionsUpTo(EqualsForm, TestAliasTable, args, 3)
      == OptionsUpTo(EqualsForm, TestAliasTable, args, 2).Put("aliased", None);
  }

  /** The missing required flag is reported; the alias given without text satisfies `aliased`. */
  lemma ValidateMissingRequired(matches: Matcher)
    requires matches("Hello world", ".*")
    ensures Reported(TestDeclared, map["myproperty" := Some("Hello world"), "aliased" := None], matches) == {"requiredProperty"}
  {
    var options := map["myproperty" := Some("Hello world"), "aliased" := None];
    var reported := Reported(TestDeclared, options, matches);
    forall name ensures name in reported <==> name == "requiredProperty" {
    }
  }

  method TestValidateMissingRequired(matches: Matcher)
    requires matches("Hello world", ".*")
  {
    var instance := NewTestParser();
    var result := instance.Validate(["-myproperty", "Hello world", "-a"], matches);
    OptionsHelloWorldAlias();
    ValidateMissingRequired(matches);
    assert result == Reported(TestDeclared, map["myproperty" := Some("Hello world"), "aliased" := None], matches);
    assert |result| == 1;
  }

  lemma OptionsAllPresent()
    ensures OptionsMap(EqualsForm, TestAliasTable, ["-myproperty", "Hello world", "-requiredProperty", "-a"]).entries
      == map["myproperty" := Some("Hello world"), "requiredProperty" := None, "aliased" := None]
  {
    var args := ["-myproperty", "Hello world", "-requiredProperty", "-a"];
    assert IsOption(args[0]) && !IsOption(args[1]) && IsOption(args[2]) && IsOption(args[3]);
    assert '=' !in args[0] && '=' !in args[2] && '=' !in args[3];
    assert args[0][1..] == "myproperty" && args[2][1..] == "requiredProperty" && args[3][1..] == "a";
    assert EntryAt(EqualsForm, TestAliasTable, args, 0) == Entry("myproperty", Some("Hello world"));
    assert EntryAt(EqualsForm, TestAliasTable, args, 2) == Entry("requiredProperty", None);
    assert EntryAt(EqualsForm, TestAliasTable, args, 3) == Entry("aliased", None);
    assert OptionsUpTo(EqualsForm, TestAliasTable, args, 1) == Empty().Put("myproperty", Some("Hello world"));
    assert OptionsUpTo(EqualsForm, TestAliasTable, args, 2) == OptionsUpTo(EqualsForm, TestAliasTable, args, 1);
    assert OptionsUpTo(EqualsForm, TestAliasTable, args, 3)
      == OptionsUpTo(EqualsForm, TestAliasTable, args, 2).Put("requiredProperty", None);
    assert OptionsUpTo(EqualsForm, TestAliasTable, args, 4)
      == OptionsUpTo(EqualsForm, TestAliasTable, args, 3).Put("aliased", None);
  }

  lemma ValidateAllPresent(matches: Matcher)
    requires matches("Hello world", ".*")
    ensures Reported(TestDeclared, map["myproperty" := Some("Hello world"), "requiredProperty" := None, "aliased" := None],
                     matches) == {}
  {
    var options := map["myproperty" := Some("Hello world"), "requiredProperty" := None, "aliased" := None];
    var reported := Reported(TestDeclared, options, matches);
    forall name ensures name !in reported {
    }
  }

  lemma OptionsNumberText(text: string)
    requires text == "NaN" || text == "1"
    ensures OptionsMap(EqualsForm, TestAliasTable, ["-requiredProperty", "-a", "-number", text]).entries
      == map["requiredProperty" := None, "aliased" := None, "number" := Some(text)]
  {
    var args := ["-requiredProperty", "-a", "-number", text];
    assert IsOption(args[0]) && IsOption(args[1]) && IsOption(args[2]) && !IsOption(args[3]);
    assert '=' !in args[0] && '=' !in args[1] && '=' !in args[2];
    assert args[0][1..] == "requiredProperty" && args[1][1..] == "a" && args[2][1..] == "number";
    assert EntryAt(EqualsForm, TestAliasTable, args, 0) == Entry("requiredProperty", None);
    assert EntryAt(EqualsForm, TestAliasTable, args, 1) == Entry("aliased", None);
    assert EntryAt(EqualsForm, TestAliasTable, args, 2) == Entry("number", Some(text));
    assert OptionsUpTo(EqualsForm, TestAliasTable, args, 1) == Empty().Put("requiredProperty", None);
    assert OptionsUpTo(EqualsForm, TestAliasTable, args, 2) == OptionsUpTo(EqualsForm, TestAliasTable, args, 1).Put("aliased", None);
    assert OptionsUpTo(EqualsForm, TestAliasTable, args, 3) == OptionsUpTo(EqualsForm, TestAliasTable, args, 2).Put("number", Some(text));
    assert OptionsUpTo(EqualsForm, TestAliasTable, args, 4) == OptionsUpTo(EqualsForm, TestAliasTable, args, 3);
  }

  /** A present text the option's regex rejects is reported, and only then. */
  lemma ValidateNumberText(matches: Matcher, text: string)
    ensures Reported(TestDeclared, map["requiredProperty" := None, "aliased" := None, "number" := Some(text)], matches)
      == if matches(text, "[0-9]*") then {} else {"number"}
  {
    var options := map["requiredProperty" := None, "aliased" := None, "number" := Some(text)];
    var reported := Reported(TestDeclared, options, matches);
    forall name ensures name in reported <==> name == "number" && !matches(text, "[0-9]*") {
    }
  }

  method TestValidate(matches: Matcher)
    requires matches("Hello world", ".*")
    requires !matches("NaN", "[0-9]*") && matches("1", "[0-9]*")
  {
    TestValidateAllPresent(matches);
    TestValidateNumberText(matches, "NaN");
    TestValidateNumberText(matches, "1");
  }

  method TestValidateAllPresent(matches: Matcher)
    requires matches("Hello world", ".*")
  {
    var instance := NewTestParser();
    var result := instance.Validate(["-myproperty", "Hello world", "-requiredProperty", "-a"], matches);
    OptionsAllPresent();
    ValidateAllPresent(matches);
    assert result == {};
  }

  method TestValidateNumberText(matches: Matcher, text: string)
    requires text == "NaN" || text == "1"
  {
    var instance := NewTestParser();
    var result := instance.Validate(["-requiredProperty", "-a", "-number", text], matches);
    OptionsNumberText(text);
    ValidateNumberText(matches, text);
    assert result == if matches(text, "[0-9]*") then {} else {"number"};
  }

  // testAliases on TestClass

  lemma OptionsAliasValue()
    ensures OptionsMap(EqualsForm, TestAliasTable, ["-requiredProperty", "-a", "value"]).entries
      == map["requiredProperty" := None, "aliased" := Some("value")]
  {
    var args := ["-requiredProperty", "-a", "value"];
    assert IsOption(args[0]) && IsOption(args[1]) && !IsOption(args[2]);
    assert '=' !in args[0] && '=' !in args[1];
    assert args[0][1..] == "requiredProperty" && args[1][1..] == "a";
    assert RawEntry(EqualsForm, args, 1) == Entry("a", Some("value"));
    assert Resolve(TestAliasTable, "a") == "aliased";
    assert EntryAt(EqualsForm, TestAliasTable, args, 0) == Entry("requiredProperty", None);
    assert EntryAt(EqualsForm, TestAliasTable, args, 1) == Entry("aliased", Some("value"));
    assert OptionsUpTo(EqualsForm, TestAliasTable, args, 1) == Empty().Put("requiredProperty", None);
    assert OptionsUpTo(EqualsForm, TestAliasTable, args, 2)
      == OptionsUpTo(EqualsForm, TestAliasTable, args, 1).Put("aliased", Some("value"));
  }

  lemma OptionsAliasedValue()
    ensures OptionsMap(EqualsForm, TestAliasTable, ["-requiredProperty", "-aliased", "value"]).entries
      == map["requiredProperty" := None, "aliased" := Some("value")]
  {
    var args := ["-requiredProperty", "-aliased", "value"];
    assert IsOption(args[0]) && IsOption(args[1]) && !IsOption(args[2]);
    assert '=' !in args[0] && '=' !in args[1];
    assert args[0][1..] == "requiredProperty" && args[1][1..] == "aliased";
    assert EntryAt(EqualsForm, TestAliasTable, args, 0) == Entry("requiredProperty", None);
    assert EntryAt(EqualsForm, TestAliasTable, args, 1) == Entry("aliased", Some("value"));
    assert OptionsUpTo(EqualsForm, TestAliasTable, args, 1) == Empty().Put("requiredProperty", None);
    assert OptionsUpTo(EqualsForm, TestAliasTable, args, 2)
      == OptionsUpTo(EqualsForm, TestAliasTable, args, 1).Put("aliased", Some("value"));
  }

  lemma ValidateAliasedValue(matches: Matcher)
    requires matches("value", ".*")
    ensures Reported(TestDeclared, map["requiredProperty" := None, "aliased" := Some("value")], matches) == {}
  {
    var options := map["requiredProperty" := None, "aliased" := Some("value")];
    var reported := Reported(TestDeclared, options, matches);
    forall name ensures name !in reported {
    }
  }

  lemma OptionsRequiredOnly()
    ensures OptionsMap(EqualsForm, TestAliasTable, ["-requiredProperty"]).entries == map["requiredProperty" := None]
  {
    var args := ["-requiredProperty"];
    assert IsOption(args[0]) && '=' !in args[0] && args[0][1..] == "requiredProperty";
    assert EntryAt(EqualsForm, TestAliasTable, args, 0) == Entry("requiredProperty", None);
    assert OptionsUpTo(EqualsForm, TestAliasTable, args, 1) == Empty().Put("requiredProperty", None);
  }

  lemma ValidateRequiredOnly(matches: Matcher)
    ensures Reported(TestDeclared, map["requiredProperty" := None], matches) == {"aliased"}
  {
    var options := map["requiredProperty" := None];
    var reported := Reported(TestDeclared, options, matches);
    forall name ensures name in reported <==> name == "aliased" {
    }
  }

  lemma ParseAliasedValue(message: string)
    ensures BindFrom(TestDeclared.keys, 0, TestDeclared.entries, map[],
                     map["requiredProperty" := None, "aliased" := Some("value")], message, map[])
      == Success(map["requiredProperty" := BoolV(true), "aliased" := StrV(Some("value"))])
  {
    TestDeclaredDeclares();
    var options := map["requiredProperty" := None, "aliased" := Some("value")];
    var keys := TestDeclared.keys;
    var methods := TestDeclared.entries;
    var one := map["requiredProperty" := BoolV(true)];
    var two := one["aliased" := StrV(Some("value"))];
    calc {
      BindFrom(keys, 0, methods, map[], options, message, map[]);
      BindFrom(keys, 2, methods, map[], options, message, map[]);
      BindFrom(keys, 3, methods, map[], options, message, one);
      BindFrom(keys, 5, methods, map[], options, message, one);
      BindFrom(keys, 6, methods, map[], options, message, two);
    }
  }

  method TestAliasesValidate(matches: Matcher)
    requires matches("value", ".*")
  {
    var instance := NewTestParser();
    var result := instance.Validate(["-requiredProperty", "-a", "value"], matches);
    OptionsAliasValue();
    ValidateAliasedValue(matches);
    assert result == {};

    result := instance.Validate(["-requiredProperty", "-aliased", "value"], matches);
    OptionsAliasedValue();
    assert result == {};
  }

  method TestAliasRequired(matches: Matcher) {
    var instance := NewTestParser();
    var result := instance.Validate(["-requiredProperty"], matches);
    OptionsRequiredOnly();
    ValidateRequiredOnly(matches);
    assert result == {"aliased"};
  }

  method TestAliasesParse() {
    var instance := NewTestParser();
    var args := ["-requiredProperty", "-aliased", "value"];
    var testClass := instance.ParseArguments(args);
    OptionsAliasedValue();
    ParseAliasedValue(ArraysToString(args));
    assert testClass.Success? && testClass.value["aliased"] == StrV(Some("value"));
    args := ["-requiredProperty", "-a", "value"];
    testClass := instance.ParseArguments(args);
    OptionsAliasValue();
    ParseAliasedValue(ArraysToString(args));
    assert testClass.Success? && testClass.value["aliased"] == StrV(Some("value"));
  }

  // ---------------------------------------------------------------------
  // AliasObject: one option with two aliases
  // ---------------------------------------------------------------------

  const AliasesSetter := JavaMethod(Some(CLIOption("aliases", alias := ["als", "ali"])), None, ClassType("String"))
  const AliasObject := TargetClass([AliasesSetter])
  const AliasDeclared := LinkedMap(["aliases"], map["aliases" := AliasesSetter])

  lemma AliasObjectTables()
    ensures DeclaredUpTo(AliasObject.methods, 1) == LinkedMap(["aliases"], map["aliases" := AliasesSetter])
    ensures AliasesUpTo(AliasObject.methods, 1).entries == map["als" := "aliases", "ali" := "aliases"]
  {
    var ms := AliasObject.methods;
    assert DeclaredUpTo(ms, 0) == Empty();
    assert AliasesUpTo(ms, 1) == AddAliases(Empty(), ["als", "ali"], "aliases");
    assert ["als", "ali"][..1] == ["als"];
  }

  /** Either alias puts its text under the option's own name. */
  lemma OptionsEitherAlias(args: seq<string>)
    requires args == ["-als", "value"] || args == ["-ali", "value"]
    ensures OptionsMap(EqualsForm, map["als" := "aliases", "ali" := "aliases"], args).entries
      == map["aliases" := Some("value")]
  {
    var table := map["als" := "aliases", "ali" := "aliases"];
    assert IsOption(args[0]) && !IsOption(args[1]);
    assert '=' !in args[0] && args[0][1..] in table;
    assert EntryAt(EqualsForm, table, args, 0) == Entry("aliases", Some("value"));
    assert OptionsUpTo(EqualsForm, table, args, 1) == Empty().Put("aliases", Some("value"));
  }

  lemma ParseEitherAlias(message: string)
    ensures BindFrom(AliasDeclared.keys, 0, AliasDeclared.entries, map[], map["aliases" := Some("value")], message, map[])
      == Success(map["aliases" := StrV(Some("value"))])
  {
    assert BindFrom(AliasDeclared.keys, 0, AliasDeclared.entries, map[], map["aliases" := Some("value")], message, map[])
      == BindFrom(AliasDeclared.keys, 1, AliasDeclared.entries, map[], map["aliases" := Some("value")], message,
                  map["aliases" := StrV(Some("value"))]);
  }

  method NewAliasParser() returns (instance: CommandLineParser)
    ensures instance.Valid() && instance.targetClass == AliasObject && instance.propertyEditors == map[]
    ensures instance.annotatedMethods == AliasDeclared
    ensures instance.aliases.entries == map["als" := "aliases", "ali" := "aliases"]
    ensures fresh(instance)
  {
    instance := new CommandLineParser(AliasObject);
    AliasObjectTables();
  }

  method TestAliasObject() {
    var testInstance := NewAliasParser();
    var args := ["-als", "value"];
    var testResult := testInstance.ParseArguments(args);
    OptionsEitherAlias(args);
    ParseEitherAlias(ArraysToString(args));
    assert testResult.Success? && testResult.value["aliases"] == StrV(Some("value"));
    args := ["-ali", "value"];
    testResult := testInstance.ParseArguments(args);
    OptionsEitherAlias(args);
    ParseEitherAlias(ArraysToString(args));
    assert testResult.Success? && testResult.value["aliases"] == StrV(Some("value"));
  }

  // ---------------------------------------------------------------------
  // DefaultObject: one option with a default text
  // ---------------------------------------------------------------------

  const DefaultedSetter := JavaMethod(Some(CLIOption("defaultedValue", defaultValue := "test")), None, ClassType("String"))
  const DefaultObject := TargetClass([DefaultedSetter])
  const DefaultDeclared := LinkedMap(["defaultedValue"], map["defaultedValue" := DefaultedSetter])

  lemma DefaultObjectTables()
    ensures DeclaredUpTo(DefaultObject.methods, 1) == LinkedMap(["defaultedValue"], map["defaultedValue" := DefaultedSetter])
    ensures AliasesUpTo(DefaultObject.methods, 1).entries == map[]
  {
    assert DeclaredUpTo(DefaultObject.methods, 0) == Empty();
  }

  /** An empty token is not an option: nothing is parsed. */
  lemma OptionsEmptyToken()
    ensures OptionsMap(EqualsForm, map[], [""]).entries == map[]
  {
    assert !IsOption([""][0]);
    assert OptionsUpTo(EqualsForm, map[], [""], 1) == OptionsUpTo(EqualsForm, map[], [""], 0);
  }

  lemma OptionsDefaultedValue()
    ensures OptionsMap(EqualsForm, map[], ["-defaultedValue", "test2"]).entries == map["defaultedValue" := Some("test2")]
  {
    var args := ["-defaultedValue", "test2"];
    assert IsOption(args[0]) && !IsOption(args[1]);
    assert '=' !in args[0] && args[0][1..] == "defaultedValue";
    assert EntryAt(EqualsForm, map[], args, 0) == Entry("defaultedValue", Some("test2"));
    assert OptionsUpTo(EqualsForm, map[], args, 1) == Empty().Put("defaultedValue", Some("test2"));
  }

  /** An absent option gets its default text; a present one gets its own. */
  lemma ParseDefaulted(message: string)
    ensures BindFrom(DefaultDeclared.keys, 0, DefaultDeclared.entries, map[], map[], message, map[])
      == Success(map["defaultedValue" := StrV(Some("test"))])
    ensures BindFrom(DefaultDeclared.keys, 0, DefaultDeclared.entries, map[], map["defaultedValue" := Some("test2")],
                     message, map[])
      == Success(map["defaultedValue" := StrV(Some("test2"))])
  {
    assert BindFrom(DefaultDeclared.keys, 0, DefaultDeclared.entries, map[], map[], message, map[])
      == BindFrom(DefaultDeclared.keys, 1, DefaultDeclared.entries, map[], map[], message,
                  map["defaultedValue" := StrV(Some("test"))]);
    var options := map["defaultedValue" := Some("test2")];
    assert BindFrom(DefaultDeclared.keys, 0, DefaultDeclared.entries, map[], options, message, map[])
      == BindFrom(DefaultDeclared.keys, 1, DefaultDeclared.entries, map[], options, message,
                  map["defaultedValue" := StrV(Some("test2"))]);
  }

  method TestDefault() {
    var instance := new CommandLineParser(DefaultObject);
    DefaultObjectTables();
    var args := [""];
    var objectInstance := instance.ParseArguments(args);
    OptionsEmptyToken();
    ParseDefaulted(ArraysToString(args));
    assert objectInstance.Success? && objectInstance.value["defaultedValue"] == StrV(Some("test"));
    args := ["-defaultedValue", "test2"];
    objectInstance := instance.ParseArguments(args);
    OptionsDefaultedValue();
    ParseDefaulted(ArraysToString(args));
    assert objectInstance.Success? && objectInstance.value["defaultedValue"] == StrV(Some("test2"));
  }
}
