# cli-beans option engine in Dafny

cli-beans binds command-line arguments to a Java bean. The setters of the
target class carry an annotation that names the option. The annotation also
says whether the option is a flag or required, the regex its text must
match, its aliases and (in the trunk version) its default text. This project
models the engine that does the binding, in its three copies:

- **The trunk `CommandLineParser`** (`@CLIOption`, module `TrunkParser`).
  - Its constructor builds the option and alias tables.
  - `getOptionsMap` scans the arguments (`-k=v`, `-k v`, bare `-k`) and resolves aliases.
  - `validate` reports the options that are required and absent, or whose text fails their regex.
  - `parseArguments` walks the declared options. It calls each setter with the option's text, or with its default when the option is absent. The text is converted by a registered property editor or by the built-in `stringToType` table.
- **The legacy `CommandLineParser`** (`@CLI`, module `LegacyParser`). It has a single alias per option and no `=` form. It has no defaults and no File conversion, and it walks the parsed entries rather than the declared options.
- **`Utils.parseCliOptions` and `Utils.stringToType`** (module `CliUtils`, and `Coercion.StringToType`).
- **The trunk help listing** (module `HelpText`): `HelpItem`'s usage string, `Help.add`, `getMaxKeyLength`, `padRight`, and `printHelpText` as the list of lines it prints.

Layout:

- `Wrappers` holds `Option`/`Result`.
- `LinkedMaps` models `LinkedHashMap` as a key order plus a map.
- `JavaText` holds the `java.lang` text routines the engine calls: `startsWith("-")`, `indexOf`, `Arrays.toString`, the integer parsers with their bounds, `Boolean.parseBoolean`, and the literal syntax `Float`/`Double.parseFloat` accept.
- `Descriptors` holds the annotation records, with the Java defaults as default parameter values, and the reflective view of a target class.
- `Coercion` holds `stringToType`, the editor-first conversion and the setter call.
- `Tokenizer` is one reference definition of the argument scan. All three scanners are proved equal to it.
- `Binding` holds the validity rule and the two binding walks.
- `Scenarios` replays the JUnit suite `CommandLineParserTest` against the trunk parser.

Things the Java code takes from its environment are parameters:

- Reflection becomes a `TargetClass`: its annotated methods in the order `getMethods` returns them, each with its parameter class and whether invoking it throws. The class also says whether `newInstance` succeeds.
- The new instance is a map from option name to the value its setter received.
- `String.matches` is a `Matcher` function.
- A `PropertyEditor` is a function that gives a value or nothing (it threw).

A bind fails in one of two ways:

- `ParseFailure`: a conversion exception, which propagates as it is;
- `Reflective(Arrays.toString(args))`: the `IllegalArgumentException` that wraps a reflective failure.

## Model

| member | source | states |
|---|---|---|
| `LinkedMaps.LinkedMap.Put` | trunk/src/main/java/com/jbuncle/clibeans/CommandLineParser.java:198 | `LinkedHashMap.put`: the entry is set; a new key goes to the end of the order, an existing key keeps its place; the map stays well-formed |
| `JavaText.IndexOf` | trunk/src/main/java/com/jbuncle/clibeans/CommandLineParser.java:184-185 | `indexOf` is -1 exactly when the character is absent, otherwise the first position holding it |
| `JavaText.ArraysToString` | trunk/src/main/java/com/jbuncle/clibeans/CommandLineParser.java:126 | `Arrays.toString` is bracketed: `[]` for no arguments, `[a]` for one |
| `JavaText.ParseInteger` | trunk/src/main/java/com/jbuncle/clibeans/CommandLineParser.java:216-227 | `parseByte`/`parseShort`/`parseInt`/`parseLong` succeed exactly on non-null signed decimal text within the type's bounds, and give that number |
| `JavaText.IntegerRoundTrip` | trunk/src/main/java/com/jbuncle/clibeans/CommandLineParser.java:222-223 | within a type's bounds, the printed form of a value parses back to it |
| `JavaText.ParseBoolean` | trunk/src/main/java/com/jbuncle/clibeans/CommandLineParser.java:213-214 | `Boolean.parseBoolean`: "true" and "TRUE" give true; null, "false" and "" give false |
| `Descriptors.CLIOptionDefaults` | src/main/java/com/jbuncle/clibeans/CLIOption.java:43-89 | `@CLIOption(name = n)`: not a flag, not required, no description, regex `.*`, no aliases, empty default |
| `Descriptors.CLIDefaults` | trunk/src/main/java/com/jbuncle/clibeans/CLI.java:44-54 | `@CLI(name = n)`: not a flag, not required, no description, regex `.*`, empty alias |
| `Coercion.StringToType` | src/main/java/com/jbuncle/clibeans/Utils.java:57-83 | Boolean never fails; the four integer types succeed exactly on in-range decimal text; float and double succeed exactly on Java literal syntax; File wraps any non-null text; every other class gets the text unchanged; the only failure is a parse failure |
| `Coercion.LegacyStringToType` | src/main/java/com/jbuncle/clibeans/CommandLineParser.java:172-197 | the legacy table fails only with a parse failure; a File parameter gets the text itself; every other class is converted as by the trunk table |
| `Coercion.LegacyTableHasNoFileBranch` | src/main/java/com/jbuncle/clibeans/CommandLineParser.java:172-197 | the legacy table agrees with the trunk one on every class but File, which gets the text itself instead of a File |
| `Coercion.Coerce` | trunk/src/main/java/com/jbuncle/clibeans/CommandLineParser.java:154-161 | an editor registered for exactly the parameter class decides the value (failing when it throws); otherwise the built-in table does; every conversion failure is a parse failure, never the reflective error |
| `Coercion.Invoke` | trunk/src/main/java/com/jbuncle/clibeans/CommandLineParser.java:142-165 | a flag's setter gets `true` whatever the text, a value setter gets the converted text; a failed conversion is returned as it is (a parse failure) before the setter is reached, and a setter that throws after its argument was built fails with the `Arrays.toString(args)` message |
| `Coercion.ReRegisterReplaces` | trunk/src/main/java/com/jbuncle/clibeans/CommandLineParser.java:205-207 | registering an editor for a class again replaces the earlier one for every later conversion |
| `Coercion.BuiltInRoundTrip` | trunk/src/main/java/com/jbuncle/clibeans/CommandLineParser.java:213-227 | each integer type reads back the printed form of every value in its range; Boolean reads back "true" and "false" |
| `Coercion.NullText` | trunk/src/main/java/com/jbuncle/clibeans/CommandLineParser.java:117-118 | a present option with no text (null) fails every numeric and File conversion and gives `false` for Boolean |
| `Tokenizer.RawEntry` | trunk/src/main/java/com/jbuncle/clibeans/CommandLineParser.java:176-192 | with the '=' form a token containing '=' splits into a name free of '=' and a text that rebuild the token as `-name=text`; otherwise the name is the whole token after the dash |
| `Tokenizer.OptionsUpTo` | trunk/src/main/java/com/jbuncle/clibeans/CommandLineParser.java:172-202 | the map the scan has built after any number of tokens is a well-formed insertion-ordered map: distinct keys, exactly the keys of its entries |
| `Tokenizer.KeysComeFromOptionTokens` | trunk/src/main/java/com/jbuncle/clibeans/CommandLineParser.java:173-201 | a name is a key of the parsed map exactly when some token starting with '-' puts it |
| `Tokenizer.LastOccurrenceWins` | src/main/java/com/jbuncle/clibeans/Utils.java:115 | a later token for the same resolved name overwrites the earlier value |
| `Tokenizer.EntriesBoundedByOptionTokens` | src/main/java/com/jbuncle/clibeans/Utils.java:93-119 | the map has no more entries than there are tokens starting with '-' |
| `Tokenizer.NoArgumentsNoOptions` | src/main/java/com/jbuncle/clibeans/Utils.java:93-94 | an empty argument array gives an empty map |
| `Tokenizer.EqualsFormSplitsAtFirstEquals` | src/main/java/com/jbuncle/clibeans/Utils.java:103-106 | `-k=v` with `k` free of '=' gives name `k` and text `v`, whatever `v` holds |
| `Tokenizer.SpaceFormTakesNextToken` | src/main/java/com/jbuncle/clibeans/Utils.java:107-113 | a token without '=' takes the next token as its text when that exists and does not start with '-', and null otherwise |
| `Tokenizer.SpaceOnlyKeepsWholeToken` | src/main/java/com/jbuncle/clibeans/CommandLineParser.java:152 | the legacy scan names the option by the whole token after the dash, '=' included |
| `Tokenizer.EqualsAndSpaceFormsAgree` | trunk/src/main/java/com/jbuncle/clibeans/CommandLineParser.java:182-188 | `-k=v` and `-k v` give the same map |
| `Tokenizer.AliasAndNameAgree` | trunk/src/main/java/com/jbuncle/clibeans/CommandLineParser.java:195-198 | `-alias v` and `-name v` give the same map |
| `Binding.IsInvalid` | trunk/src/main/java/com/jbuncle/clibeans/CommandLineParser.java:86-94 | an option is invalid only when it is required and absent or present with non-null text; a present option with null text is never invalid |
| `Binding.BindFrom` | trunk/src/main/java/com/jbuncle/clibeans/CommandLineParser.java:114-126 | the walk over the declared options fails only with a parse failure or the reflective `Arrays.toString(args)` error, and never drops a setter already applied |
| `Binding.InvalidExactly` | trunk/src/main/java/com/jbuncle/clibeans/CommandLineParser.java:86-94 | an option is invalid exactly when it is required and absent, or present with non-null text its regex rejects; a present option with null text is valid |
| `Binding.BindFromSuccess` | trunk/src/main/java/com/jbuncle/clibeans/CommandLineParser.java:114-122 | a successful walk sets exactly the options that are present or have a non-empty default, each to the result of its call, and leaves every other entry as it was |
| `Binding.BindFromFailure` | trunk/src/main/java/com/jbuncle/clibeans/CommandLineParser.java:118-120 | a failed walk failed with the error of the first present or defaulted option, in declaration order, whose call fails; every such call before it succeeded |
| `Binding.BindFromTotal` | trunk/src/main/java/com/jbuncle/clibeans/CommandLineParser.java:114-124 | when every call the walk makes succeeds, the walk succeeds |
| `Binding.LegacyBindFrom` | src/main/java/com/jbuncle/clibeans/CommandLineParser.java:109-141 | the walk over the parsed entries fails only with a parse failure or the reflective `Arrays.toString(args)` error, and never drops a setter already applied |
| `Binding.LegacyBindFromSuccess` | src/main/java/com/jbuncle/clibeans/CommandLineParser.java:109-138 | a successful legacy walk sets exactly the declared options among the parsed entries, each to its call's result, and nothing else |
| `Binding.LegacyBindFromFailure` | src/main/java/com/jbuncle/clibeans/CommandLineParser.java:112-134 | a failed legacy walk failed with the error of the first declared entry, in parse order, whose call fails; every declared entry before it succeeded |
| `TrunkParser.DeclaredAreAnnotated` | trunk/src/main/java/com/jbuncle/clibeans/CommandLineParser.java:57-61 | the option table holds exactly the names of the `@CLIOption` methods, each mapped to a method carrying that name |
| `TrunkParser.AddedAliasesPointToOption` | trunk/src/main/java/com/jbuncle/clibeans/CommandLineParser.java:62-66 | registering an option's aliases maps each of them to the option's name and leaves other aliases alone |
| `TrunkParser.AliasTableSound` | trunk/src/main/java/com/jbuncle/clibeans/CommandLineParser.java:57-68 | the alias table holds exactly the aliases of the annotated methods, each mapped to the name of a method declaring it |
| `TrunkParser.BindOutcome` | trunk/src/main/java/com/jbuncle/clibeans/CommandLineParser.java:107-136 | a present flag gets `true`, a present value its converted text, an absent option with a non-empty default its converted default, an absent one without default nothing, an undeclared name nothing; required and regex play no part; failures are a parse failure or the reflective `Arrays.toString(args)` |
| `TrunkParser.BindSucceedsWhenEveryCallDoes` | trunk/src/main/java/com/jbuncle/clibeans/CommandLineParser.java:107-124 | an instantiable target binds whenever every setter call the walk makes succeeds |
| `TrunkParser.CommandLineParser.constructor` | trunk/src/main/java/com/jbuncle/clibeans/CommandLineParser.java:50-69 | the option and alias tables are those built from the methods in order, and no editor is registered |
| `TrunkParser.CommandLineParser.RegisterPropertyEditor` | trunk/src/main/java/com/jbuncle/clibeans/CommandLineParser.java:205-207 | the editor for the class is set, replacing any earlier one; nothing else changes |
| `TrunkParser.CommandLineParser.HasDefault` | trunk/src/main/java/com/jbuncle/clibeans/CommandLineParser.java:130-136 | `hasDefault` is true exactly when the default text is EMPTY |
| `TrunkParser.CommandLineParser.GetDefault` | trunk/src/main/java/com/jbuncle/clibeans/CommandLineParser.java:119-136 | the option's declared default text; for an absent option the walk calls the setter with it exactly when it is non-empty |
| `TrunkParser.CommandLineParser.GetOptionsMap` | trunk/src/main/java/com/jbuncle/clibeans/CommandLineParser.java:171-203 | the loop's map is the reference scan with the '=' form and the parser's alias table |
| `TrunkParser.CommandLineParser.Validate` | trunk/src/main/java/com/jbuncle/clibeans/CommandLineParser.java:79-98 | the reported names are exactly the declared options invalid under the scanned arguments |
| `TrunkParser.CommandLineParser.ParseArguments` | trunk/src/main/java/com/jbuncle/clibeans/CommandLineParser.java:107-128 | the loop's result is the reference walk over the declared options with the current editors |
| `LegacyParser.DeclaredAreAnnotated` | src/main/java/com/jbuncle/clibeans/CommandLineParser.java:55-59 | the option table holds exactly the names of the `@CLI` methods, each mapped to a method carrying that name |
| `LegacyParser.AliasTableSound` | src/main/java/com/jbuncle/clibeans/CommandLineParser.java:55-64 | the empty string is never an alias; the table holds exactly the non-empty aliases, each mapped to its option's name |
| `LegacyParser.BindOutcome` | src/main/java/com/jbuncle/clibeans/CommandLineParser.java:103-143 | exactly the declared options that were parsed are set (no defaults, unknown names ignored): flags to `true`, values converted without a File branch; failures are a parse failure or the reflective `Arrays.toString(args)` |
| `LegacyParser.CommandLineParser.constructor` | src/main/java/com/jbuncle/clibeans/CommandLineParser.java:48-65 | the option and single-alias tables are those built from the methods in order, and no editor is registered |
| `LegacyParser.CommandLineParser.RegisterPropertyEditor` | src/main/java/com/jbuncle/clibeans/CommandLineParser.java:168-170 | the editor for the class is set, replacing any earlier one |
| `LegacyParser.CommandLineParser.GetOptionsMap` | src/main/java/com/jbuncle/clibeans/CommandLineParser.java:145-166 | the loop's map is the reference scan without the '=' form, resolving the whole token after the dash |
| `LegacyParser.CommandLineParser.Validate` | src/main/java/com/jbuncle/clibeans/CommandLineParser.java:75-94 | the reported names are exactly the declared options invalid under the scanned arguments |
| `LegacyParser.CommandLineParser.ParseArguments` | src/main/java/com/jbuncle/clibeans/CommandLineParser.java:103-143 | the loop's result is the reference walk over the parsed entries with the current editors |
| `CliUtils.ParseCliOptions` | src/main/java/com/jbuncle/clibeans/Utils.java:92-120 | the loop's map is the trunk reference scan with an empty alias table |
| `CliUtils.EmptyTextAfterEquals` | src/main/java/com/jbuncle/clibeans/Utils.java:103-106 | `-k=` gives `k` the empty text |
| `HelpText.HelpItem.Usage` | trunk/src/main/java/com/jbuncle/clibeans/HelpItem.java:37-48 | the usage starts with '-' and has at least two characters |
| `HelpText.HelpItem.Help` | trunk/src/main/java/com/jbuncle/clibeans/HelpItem.java:49 | the help text is the option's description |
| `HelpText.UsageShape` | trunk/src/main/java/com/jbuncle/clibeans/HelpItem.java:35-50 | the usage is `-name`, then `, -alias` exactly when there is an alias, then a space, then `<argument>` exactly when not a flag; its length is 2 + name + (3 + alias) + (10 unless a flag) |
| `HelpText.PadRight` | trunk/src/main/java/com/jbuncle/clibeans/Help.java:80-82 | the text, left-justified, padded with spaces to the greater of `n` and its own length |
| `HelpText.WidthBound` | trunk/src/main/java/com/jbuncle/clibeans/Help.java:84-98 | no usage of the listing is longer than the width |
| `HelpText.WidthAttained` | trunk/src/main/java/com/jbuncle/clibeans/Help.java:84-98 | a non-empty listing's width is the length of one of its usages |
| `HelpText.ItemLineLayout` | trunk/src/main/java/com/jbuncle/clibeans/Help.java:65 | an item line is a tab, the usage, spaces up to the width, a tab and the help text |
| `HelpText.SectionLines` | trunk/src/main/java/com/jbuncle/clibeans/Help.java:61-68 | a non-empty list prints its header and then item i on line 1 + i; an empty one prints nothing, not even its header |
| `HelpText.PrintedItemsAligned` | trunk/src/main/java/com/jbuncle/clibeans/Help.java:58-77 | every printed item pads its usage to the longest usage of both lists, so all help texts start in one column |
| `HelpText.Help.constructor` | trunk/src/main/java/com/jbuncle/clibeans/Help.java:37-40 | both lists start empty |
| `HelpText.Help.Add` | trunk/src/main/java/com/jbuncle/clibeans/Help.java:42-48 | a required item is appended to `required`, any other to `optional`; the other list is unchanged and each list keeps only its own kind |
| `HelpText.Help.GetMaxKeyLength` | trunk/src/main/java/com/jbuncle/clibeans/Help.java:84-98 | the two loops compute the width of the required items followed by the optional ones |
| `HelpText.Help.PrintHelpText` | trunk/src/main/java/com/jbuncle/clibeans/Help.java:58-77 | the printed lines are the "Usage: " section of the required items followed by the "Optional: " section of the optional ones, both padded to the common width |
| `Scenarios.TestClassDeclared` | src/test/java/com/jbuncle/clibeans/CommandLineParserTest.java:185-246 | the test class's option table lists its six setters in order |
| `Scenarios.TestClassAliases` | src/test/java/com/jbuncle/clibeans/CommandLineParserTest.java:243 | its alias table maps `a` to `aliased` and nothing else |
| `Scenarios.NewTestParser` | src/test/java/com/jbuncle/clibeans/CommandLineParserTest.java:54 | a new parser over the test class holds those tables and no editor |
| `Scenarios.OptionsHelloWorld` | src/test/java/com/jbuncle/clibeans/CommandLineParserTest.java:53 | the first test arguments parse to the text and the null flag |
| `Scenarios.ParseHelloWorld` | src/test/java/com/jbuncle/clibeans/CommandLineParserTest.java:57-58 | binding them sets `myproperty` to "Hello world" and the required flag, nothing else |
| `Scenarios.OptionsHelloWorld2` | src/test/java/com/jbuncle/clibeans/CommandLineParserTest.java:61 | a flag between options parses to null |
| `Scenarios.ParseHelloWorld2` | src/test/java/com/jbuncle/clibeans/CommandLineParserTest.java:62-64 | binding sets the text and both flags to `true` |
| `Scenarios.OptionsNumber` | src/test/java/com/jbuncle/clibeans/CommandLineParserTest.java:66 | `-number 1` parses to the text "1" |
| `Scenarios.ParseNumber` | src/test/java/com/jbuncle/clibeans/CommandLineParserTest.java:67-68 | the int setter gets 1 although the required options are missing |
| `Scenarios.OptionsEqualsValue` | src/test/java/com/jbuncle/clibeans/CommandLineParserTest.java:70 | `-myproperty=value` parses to the text "value" |
| `Scenarios.ParseEqualsValue` | src/test/java/com/jbuncle/clibeans/CommandLineParserTest.java:71-72 | binding sets `myproperty` to "value" |
| `Scenarios.OptionsDate` | src/test/java/com/jbuncle/clibeans/CommandLineParserTest.java:93 | `-date 01/01/1999` parses to that text |
| `Scenarios.ParseDate` | src/test/java/com/jbuncle/clibeans/CommandLineParserTest.java:95-97 | the Date setter gets what the registered editor makes of the text; the flag is not set |
| `Scenarios.OptionsHelloWorldAlias` | src/test/java/com/jbuncle/clibeans/CommandLineParserTest.java:131 | a bare alias `-a` parses to `aliased` with null text |
| `Scenarios.ValidateMissingRequired` | src/test/java/com/jbuncle/clibeans/CommandLineParserTest.java:131-132 | only the missing required flag is reported |
| `Scenarios.OptionsAllPresent` | src/test/java/com/jbuncle/clibeans/CommandLineParserTest.java:134 | the arguments with both required options parse to three entries |
| `Scenarios.ValidateAllPresent` | src/test/java/com/jbuncle/clibeans/CommandLineParserTest.java:134-135 | nothing is reported |
| `Scenarios.OptionsNumberText` | src/test/java/com/jbuncle/clibeans/CommandLineParserTest.java:137-140 | `-number NaN` and `-number 1` parse to their text next to the two required options |
| `Scenarios.ValidateNumberText` | src/test/java/com/jbuncle/clibeans/CommandLineParserTest.java:137-141 | `number` is reported exactly when its regex rejects the text |
| `Scenarios.OptionsAliasValue` | src/test/java/com/jbuncle/clibeans/CommandLineParserTest.java:106 | `-a value` parses under the name `aliased` |
| `Scenarios.OptionsAliasedValue` | src/test/java/com/jbuncle/clibeans/CommandLineParserTest.java:108 | `-aliased value` parses to the same map |
| `Scenarios.ValidateAliasedValue` | src/test/java/com/jbuncle/clibeans/CommandLineParserTest.java:106-109 | nothing is reported |
| `Scenarios.OptionsRequiredOnly` | src/test/java/com/jbuncle/clibeans/CommandLineParserTest.java:110 | `-requiredProperty` alone parses to one null entry |
| `Scenarios.ValidateRequiredOnly` | src/test/java/com/jbuncle/clibeans/CommandLineParserTest.java:110-111 | only the missing required `aliased` is reported |
| `Scenarios.ParseAliasedValue` | src/test/java/com/jbuncle/clibeans/CommandLineParserTest.java:113-117 | binding either spelling sets `aliased` to "value" |
| `Scenarios.AliasObjectTables` | src/test/java/com/jbuncle/clibeans/CommandLineParserTest.java:171-183 | an option with two aliases has both in the alias table |
| `Scenarios.OptionsEitherAlias` | src/test/java/com/jbuncle/clibeans/CommandLineParserTest.java:120-122 | either alias puts its text under the option's name |
| `Scenarios.ParseEitherAlias` | src/test/java/com/jbuncle/clibeans/CommandLineParserTest.java:120-123 | binding sets `aliases` to "value" |
| `Scenarios.NewAliasParser` | src/test/java/com/jbuncle/clibeans/CommandLineParserTest.java:119 | a new parser over the alias class holds those tables |
| `Scenarios.DefaultObjectTables` | src/test/java/com/jbuncle/clibeans/CommandLineParserTest.java:156-169 | the defaulted class has one option and no alias |
| `Scenarios.OptionsEmptyToken` | src/test/java/com/jbuncle/clibeans/CommandLineParserTest.java:149 | an empty token is not an option: nothing is parsed |
| `Scenarios.OptionsDefaultedValue` | src/test/java/com/jbuncle/clibeans/CommandLineParserTest.java:151 | `-defaultedValue test2` parses to that text |
| `Scenarios.ParseDefaulted` | src/test/java/com/jbuncle/clibeans/CommandLineParserTest.java:149-152 | an absent option gets its default "test"; a present one gets its own text |

The `Scenarios` methods `TestParseArguments`, `TestParseArgumentsContinued`,
`TestPropertyEditor`, `TestValidateMissingRequired`, `TestValidate`,
`TestAliasesValidate`, `TestAliasRequired`, `TestAliasesParse`,
`TestAliasObject` and `TestDefault` rebuild each JUnit test. Each one calls
the parser methods and proves the test's assertions about their results.

## Left out

- Reflection: `getMethods`, annotation lookup, `newInstance` and `Method.invoke` are replaced by the explicit `TargetClass`. Java does not specify the order of `getMethods`, so the model takes that order as input.
- Type mismatches at `Method.invoke` are not modelled, such as a flag whose setter does not take a boolean, or a converted value of the wrong class. A setter either throws on every call or on none (`JavaMethod.throws`), so a setter that throws only for some values is not modelled either.
- The regex engine behind `String.matches` is not modelled; it is the `Matcher` parameter.
- User `PropertyEditor`s (for example the `SimpleDateFormat` editor of the tests) are opaque functions; a thrown exception is an absent value.
- Floating-point values are not computed. `Float.parseFloat`/`Double.parseDouble` are modelled only by the syntax they accept, and a converted float keeps its text. Java's Unicode digits in the integer parsers are not modelled (ASCII only), and neither is Unicode case in `equalsIgnoreCase`.
- `java.io.File` is a wrapper around the path text.
- `getHelp` in both parsers is not part of this model. The trunk one passes `@CLIOption` records to `HelpItem`, which takes a `@CLI`.
- Console output is not modelled: `printHelpText` returns the lines it would print. The JUnit `System.out` calls and `Utils.readLine`/`readPassword` are left out.
- The parsers' `annotations` map is not a separate field: it has the same keys in the same order as `annotatedMethods`, and each of its values is the annotation of the method under the same key.
- The trunk parser's private `stringToType` is character for character the one in `Utils`, and both are `Coercion.StringToType`.
- `validate` returns a `LinkedHashSet`; the model returns a set, without its insertion order.
- HelpText.HelpItem.Usage: the contract only bounds the length and fixes the first character; the full layout is the lemma `HelpText.UsageShape`.
- HelpText.Help.GetMaxKeyLength: the contract states the result as the `Width` of both lists. The source's properties of the result (a bound on every usage, attained when the lists are not empty) are the lemmas `WidthBound` and `WidthAttained`.
