/**
 * The translation of a NullAway configuration into Error Prone command-line
 * flags: the severity flag first, then one option flag per configured option,
 * in a fixed order.
 */
module ArgumentGenerator {
  import opened Wrappers
  import opened ArgumentSyntax

  /** The generator's final fields; `None` stands for a Java `null`. */
  datatype Config = Config(
    severity: Option<string>,
    onlyNullMarked: Option<bool>,
    annotatedPackages: Option<seq<string>>,
    unannotatedSubPackages: Option<seq<string>>,
    unannotatedClasses: Option<seq<string>>,
    knownInitializers: Option<seq<string>>,
    excludedClassAnnotations: Option<seq<string>>,
    excludedClasses: Option<seq<string>>,
    excludedFieldAnnotations: Option<seq<string>>,
    customInitializerAnnotations: Option<seq<string>>,
    externalInitAnnotations: Option<seq<string>>,
    treatGeneratedAsUnannotated: Option<bool>,
    acknowledgeRestrictiveAnnotations: Option<bool>,
    checkOptionalEmptiness: Option<bool>,
    suggestSuppressions: Option<bool>,
    assertsEnabled: Option<bool>,
    exhaustiveOverride: Option<bool>,
    castToNonNullMethod: Option<string>,
    checkOptionalEmptinessCustomClasses: Option<seq<string>>,
    autoFixSuppressionComment: Option<string>,
    handleTestAssertionLibraries: Option<bool>,
    acknowledgeAndroidRecent: Option<bool>,
    checkContracts: Option<bool>,
    customContractAnnotations: Option<seq<string>>,
    customNullableAnnotations: Option<seq<string>>,
    customNonnullAnnotations: Option<seq<string>>,
    customGeneratedCodeAnnotations: Option<seq<string>>,
    jspecifyMode: Option<bool>,
    extraFuturesClasses: Option<seq<string>>,
    suppressionNameAliases: Option<seq<string>>)

  /** The value of one option, tagged with the formatter that renders it. */
  datatype OptionValue =
    | ListValue(values: Option<seq<string>>)
    | BooleanValue(flag: Option<bool>)
    | StringValue(text: Option<string>)

  /** An option is set when it is present and, for lists and strings, non-empty. */
  predicate IsSet(v: OptionValue)
  {
    match v
    case ListValue(values) => values.Some? && values.value != []
    case BooleanValue(flag) => flag.Some?
    case StringValue(text) => text.Some? && text.value != ""
  }

  /** The text after `=` in the flag of a set option. */
  function ValueText(v: OptionValue): string
    requires IsSet(v)
  {
    match v
    case ListValue(values) => Join(values.value)
    case BooleanValue(flag) => if flag.value then "true" else "false"
    case StringValue(text) => text.value
  }

  /** The severity with `"DEFAULT"` read as absent, the two being equivalent. */
  function EffectiveSeverity(severity: Option<string>): Option<string>
  {
    if severity == Some("DEFAULT") then None else severity
  }

  /** The option names, in the order `generate` adds the options. */
  const OptionNames: seq<string> := [
      "AnnotatedPackages", "OnlyNullMarked", "UnannotatedSubPackages",
      "UnannotatedClasses", "KnownInitializers", "ExcludedClassAnnotations",
      "ExcludedClasses", "ExcludedFieldAnnotations", "CustomInitializerAnnotations",
      "ExternalInitAnnotations", "TreatGeneratedAsUnannotated", "AcknowledgeRestrictiveAnnotations",
      "CheckOptionalEmptiness", "SuggestSuppressions", "AssertsEnabled",
      "ExhaustiveOverride", "CastToNonNullMethod", "CheckOptionalEmptinessCustomClasses",
      "AutoFixSuppressionComment", "HandleTestAssertionLibraries", "AcknowledgeAndroidRecent",
      "CheckContracts", "CustomContractAnnotations", "CustomNullableAnnotations",
      "CustomNonnullAnnotations", "CustomGeneratedCodeAnnotations", "JSpecifyMode",
      "ExtraFuturesClasses", "SuppressionNameAliases" ]

  /** The value of each option, in the order of `OptionNames`, tagged with the formatter that renders it. */
  function OptionValues(c: Config): (r: seq<OptionValue>)
    ensures |r| == |OptionNames|
  {
    [ ListValue(c.annotatedPackages),
      BooleanValue(c.onlyNullMarked),
      ListValue(c.unannotatedSubPackages),
      ListValue(c.unannotatedClasses),
      ListValue(c.knownInitializers),
      ListValue(c.excludedClassAnnotations),
      ListValue(c.excludedClasses),
      ListValue(c.excludedFieldAnnotations),
      ListValue(c.customInitializerAnnotations),
      ListValue(c.externalInitAnnotations),
      BooleanValue(c.treatGeneratedAsUnannotated),
      BooleanValue(c.acknowledgeRestrictiveAnnotations),
      BooleanValue(c.checkOptionalEmptiness),
      BooleanValue(c.suggestSuppressions),
      BooleanValue(c.assertsEnabled),
      BooleanValue(c.exhaustiveOverride),
      StringValue(c.castToNonNullMethod),
      ListValue(c.checkOptionalEmptinessCustomClasses),
      StringValue(c.autoFixSuppressionComment),
      BooleanValue(c.handleTestAssertionLibraries),
      BooleanValue(c.acknowledgeAndroidRecent),
      BooleanValue(c.checkContracts),
      ListValue(c.customContractAnnotations),
      ListValue(c.customNullableAnnotations),
      ListValue(c.customNonnullAnnotations),
      ListValue(c.customGeneratedCodeAnnotations),
      BooleanValue(c.jspecifyMode),
      ListValue(c.extraFuturesClasses),
      ListValue(c.suppressionNameAliases) ]
  }

  /** The option table: each option's name and value, in the order the flags are emitted. */
  function Entries(c: Config): (r: seq<(string, OptionValue)>)
    ensures |r| == |OptionNames|
    ensures forall i :: 0 <= i < |r| ==> r[i] == (OptionNames[i], OptionValues(c)[i])
  {
    seq(|OptionNames|, i requires 0 <= i < |OptionNames| => (OptionNames[i], OptionValues(c)[i]))
  }

  /** The severity flag: bare for an absent or `"DEFAULT"` severity, else suffixed verbatim. */
  function FormatSeverity(severity: Option<string>): string
  {
    if severity.None? || severity.value == "DEFAULT" then CheckFlag
    else CheckFlag + ":" + severity.value
  }

  /** `listOption`: nothing for a null or empty list, else the comma-joined values. */
  function ListOption(name: string, values: Option<seq<string>>): Option<string>
  {
    if values.None? || values.value == [] then None
    else Some(OptionFlagPrefix + name + "=" + Join(values.value))
  }

  /** `booleanOption`: nothing for null, else `true` or `false`. */
  function BooleanOption(name: string, flag: Option<bool>): Option<string>
  {
    if flag.None? then None
    else Some(OptionFlagPrefix + name + "=" + (if flag.value then "true" else "false"))
  }

  /** `stringOption`: nothing for a null or empty string, else the string verbatim. */
  function StringOption(name: string, text: Option<string>): Option<string>
  {
    if text.None? || text.value == "" then None
    else Some(OptionFlagPrefix + name + "=" + text.value)
  }

  /** The flag of one option table entry, through the formatter of its kind. */
  function FormatOption(name: string, v: OptionValue): (r: Option<string>)
    ensures r.Some? <==> IsSet(v)
    ensures r.Some? ==> r.value == OptionText(name, ValueText(v))
  {
    match v
    case ListValue(values) => ListOption(name, values)
    case BooleanValue(flag) => BooleanOption(name, flag)
    case StringValue(text) => StringOption(name, text)
  }

  /** The formatted flag of every table entry, `None` where the option is not set. */
  function Formatted(entries: seq<(string, OptionValue)>): (r: seq<Option<string>>)
    ensures |r| == |entries|
    ensures forall i :: 0 <= i < |entries| ==> r[i] == FormatOption(entries[i].0, entries[i].1)
  {
    seq(|entries|, i requires 0 <= i < |entries| => FormatOption(entries[i].0, entries[i].1))
  }

  /** The option flags of a configuration: the flag of each set option, in table order. */
  function OptionFlags(c: Config): seq<string>
  {
    Somes(Formatted(Entries(c)))
  }

  /** The generated flags: the severity flag, then the option flags. */
  function Arguments(c: Config): seq<string>
  {
    [FormatSeverity(c.severity)] + OptionFlags(c)
  }

  /** `addIfNotNull`: appends the argument when there is one. */
  method AddIfNotNull(args: seq<string>, arg: Option<string>) returns (result: seq<string>)
    ensures arg.None? ==> result == args
    ensures arg.Some? ==> result == args + [arg.value]
  {
    result := args;
    if arg.Some? {
      result := result + [arg.value];
    }
  }

  /** The run of `addIfNotNull` calls: appends the flag of each set option of `entries`, in order. */
  method AddEach(args: seq<string>, entries: seq<(string, OptionValue)>) returns (result: seq<string>)
    ensures result == args + Somes(Formatted(entries))
  {
    result := args;
    ghost var formatted := Formatted(entries);
    for i := 0 to |entries|
      invariant result == args + Somes(formatted[..i])
    {
      SomesStep(formatted, i);
      result := AddIfNotNull(result, FormatOption(entries[i].0, entries[i].1));
    }
    assert formatted[..|entries|] == formatted;
  }

  /**
   * `generate`: starts the list with the severity flag and adds the flag of each
   * option of the table in turn, skipping those that are not set.
   */
  method Generate(c: Config) returns (args: seq<string>)
    ensures args == Arguments(c)
  {
    args := [];
    args := args + [FormatSeverity(c.severity)];
    args := AddEach(args, Entries(c));
  }

  /** The positions in the option table of the options that are set, in increasing order. */
  function SetPositions(c: Config): seq<nat>
  {
    PresentPositions(Formatted(Entries(c)))
  }

  /**
   * The shape of the generated list: the severity flag first, then exactly one
   * flag for each set option, in table order, none skipped and none repeated.
   */
  lemma GeneratedInTableOrder(c: Config)
    ensures Arguments(c) == [FormatSeverity(c.severity)] + OptionFlags(c)
    ensures |OptionFlags(c)| == |SetPositions(c)|
    ensures forall k :: 0 <= k < |SetPositions(c)| ==>
      SetPositions(c)[k] < |Entries(c)| && IsSet(Entries(c)[SetPositions(c)[k]].1) &&
      OptionFlags(c)[k] == OptionText(Entries(c)[SetPositions(c)[k]].0, ValueText(Entries(c)[SetPositions(c)[k]].1))
    ensures forall k, l :: 0 <= k < l < |SetPositions(c)| ==> SetPositions(c)[k] < SetPositions(c)[l]
    ensures forall i :: 0 <= i < |Entries(c)| && IsSet(Entries(c)[i].1) ==> i in SetPositions(c)
  {
    SomesKeepsPresentInOrder(Formatted(Entries(c)));
  }

  /** No option name contains `=`, so every option flag reads back unambiguously. */
  lemma TableNamesHaveNoEquals()
    ensures forall i :: 0 <= i < |OptionNames| ==> '=' !in OptionNames[i]
  {
    NamesHaveNoEqualsSign0();
    NamesHaveNoEqualsSign1();
    NamesHaveNoEqualsSign2();
    NamesHaveNoEqualsSign3();
    NamesHaveNoEqualsSign4();
    NamesHaveNoEqualsSign5();
    NamesHaveNoEqualsSign6();
    NamesHaveNoEqualsSign7();
    NamesHaveNoEqualsSign8();
    NamesHaveNoEqualsSign9();
  }

  lemma NamesHaveNoEqualsSign0()
    ensures forall i :: 0 <= i < 3 ==> '=' !in OptionNames[i]
  {
  }

  lemma NamesHaveNoEqualsSign1()
    ensures forall i :: 3 <= i < 6 ==> '=' !in OptionNames[i]
  {
  }

  lemma NamesHaveNoEqualsSign2()
    ensures forall i :: 6 <= i < 9 ==> '=' !in OptionNames[i]
  {
  }

  lemma NamesHaveNoEqualsSign3()
    ensures forall i :: 9 <= i < 12 ==> '=' !in OptionNames[i]
  {
  }

  lemma NamesHaveNoEqualsSign4()
    ensures forall i :: 12 <= i < 15 ==> '=' !in OptionNames[i]
  {
  }

  lemma NamesHaveNoEqualsSign5()
    ensures forall i :: 15 <= i < 18 ==> '=' !in OptionNames[i]
  {
  }

  lemma NamesHaveNoEqualsSign6()
    ensures forall i :: 18 <= i < 21 ==> '=' !in OptionNames[i]
  {
  }

  lemma NamesHaveNoEqualsSign7()
    ensures forall i :: 21 <= i < 24 ==> '=' !in OptionNames[i]
  {
  }

  lemma NamesHaveNoEqualsSign8()
    ensures forall i :: 24 <= i < 27 ==> '=' !in OptionNames[i]
  {
  }

  lemma NamesHaveNoEqualsSign9()
    ensures forall i :: 27 <= i < 29 ==> '=' !in OptionNames[i]
  {
  }

  /** No two options of the table share a name. */
  lemma TableNamesDistinct()
    ensures forall i, j :: 0 <= i < j < |OptionNames| ==> OptionNames[i] != OptionNames[j]
  {
    NamesDistinct0();
    NamesDistinct1();
    NamesDistinct2();
    NamesDistinct3();
    NamesDistinct4();
  }

  lemma NamesDistinct0()
    ensures forall i, j :: 0 <= i < 3 && i < j < |OptionNames| ==> OptionNames[i] != OptionNames[j]
  {
  }

  lemma NamesDistinct1()
    ensures forall i, j :: 3 <= i < 6 && i < j < |OptionNames| ==> OptionNames[i] != OptionNames[j]
  {
  }

  lemma NamesDistinct2()
    ensures forall i, j :: 6 <= i < 10 && i < j < |OptionNames| ==> OptionNames[i] != OptionNames[j]
  {
  }

  lemma NamesDistinct3()
    ensures forall i, j :: 10 <= i < 20 && i < j < |OptionNames| ==> OptionNames[i] != OptionNames[j]
  {
  }

  lemma NamesDistinct4()
    ensures forall i, j :: 20 <= i < 29 && i < j < |OptionNames| ==> OptionNames[i] != OptionNames[j]
  {
  }

  /** The severity flag reads back as the severity, with `"DEFAULT"` read as absent. */
  lemma SeverityFlagReadsBack(severity: Option<string>)
    ensures ParseSeverity(FormatSeverity(severity)) == Some(EffectiveSeverity(severity))
  {
    if severity.Some? && severity.value != "DEFAULT" {
      var flag := FormatSeverity(severity);
      assert flag[..|CheckFlag| + 1] == CheckFlag + ":";
      assert flag[|CheckFlag| + 1..] == severity.value;
      assert |flag| > |CheckFlag|;
    }
  }

  /**
   * `ListOption` emits nothing for an absent or empty list; otherwise its flag
   * reads back as the name and the comma-joined values, and when no value
   * contains a comma, cutting that text at its commas gives back the list.
   */
  lemma ListOptionReadsBack(name: string, values: Option<seq<string>>)
    requires '=' !in name
    ensures ListOption(name, values).None? <==> values.None? || values.value == []
    ensures ListOption(name, values).Some? ==>
      ParseOption(ListOption(name, values).value) == Some((name, Join(values.value)))
    ensures ListOption(name, values).Some? && (forall i :: 0 <= i < |values.value| ==> ',' !in values.value[i]) ==>
      Split(Join(values.value)) == values.value
  {
    if values.Some? && values.value != [] {
      OptionTextParses(name, Join(values.value));
      if forall i :: 0 <= i < |values.value| ==> ',' !in values.value[i] {
        SplitJoin(values.value);
      }
    }
  }

  /** `BooleanOption` emits nothing for null; otherwise its flag reads back as the name and `true` or `false`. */
  lemma BooleanOptionReadsBack(name: string, flag: Option<bool>)
    requires '=' !in name
    ensures BooleanOption(name, flag).None? <==> flag.None?
    ensures BooleanOption(name, flag).Some? ==>
      ParseOption(BooleanOption(name, flag).value) == Some((name, if flag.value then "true" else "false"))
  {
    if flag.Some? {
      OptionTextParses(name, if flag.value then "true" else "false");
    }
  }

  /** `StringOption` emits nothing for null or `""`; otherwise its flag reads back as the name and the string verbatim. */
  lemma StringOptionReadsBack(name: string, text: Option<string>)
    requires '=' !in name
    ensures StringOption(name, text).None? <==> text.None? || text.value == ""
    ensures StringOption(name, text).Some? ==> ParseOption(StringOption(name, text).value) == Some((name, text.value))
  {
    if text.Some? && text.value != "" {
      OptionTextParses(name, text.value);
    }
  }

  /** `arg` is an option flag, not a severity flag, and reads back as the name and value of `entry`. */
  predicate ReadsBackAs(arg: string, entry: (string, OptionValue))
  {
    IsSet(entry.1) && ParseSeverity(arg).None? && ParseOption(arg) == Some((entry.0, ValueText(entry.1)))
  }

  /**
   * The generated list reads back as the configuration: its first flag is the
   * severity flag carrying the effective severity, and each option flag is no
   * severity flag and names a set option of the table with that option's value.
   */
  lemma GeneratedReadsBack(c: Config)
    ensures ParseSeverity(Arguments(c)[0]) == Some(EffectiveSeverity(c.severity))
    ensures |OptionFlags(c)| == |SetPositions(c)|
    ensures forall k :: 0 <= k < |SetPositions(c)| ==>
      SetPositions(c)[k] < |Entries(c)| && ReadsBackAs(OptionFlags(c)[k], Entries(c)[SetPositions(c)[k]])
  {
    GeneratedInTableOrder(c);
    SeverityFlagReadsBack(c.severity);
    TableNamesHaveNoEquals();
    var entries := Entries(c);
    forall k | 0 <= k < |SetPositions(c)|
      ensures SetPositions(c)[k] < |entries| && ReadsBackAs(OptionFlags(c)[k], entries[SetPositions(c)[k]])
    {
      var p := SetPositions(c)[k];
      OptionTextParses(entries[p].0, ValueText(entries[p].1));
      OptionTextIsNoSeverity(entries[p].0, ValueText(entries[p].1));
    }
  }

  /** Each option name occurs in at most one generated flag. */
  lemma GeneratedNamesUnique(c: Config)
    ensures forall k, l :: 0 <= k < l < |OptionFlags(c)| ==>
      ParseOption(OptionFlags(c)[k]).Some? && ParseOption(OptionFlags(c)[l]).Some? &&
      ParseOption(OptionFlags(c)[k]).value.0 != ParseOption(OptionFlags(c)[l]).value.0
  {
    GeneratedInTableOrder(c);
    GeneratedReadsBack(c);
    TableNamesDistinct();
  }

  /** The table positions of the options a configuration sets. */
  function SetOptions(c: Config): set<nat>
  {
    set i: nat | i < |OptionValues(c)| && IsSet(OptionValues(c)[i])
  }

  /** The generated list holds one flag more than the configuration sets options. */
  lemma GeneratedLength(c: Config)
    ensures |Arguments(c)| == 1 + |SetOptions(c)|
  {
    GeneratedInTableOrder(c);
    var positions := SetPositions(c);
    IncreasingElementCount(positions);
    assert Elements(positions) == SetOptions(c);
  }

  /** Every option the configuration sets has its flag among the generated option flags. */
  lemma SetOptionIsGenerated(c: Config, i: nat)
    requires i < |Entries(c)| && IsSet(Entries(c)[i].1)
    ensures OptionText(Entries(c)[i].0, ValueText(Entries(c)[i].1)) in OptionFlags(c)
  {
    GeneratedInTableOrder(c);
    var k :| 0 <= k < |SetPositions(c)| && SetPositions(c)[k] == i;
    assert OptionFlags(c)[k] == OptionText(Entries(c)[i].0, ValueText(Entries(c)[i].1));
  }

  /** A configuration that sets nothing, not even the severity. */
  const Unconfigured: Config := Config(
    None, None, None, None, None, None, None, None, None, None,
    None, None, None, None, None, None, None, None, None, None,
    None, None, None, None, None, None, None, None, None, None)

  /** A configuration yields option flags exactly when at least one option is set. */
  lemma NoOptionFlagsIffNothingSet(c: Config)
    ensures OptionFlags(c) == [] <==> forall i :: 0 <= i < |Entries(c)| ==> !IsSet(Entries(c)[i].1)
  {
    GeneratedInTableOrder(c);
    if |SetPositions(c)| > 0 {
      var p := SetPositions(c)[0];
      assert p < |Entries(c)| && IsSet(Entries(c)[p].1);
    }
  }

  /** The configuration the generator's tests start from: nothing set and severity `"DEFAULT"`. */
  const BuilderDefaults: Config := Unconfigured.(severity := Some("DEFAULT"))

  /**
   * With nothing configured the only flag is the bare check-enable flag,
   * whether the severity is `"DEFAULT"`, as the tests build it, or absent.
   */
  lemma MinimalConfiguration()
    ensures Arguments(BuilderDefaults) == ["-Xep:NullAway"]
    ensures Arguments(Unconfigured) == ["-Xep:NullAway"]
  {
    NothingSet(BuilderDefaults.severity);
    NothingSet(Unconfigured.severity);
    GeneratedLength(BuilderDefaults);
    GeneratedLength(Unconfigured);
  }

  lemma NothingSet(severity: Option<string>)
    ensures SetOptions(Unconfigured.(severity := severity)) == {}
  {
  }

  /** The seven options of the generator's all-options test, on top of the tests' defaults. */
  const SevenOptions: Config := BuilderDefaults.(
    annotatedPackages := Some(["com.example"]),
    unannotatedSubPackages := Some(["com.example.legacy"]),
    excludedClasses := Some(["com.example.Generated"]),
    treatGeneratedAsUnannotated := Some(true),
    suggestSuppressions := Some(true),
    castToNonNullMethod := Some("com.example.Utils.requireNonNull"),
    jspecifyMode := Some(true))

  /**
   * Seven options set (three one-element lists, three booleans and a string)
   * give the severity flag and seven option flags.
   */
  lemma SevenOptionsConfigured()
    ensures |Arguments(SevenOptions)| == 8
    ensures Arguments(SevenOptions)[0] == "-Xep:NullAway"
    ensures OptionText("AnnotatedPackages", "com.example") in Arguments(SevenOptions)
    ensures OptionText("UnannotatedSubPackages", "com.example.legacy") in Arguments(SevenOptions)
    ensures OptionText("ExcludedClasses", "com.example.Generated") in Arguments(SevenOptions)
    ensures OptionText("TreatGeneratedAsUnannotated", "true") in Arguments(SevenOptions)
    ensures OptionText("SuggestSuppressions", "true") in Arguments(SevenOptions)
    ensures OptionText("CastToNonNullMethod", "com.example.Utils.requireNonNull") in Arguments(SevenOptions)
    ensures OptionText("JSpecifyMode", "true") in Arguments(SevenOptions)
  {
    SevenOptionsCount();
    GeneratedLength(SevenOptions);
    SevenOptionsFlagAnnotatedPackages();
    SevenOptionsFlagUnannotatedSubPackages();
    SevenOptionsFlagExcludedClasses();
    SevenOptionsFlagTreatGeneratedAsUnannotated();
    SevenOptionsFlagSuggestSuppressions();
    SevenOptionsFlagCastToNonNullMethod();
    SevenOptionsFlagJSpecifyMode();
  }

  lemma SevenOptionsCount()
    ensures |SetOptions(SevenOptions)| == 7
  {
    SevenOptionsSet();
    CardinalityOfSeven(SetOptions(SevenOptions));
  }

  lemma SevenOptionsSet()
    ensures SetOptions(SevenOptions) == {0, 2, 6, 10, 13, 16, 26}
  {
  }

  lemma CardinalityOfSeven(s: set<nat>)
    requires s == {0, 2, 6, 10, 13, 16, 26}
    ensures |s| == 7
  {
  }

  lemma SevenOptionsFlagAnnotatedPackages()
    ensures OptionText("AnnotatedPackages", "com.example") in Arguments(SevenOptions)
  {
    GeneratedFlagOf(SevenOptions, 0, "AnnotatedPackages", "com.example");
  }

  lemma SevenOptionsFlagUnannotatedSubPackages()
    ensures OptionText("UnannotatedSubPackages", "com.example.legacy") in Arguments(SevenOptions)
  {
    GeneratedFlagOf(SevenOptions, 2, "UnannotatedSubPackages", "com.example.legacy");
  }

  lemma SevenOptionsFlagExcludedClasses()
    ensures OptionText("ExcludedClasses", "com.example.Generated") in Arguments(SevenOptions)
  {
    GeneratedFlagOf(SevenOptions, 6, "ExcludedClasses", "com.example.Generated");
  }

  lemma SevenOptionsFlagTreatGeneratedAsUnannotated()
    ensures OptionText("TreatGeneratedAsUnannotated", "true") in Arguments(SevenOptions)
  {
    GeneratedFlagOf(SevenOptions, 10, "TreatGeneratedAsUnannotated", "true");
  }

  lemma SevenOptionsFlagSuggestSuppressions()
    ensures OptionText("SuggestSuppressions", "true") in Arguments(SevenOptions)
  {
    GeneratedFlagOf(SevenOptions, 13, "SuggestSuppressions", "true");
  }

  lemma SevenOptionsFlagCastToNonNullMethod()
    ensures OptionText("CastToNonNullMethod", "com.example.Utils.requireNonNull") in Arguments(SevenOptions)
  {
    GeneratedFlagOf(SevenOptions, 16, "CastToNonNullMethod", "com.example.Utils.requireNonNull");
  }

  lemma SevenOptionsFlagJSpecifyMode()
    ensures OptionText("JSpecifyMode", "true") in Arguments(SevenOptions)
  {
    GeneratedFlagOf(SevenOptions, 26, "JSpecifyMode", "true");
  }

  lemma GeneratedFlagOf(c: Config, i: nat, name: string, text: string)
    requires i < |Entries(c)| && IsSet(Entries(c)[i].1)
    requires Entries(c)[i].0 == name && ValueText(Entries(c)[i].1) == text
    ensures OptionText(name, text) in Arguments(c)
  {
    SetOptionIsGenerated(c, i);
  }

  /**
   * The inputs of two of the generator's tests combined: severity `ERROR`
   * from the severity test and the two annotated packages of the
   * multiple-packages test.
   */
  const ErrorWithPackages: Config := BuilderDefaults.(severity := Some("ERROR"), annotatedPackages := Some(["com.example", "com.test"]))

  /** Severity `ERROR` with two annotated packages gives exactly two flags. */
  lemma ErrorSeverityWithPackages()
    ensures Arguments(ErrorWithPackages)
      == ["-Xep:NullAway:ERROR", OptionText("AnnotatedPackages", "com.example,com.test")]
  {
    ErrorWithPackagesSetsOne();
    GeneratedLength(ErrorWithPackages);
    SetOptionIsGenerated(ErrorWithPackages, 0);
    ErrorSeverityFlagText();
    TwoPackagesJoined();
    assert |OptionFlags(ErrorWithPackages)| == 1;
  }

  lemma ErrorWithPackagesSetsOne()
    ensures SetOptions(ErrorWithPackages) == {0}
  {
  }

  lemma ErrorSeverityFlagText()
    ensures FormatSeverity(Some("ERROR")) == "-Xep:NullAway:ERROR"
  {
  }

  lemma TwoPackagesJoined()
    ensures Join(["com.example", "com.test"]) == "com.example,com.test"
  {
  }
}
