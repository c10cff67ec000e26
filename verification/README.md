# maven-nullaway-plugin, modelled in Dafny

This project models the `configure` goal of maven-nullaway-plugin. The goal turns a NullAway
configuration into Error Prone command-line flags and adds those flags to the
`maven-compiler-plugin` configuration of the project being built. The model
covers three parts:

- `argument_generator.dfy` (module `ArgumentGenerator`) models
  `ArgumentGenerator`.
  - The generator's final fields are the datatype `Config`. Java `null` is
    `None`.
  - The 29 consecutive `addIfNotNull` calls of `generate` are a fixed option
    table, `Entries`. Each entry holds an option's name and its value, and the
    value is tagged with the formatter that renders it.
  - `Generate` is a method. It builds the list step by step, as the Java
    accumulator does, and is proved equal to the specification function
    `Arguments`. Lemmas about `Arguments` state its shape, its length, its
    order and that it reads back to the configuration.
- `argument_syntax.dfy` (module `ArgumentSyntax`) holds the flag syntax:
  - the `-Xep:NullAway` and `-XepOpt:NullAway:` prefixes;
  - comma joining;
  - parsers that serve as the inverses of the formatters.
- `null_away_mojo.dfy` (module `Mojo`) models `NullAwayMojo`.
  - `validateConfiguration` is a total function with three ordered error kinds.
  - `execute` is the method `NullAwayMojo.Execute`: validate, generate, stop
    when the severity is `OFF`, otherwise inject.
- `compiler_config_injector.dfy` (module `CompilerConfigInjection`) models
  `CompilerConfigInjector`. It changes a heap of `Node` objects in place.
  `maven_model.dfy` (module `MavenModel`) holds the minimal stand-ins for the
  Maven classes: `Xpp3Dom` becomes `Node`, and there are `Plugin`, `Build` and
  `Project`.
  - `getChild` finds the first child with the given name.
  - `getPluginsAsMap` is a map from plugin key to plugin.
  - The method contracts state the injector's effect exactly:
    - which nodes are reused and which are fresh, and that a reused configuration keeps its name and value;
    - that the old children of `<compilerArgs>` are kept;
    - that one new, distinct `<arg>` node per flag is appended, in order;
    - that nothing outside the compiler plugin's configuration changes.
    - A missing plugin changes nothing, because the frame is then empty.
- `wrappers.dfy` (module `Wrappers`) holds `Option`, `Outcome` and a few
  sequence facts about dropping the absent elements of a list.

## Model

| member | source | states |
|---|---|---|
| ArgumentGenerator.FormatOption | maven-nullaway-plugin/src/main/java/net/ltgt/maven/nullaway/ArgumentGenerator.java:184-217 | Each of the three formatters emits a flag exactly when the option is set. A list or string must be present and non-empty; a boolean need only be present. The flag is `-XepOpt:NullAway:<name>=<value>`, where the value is the comma-joined list, `true`/`false`, or the string verbatim. |
| ArgumentGenerator.AddIfNotNull | maven-nullaway-plugin/src/main/java/net/ltgt/maven/nullaway/ArgumentGenerator.java:225-229 | An absent argument leaves the list unchanged; a present one is appended at the end. |
| ArgumentGenerator.AddEach | maven-nullaway-plugin/src/main/java/net/ltgt/maven/nullaway/ArgumentGenerator.java:124-152 | The run of `addIfNotNull` calls appends, after the existing flags, the flag of every set option of the table, in table order. |
| ArgumentGenerator.Generate | maven-nullaway-plugin/src/main/java/net/ltgt/maven/nullaway/ArgumentGenerator.java:117-155 | The list `generate` builds equals the specification `Arguments(c)`: the severity flag, then the option flags. Because it is a function of the final fields, repeated calls agree. |
| ArgumentGenerator.GeneratedInTableOrder | maven-nullaway-plugin/src/main/java/net/ltgt/maven/nullaway/ArgumentGenerator.java:117-155 | The severity flag comes first. After it there is exactly one flag per set option, at strictly increasing table positions. No set option is skipped and no unset option is emitted. |
| ArgumentGenerator.SeverityFlagReadsBack | maven-nullaway-plugin/src/main/java/net/ltgt/maven/nullaway/ArgumentGenerator.java:170-175 | `FormatSeverity` (formatSeverity): the severity flag parses back as the severity, with null and `"DEFAULT"` both giving the bare `-Xep:NullAway`. Any other severity is appended verbatim after `:`. |
| ArgumentGenerator.ListOptionReadsBack | maven-nullaway-plugin/src/main/java/net/ltgt/maven/nullaway/ArgumentGenerator.java:184-189 | `ListOption` (listOption) emits nothing exactly when the list is null or empty. Otherwise its flag parses back as the name and the comma-joined values. When no value contains a comma, splitting that text at commas gives back the original list, in order. |
| ArgumentGenerator.BooleanOptionReadsBack | maven-nullaway-plugin/src/main/java/net/ltgt/maven/nullaway/ArgumentGenerator.java:198-203 | `BooleanOption` (booleanOption) emits nothing exactly when the flag is null. Otherwise its flag parses back as the name and `true` or `false`, matching the value. |
| ArgumentGenerator.StringOptionReadsBack | maven-nullaway-plugin/src/main/java/net/ltgt/maven/nullaway/ArgumentGenerator.java:212-217 | `StringOption` (stringOption) emits nothing exactly when the string is null or empty. Otherwise its flag parses back as the name and the string verbatim. |
| ArgumentGenerator.GeneratedReadsBack | maven-nullaway-plugin/src/main/java/net/ltgt/maven/nullaway/ArgumentGenerator.java:117-217 | The first flag carries the effective severity. Every later flag is an option flag, not a severity flag, and parses back as the name and value of the set option at its table position. |
| ArgumentGenerator.TableNamesHaveNoEquals | maven-nullaway-plugin/src/main/java/net/ltgt/maven/nullaway/ArgumentGenerator.java:124-152 | No option name contains `=`, so the name/value split of each option flag is unambiguous. |
| ArgumentGenerator.TableNamesDistinct | maven-nullaway-plugin/src/main/java/net/ltgt/maven/nullaway/ArgumentGenerator.java:124-152 | The 29 option names are pairwise distinct. |
| ArgumentGenerator.GeneratedNamesUnique | maven-nullaway-plugin/src/main/java/net/ltgt/maven/nullaway/ArgumentGenerator.java:124-152 | No option name occurs in two generated flags. |
| ArgumentGenerator.GeneratedLength | maven-nullaway-plugin/src/main/java/net/ltgt/maven/nullaway/ArgumentGenerator.java:117-155 | The output length is one plus the number of set options. |
| ArgumentGenerator.SetOptionIsGenerated | maven-nullaway-plugin/src/main/java/net/ltgt/maven/nullaway/ArgumentGenerator.java:124-152 | Every set option's flag is among the generated option flags. |
| ArgumentGenerator.NoOptionFlagsIffNothingSet | maven-nullaway-plugin/src/main/java/net/ltgt/maven/nullaway/ArgumentGenerator.java:124-152 | There are no option flags exactly when no option is set, in both directions. |
| ArgumentGenerator.MinimalConfiguration | maven-nullaway-plugin/src/test/java/net/ltgt/maven/nullaway/ArgumentGeneratorTest.java:226-234 | With nothing configured, the output is exactly `["-Xep:NullAway"]`. This holds both for the tests' builder default severity `"DEFAULT"` and for an absent severity. |
| ArgumentGenerator.SevenOptionsConfigured | maven-nullaway-plugin/src/test/java/net/ltgt/maven/nullaway/ArgumentGeneratorTest.java:192-222 | With the tests' builder default severity `"DEFAULT"`, the seven options of the all-options test give eight flags: the bare severity flag and each of the seven expected option flags. |
| ArgumentGenerator.ErrorSeverityWithPackages | maven-nullaway-plugin/src/test/java/net/ltgt/maven/nullaway/ArgumentGeneratorTest.java:46-70 | This lemma combines the inputs of two tests: severity `ERROR` from testSeverityError and the packages `com.example` and `com.test` from testAnnotatedPackagesMultiple. Together they give exactly the two flags those tests check: `-Xep:NullAway:ERROR` and `AnnotatedPackages=com.example,com.test`. |
| ArgumentSyntax.SplitJoin | maven-nullaway-plugin/src/main/java/net/ltgt/maven/nullaway/ArgumentGenerator.java:188 | For comma-free elements, splitting the comma-joined text gives back the list. |
| ArgumentSyntax.OptionTextParses | maven-nullaway-plugin/src/main/java/net/ltgt/maven/nullaway/ArgumentGenerator.java:184-217 | An option flag whose name has no `=` parses back as exactly that name and value. |
| ArgumentSyntax.OptionTextIsNoSeverity | maven-nullaway-plugin/src/main/java/net/ltgt/maven/nullaway/ArgumentGenerator.java:170-217 | An option flag never parses as a severity flag. |
| Mojo.ValidateConfiguration | maven-nullaway-plugin/src/main/java/net/ltgt/maven/nullaway/NullAwayMojo.java:328-352 | The configuration passes exactly when all three rules hold: it does not name both scopes; it names a scope unless the severity is exactly `OFF`, with null counting as enabled; and `acknowledgeAndroidRecent=true` comes with `acknowledgeRestrictiveAnnotations=true`. Otherwise the error is the first rule broken, each error kind characterised in both directions. |
| Mojo.EnabledValidNamesOneScope | maven-nullaway-plugin/src/main/java/net/ltgt/maven/nullaway/NullAwayMojo.java:330-344 | An enabled configuration that passes names exactly one of `onlyNullMarked` and `annotatedPackages`. |
| Mojo.EnabledValidScopeFlagFirst | maven-nullaway-plugin/src/main/java/net/ltgt/maven/nullaway/NullAwayMojo.java:266-302 | For an enabled, valid configuration, the flags handed to the injector start with the severity flag. The scope flag follows it: `AnnotatedPackages=…` when packages are given, else `OnlyNullMarked=true`. |
| Mojo.DisabledNeedsNoScope | maven-nullaway-plugin/src/main/java/net/ltgt/maven/nullaway/NullAwayMojo.java:340-351 | With severity `OFF` and no scope, validation passes exactly when the Android rule holds. |
| Mojo.NullAwayMojo.Execute | maven-nullaway-plugin/src/main/java/net/ltgt/maven/nullaway/NullAwayMojo.java:264-321 | An invalid configuration fails with its validation error, and a valid configuration with severity `OFF` succeeds; in both cases nothing changes. Otherwise, a missing compiler plugin fails, and when the plugin is present exactly the generated flags `Arguments(parameters)` are injected. |
| Mojo.NullAwayMojo.Inject | maven-nullaway-plugin/src/main/java/net/ltgt/maven/nullaway/NullAwayMojo.java:311-312 | A fresh injector for the project either reports the missing compiler plugin or injects the given flags. |
| CompilerConfigInjection.CompilerPluginOf | maven-nullaway-plugin/src/main/java/net/ltgt/maven/nullaway/CompilerConfigInjector.java:17-19 | The one definition of the lookup, which all contracts use. There is a compiler plugin exactly when the build exists and its plugin map has the key `org.apache.maven.plugins:maven-compiler-plugin`. The plugin is the one filed under that key. |
| CompilerConfigInjection.CompilerConfigInjector.FindCompilerPlugin | maven-nullaway-plugin/src/main/java/net/ltgt/maven/nullaway/CompilerConfigInjector.java:72-77 | The function delegates to `CompilerPluginOf`. With no build there is no plugin; otherwise the result is the plugin filed under the compiler key, and none when that key is missing. |
| CompilerConfigInjection.CompilerConfigInjector.InjectCompilerArgs | maven-nullaway-plugin/src/main/java/net/ltgt/maven/nullaway/CompilerConfigInjector.java:33-65 | An empty list succeeds and changes nothing, even without a plugin. A missing plugin fails and, by the frame, changes nothing. Otherwise `ArgsInjected` holds: the configuration is reused, keeping its name and value, or freshly created; `<compilerArgs>` is reused or freshly appended, and one fresh `<arg>` per flag follows its old children. The project object itself is unchanged. |
| CompilerConfigInjection.InjectInto | maven-nullaway-plugin/src/main/java/net/ltgt/maven/nullaway/CompilerConfigInjector.java:46-64 | A plugin without a configuration gets a fresh `<configuration>` whose only child is a fresh `<compilerArgs>` holding the new `<arg>` nodes. An existing configuration is kept, with its name and value, and extended. |
| CompilerConfigInjection.ExtendCompilerArgs | maven-nullaway-plugin/src/main/java/net/ltgt/maven/nullaway/CompilerConfigInjector.java:53-64 | An existing configuration keeps its name and value. Its `<compilerArgs>` child is reused with its old children and their contents untouched, or it is a fresh empty node appended after the other children. The other children of the configuration stay as they were. |
| CompilerConfigInjection.GetOrCreateCompilerArgs | maven-nullaway-plugin/src/main/java/net/ltgt/maven/nullaway/CompilerConfigInjector.java:53-57 | The result is what `getChild("compilerArgs")` finds afterwards. It is the existing child, leaving the children unchanged, or a fresh empty node appended at the end. |
| CompilerConfigInjection.AppendArgNodes | maven-nullaway-plugin/src/main/java/net/ltgt/maven/nullaway/CompilerConfigInjector.java:60-64 | The old children are kept as a prefix. They are followed by exactly one fresh `<arg>` node per argument, in input order, each holding its argument as its value. The new nodes are pairwise distinct objects, even when the list repeats a string. |
| CompilerConfigInjection.ArgNodesConcat | maven-nullaway-plugin/src/main/java/net/ltgt/maven/nullaway/CompilerConfigInjector.java:60-64 | `<arg>` nodes for two argument lists, placed one after the other, are the nodes for the joined list. |
| CompilerConfigInjection.InjectedArgsAtEnd | maven-nullaway-plugin/src/main/java/net/ltgt/maven/nullaway/CompilerConfigInjector.java:46-64 | After an injection, the injected arguments are the last children of `<compilerArgs>`, as `getChild` finds it. |
| CompilerConfigInjection.InjectedAgainAtEnd | maven-nullaway-plugin/src/main/java/net/ltgt/maven/nullaway/CompilerConfigInjector.java:60-64 | Injecting into a `<compilerArgs>` that already ends with the arguments leaves them there twice: there is no deduplication. |
| CompilerConfigInjection.InjectTwice | maven-nullaway-plugin/src/main/java/net/ltgt/maven/nullaway/CompilerConfigInjector.java:33-65 | Injecting the same non-empty list twice into a project with a compiler plugin succeeds both times and leaves the list twice at the end of `<compilerArgs>`, so injection is not idempotent. |

## Left out

- Logging in `execute` (the info and debug messages) is not modelled. It has
  no effect on the result or on the project.
- Maven wiring is not modelled: the goal and parameter annotations, property
  binding, default values and the `AbstractMojo` lifecycle. The parameter
  values are taken as the input record `Config`.
- The text of exception messages is not modelled. Errors are distinguished by
  kind only.
- `null` elements inside a Java list are not modelled. `String.join` would
  render them as `null`, but list elements here are plain strings.
- The internals of `MavenProject`, `Plugin`, `getPluginsAsMap` and `Xpp3Dom`
  are not part of this model. The stand-ins in `MavenModel` assume that:
  - `getChild` returns the first child with the given name;
  - the project's build section does not change during the goal.
- CompilerConfigInjection.CompilerConfigInjector.InjectCompilerArgs requires
  a well-shaped tree: `<compilerArgs>` is not the configuration, is not its
  own child, and does not have the configuration as a child. The Java code does not check this.
  It holds for any tree parsed from a POM.
- ArgumentGenerator.Generate walks the option table in a loop rather than
  making 29 separate `addIfNotNull` calls. The option flags are stated through
  `OptionText(name, value)`, not as 29 literal strings. The option-flag texts
  the tests check are also stated through `OptionText`. Only the severity
  flags `-Xep:NullAway` and `-Xep:NullAway:ERROR` appear as full literals.
- MavenModel.Node.GetChild returns the first child with the given name.
  Some plexus-utils versions of `Xpp3Dom.getChild` return the last match
  instead. The two differ only when `<configuration>` already holds two
  `<compilerArgs>` children. In that case the model extends the first and the
  library would extend the last.
