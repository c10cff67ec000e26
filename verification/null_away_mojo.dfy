/**
 * The plugin's goal: check the NullAway configuration, generate the Error
 * Prone flags and, unless NullAway is switched off, add them to the
 * compiler plugin's configuration.
 */
module Mojo {
  import opened Wrappers
  import opened ArgumentSyntax
  import opened ArgumentGenerator
  import opened MavenModel
  import opened CompilerConfigInjection

  /** The three ways `validateConfiguration` rejects a configuration, in the order it checks them. */
  datatype ConfigError =
    | BothOnlyNullMarkedAndAnnotatedPackages
    | NeitherOnlyNullMarkedNorAnnotatedPackages
    | AndroidRecentWithoutRestrictiveAnnotations

  /** Why `execute` failed. */
  datatype MojoError =
    | InvalidConfiguration(reason: ConfigError)
    | CompilerPluginMissing

  /** `onlyNullMarked` is set to true. */
  predicate HasOnlyNullMarked(c: Config)
  {
    c.onlyNullMarked == Some(true)
  }

  /** `annotatedPackages` is set and non-empty. */
  predicate HasAnnotatedPackages(c: Config)
  {
    c.annotatedPackages.Some? && c.annotatedPackages.value != []
  }

  /** The severity is exactly `"OFF"`; an absent severity leaves NullAway enabled. */
  predicate Disabled(c: Config)
  {
    c.severity == Some("OFF")
  }

  /** `acknowledgeAndroidRecent` is true while `acknowledgeRestrictiveAnnotations` is not. */
  predicate AndroidRecentUnacknowledged(c: Config)
  {
    c.acknowledgeAndroidRecent == Some(true) && c.acknowledgeRestrictiveAnnotations != Some(true)
  }

  /**
   * `validateConfiguration`: a configuration passes when it does not name both
   * scopes, names one of them unless NullAway is off, and acknowledges
   * restrictive annotations whenever it acknowledges recent Android; otherwise
   * the error is that of the first rule broken.
   */
  function ValidateConfiguration(c: Config): (r: Outcome<ConfigError>)
    ensures r == Pass <==>
      !(HasOnlyNullMarked(c) && HasAnnotatedPackages(c)) &&
      (HasOnlyNullMarked(c) || HasAnnotatedPackages(c) || Disabled(c)) &&
      (c.acknowledgeAndroidRecent == Some(true) ==> c.acknowledgeRestrictiveAnnotations == Some(true))
    ensures r == Fail(BothOnlyNullMarkedAndAnnotatedPackages) <==> HasOnlyNullMarked(c) && HasAnnotatedPackages(c)
    ensures r == Fail(NeitherOnlyNullMarkedNorAnnotatedPackages) <==>
      !HasOnlyNullMarked(c) && !HasAnnotatedPackages(c) && !Disabled(c)
    ensures r == Fail(AndroidRecentWithoutRestrictiveAnnotations) <==>
      (HasOnlyNullMarked(c) || HasAnnotatedPackages(c) || Disabled(c)) &&
      !(HasOnlyNullMarked(c) && HasAnnotatedPackages(c)) && AndroidRecentUnacknowledged(c)
  {
    var hasOnlyNullMarked := HasOnlyNullMarked(c);
    var hasAnnotatedPackages := HasAnnotatedPackages(c);
    if hasOnlyNullMarked && hasAnnotatedPackages then Fail(BothOnlyNullMarkedAndAnnotatedPackages)
    else if !hasOnlyNullMarked && !hasAnnotatedPackages && !Disabled(c) then Fail(NeitherOnlyNullMarkedNorAnnotatedPackages)
    else if AndroidRecentUnacknowledged(c) then Fail(AndroidRecentWithoutRestrictiveAnnotations)
    else Pass
  }

  /** An enabled configuration that passes validation names exactly one of the two scopes. */
  lemma EnabledValidNamesOneScope(c: Config)
    requires ValidateConfiguration(c) == Pass && !Disabled(c)
    ensures HasOnlyNullMarked(c) != HasAnnotatedPackages(c)
  {
  }

  /**
   * The flags `execute` hands to the injector for an enabled, valid
   * configuration start with the severity flag followed by the scope flag:
   * the annotated packages when given, otherwise `OnlyNullMarked=true`.
   */
  lemma {:induction false} EnabledValidScopeFlagFirst(c: Config)
    requires ValidateConfiguration(c) == Pass && !Disabled(c)
    ensures |Arguments(c)| >= 2 && Arguments(c)[0] == FormatSeverity(c.severity)
    ensures HasAnnotatedPackages(c) ==>
      Arguments(c)[1] == OptionText("AnnotatedPackages", Join(c.annotatedPackages.value))
    ensures !HasAnnotatedPackages(c) ==> Arguments(c)[1] == OptionText("OnlyNullMarked", "true")
  {
    GeneratedInTableOrder(c);
    var entries := Entries(c);
    var positions := SetPositions(c);
    assert entries[0] == ("AnnotatedPackages", ListValue(c.annotatedPackages));
    assert entries[1] == ("OnlyNullMarked", BooleanValue(c.onlyNullMarked));
    var first := if HasAnnotatedPackages(c) then 0 else 1;
    assert IsSet(entries[first].1);
    var k :| 0 <= k < |positions| && positions[k] == first;
    assert Arguments(c)[1] == OptionFlags(c)[0];
  }

  /**
   * A configuration that is off still passes validation without naming a
   * scope, as long as it does not name both and meets the Android rule.
   */
  lemma DisabledNeedsNoScope(c: Config)
    requires Disabled(c) && !HasOnlyNullMarked(c) && !HasAnnotatedPackages(c)
    ensures ValidateConfiguration(c) == Pass <==> !AndroidRecentUnacknowledged(c)
  {
  }

  /** `NullAwayMojo`: the goal, bound to the project being built and the configured parameters. */
  class NullAwayMojo {
    const project: Project
    const parameters: Config

    constructor (project: Project, parameters: Config)
      ensures this.project == project && this.parameters == parameters
    {
      this.project := project;
      this.parameters := parameters;
    }

    /**
     * `execute`: validate, generate, stop when NullAway is off, otherwise
     * inject the generated flags. An invalid configuration and an off
     * severity change nothing; a missing compiler plugin fails without
     * changing anything; otherwise exactly the generated flags are appended.
     */
    method Execute() returns (result: Outcome<MojoError>)
      requires WellShaped(project)
      modifies Footprint(project)
      ensures ValidateConfiguration(parameters).Fail? ==>
        result == Fail(InvalidConfiguration(ValidateConfiguration(parameters).error)) && unchanged(old(Footprint(project)))
      ensures ValidateConfiguration(parameters) == Pass && Disabled(parameters) ==>
        result == Pass && unchanged(old(Footprint(project)))
      ensures ValidateConfiguration(parameters) == Pass && !Disabled(parameters) && CompilerPluginOf(project).None? ==>
        result == Fail(CompilerPluginMissing)
      ensures ValidateConfiguration(parameters) == Pass && !Disabled(parameters) && CompilerPluginOf(project).Some? ==>
        result == Pass && ArgsInjected(CompilerPluginOf(project).value, Arguments(parameters))
      ensures unchanged(project)
    {
      var validation := ValidateConfiguration(parameters);
      if validation.Fail? {
        return Fail(InvalidConfiguration(validation.error));
      }
      var arguments := Generate(parameters);
      if parameters.severity == Some("OFF") {
        return Pass;
      }
      result := Inject(arguments);
    }

    /**
     * The injection step of `execute`: hands `arguments` to a fresh
     * `CompilerConfigInjector` for the project and reports a missing
     * compiler plugin as the goal's failure.
     */
    method Inject(arguments: seq<string>) returns (result: Outcome<MojoError>)
      requires arguments != [] && WellShaped(project)
      modifies Footprint(project)
      ensures CompilerPluginOf(project).None? ==> result == Fail(CompilerPluginMissing)
      ensures CompilerPluginOf(project).Some? ==> result == Pass && ArgsInjected(CompilerPluginOf(project).value, arguments)
      ensures unchanged(project)
    {
      var injector := new CompilerConfigInjector(project);
      var injected := injector.InjectCompilerArgs(arguments);
      if injected.Fail? {
        return Fail(CompilerPluginMissing);
      }
      result := Pass;
    }
  }
}
