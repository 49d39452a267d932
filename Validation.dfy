/** Configuration validation (config/validator/ValidationRule.kt,
    config/validator/ConfigValidator.kt) over the configuration records of
    config/model, whose defaults are kept. */
module Validation {
  import opened Strings

  // ---------------------------------------------------------------------
  // The configuration records, with their defaults

  datatype AppMetadata = AppMetadata(
    name: string := "Laret",
    version: string := "1.0.0",
    description: string := "",
    author: string := "")

  datatype OutputConfig = OutputConfig(
    format: string := "plain",
    colorized: bool := true,
    verbose: bool := false,
    prettify: bool := true)

  datatype PluginConfig = PluginConfig(
    enabled: seq<string> := [],
    disabled: seq<string> := [],
    paths: seq<string> := [],
    autoLoad: bool := true)

  datatype LoggingConfig = LoggingConfig(
    level: string := "INFO",
    file: string := "",
    format: string := "%d{yyyy-MM-dd HH:mm:ss} [%thread] %-5level %logger{36} - %msg%n",
    maxSize: string := "10MB",
    maxHistory: int := 10)

  datatype AppConfig = AppConfig(
    app: AppMetadata := AppMetadata(),
    output: OutputConfig := OutputConfig(),
    plugins: PluginConfig := PluginConfig(),
    logging: LoggingConfig := LoggingConfig())

  // ---------------------------------------------------------------------
  // Results

  datatype ValidationResult = ValidationResult(
    isValid: bool,
    errors: seq<string> := [],
    warnings: seq<string> := [])

  const Valid: ValidationResult := ValidationResult(true)

  function Merge(a: ValidationResult, b: ValidationResult): ValidationResult
  {
    ValidationResult(a.isValid && b.isValid, a.errors + b.errors, a.warnings + b.warnings)
  }

  /** An empty valid result changes nothing merged on either side. */
  lemma MergeIdentity(a: ValidationResult)
    ensures Merge(Valid, a) == a && Merge(a, Valid) == a
  {
    assert [] + a.errors == a.errors && a.errors + [] == a.errors;
    assert [] + a.warnings == a.warnings && a.warnings + [] == a.warnings;
  }

  lemma MergeAssociative(a: ValidationResult, b: ValidationResult, c: ValidationResult)
    ensures Merge(Merge(a, b), c) == Merge(a, Merge(b, c))
  {
    assert (a.errors + b.errors) + c.errors == a.errors + (b.errors + c.errors);
    assert (a.warnings + b.warnings) + c.warnings == a.warnings + (b.warnings + c.warnings);
  }

  /** Validity is the conjunction, and messages are kept in order: this
      result's first, each message of either side exactly once. */
  lemma MergeKeepsEverything(a: ValidationResult, b: ValidationResult)
    ensures Merge(a, b).isValid <==> a.isValid && b.isValid
    ensures Merge(a, b).errors[..|a.errors|] == a.errors && Merge(a, b).errors[|a.errors|..] == b.errors
    ensures Merge(a, b).warnings[..|a.warnings|] == a.warnings
         && Merge(a, b).warnings[|a.warnings|..] == b.warnings
  {
  }

  /** Once a result is invalid, nothing merged into it on either side makes
      it valid again. */
  lemma InvalidAbsorbs(a: ValidationResult, b: ValidationResult)
    requires !a.isValid
    ensures !Merge(a, b).isValid && !Merge(b, a).isValid
  {
  }

  // ---------------------------------------------------------------------
  // Rules

  /** What running a rule does: return a result or throw with a message. */
  datatype RuleOutcome = Returns(result: ValidationResult) | Fails(message: string)

  /** The four built-in rules, and any other rule as its behaviour on a
      configuration. */
  datatype Rule =
    | AppNameRule
    | OutputFormatRule
    | LoggingLevelRule
    | PluginPathsRule
    | Custom(check: AppConfig -> RuleOutcome)

  const ValidFormats: seq<string> := ["json", "yaml", "toml", "plain"]
  const ValidLevels: seq<string> := ["TRACE", "DEBUG", "INFO", "WARN", "ERROR"]

  /** A failing result with one error message. */
  function Invalid(message: string): ValidationResult
  {
    ValidationResult(false, [message])
  }

  function AppNameResult(config: AppConfig): (r: ValidationResult)
    ensures r.warnings == []
    ensures r.isValid <==> !IsBlank(config.app.name) && |config.app.name| <= 100
    ensures r.errors == if r.isValid then [] else ["App name must be non-empty and max 100 characters"]
  {
    if !IsBlank(config.app.name) && |config.app.name| <= 100 then Valid
    else Invalid("App name must be non-empty and max 100 characters")
  }

  /** The format must be one of the four names exactly, in lower case. */
  function OutputFormatResult(config: AppConfig): (r: ValidationResult)
    ensures r.warnings == []
    ensures r.isValid <==> config.output.format in ["json", "yaml", "toml", "plain"]
    ensures r.errors == if r.isValid then []
      else ["Invalid output format: " + config.output.format + ". Valid: [json, yaml, toml, plain]"]
  {
    if config.output.format in ValidFormats then Valid
    else Invalid("Invalid output format: " + config.output.format + ". Valid: [json, yaml, toml, plain]")
  }

  /** The level is accepted in any letter case. */
  function LoggingLevelResult(config: AppConfig): (r: ValidationResult)
    ensures r.warnings == []
    ensures r.isValid <==> Upper(config.logging.level) in ["TRACE", "DEBUG", "INFO", "WARN", "ERROR"]
    ensures r.errors == if r.isValid then []
      else ["Invalid log level: " + config.logging.level + ". Valid: [TRACE, DEBUG, INFO, WARN, ERROR]"]
  {
    if Upper(config.logging.level) in ValidLevels then Valid
    else Invalid("Invalid log level: " + config.logging.level + ". Valid: [TRACE, DEBUG, INFO, WARN, ERROR]")
  }

  /** `paths.filter { it.isBlank() }`. */
  function BlankPaths(paths: seq<string>): (r: seq<string>)
    ensures forall p :: p in r <==> p in paths && IsBlank(p)
  {
    if paths == [] then []
    else (if IsBlank(paths[0]) then [paths[0]] else []) + BlankPaths(paths[1..])
  }

  /** One error, however many paths are blank. */
  function PluginPathsResult(config: AppConfig): (r: ValidationResult)
    ensures r.warnings == []
    ensures r.isValid <==> forall k :: 0 <= k < |config.plugins.paths| ==> !IsBlank(config.plugins.paths[k])
    ensures r.errors == if r.isValid then [] else ["Plugin paths cannot be empty"]
  {
    var blank := BlankPaths(config.plugins.paths);
    assert blank == [] <==> forall k :: 0 <= k < |config.plugins.paths| ==> !IsBlank(config.plugins.paths[k]) by {
      if blank != [] {
        assert blank[0] in blank;
      }
    }
    if blank == [] then Valid else Invalid("Plugin paths cannot be empty")
  }

  function RunRule(rule: Rule, config: AppConfig): RuleOutcome
  {
    match rule
    case AppNameRule => Returns(AppNameResult(config))
    case OutputFormatRule => Returns(OutputFormatResult(config))
    case LoggingLevelRule => Returns(LoggingLevelResult(config))
    case PluginPathsRule => Returns(PluginPathsResult(config))
    case Custom(check) => check(config)
  }

  /** One turn of `validate`: merge the returned result, or record the
      exception and mark the result invalid. */
  function Absorb(acc: ValidationResult, outcome: RuleOutcome): ValidationResult
  {
    match outcome
    case Returns(r) => Merge(acc, r)
    case Fails(msg) => acc.(isValid := false, errors := acc.errors + ["Validation rule failed: " + msg])
  }

  /** `validate` over a list of rules, the last rule absorbed last. */
  function ValidateAll(rules: seq<Rule>, config: AppConfig): ValidationResult
  {
    if rules == [] then Valid
    else Absorb(ValidateAll(rules[..|rules| - 1], config), RunRule(rules[|rules| - 1], config))
  }

  // ---------------------------------------------------------------------
  // What `validate` promises

  /** A rule passes when it returns a valid result. */
  predicate Passes(rule: Rule, config: AppConfig)
  {
    RunRule(rule, config).Returns? && RunRule(rule, config).result.isValid
  }

  /** The messages one rule contributes. */
  function ErrorsFrom(outcome: RuleOutcome): seq<string>
  {
    match outcome
    case Returns(r) => r.errors
    case Fails(msg) => ["Validation rule failed: " + msg]
  }

  function WarningsFrom(outcome: RuleOutcome): seq<string>
  {
    if outcome.Returns? then outcome.result.warnings else []
  }

  /** Each rule's errors, rule by rule, concatenated from the first rule on. */
  function AllErrors(rules: seq<Rule>, config: AppConfig): seq<string>
  {
    if rules == [] then [] else ErrorsFrom(RunRule(rules[0], config)) + AllErrors(rules[1..], config)
  }

  function AllWarnings(rules: seq<Rule>, config: AppConfig): seq<string>
  {
    if rules == [] then [] else WarningsFrom(RunRule(rules[0], config)) + AllWarnings(rules[1..], config)
  }

  lemma {:induction false} AllErrorsSnoc(rules: seq<Rule>, config: AppConfig)
    requires rules != []
    ensures AllErrors(rules, config)
         == AllErrors(rules[..|rules| - 1], config) + ErrorsFrom(RunRule(rules[|rules| - 1], config))
  {
    if |rules| > 1 {
      assert rules[1..][..|rules[1..]| - 1] == rules[..|rules| - 1][1..];
      assert rules[1..][|rules[1..]| - 1] == rules[|rules| - 1];
      AllErrorsSnoc(rules[1..], config);
    }
  }

  lemma {:induction false} AllWarningsSnoc(rules: seq<Rule>, config: AppConfig)
    requires rules != []
    ensures AllWarnings(rules, config)
         == AllWarnings(rules[..|rules| - 1], config) + WarningsFrom(RunRule(rules[|rules| - 1], config))
  {
    if |rules| > 1 {
      assert rules[1..][..|rules[1..]| - 1] == rules[..|rules| - 1][1..];
      assert rules[1..][|rules[1..]| - 1] == rules[|rules| - 1];
      AllWarningsSnoc(rules[1..], config);
    }
  }

  /** The result is valid exactly when every rule passes; its errors are the
      rules' errors in rule order (a throwing rule contributing
      "Validation rule failed: <message>" and the later rules still
      running), and likewise its warnings. */
  lemma {:induction false} ValidateMeaning(rules: seq<Rule>, config: AppConfig)
    ensures ValidateAll(rules, config).isValid <==> forall k :: 0 <= k < |rules| ==> Passes(rules[k], config)
    ensures ValidateAll(rules, config).errors == AllErrors(rules, config)
    ensures ValidateAll(rules, config).warnings == AllWarnings(rules, config)
  {
    if rules != [] {
      var init := rules[..|rules| - 1];
      ValidateMeaning(init, config);
      AllErrorsSnoc(rules, config);
      AllWarningsSnoc(rules, config);
      assert forall k :: 0 <= k < |init| ==> init[k] == rules[k];
    }
  }

  /** The built-in rules, in the order the validator installs them. */
  const DefaultRules: seq<Rule> := [AppNameRule, OutputFormatRule, LoggingLevelRule, PluginPathsRule]

  /** The default configuration passes the built-in rules with no message. */
  lemma DefaultConfigIsValid()
    ensures ValidateAll(DefaultRules, AppConfig()) == Valid
  {
    var c := AppConfig();
    var rs := DefaultRules;
    assert !IsWhitespace(c.app.name[0]);
    assert AppNameResult(c) == Valid;
    assert OutputFormatResult(c) == Valid;
    assert Upper(c.logging.level) == "INFO";
    assert LoggingLevelResult(c) == Valid;
    assert PluginPathsResult(c) == Valid;
    assert ValidateAll(rs[..1], c) == Valid by {
      assert rs[..1][..0] == [];
      MergeIdentity(Valid);
    }
    assert ValidateAll(rs[..2], c) == Valid by {
      assert rs[..2][..1] == rs[..1];
    }
    assert ValidateAll(rs[..3], c) == Valid by {
      assert rs[..3][..2] == rs[..2];
    }
    assert rs[..4] == rs;
  }

  /** Levels that differ only in letter case are judged alike. */
  lemma LevelCaseInsensitive(config: AppConfig, level: string)
    requires Upper(level) == Upper(config.logging.level)
    ensures LoggingLevelResult(config.(logging := config.logging.(level := level))).isValid
        == LoggingLevelResult(config).isValid
  {
  }

  /** Formats are matched exactly: `JSON` is rejected although `json` is accepted. */
  lemma FormatCaseSensitive()
    ensures OutputFormatResult(AppConfig(output := OutputConfig(format := "json"))).isValid
    ensures !OutputFormatResult(AppConfig(output := OutputConfig(format := "JSON"))).isValid
  {
    assert "JSON" != "json";
  }

  // ---------------------------------------------------------------------
  // The validator

  class ConfigValidator {
    var rules: seq<Rule>

    /** A new validator holds the four built-in rules, in order. */
    constructor ()
      ensures rules == DefaultRules
    {
      rules := [];
      new;
      var _ := AddRule(AppNameRule);
      var _ := AddRule(OutputFormatRule);
      var _ := AddRule(LoggingLevelRule);
      var _ := AddRule(PluginPathsRule);
    }

    /** Appends after the rules already held and answers the validator itself. */
    method AddRule(rule: Rule) returns (self: ConfigValidator)
      modifies this
      ensures rules == old(rules) + [rule]
      ensures self == this
    {
      rules := rules + [rule];
      self := this;
    }

    /** Runs every rule in order, each exception caught and recorded. */
    method Validate(config: AppConfig) returns (result: ValidationResult)
      ensures result == ValidateAll(rules, config)
    {
      result := ValidationResult(true);
      for k := 0 to |rules|
        invariant result == ValidateAll(rules[..k], config)
      {
        assert rules[..k + 1][..k] == rules[..k];
        match RunRule(rules[k], config)
        case Returns(r) =>
          result := Merge(result, r);
        case Fails(msg) =>
          result := result.(isValid := false, errors := result.errors + ["Validation rule failed: " + msg]);
      }
      assert rules[..|rules|] == rules;
    }
  }
}
