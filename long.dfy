/** Long (multi-character) flag descriptors of long.go. */
module Long {
  import opened Wrappers
  import opened Errors
  import opened Values
  import opened Short
  import FlagParser

  /** The source's MakeOption function pointers: one per option strategy. */
  datatype LongMakeOption =
    | LongFlagMakeOptionAutoHelp
    | LongFlagMakeOptionBool
    | LongFlagMakeOptionWithRequiredValue
    | LongFlagMakeOptionWithOptionalValue

  /** The tokenizer option type each strategy asks for. */
  function LongOptionType(m: LongMakeOption): FlagParser.OptionType
  {
    match m
    case LongFlagMakeOptionAutoHelp => FlagParser.OptionTypeEarlyArgumentNone
    case LongFlagMakeOptionBool => FlagParser.OptionTypeStandaloneArgumentOptional
    case LongFlagMakeOptionWithRequiredValue => FlagParser.OptionTypeStandaloneArgumentRequired
    case LongFlagMakeOptionWithOptionalValue => FlagParser.OptionTypeStandaloneArgumentOptional
  }

  datatype LongFlag = LongFlag(
    Description: seq<string>,
    ArgumentName: string,
    DefaultValue: string,
    MakeOption: LongMakeOption,
    Name: string,
    Prefix: string,
    Value: Value)
  {
    /** The synopsis in help output, such as `--verbose` or `--output FILE`. */
    function Usage(): (u: string)
      ensures |u| >= |Prefix| + |Name| && u[..|Prefix|] == Prefix && u[|Prefix|..|Prefix| + |Name|] == Name
      ensures u[|Prefix| + |Name|..] == ArgumentNameFromDocsOrDefault(Description, ArgumentName)
    {
      Prefix + Name + ArgumentNameFromDocsOrDefault(Description, ArgumentName)
    }

    /**
     * fx.MakeOption(fx): the option for the tokenizer, or the assertion failure
     * when the prefix or the name is empty. Only a bool and an optional value
     * carry a default: "true" for the former, the descriptor's own for the latter.
     */
    function Option(): (r: Result<FlagParser.Option, Panic>)
      ensures r.Failure? <==> Prefix == "" || Name == ""
      ensures r.Failure? ==> r.error == AssertionFailed
      ensures r.Ok? ==> r.value.Type == LongOptionType(MakeOption) && r.value.Prefix == Prefix && r.value.Name == Name
      ensures r.Ok? && MakeOption == LongFlagMakeOptionBool ==> r.value.DefaultValue == "true"
      ensures r.Ok? && MakeOption == LongFlagMakeOptionWithOptionalValue ==> r.value.DefaultValue == DefaultValue
      ensures r.Ok? && (MakeOption == LongFlagMakeOptionAutoHelp || MakeOption == LongFlagMakeOptionWithRequiredValue) ==>
                r.value.DefaultValue == ""
    {
      if !(Prefix != "" && Name != "") then
        Failure(AssertionFailed)
      else
        match MakeOption
        case LongFlagMakeOptionAutoHelp =>
          Ok(FlagParser.Option(FlagParser.OptionTypeEarlyArgumentNone, Prefix, Name, ""))
        case LongFlagMakeOptionBool =>
          Ok(FlagParser.Option(FlagParser.OptionTypeStandaloneArgumentOptional, Prefix, Name, "true"))
        case LongFlagMakeOptionWithRequiredValue =>
          Ok(FlagParser.Option(FlagParser.OptionTypeStandaloneArgumentRequired, Prefix, Name, ""))
        case LongFlagMakeOptionWithOptionalValue =>
          Ok(FlagParser.Option(FlagParser.OptionTypeStandaloneArgumentOptional, Prefix, Name, DefaultValue))
    }
  }

  /** The argument name of the bool constructor. */
  const BoolArgumentName := "[=true|false]"

  /**
   * The NewLongFlag* constructors: the one for the value's type, with prefix
   * "--", the help text as description, no default value and that type's
   * strategy (every value-taking type requires its value).
   */
  function NewLongFlag(value: Value, name: string, helpText: seq<string>): (fx: LongFlag)
    ensures fx.Prefix == "--" && fx.Name == name && fx.Description == helpText && fx.Value == value
    ensures fx.DefaultValue == ""
    ensures value.ValueAutoHelp? ==> fx.MakeOption == LongFlagMakeOptionAutoHelp && fx.ArgumentName == ""
    ensures value.ValueBool? ==> fx.MakeOption == LongFlagMakeOptionBool && fx.ArgumentName == BoolArgumentName
    ensures !value.ValueAutoHelp? && !value.ValueBool? ==>
              fx.MakeOption == LongFlagMakeOptionWithRequiredValue && fx.ArgumentName == TypeArgumentName(value) &&
              |fx.ArgumentName| > 1 && fx.ArgumentName[0] == ' '
  {
    if value.ValueAutoHelp? then
      LongFlag(helpText, "", "", LongFlagMakeOptionAutoHelp, name, "--", value)
    else if value.ValueBool? then
      LongFlag(helpText, BoolArgumentName, "", LongFlagMakeOptionBool, name, "--", value)
    else
      LongFlag(helpText, TypeArgumentName(value), "", LongFlagMakeOptionWithRequiredValue, name, "--", value)
  }

  /**
   * "[=true|false]" has no leading space, so no description token ever
   * replaces it: a bool long flag always reads `--name[=true|false]`.
   */
  lemma BoolUsageNeverReplaced(value: Value, name: string, helpText: seq<string>)
    requires value.ValueBool?
    ensures NewLongFlag(value, name, helpText).Usage() == "--" + name + "[=true|false]"
  {
    assert BoolArgumentName[0] == '[' && BoolArgumentName[..1] == "[";
    ArgumentNameKeepsDefault(helpText, BoolArgumentName);
  }

  /** The bool option optionally takes a value, "true" when absent. */
  lemma BoolOption(value: Value, name: string, helpText: seq<string>)
    requires value.ValueBool? && name != ""
    ensures NewLongFlag(value, name, helpText).Option() ==
              Ok(FlagParser.Option(FlagParser.OptionTypeStandaloneArgumentOptional, "--", name, "true"))
  {
  }

  /** A constructed long flag makes its option exactly when its name is non-empty. */
  lemma NewLongFlagOption(value: Value, name: string, helpText: seq<string>)
    ensures NewLongFlag(value, name, helpText).Option().Ok? <==> name != ""
  {
  }

  /**
   * Switching a descriptor to the optional-value strategy makes its option
   * default to the descriptor's DefaultValue, whatever it is.
   */
  lemma OptionalValueUsesDescriptorDefault(fx: LongFlag, default: string)
    requires fx.Prefix != "" && fx.Name != ""
    ensures fx.(MakeOption := LongFlagMakeOptionWithOptionalValue, DefaultValue := default).Option() ==
              Ok(FlagParser.Option(FlagParser.OptionTypeStandaloneArgumentOptional, fx.Prefix, fx.Name, default))
  {
  }
}
