/**
 * The combined flag descriptor of flag.go, carrying both a short and a long
 * identity. Either identity may be left unconfigured.
 */
module Flags {
  import opened Wrappers
  import opened Errors
  import opened Values
  import opened Short
  import opened Long
  import FlagParser

  /** The source's MakeOptions function pointers: one per option strategy. */
  datatype FlagMakeOptions =
    | FlagMakeOptionsAutoHelp
    | FlagMakeOptionsBool
    | FlagMakeOptionsWithValue

  datatype Flag = Flag(
    Description: seq<string>,
    LongArgumentName: string,
    LongName: string,
    LongPrefix: string,
    MakeOptions: FlagMakeOptions,
    ShortArgumentName: string,
    ShortName: byte,
    ShortPrefix: string,
    Value: Value)
  {
    /** Whether the short identity is configured. */
    predicate HasShort()
    {
      ShortName != 0 && ShortPrefix != ""
    }

    /** Whether the long identity is configured. */
    predicate HasLong()
    {
      LongName != "" && LongPrefix != ""
    }

    /** Flag.Set: exactly the bound value's Set. */
    method Set(value: string) returns (err: Option<Error>)
      modifies Value.Footprint()
      ensures match ParseValue(Value.KindOf(), value)
              case Ok(p) => err == None && Value.Load() == Store(Value.KindOf(), old(Value.Load()), p)
              case Failure(e) => err == Some(e) && Value.Load() == old(Value.Load())
    {
      err := Value.Set(value);
    }

    /**
     * fx.MakeOptions(fx): an option for each configured identity, the short
     * one first. A flag with neither identity yields none.
     */
    function Options(): (options: seq<FlagParser.Option>)
      ensures |options| == (if HasShort() then 1 else 0) + (if HasLong() then 1 else 0)
      ensures HasShort() ==> options[0].Prefix == ShortPrefix && options[0].Name == [ShortName as char]
      ensures HasLong() ==> options[|options| - 1].Prefix == LongPrefix && options[|options| - 1].Name == LongName
    {
      var (shortType, longType, longDefault) :=
        match MakeOptions
        case FlagMakeOptionsAutoHelp =>
          (FlagParser.OptionTypeEarlyArgumentNone, FlagParser.OptionTypeEarlyArgumentNone, "")
        case FlagMakeOptionsBool =>
          (FlagParser.OptionTypeGroupableArgumentNone, FlagParser.OptionTypeStandaloneArgumentOptional, "true")
        case FlagMakeOptionsWithValue =>
          (FlagParser.OptionTypeGroupableArgumentRequired, FlagParser.OptionTypeStandaloneArgumentRequired, "");
      var options := [];
      var options := if HasShort() then options + [FlagParser.Option(shortType, ShortPrefix, ByteString(ShortName), "")] else options;
      var options := if HasLong() then options + [FlagParser.Option(longType, LongPrefix, LongName, longDefault)] else options;
      options
    }

    /** The short identity alone, as a short.go descriptor with the matching strategy. */
    function ShortHalf(): ShortFlag
    {
      var strategy :=
        match MakeOptions
        case FlagMakeOptionsAutoHelp => ShortFlagMakeOptionAutoHelp
        case FlagMakeOptionsBool => ShortFlagMakeOptionBool
        case FlagMakeOptionsWithValue => ShortFlagMakeOptionWithValue;
      ShortFlag(Description, ShortArgumentName, strategy, ShortName, ShortPrefix, Value)
    }

    /** The long identity alone, as a long.go descriptor with the matching strategy. */
    function LongHalf(): LongFlag
    {
      var strategy :=
        match MakeOptions
        case FlagMakeOptionsAutoHelp => LongFlagMakeOptionAutoHelp
        case FlagMakeOptionsBool => LongFlagMakeOptionBool
        case FlagMakeOptionsWithValue => LongFlagMakeOptionWithRequiredValue;
      LongFlag(Description, LongArgumentName, "", strategy, LongName, LongPrefix, Value)
    }
  }

  /**
   * The combined descriptor makes exactly the options its two halves would
   * make on their own, dropping a half whose assertion would fail.
   */
  lemma OptionsAgreeWithHalves(fx: Flag)
    ensures fx.HasShort() <==> fx.ShortHalf().Option().Ok?
    ensures fx.HasLong() <==> fx.LongHalf().Option().Ok?
    ensures fx.Options() ==
              (if fx.HasShort() then [fx.ShortHalf().Option().value] else []) +
              (if fx.HasLong() then [fx.LongHalf().Option().value] else [])
  {
  }

  /** A flag with neither identity configured yields no option at all. */
  lemma MisconfiguredFlagHasNoOptions(fx: Flag)
    ensures fx.Options() == [] <==> !fx.HasShort() && !fx.HasLong()
  {
  }

  /** The option types each strategy asks for, short identity first. */
  lemma OptionTypes(fx: Flag)
    requires fx.HasShort() && fx.HasLong()
    ensures fx.MakeOptions == FlagMakeOptionsAutoHelp ==>
              fx.Options()[0].Type == FlagParser.OptionTypeEarlyArgumentNone &&
              fx.Options()[1].Type == FlagParser.OptionTypeEarlyArgumentNone
    ensures fx.MakeOptions == FlagMakeOptionsBool ==>
              fx.Options()[0].Type == FlagParser.OptionTypeGroupableArgumentNone &&
              fx.Options()[1].Type == FlagParser.OptionTypeStandaloneArgumentOptional &&
              fx.Options()[1].DefaultValue == "true"
    ensures fx.MakeOptions == FlagMakeOptionsWithValue ==>
              fx.Options()[0].Type == FlagParser.OptionTypeGroupableArgumentRequired &&
              fx.Options()[1].Type == FlagParser.OptionTypeStandaloneArgumentRequired
  {
  }

  /**
   * The NewFlag* constructors: the one for the value's type, with prefixes
   * "-" and "--", the help text as description and that type's strategy.
   */
  function NewFlag(value: Value, shortName: byte, longName: string, helpText: seq<string>): (fx: Flag)
    ensures fx.ShortPrefix == "-" && fx.LongPrefix == "--"
    ensures fx.ShortName == shortName && fx.LongName == longName
    ensures fx.Description == helpText && fx.Value == value
    ensures value.ValueAutoHelp? ==>
              fx.MakeOptions == FlagMakeOptionsAutoHelp && fx.ShortArgumentName == "" && fx.LongArgumentName == ""
    ensures value.ValueBool? ==>
              fx.MakeOptions == FlagMakeOptionsBool && fx.ShortArgumentName == "" && fx.LongArgumentName == "[=BOOL]"
    ensures !value.ValueAutoHelp? && !value.ValueBool? ==>
              fx.MakeOptions == FlagMakeOptionsWithValue &&
              fx.ShortArgumentName == TypeArgumentName(value) && fx.LongArgumentName == TypeArgumentName(value) &&
              |fx.ShortArgumentName| > 1 && fx.ShortArgumentName[0] == ' '
  {
    if value.ValueAutoHelp? then
      Flag(helpText, "", longName, "--", FlagMakeOptionsAutoHelp, "", shortName, "-", value)
    else if value.ValueBool? then
      Flag(helpText, "[=BOOL]", longName, "--", FlagMakeOptionsBool, "", shortName, "-", value)
    else
      Flag(helpText, TypeArgumentName(value), longName, "--", FlagMakeOptionsWithValue,
           TypeArgumentName(value), shortName, "-", value)
  }

  /**
   * A constructed flag configures its short identity iff the short name is
   * non-zero and its long identity iff the long name is non-empty.
   */
  lemma NewFlagIdentities(value: Value, shortName: byte, longName: string, helpText: seq<string>)
    ensures NewFlag(value, shortName, longName, helpText).HasShort() <==> shortName != 0
    ensures NewFlag(value, shortName, longName, helpText).HasLong() <==> longName != ""
  {
  }
}
