/**
 * The boundary of the external flagparser tokenizer: the option
 * specifications handed to it and the ordered results it returns. Its own
 * parsing (grouping, `=` joining, permutation, separator handling,
 * positional counts) is outside this model, so the tokenizer itself is a
 * function parameter wherever it is used.
 */
module FlagParser {
  import opened Wrappers
  import opened Errors

  /** How the tokenizer treats an option and its argument. */
  datatype OptionType =
    | OptionTypeEarlyArgumentNone
    | OptionTypeGroupableArgumentNone
    | OptionTypeGroupableArgumentRequired
    | OptionTypeStandaloneArgumentOptional
    | OptionTypeStandaloneArgumentRequired

  /** One option specification: its type, prefix, name and the value used when none is given. */
  datatype Option = Option(Type: OptionType, Prefix: string, Name: string, DefaultValue: string)

  /** The tokenizer configuration a flag set builds before each parse. */
  datatype Parser = Parser(
    DisablePermute: bool,
    MaxPositionalArguments: int,
    MinPositionalArguments: int,
    OptionsArgumentsSeparator: string,
    Options: seq<Option>)

  /** One tokenizer result, in command-line order. */
  datatype Value =
    | ValueOption(Option: Option, Value: string)
    | ValuePositionalArgument(Value: string)

  /** flagparser.Parser.Parse: the ordered results, or the error it reports. */
  type Tokenizer = (Parser, seq<string>) -> Result<seq<Value>, Error>
}
