# vflag core, modelled in Dafny

This project models the core of `vflag`, a Go command-line flag library. The
library has three layers:

- Typed **values** write a parsed command-line token through a pointer to the
  program's variable (`value.go`).
- **Flag descriptors** turn into options for an external tokenizer
  (`flagparser`). There are short flags (`short.go`), long flags (`long.go`)
  and combined short/long flags (`flag.go`).
- A **flag set** registers the descriptors and runs the tokenizer. It then
  walks the tokenizer's results, storing positionals and calling `Set` on the
  bound values, and applies its error-handling policy (`flagset.go`). A
  **default usage printer** renders the help text and the error hint
  (`usage.go`).

Modules, one per source file plus three supporting ones:

| module | models |
|---|---|
| `Wrappers`, `Errors` | `Option`/`Result`; the errors the core returns (`strconv.NumError`, `ErrHelp`, tokenizer errors) and panics (`runtimex.Assert`, `panic(err)`) |
| `Strconv` | the parts of Go's `strconv` the values call: `ParseBool`, and `ParseInt`/`ParseUint` in base 10 as a left-to-right digit scan. `FormatBool`/`FormatInt`/`FormatUint` serve as the reference inverses. |
| `Values` | `value.go`: a Go pointer is a `Ref<T>` object and each `Value` type is a constructor holding its `Ref`. The per-type `Set` methods write through the pointer. `ParseValue`/`After` are the specification they are proved against. |
| `FlagParser` | the boundary types of the external tokenizer (options, parser configuration, results). The tokenizer itself is a function parameter. |
| `Short`, `Long`, `Flags` | `short.go`, `long.go`, `flag.go`: descriptors as datatypes. The `MakeOption(s)` function pointers are closed tag types. The per-type constructors are one function dispatching on the value. |
| `FlagSets` | `flagset.go`: the `FlagSet` class. `Register` and `WalkValues` are the two loops of `parse`, proved against the fold functions `BuildRegistry`, `WalkResults` and `Replay`. `HandleError` is `maybeHandleError`. |
| `Usage` | `usage.go`: `DefaultUsagePrinter` writes into a `Writer` object, proved against the pure renderings `UsageText`, `FlagBlocks` and `Paragraphs`. |

Panics are outcomes, never preconditions:
- `Result<_, Panic>` for registration and `HelpInvocation`;
- `Option<Panic>` for the printers;
- `Outcome.Panicked` for `Parse`.

## Model

| member | source | states |
|---|---|---|
| Strconv.ScanDigitsSpec | value.go:290-297 | the digit scan accepts exactly the all-digit strings whose value is at most the bound, and yields that value |
| Strconv.ScanDigitsNonDigitFirst | value.go:290-297 | a string starting with a non-digit is a syntax error whatever follows |
| Strconv.ParseUintSpec | value.go:290-297 | ParseUint accepts exactly the non-empty digit strings below 2^bitSize and yields their value; every failure is a ParseUint NumError on the input |
| Strconv.ParseUintRejectsSign | value.go:290-297 | a leading `+` or `-` is a ParseUint syntax error |
| Strconv.LimitsArePowers | value.go:130-137 | the width tables are 2^bitSize and 2^(bitSize-1) |
| Strconv.ParseIntSpec | value.go:130-137 | ParseInt accepts exactly the signed decimal literals in [-2^(bitSize-1), 2^(bitSize-1)) and yields their value |
| Strconv.FormatUintSpec | value.go:290-297 | FormatUint yields a non-empty digit string denoting its argument |
| Strconv.ParseUintFormatUint | value.go:290-297 | round trip: every in-range unsigned value parses back from its rendering |
| Strconv.ParseIntFormatInt | value.go:130-137 | round trip: every in-range signed value parses back from its rendering |
| Strconv.ParseBoolFormatBool | value.go:55-65 | round trip for booleans |
| Values.SetAutoHelp | value.go:32-38 | no error iff the token is empty or a boolean; otherwise the ParseBool syntax error |
| Values.SetBool | value.go:55-65 | an empty token means "true"; on success the pointer holds the parsed boolean, on failure it is untouched and the error is returned |
| Values.SetInt | value.go:130-137 | 64-bit ParseInt; written only on success |
| Values.SetInt8 | value.go:154-161 | 8-bit ParseInt; written only on success |
| Values.SetInt16 | value.go:178-185 | 16-bit ParseInt; written only on success |
| Values.SetInt32 | value.go:202-209 | 32-bit ParseInt; written only on success |
| Values.SetInt64 | value.go:226-233 | 64-bit ParseInt; written only on success |
| Values.SetString | value.go:250-253 | never fails; stores the token verbatim |
| Values.SetStringSlice | value.go:270-273 | never fails; appends the token |
| Values.SetUint | value.go:290-297 | 64-bit ParseUint; written only on success |
| Values.SetUint8 | value.go:314-321 | 8-bit ParseUint; written only on success |
| Values.SetUint16 | value.go:338-345 | 16-bit ParseUint; written only on success |
| Values.SetUint32 | value.go:362-369 | 32-bit ParseUint; written only on success |
| Values.SetUInt64 | value.go:386-393 | 64-bit ParseUint; written only on success |
| Values.Value.Load | value.go:118-125 | the bound variable always holds a value of its Go type's range |
| Values.Value.Set | value.go:17-23 | the error is ParseValue's, and the new contents are After(kind, old contents, token) |
| Values.FootprintsDisjoint | value.go:43-50 | two different values write through different variables |
| Values.BoolEmptyMeansTrue | value.go:55-58 | a bool given no argument parses as true |
| Values.FailedSetKeepsValue | value.go:59-62 | a failed Set leaves the variable unchanged, for every kind |
| Values.SignedSetSpec | value.go:130-137 | a signed value accepts exactly the literals in its width's range, and stores that number |
| Values.Int8Bounds | value.go:154-161 | an int8 takes -128 and 127 and rejects 128 and -129 |
| Values.UnsignedSetSpec | value.go:290-297 | an unsigned value accepts exactly the digit strings below 2^bits, and stores that number |
| Values.UnsignedRejectsNegative | value.go:290-297 | "-1" and any signed token is a syntax error, and the old value stays |
| Values.StringSetVerbatim | value.go:250-253 | a string value always accepts the token and holds it afterwards |
| Values.StringSliceAppends | value.go:270-273 | a string slice keeps its old elements as a prefix and gains exactly the token |
| Values.AutoHelpSetSpec | value.go:32-38 | the help sentinel accepts "" and every boolean token and nothing else |
| Values.LastSetWins | value.go:130-137 | for a scalar, two successful Sets leave the second one's value |
| Values.AfterFits | value.go:130-137 | every Set keeps the variable within its Go type |
| Values.SetOwnRenderingIsIdentity | value.go:55-65 | setting a scalar or string value to the rendering of its current contents changes nothing |
| Short.FindFrom | short.go:56-57 | the leftmost match of "`[A-Z0-9_-]+`" at or after i, or none at all |
| Short.ArgumentNameFromDocsOrDefault | short.go:53-63 | the result is the default, or (only when the default starts with a space and a first paragraph exists) " " followed by the name between a pair of backquotes in that paragraph |
| Short.ArgumentNameKeepsDefault | short.go:53-55 | with no description, or a default not starting with a space, the default is kept |
| Short.ArgumentNameTakesLeftmost | short.go:56-60 | the first paragraph's leftmost token replaces the default |
| Short.ArgumentNameWithoutToken | short.go:57-61 | with no token in the first paragraph the default is kept |
| Short.ArgumentNameOfFirstToken | short.go:24-25 | "Write to `FILE`."-shaped first paragraphs yield " FILE" |
| Short.ShortFlag.Usage | short.go:68-71 | prefix, then the name byte, then the argument name |
| Short.ShortFlag.Option | short.go:76-142 | panics iff prefix is empty or name is zero; otherwise the option of the strategy's type, with prefix and one-character name |
| Short.NewShortFlag | short.go:89-381 | prefix "-", the given name, help text and value; option strategy by value type; the argument name is the per-type name (" INT", " UINT16", " STRING" and so on), empty for bool and auto-help |
| Short.NewShortFlagOption | short.go:76-83 | a constructed short flag makes its option iff its name is non-zero |
| Short.NewShortFlagNoArgumentUsage | short.go:118-127 | help and bool short flags print as just "-" and the name |
| Long.LongFlag.Usage | long.go:57-60 | prefix, then name, then the argument name |
| Long.LongFlag.Option | long.go:65-155 | panics iff prefix or name is empty; otherwise the strategy's type, with the default value "true" for bools and the descriptor's default for optional values |
| Long.NewLongFlag | long.go:78-394 | prefix "--", the given name, help text and value; option strategy by value type; the argument name is the per-type name, the bool marker for bool and empty for auto-help |
| Long.BoolUsageNeverReplaced | long.go:112-121 | a bool long flag always prints "[=true|false]", whatever its description says |
| Long.BoolOption | long.go:96-104 | the bool option is optional-argument with default "true" |
| Long.NewLongFlagOption | long.go:65-72 | a constructed long flag makes its option iff its name is non-empty |
| Long.OptionalValueUsesDescriptorDefault | long.go:147-155 | the optional-value strategy passes the descriptor's default value on |
| Flags.Flag.Set | flag.go:47-49 | exactly the bound value's Set |
| Flags.Flag.Options | flag.go:54-167 | zero, one or two options: the short one first when configured, the long one last when configured |
| Flags.OptionsAgreeWithHalves | flag.go:150-167 | the combined options are those of the short and long descriptors with the same identity |
| Flags.MisconfiguredFlagHasNoOptions | flag.go:150-167 | no options iff neither identity is configured |
| Flags.OptionTypes | flag.go:54-167 | the option types of each strategy, short first |
| Flags.NewFlag | flag.go:83-546 | prefixes "-" and "--", the given identities, help text and value; option strategy by value type; both argument names are the per-type name for value-taking types, "" and "[=BOOL]" for bool, empty for auto-help |
| Flags.NewFlagIdentities | flag.go:83-95 | the short identity is configured iff the name is non-zero, the long one iff non-empty |
| FlagSets.HandleError | flagset.go:277-297 | returns iff there is no error or the policy is ContinueOnError; under ExitOnError it prints, then exits 0 on help and 2 otherwise; everything else panics with the error |
| FlagSets.ExitPolicyNeverReturnsErrors | flagset.go:209-214 | under ExitOnError no error, and ErrHelp in particular, is ever returned |
| FlagSets.ExitPolicyEffects | flagset.go:285-291 | under ExitOnError: usage and exit 0 on help, usage error and exit 2 otherwise |
| FlagSets.OtherPoliciesPanic | flagset.go:294-296 | any other policy panics with the error and does nothing else |
| FlagSets.SetTracked | flagset.go:264-266 | one Set inside the result loop: only the target's contents change, and the error is the parse error |
| FlagSets.FlagSet.constructor | flagset.go:161-182 | NewFlagSet's defaults |
| FlagSets.FlagSet.SetMinMaxPositionalArgs | flagset.go:185-188 | sets both bounds and nothing else |
| FlagSets.FlagSet.Args | flagset.go:191-193 | the positionals collected so far |
| FlagSets.FlagSet.Register | flagset.go:226-241 | the two registration loops compute BuildRegistry, and the view only maps to registered values |
| FlagSets.WalkValues | flagset.go:250-273 | the result loop: its outcome, the positionals it meets and every variable's contents are those of the walk |
| FlagSets.ReplayedSet | flagset.go:264-266 | one Set extends the replayed calls by exactly that call |
| FlagSets.FlagSet.Apply | flagset.go:249-274 | the walk's outcome; the positionals are appended to the flag set's, and each variable's contents are those of the walk |
| FlagSets.FlagSet.ParseArgs | flagset.go:216-275 | `parse`: register, tokenize, walk; outcome, positionals and contents follow the plan |
| FlagSets.FlagSet.Parse | flagset.go:205-207 | Parse is maybeHandleError of `parse`; a failed assertion panics before the policy applies |
| FlagSets.ShortRegistryAborts | flagset.go:228-232 | after the first failing short option, later flags change nothing |
| FlagSets.LongRegistryAborts | flagset.go:235-241 | after the first failing long option, later flags change nothing |
| FlagSets.WalkEndIsFinal | flagset.go:250-273 | once the walk has stopped, later results are never looked at |
| FlagSets.ShortRegistryOk | flagset.go:228-232 | short registration succeeds iff every short flag makes its option |
| FlagSets.ShortRegistryOptions | flagset.go:228-232 | one option per short flag, in order |
| FlagSets.ShortRegistryNames | flagset.go:228-232 | the view's names are exactly the short flags' one-character names |
| FlagSets.ShortRegistryLastWins | flagset.go:231 | a repeated short name is bound to the last flag that uses it |
| FlagSets.LongRegistryOk | flagset.go:235-241 | long registration succeeds iff every long option is made and no name clashes with an earlier name |
| FlagSets.LongRegistryOptions | flagset.go:235-241 | the short options are kept, then one option per long flag, in order |
| FlagSets.LongRegistryBindings | flagset.go:235-241 | earlier bindings are kept and each long name is bound to its own flag's value |
| FlagSets.LongRegistryNames | flagset.go:235-241 | the view holds only short names and long names |
| FlagSets.RegistryOk | flagset.go:226-241 | registration succeeds iff all options are made, no long name equals a short name, and no long name repeats |
| FlagSets.RegistryOptions | flagset.go:226-241 | the tokenizer receives the short options first, then the long ones |
| FlagSets.CompletedWalk | flagset.go:250-274 | a completed walk keeps every positional in order and makes one successful, non-help Set per option |
| FlagSets.StoppedWalk | flagset.go:258-271 | the first failing Set stops the walk with its error, and the first help option stops it with ErrHelp |
| FlagSets.ReplayUntargeted | flagset.go:258-266 | a variable no option names keeps its contents |
| Usage.PositionalArgsUsage | usage.go:67-86 | non-empty iff max >= min and max > 0; starts with a space; a custom text wins |
| Usage.PositionalHintShape | usage.go:67-86 | brackets iff no argument is required, "..." iff more than one is allowed |
| Usage.FlagsName | usage.go:35-40 | " [flags]" iff there are flags |
| Usage.HelpCommand | usage.go:49-62 | panics iff neither identity is configured; the long form is preferred; otherwise the short one |
| Usage.HelpInvocationSpec | usage.go:43-65 | "" iff no help flag; otherwise the first help flag's command |
| Usage.HelpInvocation | usage.go:43-65 | the loop computes the first help flag's command |
| Usage.FlagLine | usage.go:191-208 | panics iff the flag has no synopsis; otherwise the indented synopsis and, when shown, the default |
| Usage.BoolDefaultNeedsLong | usage.go:200-204 | a bool shows its default only when it has a long synopsis |
| Usage.VerbatimParagraph | usage.go:238-244 | a paragraph starting with four spaces is never wrapped, and is printed eight spaces in |
| Usage.ParagraphsAppend | usage.go:256-258 | paragraphs added later are printed after earlier ones |
| Usage.FlagBlocksPanic | usage.go:196-208 | the flag section panics iff some flag has no synopsis, with an assertion failure |
| Usage.FlagBlocksFinal | usage.go:208 | after that panic nothing more is printed |
| Usage.UsageTextPrefix | usage.go:174-225 | the text opens with the Usage heading and the usage line |
| Usage.UsageTextPanic | usage.go:188-214 | the rendering panics, with a failed assertion, iff a flag has no synopsis |
| Usage.ExitOnErrorWithPrinter | flagset.go:285-291 | under ExitOnError the printer runs before Exit: help with an unnamed flag, or another error with an unnamed auto-help flag, panics in the printer; the process exits iff the printer succeeds and Exit does not return |
| Usage.DefaultUsagePrinter.constructor | usage.go:251-253 | an empty printer |
| Usage.DefaultUsagePrinter.AddDescription | usage.go:256-258 | appends the paragraphs |
| Usage.DefaultUsagePrinter.AddExamples | usage.go:261-263 | appends the paragraphs |
| Usage.DefaultUsagePrinter.Div0 | usage.go:246-248 | writes the value between newlines |
| Usage.DefaultUsagePrinter.Div1 | usage.go:238-244 | writes the paragraph, verbatim or wrapped |
| Usage.DefaultUsagePrinter.Div1All | usage.go:182-184 | writes every paragraph in order |
| Usage.DefaultUsagePrinter.PrintSection | usage.go:180-185 | a heading and its paragraphs, or nothing when there are none |
| Usage.DefaultUsagePrinter.PrintDescription | usage.go:210-212 | a flag's description lines, wrapped eight spaces in |
| Usage.DefaultUsagePrinter.PrintFlags | usage.go:188-214 | writes the flag blocks and reports the same panic |
| Usage.DefaultUsagePrinter.PrintUsageString | usage.go:174-225 | writes exactly UsageText and reports its panic |
| Usage.DefaultUsagePrinter.PrintUsageError | usage.go:230-236 | the error line, then the help hint when a help flag exists; a misconfigured help flag panics after the error line |

## Left out

- Float64 and duration values and their constructors: floating point and Go's duration grammar.
- The tokenizer (`flagparser.Parser.Parse`): it is an external package. It is a function parameter, and only its boundary types are modelled.
- Output streams: the printers write into a `Writer` object that never fails. The panics of the `must.Fprintf` calls on I/O errors are not modelled.
- `textwrap.Do`: an external word wrapper. It is a `Wrapper` function parameter.
- `os.Exit`: `Parse` records the exit as an effect. The parameter `exitReturns` says whether the callback returns and the panic is reached.
- Go's `regexp`: replaced by a leftmost scanner for "`[A-Z0-9_-]+`" (`Short.FindFrom`). The regular expression engine is not modelled.
- `var.go`, `AddFlag`, `Flags()`, `fs.flags`, `UsageShort`/`UsageLong` and `Value.String()`: var.go is not part of this model. The flag list, the two synopses and the default text are parameters (`FlagEntry`, `seq<Flag>`).
- `FlagSet.PrintUsageString`/`FlagSet.PrintUsageError` (usage.go:22-33): these forward to the `UsagePrinter` interface, which is not modelled, and nor are the `Stdout`, `Stderr` and `Exit` fields. `HandleError` and `Parse` record the printer call as an `Effect` without running it, so their `Outcome` leaves out a panic the printer raises before `Exit` (usage.go:208 for a flag without a synopsis, usage.go:59 for an unnamed auto-help flag). `Usage.PrintedOutcome` and `Usage.ExitOnErrorWithPrinter` combine the disposition with the default printer's rendering to give that outcome.
- `ErrorHandling` values other than the three named constants: Go allows any int. They behave like `PanicOnError`, and `OtherPoliciesPanic` covers them.
- `errors.Is(err, ErrHelp)`: modelled as equality, because the core never wraps `ErrHelp`.
- The quoting in `strconv.NumError.Error()`: messages are kept as structured errors.
- `strconv.IntSize`: taken to be 64. Only the bit sizes 8, 16, 32 and 64 the library passes are modelled.
- FlagSets.FlagSet.Apply: the loop collects the positionals in a local sequence (`WalkValues`), and Apply appends them to the flag set once the loop ends, instead of at each step. The flag set's state at every exit is the same.
- Flag descriptors are values, not pointers: the core never mutates a descriptor during parsing.
