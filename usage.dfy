/**
 * The usage text of usage.go: the positional-arguments hint, the `[flags]`
 * marker, the help invocation, the per-flag synopsis line, and the default
 * usage printer, which writes the usage string or a usage error to a writer.
 * Word wrapping (textwrap.Do) is a parameter of the printing operations.
 */
module Usage {
  import opened Wrappers
  import opened Errors
  import opened Values
  import opened Short
  import opened Flags
  import opened FlagSets

  const WrapAtColumn: nat := 72
  const Indent4: string := "    "
  const Indent8: string := Indent4 + Indent4

  /** textwrap.Do(text, column, indent), supplied by the caller. */
  type Wrapper = (string, nat, string) -> string

  predicate HasSuffix(s: string, p: string)
  {
    |p| <= |s| && s[|s| - |p|..] == p
  }

  // ---------------------------------------------------------------------
  // The usage line.

  /**
   * positionalArgumentsUsage: nothing unless some positional argument is
   * allowed and the bounds are consistent; then, after a space, the custom
   * text if there is one, or a hint chosen by the bounds.
   */
  function PositionalArgsUsage(custom: string, minArgs: int, maxArgs: int): (output: string)
    ensures output != "" <==> maxArgs >= minArgs && maxArgs > 0
    ensures output != "" ==> output[0] == ' '
    ensures output != "" && custom != "" ==> output == " " + custom
  {
    if maxArgs >= minArgs && maxArgs > 0 then
      " " + (if custom != "" then custom
             else if minArgs == 0 && maxArgs == 1 then "[arg]"
             else if minArgs == 1 && maxArgs == 1 then "arg"
             else if minArgs == 0 && maxArgs > 1 then "[arg ...]"
             else "arg [arg ...]")
    else
      ""
  }

  /**
   * For sensible bounds, the generated hint brackets the first argument
   * exactly when no argument is required, and ends in an ellipsis exactly
   * when more than one argument is allowed.
   */
  lemma PositionalHintShape(minArgs: int, maxArgs: int)
    requires 0 <= minArgs <= maxArgs && maxArgs > 0
    ensures var hint := PositionalArgsUsage("", minArgs, maxArgs);
            |hint| >= 4 &&
            (hint[1] == '[' <==> minArgs == 0) &&
            (HasSuffix(hint, "...]") <==> maxArgs > 1) &&
            hint[1..] in ["[arg]", "arg", "[arg ...]", "arg [arg ...]"]
  {
    var hint := PositionalArgsUsage("", minArgs, maxArgs);
    if minArgs == 0 && maxArgs == 1 {
      assert hint == " [arg]";
      assert hint[|hint| - 4..] == "arg]";
    } else if minArgs == 1 && maxArgs == 1 {
      assert hint == " arg";
      assert hint[|hint| - 4..] == " arg";
    } else if minArgs == 0 {
      assert hint == " [arg ...]";
      assert hint[|hint| - 4..] == "...]";
    } else {
      assert hint == " arg [arg ...]";
      assert hint[|hint| - 4..] == "...]";
    }
  }

  /** flagsName: the `[flags]` marker, present exactly when some flag exists. */
  function FlagsName(flags: seq<FlagEntry>): (output: string)
    ensures output != "" <==> |flags| > 0
    ensures output != "" ==> output == " [flags]"
  {
    if |flags| > 0 then " [flags]" else ""
  }

  // ---------------------------------------------------------------------
  // The help invocation.

  predicate IsFirstAutoHelp(flags: seq<Flag>, i: int)
  {
    0 <= i < |flags| && flags[i].Value.ValueAutoHelp? &&
    forall k :: 0 <= k < i ==> !flags[k].Value.ValueAutoHelp?
  }

  /**
   * The command line that requests help through an auto-help flag: its long
   * form when configured, else its short form; a flag with neither fails the
   * assertion.
   */
  function HelpCommand(programName: string, fx: Flag): (r: Result<string, Panic>)
    ensures r.Failure? <==> !fx.HasLong() && !fx.HasShort()
    ensures r.Ok? ==> |r.value| > |programName| + 1 && HasPrefix(r.value, programName + " ")
    ensures fx.HasLong() ==> r == Ok(programName + " " + fx.LongPrefix + fx.LongName)
    ensures !fx.HasLong() && fx.HasShort() ==> r == Ok(programName + " " + fx.ShortPrefix + ByteString(fx.ShortName))
  {
    if fx.HasLong() then Ok(programName + " " + fx.LongPrefix + fx.LongName)
    else if fx.HasShort() then Ok(programName + " " + fx.ShortPrefix + ByteString(fx.ShortName))
    else Failure(AssertionFailed)
  }

  /** What HelpInvocation returns: the help command of the first auto-help flag, or "". */
  function HelpInvocationOf(programName: string, flags: seq<Flag>): Result<string, Panic>
    decreases |flags|
  {
    if flags == [] then Ok("")
    else if flags[0].Value.ValueAutoHelp? then HelpCommand(programName, flags[0])
    else HelpInvocationOf(programName, flags[1..])
  }

  /**
   * The first auto-help flag decides the invocation; without one it is "",
   * and otherwise it is never "".
   */
  lemma {:induction false} HelpInvocationSpec(programName: string, flags: seq<Flag>)
    ensures (forall i :: 0 <= i < |flags| ==> !flags[i].Value.ValueAutoHelp?) ==>
              HelpInvocationOf(programName, flags) == Ok("")
    ensures forall i :: IsFirstAutoHelp(flags, i) ==>
              HelpInvocationOf(programName, flags) == HelpCommand(programName, flags[i])
    ensures HelpInvocationOf(programName, flags) == Ok("") <==>
              forall i :: 0 <= i < |flags| ==> !flags[i].Value.ValueAutoHelp?
    decreases |flags|
  {
    if flags != [] {
      HelpInvocationSpec(programName, flags[1..]);
      assert forall i :: 0 < i < |flags| ==> flags[1..][i - 1] == flags[i];
      forall i | IsFirstAutoHelp(flags, i)
        ensures HelpInvocationOf(programName, flags) == HelpCommand(programName, flags[i])
      {
        if i > 0 {
          assert IsFirstAutoHelp(flags[1..], i - 1);
        }
      }
      if !flags[0].Value.ValueAutoHelp? && HelpInvocationOf(programName, flags) == Ok("") {
        forall i | 0 <= i < |flags|
          ensures !flags[i].Value.ValueAutoHelp?
        {
          if i > 0 {
            assert flags[1..][i - 1] == flags[i];
          }
        }
      }
    }
  }

  /**
   * FlagSet.HelpInvocation, over the flag set's program name and its flags:
   * the search loop stops at the first auto-help flag.
   */
  method HelpInvocation(programName: string, flags: seq<Flag>) returns (r: Result<string, Panic>)
    ensures r == HelpInvocationOf(programName, flags)
  {
    for i := 0 to |flags|
      invariant HelpInvocationOf(programName, flags) == HelpInvocationOf(programName, flags[i..])
    {
      assert flags[i..][1..] == flags[i + 1..];
      var fx := flags[i];
      if fx.Value.ValueAutoHelp? {
        var prefix, name := "", "";
        if fx.LongPrefix != "" && fx.LongName != "" {
          prefix, name := fx.LongPrefix, fx.LongName;
        } else if fx.ShortPrefix != "" && fx.ShortName != 0 {
          prefix, name := fx.ShortPrefix, ByteString(fx.ShortName);
        }
        if prefix == "" || name == "" {
          return Failure(AssertionFailed);
        }
        return Ok(programName + " " + prefix + name);
      }
    }
    return Ok("");
  }

  // ---------------------------------------------------------------------
  // Flag lines.

  /**
   * One element of the flag set's flag list as the printer sees it: the flag,
   * its short and long synopses, and the `%s` rendering of its value.
   */
  datatype FlagEntry = FlagEntry(flag: Flag, usageShort: string, usageLong: string, valueText: string)

  function DefaultSuffix(valueText: string): string
  {
    " (default: `" + valueText + "`)"
  }

  /** The non-empty synopses, joined by a comma. */
  function Synopsis(short: string, long: string): string
  {
    if short != "" && long != "" then short + ", " + long else short + long
  }

  /** The default is shown except for auto-help and for a bool flag with only a short synopsis. */
  predicate ShowsDefault(e: FlagEntry)
  {
    !e.flag.Value.ValueAutoHelp? && !(e.flag.Value.ValueBool? && e.usageLong == "")
  }

  /** A flag with neither a short nor a long synopsis. */
  predicate Anonymous(e: FlagEntry)
  {
    e.usageShort == "" && e.usageLong == ""
  }

  /** The flag line of PrintUsageString; a flag without any synopsis fails the assertion. */
  function FlagLine(e: FlagEntry): (r: Result<string, Panic>)
    ensures r.Failure? <==> Anonymous(e)
    ensures r.Failure? ==> r.error == AssertionFailed
    ensures r.Ok? ==>
              r.value == Indent4 + Synopsis(e.usageShort, e.usageLong) +
                         (if ShowsDefault(e) then DefaultSuffix(e.valueText) else "")
  {
    var short, long := e.usageShort, e.usageLong;
    var defaultValue := if e.flag.Value.ValueAutoHelp? then "" else DefaultSuffix(e.valueText);
    var formatted :=
      if short != "" && long != "" then Indent4 + short + ", " + long + defaultValue
      else if short != "" then Indent4 + short + (if e.flag.Value.ValueBool? then "" else defaultValue)
      else if long != "" then Indent4 + long + defaultValue
      else "";
    if formatted == "" then Failure(AssertionFailed) else Ok(formatted)
  }

  /** A bool flag shows its default exactly when it has a long synopsis. */
  lemma BoolDefaultNeedsLong(e: FlagEntry)
    requires e.flag.Value.ValueBool? && (e.usageShort != "" || e.usageLong != "")
    ensures FlagLine(e).Ok?
    ensures HasSuffix(FlagLine(e).value, DefaultSuffix(e.valueText)) <== e.usageLong != ""
    ensures FlagLine(e).value == Indent4 + e.usageShort <== e.usageLong == ""
  {
    var line := FlagLine(e).value;
    var suffix := DefaultSuffix(e.valueText);
    if e.usageLong != "" {
      assert line == Indent4 + Synopsis(e.usageShort, e.usageLong) + suffix;
      assert line[|line| - |suffix|..] == suffix;
    }
  }

  // ---------------------------------------------------------------------
  // Blocks of text.

  /** What div0 writes. */
  function Block(value: string): string
  {
    "\n" + value + "\n"
  }

  /** What div1 writes: a verbatim block under an extra indent, or the wrapped paragraph. */
  function Paragraph(entry: string, wrap: Wrapper): string
  {
    if HasPrefix(entry, Indent4) then Block(Indent4 + entry) else Block(wrap(entry, WrapAtColumn, Indent4))
  }

  /** A paragraph that starts with four spaces is never wrapped, whatever the wrapper. */
  lemma VerbatimParagraph(entry: string, wrap: Wrapper, other: Wrapper)
    requires HasPrefix(entry, Indent4)
    ensures Paragraph(entry, wrap) == Paragraph(entry, other)
    ensures HasPrefix(Paragraph(entry, wrap), "\n" + Indent8) && HasSuffix(Paragraph(entry, wrap), entry + "\n")
  {
    var text := Paragraph(entry, wrap);
    assert text == "\n" + Indent4 + entry + "\n";
    assert text[..9] == "\n" + Indent8 by {
      assert entry[..4] == Indent4;
      assert text[..9] == "\n" + Indent4 + entry[..4];
    }
    assert text[|text| - |entry + "\n"|..] == entry + "\n";
  }

  /** The paragraphs of a section, in order. */
  function Paragraphs(entries: seq<string>, wrap: Wrapper): string
    decreases |entries|
  {
    if entries == [] then "" else Paragraphs(entries[..|entries| - 1], wrap) + Paragraph(entries[|entries| - 1], wrap)
  }

  lemma ParagraphsSnoc(entries: seq<string>, entry: string, wrap: Wrapper)
    ensures Paragraphs(entries + [entry], wrap) == Paragraphs(entries, wrap) + Paragraph(entry, wrap)
  {
    var both := entries + [entry];
    assert both[..|both| - 1] == entries;
  }

  lemma ParagraphsPrefix(entries: seq<string>, k: nat, wrap: Wrapper)
    requires k < |entries|
    ensures Paragraphs(entries[..k + 1], wrap) == Paragraphs(entries[..k], wrap) + Paragraph(entries[k], wrap)
  {
    assert entries[..k + 1][..k] == entries[..k];
  }

  /** Paragraphs added later are printed after the earlier ones. */
  lemma {:induction false} ParagraphsAppend(first: seq<string>, later: seq<string>, wrap: Wrapper)
    ensures Paragraphs(first + later, wrap) == Paragraphs(first, wrap) + Paragraphs(later, wrap)
    decreases |later|
  {
    if later == [] {
      assert first + later == first;
    } else {
      var init, last := later[..|later| - 1], later[|later| - 1];
      assert later == init + [last];
      assert first + later == (first + init) + [last];
      calc {
        Paragraphs(first + later, wrap);
        Paragraphs((first + init) + [last], wrap);
        { ParagraphsSnoc(first + init, last, wrap); }
        Paragraphs(first + init, wrap) + Paragraph(last, wrap);
        { ParagraphsAppend(first, init, wrap); }
        (Paragraphs(first, wrap) + Paragraphs(init, wrap)) + Paragraph(last, wrap);
        { Concat(Paragraphs(first, wrap), Paragraphs(init, wrap), Paragraph(last, wrap)); }
        Paragraphs(first, wrap) + (Paragraphs(init, wrap) + Paragraph(last, wrap));
        { ParagraphsSnoc(init, last, wrap); }
        Paragraphs(first, wrap) + Paragraphs(init + [last], wrap);
      }
    }
  }

  /** The description lines under a flag, each wrapped under an eight-space indent. */
  function DescriptionBlocks(description: seq<string>, wrap: Wrapper): string
    decreases |description|
  {
    if description == [] then ""
    else
      DescriptionBlocks(description[..|description| - 1], wrap) +
      Block(wrap(description[|description| - 1], WrapAtColumn, Indent8))
  }

  // ---------------------------------------------------------------------
  // The whole usage string.

  /** Text written so far, and the panic that cut the writing short, if any. */
  datatype Rendering = Rendering(text: string, panic: Option<Panic>)

  /** The Flags section after its heading: each flag's line and description, up to the first failing line. */
  function FlagBlocks(flags: seq<FlagEntry>, wrap: Wrapper): Rendering
    decreases |flags|
  {
    if flags == [] then Rendering("", None)
    else
      var before := FlagBlocks(flags[..|flags| - 1], wrap);
      if before.panic.Some? then before
      else
        var e := flags[|flags| - 1];
        match FlagLine(e)
        case Failure(p) => Rendering(before.text, Some(p))
        case Ok(line) => Rendering(before.text + Block(line) + DescriptionBlocks(e.flag.Description, wrap), None)
  }

  /** The flag blocks fail exactly when some flag has no synopsis at all. */
  lemma {:induction false} FlagBlocksPanic(flags: seq<FlagEntry>, wrap: Wrapper)
    ensures FlagBlocks(flags, wrap).panic.Some? <==> exists i :: 0 <= i < |flags| && Anonymous(flags[i])
    ensures FlagBlocks(flags, wrap).panic.Some? ==> FlagBlocks(flags, wrap).panic == Some(AssertionFailed)
    decreases |flags|
  {
    if flags != [] {
      var init, e := flags[..|flags| - 1], flags[|flags| - 1];
      FlagBlocksPanic(init, wrap);
      var before := FlagBlocks(init, wrap);
      if before.panic.Some? {
        var i :| 0 <= i < |init| && Anonymous(init[i]);
        assert flags[i] == init[i];
      } else if Anonymous(e) {
        assert Anonymous(flags[|flags| - 1]);
      } else {
        forall i | 0 <= i < |flags|
          ensures !Anonymous(flags[i])
        {
          if i < |init| {
            assert init[i] == flags[i];
          }
        }
      }
    }
  }

  /** The usage line: the program name, the `[flags]` marker and the positional hint. */
  function UsageLine(programName: string, flags: seq<FlagEntry>, custom: string, minArgs: int, maxArgs: int): string
  {
    Indent4 + programName + FlagsName(flags) + PositionalArgsUsage(custom, minArgs, maxArgs)
  }

  /** A section of paragraphs under a heading, or nothing when there are none. */
  function ParagraphSection(heading: string, entries: seq<string>, wrap: Wrapper): string
  {
    if |entries| > 0 then Block(heading) + Paragraphs(entries, wrap) else ""
  }

  /** The Flags section, or nothing when there are no flags. */
  function FlagSection(flags: seq<FlagEntry>, wrap: Wrapper): Rendering
  {
    if |flags| > 0 then
      var blocks := FlagBlocks(flags, wrap);
      Rendering(Block("Flags") + blocks.text, blocks.panic)
    else
      Rendering("", None)
  }

  /**
   * What PrintUsageString writes: the Usage section; the Description section
   * if there are paragraphs; the Flags section if there are flags; the
   * Examples section if there are paragraphs; a final newline.
   */
  function UsageText(programName: string, minArgs: int, maxArgs: int, description: seq<string>,
                     example: seq<string>, custom: string, flags: seq<FlagEntry>, wrap: Wrapper): Rendering
  {
    var usage := Block("Usage") + Block(UsageLine(programName, flags, custom, minArgs, maxArgs));
    var descr := ParagraphSection("Description", description, wrap);
    var section := FlagSection(flags, wrap);
    if section.panic.Some? then
      Rendering(usage + descr + section.text, section.panic)
    else
      Rendering(usage + descr + section.text + ParagraphSection("Examples", example, wrap) + "\n", None)
  }

  /** The usage string opens with the Usage heading and the usage line. */
  lemma UsageTextPrefix(programName: string, minArgs: int, maxArgs: int, description: seq<string>,
                        example: seq<string>, custom: string, flags: seq<FlagEntry>, wrap: Wrapper)
    ensures HasPrefix(UsageText(programName, minArgs, maxArgs, description, example, custom, flags, wrap).text,
                      Block("Usage") + Block(UsageLine(programName, flags, custom, minArgs, maxArgs)))
  {
    var usage := Block("Usage") + Block(UsageLine(programName, flags, custom, minArgs, maxArgs));
    var rest := ParagraphSection("Description", description, wrap) + FlagSection(flags, wrap).text;
    Concat(usage, ParagraphSection("Description", description, wrap), FlagSection(flags, wrap).text);
    assert usage + ParagraphSection("Description", description, wrap) + FlagSection(flags, wrap).text == usage + rest;
    if FlagSection(flags, wrap).panic.Some? {
      PrefixOfConcat(usage, rest);
    } else {
      var examples := ParagraphSection("Examples", example, wrap);
      Concat(usage, rest, examples);
      assert usage + rest + examples == usage + (rest + examples);
      Concat(usage, rest + examples, "\n");
      assert usage + rest + examples + "\n" == usage + (rest + examples + "\n");
      PrefixOfConcat(usage, rest + examples + "\n");
    }
  }

  /** Printing the usage string panics exactly when a flag has no synopsis. */
  lemma UsageTextPanic(programName: string, minArgs: int, maxArgs: int, description: seq<string>,
                       example: seq<string>, custom: string, flags: seq<FlagEntry>, wrap: Wrapper)
    ensures UsageText(programName, minArgs, maxArgs, description, example, custom, flags, wrap).panic.Some? <==>
              exists i :: 0 <= i < |flags| && Anonymous(flags[i])
    ensures UsageText(programName, minArgs, maxArgs, description, example, custom, flags, wrap).panic.Some? ==>
              UsageText(programName, minArgs, maxArgs, description, example, custom, flags, wrap).panic == Some(AssertionFailed)
  {
    FlagBlocksPanic(flags, wrap);
  }

  /**
   * The outcome of maybeHandleError once the usage printer has run. The
   * printer runs before Exit, so a panic it raises (a flag without a
   * synopsis in the usage string, an auto-help flag without a name in the
   * help hint) comes before both the exit and the panic that follows a
   * returning Exit.
   */
  function PrintedOutcome(d: Disposition, usage: Rendering, hint: Result<string, Panic>): Outcome
  {
    if |d.effects| > 0 && d.effects[0] == PrintUsageString && usage.panic.Some? then Panicked(usage.panic.value)
    else if |d.effects| > 0 && d.effects[0].PrintUsageError? && hint.Failure? then Panicked(hint.error)
    else d.outcome
  }

  /**
   * Under ExitOnError with the default printer: help on a flag set with an
   * unnamed flag, or any other error on a flag set with an unnamed auto-help
   * flag, panics in the printer; the process exits exactly when the printer
   * succeeds and Exit does not return.
   */
  lemma ExitOnErrorWithPrinter(programName: string, minArgs: int, maxArgs: int, description: seq<string>,
                               example: seq<string>, custom: string, entries: seq<FlagEntry>, flags: seq<Flag>,
                               wrap: Wrapper, err: Error, exitReturns: bool)
    ensures var o := PrintedOutcome(HandleError(ExitOnError, Some(err), exitReturns),
                                    UsageText(programName, minArgs, maxArgs, description, example, custom, entries, wrap),
                                    HelpInvocationOf(programName, flags));
            (err == ErrHelp && (exists i :: 0 <= i < |entries| && Anonymous(entries[i])) ==> o == Panicked(AssertionFailed)) &&
            (err != ErrHelp && HelpInvocationOf(programName, flags).Failure? ==>
               o == Panicked(HelpInvocationOf(programName, flags).error)) &&
            (o.Exited? <==> !exitReturns && if err == ErrHelp then forall i :: 0 <= i < |entries| ==> !Anonymous(entries[i])
                                              else HelpInvocationOf(programName, flags).Ok?)
  {
    UsageTextPanic(programName, minArgs, maxArgs, description, example, custom, entries, wrap);
  }

  lemma Concat(a: string, b: string, c: string)
    ensures a + (b + c) == (a + b) + c
  {
  }

  lemma PrefixOfConcat(a: string, b: string)
    ensures HasPrefix(a + b, a)
  {
    assert (a + b)[..|a|] == a;
  }

  // ---------------------------------------------------------------------
  // The writer and the default usage printer.

  /** An io.Writer that never fails, holding everything written to it. */
  class Writer {
    var text: string

    constructor ()
      ensures text == ""
    {
      text := "";
    }

    method Write(s: string)
      modifies this
      ensures text == old(text) + s
    {
      text := text + s;
    }
  }

  class DefaultUsagePrinter {
    var Description: seq<string>
    var Example: seq<string>
    var PositionalArgumentsUsage: string

    /** NewDefaultUsagePrinter. */
    constructor ()
      ensures Description == [] && Example == [] && PositionalArgumentsUsage == ""
    {
      Description := [];
      Example := [];
      PositionalArgumentsUsage := "";
    }

    method AddDescription(values: seq<string>)
      modifies this`Description
      ensures Description == old(Description) + values
    {
      Description := Description + values;
    }

    method AddExamples(values: seq<string>)
      modifies this`Example
      ensures Example == old(Example) + values
    {
      Example := Example + values;
    }

    method Div0(w: Writer, value: string)
      modifies w
      ensures w.text == old(w.text) + Block(value)
    {
      w.Write("\n" + value + "\n");
    }

    method Div1(w: Writer, entry: string, wrap: Wrapper)
      modifies w
      ensures w.text == old(w.text) + Paragraph(entry, wrap)
    {
      if HasPrefix(entry, Indent4) {
        Div0(w, Indent4 + entry);
        return;
      }
      Div0(w, wrap(entry, WrapAtColumn, Indent4));
    }

    /** The paragraph loop of the Description and Examples sections. */
    method Div1All(w: Writer, entries: seq<string>, wrap: Wrapper)
      modifies w
      ensures w.text == old(w.text) + Paragraphs(entries, wrap)
    {
      for k := 0 to |entries|
        invariant w.text == old(w.text) + Paragraphs(entries[..k], wrap)
      {
        ghost var done := Paragraphs(entries[..k], wrap);
        Div1(w, entries[k], wrap);
        ParagraphsPrefix(entries, k, wrap);
        Concat(old(w.text), done, Paragraph(entries[k], wrap));
      }
      assert entries[..|entries|] == entries;
    }

    /** A heading and its paragraphs, when there are any. */
    method PrintSection(w: Writer, heading: string, entries: seq<string>, wrap: Wrapper)
      modifies w
      ensures w.text == old(w.text) + ParagraphSection(heading, entries, wrap)
    {
      if |entries| > 0 {
        Div0(w, heading);
        Div1All(w, entries, wrap);
        Concat(old(w.text), Block(heading), Paragraphs(entries, wrap));
      }
    }

    /** The description lines under one flag. */
    method PrintDescription(w: Writer, description: seq<string>, wrap: Wrapper)
      modifies w
      ensures w.text == old(w.text) + DescriptionBlocks(description, wrap)
    {
      for d := 0 to |description|
        invariant w.text == old(w.text) + DescriptionBlocks(description[..d], wrap)
      {
        assert description[..d + 1][..d] == description[..d];
        Div0(w, wrap(description[d], WrapAtColumn, Indent8));
        Concat(old(w.text), DescriptionBlocks(description[..d], wrap), Block(wrap(description[d], WrapAtColumn, Indent8)));
      }
      assert description[..|description|] == description;
    }

    /** The flag loop of the Flags section. */
    method PrintFlags(w: Writer, flags: seq<FlagEntry>, wrap: Wrapper) returns (p: Option<Panic>)
      modifies w
      ensures w.text == old(w.text) + FlagBlocks(flags, wrap).text
      ensures p == FlagBlocks(flags, wrap).panic
    {
      for k := 0 to |flags|
        invariant FlagBlocks(flags[..k], wrap).panic.None?
        invariant w.text == old(w.text) + FlagBlocks(flags[..k], wrap).text
      {
        assert flags[..k + 1][..k] == flags[..k];
        var fentry := flags[k];
        var line := FlagLine(fentry);
        if line.Failure? {
          FlagBlocksFinal(flags, wrap, k + 1);
          return Some(line.error);
        }
        ghost var done := FlagBlocks(flags[..k], wrap).text;
        Div0(w, line.value);
        PrintDescription(w, fentry.flag.Description, wrap);
        ghost var added := DescriptionBlocks(fentry.flag.Description, wrap);
        Concat(old(w.text), done, Block(line.value));
        Concat(old(w.text), done + Block(line.value), added);
        assert FlagBlocks(flags[..k + 1], wrap).text == done + Block(line.value) + added;
      }
      assert flags[..|flags|] == flags;
      return None;
    }

    /** PrintUsageString, for the flag set's fields and its list of flags. */
    method PrintUsageString(fset: FlagSet, w: Writer, flags: seq<FlagEntry>, wrap: Wrapper) returns (p: Option<Panic>)
      modifies w
      ensures var r := UsageText(fset.ProgramName, fset.MinPositionalArgs, fset.MaxPositionalArgs, Description,
                                 Example, PositionalArgumentsUsage, flags, wrap);
              w.text == old(w.text) + r.text && p == r.panic
    {
      ghost var start := w.text;
      var line := UsageLine(fset.ProgramName, flags, PositionalArgumentsUsage, fset.MinPositionalArgs, fset.MaxPositionalArgs);
      ghost var r := UsageText(fset.ProgramName, fset.MinPositionalArgs, fset.MaxPositionalArgs, Description,
                               Example, PositionalArgumentsUsage, flags, wrap);
      ghost var usage := Block("Usage") + Block(line);
      ghost var descr := ParagraphSection("Description", Description, wrap);
      ghost var section := FlagSection(flags, wrap);
      ghost var examples := ParagraphSection("Examples", Example, wrap);
      assert section.panic.Some? ==> r == Rendering(usage + descr + section.text, section.panic);
      assert section.panic.None? ==> r == Rendering(usage + descr + section.text + examples + "\n", None);

      // ## Usage
      Div0(w, "Usage");
      Div0(w, line);
      Concat(start, Block("Usage"), Block(line));
      assert w.text == start + usage;

      // ## Description
      PrintSection(w, "Description", Description, wrap);
      Concat(start, usage, descr);
      assert w.text == start + (usage + descr);

      // ## Flags
      p := None;
      if |flags| > 0 {
        Div0(w, "Flags");
        p := PrintFlags(w, flags, wrap);
        Concat(start + (usage + descr), Block("Flags"), FlagBlocks(flags, wrap).text);
      } else {
        assert section.text == "";
      }
      Concat(start, usage + descr, section.text);
      assert w.text == start + (usage + descr + section.text);
      assert p == section.panic;
      if p.Some? {
        return;
      }

      // ## Example
      PrintSection(w, "Examples", Example, wrap);
      Concat(start, usage + descr + section.text, examples);
      assert w.text == start + (usage + descr + section.text + examples);
      w.Write("\n");
      Concat(start, usage + descr + section.text + examples, "\n");
    }

    /**
     * PrintUsageError: the error line, then the help hint when some flag
     * requests help.
     */
    method PrintUsageError(fset: FlagSet, w: Writer, flags: seq<Flag>, err: Error) returns (p: Option<Panic>)
      modifies w
      ensures var errorLine := fset.ProgramName + ": " + err.Message() + "\n";
              match HelpInvocationOf(fset.ProgramName, flags)
              case Failure(q) => p == Some(q) && w.text == old(w.text) + errorLine
              case Ok(cmdline) =>
                p == None &&
                w.text == old(w.text) + errorLine +
                          (if cmdline != "" then fset.ProgramName + ": try `" + cmdline + "' for more help.\n" else "")
    {
      var programName := fset.ProgramName;
      w.Write(programName + ": " + err.Message() + "\n");
      var cmdline := HelpInvocation(programName, flags);
      if cmdline.Failure? {
        return Some(cmdline.error);
      }
      if cmdline.value != "" {
        w.Write(programName + ": try `" + cmdline.value + "' for more help.\n");
      }
      return None;
    }
  }

  /** Once a flag line fails, the later flags add nothing. */
  lemma {:induction false} FlagBlocksFinal(flags: seq<FlagEntry>, wrap: Wrapper, k: nat)
    requires 0 < k <= |flags| && FlagBlocks(flags[..k], wrap).panic.Some?
    ensures FlagBlocks(flags, wrap) == FlagBlocks(flags[..k], wrap)
    decreases |flags| - k
  {
    if k < |flags| {
      assert flags[..k + 1][..k] == flags[..k];
      FlagBlocksFinal(flags, wrap, k + 1);
    } else {
      assert flags[..k] == flags;
    }
  }
}
