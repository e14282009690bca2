/**
 * Short (single-character) flag descriptors of short.go, and the
 * argument-name resolution that long flags share.
 */
module Short {
  import opened Wrappers
  import opened Errors
  import opened Values
  import FlagParser

  /** The characters of `[A-Z0-9_-]`. */
  predicate IsNameChar(c: char)
  {
    ('A' <= c <= 'Z') || ('0' <= c <= '9') || c == '_' || c == '-'
  }

  /**
   * Whether s[i..j+1] matches `` `([A-Z0-9_-]+)` ``: backticks at i and j and
   * at least one name character strictly between them.
   */
  predicate MatchAt(s: string, i: nat, j: nat)
  {
    i + 1 < j < |s| && s[i] == '`' && s[j] == '`' && forall k :: i < k < j ==> IsNameChar(s[k])
  }

  /** The end of the run of name characters that starts at k. */
  function RunEnd(s: string, k: nat): (e: nat)
    requires k <= |s|
    ensures k <= e <= |s|
    ensures forall m :: k <= m < e ==> IsNameChar(s[m])
    ensures e == |s| || !IsNameChar(s[e])
    decreases |s| - k
  {
    if k < |s| && IsNameChar(s[k]) then RunEnd(s, k + 1) else k
  }

  /** A match starting at i can only close where the run of name characters ends. */
  lemma MatchCloses(s: string, i: nat, j: nat)
    requires i < |s| && MatchAt(s, i, j)
    ensures j == RunEnd(s, i + 1)
  {
  }

  /**
   * The leftmost match that starts at or after i, as the positions of its two
   * backticks: the regular-expression search the source performs.
   */
  function FindFrom(s: string, i: nat): (r: Option<(nat, nat)>)
    requires i <= |s|
    ensures r.Some? ==> i <= r.value.0 && MatchAt(s, r.value.0, r.value.1)
    ensures r.Some? ==> forall a: nat, b: nat :: i <= a < r.value.0 ==> !MatchAt(s, a, b)
    ensures r.None? ==> forall a: nat, b: nat :: i <= a ==> !MatchAt(s, a, b)
    decreases |s| - i
  {
    if i == |s| then None
    else
      var e := RunEnd(s, i + 1);
      if s[i] == '`' && i + 1 < e < |s| && s[e] == '`' then
        Some((i, e))
      else
        assert forall b: nat :: !MatchAt(s, i, b) by {
          forall b: nat | MatchAt(s, i, b) {
            MatchCloses(s, i, b);
          }
        }
        FindFrom(s, i + 1)
  }

  predicate HasPrefix(s: string, p: string)
  {
    |p| <= |s| && s[..|p|] == p
  }

  /**
   * argumentNameFromDocsOrDefault: when there is a description and the default
   * starts with a space, the first backticked `[A-Z0-9_-]+` token of the first
   * paragraph, after a space; otherwise, or without a token, the default.
   */
  function ArgumentNameFromDocsOrDefault(description: seq<string>, defaultValue: string): (output: string)
    ensures output == defaultValue ||
            (|output| >= 2 && output[0] == ' ' && forall k :: 1 <= k < |output| ==> IsNameChar(output[k]))
    ensures output != defaultValue ==>
              |description| > 0 && HasPrefix(defaultValue, " ") &&
              exists i: nat, j: nat :: MatchAt(description[0], i, j) && output == " " + description[0][i + 1..j]
  {
    if |description| > 0 && HasPrefix(defaultValue, " ") then
      match FindFrom(description[0], 0)
      case Some((i, j)) => " " + description[0][i + 1..j]
      case None => defaultValue
    else
      defaultValue
  }

  /** Without a description, or with a default not starting with a space, the default is kept. */
  lemma ArgumentNameKeepsDefault(description: seq<string>, defaultValue: string)
    requires |description| == 0 || !HasPrefix(defaultValue, " ")
    ensures ArgumentNameFromDocsOrDefault(description, defaultValue) == defaultValue
  {
  }

  /** Extraction takes the leftmost token of the first paragraph only. */
  lemma ArgumentNameTakesLeftmost(description: seq<string>, defaultValue: string, i: nat, j: nat)
    requires |description| > 0 && HasPrefix(defaultValue, " ")
    requires MatchAt(description[0], i, j)
    requires forall a: nat, b: nat :: a < i ==> !MatchAt(description[0], a, b)
    ensures ArgumentNameFromDocsOrDefault(description, defaultValue) == " " + description[0][i + 1..j]
  {
    var r := FindFrom(description[0], 0);
    assert r.Some?;
    var (i', j') := r.value;
    assert i' == i;
    MatchCloses(description[0], i, j);
    MatchCloses(description[0], i, j');
  }

  /** With no token in the first paragraph, the default is kept. */
  lemma ArgumentNameWithoutToken(description: seq<string>, defaultValue: string)
    requires |description| > 0
    requires forall a: nat, b: nat :: !MatchAt(description[0], a, b)
    ensures ArgumentNameFromDocsOrDefault(description, defaultValue) == defaultValue
  {
  }

  /**
   * A first paragraph made of backtick-free text, then a backticked name
   * token, then anything at all, names the argument after that token.
   */
  lemma ArgumentNameOfFirstToken(description: seq<string>, prefix: string, token: string, suffix: string,
                                 defaultValue: string)
    requires |description| > 0 && description[0] == prefix + "`" + token + "`" + suffix
    requires HasPrefix(defaultValue, " ")
    requires forall k :: 0 <= k < |prefix| ==> prefix[k] != '`'
    requires token != "" && forall k :: 0 <= k < |token| ==> IsNameChar(token[k])
    ensures ArgumentNameFromDocsOrDefault(description, defaultValue) == " " + token
  {
    var s := description[0];
    var i, j := |prefix|, |prefix| + 1 + |token|;
    assert forall k :: 0 <= k < i ==> s[k] == prefix[k];
    assert forall k :: i < k < j ==> s[k] == token[k - i - 1];
    assert s[i] == '`' && s[j] == '`';
    assert MatchAt(s, i, j);
    ArgumentNameTakesLeftmost(description, defaultValue, i, j);
    assert s[i + 1..j] == token;
  }

  /** The source's MakeOption function pointers: one per option strategy. */
  datatype ShortMakeOption =
    | ShortFlagMakeOptionAutoHelp
    | ShortFlagMakeOptionBool
    | ShortFlagMakeOptionWithValue

  /** The tokenizer option type each strategy asks for. */
  function ShortOptionType(m: ShortMakeOption): FlagParser.OptionType
  {
    match m
    case ShortFlagMakeOptionAutoHelp => FlagParser.OptionTypeEarlyArgumentNone
    case ShortFlagMakeOptionBool => FlagParser.OptionTypeGroupableArgumentNone
    case ShortFlagMakeOptionWithValue => FlagParser.OptionTypeGroupableArgumentRequired
  }

  /** Go's string(b) for a byte: the one-character string. */
  function ByteString(b: byte): string
  {
    [b as char]
  }

  datatype ShortFlag = ShortFlag(
    Description: seq<string>,
    ArgumentName: string,
    MakeOption: ShortMakeOption,
    Name: byte,
    Prefix: string,
    Value: Value)
  {
    /** The synopsis in help output, such as `-v` or `-t TAG`. */
    function Usage(): (u: string)
      ensures |u| > |Prefix| && u[..|Prefix|] == Prefix && u[|Prefix|] == Name as char
      ensures u[|Prefix| + 1..] == ArgumentNameFromDocsOrDefault(Description, ArgumentName)
    {
      Prefix + ByteString(Name) + ArgumentNameFromDocsOrDefault(Description, ArgumentName)
    }

    /**
     * fx.MakeOption(fx): the option for the tokenizer, or the assertion failure
     * when the prefix is empty or the name is zero.
     */
    function Option(): (r: Result<FlagParser.Option, Panic>)
      ensures r.Failure? <==> Prefix == "" || Name == 0
      ensures r.Failure? ==> r.error == AssertionFailed
      ensures r.Ok? ==> r.value.Type == ShortOptionType(MakeOption) && r.value.Prefix == Prefix
      ensures r.Ok? ==> r.value.Name == [Name as char] && r.value.DefaultValue == ""
    {
      if !(Prefix != "" && Name != 0) then
        Failure(AssertionFailed)
      else
        Ok(FlagParser.Option(ShortOptionType(MakeOption), Prefix, ByteString(Name), ""))
    }
  }

  /** The argument name the constructors give to a value-taking type. */
  function TypeArgumentName(v: Value): string
  {
    match v
    case ValueAutoHelp => ""
    case ValueBool(_) => ""
    case ValueInt(_) => " INT"
    case ValueInt8(_) => " INT8"
    case ValueInt16(_) => " INT16"
    case ValueInt32(_) => " INT32"
    case ValueInt64(_) => " INT64"
    case ValueString(_) => " STRING"
    case ValueStringSlice(_) => " STRING"
    case ValueUint(_) => " UINT"
    case ValueUint8(_) => " UINT8"
    case ValueUint16(_) => " UINT16"
    case ValueUint32(_) => " UINT32"
    case ValueUInt64(_) => " UINT64"
  }

  /**
   * The NewShortFlag* constructors: the one for the value's type, with prefix
   * "-", the help text as description and that type's strategy.
   */
  function NewShortFlag(value: Value, name: byte, helpText: seq<string>): (fx: ShortFlag)
    ensures fx.Prefix == "-" && fx.Name == name && fx.Description == helpText && fx.Value == value
    ensures value.ValueAutoHelp? ==> fx.MakeOption == ShortFlagMakeOptionAutoHelp && fx.ArgumentName == ""
    ensures value.ValueBool? ==> fx.MakeOption == ShortFlagMakeOptionBool && fx.ArgumentName == ""
    ensures !value.ValueAutoHelp? && !value.ValueBool? ==>
              fx.MakeOption == ShortFlagMakeOptionWithValue && fx.ArgumentName == TypeArgumentName(value) &&
              |fx.ArgumentName| > 1 && fx.ArgumentName[0] == ' '
  {
    var strategy :=
      if value.ValueAutoHelp? then ShortFlagMakeOptionAutoHelp
      else if value.ValueBool? then ShortFlagMakeOptionBool
      else ShortFlagMakeOptionWithValue;
    ShortFlag(helpText, TypeArgumentName(value), strategy, name, "-", value)
  }

  /** A constructed short flag makes its option exactly when its name is non-zero. */
  lemma NewShortFlagOption(value: Value, name: byte, helpText: seq<string>)
    ensures NewShortFlag(value, name, helpText).Option().Ok? <==> name != 0
    ensures name != 0 ==> NewShortFlag(value, name, helpText).Option().value.Prefix == "-"
  {
  }

  /**
   * The synopsis of a constructed bool or auto-help short flag is just the
   * prefix and name: its empty argument name is never replaced.
   */
  lemma NewShortFlagNoArgumentUsage(value: Value, name: byte, helpText: seq<string>)
    requires value.ValueAutoHelp? || value.ValueBool?
    ensures NewShortFlag(value, name, helpText).Usage() == "-" + [name as char]
  {
    ArgumentNameKeepsDefault(helpText, "");
  }
}
