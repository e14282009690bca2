/**
 * The flag set of flagset.go: registration of short and long flags with the
 * tokenizer, the walk over the tokenizer's results that assigns values and
 * collects positionals, and the error-handling policy.
 */
module FlagSets {
  import opened Wrappers
  import opened Errors
  import opened Values
  import opened Short
  import opened Long
  import FlagParser

  /** Go's ErrorHandling is an int; only the three constants below are named. */
  newtype ErrorHandling = x: int | -0x8000_0000_0000_0000 <= x < 0x8000_0000_0000_0000

  const ContinueOnError: ErrorHandling := 0
  const ExitOnError: ErrorHandling := 1
  const PanicOnError: ErrorHandling := 2

  // ---------------------------------------------------------------------
  // Registration: the options handed to the tokenizer and the name -> value view.

  datatype Registry = Registry(options: seq<FlagParser.Option>, view: map<string, Value>)

  /** The short-flag loop: each option appended, its name (re)bound to the flag's value. */
  function ShortRegistry(shorts: seq<ShortFlag>): Result<Registry, Panic>
    decreases |shorts|
  {
    if shorts == [] then Ok(Registry([], map[]))
    else
      match ShortRegistry(shorts[..|shorts| - 1])
      case Failure(p) => Failure(p)
      case Ok(reg) =>
        var fx := shorts[|shorts| - 1];
        match fx.Option()
        case Failure(p) => Failure(p)
        case Ok(opt) => Ok(Registry(reg.options + [opt], reg.view[opt.Name := fx.Value]))
  }

  /** The long-flag loop: like the short one, but a name already bound fails the assertion. */
  function LongRegistry(start: Registry, longs: seq<LongFlag>): Result<Registry, Panic>
    decreases |longs|
  {
    if longs == [] then Ok(start)
    else
      match LongRegistry(start, longs[..|longs| - 1])
      case Failure(p) => Failure(p)
      case Ok(reg) =>
        var fx := longs[|longs| - 1];
        match fx.Option()
        case Failure(p) => Failure(p)
        case Ok(opt) =>
          if opt.Name in reg.view then Failure(AssertionFailed)
          else Ok(Registry(reg.options + [opt], reg.view[opt.Name := fx.Value]))
  }

  function BuildRegistry(shorts: seq<ShortFlag>, longs: seq<LongFlag>): Result<Registry, Panic>
  {
    match ShortRegistry(shorts)
    case Failure(p) => Failure(p)
    case Ok(reg) => LongRegistry(reg, longs)
  }

  // ---------------------------------------------------------------------
  // The walk over the tokenizer's results.

  /** One call of Set: the value it was made on and the raw token. */
  datatype Call = Call(target: Value, raw: string)

  /** How the walk ended: it ran through, a Set failed or help was requested, or a name was unbound. */
  datatype WalkEnd = Completed | Stopped(err: Error) | Unmapped

  datatype Walk = Walk(positionals: seq<string>, calls: seq<Call>, end: WalkEnd)

  function WalkResults(view: map<string, Value>, results: seq<FlagParser.Value>): Walk
    decreases |results|
  {
    if results == [] then Walk([], [], Completed)
    else
      var w := WalkResults(view, results[..|results| - 1]);
      if !w.end.Completed? then w
      else
        match results[|results| - 1]
        case ValuePositionalArgument(v) => w.(positionals := w.positionals + [v])
        case ValueOption(opt, raw) =>
          if opt.Name !in view then w.(end := Unmapped)
          else
            var target := view[opt.Name];
            var calls := w.calls + [Call(target, raw)];
            match ParseValue(target.KindOf(), raw)
            case Failure(e) => Walk(w.positionals, calls, Stopped(e))
            case Ok(_) => Walk(w.positionals, calls, if target.ValueAutoHelp? then Stopped(ErrHelp) else Completed)
  }

  /** What parse returns after the walk: nil, the error, or the assertion failure. */
  function WalkOutcome(w: Walk): Result<Option<Error>, Panic>
  {
    match w.end
    case Completed => Ok(None)
    case Stopped(e) => Ok(Some(e))
    case Unmapped => Failure(AssertionFailed)
  }

  /** The contents of the variable behind `v` after the calls, starting from `s`. */
  function Replay(v: Value, s: Stored, calls: seq<Call>): Stored
    decreases |calls|
  {
    if calls == [] then s
    else
      var before := Replay(v, s, calls[..|calls| - 1]);
      var c := calls[|calls| - 1];
      if c.target == v then After(v.KindOf(), before, c.raw) else before
  }

  /** How a parse unfolds, before any heap effect. */
  datatype Plan =
    | Aborted(p: Panic)
    | Rejected(err: Error)
    | Walked(view: map<string, Value>, walk: Walk)

  function PlanOf(shorts: seq<ShortFlag>, longs: seq<LongFlag>, config: FlagParser.Parser,
                  args: seq<string>, tokenizer: FlagParser.Tokenizer): Plan
  {
    match BuildRegistry(shorts, longs)
    case Failure(p) => Aborted(p)
    case Ok(reg) =>
      match tokenizer(config.(Options := reg.options), args)
      case Failure(e) => Rejected(e)
      case Ok(results) => Walked(reg.view, WalkResults(reg.view, results))
  }

  /** The walk a plan performs: none at all when registration or the tokenizer fails. */
  function PlanWalk(plan: Plan): Walk
  {
    if plan.Walked? then plan.walk else Walk([], [], Completed)
  }

  /** What parse returns under a plan. */
  function PlanResult(plan: Plan): Result<Option<Error>, Panic>
  {
    match plan
    case Aborted(p) => Failure(p)
    case Rejected(e) => Ok(Some(e))
    case Walked(_, w) => WalkOutcome(w)
  }

  /** The values of all registered flags. */
  function FlagValues(shorts: seq<ShortFlag>, longs: seq<LongFlag>): set<Value>
  {
    (set i | 0 <= i < |shorts| :: shorts[i].Value) + (set j | 0 <= j < |longs| :: longs[j].Value)
  }

  /** The variables behind a set of values. */
  function Cells(values: set<Value>): set<object>
  {
    set v, o | v in values && o in v.Footprint() :: o
  }

  // ---------------------------------------------------------------------
  // Error handling.

  /** A side effect of maybeHandleError, in order. */
  datatype Effect =
    | PrintUsageString
    | PrintUsageError(err: Error)
    | CallExit(status: int)

  /** How Parse ends: it returns, the process exits, or it panics. */
  datatype Outcome =
    | Returned(err: Option<Error>)
    | Exited(status: int)
    | Panicked(p: Panic)

  datatype Disposition = Disposition(effects: seq<Effect>, outcome: Outcome)

  /**
   * maybeHandleError. `exitReturns` says whether the Exit callback returns
   * instead of ending the process, in which case the panic is reached.
   */
  function HandleError(handling: ErrorHandling, err: Option<Error>, exitReturns: bool): (d: Disposition)
    ensures d.outcome.Returned? <==> err.None? || handling == ContinueOnError
    ensures d.outcome.Returned? ==> d.outcome.err == err && d.effects == []
    ensures d.outcome.Exited? ==> handling == ExitOnError && !exitReturns
    ensures d.outcome.Exited? ==> (d.outcome.status == 0 <==> err == Some(ErrHelp))
    ensures d.outcome.Exited? ==> d.outcome.status == 0 || d.outcome.status == 2
    ensures d.outcome.Panicked? ==> err.Some? && d.outcome.p == PanicWith(err.value)
    ensures d.effects != [] <==> err.Some? && handling == ExitOnError
  {
    if err.None? then
      Disposition([], Returned(None))
    else if handling == ContinueOnError then
      Disposition([], Returned(err))
    else if handling == ExitOnError then
      var status := if err.value == ErrHelp then 0 else 2;
      var report := if err.value == ErrHelp then PrintUsageString else PrintUsageError(err.value);
      Disposition([report, CallExit(status)], if exitReturns then Panicked(PanicWith(err.value)) else Exited(status))
    else
      Disposition([], Panicked(PanicWith(err.value)))
  }

  /** Under ExitOnError no error, and in particular not ErrHelp, is ever returned. */
  lemma ExitPolicyNeverReturnsErrors(err: Option<Error>, exitReturns: bool)
    ensures HandleError(ExitOnError, err, exitReturns).outcome.Returned? ==> err.None?
    ensures HandleError(ExitOnError, err, exitReturns).outcome != Returned(Some(ErrHelp))
  {
  }

  /**
   * Under ExitOnError, help prints the usage and exits 0; any other error
   * prints the usage error and exits 2.
   */
  lemma ExitPolicyEffects(err: Error)
    ensures HandleError(ExitOnError, Some(err), false) ==
              if err == ErrHelp then Disposition([PrintUsageString, CallExit(0)], Exited(0))
              else Disposition([PrintUsageError(err), CallExit(2)], Exited(2))
  {
  }

  /** PanicOnError, and every unnamed policy value, panics with the error. */
  lemma OtherPoliciesPanic(handling: ErrorHandling, err: Error, exitReturns: bool)
    requires handling != ContinueOnError && handling != ExitOnError
    ensures HandleError(handling, Some(err), exitReturns) == Disposition([], Panicked(PanicWith(err)))
  {
  }

  /**
   * One `val.Set(value.Value)` of the result loop, seen from all registered
   * values: only the target's contents move.
   */
  method SetTracked(target: Value, raw: string, ghost values: set<Value>) returns (err: Option<Error>)
    modifies target.Footprint()
    ensures ParseValue(target.KindOf(), raw).Ok? ==> err == None
    ensures ParseValue(target.KindOf(), raw).Failure? ==> err == Some(ParseValue(target.KindOf(), raw).error)
    ensures forall v :: v in values ==>
              v.Load() == if v == target then After(v.KindOf(), old(v.Load()), raw) else old(v.Load())
  {
    err := target.Set(raw);
    forall v | v in values && v != target
      ensures v.Load() == old(v.Load())
    {
      FootprintsDisjoint(v, target);
    }
  }

  /**
   * SetTracked, seen as one more call appended to the calls replayed so far
   * from the contents each value had at the start of the walk.
   */
  method ReplayedSet(target: Value, raw: string, ghost values: set<Value>, ghost initial: map<Value, Stored>,
                     ghost calls: seq<Call>) returns (err: Option<Error>)
    requires target in values
    requires forall v :: v in values ==> v in initial && v.Load() == Replay(v, initial[v], calls)
    modifies Cells(values)
    ensures ParseValue(target.KindOf(), raw).Ok? ==> err == None
    ensures ParseValue(target.KindOf(), raw).Failure? ==> err == Some(ParseValue(target.KindOf(), raw).error)
    ensures forall v :: v in values ==> v.Load() == Replay(v, initial[v], calls + [Call(target, raw)])
  {
    assert target.Footprint() <= Cells(values);
    err := SetTracked(target, raw, values);
    forall v | v in values
      ensures v.Load() == Replay(v, initial[v], calls + [Call(target, raw)])
    {
      ReplayStep(v, initial[v], calls, Call(target, raw));
    }
  }

  /**
   * The loop over the tokenizer's results, writing only the bound
   * variables; the positionals it meets are returned in order.
   */
  method WalkValues(view: map<string, Value>, results: seq<FlagParser.Value>, ghost values: set<Value>)
    returns (r: Result<Option<Error>, Panic>, added: seq<string>)
    requires forall n :: n in view ==> view[n] in values
    modifies Cells(values)
    ensures r == WalkOutcome(WalkResults(view, results))
    ensures added == WalkResults(view, results).positionals
    ensures forall v :: v in values ==> v.Load() == Replay(v, old(v.Load()), WalkResults(view, results).calls)
  {
    ghost var initial := map v | v in values :: v.Load();
    added := [];
    for k := 0 to |results|
      invariant WalkResults(view, results[..k]).end == Completed
      invariant added == WalkResults(view, results[..k]).positionals
      invariant forall v :: v in values ==> v.Load() == Replay(v, initial[v], WalkResults(view, results[..k]).calls)
    {
      assert results[..k + 1][..k] == results[..k];
      match results[k]
      case ValuePositionalArgument(v) =>
        added := added + [v];
      case ValueOption(opt, raw) =>
        if opt.Name !in view {
          WalkEndIsFinal(view, results, k + 1);
          return Failure(AssertionFailed), added;
        }
        var val := view[opt.Name];
        var err := ReplayedSet(val, raw, values, initial, WalkResults(view, results[..k]).calls);
        if err.Some? {
          WalkEndIsFinal(view, results, k + 1);
          return Ok(err), added;
        }
        if val.ValueAutoHelp? {
          WalkEndIsFinal(view, results, k + 1);
          return Ok(Some(ErrHelp)), added;
        }
    }
    assert results[..|results|] == results;
    return Ok(None), added;
  }

  // ---------------------------------------------------------------------
  // The flag set.

  class FlagSet {
    var DisablePermute: bool
    var ErrorHandling: ErrorHandling
    var LongFlags: seq<LongFlag>
    var MaxPositionalArgs: int
    var MinPositionalArgs: int
    var OptionsArgumentsSeparator: string
    var ProgramName: string
    var ShortFlags: seq<ShortFlag>
    var positionals: seq<string>

    /** NewFlagSet. */
    constructor (progname: string, handling: ErrorHandling)
      ensures DisablePermute == false && ErrorHandling == handling
      ensures LongFlags == [] && ShortFlags == [] && positionals == []
      ensures MaxPositionalArgs == 0 && MinPositionalArgs == 0
      ensures OptionsArgumentsSeparator == "--" && ProgramName == progname
    {
      DisablePermute := false;
      ErrorHandling := handling;
      LongFlags := [];
      MaxPositionalArgs := 0;
      MinPositionalArgs := 0;
      OptionsArgumentsSeparator := "--";
      ProgramName := progname;
      ShortFlags := [];
      positionals := [];
    }

    method SetMinMaxPositionalArgs(minArgs: int, maxArgs: int)
      modifies this
      ensures MinPositionalArgs == minArgs && MaxPositionalArgs == maxArgs
      ensures DisablePermute == old(DisablePermute) && ErrorHandling == old(ErrorHandling)
      ensures LongFlags == old(LongFlags) && ShortFlags == old(ShortFlags) && positionals == old(positionals)
      ensures OptionsArgumentsSeparator == old(OptionsArgumentsSeparator) && ProgramName == old(ProgramName)
    {
      MinPositionalArgs := minArgs;
      MaxPositionalArgs := maxArgs;
    }

    /** The positional arguments collected so far. */
    function Args(): (r: seq<string>)
      reads this
      ensures r == positionals
    {
      positionals
    }

    /** The tokenizer configuration, before the options are filled in. */
    function Config(): FlagParser.Parser
      reads this`DisablePermute, this`MaxPositionalArgs, this`MinPositionalArgs, this`OptionsArgumentsSeparator
    {
      FlagParser.Parser(DisablePermute, MaxPositionalArgs, MinPositionalArgs, OptionsArgumentsSeparator, [])
    }

    /**
     * The two registration loops of `parse`: every short flag's option, then
     * every long flag's, with the name -> value view they build.
     */
    method Register() returns (r: Result<Registry, Panic>)
      ensures r == BuildRegistry(ShortFlags, LongFlags)
      ensures r.Ok? ==> forall n :: n in r.value.view ==> r.value.view[n] in FlagValues(ShortFlags, LongFlags)
    {
      // build options and value map from short flags
      var options: seq<FlagParser.Option> := [];
      var pview: map<string, Value> := map[];
      for i := 0 to |ShortFlags|
        invariant ShortRegistry(ShortFlags[..i]) == Ok(Registry(options, pview))
        invariant forall n :: n in pview ==> pview[n] in FlagValues(ShortFlags, LongFlags)
      {
        var fx := ShortFlags[i];
        assert ShortFlags[..i + 1][..i] == ShortFlags[..i];
        var opt := fx.Option();
        if opt.Failure? {
          ShortRegistryAborts(ShortFlags, i + 1);
          return Failure(opt.error);
        }
        options := options + [opt.value];
        pview := pview[opt.value.Name := fx.Value];
      }
      assert ShortFlags[..|ShortFlags|] == ShortFlags;
      var shortReg := Registry(options, pview);

      // build options and value map from long flags
      for j := 0 to |LongFlags|
        invariant LongRegistry(shortReg, LongFlags[..j]) == Ok(Registry(options, pview))
        invariant forall n :: n in pview ==> pview[n] in FlagValues(ShortFlags, LongFlags)
      {
        var fx := LongFlags[j];
        assert LongFlags[..j + 1][..j] == LongFlags[..j];
        var opt := fx.Option();
        if opt.Failure? {
          LongRegistryAborts(shortReg, LongFlags, j + 1);
          return Failure(opt.error);
        }
        if opt.value.Name in pview {
          LongRegistryAborts(shortReg, LongFlags, j + 1);
          return Failure(AssertionFailed);
        }
        options := options + [opt.value];
        pview := pview[opt.value.Name := fx.Value];
      }
      assert LongFlags[..|LongFlags|] == LongFlags;
      return Ok(Registry(options, pview));
    }

    /**
     * The result loop of `parse`: positionals are appended, options call Set
     * on the value their name is bound to; the first failure or help
     * request ends the loop.
     */
    method Apply(view: map<string, Value>, results: seq<FlagParser.Value>) returns (r: Result<Option<Error>, Panic>)
      requires forall n :: n in view ==> view[n] in FlagValues(ShortFlags, LongFlags)
      modifies this`positionals, Cells(FlagValues(ShortFlags, LongFlags))
      ensures DisablePermute == old(DisablePermute) && ErrorHandling == old(ErrorHandling)
      ensures LongFlags == old(LongFlags) && ShortFlags == old(ShortFlags)
      ensures MaxPositionalArgs == old(MaxPositionalArgs) && MinPositionalArgs == old(MinPositionalArgs)
      ensures OptionsArgumentsSeparator == old(OptionsArgumentsSeparator) && ProgramName == old(ProgramName)
      ensures r == WalkOutcome(WalkResults(view, results))
      ensures positionals == old(positionals) + WalkResults(view, results).positionals
      ensures forall v :: v in FlagValues(ShortFlags, LongFlags) ==>
                v.Load() == Replay(v, old(v.Load()), WalkResults(view, results).calls)
    {
      CellsOmit(FlagValues(ShortFlags, LongFlags), this);
      var added;
      r, added := WalkValues(view, results, FlagValues(ShortFlags, LongFlags));
      positionals := positionals + added;
    }

    /**
     * The source's `parse`: register the flags, run the tokenizer, then walk
     * its results.
     */
    method ParseArgs(args: seq<string>, tokenizer: FlagParser.Tokenizer) returns (r: Result<Option<Error>, Panic>)
      modifies this`positionals, Cells(FlagValues(ShortFlags, LongFlags))
      ensures DisablePermute == old(DisablePermute) && ErrorHandling == old(ErrorHandling)
      ensures LongFlags == old(LongFlags) && ShortFlags == old(ShortFlags)
      ensures MaxPositionalArgs == old(MaxPositionalArgs) && MinPositionalArgs == old(MinPositionalArgs)
      ensures OptionsArgumentsSeparator == old(OptionsArgumentsSeparator) && ProgramName == old(ProgramName)
      ensures r == PlanResult(PlanOf(ShortFlags, LongFlags, Config(), args, tokenizer))
      ensures positionals == old(positionals) + PlanWalk(PlanOf(ShortFlags, LongFlags, Config(), args, tokenizer)).positionals
      ensures forall v :: v in FlagValues(ShortFlags, LongFlags) ==>
                v.Load() == Replay(v, old(v.Load()), PlanWalk(PlanOf(ShortFlags, LongFlags, Config(), args, tokenizer)).calls)
    {
      ghost var plan := PlanOf(ShortFlags, LongFlags, Config(), args, tokenizer);
      var reg := Register();
      LoadsUnchanged(FlagValues(ShortFlags, LongFlags));
      if reg.Failure? {
        assert plan == Aborted(reg.error);
        return Failure(reg.error);
      }
      // parse the command line
      var parsed := tokenizer(Config().(Options := reg.value.options), args);
      if parsed.Failure? {
        assert plan == Rejected(parsed.error);
        return Ok(Some(parsed.error));
      }
      // map the parsed values back to options and positionals
      assert plan == Walked(reg.value.view, WalkResults(reg.value.view, parsed.value));
      ghost var config := Config();
      r := Apply(reg.value.view, parsed.value);
      assert Config() == config;
    }

    /**
     * Parse: `parse`, then maybeHandleError on what it returns. A failed
     * assertion during `parse` panics before the policy applies.
     */
    method Parse(args: seq<string>, tokenizer: FlagParser.Tokenizer, exitReturns: bool) returns (d: Disposition)
      modifies this`positionals, Cells(FlagValues(ShortFlags, LongFlags))
      ensures d == match PlanResult(PlanOf(ShortFlags, LongFlags, Config(), args, tokenizer))
                   case Failure(p) => Disposition([], Panicked(p))
                   case Ok(err) => HandleError(ErrorHandling, err, exitReturns)
      ensures positionals == old(positionals) + PlanWalk(PlanOf(ShortFlags, LongFlags, Config(), args, tokenizer)).positionals
      ensures forall v :: v in FlagValues(ShortFlags, LongFlags) ==>
                v.Load() == Replay(v, old(v.Load()), PlanWalk(PlanOf(ShortFlags, LongFlags, Config(), args, tokenizer)).calls)
    {
      var r := ParseArgs(args, tokenizer);
      match r
      case Failure(p) => d := Disposition([], Panicked(p));
      case Ok(err) => d := HandleError(ErrorHandling, err, exitReturns);
    }
  }

  // ---------------------------------------------------------------------
  // Lemmas.

  lemma {:induction false} ShortRegistryAborts(shorts: seq<ShortFlag>, i: nat)
    requires i <= |shorts| && ShortRegistry(shorts[..i]).Failure?
    ensures ShortRegistry(shorts) == ShortRegistry(shorts[..i])
    decreases |shorts| - i
  {
    if i < |shorts| {
      assert shorts[..i + 1][..i] == shorts[..i];
      ShortRegistryAborts(shorts, i + 1);
    } else {
      assert shorts[..i] == shorts;
    }
  }

  lemma {:induction false} LongRegistryAborts(start: Registry, longs: seq<LongFlag>, j: nat)
    requires j <= |longs| && LongRegistry(start, longs[..j]).Failure?
    ensures LongRegistry(start, longs) == LongRegistry(start, longs[..j])
    decreases |longs| - j
  {
    if j < |longs| {
      assert longs[..j + 1][..j] == longs[..j];
      LongRegistryAborts(start, longs, j + 1);
    } else {
      assert longs[..j] == longs;
    }
  }

  /** Once the walk has stopped, later results change nothing: they are never looked at. */
  lemma {:induction false} WalkEndIsFinal(view: map<string, Value>, results: seq<FlagParser.Value>, k: nat)
    requires k <= |results| && !WalkResults(view, results[..k]).end.Completed?
    ensures WalkResults(view, results) == WalkResults(view, results[..k])
    decreases |results| - k
  {
    if k < |results| {
      assert results[..k + 1][..k] == results[..k];
      WalkEndIsFinal(view, results, k + 1);
    } else {
      assert results[..k] == results;
    }
  }

  /** A flag set is never one of the variables values write through. */
  lemma CellsOmit(values: set<Value>, fs: FlagSet)
    ensures fs !in Cells(values)
  {
    forall v | v in values
      ensures fs !in v.Footprint()
    {
    }
  }

  /** Variables nobody wrote to still hold what they held. */
  twostate lemma LoadsUnchanged(values: set<Value>)
    requires unchanged(Cells(values))
    ensures forall v :: v in values ==> v.Load() == old(v.Load())
  {
    forall v | v in values
      ensures v.Load() == old(v.Load())
    {
      assert v.Footprint() <= Cells(values);
    }
  }

  lemma ReplayStep(v: Value, s: Stored, calls: seq<Call>, c: Call)
    ensures Replay(v, s, calls + [c]) ==
              if c.target == v then After(v.KindOf(), Replay(v, s, calls), c.raw) else Replay(v, s, calls)
  {
    assert (calls + [c])[..|calls|] == calls;
  }

  // ---------------------------------------------------------------------
  // Registration lemmas.

  /** The short loop fails exactly when one of the short flags' options fails. */
  lemma {:induction false} ShortRegistryOk(shorts: seq<ShortFlag>)
    ensures ShortRegistry(shorts).Ok? <==> forall i :: 0 <= i < |shorts| ==> shorts[i].Option().Ok?
    decreases |shorts|
  {
    if shorts != [] {
      var init := shorts[..|shorts| - 1];
      ShortRegistryOk(init);
      assert forall i :: 0 <= i < |init| ==> init[i] == shorts[i];
    }
  }

  /** On success the short options are appended one per flag, in order. */
  lemma {:induction false} ShortRegistryOptions(shorts: seq<ShortFlag>)
    requires ShortRegistry(shorts).Ok?
    ensures |ShortRegistry(shorts).value.options| == |shorts|
    ensures forall i :: 0 <= i < |shorts| ==>
              shorts[i].Option().Ok? && ShortRegistry(shorts).value.options[i] == shorts[i].Option().value
    decreases |shorts|
  {
    if shorts != [] {
      var init := shorts[..|shorts| - 1];
      ShortRegistryOptions(init);
      assert forall i :: 0 <= i < |init| ==> init[i] == shorts[i];
    }
  }

  /** On success the view binds the name of every short flag and nothing else. */
  lemma {:induction false} ShortRegistryNames(shorts: seq<ShortFlag>)
    requires ShortRegistry(shorts).Ok?
    ensures forall n :: n in ShortRegistry(shorts).value.view <==>
              exists i :: 0 <= i < |shorts| && ByteString(shorts[i].Name) == n
    decreases |shorts|
  {
    if shorts != [] {
      var init := shorts[..|shorts| - 1];
      var last := shorts[|shorts| - 1];
      ShortRegistryNames(init);
      var view := ShortRegistry(shorts).value.view;
      assert view == ShortRegistry(init).value.view[ByteString(last.Name) := last.Value];
      forall n
        ensures n in view <==> exists i :: 0 <= i < |shorts| && ByteString(shorts[i].Name) == n
      {
        if n in view {
          if n != ByteString(last.Name) {
            var i :| 0 <= i < |init| && ByteString(init[i].Name) == n;
            assert ByteString(shorts[i].Name) == n;
          } else {
            assert ByteString(shorts[|shorts| - 1].Name) == n;
          }
        }
        if exists i :: 0 <= i < |shorts| && ByteString(shorts[i].Name) == n {
          var i :| 0 <= i < |shorts| && ByteString(shorts[i].Name) == n;
          if i < |init| {
            assert ByteString(init[i].Name) == n;
          }
        }
      }
    }
  }

  /**
   * Duplicates among the short flags are not checked: a name given more than
   * once is bound to the value of its last flag.
   */
  lemma {:induction false} ShortRegistryLastWins(shorts: seq<ShortFlag>, i: nat)
    requires ShortRegistry(shorts).Ok? && i < |shorts|
    requires forall i' :: i < i' < |shorts| ==> shorts[i'].Name != shorts[i].Name
    ensures ByteString(shorts[i].Name) in ShortRegistry(shorts).value.view
    ensures ShortRegistry(shorts).value.view[ByteString(shorts[i].Name)] == shorts[i].Value
    decreases |shorts|
  {
    var init := shorts[..|shorts| - 1];
    var last := shorts[|shorts| - 1];
    assert ShortRegistry(shorts).value.view == ShortRegistry(init).value.view[ByteString(last.Name) := last.Value];
    if i < |init| {
      assert last.Name != shorts[i].Name;
      assert init[i] == shorts[i];
      forall i' | i < i' < |init|
        ensures init[i'].Name != init[i].Name
      {
        assert init[i'] == shorts[i'];
      }
      ShortRegistryLastWins(init, i);
    }
  }

  /**
   * Each long flag's option can be made and its name is bound neither by the
   * starting view nor by an earlier long flag.
   */
  predicate LongsAcceptable(start: Registry, longs: seq<LongFlag>)
  {
    forall j :: 0 <= j < |longs| ==>
      longs[j].Option().Ok? && longs[j].Name !in start.view &&
      forall k :: 0 <= k < j ==> longs[k].Name != longs[j].Name
  }

  lemma LongsAcceptableSnoc(start: Registry, longs: seq<LongFlag>)
    requires longs != []
    ensures var init := longs[..|longs| - 1];
            var last := longs[|longs| - 1];
            LongsAcceptable(start, longs) <==>
              LongsAcceptable(start, init) && last.Option().Ok? && last.Name !in start.view &&
              forall k :: 0 <= k < |init| ==> init[k].Name != last.Name
  {
    var init := longs[..|longs| - 1];
    assert forall j :: 0 <= j < |init| ==> init[j] == longs[j];
  }

  /**
   * The long loop fails exactly when some long flag's option fails or its name
   * is already bound — by the starting view or by an earlier long flag.
   */
  lemma {:induction false} LongRegistryOk(start: Registry, longs: seq<LongFlag>)
    ensures LongRegistry(start, longs).Ok? <==> LongsAcceptable(start, longs)
    decreases |longs|
  {
    if longs != [] {
      var init := longs[..|longs| - 1];
      var last := longs[|longs| - 1];
      LongRegistryOk(start, init);
      LongsAcceptableSnoc(start, longs);
      if LongRegistry(start, init).Ok? && last.Option().Ok? {
        LongRegistryNames(start, init);
        LongRegistryBindings(start, init);
        assert last.Option().value.Name == last.Name;
        var reg := LongRegistry(start, init).value;
        if last.Name in reg.view && last.Name !in start.view {
          var j :| 0 <= j < |init| && init[j].Name == last.Name;
        }
      }
    }
  }

  /** On success the long options follow the starting ones, one per flag, in order. */
  lemma {:induction false} LongRegistryOptions(start: Registry, longs: seq<LongFlag>)
    requires LongRegistry(start, longs).Ok?
    ensures |LongRegistry(start, longs).value.options| == |start.options| + |longs|
    ensures LongRegistry(start, longs).value.options[..|start.options|] == start.options
    ensures forall j :: 0 <= j < |longs| ==>
              longs[j].Option().Ok? &&
              LongRegistry(start, longs).value.options[|start.options| + j] == longs[j].Option().value
    decreases |longs|
  {
    if longs != [] {
      var init := longs[..|longs| - 1];
      LongRegistryOptions(start, init);
      assert forall j :: 0 <= j < |init| ==> init[j] == longs[j];
      var before := LongRegistry(start, init).value.options;
      var after := LongRegistry(start, longs).value.options;
      assert after == before + [longs[|longs| - 1].Option().value];
      assert after[..|start.options|] == before[..|start.options|];
    }
  }

  /** On success the view keeps every starting binding and binds each long name to its flag's value. */
  lemma {:induction false} LongRegistryBindings(start: Registry, longs: seq<LongFlag>)
    requires LongRegistry(start, longs).Ok?
    ensures forall n :: n in start.view ==>
              n in LongRegistry(start, longs).value.view && LongRegistry(start, longs).value.view[n] == start.view[n]
    ensures forall j :: 0 <= j < |longs| ==>
              longs[j].Name in LongRegistry(start, longs).value.view &&
              LongRegistry(start, longs).value.view[longs[j].Name] == longs[j].Value
    decreases |longs|
  {
    if longs != [] {
      var init := longs[..|longs| - 1];
      var last := longs[|longs| - 1];
      LongRegistryBindings(start, init);
      assert forall j :: 0 <= j < |init| ==> init[j] == longs[j];
      assert last.Option().value.Name == last.Name;
      assert LongRegistry(start, longs).value.view == LongRegistry(start, init).value.view[last.Name := last.Value];
    }
  }

  /** On success the view binds nothing beyond the starting names and the long names. */
  lemma {:induction false} LongRegistryNames(start: Registry, longs: seq<LongFlag>)
    requires LongRegistry(start, longs).Ok?
    ensures forall n :: n in LongRegistry(start, longs).value.view ==>
              n in start.view || exists j :: 0 <= j < |longs| && longs[j].Name == n
    decreases |longs|
  {
    if longs != [] {
      var init := longs[..|longs| - 1];
      var last := longs[|longs| - 1];
      LongRegistryNames(start, init);
      assert last.Option().value.Name == last.Name;
      var view := LongRegistry(start, longs).value.view;
      assert view == LongRegistry(start, init).value.view[last.Name := last.Value];
      forall n | n in view
        ensures n in start.view || exists j :: 0 <= j < |longs| && longs[j].Name == n
      {
        if n != last.Name && n !in start.view {
          var j :| 0 <= j < |init| && init[j].Name == n;
          assert longs[j].Name == n;
        } else if n == last.Name {
          assert longs[|longs| - 1].Name == n;
        }
      }
    }
  }

  /**
   * Registration succeeds exactly when every option can be made and no long
   * flag reuses the name of a short flag or of an earlier long flag.
   */
  lemma RegistryOk(shorts: seq<ShortFlag>, longs: seq<LongFlag>)
    ensures BuildRegistry(shorts, longs).Ok? <==>
              (forall i :: 0 <= i < |shorts| ==> shorts[i].Option().Ok?) &&
              forall j :: 0 <= j < |longs| ==>
                longs[j].Option().Ok? &&
                (forall i :: 0 <= i < |shorts| ==> ByteString(shorts[i].Name) != longs[j].Name) &&
                (forall k :: 0 <= k < j ==> longs[k].Name != longs[j].Name)
  {
    ShortRegistryOk(shorts);
    if ShortRegistry(shorts).Ok? {
      var start := ShortRegistry(shorts).value;
      ShortRegistryNames(shorts);
      LongRegistryOk(start, longs);
    }
  }

  /** On success the options are all short ones, in order, followed by all long ones. */
  lemma RegistryOptions(shorts: seq<ShortFlag>, longs: seq<LongFlag>)
    requires BuildRegistry(shorts, longs).Ok?
    ensures |BuildRegistry(shorts, longs).value.options| == |shorts| + |longs|
    ensures forall i :: 0 <= i < |shorts| ==>
              shorts[i].Option().Ok? && BuildRegistry(shorts, longs).value.options[i] == shorts[i].Option().value
    ensures forall j :: 0 <= j < |longs| ==>
              longs[j].Option().Ok? && BuildRegistry(shorts, longs).value.options[|shorts| + j] == longs[j].Option().value
  {
    var start := ShortRegistry(shorts).value;
    ShortRegistryOptions(shorts);
    LongRegistryOptions(start, longs);
    var options := BuildRegistry(shorts, longs).value.options;
    forall i | 0 <= i < |shorts|
      ensures options[i] == shorts[i].Option().value
    {
      assert options[..|start.options|][i] == start.options[i];
    }
  }

  // ---------------------------------------------------------------------
  // Walk lemmas.

  /** The positional values among the results, in order. */
  function Positionals(results: seq<FlagParser.Value>): seq<string>
    decreases |results|
  {
    if results == [] then []
    else
      var rest := Positionals(results[..|results| - 1]);
      if results[|results| - 1].ValuePositionalArgument? then rest + [results[|results| - 1].Value] else rest
  }

  /** The number of option results. */
  function OptionCount(results: seq<FlagParser.Value>): nat
    decreases |results|
  {
    if results == [] then 0
    else OptionCount(results[..|results| - 1]) + (if results[|results| - 1].ValueOption? then 1 else 0)
  }

  /**
   * A walk that runs through keeps every positional in order and makes one
   * successful Set per option result, none of them on the help sentinel.
   */
  lemma {:induction false} CompletedWalk(view: map<string, Value>, results: seq<FlagParser.Value>)
    requires WalkResults(view, results).end == Completed
    ensures WalkResults(view, results).positionals == Positionals(results)
    ensures |WalkResults(view, results).calls| == OptionCount(results)
    ensures forall c :: c in WalkResults(view, results).calls ==>
              ParseValue(c.target.KindOf(), c.raw).Ok? && !c.target.ValueAutoHelp?
    decreases |results|
  {
    if results != [] {
      CompletedWalk(view, results[..|results| - 1]);
    }
  }

  /**
   * The walk stops at the first option whose Set fails, or at the first help
   * request: its outcome is that error, that option's Set is the last call,
   * and nothing after it is looked at.
   */
  lemma StoppedWalk(view: map<string, Value>, results: seq<FlagParser.Value>, k: nat)
    requires k < |results| && WalkResults(view, results[..k]).end == Completed
    requires results[k].ValueOption? && results[k].Option.Name in view
    requires var target := view[results[k].Option.Name];
             ParseValue(target.KindOf(), results[k].Value).Failure? || target.ValueAutoHelp?
    ensures var target := view[results[k].Option.Name];
            var w := WalkResults(view, results);
            w.calls == WalkResults(view, results[..k]).calls + [Call(target, results[k].Value)] &&
            w.positionals == WalkResults(view, results[..k]).positionals &&
            w.end == Stopped(match ParseValue(target.KindOf(), results[k].Value)
                             case Failure(e) => e
                             case Ok(_) => ErrHelp)
  {
    assert results[..k + 1][..k] == results[..k];
    WalkEndIsFinal(view, results, k + 1);
  }

  /** A value that no call targets keeps its contents. */
  lemma {:induction false} ReplayUntargeted(v: Value, s: Stored, calls: seq<Call>)
    requires forall c :: c in calls ==> c.target != v
    ensures Replay(v, s, calls) == s
    decreases |calls|
  {
    if calls != [] {
      ReplayUntargeted(v, s, calls[..|calls| - 1]);
    }
  }
}
