/**
 * The typed flag values of value.go. A Go `*T` is a `Ref<T>`; each Go value
 * type (ValueBool, ValueInt8, ...) is a constructor of `Value` holding the
 * pointer it writes through, so two values alias exactly when they are equal.
 * `ParseValue` and `Store` say, independently of the heap, what `Set` does.
 */
module Values {
  import opened Wrappers
  import opened Errors
  import opened Strconv

  newtype int8 = x: int | -0x80 <= x < 0x80
  newtype int16 = x: int | -0x8000 <= x < 0x8000
  newtype int32 = x: int | -0x8000_0000 <= x < 0x8000_0000
  newtype int64 = x: int | -0x8000_0000_0000_0000 <= x < 0x8000_0000_0000_0000
  /** Go's `int`, taking strconv.IntSize to be 64. */
  newtype goint = x: int | -0x8000_0000_0000_0000 <= x < 0x8000_0000_0000_0000
  newtype uint8 = x: int | 0 <= x < 0x100
  newtype uint16 = x: int | 0 <= x < 0x1_0000
  newtype uint32 = x: int | 0 <= x < 0x1_0000_0000
  newtype uint64 = x: int | 0 <= x < 0x1_0000_0000_0000_0000
  /** Go's `uint`, taking strconv.IntSize to be 64. */
  newtype gouint = x: int | 0 <= x < 0x1_0000_0000_0000_0000
  /** Go's `byte` is `uint8`. */
  type byte = uint8

  /** A Go pointer `*T`: the variable a flag is bound to. */
  class Ref<T> {
    var value: T

    constructor (value: T)
      ensures this.value == value
    {
      this.value := value;
    }
  }

  /** What a value parses, with the bit size strconv is asked for. */
  datatype Kind =
    | AutoHelpKind
    | BoolKind
    | SignedKind(bits: BitSize)
    | UnsignedKind(bits: BitSize)
    | StringKind
    | StringSliceKind

  /** The contents of a bound variable, independent of its Go type. */
  datatype Stored =
    | NoState
    | BoolValue(b: bool)
    | IntValue(i: int)
    | StringValue(s: string)
    | SliceValue(items: seq<string>)

  /** The contents a variable of kind `k` can hold. */
  predicate Fits(k: Kind, s: Stored)
  {
    match k
    case AutoHelpKind => s == NoState
    case BoolKind => s.BoolValue?
    case SignedKind(bits) => s.IntValue? && -(Half(bits) as int) <= s.i < Half(bits)
    case UnsignedKind(bits) => s.IntValue? && 0 <= s.i < Limit(bits)
    case StringKind => s.StringValue?
    case StringSliceKind => s.SliceValue?
  }

  /**
   * The parse step of Set: what Set writes (for a string slice, the element it
   * appends), or the error it returns.
   */
  function ParseValue(k: Kind, value: string): Result<Stored, Error>
  {
    match k
    case AutoHelpKind =>
      (match ParseBool(if value == "" then "true" else value)
       case Ok(_) => Ok(NoState)
       case Failure(e) => Failure(e))
    case BoolKind =>
      (match ParseBool(if value == "" then "true" else value)
       case Ok(b) => Ok(BoolValue(b))
       case Failure(e) => Failure(e))
    case SignedKind(bits) =>
      (match ParseInt(value, bits)
       case Ok(i) => Ok(IntValue(i))
       case Failure(e) => Failure(e))
    case UnsignedKind(bits) =>
      (match ParseUint(value, bits)
       case Ok(n) => Ok(IntValue(n))
       case Failure(e) => Failure(e))
    case StringKind => Ok(StringValue(value))
    case StringSliceKind => Ok(StringValue(value))
  }

  function Items(s: Stored): seq<string>
  {
    if s.SliceValue? then s.items else []
  }

  /** The write step of Set: a string slice appends, every other kind overwrites. */
  function Store(k: Kind, current: Stored, parsed: Stored): Stored
  {
    if k == StringSliceKind && parsed.StringValue? then SliceValue(Items(current) + [parsed.s]) else parsed
  }

  /** The contents after one Set: written on success, untouched on failure. */
  function After(k: Kind, current: Stored, value: string): Stored
  {
    match ParseValue(k, value)
    case Ok(p) => Store(k, current, p)
    case Failure(_) => current
  }

  /** The help sentinel has no state: Set only reports whether `value` is a boolean. */
  method SetAutoHelp(value: string) returns (err: Option<Error>)
    ensures err.None? <==> value == "" || ParseBool(value).Ok?
    ensures err.Some? ==> err == Some(NumError("ParseBool", value, ErrSyntax))
  {
    var v := if value == "" then "true" else value;
    var parsed := ParseBool(v);
    if parsed.Failure? {
      return Some(parsed.error);
    }
    return None;
  }

  method SetBool(vp: Ref<bool>, value: string) returns (err: Option<Error>)
    modifies vp
    ensures match ParseBool(if value == "" then "true" else value)
            case Ok(b) => err == None && vp.value == b
            case Failure(e) => err == Some(e) && vp.value == old(vp.value)
  {
    var v := if value == "" then "true" else value;
    var parsed := ParseBool(v);
    if parsed.Failure? {
      return Some(parsed.error);
    }
    vp.value := parsed.value;
    return None;
  }

  method SetInt(vp: Ref<goint>, value: string) returns (err: Option<Error>)
    modifies vp
    ensures match ParseInt(value, 64)
            case Ok(n) => err == None && vp.value as int == n
            case Failure(e) => err == Some(e) && vp.value == old(vp.value)
  {
    var parsed := ParseInt(value, 64);
    if parsed.Failure? {
      return Some(parsed.error);
    }
    ParseIntSpec(value, 64);
    vp.value := parsed.value as goint;
    return None;
  }

  method SetInt8(vp: Ref<int8>, value: string) returns (err: Option<Error>)
    modifies vp
    ensures match ParseInt(value, 8)
            case Ok(n) => err == None && vp.value as int == n
            case Failure(e) => err == Some(e) && vp.value == old(vp.value)
  {
    var parsed := ParseInt(value, 8);
    if parsed.Failure? {
      return Some(parsed.error);
    }
    ParseIntSpec(value, 8);
    vp.value := parsed.value as int8;
    return None;
  }

  method SetInt16(vp: Ref<int16>, value: string) returns (err: Option<Error>)
    modifies vp
    ensures match ParseInt(value, 16)
            case Ok(n) => err == None && vp.value as int == n
            case Failure(e) => err == Some(e) && vp.value == old(vp.value)
  {
    var parsed := ParseInt(value, 16);
    if parsed.Failure? {
      return Some(parsed.error);
    }
    ParseIntSpec(value, 16);
    vp.value := parsed.value as int16;
    return None;
  }

  method SetInt32(vp: Ref<int32>, value: string) returns (err: Option<Error>)
    modifies vp
    ensures match ParseInt(value, 32)
            case Ok(n) => err == None && vp.value as int == n
            case Failure(e) => err == Some(e) && vp.value == old(vp.value)
  {
    var parsed := ParseInt(value, 32);
    if parsed.Failure? {
      return Some(parsed.error);
    }
    ParseIntSpec(value, 32);
    vp.value := parsed.value as int32;
    return None;
  }

  method SetInt64(vp: Ref<int64>, value: string) returns (err: Option<Error>)
    modifies vp
    ensures match ParseInt(value, 64)
            case Ok(n) => err == None && vp.value as int == n
            case Failure(e) => err == Some(e) && vp.value == old(vp.value)
  {
    var parsed := ParseInt(value, 64);
    if parsed.Failure? {
      return Some(parsed.error);
    }
    ParseIntSpec(value, 64);
    vp.value := parsed.value as int64;
    return None;
  }

  method SetString(vp: Ref<string>, value: string) returns (err: Option<Error>)
    modifies vp
    ensures err == None && vp.value == value
  {
    vp.value := value;
    return None;
  }

  method SetStringSlice(vp: Ref<seq<string>>, value: string) returns (err: Option<Error>)
    modifies vp
    ensures err == None && vp.value == old(vp.value) + [value]
  {
    vp.value := vp.value + [value];
    return None;
  }

  method SetUint(vp: Ref<gouint>, value: string) returns (err: Option<Error>)
    modifies vp
    ensures match ParseUint(value, 64)
            case Ok(n) => err == None && vp.value as int == n
            case Failure(e) => err == Some(e) && vp.value == old(vp.value)
  {
    var parsed := ParseUint(value, 64);
    if parsed.Failure? {
      return Some(parsed.error);
    }
    ParseUintSpec(value, 64);
    vp.value := parsed.value as gouint;
    return None;
  }

  method SetUint8(vp: Ref<uint8>, value: string) returns (err: Option<Error>)
    modifies vp
    ensures match ParseUint(value, 8)
            case Ok(n) => err == None && vp.value as int == n
            case Failure(e) => err == Some(e) && vp.value == old(vp.value)
  {
    var parsed := ParseUint(value, 8);
    if parsed.Failure? {
      return Some(parsed.error);
    }
    ParseUintSpec(value, 8);
    vp.value := parsed.value as uint8;
    return None;
  }

  method SetUint16(vp: Ref<uint16>, value: string) returns (err: Option<Error>)
    modifies vp
    ensures match ParseUint(value, 16)
            case Ok(n) => err == None && vp.value as int == n
            case Failure(e) => err == Some(e) && vp.value == old(vp.value)
  {
    var parsed := ParseUint(value, 16);
    if parsed.Failure? {
      return Some(parsed.error);
    }
    ParseUintSpec(value, 16);
    vp.value := parsed.value as uint16;
    return None;
  }

  method SetUint32(vp: Ref<uint32>, value: string) returns (err: Option<Error>)
    modifies vp
    ensures match ParseUint(value, 32)
            case Ok(n) => err == None && vp.value as int == n
            case Failure(e) => err == Some(e) && vp.value == old(vp.value)
  {
    var parsed := ParseUint(value, 32);
    if parsed.Failure? {
      return Some(parsed.error);
    }
    ParseUintSpec(value, 32);
    vp.value := parsed.value as uint32;
    return None;
  }

  method SetUInt64(vp: Ref<uint64>, value: string) returns (err: Option<Error>)
    modifies vp
    ensures match ParseUint(value, 64)
            case Ok(n) => err == None && vp.value as int == n
            case Failure(e) => err == Some(e) && vp.value == old(vp.value)
  {
    var parsed := ParseUint(value, 64);
    if parsed.Failure? {
      return Some(parsed.error);
    }
    ParseUintSpec(value, 64);
    vp.value := parsed.value as uint64;
    return None;
  }

  /**
   * The Value interface. The constructors are the NewValue* functions of
   * value.go; the help sentinel carries nothing.
   */
  datatype Value =
    | ValueAutoHelp
    | ValueBool(Ref<bool>)
    | ValueInt(Ref<goint>)
    | ValueInt8(Ref<int8>)
    | ValueInt16(Ref<int16>)
    | ValueInt32(Ref<int32>)
    | ValueInt64(Ref<int64>)
    | ValueString(Ref<string>)
    | ValueStringSlice(Ref<seq<string>>)
    | ValueUint(Ref<gouint>)
    | ValueUint8(Ref<uint8>)
    | ValueUint16(Ref<uint16>)
    | ValueUint32(Ref<uint32>)
    | ValueUInt64(Ref<uint64>)
  {
    function KindOf(): Kind
    {
      match this
      case ValueAutoHelp => AutoHelpKind
      case ValueBool(_) => BoolKind
      case ValueInt(_) => SignedKind(64)
      case ValueInt8(_) => SignedKind(8)
      case ValueInt16(_) => SignedKind(16)
      case ValueInt32(_) => SignedKind(32)
      case ValueInt64(_) => SignedKind(64)
      case ValueString(_) => StringKind
      case ValueStringSlice(_) => StringSliceKind
      case ValueUint(_) => UnsignedKind(64)
      case ValueUint8(_) => UnsignedKind(8)
      case ValueUint16(_) => UnsignedKind(16)
      case ValueUint32(_) => UnsignedKind(32)
      case ValueUInt64(_) => UnsignedKind(64)
    }

    /** The variable this value writes through. */
    function Footprint(): set<object>
    {
      match this
      case ValueAutoHelp => {}
      case ValueBool(p) => {p}
      case ValueInt(p) => {p}
      case ValueInt8(p) => {p}
      case ValueInt16(p) => {p}
      case ValueInt32(p) => {p}
      case ValueInt64(p) => {p}
      case ValueString(p) => {p}
      case ValueStringSlice(p) => {p}
      case ValueUint(p) => {p}
      case ValueUint8(p) => {p}
      case ValueUint16(p) => {p}
      case ValueUint32(p) => {p}
      case ValueUInt64(p) => {p}
    }

    /** The current contents of the bound variable. */
    function Load(): (s: Stored)
      reads Footprint()
      ensures Fits(KindOf(), s)
    {
      match this
      case ValueAutoHelp => NoState
      case ValueBool(p) => BoolValue(p.value)
      case ValueInt(p) => IntValue(p.value as int)
      case ValueInt8(p) => IntValue(p.value as int)
      case ValueInt16(p) => IntValue(p.value as int)
      case ValueInt32(p) => IntValue(p.value as int)
      case ValueInt64(p) => IntValue(p.value as int)
      case ValueString(p) => StringValue(p.value)
      case ValueStringSlice(p) => SliceValue(p.value)
      case ValueUint(p) => IntValue(p.value as int)
      case ValueUint8(p) => IntValue(p.value as int)
      case ValueUint16(p) => IntValue(p.value as int)
      case ValueUint32(p) => IntValue(p.value as int)
      case ValueUInt64(p) => IntValue(p.value as int)
    }

    /** Value.Set: parse `value`; write through the pointer only if that succeeds. */
    method Set(value: string) returns (err: Option<Error>)
      modifies Footprint()
      ensures match ParseValue(KindOf(), value)
              case Ok(p) => err == None && Load() == Store(KindOf(), old(Load()), p)
              case Failure(e) => err == Some(e) && Load() == old(Load())
    {
      match this
      case ValueAutoHelp => err := SetAutoHelp(value);
      case ValueBool(p) => err := SetBool(p, value);
      case ValueInt(p) => err := SetInt(p, value);
      case ValueInt8(p) => err := SetInt8(p, value);
      case ValueInt16(p) => err := SetInt16(p, value);
      case ValueInt32(p) => err := SetInt32(p, value);
      case ValueInt64(p) => err := SetInt64(p, value);
      case ValueString(p) => err := SetString(p, value);
      case ValueStringSlice(p) => err := SetStringSlice(p, value);
      case ValueUint(p) => err := SetUint(p, value);
      case ValueUint8(p) => err := SetUint8(p, value);
      case ValueUint16(p) => err := SetUint16(p, value);
      case ValueUint32(p) => err := SetUint32(p, value);
      case ValueUInt64(p) => err := SetUInt64(p, value);
    }
  }

  /** Distinct values write through distinct variables. */
  lemma FootprintsDisjoint(v: Value, w: Value)
    requires v != w
    ensures v.Footprint() !! w.Footprint()
  {
  }

  /** A bool flag given no argument is set to true. */
  lemma BoolEmptyMeansTrue()
    ensures ParseValue(BoolKind, "") == ParseValue(BoolKind, "true") == Ok(BoolValue(true))
  {
  }

  /** A failed Set leaves the variable as it was, for every kind. */
  lemma FailedSetKeepsValue(k: Kind, current: Stored, value: string)
    requires ParseValue(k, value).Failure?
    ensures After(k, current, value) == current
  {
  }

  /**
   * Signed values accept exactly the base-10 literals (one optional sign)
   * within the type's bit width, and store the literal's value.
   */
  lemma SignedSetSpec(bits: BitSize, value: string)
    ensures ParseValue(SignedKind(bits), value).Ok? <==>
              IntLiteral(value).Some? && -(Half(bits) as int) <= IntLiteral(value).value < Half(bits)
    ensures ParseValue(SignedKind(bits), value).Ok? ==>
              ParseValue(SignedKind(bits), value).value == IntValue(IntLiteral(value).value)
  {
    ParseIntSpec(value, bits);
  }

  lemma {:induction false} DecimalOfThree(s: string)
    requires |s| == 3 && AllDigits(s)
    ensures Decimal(s) == 100 * DigitValue(s[0]) + 10 * DigitValue(s[1]) + DigitValue(s[2])
  {
    var two := s[..2];
    var one := two[..1];
    assert one == [s[0]] && one[..0] == [];
    assert Decimal(one) == DigitValue(s[0]);
    assert Decimal(two) == 10 * DigitValue(s[0]) + DigitValue(s[1]);
  }

  /** An int8 takes exactly the values -128 to 127. */
  lemma Int8Bounds()
    ensures ParseValue(SignedKind(8), "-128") == Ok(IntValue(-128))
    ensures ParseValue(SignedKind(8), "127") == Ok(IntValue(127))
    ensures ParseValue(SignedKind(8), "128").Failure?
    ensures ParseValue(SignedKind(8), "-129").Failure?
  {
    DecimalOfThree("127");
    DecimalOfThree("128");
    DecimalOfThree("129");
    assert "-128"[1..] == "128" && "-129"[1..] == "129";
    assert IntLiteral("127") == Some(127);
    assert IntLiteral("-128") == Some(-128);
    assert IntLiteral("-129") == Some(-129);
    Int8Accepts("-128", -128);
    Int8Accepts("127", 127);
    Int8Rejects("128");
    Int8Rejects("-129");
  }

  lemma Int8Accepts(s: string, n: int)
    requires IntLiteral(s) == Some(n) && -0x80 <= n < 0x80
    ensures ParseValue(SignedKind(8), s) == Ok(IntValue(n))
  {
    SignedSetSpec(8, s);
  }

  lemma Int8Rejects(s: string)
    requires IntLiteral(s).Some? && !(-0x80 <= IntLiteral(s).value < 0x80)
    ensures ParseValue(SignedKind(8), s).Failure?
  {
    SignedSetSpec(8, s);
  }

  /** Unsigned values accept exactly the non-empty digit strings below 2^bits. */
  lemma UnsignedSetSpec(bits: BitSize, value: string)
    ensures ParseValue(UnsignedKind(bits), value).Ok? <==>
              value != "" && AllDigits(value) && Decimal(value) < Limit(bits)
    ensures ParseValue(UnsignedKind(bits), value).Ok? ==>
              AllDigits(value) && ParseValue(UnsignedKind(bits), value).value == IntValue(Decimal(value))
  {
    ParseUintSpec(value, bits);
  }

  /** Unsigned values reject any signed input such as "-1" and keep the old value. */
  lemma UnsignedRejectsNegative(bits: BitSize, current: Stored, value: string)
    requires value != "" && value[0] == '-'
    ensures ParseValue(UnsignedKind(bits), value) == Failure(NumError("ParseUint", value, ErrSyntax))
    ensures After(UnsignedKind(bits), current, value) == current
  {
    ParseUintRejectsSign(value, bits);
  }

  /** A string value takes every token verbatim. */
  lemma StringSetVerbatim(current: Stored, value: string)
    ensures ParseValue(StringKind, value).Ok?
    ensures After(StringKind, current, value) == StringValue(value)
  {
  }

  /** A string slice only grows: the old elements stay a prefix, and the token is appended. */
  lemma StringSliceAppends(items: seq<string>, value: string)
    ensures var r := After(StringSliceKind, SliceValue(items), value);
            r.SliceValue? && |r.items| == |items| + 1 && r.items[..|items|] == items && r.items[|items|] == value
  {
  }

  /** The help sentinel accepts "" and every boolean token, and nothing else. */
  lemma AutoHelpSetSpec(value: string)
    ensures ParseValue(AutoHelpKind, value).Ok? <==> value == "" || ParseBool(value).Ok?
  {
  }

  /** For a scalar kind, the last successful Set decides the stored value. */
  lemma LastSetWins(k: Kind, current: Stored, first: string, second: string)
    requires k != StringSliceKind
    requires ParseValue(k, second).Ok?
    ensures After(k, After(k, current, first), second) == ParseValue(k, second).value
  {
  }

  /** Every Set keeps the variable within its Go type. */
  lemma AfterFits(k: Kind, current: Stored, value: string)
    requires Fits(k, current)
    ensures Fits(k, After(k, current, value))
  {
    match k
    case SignedKind(bits) => ParseIntSpec(value, bits);
    case UnsignedKind(bits) => ParseUintSpec(value, bits);
    case _ =>
  }

  /**
   * Setting a scalar to the decimal or boolean rendering of its current
   * contents leaves it unchanged.
   */
  lemma SetOwnRenderingIsIdentity(k: Kind, current: Stored)
    requires Fits(k, current) && k != StringSliceKind && k != AutoHelpKind
    ensures After(k, current, Render(current)) == current
  {
    match k
    case SignedKind(bits) => ParseIntFormatInt(current.i, bits);
    case UnsignedKind(bits) => ParseUintFormatUint(current.i, bits);
    case BoolKind => ParseBoolFormatBool(current.b);
    case StringKind =>
  }

  /** The text fmt prints for bool and integer contents. */
  function Render(s: Stored): string
  {
    match s
    case BoolValue(b) => FormatBool(b)
    case IntValue(i) => FormatInt(i)
    case StringValue(t) => t
    case _ => ""
  }
}
