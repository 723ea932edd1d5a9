/** The loosely typed values stored in the environment, result and argument dictionaries
    (`IDictionary<string, object>`), and `Convert.ChangeType`, which the getters apply to turn a
    stored value into the type the caller asks for. */
module Values {
  import opened Wrappers
  import opened Text

  /** `System.Int32`. */
  newtype Int32 = x: int | -0x8000_0000 <= x < 0x8000_0000

  /** `System.Int64`, the type a JSON store gives an integer read into an `object`. */
  newtype Int64 = x: int | -0x8000_0000_0000_0000 <= x < 0x8000_0000_0000_0000

  /** A stored object. `Date` holds a `DateTime` as ticks. Objects that do not implement
      `IConvertible` are identified only by a handle: `Plain` is an instance of exactly
      `System.Object`, `Other` an instance of any other such class (a list, a custom class). */
  datatype Value =
    | Null
    | Str(s: string)
    | Int(i: Int32)
    | Long(l: Int64)
    | Bool(b: bool)
    | Date(ticks: nat)
    | Plain(handle: nat)
    | Other(handle: nat)

  /** The target types a getter can be asked for: `object`, `string`, `int`, `bool`, `DateTime`. */
  datatype TypeCode = ObjectType | StringType | Int32Type | BooleanType | DateTimeType

  /** `InvalidCastException`, `FormatException`, `OverflowException`. */
  datatype ConvertError = InvalidCast | BadFormat | Overflow

  /** The current culture's `DateTime` formatting and parsing, which the model does not fix. */
  datatype Culture = Culture(formatDate: nat -> string, parseDate: string -> Option<nat>)

  /** The runtime type of a stored value, when it is one of the target types; `null` has none. */
  function TypeOf(v: Value): Option<TypeCode> {
    match v
    case Null => None
    case Str(_) => Some(StringType)
    case Int(_) => Some(Int32Type)
    case Long(_) => None
    case Bool(_) => Some(BooleanType)
    case Date(_) => Some(DateTimeType)
    case Plain(_) => Some(ObjectType)
    case Other(_) => None
  }

  /** A target type that cannot hold `null`. */
  predicate IsValueType(t: TypeCode) {
    t == Int32Type || t == BooleanType || t == DateTimeType
  }

  /** `Int32.ToString()` and `Int64.ToString()`: an optional minus sign and the shortest decimal
      digits. */
  function FormatInteger(n: int): (s: string)
    ensures s != [] && !IsNumberWhite(s[0]) && !IsNumberWhite(s[|s| - 1]) && s[|s| - 1] != '\0'
    ensures n >= 0 <==> AllDigits(s)
  {
    if n < 0 then "-" + NatToDigits(-n) else NatToDigits(n)
  }

  /** `Int32.Parse(s)` with `NumberStyles.Integer`: white space, an optional sign, one or more
      decimal digits, white space, then any number of U+0000 characters; a well-formed number
      outside the 32-bit range overflows. */
  function ParseInt32(s: string): (r: Result<Int32, ConvertError>)
    ensures r.Failure? ==> r.error != InvalidCast
    ensures (forall i :: 0 <= i < |s| ==> IsNumberWhite(s[i])) ==> r == Failure(BadFormat)
  {
    var body := Trim(TrimEnd(s, IsNul), IsNumberWhite);
    var negative := |body| > 0 && body[0] == '-';
    var digits := if |body| > 0 && (body[0] == '-' || body[0] == '+') then body[1..] else body;
    if digits == [] || !AllDigits(digits) then
      Failure(BadFormat)
    else
      var n: int := DigitsValue(digits);
      var v: int := if negative then -n else n;
      if -0x8000_0000 <= v < 0x8000_0000 then Success(v as Int32) else Failure(Overflow)
  }

  /** `Boolean.ToString()`. */
  function FormatBoolean(b: bool): string {
    if b then "True" else "False"
  }

  /** `Boolean.Parse(s)`: "true" or "false" in any ASCII letter case, surrounded by white space or
      U+0000 characters. */
  function ParseBoolean(s: string): (r: Result<bool, ConvertError>)
    ensures r.Success? ==> EqualsIgnoreCase(Trim(s, IsBooleanTrim), FormatBoolean(r.value))
    ensures r.Failure? ==> r.error == BadFormat
  {
    var v := Trim(s, IsBooleanTrim);
    if EqualsIgnoreCase(v, "True") then Success(true)
    else if EqualsIgnoreCase(v, "False") then Success(false)
    else Failure(BadFormat)
  }

  /** `Convert.ChangeType(value, type, CultureInfo.CurrentCulture)` for the target types above.
      An object that does not implement `IConvertible` converts only to its own runtime type. */
  function ChangeType(v: Value, t: TypeCode, culture: Culture): (r: Result<Value, ConvertError>)
    ensures v.Long? && t == Int32Type ==>
      (r.Success? <==> -0x8000_0000 <= v.l as int < 0x8000_0000)
      && (r.Success? ==> r.value.Int? && r.value.i as int == v.l as int)
      && (r.Failure? ==> r.error == Overflow)
    ensures (t == ObjectType && !v.Other?) || TypeOf(v) == Some(t) ==> r == Success(v)
    ensures v == Null ==> (r.Success? <==> !IsValueType(t)) && (r.Success? ==> r.value == Null)
    ensures v.Plain? ==> (r.Success? <==> t == ObjectType)
    ensures v.Other? ==> r == Failure(InvalidCast)
    ensures r.Success? && t != ObjectType && r.value != Null ==> TypeOf(r.value) == Some(t)
    ensures r.Failure? && r.error != InvalidCast ==> v.Str? || (v.Long? && t == Int32Type)
  {
    if t == ObjectType then (if v.Other? then Failure(InvalidCast) else Success(v))
    else match v
      case Null => if t == StringType then Success(Null) else Failure(InvalidCast)
      case Plain(_) | Other(_) => Failure(InvalidCast)
      case Str(s) =>
        (match t
         case StringType => Success(v)
         case Int32Type => (match ParseInt32(s) case Success(i) => Success(Int(i)) case Failure(e) => Failure(e))
         case BooleanType => (match ParseBoolean(s) case Success(b) => Success(Bool(b)) case Failure(e) => Failure(e))
         case DateTimeType => (match culture.parseDate(s) case Some(d) => Success(Date(d)) case None => Failure(BadFormat)))
      case Int(i) =>
        (match t
         case StringType => Success(Str(FormatInteger(i as int)))
         case Int32Type => Success(v)
         case BooleanType => Success(Bool(i != 0))
         case DateTimeType => Failure(InvalidCast))
      case Long(n) =>
        (match t
         case StringType => Success(Str(FormatInteger(n as int)))
         case Int32Type =>
           if -0x8000_0000 <= n as int < 0x8000_0000 then Success(Int(n as int as Int32)) else Failure(Overflow)
         case BooleanType => Success(Bool(n != 0))
         case DateTimeType => Failure(InvalidCast))
      case Bool(b) =>
        (match t
         case StringType => Success(Str(FormatBoolean(b)))
         case Int32Type => Success(Int(if b then 1 else 0))
         case BooleanType => Success(v)
         case DateTimeType => Failure(InvalidCast))
      case Date(d) =>
        (match t
         case StringType => Success(Str(culture.formatDate(d)))
         case DateTimeType => Success(v)
         case _ => Failure(InvalidCast))
  }

  /** An `int` written with `ToString` parses back to itself. */
  lemma Int32RoundTrip(i: Int32)
    ensures ParseInt32(FormatInteger(i as int)) == Success(i)
  {
    var s := FormatInteger(i as int);
    assert TrimEnd(s, IsNul) == s;
    assert Trim(s, IsNumberWhite) == s;
    var n: nat := if i < 0 then -(i as int) else i as int;
    DigitsRoundTrip(n);
    var digits := if i < 0 then s[1..] else s;
    assert digits == NatToDigits(n);
    assert IsDigit(NatToDigits(n)[0]);
    assert (s[0] == '-' || s[0] == '+') <==> i < 0;
  }

  /** Storing an `int` and reading it back as a string and then as an `int` gives the number back. */
  lemma IntThroughString(i: Int32, culture: Culture)
    ensures ChangeType(Int(i), StringType, culture) == Success(Str(FormatInteger(i as int)))
    ensures ChangeType(Str(FormatInteger(i as int)), Int32Type, culture) == Success(Int(i))
  {
    Int32RoundTrip(i);
  }

  /** U+0000 characters after a number are ignored: `"12\0"` reads as 12, but `"12\0 "` is not a
      number. */
  lemma TrailingNulIgnored(s: string)
    ensures ParseInt32(s + "\0") == ParseInt32(s)
  {
    TrimEndAppend(s, '\0', IsNul);
  }

  lemma NulAfterNumber()
    ensures ParseInt32("12\0\0") == Success(12)
  {
    assert TrimEnd("12\0\0", IsNul) == "12" by {
      TrimEndAppend("12\0", '\0', IsNul);
      TrimEndAppend("12", '\0', IsNul);
      assert "12\0\0" == "12\0" + ['\0'] && "12\0" == "12" + ['\0'];
    }
    assert Trim("12", IsNumberWhite) == "12";
    assert DigitsValue("12") == 12 by { assert "12"[..1] == "1"; }
  }

  lemma NulAfterWhiteSpace()
    ensures ParseInt32(" -7 \0") == Success(-7)
  {
    assert TrimEnd(" -7 \0", IsNul) == " -7 " by {
      TrimEndAppend(" -7 ", '\0', IsNul);
      assert " -7 \0" == " -7 " + ['\0'];
    }
    assert Trim(" -7 ", IsNumberWhite) == "-7" by { assert " -7 "[1..] == "-7 "; assert "-7 "[..2] == "-7"; }
    assert "-7"[1..] == "7";
    assert DigitsValue("7") == 7 by { assert "7"[..0] == []; }
  }

  lemma WhiteSpaceAfterNul()
    ensures ParseInt32("12\0 ") == Failure(BadFormat)
  {
    assert TrimEnd("12\0 ", IsNul) == "12\0 ";
    assert Trim("12\0 ", IsNumberWhite) == "12\0" by { assert "12\0 "[..3] == "12\0"; }
    assert !IsDigit("12\0"[2]);
  }

  /** An integer a JSON store loaded as `Int64` converts to every target type but `object` as the
      same number stored as an `int` does. */
  lemma LongAsInt(i: Int32, t: TypeCode, culture: Culture)
    requires t != ObjectType
    ensures ChangeType(Long(i as int as Int64), t, culture) == ChangeType(Int(i), t, culture)
  {
  }

  /** A `bool` written with `ToString` parses back to itself, whatever padding surrounds it. */
  lemma {:induction false} BooleanRoundTrip(b: bool, pad: string)
    requires forall i :: 0 <= i < |pad| ==> IsWhiteSpace(pad[i])
    ensures ParseBoolean(pad + FormatBoolean(b) + pad) == Success(b)
  {
    var s := pad + FormatBoolean(b) + pad;
    TrimPadding(pad, FormatBoolean(b), pad);
    assert Trim(s, IsBooleanTrim) == FormatBoolean(b);
    if !b {
      assert !EqualsIgnoreCase("False", "True");
    }
  }

  lemma {:induction false} TrimPadding(before: string, w: string, after: string)
    requires forall i :: 0 <= i < |before| ==> IsWhiteSpace(before[i])
    requires forall i :: 0 <= i < |after| ==> IsWhiteSpace(after[i])
    requires w != [] && !IsBooleanTrim(w[0]) && !IsBooleanTrim(w[|w| - 1])
    ensures Trim(before + w + after, IsBooleanTrim) == w
    decreases |before| + |after|
  {
    var s := before + w + after;
    if before != [] {
      assert s[1..] == before[1..] + w + after;
      TrimPadding(before[1..], w, after);
    } else if after != [] {
      assert s[0] == w[0];
      assert s[..|s| - 1] == before + w + after[..|after| - 1];
      TrimPadding(before, w, after[..|after| - 1]);
    } else {
      assert s == w;
    }
  }
}
