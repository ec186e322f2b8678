/** The input validators (utils/helpers.py): whether a value converts
    with Python's `int()` to an integer within bounds, and whether a value
    is a material code with something other than whitespace in it. */
module Helpers {
  import opened Common

  // ---------------------------------------------------------------------
  // Python values the validators are given
  // ---------------------------------------------------------------------

  /** A Python float: finite, an infinity, or not a number. */
  datatype Float = Finite(x: real) | Infinite(negative: bool) | NaN

  /** The Python values a validator can be handed. `OtherValue` stands for
      any object `int()` refuses with `TypeError` (a list, a dict, ...). */
  datatype Value =
    | NoneValue
    | BoolValue(b: bool)
    | IntValue(i: int)
    | FloatValue(f: Float)
    | StrValue(s: string)
    | OtherValue

  /** What `int(value)` does: returns an integer or raises. */
  datatype Conversion = Converted(n: int) | ValueError | TypeError | OverflowError

  // ---------------------------------------------------------------------
  // Whitespace and `str.strip()`
  // ---------------------------------------------------------------------

  /** The characters Python's `str.isspace()` accepts, which are the ones
      `str.strip()` skips. */
  predicate IsSpace(c: char)
  {
    || ('\t' <= c <= '\r')
    || ('\U{1C}' <= c <= '\U{1F}')
    || c == ' ' || c == '\U{85}' || c == '\U{A0}' || c == '\U{1680}'
    || ('\U{2000}' <= c <= '\U{200A}')
    || c == '\U{2028}' || c == '\U{2029}' || c == '\U{202F}' || c == '\U{205F}' || c == '\U{3000}'
  }

  /** The characters `int()` skips around a numeral: those of `IsSpace`
      except U+001C..U+001F, since `int()` passes ASCII characters through
      and skips only the ASCII tab, line feed, vertical tab, form feed,
      carriage return and space. */
  predicate IsIntSpace(c: char)
  {
    IsSpace(c) && !('\U{1C}' <= c <= '\U{1F}')
  }

  /** `c` is skipped: by `int()` when `forInt`, by `str.strip()` otherwise. */
  predicate Skipped(c: char, forInt: bool)
  {
    if forInt then IsIntSpace(c) else IsSpace(c)
  }

  /** Every character of `s` is whitespace. */
  predicate AllSpace(s: string)
  {
    forall i :: 0 <= i < |s| ==> IsSpace(s[i])
  }

  /** `s` without its leading skipped characters. */
  function StripLeading(s: string, forInt: bool): string
  {
    if |s| > 0 && Skipped(s[0], forInt) then StripLeading(s[1..], forInt) else s
  }

  /** `s` without its trailing skipped characters. */
  function StripTrailing(s: string, forInt: bool): string
  {
    if |s| > 0 && Skipped(s[|s| - 1], forInt) then StripTrailing(s[..|s| - 1], forInt) else s
  }

  /** `str.strip()` with no argument. */
  function Strip(s: string): string
  {
    StripTrailing(StripLeading(s, false), false)
  }

  /** The numeral `int()` reads from `s`: `s` without the whitespace
      `int()` skips at either end. */
  function IntStrip(s: string): string
  {
    StripTrailing(StripLeading(s, true), true)
  }

  /** Stripping the front leaves nothing exactly when `s` is all
      whitespace, and otherwise leaves a non-space first character. */
  lemma {:induction false} StripLeadingEmpty(s: string)
    ensures StripLeading(s, false) == [] <==> AllSpace(s)
    ensures StripLeading(s, false) != [] ==> !IsSpace(StripLeading(s, false)[0])
  {
    if |s| > 0 && IsSpace(s[0]) {
      StripLeadingEmpty(s[1..]);
      assert AllSpace(s) <==> AllSpace(s[1..]) by {
        if AllSpace(s[1..]) {
          forall i | 0 <= i < |s| ensures IsSpace(s[i]) {
            if i > 0 { assert s[i] == s[1..][i - 1]; }
          }
        }
      }
    }
  }

  /** Stripping the back of a string whose first character is not
      whitespace leaves a non-empty string. */
  lemma {:induction false} StripTrailingKeepsFirst(s: string)
    requires |s| > 0 && !IsSpace(s[0])
    ensures |StripTrailing(s, false)| > 0
  {
    if |s| > 1 && IsSpace(s[|s| - 1]) {
      StripTrailingKeepsFirst(s[..|s| - 1]);
    }
  }

  /** A string strips to nothing exactly when it is all whitespace. */
  lemma StripEmpty(s: string)
    ensures Strip(s) == [] <==> AllSpace(s)
  {
    StripLeadingEmpty(s);
    if StripLeading(s, false) != [] {
      StripTrailingKeepsFirst(StripLeading(s, false));
    }
  }

  /** A string that starts and ends with non-whitespace strips to itself,
      for `str.strip()` and for `int()` alike. */
  lemma StripUnpadded(s: string)
    requires |s| > 0 && !IsSpace(s[0]) && !IsSpace(s[|s| - 1])
    ensures Strip(s) == s && IntStrip(s) == s
  {
  }

  // ---------------------------------------------------------------------
  // `int()` on a string
  // ---------------------------------------------------------------------

  predicate IsDigit(c: char)
  {
    '0' <= c <= '9'
  }

  /** Position `i` of `r` holds a digit, or an underscore with a digit on
      either side. */
  predicate DigitOrSeparatorAt(r: string, i: nat)
    requires i < |r|
  {
    || IsDigit(r[i])
    || (r[i] == '_' && 0 < i < |r| - 1 && IsDigit(r[i - 1]) && IsDigit(r[i + 1]))
  }

  /** Decimal digits with single underscores between digits. */
  predicate WellFormedDigits(r: string)
  {
    |r| > 0 && forall i :: 0 <= i < |r| ==> DigitOrSeparatorAt(r, i)
  }

  /** The number the digits of `r` spell, underscores skipped. */
  function DigitsValue(r: string): nat
  {
    if r == [] then 0
    else if IsDigit(r[|r| - 1]) then DigitsValue(r[..|r| - 1]) * 10 + (r[|r| - 1] - '0') as nat
    else DigitsValue(r[..|r| - 1])
  }

  /** `int(s)` on a string: the surrounding `IsIntSpace` characters are skipped, then an
      optional sign and well-formed decimal digits must make up the rest. */
  function ParseInt(s: string): Option<int>
  {
    var t := IntStrip(s);
    if |t| > 0 && (t[0] == '+' || t[0] == '-') then
      var digits := t[1..];
      var magnitude: int := DigitsValue(digits);
      if WellFormedDigits(digits) then Some(if t[0] == '-' then -magnitude else magnitude)
      else None
    else if WellFormedDigits(t) then Some(DigitsValue(t))
    else None
  }

  /** The decimal numeral of `n`, without sign or underscores. */
  function NatToString(n: nat): (r: string)
    ensures |r| > 0 && IsDigit(r[0]) && IsDigit(r[|r| - 1])
    ensures forall i :: 0 <= i < |r| ==> IsDigit(r[i])
  {
    if n < 10 then [('0' as int + n) as char]
    else NatToString(n / 10) + [('0' as int + n % 10) as char]
  }

  /** `str(n)` for an integer. */
  function IntToString(n: int): string
  {
    if n < 0 then "-" + NatToString(-n) else NatToString(n)
  }

  lemma {:induction false} NatToStringValue(n: nat)
    ensures DigitsValue(NatToString(n)) == n
  {
    var r := NatToString(n);
    if n >= 10 {
      NatToStringValue(n / 10);
      assert r[..|r| - 1] == NatToString(n / 10);
    }
  }

  /** `int(str(n)) == n`: every integer's numeral parses back to it. */
  lemma ParseIntOfIntToString(n: int)
    ensures ParseInt(IntToString(n)) == Some(n)
  {
    var s := IntToString(n);
    var digits := NatToString(if n < 0 then -n else n);
    NatToStringValue(if n < 0 then -n else n);
    StripUnpadded(s);
    if n < 0 {
      assert s[1..] == digits;
    }
  }

  /** Blank strings and a lone sign are refused. */
  lemma ParseIntRejectsBlank()
    ensures ParseInt("") == None
    ensures ParseInt(" \t") == None
    ensures ParseInt("-") == None
  {
    assert IntStrip(" \t") == [] by {
      assert " \t"[1..] == "\t" && "\t"[1..] == [];
    }
    StripUnpadded("-");
  }

  /** A decimal point, a letter or a doubled or leading underscore makes
      the string refused. */
  lemma ParseIntRejectsMalformed()
    ensures ParseInt("\U{1C}5") == None
    ensures ParseInt("1a") == None
    ensures ParseInt("1.5") == None
    ensures ParseInt("1__0") == None
    ensures ParseInt("_1") == None
  {
    assert IntStrip("\U{1C}5") == "\U{1C}5";
    assert !DigitOrSeparatorAt("\U{1C}5", 0);
    StripUnpadded("1a");
    assert !DigitOrSeparatorAt("1a", 1);
    StripUnpadded("1.5");
    assert !DigitOrSeparatorAt("1.5", 1);
    StripUnpadded("1__0");
    assert !DigitOrSeparatorAt("1__0", 1);
    StripUnpadded("_1");
    assert !DigitOrSeparatorAt("_1", 0);
  }

  /** Surrounding whitespace is skipped. */
  lemma ParseIntSkipsPadding()
    ensures ParseInt(" 42\n") == Some(42)
  {
    assert StripLeading(" 42\n", true) == "42\n" by { assert " 42\n"[1..] == "42\n"; }
    assert StripTrailing("42\n", true) == "42" by { assert "42\n"[..2] == "42"; }
    assert IntStrip(" 42\n") == "42";
    assert WellFormedDigits("42") by {
      assert DigitOrSeparatorAt("42", 0) && DigitOrSeparatorAt("42", 1);
    }
    assert "42"[..1] == "4";
    assert DigitsValue("4") == 4;
    assert DigitsValue("42") == 42;
  }

  /** A sign and leading zeros are accepted. */
  lemma ParseIntSignAndZeros()
    ensures ParseInt("-007") == Some(-7)
  {
    StripUnpadded("-007");
    assert "-007"[1..] == "007";
    assert WellFormedDigits("007") by {
      assert DigitOrSeparatorAt("007", 0) && DigitOrSeparatorAt("007", 1) && DigitOrSeparatorAt("007", 2);
    }
    assert "007"[..2] == "00" && "00"[..1] == "0";
    assert DigitsValue("0") == 0;
    assert DigitsValue("00") == 0;
    assert DigitsValue("007") == 7;
  }

  /** Single underscores between digits group them. */
  lemma ParseIntUnderscores()
    ensures ParseInt("1_000") == Some(1000)
  {
    var t := "1_000";
    StripUnpadded(t);
    assert WellFormedDigits(t) by {
      assert DigitOrSeparatorAt(t, 0) && DigitOrSeparatorAt(t, 1) && DigitOrSeparatorAt(t, 2);
      assert DigitOrSeparatorAt(t, 3) && DigitOrSeparatorAt(t, 4);
    }
    assert t[..4] == "1_00" && "1_00"[..3] == "1_0" && "1_0"[..2] == "1_" && "1_"[..1] == "1";
    assert DigitsValue("1") == 1;
    assert DigitsValue("1_") == 1;
    assert DigitsValue("1_0") == 10;
    assert DigitsValue("1_00") == 100;
    assert DigitsValue(t) == 1000;
  }

  // ---------------------------------------------------------------------
  // `int(value)`
  // ---------------------------------------------------------------------

  /** Python's `int(value)` on the values modelled here. */
  function ToInt(v: Value): Conversion
  {
    match v
    case NoneValue => TypeError
    case BoolValue(b) => Converted(if b then 1 else 0)
    case IntValue(i) => Converted(i)
    case FloatValue(f) =>
      (match f
       case Finite(x) => Converted(Trunc(x))
       case Infinite(_) => OverflowError
       case NaN => ValueError)
    case StrValue(s) =>
      (match ParseInt(s)
       case Some(n) => Converted(n)
       case None => ValueError)
    case OtherValue => TypeError
  }

  // ---------------------------------------------------------------------
  // `validate_positive_integer`
  // ---------------------------------------------------------------------

  const DefaultMinValue: int := 1
  const DefaultMaxValue: int := 100000

  /** What a call returns, or that it raised out of the function. */
  datatype Outcome = Returned(ok: bool) | Raised

  /** `validate_positive_integer` as written: `ValueError` and `TypeError`
      give `False`, but the `OverflowError` of `int()` on an infinite
      float is not caught. */
  function ValidatePositiveIntegerAsWritten(value: Value, minValue: int := DefaultMinValue,
                                            maxValue: int := DefaultMaxValue): Outcome
  {
    match ToInt(value)
    case Converted(n) => Returned(minValue <= n <= maxValue)
    case ValueError => Returned(false)
    case TypeError => Returned(false)
    case OverflowError => Raised
  }

  /** An infinite float makes the validator raise instead of returning
      `False`. */
  lemma InfinityEscapesValidator(negative: bool)
    ensures ValidatePositiveIntegerAsWritten(FloatValue(Infinite(negative))) == Raised
  {
  }

  /** `validate_positive_integer` as intended: true exactly when `int()`
      converts the value to an integer within the bounds; every failed
      conversion gives `False`. */
  function ValidatePositiveInteger(value: Value, minValue: int := DefaultMinValue,
                                   maxValue: int := DefaultMaxValue): bool
  {
    ToInt(value).Converted? && minValue <= ToInt(value).n <= maxValue
  }

  /** The intended validator agrees with the written one wherever that
      returns, and the written one raises only on an infinite float. */
  lemma ValidatorMatchesAsWritten(value: Value, minValue: int, maxValue: int)
    ensures ValidatePositiveIntegerAsWritten(value, minValue, maxValue).Returned? ==>
      ValidatePositiveIntegerAsWritten(value, minValue, maxValue).ok == ValidatePositiveInteger(value, minValue, maxValue)
    ensures ValidatePositiveIntegerAsWritten(value, minValue, maxValue) == Raised <==>
      value.FloatValue? && value.f.Infinite?
  {
  }

  /** Values `int()` cannot convert are never valid, whatever the bounds. */
  lemma UnconvertibleIsInvalid(value: Value, minValue: int, maxValue: int)
    requires !ToInt(value).Converted?
    ensures !ValidatePositiveInteger(value, minValue, maxValue)
    ensures value.NoneValue? || value.OtherValue? ==> ToInt(value) == TypeError
  {
  }

  /** A numeral typed into a field validates exactly when its number lies
      within the bounds, by default between 1 and 100000. */
  lemma NumeralValidIffInBounds(n: int, minValue: int, maxValue: int)
    ensures ValidatePositiveInteger(StrValue(IntToString(n)), minValue, maxValue) <==> minValue <= n <= maxValue
    ensures ValidatePositiveInteger(StrValue(IntToString(n))) <==> 1 <= n <= 100000
  {
    ParseIntOfIntToString(n);
  }

  /** A finite float validates by its truncation toward zero, and a
      boolean as 0 or 1. */
  lemma FloatAndBoolConversions(x: real, b: bool, minValue: int, maxValue: int)
    ensures ValidatePositiveInteger(FloatValue(Finite(x)), minValue, maxValue) <==> minValue <= Trunc(x) <= maxValue
    ensures ValidatePositiveInteger(BoolValue(b), minValue, maxValue) <==>
      minValue <= (if b then 1 else 0) <= maxValue
    ensures ValidatePositiveInteger(FloatValue(Finite(0.5))) == false
    ensures ValidatePositiveInteger(FloatValue(Finite(2.9))) == true
    ensures ValidatePositiveInteger(BoolValue(true)) == true
  {
    assert Trunc(0.5) == 0 && Trunc(2.9) == 2;
  }

  // ---------------------------------------------------------------------
  // `validate_material_code`
  // ---------------------------------------------------------------------

  /** `validate_material_code`: a falsy or non-string value is refused; a
      string is accepted when something is left after stripping. */
  function ValidateMaterialCode(code: Value): bool
  {
    match code
    case StrValue(s) => |s| > 0 && |Strip(s)| > 0
    case _ => false
  }

  /** A code is valid exactly when it is a string with a character that is
      not whitespace. */
  lemma MaterialCodeValidIff(code: Value)
    ensures ValidateMaterialCode(code) <==>
      code.StrValue? && exists i :: 0 <= i < |code.s| && !IsSpace(code.s[i])
  {
    if code.StrValue? {
      StripEmpty(code.s);
    }
  }
}
