/** The presentation helpers: `fmt_num` (K/M/B abbreviation with an em-dash
    placeholder) and the guarded funded percentage. */
module Format {
  import opened PyJson

  /** What `fmt_num` shows: a value scaled to a unit with a suffix (printed
      with two decimals), a whole number, or the placeholder. */
  datatype Display = Scaled(mantissa: real, suffix: string) | Whole(value: int) | Dash

  const Placeholder: string := "—"

  /** The scale each suffix stands for. */
  function Unit(suffix: string): real
  {
    if suffix == "B" then 1000000000.0
    else if suffix == "M" then 1000000.0
    else 1000.0
  }

  /** `fmt_num(n)`: `float(n)` and then the first bucket whose threshold `n`
      reaches; a failed conversion gives the placeholder. */
  function FmtNum(n: Json, strToFloat: string -> Option<real>): Display
  {
    match ToFloat(n, strToFloat)
    case None => Dash
    case Some(x) =>
      if x >= 1000000000.0 then Scaled(x / 1000000000.0, "B")
      else if x >= 1000000.0 then Scaled(x / 1000000.0, "M")
      else if x >= 1000.0 then Scaled(x / 1000.0, "K")
      else Whole(Trunc(x))
  }

  /** Every display is faithful to the number it abbreviates: the mantissa
      times its unit gives the number back, K and M mantissas lie in
      [1, 1000), the B mantissa is at least 1, whole numbers are exactly the
      values below 1000 truncated toward zero, and the placeholder appears
      exactly when conversion fails. */
  lemma FmtNumBuckets(n: Json, strToFloat: string -> Option<real>)
    ensures FmtNum(n, strToFloat).Dash? <==> ToFloat(n, strToFloat).None?
    ensures FmtNum(n, strToFloat).Scaled? ==>
      var d := FmtNum(n, strToFloat);
      && ToFloat(n, strToFloat).Some?
      && d.mantissa * Unit(d.suffix) == ToFloat(n, strToFloat).value
      && 1.0 <= d.mantissa
      && (d.suffix == "B" || d.suffix == "M" || d.suffix == "K")
      && (d.suffix != "B" ==> d.mantissa < 1000.0)
    ensures FmtNum(n, strToFloat).Whole? <==>
      ToFloat(n, strToFloat).Some? && ToFloat(n, strToFloat).value < 1000.0
    ensures FmtNum(n, strToFloat).Whole? ==>
      FmtNum(n, strToFloat).value == Trunc(ToFloat(n, strToFloat).value)
  {
  }

  /** Decimal digits of a natural number, most significant first. */
  function Digits(k: nat): (s: string)
    ensures s != [] && forall i :: 0 <= i < |s| ==> '0' <= s[i] <= '9'
    ensures |s| > 1 ==> s[0] != '0'
  {
    if k < 10 then [('0' as int + k) as char]
    else Digits(k / 10) + [('0' as int + k % 10) as char]
  }

  /** `f"{i}"` for an integer. */
  function IntText(i: int): string
  {
    if i < 0 then "-" + Digits(-i) else Digits(i)
  }

  /** Reading decimal digits back. */
  function DigitsValue(s: string): int
  {
    if s == [] then 0
    else DigitsValue(s[..|s| - 1]) * 10 + (s[|s| - 1] as int - '0' as int)
  }

  function TextValue(s: string): int
  {
    if s != [] && s[0] == '-' then -DigitsValue(s[1..]) else DigitsValue(s)
  }

  lemma {:induction false} DigitsRoundTrip(k: nat)
    ensures DigitsValue(Digits(k)) == k
  {
    if k >= 10 {
      DigitsRoundTrip(k / 10);
      var s := Digits(k);
      assert s[..|s| - 1] == Digits(k / 10);
    }
  }

  /** The text of the integer branch names exactly the integer shown: it
      reads back as that integer, and it starts with '-' just for negatives. */
  lemma IntTextRoundTrip(i: int)
    ensures TextValue(IntText(i)) == i
    ensures IntText(i) != [] && (IntText(i)[0] == '-' <==> i < 0)
  {
    if i < 0 {
      DigitsRoundTrip(-i);
      assert IntText(i)[1..] == Digits(-i);
    } else {
      DigitsRoundTrip(i);
    }
  }

  /** The string shown for a display; `fixed2` is Python's `f"{x:.2f}"`. */
  function Text(d: Display, fixed2: real -> string): string
  {
    match d
    case Scaled(m, suffix) => fixed2(m) + suffix
    case Whole(i) => IntText(i)
    case Dash => Placeholder
  }

  /** The abbreviations `fmt_num` gives for the dashboard's magnitudes. */
  lemma FmtNumExamples(strToFloat: string -> Option<real>)
    ensures FmtNum(Num(1500.0), strToFloat) == Scaled(1.5, "K")
    ensures FmtNum(Num(2340000.0), strToFloat) == Scaled(2.34, "M")
    ensures FmtNum(Num(4160000000.0), strToFloat) == Scaled(4.16, "B")
    ensures FmtNum(Num(-5.7), strToFloat) == Whole(-5)
  {
    assert 1500.0 / 1000.0 == 1.5;
    assert 2340000.0 / 1000000.0 == 2.34;
    assert 4160000000.0 / 1000000000.0 == 4.16;
    assert Trunc(-5.7) == -5 by { assert (5.7).Floor == 5; }
  }

  /** The text shown for a small whole number and for a value that does not
      convert. */
  lemma FmtTextExamples(strToFloat: string -> Option<real>, fixed2: real -> string)
    requires strToFloat("not-a-number").None?
    ensures Text(FmtNum(Num(999.0), strToFloat), fixed2) == "999"
    ensures Text(FmtNum(Str("not-a-number"), strToFloat), fixed2) == "—"
  {
    assert FmtNum(Num(999.0), strToFloat) == Whole(999) by {
      assert Trunc(999.0) == 999;
    }
    ThreeNines();
  }

  /** The text of 999. */
  lemma ThreeNines()
    ensures IntText(999) == "999"
  {
    assert Digits(99) == Digits(9) + ['9'];
    assert Digits(999) == Digits(99) + ['9'];
  }

  /** `pct = float(funded) / float(required) * 100.0`, computed only when both
      are truthy; any exception (a failed conversion, a zero divisor) leaves
      it `None`. */
  function FundedPercent(required: Json, funded: Json, strToFloat: string -> Option<real>): Option<real>
  {
    if Truthy(required) && Truthy(funded) then
      match ToFloat(funded, strToFloat)
      case None => None
      case Some(f) =>
        match ToFloat(required, strToFloat)
        case None => None
        case Some(q) => if q == 0.0 then None else Some(f / q * 100.0)
    else None
  }

  /** The percentage exists exactly when both operands are truthy and convert
      and the requirement is not zero; it is then the share of the
      requirement that is funded. */
  lemma FundedPercentGuard(required: Json, funded: Json, strToFloat: string -> Option<real>)
    ensures FundedPercent(required, funded, strToFloat).Some? <==>
      && Truthy(required) && Truthy(funded)
      && ToFloat(funded, strToFloat).Some? && ToFloat(required, strToFloat).Some?
      && ToFloat(required, strToFloat).value != 0.0
    ensures FundedPercent(required, funded, strToFloat).Some? ==>
      FundedPercent(required, funded, strToFloat).value * ToFloat(required, strToFloat).value
        == ToFloat(funded, strToFloat).value * 100.0
    ensures !Truthy(required) || !Truthy(funded) ==> FundedPercent(required, funded, strToFloat).None?
  {
    var p := FundedPercent(required, funded, strToFloat);
    if p.Some? {
      var f := ToFloat(funded, strToFloat).value;
      var q := ToFloat(required, strToFloat).value;
      assert p.value == f / q * 100.0;
      assert f / q * q == f;
      assert p.value * q == (f / q * q) * 100.0;
    }
  }
}
