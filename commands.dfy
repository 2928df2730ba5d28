/**
 * The command a slider sends when the user lets go of it: "s", then the 1-based number of
 * the arm part, then the slider's value, both in decimal (Kotlin's string template of an
 * Int). The receiving device's parser is not part of this program; `ParseCommand` is the
 * inverse used here to show that a command determines the part and the value.
 */
module Commands {
  import opened Options

  /** The arm parts, one slider each, in screen order. */
  const RoboticArmParts: seq<string> := ["Rotator", "Lower Joint", "Upper Joint", "Claw"]

  /** The slider's range is 0..100; its value is rounded to an integer. */
  const MaxSliderValue: nat := 100

  predicate IsDigit(c: char) {
    '0' <= c <= '9'
  }

  predicate AllDigits(s: string) {
    forall k :: 0 <= k < |s| ==> IsDigit(s[k])
  }

  /** A decimal numeral as Kotlin prints a non-negative Int: digits, no leading zero. */
  predicate IsNumeral(s: string) {
    |s| >= 1 && AllDigits(s) && (s[0] == '0' ==> |s| == 1)
  }

  function DigitChar(d: nat): (c: char)
    requires d < 10
    ensures IsDigit(c) && (c as int) - ('0' as int) == d
  {
    (('0' as int) + d) as char
  }

  function DigitValue(c: char): (d: nat)
    requires IsDigit(c)
    ensures d < 10 && DigitChar(d) == c
  {
    (c as int) - ('0' as int)
  }

  /** The decimal numeral of n. */
  function Decimal(n: nat): (s: string)
    ensures IsNumeral(s)
    ensures n < 10 <==> |s| == 1
    decreases n
  {
    if n < 10 then [DigitChar(n)] else Decimal(n / 10) + [DigitChar(n % 10)]
  }

  /** The value of a string of digits. */
  function ValueOf(s: string): nat
    requires AllDigits(s)
    decreases |s|
  {
    if s == [] then 0 else ValueOf(s[..|s| - 1]) * 10 + DigitValue(s[|s| - 1])
  }

  lemma {:induction false} ValueOfDecimal(n: nat)
    ensures ValueOf(Decimal(n)) == n
    decreases n
  {
    if n >= 10 {
      var s := Decimal(n);
      assert s[..|s| - 1] == Decimal(n / 10);
      ValueOfDecimal(n / 10);
    }
  }

  /** A numeral of two or more digits has a value of at least 10. */
  lemma {:induction false} ValueOfLongNumeral(s: string)
    requires IsNumeral(s) && |s| >= 2
    ensures ValueOf(s) >= 10
  {
    var p := s[..|s| - 1];
    assert p[0] == s[0];
    LeadingDigitPositive(p);
  }

  lemma {:induction false} LeadingDigitPositive(s: string)
    requires |s| >= 1 && AllDigits(s) && s[0] != '0'
    ensures ValueOf(s) >= 1
    decreases |s|
  {
    if |s| >= 2 {
      var p := s[..|s| - 1];
      assert p[0] == s[0];
      LeadingDigitPositive(p);
    }
  }

  lemma {:induction false} DecimalOfValue(s: string)
    requires IsNumeral(s)
    ensures Decimal(ValueOf(s)) == s
    decreases |s|
  {
    if |s| >= 2 {
      var p := s[..|s| - 1];
      assert p[0] == s[0];
      ValueOfLongNumeral(s);
      var n := ValueOf(s);
      assert n / 10 == ValueOf(p) && n % 10 == DigitValue(s[|s| - 1]);
      DecimalOfValue(p);
      assert s == p + [s[|s| - 1]];
    }
  }

  /** The command slider i (0-based) sends for value v: "s${i + 1}$value". */
  function Command(i: nat, v: nat): (c: string)
    ensures |c| >= 3 && c[0] == 's'
  {
    "s" + Decimal(i + 1) + Decimal(v)
  }

  /** Recovers (part index, value) from a command the controller can send, or None. */
  function ParseCommand(c: string): (r: Option<(nat, nat)>)
    ensures r.Some? ==> r.value.0 < |RoboticArmParts| && r.value.1 <= MaxSliderValue
  {
    if |c| >= 3 && c[0] == 's' && '1' <= c[1] <= '4' && IsNumeral(c[2..]) && ValueOf(c[2..]) <= MaxSliderValue
    then Some(((c[1] as int) - ('1' as int), ValueOf(c[2..])))
    else None
  }

  /** With four parts and a value in 0..100, the part number is the single character
      '1'..'4' right after 's', and the whole command has 3 to 5 characters. */
  lemma CommandShape(i: nat, v: nat)
    requires i < |RoboticArmParts| && v <= MaxSliderValue
    ensures var c := Command(i, v);
      3 <= |c| <= 5 && c[1] == DigitChar(i + 1) && '1' <= c[1] <= '4' && c[2..] == Decimal(v)
  {
    if v >= 10 {
      assert Decimal(v) == Decimal(v / 10) + [DigitChar(v % 10)];
      assert v / 10 < 10 || v / 10 == 10;
    }
  }

  /** Every command a slider can send parses back to its part index and value. */
  lemma ParseCommandOfCommand(i: nat, v: nat)
    requires i < |RoboticArmParts| && v <= MaxSliderValue
    ensures ParseCommand(Command(i, v)) == Some((i, v))
  {
    CommandShape(i, v);
    ValueOfDecimal(v);
  }

  /** Every string that parses is exactly the command for what it parses to. */
  lemma CommandOfParseCommand(c: string)
    requires ParseCommand(c).Some?
    ensures Command(ParseCommand(c).value.0, ParseCommand(c).value.1) == c
  {
    var (i, v) := ParseCommand(c).value;
    DecimalOfValue(c[2..]);
    assert Decimal(i + 1) == [c[1]];
    assert c == [c[0]] + [c[1]] + c[2..];
  }

  /** Two sliders, or two values, never send the same command. */
  lemma CommandInjective(i: nat, v: nat, j: nat, w: nat)
    requires i < |RoboticArmParts| && v <= MaxSliderValue
    requires j < |RoboticArmParts| && w <= MaxSliderValue
    requires Command(i, v) == Command(j, w)
    ensures i == j && v == w
  {
    ParseCommandOfCommand(i, v);
    ParseCommandOfCommand(j, w);
  }
}
