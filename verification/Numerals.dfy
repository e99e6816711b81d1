/** Reading the numerals of dates and article numbers: ASCII digits, positional Chinese digits, or
    Chinese digits with the units ten, hundred and thousand. */
module Numerals {
  import opened Collections

  // ----- Characters ---------------------------------------------------------------------

  predicate IsAscii(c: char) {
    '0' <= c <= '9'
  }

  function AsciiDigit(c: char): nat
    requires IsAscii(c)
  {
    c as int - '0' as int
  }

  predicate IsDigit(c: char) {
    c in {'〇', '零', '一', '二', '兩', '三', '四', '五', '六', '七', '八', '九'}
  }

  function Digit(c: char): (d: nat)
    ensures d <= 9
  {
    match c
    case '一' => 1
    case '二' => 2
    case '兩' => 2
    case '三' => 3
    case '四' => 4
    case '五' => 5
    case '六' => 6
    case '七' => 7
    case '八' => 8
    case '九' => 9
    case _ => 0
  }

  predicate IsUnit(c: char) {
    c in {'十', '百', '千'}
  }

  function Unit(c: char): nat {
    match c
    case '十' => 10
    case '百' => 100
    case '千' => 1000
    case _ => 0
  }

  // ----- Values -------------------------------------------------------------------------

  /** The decimal value of a run of digits. */
  function Positional(digits: seq<nat>): nat {
    if digits == [] then 0 else 10 * Positional(digits[..|digits| - 1]) + digits[|digits| - 1]
  }

  predicate AllAscii(value: string) {
    forall c | c in value :: IsAscii(c)
  }

  predicate AllDigits(value: string) {
    forall c | c in value :: IsDigit(c)
  }

  function AsciiDigits(value: string): seq<nat>
    requires AllAscii(value)
  {
    seq(|value|, i requires 0 <= i < |value| => assert value[i] in value; AsciiDigit(value[i]))
  }

  function ChineseDigits(value: string): seq<nat> {
    seq(|value|, i requires 0 <= i < |value| => Digit(value[i]))
  }

  /** The digit right before a position, or zero. */
  function DigitBefore(value: string, p: nat): (d: nat)
    requires p <= |value|
    ensures d <= 9
  {
    if p > 0 && IsDigit(value[p - 1]) then Digit(value[p - 1]) else 0
  }

  /** A unit without a digit before it counts once. */
  function Times(digit: nat): nat {
    if digit == 0 then 1 else digit
  }

  /** What the units contribute: each counts as often as the digit before it says, at least once. */
  function UnitsWorth(value: string): nat {
    if value == [] then 0
    else
      var p := |value| - 1;
      UnitsWorth(value[..p]) + if IsUnit(value[p]) then Times(DigitBefore(value, p)) * Unit(value[p]) else 0
  }

  function Worth(value: string): nat {
    UnitsWorth(value) + DigitBefore(value, |value|)
  }

  predicate AllKnown(value: string) {
    forall c | c in value :: IsDigit(c) || IsUnit(c)
  }

  /** The units in the order in which they are written. */
  function Units(value: string): seq<nat> {
    if value == [] then []
    else Units(value[..|value| - 1]) + if IsUnit(value[|value| - 1]) then [Unit(value[|value| - 1])] else []
  }

  predicate Decreasing(s: seq<nat>) {
    forall i, j | 0 <= i < j < |s| :: s[i] > s[j]
  }

  /** A numeral: ASCII digits, or Chinese digits with strictly decreasing units; never empty. */
  predicate IsNumeral(value: string) {
    value != [] && (AllAscii(value) || (AllKnown(value) && Decreasing(Units(value))))
  }

  function ValueOf(value: string): nat {
    if AllAscii(value) then Positional(AsciiDigits(value))
    else if AllDigits(value) then Positional(ChineseDigits(value))
    else Worth(value)
  }

  // ----- Reading ------------------------------------------------------------------------

  function LastUnit(value: string): nat {
    var units := Units(value);
    if units == [] then 10000 else units[|units| - 1]
  }

  lemma UnitIs(c: char)
    requires IsUnit(c)
    ensures Unit(c) in {10, 100, 1000} && !IsDigit(c)
  {
  }

  lemma DecreasingSnoc(s: seq<nat>, x: nat)
    ensures Decreasing(s + [x]) <==> Decreasing(s) && (s == [] || s[|s| - 1] > x)
  {
    var all := s + [x];
    assert forall i | 0 <= i < |s| :: all[i] == s[i];
    if Decreasing(all) {
      assert forall i, j | 0 <= i < j < |s| :: all[i] > all[j];
      assert s != [] ==> all[|s| - 1] > all[|s|];
    }
  }

  lemma KnownSnoc(value: string, c: char)
    ensures AllKnown(value + [c]) <==> AllKnown(value) && (IsDigit(c) || IsUnit(c))
  {
    hide IsUnit;
    hide IsDigit;
    assert c in value + [c];
    assert forall x | x in value :: x in value + [c];
  }

  lemma UnitsSnoc(value: string, c: char)
    ensures Units(value + [c]) == if IsUnit(c) then Units(value) + [Unit(c)] else Units(value)
    ensures IsUnit(c) ==>
              (Decreasing(Units(value + [c])) <==> Decreasing(Units(value)) && (Units(value) == [] || Unit(c) < LastUnit(value)))
  {
    hide IsUnit;
    hide Unit;
    assert (value + [c])[..|value|] == value;
    DecreasingSnoc(Units(value), Unit(c));
    hide Decreasing;
  }

  lemma WorthSnoc(value: string, c: char)
    ensures UnitsWorth(value + [c]) == UnitsWorth(value) + if IsUnit(c) then Times(DigitBefore(value, |value|)) * Unit(c) else 0
    ensures DigitBefore(value + [c], |value| + 1) == if IsDigit(c) then Digit(c) else 0
  {
    hide IsUnit;
    hide Unit;
    hide IsDigit;
    hide Digit;
    hide Times;
    assert (value + [c])[..|value|] == value;
    assert DigitBefore(value + [c], |value|) == DigitBefore(value, |value|);
  }

  /** One more character, in terms of the prefix read so far. */
  lemma Snoc(value: string, c: char)
    ensures AllKnown(value + [c]) <==> AllKnown(value) && (IsDigit(c) || IsUnit(c))
    ensures Units(value + [c]) == if IsUnit(c) then Units(value) + [Unit(c)] else Units(value)
    ensures IsUnit(c) ==>
              (Decreasing(Units(value + [c])) <==> Decreasing(Units(value)) && (Units(value) == [] || Unit(c) < LastUnit(value)))
    ensures UnitsWorth(value + [c]) == UnitsWorth(value) + if IsUnit(c) then Times(DigitBefore(value, |value|)) * Unit(c) else 0
    ensures DigitBefore(value + [c], |value| + 1) == if IsDigit(c) then Digit(c) else 0
  {
    KnownSnoc(value, c);
    UnitsSnoc(value, c);
    WorthSnoc(value, c);
  }

  lemma StepFits(total: nat, last: nat, u: nat, digit: nat)
    requires last in {10, 100, 1000, 10000} && u in {10, 100, 1000} && u < last && digit <= 9
    requires total <= 10000 - last
    ensures 10 <= total + Times(digit) * u <= 10000 - u
  {
    assert u * 10 <= last;
    assert u <= Times(digit) * u <= 9 * u;
  }

  /** Decreasing units keep the value below ten thousand: the more so, the smaller the last one. */
  lemma {:induction false} WorthFits(value: string)
    requires AllKnown(value) && Decreasing(Units(value))
    ensures LastUnit(value) in {10, 100, 1000, 10000} && (LastUnit(value) == 10000 <==> Units(value) == [])
    ensures UnitsWorth(value) <= 10000 - LastUnit(value)
    ensures Units(value) != [] ==> UnitsWorth(value) >= 10
  {
    hide AllKnown;
    hide IsUnit;
    hide IsDigit;
    hide Unit;
    hide Digit;
    hide DigitBefore;
    hide Decreasing;
    hide Times;
    if value == [] {
    } else {
      var rest, c := value[..|value| - 1], value[|value| - 1];
      assert value == rest + [c];
      hide Units;
      hide UnitsWorth;
      Snoc(rest, c);
      PrefixDecreases(value, |rest|);
      WorthFits(rest);
      if IsUnit(c) {
        UnitIs(c);
        StepFits(UnitsWorth(rest), LastUnit(rest), Unit(c), DigitBefore(rest, |rest|));
      }
    }
  }

  lemma {:induction false} NoUnits(value: string)
    requires AllKnown(value)
    ensures AllDigits(value) <==> Units(value) == []
  {
    hide Unit;
    if value != [] {
      var rest, c := value[..|value| - 1], value[|value| - 1];
      assert value == rest + [c];
      Snoc(rest, c);
      NoUnits(rest);
      assert IsUnit(c) ==> !IsDigit(c) by {
        if IsUnit(c) {
          UnitIs(c);
        }
      }
      hide IsUnit;
      hide IsDigit;
      hide Units;
      assert c in value && forall x | x in rest :: x in value;
    }
  }

  /** A prefix of decreasing units decreases. */
  lemma {:induction false} PrefixDecreases(value: string, i: nat)
    requires i <= |value|
    ensures Units(value[..i]) <= Units(value)
    ensures Decreasing(Units(value)) ==> Decreasing(Units(value[..i]))
    decreases |value|
  {
    hide IsUnit;
    hide Unit;
    if i < |value| {
      PrefixDecreases(value[..|value| - 1], i);
      assert value[..|value| - 1][..i] == value[..i];
    } else {
      assert value[..i] == value;
    }
  }

  /** Reads the characters from left to right, adding each unit as often as the digit before it says. */
  method ReadUnits(value: string) returns (r: Result<nat>)
    ensures r.Ok? <==> AllKnown(value) && Decreasing(Units(value))
    ensures r.Ok? ==> r.value == Worth(value)
  {
    hide IsUnit;
    hide IsDigit;
    hide Unit;
    hide Units;
    hide Decreasing;
    hide DigitBefore;
    hide UnitsWorth;
    var total, current, lastUnit := 0, 0, 10000;
    assert AllKnown([]) && Units([]) == [] && Decreasing([]) && UnitsWorth([]) == 0 && DigitBefore([], 0) == 0 by {
      NothingRead();
    }
    for i := 0 to |value|
      invariant AllKnown(value[..i]) && Decreasing(Units(value[..i])) && lastUnit == LastUnit(value[..i])
      invariant total == UnitsWorth(value[..i]) && current == DigitBefore(value[..i], i)
    {
      var c := value[i];
      assert value[..i + 1] == value[..i] + [c];
      Snoc(value[..i], c);
      WorthFits(value[..i]);
      PrefixDecreases(value, i + 1);
      if IsDigit(c) {
        DigitIsNoUnit(c);
        current := Digit(c);
      } else if IsUnit(c) {
        var unit := Unit(c);
        UnitIs(c);
        if unit >= lastUnit {
          return Err("INVALID_NUMERAL");
        }
        total := total + (if current == 0 then 1 else current) * unit;
        current, lastUnit := 0, unit;
      } else {
        assert c in value;
        return Err("UNKNOWN_CHARACTER");
      }
    }
    assert value[..|value|] == value;
    r := Ok(total + current);
  }

  lemma NothingRead()
    ensures AllKnown([]) && Units([]) == [] && Decreasing([]) && UnitsWorth([]) == 0 && DigitBefore([], 0) == 0
  {
  }

  lemma DigitIsNoUnit(c: char)
    requires IsDigit(c)
    ensures !IsUnit(c)
  {
  }

  method Number(value: string) returns (r: Result<nat>)
    ensures r.Ok? <==> IsNumeral(value)
    ensures r.Ok? ==> r.value == ValueOf(value)
  {
    hide Decreasing;
    hide Units;
    hide UnitsWorth;
    hide DigitBefore;
    if value != [] && AllAscii(value) {
      return Ok(Positional(AsciiDigits(value)));
    }
    if AllDigits(value) {
      if value == [] {
        return Err("EMPTY");
      }
      NoUnits(value);
      assert Decreasing([]) by {
        NothingRead();
      }
      return Ok(Positional(ChineseDigits(value)));
    }
    r := ReadUnits(value);
  }

  /** A numeral with units denotes a number from ten to nine thousand nine hundred and ninety-nine. */
  lemma UnitsInRange(value: string)
    requires IsNumeral(value) && !AllAscii(value) && !AllDigits(value)
    ensures 10 <= ValueOf(value) <= 9999
  {
    WorthFits(value);
    NoUnits(value);
  }

  // ----- Writing ------------------------------------------------------------------------

  function DigitChar(d: nat): (c: char)
    requires 1 <= d <= 9
    ensures IsDigit(c) && Digit(c) == d
  {
    "一二三四五六七八九"[d - 1]
  }

  function Place(digit: nat, unit: char): string
    requires digit <= 9
  {
    if digit == 0 then [] else [DigitChar(digit), unit]
  }

  /** The numeral of a number below ten thousand, without padding. */
  function Write(n: nat): string
    requires n < 10000
  {
    Place(n / 1000, '千') + Place(n / 100 % 10, '百') + Place(n / 10 % 10, '十')
    + if n % 10 == 0 then [] else [DigitChar(n % 10)]
  }

  /** A digit followed by a smaller unit. */
  lemma DigitUnitAdds(value: string, c: char, unit: char)
    requires IsDigit(c) && Digit(c) > 0 && IsUnit(unit)
    requires AllKnown(value) && Decreasing(Units(value)) && Unit(unit) < LastUnit(value)
    ensures var after := value + [c] + [unit];
            && AllKnown(after) && Decreasing(Units(after)) && DigitBefore(after, |after|) == 0
            && LastUnit(after) == Unit(unit) && UnitsWorth(after) == UnitsWorth(value) + Times(Digit(c)) * Unit(unit)
  {
    DigitIsNoUnit(c);
    UnitIs(unit);
    hide AllKnown;
    hide IsDigit;
    hide IsUnit;
    hide Digit;
    hide Unit;
    hide Decreasing;
    hide Units;
    hide UnitsWorth;
    hide DigitBefore;
    hide Times;
    Snoc(value, c);
    Snoc(value + [c], unit);
  }

  lemma PlaceAdds(value: string, digit: nat, unit: char)
    requires digit <= 9 && IsUnit(unit)
    requires AllKnown(value) && Decreasing(Units(value)) && Unit(unit) < LastUnit(value) && DigitBefore(value, |value|) == 0
    ensures var after := value + Place(digit, unit);
            && AllKnown(after) && Decreasing(Units(after)) && DigitBefore(after, |after|) == 0
            && LastUnit(after) == (if digit == 0 then LastUnit(value) else Unit(unit))
            && UnitsWorth(after) == UnitsWorth(value) + digit * Unit(unit)
  {
    hide AllKnown;
    hide IsDigit;
    hide IsUnit;
    hide Digit;
    hide Unit;
    hide Decreasing;
    hide Units;
    hide LastUnit;
    hide UnitsWorth;
    hide DigitBefore;
    if digit == 0 {
      assert value + Place(digit, unit) == value;
    } else {
      var c := DigitChar(digit);
      assert value + Place(digit, unit) == value + [c] + [unit];
      DigitUnitAdds(value, c, unit);
      assert Times(Digit(c)) == digit;
    }
  }

  lemma DigitsOf(n: nat)
    requires n < 10000
    ensures n / 1000 <= 9
    ensures n / 1000 * 1000 + n / 100 % 10 * 100 + n / 10 % 10 * 10 + n % 10 == n
  {
    assert n / 100 == n / 1000 * 10 + n / 100 % 10;
    assert n / 10 == n / 100 * 10 + n / 10 % 10;
  }

  lemma WrittenWorth(q: nat, h: nat, t: nat)
    requires q <= 9 && h <= 9 && t <= 9
    ensures var tens := Place(q, '千') + Place(h, '百') + Place(t, '十');
            && AllKnown(tens) && Decreasing(Units(tens)) && DigitBefore(tens, |tens|) == 0
            && UnitsWorth(tens) == q * 1000 + h * 100 + t * 10
  {
    assert Unit('千') == 1000 && Unit('百') == 100 && Unit('十') == 10 && IsUnit('千') && IsUnit('百') && IsUnit('十');
    hide Place;
    hide IsUnit;
    hide Unit;
    hide IsDigit;
    hide Digit;
    hide AllKnown;
    hide Decreasing;
    NothingRead();
    hide Units;
    hide UnitsWorth;
    hide DigitBefore;
    var thousands := Place(q, '千');
    PlaceAdds([], q, '千');
    assert [] + Place(q, '千') == thousands;
    PlaceAdds(thousands, h, '百');
    PlaceAdds(thousands + Place(h, '百'), t, '十');
  }

  /** Writing a number and reading it again gives the number. */
  lemma WriteThenRead(n: nat)
    requires 10 <= n < 10000
    ensures IsNumeral(Write(n)) && ValueOf(Write(n)) == n
  {
    DigitsOf(n);
    hide Place;
    hide IsUnit;
    hide Unit;
    hide IsDigit;
    hide Digit;
    hide AllKnown;
    hide AllAscii;
    hide AllDigits;
    hide Decreasing;
    hide Units;
    hide UnitsWorth;
    hide DigitBefore;
    var tens := Place(n / 1000, '千') + Place(n / 100 % 10, '百') + Place(n / 10 % 10, '十');
    WrittenWorth(n / 1000, n / 100 % 10, n / 10 % 10);
    if n % 10 != 0 {
      var c := DigitChar(n % 10);
      DigitIsNoUnit(c);
      Snoc(tens, c);
      assert Write(n) == tens + [c];
    } else {
      assert Write(n) == tens;
    }
    WrittenIsChinese(n);
  }

  lemma WrittenIsChinese(n: nat)
    requires 10 <= n < 10000
    ensures Write(n) != [] && !AllAscii(Write(n)) && !AllDigits(Write(n))
  {
    var thousands := Place(n / 1000, '千');
    var hundreds := Place(n / 100 % 10, '百');
    var tens := Place(n / 10 % 10, '十');
    assert n / 1000 != 0 || n / 100 % 10 != 0 || n / 10 % 10 != 0;
    var unit := if n / 1000 != 0 then '千' else if n / 100 % 10 != 0 then '百' else '十';
    assert unit in Write(n);
    assert !IsAscii(unit) && !IsDigit(unit);
  }

  // ----- Positional numerals ------------------------------------------------------------

  const ASCII_DIGITS := "0123456789"
  const CHINESE_DIGITS := "〇一二三四五六七八九"

  /** A number written in decimal places with the given ten digits. */
  function Decimal(n: nat, digits: string): string
    requires |digits| == 10
  {
    if n < 10 then [digits[n]] else Decimal(n / 10, digits) + [digits[n % 10]]
  }

  lemma DigitsAre(d: nat)
    requires d < 10
    ensures IsAscii(ASCII_DIGITS[d]) && AsciiDigit(ASCII_DIGITS[d]) == d
    ensures IsDigit(CHINESE_DIGITS[d]) && Digit(CHINESE_DIGITS[d]) == d && !IsAscii(CHINESE_DIGITS[d])
  {
  }

  /** Zero and two have a second digit each. */
  lemma VariantDigits()
    ensures IsDigit('零') && Digit('零') == Digit('〇') == 0
    ensures IsDigit('兩') && Digit('兩') == Digit('二') == 2
  {
  }

  lemma {:induction false} AsciiDecimal(n: nat)
    ensures Decimal(n, ASCII_DIGITS) != [] && AllAscii(Decimal(n, ASCII_DIGITS))
    ensures Positional(AsciiDigits(Decimal(n, ASCII_DIGITS))) == n
  {
    DigitsAre(n % 10);
    hide IsAscii;
    hide AsciiDigit;
    var last := ASCII_DIGITS[n % 10];
    if n < 10 {
      assert AsciiDigits([last]) == [n] && [n][..0] == [];
    } else {
      var rest := Decimal(n / 10, ASCII_DIGITS);
      AsciiDecimal(n / 10);
      assert AsciiDigits(rest + [last]) == AsciiDigits(rest) + [n % 10];
      assert (AsciiDigits(rest) + [n % 10])[..|rest|] == AsciiDigits(rest);
    }
  }

  lemma {:induction false} ChineseDecimal(n: nat)
    ensures var value := Decimal(n, CHINESE_DIGITS);
            value != [] && AllDigits(value) && !AllAscii(value) && Positional(ChineseDigits(value)) == n
  {
    DigitsAre(n % 10);
    hide IsAscii;
    hide IsDigit;
    hide Digit;
    var last := CHINESE_DIGITS[n % 10];
    assert last in Decimal(n, CHINESE_DIGITS);
    if n < 10 {
      assert ChineseDigits([last]) == [n] && [n][..0] == [];
    } else {
      var rest := Decimal(n / 10, CHINESE_DIGITS);
      ChineseDecimal(n / 10);
      assert ChineseDigits(rest + [last]) == ChineseDigits(rest) + [n % 10];
      assert (ChineseDigits(rest) + [n % 10])[..|rest|] == ChineseDigits(rest);
    }
  }

  /** Any number written in decimal places, in ASCII or in Chinese digits, is read back. */
  lemma DecimalThenRead(n: nat)
    ensures IsNumeral(Decimal(n, ASCII_DIGITS)) && ValueOf(Decimal(n, ASCII_DIGITS)) == n
    ensures IsNumeral(Decimal(n, CHINESE_DIGITS)) && ValueOf(Decimal(n, CHINESE_DIGITS)) == n
  {
    AsciiDecimal(n);
    ChineseDecimal(n);
    NoUnitsInDigits(Decimal(n, CHINESE_DIGITS));
    hide Decimal;
    hide Positional;
    hide IsAscii;
    hide IsDigit;
    hide IsUnit;
  }

  lemma {:induction false} NoUnitsInDigits(value: string)
    requires AllDigits(value)
    ensures Units(value) == []
  {
    hide IsDigit;
    hide IsUnit;
    if value != [] {
      var rest, last := value[..|value| - 1], value[|value| - 1];
      assert value == rest + [last] && last in value;
      assert forall c | c in rest :: c in value;
      DigitIsNoUnit(last);
      NoUnitsInDigits(rest);
    }
  }
}
