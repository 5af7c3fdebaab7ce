/** Byte sizes: reading them with a unit, and printing them in the largest unit that fits. */
module Sizes {
  import opened Common

  datatype SizeError = NoNumber | Malformed | Suffix | Overflow

  type Read = Result<U64, SizeError>

  // ---------- reading ----------

  predicate IsDigit(c: char) { '0' <= c <= '9' }

  predicate IsNumeric(c: char) { IsDigit(c) || c == '.' }

  /** The characters `str::trim` takes off: Unicode's white space. */
  predicate IsSpace(c: char) {
    var u := c as int;
    || 9 <= u <= 13 || u == 0x20 || u == 0x85 || u == 0xa0 || u == 0x1680 || 0x2000 <= u <= 0x200a
    || u == 0x2028 || u == 0x2029 || u == 0x202f || u == 0x205f || u == 0x3000
  }

  /** One by one, by their code points. */
  lemma SpacesAre(c: char)
    ensures IsSpace(c) <==>
      || c as int in {9, 10, 11, 12, 13, 32, 133, 160, 5760, 8232, 8233, 8239, 8287, 12288}
      || 8192 <= c as int <= 8202
  {}

  function TrimStart(text: string): string {
    if text != [] && IsSpace(text[0]) then TrimStart(text[1..]) else text
  }

  function TrimEnd(text: string): string {
    if text != [] && IsSpace(text[|text| - 1]) then TrimEnd(text[..|text| - 1]) else text
  }

  function Trim(text: string): string {
    TrimEnd(TrimStart(text))
  }

  function LowerChar(c: char): char {
    if 'A' <= c <= 'Z' then (c as int + 32) as char else c
  }

  function Lower(text: string): string {
    seq(|text|, i requires 0 <= i < |text| => LowerChar(text[i]))
  }

  /** How many characters in front are digits or points. */
  function NumberLength(text: string): (n: nat)
    ensures n <= |text|
  {
    if text != [] && IsNumeric(text[0]) then 1 + NumberLength(text[1..]) else 0
  }

  /** The bytes of a unit, by its name in lower case. */
  function UnitBytes(name: string): Option<nat> {
    if name == "" || name == "b" then Some(1)
    else if name == "k" || name == "kib" then Some(0x400)
    else if name == "kb" then Some(1_000)
    else if name == "m" || name == "mib" then Some(0x10_0000)
    else if name == "mb" then Some(1_000_000)
    else if name == "g" || name == "gib" then Some(0x4000_0000)
    else if name == "gb" then Some(1_000_000_000)
    else if name == "t" || name == "tib" then Some(0x100_0000_0000)
    else if name == "tb" then Some(1_000_000_000_000)
    else if name == "p" || name == "pib" then Some(0x4_0000_0000_0000)
    else if name == "pb" then Some(1_000_000_000_000_000)
    else None
  }

  function DotAt(text: string): (at: nat)
    ensures at <= |text|
    ensures '.' !in text[..at] && (at < |text| ==> text[at] == '.')
  {
    if text == [] || text[0] == '.' then 0 else 1 + DotAt(text[1..])
  }

  predicate AllDigits(text: string) {
    forall c :: c in text ==> IsDigit(c)
  }

  /** Decimal digits as a number, unless it does not fit in 128 bits. */
  function Digits(text: string): Option<nat>
    requires AllDigits(text)
  {
    if text == [] then Some(0) else
      match Digits(text[..|text| - 1])
      case None => None
      case Some(total) =>
        assert text[|text| - 1] in text;
        var next: nat := total * 10 + (text[|text| - 1] as int - '0' as int);
        if next < U128_LIMIT then Some(next) else None
  }

  function Pow10(n: nat): (p: nat)
    ensures p > 0
  {
    if n == 0 then 1 else 10 * Pow10(n - 1)
  }

  function Times(a: nat, b: nat): nat { a * b }

  function Over(a: nat, b: nat): nat
    requires b > 0
  {
    a / b
  }

  function Fitted(value: nat): Read {
    if value <= U64_MAX then Ok(value) else Err(Overflow)
  }

  /** A whole part and a fraction of a unit, in bytes, unless a step does not fit in 128 bits or the result
    in 64. */
  function Scaled(whole: string, fraction: string, unit: nat): Read
    requires AllDigits(whole) && AllDigits(fraction)
  {
    match (Digits(whole), Digits(fraction))
    case (Some(w), Some(f)) =>
      var scale, wholeBytes, fractionBytes := Pow10(|fraction|), Times(w, unit), Times(f, unit);
      if scale >= U128_LIMIT || wholeBytes >= U128_LIMIT || fractionBytes >= U128_LIMIT then Err(Overflow)
      else Fitted(Over(fractionBytes, scale) + wholeBytes)
    case (_, _) => Err(Overflow)
  }

  lemma {:induction false} NumberIsDigitsAndPoints(text: string)
    ensures forall c :: c in text[..NumberLength(text)] ==> IsNumeric(c)
  {
    if text != [] && IsNumeric(text[0]) {
      NumberIsDigitsAndPoints(text[1..]);
      assert text[..NumberLength(text)] == [text[0]] + text[1..][..NumberLength(text[1..])];
    }
  }

  /** A number with at most one point, in a unit. */
  function Numbered(number: string, unit: nat): Read
    requires forall c :: c in number ==> IsNumeric(c)
  {
    var at := DotAt(number);
    var whole, fraction := number[..at], if at < |number| then number[at + 1..] else [];
    if '.' in fraction then Err(Malformed)
    else if whole == [] && fraction == [] then Err(NoNumber)
    else
      assert forall c :: c in whole ==> c in number && IsNumeric(c) && c != '.';
      assert forall c :: c in fraction ==> c in number && IsNumeric(c) && c != '.';
      Scaled(whole, fraction, unit)
  }

  /** `from_str`: a number, then a unit; the unit is looked at first. */
  function Parse(input: string): Read {
    var text := Trim(input);
    var split := NumberLength(text);
    match UnitBytes(Lower(Trim(text[split..])))
    case None => Err(Suffix)
    case Some(unit) =>
      NumberIsDigitsAndPoints(text);
      Numbered(text[..split], unit)
  }

  // ---------- printing ----------

  const NAMES: seq<string> := ["B", "KiB", "MiB", "GiB", "TiB", "PiB"]

  function Pow1024(n: nat): (p: nat)
    ensures p > 0
  {
    if n == 0 then 1 else 1024 * Pow1024(n - 1)
  }

  function Decimal(n: nat): (text: string)
    ensures text != [] && forall c :: c in text ==> IsDigit(c)
  {
    (if n < 10 then [] else Decimal(n / 10)) + [('0' as int + n % 10) as char]
  }

  /** The largest unit that the value reaches. */
  function UnitFrom(value: nat, unit: nat): (u: nat)
    requires unit <= 5
    ensures unit <= u <= 5
    decreases 5 - unit
  {
    if unit < 5 && value >= Pow1024(unit + 1) then UnitFrom(value, unit + 1) else unit
  }

  function UnitOf(value: nat): (u: nat)
    ensures u <= 5
  {
    UnitFrom(value, 0)
  }

  /** Tenths of a divisor, rounded to the nearest. */
  function Nearest(value: nat, divisor: nat): nat
    requires divisor > 0
  {
    (value * 10 + divisor / 2) / divisor
  }

  /** Tenths of a unit, rounded to the nearest. */
  function Tenths(value: nat, unit: nat): nat {
    Nearest(value, Pow1024(unit))
  }

  function Rendered(value: U64): string {
    var unit := UnitOf(value);
    if unit == 0 then Decimal(value) + " B"
    else
      var tenths := Tenths(value, unit);
      Decimal(tenths / 10) + "." + Decimal(tenths % 10) + " " + NAMES[unit]
  }

  method Display(value: U64) returns (text: string)
    ensures text == Rendered(value)
  {
    var unit, divisor := 0, 1;
    while unit < 5 && value >= divisor * 1024
      invariant 0 <= unit <= 5 && divisor == Pow1024(unit)
      invariant UnitFrom(value, unit) == UnitOf(value)
    {
      unit, divisor := unit + 1, divisor * 1024;
    }
    if unit == 0 {
      return Decimal(value) + " B";
    }
    var tenths := (value * 10 + divisor / 2) / divisor;
    return Decimal(tenths / 10) + "." + Decimal(tenths % 10) + " " + NAMES[unit];
  }

  // ---------- reading back what was printed ----------

  lemma {:induction false} DecimalReadsBack(n: nat)
    requires n < U128_LIMIT
    ensures Digits(Decimal(n)) == Some(n)
  {
    var text := Decimal(n);
    if n >= 10 {
      DecimalReadsBack(n / 10);
      assert text[..|text| - 1] == Decimal(n / 10);
    } else {
      assert text[..0] == [];
    }
  }

  lemma {:induction false} NumberEnds(number: string, rest: string)
    requires forall c :: c in number ==> IsNumeric(c)
    requires rest != [] ==> !IsNumeric(rest[0])
    ensures NumberLength(number + rest) == |number|
  {
    if number == [] {
      assert number + rest == rest;
    } else {
      assert number[0] in number && (number + rest)[1..] == number[1..] + rest;
      NumberEnds(number[1..], rest);
    }
  }

  lemma NothingToTrim(text: string)
    requires text != [] && !IsSpace(text[0]) && !IsSpace(text[|text| - 1])
    ensures Trim(text) == text && Trim(" " + text) == text
  {
    assert (" " + text)[1..] == text;
  }

  function UnitName(unit: nat): string
    requires unit <= 5
  {
    Lower(NAMES[unit])
  }

  lemma UnitIsKnown(unit: nat)
    requires unit <= 5
    ensures UnitBytes(UnitName(unit)) == Some(Pow1024(unit))
  {
    Powers();
    UnitNames(unit);
    UnitsByName(UnitName(unit));
  }

  lemma UnitNames(unit: nat)
    requires unit <= 5
    ensures UnitName(unit) == ["b", "kib", "mib", "gib", "tib", "pib"][unit]
  {
    match unit {
      case 0 => assert UnitName(0) == "b";
      case 1 => assert UnitName(1) == "kib";
      case 2 => assert UnitName(2) == "mib";
      case 3 => assert UnitName(3) == "gib";
      case 4 => assert UnitName(4) == "tib";
      case 5 => assert UnitName(5) == "pib";
    }
  }

  lemma UnitsByName(name: string)
    ensures name == "b" ==> UnitBytes(name) == Some(1)
    ensures name == "kib" ==> UnitBytes(name) == Some(0x400)
    ensures name == "mib" ==> UnitBytes(name) == Some(0x10_0000)
    ensures name == "gib" ==> UnitBytes(name) == Some(0x4000_0000)
    ensures name == "tib" ==> UnitBytes(name) == Some(0x100_0000_0000)
    ensures name == "pib" ==> UnitBytes(name) == Some(0x4_0000_0000_0000)
  {}

  lemma Powers()
    ensures Pow1024(0) == 1 && Pow1024(1) == 0x400 && Pow1024(2) == 0x10_0000 && Pow1024(3) == 0x4000_0000
    ensures Pow1024(4) == 0x100_0000_0000 && Pow1024(5) == 0x4_0000_0000_0000
  {
    assert Pow1024(2) == 1024 * Pow1024(1);
    assert Pow1024(4) == 1024 * Pow1024(3);
  }

  // ---------- what is read back ----------

  /** The bytes that a value printed in a unit is read back as, before the limit of 64 bits. */
  function Rounded(value: nat): nat {
    var unit := UnitOf(value);
    if unit == 0 then value else Tenths(value, unit) * Pow1024(unit) / 10
  }

  lemma DotIn(whole: string, fraction: string)
    requires '.' !in whole
    ensures DotAt(whole + "." + fraction) == |whole| && DotAt(whole) == |whole|
    decreases whole
  {
    if whole != [] {
      assert whole[0] in whole;
      assert (whole + "." + fraction)[1..] == whole[1..] + "." + fraction;
      DotIn(whole[1..], fraction);
    } else {
      assert whole + "." + fraction == "." + fraction;
    }
  }

  lemma OverOne(value: nat)
    ensures Over(0, 1) + value == value && Times(value, 1) == value && Times(0, 1) == 0
  {}

  lemma ScaledUnits(value: nat, wholeBytes: nat, fractionBytes: nat)
    requires value <= U64_MAX && wholeBytes == Times(value, 1) == value && fractionBytes == Times(0, 1) == 0
    ensures Scaled(Decimal(value), "", 1) == Fitted(Over(fractionBytes, 1) + wholeBytes)
  {
    DecimalReadsBack(value);
    assert Pow10(0) == 1 && Digits("") == Some(0);
  }

  lemma WholeNumbered(value: nat)
    requires value <= U64_MAX
    ensures (forall c :: c in Decimal(value) ==> IsNumeric(c)) && Numbered(Decimal(value), 1) == Ok(value)
  {
    var number := Decimal(value);
    OverOne(value);
    ScaledUnits(value, Times(value, 1), Times(0, 1));
    assert '.' !in number;
    DotIn(number, "");
    assert number[..|number|] == number;
  }

  lemma WholeParsesAs(value: U64)
    requires forall c :: c in Decimal(value) ==> IsNumeric(c)
    ensures Parse(Decimal(value) + " B") == Numbered(Decimal(value), 1)
  {
    var number, text := Decimal(value), Decimal(value) + " B";
    assert number[0] in number && IsDigit(number[0]);
    DigitIsNoSpace(number[0]);
    assert text[0] == number[0] && text[|text| - 1] == 'B';
    NothingToTrim(text);
    NothingToTrim("B");
    NumberEnds(number, " B");
    assert text[..|number|] == number && text[|number|..] == " " + "B";
    UnitIsKnown(0);
    assert Lower("B") == UnitName(0);
    Powers();
    ParsesAs(text, number, "B", 1);
  }

  lemma WholeReadsBack(value: U64)
    requires value < 1024
    ensures Parse(Rendered(value)) == Ok(value)
  {
    SmallAreWhole(value);
    WholeNumbered(value);
    WholeParsesAs(value);
  }

  lemma DigitIsNoSpace(c: char)
    requires IsDigit(c)
    ensures !IsSpace(c)
  {
    assert '0' as int == 48 && '9' as int == 57;
  }

  lemma Split(whole: string, fraction: string, name: string, text: string)
    requires AllDigits(whole) && AllDigits(fraction) && whole != [] && name != []
    requires !IsSpace(name[0]) && !IsSpace(name[|name| - 1])
    requires text == whole + "." + fraction + " " + name
    ensures Trim(text) == text && NumberLength(text) == |whole + "." + fraction|
    ensures text[..NumberLength(text)] == whole + "." + fraction
    ensures Trim(text[NumberLength(text)..]) == name
  {
    var number := whole + "." + fraction;
    assert text == number + (" " + name);
    assert whole[0] in whole && IsDigit(whole[0]);
    DigitIsNoSpace(whole[0]);
    assert text[|text| - 1] == name[|name| - 1];
    assert text[0] == whole[0];
    assert !IsSpace(text[0]);
    NothingToTrim(text);
    NothingToTrim(name);
    NumberEnds(number, " " + name);
  }

  lemma ScaledTenths(whole: nat, tenth: nat, wholeBytes: nat, tenthBytes: nat, unit: nat)
    requires tenth < 10 && whole <= 0x4000 && wholeBytes < U128_LIMIT && tenthBytes < U128_LIMIT
    requires wholeBytes == Times(whole, unit) && tenthBytes == Times(tenth, unit)
    ensures AllDigits(Decimal(whole)) && AllDigits(Decimal(tenth))
    ensures Scaled(Decimal(whole), Decimal(tenth), unit) == Fitted(Over(tenthBytes, 10) + wholeBytes)
  {
    DecimalReadsBack(whole);
    DecimalReadsBack(tenth);
    assert |Decimal(tenth)| == 1;
    assert Pow10(1) == 10 * Pow10(0);
  }

  lemma TenthsOfSum(whole: nat, tenth: nat, tenths: nat, unit: nat)
    requires tenths == whole * 10 + tenth
    ensures Over(Times(tenth, unit), 10) + Times(whole, unit) == Over(Times(tenths, unit), 10)
  {
    Distributes(whole, tenth, unit);
    DivideSum(whole * unit, tenth * unit);
  }

  lemma Distributes(whole: nat, tenth: nat, unit: nat)
    ensures (whole * 10 + tenth) * unit == 10 * (whole * unit) + tenth * unit
  {}

  lemma DivideSum(tens: nat, rest: nat)
    ensures (10 * tens + rest) / 10 == rest / 10 + tens
  {}

  lemma Grows(a: nat, b: nat, d: nat)
    ensures a <= b ==> a * d <= b * d
  {
    if a <= b {
      assert b * d == a * d + (b - a) * d;
    }
  }

  lemma Cancels(a: nat, b: nat, d: nat)
    requires a * d < b * d
    ensures a < b
  {
    Grows(b, a, d);
  }

  lemma Bounded(n: nat, unit: nat)
    requires n <= 0x4000 && unit <= 0x4_0000_0000_0000
    ensures Times(n, unit) <= 0x4000 * 0x4_0000_0000_0000
  {
    Grows(n, 0x4000, unit);
  }

  lemma UnitNamesAreTrim(unit: nat)
    requires unit <= 5
    ensures NAMES[unit] != [] && !IsSpace(NAMES[unit][0]) && !IsSpace(NAMES[unit][|NAMES[unit]| - 1])
  {}

  lemma SplitsAtTheDot(whole: string, fraction: string)
    requires AllDigits(whole) && AllDigits(fraction)
    ensures var number, at := whole + "." + fraction, |whole|;
      && DotAt(number) == at && number[..at] == whole && at < |number| && number[at + 1..] == fraction
      && (forall c :: c in number ==> IsNumeric(c))
  {
    assert '.' !in whole;
    DotIn(whole, fraction);
  }

  lemma TenthsAreSmall(value: U64, unit: nat)
    requires unit == UnitOf(value) && unit > 0
    ensures Tenths(value, unit) / 10 <= 0x4000 && Pow1024(unit) <= 0x4_0000_0000_0000
  {
    Powers();
    UnitBounds(value);
  }

  /** The printed unit is the largest the value reaches. */
  lemma UnitBounds(value: nat)
    ensures var unit := UnitOf(value);
      && (unit > 0 ==> Pow1024(unit) <= value)
      && (unit < 5 ==> value < Pow1024(unit + 1))
  {
    Powers();
    assert UnitFrom(value, 5) == 5;
    assert UnitFrom(value, 4) == if value >= Pow1024(5) then 5 else 4;
    assert UnitFrom(value, 3) == if value >= Pow1024(4) then UnitFrom(value, 4) else 3;
    assert UnitFrom(value, 2) == if value >= Pow1024(3) then UnitFrom(value, 3) else 2;
    assert UnitFrom(value, 1) == if value >= Pow1024(2) then UnitFrom(value, 2) else 1;
    assert UnitFrom(value, 0) == if value >= Pow1024(1) then UnitFrom(value, 1) else 0;
  }

  lemma TenthsReadBack(tenths: nat, unit: nat)
    requires 0 < unit <= 5 && tenths / 10 <= 0x4000 && Pow1024(unit) <= PIB
    ensures Parse(Decimal(tenths / 10) + "." + Decimal(tenths % 10) + " " + NAMES[unit]) ==
      Fitted(Over(Times(tenths, Pow1024(unit)), 10))
  {
    NumberedReadsBack(tenths, Pow1024(unit));
    var number := Decimal(tenths / 10) + "." + Decimal(tenths % 10);
    UnitNamesAreTrim(unit);
    Split(Decimal(tenths / 10), Decimal(tenths % 10), NAMES[unit], number + " " + NAMES[unit]);
    UnitIsKnown(unit);
    ParsesAs(number + " " + NAMES[unit], number, NAMES[unit], Pow1024(unit));
  }

  lemma NumberedReadsBack(tenths: nat, divisor: nat)
    requires tenths / 10 <= 0x4000 && divisor <= PIB
    ensures var number := Decimal(tenths / 10) + "." + Decimal(tenths % 10);
      && (forall c :: c in number ==> IsNumeric(c))
      && Numbered(number, divisor) == Fitted(Over(Times(tenths, divisor), 10))
  {
    var whole, tenth := tenths / 10, tenths % 10;
    SplitsAtTheDot(Decimal(whole), Decimal(tenth));
    ScaledReadsBack(whole, tenth, tenths, divisor);
  }

  lemma ScaledReadsBack(whole: nat, tenth: nat, tenths: nat, divisor: nat)
    requires whole <= 0x4000 && tenth < 10 && tenths == whole * 10 + tenth && divisor <= PIB
    ensures AllDigits(Decimal(whole)) && AllDigits(Decimal(tenth))
    ensures Scaled(Decimal(whole), Decimal(tenth), divisor) == Fitted(Over(Times(tenths, divisor), 10))
  {
    var wholeBytes, tenthBytes, bytes := PartsFit(whole, tenth, tenths, divisor);
    ScaledTenths(whole, tenth, wholeBytes, tenthBytes, divisor);
  }

  lemma PartsFit(whole: nat, tenth: nat, tenths: nat, divisor: nat)
    returns (wholeBytes: nat, tenthBytes: nat, bytes: nat)
    requires whole <= 0x4000 && tenth < 10 && tenths == whole * 10 + tenth && divisor <= PIB
    ensures wholeBytes == Times(whole, divisor) && tenthBytes == Times(tenth, divisor)
    ensures wholeBytes < U128_LIMIT && tenthBytes < U128_LIMIT
    ensures bytes == Over(Times(tenths, divisor), 10) == Over(tenthBytes, 10) + wholeBytes
  {
    Bounded(whole, divisor);
    Bounded(tenth, divisor);
    TenthsOfSum(whole, tenth, tenths, divisor);
    wholeBytes, tenthBytes := Times(whole, divisor), Times(tenth, divisor);
    bytes := Over(tenthBytes, 10) + wholeBytes;
  }

  lemma ParsesAs(text: string, number: string, name: string, unit: nat)
    requires Trim(text) == text && NumberLength(text) == |number| && text[..|number|] == number
    requires Trim(text[|number|..]) == name && UnitBytes(Lower(name)) == Some(unit)
    requires forall c :: c in number ==> IsNumeric(c)
    ensures Parse(text) == Numbered(number, unit)
  {}

  /** What printing and reading back comes to, for every value. */
  lemma ReadsBackRounded(value: U64)
    ensures Parse(Rendered(value)) == Fitted(Rounded(value))
  {
    var unit := UnitOf(value);
    Powers();
    UnitBounds(value);
    if unit == 0 {
      WholeReadsBack(value);
    } else {
      TenthsAreSmall(value, unit);
      TenthsReadBack(Tenths(value, unit), unit);
    }
  }

  /** Rounding to tenths of a unit moves a value by less than a twentieth of the unit and one byte. */
  lemma RoundedIsClose(value: nat)
    ensures UnitOf(value) == 0 ==> Rounded(value) == value
    ensures 20 * Rounded(value) <= 20 * value + Pow1024(UnitOf(value))
    ensures 20 * value < 20 * Rounded(value) + Pow1024(UnitOf(value)) + 20
  {
    var unit := UnitOf(value);
    if unit > 0 {
      TenthsTimes(value, Pow1024(unit));
      Powers();
      assert Pow1024(unit) % 2 == 0;
    }
  }

  lemma TenthsTimes(value: nat, divisor: nat)
    requires divisor > 0
    ensures Nearest(value, divisor) * divisor <= value * 10 + divisor / 2
    ensures value * 10 + divisor / 2 < Nearest(value, divisor) * divisor + divisor
  {
    var n := value * 10 + divisor / 2;
    assert n == n / divisor * divisor + n % divisor;
  }

  /** A larger value is never read back as a smaller one. */
  lemma RoundedIsMonotone(a: nat, b: nat)
    requires a <= b
    ensures Rounded(a) <= Rounded(b)
  {
    var ua, ub := UnitOf(a), UnitOf(b);
    UnitBounds(a);
    UnitBounds(b);
    UnitIsMonotone(a, b);
    if ua == ub {
      if ua > 0 {
        TenthsAreMonotone(a, b, Pow1024(ua));
      }
    } else {
      StaysBelow(a);
      StaysAbove(b);
      PowersGrow(ua + 1, ub);
    }
  }

  lemma UnitIsMonotone(a: nat, b: nat)
    requires a <= b
    ensures UnitOf(a) <= UnitOf(b)
  {
    UnitBounds(a);
    UnitBounds(b);
    if UnitOf(b) < UnitOf(a) {
      PowersGrow(UnitOf(b) + 1, UnitOf(a));
    }
  }

  lemma {:induction false} PowersGrow(m: nat, n: nat)
    requires m <= n
    ensures Pow1024(m) <= Pow1024(n)
    decreases n
  {
    if m < n {
      PowersGrow(m, n - 1);
    }
  }

  lemma TenthsAreMonotone(a: nat, b: nat, divisor: nat)
    requires a <= b && divisor > 0
    ensures Nearest(a, divisor) * divisor / 10 <= Nearest(b, divisor) * divisor / 10
  {
    TenthsTimes(a, divisor);
    TenthsTimes(b, divisor);
    MonotoneParts(Nearest(a, divisor), Nearest(b, divisor), divisor, a * 10 + divisor / 2, b * 10 + divisor / 2);
  }

  lemma MonotoneParts(ta: nat, tb: nat, divisor: nat, a: nat, b: nat)
    requires divisor > 0 && a <= b && ta * divisor <= a && b < tb * divisor + divisor
    ensures ta * divisor / 10 <= tb * divisor / 10
  {
    NotMore(ta, tb, divisor, a, b);
    TenthsStay(ta * divisor, tb * divisor);
  }

  lemma TenthsStay(a: nat, b: nat)
    requires a <= b
    ensures a / 10 <= b / 10
  {}

  lemma NotMore(ta: nat, tb: nat, divisor: nat, a: nat, b: nat)
    requires divisor > 0 && a <= b && ta * divisor <= a && b < tb * divisor + divisor
    ensures ta * divisor <= tb * divisor
  {
    assert (tb + 1) * divisor == tb * divisor + divisor;
    Cancels(ta, tb + 1, divisor);
    Grows(ta, tb, divisor);
  }

  /** A value below the next unit is rounded to at most that unit. */
  lemma StaysBelow(value: nat)
    requires UnitOf(value) < 5
    ensures Rounded(value) <= Pow1024(UnitOf(value) + 1)
  {
    var unit := UnitOf(value);
    UnitBounds(value);
    if unit > 0 {
      var d := Pow1024(unit);
      TenthsTimes(value, d);
      Cancels(Tenths(value, unit), 10241, d);
      Grows(Tenths(value, unit), 10240, d);
    }
  }

  /** A value that reaches a unit is rounded to at least that unit. */
  lemma StaysAbove(value: nat)
    requires UnitOf(value) > 0
    ensures Rounded(value) >= Pow1024(UnitOf(value))
  {
    var d := Pow1024(UnitOf(value));
    UnitBounds(value);
    TenthsTimes(value, d);
    Cancels(9, Tenths(value, UnitOf(value)), d);
    Grows(10, Tenths(value, UnitOf(value)), d);
  }

  const PIB: nat := 0x4_0000_0000_0000

  /** Reading back fails exactly for the values within a twentieth of a pebibyte of 64 bits; those print as
    16384.0 PiB, which does not fit. */
  lemma RefusedExactlyAtTheTop(value: U64)
    ensures Rounded(value) > U64_MAX <==> 20 * (U64_MAX + 1 - value) <= PIB
  {
    Powers();
    UnitBounds(value);
    if UnitOf(value) < 5 {
      StaysBelow(value);
      PowersGrow(UnitOf(value) + 1, 5);
    } else {
      TopTenths(value, Tenths(value, 5));
    }
  }

  lemma RefusedPrintsAsTooMuch(value: U64)
    requires Rounded(value) > U64_MAX
    ensures Rendered(value) == "16384.0 PiB"
  {
    TopIsFull(value);
    Digits16384();
  }

  lemma TopIsFull(value: U64)
    requires Rounded(value) > U64_MAX
    ensures UnitOf(value) == 5 && Tenths(value, 5) == 163840
  {
    Powers();
    UnitBounds(value);
    TopTenths(value, (value * 10 + PIB / 2) / PIB);
    FitsBelowTheTop(value);
  }

  lemma FitsBelowTheTop(value: nat)
    ensures UnitOf(value) < 5 ==> Rounded(value) <= U64_MAX
  {
    if UnitOf(value) < 5 {
      Powers();
      StaysBelow(value);
      PowersGrow(UnitOf(value) + 1, 5);
    }
  }

  lemma TopTenths(value: U64, tenths: nat)
    requires tenths == (value * 10 + PIB / 2) / PIB
    ensures tenths <= 163840
    ensures tenths * PIB / 10 > U64_MAX <==> tenths == 163840
    ensures tenths == 163840 <==> 20 * (U64_MAX + 1 - value) <= PIB
  {}

  lemma Digits16384()
    ensures Decimal(16384) == "16384" && Decimal(0) == "0"
  {
    assert Decimal(1) == "1";
    assert Decimal(16) == "16";
    assert Decimal(163) == "163";
    assert Decimal(1638) == "1638";
  }

  lemma SmallAreWhole(value: nat)
    requires value < 1024
    ensures UnitOf(value) == 0
  {
    Powers();
    assert UnitFrom(value, 0) == 0;
  }

  /** Reading back a printed size gives a size close to it, the same size below 1024, and sizes in order; it
    is refused only at the very top. */
  lemma PrintedSizesReadBack(a: U64, b: U64)
    requires a <= b && 20 * (U64_MAX + 1 - b) > PIB
    ensures Parse(Rendered(a)) == Ok(Rounded(a)) && Parse(Rendered(b)) == Ok(Rounded(b))
    ensures Rounded(a) <= Rounded(b)
    ensures 20 * Rounded(a) < 20 * a + Pow1024(UnitOf(a)) + 20 && 20 * a < 20 * Rounded(a) + Pow1024(UnitOf(a)) + 20
    ensures a < 1024 ==> Rounded(a) == a
  {
    RefusedExactlyAtTheTop(a);
    RefusedExactlyAtTheTop(b);
    ReadsBackRounded(a);
    ReadsBackRounded(b);
    RoundedIsMonotone(a, b);
    RoundedIsClose(a);
    if a < 1024 {
      SmallAreWhole(a);
    }
  }

  // ---------- what any text is read as ----------

  const PREFIXES := "kmgtp"

  /** A unit's letter alone or with "ib" stands for a power of 1024, with "b" for a power of 1000; no letter
    stands for bytes. */
  ghost predicate IsUnit(name: string, unit: nat) {
    || (name == "" && unit == 1)
    || (name == "b" && unit == 1)
    || exists i :: IsPrefixed(name, unit, i)
  }

  predicate IsPrefixed(name: string, unit: nat, i: int) {
    && 1 <= i <= 5
    && var letter := [PREFIXES[i - 1]];
       || (name == letter && unit == Pow1024(i))
       || (name == letter + "ib" && unit == Pow1024(i))
       || (name == letter + "b" && unit == Pow10(3 * i))
  }

  lemma UnitPowers(i: nat)
    requires 1 <= i <= 5
    ensures Pow1024(i) == [0x400, 0x10_0000, 0x4000_0000, 0x100_0000_0000, 0x4_0000_0000_0000][i - 1]
    ensures Pow10(3 * i) == [1_000, 1_000_000, 1_000_000_000, 1_000_000_000_000, 1_000_000_000_000_000][i - 1]
  {
    Powers();
    assert Pow10(3) == 1_000;
    ThreeMore(3);
    ThreeMore(6);
    ThreeMore(9);
    ThreeMore(12);
  }

  lemma ThreeMore(n: nat)
    ensures Pow10(n + 3) == 1_000 * Pow10(n)
  {
    assert Pow10(n + 3) == 10 * Pow10(n + 2) && Pow10(n + 2) == 10 * Pow10(n + 1);
  }

  lemma PrefixedUnits(name: string, unit: nat, i: nat)
    requires IsPrefixed(name, unit, i)
    ensures UnitBytes(name) == Some(unit)
  {
    UnitPowers(i);
    assert name == [PREFIXES[i - 1]] ==> name == ["k", "m", "g", "t", "p"][i - 1];
    assert name == [PREFIXES[i - 1]] + "ib" ==> name == ["kib", "mib", "gib", "tib", "pib"][i - 1];
    assert name == [PREFIXES[i - 1]] + "b" ==> name == ["kb", "mb", "gb", "tb", "pb"][i - 1];
  }

  /** The units are these and no others. */
  lemma UnitsAreThese(name: string, unit: nat)
    ensures UnitBytes(name) == Some(unit) <==> IsUnit(name, unit)
  {
    if i :| IsPrefixed(name, unit, i) {
      PrefixedUnits(name, unit, i);
    }
    if UnitBytes(name) == Some(unit) && name != "" && name != "b" {
      PrefixOf(name, unit);
    }
  }

  lemma PrefixOf(name: string, unit: nat)
    requires UnitBytes(name) == Some(unit) && name != "" && name != "b"
    ensures exists i :: IsPrefixed(name, unit, i)
  {
    var i := if name[0] == 'k' then 1 else if name[0] == 'm' then 2 else if name[0] == 'g' then 3
             else if name[0] == 't' then 4 else 5;
    UnitPowers(i);
    assert IsPrefixed(name, unit, i);
  }

  predicate AllSpace(text: string) {
    forall c :: c in text ==> IsSpace(c)
  }

  /** A text taken apart: a number, a unit's name, and white space around them. */
  predicate Composed(input: string, left: string, number: string, middle: string, suffix: string, right: string) {
    && input == left + number + middle + suffix + right
    && AllSpace(left) && AllSpace(middle) && AllSpace(right)
    && (forall c :: c in number ==> IsNumeric(c))
    && (suffix != [] ==> !IsSpace(suffix[0]) && !IsSpace(suffix[|suffix| - 1]))
    && (suffix != [] && middle == [] ==> !IsNumeric(suffix[0]))
    && (number == [] || suffix == [] ==> middle == [])
  }

  lemma {:induction false} TrimsStart(left: string, rest: string)
    requires AllSpace(left) && (rest == [] || !IsSpace(rest[0]))
    ensures TrimStart(left + rest) == rest
  {
    if left == [] {
      assert left + rest == rest;
    } else {
      assert left[0] in left && (left + rest)[1..] == left[1..] + rest;
      TrimsStart(left[1..], rest);
    }
  }

  lemma {:induction false} TrimsEnd(rest: string, right: string)
    requires AllSpace(right) && (rest == [] || !IsSpace(rest[|rest| - 1]))
    ensures TrimEnd(rest + right) == rest
    decreases |right|
  {
    if right == [] {
      assert rest + right == rest;
    } else {
      var last := |right| - 1;
      assert right[last] in right && (rest + right)[..|rest + right| - 1] == rest + right[..last];
      TrimsEnd(rest, right[..last]);
    }
  }

  lemma Trims(left: string, rest: string, right: string)
    requires AllSpace(left) && AllSpace(right)
    requires rest != [] ==> !IsSpace(rest[0]) && !IsSpace(rest[|rest| - 1])
    ensures Trim(left + rest + right) == rest
  {
    assert left + rest + right == left + (rest + right);
    if rest == [] {
      assert left + (rest + right) == (left + right) + [];
      TrimsStart(left + right, []);
    } else {
      TrimsStart(left, rest + right);
      TrimsEnd(rest, right);
    }
  }

  lemma NumericIsNoSpace(c: char)
    requires IsNumeric(c)
    ensures !IsSpace(c)
  {
    assert '0' as int == 48 && '9' as int == 57 && '.' as int == 46;
  }

  /** The pieces of a text are what reading it splits it into. */
  lemma Takes(input: string, left: string, number: string, middle: string, suffix: string, right: string)
    requires Composed(input, left, number, middle, suffix, right)
    ensures var text := Trim(input);
      text == number + middle + suffix && NumberLength(text) == |number|
      && text[..|number|] == number && Trim(text[|number|..]) == suffix
  {
    var text := number + middle + suffix;
    assert input == left + text + right;
    assert text != [] ==> !IsSpace(text[0]) && !IsSpace(text[|text| - 1]) by {
      if number != [] {
        NumericIsNoSpace(number[0]);
        NumericIsNoSpace(number[|number| - 1]);
      }
    }
    Trims(left, text, right);
    assert text == number + (middle + suffix);
    if middle != [] && IsNumeric(middle[0]) {
      NumericIsNoSpace(middle[0]);
    }
    NumberEnds(number, middle + suffix);
    assert middle + suffix == middle + suffix + [];
    Trims(middle, suffix, []);
  }

  /** Every text can be taken apart so. */
  lemma EveryTextIsComposed(input: string)
    ensures exists left, number, middle, suffix, right :: Composed(input, left, number, middle, suffix, right)
  {
    var left, rest := LeftTrimmed(input);
    var core, right := RightTrimmed(rest);
    var number, middle, suffix := CoreIsComposed(core);
    assert input == left + number + middle + suffix + right;
    assert Composed(input, left, number, middle, suffix, right);
  }

  lemma CoreIsComposed(core: string) returns (number: string, middle: string, suffix: string)
    requires core != [] ==> !IsSpace(core[0]) && !IsSpace(core[|core| - 1])
    ensures core == number + middle + suffix && AllSpace(middle)
    ensures forall c :: c in number ==> IsNumeric(c)
    ensures suffix != [] ==> !IsSpace(suffix[0]) && !IsSpace(suffix[|suffix| - 1])
    ensures suffix != [] && middle == [] ==> !IsNumeric(suffix[0])
    ensures number == [] || suffix == [] ==> middle == []
  {
    number := core[..NumberLength(core)];
    NumberIsDigitsAndPoints(core);
    TailIsNoNumber(core);
    middle, suffix := LeftTrimmed(core[NumberLength(core)..]);
    if suffix == [] {
      TrailingSpace(core, number, middle);
    }
  }

  predicate Parts(number: string, whole: string, fraction: string) {
    AllDigits(whole) && ((number == whole && fraction == []) || number == whole + "." + fraction)
  }

  /** And every number into what stands before its first point and what stands behind it. */
  lemma EveryNumberSplits(number: string)
    requires forall c :: c in number ==> IsNumeric(c)
    ensures exists whole, fraction :: Parts(number, whole, fraction)
  {
    var at := DotAt(number);
    assert forall c :: c in number[..at] ==> c in number && IsNumeric(c) && c != '.';
    assert AllDigits(number[..at]);
    if at < |number| {
      assert Parts(number, number[..at], number[at + 1..]);
    } else {
      assert Parts(number, number[..at], []);
    }
  }

  lemma TrailingSpace(core: string, number: string, middle: string)
    requires core == number + middle && AllSpace(middle)
    ensures middle != [] ==> core != [] && IsSpace(core[|core| - 1])
  {
    if middle != [] {
      assert core[|core| - 1] == middle[|middle| - 1] && middle[|middle| - 1] in middle;
    }
  }

  lemma {:induction false} TailIsNoNumber(text: string)
    ensures NumberLength(text) < |text| ==> !IsNumeric(text[NumberLength(text)])
  {
    if text != [] && IsNumeric(text[0]) {
      TailIsNoNumber(text[1..]);
    }
  }

  lemma {:induction false} LeftTrimmed(text: string) returns (left: string, rest: string)
    ensures text == left + rest && AllSpace(left) && (rest == [] || !IsSpace(rest[0]))
    ensures text == [] || !IsSpace(text[0]) ==> left == []
    ensures rest == [] || rest[|rest| - 1] == text[|text| - 1]
  {
    if text != [] && IsSpace(text[0]) {
      left, rest := LeftTrimmed(text[1..]);
      left := [text[0]] + left;
    } else {
      left, rest := [], text;
    }
  }

  lemma {:induction false} RightTrimmed(text: string) returns (rest: string, right: string)
    requires text == [] || !IsSpace(text[0])
    ensures text == rest + right && AllSpace(right) && (rest == [] || !IsSpace(rest[|rest| - 1]))
    ensures rest == [] ==> text == []
    ensures rest == [] || rest[0] == text[0]
  {
    if text != [] && IsSpace(text[|text| - 1]) {
      rest, right := RightTrimmed(text[..|text| - 1]);
      right := right + [text[|text| - 1]];
    } else {
      rest, right := text, [];
    }
  }

  /** The number that decimal digits stand for. */
  function Value(digits: string): nat
    requires AllDigits(digits)
  {
    if digits == [] then 0
    else
      assert digits[|digits| - 1] in digits;
      Value(digits[..|digits| - 1]) * 10 + (digits[|digits| - 1] as int - '0' as int)
  }

  lemma {:induction false} DigitsMean(digits: string)
    requires AllDigits(digits)
    ensures Digits(digits) == if Value(digits) < U128_LIMIT then Some(Value(digits)) else None
  {
    if digits != [] {
      assert digits[|digits| - 1] in digits;
      DigitsMean(digits[..|digits| - 1]);
    }
  }

  lemma AtLeast(value: nat, unit: nat)
    requires unit > 0
    ensures Times(value, unit) >= value
  {
    Grows(1, unit, value);
  }

  /** The bytes of a whole part and a fraction, if nothing on the way is too large. */
  function Exact(whole: nat, fraction: nat, places: nat, unit: nat): nat {
    Times(whole, unit) + Over(Times(fraction, unit), Pow10(places))
  }

  lemma ScaledMeans(whole: string, fraction: string, unit: nat)
    requires AllDigits(whole) && AllDigits(fraction) && unit > 0
    ensures var exact := Exact(Value(whole), Value(fraction), |fraction|, unit);
      Scaled(whole, fraction, unit) ==
        if Pow10(|fraction|) < U128_LIMIT && Times(Value(fraction), unit) < U128_LIMIT && exact <= U64_MAX then Ok(exact) else Err(Overflow)
  {
    DigitsMean(whole);
    DigitsMean(fraction);
    AtLeast(Value(whole), unit);
    AtLeast(Value(fraction), unit);
  }

  /** The unit's name in lower case. */
  predicate Names(suffix: string, name: string) {
    && |suffix| == |name|
    && forall i :: 0 <= i < |name| ==>
         || (suffix[i] == name[i] && !('A' <= name[i] <= 'Z'))
         || ('A' <= suffix[i] <= 'Z' && name[i] as int - 'a' as int == suffix[i] as int - 'A' as int)
  }

  /** What a text is read as, for every text.  The unit is looked at first, then the points, then whether there
    is a digit.  A number then stands for its bytes rounded down, and is refused exactly if these do not fit
    in 64 bits or the fraction has so many digits that it does not fit in 128. */
  lemma ParseMeans(input: string, left: string, number: string, middle: string, suffix: string, right: string,
                   whole: string, fraction: string, name: string, unit: nat)
    requires Composed(input, left, number, middle, suffix, right) && Names(suffix, name)
    requires Parts(number, whole, fraction)
    ensures (forall any: nat :: !IsUnit(name, any)) ==> Parse(input) == Err(Suffix)
    ensures IsUnit(name, unit) && '.' in fraction ==> Parse(input) == Err(Malformed)
    ensures IsUnit(name, unit) && whole == [] && fraction == [] ==> Parse(input) == Err(NoNumber)
    ensures IsUnit(name, unit) && '.' !in fraction && (whole != [] || fraction != []) ==>
      AllDigits(fraction) &&
      var exact := Exact(Value(whole), Value(fraction), |fraction|, unit);
      Parse(input) ==
        if Pow10(|fraction|) < U128_LIMIT && Times(Value(fraction), unit) < U128_LIMIT && exact <= U64_MAX
        then Ok(exact) else Err(Overflow)
  {
    Takes(input, left, number, middle, suffix, right);
    assert Lower(suffix) == name;
    forall any: nat ensures UnitBytes(name) == Some(any) <==> IsUnit(name, any) {
      UnitsAreThese(name, any);
    }
    forall c | c in fraction && c != '.' ensures IsDigit(c) { assert c in number; }
    if IsUnit(name, unit) {
      UnitIsPositive(name, unit);
      NumberedMeans(number, whole, fraction, unit);
      if '.' !in fraction {
        ScaledMeans(whole, fraction, unit);
      }
    }
  }

  /** More than 38 places are refused as too large, however small the number. */
  lemma ManyPlacesAreRefused(input: string, left: string, whole: string, fraction: string, middle: string,
                             suffix: string, right: string, name: string, unit: nat)
    requires Composed(input, left, whole + "." + fraction, middle, suffix, right) && Names(suffix, name)
    requires AllDigits(whole) && '.' !in fraction && |fraction| > 38 && IsUnit(name, unit)
    ensures Parse(input) == Err(Overflow)
  {
    ParseMeans(input, left, whole + "." + fraction, middle, suffix, right, whole, fraction, name, unit);
    TenToThe39();
    Pow10Grows(39, |fraction|);
  }

  lemma TenToThe39()
    ensures Pow10(39) >= U128_LIMIT
  {
    assert Pow10(3) == 1_000;
    ThreeMore(3);
    ThreeMore(6);
    ThreeMore(9);
    ThreeMore(12);
    ThreeMore(15);
    ThreeMore(18);
    ThreeMore(21);
    ThreeMore(24);
    ThreeMore(27);
    ThreeMore(30);
    ThreeMore(33);
    ThreeMore(36);
  }

  lemma {:induction false} Pow10Grows(m: nat, n: nat)
    requires m <= n
    ensures Pow10(m) <= Pow10(n)
  {
    if m < n {
      Pow10Grows(m, n - 1);
    }
  }

  lemma UnitIsPositive(name: string, unit: nat)
    requires IsUnit(name, unit)
    ensures unit > 0
  {}

  lemma NumberedMeans(number: string, whole: string, fraction: string, unit: nat)
    requires forall c :: c in number ==> IsNumeric(c)
    requires Parts(number, whole, fraction)
    ensures Numbered(number, unit) ==
      if '.' in fraction then Err(Malformed)
      else if whole == [] && fraction == [] then Err(NoNumber)
      else ScaledOr(whole, fraction, unit)
  {
    assert '.' !in whole;
    DotIn(whole, fraction);
    if number == whole {
      assert number[..|whole|] == whole;
    } else {
      assert number[..|whole|] == whole && number[|whole| + 1..] == fraction;
      forall c | c in fraction && c != '.' ensures IsDigit(c) { assert c in number; }
    }
  }

  function ScaledOr(whole: string, fraction: string, unit: nat): Read {
    if AllDigits(whole) && AllDigits(fraction) then Scaled(whole, fraction, unit) else Err(Malformed)
  }
}
