/**
 * The chat widget's reading of a free-text quantity answer: the first match of
 * `/(\d+(?:[.,]\d+)?)\s*(kg|kilo|tonnes?|t)?/i` in the lower-cased answer, with
 * `,` read as the decimal point and a unit starting with `t` meaning tonnes.
 */
module SurplusQuantity {
  import opened Wrappers
  import opened Strings

  predicate IsSeparator(c: char) {
    c == '.' || c == ','
  }

  /** The answer from its first ASCII digit on (the unanchored regex starts its match there). */
  function DropNonDigits(s: string): (r: string)
    ensures |r| <= |s|
    ensures forall i | 0 <= i < |r| :: r[i] == s[|s| - |r| + i]
    ensures forall i | 0 <= i < |s| - |r| :: !IsDigit(s[i])
    ensures |r| == 0 || IsDigit(s[|s| - |r|])
  {
    if s != [] && !IsDigit(s[0]) then DropNonDigits(s[1..]) else s
  }

  /** The digits of the optional `[.,]\d+` group at the head of `s`; empty when the group does not match. */
  function FractionDigits(s: string): (f: string)
    ensures AllDigits(f)
    ensures f != [] ==> 1 + |f| <= |s| && IsSeparator(s[0]) && forall i | 0 <= i < |f| :: f[i] == s[1 + i]
    ensures f != [] ==> 1 + |f| == |s| || !IsDigit(s[1 + |f|])
    ensures f == [] <==> !(|s| >= 2 && IsSeparator(s[0]) && IsDigit(s[1]))
  {
    if |s| >= 2 && IsSeparator(s[0]) && IsDigit(s[1]) then DigitPrefix(s[1..]) else []
  }

  /** `parseFloat` of `whole.fraction`, exactly. */
  function Magnitude(whole: string, fraction: string): (m: real)
    requires AllDigits(whole) && AllDigits(fraction)
    ensures m >= 0.0
  {
    var f := DigitsValue(fraction) as real / Pow10(|fraction|) as real;
    assert f >= 0.0;
    DigitsValue(whole) as real + f
  }

  /** With no fraction, the magnitude is the whole part's value. */
  lemma MagnitudeOfWhole(whole: string)
    requires AllDigits(whole)
    ensures Magnitude(whole, []) == DigitsValue(whole) as real
  {
    assert DigitsValue([]) == 0 && Pow10(0) == 1;
  }

  /** The number in kilograms: times 1000 when the unit group matched a word starting with `t`. */
  function InKilograms(afterBlanks: string, m: real): (kg: real)
    ensures m >= 0.0 ==> kg >= 0.0
  {
    if afterBlanks != [] && afterBlanks[0] == 't' then 1000.0 * m else m
  }

  /** The quantity in kilograms read from an already lower-cased answer; None when the regex finds no match. */
  function ReadQuantity(s: string): Option<real> {
    var t := DropNonDigits(s);
    if t == [] then None else Some(ReadNumber(t))
  }

  /** The match read from its first digit on: the whole part is the longest run of digits. */
  function ReadNumber(t: string): real {
    var whole := DigitPrefix(t);
    ReadFraction(whole, t[|whole|..])
  }

  /** What follows the whole part: an optional fraction, blanks, and an optional unit. */
  function ReadFraction(whole: string, afterWhole: string): real
    requires AllDigits(whole)
  {
    var fraction := FractionDigits(afterWhole);
    var rest := if fraction == [] then afterWhole else afterWhole[1 + |fraction|..];
    InKilograms(TrimStart(rest), Magnitude(whole, fraction))
  }

  /**
   * The quantity step's parse of the user's answer. It fails exactly when the
   * answer holds no ASCII digit, and a quantity it reads is never negative.
   */
  function ParseQuantity(answer: string): (r: Option<real>)
    ensures r.None? <==> forall i | 0 <= i < |answer| :: !IsDigit(answer[i])
    ensures r.Some? ==> r.value >= 0.0
  {
    var s := ToLower(answer);
    assert forall i | 0 <= i < |answer| :: IsDigit(s[i]) <==> IsDigit(answer[i]);
    ReadQuantity(s)
  }

  // ---------------------------------------------------------------------------
  // Reading a quantity made of known parts
  // ---------------------------------------------------------------------------

  lemma {:induction false} DropNonDigitsOf(before: string, rest: string)
    requires forall i | 0 <= i < |before| :: !IsDigit(before[i])
    requires rest == [] || IsDigit(rest[0])
    ensures DropNonDigits(before + rest) == rest
    decreases |before|
  {
    if before != [] {
      assert (before + rest)[1..] == before[1..] + rest;
      DropNonDigitsOf(before[1..], rest);
    }
  }

  /** The number `m` in kilograms when `unit` is written after it: times 1000 when it starts with `t` or `T`. */
  function WrittenInKilograms(unit: string, m: real): real {
    if unit != [] && ToLowerChar(unit[0]) == 't' then 1000.0 * m else m
  }

  /** Lowering the answer `before + number + blanks + unit` only touches `before` and `unit`. */
  lemma LowerParts(before: string, number: string, blanks: string, unit: string)
    requires forall i | 0 <= i < |number| :: IsDigit(number[i]) || IsSeparator(number[i])
    requires forall i | 0 <= i < |blanks| :: IsSpace(blanks[i])
    ensures ToLower(before + number + blanks + unit) == ToLower(before) + number + blanks + ToLower(unit)
  {
    ToLowerAppend(before + number + blanks, unit);
    ToLowerAppend(before + number, blanks);
    ToLowerAppend(before, number);
    ToLowerFixes(number);
    ToLowerFixes(blanks);
  }

  /** Lowering a unit word does not change whether it counts in tonnes. */
  lemma LowerUnit(unit: string, m: real)
    ensures InKilograms(ToLower(unit), m) == WrittenInKilograms(unit, m)
    ensures unit == [] || !IsSpace(unit[0]) ==> ToLower(unit) == [] || !IsSpace(ToLower(unit)[0])
    ensures unit != [] ==> (IsDigit(ToLower(unit)[0]) <==> IsDigit(unit[0]))
    ensures unit != [] ==> (IsSeparator(ToLower(unit)[0]) <==> IsSeparator(unit[0]))
  {
    if unit != [] {
      ToLowerCharKeeps(unit[0]);
    }
  }

  /** The answer from its first digit on, when the number there is `digits` and what follows is `afterWhole`. */
  lemma ReadAnswer(before: string, digits: string, afterWhole: string)
    requires forall i | 0 <= i < |before| :: !IsDigit(before[i])
    requires digits != [] && AllDigits(digits)
    requires afterWhole == [] || !IsDigit(afterWhole[0])
    ensures ReadQuantity(before + digits + afterWhole) == Some(ReadFraction(digits, afterWhole))
  {
    assert before + digits + afterWhole == before + (digits + afterWhole);
    DropNonDigitsOf(before, digits + afterWhole);
    DigitPrefixOf(digits, afterWhole);
    assert (digits + afterWhole)[|digits|..] == afterWhole;
  }

  /** No fraction: blanks and then the unit word. */
  lemma ReadNoFraction(digits: string, blanks: string, unit: string)
    requires AllDigits(digits)
    requires forall i | 0 <= i < |blanks| :: IsSpace(blanks[i])
    requires unit == [] || !IsSpace(unit[0])
    requires blanks == [] && unit != [] ==> !IsSeparator(unit[0])
    ensures ReadFraction(digits, blanks + unit) == InKilograms(unit, DigitsValue(digits) as real)
  {
    NoFractionAfter(blanks, unit);
    MagnitudeOfWhole(digits);
    TrimStartOf(blanks, unit);
  }

  /** Blanks, or a word that does not start with a separator, hold no decimal part. */
  lemma NoFractionAfter(blanks: string, unit: string)
    requires forall i | 0 <= i < |blanks| :: IsSpace(blanks[i])
    requires blanks == [] && unit != [] ==> !IsSeparator(unit[0])
    ensures FractionDigits(blanks + unit) == []
  {
    if blanks != [] {
      assert (blanks + unit)[0] == blanks[0];
    } else {
      assert blanks + unit == unit;
    }
  }

  /** A fraction after the separator, then blanks and the unit word. */
  lemma ReadWithFraction(digits: string, sep: char, fraction: string, blanks: string, unit: string)
    requires AllDigits(digits)
    requires IsSeparator(sep) && fraction != [] && AllDigits(fraction)
    requires forall i | 0 <= i < |blanks| :: IsSpace(blanks[i])
    requires unit == [] || !IsSpace(unit[0])
    requires blanks == [] && unit != [] ==> !IsDigit(unit[0])
    ensures ReadFraction(digits, [sep] + fraction + (blanks + unit)) == InKilograms(unit, Magnitude(digits, fraction))
  {
    var tail := blanks + unit;
    var afterWhole := [sep] + fraction + tail;
    assert afterWhole[1..] == fraction + tail;
    DigitPrefixOf(fraction, tail);
    assert FractionDigits(afterWhole) == fraction;
    assert afterWhole[1 + |fraction|..] == tail;
    TrimStartOf(blanks, unit);
  }

  /**
   * An answer whose first number is an integer: its value, multiplied by 1000
   * when the word after the blanks starts with `t` ("2 tonnes", "3t", "5 tuiles").
   */
  lemma WholeQuantity(before: string, digits: string, blanks: string, unit: string)
    requires forall i | 0 <= i < |before| :: !IsDigit(before[i])
    requires digits != [] && AllDigits(digits)
    requires forall i | 0 <= i < |blanks| :: IsSpace(blanks[i])
    requires unit == [] || !IsSpace(unit[0])
    requires blanks == [] && unit != [] ==> !IsDigit(unit[0]) && !IsSeparator(unit[0])
    ensures ParseQuantity(before + digits + blanks + unit)
         == Some(WrittenInKilograms(unit, DigitsValue(digits) as real))
  {
    LowerParts(before, digits, blanks, unit);
    var lb, lu := ToLower(before), ToLower(unit);
    LowerUnit(unit, DigitsValue(digits) as real);
    assert lb + digits + blanks + lu == lb + digits + (blanks + lu);
    ReadAnswer(lb, digits, blanks + lu);
    ReadNoFraction(digits, blanks, lu);
  }

  /**
   * An answer whose first number has a decimal part after `.` or `,`: the
   * exact decimal value, multiplied by 1000 for a unit starting with `t`.
   */
  lemma DecimalQuantity(before: string, digits: string, sep: char, fraction: string, blanks: string, unit: string)
    requires forall i | 0 <= i < |before| :: !IsDigit(before[i])
    requires digits != [] && AllDigits(digits)
    requires IsSeparator(sep)
    requires fraction != [] && AllDigits(fraction)
    requires forall i | 0 <= i < |blanks| :: IsSpace(blanks[i])
    requires unit == [] || !IsSpace(unit[0])
    requires blanks == [] && unit != [] ==> !IsDigit(unit[0])
    ensures ParseQuantity(before + digits + [sep] + fraction + blanks + unit)
         == Some(WrittenInKilograms(unit, Magnitude(digits, fraction)))
  {
    var number := digits + [sep] + fraction;
    DecimalNumberChars(digits, sep, fraction);
    Regroup(before, digits, [sep], fraction, blanks, unit);
    LowerParts(before, number, blanks, unit);
    var lb, lu := ToLower(before), ToLower(unit);
    LowerUnit(unit, Magnitude(digits, fraction));
    Regroup(lb, digits, [sep], fraction, blanks, lu);
    ReadAnswer(lb, digits, [sep] + fraction + (blanks + lu));
    ReadWithFraction(digits, sep, fraction, blanks, lu);
  }

  /**
   * A separator right after the whole part that no digit follows ("5.kg", "5,t",
   * "12."): the fraction group does not match, the unit group fails at the
   * separator, so the answer reads as the whole part in kilograms.
   */
  lemma BareSeparatorQuantity(before: string, digits: string, sep: char, rest: string)
    requires forall i | 0 <= i < |before| :: !IsDigit(before[i])
    requires digits != [] && AllDigits(digits)
    requires IsSeparator(sep)
    requires rest == [] || !IsDigit(rest[0])
    ensures ParseQuantity(before + digits + [sep] + rest) == Some(DigitsValue(digits) as real)
  {
    var number := digits + [sep];
    assert forall i | 0 <= i < |number| :: IsDigit(number[i]) || IsSeparator(number[i]);
    assert before + digits + [sep] + rest == before + number + [] + rest;
    LowerParts(before, number, [], rest);
    var lb, lr := ToLower(before), ToLower(rest);
    LowerUnit(rest, 0.0);
    assert lb + number + [] + lr == lb + digits + ([sep] + lr);
    ReadAnswer(lb, digits, [sep] + lr);
    ReadBareSeparator(digits, sep, lr);
  }

  /** After the whole part, a separator with no digit behind it adds nothing and names no unit. */
  lemma ReadBareSeparator(digits: string, sep: char, rest: string)
    requires AllDigits(digits)
    requires IsSeparator(sep)
    requires rest == [] || !IsDigit(rest[0])
    ensures ReadFraction(digits, [sep] + rest) == DigitsValue(digits) as real
  {
    var afterWhole := [sep] + rest;
    assert FractionDigits(afterWhole) == [];
    TrimStartOf([], afterWhole);
    assert [] + afterWhole == afterWhole;
    MagnitudeOfWhole(digits);
  }

  lemma Regroup<T>(a: seq<T>, b: seq<T>, c: seq<T>, d: seq<T>, e: seq<T>, f: seq<T>)
    ensures a + b + c + d + e + f == a + (b + c + d) + e + f
    ensures a + (b + c + d) + e + f == a + b + (c + d + (e + f))
  {
  }

  lemma DecimalNumberChars(digits: string, sep: char, fraction: string)
    requires AllDigits(digits) && IsSeparator(sep) && AllDigits(fraction)
    ensures forall i | 0 <= i < |digits + [sep] + fraction| ::
      IsDigit((digits + [sep] + fraction)[i]) || IsSeparator((digits + [sep] + fraction)[i])
  {
    var number := digits + [sep] + fraction;
    forall i | 0 <= i < |number|
      ensures IsDigit(number[i]) || IsSeparator(number[i])
    {
      if i < |digits| {
        assert number[i] == digits[i];
      } else if i > |digits| {
        assert number[i] == fraction[i - |digits| - 1];
      }
    }
  }


  // ---------------------------------------------------------------------------
  // `,` and `.` are the same decimal point
  // ---------------------------------------------------------------------------

  function AsPoint(c: char): char {
    if c == ',' then '.' else c
  }

  /** The string with every `,` written as `.`. */
  function CommasAsPoints(s: string): (r: string)
    ensures |r| == |s|
  {
    if s == [] then [] else [AsPoint(s[0])] + CommasAsPoints(s[1..])
  }

  lemma {:induction false} CommasAsPointsAt(s: string, i: nat)
    requires i < |s|
    ensures CommasAsPoints(s)[i] == AsPoint(s[i])
    decreases i
  {
    if i > 0 {
      CommasAsPointsAt(s[1..], i - 1);
    }
  }

  lemma {:induction false} CommasAsPointsFrom(s: string, k: nat)
    requires k <= |s|
    ensures CommasAsPoints(s)[k..] == CommasAsPoints(s[k..])
    decreases k
  {
    if k > 0 {
      CommasAsPointsFrom(s[1..], k - 1);
      assert s[1..][k - 1..] == s[k..];
    }
  }

  lemma {:induction false} DropNonDigitsCommas(s: string)
    ensures DropNonDigits(CommasAsPoints(s)) == CommasAsPoints(DropNonDigits(s))
    decreases |s|
  {
    if s != [] {
      var p := CommasAsPoints(s);
      assert p[0] == AsPoint(s[0]) && p[1..] == CommasAsPoints(s[1..]);
      if !IsDigit(s[0]) {
        DropNonDigitsCommas(s[1..]);
      }
    }
  }

  lemma {:induction false} LeadingBlanksCommas(s: string)
    ensures LeadingBlanks(CommasAsPoints(s)) == LeadingBlanks(s)
    decreases |s|
  {
    if s != [] {
      var p := CommasAsPoints(s);
      assert p[0] == AsPoint(s[0]) && p[1..] == CommasAsPoints(s[1..]);
      if IsSpace(s[0]) {
        LeadingBlanksCommas(s[1..]);
      }
    }
  }

  lemma TrimStartCommas(s: string)
    ensures TrimStart(CommasAsPoints(s)) == CommasAsPoints(TrimStart(s))
  {
    LeadingBlanksCommas(s);
    CommasAsPointsFrom(s, LeadingBlanks(s));
  }

  lemma {:induction false} DigitPrefixCommas(s: string)
    ensures DigitPrefix(CommasAsPoints(s)) == DigitPrefix(s)
    decreases |s|
  {
    if s != [] {
      var p := CommasAsPoints(s);
      assert p[0] == AsPoint(s[0]) && p[1..] == CommasAsPoints(s[1..]);
      if IsDigit(s[0]) {
        DigitPrefixCommas(s[1..]);
      }
    }
  }

  /** Strings that differ only in their choice of decimal points agree once commas are points. */
  lemma {:induction false} CommasAsPointsAgree(a: string, b: string)
    requires |a| == |b|
    requires forall i | 0 <= i < |a| :: AsPoint(a[i]) == AsPoint(b[i])
    ensures CommasAsPoints(a) == CommasAsPoints(b)
    decreases |a|
  {
    if a != [] {
      CommasAsPointsAgree(a[1..], b[1..]);
    }
  }

  lemma FractionDigitsCommas(s: string)
    ensures FractionDigits(CommasAsPoints(s)) == FractionDigits(s)
  {
    if |s| >= 2 {
      CommasAsPointsAt(s, 0);
      CommasAsPointsAt(s, 1);
      CommasAsPointsFrom(s, 1);
      DigitPrefixCommas(s[1..]);
    }
  }

  lemma InKilogramsCommas(u: string, m: real)
    ensures InKilograms(CommasAsPoints(u), m) == InKilograms(u, m)
  {
    if u != [] {
      CommasAsPointsAt(u, 0);
    }
  }

  lemma ReadFractionCommas(whole: string, a: string)
    requires AllDigits(whole)
    ensures ReadFraction(whole, CommasAsPoints(a)) == ReadFraction(whole, a)
  {
    var fraction := FractionDigits(a);
    FractionDigitsCommas(a);
    var rest := if fraction == [] then a else a[1 + |fraction|..];
    if fraction != [] {
      CommasAsPointsFrom(a, 1 + |fraction|);
    }
    TrimStartCommas(rest);
    InKilogramsCommas(TrimStart(rest), Magnitude(whole, fraction));
  }

  lemma ReadNumberCommas(t: string)
    ensures ReadNumber(CommasAsPoints(t)) == ReadNumber(t)
  {
    var whole := DigitPrefix(t);
    DigitPrefixCommas(t);
    CommasAsPointsFrom(t, |whole|);
    ReadFractionCommas(whole, t[|whole|..]);
  }

  /** The reading of a lower-cased answer does not depend on which decimal point it uses. */
  lemma ReadQuantityCommas(s: string)
    ensures ReadQuantity(CommasAsPoints(s)) == ReadQuantity(s)
  {
    DropNonDigitsCommas(s);
    ReadNumberCommas(DropNonDigits(s));
  }

  /** "1,5 t" and "1.5 t": a comma anywhere in the answer reads exactly like a point. */
  lemma CommaIsDecimalPoint(before: string, after: string)
    ensures ParseQuantity(before + "," + after) == ParseQuantity(before + "." + after)
  {
    var a, b := ToLower(before + "," + after), ToLower(before + "." + after);
    CommasAsPointsAgree(a, b);
    ReadQuantityCommas(a);
    ReadQuantityCommas(b);
  }

  // ---------------------------------------------------------------------------
  // The answers the widget's own prompts suggest
  // ---------------------------------------------------------------------------

  lemma TonnesExample(answer: string)
    requires answer == "2 tonnes"
    ensures ParseQuantity(answer) == Some(2000.0)
  {
    assert "" + "2" + " " + "tonnes" == answer;
    assert DigitsValue("2") == 2;
    WholeQuantity("", "2", " ", "tonnes");
  }

  lemma KilogramsExample(answer: string)
    requires answer == "500 kg"
    ensures ParseQuantity(answer) == Some(500.0)
  {
    assert "" + "500" + " " + "kg" == "500 kg";
    assert DigitsValue("5") == 5 && DigitsValue("50") == 50 && DigitsValue("500") == 500;
    assert WrittenInKilograms("kg", 500.0) == 500.0;
    WholeQuantity("", "500", " ", "kg");
  }

  lemma DecimalTonnesExample()
    ensures ParseQuantity("1.5 t") == Some(1500.0)
    ensures ParseQuantity("1,5 t") == Some(1500.0)
  {
    assert "" + "1" + ['.'] + "5" + " " + "t" == "1.5 t";
    assert "1" + "," + "5 t" == "1,5 t";
    assert "1" + "." + "5 t" == "1.5 t";
    assert DigitsValue("1") == 1 && DigitsValue("5") == 5;
    assert Magnitude("1", "5") == 1.5;
    assert WrittenInKilograms("t", 1.5) == 1500.0;
    DecimalQuantity("", "1", '.', "5", " ", "t");
    CommaIsDecimalPoint("1", "5 t");
  }

  /** A word starting with `t` after the number counts as tonnes even when it is no unit. */
  lemma TuilesExample(answer: string)
    requires answer == "5 tuiles"
    ensures ParseQuantity(answer) == Some(5000.0)
  {
    assert "" + "5" + " " + "tuiles" == answer;
    assert DigitsValue("5") == 5;
    WholeQuantity("", "5", " ", "tuiles");
  }

  /** Text before the number is skipped. */
  lemma LeadingTextExample()
    ensures ParseQuantity("environ 12kg") == Some(12.0)
  {
    var before := "environ ";
    assert before + "12" + "" + "kg" == "environ 12kg";
    assert DigitsValue("1") == 1 && DigitsValue("12") == 12;
    assert WrittenInKilograms("kg", 12.0) == 12.0;
    assert forall i | 0 <= i < |before| :: !IsDigit(before[i]);
    WholeQuantity(before, "12", "", "kg");
  }

  lemma NoNumberExample()
    ensures ParseQuantity("beaucoup") == None
  {
    var b := "beaucoup";
    assert forall i | 0 <= i < |b| :: !IsDigit(b[i]);
  }
}
