/**
 * The chat widget's estimate of the CO2 a declared surplus avoids: a fixed
 * table of coefficients (kg of CO2 avoided per kg of material reused), looked
 * up by substring in the lower-cased, accent-stripped material name, in the
 * table's declaration order, with 0.5 for a material the table does not name.
 */
module SurplusCo2 {
  import opened Strings

  /** The coefficient table, in declaration order (the order `Object.entries` lists it in). */
  const Co2Coefficients: seq<(string, real)> := [
    ("acier", 1.8),
    ("béton", 0.2),
    ("beton", 0.2),
    ("bois", 0.5),
    ("aluminium", 8.0),
    ("cuivre", 3.0),
    ("isolant", 2.5),
    ("parpaing", 0.2),
    ("tuile", 0.4),
    ("carrelage", 0.5),
    ("plâtre", 0.15),
    ("verre", 0.9)
  ]

  /** The coefficient for a material no key matches. */
  const DefaultCoefficient: real := 0.5

  /** `Math.round`: the nearest integer, halves rounded up. */
  function Round(x: real): (r: int)
    ensures r as real - 0.5 <= x < r as real + 0.5
  {
    (x + 0.5).Floor
  }

  // ---------------------------------------------------------------------------
  // normalize('NFD').replace(/[̀-ͯ]/g, '')
  // ---------------------------------------------------------------------------

  /** The combining diacritical marks the name's normalisation deletes. */
  predicate IsCombining(c: char) {
    0x300 <= c as int <= 0x36F
  }

  /** The base letter of a precomposed lower-case Latin-1 letter; other characters are their own base. */
  function BaseLetter(c: char): char {
    var n := c as int;
    if 0xE0 <= n <= 0xE5 then 'a'
    else if n == 0xE7 then 'c'
    else if 0xE8 <= n <= 0xEB then 'e'
    else if 0xEC <= n <= 0xEF then 'i'
    else if n == 0xF1 then 'n'
    else if 0xF2 <= n <= 0xF6 then 'o'
    else if 0xF9 <= n <= 0xFC then 'u'
    else if n == 0xFD || n == 0xFF then 'y'
    else c
  }

  /** A letter that canonical decomposition splits into a base letter and a combining mark. */
  predicate IsAccented(c: char) {
    BaseLetter(c) != c
  }

  /** Decomposes each accented letter and deletes the combining marks. */
  function StripAccents(s: string): (r: string)
    ensures |r| <= |s|
    ensures forall i | 0 <= i < |r| :: !IsAccented(r[i]) && !IsCombining(r[i])
  {
    if s == [] then []
    else if IsCombining(s[0]) then StripAccents(s[1..])
    else [BaseLetter(s[0])] + StripAccents(s[1..])
  }

  /** A string without accented letters or combining marks is left as it is. */
  lemma {:induction false} StripAccentsFixes(s: string)
    requires forall i | 0 <= i < |s| :: !IsAccented(s[i]) && !IsCombining(s[i])
    ensures StripAccents(s) == s
    decreases |s|
  {
    if s != [] {
      StripAccentsFixes(s[1..]);
      assert [s[0]] + s[1..] == s;
    }
  }

  /** The name the table is searched with. */
  function NormalizeName(name: string): string {
    StripAccents(ToLower(name))
  }

  /** A normalised name holds no accented letter: a key written with one never occurs in it. */
  lemma AccentedKeyNeverOccurs(name: string, key: string, k: nat)
    requires k < |key| && IsAccented(key[k])
    ensures !Contains(NormalizeName(name), key)
  {
    var n := NormalizeName(name);
    assert forall i | 0 <= i < |n| :: n[i] != key[k];
    MissingCharNotContained(n, key, k);
  }

  // ---------------------------------------------------------------------------
  // The lookup
  // ---------------------------------------------------------------------------

  /** The index of the first key, from index `i` on, that occurs in `n`; the table's length if none does. */
  function FirstMatchFrom(n: string, i: nat): (k: nat)
    requires i <= |Co2Coefficients|
    ensures i <= k <= |Co2Coefficients|
    ensures k < |Co2Coefficients| ==> Contains(n, Co2Coefficients[k].0)
    ensures forall j | i <= j < k :: !Contains(n, Co2Coefficients[j].0)
    decreases |Co2Coefficients| - i
  {
    if i == |Co2Coefficients| then i
    else if Contains(n, Co2Coefficients[i].0) then i
    else FirstMatchFrom(n, i + 1)
  }

  /** The coefficient `calculateCO2` applies to a material name. */
  function Coefficient(name: string): (coef: real)
    ensures coef > 0.0
  {
    var k := FirstMatchFrom(NormalizeName(name), 0);
    if k < |Co2Coefficients| then Co2Coefficients[k].1 else DefaultCoefficient
  }

  /** The kilograms of CO2 a surplus of `quantity` kg of `name` avoids. */
  function Co2Saved(name: string, quantity: real): int {
    Round(quantity * Coefficient(name))
  }

  /**
   * `calculateCO2`: walks the table in order and returns at the first key that
   * occurs in the normalised name; falls back to the default coefficient.
   */
  method CalculateCO2(materialType: string, quantity: real) returns (co2: int)
    ensures co2 == Co2Saved(materialType, quantity)
  {
    var normalized := NormalizeName(materialType);
    var i := 0;
    while i < |Co2Coefficients|
      invariant 0 <= i <= |Co2Coefficients|
      invariant FirstMatchFrom(normalized, 0) == FirstMatchFrom(normalized, i)
    {
      var (material, coef) := Co2Coefficients[i];
      if Contains(normalized, material) {
        assert FirstMatchFrom(normalized, i) == i;
        SavedWith(materialType, quantity, coef);
        return Round(quantity * coef);
      }
      i := i + 1;
    }
    assert FirstMatchFrom(normalized, i) == |Co2Coefficients|;
    SavedWith(materialType, quantity, DefaultCoefficient);
    return Round(quantity * DefaultCoefficient);
  }

  /** The estimate made with the coefficient the table gives the name. */
  lemma SavedWith(name: string, quantity: real, coef: real)
    requires Coefficient(name) == coef
    ensures Co2Saved(name, quantity) == Round(quantity * coef)
  {
  }

  // ---------------------------------------------------------------------------
  // What the lookup means
  // ---------------------------------------------------------------------------

  /** The coefficient comes from the first key, in declaration order, that occurs in the normalised name. */
  lemma CoefficientIsFirstMatch(name: string, k: nat)
    requires k < |Co2Coefficients|
    requires Contains(NormalizeName(name), Co2Coefficients[k].0)
    requires forall j | 0 <= j < k :: !Contains(NormalizeName(name), Co2Coefficients[j].0)
    ensures Coefficient(name) == Co2Coefficients[k].1
  {
  }

  /** ... and is the default exactly when no key occurs in it. */
  lemma CoefficientDefault(name: string)
    requires forall j | 0 <= j < |Co2Coefficients| :: !Contains(NormalizeName(name), Co2Coefficients[j].0)
    ensures Coefficient(name) == DefaultCoefficient
  {
  }

  /** The keys `béton` and `plâtre` are dead entries: concrete only ever matches through `beton`. */
  lemma AccentedKeysNeverMatch(name: string)
    ensures !Contains(NormalizeName(name), Co2Coefficients[1].0)
    ensures !Contains(NormalizeName(name), Co2Coefficients[10].0)
  {
    assert Co2Coefficients[1].0 == "béton" && IsAccented("béton"[1]);
    AccentedKeyNeverOccurs(name, "béton", 1);
    assert Co2Coefficients[10].0 == "plâtre" && IsAccented("plâtre"[2]);
    AccentedKeyNeverOccurs(name, "plâtre", 2);
  }

  /** A non-negative quantity never gives a negative estimate. */
  lemma Co2SavedNonNegative(name: string, quantity: real)
    requires quantity >= 0.0
    ensures Co2Saved(name, quantity) >= 0
  {
    var coef := Coefficient(name);
    assert quantity * coef >= 0.0;
  }

  // ---------------------------------------------------------------------------
  // Examples
  // ---------------------------------------------------------------------------

  /** Steel is the table's first key: 500 kg of "acier" avoid 900 kg of CO2. */
  lemma SteelExample(name: string)
    requires name == "acier"
    ensures Co2Saved(name, 500.0) == 900
  {
    assert NormalizeName("acier") == "acier";
    assert Contains("acier", "acier");
    assert FirstMatchFrom("acier", 0) == 0;
  }

  /** Normalisation turns "béton" into "beton". */
  lemma BetonNormalized(name: string)
    requires name == "béton"
    ensures NormalizeName(name) == "beton"
  {
    assert forall i | 0 <= i < |name| :: !IsUpper(name[i]);
    ToLowerFixes(name);
    assert StripAccents(name[2..]) == "ton" by {
      StripAccentsFixes(name[2..]);
    }
    assert name[1..][1..] == name[2..];
    assert StripAccents(name[1..]) == "e" + StripAccents(name[2..]);
    assert StripAccents(name) == "b" + StripAccents(name[1..]);
  }

  /** "béton" is stripped to "beton" and matches the third entry. */
  lemma ConcreteExample(name: string)
    requires name == "béton"
    ensures Coefficient(name) == 0.2
  {
    var n := NormalizeName(name);
    BetonNormalized(name);
    assert !Contains(n, Co2Coefficients[0].0) by {
      MissingCharNotContained(n, "acier", 0);
    }
    AccentedKeysNeverMatch(name);
    assert Contains(n, Co2Coefficients[2].0) by {
      assert StartsWith(n[0..], "beton");
    }
    CoefficientIsFirstMatch(name, 2);
  }

  /** Every key has a character that "platre" lacks. */
  lemma PlatreHoldsNoKey(n: string)
    requires n == "platre"
    ensures forall j | 0 <= j < |Co2Coefficients| :: !Contains(n, Co2Coefficients[j].0)
  {
    forall j | 0 <= j < |Co2Coefficients|
      ensures !Contains(n, Co2Coefficients[j].0)
    {
      var key := Co2Coefficients[j].0;
      var k := if j == 4 then 3 else if j == 6 then 0 else if j == 7 then 5 else if j == 8 then 1
               else if j == 10 then 2 else if j == 0 then 1 else 0;
      assert key[k] !in n;
      MissingCharNotContained(n, key, k);
    }
  }

  /** Normalisation turns "plâtre" into "platre". */
  lemma PlatreNormalized(name: string)
    requires name == "plâtre"
    ensures NormalizeName(name) == "platre"
  {
    assert forall i | 0 <= i < |name| :: !IsUpper(name[i]);
    ToLowerFixes(name);
    assert StripAccents(name[3..]) == "tre" by {
      StripAccentsFixes(name[3..]);
    }
    assert name[2..][1..] == name[3..];
    assert StripAccents(name[2..]) == "a" + StripAccents(name[3..]);
    assert name[1..][1..] == name[2..];
    assert StripAccents(name[1..]) == "l" + StripAccents(name[2..]);
    assert StripAccents(name) == "p" + StripAccents(name[1..]);
  }

  /** So plaster gets the default 0.5 rather than the table's 0.15. */
  lemma PlasterExample(name: string)
    requires name == "plâtre"
    ensures Coefficient(name) == DefaultCoefficient
  {
    PlatreNormalized(name);
    PlatreHoldsNoKey(NormalizeName(name));
    CoefficientDefault(name);
  }

  /** "tuile" does not occur in "plastique", though each of its letters does. */
  lemma TuileNotInPlastique(n: string)
    requires n == "plastique"
    ensures !Contains(n, "tuile")
  {
    forall i | 0 <= i < |n| && n[i] == "tuile"[0]
      ensures !StartsWith(n[i..], "tuile")
    {
      assert i == 4 && n[5] == 'i';
    }
    NotContainedAnywhere(n, "tuile");
  }

  /** Every key but "tuile" has a character that "plastique" lacks. */
  lemma PlastiqueHoldsNoKey(n: string)
    requires n == "plastique"
    ensures forall j | 0 <= j < |Co2Coefficients| :: !Contains(n, Co2Coefficients[j].0)
  {
    forall j | 0 <= j < |Co2Coefficients|
      ensures !Contains(n, Co2Coefficients[j].0)
    {
      var key := Co2Coefficients[j].0;
      if j == 8 {
        TuileNotInPlastique(n);
      } else {
        var k := if j == 4 then 3 else if j == 6 then 2 else if j == 7 then 2
                 else if j == 10 then 2 else if j == 0 then 1 else 0;
        assert key[k] !in n;
        MissingCharNotContained(n, key, k);
      }
    }
  }

  /** A material outside the table gets the default coefficient: 100 kg of plastic avoid 50 kg of CO2. */
  lemma PlasticExample()
    ensures Co2Saved("plastique", 100.0) == 50
  {
    var name := "plastique";
    assert forall i | 0 <= i < |name| :: 'a' <= name[i] <= 'z';
    ToLowerFixes(name);
    StripAccentsFixes(name);
    PlastiqueHoldsNoKey(NormalizeName("plastique"));
    CoefficientDefault("plastique");
  }
}
