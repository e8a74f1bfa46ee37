/**
 * The company's CSR impact dashboard: three totals folded over the listed
 * materials (kilograms reused, CO2 avoided, money saved against buying new),
 * each on top of a fixed historical figure; the trees-per-year equivalence of
 * the CO2 total; and the file name of the downloadable report.
 */
module ImpactDashboard {
  import opened Wrappers
  import opened Strings
  import SurplusCo2

  /** A JavaScript number as far as these totals go: a real value, or NaN. */
  datatype Num = Finite(value: real) | NaN

  function Add(a: Num, b: Num): (r: Num)
    ensures r.Finite? <==> a.Finite? && b.Finite?
  {
    if a.Finite? && b.Finite? then Finite(a.value + b.value) else NaN
  }

  function Mul(a: Num, b: Num): (r: Num)
    ensures r.Finite? <==> a.Finite? && b.Finite?
  {
    if a.Finite? && b.Finite? then Finite(a.value * b.value) else NaN
  }

  /**
   * The fields of a listed material the dashboard reads. A missing, zero or NaN
   * weight or price is `None` (`|| 0` turns all of them into 0); a missing or
   * empty material type is `None` (`|| 'default'`).
   */
  datatype Material = Material(weightEstimatedKg: Option<real>, materialType: Option<string>, price: Option<real>)

  function Weight(m: Material): real {
    m.weightEstimatedKg.GetOr(0.0)
  }

  function PaidPrice(m: Material): real {
    m.price.GetOr(0.0)
  }

  function TableKey(m: Material): string {
    if m.materialType.Some? && m.materialType.value != "" then m.materialType.value else "default"
  }

  predicate KnownKey(key: string) {
    key == "concrete" || key == "steel" || key == "wood" || key == "default"
  }

  /** `CO2_COEFFICIENTS[key]`: kg of CO2 avoided per kg reused; another key reads `undefined`, which multiplies to NaN. */
  function Co2Coefficient(key: string): (r: Num)
    ensures r.Finite? <==> KnownKey(key)
    ensures r.Finite? ==> r.value > 0.0
  {
    if key == "concrete" then Finite(0.12)
    else if key == "steel" then Finite(1.8)
    else if key == "wood" then Finite(0.9)
    else if key == "default" then Finite(0.5)
    else NaN
  }

  /** `PRIX_NEUF[key]`: the price of new material in euros per kg. */
  function NewPrice(key: string): (r: Num)
    ensures r.Finite? <==> KnownKey(key)
    ensures r.Finite? ==> r.value > 0.0
  {
    if key == "concrete" then Finite(0.15)
    else if key == "steel" then Finite(2.5)
    else if key == "wood" then Finite(1.2)
    else if key == "default" then Finite(0.8)
    else NaN
  }

  const HistoricalKilos: real := 1250.0
  const HistoricalCo2: real := 625.0
  const HistoricalSavings: real := 2840.0

  // ---------------------------------------------------------------------------
  // The folds
  // ---------------------------------------------------------------------------

  /** `materials.reduce((acc, m) => acc + (m.weightEstimatedKg || 0), 0)`. */
  function SumWeights(ms: seq<Material>): real {
    if ms == [] then 0.0 else SumWeights(ms[..|ms| - 1]) + Weight(ms[|ms| - 1])
  }

  /** The CO2 fold: each material adds its weight times its type's coefficient. */
  function SumCo2(ms: seq<Material>): Num {
    if ms == [] then Finite(0.0)
    else
      var m := ms[|ms| - 1];
      Add(SumCo2(ms[..|ms| - 1]), Mul(Finite(Weight(m)), Co2Coefficient(TableKey(m))))
  }

  /** The savings fold: each material adds its weight times the new price, less what it cost. */
  function SumSavings(ms: seq<Material>): Num {
    if ms == [] then Finite(0.0)
    else
      var m := ms[|ms| - 1];
      Add(Add(SumSavings(ms[..|ms| - 1]), Mul(Finite(Weight(m)), NewPrice(TableKey(m)))), Finite(-PaidPrice(m)))
  }

  function TotalKilos(ms: seq<Material>): real {
    SumWeights(ms) + HistoricalKilos
  }

  function TotalCo2(ms: seq<Material>): Num {
    Add(SumCo2(ms), Finite(HistoricalCo2))
  }

  function TotalSavings(ms: seq<Material>): Num {
    Add(SumSavings(ms), Finite(HistoricalSavings))
  }

  /** `Math.round(totalCO2Evite / 21)`: trees absorbing the CO2 total in a year. */
  function Trees(co2: Num): Num {
    if co2.Finite? then Finite(SurplusCo2.Round(co2.value / 21.0) as real) else NaN
  }

  // ---------------------------------------------------------------------------
  // What the folds compute
  // ---------------------------------------------------------------------------

  /** With no material listed, the dashboard shows the historical figures alone, and 30 trees. */
  lemma EmptyDashboard()
    ensures TotalKilos([]) == 1250.0
    ensures TotalCo2([]) == Finite(625.0)
    ensures TotalSavings([]) == Finite(2840.0)
    ensures Trees(TotalCo2([])) == Finite(30.0)
  {
    assert 30.0 <= 625.0 / 21.0 + 0.5 < 31.0;
  }

  /** The weight total of two lists of materials is the sum of their totals. */
  lemma {:induction false} SumWeightsAppend(a: seq<Material>, b: seq<Material>)
    ensures SumWeights(a + b) == SumWeights(a) + SumWeights(b)
    decreases |b|
  {
    if b == [] {
      assert a + b == a;
    } else {
      var b' := b[..|b| - 1];
      assert (a + b)[..|a + b| - 1] == a + b';
      assert (a + b)[|a + b| - 1] == b[|b| - 1];
      SumWeightsAppend(a, b');
    }
  }

  /** Listing one more material adds exactly its weight (0 when it has none) to the kilograms. */
  lemma KilosGrowByWeight(ms: seq<Material>, m: Material)
    ensures TotalKilos(ms + [m]) == TotalKilos(ms) + Weight(m)
    ensures m.weightEstimatedKg.None? ==> TotalKilos(ms + [m]) == TotalKilos(ms)
  {
    assert (ms + [m])[..|ms|] == ms;
  }

  /** The CO2 fold is a number exactly when every material's type is a table key (or missing). */
  lemma {:induction false} Co2DefinedIff(ms: seq<Material>)
    ensures SumCo2(ms).Finite? <==> forall i | 0 <= i < |ms| :: KnownKey(TableKey(ms[i]))
    decreases |ms|
  {
    if ms != [] {
      var front := ms[..|ms| - 1];
      Co2DefinedIff(front);
      assert forall i | 0 <= i < |front| :: front[i] == ms[i];
    }
  }

  /** ... and so is the savings fold. */
  lemma {:induction false} SavingsDefinedIff(ms: seq<Material>)
    ensures SumSavings(ms).Finite? <==> forall i | 0 <= i < |ms| :: KnownKey(TableKey(ms[i]))
    decreases |ms|
  {
    if ms != [] {
      var front := ms[..|ms| - 1];
      SavingsDefinedIff(front);
      assert forall i | 0 <= i < |front| :: front[i] == ms[i];
    }
  }

  /** A material typed outside the table turns the CO2 card, its tree count and the savings card into NaN. */
  lemma UnknownTypeIsNaN(ms: seq<Material>, k: nat)
    requires k < |ms| && !KnownKey(TableKey(ms[k]))
    ensures TotalCo2(ms) == NaN && Trees(TotalCo2(ms)) == NaN
    ensures TotalSavings(ms) == NaN
  {
    Co2DefinedIff(ms);
    SavingsDefinedIff(ms);
  }

  /** With non-negative weights and known types, the CO2 fold is never negative: the total is at least the historical figure. */
  lemma {:induction false} Co2AtLeastHistorical(ms: seq<Material>)
    requires forall i | 0 <= i < |ms| :: Weight(ms[i]) >= 0.0 && KnownKey(TableKey(ms[i]))
    ensures SumCo2(ms).Finite? && SumCo2(ms).value >= 0.0
    ensures TotalCo2(ms).Finite? && TotalCo2(ms).value >= HistoricalCo2
    decreases |ms|
  {
    if ms != [] {
      var front := ms[..|ms| - 1];
      var m := ms[|ms| - 1];
      assert forall i | 0 <= i < |front| :: front[i] == ms[i];
      Co2AtLeastHistorical(front);
      var c := Co2Coefficient(TableKey(m));
      assert Weight(m) * c.value >= 0.0;
    }
  }

  /** Steel is weighed at 1.8 kg of CO2 per kg: a 100 kg steel lot adds 180 kg to the CO2 total. */
  lemma SteelLot(ms: seq<Material>, m: Material)
    requires m == Material(Some(100.0), Some("steel"), None)
    requires SumCo2(ms).Finite?
    ensures TotalCo2(ms + [m]) == Finite(SumCo2(ms).value + 180.0 + HistoricalCo2)
  {
    assert (ms + [m])[..|ms|] == ms;
  }

  /** A lot bought for more than its new-material value lowers the savings. */
  lemma OverpricedLotLowersSavings(ms: seq<Material>, m: Material)
    requires SumSavings(ms).Finite? && KnownKey(TableKey(m))
    requires PaidPrice(m) > Weight(m) * NewPrice(TableKey(m)).value
    ensures TotalSavings(ms + [m]).Finite? && TotalSavings(ms + [m]).value < TotalSavings(ms).value
  {
    assert (ms + [m])[..|ms|] == ms;
  }

  // ---------------------------------------------------------------------------
  // The report's file name
  // ---------------------------------------------------------------------------

  /** `replace(/\s+/g, '-')`: each run of blanks becomes one dash. */
  function DashBlanks(s: string): string
    decreases |s|
  {
    if s == [] then []
    else if IsSpace(s[0]) then "-" + DashBlanks(s[LeadingBlanks(s)..])
    else [s[0]] + DashBlanks(s[1..])
  }

  /** No blank survives the replacement. */
  lemma {:induction false} DashBlanksLeavesNoBlank(s: string)
    ensures forall i | 0 <= i < |DashBlanks(s)| :: !IsSpace(DashBlanks(s)[i])
    decreases |s|
  {
    if s != [] {
      if IsSpace(s[0]) {
        DashBlanksLeavesNoBlank(s[LeadingBlanks(s)..]);
      } else {
        DashBlanksLeavesNoBlank(s[1..]);
      }
    }
  }

  /** A text without blanks is left as it is. */
  lemma {:induction false} DashBlanksFixes(s: string)
    requires forall i | 0 <= i < |s| :: !IsSpace(s[i])
    ensures DashBlanks(s) == s
    decreases |s|
  {
    if s != [] {
      DashBlanksFixes(s[1..]);
      assert [s[0]] + s[1..] == s;
    }
  }

  /** Two blank-free words separated by a run of blanks are joined by a single dash. */
  lemma {:induction false} DashBlanksJoins(a: string, blanks: string, b: string)
    requires forall i | 0 <= i < |a| :: !IsSpace(a[i])
    requires blanks != [] && forall i | 0 <= i < |blanks| :: IsSpace(blanks[i])
    requires forall i | 0 <= i < |b| :: !IsSpace(b[i])
    ensures DashBlanks(a + blanks + b) == a + "-" + b
    decreases |a|
  {
    var s := a + blanks + b;
    if a == [] {
      assert s == blanks + b;
      TrimStartOf(blanks, b);
      assert s[LeadingBlanks(s)..] == b;
      DashBlanksFixes(b);
      assert a + "-" + b == "-" + b;
    } else {
      assert s[1..] == a[1..] + blanks + b;
      DashBlanksJoins(a[1..], blanks, b);
      assert a + "-" + b == [a[0]] + (a[1..] + "-" + b);
    }
  }

  /** The slug of a user name: blank runs dashed, then lower-cased. */
  function Slug(name: string): string {
    ToLower(DashBlanks(name))
  }

  /** `rapport-rse-<slug>-<day>.txt`, with the day as the ISO date's `YYYY-MM-DD` part. */
  function ReportFileName(userName: string, isoDay: string): string {
    "rapport-rse-" + Slug(userName) + "-" + isoDay + ".txt"
  }

  /** A slug holds no blank and no upper-case letter, and slugging it again changes nothing. */
  lemma SlugIsFinal(name: string)
    ensures forall i | 0 <= i < |Slug(name)| :: !IsSpace(Slug(name)[i]) && !IsUpper(Slug(name)[i])
    ensures Slug(Slug(name)) == Slug(name)
  {
    var d := DashBlanks(name);
    var s := Slug(name);
    DashBlanksLeavesNoBlank(name);
    forall i | 0 <= i < |s|
      ensures !IsSpace(s[i])
    {
      ToLowerCharKeeps(d[i]);
    }
    DashBlanksFixes(s);
    ToLowerFixes(s);
  }

  /** A two-word company name gives a file name with both words lower-cased around one dash. */
  lemma TwoWordReportName(first: string, blanks: string, second: string, isoDay: string)
    requires forall i | 0 <= i < |first| :: !IsSpace(first[i])
    requires blanks != [] && forall i | 0 <= i < |blanks| :: IsSpace(blanks[i])
    requires forall i | 0 <= i < |second| :: !IsSpace(second[i])
    ensures ReportFileName(first + blanks + second, isoDay)
         == "rapport-rse-" + ToLower(first) + "-" + ToLower(second) + "-" + isoDay + ".txt"
  {
    DashBlanksJoins(first, blanks, second);
    ToLowerAppend(first + "-", second);
    ToLowerAppend(first, "-");
    assert ToLower("-") == "-";
  }
}
