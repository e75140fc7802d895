/**
 * Violation counts per severity tier, their sum over the files of a scan,
 * and the style-score formula of the main window over those counts.
 */
module TierCounts {
  /** Violation counts per severity tier. */
  datatype Tiers = Tiers(high: nat, medium: nat, low: nat)

  const NoTiers := Tiers(0, 0, 0)

  function Plus(a: Tiers, b: Tiers): Tiers
  {
    Tiers(a.high + b.high, a.medium + b.medium, a.low + b.low)
  }

  function Total(t: Tiers): nat
  {
    t.high + t.medium + t.low
  }

  /** A severity tier. */
  datatype Level = High | Medium | Low
  function Field(t: Tiers, level: Level): nat
  {
    match level
    case High => t.high
    case Medium => t.medium
    case Low => t.low
  }
  /** One level's count summed over the files `ks`, in whatever order the dictionary yields them. */
  ghost function SumOf(m: map<string, Tiers>, ks: set<string>, level: Level): nat
    requires ks <= m.Keys
  {
    if ks == {} then 0
    else
      var k :| k in ks;
      Field(m[k], level) + SumOf(m, ks - {k}, level)
  }
  /** The counts summed over the files `ks`. */
  ghost function Sum(m: map<string, Tiers>, ks: set<string>): Tiers
    requires ks <= m.Keys
  {
    Tiers(SumOf(m, ks, High), SumOf(m, ks, Medium), SumOf(m, ks, Low))
  }
  /** The sum does not depend on the order of the files: any file may be taken first. */
  lemma {:induction false} SumOfAny(m: map<string, Tiers>, ks: set<string>, k: string, level: Level)
    requires ks <= m.Keys && k in ks
    ensures SumOf(m, ks, level) == Field(m[k], level) + SumOf(m, ks - {k}, level)
  {
    var j :| j in ks && SumOf(m, ks, level) == Field(m[j], level) + SumOf(m, ks - {j}, level);
    if j != k {
      SumOfAny(m, ks - {j}, k, level);
      SumOfAny(m, ks - {k}, j, level);
      assert ks - {j} - {k} == ks - {k} - {j};
    }
  }
  lemma SumAny(m: map<string, Tiers>, ks: set<string>, k: string)
    requires ks <= m.Keys && k in ks
    ensures Sum(m, ks) == Plus(m[k], Sum(m, ks - {k}))
  {
    SumOfAny(m, ks, k, High);
    SumOfAny(m, ks, k, Medium);
    SumOfAny(m, ks, k, Low);
  }
  lemma {:induction false} SumOfNone(m: map<string, Tiers>, ks: set<string>, level: Level)
    requires ks <= m.Keys
    requires forall k :: k in ks ==> Field(m[k], level) == 0
    ensures SumOf(m, ks, level) == 0
  {
    if ks != {} {
      var k :| k in ks;
      SumOfAny(m, ks, k, level);
      SumOfNone(m, ks - {k}, level);
    }
  }
  /** Files without violations add nothing. */
  lemma SumNone(m: map<string, Tiers>, ks: set<string>)
    requires ks <= m.Keys
    requires forall k :: k in ks ==> m[k] == NoTiers
    ensures Sum(m, ks) == NoTiers
  {
    SumOfNone(m, ks, High);
    SumOfNone(m, ks, Medium);
    SumOfNone(m, ks, Low);
  }
  /** Each file's counts are part of the sum. */
  lemma SumPart(m: map<string, Tiers>, ks: set<string>, k: string)
    requires ks <= m.Keys && k in ks
    ensures m[k].high <= Sum(m, ks).high && m[k].medium <= Sum(m, ks).medium && m[k].low <= Sum(m, ks).low
  {
    SumAny(m, ks, k);
  }
  /** The sum is zero exactly when every file's counts are. */
  lemma SumZero(m: map<string, Tiers>, ks: set<string>)
    requires ks <= m.Keys
    ensures Sum(m, ks) == NoTiers <==> forall k :: k in ks ==> m[k] == NoTiers
  {
    if forall k :: k in ks ==> m[k] == NoTiers {
      SumNone(m, ks);
    } else {
      var k :| k in ks && m[k] != NoTiers;
      SumPart(m, ks, k);
    }
  }


  /** The weighted deduction in tenths of a percent of a line: 1 per low, 10 per medium, 100 per high violation. */
  function Weight(t: Tiers): nat
  {
    t.low + 10 * t.medium + 100 * t.high
  }

  /** The score times the lines: 100 per line less 10 per weight unit, cut off at 0. */
  function Scaled(t: Tiers, lines: nat): real
  {
    var n, w := lines as real, Weight(t) as real;
    if 10.0 * w <= 100.0 * n then 100.0 * n - 10.0 * w else 0.0
  }

  /**
   * 100 minus 0.1 per percent of low, 1 per percent of medium and 10 per
   * percent of high violations relative to the lines, and never below 0;
   * SourceArithmetic shows this is the percentage arithmetic of the window.
   */
  function Formula(t: Tiers, lines: nat): real
    requires lines > 0
  {
    Scaled(t, lines) / (lines as real)
  }

  // Facts about division by the line count, one step each.

  lemma DivMul(s: real, lines: nat)
    requires lines > 0
    ensures (s / (lines as real)) * (lines as real) == s
  {
  }

  lemma MulDiv(x: real, lines: nat)
    requires lines > 0
    ensures (x * (lines as real)) / (lines as real) == x
  {
  }

  lemma DivOrder(x: real, y: real, lines: nat)
    requires lines > 0 && x <= y
    ensures x / (lines as real) <= y / (lines as real)
  {
    var n := lines as real;
    DivMul(x, lines);
    DivMul(y, lines);
    assert (y / n - x / n) * n == y - x;
  }

  lemma DivEq(x: real, y: real, lines: nat)
    requires lines > 0
    ensures x / (lines as real) == y / (lines as real) <==> x == y
  {
    DivMul(x, lines);
    DivMul(y, lines);
  }

  lemma DivUnit(lines: nat)
    requires lines > 0
    ensures (100.0 * (lines as real)) / (lines as real) == 100.0
    ensures 0.0 / (lines as real) == 0.0
  {
    DivMul(100.0 * (lines as real), lines);
  }

  lemma DivSum(a: real, b: real, c: real, lines: nat)
    requires lines > 0
    ensures a / (lines as real) + 10.0 * (b / (lines as real)) + 100.0 * (c / (lines as real))
         == (a + 10.0 * b + 100.0 * c) / (lines as real)
  {
    var n := lines as real;
    var x := a / n + 10.0 * (b / n) + 100.0 * (c / n);
    DivMul(a, lines);
    DivMul(b, lines);
    DivMul(c, lines);
    assert x * n == a + 10.0 * b + 100.0 * c;
    MulDiv(x, lines);
  }

  lemma DivShift(w: real, lines: nat)
    requires lines > 0
    ensures 100.0 - 10.0 * (w / (lines as real)) == (100.0 * (lines as real) - 10.0 * w) / (lines as real)
  {
    var n := lines as real;
    var q := w / n;
    var x := 100.0 - 10.0 * q;
    DivMul(w, lines);
    assert x * n == 100.0 * n - 10.0 * (q * n);
    assert x * n == 100.0 * n - 10.0 * w;
    MulDiv(x, lines);
    assert (100.0 * n - 10.0 * w) / n == (x * n) / n;
    assert x == (100.0 * n - 10.0 * w) / n;
    assert 100.0 - 10.0 * (w / n) == x;
  }

  /** The window's percentage arithmetic, clipped at 0, is the formula. */
  lemma SourceArithmetic(t: Tiers, lines: nat)
    requires lines > 0
    ensures var n := lines as real;
            var score := 100.0 - (t.low as real / n * 100.0) * 0.1 - (t.medium as real / n * 100.0) * 1.0
                               - (t.high as real / n * 100.0) * 10.0;
            (if score < 0.0 then 0.0 else score) == Formula(t, lines)
  {
    var n, w := lines as real, Weight(t) as real;
    var h, m, l := t.high as real / n, t.medium as real / n, t.low as real / n;
    assert (l * 100.0) * 0.1 + (m * 100.0) * 1.0 + (h * 100.0) * 10.0 == 10.0 * (l + 10.0 * m + 100.0 * h);
    DivSum(t.low as real, t.medium as real, t.high as real, lines);
    assert l + 10.0 * m + 100.0 * h == w / n;
    DivShift(w, lines);
    var s := 100.0 * n - 10.0 * w;
    DivUnit(lines);
    if s < 0.0 {
      DivOrder(s, 0.0, lines);
    } else {
      DivOrder(0.0, s, lines);
    }
  }

  /** More violations in any tier never raise the scaled score. */
  lemma ScaledMonotone(a: Tiers, b: Tiers, lines: nat)
    requires a.high <= b.high && a.medium <= b.medium && a.low <= b.low
    ensures Scaled(b, lines) <= Scaled(a, lines)
  {
  }

  lemma ScaledFacts(t: Tiers, lines: nat)
    requires lines > 0
    ensures 0.0 <= Scaled(t, lines) <= 100.0 * (lines as real)
    ensures Scaled(t, lines) == 100.0 * (lines as real) <==> t == NoTiers
    ensures Scaled(t, lines) == 0.0 <==> Weight(t) >= 10 * lines
  {
  }

  /** The score lies between 0 and 100. */
  lemma FormulaRange(t: Tiers, lines: nat)
    requires lines > 0
    ensures 0.0 <= Formula(t, lines) <= 100.0
  {
    ScaledFacts(t, lines);
    DivUnit(lines);
    DivOrder(0.0, Scaled(t, lines), lines);
    DivOrder(Scaled(t, lines), 100.0 * (lines as real), lines);
  }

  /** The score is 100 exactly when there is no violation. */
  lemma FormulaPerfect(t: Tiers, lines: nat)
    requires lines > 0
    ensures Formula(t, lines) == 100.0 <==> t == NoTiers
  {
    ScaledFacts(t, lines);
    DivUnit(lines);
    DivEq(Scaled(t, lines), 100.0 * (lines as real), lines);
  }

  /** The score is 0 exactly when the weighted violations reach a tenth of the lines. */
  lemma FormulaZero(t: Tiers, lines: nat)
    requires lines > 0
    ensures Formula(t, lines) == 0.0 <==> Weight(t) >= 10 * lines
  {
    ScaledFacts(t, lines);
    DivUnit(lines);
    DivEq(Scaled(t, lines), 0.0, lines);
  }

  /** More violations in any tier never raise the score. */
  lemma FormulaMonotone(a: Tiers, b: Tiers, lines: nat)
    requires lines > 0
    requires a.high <= b.high && a.medium <= b.medium && a.low <= b.low
    ensures Formula(b, lines) <= Formula(a, lines)
  {
    ScaledMonotone(a, b, lines);
    DivOrder(Scaled(b, lines), Scaled(a, lines), lines);
  }
}
