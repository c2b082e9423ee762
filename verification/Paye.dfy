/** Nigerian income tax on employment. Amounts are in naira, as reals. */
module Paye {
  import opened Basics

  function MaxReal(x: real, y: real): real {
    if x < y then y else x
  }

  function MinReal(x: real, y: real): real {
    if x < y then x else y
  }

  /** A slice of income and the rate on it. The last slice has no limit. */
  datatype Bracket = Bracket(limit: Option<real>, rate: real)

  const BRACKETS: seq<Bracket> := [
    Bracket(Some(300000.0), 0.07),
    Bracket(Some(300000.0), 0.11),
    Bracket(Some(500000.0), 0.15),
    Bracket(Some(500000.0), 0.19),
    Bracket(Some(1600000.0), 0.21),
    Bracket(None, 0.24)
  ]

  /** The part of an income above a threshold. */
  function Above(income: real, threshold: real): real {
    MaxReal(0.0, income - threshold)
  }

  /** An income measured above each threshold of the rate table. */
  datatype Parts = Parts(a: real, b: real, c: real, d: real, e: real, f: real)

  function PartsOf(income: real): Parts {
    Parts(Above(income, 0.0), Above(income, 300000.0), Above(income, 600000.0),
          Above(income, 1100000.0), Above(income, 1600000.0), Above(income, 3200000.0))
  }

  /** Each part taxed at the step the rate takes there. */
  function Weighted(p: Parts): real {
    0.07 * p.a + 0.04 * p.b + 0.04 * p.c + 0.04 * p.d + 0.02 * p.e + 0.03 * p.f
  }

  /** The rate table as rate steps at thresholds. */
  function BracketTax(taxable: real): real {
    Weighted(PartsOf(taxable))
  }

  /** Consolidated relief: a fifth of gross, plus the larger of 200,000 and 1% of gross. */
  function Relief(annualGross: real): real {
    0.20 * annualGross + MaxReal(200000.0, 0.01 * annualGross)
  }

  function Taxable(annualGross: real, annualPension: real): real {
    MaxReal(0.0, annualGross - Relief(annualGross) - annualPension)
  }

  /** Tax for the year: the rate table on taxable income, at least 1% of gross. */
  function AnnualTax(annualGross: real, annualPension: real): real {
    MaxReal(0.01 * annualGross, BracketTax(Taxable(annualGross, annualPension)))
  }

  /** Where slice `i` starts. */
  function SliceStart(i: nat): real
    requires i < 6
  {
    [0.0, 300000.0, 600000.0, 1100000.0, 1600000.0, 3200000.0][i]
  }

  /** The tax on the first `n` slices. */
  function TaxBelow(taxable: real, n: nat): real
    requires n <= 6
  {
    if n == 0 then 0.0
    else
      var start := Above(taxable, SliceStart(n - 1));
      TaxBelow(taxable, n - 1)
          + BRACKETS[n - 1].rate * (if n == 6 then start else start - Above(taxable, SliceStart(n)))
  }

  /** Slices that income does not reach are not taxed. */
  lemma {:induction false} UnreachedSlices(taxable: real, n: nat)
    requires n <= 6 && (n < 6 ==> Above(taxable, SliceStart(n)) <= 0.0)
    ensures TaxBelow(taxable, n) == TaxBelow(taxable, 6)
    decreases 6 - n
  {
    if n < 6 {
      UnreachedSlices(taxable, n + 1);
    }
  }

  lemma SlicesAddUp(taxable: real)
    ensures TaxBelow(taxable, 6) == BracketTax(taxable)
  {
    var a0, a1, a2 := Above(taxable, 0.0), Above(taxable, 300000.0), Above(taxable, 600000.0);
    var a3, a4, a5 := Above(taxable, 1100000.0), Above(taxable, 1600000.0), Above(taxable, 3200000.0);
    assert TaxBelow(taxable, 1) == 0.07 * (a0 - a1);
    assert TaxBelow(taxable, 2) == TaxBelow(taxable, 1) + 0.11 * (a1 - a2);
    assert TaxBelow(taxable, 3) == TaxBelow(taxable, 2) + 0.15 * (a2 - a3);
    assert TaxBelow(taxable, 4) == TaxBelow(taxable, 3) + 0.19 * (a3 - a4);
    assert TaxBelow(taxable, 5) == TaxBelow(taxable, 4) + 0.21 * (a4 - a5);
    assert TaxBelow(taxable, 6) == TaxBelow(taxable, 5) + 0.24 * a5;
  }

  /** The loop over the slices, leaving early once nothing is left, computes the
      closed form. */
  method ComputeAnnualPAYE(annualGross: real, annualPension: real)
    returns (taxableIncome: real, cra: real, annualPAYE: real)
    ensures cra == Relief(annualGross)
    ensures taxableIncome == Taxable(annualGross, annualPension)
    ensures annualPAYE == AnnualTax(annualGross, annualPension)
  {
    cra := 0.20 * annualGross + MaxReal(200000.0, 0.01 * annualGross);
    taxableIncome := MaxReal(0.0, annualGross - cra - annualPension);
    annualPAYE := 0.0;
    var remaining := taxableIncome;
    var i := 0;
    while i < |BRACKETS|
      invariant 0 <= i <= 6
      invariant remaining == (if i < 6 then Above(taxableIncome, SliceStart(i)) else 0.0)
      invariant annualPAYE == TaxBelow(taxableIncome, i)
    {
      if remaining <= 0.0 {
        break;
      }
      var b := BRACKETS[i];
      var inBracket := if b.limit.Some? then MinReal(remaining, b.limit.value) else remaining;
      annualPAYE := annualPAYE + inBracket * b.rate;
      remaining := remaining - inBracket;
      i := i + 1;
    }
    UnreachedSlices(taxableIncome, i);
    SlicesAddUp(taxableIncome);
    if annualPAYE < 0.01 * annualGross {
      annualPAYE := 0.01 * annualGross;
    }
  }

  // ---------- what the tax promises ----------

  lemma PartsRise(t1: real, t2: real)
    requires 0.0 <= t1 <= t2
    ensures var p, q := PartsOf(t1), PartsOf(t2);
      && q.a - p.a == t2 - t1
      && 0.0 <= q.b - p.b <= t2 - t1 && 0.0 <= q.c - p.c <= t2 - t1 && 0.0 <= q.d - p.d <= t2 - t1
      && 0.0 <= q.e - p.e <= t2 - t1 && 0.0 <= q.f - p.f <= t2 - t1
  {
  }

  lemma WeightedRise(p: Parts, q: Parts, rise: real)
    requires q.a - p.a == rise
    requires 0.0 <= q.b - p.b <= rise && 0.0 <= q.c - p.c <= rise && 0.0 <= q.d - p.d <= rise
    requires 0.0 <= q.e - p.e <= rise && 0.0 <= q.f - p.f <= rise
    ensures 0.07 * rise <= Weighted(q) - Weighted(p) <= 0.24 * rise
  {
  }

  /** Every extra naira of taxable income costs between 7 and 24 kobo. */
  lemma MarginalRates(t1: real, t2: real)
    requires 0.0 <= t1 <= t2
    ensures 0.07 * (t2 - t1) <= BracketTax(t2) - BracketTax(t1) <= 0.24 * (t2 - t1)
  {
    PartsRise(t1, t2);
    WeightedRise(PartsOf(t1), PartsOf(t2), t2 - t1);
  }

  /** `q - p` is at most `q' - p'`, part by part. */
  predicate RisesNoMore(p: Parts, q: Parts, p': Parts, q': Parts) {
    && q.a - p.a <= q'.a - p'.a && q.b - p.b <= q'.b - p'.b && q.c - p.c <= q'.c - p'.c
    && q.d - p.d <= q'.d - p'.d && q.e - p.e <= q'.e - p'.e && q.f - p.f <= q'.f - p'.f
  }

  lemma WeightedDifferences(p: Parts, q: Parts, p': Parts, q': Parts)
    requires RisesNoMore(p, q, p', q')
    ensures Weighted(q) - Weighted(p) <= Weighted(q') - Weighted(p')
  {
  }

  /** The rate table is progressive (the tax is convex): the same extra income is
      taxed no less on top of a larger income. */
  lemma TaxIsConvex(t1: real, t2: real, extra: real)
    requires t1 <= t2 && 0.0 <= extra
    ensures BracketTax(t1 + extra) - BracketTax(t1) <= BracketTax(t2 + extra) - BracketTax(t2)
  {
    assert RisesNoMore(PartsOf(t1), PartsOf(t1 + extra), PartsOf(t2), PartsOf(t2 + extra));
    WeightedDifferences(PartsOf(t1), PartsOf(t1 + extra), PartsOf(t2), PartsOf(t2 + extra));
  }

  lemma TaxableInGross(g1: real, g2: real, pension: real)
    requires 0.0 <= g1 <= g2
    ensures 0.0 <= Taxable(g1, pension)
    ensures 0.0 <= Taxable(g2, pension) - Taxable(g1, pension) <= 0.8 * (g2 - g1)
  {
  }

  lemma LargerStep(a1: real, a2: real, b1: real, b2: real, rise: real)
    requires 0.0 <= a2 - a1 <= rise && 0.0 <= b2 - b1 <= rise
    ensures 0.0 <= MaxReal(a2, b2) - MaxReal(a1, b1) <= rise
  {
  }

  /** The annual tax is at least 1% of gross and, for a fixed pension, grows with
      gross by at most 19.2 kobo in the naira. */
  lemma AnnualTaxInGross(g1: real, g2: real, pension: real)
    requires 0.0 <= g1 <= g2
    ensures AnnualTax(g1, pension) >= 0.01 * g1
    ensures 0.0 <= AnnualTax(g2, pension) - AnnualTax(g1, pension) <= 0.192 * (g2 - g1)
  {
    hide BracketTax, Taxable;
    var t1, t2 := Taxable(g1, pension), Taxable(g2, pension);
    TaxableInGross(g1, g2, pension);
    MarginalRates(t1, t2);
    LargerStep(0.01 * g1, 0.01 * g2, BracketTax(t1), BracketTax(t2), 0.192 * (g2 - g1));
  }

  /** For a fixed gross, a larger pension saves at most 24 kobo of tax in the naira. */
  lemma AnnualTaxInPension(gross: real, p1: real, p2: real)
    requires p1 <= p2
    ensures 0.0 <= AnnualTax(gross, p1) - AnnualTax(gross, p2) <= 0.24 * (p2 - p1)
  {
    var t1, t2 := Taxable(gross, p1), Taxable(gross, p2);
    assert 0.0 <= t1 - t2 <= p2 - p1;
    MarginalRates(t2, t1);
  }

  /** The rate table of the Personal Income Tax Act, Sixth Schedule, as amended in
      2011: 7, 11, 15, 19, 21 and 24 per cent on successive slices. */
  lemma RateTable(t: real)
    ensures BracketTax(t) ==
              if t <= 0.0 then 0.0
              else if t <= 300_000.0 then 0.07 * t
              else if t <= 600_000.0 then 21_000.0 + 0.11 * (t - 300_000.0)
              else if t <= 1_100_000.0 then 54_000.0 + 0.15 * (t - 600_000.0)
              else if t <= 1_600_000.0 then 129_000.0 + 0.19 * (t - 1_100_000.0)
              else if t <= 3_200_000.0 then 224_000.0 + 0.21 * (t - 1_600_000.0)
              else 560_000.0 + 0.24 * (t - 3_200_000.0)
  {
  }

  /** The relief of section 33: 200,000 and a fifth of gross up to twenty million,
      and 21 per cent of gross above. The tax of section 37 is at least 1 per cent
      of gross, and otherwise the table on gross less relief and pension. */
  lemma AssessedExactly(gross: real, pension: real)
    ensures Relief(gross) == if gross <= 20_000_000.0 then 200_000.0 + gross / 5.0 else 0.21 * gross
    ensures var taxable := gross - Relief(gross) - pension;
      && Taxable(gross, pension) == (if 0.0 < taxable then taxable else 0.0)
      && 0.01 * gross <= AnnualTax(gross, pension)
      && (AnnualTax(gross, pension) == 0.01 * gross || AnnualTax(gross, pension) == BracketTax(Taxable(gross, pension)))
      && BracketTax(Taxable(gross, pension)) <= AnnualTax(gross, pension)
  {
    hide BracketTax;
  }
}
