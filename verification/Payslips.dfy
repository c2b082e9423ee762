/** One employee's monthly pay. Amounts are in kobo; the grade table holds the
    gross in whole kobo. */
module Payslips {
  import opened Basics
  import Paye

  datatype Payslip = Payslip(
    gross: int,
    basic: int,
    housing: int,
    transport: int,
    pensionable: int,
    employeePension: int,
    employerPension: int,
    cra: int,
    taxable: int,
    paye: int,
    net: int)

  function Basic(gross: int): int {
    Round(0.70 * gross as real)
  }

  function Allowance(gross: int): int {
    Round(0.15 * gross as real)
  }

  function Pensionable(gross: int): int {
    Basic(gross) + Allowance(gross) + Allowance(gross)
  }

  function EmployeePension(gross: int): int {
    Round(0.08 * Pensionable(gross) as real)
  }

  function EmployerPension(gross: int): int {
    Round(0.10 * Pensionable(gross) as real)
  }

  /** A monthly amount in kobo as a yearly amount in naira. */
  function Yearly(kobo: int): real {
    kobo as real * 12.0 / 100.0
  }

  /** A yearly amount in naira as a monthly amount in whole kobo. */
  function Monthly(naira: real): int {
    Round(naira * 100.0 / 12.0)
  }

  function MonthlyTax(gross: int, pension: int): int {
    Monthly(Paye.AnnualTax(Yearly(gross), Yearly(pension)))
  }

  function PayslipOf(gross: int): Payslip {
    var pension := EmployeePension(gross);
    var paye := MonthlyTax(gross, pension);
    Payslip(gross, Basic(gross), Allowance(gross), Allowance(gross), Pensionable(gross),
            pension, EmployerPension(gross),
            Monthly(Paye.Relief(Yearly(gross))), Monthly(Paye.Taxable(Yearly(gross), Yearly(pension))),
            paye, gross - pension - paye)
  }

  function NetPay(gross: int): int {
    PayslipOf(gross).net
  }

  method ComputePayslip(gross: int) returns (p: Payslip)
    ensures p == PayslipOf(gross)
  {
    hide Paye.AnnualTax, Paye.Taxable, Paye.Relief, Round;
    var basic := Round(0.70 * gross as real);
    var housing := Round(0.15 * gross as real);
    var transport := Round(0.15 * gross as real);
    var pensionable := basic + housing + transport;
    var employeePension := Round(0.08 * pensionable as real);
    var employerPension := Round(0.10 * pensionable as real);
    var taxable, cra, annual := Paye.ComputeAnnualPAYE(Yearly(gross), Yearly(employeePension));
    var paye := Monthly(annual);
    var net := Round((gross - employeePension - paye) as real);
    RoundWhole(gross - employeePension - paye);
    p := Payslip(gross, basic, housing, transport, pensionable, employeePension, employerPension,
                 Monthly(cra), Monthly(taxable), paye, net);
  }

  // ---------- what a payslip promises ----------

  /** The 70/15/15 split re-adds to within one kobo of gross. */
  lemma SplitReadds(gross: int)
    ensures Abs(Pensionable(gross) - gross) <= 1
  {
  }

  lemma RoundShift(x: real, n: nat)
    requires 0.0 <= x
    ensures Round(x + n as real) == Round(x) + n
  {
  }

  lemma SplitShift(rest: nat, q: nat)
    ensures Basic(20 * q + rest) == 14 * q + Basic(rest)
    ensures Allowance(20 * q + rest) == 3 * q + Allowance(rest)
  {
    hide Round;
    RoundShift(0.70 * rest as real, 14 * q);
    RoundShift(0.15 * rest as real, 3 * q);
    assert 0.70 * (20 * q + rest) as real == 0.70 * rest as real + (14 * q) as real;
    assert 0.15 * (20 * q + rest) as real == 0.15 * rest as real + (3 * q) as real;
  }

  lemma SplitOfNegative(gross: int)
    requires 0 <= gross
    ensures Pensionable(-gross) == -Pensionable(gross)
  {
  }

  lemma SplitOfRest(rest: nat)
    requires rest < 20
    ensures Pensionable(rest) == rest <==> rest in {0, 1, 6, 7, 8, 12, 13, 14, 15, 19}
    ensures Pensionable(2) == 1
  {
  }

  /** The split re-adds to exactly the gross for ten of the twenty remainders of
      the gross in kobo by twenty, and for no other gross. Two kobo, for one, split
      into one, nought and nought. */
  lemma SplitExactly(gross: int)
    ensures Pensionable(gross) == gross <==> Abs(gross) % 20 in {0, 1, 6, 7, 8, 12, 13, 14, 15, 19}
    ensures Pensionable(2) == 1
  {
    hide Basic, Allowance;
    var size := Abs(gross);
    SplitShift(size % 20, size / 20);
    SplitOfRest(size % 20);
    if gross < 0 { SplitOfNegative(size); }
    assert size == 20 * (size / 20) + size % 20;
  }

  /** The 1% rule sets a floor and the rate table a ceiling on the monthly tax. */
  lemma MonthlyTaxBounds(gross: int, pension: int)
    requires 0 <= gross && 0 <= pension
    ensures 0 <= MonthlyTax(gross, pension)
    ensures MonthlyTax(gross, pension) as real <= 0.192 * gross as real + 0.5
  {
    hide Paye.AnnualTax;
    Paye.AnnualTaxInGross(0.0, Yearly(gross), Yearly(pension));
    NoGrossNoTax(Yearly(pension));
  }

  lemma NoGrossNoTax(pension: real)
    requires 0.0 <= pension
    ensures Paye.AnnualTax(0.0, pension) == 0.0
  {
    assert Paye.Taxable(0.0, pension) == 0.0;
  }

  lemma PensionBounds(gross: int)
    requires 0 <= gross
    ensures 0 <= EmployeePension(gross)
    ensures EmployeePension(gross) as real <= 0.08 * (gross + 1) as real + 0.5
  {
    SplitReadds(gross);
  }

  /** Every part of a payslip is non-negative, the net included. */
  lemma NothingNegative(gross: int)
    requires 0 <= gross
    ensures var p := PayslipOf(gross);
      p.basic >= 0 && p.housing >= 0 && p.employeePension >= 0 && p.employerPension >= 0 && p.paye >= 0 && p.net >= 0
  {
    hide EmployeePension, MonthlyTax;
    PensionBounds(gross);
    MonthlyTaxBounds(gross, EmployeePension(gross));
  }

  lemma PensionStep(gross: int)
    requires 0 <= gross
    ensures 0 <= EmployeePension(gross + 1) - EmployeePension(gross) <= 1
  {
    RoundMonotone(0.70 * gross as real, 0.70 * (gross + 1) as real);
    RoundMonotone(0.15 * gross as real, 0.15 * (gross + 1) as real);
    RoundMonotone(0.08 * Pensionable(gross) as real, 0.08 * Pensionable(gross + 1) as real);
  }

  function OnePercent(gross: int): int {
    Round(0.01 * gross as real)
  }

  /** The pension and the 1% tax never step up at the same kobo of gross. */
  lemma StepsApart(gross: int)
    requires 0 <= gross && OnePercent(gross) < OnePercent(gross + 1)
    ensures EmployeePension(gross + 1) == EmployeePension(gross)
  {
    var k := OnePercent(gross);
    assert gross == 100 * k + 49;
    assert Basic(gross) == 70 * k + 34 && Allowance(gross) == 15 * k + 7;
    assert EmployeePension(gross) == 8 * k + 4;
    assert Basic(gross + 1) == 70 * k + 35 && 15 * k + 7 <= Allowance(gross + 1) <= 15 * k + 8;
    assert EmployeePension(gross + 1) == 8 * k + 4;
  }

  /** One more kobo of gross and of pension leaves less to tax, so only the 1%
      rule can raise the tax. */
  lemma TaxOnBothSteps(gross: int, pension: int)
    requires 0 <= gross && 0 <= pension
    ensures var before := Paye.AnnualTax(Yearly(gross), Yearly(pension));
      var after := Paye.AnnualTax(Yearly(gross + 1), Yearly(pension + 1));
      && 0.01 * Yearly(gross) <= before
      && (after <= before || after == 0.01 * Yearly(gross + 1))
  {
    hide Paye.BracketTax, Paye.Taxable;
    var t, t' := Paye.Taxable(Yearly(gross), Yearly(pension)), Paye.Taxable(Yearly(gross + 1), Yearly(pension + 1));
    LessToTax(gross, pension);
    Paye.MarginalRates(t', t);
  }

  lemma LessToTax(gross: int, pension: int)
    ensures 0.0 <= Paye.Taxable(Yearly(gross + 1), Yearly(pension + 1)) <= Paye.Taxable(Yearly(gross), Yearly(pension))
  {
  }

  /** One more kobo of gross never lowers the net. */
  lemma NetStep(gross: int)
    requires 0 <= gross
    ensures NetPay(gross) <= NetPay(gross + 1)
  {
    hide Paye.AnnualTax, EmployeePension;
    var pension := EmployeePension(gross);
    PensionStep(gross);
    PensionBounds(gross);
    if EmployeePension(gross + 1) == pension {
      Paye.AnnualTaxInGross(Yearly(gross), Yearly(gross + 1), Yearly(pension));
    } else {
      TaxOnBothSteps(gross, pension);
      if OnePercent(gross) < OnePercent(gross + 1) { StepsApart(gross); }
      var before := Paye.AnnualTax(Yearly(gross), Yearly(pension));
      var after := Paye.AnnualTax(Yearly(gross + 1), Yearly(pension + 1));
      RoundMonotone(0.01 * gross as real, before * 100.0 / 12.0);
      if after <= before {
        RoundMonotone(after * 100.0 / 12.0, before * 100.0 / 12.0);
      } else {
        assert Monthly(after) == OnePercent(gross + 1);
      }
    }
  }

  /** A higher gross never yields a lower net, across every bracket, the 1% rule
      and every rounding. */
  lemma {:induction false} NetGrowsWithGross(low: int, high: int)
    requires 0 <= low <= high
    ensures NetPay(low) <= NetPay(high)
    decreases high - low
  {
    hide NetPay;
    if low < high {
      NetGrowsWithGross(low, high - 1);
      NetStep(high - 1);
    }
  }

  // ---------- the shares of a payslip ----------

  /** Each amount of a payslip, to the rounding: 70, 15 and 15 per cent of gross make
      up the pensionable pay, of which the employee gives 8 and the employer 10 per
      cent; relief, taxable income and tax are a twelfth of the year's; and the net is
      what is left of gross. */
  lemma PayslipShares(gross: int)
    ensures var p := PayslipOf(gross);
      var annualGross, annualPension := 12.0 * gross as real / 100.0, 12.0 * p.employeePension as real / 100.0;
      && p.gross == gross && p.net == gross - p.employeePension - p.paye
      && Abs(10 * p.basic - 7 * gross) <= 5
      && Abs(100 * p.housing - 15 * gross) <= 50 && Abs(100 * p.transport - 15 * gross) <= 50
      && p.pensionable == p.basic + p.housing + p.transport
      && Abs(100 * p.employeePension - 8 * p.pensionable) <= 50
      && Abs(10 * p.employerPension - p.pensionable) <= 5
      && TwelfthOf(p.paye, Paye.AnnualTax(annualGross, annualPension))
      && TwelfthOf(p.cra, Paye.Relief(annualGross))
      && TwelfthOf(p.taxable, Paye.Taxable(annualGross, annualPension))
  {
    hide Round, Paye.AnnualTax, Paye.Relief, Paye.Taxable;
    var p := PayslipOf(gross);
    assert Yearly(gross) == 12.0 * gross as real / 100.0;
    assert Yearly(p.employeePension) == 12.0 * p.employeePension as real / 100.0;
    MonthlyIsTwelfth(Paye.AnnualTax(Yearly(gross), Yearly(p.employeePension)));
    MonthlyIsTwelfth(Paye.Relief(Yearly(gross)));
    MonthlyIsTwelfth(Paye.Taxable(Yearly(gross), Yearly(p.employeePension)));
  }

  /** Twelve times the monthly kobo are the yearly naira, to six kobo. */
  predicate TwelfthOf(kobo: int, naira: real) {
    -6.0 <= (12 * kobo) as real - 100.0 * naira <= 6.0
  }

  lemma MonthlyIsTwelfth(naira: real)
    ensures TwelfthOf(Monthly(naira), naira)
  {
    hide Round;
  }
}
