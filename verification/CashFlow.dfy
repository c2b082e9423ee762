/** The cash-flow statement by the indirect method: start from net income, add
    depreciation back, adjust for movements of the accounts it names. */
module CashFlow {
  import opened Basics
  import opened Calendar
  import opened Ledger
  import LedgerInvariant

  // ---------- the accounts it names ----------

  const CASH: seq<string> := ["1101", "1102", "1110", "1111", "1112", "1113", "1114"]
  const DEPRECIATION: seq<string> := ["5600", "5601", "5602", "5603", "5604"]
  const ACCUMULATED: seq<string> := ["1310", "1311", "1312", "1313", "1321"]

  const RECEIVABLES: seq<string> := ["1130", "1131", "1132", "1133", "1134"]
  const PREPAYMENTS: seq<string> := ["1140", "1141", "1142"]
  const OTHER_CURRENT: seq<string> := ["1150", "1160", "1190"]
  const FIXED_ASSETS: seq<string> := ["1301", "1302", "1303", "1304", "1320"]
  const PAYABLES: seq<string> := ["2101"]
  const ACCRUALS: seq<string> := ["2102", "2103"]
  const TAXES: seq<string> := ["2120", "2121", "2122", "2123", "2124"]
  const PENSION_SALARIES: seq<string> := ["2130", "2140"]
  const DEFERRED: seq<string> := ["2160"]
  const LOANS: seq<string> := ["2201", "2202", "2290"]
  const CAPITAL: seq<string> := ["3001", "3002"]
  const DIVIDENDS: seq<string> := ["3003"]

  /** Codes that begin with 120. */
  predicate IsInvestment(account: string) {
    3 <= |account| && account[0] == '1' && account[1] == '2' && account[2] == '0'
  }

  /** Codes that begin with 4 or 5. */
  predicate IsProfitAndLoss(account: string) {
    1 <= |account| && (account[0] == '4' || account[0] == '5')
  }

  // ---------- posted lines of a date range ----------

  predicate OnOrBefore(d: Date, e: Date) {
    d.year < e.year || (d.year == e.year && (d.month < e.month || (d.month == e.month && d.day <= e.day)))
  }

  predicate ValidDate(d: Date) {
    1 <= d.month <= 12 && 1 <= d.day <= DaysIn(Month(d.year, d.month))
  }

  function DayBefore(d: Date): Date {
    if d.day > 1 then Date(d.year, d.month, d.day - 1)
    else if d.month > 1 then LastDay(Month(d.year, d.month - 1))
    else Date(d.year - 1, 12, 31)
  }

  lemma DayBeforeSplits(d: Date, e: Date)
    requires ValidDate(d) && ValidDate(e)
    ensures OnOrBefore(d, DayBefore(e)) <==> !OnOrBefore(e, d)
  {
  }

  /** An empty bound is no bound. */
  predicate InRange(d: Date, from: Option<Date>, to: Option<Date>) {
    (from.Some? ==> OnOrBefore(from.value, d)) && (to.Some? ==> OnOrBefore(d, to.value))
  }

  predicate Selected(st: State, i: JournalId, from: Option<Date>, to: Option<Date>) {
    i in st.journals && st.journals[i].status.Posted? && InRange(st.journals[i].date, from, to)
  }

  function LinesUpTo(st: State, from: Option<Date>, to: Option<Date>, n: nat): seq<Line> {
    if n == 0 then []
    else if Selected(st, n - 1, from, to) then LinesUpTo(st, from, to, n - 1) + st.journals[n - 1].lines
    else LinesUpTo(st, from, to, n - 1)
  }

  function PeriodLines(st: State, from: Option<Date>, to: Option<Date>): seq<Line> {
    LinesUpTo(st, from, to, st.nextId)
  }

  // ---------- sums ----------

  /** Debit less credit over a list of accounts. */
  function NetList(lines: seq<Line>, codes: seq<string>): int {
    if codes == [] then 0
    else NetList(lines, codes[..|codes| - 1]) + Net(lines, codes[|codes| - 1])
  }

  /** Debit less credit over the lines whose account passes a test. */
  function NetWhere(lines: seq<Line>, test: string -> bool): int {
    if lines == [] then 0
    else
      var l := lines[|lines| - 1];
      NetWhere(lines[..|lines| - 1], test) + if test(l.account) then l.debit - l.credit else 0
  }

  /** The net movement on each balance-sheet account that moved. */
  ghost predicate MovementsOf(mv: map<string, int>, lines: seq<Line>) {
    && (forall a :: a in mv ==> !IsProfitAndLoss(a) && mv[a] == Net(lines, a))
    && (forall k :: 0 <= k < |lines| && !IsProfitAndLoss(lines[k].account) ==> lines[k].account in mv)
  }

  function CashUpTo(st: State, to: Option<Date>): int {
    if to.None? then 0 else NetList(PeriodLines(st, None, to), CASH)
  }

  datatype Report = Report(
    netIncome: int, depreciation: int, receivables: int, prepayments: int, otherCurrent: int, payables: int,
    accruals: int, taxes: int, pensionSalaries: int, deferred: int,
    fixedAssets: int, investments: int,
    loans: int, capital: int, dividends: int,
    operating: int, investing: int, financing: int,
    netChange: int, openingCash: int, closingCash: int)

  function ReportOf(st: State, netIncome: int, from: Option<Date>, to: Option<Date>): Report {
    var lines := PeriodLines(st, from, to);
    var depreciation := NetList(lines, DEPRECIATION);
    var receivables, prepayments := -NetList(lines, RECEIVABLES), -NetList(lines, PREPAYMENTS);
    var otherCurrent := -NetList(lines, OTHER_CURRENT);
    var payables, accruals, taxes := -NetList(lines, PAYABLES), -NetList(lines, ACCRUALS), -NetList(lines, TAXES);
    var pensionSalaries, deferred := -NetList(lines, PENSION_SALARIES), -NetList(lines, DEFERRED);
    var fixedAssets, investments := -NetList(lines, FIXED_ASSETS), -NetWhere(lines, IsInvestment);
    var loans, capital, dividends := -NetList(lines, LOANS), -NetList(lines, CAPITAL), -NetList(lines, DIVIDENDS);
    var operating := netIncome + depreciation + receivables + prepayments + otherCurrent + payables + accruals + taxes
                     + pensionSalaries + deferred;
    var investing := fixedAssets + investments;
    var financing := loans + capital + dividends;
    Report(netIncome, depreciation, receivables, prepayments, otherCurrent, payables, accruals, taxes,
           pensionSalaries, deferred, fixedAssets, investments, loans, capital, dividends,
           operating, investing, financing, operating + investing + financing,
           if from.Some? then CashUpTo(st, Some(DayBefore(from.value))) else 0, CashUpTo(st, to))
  }

  // ---------- algebra of the sums ----------

  lemma {:induction false} NetConcat(a: seq<Line>, b: seq<Line>, account: string)
    ensures Net(a + b, account) == Net(a, account) + Net(b, account)
  {
    if b == [] {
      assert a + b == a;
    } else {
      assert (a + b)[..|a + b| - 1] == a + b[..|b| - 1];
      NetConcat(a, b[..|b| - 1], account);
    }
  }

  lemma {:induction false} SumsConcat(a: seq<Line>, b: seq<Line>)
    ensures DebitSum(a + b) == DebitSum(a) + DebitSum(b)
    ensures CreditSum(a + b) == CreditSum(a) + CreditSum(b)
  {
    if b == [] {
      assert a + b == a;
    } else {
      assert (a + b)[..|a + b| - 1] == a + b[..|b| - 1];
      SumsConcat(a, b[..|b| - 1]);
    }
  }

  lemma {:induction false} NetListConcatLines(a: seq<Line>, b: seq<Line>, codes: seq<string>)
    ensures NetList(a + b, codes) == NetList(a, codes) + NetList(b, codes)
  {
    if codes != [] {
      NetListConcatLines(a, b, codes[..|codes| - 1]);
      NetConcat(a, b, codes[|codes| - 1]);
    }
  }

  /** The lines of the accounts on the list, the list repeated as often as it
      names the account of a line. */
  function Occurrences(codes: seq<string>, account: string): nat {
    if codes == [] then 0
    else Occurrences(codes[..|codes| - 1], account) + if codes[|codes| - 1] == account then 1 else 0
  }

  lemma NetOfLine(l: Line, account: string)
    ensures Net([l], account) == if l.account == account then l.debit - l.credit else 0
  {
    SumsAppend([], l, account);
    assert [] + [l] == [l];
  }

  lemma {:induction false} NetListOfLine(l: Line, codes: seq<string>)
    ensures NetList([l], codes) == Occurrences(codes, l.account) * (l.debit - l.credit)
  {
    if codes != [] {
      var front, last := codes[..|codes| - 1], codes[|codes| - 1];
      NetListOfLine(l, front);
      NetOfLine(l, last);
      hide Net;
      assert Occurrences(codes, l.account) == Occurrences(front, l.account) + if last == l.account then 1 else 0;
    }
  }

  predicate Distinct(codes: seq<string>) {
    forall i, j :: 0 <= i < j < |codes| ==> codes[i] != codes[j]
  }

  lemma {:induction false} OccurrencesOfDistinct(codes: seq<string>, account: string)
    requires Distinct(codes)
    ensures Occurrences(codes, account) == if account in codes then 1 else 0
  {
    if codes != [] {
      var front := codes[..|codes| - 1];
      OccurrencesOfDistinct(front, account);
      assert codes == front + [codes[|codes| - 1]];
      assert account in front ==> exists i :: 0 <= i < |front| && codes[i] == account;
    }
  }

  lemma {:induction false} NetListOfNothing(codes: seq<string>)
    ensures NetList([], codes) == 0
  {
    if codes != [] { NetListOfNothing(codes[..|codes| - 1]); }
  }

  // ---------- every account falls in one class ----------

  function Digit(c: char): int {
    c as int - '0' as int
  }

  /** The number a four-digit code stands for. */
  function Number(code: string): int
    requires |code| == 4
  {
    Digit(code[0]) * 1000 + Digit(code[1]) * 100 + Digit(code[2]) * 10 + Digit(code[3])
  }

  /** A four-digit code in a range that is no investment and no profit-and-loss code. */
  predicate Within(code: string, low: int, high: int) {
    |code| == 4 && low <= Number(code) <= high && !IsInvestment(code) && !IsProfitAndLoss(code)
  }

  lemma AssetCodes(code: string)
    ensures code in CASH ==> Within(code, 1101, 1114)
    ensures code in RECEIVABLES ==> Within(code, 1130, 1134)
    ensures code in PREPAYMENTS ==> Within(code, 1140, 1142)
    ensures code in OTHER_CURRENT ==> Within(code, 1150, 1190)
  {
  }

  lemma LiabilityCodes(code: string)
    ensures code in PAYABLES ==> Within(code, 2101, 2101)
    ensures code in ACCRUALS ==> Within(code, 2102, 2103)
    ensures code in TAXES ==> Within(code, 2120, 2124)
    ensures code in PENSION_SALARIES ==> Within(code, 2130, 2140)
    ensures code in DEFERRED ==> Within(code, 2160, 2160)
  {
  }

  lemma CapitalCodes(code: string)
    ensures code in LOANS ==> Within(code, 2201, 2290)
    ensures code in CAPITAL ==> Within(code, 3001, 3002)
    ensures code in DIVIDENDS ==> Within(code, 3003, 3003)
  {
  }

  lemma FixedAssetCodes(code: string)
    ensures code in FIXED_ASSETS ==> Within(code, 1301, 1304) || Within(code, 1320, 1320)
    ensures code in ACCUMULATED ==> Within(code, 1310, 1313) || Within(code, 1321, 1321)
  {
  }

  function Is(b: bool): int {
    if b then 1 else 0
  }

  predicate IsNamed(a: string) {
    a in RECEIVABLES || a in PREPAYMENTS || a in OTHER_CURRENT || a in FIXED_ASSETS || a in PAYABLES || a in ACCRUALS
    || a in TAXES || a in PENSION_SALARIES || a in DEFERRED || a in LOANS || a in CAPITAL || a in DIVIDENDS
  }

  /** Neither cash, nor named, nor an investment, nor profit and loss, nor
      accumulated depreciation. */
  predicate IsUnlisted(a: string) {
    a !in CASH && !IsNamed(a) && !IsInvestment(a) && !IsProfitAndLoss(a) && a !in ACCUMULATED
  }

  function NamedOccurrences(a: string): int {
    Occurrences(RECEIVABLES, a) + Occurrences(PREPAYMENTS, a) + Occurrences(OTHER_CURRENT, a)
        + Occurrences(FIXED_ASSETS, a)
    + Occurrences(PAYABLES, a) + Occurrences(ACCRUALS, a) + Occurrences(TAXES, a) + Occurrences(PENSION_SALARIES, a)
    + Occurrences(DEFERRED, a) + Occurrences(LOANS, a) + Occurrences(CAPITAL, a) + Occurrences(DIVIDENDS, a)
  }

  lemma AssetMembership(a: string)
    ensures Occurrences(CASH, a) == Is(a in CASH)
    ensures Occurrences(RECEIVABLES, a) == Is(a in RECEIVABLES)
    ensures Occurrences(PREPAYMENTS, a) == Is(a in PREPAYMENTS)
    ensures Occurrences(OTHER_CURRENT, a) == Is(a in OTHER_CURRENT)
  {
    assert Distinct(CASH);
    assert Distinct(RECEIVABLES);
    assert Distinct(PREPAYMENTS);
    assert Distinct(OTHER_CURRENT);
    hide Distinct, Occurrences;
    OccurrencesOfDistinct(CASH, a);
    OccurrencesOfDistinct(RECEIVABLES, a);
    OccurrencesOfDistinct(PREPAYMENTS, a);
    OccurrencesOfDistinct(OTHER_CURRENT, a);
  }

  lemma FixedAssetMembership(a: string)
    ensures Occurrences(FIXED_ASSETS, a) == Is(a in FIXED_ASSETS)
    ensures Occurrences(ACCUMULATED, a) == Is(a in ACCUMULATED)
  {
    assert Distinct(FIXED_ASSETS);
    assert Distinct(ACCUMULATED);
    hide Distinct, Occurrences;
    OccurrencesOfDistinct(FIXED_ASSETS, a);
    OccurrencesOfDistinct(ACCUMULATED, a);
  }

  lemma LiabilityMembership(a: string)
    ensures Occurrences(PAYABLES, a) == Is(a in PAYABLES)
    ensures Occurrences(ACCRUALS, a) == Is(a in ACCRUALS)
    ensures Occurrences(TAXES, a) == Is(a in TAXES)
    ensures Occurrences(PENSION_SALARIES, a) == Is(a in PENSION_SALARIES)
    ensures Occurrences(DEFERRED, a) == Is(a in DEFERRED)
  {
    assert Distinct(PAYABLES);
    assert Distinct(ACCRUALS);
    assert Distinct(TAXES);
    assert Distinct(PENSION_SALARIES);
    assert Distinct(DEFERRED);
    hide Distinct, Occurrences;
    OccurrencesOfDistinct(PAYABLES, a);
    OccurrencesOfDistinct(ACCRUALS, a);
    OccurrencesOfDistinct(TAXES, a);
    OccurrencesOfDistinct(PENSION_SALARIES, a);
    OccurrencesOfDistinct(DEFERRED, a);
  }

  lemma CapitalMembership(a: string)
    ensures Occurrences(LOANS, a) == Is(a in LOANS)
    ensures Occurrences(CAPITAL, a) == Is(a in CAPITAL)
    ensures Occurrences(DIVIDENDS, a) == Is(a in DIVIDENDS)
  {
    assert Distinct(LOANS);
    assert Distinct(CAPITAL);
    assert Distinct(DIVIDENDS);
    hide Distinct, Occurrences;
    OccurrencesOfDistinct(LOANS, a);
    OccurrencesOfDistinct(CAPITAL, a);
    OccurrencesOfDistinct(DIVIDENDS, a);
  }

  /** Every account is in exactly one class. */
  lemma OneClass(a: string)
    ensures Occurrences(CASH, a) + NamedOccurrences(a) + Occurrences(ACCUMULATED, a)
            + Is(IsInvestment(a)) + Is(IsProfitAndLoss(a)) + Is(IsUnlisted(a)) == 1
  {
    hide Occurrences, Number;
    AssetMembership(a);
    FixedAssetMembership(a);
    LiabilityMembership(a);
    CapitalMembership(a);
    AssetCodes(a);
    LiabilityCodes(a);
    CapitalCodes(a);
    FixedAssetCodes(a);
  }

  // ---------- the lines of a period, class by class ----------

  function NetNamed(lines: seq<Line>): int {
    NetList(lines, RECEIVABLES) + NetList(lines, PREPAYMENTS) + NetList(lines, OTHER_CURRENT)
        + NetList(lines, FIXED_ASSETS)
    + NetList(lines, PAYABLES) + NetList(lines, ACCRUALS) + NetList(lines, TAXES) + NetList(lines, PENSION_SALARIES)
    + NetList(lines, DEFERRED) + NetList(lines, LOANS) + NetList(lines, CAPITAL) + NetList(lines, DIVIDENDS)
  }

  lemma NetListAppend(lines: seq<Line>, l: Line, codes: seq<string>)
    ensures NetList(lines + [l], codes) == NetList(lines, codes) + Occurrences(codes, l.account) * (l.debit - l.credit)
  {
    NetListConcatLines(lines, [l], codes);
    NetListOfLine(l, codes);
  }

  lemma Distribute(a: int, b: int, c: int, d: int, e: int, f: int, g: int, h: int, i: int, j: int, k: int, l: int,
      x: int)
    ensures a * x + b * x + c * x + d * x + e * x + f * x + g * x + h * x + i * x + j * x + k * x + l * x
            == (a + b + c + d + e + f + g + h + i + j + k + l) * x
  {
  }

  lemma NetNamedAppend(lines: seq<Line>, l: Line)
    ensures NetNamed(lines + [l]) == NetNamed(lines) + NamedOccurrences(l.account) * (l.debit - l.credit)
  {
    hide NetList, Occurrences;
    var a := l.account;
    NetListAppend(lines, l, RECEIVABLES);
    NetListAppend(lines, l, PREPAYMENTS);
    NetListAppend(lines, l, OTHER_CURRENT);
    NetListAppend(lines, l, FIXED_ASSETS);
    NetListAppend(lines, l, PAYABLES);
    NetListAppend(lines, l, ACCRUALS);
    NetListAppend(lines, l, TAXES);
    NetListAppend(lines, l, PENSION_SALARIES);
    NetListAppend(lines, l, DEFERRED);
    NetListAppend(lines, l, LOANS);
    NetListAppend(lines, l, CAPITAL);
    NetListAppend(lines, l, DIVIDENDS);
    Distribute(Occurrences(RECEIVABLES, a), Occurrences(PREPAYMENTS, a), Occurrences(OTHER_CURRENT, a),
               Occurrences(FIXED_ASSETS, a), Occurrences(PAYABLES, a), Occurrences(ACCRUALS, a), Occurrences(TAXES, a),
               Occurrences(PENSION_SALARIES, a), Occurrences(DEFERRED, a), Occurrences(LOANS, a),
               Occurrences(CAPITAL, a),
               Occurrences(DIVIDENDS, a), l.debit - l.credit);
  }

  lemma DistributeSix(a: int, b: int, c: int, d: int, e: int, f: int, x: int)
    requires a + b + c + d + e + f == 1
    ensures a * x + b * x + c * x + d * x + e * x + f * x == x
  {
    assert a * x + b * x + c * x + d * x + e * x + f * x == (a + b + c + d + e + f) * x;
  }

  /** Everything debited less everything credited, split over the six classes. */
  lemma {:induction false} ClassesAddUp(lines: seq<Line>)
    ensures DebitSum(lines) - CreditSum(lines)
            == NetList(lines, CASH) + NetNamed(lines) + NetList(lines, ACCUMULATED)
               + NetWhere(lines, IsInvestment) + NetWhere(lines, IsProfitAndLoss) + NetWhere(lines, IsUnlisted)
  {
    hide NetList, Occurrences, NetNamed, NamedOccurrences, IsInvestment, IsProfitAndLoss, IsUnlisted;
    if lines == [] {
      NetListOfNothing(CASH);
      NetListOfNothing(ACCUMULATED);
      NetNamedOfNothing();
    } else {
      var front, l := lines[..|lines| - 1], lines[|lines| - 1];
      var a, x := l.account, l.debit - l.credit;
      assert lines == front + [l];
      ClassesAddUp(front);
      NetListAppend(front, l, CASH);
      NetListAppend(front, l, ACCUMULATED);
      NetNamedAppend(front, l);
      OneClass(a);
      DistributeSix(Occurrences(CASH, a), NamedOccurrences(a), Occurrences(ACCUMULATED, a),
                    Is(IsInvestment(a)), Is(IsProfitAndLoss(a)), Is(IsUnlisted(a)), x);
    }
  }

  lemma NetNamedOfNothing()
    ensures NetNamed([]) == 0
  {
    hide NetList;
    NetListOfNothing(RECEIVABLES);
    NetListOfNothing(PREPAYMENTS);
    NetListOfNothing(OTHER_CURRENT);
    NetListOfNothing(FIXED_ASSETS);
    NetListOfNothing(PAYABLES);
    NetListOfNothing(ACCRUALS);
    NetListOfNothing(TAXES);
    NetListOfNothing(PENSION_SALARIES);
    NetListOfNothing(DEFERRED);
    NetListOfNothing(LOANS);
    NetListOfNothing(CAPITAL);
    NetListOfNothing(DIVIDENDS);
  }

  // ---------- the periods of a date range ----------

  ghost predicate DatesValid(st: State) {
    forall i :: i in st.journals ==> ValidDate(st.journals[i].date)
  }

  /** Dated after the end but before the start: days a range that ends before it
      starts leaves out. */
  predicate Skips(d: Date, from: Date, to: Option<Date>) {
    to.Some? && !OnOrBefore(d, to.value) && !OnOrBefore(from, d)
  }

  function SkippedUpTo(st: State, from: Date, to: Option<Date>, n: nat): seq<Line> {
    if n == 0 then []
    else if n - 1 in st.journals && st.journals[n - 1].status.Posted? && Skips(st.journals[n - 1].date, from, to)
    then SkippedUpTo(st, from, to, n - 1) + st.journals[n - 1].lines
    else SkippedUpTo(st, from, to, n - 1)
  }

  /** The cash moved between the end and the start of a range that ends before it
      starts. */
  function SkippedCash(st: State, from: Option<Date>, to: Option<Date>): int {
    if from.None? then 0 else NetList(SkippedUpTo(st, from.value, to, st.nextId), CASH)
  }

  lemma OrderTransitive(d: Date, e: Date, f: Date)
    requires OnOrBefore(d, e) && OnOrBefore(e, f)
    ensures OnOrBefore(d, f)
  {
  }

  lemma {:induction false} NothingSkipped(st: State, from: Date, to: Option<Date>, n: nat)
    requires DatesValid(st) && ValidDate(from) && (to.Some? ==> OnOrBefore(DayBefore(from), to.value))
    ensures SkippedUpTo(st, from, to, n) == []
  {
    hide DayBefore, OnOrBefore;
    if n > 0 {
      NothingSkipped(st, from, to, n - 1);
      if n - 1 in st.journals && to.Some? {
        var d := st.journals[n - 1].date;
        DayBeforeSplits(d, from);
        if OnOrBefore(d, DayBefore(from)) { OrderTransitive(d, DayBefore(from), to.value); }
      }
    }
  }

  /** Up to the end date, with the days skipped, is up to the day before the start
      plus the range, wherever the two dates stand. */
  lemma {:induction false} RangeSplits(st: State, from: Date, to: Option<Date>, codes: seq<string>, n: nat)
    requires DatesValid(st) && ValidDate(from)
    ensures NetList(LinesUpTo(st, None, to, n), codes) + NetList(SkippedUpTo(st, from, to, n), codes)
            == NetList(LinesUpTo(st, None, Some(DayBefore(from)), n), codes)
                + NetList(LinesUpTo(st, Some(from), to, n), codes)
  {
    hide NetList, DayBefore, OnOrBefore;
    if n == 0 {
      NetListOfNothing(codes);
    } else {
      RangeSplits(st, from, to, codes, n - 1);
      if n - 1 in st.journals {
        var j := st.journals[n - 1];
        DayBeforeSplits(j.date, from);
        NetListConcatLines(LinesUpTo(st, None, to, n - 1), j.lines, codes);
        NetListConcatLines(SkippedUpTo(st, from, to, n - 1), j.lines, codes);
        NetListConcatLines(LinesUpTo(st, None, Some(DayBefore(from)), n - 1), j.lines, codes);
        NetListConcatLines(LinesUpTo(st, Some(from), to, n - 1), j.lines, codes);
      }
    }
  }

  // ---------- the identity ----------

  /** What the statement leaves unexplained: net income that is not the posted
      revenue less expense, depreciation that is not matched on the accumulated
      accounts, and movements on accounts it does not name. */
  function Unexplained(lines: seq<Line>, netIncome: int): int {
    (netIncome + NetWhere(lines, IsProfitAndLoss))
    + (NetList(lines, DEPRECIATION) + NetList(lines, ACCUMULATED))
    + NetWhere(lines, IsUnlisted)
  }

  function Imbalance(lines: seq<Line>): int {
    DebitSum(lines) - CreditSum(lines)
  }

  /** All cash to date when no end date is given: closing cash then reads as nothing. */
  function Overlooked(st: State, to: Option<Date>): int {
    if to.None? then NetList(PeriodLines(st, None, None), CASH) else 0
  }

  /** The exact relation between the statement and the cash accounts, for every
      ledger and every range: they differ by the imbalance of the period's
      journals, what is unexplained, what is overlooked for want of an end date,
      and what is skipped when the range ends before it starts. So they agree
      exactly when these cancel. */
  lemma CashFlowIdentity(st: State, netIncome: int, from: Option<Date>, to: Option<Date>)
    requires DatesValid(st) && (from.Some? ==> ValidDate(from.value))
    ensures var r := ReportOf(st, netIncome, from, to);
      var lines := PeriodLines(st, from, to);
      && r.closingCash - r.openingCash
         == r.netChange + Imbalance(lines) - Unexplained(lines, netIncome) - Overlooked(st, to)
             - SkippedCash(st, from, to)
      && (r.closingCash - r.openingCash == r.netChange
          <==> Imbalance(lines) == Unexplained(lines, netIncome) + Overlooked(st, to) + SkippedCash(st, from, to))
  {
    hide NetList, DayBefore, OnOrBefore, LinesUpTo, SkippedUpTo, IsInvestment, IsProfitAndLoss, IsUnlisted;
    ClassesAddUp(PeriodLines(st, from, to));
    if from.Some? { RangeSplits(st, from.value, to, CASH, st.nextId); }
  }

  /** Nothing is overlooked when an end date is given, and nothing skipped when the
      range starts no later than the day after it ends. */
  lemma NothingLeftOut(st: State, from: Option<Date>, to: Option<Date>)
    requires DatesValid(st) && (from.Some? ==> ValidDate(from.value))
    ensures to.Some? ==> Overlooked(st, to) == 0
    ensures from.Some? && to.Some? && OnOrBefore(DayBefore(from.value), to.value) ==> SkippedCash(st, from, to) == 0
    ensures from.None? || to.None? ==> SkippedCash(st, from, to) == 0
  {
    hide NetList, DayBefore, OnOrBefore, LinesUpTo, SkippedUpTo;
    NetListOfNothing(CASH);
    if from.Some? && (to.None? || OnOrBefore(DayBefore(from.value), to.value)) {
      NothingSkipped(st, from.value, to, st.nextId);
    }
  }

  lemma {:induction false} NothingWhere(lines: seq<Line>, test: string -> bool)
    requires forall k :: 0 <= k < |lines| ==> !test(lines[k].account)
    ensures NetWhere(lines, test) == 0
  {
    if lines != [] { NothingWhere(lines[..|lines| - 1], test); }
  }

  /** The journals posted in a date range. */
  function CountUpTo(st: State, from: Option<Date>, to: Option<Date>, n: nat): nat {
    if n == 0 then 0 else CountUpTo(st, from, to, n - 1) + if Selected(st, n - 1, from, to) then 1 else 0
  }

  lemma BookedImbalance(j: Journal)
    requires LedgerInvariant.SoundJournal(j) && j.status.Posted?
    ensures Abs(Imbalance(j.lines)) <= 1
    ensures j.debitTotal == j.creditTotal ==> Imbalance(j.lines) == 0
  {
  }

  ghost predicate AllExact(st: State) {
    forall i :: i in st.journals && st.journals[i].status.Posted?
        ==> st.journals[i].debitTotal == st.journals[i].creditTotal
  }

  lemma {:induction false} ImbalanceBound(st: State, from: Option<Date>, to: Option<Date>, n: nat)
    requires LedgerInvariant.SoundJournals(st)
    ensures Abs(Imbalance(LinesUpTo(st, from, to, n))) <= CountUpTo(st, from, to, n)
    ensures AllExact(st) ==> Imbalance(LinesUpTo(st, from, to, n)) == 0
  {
    hide LedgerInvariant.SoundJournal, InRange;
    if n > 0 {
      ImbalanceBound(st, from, to, n - 1);
      if Selected(st, n - 1, from, to) {
        var j := st.journals[n - 1];
        BookedImbalance(j);
        SumsConcat(LinesUpTo(st, from, to, n - 1), j.lines);
      }
    }
  }

  /** After any run of ledger calls, when every line of the period is on an
      account the statement knows, net income is revenue less expense, and
      depreciation is matched: the net change is the change in cash, but for what
      is overlooked and skipped, to within one kobo for each journal posted in the
      period, and exactly when all posted journals balance exactly. */
  lemma NetChangeIsCashChange(
      periods: seq<Period>, commands: seq<Command>, netIncome: int, from: Option<Date>, to: Option<Date>)
    requires var st := Run(Init(periods), commands);
      var lines := PeriodLines(st, from, to);
      && DatesValid(st)
      && (from.Some? ==> ValidDate(from.value))
      && (forall k :: 0 <= k < |lines| ==> !IsUnlisted(lines[k].account))
      && netIncome == -NetWhere(lines, IsProfitAndLoss)
      && NetList(lines, ACCUMULATED) == -NetList(lines, DEPRECIATION)
    ensures var st := Run(Init(periods), commands);
      var r := ReportOf(st, netIncome, from, to);
      var change := r.closingCash - r.openingCash + Overlooked(st, to) + SkippedCash(st, from, to);
      && Abs(change - r.netChange) <= CountUpTo(st, from, to, st.nextId)
      && (AllExact(st) ==> change == r.netChange)
      && (to.Some? && (from.Some? ==> OnOrBefore(DayBefore(from.value), to.value)) ==>
            change == r.closingCash - r.openingCash)
  {
    LedgerInvariant.RunValid(periods, commands);
    hide NetList, ReportOf, Run, IsUnlisted, IsProfitAndLoss, OnOrBefore, DayBefore, NetWhere, Overlooked, SkippedCash;
    var st := Run(Init(periods), commands);
    NothingWhere(PeriodLines(st, from, to), IsUnlisted);
    CashFlowIdentity(st, netIncome, from, to);
    NothingLeftOut(st, from, to);
    ImbalanceBound(st, from, to, st.nextId);
  }

  /** The oversight shows: capital is paid in, and a statement without an end date
      reports its closing cash as nothing. */
  lemma NoEndDate(amount: int)
    requires 0 < amount
    ensures var lines := [Line("1110", amount, 0), Line("3001", 0, amount)];
      var input := JournalInput(Some(Date(2026, 1, 15)), "Capital", lines);
      var st := Run(Init([]), [Create(input), Post(0, 0)]);
      var r := ReportOf(st, 0, None, None);
      && NetList(PeriodLines(st, None, None), CASH) == amount
      && r.closingCash == 0 && r.netChange == amount
  {
    var cash, capital := Line("1110", amount, 0), Line("3001", 0, amount);
    var input := JournalInput(Some(Date(2026, 1, 15)), "Capital", [cash, capital]);
    var none: seq<Command> := [];
    RunSnoc(Init([]), none, Create(input));
    RunSnoc(Init([]), none + [Create(input)], Post(0, 0));
    assert none + [Create(input)] + [Post(0, 0)] == [Create(input), Post(0, 0)];
    SumsOfPair(cash, capital, "");
    NoFaultMeansGood(input.lines, 0);
    hide DebitSum, CreditSum, FirstFault, NetList, NetWhere, IsInvestment, IsProfitAndLoss, IsUnlisted;
    var st := Run(Init([]), [Create(input), Post(0, 0)]);
    assert st.nextId == 1 && st.journals[0].status.Posted? && st.journals[0].lines == [cash, capital];
    assert LinesUpTo(st, None, None, 0) == [] && PeriodLines(st, None, None) == [] + [cash, capital];
    hide Run, LinesUpTo, CreateJournal, PostJournal;
    CapitalPaidIn(amount);
    CashFlowIdentity(st, 0, None, None);
  }

  lemma NetListOfPair(a: Line, b: Line, codes: seq<string>)
    ensures NetList([a] + [b], codes)
            == Occurrences(codes, a.account) * (a.debit - a.credit)
                + Occurrences(codes, b.account) * (b.debit - b.credit)
  {
    hide NetList, Occurrences;
    NetListAppend([a], b, codes);
    NetListOfLine(a, codes);
  }

  lemma CashCode()
    ensures Occurrences(CASH, "1110") == 1 && Occurrences(ACCUMULATED, "1110") == 0 == Occurrences(DEPRECIATION, "1110")
    ensures !IsProfitAndLoss("1110") && !IsUnlisted("1110")
  {
    assert CASH[2] == "1110";
    hide Occurrences;
    AssetMembership("1110");
    FixedAssetMembership("1110");
    OccurrencesOfDistinct(DEPRECIATION, "1110");
  }

  lemma CapitalCode()
    ensures Occurrences(CASH, "3001") == 0 == Occurrences(ACCUMULATED, "3001") == Occurrences(DEPRECIATION, "3001")
    ensures !IsProfitAndLoss("3001") && !IsUnlisted("3001")
  {
    assert CAPITAL[0] == "3001";
    hide Occurrences;
    AssetMembership("3001");
    FixedAssetMembership("3001");
    OccurrencesOfDistinct(DEPRECIATION, "3001");
  }

  lemma CapitalPaidIn(amount: int)
    ensures var lines := [] + [Line("1110", amount, 0), Line("3001", 0, amount)];
      && NetList(lines, CASH) == amount
      && Unexplained(lines, 0) == 0 == Imbalance(lines)
  {
    var cash, capital := Line("1110", amount, 0), Line("3001", 0, amount);
    hide NetList, NetWhere, Occurrences, DebitSum, CreditSum, IsProfitAndLoss, IsUnlisted;
    CashCode();
    CapitalCode();
    SumsOfPair(cash, capital, "");
    NetListOfPair(cash, capital, CASH);
    NetListOfPair(cash, capital, DEPRECIATION);
    NetListOfPair(cash, capital, ACCUMULATED);
    assert [] + [cash, capital] == [cash] + [capital] == [cash, capital];
    NothingWhere([cash, capital], IsProfitAndLoss);
    NothingWhere([cash, capital], IsUnlisted);
  }

  // ---------- the lines of the statement ----------

  lemma NetListMore(lines: seq<Line>, codes: seq<string>, code: string)
    ensures NetList(lines, codes + [code]) == NetList(lines, codes) + Net(lines, code)
  {
    assert (codes + [code])[..|codes|] == codes;
  }

  lemma NetOfOne(lines: seq<Line>, a: string)
    ensures NetList(lines, [a]) == Net(lines, a)
  {
    NetListMore(lines, [], a);
    assert [] + [a] == [a];
  }

  lemma NetOfTwo(lines: seq<Line>, a: string, b: string)
    ensures NetList(lines, [a, b]) == Net(lines, a) + Net(lines, b)
  {
    NetOfOne(lines, a);
    NetListMore(lines, [a], b);
    assert [a] + [b] == [a, b];
  }

  lemma NetOfThree(lines: seq<Line>, a: string, b: string, c: string)
    ensures NetList(lines, [a, b, c]) == Net(lines, a) + Net(lines, b) + Net(lines, c)
  {
    NetOfTwo(lines, a, b);
    NetListMore(lines, [a, b], c);
    assert [a, b] + [c] == [a, b, c];
  }

  lemma NetOfFive(lines: seq<Line>, a: string, b: string, c: string, d: string, e: string)
    ensures NetList(lines, [a, b, c, d, e])
            == Net(lines, a) + Net(lines, b) + Net(lines, c) + Net(lines, d) + Net(lines, e)
  {
    NetOfThree(lines, a, b, c);
    NetListMore(lines, [a, b, c], d);
    NetListMore(lines, [a, b, c] + [d], e);
    assert [a, b, c] + [d] + [e] == [a, b, c, d, e];
  }

  /** What each operating line stands for: the movement of these accounts, with the
      sign of cash, and of no other. */
  lemma OperatingLines(st: State, netIncome: int, from: Option<Date>, to: Option<Date>)
    ensures var r, l := ReportOf(st, netIncome, from, to), PeriodLines(st, from, to);
      && r.netIncome == netIncome
      && r.depreciation == Net(l, "5600") + Net(l, "5601") + Net(l, "5602") + Net(l, "5603") + Net(l, "5604")
      && -r.receivables == Net(l, "1130") + Net(l, "1131") + Net(l, "1132") + Net(l, "1133") + Net(l, "1134")
      && -r.prepayments == Net(l, "1140") + Net(l, "1141") + Net(l, "1142")
      && -r.otherCurrent == Net(l, "1150") + Net(l, "1160") + Net(l, "1190")
      && -r.payables == Net(l, "2101")
      && -r.accruals == Net(l, "2102") + Net(l, "2103")
      && -r.taxes == Net(l, "2120") + Net(l, "2121") + Net(l, "2122") + Net(l, "2123") + Net(l, "2124")
      && -r.pensionSalaries == Net(l, "2130") + Net(l, "2140")
      && -r.deferred == Net(l, "2160")
      && r.operating == r.netIncome + r.depreciation + r.receivables + r.prepayments + r.otherCurrent + r.payables
                        + r.accruals + r.taxes + r.pensionSalaries + r.deferred
  {
    var l := PeriodLines(st, from, to);
    hide NetList, Net, PeriodLines, CashUpTo, NetWhere;
    NetOfFive(l, "5600", "5601", "5602", "5603", "5604");
    NetOfFive(l, "1130", "1131", "1132", "1133", "1134");
    NetOfThree(l, "1140", "1141", "1142");
    NetOfThree(l, "1150", "1160", "1190");
    NetOfOne(l, "2101");
    NetOfTwo(l, "2102", "2103");
    NetOfFive(l, "2120", "2121", "2122", "2123", "2124");
    NetOfTwo(l, "2130", "2140");
    NetOfOne(l, "2160");
  }

  /** The same for the other two sections, the totals and the cash accounts. */
  lemma OtherLines(st: State, netIncome: int, from: Option<Date>, to: Option<Date>)
    ensures var r, l := ReportOf(st, netIncome, from, to), PeriodLines(st, from, to);
      && -r.fixedAssets == Net(l, "1301") + Net(l, "1302") + Net(l, "1303") + Net(l, "1304") + Net(l, "1320")
      && -r.investments == NetWhere(l, a => |a| >= 3 && a[..3] == "120")
      && -r.loans == Net(l, "2201") + Net(l, "2202") + Net(l, "2290")
      && -r.capital == Net(l, "3001") + Net(l, "3002")
      && -r.dividends == Net(l, "3003")
      && r.investing == r.fixedAssets + r.investments && r.financing == r.loans + r.capital + r.dividends
      && r.netChange == r.operating + r.investing + r.financing
  {
    var l := PeriodLines(st, from, to);
    PrefixOfInvestments(l);
    hide NetList, Net, PeriodLines, CashUpTo, NetWhere;
    NetOfFive(l, "1301", "1302", "1303", "1304", "1320");
    NetOfThree(l, "2201", "2202", "2290");
    NetOfTwo(l, "3001", "3002");
    NetOfOne(l, "3003");
  }

  lemma PrefixOfInvestments(lines: seq<Line>)
    ensures NetWhere(lines, IsInvestment) == NetWhere(lines, a => |a| >= 3 && a[..3] == "120")
  {
    forall a: string ensures IsInvestment(a) <==> |a| >= 3 && a[..3] == "120" {
      if |a| >= 3 { assert a[..3] == [a[0], a[1], a[2]]; }
    }
    WhereSame(lines, IsInvestment, a => |a| >= 3 && a[..3] == "120");
  }

  /** Cash is counted on these seven accounts, over all that was posted up to a date:
      the day before the start for opening cash, the end for closing cash. */
  lemma CashCounted(st: State, netIncome: int, from: Option<Date>, to: Option<Date>)
    ensures var r := ReportOf(st, netIncome, from, to);
      && (from.None? ==> r.openingCash == 0) && (to.None? ==> r.closingCash == 0)
      && (from.Some? ==> r.openingCash == CashOn(PeriodLines(st, None, Some(DayBefore(from.value)))))
      && (to.Some? ==> r.closingCash == CashOn(PeriodLines(st, None, to)))
  {
    hide NetList, Net, NetWhere, PeriodLines, DayBefore;
    if from.Some? { CashListed(PeriodLines(st, None, Some(DayBefore(from.value)))); }
    CashListed(PeriodLines(st, None, to));
  }

  function CashOn(l: seq<Line>): int {
    Net(l, "1101") + Net(l, "1102") + Net(l, "1110") + Net(l, "1111") + Net(l, "1112") + Net(l, "1113") + Net(l, "1114")
  }

  lemma CashListed(l: seq<Line>)
    ensures NetList(l, CASH) == CashOn(l)
  {
    hide NetList, Net;
    NetOfFive(l, "1101", "1102", "1110", "1111", "1112");
    NetListMore(l, ["1101", "1102", "1110", "1111", "1112"], "1113");
    NetListMore(l, ["1101", "1102", "1110", "1111", "1112"] + ["1113"], "1114");
    assert ["1101", "1102", "1110", "1111", "1112"] + ["1113"] + ["1114"] == CASH;
  }

  // ---------- the statement as it is computed ----------

  /** Fill the table of movements, one balance-sheet line after another. */
  method FillMovements(lines: seq<Line>) returns (mv: map<string, int>)
    ensures MovementsOf(mv, lines)
  {
    hide IsProfitAndLoss;
    mv := map[];
    for i := 0 to |lines|
      invariant MovementsOf(mv, lines[..i])
    {
      var l := lines[i];
      assert lines[..i + 1][..i] == lines[..i];
      if !IsProfitAndLoss(l.account) {
        if l.account !in mv { NetOffTable(mv, lines[..i], l.account); }
        mv := mv[l.account := (if l.account in mv then mv[l.account] else 0) + l.debit - l.credit];
      }
    }
    assert lines[..|lines|] == lines;
  }

  /** An account absent from the table did not move. */
  lemma NetOffTable(mv: map<string, int>, lines: seq<Line>, account: string)
    requires MovementsOf(mv, lines) && account !in mv && !IsProfitAndLoss(account)
    ensures Net(lines, account) == 0
  {
    NetUntouched(lines, account);
  }

  /** The cash-flow effect of a list of accounts, looked up in the table. */
  method Cf(mv: map<string, int>, codes: seq<string>, ghost lines: seq<Line>) returns (r: int)
    requires MovementsOf(mv, lines) && NoneIn(codes)
    ensures r == -NetList(lines, codes)
  {
    hide IsProfitAndLoss, Net;
    var sum := 0;
    for i := 0 to |codes|
      invariant sum == NetList(lines, codes[..i])
    {
      if codes[i] in mv {
        sum := sum + mv[codes[i]];
      } else {
        NetOffTable(mv, lines, codes[i]);
      }
      assert codes[..i + 1][..i] == codes[..i];
    }
    assert codes[..|codes|] == codes;
    r := -sum;
  }

  lemma {:induction false} InvestedStep(lines: seq<Line>, p: string -> bool, q: string -> bool, account: string)
    requires !p(account) && q(account) && forall a :: a != account ==> p(a) == q(a)
    ensures NetWhere(lines, q) == NetWhere(lines, p) + Net(lines, account)
  {
    if lines != [] { InvestedStep(lines[..|lines| - 1], p, q, account); }
  }

  lemma {:induction false} WhereSame(lines: seq<Line>, p: string -> bool, q: string -> bool)
    requires forall k :: 0 <= k < |lines| ==> p(lines[k].account) == q(lines[k].account)
    ensures NetWhere(lines, p) == NetWhere(lines, q)
  {
    if lines != [] { WhereSame(lines[..|lines| - 1], p, q); }
  }

  /** The cash-flow effect of all investment accounts, taking the rows of the
      table in whatever order they come. */
  method CfInvestments(mv: map<string, int>, ghost lines: seq<Line>) returns (r: int)
    requires MovementsOf(mv, lines)
    ensures r == -NetWhere(lines, IsInvestment)
  {
    var sum := 0;
    var rest := mv.Keys;
    ghost var test: string -> bool := a => false;
    NothingWhere(lines, test);
    while rest != {}
      invariant rest <= mv.Keys
      invariant forall a :: test(a) <==> IsInvestment(a) && a in mv.Keys - rest
      invariant sum == NetWhere(lines, test)
      decreases rest
    {
      var k :| k in rest;
      rest := rest - {k};
      ghost var next: string -> bool := a => IsInvestment(a) && a in mv.Keys - rest;
      if IsInvestment(k) {
        sum := sum + mv[k];
        InvestedStep(lines, test, next, k);
      } else {
        WhereSame(lines, test, next);
      }
      test := next;
    }
    WhereSame(lines, test, IsInvestment);
    r := -sum;
  }

  method CollectLines(st: State, from: Option<Date>, to: Option<Date>) returns (lines: seq<Line>)
    ensures lines == PeriodLines(st, from, to)
  {
    lines := [];
    for i := 0 to st.nextId
      invariant lines == LinesUpTo(st, from, to, i)
    {
      if Selected(st, i, from, to) {
        lines := lines + st.journals[i].lines;
      }
    }
  }

  method SumOver(lines: seq<Line>, codes: seq<string>) returns (sum: int)
    ensures sum == NetList(lines, codes)
  {
    sum := 0;
    for i := 0 to |codes|
      invariant sum == NetList(lines, codes[..i])
    {
      sum := sum + Net(lines, codes[i]);
      assert codes[..i + 1][..i] == codes[..i];
    }
    assert codes[..|codes|] == codes;
  }

  method CashSum(st: State, to: Option<Date>) returns (sum: int)
    ensures sum == CashUpTo(st, to)
  {
    if to.None? {
      return 0;
    }
    var lines := CollectLines(st, None, to);
    sum := SumOver(lines, CASH);
  }

  method GetCashFlow(st: State, netIncome: int, from: Option<Date>, to: Option<Date>) returns (r: Report)
    ensures r == ReportOf(st, netIncome, from, to)
  {
    hide NetList, NetWhere, IsProfitAndLoss, IsInvestment, PeriodLines, CashUpTo, MovementsOf, NoneIn, DayBefore;
    var lines := CollectLines(st, from, to);
    var mv := FillMovements(lines);
    NoneProfitAndLoss();
    var depreciation := SumOver(lines, DEPRECIATION);
    var receivables := Cf(mv, RECEIVABLES, lines);
    var prepayments := Cf(mv, PREPAYMENTS, lines);
    var otherCurrent := Cf(mv, OTHER_CURRENT, lines);
    var payables := Cf(mv, PAYABLES, lines);
    var accruals := Cf(mv, ACCRUALS, lines);
    var taxes := Cf(mv, TAXES, lines);
    var pensionSalaries := Cf(mv, PENSION_SALARIES, lines);
    var deferred := Cf(mv, DEFERRED, lines);
    var operating := netIncome + depreciation + receivables + prepayments + otherCurrent + payables + accruals + taxes
                 + pensionSalaries + deferred;
    var fixedAssets := Cf(mv, FIXED_ASSETS, lines);
    var investments := CfInvestments(mv, lines);
    var investing := fixedAssets + investments;
    var loans := Cf(mv, LOANS, lines);
    var capital := Cf(mv, CAPITAL, lines);
    var dividends := Cf(mv, DIVIDENDS, lines);
    var financing := loans + capital + dividends;
    var netChange := operating + investing + financing;
    var openingCash := 0;
    if from.Some? {
      openingCash := CashSum(st, Some(DayBefore(from.value)));
    }
    var closingCash := CashSum(st, to);
    r := Report(netIncome, depreciation, receivables, prepayments, otherCurrent, payables, accruals, taxes,
                pensionSalaries, deferred, fixedAssets, investments, loans, capital, dividends,
                operating, investing, financing, netChange, openingCash, closingCash);
  }

  predicate NoneIn(codes: seq<string>) {
    forall k :: 0 <= k < |codes| ==> !IsProfitAndLoss(codes[k])
  }

  lemma NoneProfitAndLoss()
    ensures NoneIn(RECEIVABLES) && NoneIn(PREPAYMENTS) && NoneIn(OTHER_CURRENT) && NoneIn(PAYABLES)
    ensures NoneIn(ACCRUALS) && NoneIn(TAXES) && NoneIn(PENSION_SALARIES) && NoneIn(DEFERRED)
    ensures NoneIn(FIXED_ASSETS) && NoneIn(LOANS) && NoneIn(CAPITAL) && NoneIn(DIVIDENDS)
  {
  }
}
