/** Monthly payroll runs: payslips, approval into the ledger, and remittance of
    the tax and pension withheld. */
module Payroll {
  import opened Basics
  import opened Sums
  import opened Calendar
  import opened Payslips
  import Ledger
  import LedgerInvariant
  import opened Postings

  datatype RunStatus = RunDraft | RunApproved

  datatype Totals = Totals(gross: int, paye: int, employeePension: int, employerPension: int, net: int)

  datatype PayRun = PayRun(
    subsidiary: Option<nat>,
    month: Month,
    status: RunStatus,
    payslips: seq<Payslip>,
    totals: Totals)

  /** What was withheld and is owed on: income tax, or pension contributions. */
  datatype Liability = PAYE | Pension

  datatype Remittance = Remittance(run: nat, liability: Liability, amount: int)

  datatype State = State(
    ledger: Ledger.State,
    runs: map<nat, PayRun>,
    nextId: nat,
    remittances: seq<Remittance>)

  function Init(periods: seq<Ledger.Period>): State {
    State(Ledger.Init(periods), map[], 0, [])
  }

  // ---------- totals ----------

  function SlipsOf(grosses: seq<int>): (slips: seq<Payslip>)
    ensures |slips| == |grosses|
  {
    seq(|grosses|, i requires 0 <= i < |grosses| => PayslipOf(grosses[i]))
  }

  function TotalsOf(slips: seq<Payslip>): Totals {
    if slips == [] then Totals(0, 0, 0, 0, 0)
    else
      var t, p := TotalsOf(slips[..|slips| - 1]), slips[|slips| - 1];
      Totals(t.gross + p.gross, t.paye + p.paye, t.employeePension + p.employeePension,
             t.employerPension + p.employerPension, t.net + p.net)
  }

  function SumOf(xs: seq<int>): int {
    if xs == [] then 0 else SumOf(xs[..|xs| - 1]) + xs[|xs| - 1]
  }

  /** For any number of employees: the total gross is the sum of the gross pay,
      it is shared out exactly between net, tax and pension, and no total is
      negative when no gross is. */
  lemma {:induction false} TotalsShareOutGross(grosses: seq<int>)
    ensures var t := TotalsOf(SlipsOf(grosses));
      && t.gross == SumOf(grosses)
      && t.net + t.paye + t.employeePension == t.gross
      && ((forall i :: 0 <= i < |grosses| ==> grosses[i] >= 0) ==>
            t.gross >= 0 && t.net >= 0 && t.paye >= 0 && t.employeePension >= 0 && t.employerPension >= 0)
  {
    hide EmployeePension, EmployerPension, MonthlyTax, Basic, Allowance, Monthly;
    if grosses != [] {
      var front := grosses[..|grosses| - 1];
      TotalsShareOutGross(front);
      assert SlipsOf(grosses)[..|grosses| - 1] == SlipsOf(front);
      if grosses[|grosses| - 1] >= 0 { NothingNegative(grosses[|grosses| - 1]); }
    }
  }

  // ---------- calls ----------

  predicate Taken(runs: map<nat, PayRun>, subsidiary: Option<nat>, month: Month) {
    subsidiary.Some? && exists i :: i in runs && runs[i].subsidiary == subsidiary && runs[i].month == month
  }

  /** `grosses` is the gross pay of each eligible employee. Group-wide runs (no
      subsidiary) never clash with one another. */
  function InitiateRun(s: State, subsidiary: Option<nat>, month: Month, grosses: seq<int>): Outcome<State, nat> {
    if month.month < 1 || 12 < month.month then Outcome(s, Err(InvalidInput))
    else if grosses == [] then Outcome(s, Err(NotFound))
    else if Taken(s.runs, subsidiary, month) then Outcome(s, Err(AlreadyDone))
    else
      var slips := SlipsOf(grosses);
      Outcome(s.(runs := s.runs[s.nextId := PayRun(subsidiary, month, RunDraft, slips, TotalsOf(slips))],
                 nextId := s.nextId + 1),
              Ok(s.nextId))
  }

  function ApprovalLines(t: Totals): seq<Ledger.Line> {
    [Ledger.Line("5001", t.gross, 0),
     Ledger.Line("5003", t.employerPension, 0),
     Ledger.Line("2140", 0, t.net),
     Ledger.Line("2120", 0, t.paye),
     Ledger.Line("2130", 0, t.employeePension + t.employerPension)]
  }

  function ApprovalInput(run: PayRun): Ledger.JournalInput {
    Ledger.JournalInput(Some(LastDay(run.month)), "Payroll", ApprovalLines(run.totals))
  }

  function ApproveRun(s: State, id: nat, pick: nat): Outcome<State, ()> {
    if id !in s.runs then Outcome(s, Err(NotFound))
    else if !s.runs[id].status.RunDraft? then Outcome(s, Err(WrongStatus))
    else
      match CreateAndPost(s.ledger, ApprovalInput(s.runs[id]), pick)
      case Outcome(ledger, Err(e)) => Outcome(s.(ledger := ledger), Err(e))
      case Outcome(ledger, Ok(_)) =>
        Outcome(s.(ledger := ledger, runs := s.runs[id := s.runs[id].(status := RunApproved)]), Ok(()))
  }

  function ParseLiability(s: string): Option<Liability> {
    if s == "paye" then Some(PAYE) else if s == "pension" then Some(Pension) else None
  }

  function Code(l: Liability): string {
    match l case PAYE => "2120" case Pension => "2130"
  }

  function BankOr(bank: string): string {
    if bank == "" then "1110" else bank
  }

  function RemittanceInput(l: Liability, amount: int, date: Option<Ledger.Date>, bank: string): Ledger.JournalInput {
    Ledger.JournalInput(date, "PAYE / Tax Remittance",
                        [Ledger.Line(Code(l), amount, 0), Ledger.Line(BankOr(bank), 0, amount)])
  }

  /** The run may have any status: a draft run can be remitted against. */
  function RecordRemittance(s: State, run: nat, kind: string, amount: int, date: Option<Ledger.Date>, bank: string,
      pick: nat)
    : Outcome<State, ()>
  {
    match ParseLiability(kind)
    case None => Outcome(s, Err(InvalidInput))
    case Some(l) =>
      if amount <= 0 then Outcome(s, Err(InvalidInput))
      else if run !in s.runs then Outcome(s, Err(NotFound))
      else
        match CreateAndPost(s.ledger, RemittanceInput(l, amount, date, bank), pick)
        case Outcome(ledger, Err(e)) => Outcome(s.(ledger := ledger), Err(e))
        case Outcome(ledger, Ok(_)) =>
          Outcome(s.(ledger := ledger, remittances := s.remittances + [Remittance(run, l, amount)]), Ok(()))
  }

  // ---------- the dashboard ----------

  function Due(t: Totals, l: Liability): int {
    match l case PAYE => t.paye case Pension => t.employeePension + t.employerPension
  }

  function Paid(remittances: seq<Remittance>, run: nat, l: Liability): int {
    if remittances == [] then 0
    else
      var r := remittances[|remittances| - 1];
      Paid(remittances[..|remittances| - 1], run, l) + if r.run == run && r.liability == l then r.amount else 0
  }

  /** A dashboard row: every run that is no longer a draft, with what it owes. */
  datatype Summary = Summary(run: nat, payePaid: int, payeOutstanding: int,
                             pensionDue: int, pensionPaid: int, pensionOutstanding: int)
  {
    function Outstanding(l: Liability): int {
      match l case PAYE => payeOutstanding case Pension => pensionOutstanding
    }
  }

  function SummaryOf(s: State, i: nat): Summary
    requires i in s.runs
  {
    var t := s.runs[i].totals;
    var payePaid, pensionPaid := Paid(s.remittances, i, PAYE), Paid(s.remittances, i, Pension);
    Summary(i, payePaid, t.paye - payePaid, Due(t, Pension), pensionPaid, Due(t, Pension) - pensionPaid)
  }

  function DashboardUpTo(s: State, n: nat): seq<Summary> {
    if n == 0 then []
    else
      DashboardUpTo(s, n - 1)
      + if n - 1 in s.runs && !s.runs[n - 1].status.RunDraft? then [SummaryOf(s, n - 1)] else []
  }

  function Dashboard(s: State): seq<Summary> {
    DashboardUpTo(s, s.nextId)
  }

  function DashboardTotal(rows: seq<Summary>, l: Liability): int {
    if rows == [] then 0 else DashboardTotal(rows[..|rows| - 1], l) + rows[|rows| - 1].Outstanding(l)
  }

  // ---------- runs of the system ----------

  datatype Command =
    | Initiate(subsidiary: Option<nat>, month: Month, grosses: seq<int>)
    | Approve(id: nat, pick: nat)
    | Remit(run: nat, kind: string, amount: int, date: Option<Ledger.Date>, bank: string, pick: nat)
    | Gl(command: Ledger.Command)

  function Apply(s: State, c: Command): State {
    match c
    case Initiate(subsidiary, month, grosses) => InitiateRun(s, subsidiary, month, grosses).state
    case Approve(id, pick) => ApproveRun(s, id, pick).state
    case Remit(run, kind, amount, date, bank, pick) => RecordRemittance(s, run, kind, amount, date, bank, pick).state
    case Gl(command) => s.(ledger := Ledger.Apply(s.ledger, command))
  }

  function Run(s: State, commands: seq<Command>): State {
    if commands == [] then s
    else Apply(Run(s, commands[..|commands| - 1]), commands[|commands| - 1])
  }

  // ---------- the payroll journal ----------

  lemma ApprovalSums(t: Totals, l: Liability)
    ensures Ledger.DebitSum(ApprovalLines(t)) == t.gross + t.employerPension
    ensures Ledger.CreditSum(ApprovalLines(t)) == t.net + t.paye + t.employeePension + t.employerPension
    ensures Ledger.Net(ApprovalLines(t), Code(l)) == -Due(t, l)
  {
    var lines := ApprovalLines(t);
    var none: seq<Ledger.Line> := [];
    assert lines == none + [lines[0]] + [lines[1]] + [lines[2]] + [lines[3]] + [lines[4]];
    Ledger.SumsAppend(none, lines[0], Code(l));
    Ledger.SumsAppend(none + [lines[0]], lines[1], Code(l));
    Ledger.SumsAppend(none + [lines[0]] + [lines[1]], lines[2], Code(l));
    Ledger.SumsAppend(none + [lines[0]] + [lines[1]] + [lines[2]], lines[3], Code(l));
    Ledger.SumsAppend(none + [lines[0]] + [lines[1]] + [lines[2]] + [lines[3]], lines[4], Code(l));
  }

  /** The totals of every run are those of its own payslips. */
  ghost predicate RunsFromSlips(s: State) {
    forall i :: i in s.runs ==>
      exists grosses :: s.runs[i].payslips == SlipsOf(grosses) && s.runs[i].totals == TotalsOf(SlipsOf(grosses))
  }

  /** Gross pay is shared out between net, tax and the employees' pension. */
  predicate SharesOut(t: Totals) {
    t.net + t.paye + t.employeePension == t.gross
  }

  /** As the totals of every run do, being those of its payslips. */
  lemma RunsShareOut(s: State)
    requires RunsFromSlips(s)
    ensures forall i :: i in s.runs ==> SharesOut(s.runs[i].totals)
  {
    hide TotalsOf, SlipsOf;
    forall i | i in s.runs ensures SharesOut(s.runs[i].totals) {
      var grosses :| s.runs[i].payslips == SlipsOf(grosses) && s.runs[i].totals == TotalsOf(SlipsOf(grosses));
      TotalsShareOutGross(grosses);
    }
  }

  /** The five-line journal of a run balances exactly, whatever the pay. So a
      draft run is approved exactly when none of its totals is negative and the
      period the lookup finds is open: the balance gate never stops it. */
  lemma ApprovedExactly(s: State, id: nat, pick: nat)
    requires id in s.runs && s.runs[id].status.RunDraft? && SharesOut(s.runs[id].totals)
    ensures var t := s.runs[id].totals;
      && Ledger.DebitSum(ApprovalLines(t)) == Ledger.CreditSum(ApprovalLines(t))
      && (ApproveRun(s, id, pick).result.Ok? <==>
            && t.gross >= 0 && t.employerPension >= 0 && t.net >= 0 && t.paye >= 0
            && t.employeePension + t.employerPension >= 0
            && Ledger.PeriodStatusForDate(s.ledger.periods, LastDay(s.runs[id].month), pick).Open?)
  {
    var t := s.runs[id].totals;
    ApprovalSums(t, PAYE);
    AcceptedExactly(s.ledger, ApprovalInput(s.runs[id]), pick);
    ApprovalLinesGood(t);
  }

  lemma ApprovalLinesGood(t: Totals)
    ensures (forall k :: 0 <= k < 5 ==> Ledger.GoodLine(ApprovalLines(t)[k])) <==>
              t.gross >= 0 && t.employerPension >= 0 && t.net >= 0 && t.paye >= 0
                  && t.employeePension + t.employerPension >= 0
  {
    var lines := ApprovalLines(t);
    assert (forall k :: 0 <= k < 5 ==> Ledger.GoodLine(lines[k])) <==>
             Ledger.GoodLine(lines[0]) && Ledger.GoodLine(lines[1]) && Ledger.GoodLine(lines[2])
             && Ledger.GoodLine(lines[3]) && Ledger.GoodLine(lines[4]);
  }

  lemma RunsFromSlipsStep(s: State, c: Command)
    requires RunsFromSlips(s)
    ensures RunsFromSlips(Apply(s, c))
  {
    hide TotalsOf, SlipsOf, CreateAndPost;
    var s' := Apply(s, c);
    forall i | i in s'.runs
      ensures exists grosses :: s'.runs[i].payslips == SlipsOf(grosses)
                && s'.runs[i].totals == TotalsOf(SlipsOf(grosses))
    {
      if i in s.runs && s'.runs[i].payslips == s.runs[i].payslips && s'.runs[i].totals == s.runs[i].totals {
        var grosses :| s.runs[i].payslips == SlipsOf(grosses) && s.runs[i].totals == TotalsOf(SlipsOf(grosses));
        assert s'.runs[i].payslips == SlipsOf(grosses);
      } else {
        assert c.Initiate? && s'.runs[i].payslips == SlipsOf(c.grosses);
      }
    }
  }

  // ---------- the control accounts ----------

  /** What a run contributes to the account of a liability: what it owes once
      approved, less whatever was remitted against it. */
  function OwedAt(s: State, l: Liability, i: nat): int {
    (if i in s.runs && s.runs[i].status.RunApproved? then Due(s.runs[i].totals, l) else 0) - Paid(s.remittances, i, l)
  }

  function OwedOf(s: State, l: Liability): nat -> int {
    (i: nat) => OwedAt(s, l, i)
  }

  function Owed(s: State, l: Liability): int {
    Sum(OwedOf(s, l), s.nextId)
  }

  function Gap(s: State, l: Liability): int {
    -Ledger.Balance(s.ledger, Code(l)) - Owed(s, l)
  }

  ghost predicate Keyed(s: State) {
    && LedgerInvariant.IdsBelow(s.ledger)
    && (forall i :: i in s.runs ==> i < s.nextId)
    && (forall k :: 0 <= k < |s.remittances| ==> s.remittances[k].run in s.runs)
  }

  lemma {:induction false} NothingPaid(remittances: seq<Remittance>, run: nat, l: Liability)
    requires forall k :: 0 <= k < |remittances| ==> remittances[k].run != run
    ensures Paid(remittances, run, l) == 0
  {
    if remittances != [] { NothingPaid(remittances[..|remittances| - 1], run, l); }
  }

  lemma InitiateGap(s: State, subsidiary: Option<nat>, month: Month, grosses: seq<int>, l: Liability)
    requires Keyed(s)
    ensures var s' := InitiateRun(s, subsidiary, month, grosses).state; Keyed(s') && Gap(s', l) == Gap(s, l)
  {
    hide SlipsOf, TotalsOf;
    var s' := InitiateRun(s, subsidiary, month, grosses).state;
    SumSame(OwedOf(s, l), OwedOf(s', l), s.nextId);
    NothingPaid(s.remittances, s.nextId, l);
  }

  lemma ApproveGap(s: State, id: nat, pick: nat, l: Liability)
    requires Keyed(s)
    ensures var s' := ApproveRun(s, id, pick).state; Keyed(s') && Gap(s', l) == Gap(s, l)
  {
    hide Ledger.Balance, CreateAndPost, ApprovalLines;
    if id in s.runs {
      var s' := ApproveRun(s, id, pick).state;
      CreateAndPostEffect(s.ledger, ApprovalInput(s.runs[id]), pick, Code(l));
      CreateAndPostIds(s.ledger, ApprovalInput(s.runs[id]), pick);
      ApprovalSums(s.runs[id].totals, l);
      SumPoint(OwedOf(s, l), OwedOf(s', l), s.nextId, id);
    }
  }

  lemma PaidAppend(remittances: seq<Remittance>, r: Remittance, run: nat, l: Liability)
    ensures Paid(remittances + [r], run, l)
            == Paid(remittances, run, l) + if r.run == run && r.liability == l then r.amount else 0
  {
    assert (remittances + [r])[..|remittances|] == remittances;
  }

  lemma RemitOwed(s: State, ledger: Ledger.State, r: Remittance, l: Liability)
    requires r.run < s.nextId
    ensures Owed(s.(ledger := ledger), l) == Owed(s, l)
    ensures Owed(s.(ledger := ledger, remittances := s.remittances + [r]), l)
            == Owed(s, l) - if r.liability == l then r.amount else 0
  {
    hide Paid;
    var s' := s.(ledger := ledger, remittances := s.remittances + [r]);
    forall i: nat | i < s.nextId
      ensures OwedOf(s', l)(i) == OwedOf(s, l)(i) - if r.run == i && r.liability == l then r.amount else 0
    {
      PaidAppend(s.remittances, r, i, l);
    }
    SumPoint(OwedOf(s, l), OwedOf(s', l), s.nextId, r.run);
    SumSame(OwedOf(s, l), OwedOf(s.(ledger := ledger), l), s.nextId);
  }

  /** A remittance widens the gap only when it is paid out of the account itself. */
  lemma RemitGap(
      s: State, run: nat, kind: string, amount: int, date: Option<Ledger.Date>, bank: string, pick: nat, l: Liability)
    requires Keyed(s)
    ensures var out := RecordRemittance(s, run, kind, amount, date, bank, pick);
      && Keyed(out.state)
      && Gap(out.state, l) == Gap(s, l) + if out.result.Ok? && bank == Code(l) then amount else 0
  {
    hide Ledger.Balance, CreateAndPost, Owed, Ledger.Net, LedgerInvariant.IdsBelow;
    if ParseLiability(kind).Some? && amount > 0 && run in s.runs {
      var kindOf := ParseLiability(kind).value;
      var input := RemittanceInput(kindOf, amount, date, bank);
      CreateAndPostEffect(s.ledger, input, pick, Code(l));
      CreateAndPostIds(s.ledger, input, pick);
      Ledger.SumsOfPair(input.lines[0], input.lines[1], Code(l));
      RemitOwed(s, CreateAndPost(s.ledger, input, pick).state, Remittance(run, kindOf, amount), l);
    }
  }

  lemma GlGap(s: State, c: Ledger.Command, l: Liability)
    requires Keyed(s) && LeavesAlone(s.ledger, c, Code(l))
    ensures var s' := s.(ledger := Ledger.Apply(s.ledger, c)); Keyed(s') && Gap(s', l) == Gap(s, l)
  {
    LeftAlone(s.ledger, c, Code(l));
    ApplyIds(s.ledger, c);
    SumSame(OwedOf(s, l), OwedOf(s.(ledger := Ledger.Apply(s.ledger, c)), l), s.nextId);
  }

  /** No remittance is paid out of the liability account, and no other ledger
      call books a line on it. */
  predicate KeepsToItself(s: State, c: Command, l: Liability) {
    match c
    case Remit(_, _, _, _, bank, _) => bank != Code(l)
    case Gl(command) => LeavesAlone(s.ledger, command, Code(l))
    case _ => true
  }

  predicate CleanRun(s: State, commands: seq<Command>, l: Liability) {
    commands == [] ||
    (var before := commands[..|commands| - 1];
     CleanRun(s, before, l) && KeepsToItself(Run(s, before), commands[|commands| - 1], l))
  }

  ghost predicate Consistent(s: State, l: Liability) {
    Keyed(s) && RunsFromSlips(s) && Gap(s, l) == 0
  }

  lemma ControlStep(s: State, c: Command, l: Liability)
    requires Consistent(s, l) && KeepsToItself(s, c, l)
    ensures Consistent(Apply(s, c), l)
  {
    RunsFromSlipsStep(s, c);
    hide Gap, RunsFromSlips;
    match c
    case Initiate(subsidiary, month, grosses) => InitiateGap(s, subsidiary, month, grosses, l);
    case Approve(id, pick) => ApproveGap(s, id, pick, l);
    case Remit(run, kind, amount, date, bank, pick) => RemitGap(s, run, kind, amount, date, bank, pick, l);
    case Gl(command) => GlGap(s, command, l);
  }

  lemma {:induction false} RunConsistent(periods: seq<Ledger.Period>, commands: seq<Command>, l: Liability)
    requires CleanRun(Init(periods), commands, l)
    ensures Consistent(Run(Init(periods), commands), l)
  {
    hide Gap, RunsFromSlips, KeepsToItself;
    if commands != [] {
      var before := commands[..|commands| - 1];
      RunConsistent(periods, before, l);
      ControlStep(Run(Init(periods), before), commands[|commands| - 1], l);
    } else {
      InitConsistent(periods, l);
    }
  }

  lemma InitConsistent(periods: seq<Ledger.Period>, l: Liability)
    ensures Consistent(Init(periods), l)
  {
  }

  // ---------- against the dashboard ----------

  function DraftPaidAt(s: State, l: Liability, i: nat): int {
    if i in s.runs && s.runs[i].status.RunApproved? then 0 else Paid(s.remittances, i, l)
  }

  function DraftPaidOf(s: State, l: Liability): nat -> int {
    (i: nat) => DraftPaidAt(s, l, i)
  }

  /** What was remitted against runs that are still drafts: the dashboard shows
      none of it. */
  function DraftPaid(s: State, l: Liability): int {
    Sum(DraftPaidOf(s, l), s.nextId)
  }

  lemma DashboardStep(s: State, l: Liability, n: nat)
    ensures DashboardTotal(DashboardUpTo(s, n + 1), l)
            == DashboardTotal(DashboardUpTo(s, n), l)
               + if n in s.runs && s.runs[n].status.RunApproved?
                 then Due(s.runs[n].totals, l) - Paid(s.remittances, n, l)
                 else 0
  {
    var rows := DashboardUpTo(s, n);
    if n in s.runs && s.runs[n].status.RunApproved? {
      assert DashboardUpTo(s, n + 1)[..|rows|] == rows;
    } else {
      assert DashboardUpTo(s, n + 1) == rows;
    }
  }

  lemma NoDashboard(s: State, l: Liability)
    ensures DashboardTotal(DashboardUpTo(s, 0), l) == 0
  {
  }

  lemma OwedTerm(s: State, l: Liability, i: nat)
    ensures OwedOf(s, l)(i) + DraftPaidOf(s, l)(i)
            == if i in s.runs && s.runs[i].status.RunApproved?
               then Due(s.runs[i].totals, l) - Paid(s.remittances, i, l)
               else 0
  {
    hide Due, Paid;
  }

  lemma {:induction false} DashboardSum(s: State, l: Liability, n: nat)
    ensures Sum(OwedOf(s, l), n) == DashboardTotal(DashboardUpTo(s, n), l) - Sum(DraftPaidOf(s, l), n)
  {
    hide DashboardUpTo, DashboardTotal, Due, Paid, OwedOf, DraftPaidOf;
    if n == 0 {
      NoDashboard(s, l);
    } else {
      DashboardSum(s, l, n - 1);
      DashboardStep(s, l, n - 1);
      OwedTerm(s, l, n - 1);
    }
  }

  /** No remittance that was recorded is for nothing or less. */
  ghost predicate AllPositive(s: State) {
    forall k :: 0 <= k < |s.remittances| ==> s.remittances[k].amount > 0
  }

  lemma ApplyLedger(s: State, c: Command)
    requires LedgerInvariant.Valid(s.ledger)
    ensures LedgerInvariant.Valid(Apply(s, c).ledger)
  {
    hide LedgerInvariant.Valid, CreateAndPost, SlipsOf, TotalsOf, Ledger.Apply, ApprovalLines;
    match c
    case Initiate(subsidiary, month, grosses) =>
    case Approve(id, pick) =>
      if id in s.runs { CreateAndPostValid(s.ledger, ApprovalInput(s.runs[id]), pick); }
    case Remit(run, kind, amount, date, bank, pick) =>
      if ParseLiability(kind).Some? {
        CreateAndPostValid(s.ledger, RemittanceInput(ParseLiability(kind).value, amount, date, bank), pick);
      }
    case Gl(command) => LedgerInvariant.ApplyValid(s.ledger, command);
  }

  lemma PositiveStep(s: State, c: Command)
    requires AllPositive(s)
    ensures AllPositive(Apply(s, c))
  {
    hide CreateAndPost, SlipsOf, TotalsOf, Ledger.Apply;
  }

  /** After any run, with any other ledger calls in between, the totals of every run
      are those of its payslips, every recorded remittance is for something, and the
      ledger keeps its own invariant. */
  lemma {:induction false} RecordsSound(periods: seq<Ledger.Period>, commands: seq<Command>)
    ensures var s := Run(Init(periods), commands);
      && RunsFromSlips(s) && AllPositive(s) && LedgerInvariant.Valid(s.ledger)
      && forall i :: i in s.runs ==> SharesOut(s.runs[i].totals)
  {
    if commands == [] {
      LedgerInvariant.RunValid(periods, []);
    } else {
      hide RunsFromSlips, AllPositive, LedgerInvariant.Valid, Apply;
      var before, last := Run(Init(periods), commands[..|commands| - 1]), commands[|commands| - 1];
      RecordsSound(periods, commands[..|commands| - 1]);
      RunsFromSlipsStep(before, last);
      RunsShareOut(Apply(before, last));
      PositiveStep(before, last);
      ApplyLedger(before, last);
    }
  }

  /** Some remittance of this kind is against a run that is still a draft. */
  predicate PaidOnDraft(s: State, l: Liability) {
    exists k :: 0 <= k < |s.remittances| && OnDraft(s, s.remittances[k], l)
  }

  predicate OnDraft(s: State, r: Remittance, l: Liability) {
    r.liability == l && !(r.run in s.runs && s.runs[r.run].status.RunApproved?)
  }

  lemma {:induction false} PaidExactly(remittances: seq<Remittance>, run: nat, l: Liability)
    requires forall k :: 0 <= k < |remittances| ==> remittances[k].amount > 0
    ensures Paid(remittances, run, l) >= 0
    ensures Paid(remittances, run, l) > 0 <==>
              exists k :: 0 <= k < |remittances| && remittances[k].run == run && remittances[k].liability == l
  {
    if remittances != [] {
      var front, last := remittances[..|remittances| - 1], |remittances| - 1;
      PaidExactly(front, run, l);
      assert remittances == front + [remittances[last]];
      if Paid(front, run, l) > 0 {
        var k :| 0 <= k < |front| && front[k].run == run && front[k].liability == l;
        assert remittances[k] == front[k];
      }
    }
  }

  lemma DraftPaidShows(s: State, l: Liability, i: nat)
    requires AllPositive(s)
    ensures DraftPaidAt(s, l, i) >= 0
    ensures DraftPaidAt(s, l, i) > 0 ==> PaidOnDraft(s, l)
  {
    PaidExactly(s.remittances, i, l);
    hide Paid;
    if DraftPaidAt(s, l, i) > 0 {
      var k :| 0 <= k < |s.remittances| && s.remittances[k].run == i && s.remittances[k].liability == l;
      assert OnDraft(s, s.remittances[k], l);
    }
  }

  /** Exactly when nothing at all was remitted against drafts. */
  lemma DraftPaidExactly(s: State, l: Liability)
    requires Keyed(s) && AllPositive(s)
    ensures DraftPaid(s, l) >= 0
    ensures DraftPaid(s, l) == 0 <==> !PaidOnDraft(s, l)
  {
    forall i: nat | i < s.nextId
      ensures DraftPaidOf(s, l)(i) >= 0
      ensures DraftPaidOf(s, l)(i) > 0 ==> PaidOnDraft(s, l)
    {
      DraftPaidShows(s, l, i);
    }
    SumOfNonNegative(DraftPaidOf(s, l), s.nextId);
    hide Paid;
    if PaidOnDraft(s, l) {
      var k :| 0 <= k < |s.remittances| && OnDraft(s, s.remittances[k], l);
      PaidExactly(s.remittances, s.remittances[k].run, l);
      assert DraftPaidOf(s, l)(s.remittances[k].run) > 0;
    }
  }

  /** Over every run of payroll calls mixed with ledger calls that keep off the
      account: its net credit is what the dashboard shows outstanding less what
      was remitted against drafts. So ledger and dashboard agree exactly when no
      remittance is against a run that is still a draft. */
  lemma LedgerAgainstDashboard(periods: seq<Ledger.Period>, commands: seq<Command>, l: Liability)
    requires CleanRun(Init(periods), commands, l)
    ensures var s := Run(Init(periods), commands);
      && -Ledger.Balance(s.ledger, Code(l)) == DashboardTotal(Dashboard(s), l) - DraftPaid(s, l)
      && (-Ledger.Balance(s.ledger, Code(l)) == DashboardTotal(Dashboard(s), l) <==> !PaidOnDraft(s, l))
  {
    RunConsistent(periods, commands, l);
    RecordsSound(periods, commands);
    var s := Run(Init(periods), commands);
    hide Run, RunsFromSlips, LedgerInvariant.Valid, PaidOnDraft, AllPositive, DraftPaid;
    DraftPaidExactly(s, l);
    DraftPaidIsSum(s, l);
    DashboardSum(s, l, s.nextId);
  }

  lemma DraftPaidIsSum(s: State, l: Liability)
    ensures DraftPaid(s, l) == Sum(DraftPaidOf(s, l), s.nextId)
  {
  }

  /** They do come apart: initiate a run and remit against it before approval. */
  lemma RemittedTooSoon(gross: int)
    ensures var commands := [Initiate(None, Month(2026, 1), [gross]),
              Remit(0, "paye", 500, Some(Ledger.Date(2026, 1, 31)), "", 0)];
      var s := Run(Init([]), commands);
      && CleanRun(Init([]), commands, PAYE)
      && PaidOnDraft(s, PAYE)
      && -Ledger.Balance(s.ledger, Code(PAYE)) != DashboardTotal(Dashboard(s), PAYE)
  {
    hide SlipsOf, TotalsOf;
    var initiate := Initiate(None, Month(2026, 1), [gross]);
    var remit := Remit(0, "paye", 500, Some(Ledger.Date(2026, 1, 31)), "", 0);
    var none: seq<Command> := [];
    RunSnoc(Init([]), none, initiate, PAYE);
    RunSnoc(Init([]), none + [initiate], remit, PAYE);
    assert none + [initiate] + [remit] == [initiate, remit];
    var s1 := Apply(Init([]), initiate);
    var input := RemittanceInput(PAYE, 500, Some(Ledger.Date(2026, 1, 31)), "");
    Ledger.SumsOfPair(input.lines[0], input.lines[1], "");
    AcceptedExactly(s1.ledger, input, 0);
    hide CreateAndPost, Ledger.DebitSum, Ledger.CreditSum;
    assert RecordRemittance(s1, 0, "paye", 500, Some(Ledger.Date(2026, 1, 31)), "", 0).result.Ok?;
    var s := Apply(s1, remit);
    assert OnDraft(s, s.remittances[0], PAYE);
    LedgerAgainstDashboard([], [initiate, remit], PAYE);
  }

  lemma RunSnoc(s: State, commands: seq<Command>, c: Command, l: Liability)
    ensures Run(s, commands + [c]) == Apply(Run(s, commands), c)
    ensures CleanRun(s, commands + [c], l) <==> CleanRun(s, commands, l) && KeepsToItself(Run(s, commands), c, l)
  {
    assert (commands + [c])[..|commands|] == commands;
  }

  // ---------- what each call does ----------

  /** A run starts exactly for a month of the calendar, with some eligible employee,
      when the subsidiary, if one is named, has no run for that month yet. It is a
      draft with a payslip for each employee, in order. */
  lemma InitiatedExactly(s: State, subsidiary: Option<nat>, month: Month, grosses: seq<int>)
    ensures var out := InitiateRun(s, subsidiary, month, grosses);
      && (out.result.Ok? <==>
            && 1 <= month.month <= 12 && grosses != []
            && !(subsidiary.Some? &&
                 exists i :: i in s.runs && s.runs[i].subsidiary == subsidiary && s.runs[i].month == month))
      && (out.result.Err? ==> out.state == s)
      && (out.result.Ok? ==>
            && out.result.value == s.nextId && s.nextId in out.state.runs
            && var run := out.state.runs[s.nextId];
               && out.state == s.(runs := s.runs[s.nextId := run], nextId := s.nextId + 1)
               && run.subsidiary == subsidiary && run.month == month && run.status.RunDraft?
               && |run.payslips| == |grosses|
               && forall k :: 0 <= k < |grosses| ==> run.payslips[k] == PayslipOf(grosses[k]))
  {
    hide PayslipOf, TotalsOf;
  }

  /** No subsidiary has two runs for a month. */
  ghost predicate OneRunAMonth(s: State) {
    && (forall i :: i in s.runs ==> i < s.nextId)
    && forall i, j :: i in s.runs && j in s.runs && i != j && s.runs[i].subsidiary.Some? ==>
         s.runs[i].subsidiary != s.runs[j].subsidiary || s.runs[i].month != s.runs[j].month
  }

  lemma OneRunStep(s: State, c: Command)
    requires OneRunAMonth(s)
    ensures OneRunAMonth(Apply(s, c))
  {
    hide SlipsOf, TotalsOf, CreateAndPost, Ledger.Apply;
  }

  /** After any run of the system no subsidiary has two payroll runs for a month. */
  lemma {:induction false} OneRunAlways(periods: seq<Ledger.Period>, commands: seq<Command>)
    ensures OneRunAMonth(Run(Init(periods), commands))
  {
    hide Apply;
    if commands != [] {
      OneRunAlways(periods, commands[..|commands| - 1]);
      OneRunStep(Run(Init(periods), commands[..|commands| - 1]), commands[|commands| - 1]);
    }
  }

  lemma ApprovalNet(t: Totals, account: string)
    ensures Ledger.Net(ApprovalLines(t), account)
            == (if account == "5001" then t.gross else 0) + (if account == "5003" then t.employerPension else 0)
               - (if account == "2140" then t.net else 0) - (if account == "2120" then t.paye else 0)
               - (if account == "2130" then t.employeePension + t.employerPension else 0)
  {
    var lines := ApprovalLines(t);
    var none: seq<Ledger.Line> := [];
    assert lines == none + [lines[0]] + [lines[1]] + [lines[2]] + [lines[3]] + [lines[4]];
    Ledger.SumsAppend(none, lines[0], account);
    Ledger.SumsAppend(none + [lines[0]], lines[1], account);
    Ledger.SumsAppend(none + [lines[0]] + [lines[1]], lines[2], account);
    Ledger.SumsAppend(none + [lines[0]] + [lines[1]] + [lines[2]], lines[3], account);
    Ledger.SumsAppend(none + [lines[0]] + [lines[1]] + [lines[2]] + [lines[3]], lines[4], account);
  }

  /** Approval books gross pay to 5001 and the employer's pension to 5003, net pay to
      2140, tax to 2120 and both pensions to 2130, and marks a draft run approved; a
      refusal does neither. */
  lemma RunPosted(s: State, id: nat, pick: nat, account: string)
    requires LedgerInvariant.IdsBelow(s.ledger) && id in s.runs
    ensures var t, out := s.runs[id].totals, ApproveRun(s, id, pick);
      var change := Ledger.Balance(out.state.ledger, account) - Ledger.Balance(s.ledger, account);
      && (out.result.Err? ==> change == 0 && out.state.runs == s.runs)
      && (out.result.Ok? ==>
            && s.runs[id].status.RunDraft? && out.state.runs == s.runs[id := s.runs[id].(status := RunApproved)]
            && BookedNow(s.ledger, out.state.ledger, LastDay(s.runs[id].month), "Payroll")
            && change == (if account == "5001" then t.gross else 0)
                         + (if account == "5003" then t.employerPension else 0)
                         - (if account == "2140" then t.net else 0) - (if account == "2120" then t.paye else 0)
                         - (if account == "2130" then t.employeePension + t.employerPension else 0))
  {
    hide Ledger.Balance, Ledger.Net, CreateAndPost, ApprovalLines;
    hide BookedNow;
    var input := ApprovalInput(s.runs[id]);
    CreateAndPostEffect(s.ledger, input, pick, account);
    ApprovalNet(s.runs[id].totals, account);
    if CreateAndPost(s.ledger, input, pick).result.Ok? { PostedAsGiven(s.ledger, input, pick); }
  }

  /** A remittance is of tax or pension, of a positive amount, against a known run. It
      debits 2120 or 2130, credits the bank, 1110 if none is named, and is recorded;
      a refusal does none of this. */
  lemma RemittancePosted(s: State, run: nat, kind: string, amount: int, date: Option<Ledger.Date>, bank: string,
      pick: nat, account: string)
    requires LedgerInvariant.IdsBelow(s.ledger)
    ensures var out := RecordRemittance(s, run, kind, amount, date, bank, pick);
      var change := Ledger.Balance(out.state.ledger, account) - Ledger.Balance(s.ledger, account);
      && (out.result.Ok? <==>
            && kind in {"paye", "pension"} && 0 < amount && run in s.runs && date.Some?
            && Ledger.PeriodStatusForDate(s.ledger.periods, date.value, pick).Open?)
      && (out.result.Err? ==> change == 0 && out.state.remittances == s.remittances)
      && (out.result.Ok? ==>
            && out.state.remittances
               == s.remittances + [Remittance(run, if kind == "paye" then PAYE else Pension, amount)]
            && BookedNow(s.ledger, out.state.ledger, date.value, "PAYE / Tax Remittance")
            && change == (if account == (if kind == "paye" then "2120" else "2130") then amount else 0)
                         - (if account == (if bank == "" then "1110" else bank) then amount else 0))
  {
    hide Ledger.Balance, Ledger.Net, Ledger.PeriodStatusForDate, Ledger.DebitSum, Ledger.CreditSum, BookedNow;
    if ParseLiability(kind).Some? && 0 < amount && run in s.runs {
      var input := RemittanceInput(ParseLiability(kind).value, amount, date, bank);
      CreateAndPostEffect(s.ledger, input, pick, account);
      AcceptedExactly(s.ledger, input, pick);
      Ledger.SumsOfPair(input.lines[0], input.lines[1], account);
      assert Ledger.GoodLine(input.lines[0]) && Ledger.GoodLine(input.lines[1]);
      if CreateAndPost(s.ledger, input, pick).result.Ok? { PostedAsGiven(s.ledger, input, pick); }
      hide CreateAndPost;
    }
  }

  /** A row of an approved run: what is paid and what is outstanding make up what is
      due, the tax of the run and the pensions of employees and employer together. */
  predicate RowAsDue(s: State, r: Summary) {
    && r.run in s.runs && s.runs[r.run].status.RunApproved?
    && var t := s.runs[r.run].totals;
       && r.payePaid == Paid(s.remittances, r.run, PAYE) && r.payePaid + r.payeOutstanding == t.paye
       && r.pensionDue == t.employeePension + t.employerPension
       && r.pensionPaid == Paid(s.remittances, r.run, Pension) && r.pensionPaid + r.pensionOutstanding == r.pensionDue
  }

  lemma SummaryAsDue(s: State, i: nat)
    requires i in s.runs && s.runs[i].status.RunApproved?
    ensures RowAsDue(s, SummaryOf(s, i)) && SummaryOf(s, i).run == i
  {
    hide Paid;
  }

  predicate Listed(rows: seq<Summary>, run: nat) {
    exists k :: 0 <= k < |rows| && rows[k].run == run
  }

  predicate OnDashboard(s: State, i: nat) {
    i in s.runs && s.runs[i].status.RunApproved?
  }

  /** One row for each approved run numbered below `n`, in order and no other. */
  ghost predicate RowsUpTo(s: State, rows: seq<Summary>, n: nat) {
    && (forall k :: 0 <= k < |rows| ==> rows[k].run < n && RowAsDue(s, rows[k]))
    && (forall j, k :: 0 <= j < k < |rows| ==> rows[j].run < rows[k].run)
    && (forall i: nat :: i < n && OnDashboard(s, i) ==> Listed(rows, i))
  }

  lemma RowAdded(s: State, rows: seq<Summary>, n: nat)
    requires RowsUpTo(s, rows, n) && OnDashboard(s, n)
    ensures RowsUpTo(s, rows + [SummaryOf(s, n)], n + 1)
  {
    SummaryAsDue(s, n);
    hide RowAsDue, SummaryOf;
    var more := rows + [SummaryOf(s, n)];
    forall i: nat | i < n + 1 && OnDashboard(s, i) ensures Listed(more, i) {
      if i < n {
        assert Listed(rows, i);
        var k :| 0 <= k < |rows| && rows[k].run == i;
        assert more[k].run == i;
      } else {
        assert more[|rows|].run == i;
      }
    }
  }

  lemma RowSkipped(s: State, rows: seq<Summary>, n: nat)
    requires RowsUpTo(s, rows, n) && !OnDashboard(s, n)
    ensures RowsUpTo(s, rows, n + 1)
  {
    hide RowAsDue, Listed;
    forall i: nat | i < n + 1 && OnDashboard(s, i) ensures Listed(rows, i) {
      assert i < n;
    }
  }

  lemma NoRows(s: State)
    ensures RowsUpTo(s, DashboardUpTo(s, 0), 0)
  {
  }

  lemma OneMoreRun(s: State, n: nat)
    ensures DashboardUpTo(s, n + 1)
            == if OnDashboard(s, n) then DashboardUpTo(s, n) + [SummaryOf(s, n)] else DashboardUpTo(s, n)
  {
    hide SummaryOf;
    assert DashboardUpTo(s, n) + [] == DashboardUpTo(s, n);
  }

  /** The dashboard has one row for each approved run, in order and no other. */
  lemma {:induction false} DashboardRows(s: State, n: nat)
    ensures RowsUpTo(s, DashboardUpTo(s, n), n)
  {
    hide RowsUpTo, DashboardUpTo, SummaryOf;
    if n == 0 {
      NoRows(s);
    } else {
      DashboardRows(s, n - 1);
      OneMoreRun(s, n - 1);
      if OnDashboard(s, n - 1) {
        RowAdded(s, DashboardUpTo(s, n - 1), n - 1);
      } else {
        RowSkipped(s, DashboardUpTo(s, n - 1), n - 1);
      }
    }
  }
}
