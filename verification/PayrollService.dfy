/** Payroll as the service that updates its rows in place and posts through the
    ledger service. */
module PayrollServices {
  import opened Basics
  import opened Calendar
  import S = Payslips
  import L = Ledger
  import P = Payroll
  import opened LedgerServices

  class PayrollService {
    const gl: LedgerService
    var runs: map<nat, P.PayRun>
    var nextId: nat
    var remittances: seq<P.Remittance>

    function State(): P.State
      reads this, gl
    {
      P.State(gl.State(), runs, nextId, remittances)
    }

    constructor (gl: LedgerService)
      ensures this.gl == gl && State() == P.State(gl.State(), map[], 0, [])
    {
      this.gl := gl;
      runs, nextId, remittances := map[], 0, [];
    }

    /** One payslip per employee, with the totals running alongside. */
    static method ComputePayslips(grosses: seq<int>) returns (slips: seq<S.Payslip>, totals: P.Totals)
      ensures slips == P.SlipsOf(grosses) && totals == P.TotalsOf(slips)
    {
      hide S.PayslipOf;
      slips := [];
      var gross, paye, employee, employer, net := 0, 0, 0, 0, 0;
      for i := 0 to |grosses|
        invariant slips == P.SlipsOf(grosses)[..i]
        invariant P.Totals(gross, paye, employee, employer, net) == P.TotalsOf(slips)
      {
        var p := S.ComputePayslip(grosses[i]);
        slips := slips + [p];
        assert slips[..i] == P.SlipsOf(grosses)[..i];
        gross := gross + p.gross;
        paye := paye + p.paye;
        employee := employee + p.employeePension;
        employer := employer + p.employerPension;
        net := net + p.net;
      }
      totals := P.Totals(gross, paye, employee, employer, net);
    }

    method InitiateRun(subsidiary: Option<nat>, month: Month, grosses: seq<int>) returns (r: Result<nat>)
      modifies this
      ensures P.InitiateRun(old(State()), subsidiary, month, grosses) == Outcome(State(), r)
    {
      if month.month < 1 || 12 < month.month {
        return Err(InvalidInput);
      }
      if |grosses| == 0 {
        return Err(NotFound);
      }
      if P.Taken(runs, subsidiary, month) {
        return Err(AlreadyDone);
      }
      var slips, totals := ComputePayslips(grosses);
      runs := runs[nextId := P.PayRun(subsidiary, month, P.RunDraft, slips, totals)];
      nextId := nextId + 1;
      return Ok(nextId - 1);
    }

    method ApproveRun(id: nat, pick: nat) returns (r: Result<()>)
      modifies this, gl
      ensures P.ApproveRun(old(State()), id, pick) == Outcome(State(), r)
    {
      if id !in runs {
        return Err(NotFound);
      }
      var run := runs[id];
      if !run.status.RunDraft? {
        return Err(WrongStatus);
      }
      var t := run.totals;
      var jlines := [
        L.Line("5001", t.gross, 0),
        L.Line("5003", t.employerPension, 0),
        L.Line("2140", 0, t.net),
        L.Line("2120", 0, t.paye),
        L.Line("2130", 0, t.employeePension + t.employerPension)
      ];
      var posted := gl.CreateAndPost(L.JournalInput(Some(LastDay(run.month)), "Payroll", jlines), pick);
      if posted.Err? {
        return Err(posted.error);
      }
      runs := runs[id := run.(status := P.RunApproved)];
      return Ok(());
    }

    method RecordRemittance(run: nat, kind: string, amount: int, date: Option<L.Date>, bank: string, pick: nat)
      returns (r: Result<()>)
      modifies this, gl
      ensures P.RecordRemittance(old(State()), run, kind, amount, date, bank, pick) == Outcome(State(), r)
    {
      if kind != "paye" && kind != "pension" {
        return Err(InvalidInput);
      }
      if amount <= 0 {
        return Err(InvalidInput);
      }
      var bankCode := if bank == "" then "1110" else bank;
      if run !in runs {
        return Err(NotFound);
      }
      var liability := if kind == "paye" then P.PAYE else P.Pension;
      var posted := gl.CreateAndPost(
        L.JournalInput(date, "PAYE / Tax Remittance",
                       [L.Line(P.Code(liability), amount, 0), L.Line(bankCode, 0, amount)]), pick);
      if posted.Err? {
        return Err(posted.error);
      }
      remittances := remittances + [P.Remittance(run, liability, amount)];
      return Ok(());
    }

    /** What has been remitted against one run, by kind. */
    method SumRemittances(run: nat) returns (payePaid: int, pensionPaid: int)
      ensures payePaid == P.Paid(remittances, run, P.PAYE)
      ensures pensionPaid == P.Paid(remittances, run, P.Pension)
    {
      payePaid, pensionPaid := 0, 0;
      for i := 0 to |remittances|
        invariant payePaid == P.Paid(remittances[..i], run, P.PAYE)
        invariant pensionPaid == P.Paid(remittances[..i], run, P.Pension)
      {
        var rem := remittances[i];
        if rem.run == run {
          match rem.liability
          case PAYE => payePaid := payePaid + rem.amount;
          case Pension => pensionPaid := pensionPaid + rem.amount;
        }
        assert remittances[..i + 1][..i] == remittances[..i];
      }
      assert remittances[..|remittances|] == remittances;
    }

    method ListRemittanceDashboard() returns (rows: seq<P.Summary>)
      ensures rows == P.Dashboard(State())
    {
      rows := [];
      for i := 0 to nextId
        invariant rows == P.DashboardUpTo(State(), i)
      {
        if i !in runs || runs[i].status.RunDraft? {
          continue;
        }
        var payePaid, pensionPaid := SumRemittances(i);
        var t := runs[i].totals;
        var pensionDue := t.employeePension + t.employerPension;
        rows := rows + [P.Summary(i, payePaid, t.paye - payePaid, pensionDue, pensionPaid, pensionDue - pensionPaid)];
      }
    }
  }
}
