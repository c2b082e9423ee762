/** Vendor invoices as the service that updates its rows in place and posts
    through the ledger service. */
module PayableServices {
  import opened Basics
  import L = Ledger
  import P = Payables
  import opened LedgerServices

  class PayableService {
    const gl: LedgerService
    var payables: map<nat, P.Payable>
    var nextId: nat

    function State(): P.State
      reads this, gl
    {
      P.State(gl.State(), payables, nextId)
    }

    constructor (gl: LedgerService)
      ensures this.gl == gl && State() == P.State(gl.State(), map[], 0)
    {
      this.gl := gl;
      payables, nextId := map[], 0;
    }

    static method GrossAmount(lines: seq<P.LineInput>) returns (gross: real)
      ensures gross == P.Gross(lines)
    {
      gross := 0.0;
      for i := 0 to |lines|
        invariant gross == P.Gross(lines[..i])
      {
        gross := gross + P.Amount(lines[i]);
        assert lines[..i + 1][..i] == lines[..i];
      }
      assert lines[..|lines|] == lines;
    }

    static method StoreLines(lines: seq<P.LineInput>) returns (rows: seq<P.InvoiceLine>)
      ensures rows == P.StoredLines(lines)
    {
      rows := [];
      for i := 0 to |lines|
        invariant rows == P.StoredLines(lines)[..i]
      {
        rows := rows + [P.Stored(lines[i])];
      }
    }

    method CreatePayable(lines: seq<P.LineInput>, vendor: Option<P.Vendor>, invoiceDate: Option<L.Date>)
      returns (r: Result<nat>)
      modifies this
      ensures P.CreatePayable(old(State()), lines, vendor, invoiceDate) == Outcome(State(), r)
    {
      if |lines| == 0 {
        return Err(TooFewLines);
      }
      if vendor.None? {
        return Err(NotFound);
      }
      if invoiceDate.None? {
        return Err(InvalidDate);
      }
      var gross := GrossAmount(lines);
      var wht := P.Withheld(vendor.value, gross);
      var net := gross - wht;
      var rows := StoreLines(lines);
      payables := payables[nextId := P.Payable(P.Pending, rows, Round(gross), Round(wht), Round(net), 0)];
      nextId := nextId + 1;
      return Ok(nextId - 1);
    }

    method ApprovePayable(id: nat, today: L.Date, pick: nat) returns (r: Result<()>)
      modifies this, gl
      ensures P.ApprovePayable(old(State()), id, today, pick) == Outcome(State(), r)
    {
      if id !in payables {
        return Err(NotFound);
      }
      var p := payables[id];
      if !p.status.Pending? {
        return Err(WrongStatus);
      }
      var jlines: seq<L.Line> := [];
      for i := 0 to |p.lines|
        invariant jlines == P.DebitLines(p.lines)[..i]
      {
        jlines := jlines + [L.Line(p.lines[i].account, p.lines[i].amount, 0)];
      }
      jlines := jlines + [L.Line(P.AP, 0, p.net)];
      if p.wht > 0 {
        jlines := jlines + [L.Line(P.WHT, 0, p.wht)];
      }
      assert jlines == P.ApprovalLines(p);
      var posted := gl.CreateAndPost(L.JournalInput(Some(today), "Payment", jlines), pick);
      if posted.Err? {
        return Err(posted.error);
      }
      payables := payables[id := p.(status := P.Approved)];
      return Ok(());
    }

    method PayPayable(id: nat, date: Option<L.Date>, bank: string, pick: nat) returns (r: Result<()>)
      modifies this, gl
      ensures P.PayPayable(old(State()), id, date, bank, pick) == Outcome(State(), r)
    {
      if id !in payables {
        return Err(NotFound);
      }
      var p := payables[id];
      if !p.status.Approved? {
        return Err(WrongStatus);
      }
      var outstanding := p.net - p.amountPaid;
      var posted := gl.CreateAndPost(
        L.JournalInput(date, "Payment", [L.Line(P.AP, outstanding, 0), L.Line(bank, 0, outstanding)]), pick);
      if posted.Err? {
        return Err(posted.error);
      }
      payables := payables[id := p.(status := P.Paid, amountPaid := p.net)];
      return Ok(());
    }
  }
}
