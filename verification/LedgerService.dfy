/** The ledger as the service that updates its tables in place. Each method is
    proved against the state function of the same name in `Ledger`. */
module LedgerServices {
  import opened Basics
  import L = Ledger
  import Postings

  class LedgerService {
    var journals: map<L.JournalId, L.Journal>
    var nextId: nat
    var counters: map<int, nat>
    var periods: seq<L.Period>

    function State(): L.State
      reads this
    {
      L.State(journals, nextId, counters, periods)
    }

    constructor (periods: seq<L.Period>)
      ensures State() == L.Init(periods)
    {
      this.journals, this.nextId, this.counters := map[], 0, map[];
      this.periods := periods;
    }

    /** Bump the counter of a year and return its new value. */
    method DrawNumber(year: int) returns (n: nat)
      modifies this`counters
      ensures n == L.NextSeq(old(counters), year)
      ensures counters == old(counters)[year := n]
    {
      n := if year in counters then counters[year] + 1 else 1;
      counters := counters[year := n];
    }

    method Insert(j: L.Journal) returns (id: L.JournalId)
      modifies this`journals, this`nextId
      ensures id == old(nextId) && nextId == old(nextId) + 1
      ensures journals == old(journals)[id := j]
    {
      id := nextId;
      journals := journals[id := j];
      nextId := nextId + 1;
    }

    method CreateJournal(input: L.JournalInput) returns (r: Result<L.JournalId>)
      modifies this
      ensures L.CreateJournal(old(State()), input) == Outcome(State(), r)
    {
      if |input.lines| < 2 {
        return Err(TooFewLines);
      }
      if input.kind == "" {
        return Err(TypeRequired);
      }
      if input.date.None? {
        return Err(InvalidDate);
      }
      var debitTotal, creditTotal := 0, 0;
      for i := 0 to |input.lines|
        invariant L.FirstFault(input.lines, i) == L.FirstFault(input.lines, 0)
        invariant debitTotal == L.DebitSum(input.lines[..i])
        invariant creditTotal == L.CreditSum(input.lines[..i])
        invariant unchanged(this)
      {
        var l := input.lines[i];
        if l.debit < 0 || l.credit < 0 {
          return Err(NegativeAmount(i + 1));
        }
        if l.account == "" {
          return Err(MissingAccount(i + 1));
        }
        debitTotal := debitTotal + l.debit;
        creditTotal := creditTotal + l.credit;
        assert input.lines[..i + 1][..i] == input.lines[..i];
      }
      assert input.lines[..|input.lines|] == input.lines;
      var d := input.date.value;
      var n := DrawNumber(d.year);
      var rows: seq<L.Line> := [];
      for i := 0 to |input.lines|
        invariant rows == input.lines[..i]
      {
        rows := rows + [input.lines[i]];
      }
      var id := Insert(L.Journal(L.JV(d.year, n), d, input.kind, L.Draft, debitTotal, creditTotal, |input.lines|, rows,
          None));
      return Ok(id);
    }

    method PeriodStatusForDate(d: L.Date, pick: nat) returns (s: L.PeriodStatus)
      ensures s == L.PeriodStatusForDate(periods, d, pick)
    {
      var rows := [];
      for i := 0 to |periods|
        invariant rows == L.MonthRows(periods[..i], d.year, d.month)
      {
        if periods[i].year == d.year && periods[i].month == d.month {
          rows := rows + [periods[i].status];
        }
        assert periods[..i + 1][..i] == periods[..i];
      }
      assert periods[..|periods|] == periods;
      s := if rows == [] then L.Open else L.PickRow(rows, pick);
    }

    method PostJournal(id: L.JournalId, pick: nat) returns (r: Result<()>)
      modifies this
      ensures L.PostJournal(old(State()), id, pick) == Outcome(State(), r)
    {
      if id !in journals {
        return Err(NotFound);
      }
      var j := journals[id];
      if Abs(j.debitTotal - j.creditTotal) > 1 {
        return Err(Unbalanced);
      }
      var s := PeriodStatusForDate(j.date, pick);
      if s.Closed? || s.Locked? {
        return Err(PeriodClosed);
      }
      if !(j.status.Draft? || j.status.PendingApproval?) {
        return Err(WrongStatus);
      }
      journals := journals[id := j.(status := L.Posted)];
      return Ok(());
    }

    /** Create a journal and post it, the pair of calls every other module makes. */
    method CreateAndPost(input: L.JournalInput, pick: nat) returns (r: Result<L.JournalId>)
      modifies this
      ensures Postings.CreateAndPost(old(State()), input, pick) == Outcome(State(), r)
    {
      var created := CreateJournal(input);
      if created.Err? {
        return created;
      }
      var posted := PostJournal(created.value, pick);
      if posted.Err? {
        return Err(posted.error);
      }
      return created;
    }

    method SubmitForApproval(id: L.JournalId) returns (r: Result<()>)
      modifies this
      ensures L.SubmitForApproval(old(State()), id) == Outcome(State(), r)
    {
      if id !in journals || !journals[id].status.Draft? {
        return Err(WrongStatus);
      }
      journals := journals[id := journals[id].(status := L.PendingApproval)];
      return Ok(());
    }

    method ApproveJournal(id: L.JournalId, pick: nat) returns (r: Result<()>)
      modifies this
      ensures L.ApproveJournal(old(State()), id, pick) == Outcome(State(), r)
    {
      if id !in journals {
        return Err(NotFound);
      }
      var j := journals[id];
      if Abs(j.debitTotal - j.creditTotal) > 1 {
        return Err(Unbalanced);
      }
      var s := PeriodStatusForDate(j.date, pick);
      if s.Closed? || s.Locked? {
        return Err(PeriodClosed);
      }
      if !j.status.PendingApproval? {
        return Err(WrongStatus);
      }
      journals := journals[id := j.(status := L.Posted)];
      return Ok(());
    }

    method RejectJournal(id: L.JournalId) returns (r: Result<()>)
      modifies this
      ensures L.RejectJournal(old(State()), id) == Outcome(State(), r)
    {
      if id !in journals || !journals[id].status.PendingApproval? {
        return Err(WrongStatus);
      }
      journals := journals[id := journals[id].(status := L.Draft)];
      return Ok(());
    }

    method ReverseJournal(id: L.JournalId, today: L.Date) returns (r: Result<L.JournalId>)
      modifies this
      ensures L.ReverseJournal(old(State()), id, today) == Outcome(State(), r)
    {
      if id !in journals {
        return Err(NotFound);
      }
      var j := journals[id];
      if !j.status.Posted? {
        return Err(WrongStatus);
      }
      var n := DrawNumber(today.year);
      var mirrored: seq<L.Line> := [];
      for i := 0 to |j.lines|
        invariant mirrored == L.Mirror(j.lines)[..i]
      {
        mirrored := mirrored + [L.Line(j.lines[i].account, j.lines[i].credit, j.lines[i].debit)];
      }
      assert mirrored == L.Mirror(j.lines);
      var rid := Insert(L.Journal(L.JV(today.year, n), today, "Reversal", L.Posted,
                                  j.creditTotal, j.debitTotal, |j.lines|, mirrored, Some(id)));
      journals := journals[id := j.(status := L.Reversed)];
      return Ok(rid);
    }

    method DeleteDraft(id: L.JournalId) returns (r: Result<()>)
      modifies this
      ensures L.DeleteDraft(old(State()), id) == Outcome(State(), r)
    {
      if id !in journals || !journals[id].status.Draft? {
        return Err(WrongStatus);
      }
      journals := journals - {id};
      return Ok(());
    }

    /** The journal part of an asset purchase. */
    method PostAcquisition(date: L.Date, assetAccount: string, paidFrom: string, cost: int)
      returns (r: Result<L.JournalId>)
      modifies this
      ensures L.PostAcquisition(old(State()), date, assetAccount, paidFrom, cost) == Outcome(State(), r)
    {
      if cost <= 0 {
        return Err(InvalidInput);
      }
      var n := DrawNumber(date.year);
      var draft := L.Journal(L.JV(date.year, n), date, "Capital Expenditure", L.Draft, cost, cost, 2,
                             [L.Line(assetAccount, cost, 0), L.Line(paidFrom, 0, cost)], None);
      var id := Insert(draft);
      journals := journals[id := journals[id].(status := L.Posted)];
      assert journals == old(journals)[id := draft.(status := L.Posted)];
      return Ok(id);
    }

    method CreatePeriod(year: int, month: int) returns (r: Result<nat>)
      modifies this
      ensures L.CreatePeriod(old(State()), year, month) == Outcome(State(), r)
    {
      if month < 1 || 12 < month {
        return Err(InvalidInput);
      }
      periods := periods + [L.Period(year, month, L.Open)];
      return Ok(|periods| - 1);
    }

    method SetPeriodStatus(index: nat, status: string) returns (r: Result<()>)
      modifies this
      ensures L.SetPeriodStatus(old(State()), index, status) == Outcome(State(), r)
    {
      var parsed := L.ParsePeriodStatus(status);
      if parsed.None? {
        return Err(InvalidInput);
      }
      if index >= |periods| || periods[index].status.Locked? {
        return Err(NotFound);
      }
      periods := periods[index := periods[index].(status := parsed.value)];
      return Ok(());
    }
  }
}
