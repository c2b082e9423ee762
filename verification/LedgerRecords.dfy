/** What each ledger call writes, and what no call ever changes. */
module LedgerRecords {
  import opened Basics
  import opened Ledger
  import opened LedgerInvariant

  // ---------- what a new journal says ----------

  /** A created journal is a draft of the lines given, dated as given, with the next
      number of the year of that date; nothing else in the ledger changes but that
      year's counter. */
  lemma CreatedAsGiven(st: State, input: JournalInput)
    requires IdsBelow(st) && CreateJournal(st, input).result.Ok?
    ensures var out := CreateJournal(st, input);
      var j := out.state.journals[st.nextId];
      && out.result == Ok(st.nextId) && out.state.journals - {st.nextId} == st.journals
      && j.date == input.date.value && j.reference.year == j.date.year
      && j.reference.number == 1 + (if j.date.year in st.counters then st.counters[j.date.year] else 0)
      && j.kind == input.kind && j.lines == input.lines && j.status.Draft? && j.reversalOf.None?
      && out.state.counters == st.counters[j.date.year := j.reference.number] && out.state.periods == st.periods
  {
    var out := CreateJournal(st, input);
    assert st.nextId !in st.journals;
    assert out.state.journals - {st.nextId} == st.journals;
  }

  /** An asset purchase is booked on the day it was made: cost into the asset
      account, out of the account it was paid from. */
  lemma AcquiredAsGiven(st: State, date: Date, assetAccount: string, paidFrom: string, cost: int)
    requires IdsBelow(st) && 0 < cost
    ensures var st' := PostAcquisition(st, date, assetAccount, paidFrom, cost).state;
      var j := st'.journals[st.nextId];
      && st'.journals - {st.nextId} == st.journals && st'.periods == st.periods
      && j.date == date && j.reference.year == date.year
      && j.status.Posted? && j.reversalOf.None? && j.kind == "Capital Expenditure"
      && j.lines == [Line(assetAccount, cost, 0), Line(paidFrom, 0, cost)]
  {
    var st' := PostAcquisition(st, date, assetAccount, paidFrom, cost).state;
    assert st.nextId !in st.journals;
    assert st'.journals - {st.nextId} == st.journals;
  }

  /** A reversal is booked today, in today's numbering, whatever the date of the
      journal it reverses: the mirrored lines, pointing back, posted at once. The
      original is marked reversed and otherwise left as it was. */
  lemma ReversedToday(st: State, id: JournalId, today: Date)
    requires IdsBelow(st) && ReverseJournal(st, id, today).result.Ok?
    ensures var st' := ReverseJournal(st, id, today).state;
      var j, was := st'.journals[st.nextId], st.journals[id];
      && j.date == today && j.reference.year == today.year
      && j.reference.number == 1 + (if today.year in st.counters then st.counters[today.year] else 0)
      && st'.counters == st.counters[today.year := j.reference.number]
      && j.reversalOf == Some(id) && j.status.Posted? && j.kind == "Reversal"
      && |j.lines| == |was.lines|
      && (forall k :: 0 <= k < |j.lines| ==>
            && j.lines[k].account == was.lines[k].account
            && j.lines[k].debit == was.lines[k].credit && j.lines[k].credit == was.lines[k].debit)
      && st'.journals - {st.nextId} == st.journals[id := was.(status := Reversed)]
      && st'.periods == st.periods
  {
    var st' := ReverseJournal(st, id, today).state;
    assert st.nextId !in st.journals;
    assert st'.journals - {st.nextId} == st.journals[id := st.journals[id].(status := Reversed)];
  }

  predicate DatedIn(d: Date, year: int, month: int) {
    d.year == year && d.month == month
  }

  predicate BookedIn(st: State, i: JournalId, year: int, month: int) {
    i in st.journals && st.journals[i].Booked() && DatedIn(st.journals[i].date, year, month)
  }

  predicate PostedIn(st: State, i: JournalId, year: int, month: int) {
    i in st.journals && st.journals[i].status.Posted? && DatedIn(st.journals[i].date, year, month)
  }

  /** So a reversal books nothing in any month but today's, and of the journals
      posted in another month it takes out the original and no other. */
  lemma ReversalTouchesToday(st: State, id: JournalId, today: Date, year: int, month: int, i: JournalId)
    requires IdsBelow(st) && ReverseJournal(st, id, today).result.Ok? && !DatedIn(today, year, month)
    ensures var st' := ReverseJournal(st, id, today).state;
      && (BookedIn(st', i, year, month) <==> BookedIn(st, i, year, month))
      && (PostedIn(st', i, year, month) <==> PostedIn(st, i, year, month) && i != id)
  {
    ReversedToday(st, id, today);
    var st' := ReverseJournal(st, id, today).state;
    hide ReverseJournal;
    if i != st.nextId {
      assert i in st'.journals <==> i in st'.journals - {st.nextId};
    }
  }

  /** What a creation is refused for, first things first: too few lines, no type, no
      date, and then the first line with a negative amount or without an account. */
  lemma RefusedInOrder(st: State, input: JournalInput)
    ensures var out := CreateJournal(st, input);
      && (out.result.Err? ==> out.state == st)
      && (out.result == Err(TooFewLines) <==> |input.lines| < 2)
      && (out.result == Err(TypeRequired) <==> 2 <= |input.lines| && input.kind == "")
      && (out.result == Err(InvalidDate) <==> 2 <= |input.lines| && input.kind != "" && input.date.None?)
      && (out.result.Err? && 2 <= |input.lines| && input.kind != "" && input.date.Some? ==>
            exists k :: 0 <= k < |input.lines| && FaultAt(input.lines, k, out.result.error))
  {
    FirstFaultFound(input.lines, 0);
  }

  /** The first bad line and what is wrong with it; lines are counted from one. */
  predicate FaultAt(lines: seq<Line>, k: nat, e: Error)
    requires k < |lines|
  {
    && (forall i :: 0 <= i < k ==> GoodLine(lines[i])) && !GoodLine(lines[k])
    && e == if lines[k].debit < 0 || lines[k].credit < 0 then NegativeAmount(k + 1) else MissingAccount(k + 1)
  }

  lemma {:induction false} FirstFaultFound(lines: seq<Line>, i: nat)
    requires i <= |lines| && forall k :: 0 <= k < i ==> GoodLine(lines[k])
    ensures FirstFault(lines, i).Some? ==>
              exists k :: 0 <= k < |lines| && FaultAt(lines, k, FirstFault(lines, i).value)
    ensures FirstFault(lines, i).None? ==> forall k :: 0 <= k < |lines| ==> GoodLine(lines[k])
    decreases |lines| - i
  {
    if i < |lines| {
      if GoodLine(lines[i]) {
        FirstFaultFound(lines, i + 1);
        assert FirstFault(lines, i) == FirstFault(lines, i + 1);
      } else {
        assert FaultAt(lines, i, FirstFault(lines, i).value);
      }
    }
  }

  // ---------- the workflow ----------

  /** Which calls succeed on a journal, and the status each leaves it in. */
  lemma WorkflowExactly(st: State, id: JournalId, pick: nat, today: Date)
    requires id in st.journals
    ensures var j := st.journals[id];
      var postable := Abs(j.debitTotal - j.creditTotal) <= 1 && PeriodStatusForDate(st.periods, j.date, pick).Open?;
      && (SubmitForApproval(st, id).result.Ok? <==> j.status.Draft?)
      && (RejectJournal(st, id).result.Ok? <==> j.status.PendingApproval?)
      && (ApproveJournal(st, id, pick).result.Ok? <==> j.status.PendingApproval? && postable)
      && (PostJournal(st, id, pick).result.Ok? <==> (j.status.Draft? || j.status.PendingApproval?) && postable)
      && (ReverseJournal(st, id, today).result.Ok? <==> j.status.Posted?)
      && (DeleteDraft(st, id).result.Ok? <==> j.status.Draft?)
      && (SubmitForApproval(st, id).result.Ok? ==> SubmitForApproval(st, id).state.journals[id].status.PendingApproval?)
      && (RejectJournal(st, id).result.Ok? ==> RejectJournal(st, id).state.journals[id].status.Draft?)
      && (ApproveJournal(st, id, pick).result.Ok? ==> ApproveJournal(st, id, pick).state.journals[id].status.Posted?)
      && (PostJournal(st, id, pick).result.Ok? ==> PostJournal(st, id, pick).state.journals[id].status.Posted?)
      && (DeleteDraft(st, id).result.Ok? ==> DeleteDraft(st, id).state.journals == st.journals - {id})
  {
  }

  // ---------- what never changes ----------

  /** The two rows differ in nothing but status. */
  predicate SameContent(j: Journal, k: Journal) {
    j.(status := k.status) == k
  }

  /** The steps a status can take. */
  predicate Follows(from: JournalStatus, to: JournalStatus) {
    match from
    case Draft => to.Draft? || to.PendingApproval? || to.Posted?
    case PendingApproval => to.PendingApproval? || to.Draft? || to.Posted?
    case Posted => to.Posted? || to.Reversed?
    case Reversed => to.Reversed?
  }

  predicate Target(c: Command, i: JournalId) {
    match c
    case Submit(id) => id == i
    case Approve(id, _) => id == i
    case Reject(id) => id == i
    case Post(id, _) => id == i
    case Reverse(id, _) => id == i
    case Delete(id) => id == i
    case _ => false
  }

  /** One call changes at most the status of the journal it names, and never
      removes one that is booked. */
  lemma ContentStep(st: State, c: Command, i: JournalId)
    requires IdsBelow(st) && i < st.nextId
    ensures var st' := Apply(st, c);
      && IdsBelow(st') && st.nextId <= st'.nextId
      && (i in st'.journals ==>
            && i in st.journals && SameContent(st.journals[i], st'.journals[i])
            && Follows(st.journals[i].status, st'.journals[i].status)
            && (!Target(c, i) ==> st'.journals[i] == st.journals[i]))
      && (i in st.journals && st.journals[i].Booked() ==> i in st'.journals && st'.journals[i].Booked())
  {
    hide PeriodStatusForDate, FirstFault, DebitSum, CreditSum, Mirror;
  }

  /** Through any run a journal keeps its date, number, kind, lines and totals, a
      booked one stays booked, and the row of a deleted draft is never used again. */
  lemma {:induction false} ContentNeverChanges(st: State, commands: seq<Command>, i: JournalId)
    requires IdsBelow(st) && i < st.nextId
    ensures var st' := Run(st, commands);
      && IdsBelow(st') && st.nextId <= st'.nextId
      && (i in st'.journals ==> i in st.journals && SameContent(st.journals[i], st'.journals[i]))
      && (i in st.journals && st.journals[i].Booked() ==> i in st'.journals && st'.journals[i].Booked())
  {
    hide IdsBelow, Apply;
    if commands != [] {
      ContentNeverChanges(st, commands[..|commands| - 1], i);
      ContentStep(Run(st, commands[..|commands| - 1]), commands[|commands| - 1], i);
    }
  }
}
