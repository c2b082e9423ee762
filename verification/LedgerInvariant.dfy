/** What every ledger call keeps, and what therefore holds after any run. */
module LedgerInvariant {
  import opened Basics
  import opened Ledger

  ghost predicate IdsBelow(st: State) {
    forall i :: i in st.journals ==> i < st.nextId
  }

  /** Header totals are the sums of the lines, and a booked journal is balanced
      to within one kobo. */
  ghost predicate SoundJournal(j: Journal) {
    && j.debitTotal == DebitSum(j.lines)
    && j.creditTotal == CreditSum(j.lines)
    && j.lineCount == |j.lines|
    && 2 <= |j.lines|
    && (forall k :: 0 <= k < |j.lines| ==> j.lines[k].debit >= 0 && j.lines[k].credit >= 0)
    && (j.Booked() ==> Balanced(j))
  }

  ghost predicate SoundJournals(st: State) {
    forall i :: i in st.journals ==> SoundJournal(st.journals[i])
  }

  ghost predicate ReferenceDrawn(st: State, i: JournalId)
    requires i in st.journals
  {
    var r := st.journals[i].reference;
    r.year in st.counters && 1 <= r.number <= st.counters[r.year]
  }

  /** References stay within the counter of their year and never repeat. */
  ghost predicate UniqueReferences(st: State) {
    && (forall i :: i in st.journals ==> ReferenceDrawn(st, i))
    && (forall i, k :: i in st.journals && k in st.journals && i != k ==>
          st.journals[i].reference != st.journals[k].reference)
  }

  ghost predicate Reverses(st: State, i: JournalId, target: JournalId) {
    i in st.journals && st.journals[i].reversalOf == Some(target)
  }

  /** A reversal is booked, mirrors an earlier journal and marks it reversed. */
  ghost predicate GoodReversal(st: State, i: JournalId, target: JournalId)
    requires i in st.journals
  {
    && st.journals[i].Booked()
    && target < i
    && target in st.journals
    && st.journals[target].status.Reversed?
    && st.journals[i].lines == Mirror(st.journals[target].lines)
  }

  ghost predicate GoodReversals(st: State) {
    forall i, t :: Reverses(st, i, t) ==> GoodReversal(st, i, t)
  }

  /** No journal has two reversals. */
  ghost predicate ReversedOnce(st: State) {
    forall i, k, t :: Reverses(st, i, t) && Reverses(st, k, t) ==> i == k
  }

  /** A reversed journal has a reversal. */
  ghost predicate ReversedHasReversal(st: State) {
    forall t :: t in st.journals && st.journals[t].status.Reversed? ==> exists i :: Reverses(st, i, t)
  }

  ghost predicate Links(st: State) {
    GoodReversals(st) && ReversedOnce(st) && ReversedHasReversal(st)
  }

  ghost predicate Valid(st: State) {
    IdsBelow(st) && SoundJournals(st) && UniqueReferences(st) && Links(st)
  }

  /** The links survive when no reversal appears or goes and nothing is marked reversed. */
  lemma LinksKept(st: State, st': State)
    requires Links(st)
    requires forall i, t :: Reverses(st', i, t) <==> Reverses(st, i, t)
    requires forall i :: i in st.journals && st.journals[i].Booked() ==>
               i in st'.journals && st'.journals[i] == st.journals[i]
    requires forall i :: i in st'.journals && st'.journals[i].status.Reversed? ==>
               i in st.journals && st.journals[i].status.Reversed?
    ensures Links(st')
  {
    forall i, t | Reverses(st', i, t) ensures GoodReversal(st', i, t) {
      assert Reverses(st, i, t);
    }
    forall t | t in st'.journals && st'.journals[t].status.Reversed? ensures exists i :: Reverses(st', i, t) {
      var i :| Reverses(st, i, t);
      assert Reverses(st', i, t);
    }
  }

  lemma SoundKept(st: State, st': State, changed: JournalId)
    requires SoundJournals(st)
    requires forall i :: i in st'.journals && i != changed ==> i in st.journals && st'.journals[i] == st.journals[i]
    requires changed in st'.journals ==> SoundJournal(st'.journals[changed])
    ensures SoundJournals(st')
  {
  }

  lemma ReferencesKept(st: State, st': State)
    requires UniqueReferences(st)
    requires st'.counters == st.counters
    requires forall i :: i in st'.journals ==> i in st.journals && st'.journals[i].reference == st.journals[i].reference
    ensures UniqueReferences(st')
  {
    forall i | i in st'.journals ensures ReferenceDrawn(st', i) {
      assert ReferenceDrawn(st, i);
    }
  }

  lemma SetStatusValid(st: State, id: JournalId, status: JournalStatus)
    requires Valid(st)
    requires id in st.journals && !st.journals[id].Booked() && !status.Reversed?
    requires status.Posted? ==> Balanced(st.journals[id])
    ensures Valid(SetStatus(st, id, status))
  {
    hide UniqueReferences, Links, DebitSum, CreditSum;
    var st' := SetStatus(st, id, status);
    assert SoundJournal(st.journals[id]);
    ReferencesKept(st, st');
    SoundKept(st, st', id);
    LinksKept(st, st');
  }

  /** A fresh reference clashes with no earlier one. */
  lemma AddJournalReferences(st: State, date: Date, kind: string, status: JournalStatus,
                             debitTotal: int, creditTotal: int, lines: seq<Line>, reversalOf: Option<JournalId>)
    requires IdsBelow(st) && UniqueReferences(st)
    ensures UniqueReferences(AddJournal(st, date, kind, status, debitTotal, creditTotal, lines, reversalOf))
  {
    var st' := AddJournal(st, date, kind, status, debitTotal, creditTotal, lines, reversalOf);
    forall i | i in st'.journals ensures ReferenceDrawn(st', i) {
      if i != st.nextId { assert ReferenceDrawn(st, i); }
    }
    forall i, k | i in st'.journals && k in st'.journals && i != k
      ensures st'.journals[i].reference != st'.journals[k].reference
    {
      if i != st.nextId { assert ReferenceDrawn(st, i); }
      if k != st.nextId { assert ReferenceDrawn(st, k); }
    }
  }

  lemma AddJournalLinks(st: State, date: Date, kind: string, status: JournalStatus,
                        debitTotal: int, creditTotal: int, lines: seq<Line>)
    requires IdsBelow(st) && Links(st) && !status.Reversed?
    ensures Links(AddJournal(st, date, kind, status, debitTotal, creditTotal, lines, None))
  {
    LinksKept(st, AddJournal(st, date, kind, status, debitTotal, creditTotal, lines, None));
  }

  lemma AddJournalValid(st: State, date: Date, kind: string, status: JournalStatus, lines: seq<Line>)
    requires Valid(st)
    requires 2 <= |lines| && !status.Reversed?
    requires forall k :: 0 <= k < |lines| ==> lines[k].debit >= 0 && lines[k].credit >= 0
    requires status.Posted? ==> Abs(DebitSum(lines) - CreditSum(lines)) <= 1
    ensures Valid(AddJournal(st, date, kind, status, DebitSum(lines), CreditSum(lines), lines, None))
  {
    hide UniqueReferences, Links, DebitSum, CreditSum;
    var st' := AddJournal(st, date, kind, status, DebitSum(lines), CreditSum(lines), lines, None);
    AddJournalReferences(st, date, kind, status, DebitSum(lines), CreditSum(lines), lines, None);
    AddJournalLinks(st, date, kind, status, DebitSum(lines), CreditSum(lines), lines);
    SoundKept(st, st', st.nextId);
  }

  lemma CreateValid(st: State, input: JournalInput)
    requires Valid(st)
    ensures Valid(CreateJournal(st, input).state)
  {
    if CreateJournal(st, input).result.Ok? {
      NoFaultMeansGood(input.lines, 0);
      assert forall k :: 0 <= k < |input.lines| ==> GoodLine(input.lines[k]);
      AddJournalValid(st, input.date.value, input.kind, Draft, input.lines);
    }
  }

  lemma ReverseLinks(st: State, id: JournalId, today: Date)
    requires IdsBelow(st) && Links(st)
    requires id in st.journals && st.journals[id].status.Posted?
    ensures Links(ReverseJournal(st, id, today).state)
  {
    var st' := ReverseJournal(st, id, today).state;
    forall i, t | Reverses(st', i, t)
      ensures GoodReversal(st', i, t)
      ensures t == id <==> i == st.nextId
    {
      if i != st.nextId {
        assert Reverses(st, i, t);
        assert GoodReversal(st, i, t);
      }
    }
    forall i, k, t | Reverses(st', i, t) && Reverses(st', k, t) ensures i == k {
      if t != id { assert Reverses(st, i, t) && Reverses(st, k, t); }
    }
    forall t | t in st'.journals && st'.journals[t].status.Reversed? ensures exists i :: Reverses(st', i, t) {
      if t == id {
        assert Reverses(st', st.nextId, id);
      } else {
        var i :| Reverses(st, i, t);
        assert Reverses(st', i, t);
      }
    }
  }

  lemma ReverseReferences(st: State, id: JournalId, today: Date)
    requires IdsBelow(st) && UniqueReferences(st)
    requires id in st.journals && st.journals[id].status.Posted?
    ensures UniqueReferences(ReverseJournal(st, id, today).state)
  {
    var j := st.journals[id];
    AddJournalReferences(st, today, "Reversal", Posted, j.creditTotal, j.debitTotal, Mirror(j.lines), Some(id));
    ReferencesKept(AddJournal(st, today, "Reversal", Posted, j.creditTotal, j.debitTotal, Mirror(j.lines), Some(id)),
                   ReverseJournal(st, id, today).state);
  }

  lemma ReverseSound(st: State, id: JournalId, today: Date)
    requires IdsBelow(st) && SoundJournals(st)
    requires id in st.journals && st.journals[id].status.Posted?
    ensures SoundJournals(ReverseJournal(st, id, today).state)
  {
    var j := st.journals[id];
    var added := AddJournal(st, today, "Reversal", Posted, j.creditTotal, j.debitTotal, Mirror(j.lines), Some(id));
    MirrorSums(j.lines, "");
    SoundKept(st, added, st.nextId);
    SoundKept(added, ReverseJournal(st, id, today).state, id);
  }

  lemma ReverseValid(st: State, id: JournalId, today: Date)
    requires Valid(st)
    ensures Valid(ReverseJournal(st, id, today).state)
  {
    hide UniqueReferences, Links, SoundJournals;
    if id in st.journals && st.journals[id].status.Posted? {
      ReverseSound(st, id, today);
      ReverseReferences(st, id, today);
      ReverseLinks(st, id, today);
    }
  }

  lemma DeleteValid(st: State, id: JournalId)
    requires Valid(st)
    ensures Valid(DeleteDraft(st, id).state)
  {
    if id in st.journals && st.journals[id].status.Draft? {
      var st' := DeleteDraft(st, id).state;
      forall i, t ensures Reverses(st', i, t) <==> Reverses(st, i, t) {
        assert Reverses(st, i, t) ==> GoodReversal(st, i, t);
      }
      LinksKept(st, st');
      ReferencesKept(st, st');
    }
  }

  lemma AcquireValid(st: State, date: Date, assetAccount: string, paidFrom: string, cost: int)
    requires Valid(st)
    ensures Valid(PostAcquisition(st, date, assetAccount, paidFrom, cost).state)
  {
    if cost > 0 {
      hide Valid;
      var lines := AcquisitionLines(assetAccount, paidFrom, cost);
      SumsOfPair(lines[0], lines[1], "");
      AddJournalValid(st, date, "Capital Expenditure", Posted, lines);
    }
  }

  lemma PostValid(st: State, id: JournalId, pick: nat)
    requires Valid(st)
    ensures Valid(PostJournal(st, id, pick).state)
    ensures Valid(ApproveJournal(st, id, pick).state)
  {
    if PostJournal(st, id, pick).result.Ok? {
      SetStatusValid(st, id, Posted);
    }
  }

  lemma PeriodsIrrelevant(st: State, st': State)
    requires Valid(st) && st' == st.(periods := st'.periods)
    ensures Valid(st')
  {
    LinksKept(st, st');
    ReferencesKept(st, st');
  }

  /** Every call keeps the invariant, whether it succeeds or fails. */
  lemma ApplyValid(st: State, c: Command)
    requires Valid(st)
    ensures Valid(Apply(st, c))
  {
    hide Valid;
    match c
    case Create(input) => CreateValid(st, input);
    case Submit(id) =>
      if id in st.journals && st.journals[id].status.Draft? { SetStatusValid(st, id, PendingApproval); }
    case Approve(id, pick) => PostValid(st, id, pick);
    case Reject(id) =>
      if id in st.journals && st.journals[id].status.PendingApproval? { SetStatusValid(st, id, Draft); }
    case Post(id, pick) => PostValid(st, id, pick);
    case Reverse(id, today) => ReverseValid(st, id, today);
    case Delete(id) => DeleteValid(st, id);
    case Acquire(date, asset, paid, cost) => AcquireValid(st, date, asset, paid, cost);
    case OpenPeriod(year, month) => PeriodsIrrelevant(st, Apply(st, c));
    case ChangePeriod(index, to) => PeriodsIrrelevant(st, Apply(st, c));
  }

  lemma {:induction false} RunValid(periods: seq<Period>, commands: seq<Command>)
    ensures Valid(Run(Init(periods), commands))
  {
    if commands != [] {
      RunValid(periods, commands[..|commands| - 1]);
      ApplyValid(Run(Init(periods), commands[..|commands| - 1]), commands[|commands| - 1]);
    }
  }
}
