/** Accounting periods: what a lock guarantees, and what it does not. */
module LedgerPeriods {
  import opened Basics
  import opened Sums
  import opened Ledger
  import opened LedgerInvariant

  predicate InMonth(p: Period, year: int, month: int) {
    p.year == year && p.month == month
  }

  predicate HasRow(periods: seq<Period>, year: int, month: int) {
    exists k :: 0 <= k < |periods| && InMonth(periods[k], year, month)
  }

  predicate HasOpenRow(periods: seq<Period>, year: int, month: int) {
    exists k :: 0 <= k < |periods| && InMonth(periods[k], year, month) && periods[k].status.Open?
  }

  /** The month has rows and every one of them is locked. */
  predicate Sealed(periods: seq<Period>, year: int, month: int) {
    && HasRow(periods, year, month)
    && forall k :: 0 <= k < |periods| && InMonth(periods[k], year, month) ==> periods[k].status.Locked?
  }

  lemma {:induction false} MonthRowsMembers(periods: seq<Period>, year: int, month: int, s: PeriodStatus)
    ensures s in MonthRows(periods, year, month) <==> Period(year, month, s) in periods
  {
    if periods != [] {
      var front := periods[..|periods| - 1];
      MonthRowsMembers(front, year, month, s);
      assert periods == front + [periods[|periods| - 1]];
    }
  }

  lemma MonthRowsExist(periods: seq<Period>, year: int, month: int)
    ensures MonthRows(periods, year, month) != [] <==> HasRow(periods, year, month)
    ensures Open in MonthRows(periods, year, month) <==> HasOpenRow(periods, year, month)
  {
    var rows := MonthRows(periods, year, month);
    forall s ensures s in rows <==> Period(year, month, s) in periods {
      MonthRowsMembers(periods, year, month, s);
    }
    if rows != [] { assert rows[0] in rows; }
    if HasRow(periods, year, month) {
      var k :| 0 <= k < |periods| && InMonth(periods[k], year, month);
      assert Period(year, month, periods[k].status) == periods[k];
      assert periods[k].status in rows;
    }
    if HasOpenRow(periods, year, month) {
      var k :| 0 <= k < |periods| && InMonth(periods[k], year, month) && periods[k].status.Open?;
      assert periods[k] == Period(year, month, Open);
    }
  }

  /** Exactly when a draft dated in a month can be posted: it is balanced, and
      the month has no row or has an open one for the lookup to find. */
  lemma PostableExactly(st: State, id: JournalId)
    requires id in st.journals && st.journals[id].status.Draft?
    ensures var d := st.journals[id].date;
      (exists pick: nat :: PostJournal(st, id, pick).result.Ok?)
      <==> Balanced(st.journals[id])
           && (!HasRow(st.periods, d.year, d.month) || HasOpenRow(st.periods, d.year, d.month))
  {
    var d := st.journals[id].date;
    var rows := MonthRows(st.periods, d.year, d.month);
    MonthRowsExist(st.periods, d.year, d.month);
    if Balanced(st.journals[id]) {
      if rows == [] {
        assert PostJournal(st, id, 0).result.Ok?;
      } else if Open in rows {
        var pick: nat :| pick < |rows| && rows[pick] == Open;
        PickAny(rows, pick);
        assert PostJournal(st, id, pick).result.Ok?;
      }
    }
  }

  // ---------- what a change of a period does ----------

  /** A period row takes the status named, by one of three names, unless it is
      locked; no other row changes, and no journal. */
  lemma PeriodChanges(st: State, index: nat, to: string)
    ensures var out := SetPeriodStatus(st, index, to);
      && (out.result.Ok? <==>
            && to in {"open", "closed", "locked"}
            && index < |st.periods| && !st.periods[index].status.Locked?)
      && (out.result.Err? ==> out.state == st)
      && (out.result.Ok? ==>
            && |out.state.periods| == |st.periods| && out.state == st.(periods := out.state.periods)
            && (forall k :: 0 <= k < |st.periods| && k != index ==> out.state.periods[k] == st.periods[k])
            && out.state.periods[index].year == st.periods[index].year
            && out.state.periods[index].month == st.periods[index].month
            && out.state.periods[index].status
               == (if to == "open" then Open else if to == "closed" then Closed else Locked))
  {
  }

  /** A new row is open, for a month of the calendar, and changes no other. */
  lemma PeriodOpened(st: State, year: int, month: int)
    ensures var out := CreatePeriod(st, year, month);
      && (out.result.Ok? <==> 1 <= month <= 12)
      && (out.result.Err? ==> out.state == st)
      && (out.result.Ok? ==> out.state == st.(periods := st.periods + [Period(year, month, Open)]))
  {
  }

  /** Closing the only row of a month stops its drafts from being posted; opening
      it again lets those through that balance. */
  lemma ClosingStopsPosting(st: State, index: nat, id: JournalId)
    requires id in st.journals && st.journals[id].status.Draft?
    requires index < |st.periods| && !st.periods[index].status.Locked?
    requires var d := st.journals[id].date;
      forall k :: 0 <= k < |st.periods| ==> (InMonth(st.periods[k], d.year, d.month) <==> k == index)
    ensures var closed := SetPeriodStatus(st, index, "closed").state;
      var reopened := SetPeriodStatus(closed, index, "open").state;
      && (forall pick :: PostJournal(closed, id, pick).result.Err?)
      && ((exists pick: nat :: PostJournal(reopened, id, pick).result.Ok?) <==> Balanced(st.journals[id]))
  {
    var closed := SetPeriodStatus(st, index, "closed").state;
    var reopened := SetPeriodStatus(closed, index, "open").state;
    PeriodChanges(st, index, "closed");
    PeriodChanges(closed, index, "open");
    PostableExactly(closed, id);
    PostableExactly(reopened, id);
    hide SetPeriodStatus, PostJournal;
    var d := st.journals[id].date;
    assert InMonth(closed.periods[index], d.year, d.month) && InMonth(reopened.periods[index], d.year, d.month);
  }

  // ---------- locks ----------

  lemma LockStep(st: State, c: Command, index: nat)
    requires index < |st.periods| && st.periods[index].status.Locked?
    ensures index < |Apply(st, c).periods| && Apply(st, c).periods[index] == st.periods[index]
  {
  }

  /** A locked row never changes again. */
  lemma {:induction false} LockIsPermanent(st: State, commands: seq<Command>, index: nat)
    requires index < |st.periods| && st.periods[index].status.Locked?
    ensures index < |Run(st, commands).periods| && Run(st, commands).periods[index] == st.periods[index]
  {
    if commands != [] {
      var before := commands[..|commands| - 1];
      LockIsPermanent(st, before, index);
      LockStep(Run(st, before), commands[|commands| - 1], index);
    }
  }

  lemma SealStep(st: State, c: Command, year: int, month: int)
    requires Sealed(st.periods, year, month) && c != OpenPeriod(year, month)
    ensures Sealed(Apply(st, c).periods, year, month)
  {
    var k :| 0 <= k < |st.periods| && InMonth(st.periods[k], year, month);
    LockStep(st, c, k);
    assert InMonth(Apply(st, c).periods[k], year, month);
  }

  lemma {:induction false} SealKept(st: State, commands: seq<Command>, year: int, month: int)
    requires Sealed(st.periods, year, month) && OpenPeriod(year, month) !in commands
    ensures Sealed(Run(st, commands).periods, year, month)
  {
    if commands != [] {
      var before := commands[..|commands| - 1];
      SealKept(st, before, year, month);
      SealStep(Run(st, before), commands[|commands| - 1], year, month);
    }
  }

  lemma NoPostingWhenSealed(st: State, id: JournalId, pick: nat)
    requires id in st.journals && Sealed(st.periods, st.journals[id].date.year, st.journals[id].date.month)
    ensures PostJournal(st, id, pick).result.Err? && ApproveJournal(st, id, pick).result.Err?
  {
    var d := st.journals[id].date;
    var rows := MonthRows(st.periods, d.year, d.month);
    MonthRowsExist(st.periods, d.year, d.month);
    MonthRowsMembers(st.periods, d.year, d.month, PickRow(rows, pick));
  }

  ghost predicate BecomesBooked(st: State, st': State, id: JournalId) {
    id in st'.journals && st'.journals[id].Booked() && !(id in st.journals && st.journals[id].Booked())
  }

  /** While a month is sealed, and no second row is made for it, the only calls
      that put a journal of that month in the books are reversals and asset
      acquisitions, at every point of every run. */
  lemma SealedMonthTakesOnlyReversalsAndAcquisitions(
      st: State, commands: seq<Command>, k: nat, id: JournalId, year: int, month: int)
    requires Sealed(st.periods, year, month) && OpenPeriod(year, month) !in commands
    requires k < |commands|
    requires var s := Run(st, commands[..k]);
      && BecomesBooked(s, Apply(s, commands[k]), id)
      && Apply(s, commands[k]).journals[id].date.year == year
      && Apply(s, commands[k]).journals[id].date.month == month
    ensures commands[k].Reverse? || commands[k].Acquire?
  {
    var s := Run(st, commands[..k]);
    SealKept(st, commands[..k], year, month);
    match commands[k]
    case Approve(j, pick) => if j == id { NoPostingWhenSealed(s, id, pick); }
    case Post(j, pick) => if j == id { NoPostingWhenSealed(s, id, pick); }
    case _ =>
  }

  function TwoLines(): seq<Line> {
    [Line("1110", 100, 0), Line("3001", 0, 100)]
  }

  /** Without that proviso a lock does not hold: make a second row for the
      locked month, and a lookup that finds it lets a posting through. */
  lemma SecondRowUndoesLock()
    ensures var locked := Init([Period(2026, 1, Locked)]);
      var commands := [OpenPeriod(2026, 1), Create(JournalInput(Some(Date(2026, 1, 15)), "Manual", TwoLines())),
          Post(0, 1)];
      var st := Run(locked, commands);
      && Sealed(locked.periods, 2026, 1)
      && 0 in st.journals && st.journals[0].status.Posted?
      && st.journals[0].date == Date(2026, 1, 15)
  {
    var locked := Init([Period(2026, 1, Locked)]);
    var input := JournalInput(Some(Date(2026, 1, 15)), "Manual", TwoLines());
    assert InMonth(locked.periods[0], 2026, 1);
    var none: seq<Command> := [];
    RunSnoc(locked, none, OpenPeriod(2026, 1));
    RunSnoc(locked, none + [OpenPeriod(2026, 1)], Create(input));
    RunSnoc(locked, none + [OpenPeriod(2026, 1)] + [Create(input)], Post(0, 1));
    assert none + [OpenPeriod(2026, 1)] + [Create(input)] + [Post(0, 1)]
        == [OpenPeriod(2026, 1), Create(input), Post(0, 1)];
    TwoLinesCreate(Apply(locked, OpenPeriod(2026, 1)), input);
    TwoRows();
  }

  lemma TwoLinesCreate(st: State, input: JournalInput)
    requires input.lines == TwoLines() && input.kind != "" && input.date.Some?
    ensures var out := CreateJournal(st, input);
      && out.result == Ok(st.nextId)
      && out.state.periods == st.periods && st.nextId in out.state.journals
      && out.state.journals[st.nextId].status.Draft? && out.state.journals[st.nextId].date == input.date.value
      && Balanced(out.state.journals[st.nextId])
  {
    SumsOfPair(TwoLines()[0], TwoLines()[1], "");
    NoFaultMeansGood(TwoLines(), 0);
  }

  lemma TwoRows()
    ensures var rows := MonthRows([Period(2026, 1, Locked), Period(2026, 1, Open)], 2026, 1);
      |rows| == 2 && PickRow(rows, 1) == Open
  {
    var periods := [Period(2026, 1, Locked), Period(2026, 1, Open)];
    assert periods[..1] == [Period(2026, 1, Locked)] && periods[..1][..0] == [];
    assert MonthRows(periods[..1], 2026, 1) == [Locked];
    PickAny(MonthRows(periods, 2026, 1), 1);
  }

  // ---------- totals over the whole ledger ----------

  function DifferenceAt(st: State, i: JournalId): int {
    if i in st.journals && st.journals[i].status.Posted?
    then DebitSum(st.journals[i].lines) - CreditSum(st.journals[i].lines)
    else 0
  }

  function DifferenceOf(st: State): nat -> int {
    (i: nat) => DifferenceAt(st, i)
  }

  function PostedAt(st: State, i: JournalId): int {
    if i in st.journals && st.journals[i].status.Posted? then 1 else 0
  }

  function PostedOf(st: State): nat -> int {
    (i: nat) => PostedAt(st, i)
  }

  /** After any run the header totals are the sums of the lines, references are
      unique, and the lines of the posted journals differ in total by at most
      one kobo for each of them. */
  lemma TotalsAgree(periods: seq<Period>, commands: seq<Command>)
    ensures var st := Run(Init(periods), commands);
      && (forall i :: i in st.journals ==>
            && st.journals[i].debitTotal == DebitSum(st.journals[i].lines)
            && st.journals[i].creditTotal == CreditSum(st.journals[i].lines))
      && (forall i, k :: i in st.journals && k in st.journals && i != k ==>
            st.journals[i].reference != st.journals[k].reference)
      && -Sum(PostedOf(st), st.nextId) <= Sum(DifferenceOf(st), st.nextId) <= Sum(PostedOf(st), st.nextId)
  {
    var st := Run(Init(periods), commands);
    RunValid(periods, commands);
    assert forall i :: i in st.journals ==> SoundJournal(st.journals[i]);
    SumWithin(DifferenceOf(st), PostedOf(st), st.nextId);
  }
}
