/** The general ledger: journals with their lines, the per-year reference
    counter and the accounting periods. Money is in kobo.

    Every service call is a total function from a ledger state to the state it
    leaves and the result it reports; `Apply` and `Run` string calls together. */
module Ledger {
  import opened Basics
  import opened Sums

  type JournalId = nat

  datatype Date = Date(year: int, month: int, day: int)

  datatype Line = Line(account: string, debit: int, credit: int)

  datatype JournalStatus = Draft | PendingApproval | Posted | Reversed

  /** The text `JV/<year>/<seq>`. */
  datatype Reference = JV(year: int, number: nat)

  datatype Journal = Journal(
    reference: Reference,
    date: Date,
    kind: string,
    status: JournalStatus,
    debitTotal: int,
    creditTotal: int,
    lineCount: nat,
    lines: seq<Line>,
    reversalOf: Option<JournalId>)
  {
    /** Posted, or posted once and reversed since: its lines are in the books. */
    predicate Booked() {
      status.Posted? || status.Reversed?
    }
  }

  /** `date` is None when the text of the date does not parse. */
  datatype JournalInput = JournalInput(date: Option<Date>, kind: string, lines: seq<Line>)

  datatype PeriodStatus = Open | Closed | Locked

  /** A group-wide period row. Nothing stops two rows for one month: the unique
      key holds a NULL subsidiary, and NULLs never clash. */
  datatype Period = Period(year: int, month: int, status: PeriodStatus)

  datatype State = State(
    journals: map<JournalId, Journal>,
    nextId: nat,
    counters: map<int, nat>,
    periods: seq<Period>)

  function Init(periods: seq<Period>): State {
    State(map[], 0, map[], periods)
  }

  // ---------- lines ----------

  function DebitSum(lines: seq<Line>): int {
    if lines == [] then 0 else DebitSum(lines[..|lines| - 1]) + lines[|lines| - 1].debit
  }

  function CreditSum(lines: seq<Line>): int {
    if lines == [] then 0 else CreditSum(lines[..|lines| - 1]) + lines[|lines| - 1].credit
  }

  /** Debit less credit on one account. */
  function Net(lines: seq<Line>, account: string): int {
    if lines == [] then 0
    else
      var l := lines[|lines| - 1];
      Net(lines[..|lines| - 1], account) + if l.account == account then l.debit - l.credit else 0
  }

  predicate TouchesAccount(lines: seq<Line>, account: string) {
    exists i :: 0 <= i < |lines| && lines[i].account == account
  }

  function Flip(l: Line): Line {
    Line(l.account, l.credit, l.debit)
  }

  /** The same lines with debit and credit exchanged. */
  function Mirror(lines: seq<Line>): (m: seq<Line>)
    ensures |m| == |lines|
  {
    seq(|lines|, i requires 0 <= i < |lines| => Flip(lines[i]))
  }

  lemma {:induction false} MirrorSums(lines: seq<Line>, account: string)
    ensures DebitSum(Mirror(lines)) == CreditSum(lines)
    ensures CreditSum(Mirror(lines)) == DebitSum(lines)
    ensures Net(Mirror(lines), account) == -Net(lines, account)
  {
    if lines != [] {
      var front := lines[..|lines| - 1];
      assert Mirror(lines)[..|lines| - 1] == Mirror(front);
      MirrorSums(front, account);
    }
  }

  lemma SumsAppend(lines: seq<Line>, l: Line, account: string)
    ensures DebitSum(lines + [l]) == DebitSum(lines) + l.debit
    ensures CreditSum(lines + [l]) == CreditSum(lines) + l.credit
    ensures Net(lines + [l], account) == Net(lines, account) + if l.account == account then l.debit - l.credit else 0
  {
    assert (lines + [l])[..|lines|] == lines;
  }

  lemma SumsOfPair(a: Line, b: Line, account: string)
    ensures DebitSum([a, b]) == a.debit + b.debit
    ensures CreditSum([a, b]) == a.credit + b.credit
    ensures Net([a, b], account) == (if a.account == account then a.debit - a.credit else 0)
                                    + (if b.account == account then b.debit - b.credit else 0)
  {
    SumsAppend([], a, account);
    SumsAppend([a], b, account);
    assert [] + [a] == [a] && [a] + [b] == [a, b];
  }

  lemma {:induction false} NetUntouched(lines: seq<Line>, account: string)
    requires !TouchesAccount(lines, account)
    ensures Net(lines, account) == 0
  {
    if lines != [] {
      NetUntouched(lines[..|lines| - 1], account);
    }
  }

  /** The complaint about the first line, from index `i` on, that cannot be taken. */
  function FirstFault(lines: seq<Line>, i: nat): Option<Error>
    requires i <= |lines|
    decreases |lines| - i
  {
    if i == |lines| then None
    else if lines[i].debit < 0 || lines[i].credit < 0 then Some(NegativeAmount(i + 1))
    else if lines[i].account == "" then Some(MissingAccount(i + 1))
    else FirstFault(lines, i + 1)
  }

  predicate GoodLine(l: Line) {
    l.debit >= 0 && l.credit >= 0 && l.account != ""
  }

  lemma {:induction false} NoFaultMeansGood(lines: seq<Line>, i: nat)
    requires i <= |lines|
    ensures FirstFault(lines, i).None? <==> forall k :: i <= k < |lines| ==> GoodLine(lines[k])
    decreases |lines| - i
  {
    if i < |lines| {
      NoFaultMeansGood(lines, i + 1);
      assert GoodLine(lines[i]) ==> (FirstFault(lines, i) == FirstFault(lines, i + 1));
    }
  }

  // ---------- calls ----------

  function NextSeq(counters: map<int, nat>, year: int): nat {
    if year in counters then counters[year] + 1 else 1
  }

  /** Insert a journal, drawing the next reference of `date`'s year. */
  function AddJournal(st: State, date: Date, kind: string, status: JournalStatus,
                      debitTotal: int, creditTotal: int, lines: seq<Line>,
                      reversalOf: Option<JournalId>): State
  {
    var n := NextSeq(st.counters, date.year);
    st.(
      journals := st.journals[st.nextId :=
        Journal(JV(date.year, n), date, kind, status, debitTotal, creditTotal, |lines|, lines, reversalOf)],
      nextId := st.nextId + 1,
      counters := st.counters[date.year := n])
  }

  function CreateJournal(st: State, input: JournalInput): Outcome<State, JournalId> {
    if |input.lines| < 2 then Outcome(st, Err(TooFewLines))
    else if input.kind == "" then Outcome(st, Err(TypeRequired))
    else if input.date.None? then Outcome(st, Err(InvalidDate))
    else
      match FirstFault(input.lines, 0)
      case Some(fault) => Outcome(st, Err(fault))
      case None =>
        Outcome(AddJournal(st, input.date.value, input.kind, Draft,
                           DebitSum(input.lines), CreditSum(input.lines), input.lines, None),
                Ok(st.nextId))
  }

  predicate Balanced(j: Journal) {
    Abs(j.debitTotal - j.creditTotal) <= 1
  }

  /** The statuses of the rows for a month, in table order. */
  function MonthRows(periods: seq<Period>, year: int, month: int): seq<PeriodStatus> {
    if periods == [] then []
    else
      var p := periods[|periods| - 1];
      MonthRows(periods[..|periods| - 1], year, month)
      + if p.year == year && p.month == month then [p.status] else []
  }

  function PickRow(rows: seq<PeriodStatus>, pick: nat): (s: PeriodStatus)
    requires rows != []
    ensures s in rows
  {
    rows[pick % |rows|]
  }

  lemma PickAny(rows: seq<PeriodStatus>, k: nat)
    requires k < |rows|
    ensures PickRow(rows, k) == rows[k]
  {
  }

  /** The status a lookup with LIMIT 1 and no ordering returns. Which row that
      is depends on the database; `pick` ranges over all of them. No row at
      all reads as open. */
  function PeriodStatusForDate(periods: seq<Period>, d: Date, pick: nat): PeriodStatus {
    var rows := MonthRows(periods, d.year, d.month);
    if rows == [] then Open else PickRow(rows, pick)
  }

  function SetStatus(st: State, id: JournalId, status: JournalStatus): State
    requires id in st.journals
  {
    st.(journals := st.journals[id := st.journals[id].(status := status)])
  }

  /** The checks that posting and approving share, before the row is updated. */
  function PostingFault(st: State, id: JournalId, pick: nat): Option<Error> {
    if id !in st.journals then Some(NotFound)
    else if !Balanced(st.journals[id]) then Some(Unbalanced)
    else if !PeriodStatusForDate(st.periods, st.journals[id].date, pick).Open? then Some(PeriodClosed)
    else None
  }

  function PostJournal(st: State, id: JournalId, pick: nat): Outcome<State, ()> {
    match PostingFault(st, id, pick)
    case Some(fault) => Outcome(st, Err(fault))
    case None =>
      if st.journals[id].status.Draft? || st.journals[id].status.PendingApproval?
      then Outcome(SetStatus(st, id, Posted), Ok(()))
      else Outcome(st, Err(WrongStatus))
  }

  function SubmitForApproval(st: State, id: JournalId): Outcome<State, ()> {
    if id in st.journals && st.journals[id].status.Draft?
    then Outcome(SetStatus(st, id, PendingApproval), Ok(()))
    else Outcome(st, Err(WrongStatus))
  }

  function ApproveJournal(st: State, id: JournalId, pick: nat): Outcome<State, ()> {
    match PostingFault(st, id, pick)
    case Some(fault) => Outcome(st, Err(fault))
    case None =>
      if st.journals[id].status.PendingApproval?
      then Outcome(SetStatus(st, id, Posted), Ok(()))
      else Outcome(st, Err(WrongStatus))
  }

  function RejectJournal(st: State, id: JournalId): Outcome<State, ()> {
    if id in st.journals && st.journals[id].status.PendingApproval?
    then Outcome(SetStatus(st, id, Draft), Ok(()))
    else Outcome(st, Err(WrongStatus))
  }

  function ReverseJournal(st: State, id: JournalId, today: Date): Outcome<State, JournalId> {
    if id !in st.journals then Outcome(st, Err(NotFound))
    else if !st.journals[id].status.Posted? then Outcome(st, Err(WrongStatus))
    else
      var j := st.journals[id];
      var added := AddJournal(st, today, "Reversal", Posted, j.creditTotal, j.debitTotal,
                              Mirror(j.lines), Some(id));
      Outcome(added.(journals := added.journals[id := j.(status := Reversed)]), Ok(st.nextId))
  }

  function DeleteDraft(st: State, id: JournalId): Outcome<State, ()> {
    if id in st.journals && st.journals[id].status.Draft?
    then Outcome(st.(journals := st.journals - {id}), Ok(()))
    else Outcome(st, Err(WrongStatus))
  }

  /** The lines of an asset acquisition. */
  function AcquisitionLines(assetAccount: string, paidFrom: string, cost: int): seq<Line> {
    [Line(assetAccount, cost, 0), Line(paidFrom, 0, cost)]
  }

  /** The journal an asset purchase inserts and posts in one go: no check of the
      account codes, of the balance or of the period. */
  function PostAcquisition(st: State, date: Date, assetAccount: string, paidFrom: string, cost: int)
    : Outcome<State, JournalId>
  {
    if cost <= 0 then Outcome(st, Err(InvalidInput))
    else
      Outcome(AddJournal(st, date, "Capital Expenditure", Posted, cost, cost,
                         AcquisitionLines(assetAccount, paidFrom, cost), None),
              Ok(st.nextId))
  }

  function CreatePeriod(st: State, year: int, month: int): Outcome<State, nat> {
    if month < 1 || 12 < month then Outcome(st, Err(InvalidInput))
    else Outcome(st.(periods := st.periods + [Period(year, month, Open)]), Ok(|st.periods|))
  }

  function ParsePeriodStatus(s: string): Option<PeriodStatus> {
    if s == "open" then Some(Open)
    else if s == "closed" then Some(Closed)
    else if s == "locked" then Some(Locked)
    else None
  }

  function SetPeriodStatus(st: State, index: nat, status: string): Outcome<State, ()> {
    match ParsePeriodStatus(status)
    case None => Outcome(st, Err(InvalidInput))
    case Some(s) =>
      if index >= |st.periods| || st.periods[index].status.Locked? then Outcome(st, Err(NotFound))
      else Outcome(st.(periods := st.periods[index := st.periods[index].(status := s)]), Ok(()))
  }

  // ---------- runs ----------

  datatype Command =
    | Create(input: JournalInput)
    | Submit(id: JournalId)
    | Approve(id: JournalId, pick: nat)
    | Reject(id: JournalId)
    | Post(id: JournalId, pick: nat)
    | Reverse(id: JournalId, today: Date)
    | Delete(id: JournalId)
    | Acquire(date: Date, assetAccount: string, paidFrom: string, cost: int)
    | OpenPeriod(year: int, month: int)
    | ChangePeriod(index: nat, to: string)

  function Apply(st: State, c: Command): State {
    match c
    case Create(input) => CreateJournal(st, input).state
    case Submit(id) => SubmitForApproval(st, id).state
    case Approve(id, pick) => ApproveJournal(st, id, pick).state
    case Reject(id) => RejectJournal(st, id).state
    case Post(id, pick) => PostJournal(st, id, pick).state
    case Reverse(id, today) => ReverseJournal(st, id, today).state
    case Delete(id) => DeleteDraft(st, id).state
    case Acquire(date, asset, paid, cost) => PostAcquisition(st, date, asset, paid, cost).state
    case OpenPeriod(year, month) => CreatePeriod(st, year, month).state
    case ChangePeriod(index, to) => SetPeriodStatus(st, index, to).state
  }

  function Run(st: State, commands: seq<Command>): State {
    if commands == [] then st
    else Apply(Run(st, commands[..|commands| - 1]), commands[|commands| - 1])
  }

  lemma RunSnoc(st: State, commands: seq<Command>, c: Command)
    ensures Run(st, commands + [c]) == Apply(Run(st, commands), c)
  {
    assert (commands + [c])[..|commands|] == commands;
  }

  // ---------- balances ----------

  function NetAt(st: State, account: string, id: JournalId): int {
    if id in st.journals && st.journals[id].Booked() then Net(st.journals[id].lines, account) else 0
  }

  function NetOf(st: State, account: string): nat -> int {
    (id: nat) => NetAt(st, account, id)
  }

  /** Debit less credit on an account over everything ever booked. */
  function Balance(st: State, account: string): int {
    Sum(NetOf(st, account), st.nextId)
  }
}
