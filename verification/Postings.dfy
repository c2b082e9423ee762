/** How other modules move an account: they create a journal and post it at
    once. Ledger calls that book no line on an account leave its balance alone. */
module Postings {
  import opened Basics
  import opened Sums
  import opened Ledger
  import opened LedgerInvariant

  /** Create, then post. When posting fails the draft stays behind. */
  function CreateAndPost(st: State, input: JournalInput, pick: nat): Outcome<State, JournalId> {
    var created := CreateJournal(st, input);
    if created.result.Err? then created
    else
      var id := created.result.value;
      match PostJournal(created.state, id, pick)
      case Outcome(st', Ok(_)) => Outcome(st', Ok(id))
      case Outcome(st', Err(e)) => Outcome(st', Err(e))
  }

  /** A set of lines that creation accepts, whatever becomes of the posting. */
  predicate WellFormed(input: JournalInput) {
    && 2 <= |input.lines| && input.kind != "" && input.date.Some?
    && (forall k :: 0 <= k < |input.lines| ==> GoodLine(input.lines[k]))
  }

  /** When a set of lines would be accepted and posted. */
  predicate Acceptable(st: State, input: JournalInput, pick: nat) {
    && WellFormed(input)
    && Abs(DebitSum(input.lines) - CreditSum(input.lines)) <= 1
    && PeriodStatusForDate(st.periods, input.date.value, pick).Open?
  }

  lemma AcceptedExactly(st: State, input: JournalInput, pick: nat)
    ensures CreateAndPost(st, input, pick).result.Ok? <==> Acceptable(st, input, pick)
  {
    NoFaultMeansGood(input.lines, 0);
  }

  /** Exactly when a refusal leaves something behind: the lines are well formed,
      but out of balance or in a period that is not open. What stays is the draft,
      and its number is drawn; otherwise nothing changes at all. */
  lemma RefusedLeavesDraft(st: State, input: JournalInput, pick: nat)
    requires IdsBelow(st) && CreateAndPost(st, input, pick).result.Err?
    ensures var out := CreateAndPost(st, input, pick);
      && (out.state != st <==> WellFormed(input))
      && (WellFormed(input) ==>
            var year := input.date.value.year;
            && out.result.error
               == (if Abs(DebitSum(input.lines) - CreditSum(input.lines)) <= 1 then PeriodClosed else Unbalanced)
            && out.state.nextId == st.nextId + 1 && st.nextId in out.state.journals
            && out.state.journals - {st.nextId} == st.journals
            && out.state.journals[st.nextId].status.Draft? && out.state.journals[st.nextId].lines == input.lines
            && out.state.journals[st.nextId].reference == JV(year, NextSeq(st.counters, year))
            && out.state.counters == st.counters[year := NextSeq(st.counters, year)]
            && out.state.periods == st.periods)
  {
    NoFaultMeansGood(input.lines, 0);
    hide DebitSum, CreditSum, GoodLine, FirstFault;
    var out := CreateAndPost(st, input, pick);
    if WellFormed(input) {
      assert st.nextId !in st.journals;
      assert out.state.journals - {st.nextId} == st.journals;
    }
  }

  lemma AddedBalance(st: State, date: Date, kind: string, status: JournalStatus, debitTotal: int, creditTotal: int,
                     lines: seq<Line>, account: string)
    requires IdsBelow(st)
    ensures Balance(AddJournal(st, date, kind, status, debitTotal, creditTotal, lines, None), account)
            == Balance(st, account) + if status.Posted? || status.Reversed? then Net(lines, account) else 0
  {
    var st' := AddJournal(st, date, kind, status, debitTotal, creditTotal, lines, None);
    SumSame(NetOf(st, account), NetOf(st', account), st.nextId);
  }

  lemma PostedBalance(st: State, id: JournalId, account: string)
    requires IdsBelow(st) && id in st.journals && !st.journals[id].Booked()
    ensures Balance(SetStatus(st, id, Posted), account)
            == Balance(st, account) + Net(st.journals[id].lines, account)
  {
    SumPoint(NetOf(st, account), NetOf(SetStatus(st, id, Posted), account), st.nextId, id);
  }

  lemma ReversedBalance(st: State, id: JournalId, today: Date, account: string)
    requires IdsBelow(st) && ReverseJournal(st, id, today).result.Ok?
    ensures Balance(ReverseJournal(st, id, today).state, account)
            == Balance(st, account) - Net(st.journals[id].lines, account)
  {
    MirrorSums(st.journals[id].lines, account);
    SumSame(NetOf(st, account), NetOf(ReverseJournal(st, id, today).state, account), st.nextId);
  }

  lemma UnbookedBalance(st: State, st': State, account: string)
    requires st'.nextId == st.nextId
    requires forall i: nat :: NetAt(st', account, i) == NetAt(st, account, i)
    ensures Balance(st', account) == Balance(st, account)
  {
    SumSame(NetOf(st, account), NetOf(st', account), st.nextId);
  }

  /** A successful posting moves every account by the net of its lines; a failed
      one moves none. */
  lemma CreateAndPostEffect(st: State, input: JournalInput, pick: nat, account: string)
    requires IdsBelow(st)
    ensures var out := CreateAndPost(st, input, pick);
      && out.state.periods == st.periods
      && Balance(out.state, account) == Balance(st, account) + if out.result.Ok? then Net(input.lines, account) else 0
  {
    var created := CreateJournal(st, input);
    if created.result.Ok? {
      AddedBalance(st, input.date.value, input.kind, Draft, DebitSum(input.lines), CreditSum(input.lines), input.lines,
          account);
      if PostJournal(created.state, st.nextId, pick).result.Ok? {
        PostedBalance(created.state, st.nextId, account);
      }
    }
  }

  /** Exactly one journal has been added: posted, of this date and type. */
  predicate BookedNow(st: State, st': State, date: Date, kind: string) {
    && st.nextId in st'.journals && st'.journals - {st.nextId} == st.journals
    && var j := st'.journals[st.nextId];
       j.status.Posted? && j.date == date && j.kind == kind && j.reversalOf.None?
  }

  lemma PostedAsGiven(st: State, input: JournalInput, pick: nat)
    requires IdsBelow(st) && CreateAndPost(st, input, pick).result.Ok?
    ensures BookedNow(st, CreateAndPost(st, input, pick).state, input.date.value, input.kind)
    ensures CreateAndPost(st, input, pick).state.journals[st.nextId].lines == input.lines
  {
    hide DebitSum, CreditSum, FirstFault, PeriodStatusForDate;
    var st' := CreateAndPost(st, input, pick).state;
    assert st.nextId !in st.journals;
    assert st'.journals - {st.nextId} == st.journals;
  }

  lemma CreateAndPostValid(st: State, input: JournalInput, pick: nat)
    requires Valid(st)
    ensures Valid(CreateAndPost(st, input, pick).state)
  {
    hide Valid;
    CreateValid(st, input);
    if CreateJournal(st, input).result.Ok? {
      PostValid(CreateJournal(st, input).state, st.nextId, pick);
    }
  }

  lemma AcquisitionEffect(st: State, date: Date, assetAccount: string, paidFrom: string, cost: int, account: string)
    requires IdsBelow(st) && cost > 0
    ensures var out := PostAcquisition(st, date, assetAccount, paidFrom, cost);
      Balance(out.state, account) == Balance(st, account)
           + (if assetAccount == account then cost else 0) - (if paidFrom == account then cost else 0)
  {
    var lines := AcquisitionLines(assetAccount, paidFrom, cost);
    SumsOfPair(lines[0], lines[1], account);
    AddedBalance(st, date, "Capital Expenditure", Posted, cost, cost, lines, account);
  }

  /** The call books nothing on the account. A caller can tell beforehand, from
      the lines of the journal it is about to post, approve or reverse. */
  predicate LeavesAlone(st: State, c: Command, account: string) {
    match c
    case Post(id, _) => id in st.journals ==> !TouchesAccount(st.journals[id].lines, account)
    case Approve(id, _) => id in st.journals ==> !TouchesAccount(st.journals[id].lines, account)
    case Reverse(id, _) => id in st.journals ==> !TouchesAccount(st.journals[id].lines, account)
    case Acquire(_, asset, paid, _) => asset != account && paid != account
    case _ => true
  }

  lemma LeftAlone(st: State, c: Command, account: string)
    requires IdsBelow(st) && LeavesAlone(st, c, account)
    ensures Balance(Apply(st, c), account) == Balance(st, account)
  {
    hide Balance, Net, TouchesAccount;
    match c
    case Create(input) =>
      if CreateJournal(st, input).result.Ok? {
        AddedBalance(st, input.date.value, input.kind, Draft, DebitSum(input.lines), CreditSum(input.lines),
            input.lines, account);
      }
    case Submit(id) => UnbookedBalance(st, Apply(st, c), account);
    case Approve(id, pick) =>
      if ApproveJournal(st, id, pick).result.Ok? {
        PostedBalance(st, id, account);
        NetUntouched(st.journals[id].lines, account);
      }
    case Reject(id) => UnbookedBalance(st, Apply(st, c), account);
    case Post(id, pick) =>
      if PostJournal(st, id, pick).result.Ok? {
        PostedBalance(st, id, account);
        NetUntouched(st.journals[id].lines, account);
      }
    case Reverse(id, today) =>
      if ReverseJournal(st, id, today).result.Ok? {
        ReversedBalance(st, id, today, account);
        NetUntouched(st.journals[id].lines, account);
      }
    case Delete(id) => UnbookedBalance(st, Apply(st, c), account);
    case Acquire(date, asset, paid, cost) =>
      if cost > 0 { AcquisitionEffect(st, date, asset, paid, cost, account); }
    case OpenPeriod(year, month) => UnbookedBalance(st, Apply(st, c), account);
    case ChangePeriod(index, to) => UnbookedBalance(st, Apply(st, c), account);
  }

  lemma ApplyIds(st: State, c: Command)
    requires IdsBelow(st)
    ensures IdsBelow(Apply(st, c))
  {
  }

  lemma CreateAndPostIds(st: State, input: JournalInput, pick: nat)
    requires IdsBelow(st)
    ensures IdsBelow(CreateAndPost(st, input, pick).state)
  {
  }
}
