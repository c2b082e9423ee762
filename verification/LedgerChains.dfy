/** Reversal chains. A journal may be reversed, its reversal reversed, and so on.
    Over everything ever booked, each account carries exactly the originals
    whose chain holds an even number of reversals. */
module LedgerChains {
  import opened Basics
  import opened Sums
  import opened Ledger
  import opened LedgerInvariant

  function Parent(st: State, i: JournalId): Option<JournalId> {
    if i in st.journals then st.journals[i].reversalOf else None
  }

  /** The original at the start of the chain of `i`. */
  function Root(st: State, i: JournalId): JournalId {
    var p := Parent(st, i);
    if p.Some? && p.value < i then Root(st, p.value) else i
  }

  /** How many reversals lead from the original to `i`. */
  function Depth(st: State, i: JournalId): nat {
    var p := Parent(st, i);
    if p.Some? && p.value < i then 1 + Depth(st, p.value) else 0
  }

  function ReversalAt(st: State, original: JournalId, i: JournalId): int {
    if Parent(st, i).Some? && Root(st, i) == original then 1 else 0
  }

  function ReversalsOf(st: State, original: JournalId): nat -> int {
    (i: nat) => ReversalAt(st, original, i)
  }

  /** The number of reversals in the chain of an original. */
  function ChainLength(st: State, original: JournalId): int {
    Sum(ReversalsOf(st, original), st.nextId)
  }

  function StandingAt(st: State, account: string, i: JournalId): int {
    if i in st.journals && st.journals[i].Booked() && Parent(st, i).None? && ChainLength(st, i) % 2 == 0
    then Net(st.journals[i].lines, account)
    else 0
  }

  function StandingOf(st: State, account: string): nat -> int {
    (i: nat) => StandingAt(st, account, i)
  }

  /** Net of the originals whose chain has an even number of reversals. */
  function StandingBalance(st: State, account: string): int {
    Sum(StandingOf(st, account), st.nextId)
  }

  predicate IsPosted(st: State, i: JournalId) {
    i in st.journals && st.journals[i].status.Posted?
  }

  /** A posted journal is the last of its chain, and the only posted one in it. */
  ghost predicate Tips(st: State) {
    && (forall i :: IsPosted(st, i) ==> Depth(st, i) == ChainLength(st, Root(st, i)))
    && (forall i, k :: IsPosted(st, i) && IsPosted(st, k) && Root(st, i) == Root(st, k) ==> i == k)
  }

  // ---------- what a chain looks like ----------

  lemma {:induction false} RootStable(st: State, st': State, i: JournalId)
    requires forall k | 0 <= k <= i :: Parent(st', k) == Parent(st, k)
    ensures Root(st', i) == Root(st, i) && Depth(st', i) == Depth(st, i)
  {
    var p := Parent(st, i);
    if p.Some? && p.value < i { RootStable(st, st', p.value); }
  }

  lemma {:induction false} RootOfReversal(st: State, i: JournalId)
    requires Links(st) && Parent(st, i).Some?
    ensures Root(st, i) < i && Root(st, i) in st.journals
    ensures st.journals[Root(st, i)].status.Reversed? && Parent(st, Root(st, i)).None?
  {
    var p := Parent(st, i).value;
    assert Reverses(st, i, p) && GoodReversal(st, i, p);
    if Parent(st, p).Some? { RootOfReversal(st, p); }
  }

  /** Along a chain the net of the lines alternates in sign. */
  lemma {:induction false} NetAlternates(st: State, i: JournalId, account: string)
    requires Links(st) && i in st.journals
    ensures Root(st, i) in st.journals && Parent(st, Root(st, i)).None?
    ensures Net(st.journals[i].lines, account)
            == (if Depth(st, i) % 2 == 0 then 1 else -1) * Net(st.journals[Root(st, i)].lines, account)
  {
    if Parent(st, i).Some? {
      var p := Parent(st, i).value;
      assert Reverses(st, i, p) && GoodReversal(st, i, p);
      NetAlternates(st, p, account);
      MirrorSums(st.journals[p].lines, account);
    }
  }

  lemma NoReversalsUnlessReversed(st: State, original: JournalId)
    requires Links(st)
    requires original !in st.journals || !st.journals[original].status.Reversed?
    ensures ChainLength(st, original) == 0
  {
    forall i: nat | i < st.nextId ensures ReversalsOf(st, original)(i) == 0 {
      if Parent(st, i).Some? { RootOfReversal(st, i); }
    }
    SumZero(ReversalsOf(st, original), st.nextId);
  }

  // ---------- calls other than a reversal ----------

  /** Nothing booked is lost, no link changes, and what becomes booked is an
      original that becomes posted. */
  ghost predicate Quiet(st: State, st': State) {
    && st.nextId <= st'.nextId
    && (forall i: nat :: Parent(st', i) == Parent(st, i))
    && (forall i :: i in st.journals && st.journals[i].Booked() ==>
          i in st'.journals && st'.journals[i] == st.journals[i])
    && (forall i :: i in st'.journals && st'.journals[i].Booked() ==>
          (i in st.journals && st.journals[i].Booked()) || (st'.journals[i].status.Posted? && Parent(st', i).None?))
  }

  lemma QuietChainLength(st: State, st': State, original: JournalId)
    requires Quiet(st, st') && IdsBelow(st)
    ensures ChainLength(st', original) == ChainLength(st, original)
  {
    forall i: nat ensures ReversalsOf(st', original)(i) == ReversalsOf(st, original)(i) {
      RootStable(st, st', i);
    }
    SumSame(ReversalsOf(st, original), ReversalsOf(st', original), st'.nextId);
    SumExtend(ReversalsOf(st, original), st.nextId, st'.nextId);
  }

  lemma QuietStep(st: State, st': State, account: string)
    requires Quiet(st, st') && IdsBelow(st) && IdsBelow(st') && Links(st') && Tips(st)
    ensures Tips(st')
    ensures Balance(st', account) - Balance(st, account)
            == StandingBalance(st', account) - StandingBalance(st, account)
  {
    forall i: nat
      ensures Root(st', i) == Root(st, i) && Depth(st', i) == Depth(st, i)
    {
      RootStable(st, st', i);
    }
    forall i: nat
      ensures ChainLength(st', i) == ChainLength(st, i)
    {
      QuietChainLength(st, st', i);
    }
    forall i | IsPosted(st', i) && !(i in st.journals && st.journals[i].Booked())
      ensures Depth(st', i) == 0 && Root(st', i) == i && ChainLength(st', i) == 0
      ensures forall k :: k != i ==> Root(st', k) != i
    {
      NoReversalsUnlessReversed(st', i);
      forall k: nat | k != i ensures Root(st', k) != i {
        if Parent(st', k).Some? { RootOfReversal(st', k); }
      }
    }
    forall i: nat | i < st'.nextId
      ensures NetOf(st', account)(i) - NetOf(st, account)(i) == StandingOf(st', account)(i) - StandingOf(st, account)(i)
    {
      assert ChainLength(st', i) == ChainLength(st, i);
      assert NetOf(st', account)(i) - NetOf(st, account)(i) == NetAt(st', account, i) - NetAt(st, account, i);
      assert StandingOf(st', account)(i) - StandingOf(st, account)(i)
          == StandingAt(st', account, i) - StandingAt(st, account, i);
    }
    SumShift(NetOf(st, account), NetOf(st', account), StandingOf(st, account), StandingOf(st', account), st'.nextId);
    SumExtend(NetOf(st, account), st.nextId, st'.nextId);
    SumExtend(StandingOf(st, account), st.nextId, st'.nextId);
  }

  // ---------- a reversal ----------

  /** `st'` is `st` with one more row, the reversal of the posted journal `id`. */
  ghost predicate AddsReversal(st: State, st': State, id: JournalId) {
    && id < st.nextId && st'.nextId == st.nextId + 1
    && id in st.journals && st.journals[id].status.Posted?
    && Parent(st', st.nextId) == Some(id)
    && (forall i: nat | i < st.nextId :: Parent(st', i) == Parent(st, i))
    && (forall i: nat | i < st.nextId :: i in st'.journals <==> i in st.journals)
    && (forall i: nat | i < st.nextId && i in st.journals ::
          && st'.journals[i].lines == st.journals[i].lines
          && st'.journals[i].status == if i == id then Reversed else st.journals[i].status)
    && st.nextId in st'.journals && st'.journals[st.nextId].status.Posted?
    && st'.journals[st.nextId].lines == Mirror(st.journals[id].lines)
  }

  lemma ReverseAdds(st: State, id: JournalId, today: Date)
    requires IdsBelow(st) && ReverseJournal(st, id, today).result.Ok?
    ensures AddsReversal(st, ReverseJournal(st, id, today).state, id)
  {
  }

  lemma ReversalRoots(st: State, st': State, id: JournalId)
    requires AddsReversal(st, st', id)
    ensures forall i: nat | i < st.nextId :: Root(st', i) == Root(st, i) && Depth(st', i) == Depth(st, i)
    ensures Root(st', st.nextId) == Root(st, id)
    ensures Depth(st', st.nextId) == Depth(st, id) + 1
  {
    forall i: nat | i < st.nextId ensures Root(st', i) == Root(st, i) && Depth(st', i) == Depth(st, i) {
      RootStable(st, st', i);
    }
  }

  lemma ReversalChainLength(st: State, st': State, id: JournalId, original: JournalId)
    requires AddsReversal(st, st', id)
    ensures ChainLength(st', original) == ChainLength(st, original) + if original == Root(st, id) then 1 else 0
  {
    ReversalRoots(st, st', id);
    SumSame(ReversalsOf(st, original), ReversalsOf(st', original), st.nextId);
  }

  lemma ReversalTips(st: State, st': State, id: JournalId)
    requires AddsReversal(st, st', id) && IdsBelow(st) && IdsBelow(st') && Tips(st)
    ensures Tips(st')
  {
    ReversalRoots(st, st', id);
    assert IsPosted(st, id);
    forall i: nat | IsPosted(st', i)
      ensures i < st.nextId ==> IsPosted(st, i) && i != id && Root(st, i) != Root(st, id)
    {
    }
    forall i | IsPosted(st', i) ensures Depth(st', i) == ChainLength(st', Root(st', i)) {
      ReversalChainLength(st, st', id, Root(st', i));
    }
    forall i, k | IsPosted(st', i) && IsPosted(st', k) && Root(st', i) == Root(st', k) ensures i == k {
    }
  }

  lemma ReversalBalance(st: State, st': State, id: JournalId, account: string)
    requires AddsReversal(st, st', id)
    ensures Balance(st', account) - Balance(st, account) == -Net(st.journals[id].lines, account)
  {
    MirrorSums(st.journals[id].lines, account);
    SumSame(NetOf(st, account), NetOf(st', account), st.nextId);
  }

  lemma ReversalStanding(st: State, st': State, id: JournalId, account: string)
    requires AddsReversal(st, st', id) && Links(st) && Tips(st)
    ensures StandingBalance(st', account) - StandingBalance(st, account) == -Net(st.journals[id].lines, account)
  {
    assert IsPosted(st, id);
    NetAlternates(st, id, account);
    if Parent(st, id).Some? { RootOfReversal(st, id); }
    RootBelow(st, id);
    StandingChange(st, st', id, account);
  }

  lemma StandingElsewhere(st: State, st': State, id: JournalId, account: string, i: JournalId)
    requires AddsReversal(st, st', id) && i < st.nextId && i != Root(st, id)
    ensures StandingAt(st', account, i) == StandingAt(st, account, i)
  {
    hide ChainLength, Root, Net;
    ReversalChainLength(st, st', id, i);
  }

  lemma StandingAtRoot(st: State, st': State, id: JournalId, account: string)
    requires AddsReversal(st, st', id)
    requires Root(st, id) < st.nextId && Parent(st, Root(st, id)).None?
    requires Root(st, id) in st.journals && st.journals[Root(st, id)].Booked()
    requires ChainLength(st, Root(st, id)) == Depth(st, id)
    ensures StandingAt(st', account, Root(st, id)) - StandingAt(st, account, Root(st, id))
            == (if Depth(st, id) % 2 == 0 then -1 else 1) * Net(st.journals[Root(st, id)].lines, account)
  {
    hide ChainLength, Root, Net, Depth;
    ReversalChainLength(st, st', id, Root(st, id));
  }

  lemma StandingChange(st: State, st': State, id: JournalId, account: string)
    requires AddsReversal(st, st', id)
    requires Root(st, id) < st.nextId && Parent(st, Root(st, id)).None?
    requires Root(st, id) in st.journals && st.journals[Root(st, id)].Booked()
    requires ChainLength(st, Root(st, id)) == Depth(st, id)
    ensures StandingBalance(st', account) - StandingBalance(st, account)
            == (if Depth(st, id) % 2 == 0 then -1 else 1) * Net(st.journals[Root(st, id)].lines, account)
  {
    var root := Root(st, id);
    assert StandingAt(st', account, st.nextId) == 0 && st'.nextId == st.nextId + 1;
    hide StandingAt, AddsReversal, Root, Depth, Net, ChainLength;
    forall i: nat | i < st.nextId && i != root ensures StandingOf(st', account)(i) == StandingOf(st, account)(i) {
      StandingElsewhere(st, st', id, account, i);
    }
    StandingAtRoot(st, st', id, account);
    SumPoint(StandingOf(st, account), StandingOf(st', account), st.nextId, root);
  }

  lemma {:induction false} RootBelow(st: State, i: JournalId)
    ensures Root(st, i) <= i
  {
    var p := Parent(st, i);
    if p.Some? && p.value < i { RootBelow(st, p.value); }
  }

  // ---------- runs ----------

  lemma UnbookedIsOriginal(st: State, id: JournalId)
    requires Links(st)
    requires id in st.journals && !st.journals[id].Booked()
    ensures Parent(st, id).None?
  {
    if Parent(st, id).Some? { assert Reverses(st, id, Parent(st, id).value); }
  }

  lemma QuietSetStatus(st: State, id: JournalId, status: JournalStatus)
    requires id in st.journals && !st.journals[id].Booked() && Parent(st, id).None? && !status.Reversed?
    ensures Quiet(st, SetStatus(st, id, status))
  {
  }

  lemma QuietAdd(st: State, date: Date, kind: string, status: JournalStatus,
                 debitTotal: int, creditTotal: int, lines: seq<Line>)
    requires IdsBelow(st) && !status.Reversed?
    ensures Quiet(st, AddJournal(st, date, kind, status, debitTotal, creditTotal, lines, None))
  {
  }

  lemma QuietCommand(st: State, c: Command)
    requires IdsBelow(st) && Links(st)
    requires c.Reverse? ==> ReverseJournal(st, c.id, c.today).result.Err?
    ensures Quiet(st, Apply(st, c))
  {
    hide Links;
    match c
    case Create(input) =>
      if CreateJournal(st, input).result.Ok? {
        QuietAdd(st, input.date.value, input.kind, Draft, DebitSum(input.lines), CreditSum(input.lines), input.lines);
      }
    case Submit(id) =>
      if SubmitForApproval(st, id).result.Ok? { UnbookedIsOriginal(st, id); QuietSetStatus(st, id, PendingApproval); }
    case Approve(id, pick) =>
      if ApproveJournal(st, id, pick).result.Ok? { UnbookedIsOriginal(st, id); QuietSetStatus(st, id, Posted); }
    case Reject(id) =>
      if RejectJournal(st, id).result.Ok? { UnbookedIsOriginal(st, id); QuietSetStatus(st, id, Draft); }
    case Post(id, pick) =>
      if PostJournal(st, id, pick).result.Ok? { UnbookedIsOriginal(st, id); QuietSetStatus(st, id, Posted); }
    case Reverse(id, today) =>
    case Delete(id) =>
      if DeleteDraft(st, id).result.Ok? { UnbookedIsOriginal(st, id); }
    case Acquire(date, asset, paid, cost) =>
      if cost > 0 {
        QuietAdd(st, date, "Capital Expenditure", Posted, cost, cost, AcquisitionLines(asset, paid, cost));
      }
    case OpenPeriod(year, month) =>
    case ChangePeriod(index, to) =>
  }

  lemma ChainStep(st: State, c: Command, account: string)
    requires Valid(st) && Tips(st)
    ensures Valid(Apply(st, c)) && Tips(Apply(st, c))
    ensures Balance(Apply(st, c), account) - Balance(st, account)
            == StandingBalance(Apply(st, c), account) - StandingBalance(st, account)
  {
    hide Quiet, Tips, Balance, StandingBalance, AddsReversal, Links, UniqueReferences, SoundJournals;
    ApplyValid(st, c);
    if c.Reverse? && ReverseJournal(st, c.id, c.today).result.Ok? {
      ReverseAdds(st, c.id, c.today);
      ReversalTips(st, Apply(st, c), c.id);
      ReversalBalance(st, Apply(st, c), c.id, account);
      ReversalStanding(st, Apply(st, c), c.id, account);
    } else {
      QuietCommand(st, c);
      QuietStep(st, Apply(st, c), account);
    }
  }

  /** After any run, for every account: the net of everything ever booked is the
      net of the originals reversed an even number of times. */
  lemma {:induction false} BalanceIsStandingBalance(periods: seq<Period>, commands: seq<Command>, account: string)
    ensures var st := Run(Init(periods), commands);
      && Valid(st) && Tips(st)
      && Balance(st, account) == StandingBalance(st, account)
  {
    if commands != [] {
      var before := commands[..|commands| - 1];
      BalanceIsStandingBalance(periods, before, account);
      ChainStep(Run(Init(periods), before), commands[|commands| - 1], account);
    }
  }
}
