/** The asset register against the ledger: the disposal journal, the control
    accounts over every run, and repeated depreciation. */
module AssetLedger {
  import opened Basics
  import opened Sums
  import opened Calendar
  import opened FixedAssets
  import opened AssetHistory
  import Ledger
  import LedgerInvariant
  import opened Postings

  // ---------- the disposal journal ----------

  lemma DisposalSums(a: Asset, proceeds: int, bank: string, account: string)
    ensures var gain, lines := proceeds - a.bookValue, DisposalLines(a, proceeds, bank);
      && Ledger.DebitSum(lines) == a.accum + Max(proceeds, 0) + Max(-gain, 0)
      && Ledger.CreditSum(lines) == a.cost + Max(gain, 0)
      && Ledger.Net(lines, account)
         == (if a.accumAccount == account then a.accum else 0) - (if a.assetAccount == account then a.cost else 0)
            + (if bank == account then Max(proceeds, 0) else 0)
            - (if GAIN == account then Max(gain, 0) else 0) + (if LOSS == account then Max(-gain, 0) else 0)
  {
    var gain := proceeds - a.bookValue;
    var accum, cost := Ledger.Line(a.accumAccount, a.accum, 0), Ledger.Line(a.assetAccount, 0, a.cost);
    Ledger.SumsOfPair(accum, cost, account);
    var withBank := [accum, cost] + if proceeds > 0 then [Ledger.Line(bank, proceeds, 0)] else [];
    hide Ledger.DebitSum, Ledger.CreditSum, Ledger.Net;
    Ledger.SumsAppend([accum, cost], Ledger.Line(bank, proceeds, 0), account);
    assert [accum, cost] + [] == [accum, cost];
    Ledger.SumsAppend(withBank, Ledger.Line(GAIN, 0, gain), account);
    Ledger.SumsAppend(withBank, Ledger.Line(LOSS, -gain, 0), account);
    assert withBank + [] == withBank;
  }

  /** Because book value and accumulated depreciation add up to cost, the
      disposal journal is out only by negative proceeds: it balances exactly, for
      a gain, a loss or neither, unless proceeds are below nothing. */
  lemma DisposalBalances(a: Asset, proceeds: int, bank: string)
    requires Sound(a) && !a.status.Disposed?
    ensures Ledger.DebitSum(DisposalLines(a, proceeds, bank)) - Ledger.CreditSum(DisposalLines(a, proceeds, bank))
            == Max(-proceeds, 0)
  {
    DisposalSums(a, proceeds, bank, "");
  }

  lemma DisposalLinesGood(a: Asset, proceeds: int, bank: string)
    requires 0 <= a.accum && 0 < a.cost
    ensures (forall k :: 0 <= k < |DisposalLines(a, proceeds, bank)| ==>
               Ledger.GoodLine(DisposalLines(a, proceeds, bank)[k])) <==>
              a.accumAccount != "" && a.assetAccount != "" && (proceeds > 0 ==> bank != "")
  {
    var lines := DisposalLines(a, proceeds, bank);
    assert lines[0] == Ledger.Line(a.accumAccount, a.accum, 0) && lines[1] == Ledger.Line(a.assetAccount, 0, a.cost);
    assert proceeds > 0 ==> lines[2] == Ledger.Line(bank, proceeds, 0);
    if forall k :: 0 <= k < |lines| ==> Ledger.GoodLine(lines[k]) {
      assert Ledger.GoodLine(lines[0]) && Ledger.GoodLine(lines[1]) && (proceeds > 0 ==> Ledger.GoodLine(lines[2]));
    }
  }

  /** Exactly when an undisposed asset can be disposed of: its accounts are
      named, the date parses and falls in an open period, and proceeds are no
      lower than minus one kobo. */
  lemma DisposedExactly(s: State, id: nat, date: Option<Ledger.Date>, proceeds: int, bank: string, pick: nat)
    requires id in s.assets && Sound(s.assets[id]) && !s.assets[id].status.Disposed?
    ensures var a := s.assets[id];
      DisposeAsset(s, id, date, proceeds, bank, pick).result.Ok? <==>
        && date.Some? && Ledger.PeriodStatusForDate(s.ledger.periods, date.value, pick).Open?
        && a.accumAccount != "" && a.assetAccount != "" && (proceeds > 0 ==> bank != "")
        && -1 <= proceeds
  {
    hide Sound;
    var a := s.assets[id];
    assert 0 <= a.accum && 0 < a.cost by { SoundRegister(a); }
    DisposalBalances(a, proceeds, bank);
    DisposalLinesGood(a, proceeds, bank);
    AcceptedExactly(s.ledger, Ledger.JournalInput(date, "Asset Disposal", DisposalLines(a, proceeds, bank)), pick);
  }

  lemma SoundRegister(a: Asset)
    requires Sound(a)
    ensures 0 <= a.accum && 0 < a.cost
  {
  }

  // ---------- every asset stays sound ----------

  ghost predicate AllSound(s: State) {
    && LedgerInvariant.IdsBelow(s.ledger)
    && (forall i :: i in s.assets ==> i < s.nextId)
    && (forall i :: i in s.assets ==> Sound(s.assets[i]))
  }

  lemma CreateSound(s: State, input: AssetInput)
    requires AllSound(s)
    ensures AllSound(CreateAsset(s, input).state)
  {
    hide Sound;
    if CreateAsset(s, input).result.Ok? {
      NewAssetSound(input, ParseMethod(input.depMethod).value);
    }
  }

  lemma DepreciateSound(s: State, id: nat, period: Month, pick: nat)
    requires AllSound(s)
    ensures AllSound(DepreciateAsset(s, id, period, pick).state)
  {
    hide Sound, Charge, Charged, CreateAndPost;
    if id in s.assets {
      var a := s.assets[id];
      CreateAndPostIds(s.ledger, Ledger.JournalInput(Some(LastDay(period)), "Depreciation", ChargeLines(a)), pick);
      if DepreciateAsset(s, id, period, pick).result.Ok? { ChargedSound(a, period); }
    }
  }

  lemma DisposeSound(s: State, id: nat, date: Option<Ledger.Date>, proceeds: int, bank: string, pick: nat)
    requires AllSound(s)
    ensures AllSound(DisposeAsset(s, id, date, proceeds, bank, pick).state)
  {
    hide Sound, CreateAndPost;
    if id in s.assets {
      var a := s.assets[id];
      CreateAndPostIds(s.ledger, Ledger.JournalInput(date, "Asset Disposal", DisposalLines(a, proceeds, bank)), pick);
      DisposedSound(a);
    }
  }

  lemma {:induction false} DepreciateEachSound(s: State, ids: seq<nat>, period: Month, picks: seq<nat>)
    requires AllSound(s)
    ensures AllSound(DepreciateEach(s, ids, period, picks).0)
  {
    hide AllSound;
    if ids != [] {
      DepreciateEachSound(s, ids[..|ids| - 1], period, picks);
      DepreciateSound(DepreciateEach(s, ids[..|ids| - 1], period, picks).0, ids[|ids| - 1], period,
          Nth(picks, |ids| - 1));
    }
  }

  lemma ApplySound(s: State, c: Command)
    requires AllSound(s)
    ensures AllSound(Apply(s, c))
  {
    hide Sound;
    match c
    case Create(input) => CreateSound(s, input);
    case Depreciate(id, period, pick) => DepreciateSound(s, id, period, pick);
    case DepreciateAll(ids, period, picks) => DepreciateEachSound(s, ids, period, picks);
    case Dispose(id, date, proceeds, bank, pick) => DisposeSound(s, id, date, proceeds, bank, pick);
    case Gl(command) => ApplyIds(s.ledger, command);
  }

  lemma DepreciateLedger(s: State, id: nat, period: Month, pick: nat)
    requires LedgerInvariant.Valid(s.ledger)
    ensures LedgerInvariant.Valid(DepreciateAsset(s, id, period, pick).state.ledger)
  {
    hide LedgerInvariant.Valid, CreateAndPost, Charge, Charged;
    if id in s.assets {
      CreateAndPostValid(s.ledger,
          Ledger.JournalInput(Some(LastDay(period)), "Depreciation", ChargeLines(s.assets[id])), pick);
    }
  }

  lemma {:induction false} DepreciateEachLedger(s: State, ids: seq<nat>, period: Month, picks: seq<nat>)
    requires LedgerInvariant.Valid(s.ledger)
    ensures LedgerInvariant.Valid(DepreciateEach(s, ids, period, picks).0.ledger)
  {
    hide LedgerInvariant.Valid, DepreciateAsset;
    if ids != [] {
      var before := DepreciateEach(s, ids[..|ids| - 1], period, picks).0;
      DepreciateEachLedger(s, ids[..|ids| - 1], period, picks);
      DepreciateLedger(before, ids[|ids| - 1], period, Nth(picks, |ids| - 1));
    }
  }

  lemma ApplyLedger(s: State, c: Command)
    requires LedgerInvariant.Valid(s.ledger)
    ensures LedgerInvariant.Valid(Apply(s, c).ledger)
  {
    hide LedgerInvariant.Valid, CreateAndPost, DepreciateAsset, DepreciateEach, Ledger.PostAcquisition, Ledger.Apply,
        DisposalLines;
    match c
    case Create(input) =>
      if CreateAsset(s, input).result.Ok? {
        var a := NewAsset(input, ParseMethod(input.depMethod).value);
        LedgerInvariant.AcquireValid(s.ledger, input.acquired.value, a.assetAccount, PaidFrom(input), a.cost);
      }
    case Depreciate(id, period, pick) => DepreciateLedger(s, id, period, pick);
    case DepreciateAll(ids, period, picks) => DepreciateEachLedger(s, ids, period, picks);
    case Dispose(id, date, proceeds, bank, pick) =>
      if id in s.assets {
        var lines := DisposalLines(s.assets[id], proceeds, bank);
        CreateAndPostValid(s.ledger, Ledger.JournalInput(date, "Asset Disposal", lines), pick);
      }
    case Gl(command) => LedgerInvariant.ApplyValid(s.ledger, command);
  }

  /** After any run, with any other ledger calls in between, every asset is sound,
      and the ledger keeps its own invariant. */
  lemma {:induction false} RunSound(periods: seq<Ledger.Period>, commands: seq<Command>)
    ensures AllSound(Run(Init(periods), commands))
    ensures LedgerInvariant.Valid(Run(Init(periods), commands).ledger)
  {
    hide AllSound, Sound, LedgerInvariant.Valid;
    if commands != [] {
      var before := Run(Init(periods), commands[..|commands| - 1]);
      RunSound(periods, commands[..|commands| - 1]);
      ApplySound(before, commands[|commands| - 1]);
      ApplyLedger(before, commands[|commands| - 1]);
    } else {
      InitSound(periods);
      LedgerInvariant.RunValid(periods, []);
    }
  }

  lemma InitSound(periods: seq<Ledger.Period>)
    ensures AllSound(Init(periods))
  {
  }

  /** What soundness says of an asset after any run, in full. */
  lemma AssetAfterAnyRun(periods: seq<Ledger.Period>, commands: seq<Command>, id: nat)
    requires id in Run(Init(periods), commands).assets
    ensures var a := Run(Init(periods), commands).assets[id];
      && (!a.status.Disposed? ==> a.bookValue + a.accum == a.cost && Min(a.salvage, a.cost) <= a.bookValue)
      && PeriodsIncrease(a.runs) && ChargesPositive(a.runs) && BookFalls(a.runs)
      && (a.depMethod.ReducingBalance? ==> ChargesNeverRise(a.runs))
      && (a.depMethod.StraightLine? ==>
            forall k :: 0 <= k < |a.runs|
                ==> a.runs[k].bookAfter == Max(a.salvage, a.cost - (k + 1) * MonthlyCharge(a)))
  {
    RunSound(periods, commands);
    hide Run;
    assert Sound(Run(Init(periods), commands).assets[id]);
  }

  // ---------- the control accounts ----------

  /** What an asset still carries on an account: its cost on the asset account,
      less its depreciation on the accumulated-depreciation account. Nothing once
      disposed of. */
  function CarriedBy(a: Asset, account: string): int {
    if a.status.Disposed? then 0
    else (if a.assetAccount == account then a.cost else 0) - (if a.accumAccount == account then a.accum else 0)
  }

  function CarriedAt(assets: map<nat, Asset>, account: string, i: nat): int {
    if i in assets then CarriedBy(assets[i], account) else 0
  }

  function CarriedOf(assets: map<nat, Asset>, account: string): nat -> int {
    (i: nat) => CarriedAt(assets, account, i)
  }

  function Carried(s: State, account: string): int {
    Sum(CarriedOf(s.assets, account), s.nextId)
  }

  function Gap(s: State, account: string): int {
    Ledger.Balance(s.ledger, account) - Carried(s, account)
  }

  lemma CreateGap(s: State, input: AssetInput, account: string)
    requires AllSound(s)
    ensures var out := CreateAsset(s, input);
      Gap(out.state, account)
      == Gap(s, account) - if out.result.Ok? && PaidFrom(input) == account then input.cost else 0
  {
    hide Sound, Ledger.Balance, Ledger.AddJournal;
    var s' := CreateAsset(s, input).state;
    if CreateAsset(s, input).result.Ok? {
      var a := NewAsset(input, ParseMethod(input.depMethod).value);
      AcquisitionEffect(s.ledger, input.acquired.value, a.assetAccount, PaidFrom(input), a.cost, account);
      SumSame(CarriedOf(s.assets, account), CarriedOf(s'.assets, account), s.nextId);
    }
  }

  lemma DepreciateGap(s: State, id: nat, period: Month, pick: nat, account: string)
    requires AllSound(s) && id in s.assets
    ensures var out := DepreciateAsset(s, id, period, pick);
      Gap(out.state, account) == Gap(s, account)
        + if out.result.Ok? && s.assets[id].expenseAccount == account then Charge(s.assets[id]) else 0
  {
    hide Sound, Charge, Ledger.Balance, CreateAndPost;
    var a, s' := s.assets[id], DepreciateAsset(s, id, period, pick).state;
    var input := Ledger.JournalInput(Some(LastDay(period)), "Depreciation", ChargeLines(a));
    CreateAndPostEffect(s.ledger, input, pick, account);
    Ledger.SumsOfPair(input.lines[0], input.lines[1], account);
    SumPoint(CarriedOf(s.assets, account), CarriedOf(s'.assets, account), s.nextId, id);
  }

  lemma DisposeGap(s: State, id: nat, date: Option<Ledger.Date>, proceeds: int, bank: string, pick: nat,
      account: string)
    requires AllSound(s) && id in s.assets && bank != account && account != GAIN && account != LOSS
    ensures Gap(DisposeAsset(s, id, date, proceeds, bank, pick).state, account) == Gap(s, account)
  {
    hide Sound, DisposalLines, Ledger.Balance, CreateAndPost;
    var a, s' := s.assets[id], DisposeAsset(s, id, date, proceeds, bank, pick).state;
    var input := Ledger.JournalInput(date, "Asset Disposal", DisposalLines(a, proceeds, bank));
    CreateAndPostEffect(s.ledger, input, pick, account);
    DisposalSums(a, proceeds, bank, account);
    SumPoint(CarriedOf(s.assets, account), CarriedOf(s'.assets, account), s.nextId, id);
  }

  /** The account is used by the calls only for asset cost or accumulated
      depreciation: never to pay from, to be paid into or to expense to, and no
      other ledger call books a line on it. */
  predicate KeepsToItself(s: State, c: Command, account: string) {
    match c
    case Create(input) =>
      && PaidFrom(input) != account
      && OrElse(input.expenseAccount, CodesOf(input.category).expense) != account
    case Dispose(_, _, _, bank, _) => bank != account
    case Gl(command) => LeavesAlone(s.ledger, command, account)
    case _ => true
  }

  predicate CleanRun(s: State, commands: seq<Command>, account: string) {
    commands == [] ||
    (var before := commands[..|commands| - 1];
     CleanRun(s, before, account) && KeepsToItself(Run(s, before), commands[|commands| - 1], account))
  }

  ghost predicate NotExpensed(s: State, account: string) {
    forall i :: i in s.assets ==> s.assets[i].expenseAccount != account
  }

  lemma {:induction false} DepreciateEachGap(s: State, ids: seq<nat>, period: Month, picks: seq<nat>, account: string)
    requires AllSound(s) && NotExpensed(s, account)
    ensures var s' := DepreciateEach(s, ids, period, picks).0;
      AllSound(s') && NotExpensed(s', account) && Gap(s', account) == Gap(s, account)
  {
    hide AllSound, Gap;
    if ids != [] {
      var before := DepreciateEach(s, ids[..|ids| - 1], period, picks).0;
      DepreciateEachGap(s, ids[..|ids| - 1], period, picks, account);
      DepreciateOneGap(before, ids[|ids| - 1], period, Nth(picks, |ids| - 1), account);
    }
  }

  lemma DepreciateOneGap(s: State, id: nat, period: Month, pick: nat, account: string)
    requires AllSound(s) && NotExpensed(s, account)
    ensures var s' := DepreciateAsset(s, id, period, pick).state;
      AllSound(s') && NotExpensed(s', account) && Gap(s', account) == Gap(s, account)
  {
    DepreciateSound(s, id, period, pick);
    hide AllSound, Gap, Charge;
    if id in s.assets { DepreciateGap(s, id, period, pick, account); }
  }

  lemma CreateOneGap(s: State, input: AssetInput, account: string)
    requires AllSound(s) && NotExpensed(s, account) && KeepsToItself(s, Create(input), account)
    ensures var s' := CreateAsset(s, input).state; NotExpensed(s', account) && Gap(s', account) == Gap(s, account)
  {
    CreateGap(s, input, account);
    hide AllSound, Gap, Ledger.PostAcquisition;
  }

  lemma GlGap(s: State, c: Ledger.Command, account: string)
    requires AllSound(s) && LeavesAlone(s.ledger, c, account)
    ensures Gap(s.(ledger := Ledger.Apply(s.ledger, c)), account) == Gap(s, account)
  {
    hide Sound;
    LeftAlone(s.ledger, c, account);
  }

  lemma ControlStep(s: State, c: Command, account: string)
    requires AllSound(s) && NotExpensed(s, account) && account != GAIN && account != LOSS
    requires KeepsToItself(s, c, account)
    ensures AllSound(Apply(s, c)) && NotExpensed(Apply(s, c), account)
    ensures Gap(Apply(s, c), account) == Gap(s, account)
  {
    ApplySound(s, c);
    hide AllSound, Gap, Charge, CreateAndPost, DisposalLines, ChargeLines, Ledger.PostAcquisition;
    match c
    case Create(input) => CreateOneGap(s, input, account);
    case Depreciate(id, period, pick) => DepreciateOneGap(s, id, period, pick, account);
    case DepreciateAll(ids, period, picks) => DepreciateEachGap(s, ids, period, picks, account);
    case Dispose(id, date, proceeds, bank, pick) =>
      if id in s.assets { DisposeGap(s, id, date, proceeds, bank, pick, account); }
    case Gl(command) => GlGap(s, command, account);
  }

  /** Over every run that keeps an account to its purpose, the ledger balance of
      that account is what the undisposed assets carry on it: cost on an asset
      account, minus accumulated depreciation on the other. A disposed asset
      leaves nothing on either. */
  lemma {:induction false} RegisterAgreesWithLedger(periods: seq<Ledger.Period>, commands: seq<Command>,
      account: string)
    requires account != GAIN && account != LOSS
    requires CleanRun(Init(periods), commands, account)
    ensures var s := Run(Init(periods), commands);
      && AllSound(s) && NotExpensed(s, account)
      && Ledger.Balance(s.ledger, account) == Carried(s, account)
  {
    if commands != [] {
      var before := commands[..|commands| - 1];
      RegisterAgreesWithLedger(periods, before, account);
      hide AllSound, KeepsToItself, NotExpensed;
      ControlStep(Run(Init(periods), before), commands[|commands| - 1], account);
    }
  }

  // ---------- depreciating twice ----------

  /** Whether an asset is refused for a month: a matter of the asset and the
      period rows alone. */
  predicate Refused(a: Asset, periods: seq<Ledger.Period>, period: Month, pick: nat) {
    || !a.status.Active?
    || (a.lastPeriod.Some? && !a.lastPeriod.value.Before(period))
    || Charge(a) <= 0
    || a.expenseAccount == "" || a.accumAccount == ""
    || !Ledger.PeriodStatusForDate(periods, LastDay(period), pick).Open?
  }

  lemma RefusedExactly(s: State, id: nat, period: Month, pick: nat)
    requires id in s.assets
    ensures var out := DepreciateAsset(s, id, period, pick);
      && (out.result.Err? <==> Refused(s.assets[id], s.ledger.periods, period, pick))
      && (out.result.Err? ==> out.state.assets == s.assets)
      && (out.result.Ok? ==> out.state.assets == s.assets[id := Charged(s.assets[id], period)])
      && out.state.ledger.periods == s.ledger.periods
  {
    var a := s.assets[id];
    hide Charge, Charged;
    var lines := ChargeLines(a);
    var input := Ledger.JournalInput(Some(LastDay(period)), "Depreciation", lines);
    AcceptedExactly(s.ledger, input, pick);
    Ledger.SumsOfPair(lines[0], lines[1], "");
    assert (forall k :: 0 <= k < 2 ==> Ledger.GoodLine(lines[k])) <==>
        Ledger.GoodLine(lines[0]) && Ledger.GoodLine(lines[1]);
    CreateAndPostPeriods(s.ledger, input, pick);
    hide CreateAndPost;
  }

  lemma CreateAndPostPeriods(st: Ledger.State, input: Ledger.JournalInput, pick: nat)
    ensures CreateAndPost(st, input, pick).state.periods == st.periods
  {
  }

  /** Each listed asset is refused for the month by the lookup of its own posting. */
  ghost predicate AllRefused(s: State, ids: seq<nat>, period: Month, picks: seq<nat>) {
    forall k :: 0 <= k < |ids| && ids[k] in s.assets ==>
      Refused(s.assets[ids[k]], s.ledger.periods, period, Nth(picks, k))
  }

  /** A pass charges nothing exactly when every listed asset is refused, and then
      it changes no asset. */
  lemma {:induction false} IdleExactly(s: State, ids: seq<nat>, period: Month, picks: seq<nat>)
    ensures var (s', runs) := DepreciateEach(s, ids, period, picks);
      && (runs == [] <==> AllRefused(s, ids, period, picks))
      && (runs == [] ==> s'.assets == s.assets)
      && s'.ledger.periods == s.ledger.periods
  {
    hide DepreciateAsset, Refused;
    if ids != [] {
      var front, k := ids[..|ids| - 1], |ids| - 1;
      IdleExactly(s, front, period, picks);
      var before := DepreciateEach(s, front, period, picks).0;
      if ids[k] in before.assets {
        RefusedExactly(before, ids[k], period, Nth(picks, k));
      } else {
        UnknownAsset(before, ids[k], period, Nth(picks, k));
      }
      assert AllRefused(s, ids, period, picks) ==> AllRefused(s, front, period, picks) by {
        assert forall i :: 0 <= i < |front| ==> front[i] == ids[i];
      }
    }
  }

  lemma UnknownAsset(s: State, id: nat, period: Month, pick: nat)
    requires id !in s.assets
    ensures DepreciateAsset(s, id, period, pick) == Outcome(s, Err(NotFound))
  {
  }

  /** What a pass makes of an asset: nothing, or one charge for the month. */
  ghost predicate ChargedAtMostOnce(s: State, s': State, period: Month) {
    && s'.assets.Keys == s.assets.Keys
    && forall id :: id in s.assets ==>
         s'.assets[id] == s.assets[id] || s'.assets[id] == Charged(s.assets[id], period)
  }

  lemma DoneForTheMonth(a: Asset, periods: seq<Ledger.Period>, period: Month, pick: nat)
    ensures Refused(Charged(a, period), periods, period, pick)
  {
    hide Charge;
  }

  lemma {:induction false} PassCharges(s: State, first: State, ids: seq<nat>, period: Month, picks: seq<nat>)
    requires ChargedAtMostOnce(s, first, period)
    ensures var s' := DepreciateEach(first, ids, period, picks).0;
      && ChargedAtMostOnce(s, s', period)
      && (forall id :: id in s.assets && first.assets[id] != s.assets[id] ==> s'.assets[id] == first.assets[id])
  {
    hide DepreciateAsset, Charged, Refused;
    if ids != [] {
      var id, pick := ids[|ids| - 1], Nth(picks, |ids| - 1);
      PassCharges(s, first, ids[..|ids| - 1], period, picks);
      var before := DepreciateEach(first, ids[..|ids| - 1], period, picks).0;
      if id in before.assets {
        RefusedExactly(before, id, period, pick);
        DoneForTheMonth(s.assets[id], before.ledger.periods, period, pick);
      } else {
        UnknownAsset(before, id, period, pick);
      }
    }
  }

  /** Two passes for the same month, over any lists and with any answers of the
      period lookups: together they charge each asset at most once, so the second
      never charges what the first did; and the second charges nothing exactly
      when each asset on its list was charged by the first or is refused by the
      lookup of its own posting. */
  lemma DepreciatingTwiceChargesOnce(s: State, ids: seq<nat>, period: Month, picks: seq<nat>, again: seq<nat>,
      picks': seq<nat>)
    ensures var once := DepreciateEach(s, ids, period, picks).0;
      var (twice, runs) := DepreciateEach(once, again, period, picks');
      && ChargedAtMostOnce(s, once, period) && ChargedAtMostOnce(s, twice, period)
      && (forall id :: id in s.assets && once.assets[id] != s.assets[id] ==> twice.assets[id] == once.assets[id])
      && (runs == [] <==> forall k :: 0 <= k < |again| && again[k] in s.assets ==>
            || once.assets[again[k]] != s.assets[again[k]]
            || Refused(s.assets[again[k]], s.ledger.periods, period, Nth(picks', k)))
  {
    PassCharges(s, s, ids, period, picks);
    IdleExactly(s, ids, period, picks);
    var once := DepreciateEach(s, ids, period, picks).0;
    PassCharges(s, once, again, period, picks');
    IdleExactly(once, again, period, picks');
    hide DepreciateEach, Charged, Refused;
    forall k | 0 <= k < |again| && again[k] in s.assets && once.assets[again[k]] != s.assets[again[k]]
      ensures Refused(once.assets[again[k]], once.ledger.periods, period, Nth(picks', k))
    {
      DoneForTheMonth(s.assets[again[k]], once.ledger.periods, period, Nth(picks', k));
    }
  }
}
