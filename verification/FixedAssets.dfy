/** Fixed assets: bought, depreciated month by month, disposed of. Each event
    posts a journal; the register must agree with the ledger. */
module FixedAssets {
  import opened Basics
  import opened Calendar
  import Ledger
  import opened Postings

  const GAIN := "4090"
  const LOSS := "5803"

  datatype DepMethod = StraightLine | ReducingBalance

  datatype AssetStatus = Active | FullyDepreciated | Disposed

  /** Useful life in months. Zero is replaced by a default on entry. */
  type Life = x: int | x != 0 witness 60

  datatype DepRun = DepRun(period: Month, amount: int, bookAfter: int)

  datatype Asset = Asset(
    assetAccount: string,
    accumAccount: string,
    expenseAccount: string,
    cost: int,
    salvage: int,
    life: Life,
    depMethod: DepMethod,
    annualRate: real,
    status: AssetStatus,
    bookValue: int,
    accum: int,
    lastPeriod: Option<Month>,
    runs: seq<DepRun>)

  datatype AssetInput = AssetInput(
    name: string,
    category: string,
    acquired: Option<Ledger.Date>,
    cost: int,
    salvage: int,
    lifeMonths: int,
    depMethod: string,
    annualRate: real,
    assetAccount: string,
    accumAccount: string,
    expenseAccount: string,
    paidFrom: string)

  datatype State = State(ledger: Ledger.State, assets: map<nat, Asset>, nextId: nat)

  function Init(periods: seq<Ledger.Period>): State {
    State(Ledger.Init(periods), map[], 0)
  }

  // ---------- defaults ----------

  datatype CategoryCodes = CategoryCodes(asset: string, accum: string, expense: string, life: Life)

  function CodesOf(category: string): CategoryCodes {
    if category == "Computer Equipment" then CategoryCodes("1301", "1310", "5600", 36)
    else if category == "Furniture and Fittings" then CategoryCodes("1302", "1311", "5601", 60)
    else if category == "Office Equipment" then CategoryCodes("1303", "1312", "5602", 60)
    else if category == "Motor Vehicles" then CategoryCodes("1304", "1313", "5603", 60)
    else if category == "Software Licences" then CategoryCodes("1320", "1321", "5604", 36)
    else CategoryCodes("", "", "", 60)
  }

  function OrElse(code: string, default: string): string {
    if code == "" then default else code
  }

  function ParseMethod(s: string): Option<DepMethod> {
    if s == "" || s == "straight_line" then Some(StraightLine)
    else if s == "reducing_balance" then Some(ReducingBalance)
    else None
  }

  function PaidFrom(input: AssetInput): string {
    OrElse(input.paidFrom, "1110")
  }

  function NewAsset(input: AssetInput, depMethod: DepMethod): Asset {
    var codes := CodesOf(input.category);
    Asset(OrElse(input.assetAccount, codes.asset), OrElse(input.accumAccount, codes.accum),
          OrElse(input.expenseAccount, codes.expense), input.cost, input.salvage,
          if input.lifeMonths == 0 then codes.life else input.lifeMonths,
          depMethod, input.annualRate, Active, input.cost, 0, None, [])
  }

  // ---------- depreciation arithmetic ----------

  /** The rounded monthly charge of the straight-line method. */
  function MonthlyCharge(a: Asset): int {
    Round((a.cost - a.salvage) as real / a.life as real)
  }

  /** The rounded monthly charge of the reducing-balance method. */
  function ReducingCharge(book: int, annualRate: real): int {
    Round(Product(book as real, annualRate / 100.0) / 12.0)
  }

  /** The charge before it is cut off at salvage, at a given book value. */
  function RawCharge(a: Asset, book: int): int {
    match a.depMethod
    case ReducingBalance => ReducingCharge(book, a.annualRate)
    case StraightLine => MonthlyCharge(a)
  }

  function Charge(a: Asset): int {
    var raw := RawCharge(a, a.bookValue);
    if a.bookValue - raw < a.salvage then a.bookValue - a.salvage else raw
  }

  /** The asset after one charge. */
  function Charged(a: Asset, period: Month): Asset {
    var dep := Charge(a);
    var book := a.bookValue - dep;
    a.(bookValue := book,
       accum := a.accum + dep,
       lastPeriod := Some(period),
       status := if book <= a.salvage + 1 then FullyDepreciated else Active,
       runs := a.runs + [DepRun(period, dep, book)])
  }

  function ChargeLines(a: Asset): seq<Ledger.Line> {
    [Ledger.Line(a.expenseAccount, Charge(a), 0), Ledger.Line(a.accumAccount, 0, Charge(a))]
  }

  /** Remove accumulated depreciation and cost, take in the proceeds, and book
      the gain or the loss. */
  function DisposalLines(a: Asset, proceeds: int, bank: string): seq<Ledger.Line> {
    var gain := proceeds - a.bookValue;
    [Ledger.Line(a.accumAccount, a.accum, 0), Ledger.Line(a.assetAccount, 0, a.cost)]
    + (if proceeds > 0 then [Ledger.Line(bank, proceeds, 0)] else [])
    + (if gain > 0 then [Ledger.Line(GAIN, 0, gain)]
       else if gain < 0 then [Ledger.Line(LOSS, -gain, 0)] else [])
  }

  // ---------- calls ----------

  function CreateAsset(s: State, input: AssetInput): Outcome<State, nat> {
    if input.name == "" || input.category == "" || input.cost <= 0 then Outcome(s, Err(InvalidInput))
    else if input.acquired.None? then Outcome(s, Err(InvalidDate))
    else
      match ParseMethod(input.depMethod)
      case None => Outcome(s, Err(InvalidInput))
      case Some(depMethod) =>
        var a := NewAsset(input, depMethod);
        var posted := Ledger.PostAcquisition(s.ledger, input.acquired.value, a.assetAccount, PaidFrom(input), a.cost);
        Outcome(State(posted.state, s.assets[s.nextId := a], s.nextId + 1), Ok(s.nextId))
  }

  function DepreciateAsset(s: State, id: nat, period: Month, pick: nat): Outcome<State, DepRun> {
    if id !in s.assets then Outcome(s, Err(NotFound))
    else
      var a := s.assets[id];
      if !a.status.Active? then Outcome(s, Err(WrongStatus))
      else if a.lastPeriod.Some? && !a.lastPeriod.value.Before(period) then Outcome(s, Err(AlreadyDone))
      else if Charge(a) <= 0 then Outcome(s, Err(NothingToCharge))
      else
        var input := Ledger.JournalInput(Some(LastDay(period)), "Depreciation", ChargeLines(a));
        match CreateAndPost(s.ledger, input, pick)
        case Outcome(ledger, Err(e)) => Outcome(s.(ledger := ledger), Err(e))
        case Outcome(ledger, Ok(_)) =>
          Outcome(s.(ledger := ledger, assets := s.assets[id := Charged(a, period)]),
                  Ok(DepRun(period, Charge(a), a.bookValue - Charge(a))))
  }

  function DisposeAsset(s: State, id: nat, date: Option<Ledger.Date>, proceeds: int, bank: string, pick: nat)
    : Outcome<State, ()>
  {
    if id !in s.assets then Outcome(s, Err(NotFound))
    else if s.assets[id].status.Disposed? then Outcome(s, Err(AlreadyDone))
    else
      var a := s.assets[id];
      match CreateAndPost(s.ledger, Ledger.JournalInput(date, "Asset Disposal", DisposalLines(a, proceeds, bank)), pick)
      case Outcome(ledger, Err(e)) => Outcome(s.(ledger := ledger), Err(e))
      case Outcome(ledger, Ok(_)) =>
        Outcome(s.(ledger := ledger, assets := s.assets[id := a.(status := Disposed, bookValue := 0)]), Ok(()))
  }

  /** Depreciate the listed assets in turn, passing over those refused. Each
      posting looks the period up afresh. */
  function DepreciateEach(s: State, ids: seq<nat>, period: Month, picks: seq<nat>): (State, seq<DepRun>) {
    if ids == [] then (s, [])
    else
      var (before, runs) := DepreciateEach(s, ids[..|ids| - 1], period, picks);
      match DepreciateAsset(before, ids[|ids| - 1], period, Nth(picks, |ids| - 1))
      case Outcome(s', Ok(run)) => (s', runs + [run])
      case Outcome(s', Err(_)) => (s', runs)
  }

  datatype Command =
    | Create(input: AssetInput)
    | Depreciate(id: nat, period: Month, pick: nat)
    | DepreciateAll(ids: seq<nat>, period: Month, picks: seq<nat>)
    | Dispose(id: nat, date: Option<Ledger.Date>, proceeds: int, bank: string, pick: nat)
    | Gl(command: Ledger.Command)

  /** One step of the whole system: an asset call or any other ledger call. */
  function Apply(s: State, c: Command): State {
    match c
    case Create(input) => CreateAsset(s, input).state
    case Depreciate(id, period, pick) => DepreciateAsset(s, id, period, pick).state
    case DepreciateAll(ids, period, picks) => DepreciateEach(s, ids, period, picks).0
    case Dispose(id, date, proceeds, bank, pick) => DisposeAsset(s, id, date, proceeds, bank, pick).state
    case Gl(command) => s.(ledger := Ledger.Apply(s.ledger, command))
  }

  function Run(s: State, commands: seq<Command>): State {
    if commands == [] then s
    else Apply(Run(s, commands[..|commands| - 1]), commands[|commands| - 1])
  }
}
