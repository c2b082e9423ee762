/** Corporate actions on the holdings of one instrument. Quantities are in units;
    average cost is in kobo a unit, book value in whole kobo. */
module CorporateActions {
  import opened Basics
  import Ledger
  import LedgerInvariant
  import opened Postings

  const BANK := "1110"
  const WITHHOLDING := "2201"

  datatype Holding = Holding(quantity: real, avgCost: real, book: int, fundAum: int)

  datatype Instrument = Instrument(glAccount: string, incomeAccount: string)

  datatype Action =
    | CashDividend(amountPerUnit: real)
    | CouponPayment(amountPerUnit: real)
    | StockSplit(ratio: real)
    | BonusShare(ratio: real)
    | RightsIssue(ratio: real, price: real)
    | StockDividend(ratio: real)
    | Maturity

  datatype ActionRow = ActionRow(action: Action, exDate: Ledger.Date, processed: bool)

  datatype State = State(
    ledger: Ledger.State,
    instrument: Instrument,
    holdings: seq<Holding>,
    actions: map<nat, ActionRow>)

  /** A quantity to two decimals. */
  function Round2(x: real): real {
    Round(x * 100.0) as real / 100.0
  }

  /** Average cost in whole kobo a unit. */
  function Average(book: int, quantity: real): real
    requires quantity != 0.0
  {
    Round(book as real / quantity) as real
  }

  /** What an action does to one holding, and the lines of its journal, if any. */
  datatype Effect = Effect(after: Holding, lines: Option<seq<Ledger.Line>>)

  /** New shares at no cost: book value is spread over more units. */
  function SpreadOver(h: Holding, extra: real): Result<Effect> {
    var quantity := Round2(h.quantity + extra);
    if quantity == 0.0 then Err(InvalidInput)
    else Ok(Effect(h.(quantity := quantity, avgCost := Average(h.book, quantity)), None))
  }

  function CashLines(i: Instrument, gross: int, wht: int): seq<Ledger.Line> {
    [Ledger.Line(i.glAccount, gross, 0), Ledger.Line(i.incomeAccount, 0, gross),
     Ledger.Line(i.incomeAccount, wht, 0), Ledger.Line(WITHHOLDING, 0, wht)]
  }

  function GrossCash(h: Holding, amountPerUnit: real): int {
    Round(h.quantity * amountPerUnit)
  }

  /** Ten per cent is withheld. */
  function WithheldOn(gross: int): int {
    Round(gross as real * 0.10)
  }

  function CashEffect(i: Instrument, h: Holding, amountPerUnit: real): Effect {
    var gross := GrossCash(h, amountPerUnit);
    var wht := WithheldOn(gross);
    Effect(h.(fundAum := h.fundAum + (gross - wht)), Some(CashLines(i, gross, wht)))
  }

  function Scaled(h: Holding, ratio: real): real {
    Round2(Product(h.quantity, ratio))
  }

  /** Average cost after a split, in whole kobo. */
  function SplitCost(h: Holding, ratio: real): real
    requires ratio != 0.0
  {
    Round(h.avgCost / ratio) as real
  }

  function SplitOf(h: Holding, ratio: real): Holding
    requires ratio != 0.0
  {
    h.(quantity := Scaled(h, ratio), avgCost := SplitCost(h, ratio))
  }

  /** Whole units a holding is entitled to. */
  function Entitled(h: Holding, ratio: real): int {
    (h.quantity * ratio).Floor
  }

  function RightsCost(h: Holding, ratio: real, price: real): int {
    Round(Entitled(h, ratio) as real * price)
  }

  /** Quantity at average cost. */
  function Worth(h: Holding): real {
    Product(h.quantity, h.avgCost)
  }

  function Principal(h: Holding): int {
    Round(Worth(h))
  }

  function EffectOf(i: Instrument, h: Holding, a: Action): Result<Effect> {
    match a
    case CashDividend(perUnit) => Ok(CashEffect(i, h, perUnit))
    case CouponPayment(perUnit) => Ok(CashEffect(i, h, perUnit))
    case StockSplit(ratio) =>
      if ratio <= 0.0 then Err(InvalidInput)
      else Ok(Effect(SplitOf(h, ratio), None))
    case BonusShare(ratio) =>
      if ratio <= 0.0 then Err(InvalidInput) else SpreadOver(h, Scaled(h, ratio))
    case RightsIssue(ratio, price) =>
      if ratio <= 0.0 || price <= 0.0 then Err(InvalidInput)
      else if Entitled(h, ratio) <= 0 then Ok(Effect(h, None))
      else
        var cost := RightsCost(h, ratio, price);
        var quantity := Round2(h.quantity + Entitled(h, ratio) as real);
        if quantity == 0.0 then Err(InvalidInput)
        else
          Ok(Effect(h.(quantity := quantity, avgCost := Average(h.book + cost, quantity), book := h.book + cost),
                    Some([Ledger.Line(i.glAccount, cost, 0), Ledger.Line(BANK, 0, cost)])))
    case StockDividend(ratio) => SpreadOver(h, Scaled(h, ratio))
    case Maturity =>
      var principal := Principal(h);
      Ok(Effect(h.(quantity := 0.0, book := 0, fundAum := h.fundAum + principal),
                Some([Ledger.Line(BANK, principal, 0), Ledger.Line(i.glAccount, 0, principal)])))
  }

  function Kind(a: Action): string {
    match a
    case CashDividend(_) => "Dividend Income"
    case CouponPayment(_) => "Coupon Income"
    case RightsIssue(_, _) => "Rights Issue"
    case _ => "Maturity"
  }

  /** One holding: take the effect, and post its journal. Journals are posted on a
      connection of their own and stay whatever happens next. */
  function ProcessOne(ledger: Ledger.State, i: Instrument, h: Holding, a: Action, date: Ledger.Date, pick: nat)
    : (Ledger.State, Result<Holding>)
  {
    if h.quantity <= 0.0 then (ledger, Ok(h))
    else
      match EffectOf(i, h, a)
      case Err(e) => (ledger, Err(e))
      case Ok(effect) =>
        match effect.lines
        case None => (ledger, Ok(effect.after))
        case Some(lines) =>
          var posted := CreateAndPost(ledger, Ledger.JournalInput(Some(date), Kind(a), lines), pick);
          (posted.state, if posted.result.Ok? then Ok(effect.after) else Err(posted.result.error))
  }

  /** The first `n` holdings in turn, each posting looking the period up afresh;
      the first failure ends it. */
  function ProcessFirst(s: State, a: Action, date: Ledger.Date, picks: seq<nat>, n: nat)
    : (Ledger.State, Result<seq<Holding>>)
    requires n <= |s.holdings|
  {
    if n == 0 then (s.ledger, Ok([]))
    else
      var (ledger, done) := ProcessFirst(s, a, date, picks, n - 1);
      match done
      case Err(e) => (ledger, Err(e))
      case Ok(holdings) =>
        var (ledger', one) := ProcessOne(ledger, s.instrument, s.holdings[n - 1], a, date, Nth(picks, n - 1));
        (ledger', if one.Ok? then Ok(holdings + [one.value]) else Err(one.error))
  }

  function ProcessCorporateAction(s: State, id: nat, picks: seq<nat>): Outcome<State, ()> {
    if id !in s.actions then Outcome(s, Err(NotFound))
    else
      var row := s.actions[id];
      if row.processed then Outcome(s, Err(WrongStatus))
      else
        match ProcessFirst(s, row.action, row.exDate, picks, |s.holdings|)
        case (ledger, Err(e)) => Outcome(s.(ledger := ledger), Err(e))
        case (ledger, Ok(holdings)) =>
          Outcome(s.(ledger := ledger, holdings := holdings, actions := s.actions[id := row.(processed := true)]),
              Ok(()))
  }

  // ---------- runs ----------

  datatype Command =
    | Process(id: nat, picks: seq<nat>)
    | Gl(command: Ledger.Command)

  /** One step of the whole system: processing an action or any ledger call. */
  function Apply(s: State, c: Command): State {
    match c
    case Process(id, picks) => ProcessCorporateAction(s, id, picks).state
    case Gl(command) => s.(ledger := Ledger.Apply(s.ledger, command))
  }

  function Run(s: State, commands: seq<Command>): State {
    if commands == [] then s
    else Apply(Run(s, commands[..|commands| - 1]), commands[|commands| - 1])
  }

  // ---------- average cost against book value ----------

  /** How far average cost times quantity is from book value. */
  function Off(h: Holding): real {
    AbsReal(Worth(h) - h.book as real)
  }

  /** Average cost times quantity is within half a kobo a unit of book value. */
  predicate Tight(h: Holding) {
    Off(h) <= AbsReal(h.quantity) / 2.0
  }

  lemma AverageTimesQuantity(book: int, quantity: real)
    requires quantity != 0.0
    ensures AbsReal(Product(quantity, Average(book, quantity)) - book as real) <= AbsReal(quantity) / 2.0
  {
    hide Product, AbsReal;
    ProductOfQuotient(quantity, book as real);
    ProductNear(quantity, Average(book, quantity), book as real / quantity);
  }

  /** The actions that set the number of units against the book value. */
  predicate SetsUnits(a: Action) {
    a.BonusShare? || a.RightsIssue? || a.StockDividend?
  }

  /** They do so for every holding, but for a rights issue that entitles to nothing. */
  predicate Respreads(h: Holding, a: Action) {
    SetsUnits(a) && (a.RightsIssue? ==> 0 < Entitled(h, a.ratio))
  }

  function CostOf(h: Holding, a: Action): int {
    if a.RightsIssue? && Entitled(h, a.ratio) > 0 then RightsCost(h, a.ratio, a.price) else 0
  }

  lemma RespreadTight(book: int, quantity: real, fundAum: int)
    requires quantity != 0.0
    ensures Tight(Holding(quantity, Average(book, quantity), book, fundAum))
  {
    hide Average, Product;
    AverageTimesQuantity(book, quantity);
  }

  /** After a bonus, a stock dividend or a rights issue the bound holds, wherever
      the holding stood before, and book value has changed by the rights cost
      alone. A rights issue that entitles to nothing leaves the holding as it was. */
  lemma UnitsSet(i: Instrument, h: Holding, a: Action)
    requires SetsUnits(a) && EffectOf(i, h, a).Ok?
    ensures var h' := EffectOf(i, h, a).value.after;
      && (if Respreads(h, a) then Tight(h') else h' == h)
      && h'.book == h.book + CostOf(h, a)
  {
    hide Average, RightsCost, Tight, Round2, Worth, Entitled, Scaled;
    var h' := EffectOf(i, h, a).value.after;
    if Respreads(h, a) {
      assert h'.quantity != 0.0 && h'.avgCost == Average(h'.book, h'.quantity);
      RespreadTight(h'.book, h'.quantity, h.fundAum);
    }
  }

  // ---------- sequences of actions on one holding ----------

  /** The holding after a sequence of actions, or None once one is refused. */
  function AfterActions(i: Instrument, h: Holding, actions: seq<Action>): Option<Holding> {
    if actions == [] then Some(h)
    else
      match AfterActions(i, h, actions[..|actions| - 1])
      case None => None
      case Some(before) =>
        if before.quantity <= 0.0 then Some(before)
        else
          match EffectOf(i, before, actions[|actions| - 1])
          case Err(_) => None
          case Ok(effect) => Some(effect.after)
  }

  /** The rights costs paid along the way. */
  function CostsAlong(i: Instrument, h: Holding, actions: seq<Action>): int {
    if actions == [] then 0
    else
      var before := AfterActions(i, h, actions[..|actions| - 1]);
      CostsAlong(i, h, actions[..|actions| - 1])
      + if before.Some? && before.value.quantity > 0.0 then CostOf(before.value, actions[|actions| - 1]) else 0
  }

  /** Some action along the way set the number of units. */
  predicate RespreadAlong(i: Instrument, h: Holding, actions: seq<Action>) {
    actions != [] &&
    (var before := AfterActions(i, h, actions[..|actions| - 1]);
     || RespreadAlong(i, h, actions[..|actions| - 1])
     || (before.Some? && before.value.quantity > 0.0 && Respreads(before.value, actions[|actions| - 1])))
  }

  /** Through any sequence of bonus shares, stock dividends and rights issues the
      bound holds if it held at the start, and in any case once one of them has set
      the number of units; book value grows by the rights costs alone. */
  lemma {:induction false} TightAlong(i: Instrument, h: Holding, actions: seq<Action>)
    requires forall k :: 0 <= k < |actions| ==> SetsUnits(actions[k])
    requires AfterActions(i, h, actions).Some?
    ensures var h' := AfterActions(i, h, actions).value;
      && (Tight(h) || RespreadAlong(i, h, actions) ==> Tight(h'))
      && h'.book == h.book + CostsAlong(i, h, actions)
  {
    hide Tight, CostOf, Respreads, SetsUnits;
    if actions != [] {
      var front, last := actions[..|actions| - 1], actions[|actions| - 1];
      TightAlong(i, h, front);
      var before := AfterActions(i, h, front).value;
      if before.quantity > 0.0 { UnitsSet(i, before, last); }
    }
  }

  /** So a following maturity returns the book value to within half a kobo a unit
      and half a kobo. */
  lemma MaturityReturnsBookValue(i: Instrument, h: Holding, actions: seq<Action>)
    requires forall k :: 0 <= k < |actions| ==> SetsUnits(actions[k])
    requires AfterActions(i, h, actions).Some?
    requires Tight(h) || RespreadAlong(i, h, actions)
    ensures var h' := AfterActions(i, h, actions).value;
      AbsReal((Principal(h') - h'.book) as real) <= AbsReal(h'.quantity) / 2.0 + 0.5
  {
    hide AfterActions, Worth, Tight, CostsAlong, RespreadAlong, SetsUnits;
    TightAlong(i, h, actions);
    PrincipalNear(AfterActions(i, h, actions).value);
  }

  lemma PrincipalNear(h: Holding)
    requires Tight(h)
    ensures AbsReal((Principal(h) - h.book) as real) <= AbsReal(h.quantity) / 2.0 + 0.5
  {
    hide Worth;
  }

  // ---------- splits ----------

  lemma SplitWorth(quantity: real, cost: real, ratio: real)
    requires ratio != 0.0
    ensures Product(Product(quantity, ratio), cost / ratio) == Product(quantity, cost)
  {
    assert ratio * (cost / ratio) == cost;
    assert quantity * ratio * (cost / ratio) == quantity * (ratio * (cost / ratio));
  }

  lemma LargerProduct(quantity: real, ratio: real)
    requires 1.0 <= ratio
    ensures AbsReal(quantity) <= AbsReal(Product(quantity, ratio))
  {
    if quantity >= 0.0 {
      assert quantity * 1.0 <= quantity * ratio;
    } else {
      assert -quantity * 1.0 <= -quantity * ratio;
    }
  }

  /** A split carries no such promise. When neither its quantity nor its average
      cost is rounded it keeps the distance from book value, so the bound holds
      afterwards exactly when that distance is within half a kobo a new unit: a
      split into more units keeps the bound, one into fewer need not. */
  lemma SplitKeepsExactly(h: Holding, ratio: real)
    requires 0.0 < ratio
    requires Scaled(h, ratio) == Product(h.quantity, ratio) && SplitCost(h, ratio) == h.avgCost / ratio
    ensures Off(SplitOf(h, ratio)) == Off(h)
    ensures Tight(SplitOf(h, ratio)) <==> Off(h) <= AbsReal(Product(h.quantity, ratio)) / 2.0
    ensures 1.0 <= ratio && Tight(h) ==> Tight(SplitOf(h, ratio))
  {
    hide Product, Scaled, SplitCost, AbsReal;
    SplitWorth(h.quantity, h.avgCost, ratio);
    if 1.0 <= ratio { LargerProduct(h.quantity, ratio); }
  }

  lemma NotNegative(x: real, y: real)
    requires 0.0 <= x && 0.0 <= y
    ensures 0.0 <= x * y
  {
  }

  lemma SmallTimesPositive(small: real, x: real)
    requires -0.005 <= small <= 0.005 && 0.0 <= x
    ensures -0.005 * x <= Product(small, x) <= 0.005 * x
  {
    var above, below := 0.005 - small, small + 0.005;
    NotNegative(above, x);
    NotNegative(below, x);
    assert above * x == 0.005 * x - small * x && below * x == small * x + 0.005 * x;
  }

  lemma TimesNegative(small: real, x: real)
    ensures Product(small, -x) == -Product(small, x)
  {
  }

  lemma SmallTimes(small: real, x: real)
    requires -0.005 <= small <= 0.005
    ensures AbsReal(Product(small, x)) <= 0.005 * AbsReal(x)
  {
    hide Product;
    SmallTimesPositive(small, AbsReal(x));
    TimesNegative(small, x);
  }

  lemma ProductDifference(a: real, b: real, x: real)
    ensures Product(a, x) - Product(b, x) == Product(a - b, x)
  {
  }

  /** With rounding, a split adds at most half a kobo for each new unit, and for the
      rounded quantity half a hundredth of the new average cost. */
  lemma SplitBound(h: Holding, ratio: real)
    requires 0.0 < ratio
    ensures var h' := SplitOf(h, ratio);
      Off(h') <= Off(h) + AbsReal(h'.quantity) / 2.0 + 0.005 * AbsReal(h.avgCost / ratio)
  {
    var h', cost := SplitOf(h, ratio), h.avgCost / ratio;
    var exact := Product(h.quantity, ratio);
    assert -0.005 <= h'.quantity - exact <= 0.005;
    assert -0.5 <= h'.avgCost - cost <= 0.5;
    SplitParts(h, h', exact, cost, ratio);
  }

  lemma SplitParts(h: Holding, h': Holding, exact: real, cost: real, ratio: real)
    requires ratio != 0.0 && exact == Product(h.quantity, ratio) && cost == h.avgCost / ratio
    requires h'.book == h.book && -0.005 <= h'.quantity - exact <= 0.005 && -0.5 <= h'.avgCost - cost <= 0.5
    ensures Off(h') <= Off(h) + AbsReal(h'.quantity) / 2.0 + 0.005 * AbsReal(cost)
  {
    hide Product;
    SplitWorth(h.quantity, h.avgCost, ratio);
    ProductNear(h'.quantity, h'.avgCost, cost);
    ProductDifference(h'.quantity, exact, cost);
    SmallTimes(h'.quantity - exact, cost);
  }

  lemma RunSnoc(s: State, commands: seq<Command>, c: Command)
    ensures Run(s, commands + [c]) == Apply(Run(s, commands), c)
  {
    assert (commands + [c])[..|commands|] == commands;
  }

  const EX_DATE := Ledger.Date(2026, 1, 15)

  function Fund(h: Holding, first: Action, second: Action): State {
    State(Ledger.Init([]), Instrument("1201", "4001"), [h],
          map[0 := ActionRow(first, EX_DATE, false), 1 := ActionRow(second, EX_DATE, false)])
  }

  lemma ProcessedOne(s: State, id: nat, h: Holding)
    requires s.holdings == [h] && id in s.actions && !s.actions[id].processed && 0.0 < h.quantity
    requires EffectOf(s.instrument, h, s.actions[id].action).Ok?
    requires EffectOf(s.instrument, h, s.actions[id].action).value.lines.None?
    ensures var s' := Apply(s, Process(id, []));
      && s'.holdings == [EffectOf(s.instrument, h, s.actions[id].action).value.after]
      && s'.instrument == s.instrument && s'.actions == s.actions[id := s.actions[id].(processed := true)]
  {
    hide EffectOf;
    assert ProcessFirst(s, s.actions[id].action, s.actions[id].exDate, [], 0) == (s.ledger, Ok([]));
    assert ProcessFirst(s, s.actions[id].action, s.actions[id].exDate, [], 1).1
        == Ok([] + [EffectOf(s.instrument, h, s.actions[id].action).value.after]);
  }

  /** A holding carried at exactly its cost gets a bonus share for each share, which
      takes it to the edge of the bound; halving the units takes it over. */
  lemma SplitLoosens()
    ensures var start := Holding(50.0, 3.0, 150, 0);
      var s := Fund(start, BonusShare(1.0), StockSplit(0.5));
      && Off(start) == 0.0
      && (var h := Run(s, [Process(0, [])]).holdings; |h| == 1 && Tight(h[0]))
      && (var h := Run(s, [Process(0, []), Process(1, [])]).holdings; |h| == 1 && !Tight(h[0]))
  {
    var start := Holding(50.0, 3.0, 150, 0);
    var bonus, split := BonusShare(1.0), StockSplit(0.5);
    var s := Fund(start, bonus, split);
    var none: seq<Command> := [];
    BonusThenSplit();
    hide EffectOf, ProcessFirst;
    RunSnoc(s, none, Process(0, []));
    RunSnoc(s, none + [Process(0, [])], Process(1, []));
    assert none + [Process(0, [])] == [Process(0, [])];
    assert none + [Process(0, [])] + [Process(1, [])] == [Process(0, []), Process(1, [])];
    hide Run, Apply;
    ProcessedOne(s, 0, start);
    ProcessedOne(Run(s, [Process(0, [])]), 1, Holding(100.0, 2.0, 150, 0));
  }

  lemma BonusThenSplit()
    ensures var i := Instrument("1201", "4001");
      && EffectOf(i, Holding(50.0, 3.0, 150, 0), BonusShare(1.0)) == Ok(Effect(Holding(100.0, 2.0, 150, 0), None))
      && EffectOf(i, Holding(100.0, 2.0, 150, 0), StockSplit(0.5)) == Ok(Effect(Holding(50.0, 4.0, 150, 0), None))
  {
    RoundWhole(5000);
    RoundWhole(10000);
    RoundWhole(4);
    assert Round2(50.0) == 50.0 && Round2(100.0) == 100.0;
    assert Average(150, 100.0) == 2.0;
    assert Scaled(Holding(50.0, 3.0, 150, 0), 1.0) == 50.0;
    assert Scaled(Holding(100.0, 2.0, 150, 0), 0.5) == 50.0;
    assert SplitCost(Holding(100.0, 2.0, 150, 0), 0.5) == 4.0;
  }

  // ---------- the journal of one holding ----------

  /** The amount an action posts for a holding: cash received, rights paid for, or
      principal returned. */
  function Posted(h: Holding, a: Action): int {
    if h.quantity <= 0.0 then 0
    else
      match a
      case CashDividend(perUnit) => GrossCash(h, perUnit)
      case CouponPayment(perUnit) => GrossCash(h, perUnit)
      case RightsIssue(_, _) => CostOf(h, a)
      case Maturity => Principal(h)
      case _ => 0
  }

  /** Money out of the investment account counts negative. */
  function Sign(a: Action): int {
    if a.Maturity? then -1 else 1
  }

  predicate HasJournal(h: Holding, a: Action) {
    a.CashDividend? || a.CouponPayment? || a.Maturity? || (a.RightsIssue? && Entitled(h, a.ratio) > 0)
  }

  /** The instrument names the accounts the journal of an action needs. */
  predicate Named(i: Instrument, a: Action) {
    i.glAccount != "" && (a.CashDividend? || a.CouponPayment? ==> i.incomeAccount != "")
  }

  /** By how much processing a holding moves the investment account away from its
      book value: a cash dividend is debited to that account, and a maturity
      credits the principal, not the book value. */
  function Drift(h: Holding, a: Action): int {
    if h.quantity <= 0.0 then 0
    else if a.CashDividend? || a.CouponPayment? then GrossCash(h, a.amountPerUnit)
    else if a.Maturity? then h.book - Principal(h)
    else 0
  }

  /** The account holds this instrument's investments and nothing else. */
  predicate OwnAccount(i: Instrument) {
    i.glAccount != BANK && i.glAccount != WITHHOLDING && i.glAccount != i.incomeAccount
  }

  lemma CashLinesNet(i: Instrument, gross: int, wht: int, account: string)
    ensures var lines := CashLines(i, gross, wht);
      && Ledger.DebitSum(lines) == Ledger.CreditSum(lines) == gross + wht
      && Ledger.Net(lines, account)
         == (if i.glAccount == account then gross else 0) + (if i.incomeAccount == account then wht - gross else 0)
            - (if WITHHOLDING == account then wht else 0)
  {
    var a, b := Ledger.Line(i.glAccount, gross, 0), Ledger.Line(i.incomeAccount, 0, gross);
    var c, d := Ledger.Line(i.incomeAccount, wht, 0), Ledger.Line(WITHHOLDING, 0, wht);
    Ledger.SumsOfPair(a, b, account);
    Ledger.SumsAppend([a, b], c, account);
    Ledger.SumsAppend([a, b] + [c], d, account);
    assert CashLines(i, gross, wht) == [a, b] + [c] + [d];
  }

  /** Nothing is withheld on nothing, and nothing negative on what is not. */
  lemma WithheldSign(gross: int)
    ensures gross == 0 ==> WithheldOn(gross) == 0
    ensures 0 <= gross ==> 0 <= WithheldOn(gross)
  {
    RoundWhole(0);
    if 0 <= gross { RoundMonotone(0.0, gross as real * 0.10); }
  }

  /** Every journal of an action balances exactly, is clean just when its amount is
      not negative and its accounts are named, and moves no account when its amount
      is nothing. */
  lemma JournalOf(i: Instrument, h: Holding, a: Action, account: string)
    requires 0.0 < h.quantity && EffectOf(i, h, a).Ok?
    ensures var effect := EffectOf(i, h, a).value;
      && (effect.lines.Some? <==> HasJournal(h, a))
      && (effect.lines.None? ==> Posted(h, a) == 0)
      && (effect.lines.Some? ==>
            var lines := effect.lines.value;
            && 2 <= |lines|
            && Ledger.DebitSum(lines) == Ledger.CreditSum(lines)
            && ((forall k :: 0 <= k < |lines| ==> Ledger.GoodLine(lines[k])) <==> 0 <= Posted(h, a) && Named(i, a))
            && (Posted(h, a) == 0 ==> Ledger.Net(lines, account) == 0))
  {
    hide Average, RightsCost, Principal, Round2, GrossCash, WithheldOn, Entitled, Ledger.Net, Ledger.DebitSum,
        Ledger.CreditSum;
    var effect := EffectOf(i, h, a).value;
    if effect.lines.Some? {
      var lines := effect.lines.value;
      if a.CashDividend? || a.CouponPayment? {
        var gross := GrossCash(h, a.amountPerUnit);
        WithheldSign(gross);
        CashLinesNet(i, gross, WithheldOn(gross), account);
        FourGood(lines);
      } else {
        Ledger.SumsOfPair(lines[0], lines[1], account);
        TwoGood(lines);
      }
    }
  }

  lemma TwoGood(lines: seq<Ledger.Line>)
    requires |lines| == 2
    ensures (forall k :: 0 <= k < |lines| ==> Ledger.GoodLine(lines[k])) <==>
              Ledger.GoodLine(lines[0]) && Ledger.GoodLine(lines[1])
  {
  }

  lemma FourGood(lines: seq<Ledger.Line>)
    requires |lines| == 4
    ensures (forall k :: 0 <= k < |lines| ==> Ledger.GoodLine(lines[k])) <==>
              && Ledger.GoodLine(lines[0]) && Ledger.GoodLine(lines[1])
              && Ledger.GoodLine(lines[2]) && Ledger.GoodLine(lines[3])
  {
  }

  /** On an account of the instrument's own, a journal debits the change in book
      value plus the drift, which is the amount posted with its sign. */
  lemma EffectNet(i: Instrument, h: Holding, a: Action)
    requires OwnAccount(i) && 0.0 < h.quantity && EffectOf(i, h, a).Ok?
    ensures var effect := EffectOf(i, h, a).value;
      match effect.lines
      case None => effect.after.book - h.book == 0 == Drift(h, a)
      case Some(lines) =>
        && Ledger.DebitSum(lines) == Ledger.CreditSum(lines)
        && Ledger.Net(lines, i.glAccount) == effect.after.book - h.book + Drift(h, a) == Sign(a) * Posted(h, a)
  {
    hide Average, RightsCost, Principal, Round2, GrossCash, WithheldOn, CashLines, Ledger.Net, Ledger.DebitSum,
        Ledger.CreditSum;
    var effect := EffectOf(i, h, a).value;
    if a.CashDividend? || a.CouponPayment? {
      var gross := GrossCash(h, a.amountPerUnit);
      CashLinesNet(i, gross, WithheldOn(gross), i.glAccount);
    } else if effect.lines.Some? {
      Ledger.SumsOfPair(effect.lines.value[0], effect.lines.value[1], i.glAccount);
    }
  }

  // ---------- which holding stops an action ----------

  /** Whether a holding is refused: a matter of the holding, the action, the
      instrument and the answer of the period lookup alone. */
  predicate Refuses(i: Instrument, periods: seq<Ledger.Period>, h: Holding, a: Action, date: Ledger.Date, pick: nat) {
    && 0.0 < h.quantity
    && (|| EffectOf(i, h, a).Err?
        || (HasJournal(h, a)
            && (Posted(h, a) < 0 || !Named(i, a) || !Ledger.PeriodStatusForDate(periods, date, pick).Open?)))
  }

  lemma KindNamed(a: Action)
    ensures Kind(a) != ""
    ensures a.CashDividend? ==> Kind(a) == "Dividend Income"
    ensures a.CouponPayment? ==> Kind(a) == "Coupon Income"
    ensures a.RightsIssue? ==> Kind(a) == "Rights Issue"
    ensures a.Maturity? ==> Kind(a) == "Maturity"
  {
  }

  lemma RefusesExactly(ledger: Ledger.State, i: Instrument, h: Holding, a: Action, date: Ledger.Date, pick: nat)
    ensures var (ledger', one) := ProcessOne(ledger, i, h, a, date, pick);
      && (one.Err? <==> Refuses(i, ledger.periods, h, a, date, pick))
      && ledger'.periods == ledger.periods
  {
    hide EffectOf, HasJournal, Posted, Named, Kind, Ledger.PeriodStatusForDate, Ledger.DebitSum, Ledger.CreditSum,
        Ledger.GoodLine;
    KindNamed(a);
    if 0.0 < h.quantity && EffectOf(i, h, a).Ok? {
      JournalOf(i, h, a, "");
      var lines := EffectOf(i, h, a).value.lines;
      if lines.Some? {
        var input := Ledger.JournalInput(Some(date), Kind(a), lines.value);
        AcceptedExactly(ledger, input, pick);
        SamePeriods(ledger, input, pick);
      }
    }
    hide CreateAndPost;
  }

  lemma SamePeriods(st: Ledger.State, input: Ledger.JournalInput, pick: nat)
    ensures CreateAndPost(st, input, pick).state.periods == st.periods
  {
  }

  /** The first holding from `k` on that is refused, or the number of holdings. */
  function FirstRefusal(s: State, a: Action, date: Ledger.Date, picks: seq<nat>, k: nat): (r: nat)
    requires k <= |s.holdings|
    ensures k <= r <= |s.holdings|
    ensures forall j :: k <= j < r ==> !Refuses(s.instrument, s.ledger.periods, s.holdings[j], a, date, Nth(picks, j))
    ensures r < |s.holdings| ==> Refuses(s.instrument, s.ledger.periods, s.holdings[r], a, date, Nth(picks, r))
    decreases |s.holdings| - k
  {
    if k == |s.holdings| || Refuses(s.instrument, s.ledger.periods, s.holdings[k], a, date, Nth(picks, k)) then k
    else FirstRefusal(s, a, date, picks, k + 1)
  }

  /** The holdings up to the first refusal go through, and nothing after it. */
  lemma {:induction false} StopsAtRefusal(s: State, a: Action, date: Ledger.Date, picks: seq<nat>, n: nat)
    requires n <= |s.holdings|
    ensures var (ledger, done) := ProcessFirst(s, a, date, picks, n);
      && ledger.periods == s.ledger.periods
      && (done.Ok? <==> n <= FirstRefusal(s, a, date, picks, 0))
  {
    hide ProcessOne, Refuses;
    if n > 0 {
      StopsAtRefusal(s, a, date, picks, n - 1);
      var (ledger, done) := ProcessFirst(s, a, date, picks, n - 1);
      RefusesExactly(ledger, s.instrument, s.holdings[n - 1], a, date, Nth(picks, n - 1));
      var one := ProcessOne(ledger, s.instrument, s.holdings[n - 1], a, date, Nth(picks, n - 1)).1;
      var r := FirstRefusal(s, a, date, picks, 0);
      assert done.Ok? ==> (ProcessFirst(s, a, date, picks, n).1.Ok? <==> one.Ok?);
      assert done.Ok? ==> (one.Err? <==> n - 1 == r);
    }
  }

  // ---------- what the first holdings leave in the ledger ----------

  function NetOfOne(i: Instrument, h: Holding, a: Action, account: string): int {
    if h.quantity <= 0.0 then 0
    else
      match EffectOf(i, h, a)
      case Err(_) => 0
      case Ok(effect) => if effect.lines.None? then 0 else Ledger.Net(effect.lines.value, account)
  }

  /** The net of the journals of the first holdings on an account. */
  function NetOfFirst(s: State, a: Action, n: nat, account: string): int
    requires n <= |s.holdings|
  {
    if n == 0 then 0
    else NetOfFirst(s, a, n - 1, account) + NetOfOne(s.instrument, s.holdings[n - 1], a, account)
  }

  lemma ProcessOneNet(ledger: Ledger.State, i: Instrument, h: Holding, a: Action, date: Ledger.Date, pick: nat,
      account: string)
    requires LedgerInvariant.IdsBelow(ledger)
    ensures var (ledger', one) := ProcessOne(ledger, i, h, a, date, pick);
      && LedgerInvariant.IdsBelow(ledger')
      && Ledger.Balance(ledger', account)
          == Ledger.Balance(ledger, account) + if one.Ok? then NetOfOne(i, h, a, account) else 0
  {
    hide EffectOf, CreateAndPost, Ledger.Balance, Ledger.Net, Kind;
    if h.quantity > 0.0 && EffectOf(i, h, a).Ok? && EffectOf(i, h, a).value.lines.Some? {
      var input := Ledger.JournalInput(Some(date), Kind(a), EffectOf(i, h, a).value.lines.value);
      CreateAndPostEffect(ledger, input, pick, account);
      CreateAndPostIds(ledger, input, pick);
    }
  }

  /** After the first `n` holdings every account has moved by the journals of those
      before the first refusal. */
  lemma {:induction false} ProcessFirstNet(s: State, a: Action, date: Ledger.Date, picks: seq<nat>, n: nat,
      account: string)
    requires n <= |s.holdings| && LedgerInvariant.IdsBelow(s.ledger)
    ensures var ledger := ProcessFirst(s, a, date, picks, n).0;
      && LedgerInvariant.IdsBelow(ledger)
      && Ledger.Balance(ledger, account)
         == Ledger.Balance(s.ledger, account) + NetOfFirst(s, a, Min(n, FirstRefusal(s, a, date, picks, 0)), account)
  {
    hide ProcessOne, Ledger.Balance, LedgerInvariant.IdsBelow, Refuses, NetOfOne, FirstRefusal;
    if n > 0 {
      ProcessFirstNet(s, a, date, picks, n - 1, account);
      StopsAtRefusal(s, a, date, picks, n - 1);
      StopsAtRefusal(s, a, date, picks, n);
      var (ledger, done) := ProcessFirst(s, a, date, picks, n - 1);
      ProcessOneNet(ledger, s.instrument, s.holdings[n - 1], a, date, Nth(picks, n - 1), account);
    }
  }

  // ---------- a failure part way ----------

  /** Some holding among the first `k` has posted an amount. */
  predicate SomethingPosted(s: State, a: Action, k: nat)
    requires k <= |s.holdings|
  {
    exists j :: 0 <= j < k && Posted(s.holdings[j], a) != 0
  }

  lemma NetOfRefusedNot(i: Instrument, periods: seq<Ledger.Period>, h: Holding, a: Action, date: Ledger.Date, pick: nat,
      account: string)
    requires !Refuses(i, periods, h, a, date, pick)
    ensures 0 <= Posted(h, a)
    ensures Posted(h, a) == 0 ==> NetOfOne(i, h, a, account) == 0
    ensures OwnAccount(i) ==> NetOfOne(i, h, a, i.glAccount) == Sign(a) * Posted(h, a)
  {
    if 0.0 < h.quantity {
      JournalOf(i, h, a, account);
      if OwnAccount(i) { EffectNet(i, h, a); }
      hide EffectOf, Posted, HasJournal, Named, Sign, Ledger.Net, Ledger.PeriodStatusForDate;
      assert Sign(a) * 0 == 0;
    }
  }

  lemma {:induction false} NothingMoved(s: State, a: Action, date: Ledger.Date, picks: seq<nat>, k: nat,
      account: string)
    requires k <= FirstRefusal(s, a, date, picks, 0) && !SomethingPosted(s, a, k)
    ensures NetOfFirst(s, a, k, account) == 0
  {
    hide Refuses, Posted, NetOfOne;
    if k > 0 {
      assert forall j :: 0 <= j < k ==> Posted(s.holdings[j], a) == 0;
      NothingMoved(s, a, date, picks, k - 1, account);
      NetOfRefusedNot(s.instrument, s.ledger.periods, s.holdings[k - 1], a, date, Nth(picks, k - 1), account);
    }
  }

  lemma {:induction false} AmountsPosted(s: State, a: Action, date: Ledger.Date, picks: seq<nat>, k: nat)
    requires k <= FirstRefusal(s, a, date, picks, 0) && OwnAccount(s.instrument)
    ensures 0 <= Sign(a) * NetOfFirst(s, a, k, s.instrument.glAccount)
    ensures SomethingPosted(s, a, k) ==> 0 < Sign(a) * NetOfFirst(s, a, k, s.instrument.glAccount)
  {
    hide Refuses, Posted, NetOfOne, OwnAccount;
    if k > 0 {
      AmountsPosted(s, a, date, picks, k - 1);
      NetOfRefusedNot(s.instrument, s.ledger.periods, s.holdings[k - 1], a, date, Nth(picks, k - 1), "");
    }
  }

  /** An action fails exactly when some holding is refused. A failure changes no
      holding and leaves the action open, but it is not all-or-nothing: the journals
      of the holdings before the first refused one stay in the books, on every
      account. So on an instrument with an account of its own a failed action moves
      some balance exactly when a holding before the refused one had an amount to
      post. */
  lemma FailureKeepsJournals(s: State, id: nat, picks: seq<nat>)
    requires LedgerInvariant.IdsBelow(s.ledger) && id in s.actions && !s.actions[id].processed
    ensures var row, out := s.actions[id], ProcessCorporateAction(s, id, picks);
      var k := FirstRefusal(s, row.action, row.exDate, picks, 0);
      && (out.result.Err? <==> k < |s.holdings|)
      && (forall account ::
            Ledger.Balance(out.state.ledger, account)
                == Ledger.Balance(s.ledger, account) + NetOfFirst(s, row.action, k, account))
      && (out.result.Err? ==>
            && out.state.holdings == s.holdings && out.state.actions == s.actions
            && (OwnAccount(s.instrument) ==>
                  ((exists account :: Ledger.Balance(out.state.ledger, account) != Ledger.Balance(s.ledger, account))
                   <==> SomethingPosted(s, row.action, k))))
  {
    var row, out := s.actions[id], ProcessCorporateAction(s, id, picks);
    var k := FirstRefusal(s, row.action, row.exDate, picks, 0);
    StopsAtRefusal(s, row.action, row.exDate, picks, |s.holdings|);
    hide ProcessFirst, FirstRefusal, Ledger.Balance, NetOfFirst, Refuses, SomethingPosted, OwnAccount,
        LedgerInvariant.IdsBelow;
    forall account
      ensures Ledger.Balance(out.state.ledger, account)
                == Ledger.Balance(s.ledger, account) + NetOfFirst(s, row.action, k, account)
      ensures !SomethingPosted(s, row.action, k) ==> NetOfFirst(s, row.action, k, account) == 0
    {
      ProcessFirstNet(s, row.action, row.exDate, picks, |s.holdings|, account);
      if !SomethingPosted(s, row.action, k) { NothingMoved(s, row.action, row.exDate, picks, k, account); }
    }
    if OwnAccount(s.instrument) && SomethingPosted(s, row.action, k) {
      AmountsPosted(s, row.action, row.exDate, picks, k);
      var own := s.instrument.glAccount;
      assert Ledger.Balance(out.state.ledger, own) != Ledger.Balance(s.ledger, own);
    }
  }

  /** It does happen: of two holdings paid a dividend in a month with an open and a
      locked row, the first is posted and the second refused. */
  lemma FailedPartWay()
    ensures var h := Holding(100.0, 5.0, 500, 0);
      var periods := [Ledger.Period(2026, 1, Ledger.Open), Ledger.Period(2026, 1, Ledger.Locked)];
      var s := State(Ledger.Init(periods), Instrument("1201", "4001"), [h, h],
                     map[0 := ActionRow(CashDividend(2.0), EX_DATE, false)]);
      var out := ProcessCorporateAction(s, 0, [0, 1]);
      && out.result.Err? && out.state.holdings == s.holdings
      && Ledger.Balance(out.state.ledger, "1201") == Ledger.Balance(s.ledger, "1201") + 200
  {
    var h := Holding(100.0, 5.0, 500, 0);
    var periods := [Ledger.Period(2026, 1, Ledger.Open), Ledger.Period(2026, 1, Ledger.Locked)];
    var a, i := CashDividend(2.0), Instrument("1201", "4001");
    var s := State(Ledger.Init(periods), i, [h, h], map[0 := ActionRow(a, EX_DATE, false)]);
    OpenThenLocked();
    RoundWhole(200);
    assert GrossCash(h, 2.0) == 200;
    hide GrossCash, Ledger.PeriodStatusForDate;
    assert !Refuses(i, periods, h, a, EX_DATE, 0) && Refuses(i, periods, h, a, EX_DATE, 1);
    assert FirstRefusal(s, a, EX_DATE, [0, 1], 0) == 1;
    EffectNet(i, h, a);
    hide Ledger.Balance, ProcessFirst, EffectOf;
    assert NetOfFirst(s, a, 1, "1201") == 200;
    FailureKeepsJournals(s, 0, [0, 1]);
  }

  lemma OpenThenLocked()
    ensures var periods := [Ledger.Period(2026, 1, Ledger.Open), Ledger.Period(2026, 1, Ledger.Locked)];
      && Ledger.PeriodStatusForDate(periods, EX_DATE, 0) == Ledger.Open
      && Ledger.PeriodStatusForDate(periods, EX_DATE, 1) == Ledger.Locked
  {
    var periods := [Ledger.Period(2026, 1, Ledger.Open), Ledger.Period(2026, 1, Ledger.Locked)];
    assert periods[..1] == [Ledger.Period(2026, 1, Ledger.Open)] && periods[..1][..0] == [];
    assert Ledger.MonthRows(periods[..1], 2026, 1) == [Ledger.Open];
    assert Ledger.MonthRows(periods, 2026, 1) == [Ledger.Open, Ledger.Locked];
  }

  // ---------- book values against the ledger ----------

  function BookSum(holdings: seq<Holding>): int {
    if holdings == [] then 0 else BookSum(holdings[..|holdings| - 1]) + holdings[|holdings| - 1].book
  }

  function DriftSum(holdings: seq<Holding>, a: Action): int {
    if holdings == [] then 0 else DriftSum(holdings[..|holdings| - 1], a) + Drift(holdings[|holdings| - 1], a)
  }

  lemma BookMoves(ledger: Ledger.State, i: Instrument, h: Holding, a: Action, date: Ledger.Date, pick: nat)
    requires OwnAccount(i)
    ensures var one := ProcessOne(ledger, i, h, a, date, pick).1;
      one.Ok? ==> NetOfOne(i, h, a, i.glAccount) == one.value.book - h.book + Drift(h, a)
  {
    hide EffectOf, CreateAndPost, Ledger.Net, Kind;
    if h.quantity > 0.0 && EffectOf(i, h, a).Ok? {
      EffectNet(i, h, a);
      hide Drift;
    }
  }

  lemma NothingHeld(a: Action)
    ensures BookSum([]) == 0 == DriftSum([], a)
  {
  }

  lemma OneMore(holdings: seq<Holding>, h: Holding, a: Action)
    ensures BookSum(holdings + [h]) == BookSum(holdings) + h.book
    ensures DriftSum(holdings + [h], a) == DriftSum(holdings, a) + Drift(h, a)
  {
    hide Drift;
    assert (holdings + [h])[..|holdings|] == holdings;
  }

  lemma {:induction false} BooksMove(s: State, a: Action, date: Ledger.Date, picks: seq<nat>, n: nat)
    requires n <= |s.holdings| && OwnAccount(s.instrument) && ProcessFirst(s, a, date, picks, n).1.Ok?
    ensures var done := ProcessFirst(s, a, date, picks, n).1.value;
      && |done| == n
      && NetOfFirst(s, a, n, s.instrument.glAccount)
         == BookSum(done) - BookSum(s.holdings[..n]) + DriftSum(s.holdings[..n], a)
  {
    hide ProcessOne, Drift, OwnAccount, BookSum, DriftSum, NetOfOne;
    if n == 0 {
      NothingHeld(a);
      assert s.holdings[..0] == [];
    } else {
      var (ledger, done) := ProcessFirst(s, a, date, picks, n - 1);
      BooksMove(s, a, date, picks, n - 1);
      BookMoves(ledger, s.instrument, s.holdings[n - 1], a, date, Nth(picks, n - 1));
      assert s.holdings[..n] == s.holdings[..n - 1] + [s.holdings[n - 1]];
      OneMore(s.holdings[..n - 1], s.holdings[n - 1], a);
      OneMore(done.value, ProcessOne(ledger, s.instrument, s.holdings[n - 1], a, date, Nth(picks, n - 1)).1.value, a);
    }
  }

  /** By how much the investment account exceeds the book values. */
  function Gap(s: State): int {
    Ledger.Balance(s.ledger, s.instrument.glAccount) - BookSum(s.holdings)
  }

  /** By how much one call widens the gap: a completed action by its drift, one
      that fails by what it has already posted, and any other call not at all. */
  function Shift(s: State, c: Command): int {
    if !c.Process? || c.id !in s.actions || s.actions[c.id].processed then 0
    else
      var row := s.actions[c.id];
      var k := FirstRefusal(s, row.action, row.exDate, c.picks, 0);
      if k == |s.holdings| then DriftSum(s.holdings, row.action)
      else NetOfFirst(s, row.action, k, s.instrument.glAccount)
  }

  /** Processing an action moves ledger and book values together but for that, and
      no action is processed twice. */
  lemma ProcessGap(s: State, id: nat, picks: seq<nat>)
    requires LedgerInvariant.IdsBelow(s.ledger) && OwnAccount(s.instrument)
    ensures var out := ProcessCorporateAction(s, id, picks);
      && LedgerInvariant.IdsBelow(out.state.ledger) && out.state.instrument == s.instrument
      && Gap(out.state) == Gap(s) + Shift(s, Process(id, picks))
      && (out.result.Ok? ==> forall again :: ProcessCorporateAction(out.state, id, again).result == Err(WrongStatus))
  {
    if id in s.actions && !s.actions[id].processed {
      var row := s.actions[id];
      StopsAtRefusal(s, row.action, row.exDate, picks, |s.holdings|);
      ProcessFirstNet(s, row.action, row.exDate, picks, |s.holdings|, s.instrument.glAccount);
      assert s.holdings[..|s.holdings|] == s.holdings;
      if ProcessFirst(s, row.action, row.exDate, picks, |s.holdings|).1.Ok? {
        BooksMove(s, row.action, row.exDate, picks, |s.holdings|);
      }
      hide ProcessFirst, FirstRefusal, Ledger.Balance, NetOfFirst, BookSum, DriftSum, LedgerInvariant.IdsBelow,
          OwnAccount;
    }
  }

  /** Other ledger calls keep off the investment account. */
  predicate KeepsOff(s: State, c: Command) {
    c.Gl? ==> LeavesAlone(s.ledger, c.command, s.instrument.glAccount)
  }

  predicate CleanRun(s: State, commands: seq<Command>) {
    commands == [] ||
    (var before := commands[..|commands| - 1];
     CleanRun(s, before) && KeepsOff(Run(s, before), commands[|commands| - 1]))
  }

  function Shifts(s: State, commands: seq<Command>): int {
    if commands == [] then 0
    else
      var before := commands[..|commands| - 1];
      Shifts(s, before) + Shift(Run(s, before), commands[|commands| - 1])
  }

  lemma StepGap(s: State, c: Command)
    requires LedgerInvariant.IdsBelow(s.ledger) && OwnAccount(s.instrument) && KeepsOff(s, c)
    ensures var s' := Apply(s, c);
      LedgerInvariant.IdsBelow(s'.ledger) && s'.instrument == s.instrument && Gap(s') == Gap(s) + Shift(s, c)
  {
    match c
    case Process(id, picks) =>
      ProcessGap(s, id, picks);
      hide ProcessCorporateAction, Gap, Shift;
    case Gl(command) =>
      LeftAlone(s.ledger, command, s.instrument.glAccount);
      ApplyIds(s.ledger, command);
      hide Ledger.Balance, Ledger.Apply;
  }

  /** Over every run of actions mixed with ledger calls that keep off the account:
      the investment account stands off the book values by what it did at the
      start, the drifts of the actions completed and the postings of those that
      failed part way, and by nothing else. */
  lemma {:induction false} InvestmentAccount(s: State, commands: seq<Command>)
    requires LedgerInvariant.IdsBelow(s.ledger) && OwnAccount(s.instrument) && CleanRun(s, commands)
    ensures var s' := Run(s, commands);
      && LedgerInvariant.IdsBelow(s'.ledger) && s'.instrument == s.instrument
      && Gap(s') == Gap(s) + Shifts(s, commands)
  {
    hide LedgerInvariant.IdsBelow, OwnAccount, KeepsOff, Gap, Shift, Apply;
    if commands != [] {
      InvestmentAccount(s, commands[..|commands| - 1]);
      StepGap(Run(s, commands[..|commands| - 1]), commands[|commands| - 1]);
    }
  }

  // ---------- the ledger underneath ----------

  lemma ProcessOneLedger(ledger: Ledger.State, i: Instrument, h: Holding, a: Action, date: Ledger.Date, pick: nat)
    requires LedgerInvariant.Valid(ledger)
    ensures LedgerInvariant.Valid(ProcessOne(ledger, i, h, a, date, pick).0)
  {
    hide LedgerInvariant.Valid, CreateAndPost, EffectOf, Kind;
    if h.quantity > 0.0 && EffectOf(i, h, a).Ok? && EffectOf(i, h, a).value.lines.Some? {
      CreateAndPostValid(ledger, Ledger.JournalInput(Some(date), Kind(a), EffectOf(i, h, a).value.lines.value), pick);
    }
  }

  lemma {:induction false} ProcessFirstLedger(s: State, a: Action, date: Ledger.Date, picks: seq<nat>, n: nat)
    requires n <= |s.holdings| && LedgerInvariant.Valid(s.ledger)
    ensures LedgerInvariant.Valid(ProcessFirst(s, a, date, picks, n).0)
  {
    hide LedgerInvariant.Valid, ProcessOne;
    if n > 0 {
      ProcessFirstLedger(s, a, date, picks, n - 1);
      var (ledger, done) := ProcessFirst(s, a, date, picks, n - 1);
      if done.Ok? { ProcessOneLedger(ledger, s.instrument, s.holdings[n - 1], a, date, Nth(picks, n - 1)); }
    }
  }

  /** Whatever actions and ledger calls come, the ledger keeps its own invariant. */
  lemma {:induction false} LedgerStaysValid(s: State, commands: seq<Command>)
    requires LedgerInvariant.Valid(s.ledger)
    ensures LedgerInvariant.Valid(Run(s, commands).ledger)
  {
    hide LedgerInvariant.Valid, ProcessFirst, Ledger.Apply;
    if commands != [] {
      LedgerStaysValid(s, commands[..|commands| - 1]);
      var before := Run(s, commands[..|commands| - 1]);
      match commands[|commands| - 1]
      case Process(id, picks) =>
        if id in before.actions {
          ProcessFirstLedger(before, before.actions[id].action, before.actions[id].exDate, picks, |before.holdings|);
        }
      case Gl(command) => LedgerInvariant.ApplyValid(before.ledger, command);
    }
  }
}
