/** What a corporate action leaves of each holding, said from the announcement:
    units, book value and money, without the rounding helpers of the service. */
module CorporateOutcomes {
  import opened Basics
  import Ledger
  import LedgerInvariant
  import Postings
  import opened CorporateActions

  predicate Near(x: real, y: real, tolerance: real) {
    -tolerance <= x - y <= tolerance
  }

  /** A holding before and after an action. Units are kept to two decimals and
      money to the kobo. */
  predicate AsAnnounced(h: Holding, h': Holding, a: Action) {
    match a
    case CashDividend(perUnit) => CashPaid(h, h', perUnit)
    case CouponPayment(perUnit) => CashPaid(h, h', perUnit)
    case StockSplit(ratio) =>
      && 0.0 < ratio
      && Near(h'.quantity, Product(h.quantity, ratio), 0.005) && Near(h'.avgCost, h.avgCost / ratio, 0.5)
      && h'.book == h.book && h'.fundAum == h.fundAum
    case BonusShare(ratio) => 0.0 < ratio && SharesGiven(h, h', ratio)
    case StockDividend(ratio) => SharesGiven(h, h', ratio)
    case RightsIssue(ratio, price) =>
      var entitled := Product(h.quantity, ratio).Floor;
      && 0.0 < ratio && 0.0 < price
      && Near(h'.quantity, h.quantity + entitled as real, 0.005)
      && Near((h'.book - h.book) as real, Product(entitled as real, price), 0.5)
      && (entitled == 0 ==> h' == h) && (entitled > 0 ==> Tight(h'))
      && h'.fundAum == h.fundAum
    case Maturity =>
      && h'.quantity == 0.0 && h'.book == 0 && h'.avgCost == h.avgCost
      && Near((h'.fundAum - h.fundAum) as real, Product(h.quantity, h.avgCost), 0.5)
  }

  /** Units and book value stay, and nine tenths of the gross reach the fund. */
  predicate CashPaid(h: Holding, h': Holding, perUnit: real) {
    && h' == h.(fundAum := h'.fundAum)
    && Near((h'.fundAum - h.fundAum) as real, 0.9 * Product(h.quantity, perUnit), 0.95)
  }

  /** Units are added in the ratio, and the book value is spread over them all. */
  predicate SharesGiven(h: Holding, h': Holding, ratio: real) {
    && Near(h'.quantity, h.quantity + Product(h.quantity, ratio), 0.01)
    && h'.book == h.book && h'.fundAum == h.fundAum && Tight(h')
  }

  lemma Round2Near(x: real)
    ensures Near(Round2(x), x, 0.005)
  {
    hide Round;
  }

  lemma EntitledIsFloor(h: Holding, ratio: real)
    requires 0.0 <= h.quantity && 0.0 <= ratio
    ensures Entitled(h, ratio) == Product(h.quantity, ratio).Floor && 0 <= Entitled(h, ratio)
  {
    var units := Product(h.quantity, ratio);
    assert 0.0 <= units;
  }

  lemma RightsPaid(h: Holding, ratio: real, price: real)
    requires Entitled(h, ratio) == Product(h.quantity, ratio).Floor
    ensures Near(RightsCost(h, ratio, price) as real, Product(Product(h.quantity, ratio).Floor as real, price), 0.5)
  {
  }

  lemma CashReaches(h: Holding, perUnit: real)
    ensures var gross := GrossCash(h, perUnit);
      Near((gross - WithheldOn(gross)) as real, 0.9 * Product(h.quantity, perUnit), 0.95)
  {
    var exact := Product(h.quantity, perUnit);
    var gross := GrossCash(h, perUnit);
    assert Near(gross as real, exact, 0.5);
    assert Near(WithheldOn(gross) as real, gross as real * 0.10, 0.5);
  }

  lemma SplitUnits(h: Holding, ratio: real)
    requires 0.0 < ratio
    ensures var h' := SplitOf(h, ratio);
      Near(h'.quantity, Product(h.quantity, ratio), 0.005) && Near(h'.avgCost, h.avgCost / ratio, 0.5)
  {
    Round2Near(Product(h.quantity, ratio));
    hide Round2;
  }

  lemma GivenUnits(h: Holding, ratio: real)
    ensures Near(Round2(h.quantity + Scaled(h, ratio)), h.quantity + Product(h.quantity, ratio), 0.01)
  {
    Round2Near(Product(h.quantity, ratio));
    Round2Near(h.quantity + Scaled(h, ratio));
    hide Round2;
  }

  predicate Announced(i: Instrument, h: Holding, a: Action) {
    EffectOf(i, h, a).Ok? ==> AsAnnounced(h, EffectOf(i, h, a).value.after, a)
  }

  lemma CashAnnounced(i: Instrument, h: Holding, perUnit: real)
    ensures Announced(i, h, CashDividend(perUnit)) && Announced(i, h, CouponPayment(perUnit))
  {
    hide Product, GrossCash, WithheldOn, CashLines;
    CashReaches(h, perUnit);
    hide Near;
  }

  lemma SplitAnnounced(i: Instrument, h: Holding, ratio: real)
    ensures Announced(i, h, StockSplit(ratio))
  {
    hide Product, SplitOf;
    if 0.0 < ratio {
      SplitUnits(h, ratio);
      SplitKeeps(h, ratio);
    }
    hide Near;
  }

  lemma GivenAnnounced(i: Instrument, h: Holding, ratio: real)
    ensures Announced(i, h, BonusShare(ratio)) && Announced(i, h, StockDividend(ratio))
  {
    hide Product, Tight, Average, Round2, Scaled, Near;
    if EffectOf(i, h, BonusShare(ratio)).Ok? { UnitsSet(i, h, BonusShare(ratio)); }
    if EffectOf(i, h, StockDividend(ratio)).Ok? { UnitsSet(i, h, StockDividend(ratio)); }
    GivenUnits(h, ratio);
  }

  lemma RightsAnnounced(i: Instrument, h: Holding, ratio: real, price: real)
    requires 0.0 < h.quantity
    ensures Announced(i, h, RightsIssue(ratio, price))
  {
    hide Product, Tight, Average, Round2, Entitled, RightsCost;
    var a := RightsIssue(ratio, price);
    if EffectOf(i, h, a).Ok? {
      UnitsSet(i, h, a);
      EntitledIsFloor(h, ratio);
      RightsPaid(h, ratio, price);
      Round2Near(h.quantity + Entitled(h, ratio) as real);
      var entitled := Entitled(h, ratio);
      NothingTimes(price);
    }
  }

  lemma NothingTimes(price: real)
    ensures Product(0.0, price) == 0.0
  {
  }

  lemma MaturityAnnounced(i: Instrument, h: Holding)
    ensures Announced(i, h, Maturity)
  {
    hide Product, Principal;
    PrincipalNearWorth(h);
  }

  /** The effect the service works out is the one announced. */
  lemma EffectAsAnnounced(i: Instrument, h: Holding, a: Action)
    requires 0.0 < h.quantity && EffectOf(i, h, a).Ok?
    ensures AsAnnounced(h, EffectOf(i, h, a).value.after, a)
  {
    hide EffectOf, AsAnnounced;
    match a
    case CashDividend(perUnit) => CashAnnounced(i, h, perUnit);
    case CouponPayment(perUnit) => CashAnnounced(i, h, perUnit);
    case StockSplit(ratio) => SplitAnnounced(i, h, ratio);
    case BonusShare(ratio) => GivenAnnounced(i, h, ratio);
    case StockDividend(ratio) => GivenAnnounced(i, h, ratio);
    case RightsIssue(ratio, price) => RightsAnnounced(i, h, ratio, price);
    case Maturity => MaturityAnnounced(i, h);
  }

  lemma SplitKeeps(h: Holding, ratio: real)
    requires ratio != 0.0
    ensures SplitOf(h, ratio).book == h.book && SplitOf(h, ratio).fundAum == h.fundAum
  {
  }

  lemma PrincipalNearWorth(h: Holding)
    ensures Near(Principal(h) as real, Product(h.quantity, h.avgCost), 0.5)
  {
  }

  lemma OneAsAnnounced(ledger: Ledger.State, i: Instrument, h: Holding, a: Action, date: Ledger.Date, pick: nat)
    requires ProcessOne(ledger, i, h, a, date, pick).1.Ok?
    ensures var h' := ProcessOne(ledger, i, h, a, date, pick).1.value;
      if h.quantity <= 0.0 then h' == h else AsAnnounced(h, h', a)
  {
    hide EffectOf, Kind, AsAnnounced;
    if 0.0 < h.quantity && EffectOf(i, h, a).Ok? { EffectAsAnnounced(i, h, a); }
  }

  lemma {:induction false} FirstAsAnnounced(s: State, a: Action, date: Ledger.Date, picks: seq<nat>, n: nat, j: nat)
    requires j < n <= |s.holdings| && ProcessFirst(s, a, date, picks, n).1.Ok?
    ensures var done := ProcessFirst(s, a, date, picks, n).1.value;
      && |done| == n
      && var h, h' := s.holdings[j], done[j];
         if h.quantity <= 0.0 then h' == h else AsAnnounced(h, h', a)
  {
    hide ProcessOne, AsAnnounced;
    var (ledger, done) := ProcessFirst(s, a, date, picks, n - 1);
    FirstCount(s, a, date, picks, n - 1);
    if j < n - 1 {
      FirstAsAnnounced(s, a, date, picks, n - 1, j);
    } else {
      OneAsAnnounced(ledger, s.instrument, s.holdings[j], a, date, Nth(picks, j));
    }
  }

  lemma {:induction false} FirstCount(s: State, a: Action, date: Ledger.Date, picks: seq<nat>, n: nat)
    requires n <= |s.holdings| && ProcessFirst(s, a, date, picks, n).1.Ok?
    ensures |ProcessFirst(s, a, date, picks, n).1.value| == n
  {
    hide ProcessOne;
    if n > 0 { FirstCount(s, a, date, picks, n - 1); }
  }

  /** When an action completes, every holding of the instrument stands as the
      announcement says; one without units stands as it did. */
  lemma ProcessedAsAnnounced(s: State, id: nat, picks: seq<nat>, j: nat)
    requires ProcessCorporateAction(s, id, picks).result.Ok? && j < |s.holdings|
    ensures var holdings := ProcessCorporateAction(s, id, picks).state.holdings;
      && |holdings| == |s.holdings|
      && var h, h' := s.holdings[j], holdings[j];
         if h.quantity <= 0.0 then h' == h else AsAnnounced(h, h', s.actions[id].action)
  {
    hide ProcessFirst, AsAnnounced;
    FirstAsAnnounced(s, s.actions[id].action, s.actions[id].exDate, picks, |s.holdings|, j);
  }

  /** The journal of an announcement: cash into the investment account against
      income, a tenth of it out of income into 2201; rights and principal against
      the bank, 1110. What the journal says changes hands is what the holding and
      the fund show. */
  lemma JournalAsAnnounced(i: Instrument, h: Holding, a: Action)
    requires 0.0 < h.quantity && EffectOf(i, h, a).Ok?
    ensures var effect := EffectOf(i, h, a).value;
      var paid, moved := effect.after.fundAum - h.fundAum, effect.after.book - h.book;
      match a
      case CashDividend(perUnit) => CashJournal(i, effect.lines, Product(h.quantity, perUnit), paid)
      case CouponPayment(perUnit) => CashJournal(i, effect.lines, Product(h.quantity, perUnit), paid)
      case RightsIssue(ratio, _) =>
        effect.lines == (if Product(h.quantity, ratio).Floor == 0 then None
                         else Some([Ledger.Line(i.glAccount, moved, 0), Ledger.Line("1110", 0, moved)]))
      case Maturity => effect.lines == Some([Ledger.Line("1110", paid, 0), Ledger.Line(i.glAccount, 0, paid)])
      case _ => effect.lines.None?
  {
    hide Product, Average, Round2, Scaled, Entitled, RightsCost, GrossCash, WithheldOn, Principal;
    match a
    case CashDividend(perUnit) => GrossAndWithheld(h, perUnit);
    case CouponPayment(perUnit) => GrossAndWithheld(h, perUnit);
    case RightsIssue(ratio, _) => EntitledIsFloor(h, ratio);
    case _ =>
  }

  predicate CashJournal(i: Instrument, lines: Option<seq<Ledger.Line>>, due: real, paid: int) {
    && lines.Some? && |lines.value| == 4
    && var gross, wht := lines.value[0].debit, lines.value[3].credit;
       && Near(gross as real, due, 0.5) && Near(wht as real, gross as real / 10.0, 0.5) && paid == gross - wht
       && lines.value == [Ledger.Line(i.glAccount, gross, 0), Ledger.Line(i.incomeAccount, 0, gross),
                          Ledger.Line(i.incomeAccount, wht, 0), Ledger.Line("2201", 0, wht)]
  }

  lemma GrossAndWithheld(h: Holding, perUnit: real)
    ensures Near(GrossCash(h, perUnit) as real, Product(h.quantity, perUnit), 0.5)
    ensures Near(WithheldOn(GrossCash(h, perUnit)) as real, GrossCash(h, perUnit) as real / 10.0, 0.5)
  {
    var gross := GrossCash(h, perUnit);
    assert gross as real * 0.10 == gross as real / 10.0;
  }

  // ---------- the day of the journals ----------

  /** Beyond the journals there were, only ones of this date and type. */
  ghost predicate AddsOnly(st: Ledger.State, st': Ledger.State, date: Ledger.Date, kind: string) {
    && LedgerInvariant.IdsBelow(st') && st.nextId <= st'.nextId
    && (forall i :: i in st.journals ==> i in st'.journals && st'.journals[i] == st.journals[i])
    && (forall i :: i in st'.journals && i !in st.journals ==>
          st.nextId <= i && st'.journals[i].date == date && st'.journals[i].kind == kind)
  }

  lemma PostingAdds(st: Ledger.State, input: Ledger.JournalInput, pick: nat)
    requires LedgerInvariant.IdsBelow(st) && input.date.Some?
    ensures AddsOnly(st, Postings.CreateAndPost(st, input, pick).state, input.date.value, input.kind)
  {
    hide Ledger.DebitSum, Ledger.CreditSum, Ledger.FirstFault, Ledger.PeriodStatusForDate;
  }

  lemma OneAdds(ledger: Ledger.State, i: Instrument, h: Holding, a: Action, date: Ledger.Date, pick: nat)
    requires LedgerInvariant.IdsBelow(ledger)
    ensures AddsOnly(ledger, ProcessOne(ledger, i, h, a, date, pick).0, date, Kind(a))
  {
    hide EffectOf, Postings.CreateAndPost, Kind;
    if 0.0 < h.quantity && EffectOf(i, h, a).Ok? && EffectOf(i, h, a).value.lines.Some? {
      var input := Ledger.JournalInput(Some(date), Kind(a), EffectOf(i, h, a).value.lines.value);
      PostingAdds(ledger, input, pick);
    }
  }

  lemma AddsTransitive(a: Ledger.State, b: Ledger.State, c: Ledger.State, date: Ledger.Date, kind: string)
    requires AddsOnly(a, b, date, kind) && AddsOnly(b, c, date, kind)
    ensures AddsOnly(a, c, date, kind)
  {
  }

  lemma {:induction false} FirstAdds(s: State, a: Action, date: Ledger.Date, picks: seq<nat>, n: nat)
    requires n <= |s.holdings| && LedgerInvariant.IdsBelow(s.ledger)
    ensures AddsOnly(s.ledger, ProcessFirst(s, a, date, picks, n).0, date, Kind(a))
  {
    hide ProcessOne, Kind;
    if n > 0 {
      FirstAdds(s, a, date, picks, n - 1);
      var (ledger, done) := ProcessFirst(s, a, date, picks, n - 1);
      if done.Ok? {
        OneAdds(ledger, s.instrument, s.holdings[n - 1], a, date, Nth(picks, n - 1));
        var ledger' := ProcessOne(ledger, s.instrument, s.holdings[n - 1], a, date, Nth(picks, n - 1)).0;
        AddsTransitive(s.ledger, ledger, ledger', date, Kind(a));
      }
    }
  }

  /** Whether an action completes or fails, every journal it leaves in the ledger is
      of its ex-date and of its type, and those there were are as they were. */
  lemma BookedOnExDate(s: State, id: nat, picks: seq<nat>)
    requires LedgerInvariant.IdsBelow(s.ledger) && id in s.actions
    ensures var row := s.actions[id];
      AddsOnly(s.ledger, ProcessCorporateAction(s, id, picks).state.ledger, row.exDate, Kind(row.action))
  {
    hide ProcessFirst, Kind;
    FirstAdds(s, s.actions[id].action, s.actions[id].exDate, picks, |s.holdings|);
  }
}
