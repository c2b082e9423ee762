/** What each asset call does, in whole kobo and without the arithmetic helpers of
    the service: what is charged, what is registered, what every account shows. */
module AssetOutcomes {
  import opened Basics
  import opened Calendar
  import Ledger
  import LedgerInvariant
  import opened Postings
  import opened FixedAssets
  import opened AssetHistory
  import opened AssetLedger

  // ---------- the size of a charge ----------

  lemma ShareNear(total: int, parts: int, share: int)
    requires parts != 0
    requires -0.5 <= share as real - total as real / parts as real <= 0.5
    ensures 2 * Abs(parts * share - total) <= Abs(parts)
  {
    var n, t, r := parts as real, total as real, share as real;
    hide Product;
    ProductNear(n, r, t / n);
    ProductOfQuotient(n, t);
    WholeProduct(parts, share);
  }

  lemma WholeProduct(x: int, y: int)
    ensures Product(x as real, y as real) == (x * y) as real
  {
  }

  /** Life times the straight-line charge is the depreciable cost, to half a kobo
      for each month of life. */
  lemma MonthlyShare(a: Asset)
    ensures 2 * Abs(a.life * MonthlyCharge(a) - (a.cost - a.salvage)) <= Abs(a.life)
  {
    hide Round;
    ShareNear(a.cost - a.salvage, a.life, MonthlyCharge(a));
  }

  /** Twelve hundred times the reducing-balance charge is the book value times the
      yearly percentage, to half a kobo for each. */
  lemma ReducingShare(book: int, rate: real)
    ensures -600.0 <= (1200 * ReducingCharge(book, rate)) as real - Product(book as real, rate) <= 600.0
  {
    hide Round;
    ProductOfHundredth(book as real, rate);
  }

  lemma ProductOfHundredth(x: real, rate: real)
    ensures Product(x, rate / 100.0) == Product(x, rate) / 100.0
  {
  }

  /** The charge a month calls for, to the rounding: the straight-line share of the
      depreciable cost, or a twelfth of the yearly percentage of book value. */
  predicate CalledFor(a: Asset, charge: int) {
    match a.depMethod
    case StraightLine => 2 * Abs(a.life * charge - (a.cost - a.salvage)) <= Abs(a.life)
    case ReducingBalance => -600.0 <= (1200 * charge) as real - Product(a.bookValue as real, a.annualRate) <= 600.0
  }

  lemma RawCalledFor(a: Asset)
    ensures CalledFor(a, RawCharge(a, a.bookValue))
  {
    hide MonthlyCharge, ReducingCharge, Product;
    MonthlyShare(a);
    ReducingShare(a.bookValue, a.annualRate);
  }

  /** A successful depreciation takes the same positive amount off the book value
      and onto the accumulated depreciation. The amount is what the month calls for,
      and if that would go below salvage, what is left above salvage. */
  lemma ChargedAsCalledFor(s: State, id: nat, period: Month, pick: nat)
    requires DepreciateAsset(s, id, period, pick).result.Ok?
    ensures var out := DepreciateAsset(s, id, period, pick);
      && id in s.assets && id in out.state.assets
      && var a, a', run := s.assets[id], out.state.assets[id], out.result.value;
         && a.status.Active? && 0 < run.amount
         && run.amount == a.bookValue - a'.bookValue == a'.accum - a.accum
         && run.period == period && run.bookAfter == a'.bookValue
         && a.salvage <= a'.bookValue
         && (exists called :: CalledFor(a, called)
               && (if a.bookValue - called < a.salvage then a'.bookValue == a.salvage else run.amount == called))
         && a' == a.(bookValue := a'.bookValue, accum := a'.accum, status := a'.status,
                     lastPeriod := Some(period), runs := a.runs + [run])
         && (a'.status.FullyDepreciated? <==> a'.bookValue <= a.salvage + 1)
         && (a'.status.Active? || a'.status.FullyDepreciated?)
         && out.state.assets == s.assets[id := a']
  {
    var a := s.assets[id];
    RawCalledFor(a);
    ChargeBounds(a);
    hide CalledFor, CreateAndPost, RawCharge;
    assert CalledFor(a, RawCharge(a, a.bookValue));
  }

  /** So for a straight-line asset with a life, a charge that leaves more than
      salvage is the depreciable cost over the life, to half a kobo a month. */
  lemma StraightLineShare(s: State, id: nat, period: Month, pick: nat)
    requires DepreciateAsset(s, id, period, pick).result.Ok?
    ensures var a, c := s.assets[id], DepreciateAsset(s, id, period, pick).result.value.amount;
      var left := DepreciateAsset(s, id, period, pick).state.assets[id].bookValue;
      && (a.depMethod.StraightLine? && 0 < a.life && a.salvage < left ==>
            2 * Abs(a.life * c - (a.cost - a.salvage)) <= a.life)
      && (a.depMethod.ReducingBalance? && a.salvage < left ==>
            -600.0 <= (1200 * c) as real - Product(a.bookValue as real, a.annualRate) <= 600.0)
      && (left == a.salvage ==> c == a.bookValue - a.salvage)
  {
    ChargedAsCalledFor(s, id, period, pick);
    hide DepreciateAsset, Product;
  }

  /** Over its whole history a straight-line asset follows one charge, and that
      charge is the depreciable cost over the life, to half a kobo a month. */
  lemma StraightLineHistory(periods: seq<Ledger.Period>, commands: seq<Command>, id: nat)
    requires id in Run(Init(periods), commands).assets
    ensures var a := Run(Init(periods), commands).assets[id];
      a.depMethod.StraightLine? ==> exists d :: FollowsCharge(a, d)
  {
    AssetAfterAnyRun(periods, commands, id);
    var a := Run(Init(periods), commands).assets[id];
    hide Run, MonthlyCharge;
    MonthlyShare(a);
    assert a.depMethod.StraightLine? ==> FollowsCharge(a, MonthlyCharge(a));
  }

  predicate FollowsCharge(a: Asset, d: int) {
    && 2 * Abs(a.life * d - (a.cost - a.salvage)) <= Abs(a.life)
    && forall k :: 0 <= k < |a.runs| ==> a.runs[k].bookAfter == Max(a.salvage, a.cost - (k + 1) * d)
  }

  // ---------- what reaches the ledger ----------

  /** A charge debits the expense account and credits accumulated depreciation, and
      moves no other account; its journal is dated the last day of the month. A refused
      one moves none. */
  lemma ChargePosted(s: State, id: nat, period: Month, pick: nat, account: string)
    requires LedgerInvariant.IdsBelow(s.ledger) && id in s.assets
    ensures var a, out := s.assets[id], DepreciateAsset(s, id, period, pick);
      var c := if out.result.Ok? then out.result.value.amount else 0;
      && Ledger.Balance(out.state.ledger, account) - Ledger.Balance(s.ledger, account)
         == (if a.expenseAccount == account then c else 0) - (if a.accumAccount == account then c else 0)
      && (out.result.Ok? ==> BookedNow(s.ledger, out.state.ledger, LastDay(period), "Depreciation"))
  {
    hide Charge, Ledger.Balance, CreateAndPost, LedgerInvariant.IdsBelow, BookedNow;
    var a := s.assets[id];
    var input := Ledger.JournalInput(Some(LastDay(period)), "Depreciation", ChargeLines(a));
    CreateAndPostEffect(s.ledger, input, pick, account);
    Ledger.SumsOfPair(input.lines[0], input.lines[1], account);
    if CreateAndPost(s.ledger, input, pick).result.Ok? { PostedAsGiven(s.ledger, input, pick); }
  }

  /** A disposal clears cost and accumulated depreciation, takes the proceeds into
      the bank, credits a gain to 4090 and debits a loss to 5803; the asset is then
      disposed of and carries nothing. Its journal is of the date given. A refused one moves no account. */
  lemma DisposalPosted(s: State, id: nat, date: Option<Ledger.Date>, proceeds: int, bank: string, pick: nat,
      account: string)
    requires LedgerInvariant.IdsBelow(s.ledger) && id in s.assets
    ensures var a, out := s.assets[id], DisposeAsset(s, id, date, proceeds, bank, pick);
      var change := Ledger.Balance(out.state.ledger, account) - Ledger.Balance(s.ledger, account);
      var gain := proceeds - a.bookValue;
      && (out.result.Err? ==> change == 0 && out.state.assets == s.assets)
      && (out.result.Ok? ==>
            && out.state.assets == s.assets[id := a.(status := Disposed, bookValue := 0)]
            && date.Some? && BookedNow(s.ledger, out.state.ledger, date.value, "Asset Disposal")
            && change == (if a.accumAccount == account then a.accum else 0)
                         - (if a.assetAccount == account then a.cost else 0)
                         + (if bank == account && 0 < proceeds then proceeds else 0)
                         - (if "4090" == account && 0 < gain then gain else 0)
                         + (if "5803" == account && gain < 0 then -gain else 0))
  {
    hide Ledger.Balance, CreateAndPost, DisposalLines, Ledger.Net, Ledger.DebitSum, Ledger.CreditSum, BookedNow;
    var a := s.assets[id];
    var input := Ledger.JournalInput(date, "Asset Disposal", DisposalLines(a, proceeds, bank));
    CreateAndPostEffect(s.ledger, input, pick, account);
    DisposalSums(a, proceeds, bank, account);
    AcceptedExactly(s.ledger, input, pick);
    hide Acceptable;
    if CreateAndPost(s.ledger, input, pick).result.Ok? { PostedAsGiven(s.ledger, input, pick); }
  }

  // ---------- what is registered ----------

  /** The accounts and the life of the five categories; any other category brings
      no accounts and a life of sixty months. */
  lemma CategoryTable(category: string)
    ensures CodesOf("Computer Equipment") == CategoryCodes("1301", "1310", "5600", 36)
    ensures CodesOf("Furniture and Fittings") == CategoryCodes("1302", "1311", "5601", 60)
    ensures CodesOf("Office Equipment") == CategoryCodes("1303", "1312", "5602", 60)
    ensures CodesOf("Motor Vehicles") == CategoryCodes("1304", "1313", "5603", 60)
    ensures CodesOf("Software Licences") == CategoryCodes("1320", "1321", "5604", 36)
    ensures category !in ["Computer Equipment", "Furniture and Fittings", "Office Equipment", "Motor Vehicles",
                          "Software Licences"] ==>
              CodesOf(category) == CategoryCodes("", "", "", 60)
  {
  }

  /** An asset is registered exactly when it has a name, a category, a positive cost,
      a date and a known method. It starts at cost, with what was given, and with
      what its category brings where nothing was; the purchase is booked on its date,
      out of 1110 unless another account was named. */
  lemma RegisteredAsGiven(s: State, input: AssetInput, account: string)
    requires LedgerInvariant.IdsBelow(s.ledger)
    ensures var out := CreateAsset(s, input);
      && (out.result.Ok? <==>
            && input.name != "" && input.category != "" && 0 < input.cost && input.acquired.Some?
            && input.depMethod in {"", "straight_line", "reducing_balance"})
      && (out.result.Err? ==> out.state == s)
      && (out.result.Ok? ==>
            && out.result.value == s.nextId && s.nextId in out.state.assets
            && var a, codes := out.state.assets[s.nextId], CodesOf(input.category);
               var paidFrom := if input.paidFrom == "" then "1110" else input.paidFrom;
               && out.state.assets == s.assets[s.nextId := a] && out.state.nextId == s.nextId + 1
               && a.cost == a.bookValue == input.cost && a.accum == 0 && a.salvage == input.salvage
               && a.status.Active? && a.runs == [] && a.lastPeriod.None?
               && (a.depMethod.ReducingBalance? <==> input.depMethod == "reducing_balance")
               && a.annualRate == input.annualRate
               && a.life == (if input.lifeMonths == 0 then codes.life else input.lifeMonths)
               && a.assetAccount == (if input.assetAccount == "" then codes.asset else input.assetAccount)
               && a.accumAccount == (if input.accumAccount == "" then codes.accum else input.accumAccount)
               && a.expenseAccount == (if input.expenseAccount == "" then codes.expense else input.expenseAccount)
               && s.ledger.nextId in out.state.ledger.journals
               && out.state.ledger.journals[s.ledger.nextId].date == input.acquired.value
               && Ledger.Balance(out.state.ledger, account) - Ledger.Balance(s.ledger, account)
                  == (if a.assetAccount == account then input.cost else 0)
                     - (if paidFrom == account then input.cost else 0))
  {
    hide CodesOf, Ledger.Balance;
    if CreateAsset(s, input).result.Ok? {
      var a := NewAsset(input, ParseMethod(input.depMethod).value);
      AcquisitionEffect(s.ledger, input.acquired.value, a.assetAccount, PaidFrom(input), a.cost, account);
    }
  }
}
