/** One asset over its life: what any sequence of successful charges leaves. */
module AssetHistory {
  import opened Basics
  import opened Calendar
  import opened FixedAssets

  function AmountSum(runs: seq<DepRun>): int {
    if runs == [] then 0 else AmountSum(runs[..|runs| - 1]) + runs[|runs| - 1].amount
  }

  predicate PeriodsIncrease(runs: seq<DepRun>) {
    forall i, j :: 0 <= i < j < |runs| ==> runs[i].period.Before(runs[j].period)
  }

  predicate ChargesPositive(runs: seq<DepRun>) {
    forall i :: 0 <= i < |runs| ==> runs[i].amount > 0
  }

  predicate ChargesNeverRise(runs: seq<DepRun>) {
    forall i, j :: 0 <= i < j < |runs| ==> runs[j].amount <= runs[i].amount
  }

  predicate BookFalls(runs: seq<DepRun>) {
    forall i, j :: 0 <= i < j < |runs| ==> runs[j].bookAfter < runs[i].bookAfter
  }

  /** The register balances: what is written off plus what is left is the cost. */
  predicate RegisterBalances(a: Asset) {
    && 0 < a.cost && 0 <= a.accum
    && AmountSum(a.runs) == a.accum
    && (!a.status.Disposed? ==> a.bookValue + a.accum == a.cost && Min(a.salvage, a.cost) <= a.bookValue)
  }

  /** The runs are in order, each charge is positive, each leaves less book value. */
  predicate RunsInOrder(a: Asset) {
    && PeriodsIncrease(a.runs) && ChargesPositive(a.runs) && BookFalls(a.runs)
    && a.lastPeriod == (if a.runs == [] then None else Some(a.runs[|a.runs| - 1].period))
    && (!a.status.Disposed? ==>
          a.bookValue == if a.runs == [] then a.cost else a.runs[|a.runs| - 1].bookAfter)
  }

  /** Every charge but the last left more than a kobo above salvage; so did the
      last if the asset is still active, and then it was not cut off. */
  predicate NotDoneBefore(a: Asset) {
    && (forall i :: 0 <= i < |a.runs| - 1 ==> a.salvage + 1 < a.runs[i].bookAfter)
    && (a.status.Active? && a.runs != [] ==>
          var last := a.runs[|a.runs| - 1];
          && a.salvage + 1 < last.bookAfter
          && last.amount == RawCharge(a, last.bookAfter + last.amount))
  }

  /** After its first `i + 1` charges a straight-line asset stands at cost less
      that many monthly charges, or at salvage if that is more. */
  predicate StraightLineBook(a: Asset) {
    a.depMethod.StraightLine? ==>
      forall i :: 0 <= i < |a.runs| ==> a.runs[i].bookAfter == Max(a.salvage, a.cost - (i + 1) * MonthlyCharge(a))
  }

  predicate ReducingCharges(a: Asset) {
    a.depMethod.ReducingBalance? ==> ChargesNeverRise(a.runs) && (a.runs != [] ==> 0.0 < a.annualRate)
  }

  predicate DoneAtSalvage(a: Asset) {
    a.status.FullyDepreciated? ==> a.runs != [] && a.bookValue <= a.salvage + 1
  }

  predicate Sound(a: Asset) {
    && RegisterBalances(a) && RunsInOrder(a) && NotDoneBefore(a)
    && StraightLineBook(a) && ReducingCharges(a) && DoneAtSalvage(a)
  }

  // ---------- one charge ----------

  /** A charge that goes through is at most the uncut charge and stops at salvage. */
  lemma ChargeBounds(a: Asset)
    requires 0 < Charge(a)
    ensures Charge(a) <= RawCharge(a, a.bookValue)
    ensures a.salvage <= a.bookValue - Charge(a) < a.bookValue
    ensures a.bookValue - Charge(a) == Max(a.salvage, a.bookValue - RawCharge(a, a.bookValue))
  {
  }

  lemma TimesMonotone(x: real, y: real, k: real)
    requires x <= y && 0.0 <= k
    ensures Product(x, k) <= Product(y, k)
  {
  }

  lemma PositiveRate(book: int, rate: real)
    requires 0 < book && 0 < ReducingCharge(book, rate)
    ensures 0.0 < rate
  {
  }

  lemma RateMonotone(low: int, high: int, rate: real)
    requires low <= high && 0.0 <= rate
    ensures ReducingCharge(low, rate) <= ReducingCharge(high, rate)
  {
    hide Round, Product;
    var k := rate / 100.0;
    TimesMonotone(low as real, high as real, k);
    RoundMonotone(Product(low as real, k) / 12.0, Product(high as real, k) / 12.0);
  }

  lemma ReducingStep(a: Asset, period: Month)
    requires RegisterBalances(a) && RunsInOrder(a) && NotDoneBefore(a) && ReducingCharges(a)
    requires a.status.Active? && 0 < Charge(a)
    ensures ReducingCharges(Charged(a, period))
  {
    hide ReducingCharge, MonthlyCharge, PeriodsIncrease, BookFalls, AmountSum;
    if a.depMethod.ReducingBalance? {
      ChargeBounds(a);
      if a.runs == [] {
        PositiveRate(a.cost, a.annualRate);
      } else {
        var last := a.runs[|a.runs| - 1];
        RateMonotone(last.bookAfter, last.bookAfter + last.amount, a.annualRate);
        assert Charge(a) <= last.amount;
      }
    }
  }

  lemma StraightLineStep(a: Asset, period: Month)
    requires Sound(a) && a.status.Active? && 0 < Charge(a)
    ensures StraightLineBook(Charged(a, period))
  {
    if a.depMethod.StraightLine? {
      ChargeBounds(a);
      var d, k := MonthlyCharge(a), |a.runs|;
      assert MonthlyCharge(Charged(a, period)) == d;
      assert a.bookValue == a.cost - k * d;
      assert a.cost - (k + 1) * d == a.bookValue - d;
    }
  }

  lemma RegisterStep(a: Asset, period: Month)
    requires RegisterBalances(a) && a.status.Active? && 0 < Charge(a)
    ensures RegisterBalances(Charged(a, period))
  {
    ChargeBounds(a);
    assert Charged(a, period).runs[..|a.runs|] == a.runs;
    hide Charge;
  }

  lemma OrderStep(a: Asset, period: Month)
    requires RunsInOrder(a) && a.status.Active? && 0 < Charge(a)
    requires a.lastPeriod.Some? ==> a.lastPeriod.value.Before(period)
    ensures RunsInOrder(Charged(a, period))
  {
    ChargeBounds(a);
    hide Charge;
  }

  lemma DoneStep(a: Asset, period: Month)
    requires RunsInOrder(a) && NotDoneBefore(a) && a.status.Active? && 0 < Charge(a)
    ensures NotDoneBefore(Charged(a, period)) && DoneAtSalvage(Charged(a, period))
  {
    ChargeBounds(a);
    hide ReducingCharge, MonthlyCharge, PeriodsIncrease, BookFalls, ChargesPositive;
  }

  /** Every successful charge keeps the asset sound. */
  lemma ChargedSound(a: Asset, period: Month)
    requires Sound(a) && a.status.Active? && 0 < Charge(a)
    requires a.lastPeriod.Some? ==> a.lastPeriod.value.Before(period)
    ensures Sound(Charged(a, period))
  {
    RegisterStep(a, period);
    OrderStep(a, period);
    DoneStep(a, period);
    StraightLineStep(a, period);
    ReducingStep(a, period);
  }

  lemma NewAssetSound(input: AssetInput, depMethod: DepMethod)
    requires 0 < input.cost
    ensures Sound(NewAsset(input, depMethod))
  {
  }

  lemma DisposedSound(a: Asset)
    requires Sound(a)
    ensures Sound(a.(status := Disposed, bookValue := 0))
  {
  }

  // ---------- how long it takes ----------

  lemma ShareBound(share: real, rounded: real, parts: real)
    requires share <= rounded + 0.5 && 0.0 <= parts
    ensures share * parts <= rounded * parts + 0.5 * parts
  {
    TimesMonotone(share, rounded + 0.5, parts);
    assert (rounded + 0.5) * parts == rounded * parts + 0.5 * parts;
  }

  lemma DoubleUp(total: int, product: int, parts: int)
    requires total as real <= product as real + 0.5 * parts as real
    ensures 2 * total <= 2 * product + parts
  {
  }

  /** A rounded share times the number of parts falls short of the whole by at
      most half a unit a part. */
  lemma RoundedShare(total: int, parts: int)
    requires 0 < parts
    ensures 2 * total <= 2 * (parts * Round(total as real / parts as real)) + parts
  {
    hide Round;
    var n, r: real := parts as real, Round(total as real / parts as real) as real;
    var share := total as real / n;
    assert share * n == total as real;
    ShareBound(share, r, n);
    assert total as real <= r * n + 0.5 * n;
    assert r * n == (parts * Round(total as real / parts as real)) as real;
    DoubleUp(total, parts * Round(total as real / parts as real), parts);
  }

  /** A straight-line asset takes another charge exactly while more than a kobo
      remains above salvage (for the first charge: while anything remains), if
      the rounded charge is positive at all. */
  lemma StraightLineTakesAnother(a: Asset)
    requires Sound(a) && a.depMethod.StraightLine? && !a.status.Disposed?
    ensures a.status.Active? && 0 < Charge(a) <==>
              && 0 < MonthlyCharge(a)
              && (if a.runs == [] then a.status.Active? && a.salvage < a.cost
                  else a.salvage + 1 < a.cost - |a.runs| * MonthlyCharge(a))
  {
  }

  lemma BookAfter(a: Asset, i: nat)
    requires Sound(a) && a.depMethod.StraightLine? && i < |a.runs|
    ensures a.runs[i].bookAfter == Max(a.salvage, a.cost - (i + 1) * MonthlyCharge(a))
    ensures i < |a.runs| - 1 ==> a.salvage + 1 < a.runs[i].bookAfter
    ensures i == |a.runs| - 1 && a.status.Active? ==> a.salvage + 1 < a.runs[i].bookAfter
  {
    hide MonthlyCharge, RunsInOrder, RegisterBalances, ReducingCharges, RawCharge;
  }

  lemma SalvageReached(cost: int, salvage: int, life: int, d: int)
    requires 2 * (cost - salvage) <= 2 * (life * d) + life && life <= 2 * d
    ensures cost - (life + 1) * d <= salvage
  {
    assert (life + 1) * d == life * d + d;
  }

  /** When the charge is at least half a kobo for each month of life, the asset
      is written down within its life plus one month. */
  lemma WrittenDownInTime(a: Asset)
    requires Sound(a) && a.depMethod.StraightLine? && 0 < a.life
    requires a.life <= 2 * MonthlyCharge(a)
    ensures |a.runs| <= a.life + 1
    ensures |a.runs| == a.life + 1 ==> a.runs[a.life].bookAfter == a.salvage && !a.status.Active?
  {
    RoundedShare(a.cost - a.salvage, a.life);
    SalvageReached(a.cost, a.salvage, a.life, MonthlyCharge(a));
    hide Sound, MonthlyCharge;
    if a.life + 1 <= |a.runs| { BookAfter(a, a.life); }
  }
}
