/** Fixed assets as the service that updates its rows in place and posts through
    the ledger service. */
module AssetServices {
  import opened Basics
  import opened Calendar
  import L = Ledger
  import A = FixedAssets
  import opened LedgerServices

  class AssetService {
    const gl: LedgerService
    var assets: map<nat, A.Asset>
    var nextId: nat

    function State(): A.State
      reads this, gl
    {
      A.State(gl.State(), assets, nextId)
    }

    constructor (gl: LedgerService)
      ensures this.gl == gl && State() == A.State(gl.State(), map[], 0)
    {
      this.gl := gl;
      assets, nextId := map[], 0;
    }

    method CreateAsset(input: A.AssetInput) returns (r: Result<nat>)
      modifies this, gl
      ensures A.CreateAsset(old(State()), input) == Outcome(State(), r)
    {
      if input.name == "" || input.category == "" || input.cost <= 0 {
        return Err(InvalidInput);
      }
      if input.acquired.None? {
        return Err(InvalidDate);
      }
      var depMethod := A.ParseMethod(input.depMethod);
      if depMethod.None? {
        return Err(InvalidInput);
      }
      var codes := A.CodesOf(input.category);
      var assetAccount := if input.assetAccount == "" then codes.asset else input.assetAccount;
      var accumAccount := if input.accumAccount == "" then codes.accum else input.accumAccount;
      var expenseAccount := if input.expenseAccount == "" then codes.expense else input.expenseAccount;
      var paidFrom := if input.paidFrom == "" then "1110" else input.paidFrom;
      var posted := gl.PostAcquisition(input.acquired.value, assetAccount, paidFrom, input.cost);
      assets := assets[nextId := A.Asset(
        assetAccount, accumAccount, expenseAccount, input.cost, input.salvage,
        if input.lifeMonths == 0 then codes.life else input.lifeMonths,
        depMethod.value, input.annualRate, A.Active, input.cost, 0, None, [])];
      nextId := nextId + 1;
      return Ok(nextId - 1);
    }

    method DepreciateAsset(id: nat, period: Month, pick: nat) returns (r: Result<A.DepRun>)
      modifies this, gl
      ensures A.DepreciateAsset(old(State()), id, period, pick) == Outcome(State(), r)
    {
      if id !in assets {
        return Err(NotFound);
      }
      var a := assets[id];
      if !a.status.Active? {
        return Err(WrongStatus);
      }
      if a.lastPeriod.Some? && !a.lastPeriod.value.Before(period) {
        return Err(AlreadyDone);
      }
      var amount := A.RawCharge(a, a.bookValue);
      var book := a.bookValue - amount;
      if book < a.salvage {
        amount := a.bookValue - a.salvage;
        book := a.salvage;
      }
      if amount <= 0 {
        return Err(NothingToCharge);
      }
      var posted := gl.CreateAndPost(
        L.JournalInput(Some(LastDay(period)), "Depreciation",
                       [L.Line(a.expenseAccount, amount, 0), L.Line(a.accumAccount, 0, amount)]), pick);
      if posted.Err? {
        return Err(posted.error);
      }
      var run := A.DepRun(period, amount, book);
      var status := if book <= a.salvage + 1 then A.FullyDepreciated else A.Active;
      assets := assets[id := a.(bookValue := book, accum := a.accum + amount, lastPeriod := Some(period),
                                status := status, runs := a.runs + [run])];
      return Ok(run);
    }

    /** Depreciate the listed assets in turn; a refusal does not stop the rest. */
    method DepreciateAll(ids: seq<nat>, period: Month, picks: seq<nat>) returns (runs: seq<A.DepRun>)
      modifies this, gl
      ensures A.DepreciateEach(old(State()), ids, period, picks) == (State(), runs)
    {
      runs := [];
      for i := 0 to |ids|
        invariant A.DepreciateEach(old(State()), ids[..i], period, picks) == (State(), runs)
      {
        var r := DepreciateAsset(ids[i], period, Nth(picks, i));
        assert ids[..i + 1][..i] == ids[..i];
        if r.Err? {
          continue;
        }
        runs := runs + [r.value];
      }
      assert ids[..|ids|] == ids;
    }

    method DisposeAsset(id: nat, date: Option<L.Date>, proceeds: int, bank: string, pick: nat) returns (r: Result<()>)
      modifies this, gl
      ensures A.DisposeAsset(old(State()), id, date, proceeds, bank, pick) == Outcome(State(), r)
    {
      if id !in assets {
        return Err(NotFound);
      }
      var a := assets[id];
      if a.status.Disposed? {
        return Err(AlreadyDone);
      }
      var gain := proceeds - a.bookValue;
      var lines := [L.Line(a.accumAccount, a.accum, 0), L.Line(a.assetAccount, 0, a.cost)];
      if proceeds > 0 {
        lines := lines + [L.Line(bank, proceeds, 0)];
      }
      if gain > 0 {
        lines := lines + [L.Line(A.GAIN, 0, gain)];
      } else if gain < 0 {
        lines := lines + [L.Line(A.LOSS, -gain, 0)];
      }
      assert lines == A.DisposalLines(a, proceeds, bank);
      var posted := gl.CreateAndPost(L.JournalInput(date, "Asset Disposal", lines), pick);
      if posted.Err? {
        return Err(posted.error);
      }
      assets := assets[id := a.(status := A.Disposed, bookValue := 0)];
      return Ok(());
    }
  }
}
