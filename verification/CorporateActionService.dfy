/** Corporate actions as the service that walks the holdings of the instrument.
    Holding rows are staged in a transaction that commits only at the end;
    journals go through the ledger service as they are reached. */
module CorporateActionServices {
  import opened Basics
  import L = Ledger
  import C = CorporateActions
  import opened LedgerServices

  class CorporateActionService {
    const gl: LedgerService
    const instrument: C.Instrument
    var holdings: seq<C.Holding>
    var actions: map<nat, C.ActionRow>

    function State(): C.State
      reads this, gl
    {
      C.State(gl.State(), instrument, holdings, actions)
    }

    constructor (gl: LedgerService, instrument: C.Instrument, holdings: seq<C.Holding>, actions: map<nat, C.ActionRow>)
      ensures this.gl == gl && State() == C.State(gl.State(), instrument, holdings, actions)
    {
      this.gl, this.instrument, this.holdings, this.actions := gl, instrument, holdings, actions;
    }

    /** The gross received, a tenth of it withheld, the rest added to the fund. */
    method PayCash(h: C.Holding, perUnit: real) returns (e: C.Effect)
      ensures e == C.CashEffect(instrument, h, perUnit)
    {
      var gross := C.GrossCash(h, perUnit);
      var wht := C.WithheldOn(gross);
      e := C.Effect(
        h.(fundAum := h.fundAum + (gross - wht)),
        Some([L.Line(instrument.glAccount, gross, 0), L.Line(instrument.incomeAccount, 0, gross),
              L.Line(instrument.incomeAccount, wht, 0), L.Line(C.WITHHOLDING, 0, wht)]));
    }

    /** The holding as the action leaves it, and the lines of its journal. */
    method FindEffect(h: C.Holding, a: C.Action) returns (r: Result<C.Effect>)
      ensures r == C.EffectOf(instrument, h, a)
    {
      hide C.Round2, C.Average, C.Scaled, C.SplitOf, C.Entitled, C.RightsCost, C.Principal, C.CashEffect;
      var after := h;
      var lines: Option<seq<L.Line>> := None;
      match a {
        case CashDividend(perUnit) =>
          var effect := PayCash(h, perUnit);
          return Ok(effect);
        case CouponPayment(perUnit) =>
          var effect := PayCash(h, perUnit);
          return Ok(effect);
        case StockSplit(ratio) =>
          if ratio <= 0.0 {
            return Err(InvalidInput);
          }
          after := C.SplitOf(h, ratio);
        case BonusShare(ratio) =>
          if ratio <= 0.0 {
            return Err(InvalidInput);
          }
          var quantity := C.Round2(h.quantity + C.Scaled(h, ratio));
          if quantity == 0.0 {
            return Err(InvalidInput);
          }
          after := h.(quantity := quantity, avgCost := C.Average(h.book, quantity));
        case RightsIssue(ratio, price) =>
          if ratio <= 0.0 || price <= 0.0 {
            return Err(InvalidInput);
          }
          var units := C.Entitled(h, ratio);
          if units > 0 {
            var cost := C.RightsCost(h, ratio, price);
            var quantity := C.Round2(h.quantity + units as real);
            if quantity == 0.0 {
              return Err(InvalidInput);
            }
            var book := h.book + cost;
            after := h.(quantity := quantity, avgCost := C.Average(book, quantity), book := book);
            lines := Some([L.Line(instrument.glAccount, cost, 0), L.Line(C.BANK, 0, cost)]);
          }
        case StockDividend(ratio) =>
          var quantity := C.Round2(h.quantity + C.Scaled(h, ratio));
          if quantity == 0.0 {
            return Err(InvalidInput);
          }
          after := h.(quantity := quantity, avgCost := C.Average(h.book, quantity));
        case Maturity =>
          var principal := C.Principal(h);
          after := h.(quantity := 0.0, book := 0, fundAum := h.fundAum + principal);
          lines := Some([L.Line(C.BANK, principal, 0), L.Line(instrument.glAccount, 0, principal)]);
      }
      return Ok(C.Effect(after, lines));
    }

    method ProcessHolding(h: C.Holding, a: C.Action, date: L.Date, pick: nat) returns (r: Result<C.Holding>)
      modifies gl
      ensures C.ProcessOne(old(gl.State()), instrument, h, a, date, pick) == (gl.State(), r)
    {
      hide C.EffectOf, C.Kind;
      if h.quantity <= 0.0 {
        return Ok(h);
      }
      var effect := FindEffect(h, a);
      if effect.Err? {
        return Err(effect.error);
      }
      if effect.value.lines.Some? {
        var posted := gl.CreateAndPost(L.JournalInput(Some(date), C.Kind(a), effect.value.lines.value), pick);
        if posted.Err? {
          return Err(posted.error);
        }
      }
      return Ok(effect.value.after);
    }

    method ProcessCorporateAction(id: nat, picks: seq<nat>) returns (r: Result<()>)
      modifies this, gl
      ensures C.ProcessCorporateAction(old(State()), id, picks) == Outcome(State(), r)
    {
      hide C.ProcessOne;
      if id !in actions {
        return Err(NotFound);
      }
      var row := actions[id];
      if row.processed {
        return Err(WrongStatus);
      }
      var staged: seq<C.Holding> := [];
      for i := 0 to |holdings|
        invariant unchanged(this)
        invariant C.ProcessFirst(old(State()), row.action, row.exDate, picks, i) == (gl.State(), Ok(staged))
      {
        var one := ProcessHolding(holdings[i], row.action, row.exDate, Nth(picks, i));
        if one.Err? {
          assert C.ProcessFirst(old(State()), row.action, row.exDate, picks, i + 1) == (gl.State(), Err(one.error));
          StoppedEarly(old(State()), row.action, row.exDate, picks, i + 1, |holdings|);
          return Err(one.error);
        }
        staged := staged + [one.value];
      }
      holdings := staged;
      actions := actions[id := row.(processed := true)];
      return Ok(());
    }
  }

  /** Once a holding fails, the ones after it are not reached. */
  lemma {:induction false} StoppedEarly(s: C.State, a: C.Action, date: L.Date, picks: seq<nat>, k: nat, n: nat)
    requires k <= n <= |s.holdings| && C.ProcessFirst(s, a, date, picks, k).1.Err?
    ensures C.ProcessFirst(s, a, date, picks, n) == C.ProcessFirst(s, a, date, picks, k)
  {
    if k < n { StoppedEarly(s, a, date, picks, k, n - 1); }
  }
}
