/** The payout engine as the service and scheduler that update request, step and
    log rows in place. */
module PayoutServices {
  import opened Basics
  import P = Payout

  /** The most matches one pass reads. */
  const BATCH := 50

  class PayoutService {
    var cases: map<nat, P.Case>
    var nextId: nat

    ghost predicate Valid()
      reads this
    {
      forall i :: i in cases ==> i < nextId
    }

    constructor ()
      ensures Valid() && cases == map[]
    {
      cases, nextId := map[], 0;
    }

    /** `account` tells whether the paying account exists and is active. */
    method CreateRequest(account: Option<bool>, request: P.RequestType, amountKobo: int, raisedBy: P.User)
      returns (r: Result<nat>)
      requires Valid()
      modifies this
      ensures Valid()
      ensures r.Ok? <==> account == Some(true) && 0 < amountKobo
      ensures r.Ok? ==>
                r.value == old(nextId) && cases == old(cases)[r.value := P.NewCase(request, amountKobo, raisedBy)]
      ensures r.Err? ==> cases == old(cases)
    {
      if account.None? {
        return Err(NotFound);
      }
      if !account.value || amountKobo <= 0 {
        return Err(InvalidInput);
      }
      cases := cases[nextId := P.NewCase(request, amountKobo, raisedBy)];
      nextId := nextId + 1;
      return Ok(nextId - 1);
    }

    static method BuildSteps(c: P.Case, flagged: bool, approvers: map<string, P.User>, now: int, storedAt: int)
      returns (steps: seq<P.Step>)
      ensures steps == P.BuildSteps(c, flagged, approvers, now, storedAt)
    {
      var specs := P.Specs(c.requestType, c.amountKobo, flagged);
      steps := [];
      for i := 0 to |specs|
        invariant steps == P.BuildSteps(c, flagged, approvers, now, storedAt)[..i]
      {
        var assignee := if specs[i].role in approvers then approvers[specs[i].role] else P.NOBODY;
        var status, dueBy := P.Pending, now + specs[i].limitMinutes * P.MINUTE;
        if assignee == P.NOBODY {
          status, dueBy := P.Skipped, now;
        }
        steps := steps + [P.Step(specs[i].kind, assignee, None, status, dueBy, storedAt, None, None)];
      }
    }

    /** The first pending step at or after an index; the length if there is none. */
    static method FindPending(steps: seq<P.Step>, start: nat) returns (k: nat)
      requires start <= |steps|
      ensures k == P.NextPending(steps, start)
    {
      k := start;
      while k < |steps| && !steps[k].status.Pending?
        invariant start <= k <= |steps|
        invariant P.NextPending(steps, k) == P.NextPending(steps, start)
      {
        k := k + 1;
      }
    }

    method SubmitRequest(id: nat, user: P.User, pastCutOff: bool, onRegister: bool,
                         approvers: map<string, P.User>, now: int, storedAt: int) returns (r: Result<()>)
      requires Valid()
      modifies this`cases
      ensures Valid()
      ensures id !in old(cases) ==> r == Err(NotFound) && cases == old(cases)
      ensures id in old(cases) ==>
                var out := P.SubmitRequest(old(cases)[id], user, pastCutOff, onRegister, approvers, now, storedAt);
                r == out.result && cases == old(cases)[id := out.state]
    {
      if id !in cases {
        return Err(NotFound);
      }
      var c := cases[id];
      if !c.status.Draft? {
        return Err(RequestLocked);
      }
      if c.raisedBy != user {
        return Err(Forbidden);
      }
      if (c.requestType.ClientPayout? || c.requestType.Liquidation? || c.requestType.Transfer?) && pastCutOff {
        return Err(PastCutOff);
      }
      var steps := BuildSteps(c, !onRegister, approvers, now, storedAt);
      var first := FindPending(steps, 0);
      var status := P.Submitted;
      if first < |steps| {
        status := P.Label(steps[first].kind);
      }
      cases := cases[id := c.(complianceFlagged := !onRegister, steps := steps, status := status,
                              log := c.log + [P.Entry(P.WasSubmitted, None, user)])];
      return Ok(());
    }

    method ActOnStep(id: nat, user: P.User, action: string) returns (r: Result<()>)
      requires Valid()
      modifies this`cases
      ensures Valid()
      ensures id !in old(cases) ==> r == Err(NotFound) && cases == old(cases)
      ensures id in old(cases) ==>
                var out := P.ActOnStep(old(cases)[id], user, action);
                r == out.result && cases == old(cases)[id := out.state]
    {
      if id !in cases {
        return Err(NotFound);
      }
      var c := cases[id];
      var k := FindPending(c.steps, 0);
      if k == |c.steps| {
        return Err(AlreadyDone);
      }
      if c.steps[k].assignedTo != user {
        return Err(NotYourStep);
      }
      if action == "approve" && c.raisedBy == user {
        return Err(Forbidden);
      }
      var parsed := P.ParseAction(action);
      if parsed.None? {
        return Err(UnknownAction);
      }
      var steps := c.steps[k := c.steps[k].(status := P.DecidedStatus(parsed.value))];
      var log := c.log + [P.Entry(parsed.value, Some(k), user)];
      var status := P.SentBack;
      if action == "reject" {
        status := P.TurnedDown;
      } else if action == "approve" {
        var next := FindPending(c.steps, k + 1);
        if next == |c.steps| {
          status := P.FullyApproved;
        } else {
          status := P.Label(c.steps[next].kind);
        }
      }
      cases := cases[id := c.(steps := steps, status := status, log := log)];
      return Ok(());
    }

    method DispatchRequest(id: nat, user: P.User) returns (r: Result<()>)
      requires Valid()
      modifies this`cases
      ensures Valid()
      ensures id !in old(cases) ==> r == Err(NotFound) && cases == old(cases)
      ensures id in old(cases) ==>
                var out := P.DispatchRequest(old(cases)[id], user);
                r == out.result && cases == old(cases)[id := out.state]
    {
      if id !in cases {
        return Err(NotFound);
      }
      var c := cases[id];
      if !c.status.FullyApproved? {
        return Err(RequestLocked);
      }
      cases := cases[id := c.(status := P.SentToBank, log := c.log + [P.Entry(P.WasDispatched, None, user)])];
      return Ok(());
    }

    method ConfirmRequest(id: nat, user: P.User) returns (r: Result<()>)
      requires Valid()
      modifies this`cases
      ensures Valid()
      ensures id !in old(cases) ==> r == Err(NotFound) && cases == old(cases)
      ensures id in old(cases) ==>
                var out := P.ConfirmRequest(old(cases)[id], user);
                r == out.result && cases == old(cases)[id := out.state]
    {
      if id !in cases {
        return Err(NotFound);
      }
      var c := cases[id];
      if !c.status.SentToBank? {
        return Err(RequestLocked);
      }
      cases := cases[id := c.(status := P.Confirmed, log := c.log + [P.Entry(P.WasConfirmed, None, user)])];
      return Ok(());
    }

    /** The row passes through sent-to-bank again before it is confirmed. */
    method CloseByReconciliation(id: nat)
      requires Valid()
      modifies this`cases
      ensures Valid()
      ensures cases == if id in old(cases) then old(cases)[id := P.CloseByReconciliation(old(cases)[id])]
                       else old(cases)
    {
      if id !in cases || !cases[id].status.SentToBank? {
        return;
      }
      var c := cases[id];
      c := c.(status := P.SentToBank);
      c := c.(status := P.Confirmed);
      c := c.(log := c.log + [P.Entry(P.WasConfirmed, None, P.NOBODY)]);
      cases := cases[id := c];
    }

    /** Confirm every request that one of the first fifty matches names, however
        often it is named. `named` holds the matches in the order the database
        delivers them. */
    method CheckReconciliationMatches(named: seq<nat>)
      requires Valid()
      modifies this`cases
      ensures Valid()
      ensures var read := if |named| <= 50 then named else named[..50];
        cases == map i | i in old(cases) ::
                   if i in read then P.CloseByReconciliation(old(cases)[i]) else old(cases)[i]
    {
      var matches := if |named| <= BATCH then named else named[..BATCH];
      for n := 0 to |matches|
        invariant Valid()
        invariant cases == map i | i in old(cases) ::
                             if i in matches[..n] then P.CloseByReconciliation(old(cases)[i]) else old(cases)[i]
      {
        CloseByReconciliation(matches[n]);
        assert forall i :: i in matches[..n + 1] <==> i in matches[..n] || i == matches[n];
      }
      assert matches[..|matches|] == matches;
    }

    /** One scheduler pass over the steps of one request. */
    static method TickSteps(steps: seq<P.Step>, dbNow: int, now: int, r: P.Roster) returns (t: seq<P.Step>)
      ensures t == P.TickSteps(steps, dbNow, now, r)
    {
      t := steps;
      for k := 0 to |steps|
        invariant |t| == |steps|
        invariant forall m :: 0 <= m < k ==> t[m] == P.TickStep(steps[m], dbNow, now, r)
        invariant forall m :: k <= m < |steps| ==> t[m] == steps[m]
      {
        var s := steps[k];
        if !(s.status.Pending? && s.dueBy < dbNow) {
          continue;
        }
        if s.reminderSentAt.None? && s.dueBy < now && s.assignedTo in r.mailable {
          t := t[k := t[k].(reminderSentAt := Some(dbNow))];
        }
        var escalateAfter := s.dueBy + P.WindowMinutes(s) * P.MINUTE;
        if s.escalatedAt.None? && escalateAfter < now {
          if s.assignedTo in r.lookupFails {
            continue;
          }
          if s.assignedTo in r.standIns {
            t := t[k := t[k].(standInFor := Some(s.assignedTo), assignedTo := r.standIns[s.assignedTo],
                              escalatedAt := Some(dbNow))];
          }
        }
      }
    }

    /** One scheduler pass over all requests. */
    method Tick(dbNow: int, now: int, r: P.Roster)
      requires Valid()
      modifies this`cases
      ensures Valid()
      ensures cases == map i | i in old(cases) :: P.TickCase(old(cases)[i], dbNow, now, r)
    {
      for id := 0 to nextId
        invariant Valid() && cases.Keys == old(cases).Keys
        invariant forall i :: i in cases && i < id ==> cases[i] == P.TickCase(old(cases)[i], dbNow, now, r)
        invariant forall i :: i in cases && id <= i ==> cases[i] == old(cases)[i]
      {
        if id in cases {
          var steps := TickSteps(cases[id].steps, dbNow, now, r);
          cases := cases[id := cases[id].(steps := steps)];
        }
      }
    }
  }
}
