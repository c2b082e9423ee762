/** What every interleaving of approvals, dispatch, reconciliation and scheduler
    passes keeps of a payment request. */
module PayoutInvariant {
  import opened Basics
  import opened Payout

  predicate Decided(s: Step) {
    s.status.Approved? || s.status.Returned? || s.status.Rejected?
  }

  predicate IsDecision(a: Action) {
    a.WasApproved? || a.WasReturned? || a.WasRejected?
  }

  predicate HasPending(steps: seq<Step>) {
    NextPending(steps, 0) < |steps|
  }

  /** Past approval: nothing is left to decide. */
  predicate Passed(s: RequestStatus) {
    s.FullyApproved? || s.SentToBank? || s.Confirmed? || s.Reconciled?
  }

  // ---------- the invariant, part by part ----------

  /** Only a draft is empty; the log opens with the raiser's submission and holds
      no second one. */
  predicate LogOpens(c: Case) {
    && (c.status.Draft? ==> c.steps == [] && c.log == [])
    && (!c.status.Draft? ==> c.log != [] && c.log[0] == Entry(WasSubmitted, None, c.raisedBy))
    && (forall i :: 1 <= i < |c.log| ==> !c.log[i].action.WasSubmitted?)
  }

  /** No pending step stands before a decided one. */
  predicate DecidedFirst(steps: seq<Step>) {
    forall i, j :: 0 <= i < j < |steps| && Decided(steps[j]) ==> !steps[i].status.Pending?
  }

  /** While a step is pending, the status tells the last decision: the label of
      the lowest pending step after a submission or an approval. */
  predicate StatusTells(c: Case) {
    HasPending(c.steps) && !c.status.Draft? ==>
      && c.log != []
      && match c.log[|c.log| - 1].action
         case WasSubmitted | WasApproved => c.status == Label(c.steps[NextPending(c.steps, 0)].kind)
         case WasReturned => c.status == SentBack
         case WasRejected => c.status == TurnedDown
         case _ => false
  }

  /** A logged decision is the decision of that step, taken by its assignee, who
      is not the raiser if it is an approval. */
  predicate EntryHolds(c: Case, e: Entry) {
    && (IsDecision(e.action) <==> e.step.Some?)
    && (e.step.Some? ==>
          && e.step.value < |c.steps|
          && c.steps[e.step.value].status == DecidedStatus(e.action)
          && c.steps[e.step.value].assignedTo == e.actor
          && (e.action.WasApproved? ==> e.actor != c.raisedBy))
  }

  predicate EntriesHold(c: Case) {
    forall i :: 0 <= i < |c.log| ==> EntryHolds(c, c.log[i])
  }

  /** Each step is decided once, and every decision is logged. */
  predicate DecidedOnce(c: Case) {
    && (forall i, j :: 0 <= i < j < |c.log| && c.log[i].step.Some? ==> c.log[i].step != c.log[j].step)
    && (forall k :: 0 <= k < |c.steps| && Decided(c.steps[k]) ==> Logged(c, k))
  }

  predicate Logged(c: Case, k: nat) {
    exists i :: 0 <= i < |c.log| && c.log[i].step == Some(k)
  }

  /** A step has a stand-in exactly once it was escalated. */
  predicate EscalatedOnce(steps: seq<Step>) {
    forall k :: 0 <= k < |steps| ==> (steps[k].escalatedAt.Some? <==> steps[k].standInFor.Some?)
  }

  predicate Good(c: Case) {
    LogOpens(c) && DecidedFirst(c.steps) && StatusTells(c) && EntriesHold(c) && DecidedOnce(c) && EscalatedOnce(c.steps)
  }

  // ---------- submission ----------

  lemma SubmitGood(c: Case, user: User, past: bool, register: bool, approvers: map<string, User>, now: int,
      storedAt: int)
    requires Good(c)
    ensures Good(SubmitRequest(c, user, past, register, approvers, now, storedAt).state)
  {
    hide Specs;
  }

  // ---------- a decision ----------

  lemma NextPendingAfter(steps: seq<Step>, k: nat, s: Step)
    requires k == NextPending(steps, 0) < |steps| && !s.status.Pending?
    ensures NextPending(steps[k := s], 0) == NextPending(steps, k + 1)
    ensures NextPending(steps, k + 1) < |steps| ==>
              steps[k := s][NextPending(steps, k + 1)] == steps[NextPending(steps, k + 1)]
  {
  }

  lemma ActParts(c: Case, user: User, action: string)
    requires Good(c) && ActOnStep(c, user, action).result.Ok?
    ensures var c' := ActOnStep(c, user, action).state;
      LogOpens(c') && DecidedFirst(c'.steps) && StatusTells(c') && EscalatedOnce(c'.steps)
  {
    hide EntriesHold, DecidedOnce;
    var k := NextPending(c.steps, 0);
    NextPendingAfter(c.steps, k, ActOnStep(c, user, action).state.steps[k]);
  }

  lemma ActEntries(c: Case, user: User, action: string)
    requires EntriesHold(c) && DecidedOnce(c) && ActOnStep(c, user, action).result.Ok?
    ensures EntriesHold(ActOnStep(c, user, action).state) && DecidedOnce(ActOnStep(c, user, action).state)
  {
    var c' := ActOnStep(c, user, action).state;
    var k := NextPending(c.steps, 0);
    hide StatusAfter;
    forall i | 0 <= i < |c.log| ensures c.log[i].step != Some(k) && EntryHolds(c', c.log[i]) {
      assert EntryHolds(c, c.log[i]);
    }
    assert c'.log[|c.log|].step == Some(k);
    forall m | 0 <= m < |c'.steps| && Decided(c'.steps[m]) ensures Logged(c', m) {
      if m != k {
        assert Logged(c, m);
        var i :| 0 <= i < |c.log| && c.log[i].step == Some(m);
        assert c'.log[i].step == Some(m);
      }
    }
  }

  lemma ActGood(c: Case, user: User, action: string)
    requires Good(c)
    ensures Good(ActOnStep(c, user, action).state)
  {
    if ActOnStep(c, user, action).result.Ok? {
      hide ActOnStep, LogOpens, DecidedFirst, StatusTells, EntriesHold, DecidedOnce, EscalatedOnce;
      ActParts(c, user, action);
      ActEntries(c, user, action);
    }
  }

  // ---------- after the decisions ----------

  /** Nothing is pending once the request is past approval. */
  lemma PassedMeansNothingPending(c: Case)
    requires Good(c) && Passed(c.status)
    ensures !HasPending(c.steps)
  {
  }

  lemma AppendedGood(c: Case, status: RequestStatus, e: Entry)
    requires Good(c) && Passed(c.status) && Passed(status) && (e.action.WasDispatched? || e.action.WasConfirmed?)
              && e.step.None?
    ensures Good(c.(status := status, log := c.log + [e]))
  {
    var c' := c.(status := status, log := c.log + [e]);
    PassedMeansNothingPending(c);
    hide NextPending;
    forall i | 0 <= i < |c'.log| ensures EntryHolds(c', c'.log[i]) {
      if i < |c.log| { assert EntryHolds(c, c.log[i]); }
    }
    forall k | 0 <= k < |c'.steps| && Decided(c'.steps[k]) ensures Logged(c', k) {
      assert Logged(c, k);
      var i :| 0 <= i < |c.log| && c.log[i].step == Some(k);
      assert c'.log[i].step == Some(k);
    }
  }

  lemma MovedGood(c: Case, status: RequestStatus)
    requires Good(c) && Passed(c.status) && Passed(status)
    ensures Good(c.(status := status))
  {
    var c' := c.(status := status);
    PassedMeansNothingPending(c);
    assert forall i :: 0 <= i < |c.log| ==> EntryHolds(c, c.log[i]);
    assert forall k :: Logged(c, k) ==> Logged(c', k);
  }

  // ---------- a scheduler pass ----------

  /** A pass changes nothing of a step but its reminder and, for a pending one,
      its assignee: at most once, to the stand-in of the assignee, and once the due
      time and the step's window have both gone by, not before. One reminder goes
      out, after the due time. */
  lemma TickOnlyReassigns(s: Step, dbNow: int, now: int, r: Roster)
    ensures var t := TickStep(s, dbNow, now, r);
      && t.kind == s.kind && t.status == s.status && t.dueBy == s.dueBy && t.createdAt == s.createdAt
      && (!s.status.Pending? ==> t == s)
      && (s.escalatedAt.Some? ==>
            t.assignedTo == s.assignedTo && t.standInFor == s.standInFor && t.escalatedAt == s.escalatedAt)
      && (t.escalatedAt != s.escalatedAt ==>
            && s.escalatedAt.None? && t.escalatedAt == Some(dbNow)
            && s.assignedTo in r.standIns && t.assignedTo == r.standIns[s.assignedTo]
            && t.standInFor == Some(s.assignedTo)
            && s.dueBy < dbNow && s.dueBy + WindowMinutes(s) * MINUTE < now)
      && (t.escalatedAt == s.escalatedAt ==> t.assignedTo == s.assignedTo && t.standInFor == s.standInFor)
      && (Overdue(s, dbNow) && EscalationDue(s, now) && s.assignedTo !in r.lookupFails && s.assignedTo in r.standIns ==>
            t.escalatedAt.Some?)
      && (t.reminderSentAt != s.reminderSentAt ==>
            s.reminderSentAt.None? && t.reminderSentAt == Some(dbNow) && s.dueBy < dbNow && s.dueBy < now)
      && (Overdue(s, dbNow) && s.dueBy < now && s.reminderSentAt.None? && s.assignedTo in r.mailable ==>
            t.reminderSentAt.Some?)
  {
  }

  lemma {:induction false} TickKeepsNextPending(steps: seq<Step>, dbNow: int, now: int, r: Roster, i: nat)
    requires i <= |steps|
    ensures NextPending(TickSteps(steps, dbNow, now, r), i) == NextPending(steps, i)
    decreases |steps| - i
  {
    if i < |steps| {
      TickOnlyReassigns(steps[i], dbNow, now, r);
      TickKeepsNextPending(steps, dbNow, now, r, i + 1);
    }
  }

  /** Entry by entry and step by step the log says of the steps what it said. */
  lemma LogStillHolds(c: Case, c': Case)
    requires EntriesHold(c) && DecidedOnce(c)
    requires c'.log == c.log && c'.raisedBy == c.raisedBy && |c'.steps| == |c.steps|
    requires forall k :: 0 <= k < |c.steps| ==> c'.steps[k].status == c.steps[k].status
    requires forall k :: 0 <= k < |c.steps| && Decided(c.steps[k]) ==> c'.steps[k] == c.steps[k]
    ensures EntriesHold(c') && DecidedOnce(c')
  {
    forall i | 0 <= i < |c.log| ensures EntryHolds(c', c'.log[i]) {
      assert EntryHolds(c, c.log[i]);
    }
    assert forall k :: Logged(c, k) ==> Logged(c', k);
  }

  lemma TickGood(c: Case, dbNow: int, now: int, r: Roster)
    requires Good(c)
    ensures Good(TickCase(c, dbNow, now, r))
  {
    var c' := TickCase(c, dbNow, now, r);
    forall k | 0 <= k < |c.steps|
      ensures c'.steps[k].kind == c.steps[k].kind && c'.steps[k].status == c.steps[k].status
      ensures Decided(c.steps[k]) ==> c'.steps[k] == c.steps[k]
      ensures c'.steps[k].escalatedAt.Some? <==> c'.steps[k].standInFor.Some?
    {
      TickOnlyReassigns(c.steps[k], dbNow, now, r);
    }
    TickKeepsNextPending(c.steps, dbNow, now, r, 0);
    hide TickStep, NextPending, Label, EntriesHold, DecidedOnce;
    LogStillHolds(c, c');
  }

  // ---------- every run ----------

  lemma ApplyGood(c: Case, m: CaseCommand)
    requires Good(c)
    ensures Good(ApplyCase(c, m))
  {
    hide Good;
    match m
    case Submit(user, past, register, approvers, now, storedAt) => SubmitGood(c, user, past, register, approvers, now,
        storedAt);
    case Act(user, action) => ActGood(c, user, action);
    case Dispatch(user) => if c.status.FullyApproved? { AppendedGood(c, SentToBank, Entry(WasDispatched, None, user)); }
    case Confirm(user) => if c.status.SentToBank? { AppendedGood(c, Confirmed, Entry(WasConfirmed, None, user)); }
    case CloseByBankLine => if c.status.SentToBank? { AppendedGood(c, Confirmed, Entry(WasConfirmed, None, NOBODY)); }
    case ThreeWayMatch => if Passed(c.status) && !c.status.Reconciled? { MovedGood(c, Reconciled); }
    case Tick(dbNow, now, r) => TickGood(c, dbNow, now, r);
  }

  /** After any interleaving of calls and scheduler passes the case is good. */
  lemma {:induction false} LifeGood(request: RequestType, amountKobo: int, raisedBy: User, commands: seq<CaseCommand>)
    ensures Good(Life(request, amountKobo, raisedBy, commands))
  {
    hide Good, ApplyCase;
    if commands == [] {
      NewCaseGood(request, amountKobo, raisedBy);
    } else {
      LifeGood(request, amountKobo, raisedBy, commands[..|commands| - 1]);
      ApplyGood(Life(request, amountKobo, raisedBy, commands[..|commands| - 1]), commands[|commands| - 1]);
    }
  }

  lemma NewCaseGood(request: RequestType, amountKobo: int, raisedBy: User)
    ensures Good(NewCase(request, amountKobo, raisedBy))
  {
  }
}
