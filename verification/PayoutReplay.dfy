/** The action log is enough: replayed over the chain as it was built, it gives
    the status of the request and of every step. */
module PayoutReplay {
  import opened Basics
  import opened Payout
  import opened PayoutInvariant
  import PayoutTheorems

  /** What a replay reconstructs. The kinds never change. */
  datatype View = View(status: RequestStatus, kinds: seq<StepType>, statuses: seq<StepStatus>)

  predicate Aligned(v: View) {
    |v.kinds| == |v.statuses|
  }

  function NextOpen(statuses: seq<StepStatus>, i: nat): (k: nat)
    requires i <= |statuses|
    ensures i <= k <= |statuses|
    decreases |statuses| - i
  {
    if i == |statuses| || statuses[i].Pending? then i else NextOpen(statuses, i + 1)
  }

  function LabelFrom(v: View, i: nat, none: RequestStatus): RequestStatus
    requires Aligned(v) && i <= |v.kinds|
  {
    var k := NextOpen(v.statuses, i);
    if k < |v.kinds| then Label(v.kinds[k]) else none
  }

  /** Apply one log entry, looking at nothing but the view. */
  function ReplayEntry(v: View, e: Entry): (r: View)
    requires Aligned(v)
    ensures Aligned(r)
  {
    if e.action.WasSubmitted? then v.(status := LabelFrom(v, 0, Submitted))
    else if e.action.WasDispatched? then v.(status := SentToBank)
    else if e.action.WasConfirmed? then v.(status := Confirmed)
    else if e.step.None? || |v.kinds| <= e.step.value then v
    else
      var k := e.step.value;
      View(if e.action.WasReturned? then SentBack
           else if e.action.WasRejected? then TurnedDown
           else LabelFrom(v, k + 1, FullyApproved),
           v.kinds, v.statuses[k := DecidedStatus(e.action)])
  }

  function Replay(v: View, log: seq<Entry>): (r: View)
    requires Aligned(v)
    ensures Aligned(r)
  {
    if log == [] then v else ReplayEntry(Replay(v, log[..|log| - 1]), log[|log| - 1])
  }

  function Kinds(steps: seq<Step>): (k: seq<StepType>)
    ensures |k| == |steps|
  {
    seq(|steps|, i requires 0 <= i < |steps| => steps[i].kind)
  }

  function Statuses(steps: seq<Step>): (s: seq<StepStatus>)
    ensures |s| == |steps|
  {
    seq(|steps|, i requires 0 <= i < |steps| => steps[i].status)
  }

  /** A chain as the builder delivers it, before anything is decided. */
  function Fresh(steps: seq<Step>): View {
    View(Draft, Kinds(steps), Statuses(steps))
  }

  function ViewOf(c: Case): View {
    View(c.status, Kinds(c.steps), Statuses(c.steps))
  }

  /** A view of the case before reconciliation moved it on unlogged. */
  ghost predicate Shows(v: View, c: Case) {
    && v.kinds == Kinds(c.steps) && v.statuses == Statuses(c.steps)
    && (if c.status.Reconciled? then v.status.FullyApproved? || v.status.SentToBank? || v.status.Confirmed?
        else v.status == c.status)
  }

  lemma {:induction false} NextOpenIsNextPending(steps: seq<Step>, i: nat)
    requires i <= |steps|
    ensures NextOpen(Statuses(steps), i) == NextPending(steps, i)
    decreases |steps| - i
  {
    if i < |steps| { NextOpenIsNextPending(steps, i + 1); }
  }

  lemma ReplaySnoc(v: View, log: seq<Entry>, e: Entry)
    requires Aligned(v)
    ensures Replay(v, log + [e]) == ReplayEntry(Replay(v, log), e)
  {
    assert (log + [e])[..|log|] == log;
  }

  // ---------- step by step ----------

  lemma SubmitReplays(c: Case, user: User, past: bool, register: bool, approvers: map<string, User>, now: int,
      storedAt: int)
    requires Good(c) && SubmitRequest(c, user, past, register, approvers, now, storedAt).result.Ok?
    ensures var c' := SubmitRequest(c, user, past, register, approvers, now, storedAt).state;
      && c'.steps == BuildSteps(c, !register, approvers, now, storedAt)
      && Shows(Replay(Fresh(c'.steps), c'.log), c')
  {
    var c' := SubmitRequest(c, user, past, register, approvers, now, storedAt).state;
    NextOpenIsNextPending(c'.steps, 0);
    var none: seq<Entry> := [];
    ReplaySnoc(Fresh(c'.steps), none, Entry(WasSubmitted, None, user));
    assert c'.log == none + [Entry(WasSubmitted, None, user)];
  }

  lemma DecidedView(steps: seq<Step>, k: nat, s: Step)
    requires k < |steps| && s.kind == steps[k].kind
    ensures Kinds(steps[k := s]) == Kinds(steps)
    ensures Statuses(steps[k := s]) == Statuses(steps)[k := s.status]
  {
    assert forall i :: 0 <= i < |steps| ==> steps[k := s][i].kind == steps[i].kind;
  }

  lemma ActReplays(v: View, c: Case, user: User, action: string)
    requires Aligned(v) && Shows(v, c) && Good(c) && ActOnStep(c, user, action).result.Ok?
    ensures var c' := ActOnStep(c, user, action).state;
      c'.log != [] && Shows(ReplayEntry(v, c'.log[|c'.log| - 1]), c')
  {
    var c' := ActOnStep(c, user, action).state;
    var k := NextPending(c.steps, 0);
    if Passed(c.status) { PassedMeansNothingPending(c); }
    NextOpenIsNextPending(c.steps, k + 1);
    DecidedView(c.steps, k, c'.steps[k]);
    hide Good, NextPending, NextOpen, Label, Kinds, Statuses;
  }

  lemma TickReplays(v: View, c: Case, dbNow: int, now: int, r: Roster)
    requires Shows(v, c)
    ensures Shows(v, TickCase(c, dbNow, now, r))
  {
    var c' := TickCase(c, dbNow, now, r);
    forall k | 0 <= k < |c.steps|
      ensures c'.steps[k].kind == c.steps[k].kind && c'.steps[k].status == c.steps[k].status
    {
      TickOnlyReassigns(c.steps[k], dbNow, now, r);
    }
    assert Statuses(c'.steps) == Statuses(c.steps) && Kinds(c'.steps) == Kinds(c.steps);
  }

  /** A dispatch or a confirmation. */
  lemma MoveReplays(v: View, c: Case, status: RequestStatus, e: Entry)
    requires Aligned(v) && Shows(Replay(v, c.log), c)
    requires (e.action.WasDispatched? && status.SentToBank?) || (e.action.WasConfirmed? && status.Confirmed?)
    ensures Shows(Replay(v, c.log + [e]), c.(status := status, log := c.log + [e]))
  {
    hide Replay, LabelFrom, Kinds, Statuses;
    ReplaySnoc(v, c.log, e);
  }

  /** One more call keeps the replay in step with a submitted case. */
  lemma StepReplays(v: View, c: Case, m: CaseCommand)
    requires Aligned(v) && Good(c) && !c.status.Draft?
    requires Shows(Replay(v, c.log), c)
    ensures Shows(Replay(v, ApplyCase(c, m).log), ApplyCase(c, m))
  {
    hide Good, Replay, ReplayEntry, ActOnStep, TickCase;
    match m
    case Submit(user, past, register, approvers, now, storedAt) =>
    case Act(user, action) => DecisionReplays(v, c, user, action);
    case Dispatch(user) =>
      if c.status.FullyApproved? { MoveReplays(v, c, SentToBank, Entry(WasDispatched, None, user)); }
    case Confirm(user) => if c.status.SentToBank? { MoveReplays(v, c, Confirmed, Entry(WasConfirmed, None, user)); }
    case CloseByBankLine => if c.status.SentToBank? { MoveReplays(v, c, Confirmed, Entry(WasConfirmed, None, NOBODY)); }
    case ThreeWayMatch =>
    case Tick(dbNow, now, r) => {
      TickReplays(Replay(v, c.log), c, dbNow, now, r);
      TickKeepsLog(c, dbNow, now, r);
    }
  }

  lemma TickKeepsLog(c: Case, dbNow: int, now: int, r: Roster)
    ensures TickCase(c, dbNow, now, r).log == c.log
  {
  }

  lemma ActAppends(c: Case, user: User, action: string)
    requires ActOnStep(c, user, action).result.Ok?
    ensures var c' := ActOnStep(c, user, action).state;
      c'.log != [] && c'.log == c.log + [c'.log[|c'.log| - 1]]
  {
    hide NextPending, StatusAfter;
  }

  lemma DecisionReplays(v: View, c: Case, user: User, action: string)
    requires Aligned(v) && Good(c) && Shows(Replay(v, c.log), c)
    ensures var c' := ActOnStep(c, user, action).state; Shows(Replay(v, c'.log), c')
  {
    if ActOnStep(c, user, action).result.Ok? {
      var c' := ActOnStep(c, user, action).state;
      hide Good, Replay, ReplayEntry, ActOnStep, Shows;
      ActAppends(c, user, action);
      ActReplays(Replay(v, c.log), c, user, action);
      ReplaySnoc(v, c.log, c'.log[|c'.log| - 1]);
    } else {
      UnchangedWhenRefused(c, user, action);
      hide Good, Replay, ActOnStep, Shows;
    }
  }

  lemma UnchangedWhenRefused(c: Case, user: User, action: string)
    requires ActOnStep(c, user, action).result.Err?
    ensures ActOnStep(c, user, action).state == c
  {
  }

  /** From submission on, whatever calls and scheduler passes come, in whatever
      order: the log replayed over the chain built at submission gives the status
      of every step, and that of the request exactly when the reconciliation module
      has not moved it on, which leaves no entry. */
  lemma {:induction false} LogReplays(c: Case, chain: seq<Step>, commands: seq<CaseCommand>)
    requires Good(c) && !c.status.Draft?
    requires Shows(Replay(Fresh(chain), c.log), c)
    ensures var c' := RunCase(c, commands);
      && Good(c') && !c'.status.Draft?
      && Shows(Replay(Fresh(chain), c'.log), c')
      && (Replay(Fresh(chain), c'.log) == ViewOf(c') <==> !c'.status.Reconciled?)
  {
    hide Good, ApplyCase, Replay;
    if commands != [] {
      var before, last := RunCase(c, commands[..|commands| - 1]), commands[|commands| - 1];
      LogReplays(c, chain, commands[..|commands| - 1]);
      StepReplays(Fresh(chain), before, last);
      ApplyGood(before, last);
      NotDraftAgain(before, last);
    }
  }

  lemma NotDraftAgain(c: Case, m: CaseCommand)
    requires !c.status.Draft?
    ensures !ApplyCase(c, m).status.Draft?
  {
  }

  /** The same from creation: submit a new request, then let anything happen. */
  lemma LogReplaysFromSubmission(
      request: RequestType, amountKobo: int, user: User, past: bool, register: bool, approvers: map<string, User>,
      now: int, storedAt: int, commands: seq<CaseCommand>)
    requires SubmitRequest(NewCase(request, amountKobo, user), user, past, register, approvers, now,
              storedAt).result.Ok?
    ensures var made := NewCase(request, amountKobo, user);
      var submitted := SubmitRequest(made, user, past, register, approvers, now, storedAt).state;
      var chain := BuildSteps(made, !register, approvers, now, storedAt);
      var c := RunCase(submitted, commands);
      && Replay(Fresh(chain), c.log).statuses == Statuses(c.steps)
      && (Replay(Fresh(chain), c.log).status == c.status <==> !c.status.Reconciled?)
  {
    var made := NewCase(request, amountKobo, user);
    NewCaseGood(request, amountKobo, user);
    SubmitReplays(made, user, past, register, approvers, now, storedAt);
    SubmitGood(made, user, past, register, approvers, now, storedAt);
    var submitted := SubmitRequest(made, user, past, register, approvers, now, storedAt).state;
    hide Good, Replay;
    LogReplays(submitted, submitted.steps, commands);
  }

  /** That does happen: both approvers approve, the bank line matches, and the log
      still says approved. */
  lemma ReconciledUnlogged()
    ensures var made := NewCase(Placement, 500, 1);
      var submitted := SubmitRequest(made, 1, false, true, PayoutTheorems.APPROVERS, 0, 0).state;
      var chain := BuildSteps(made, false, PayoutTheorems.APPROVERS, 0, 0);
      var c := RunCase(submitted, [Act(2, "approve"), Act(3, "approve"), ThreeWayMatch]);
      && c.status.Reconciled?
      && Replay(Fresh(chain), c.log).status.FullyApproved?
  {
    var made := NewCase(Placement, 500, 1);
    var submitted := SubmitRequest(made, 1, false, true, PayoutTheorems.APPROVERS, 0, 0).state;
    var chain := BuildSteps(made, false, PayoutTheorems.APPROVERS, 0, 0);
    var none: seq<CaseCommand> := [];
    var first, second := Act(2, "approve"), Act(3, "approve");
    PayoutTheorems.RunSnoc(submitted, none, first);
    PayoutTheorems.RunSnoc(submitted, none + [first], second);
    PayoutTheorems.RunSnoc(submitted, none + [first] + [second], ThreeWayMatch);
    assert none + [first] + [second] == [first, second];
    assert none + [first] + [second] + [ThreeWayMatch] == [first, second, ThreeWayMatch];
    PayoutTheorems.TwoToDecide();
    assert SubmitRequest(made, 1, false, true, PayoutTheorems.APPROVERS, 0, 0).result.Ok?;
    hide RunCase, ActOnStep, BuildSteps, Replay, Fresh, SubmitRequest, Statuses, NextPending;
    PayoutTheorems.TwoDecide(submitted, "approve");
    LogReplaysFromSubmission(Placement, 500, 1, false, true, PayoutTheorems.APPROVERS, 0, 0, [first, second]);
    assert RunCase(submitted, [first, second]).status.FullyApproved?;
  }
}
