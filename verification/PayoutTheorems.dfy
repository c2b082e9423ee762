/** Safety of the approval chain over whole runs, and replay of the action log. */
module PayoutTheorems {
  import opened Basics
  import opened Payout
  import opened PayoutInvariant

  // ---------- who approves, and what the status says ----------

  /** At any point of any run: no pending step precedes a decided one; while one
      is pending and the last log entry is the submission or an approval, the
      status is the label of the lowest pending step; and every logged approval
      was given by the assignee of its step, who is not the raiser. */
  lemma ChainIsFollowed(request: RequestType, amountKobo: int, raisedBy: User, commands: seq<CaseCommand>)
    ensures var c := Life(request, amountKobo, raisedBy, commands);
      && DecidedFirst(c.steps)
      && (HasPending(c.steps) && !c.status.Draft? ==>
            && c.log != []
            && (c.log[|c.log| - 1].action.WasSubmitted? || c.log[|c.log| - 1].action.WasApproved? ==>
                  c.status == Label(c.steps[NextPending(c.steps, 0)].kind)))
      && (forall i :: 0 <= i < |c.log| && c.log[i].action.WasApproved? ==>
            && c.log[i].step.Some? && c.log[i].step.value < |c.steps|
            && c.steps[c.log[i].step.value].status.Approved?
            && c.log[i].actor == c.steps[c.log[i].step.value].assignedTo
            && c.log[i].actor != c.raisedBy)
  {
    LifeGood(request, amountKobo, raisedBy, commands);
    var c := Life(request, amountKobo, raisedBy, commands);
    hide Life;
    forall i | 0 <= i < |c.log| && c.log[i].action.WasApproved? ensures EntryHolds(c, c.log[i]) {
    }
  }

  // ---------- approval is final ----------

  /** How far past approval a request is. */
  function Rank(s: RequestStatus): nat {
    match s
    case FullyApproved => 1
    case SentToBank => 2
    case Confirmed => 3
    case Reconciled => 4
    case _ => 0
  }

  predicate SameDecisions(a: seq<Step>, b: seq<Step>) {
    |a| == |b| && forall k :: 0 <= k < |a| ==> a[k].status == b[k].status && a[k].assignedTo == b[k].assignedTo
  }

  /** Dispatch takes an approved request to the bank, a confirmation or a bank line
      takes it from there to confirmed, the three-way match takes it to reconciled,
      and nothing else moves it. */
  predicate MovesOn(s: RequestStatus, m: CaseCommand, t: RequestStatus) {
    || t == s
    || (s.FullyApproved? && m.Dispatch? && t.SentToBank?)
    || (s.SentToBank? && (m.Confirm? || m.CloseByBankLine?) && t.Confirmed?)
    || (m.ThreeWayMatch? && t.Reconciled?)
  }

  /** One step past approval: the status moves on as above, no step changes hands
      or status, and no decision is taken. */
  lemma PassedStep(c: Case, m: CaseCommand)
    requires Good(c) && Passed(c.status)
    ensures var c' := ApplyCase(c, m);
      && Passed(c'.status) && Rank(c.status) <= Rank(c'.status)
      && MovesOn(c.status, m, c'.status)
      && SameDecisions(c.steps, c'.steps)
      && (m.Act? ==> ActOnStep(c, m.user, m.action).result.Err? && c' == c)
  {
    PassedMeansNothingPending(c);
    hide Good;
    if m.Tick? {
      forall k | 0 <= k < |c.steps| ensures TickStep(c.steps[k], m.dbNow, m.now, m.roster) == c.steps[k] {
        TickOnlyReassigns(c.steps[k], m.dbNow, m.now, m.roster);
      }
    }
  }

  /** Once a request is approved no decision on it ever succeeds again, every step
      keeps its status and assignee, and its status never goes back. */
  lemma {:induction false} ApprovalIsFinal(c: Case, commands: seq<CaseCommand>)
    requires Good(c) && Passed(c.status)
    ensures var c' := RunCase(c, commands);
      && Good(c') && Passed(c'.status) && Rank(c.status) <= Rank(c'.status)
      && SameDecisions(c.steps, c'.steps)
      && (forall user, action :: ActOnStep(c', user, action).result.Err?)
  {
    hide Good, Passed, ApplyCase, ActOnStep, Rank, SameDecisions;
    if commands == [] {
      NoChange(c.steps);
    } else {
      var before := RunCase(c, commands[..|commands| - 1]);
      var last := commands[|commands| - 1];
      ApprovalIsFinal(c, commands[..|commands| - 1]);
      PassedStep(before, last);
      ApplyGood(before, last);
      SameTransitive(c.steps, before.steps, ApplyCase(before, last).steps);
    }
    forall user, action ensures ActOnStep(RunCase(c, commands), user, action).result.Err? {
      NoDecisionLeft(RunCase(c, commands), user, action);
    }
  }

  lemma NoDecisionLeft(c: Case, user: User, action: string)
    requires Good(c) && Passed(c.status)
    ensures ActOnStep(c, user, action).result.Err?
  {
    PassedMeansNothingPending(c);
  }

  lemma NoChange(steps: seq<Step>)
    ensures SameDecisions(steps, steps)
  {
  }

  lemma SameTransitive(a: seq<Step>, b: seq<Step>, c: seq<Step>)
    requires SameDecisions(a, b) && SameDecisions(b, c)
    ensures SameDecisions(a, c)
  {
  }

  // ---------- is everything approved? ----------

  predicate Objected(e: Entry) {
    e.action.WasReturned? || e.action.WasRejected?
  }

  /** A request past approval has every step approved or skipped exactly when
      nobody returned or rejected a step along the way. */
  lemma AllApprovedExactly(request: RequestType, amountKobo: int, raisedBy: User, commands: seq<CaseCommand>)
    requires Passed(Life(request, amountKobo, raisedBy, commands).status)
    ensures var c := Life(request, amountKobo, raisedBy, commands);
      (forall k :: 0 <= k < |c.steps| ==> c.steps[k].status.Approved? || c.steps[k].status.Skipped?)
      <==> (forall i :: 0 <= i < |c.log| ==> !Objected(c.log[i]))
  {
    LifeGood(request, amountKobo, raisedBy, commands);
    var c := Life(request, amountKobo, raisedBy, commands);
    hide Life;
    PassedMeansNothingPending(c);
    assert forall i :: 0 <= i < |c.log| ==> EntryHolds(c, c.log[i]);
    if forall k :: 0 <= k < |c.steps| ==> c.steps[k].status.Approved? || c.steps[k].status.Skipped? {
      forall i | 0 <= i < |c.log| ensures !Objected(c.log[i]) {
        assert EntryHolds(c, c.log[i]);
      }
    }
    if forall i :: 0 <= i < |c.log| ==> !Objected(c.log[i]) {
      forall k | 0 <= k < |c.steps| ensures c.steps[k].status.Approved? || c.steps[k].status.Skipped? {
        if Decided(c.steps[k]) {
          assert Logged(c, k);
          var i :| 0 <= i < |c.log| && c.log[i].step == Some(k);
          assert EntryHolds(c, c.log[i]);
        }
      }
    }
  }

  const APPROVERS: map<string, User> := map["HEAD_OF_DEPT" := 2, "INTERNAL_CONTROL" := 3]

  /** A rejection does not stop the chain: the first approver rejects, the second
      approves, and the request stands approved. */
  lemma RejectedYetApproved()
    ensures var c := Life(Placement, 500, 1,
              [Submit(1, false, true, APPROVERS, 0, 0), Act(2, "reject"), Act(3, "approve")]);
      && c.status.FullyApproved?
      && |c.steps| == 4 && c.steps[0].status.Rejected?
  {
    var submit, reject, approve := Submit(1, false, true, APPROVERS, 0, 0), Act(2, "reject"), Act(3, "approve");
    var c0 := NewCase(Placement, 500, 1);
    var none: seq<CaseCommand> := [];
    RunSnoc(c0, none, submit);
    RunSnoc(c0, none + [submit], reject);
    RunSnoc(c0, none + [submit] + [reject], approve);
    assert none + [submit] + [reject] + [approve] == [submit, reject, approve];
    TwoToDecide();
    hide RunCase, SubmitRequest, ActOnStep;
    TwoDecide(ApplyCase(c0, submit), "reject");
  }

  /** Two steps are pending, for users 2 and 3, and two are skipped. */
  predicate AwaitsTwo(c: Case) {
    && c.raisedBy == 1 && |c.steps| == 4
    && c.steps[0].status.Pending? && c.steps[0].assignedTo == 2
    && c.steps[1].status.Pending? && c.steps[1].assignedTo == 3
    && c.steps[2].status.Skipped? && c.steps[3].status.Skipped?
  }

  lemma TwoToDecide()
    ensures AwaitsTwo(ApplyCase(NewCase(Placement, 500, 1), Submit(1, false, true, APPROVERS, 0, 0)))
  {
    hide NextPending, Label;
    var steps := BuildSteps(NewCase(Placement, 500, 1), false, APPROVERS, 0, 0);
    assert steps[0] == Step(HeadConcur, 2, None, Pending, 20 * MINUTE, 0, None, None);
    assert steps[1] == Step(InternalControl, 3, None, Pending, 20 * MINUTE, 0, None, None);
    assert steps[2].status.Skipped? && steps[3].status.Skipped?;
  }

  lemma TwoDecide(c: Case, first: string)
    requires AwaitsTwo(c) && (first == "approve" || first == "reject")
    ensures var c' := ActOnStep(ActOnStep(c, 2, first).state, 3, "approve").state;
      c'.status.FullyApproved? && |c'.steps| == 4 && (c'.steps[0].status.Rejected? <==> first == "reject")
  {
    var c1 := ActOnStep(c, 2, first).state;
    assert NextPending(c.steps, 0) == 0 && c1.steps[1] == c.steps[1] && !c1.steps[0].status.Pending?;
    assert NextPending(c1.steps, 0) == 1;
    assert NextPending(c1.steps, 2) == 4;
  }

  lemma RunSnoc(c: Case, commands: seq<CaseCommand>, m: CaseCommand)
    ensures RunCase(c, commands + [m]) == ApplyCase(RunCase(c, commands), m)
  {
    assert (commands + [m])[..|commands|] == commands;
  }

  // ---------- assignees and windows ----------

  function OriginalAssignee(s: Step): User {
    if s.standInFor.Some? then s.standInFor.value else s.assignedTo
  }

  predicate SameOriginals(a: seq<Step>, b: seq<Step>) {
    |a| == |b| && forall k :: 0 <= k < |a| ==>
      && OriginalAssignee(a[k]) == OriginalAssignee(b[k])
      && (a[k].escalatedAt.Some? ==> b[k].escalatedAt == a[k].escalatedAt && b[k].assignedTo == a[k].assignedTo)
  }

  lemma OriginalsStep(c: Case, m: CaseCommand)
    requires Good(c) && !c.status.Draft?
    ensures SameOriginals(c.steps, ApplyCase(c, m).steps)
  {
    hide NextPending, StatusAfter, WindowMinutes;
    if m.Tick? {
      forall k | 0 <= k < |c.steps| ensures OriginalAssignee(c.steps[k]) == OriginalAssignee(ApplyCase(c, m).steps[k]) {
        TickOnlyReassigns(c.steps[k], m.dbNow, m.now, m.roster);
      }
    }
  }

  /** After submission the person a step was first assigned to never changes, and
      an escalated step keeps its stand-in: each step changes hands at most once. */
  lemma {:induction false} AssignedOnceEscalatedOnce(c: Case, commands: seq<CaseCommand>)
    requires Good(c) && !c.status.Draft?
    ensures Good(RunCase(c, commands)) && !RunCase(c, commands).status.Draft?
    ensures SameOriginals(c.steps, RunCase(c, commands).steps)
  {
    hide Good, SameOriginals, ApplyCase;
    if commands == [] {
      OriginalsReflexive(c.steps);
    } else {
      var before, last := RunCase(c, commands[..|commands| - 1]), commands[|commands| - 1];
      AssignedOnceEscalatedOnce(c, commands[..|commands| - 1]);
      OriginalsStep(before, last);
      ApplyGood(before, last);
      StaysSubmitted(before, last);
      OriginalsTransitive(c.steps, before.steps, ApplyCase(before, last).steps);
    }
  }

  lemma StaysSubmitted(c: Case, m: CaseCommand)
    requires !c.status.Draft?
    ensures !ApplyCase(c, m).status.Draft?
  {
  }

  lemma OriginalsReflexive(steps: seq<Step>)
    ensures SameOriginals(steps, steps)
  {
  }

  lemma OriginalsTransitive(a: seq<Step>, b: seq<Step>, c: seq<Step>)
    requires SameOriginals(a, b) && SameOriginals(b, c)
    ensures SameOriginals(a, c)
  {
  }

  /** The two places that state the time limit of a step agree. */
  lemma LimitsAgree(request: RequestType, amountKobo: int, flagged: bool, i: nat)
    requires i < |Specs(request, amountKobo, flagged)|
    ensures var spec := Specs(request, amountKobo, flagged)[i];
      spec.limitMinutes == StepLimitMinutes(spec.kind, request, amountKobo)
  {
  }

  /** The window the scheduler works with is the limit exactly when the row is
      stored at the instant its due time was computed, or by a clock less than a
      minute behind. Stored later, the window is shorter after truncation; stored
      by a clock a minute or more behind, it is longer. (A limit of nothing leaves
      nothing to shorten within the first minute.) */
  lemma WindowAgainstLimit(spec: StepSpec, approvers: map<string, User>, now: int, storedAt: int)
    requires spec.role in approvers && approvers[spec.role] != NOBODY && 0 <= spec.limitMinutes
    ensures var w := WindowMinutes(StepOf(spec, approvers, now, storedAt));
      && (w < spec.limitMinutes <==> now < storedAt && (0 < spec.limitMinutes || now + MINUTE <= storedAt))
      && (w > spec.limitMinutes <==> storedAt + MINUTE <= now)
  {
  }

  /** The chief executive is asked for expenses above ten million kobo, and for
      nothing else; the managing director for expenses and placements. */
  lemma ChiefExecutiveExactly(request: RequestType, amountKobo: int, flagged: bool)
    ensures var specs := Specs(request, amountKobo, flagged);
      && ((exists i :: 0 <= i < |specs| && specs[i].kind.ChiefExecutive?) <==>
            request.Expense? && 10_000_000 < amountKobo)
      && ((exists i :: 0 <= i < |specs| && specs[i].kind.ManagingDirector?) <==> request.Expense? || request.Placement?)
  {
    var specs := Specs(request, amountKobo, flagged);
    if request.Expense? {
      assert specs[3].kind.ManagingDirector?;
      if 10_000_000 < amountKobo { assert specs[4].kind.ChiefExecutive?; }
    } else if request.Placement? {
      assert specs[3].kind.ManagingDirector?;
    }
  }
}
