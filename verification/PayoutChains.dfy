/** Which steps a request goes through, who decides them, and what a decision does:
    said in full, and followed from submission to the bank. */
module PayoutChains {
  import opened Basics
  import opened Payout
  import opened PayoutInvariant
  import PayoutTheorems

  // ---------- the chains ----------

  /** Client payouts, liquidations and transfers: head of department, internal
      control, compliance for a beneficiary not on the register, finance, and both
      signatories last, twenty minutes each. */
  lemma PayoutChain(request: RequestType, amountKobo: int)
    requires request.ClientPayout? || request.Liquidation? || request.Transfer?
    ensures Specs(request, amountKobo, false) == [
              StepSpec(HeadConcur, "HEAD_OF_DEPT", 20), StepSpec(InternalControl, "INTERNAL_CONTROL", 20),
              StepSpec(FinanceCheck, "FINANCE", 20),
              StepSpec(Signatory1, "SIGNATORY_1", 20), StepSpec(Signatory2, "SIGNATORY_2", 20)]
    ensures Specs(request, amountKobo, true) == [
              StepSpec(HeadConcur, "HEAD_OF_DEPT", 20), StepSpec(InternalControl, "INTERNAL_CONTROL", 20),
              StepSpec(Compliance, "COMPLIANCE", 20), StepSpec(FinanceCheck, "FINANCE", 20),
              StepSpec(Signatory1, "SIGNATORY_1", 20), StepSpec(Signatory2, "SIGNATORY_2", 20)]
  {
  }

  /** Expenses: four hours each for head of department and internal control, eight
      for finance and the managing director, and for the chief executive above ten
      million kobo. Placements: head of department, internal control, finance and
      managing director, twenty minutes each. Neither asks compliance. */
  lemma OtherChains(amountKobo: int, flagged: bool)
    ensures Specs(Expense, amountKobo, flagged) == [
              StepSpec(HeadConcur, "HEAD_OF_DEPT", 240), StepSpec(InternalControl, "INTERNAL_CONTROL", 240),
              StepSpec(FinanceCheck, "FINANCE", 480), StepSpec(ManagingDirector, "MD", 480)]
            + if 10_000_000 < amountKobo then [StepSpec(ChiefExecutive, "CEO", 480)] else []
    ensures Specs(Placement, amountKobo, flagged) == [
              StepSpec(HeadConcur, "HEAD_OF_DEPT", 20), StepSpec(InternalControl, "INTERNAL_CONTROL", 20),
              StepSpec(FinanceCheck, "FINANCE", 20), StepSpec(ManagingDirector, "MD", 20)]
  {
  }

  predicate Held(approvers: map<string, User>, role: string) {
    role in approvers && approvers[role] != 0
  }

  /** A step is pending for the holder of its role until its minutes have passed, and
      skipped when nobody holds the role. */
  lemma StepRouted(spec: StepSpec, approvers: map<string, User>, now: int, storedAt: int)
    ensures var s := StepOf(spec, approvers, now, storedAt);
      && s.kind == spec.kind && s.createdAt == storedAt
      && s.standInFor.None? && s.reminderSentAt.None? && s.escalatedAt.None?
      && (Held(approvers, spec.role) ==>
            && s.status.Pending? && s.assignedTo == approvers[spec.role]
            && s.dueBy == now + spec.limitMinutes * 60_000_000)
      && (!Held(approvers, spec.role) ==> s.status.Skipped? && s.dueBy == now)
  {
  }

  /** What a request is called while a step is the active one. */
  lemma Labels(kind: StepType)
    ensures Label(kind) == (
              if kind.HeadConcur? then InHeadConcur
              else if kind.InternalControl? then InInternalControl
              else if kind.Compliance? then InCompliance
              else if kind.Signatory1? || kind.Signatory2? then InSignatories
              else InFinanceCheck)
  {
  }

  // ---------- submission ----------

  /** A request is submitted exactly when it is a draft, by its raiser, and, for the
      three payout types, before the cut-off. It then has the chain of its type, with
      compliance exactly when the beneficiary is not on the register. */
  lemma SubmittedExactly(c: Case, user: User, past: bool, register: bool, approvers: map<string, User>,
      now: int, storedAt: int)
    ensures var out := SubmitRequest(c, user, past, register, approvers, now, storedAt);
      var timed := c.requestType.ClientPayout? || c.requestType.Liquidation? || c.requestType.Transfer?;
      && (out.result.Ok? <==> c.status.Draft? && user == c.raisedBy && !(timed && past))
      && (out.result.Err? ==> out.state == c)
      && (out.result.Ok? ==>
            && out.state == c.(complianceFlagged := !register, steps := out.state.steps, status := out.state.status,
                               log := c.log + [Entry(WasSubmitted, None, user)])
            && var specs := Specs(c.requestType, c.amountKobo, !register);
               && |out.state.steps| == |specs|
               && (forall k :: 0 <= k < |specs| ==> out.state.steps[k] == StepOf(specs[k], approvers, now, storedAt)))
  {
    hide Specs, StepOf, NextPending, Label;
  }

  // ---------- a decision ----------

  /** A decision is taken exactly when some step is pending, by the assignee of the
      lowest, with one of three words, and not to approve one's own request. Approval
      passes the request to the next pending step or makes it approved, a return sends
      it back, a rejection turns it down; the step says so, and so does the log. */
  lemma DecidedExactly(c: Case, user: User, action: string)
    ensures var out, k := ActOnStep(c, user, action), NextPending(c.steps, 0);
      && (out.result.Ok? <==>
            && k < |c.steps| && c.steps[k].assignedTo == user
            && action in {"approve", "return", "reject"} && !(action == "approve" && c.raisedBy == user))
      && (out.result.Err? ==> out.state == c)
      && (out.result.Ok? ==>
            && out.state == c.(steps := out.state.steps, status := out.state.status, log := out.state.log)
            && |out.state.steps| == |c.steps|
            && (forall m :: 0 <= m < |c.steps| && m != k ==> out.state.steps[m] == c.steps[m])
            && out.state.steps[k] == c.steps[k].(status := out.state.steps[k].status)
            && (action == "approve" ==>
                  && out.state.steps[k].status.Approved? && out.state.log == c.log + [Entry(WasApproved, Some(k), user)]
                  && var next := NextPending(c.steps, k + 1);
                     out.state.status == if next < |c.steps| then Label(c.steps[next].kind) else FullyApproved)
            && (action == "return" ==>
                  && out.state.steps[k].status.Returned? && out.state.log == c.log + [Entry(WasReturned, Some(k), user)]
                  && out.state.status.SentBack?)
            && (action == "reject" ==>
                  && out.state.steps[k].status.Rejected? && out.state.log == c.log + [Entry(WasRejected, Some(k), user)]
                  && out.state.status.TurnedDown?))
  {
    hide NextPending, Label;
  }

  // ---------- to the bank ----------

  /** Each move past approval: from which status, to which, and what is logged. */
  lemma BankMoves(c: Case, user: User)
    ensures var dispatched, confirmed := DispatchRequest(c, user), ConfirmRequest(c, user);
      && (dispatched.result.Ok? <==> c.status.FullyApproved?)
      && (confirmed.result.Ok? <==> c.status.SentToBank?)
      && dispatched.state == (if c.status.FullyApproved?
                              then c.(status := SentToBank, log := c.log + [Entry(WasDispatched, None, user)]) else c)
      && confirmed.state == (if c.status.SentToBank?
                             then c.(status := Confirmed, log := c.log + [Entry(WasConfirmed, None, user)]) else c)
      && CloseByReconciliation(c) == (if c.status.SentToBank?
                                      then c.(status := Confirmed, log := c.log + [Entry(WasConfirmed, None, 0)])
                                      else c)
      && CrossCheck(c) == (if c.status.FullyApproved? || c.status.SentToBank? || c.status.Confirmed?
                           then c.(status := Reconciled) else c)
  {
  }

  // ---------- from submission to approval ----------

  /** Neither the request's own facts nor, once it is submitted, the kinds of its
      steps ever change, nor which of them are skipped. */
  predicate SameRequest(c: Case, c': Case) {
    c'.requestType == c.requestType && c'.amountKobo == c.amountKobo && c'.raisedBy == c.raisedBy
  }

  predicate SameChain(c: Case, c': Case) {
    && |c'.steps| == |c.steps|
    && forall k :: 0 <= k < |c.steps| ==>
         && c'.steps[k].kind == c.steps[k].kind
         && (c'.steps[k].status.Skipped? <==> c.steps[k].status.Skipped?)
  }

  lemma ChainStays(c: Case, m: CaseCommand)
    ensures SameRequest(c, ApplyCase(c, m))
    ensures !c.status.Draft? ==> !ApplyCase(c, m).status.Draft? && SameChain(c, ApplyCase(c, m))
  {
    if !c.status.Draft? { PayoutTheorems.StaysSubmitted(c, m); }
    hide StatusAfter, BuildSteps, Label;
    if m.Tick? {
      forall k | 0 <= k < |c.steps|
        ensures ApplyCase(c, m).steps[k].kind == c.steps[k].kind
        ensures ApplyCase(c, m).steps[k].status == c.steps[k].status
      {
        TickOnlyReassigns(c.steps[k], m.dbNow, m.now, m.roster);
      }
    }
  }

  lemma SameChainTransitive(a: Case, b: Case, c: Case)
    requires SameRequest(a, b) && SameRequest(b, c)
    ensures SameRequest(a, c)
    ensures SameChain(a, b) && SameChain(b, c) ==> SameChain(a, c)
  {
  }

  lemma {:induction false} ChainStaysAlong(c: Case, commands: seq<CaseCommand>)
    ensures SameRequest(c, RunCase(c, commands))
    ensures !c.status.Draft? ==> !RunCase(c, commands).status.Draft? && SameChain(c, RunCase(c, commands))
  {
    hide ApplyCase, SameChain, SameRequest;
    if commands == [] {
      ChainReflexive(c);
    } else {
      var before := RunCase(c, commands[..|commands| - 1]);
      ChainStaysAlong(c, commands[..|commands| - 1]);
      ChainStays(before, commands[|commands| - 1]);
      SameChainTransitive(c, before, RunCase(c, commands));
    }
  }

  lemma ChainReflexive(c: Case)
    ensures SameRequest(c, c) && SameChain(c, c)
  {
  }

  lemma {:induction false} RunConcat(c: Case, a: seq<CaseCommand>, b: seq<CaseCommand>)
    ensures RunCase(c, a + b) == RunCase(RunCase(c, a), b)
  {
    if b == [] {
      assert a + b == a;
    } else {
      RunConcat(c, a, b[..|b| - 1]);
      assert (a + b)[..|a + b| - 1] == a + b[..|b| - 1];
    }
  }

  /** Whatever came before a submission that succeeds and whatever follows: once the
      request is past approval without an objection, every step of its chain whose
      role was held at submission is approved, and every other was skipped. */
  lemma HeldStepsApproved(request: RequestType, amountKobo: int, raisedBy: User, before: seq<CaseCommand>,
      submit: CaseCommand, after: seq<CaseCommand>, k: nat)
    requires submit.Submit?
    requires var drafted := Life(request, amountKobo, raisedBy, before);
      SubmitRequest(drafted, submit.user, submit.pastCutOff, submit.onRegister, submit.approvers,
                    submit.now, submit.storedAt).result.Ok?
    requires k < |Specs(request, amountKobo, !submit.onRegister)|
    requires var c := Life(request, amountKobo, raisedBy, before + [submit] + after);
      Passed(c.status) && forall i :: 0 <= i < |c.log| ==> !PayoutTheorems.Objected(c.log[i])
    ensures var c := Life(request, amountKobo, raisedBy, before + [submit] + after);
      var specs := Specs(request, amountKobo, !submit.onRegister);
      && |c.steps| == |specs| && c.steps[k].kind == specs[k].kind
      && (if Held(submit.approvers, specs[k].role) then c.steps[k].status.Approved? else c.steps[k].status.Skipped?)
  {
    var drafted := Life(request, amountKobo, raisedBy, before);
    var made := NewCase(request, amountKobo, raisedBy);
    RunConcat(made, before + [submit], after);
    PayoutTheorems.RunSnoc(made, before, submit);
    var submitted := ApplyCase(drafted, submit);
    SubmittedExactly(drafted, submit.user, submit.pastCutOff, submit.onRegister, submit.approvers,
                     submit.now, submit.storedAt);
    ChainStaysAlong(made, before);
    ChainStaysAlong(submitted, after);
    PayoutTheorems.AllApprovedExactly(request, amountKobo, raisedBy, before + [submit] + after);
    NotDraftOnceSubmitted(drafted, submit);
    hide RunCase, Specs, SubmitRequest, NextPending, StepOf;
    StepRouted(Specs(request, amountKobo, !submit.onRegister)[k], submit.approvers, submit.now, submit.storedAt);
  }

  lemma NotDraftOnceSubmitted(c: Case, submit: CaseCommand)
    requires submit.Submit?
    requires SubmitRequest(c, submit.user, submit.pastCutOff, submit.onRegister, submit.approvers,
                           submit.now, submit.storedAt).result.Ok?
    ensures !ApplyCase(c, submit).status.Draft?
  {
    hide BuildSteps;
  }

  /** So a client payout, liquidation or transfer whose two signatories were known at
      submission is never past approval without objection unless both have approved. */
  lemma BothSignatories(request: RequestType, amountKobo: int, raisedBy: User, before: seq<CaseCommand>,
      submit: CaseCommand, after: seq<CaseCommand>)
    requires request.ClientPayout? || request.Liquidation? || request.Transfer?
    requires submit.Submit? && Held(submit.approvers, "SIGNATORY_1") && Held(submit.approvers, "SIGNATORY_2")
    requires var drafted := Life(request, amountKobo, raisedBy, before);
      SubmitRequest(drafted, submit.user, submit.pastCutOff, submit.onRegister, submit.approvers,
                    submit.now, submit.storedAt).result.Ok?
    requires var c := Life(request, amountKobo, raisedBy, before + [submit] + after);
      Passed(c.status) && forall i :: 0 <= i < |c.log| ==> !PayoutTheorems.Objected(c.log[i])
    ensures var steps := Life(request, amountKobo, raisedBy, before + [submit] + after).steps;
      && 5 <= |steps|
      && steps[|steps| - 2].kind.Signatory1? && steps[|steps| - 2].status.Approved?
      && steps[|steps| - 1].kind.Signatory2? && steps[|steps| - 1].status.Approved?
  {
    PayoutChain(request, amountKobo);
    var n := |Specs(request, amountKobo, !submit.onRegister)|;
    hide Life, Specs, SubmitRequest;
    HeldStepsApproved(request, amountKobo, raisedBy, before, submit, after, n - 2);
    HeldStepsApproved(request, amountKobo, raisedBy, before, submit, after, n - 1);
  }
}
