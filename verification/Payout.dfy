/** Payment requests and their approval chain. A request, its steps and its action
    log form one case; each service call is one atomic step on a case. Times are
    in microseconds. */
module Payout {
  import opened Basics

  /** Zero stands for the nil identifier: nobody. */
  type User = nat
  const NOBODY: User := 0

  datatype RequestType = ClientPayout | Liquidation | Transfer | Expense | Placement

  datatype StepType =
    | HeadConcur | InternalControl | Compliance | FinanceCheck
    | Signatory1 | Signatory2 | ManagingDirector | ChiefExecutive

  datatype StepStatus = Pending | Approved | Returned | Rejected | Skipped

  datatype RequestStatus =
    | Draft | Submitted | InHeadConcur | InInternalControl | InCompliance | InFinanceCheck | InSignatories
    | FullyApproved | SentToBank | Confirmed | Reconciled | SentBack | TurnedDown

  datatype Step = Step(
    kind: StepType,
    assignedTo: User,
    standInFor: Option<User>,
    status: StepStatus,
    dueBy: int,
    createdAt: int,
    reminderSentAt: Option<int>,
    escalatedAt: Option<int>)

  datatype Action = WasSubmitted | WasApproved | WasReturned | WasRejected | WasDispatched | WasConfirmed

  datatype Entry = Entry(action: Action, step: Option<nat>, actor: User)

  datatype Case = Case(
    requestType: RequestType,
    amountKobo: int,
    raisedBy: User,
    complianceFlagged: bool,
    status: RequestStatus,
    steps: seq<Step>,
    log: seq<Entry>)

  // ---------- routing ----------

  const MINUTE := 60_000_000
  const FAST := 20
  const FOUR_HOURS := 4 * 60
  const EIGHT_HOURS := 8 * 60

  /** The amount, in kobo, up to which an expense needs no chief executive:
      100,000 naira. */
  const EXPENSE_THRESHOLD := 10_000_000

  function StepLimitMinutes(step: StepType, request: RequestType, amountKobo: int): int {
    match request
    case ClientPayout | Liquidation | Transfer | Placement => FAST
    case Expense =>
      match step
      case HeadConcur | InternalControl => FOUR_HOURS
      case FinanceCheck | ManagingDirector | ChiefExecutive => EIGHT_HOURS
      case _ => FAST
  }

  datatype StepSpec = StepSpec(kind: StepType, role: string, limitMinutes: int)

  /** The steps a request calls for, before anyone is assigned. */
  function Specs(request: RequestType, amountKobo: int, flagged: bool): seq<StepSpec> {
    match request
    case ClientPayout | Liquidation | Transfer =>
      [StepSpec(HeadConcur, "HEAD_OF_DEPT", FAST), StepSpec(InternalControl, "INTERNAL_CONTROL", FAST)]
      + (if flagged then [StepSpec(Compliance, "COMPLIANCE", FAST)] else [])
      + [StepSpec(FinanceCheck, "FINANCE", FAST), StepSpec(Signatory1, "SIGNATORY_1", FAST),
         StepSpec(Signatory2, "SIGNATORY_2", FAST)]
    case Expense =>
      [StepSpec(HeadConcur, "HEAD_OF_DEPT", FOUR_HOURS), StepSpec(InternalControl, "INTERNAL_CONTROL", FOUR_HOURS),
       StepSpec(FinanceCheck, "FINANCE", EIGHT_HOURS), StepSpec(ManagingDirector, "MD", EIGHT_HOURS)]
      + if amountKobo <= EXPENSE_THRESHOLD then [] else [StepSpec(ChiefExecutive, "CEO", EIGHT_HOURS)]
    case Placement =>
      [StepSpec(HeadConcur, "HEAD_OF_DEPT", FAST), StepSpec(InternalControl, "INTERNAL_CONTROL", FAST),
       StepSpec(FinanceCheck, "FINANCE", FAST), StepSpec(ManagingDirector, "MD", FAST)]
  }

  /** A role without a holder is skipped. `storedAt` is the database's clock when
      the row goes in; `now` is the caller's. */
  function StepOf(spec: StepSpec, approvers: map<string, User>, now: int, storedAt: int): Step {
    var assignee := if spec.role in approvers then approvers[spec.role] else NOBODY;
    if assignee == NOBODY
    then Step(spec.kind, assignee, None, Skipped, now, storedAt, None, None)
    else Step(spec.kind, assignee, None, Pending, now + spec.limitMinutes * MINUTE, storedAt, None, None)
  }

  function BuildSteps(c: Case, flagged: bool, approvers: map<string, User>, now: int, storedAt: int): (steps: seq<Step>)
    ensures |steps| == |Specs(c.requestType, c.amountKobo, flagged)|
  {
    var specs := Specs(c.requestType, c.amountKobo, flagged);
    seq(|specs|, i requires 0 <= i < |specs| => StepOf(specs[i], approvers, now, storedAt))
  }

  /** The request status while a step of this kind is the active one. */
  function Label(kind: StepType): RequestStatus {
    match kind
    case HeadConcur => InHeadConcur
    case InternalControl => InInternalControl
    case Compliance => InCompliance
    case FinanceCheck | ManagingDirector | ChiefExecutive => InFinanceCheck
    case Signatory1 | Signatory2 => InSignatories
  }

  // ---------- calls ----------

  function NewCase(request: RequestType, amountKobo: int, raisedBy: User): Case {
    Case(request, amountKobo, raisedBy, false, Draft, [], [])
  }

  /** The lowest pending step from index `i` on, or the length of the chain. */
  function NextPending(steps: seq<Step>, i: nat): (k: nat)
    requires i <= |steps|
    ensures i <= k <= |steps|
    ensures forall m :: i <= m < k ==> !steps[m].status.Pending?
    ensures k < |steps| ==> steps[k].status.Pending?
    decreases |steps| - i
  {
    if i == |steps| || steps[i].status.Pending? then i else NextPending(steps, i + 1)
  }

  predicate CutOffApplies(request: RequestType) {
    request.ClientPayout? || request.Liquidation? || request.Transfer?
  }

  function SubmitRequest(c: Case, user: User, pastCutOff: bool, onRegister: bool,
                         approvers: map<string, User>, now: int, storedAt: int): Outcome<Case, ()>
  {
    if !c.status.Draft? then Outcome(c, Err(RequestLocked))
    else if c.raisedBy != user then Outcome(c, Err(Forbidden))
    else if CutOffApplies(c.requestType) && pastCutOff then Outcome(c, Err(PastCutOff))
    else
      var steps := BuildSteps(c, !onRegister, approvers, now, storedAt);
      var k := NextPending(steps, 0);
      Outcome(c.(complianceFlagged := !onRegister,
                 steps := steps,
                 status := if k < |steps| then Label(steps[k].kind) else Submitted,
                 log := c.log + [Entry(WasSubmitted, None, user)]), Ok(()))
  }

  function ParseAction(action: string): Option<Action> {
    if action == "approve" then Some(WasApproved)
    else if action == "return" then Some(WasReturned)
    else if action == "reject" then Some(WasRejected)
    else None
  }

  function DecidedStatus(a: Action): StepStatus {
    match a
    case WasApproved => Approved
    case WasReturned => Returned
    case WasRejected => Rejected
    case _ => Pending
  }

  /** The request status after a decision on step `k`. */
  function StatusAfter(steps: seq<Step>, k: nat, a: Action): RequestStatus
    requires k < |steps|
  {
    match a
    case WasReturned => SentBack
    case WasRejected => TurnedDown
    case _ =>
      var next := NextPending(steps, k + 1);
      if next < |steps| then Label(steps[next].kind) else FullyApproved
  }

  /** Decide the lowest pending step. The status of the request is not looked at. */
  function ActOnStep(c: Case, user: User, action: string): Outcome<Case, ()> {
    var k := NextPending(c.steps, 0);
    if k == |c.steps| then Outcome(c, Err(AlreadyDone))
    else if c.steps[k].assignedTo != user then Outcome(c, Err(NotYourStep))
    else if action == "approve" && c.raisedBy == user then Outcome(c, Err(Forbidden))
    else
      match ParseAction(action)
      case None => Outcome(c, Err(UnknownAction))
      case Some(a) =>
        Outcome(c.(steps := c.steps[k := c.steps[k].(status := DecidedStatus(a))],
                   status := StatusAfter(c.steps, k, a),
                   log := c.log + [Entry(a, Some(k), user)]), Ok(()))
  }

  function DispatchRequest(c: Case, user: User): Outcome<Case, ()> {
    if !c.status.FullyApproved? then Outcome(c, Err(RequestLocked))
    else Outcome(c.(status := SentToBank, log := c.log + [Entry(WasDispatched, None, user)]), Ok(()))
  }

  function ConfirmRequest(c: Case, user: User): Outcome<Case, ()> {
    if !c.status.SentToBank? then Outcome(c, Err(RequestLocked))
    else Outcome(c.(status := Confirmed, log := c.log + [Entry(WasConfirmed, None, user)]), Ok(()))
  }

  /** A bank line names the request: confirm it if it is at the bank, else nothing. */
  function CloseByReconciliation(c: Case): Case {
    if c.status.SentToBank?
    then c.(status := Confirmed, log := c.log + [Entry(WasConfirmed, None, NOBODY)])
    else c
  }

  /** The three-way match of the reconciliation module moves the request on
      without a log entry. */
  function CrossCheck(c: Case): Case {
    if c.status.FullyApproved? || c.status.SentToBank? || c.status.Confirmed? then c.(status := Reconciled) else c
  }

  // ---------- the scheduler ----------

  /** What the scheduler finds: whom it can mail, whose stand-in lookup fails, and
      who stands in for whom. */
  datatype Roster = Roster(mailable: set<User>, lookupFails: set<User>, standIns: map<User, User>)

  /** Whole minutes between creation and due time, truncated. */
  function WindowMinutes(s: Step): int {
    var d := s.dueBy - s.createdAt;
    if d < 0 then -((-d) / MINUTE) else d / MINUTE
  }

  predicate Overdue(s: Step, dbNow: int) {
    s.status.Pending? && s.dueBy < dbNow
  }

  predicate EscalationDue(s: Step, now: int) {
    s.escalatedAt.None? && s.dueBy + WindowMinutes(s) * MINUTE < now
  }

  function Remind(s: Step, dbNow: int, now: int, r: Roster): Step {
    if s.reminderSentAt.None? && s.dueBy < now && s.assignedTo in r.mailable
    then s.(reminderSentAt := Some(dbNow)) else s
  }

  function Escalate(s: Step, dbNow: int, now: int, r: Roster): Step {
    if EscalationDue(s, now) && s.assignedTo !in r.lookupFails && s.assignedTo in r.standIns
    then s.(standInFor := Some(s.assignedTo), assignedTo := r.standIns[s.assignedTo], escalatedAt := Some(dbNow))
    else s
  }

  /** One scheduler pass over one step, by the database's clock and the caller's. */
  function TickStep(s: Step, dbNow: int, now: int, r: Roster): Step {
    if Overdue(s, dbNow) then Escalate(Remind(s, dbNow, now, r), dbNow, now, r) else s
  }

  function TickSteps(steps: seq<Step>, dbNow: int, now: int, r: Roster): (t: seq<Step>)
    ensures |t| == |steps|
  {
    seq(|steps|, i requires 0 <= i < |steps| => TickStep(steps[i], dbNow, now, r))
  }

  function TickCase(c: Case, dbNow: int, now: int, r: Roster): Case {
    c.(steps := TickSteps(c.steps, dbNow, now, r))
  }

  // ---------- runs ----------

  datatype CaseCommand =
    | Submit(user: User, pastCutOff: bool, onRegister: bool, approvers: map<string, User>, now: int, storedAt: int)
    | Act(user: User, action: string)
    | Dispatch(user: User)
    | Confirm(user: User)
    | CloseByBankLine
    | ThreeWayMatch
    | Tick(dbNow: int, now: int, roster: Roster)

  function ApplyCase(c: Case, m: CaseCommand): Case {
    match m
    case Submit(user, past, register, approvers, now, storedAt) =>
      SubmitRequest(c, user, past, register, approvers, now, storedAt).state
    case Act(user, action) => ActOnStep(c, user, action).state
    case Dispatch(user) => DispatchRequest(c, user).state
    case Confirm(user) => ConfirmRequest(c, user).state
    case CloseByBankLine => CloseByReconciliation(c)
    case ThreeWayMatch => CrossCheck(c)
    case Tick(dbNow, now, r) => TickCase(c, dbNow, now, r)
  }

  function RunCase(c: Case, commands: seq<CaseCommand>): Case {
    if commands == [] then c
    else ApplyCase(RunCase(c, commands[..|commands| - 1]), commands[|commands| - 1])
  }

  /** The life of one request, from its creation, under any interleaving of calls
      and scheduler passes. */
  function Life(request: RequestType, amountKobo: int, raisedBy: User, commands: seq<CaseCommand>): Case {
    RunCase(NewCase(request, amountKobo, raisedBy), commands)
  }
}
