/** Vendor invoices: created, approved into the ledger, paid. Account 2101 is
    their control account. */
module Payables {
  import opened Basics
  import opened Sums
  import Ledger
  import LedgerInvariant
  import opened Postings

  const AP := "2101"
  const WHT := "2122"

  datatype PayableStatus = Pending | Approved | Paid

  /** A stored invoice line, its amount rounded to whole kobo by the table. */
  datatype InvoiceLine = InvoiceLine(account: string, amount: int)

  datatype Payable = Payable(
    status: PayableStatus,
    lines: seq<InvoiceLine>,
    gross: int,
    wht: int,
    net: int,
    amountPaid: int)

  datatype LineInput = LineInput(account: string, quantity: real, unitPrice: real)

  function Amount(l: LineInput): real {
    Product(l.quantity, l.unitPrice)
  }

  function Stored(l: LineInput): InvoiceLine {
    InvoiceLine(l.account, Round(Amount(l)))
  }

  datatype Vendor = Vendor(whtApplicable: bool, whtRate: real)

  datatype State = State(ledger: Ledger.State, payables: map<nat, Payable>, nextId: nat)

  function Init(periods: seq<Ledger.Period>): State {
    State(Ledger.Init(periods), map[], 0)
  }

  // ---------- amounts ----------

  function Gross(lines: seq<LineInput>): real {
    if lines == [] then 0.0
    else Gross(lines[..|lines| - 1]) + Amount(lines[|lines| - 1])
  }

  function Withheld(v: Vendor, gross: real): real {
    if v.whtApplicable then Product(gross, v.whtRate) / 100.0 else 0.0
  }

  function StoredLines(lines: seq<LineInput>): (s: seq<InvoiceLine>)
    ensures |s| == |lines|
  {
    seq(|lines|, i requires 0 <= i < |lines| => Stored(lines[i]))
  }

  function AmountSum(lines: seq<InvoiceLine>): int {
    if lines == [] then 0 else AmountSum(lines[..|lines| - 1]) + lines[|lines| - 1].amount
  }

  function AmountOn(lines: seq<InvoiceLine>, account: string): int {
    if lines == [] then 0
    else
      var l := lines[|lines| - 1];
      AmountOn(lines[..|lines| - 1], account) + if l.account == account then l.amount else 0
  }

  function DebitLines(lines: seq<InvoiceLine>): (s: seq<Ledger.Line>)
    ensures |s| == |lines|
  {
    seq(|lines|, i requires 0 <= i < |lines| => Ledger.Line(lines[i].account, lines[i].amount, 0))
  }

  /** Dr each expense, Cr payables, Cr withholding tax when there is any. */
  function ApprovalLines(p: Payable): seq<Ledger.Line> {
    DebitLines(p.lines) + [Ledger.Line(AP, 0, p.net)] + if p.wht > 0 then [Ledger.Line(WHT, 0, p.wht)] else []
  }

  function PaymentLines(p: Payable, bank: string): seq<Ledger.Line> {
    [Ledger.Line(AP, p.net - p.amountPaid, 0), Ledger.Line(bank, 0, p.net - p.amountPaid)]
  }

  // ---------- calls ----------

  function NewPayable(lines: seq<LineInput>, v: Vendor): Payable {
    var gross := Gross(lines);
    var wht := Withheld(v, gross);
    Payable(Pending, StoredLines(lines), Round(gross), Round(wht), Round(gross - wht), 0)
  }

  function CreatePayable(s: State, lines: seq<LineInput>, vendor: Option<Vendor>, invoiceDate: Option<Ledger.Date>)
    : Outcome<State, nat>
  {
    if lines == [] then Outcome(s, Err(TooFewLines))
    else if vendor.None? then Outcome(s, Err(NotFound))
    else if invoiceDate.None? then Outcome(s, Err(InvalidDate))
    else Outcome(s.(payables := s.payables[s.nextId := NewPayable(lines, vendor.value)], nextId := s.nextId + 1),
        Ok(s.nextId))
  }

  function ApprovePayable(s: State, id: nat, today: Ledger.Date, pick: nat): Outcome<State, ()> {
    if id !in s.payables then Outcome(s, Err(NotFound))
    else if !s.payables[id].status.Pending? then Outcome(s, Err(WrongStatus))
    else
      var input := Ledger.JournalInput(Some(today), "Payment", ApprovalLines(s.payables[id]));
      match CreateAndPost(s.ledger, input, pick)
      case Outcome(ledger, Err(e)) => Outcome(s.(ledger := ledger), Err(e))
      case Outcome(ledger, Ok(_)) =>
        Outcome(s.(ledger := ledger, payables := s.payables[id := s.payables[id].(status := Approved)]), Ok(()))
  }

  function PayPayable(s: State, id: nat, date: Option<Ledger.Date>, bank: string, pick: nat): Outcome<State, ()> {
    if id !in s.payables then Outcome(s, Err(NotFound))
    else if !s.payables[id].status.Approved? then Outcome(s, Err(WrongStatus))
    else
      var input := Ledger.JournalInput(date, "Payment", PaymentLines(s.payables[id], bank));
      match CreateAndPost(s.ledger, input, pick)
      case Outcome(ledger, Err(e)) => Outcome(s.(ledger := ledger), Err(e))
      case Outcome(ledger, Ok(_)) =>
        Outcome(s.(ledger := ledger,
                   payables := s.payables[id := s.payables[id].(status := Paid, amountPaid := s.payables[id].net)]),
                Ok(()))
  }

  datatype Command =
    | Create(lines: seq<LineInput>, vendor: Option<Vendor>, invoiceDate: Option<Ledger.Date>)
    | Approve(id: nat, today: Ledger.Date, pick: nat)
    | Pay(id: nat, date: Option<Ledger.Date>, bank: string, pick: nat)
    | Gl(command: Ledger.Command)

  /** One step of the whole system: a payable call or any other ledger call. */
  function Apply(s: State, c: Command): State {
    match c
    case Create(lines, vendor, date) => CreatePayable(s, lines, vendor, date).state
    case Approve(id, today, pick) => ApprovePayable(s, id, today, pick).state
    case Pay(id, date, bank, pick) => PayPayable(s, id, date, bank, pick).state
    case Gl(command) => s.(ledger := Ledger.Apply(s.ledger, command))
  }

  function Run(s: State, commands: seq<Command>): State {
    if commands == [] then s
    else Apply(Run(s, commands[..|commands| - 1]), commands[|commands| - 1])
  }

  // ---------- the approval journal ----------

  lemma {:induction false} DebitLinesSums(lines: seq<InvoiceLine>, account: string)
    ensures Ledger.DebitSum(DebitLines(lines)) == AmountSum(lines)
    ensures Ledger.CreditSum(DebitLines(lines)) == 0
    ensures Ledger.Net(DebitLines(lines), account) == AmountOn(lines, account)
  {
    if lines != [] {
      var front := lines[..|lines| - 1];
      DebitLinesSums(front, account);
      assert DebitLines(lines)[..|lines| - 1] == DebitLines(front);
    }
  }

  lemma ApprovalSums(p: Payable, account: string)
    ensures Ledger.DebitSum(ApprovalLines(p)) == AmountSum(p.lines)
    ensures Ledger.CreditSum(ApprovalLines(p)) == p.net + Max(p.wht, 0)
    ensures Ledger.Net(ApprovalLines(p), account)
            == AmountOn(p.lines, account) - (if account == AP then p.net else 0)
                - (if account == WHT then Max(p.wht, 0) else 0)
  {
    DebitLinesSums(p.lines, account);
    var upToAp := DebitLines(p.lines) + [Ledger.Line(AP, 0, p.net)];
    Ledger.SumsAppend(DebitLines(p.lines), Ledger.Line(AP, 0, p.net), account);
    Ledger.SumsAppend(upToAp, Ledger.Line(WHT, 0, p.wht), account);
    assert upToAp + [] == upToAp;
  }

  /** Exactly when an invoice can be approved: its stored amounts re-add to
      within one kobo, none is negative, every line has an account, and the
      period the lookup finds is open. */
  lemma ApprovedExactly(s: State, id: nat, today: Ledger.Date, pick: nat)
    requires id in s.payables && s.payables[id].status.Pending? && s.payables[id].lines != []
    ensures var p := s.payables[id];
      ApprovePayable(s, id, today, pick).result.Ok? <==>
        && Abs(AmountSum(p.lines) - p.net - Max(p.wht, 0)) <= 1
        && (forall k :: 0 <= k < |p.lines| ==> p.lines[k].amount >= 0 && p.lines[k].account != "")
        && p.net >= 0
        && Ledger.PeriodStatusForDate(s.ledger.periods, today, pick).Open?
  {
    var p := s.payables[id];
    AcceptedExactly(s.ledger, Ledger.JournalInput(Some(today), "Payment", ApprovalLines(p)), pick);
    ApprovalSums(p, "");
    ApprovalLinesGood(p);
  }

  lemma ApprovalLinesGood(p: Payable)
    ensures (forall k :: 0 <= k < |ApprovalLines(p)| ==> Ledger.GoodLine(ApprovalLines(p)[k])) <==>
            (forall k :: 0 <= k < |p.lines| ==> p.lines[k].amount >= 0 && p.lines[k].account != "") && p.net >= 0
  {
    var lines := ApprovalLines(p);
    assert forall k :: 0 <= k < |p.lines| ==> lines[k] == Ledger.Line(p.lines[k].account, p.lines[k].amount, 0);
    assert lines[|p.lines|] == Ledger.Line(AP, 0, p.net);
    assert forall k :: |p.lines| < k < |lines| ==> lines[k] == Ledger.Line(WHT, 0, p.wht);
    if forall k :: 0 <= k < |lines| ==> Ledger.GoodLine(lines[k]) {
      assert forall k :: 0 <= k < |p.lines| ==> Ledger.GoodLine(lines[k]);
    }
  }

  predicate WholeKobo(x: real) {
    x == x.Floor as real
  }

  /** No rounding takes place anywhere in the invoice. */
  predicate Exact(lines: seq<LineInput>, v: Vendor) {
    && (forall k :: 0 <= k < |lines| ==> WholeKobo(Amount(lines[k])))
    && WholeKobo(Withheld(v, Gross(lines)))
  }

  lemma {:induction false} StoredSum(lines: seq<LineInput>)
    ensures AmountSum(StoredLines(lines)) as real - Gross(lines) <= |lines| as real / 2.0
    ensures Gross(lines) - AmountSum(StoredLines(lines)) as real <= |lines| as real / 2.0
    ensures (forall k :: 0 <= k < |lines| ==> WholeKobo(Amount(lines[k]))) ==>
              AmountSum(StoredLines(lines)) as real == Gross(lines)
  {
    if lines != [] {
      var front := lines[..|lines| - 1];
      StoredSum(front);
      assert StoredLines(lines)[..|lines| - 1] == StoredLines(front);
    }
  }

  /** The stored amounts of a new invoice balance whenever nothing is rounded; in
      general they are out by at most half a kobo a line plus one. A one-line
      invoice is therefore never refused for imbalance. */
  lemma InvoiceRounding(lines: seq<LineInput>, v: Vendor)
    ensures var p := NewPayable(lines, v);
      && (Exact(lines, v) ==> AmountSum(p.lines) == p.net + p.wht)
      && 2 * Abs(AmountSum(p.lines) - p.net - p.wht) <= |lines| + 2
      && (|lines| == 1 ==> Abs(AmountSum(p.lines) - p.net - p.wht) <= 1)
  {
    StoredSum(lines);
    var gross := Gross(lines);
    var wht := Withheld(v, gross);
    if Exact(lines, v) {
      RoundWhole(AmountSum(StoredLines(lines)));
      RoundWhole(wht.Floor);
      RoundWhole(AmountSum(StoredLines(lines)) - wht.Floor);
    }
  }

  lemma GrossAppend(lines: seq<LineInput>, l: LineInput)
    ensures Gross(lines + [l]) == Gross(lines) + Amount(l)
  {
    assert (lines + [l])[..|lines|] == lines;
  }

  lemma AmountAppend(lines: seq<InvoiceLine>, l: InvoiceLine)
    ensures AmountSum(lines + [l]) == AmountSum(lines) + l.amount
  {
    assert (lines + [l])[..|lines|] == lines;
  }

  function HalfKoboLine(): LineInput {
    LineInput("5100", 0.5, 1.0)
  }

  function FineLines(): seq<LineInput> {
    [HalfKoboLine(), HalfKoboLine(), HalfKoboLine(), HalfKoboLine()]
  }

  lemma HalfAppend(lines: seq<LineInput>)
    ensures Gross(lines + [HalfKoboLine()]) == Gross(lines) + 0.5
  {
    GrossAppend(lines, HalfKoboLine());
  }

  lemma FineLinesGross()
    ensures Gross(FineLines()) == 2.0
  {
    var none: seq<LineInput> := [];
    HalfAppend(none);
    HalfAppend(none + [HalfKoboLine()]);
    HalfAppend(none + [HalfKoboLine()] + [HalfKoboLine()]);
    HalfAppend(none + [HalfKoboLine()] + [HalfKoboLine()] + [HalfKoboLine()]);
    assert FineLines() == none + [HalfKoboLine()] + [HalfKoboLine()] + [HalfKoboLine()] + [HalfKoboLine()];
  }

  lemma HalfStored(lines: seq<LineInput>)
    ensures AmountSum(StoredLines(lines + [HalfKoboLine()])) == AmountSum(StoredLines(lines)) + 1
  {
    AmountAppend(StoredLines(lines), InvoiceLine("5100", 1));
    assert StoredLines(lines + [HalfKoboLine()]) == StoredLines(lines) + [InvoiceLine("5100", 1)];
  }

  lemma FineLinesStored()
    ensures AmountSum(StoredLines(FineLines())) == 4
  {
    hide StoredLines;
    var none: seq<LineInput> := [];
    NoLinesStored();
    HalfStored(none);
    HalfStored(none + [HalfKoboLine()]);
    HalfStored(none + [HalfKoboLine()] + [HalfKoboLine()]);
    HalfStored(none + [HalfKoboLine()] + [HalfKoboLine()] + [HalfKoboLine()]);
    assert FineLines() == none + [HalfKoboLine()] + [HalfKoboLine()] + [HalfKoboLine()] + [HalfKoboLine()];
  }

  lemma NoLinesStored()
    ensures AmountSum(StoredLines([])) == 0
  {
    assert StoredLines([]) == [];
  }

  /** Four lines of half a kobo each round up to four kobo against a net of two:
      the approval is refused. */
  lemma FineLinesRefused(s: State, today: Ledger.Date, pick: nat)
    ensures var made := CreatePayable(s, FineLines(), Some(Vendor(false, 0.0)), Some(today));
      && made.result.Ok?
      && ApprovePayable(made.state, made.result.value, today, pick).result.Err?
  {
    FineLinesGross();
    FineLinesStored();
    RoundWhole(2);
    RoundWhole(0);
    var made := CreatePayable(s, FineLines(), Some(Vendor(false, 0.0)), Some(today));
    assert made.state.payables[made.result.value].net == 2;
    ApprovedExactly(made.state, made.result.value, today, pick);
  }

  // ---------- the ledger underneath ----------

  lemma ApplyLedger(s: State, c: Command)
    requires LedgerInvariant.Valid(s.ledger)
    ensures LedgerInvariant.Valid(Apply(s, c).ledger)
  {
    hide LedgerInvariant.Valid, CreateAndPost, NewPayable, Ledger.Apply, ApprovalLines, PaymentLines;
    match c
    case Create(lines, vendor, date) =>
    case Approve(id, today, pick) =>
      if id in s.payables {
        CreateAndPostValid(s.ledger, Ledger.JournalInput(Some(today), "Payment", ApprovalLines(s.payables[id])), pick);
      }
    case Pay(id, date, bank, pick) =>
      if id in s.payables {
        CreateAndPostValid(s.ledger, Ledger.JournalInput(date, "Payment", PaymentLines(s.payables[id], bank)), pick);
      }
    case Gl(command) => LedgerInvariant.ApplyValid(s.ledger, command);
  }

  /** Whatever payable and ledger calls come, the ledger keeps its own invariant. */
  lemma {:induction false} LedgerStaysValid(periods: seq<Ledger.Period>, commands: seq<Command>)
    ensures LedgerInvariant.Valid(Run(Init(periods), commands).ledger)
  {
    if commands == [] {
      LedgerInvariant.RunValid(periods, []);
    } else {
      hide LedgerInvariant.Valid, Apply;
      LedgerStaysValid(periods, commands[..|commands| - 1]);
      ApplyLedger(Run(Init(periods), commands[..|commands| - 1]), commands[|commands| - 1]);
    }
  }

  // ---------- the control account ----------

  function OutstandingAt(payables: map<nat, Payable>, i: nat): int {
    if i in payables && payables[i].status.Approved? then payables[i].net - payables[i].amountPaid else 0
  }

  function OutstandingOf(payables: map<nat, Payable>): nat -> int {
    (i: nat) => OutstandingAt(payables, i)
  }

  /** What is owed on approved invoices. */
  function Outstanding(s: State): int {
    Sum(OutstandingOf(s.payables), s.nextId)
  }

  /** By how much the net credit on 2101 exceeds what is owed. */
  function Gap(s: State): int {
    -Ledger.Balance(s.ledger, AP) - Outstanding(s)
  }

  ghost predicate Keyed(s: State) {
    LedgerInvariant.IdsBelow(s.ledger) && forall i :: i in s.payables ==> i < s.nextId
  }

  lemma CreateGap(s: State, lines: seq<LineInput>, vendor: Option<Vendor>, date: Option<Ledger.Date>)
    requires Keyed(s)
    ensures var s' := CreatePayable(s, lines, vendor, date).state; Keyed(s') && Gap(s') == Gap(s)
  {
    var s' := CreatePayable(s, lines, vendor, date).state;
    SumSame(OutstandingOf(s.payables), OutstandingOf(s'.payables), s.nextId);
  }

  /** Approval widens the gap by exactly what the invoice itself debits to 2101. */
  lemma ApproveGap(s: State, id: nat, today: Ledger.Date, pick: nat)
    requires Keyed(s) && id in s.payables && s.payables[id].amountPaid == 0
    ensures var out := ApprovePayable(s, id, today, pick);
      && Keyed(out.state)
      && Gap(out.state) == Gap(s) - if out.result.Ok? then AmountOn(s.payables[id].lines, AP) else 0
  {
    hide Ledger.Balance, Ledger.Net, CreateAndPost, ApprovalLines, AmountOn;
    var p := s.payables[id];
    var input := Ledger.JournalInput(Some(today), "Payment", ApprovalLines(p));
    var s' := ApprovePayable(s, id, today, pick).state;
    CreateAndPostEffect(s.ledger, input, pick, AP);
    CreateAndPostIds(s.ledger, input, pick);
    ApprovalSums(p, AP);
    SumPoint(OutstandingOf(s.payables), OutstandingOf(s'.payables), s.nextId, id);
  }

  /** Payment leaves the gap alone unless the money comes out of 2101 itself. */
  lemma PayGap(s: State, id: nat, date: Option<Ledger.Date>, bank: string, pick: nat)
    requires Keyed(s) && id in s.payables
    ensures var out := PayPayable(s, id, date, bank, pick);
      && Keyed(out.state)
      && Gap(out.state) == Gap(s)
           + if out.result.Ok? && bank == AP then s.payables[id].net - s.payables[id].amountPaid else 0
  {
    hide Ledger.Balance, Ledger.Net, CreateAndPost;
    var p := s.payables[id];
    var lines := PaymentLines(p, bank);
    var input := Ledger.JournalInput(date, "Payment", lines);
    var s' := PayPayable(s, id, date, bank, pick).state;
    CreateAndPostEffect(s.ledger, input, pick, AP);
    CreateAndPostIds(s.ledger, input, pick);
    Ledger.SumsOfPair(lines[0], lines[1], AP);
    SumPoint(OutstandingOf(s.payables), OutstandingOf(s'.payables), s.nextId, id);
  }

  lemma GlGap(s: State, c: Ledger.Command)
    requires Keyed(s) && LeavesAlone(s.ledger, c, AP)
    ensures var s' := s.(ledger := Ledger.Apply(s.ledger, c)); Keyed(s') && Gap(s') == Gap(s)
  {
    LeftAlone(s.ledger, c, AP);
    ApplyIds(s.ledger, c);
  }

  /** No invoice line and no payment names 2101, and no other ledger call books a
      line on it: in particular, none of these journals is reversed. */
  predicate KeepsToItself(s: State, c: Command) {
    match c
    case Create(lines, _, _) => forall k :: 0 <= k < |lines| ==> lines[k].account != AP
    case Approve(_, _, _) => true
    case Pay(_, _, bank, _) => bank != AP
    case Gl(command) => LeavesAlone(s.ledger, command, AP)
  }

  predicate CleanRun(s: State, commands: seq<Command>) {
    commands == [] ||
    (var before := commands[..|commands| - 1];
     CleanRun(s, before) && KeepsToItself(Run(s, before), commands[|commands| - 1]))
  }

  predicate OffControl(lines: seq<InvoiceLine>) {
    forall k :: 0 <= k < |lines| ==> lines[k].account != AP
  }

  lemma {:induction false} OffControlAmount(lines: seq<InvoiceLine>)
    requires OffControl(lines)
    ensures AmountOn(lines, AP) == 0
  {
    if lines != [] { OffControlAmount(lines[..|lines| - 1]); }
  }

  ghost predicate Consistent(s: State) {
    && Keyed(s)
    && Gap(s) == 0
    && forall i :: i in s.payables ==>
         && OffControl(s.payables[i].lines)
         && s.payables[i].amountPaid == (if s.payables[i].status.Paid? then s.payables[i].net else 0)
  }

  lemma ControlStep(s: State, c: Command)
    requires Consistent(s) && KeepsToItself(s, c)
    ensures Consistent(Apply(s, c))
  {
    hide Gap, Ledger.Balance, CreateAndPost, AmountOn;
    match c
    case Create(lines, vendor, date) => CreateGap(s, lines, vendor, date);
    case Approve(id, today, pick) =>
      if id in s.payables && s.payables[id].status.Pending? {
        OffControlAmount(s.payables[id].lines);
        ApproveGap(s, id, today, pick);
      }
    case Pay(id, date, bank, pick) => if id in s.payables { PayGap(s, id, date, bank, pick); }
    case Gl(command) => GlGap(s, command);
  }

  /** Over every run of payable calls mixed with ledger calls that keep off 2101:
      its net credit is the total outstanding on approved invoices, and a paid
      invoice has nothing outstanding. */
  lemma {:induction false} ControlAccountAgrees(periods: seq<Ledger.Period>, commands: seq<Command>)
    requires CleanRun(Init(periods), commands)
    ensures var s := Run(Init(periods), commands);
      && Consistent(s)
      && -Ledger.Balance(s.ledger, AP) == Outstanding(s)
      && forall i :: i in s.payables && s.payables[i].status.Paid? ==> s.payables[i].amountPaid == s.payables[i].net
  {
    if commands != [] {
      var before := commands[..|commands| - 1];
      ControlAccountAgrees(periods, before);
      ControlStep(Run(Init(periods), before), commands[|commands| - 1]);
    }
  }

  // ---------- what each call does ----------

  /** A new invoice is stored when it has lines, a known vendor and a date: each line
      at quantity times price to half a kobo, the total, the vendor's percentage of it
      withheld, if any, and the rest net, each to half a kobo. */
  lemma InvoicedAsGiven(s: State, lines: seq<LineInput>, vendor: Option<Vendor>, date: Option<Ledger.Date>)
    ensures var out := CreatePayable(s, lines, vendor, date);
      && (out.result.Ok? <==> lines != [] && vendor.Some? && date.Some?)
      && (out.result.Err? ==> out.state == s)
      && (out.result.Ok? ==>
            && out.result.value == s.nextId && s.nextId in out.state.payables && out.state.ledger == s.ledger
            && var p, v, gross := out.state.payables[s.nextId], vendor.value, Gross(lines);
               && out.state.payables == s.payables[s.nextId := p] && out.state.nextId == s.nextId + 1
               && p.status.Pending? && p.amountPaid == 0 && |p.lines| == |lines|
               && (forall k :: 0 <= k < |lines| ==> LineAsGiven(p.lines[k], lines[k]))
               && -0.5 <= p.gross as real - gross <= 0.5
               && (!v.whtApplicable ==> p.wht == 0 && p.net == p.gross)
               && (v.whtApplicable ==>
                     && -50.0 <= (100 * p.wht) as real - Product(gross, v.whtRate) <= 50.0
                     && -50.0 <= (100 * p.net) as real - (100.0 * gross - Product(gross, v.whtRate)) <= 50.0))
  {
    RoundWhole(0);
    hide Round, Gross, Product;
  }

  predicate LineAsGiven(l: InvoiceLine, input: LineInput) {
    && l.account == input.account
    && -0.5 <= l.amount as real - Product(input.quantity, input.unitPrice) <= 0.5
  }

  /** Approval debits each line's account, credits the net to 2101 and what is withheld
      to 2122, and marks the invoice approved; a refusal does neither. */
  lemma ApprovalPosted(s: State, id: nat, today: Ledger.Date, pick: nat, account: string)
    requires LedgerInvariant.IdsBelow(s.ledger) && id in s.payables
    ensures var p, out := s.payables[id], ApprovePayable(s, id, today, pick);
      var change := Ledger.Balance(out.state.ledger, account) - Ledger.Balance(s.ledger, account);
      && (out.result.Err? ==> change == 0 && out.state.payables == s.payables)
      && (out.result.Ok? ==>
            && p.status.Pending? && out.state.payables == s.payables[id := p.(status := Approved)]
            && BookedNow(s.ledger, out.state.ledger, today, "Payment")
            && change == AmountOn(p.lines, account) - (if account == "2101" then p.net else 0)
                         - (if account == "2122" && 0 < p.wht then p.wht else 0))
  {
    hide Ledger.Balance, Ledger.Net, CreateAndPost, ApprovalLines, AmountOn;
    var p := s.payables[id];
    hide BookedNow;
    var input := Ledger.JournalInput(Some(today), "Payment", ApprovalLines(p));
    CreateAndPostEffect(s.ledger, input, pick, account);
    ApprovalSums(p, account);
    if CreateAndPost(s.ledger, input, pick).result.Ok? { PostedAsGiven(s.ledger, input, pick); }
  }

  /** Payment is of an approved invoice, of all that is outstanding: 2101 is debited,
      the bank credited, and the invoice paid to its net; a refusal does neither. */
  lemma PaymentPosted(s: State, id: nat, date: Option<Ledger.Date>, bank: string, pick: nat, account: string)
    requires LedgerInvariant.IdsBelow(s.ledger) && id in s.payables
    ensures var p, out := s.payables[id], PayPayable(s, id, date, bank, pick);
      var change := Ledger.Balance(out.state.ledger, account) - Ledger.Balance(s.ledger, account);
      && (out.result.Err? ==> change == 0 && out.state.payables == s.payables)
      && (out.result.Ok? ==>
            && p.status.Approved? && out.state.payables == s.payables[id := p.(status := Paid, amountPaid := p.net)]
            && date.Some? && BookedNow(s.ledger, out.state.ledger, date.value, "Payment")
            && change == (if account == "2101" then p.net - p.amountPaid else 0)
                         - (if account == bank then p.net - p.amountPaid else 0))
  {
    hide Ledger.Balance, Ledger.Net, CreateAndPost;
    var lines := PaymentLines(s.payables[id], bank);
    hide BookedNow;
    var input := Ledger.JournalInput(date, "Payment", lines);
    CreateAndPostEffect(s.ledger, input, pick, account);
    Ledger.SumsOfPair(lines[0], lines[1], account);
    AcceptedExactly(s.ledger, input, pick);
    hide Acceptable;
    if CreateAndPost(s.ledger, input, pick).result.Ok? { PostedAsGiven(s.ledger, input, pick); }
  }
}
