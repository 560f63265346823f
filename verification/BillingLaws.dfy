/** Laws of the billing services over every run of them. */
module BillingLaws {
  import opened Prelude
  import opened Calendar
  import opened Billing

  // ---- Prices ----

  lemma RoundHalfEvenNearest(p: nat, d: nat)
    requires d > 0
    ensures 0 - d <= 2 * (RoundHalfEven(p, d) * d - p) <= d
    ensures 2 * (RoundHalfEven(p, d) * d - p) == d || 2 * (RoundHalfEven(p, d) * d - p) == 0 - d
            ==> RoundHalfEven(p, d) % 2 == 0
  {
    var q, r := p / d, p % d;
    assert p == q * d + r;
    assert (q + 1) * d == q * d + d;
  }

  /** A month of days costs the monthly price to within half a unit a day. */
  lemma MonthOfDailyRates(price: nat, day: Date)
    requires Valid(day)
    ensures var days := DaysInMonth(day.year, day.month);
            0 - days <= 2 * (DailyRate(price, day) * days - price) <= days
  {
    RoundHalfEvenNearest(price, DaysInMonth(day.year, day.month));
  }

  // ---- Runs ----

  /** One step of a company's billing life: the jobs, the payments, the three
      services over a subscription, the buttons of the staff's panel, and the bulk
      actions of the admin site, which write the company alone. */
  datatype Step =
    | NightlySweep(tariff: Tariff, day: Date)
    | CycleClosing(now: Moment)
    | MonthSettling(month: Date)
    | OverdueSweep(today: Date)
    | TrialSweep(now: Moment)
    | PaymentCreated(payment: Payment)
    | PaymentApplied(i: nat, tariff: Tariff, now: Moment)
    | PaymentDropped(i: nat, to: PaymentStatus)
    | PaymentRefunded(i: nat)
    | Activated(tariff: Tariff, now: Moment)
    | SuspendedBy(byStaff: bool)
    | Canceled
    | StaffSuspended
    | StaffActivated(tariff: Tariff, now: Moment)
    | TrialExtended(days: int, now: Moment)
    | BulkSuspended
    | BulkActivated

  /** A service that raises leaves the rows as they were. */
  function Or(result: Option<Ledger>, s: Ledger): Ledger
  {
    if result.Some? then result.value else s
  }

  function Apply(s: Ledger, step: Step): Ledger
  {
    match step
    case NightlySweep(tariff, day) => Nightly(s, tariff, day)
    case CycleClosing(now) => CycleSweep(s, now)
    case MonthSettling(month) => SettleMonth(s, month)
    case OverdueSweep(today) => EnforceOverdue(s, today).0
    case TrialSweep(now) => TrialExpiry(s, now)
    case PaymentCreated(p) => Create(s, p.(status := Pending, approvedAt := None))
    case PaymentApplied(i, tariff, now) => if i < |s.payments| then ApplyPayment(s, i, tariff, now) else s
    case PaymentDropped(i, to) =>
      if i < |s.payments| && (to == Failed || to == Rejected) then Drop(s, i, to) else s
    case PaymentRefunded(i) => if i < |s.payments| then Or(Refund(s, i), s) else s
    case Activated(tariff, now) => if s.sub.Some? then Or(Activate(s, tariff, now), s) else s
    case SuspendedBy(byStaff) => if s.sub.Some? then Or(Suspend(s, byStaff), s) else s
    case Canceled => if s.sub.Some? then Or(Cancel(s), s) else s
    case StaffSuspended => StaffSuspend(s)
    case StaffActivated(tariff, now) => StaffActivate(s, tariff, now)
    case TrialExtended(days, now) => ExtendTrial(s, days, now)
    case BulkSuspended => s.(company := CompanySuspended)
    case BulkActivated => s.(company := CompanyActive)
  }

  function Run(s: Ledger, steps: seq<Step>): Ledger
  {
    if steps == [] then s else Apply(Run(s, steps[..|steps| - 1]), steps[|steps| - 1])
  }

  /** A company as signup leaves it: on trial, nothing owed, nothing paid. */
  function SignedUp(withSubscription: bool, price: nat, trialEnds: Option<int>): Ledger
  {
    Ledger(0, CompanyTrial, if withSubscription then Some(Subscription(SubTrial, price, None)) else None,
           [], [], [], trialEnds, false)
  }

  // ---- Weights of the rows in each sum ----

  function DeductedWeights(charges: seq<Charge>): (w: seq<int>)
    ensures |w| == |charges|
  {
    seq(|charges|, i requires 0 <= i < |charges| => if charges[i].deducted then charges[i].amount else 0)
  }

  function ApprovedWeights(payments: seq<Payment>): (w: seq<int>)
    ensures |w| == |payments|
  {
    seq(|payments|, i requires 0 <= i < |payments| => if payments[i].status == Approved then payments[i].amount else 0)
  }

  function TakenWeights(statements: seq<Statement>): (w: seq<int>)
    ensures |w| == |statements|
  {
    seq(|statements|, i requires 0 <= i < |statements| => if statements[i].taken then statements[i].total else 0)
  }

  function Deducted(s: Ledger): int { Sum(DeductedWeights(s.charges)) }

  function ApprovedTotal(s: Ledger): int { Sum(ApprovedWeights(s.payments)) }

  function Taken(s: Ledger): int { Sum(TakenWeights(s.statements)) }

  /** Where the money is: everything paid in, less every day taken, less every
      statement paid out of the balance. */
  predicate Conserved(s: Ledger)
  {
    && s.balance == ApprovedTotal(s) - Deducted(s) - Taken(s)
    && forall i :: 0 <= i < |s.statements| && s.statements[i].taken ==> s.statements[i].status == Paid
  }

  // ---- Which rows the two loops over statements can touch ----

  predicate KeepsPeriod(s: Ledger, t: Ledger)
  {
    (s.sub.Some? <==> t.sub.Some?) && (s.sub.Some? ==> t.sub.value.period == s.sub.value.period)
  }

  lemma {:induction false} SettlingTouches(s: Ledger, i: nat)
    requires i <= |s.statements|
    ensures var t := SettleFrom(s, i); t == s.(balance := t.balance, statements := t.statements)
    decreases |s.statements| - i
  {
    if i < |s.statements| {
      var (t, settled) := SettleStatement(s, i);
      if settled { SettlingTouches(t, i + 1); }
    }
  }

  lemma {:induction false} OverdueTouches(s: Ledger, i: nat, today: Date, seen: CompanyStatus)
    requires i <= |s.statements|
    ensures var t := OverdueFrom(s, i, today, seen).0;
            && KeepsPeriod(s, t)
            && t == s.(statements := t.statements, company := t.company, sub := t.sub, staffHold := t.staffHold)
    decreases |s.statements| - i
  {
    hide Ord, PastGrace;
    if i < |s.statements| {
      if s.statements[i].status != Due || !PastGrace(s.statements[i], today) {
        OverdueTouches(s, i + 1, today, seen);
      } else {
        var t := s.(statements := s.statements[i := s.statements[i].(status := Overdue)]);
        OverdueTouches(if seen == CompanyActive then Block(t) else t, i + 1, today, seen);
      }
    }
  }

  // ---- What each service does to the sums ----

  lemma PendingTotalNatural(charges: seq<Charge>, upto: int)
    ensures PendingTotal(charges, upto) >= 0
  {
    SumZeroIff(PendingWeights(charges, upto));
  }

  lemma MarkingMovesPending(charges: seq<Charge>, upto: int)
    ensures Sum(DeductedWeights(MarkUpto(charges, upto))) == Sum(DeductedWeights(charges)) + PendingTotal(charges, upto)
  {
    SumPointwise(DeductedWeights(charges), PendingWeights(charges, upto), DeductedWeights(MarkUpto(charges, upto)));
  }

  /** Deduction moves exactly the pending total from the balance to the deducted
      days, even on the early return, and touches no other money row. */
  lemma DeductMovesPending(s: Ledger, upto: int)
    ensures var t := Deduct(s, upto);
            && t.balance == s.balance - PendingTotal(s.charges, upto)
            && Deducted(t) == Deducted(s) + PendingTotal(s.charges, upto)
            && t.payments == s.payments && t.statements == s.statements
  {
    PendingTotalNatural(s.charges, upto);
    MarkingMovesPending(s.charges, upto);
  }

  lemma {:induction false} AccrualTakesNothing(charges: seq<Charge>, operators: seq<string>, price: nat, day: Date)
    ensures Sum(DeductedWeights(AccrueOperators(charges, operators, price, day))) == Sum(DeductedWeights(charges))
  {
    if operators != [] {
      var rest := AccrueOperators(charges, operators[..|operators| - 1], price, day);
      AccrualTakesNothing(charges, operators[..|operators| - 1], price, day);
      var after := AccrueOperators(charges, operators, price, day);
      if after != rest {
        assert DeductedWeights(after) == DeductedWeights(rest) + [0];
        SumAppend(DeductedWeights(rest), 0);
      }
    }
  }

  lemma RowUpdate(statements: seq<Statement>, i: nat, st: Statement)
    requires i < |statements|
    ensures TakenIn(statements[i := st]) == TakenIn(statements) - TakenOf(statements[i]) + TakenOf(st)
  {
    assert TakenWeights(statements[i := st]) == TakenWeights(statements)[i := TakenOf(st)];
    SumUpdate(TakenWeights(statements), i, TakenOf(st));
  }

  function TakenIn(statements: seq<Statement>): int { Sum(TakenWeights(statements)) }

  function TakenOf(st: Statement): int { if st.taken then st.total else 0 }

  lemma CreatedRowTakesNothing(statements: seq<Statement>, blank: Statement)
    requires !blank.taken
    ensures TakenIn(GetOrCreate(statements, blank).0) == TakenIn(statements)
  {
    var (rows, i) := GetOrCreate(statements, blank);
    if rows != statements {
      assert TakenWeights(rows) == TakenWeights(statements[..i]) + [0] + TakenWeights(statements[i..]);
      assert TakenWeights(statements) == TakenWeights(statements[..i]) + TakenWeights(statements[i..]);
      SumInsert(TakenWeights(statements[..i]), 0, TakenWeights(statements[i..]));
    }
  }

  lemma SettleStatementConserves(s: Ledger, i: nat)
    requires i < |s.statements| && Conserved(s)
    ensures Conserved(SettleStatement(s, i).0)
  {
    RowUpdate(s.statements, i, SettleStatement(s, i).0.statements[i]);
  }

  lemma {:induction false} SettleFromConserves(s: Ledger, i: nat)
    requires i <= |s.statements| && Conserved(s)
    ensures Conserved(SettleFrom(s, i))
    decreases |s.statements| - i
  {
    if i < |s.statements| {
      SettleStatementConserves(s, i);
      var (t, settled) := SettleStatement(s, i);
      if settled { SettleFromConserves(t, i + 1); }
    }
  }

  lemma SettleMonthConserves(s: Ledger, month: Date)
    requires Conserved(s)
    ensures Conserved(SettleMonth(s, month))
  {
    var first := FirstOfMonth(month);
    MonthTotalNatural(s.charges, Ord(first), Ord(AddMonth(first)));
    var total := Sum(MonthWeights(s.charges, Ord(first), Ord(AddMonth(first))));
    var blank := Statement(first, None, None, total, Due, false, false);
    var (rows, i) := GetOrCreate(s.statements, blank);
    CreatedRowTakesNothing(s.statements, blank);
    RowUpdate(rows, i, rows[i].(total := total));
    var current := if rows[i].status != Paid then rows[i := rows[i].(total := total)] else rows;
    assert Conserved(s.(statements := current));
    SettleStatementConserves(s.(statements := current), i);
  }

  /** Summarising a cycle moves no money and no deducted flag. */
  lemma SummaryTakesNothing(s: Ledger, start: Date, end: Date)
    ensures var t := SummariseCycle(s, start, end);
            && t == s.(charges := t.charges, statements := t.statements)
            && DeductedWeights(t.charges) == DeductedWeights(s.charges)
            && forall upto :: PendingWeights(t.charges, upto) == PendingWeights(s.charges, upto)
  {
  }

  lemma CloseStatementConserves(s: Ledger, i: nat, start: Date, end: Date)
    requires i < |s.statements| && Conserved(s)
    ensures Conserved(CloseStatement(s, i, start, end))
  {
    var t := CloseStatement(s, i, start, end);
    assert DeductedWeights(t.charges) == DeductedWeights(s.charges);
    RowUpdate(s.statements, i, t.statements[i]);
  }

  lemma CreatedRowConserves(s: Ledger, blank: Statement)
    requires Conserved(s) && !blank.taken
    ensures Conserved(s.(statements := GetOrCreate(s.statements, blank).0))
  {
    CreatedRowTakesNothing(s.statements, blank);
  }

  lemma DeductConserves(s: Ledger, upto: int)
    requires Conserved(s)
    ensures Conserved(Deduct(s, upto))
  {
    DeductMovesPending(s, upto);
  }

  lemma SettleCycleConserves(s: Ledger)
    requires Conserved(s)
    ensures Conserved(SettleCycle(s))
  {
    hide Ord, SummariseCycle, Deduct;
    if s.sub.Some? && s.sub.value.period.Some? {
      var p := s.sub.value.period.value;
      DeductConserves(s, Ord(p.end.date) - 1);
      SummaryConserves(Deduct(s, Ord(p.end.date) - 1), p.start.date, p.end.date);
    }
  }

  lemma SummaryConserves(s: Ledger, start: Date, end: Date)
    requires Conserved(s)
    ensures Conserved(SummariseCycle(s, start, end))
  {
    var blank := Statement(start, Some(start), Some(end), 0, Due, false, false);
    CreatedRowConserves(s, blank);
    var (rows, i) := GetOrCreate(s.statements, blank);
    CloseStatementConserves(s.(statements := rows), i, start, end);
  }

  lemma {:induction false} OverdueConserves(s: Ledger, i: nat, today: Date, seen: CompanyStatus)
    requires i <= |s.statements| && Conserved(s)
    ensures Conserved(OverdueFrom(s, i, today, seen).0)
    decreases |s.statements| - i
  {
    hide Ord, PastGrace, Sum;
    if i < |s.statements| {
      if s.statements[i].status != Due || !PastGrace(s.statements[i], today) {
        OverdueConserves(s, i + 1, today, seen);
      } else {
        var row := s.statements[i].(status := Overdue);
        RowUpdate(s.statements, i, row);
        var t := s.(statements := s.statements[i := row]);
        OverdueConserves(if seen == CompanyActive then Block(t) else t, i + 1, today, seen);
      }
    }
  }

  lemma PaymentUpdate(s: Ledger, i: nat, p: Payment)
    requires i < |s.payments| && s.payments[i].amount == p.amount
    ensures Sum(ApprovedWeights(s.payments[i := p])) == ApprovedTotal(s)
              + (if p.status == Approved then p.amount else 0)
              - (if s.payments[i].status == Approved then p.amount else 0)
  {
    var w := if p.status == Approved then p.amount else 0;
    assert ApprovedWeights(s.payments[i := p]) == ApprovedWeights(s.payments)[i := w];
    SumUpdate(ApprovedWeights(s.payments), i, w);
  }

  predicate SameMoney(s: Ledger, t: Ledger)
  {
    t.balance == s.balance && t.charges == s.charges && t.statements == s.statements && t.payments == s.payments
  }

  lemma ReactivationMovesNoMoney(s: Ledger, tariff: Tariff, now: Moment)
    ensures SameMoney(s, ReactivateIfClear(s, tariff, now))
    ensures SameMoney(s, AfterCredit(s, tariff, now))
  {
  }

  lemma CreditConserves(s: Ledger, i: nat, tariff: Tariff, now: Moment)
    requires i < |s.payments| && Conserved(s)
    ensures Conserved(ApplyPayment(s, i, tariff, now))
  {
    hide Ord, Burn, SettleFrom;
    var p := s.payments[i];
    if p.status == Pending {
      var paid := p.(status := Approved, approvedAt := Some(Instant(now)));
      PaymentUpdate(s, i, paid);
      var t := s.(payments := s.payments[i := paid], balance := s.balance + p.amount);
      assert Conserved(t);
      SettleFromConserves(t, 0);
      var u := SettleFrom(t, 0);
      ReactivationMovesNoMoney(u, tariff, now);
      ReactivationMovesNoMoney(ReactivateIfClear(u, tariff, now), tariff, now);
      assert SameMoney(u, ApplyPayment(s, i, tariff, now));
    }
  }

  lemma NightlyConserves(s: Ledger, tariff: Tariff, day: Date)
    requires Conserved(s)
    ensures Conserved(Nightly(s, tariff, day))
  {
    hide Ord, Deduct, Sum;
    AccrualTakesNothing(s.charges, tariff.operators, tariff.price, day);
    DeductConserves(AccrueDay(s, tariff, day), Ord(day));
  }

  lemma StepConserves(s: Ledger, step: Step)
    requires Conserved(s)
    ensures Conserved(Apply(s, step))
  {
    hide Ord, Sum, SettleCycle, SettleMonth, OverdueFrom, ApplyPayment, Nightly;
    match step
    case NightlySweep(tariff, day) => NightlyConserves(s, tariff, day);
    case CycleClosing(now) => SettleCycleConserves(s);
    case MonthSettling(month) => SettleMonthConserves(s, month);
    case OverdueSweep(today) => OverdueConserves(s, 0, today, s.company);
    case PaymentCreated(p) =>
      assert ApprovedWeights(Apply(s, step).payments) == ApprovedWeights(s.payments) + [0];
      SumAppend(ApprovedWeights(s.payments), 0);
    case PaymentApplied(i, tariff, now) => if i < |s.payments| { CreditConserves(s, i, tariff, now); }
    case PaymentDropped(i, to) => if i < |s.payments| { PaymentUpdate(s, i, s.payments[i].(status := to)); }
    case PaymentRefunded(i) => if i < |s.payments| { PaymentUpdate(s, i, s.payments[i].(status := Rejected)); }
    case _ =>
  }

  /** Conservation: after any run of the services the balance is what was paid
      in and kept, less the days taken, less the statements paid from it. */
  lemma {:induction false} MoneyIsConserved(s: Ledger, steps: seq<Step>)
    requires Conserved(s)
    ensures Conserved(Run(s, steps))
  {
    if steps != [] {
      MoneyIsConserved(s, steps[..|steps| - 1]);
      StepConserves(Run(s, steps[..|steps| - 1]), steps[|steps| - 1]);
    }
  }
}
