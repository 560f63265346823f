/** What every step does to every column of the ledger, read off the rows before it,
    and what a closing leaves behind for good. */
module BillingColumns {
  import opened Prelude
  import opened Calendar
  import opened Billing
  import opened BillingLaws
  import opened BillingStatus
  import opened BillingCycles
  import opened BillingEffects
  import opened BillingPeriods

  // ---- The company, its subscription, and who stopped it ----

  predicate SubIn(s: Ledger, one: SubStatus, two: SubStatus)
  {
    s.sub.Some? && (s.sub.value.status == one || s.sub.value.status == two)
  }

  predicate UsesUp(s: Ledger, charges: seq<Charge>, upto: int)
  {
    s.company == CompanyActive && PendingTotal(charges, upto) > 0 && s.balance <= PendingTotal(charges, upto)
  }

  /** The system stops an active company: a night or a closing uses up its money, or a
      statement of it is past its grace. */
  predicate Stops(s: Ledger, step: Step)
  {
    match step
    case NightlySweep(tariff, day) =>
      UsesUp(s, AccrueOperators(s.charges, tariff.operators, tariff.price, day), Ord(day))
    case CycleClosing(_) => Closes(s, step) && UsesUp(s, s.charges, Ord(s.sub.value.period.value.end.date) - 1)
    case OverdueSweep(today) =>
      s.company == CompanyActive && exists i :: 0 <= i < |s.statements| && FallsDue(s.statements[i], today)
    case _ => false
  }

  predicate TrialOver(s: Ledger, step: Step)
  {
    step.TrialSweep? && s.company == CompanyTrial && s.trialEnds.Some? && s.trialEnds.value < Instant(step.now)
  }

  /** Staff stop a subscription that can be suspended. */
  predicate SuspendsByHand(s: Ledger, step: Step)
  {
    (step.SuspendedBy? || step.StaffSuspended?) && SubIn(s, SubTrial, SubActive)
  }

  function NextSub(s: Ledger, step: Step): SubStatus
    requires s.sub.Some?
  {
    if Reopens(s, step) then SubActive
    else if step.Canceled? then SubCanceled
    else if SubIn(s, SubTrial, SubActive) && (Stops(s, step) || SuspendsByHand(s, step)) then SubSuspended
    else if SubIn(s, SubTrial, SubTrial) && TrialOver(s, step) then SubSuspended
    else s.sub.value.status
  }

  /** A pending payment makes the company run: an active subscription by itself, and a
      suspended company once everything unpaid is paid and a day is left. */
  predicate PaymentRuns(s: Ledger, step: Step)
  {
    match step
    case PaymentApplied(i, tariff, now) =>
      && i < |s.payments| && s.payments[i].status == Pending
      && (SubIn(s, SubTrial, SubActive)
          || (s.company == CompanySuspended
              && s.balance + s.payments[i].amount - UnpaidTotal(s.statements) >= Max(1, Burn(tariff, now.date))))
    case _ => false
  }

  function NextCompany(s: Ledger, step: Step): CompanyStatus
  {
    if step.TrialExtended? then CompanyTrial
    else if Reopens(s, step) || PaymentRuns(s, step) || step.StaffActivated? || step.BulkActivated? then CompanyActive
    else if Stops(s, step) || TrialOver(s, step) || SuspendsByHand(s, step) || step.StaffSuspended?
          || step.BulkSuspended?
         then CompanySuspended
    else if step.Canceled? && s.sub.Some? && s.sub.value.status != SubCanceled then CompanySuspended
    else s.company
  }

  /** Whether a person is on record for the last suspension. */
  function NextHold(s: Ledger, step: Step): bool
  {
    if SuspendsByHand(s, step) then step.StaffSuspended? || step.byStaff
    else if TrialOver(s, step) || (Stops(s, step) && SubIn(s, SubTrial, SubActive)) then false
    else s.staffHold
  }

  predicate Standing(s: Ledger, step: Step, t: Ledger)
  {
    && t.company == NextCompany(s, step) && t.staffHold == NextHold(s, step)
    && (t.sub.Some? <==> s.sub.Some?)
    && (s.sub.Some? ==>
          && t.sub.value.status == NextSub(s, step)
          && t.sub.value.price == if Reopens(s, step) then step.tariff.price else s.sub.value.price)
  }

  /** Every step moves the statuses, the price and the record of the last suspension as
      these say, and no other way. */
  lemma StandingExactly(s: Ledger, step: Step)
    ensures Standing(s, step, Apply(s, step))
  {
    hide Standing, SettleCycle, SettleMonth, OverdueFrom, ApplyPayment, Nightly, CycleSweep;
    match step
    case NightlySweep(tariff, day) => NightStanding(s, tariff, day);
    case CycleClosing(now) => ClosingStanding(s, now);
    case OverdueSweep(today) => OverdueStanding(s, today);
    case MonthSettling(month) => MonthStanding(s, month);
    case PaymentApplied(i, tariff, now) => PaymentStanding(s, i, tariff, now);
    case _ => StaffStanding(s, step);
  }

  lemma NightStanding(s: Ledger, tariff: Tariff, day: Date)
    ensures Standing(s, NightlySweep(tariff, day), Nightly(s, tariff, day))
  {
    hide Ord, AccrueOperators, Deduct, PendingTotal;
    if s.company == CompanyActive {
      DeductExactly(AccrueDay(s, tariff, day), Ord(day));
    }
  }

  lemma StaffStanding(s: Ledger, step: Step)
    requires !step.NightlySweep? && !step.CycleClosing? && !step.OverdueSweep? && !step.MonthSettling?
    requires !step.PaymentApplied?
    ensures Standing(s, step, Apply(s, step))
  {
    hide Ord, Instant;
  }

  lemma MonthStanding(s: Ledger, month: Date)
    ensures Standing(s, MonthSettling(month), SettleMonth(s, month))
  {
    hide Ord, Sum, GetOrCreate;
  }

  lemma ClosingStanding(s: Ledger, now: Moment)
    ensures Standing(s, CycleClosing(now), CycleSweep(s, now))
  {
    hide Ord, Instant, SettleCycle, Deduct, PendingTotal;
    if Closes(s, CycleClosing(now)) {
      CycleKeepsStatus(s);
      CycleKeepsHold(s);
      DeductExactly(s, Ord(s.sub.value.period.value.end.date) - 1);
    }
  }

  lemma CycleKeepsHold(s: Ledger)
    requires s.sub.Some? && s.sub.value.period.Some?
    ensures SettleCycle(s).staffHold == Deduct(s, Ord(s.sub.value.period.value.end.date) - 1).staffHold
  {
    hide Ord, SummariseCycle, Deduct;
    var p := s.sub.value.period.value;
    SummaryTakesNothing(Deduct(s, Ord(p.end.date) - 1), p.start.date, p.end.date);
  }

  lemma {:induction false} SomethingFallsDue(statements: seq<Statement>, i: nat, today: Date)
    requires i <= |statements|
    ensures FallingDue(statements, i, today) > 0
          <==> exists j :: i <= j < |statements| && FallsDue(statements[j], today)
    decreases |statements| - i
  {
    hide FallsDue;
    if i < |statements| {
      SomethingFallsDue(statements, i + 1, today);
    }
  }

  lemma OverdueStanding(s: Ledger, today: Date)
    ensures Standing(s, OverdueSweep(today), EnforceOverdue(s, today).0)
  {
    hide Ord, OverdueFrom, FallsDue, FallingDue;
    OverdueBlocks(s, 0, today, s.company);
    OverdueExactly(s, 0, today, s.company);
    SomethingFallsDue(s.statements, 0, today);
  }

  lemma PaymentStanding(s: Ledger, i: nat, tariff: Tariff, now: Moment)
    ensures Standing(s, PaymentApplied(i, tariff, now), Apply(s, PaymentApplied(i, tariff, now)))
  {
    hide Ord, Instant, Burn, UnpaidTotal, SettleFrom;
    if i < |s.payments| && s.payments[i].status == Pending {
      var p := s.payments[i];
      var approved := s.(payments := s.payments[i := p.(status := Approved, approvedAt := Some(Instant(now)))]);
      SettlingTouches(approved.(balance := approved.balance + p.amount), 0);
      if s.company == CompanySuspended {
        TopUpReopensIff(approved, p.amount, tariff, now);
      }
    }
  }

  /** So a subscription is canceled by canceling it and by nothing else: running out of
      money, overdue statements and lapsed trials only ever suspend. */
  lemma OnlyCancelCancels(s: Ledger, step: Step)
    requires s.sub.Some?
    ensures Apply(s, step).sub.Some?
    ensures Apply(s, step).sub.value.status == SubCanceled <==> s.sub.value.status == SubCanceled || step.Canceled?
  {
    hide Apply, Stops, TrialOver, UsesUp;
    StandingExactly(s, step);
  }

  // ---- Which steps touch which rows ----

  /** The two steps that bill days: a sweep of a company that is active, and a closing. */
  predicate Bills(s: Ledger, step: Step)
  {
    (step.NightlySweep? && s.company == CompanyActive) || Closes(s, step)
  }

  predicate Credits(s: Ledger, step: Step)
  {
    step.PaymentApplied? && step.i < |s.payments| && s.payments[step.i].status == Pending
  }

  predicate Refunds(s: Ledger, step: Step)
  {
    step.PaymentRefunded? && step.i < |s.payments| && s.payments[step.i].status == Approved
  }

  /** Nothing else adds, takes or links a day, moves money, writes a statement or moves
      the end of a trial. */
  lemma FrameExactly(s: Ledger, step: Step)
    ensures var t := Apply(s, step);
            && (!Bills(s, step) ==> t.charges == s.charges)
            && (!Closes(s, step) && !step.MonthSettling? && !step.OverdueSweep? && !Credits(s, step) ==>
                  t.statements == s.statements)
            && (!Bills(s, step) && !step.MonthSettling? && !Credits(s, step) && !Refunds(s, step) ==>
                  t.balance == s.balance)
            && (Refunds(s, step) ==>
                  t.balance == s.balance - s.payments[step.i].amount
                  && t.payments == s.payments[step.i := s.payments[step.i].(status := Rejected)])
            && (step.PaymentRefunded? && !Refunds(s, step) ==> t == s)
            && (!step.TrialExtended? ==> t.trialEnds == s.trialEnds)
            && (step.TrialExtended? ==>
                  var base := if s.trialEnds.Some?
                        then Max(s.trialEnds.value, Instant(step.now)) else Instant(step.now);
                  t.trialEnds == Some(base + step.days * 86400))
  {
    hide Ord, Instant, Burn, SettleCycle, SettleMonth, OverdueFrom, ApplyPayment, AccrueOperators, Sum, AddMonthMoment;
    match step
    case NightlySweep(tariff, day) => NightTouches(s, tariff, day);
    case CycleClosing(now) => ClosingTouches(s);
    case OverdueSweep(today) => OverdueTouches(s, 0, today, s.company); OverdueExactly(s, 0, today, s.company);
    case MonthSettling(month) => SettleMonthTouches(s, month);
    case PaymentApplied(i, tariff, now) => PaymentTouches(s, i, tariff, now);
    case _ =>
  }

  lemma NightTouches(s: Ledger, tariff: Tariff, day: Date)
    ensures var t := Nightly(s, tariff, day);
            && t.statements == s.statements && t.payments == s.payments && t.trialEnds == s.trialEnds
            && (s.company != CompanyActive ==> t == s)
  {
    hide Ord, AccrueOperators, PendingTotal, MarkUpto;
  }

  lemma ClosingTouches(s: Ledger)
    ensures SettleCycle(s).trialEnds == s.trialEnds
  {
    hide Ord, SummariseCycle, PendingTotal, MarkUpto;
    if s.sub.Some? && s.sub.value.period.Some? {
      var p := s.sub.value.period.value;
      SummaryTakesNothing(Deduct(s, Ord(p.end.date) - 1), p.start.date, p.end.date);
    }
  }

  lemma SettleMonthTouches(s: Ledger, month: Date)
    ensures var t := SettleMonth(s, month); t == s.(balance := t.balance, statements := t.statements)
  {
    hide Ord, Sum, GetOrCreate;
  }

  lemma PaymentTouches(s: Ledger, i: nat, tariff: Tariff, now: Moment)
    ensures var t := Apply(s, PaymentApplied(i, tariff, now));
            && t.charges == s.charges && t.trialEnds == s.trialEnds
            && (!Credits(s, PaymentApplied(i, tariff, now)) ==> t == s)
  {
    hide Ord, Instant, Burn, SettleFrom;
    if i < |s.payments| && s.payments[i].status == Pending {
      var p := s.payments[i];
      SettlingTouches(s.(payments := s.payments[i := p.(status := Approved, approvedAt := Some(Instant(now)))],
                         balance := s.balance + p.amount), 0);
    }
  }

  predicate NeverBills(s: Ledger, steps: seq<Step>)
  {
    steps != [] ==>
      NeverBills(s, steps[..|steps| - 1]) && !Bills(Run(s, steps[..|steps| - 1]), steps[|steps| - 1])
  }

  /** A company that no sweep finds active, and none of whose cycles closes, is never
      charged for a day, whatever else happens to it and whatever money it has. */
  lemma {:induction false} StoppedIsFree(s: Ledger, steps: seq<Step>)
    requires NeverBills(s, steps)
    ensures Run(s, steps).charges == s.charges
  {
    if steps != [] {
      hide Apply, Bills;
      StoppedIsFree(s, steps[..|steps| - 1]);
      FrameExactly(Run(s, steps[..|steps| - 1]), steps[|steps| - 1]);
    }
  }

  // ---- Paid statements are final ----

  predicate KeepsPaid(one: seq<Statement>, two: seq<Statement>)
  {
    forall i :: 0 <= i < |one| && one[i].status == Paid ==> one[i] in two
  }

  lemma KeepsPaidTwice(one: seq<Statement>, two: seq<Statement>, three: seq<Statement>)
    requires KeepsPaid(one, two) && KeepsPaid(two, three)
    ensures KeepsPaid(one, three)
  {
    forall i | 0 <= i < |one| && one[i].status == Paid ensures one[i] in three {
      var j :| 0 <= j < |two| && two[j] == one[i];
    }
  }

  lemma UpdateKeepsPaid(statements: seq<Statement>, i: nat, st: Statement)
    requires i < |statements| && statements[i].status != Paid
    ensures KeepsPaid(statements, statements[i := st])
  {
    forall j | 0 <= j < |statements| && statements[j].status == Paid ensures statements[j] in statements[i := st] {
      assert statements[i := st][j] == statements[j];
    }
  }

  lemma CreatedRowKeepsPaid(statements: seq<Statement>, blank: Statement)
    ensures KeepsPaid(statements, GetOrCreate(statements, blank).0)
  {
    var (rows, i) := GetOrCreate(statements, blank);
    if rows != statements {
      forall j | 0 <= j < |statements| ensures statements[j] in rows {
        assert rows[if j < i then j else j + 1] == statements[j];
      }
    }
  }

  lemma {:induction false} SettlingKeepsPaid(s: Ledger, i: nat)
    requires i <= |s.statements|
    ensures KeepsPaid(s.statements, SettleFrom(s, i).statements)
    decreases |s.statements| - i
  {
    if i < |s.statements| {
      var (t, settled) := SettleStatement(s, i);
      if t != s { UpdateKeepsPaid(s.statements, i, t.statements[i]); }
      if settled {
        SettlingKeepsPaid(t, i + 1);
        KeepsPaidTwice(s.statements, t.statements, SettleFrom(t, i + 1).statements);
      }
    }
  }

  lemma SettleMonthKeepsPaid(s: Ledger, month: Date)
    ensures KeepsPaid(s.statements, SettleMonth(s, month).statements)
  {
    hide Ord, Sum, MonthWeights, KeepsPaid;
    var first := FirstOfMonth(month);
    MonthTotalNatural(s.charges, Ord(first), Ord(AddMonth(first)));
    var total := Sum(MonthWeights(s.charges, Ord(first), Ord(AddMonth(first))));
    var blank := Statement(first, None, None, total, Due, false, false);
    var (rows, i) := GetOrCreate(s.statements, blank);
    CreatedRowKeepsPaid(s.statements, blank);
    var t := SettleMonth(s, month);
    assert rows[i := rows[i]] == rows;
    if rows[i].status == Paid {
      assert t.statements == rows;
    } else {
      UpdateKeepsPaid(rows, i, t.statements[i]);
      assert t.statements == rows[i := t.statements[i]];
      KeepsPaidTwice(s.statements, rows, t.statements);
    }
  }

  lemma SummaryKeepsPaid(s: Ledger, start: Date, end: Date)
    ensures KeepsPaid(s.statements, SummariseCycle(s, start, end).statements)
  {
    hide Ord, Sum, LinkedWeights, Link, KeepsPaid;
    var blank := Statement(start, Some(start), Some(end), 0, Due, false, false);
    var (rows, i) := GetOrCreate(s.statements, blank);
    CreatedRowKeepsPaid(s.statements, blank);
    var t := SummariseCycle(s, start, end);
    if rows[i].status != Paid {
      UpdateKeepsPaid(rows, i, t.statements[i]);
      KeepsPaidTwice(s.statements, rows, t.statements);
    }
  }

  lemma SettleCycleKeepsPaid(s: Ledger)
    ensures KeepsPaid(s.statements, SettleCycle(s).statements)
  {
    hide Ord, SummariseCycle, Deduct, KeepsPaid;
    if s.sub.Some? && s.sub.value.period.Some? {
      var p := s.sub.value.period.value;
      DeductMovesPending(s, Ord(p.end.date) - 1);
      SummaryKeepsPaid(Deduct(s, Ord(p.end.date) - 1), p.start.date, p.end.date);
    } else {
      SameKeepsPaid(s.statements);
    }
  }

  lemma SameKeepsPaid(statements: seq<Statement>)
    ensures KeepsPaid(statements, statements)
  {
  }

  lemma StepKeepsPaid(s: Ledger, step: Step)
    ensures KeepsPaid(s.statements, Apply(s, step).statements)
  {
    hide Ord, Instant, Burn, SettleCycle, SettleMonth, OverdueFrom, ApplyPayment, KeepsPaid, Closes;
    SameKeepsPaid(s.statements);
    if Closes(s, step) {
      SettleCycleKeepsPaid(s);
    }
    match step
    case CycleClosing(now) => SettleCycleKeepsPaid(s);
    case MonthSettling(month) => SettleMonthKeepsPaid(s, month);
    case OverdueSweep(today) => OverdueKeepsPaid(s, today);
    case PaymentApplied(i, tariff, now) => if i < |s.payments| { PaymentKeepsPaid(s, i, tariff, now); }
    case _ => FrameExactly(s, step);
  }

  lemma OverdueKeepsPaid(s: Ledger, today: Date)
    ensures KeepsPaid(s.statements, EnforceOverdue(s, today).0.statements)
  {
    hide Ord, OverdueFrom, PastGrace;
    OverdueExactly(s, 0, today, s.company);
    var after := EnforceOverdue(s, today).0.statements;
    forall i | 0 <= i < |s.statements| && s.statements[i].status == Paid ensures s.statements[i] in after {
      assert after[i] == s.statements[i];
    }
  }

  lemma PaymentKeepsPaid(s: Ledger, i: nat, tariff: Tariff, now: Moment)
    requires i < |s.payments|
    ensures KeepsPaid(s.statements, ApplyPayment(s, i, tariff, now).statements)
  {
    hide Ord, Instant, Burn, SettleFrom, KeepsPaid;
    SameKeepsPaid(s.statements);
    var p := s.payments[i];
    if p.status == Pending {
      var t := s.(payments := s.payments[i := p.(status := Approved, approvedAt := Some(Instant(now)))],
                  balance := s.balance + p.amount);
      SettlingKeepsPaid(t, 0);
      var u := SettleFrom(t, 0);
      ReactivationMovesNoMoney(u, tariff, now);
      ReactivationMovesNoMoney(ReactivateIfClear(u, tariff, now), tariff, now);
    }
  }

  /** A paid statement is never changed or lost again. */
  lemma {:induction false} PaidStatementsAreFinal(s: Ledger, steps: seq<Step>)
    ensures KeepsPaid(s.statements, Run(s, steps).statements)
  {
    hide KeepsPaid, Apply;
    if steps == [] {
      SameKeepsPaid(s.statements);
    } else {
      var front := steps[..|steps| - 1];
      PaidStatementsAreFinal(s, front);
      StepKeepsPaid(Run(s, front), steps[|steps| - 1]);
      KeepsPaidTwice(s.statements, Run(s, front).statements, Run(s, steps).statements);
    }
  }

  // ---- A closing bills its cycle, for good ----

  /** No statement of that key was settled before. */
  predicate Unsettled(statements: seq<Statement>, key: int)
  {
    forall j :: 0 <= j < |statements| && Ord(statements[j].month) == key ==> statements[j].status != Paid
  }

  /** The amounts of the charges a statement billed, added up. */
  function BilledBy(charges: seq<Charge>, key: int): int
  {
    if charges == [] then 0
    else
      var last := charges[|charges| - 1];
      BilledBy(charges[..|charges| - 1], key) + if last.statement == Some(key) then last.amount else 0
  }

  lemma {:induction false} LinkedIsBilledBy(charges: seq<Charge>, key: int)
    ensures Sum(LinkedWeights(charges, key)) == BilledBy(charges, key)
  {
    if charges != [] {
      LinkedIsBilledBy(charges[..|charges| - 1], key);
      assert LinkedWeights(charges, key)[..|charges| - 1] == LinkedWeights(charges[..|charges| - 1], key);
    }
  }

  /** Over every run each cycle statement's total is what its charges add up to. */
  lemma TotalsAddUp(s: Ledger, steps: seq<Step>, j: nat)
    requires Billed(s) && j < |Run(s, steps).statements| && Run(s, steps).statements[j].closed
    ensures var t := Run(s, steps); t.statements[j].total == BilledBy(t.charges, Ord(t.statements[j].month))
  {
    hide Run, Ord, Sum, LinkedWeights;
    EachDayBilledOnce(s, steps);
    var t := Run(s, steps);
    assert Totals(t.charges, t.statements[j]);
    LinkedIsBilledBy(t.charges, Ord(t.statements[j].month));
  }

  /** A closing leaves a paid statement for the cycle. If there was none before, it is
      the cycle's own: its dates, every day inside that no statement had, no other day,
      and their sum. If there was one, no statement and no link changes. */
  lemma ClosingMakesTheStatement(s: Ledger, now: Moment) returns (r: nat)
    requires Sorted(s.statements) && Closes(s, CycleClosing(now))
    ensures var p, t := s.sub.value.period.value, Apply(s, CycleClosing(now));
            var start, end := p.start.date, p.end.date;
            && r < |t.statements| && Ord(t.statements[r].month) == Ord(start) && t.statements[r].status == Paid
            && |t.charges| == |s.charges|
            && if Unsettled(s.statements, Ord(start)) then
                 && t.statements[r].start == Some(start) && t.statements[r].end == Some(end)
                 && t.statements[r].closed && t.statements[r].total == BilledBy(t.charges, Ord(start))
                 && forall i :: 0 <= i < |s.charges| ==>
                      t.charges[i].statement ==
                        if s.charges[i].statement.None? && Ord(start) <= s.charges[i].day < Ord(end)
                        then Some(Ord(start)) else s.charges[i].statement
               else
                 && t.statements == s.statements
                 && forall i :: 0 <= i < |s.charges| ==> t.charges[i].statement == s.charges[i].statement
  {
    hide Ord, Instant, Deduct, SummariseCycle, BilledBy, Unsettled, Sorted, MarkUpto, PendingTotal;
    var p := s.sub.value.period.value;
    var d := Deduct(s, Ord(p.end.date) - 1);
    DeductExactly(s, Ord(p.end.date) - 1);
    DeductMovesPending(s, Ord(p.end.date) - 1);
    r := SummaryMakesTheStatement(d, p.start.date, p.end.date);
  }

  lemma SummaryMakesTheStatement(s: Ledger, start: Date, end: Date) returns (r: nat)
    requires Sorted(s.statements)
    ensures var t := SummariseCycle(s, start, end);
            && r < |t.statements| && Ord(t.statements[r].month) == Ord(start) && t.statements[r].status == Paid
            && |t.charges| == |s.charges|
            && if Unsettled(s.statements, Ord(start)) then
                 && t.statements[r].start == Some(start) && t.statements[r].end == Some(end)
                 && t.statements[r].closed && t.statements[r].total == BilledBy(t.charges, Ord(start))
                 && forall i :: 0 <= i < |s.charges| ==>
                      t.charges[i].statement ==
                        if s.charges[i].statement.None? && Ord(start) <= s.charges[i].day < Ord(end)
                        then Some(Ord(start)) else s.charges[i].statement
               else
                 && t.statements == s.statements
                 && forall i :: 0 <= i < |s.charges| ==> t.charges[i].statement == s.charges[i].statement
  {
    hide Ord, Sum, LinkedWeights;
    var blank := Statement(start, Some(start), Some(end), 0, Due, false, false);
    var (rows, i) := GetOrCreate(s.statements, blank);
    r := i;
    FoundRowWasThere(s.statements, blank);
    if rows[i].status == Paid {
      assert s.statements[i].status == Paid;
    } else {
      LinkedIsBilledBy(SummariseCycle(s, start, end).charges, Ord(start));
    }
    if rows[i].status == Paid {
    } else if rows == s.statements {
      forall j | 0 <= j < |s.statements| && Ord(s.statements[j].month) == Ord(start) ensures j == i {
      }
    } else {
      NewRowIsNew(s.statements, blank);
    }
  }

  lemma NewRowIsNew(statements: seq<Statement>, blank: Statement)
    requires Sorted(statements) && GetOrCreate(statements, blank).0 != statements
    ensures forall j :: 0 <= j < |statements| ==> Ord(statements[j].month) != Ord(blank.month)
  {
    hide Ord;
    var i := Position(statements, blank.month);
    forall j | i <= j < |statements| ensures Ord(statements[j].month) != Ord(blank.month) {
      if j > i { assert Ord(statements[i].month) < Ord(statements[j].month); }
    }
  }

  /** No later sweep bills a day of [from, before). */
  predicate SweepsOutside(steps: seq<Step>, from: int, before: int)
  {
    forall i :: 0 <= i < |steps| && steps[i].NightlySweep? ==> !(from <= Ord(steps[i].day) < before)
  }

  lemma StepAddsItsDay(s: Ledger, step: Step)
    ensures var t := Apply(s, step);
            && |s.charges| <= |t.charges|
            && (forall i :: 0 <= i < |s.charges| ==> t.charges[i].day == s.charges[i].day)
            && forall i :: |s.charges| <= i < |t.charges| ==> step.NightlySweep? && t.charges[i].day == Ord(step.day)
  {
    hide Ord, Instant, PendingTotal, SettleCycle, AccrueOperators;
    if Closes(s, step) {
      ClosingKeepsDays(s);
    } else if step.NightlySweep? && s.company == CompanyActive {
      var a := AccrueDay(s, step.tariff, step.day);
      AccrualAppends(s.charges, step.tariff.operators, step.tariff.price, step.day);
      DeductExactly(a, Ord(step.day));
      forall i | 0 <= i < |s.charges| ensures a.charges[i] == s.charges[i] {
        assert a.charges[..|s.charges|][i] == s.charges[i];
      }
    } else {
      hide Apply;
      FrameExactly(s, step);
    }
  }

  lemma ClosingKeepsDays(s: Ledger)
    ensures var t := SettleCycle(s);
            |t.charges| == |s.charges| && forall i :: 0 <= i < |s.charges| ==> t.charges[i].day == s.charges[i].day
  {
    hide Ord, GetOrCreate, Sum, PendingTotal;
    if s.sub.Some? && s.sub.value.period.Some? {
      DeductExactly(s, Ord(s.sub.value.period.value.end.date) - 1);
    }
  }

  lemma {:induction false} NewChargesAreSweptDays(s: Ledger, steps: seq<Step>, from: int, before: int)
    requires SweepsOutside(steps, from, before)
    ensures var t := Run(s, steps);
            && |s.charges| <= |t.charges|
            && forall i :: |s.charges| <= i < |t.charges| ==> !(from <= t.charges[i].day < before)
  {
    if steps != [] {
      hide Apply, Ord;
      NewChargesAreSweptDays(s, steps[..|steps| - 1], from, before);
      StepAddsItsDay(Run(s, steps[..|steps| - 1]), steps[|steps| - 1]);
    }
  }

  /** Once a cycle is closed it is billed for good: whatever happens later, the
      statement is still there, and no day of the cycle that was accrued by then is
      without a statement; nor is any day of it at all, unless a later sweep goes back
      and accrues one. */
  lemma ClosedCycleIsBilled(s: Ledger, now: Moment, steps: seq<Step>) returns (st: Statement)
    requires Billed(s) && Closes(s, CycleClosing(now))
    requires Unsettled(s.statements, Ord(s.sub.value.period.value.start.date))
    ensures var p, t := s.sub.value.period.value, Run(Apply(s, CycleClosing(now)), steps);
            var start, end := Ord(p.start.date), Ord(p.end.date);
            && st in t.statements && st.status == Paid && st.start == Some(p.start.date) && st.end == Some(p.end.date)
            && |s.charges| <= |t.charges|
            && (forall i :: 0 <= i < |s.charges| && start <= s.charges[i].day < end ==> t.charges[i].statement.Some?)
            && (SweepsOutside(steps, start, end) ==>
                  forall i :: 0 <= i < |t.charges| && start <= t.charges[i].day < end ==> t.charges[i].statement.Some?)
  {
    hide Ord, Apply, Run, BilledRows, OnePerOperatorDay, SweepsOutside;
    var p, c := s.sub.value.period.value, Apply(s, CycleClosing(now));
    var start, end := Ord(p.start.date), Ord(p.end.date);
    assert Sorted(s.statements) by { BilledIsSorted(s); }
    var r := ClosingMakesTheStatement(s, now);
    st := c.statements[r];
    StepKeepsBilled(s, CycleClosing(now));
    PaidStatementsAreFinal(c, steps);
    EachDayBilledOnce(c, steps);
    var t := Run(c, steps);
    forall i | 0 <= i < |s.charges|
      ensures t.charges[i].day == s.charges[i].day
      ensures start <= s.charges[i].day < end ==> t.charges[i].statement.Some?
    {
      assert ChargeKept(s.charges[i], c.charges[i]) && ChargeKept(c.charges[i], t.charges[i]);
    }
    if SweepsOutside(steps, start, end) {
      NewChargesAreSweptDays(c, steps, start, end);
    }
  }

  lemma BilledIsSorted(s: Ledger)
    requires Billed(s)
    ensures Sorted(s.statements)
  {
  }
}
