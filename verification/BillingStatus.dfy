/** Company and subscription statuses, and when an active company has money. */
module BillingStatus {
  import opened Prelude
  import opened Calendar
  import opened Billing
  import opened BillingLaws

  // ---- The two status columns agree ----

  /** How far the company's status follows the subscription's. A canceled
      subscription says nothing: a top-up reopens the company beside it. */
  predicate Agrees(s: Ledger)
  {
    s.sub.Some? ==>
      var sub := s.sub.value.status;
      && (sub == SubTrial <==> s.company == CompanyTrial)
      && (sub == SubActive ==> s.company == CompanyActive)
      && (sub == SubSuspended ==> s.company == CompanySuspended)
  }

  predicate SameStatus(s: Ledger, t: Ledger) { t.company == s.company && t.sub == s.sub }

  predicate SameStanding(s: Ledger, t: Ledger) { SameStatus(s, t) && t.staffHold == s.staffHold }

  /** Stopped by the system: the company suspended, and with it a subscription on trial
      or active, with no person on record for it; any other subscription stays. */
  predicate Stopped(s: Ledger, t: Ledger)
  {
    && t.company == CompanySuspended
    && if s.sub.Some? && (s.sub.value.status == SubTrial || s.sub.value.status == SubActive)
       then t.sub == Some(s.sub.value.(status := SubSuspended)) && !t.staffHold
       else t.sub == s.sub && t.staffHold == s.staffHold
  }

  /** The only two things overdue enforcement can do to a company's standing: nothing,
      or stop it, however many statements are overdue. */
  lemma {:induction false} OverdueBlocks(s: Ledger, i: nat, today: Date, seen: CompanyStatus)
    requires i <= |s.statements|
    ensures var (t, blocked) := OverdueFrom(s, i, today, seen);
            if blocked == 0 then SameStanding(s, t) else seen == CompanyActive && Stopped(s, t)
    decreases |s.statements| - i
  {
    hide Ord, PastGrace;
    if i < |s.statements| {
      if s.statements[i].status != Due || !PastGrace(s.statements[i], today) {
        OverdueBlocks(s, i + 1, today, seen);
      } else {
        var t := s.(statements := s.statements[i := s.statements[i].(status := Overdue)]);
        if seen == CompanyActive {
          OverdueBlocks(Block(t), i + 1, today, seen);
          assert Stopped(s, Block(t));
          assert OverdueFrom(s, i, today, seen).0 == OverdueFrom(Block(t), i + 1, today, seen).0;
        } else {
          OverdueBlocks(t, i + 1, today, seen);
          assert OverdueFrom(s, i, today, seen) == OverdueFrom(t, i + 1, today, seen);
        }
      }
    }
  }

  lemma CreditAgrees(s: Ledger, i: nat, tariff: Tariff, now: Moment)
    requires i < |s.payments|
    ensures Agrees(s) ==> Agrees(ApplyPayment(s, i, tariff, now))
    ensures Forward(s, ApplyPayment(s, i, tariff, now))
  {
    var p := s.payments[i];
    if p.status == Pending {
      var t := s.(payments := s.payments[i := p.(status := Approved, approvedAt := Some(Instant(now)))],
                  balance := s.balance + p.amount);
      SettlingTouches(t, 0);
    }
  }

  /** The subscription never leaves CANCELED and never re-enters TRIAL. */
  predicate StatusStep(s: Ledger, t: Ledger)
  {
    && (s.sub.Some? <==> t.sub.Some?)
    && (s.sub.Some? && s.sub.value.status == SubCanceled ==> t.sub.value.status == SubCanceled)
    && (s.sub.Some? && s.sub.value.status != SubTrial ==> t.sub.value.status != SubTrial)
  }

  /** Nor does the company re-enter TRIAL. */
  predicate Forward(s: Ledger, t: Ledger)
  {
    StatusStep(s, t) && (s.company != CompanyTrial ==> t.company != CompanyTrial)
  }

  lemma SettleMonthKeepsStatus(s: Ledger, month: Date)
    ensures SameStatus(s, SettleMonth(s, month))
  {
  }

  lemma DeductAgrees(s: Ledger, upto: int)
    ensures Agrees(s) ==> Agrees(Deduct(s, upto))
    ensures Forward(s, Deduct(s, upto))
  {
  }

  lemma SettleCycleAgrees(s: Ledger)
    ensures Agrees(s) ==> Agrees(SettleCycle(s))
    ensures Forward(s, SettleCycle(s))
  {
    if s.sub.Some? && s.sub.value.period.Some? {
      var upto := Ord(s.sub.value.period.value.end.date) - 1;
      DeductAgrees(s, upto);
      CycleKeepsStatus(s);
    }
  }

  /** After its deduction a cycle closing moves the period and no status. */
  lemma CycleKeepsStatus(s: Ledger)
    requires s.sub.Some? && s.sub.value.period.Some?
    ensures var d := Deduct(s, Ord(s.sub.value.period.value.end.date) - 1);
            var t := SettleCycle(s);
            && t.company == d.company && t.balance == d.balance && t.payments == d.payments
            && t.sub == Some(d.sub.value.(period := t.sub.value.period))
            && DeductedWeights(t.charges) == DeductedWeights(d.charges)
  {
    hide Ord, SummariseCycle, DeductedWeights;
    var p := s.sub.value.period.value;
    SummaryTakesNothing(Deduct(s, Ord(p.end.date) - 1), p.start.date, p.end.date);
  }

  /** The writes that set the company against its subscription, read off the rows
      before them: a trial extended beside a subscription that is past its trial, and
      the two bulk actions where the subscription says otherwise. */
  predicate Overwrites(s: Ledger, step: Step)
  {
    match step
    case TrialExtended(_, _) => s.sub.Some? && s.sub.value.status != SubTrial
    case BulkSuspended => s.sub.Some? && (s.sub.value.status == SubTrial || s.sub.value.status == SubActive)
    case BulkActivated => s.sub.Some? && (s.sub.value.status == SubTrial || s.sub.value.status == SubSuspended)
    case _ => false
  }

  /** Every other step keeps the agreement, and these exactly break it. */
  lemma StepAgrees(s: Ledger, step: Step)
    requires Agrees(s)
    ensures Agrees(Apply(s, step)) <==> !Overwrites(s, step)
  {
    hide Ord, Sum, SettleCycle, OverdueFrom, ApplyPayment, SettleMonth, Deduct;
    match step
    case NightlySweep(tariff, day) => DeductAgrees(AccrueDay(s, tariff, day), Ord(day));
    case CycleClosing(now) => SettleCycleAgrees(s);
    case OverdueSweep(today) => OverdueBlocks(s, 0, today, s.company);
    case MonthSettling(month) => SettleMonthKeepsStatus(s, month);
    case PaymentApplied(i, tariff, now) => if i < |s.payments| { CreditAgrees(s, i, tariff, now); }
    case _ =>
  }

  /** Whatever the statuses are, no step takes the subscription out of CANCELED or
      back into TRIAL, and only an extension puts a company back on trial. */
  lemma StepGoesForward(s: Ledger, step: Step)
    ensures StatusStep(s, Apply(s, step))
    ensures s.company != CompanyTrial ==> (Apply(s, step).company == CompanyTrial <==> step.TrialExtended?)
  {
    hide Ord, Sum, SettleCycle, OverdueFrom, ApplyPayment, SettleMonth, Deduct;
    match step
    case NightlySweep(tariff, day) => DeductAgrees(AccrueDay(s, tariff, day), Ord(day));
    case CycleClosing(now) => SettleCycleAgrees(s);
    case OverdueSweep(today) => OverdueBlocks(s, 0, today, s.company);
    case MonthSettling(month) => SettleMonthKeepsStatus(s, month);
    case PaymentApplied(i, tariff, now) => if i < |s.payments| { CreditAgrees(s, i, tariff, now); }
    case _ =>
  }

  predicate NeverOverwritten(s: Ledger, steps: seq<Step>)
  {
    steps != [] ==>
      && NeverOverwritten(s, steps[..|steps| - 1])
      && !Overwrites(Run(s, steps[..|steps| - 1]), steps[|steps| - 1])
  }

  /** Over every run the two statuses agree throughout exactly when nobody overwrote
      the company. */
  lemma {:induction false} StatusesAgree(s: Ledger, steps: seq<Step>)
    requires Agrees(s)
    ensures NeverOverwritten(s, steps) <==> forall k :: 0 <= k <= |steps| ==> Agrees(Run(s, steps[..k]))
  {
    if steps == [] {
      assert Run(s, steps) == s;
    } else {
      hide Apply, Agrees, Overwrites;
      var front, last := steps[..|steps| - 1], steps[|steps| - 1];
      StatusesAgree(s, front);
      Prefixes(steps);
      if Agrees(Run(s, front)) {
        StepAgrees(Run(s, front), last);
      }
    }
  }

  /** Over every run whatever, canceling is final and a subscription's trial that is
      over never comes back; a company's does only by an extension. */
  lemma {:induction false} StatusesGoForward(s: Ledger, steps: seq<Step>)
    ensures StatusStep(s, Run(s, steps))
    ensures s.company != CompanyTrial && (forall i :: 0 <= i < |steps| ==> !steps[i].TrialExtended?) ==>
              Run(s, steps).company != CompanyTrial
  {
    if steps != [] {
      StatusesGoForward(s, steps[..|steps| - 1]);
      StepGoesForward(Run(s, steps[..|steps| - 1]), steps[|steps| - 1]);
    }
  }

  /** A lapsed trial that staff extended is not ended by paying. After an extension
      a payment makes the company active exactly when its subscription is on trial or
      active; otherwise both stay as they are, on trial beside a subscription that is
      not, the money is kept, and no night is charged. */
  lemma PaidAfterExtension(s: Ledger, days: int, since: Moment, i: nat, tariff: Tariff, now: Moment, day: Date)
    requires i < |s.payments| && s.payments[i].status == Pending
    ensures var e := ExtendTrial(s, days, since);
            var t := ApplyPayment(e, i, tariff, now);
            && (t.company == CompanyActive <==>
                  s.sub.Some? && (s.sub.value.status == SubTrial || s.sub.value.status == SubActive))
            && (t.company != CompanyActive ==>
                  t.company == CompanyTrial && t.sub == s.sub && Nightly(t, tariff, day) == t)
  {
    hide Ord, Burn, Instant;
    var e, p := ExtendTrial(s, days, since), s.payments[i];
    SettlingTouches(e.(payments := e.payments[i := p.(status := Approved, approvedAt := Some(Instant(now)))],
                       balance := e.balance + p.amount), 0);
  }

  /** Suspending by hand records who did it only through the subscription: a company
      whose subscription was not on trial or active is suspended without a hold. */
  lemma StaffSuspensionHoldsIff(s: Ledger)
    ensures var t := StaffSuspend(s);
            && t.company == CompanySuspended
            && (t.staffHold <==>
                  s.staffHold || (s.sub.Some? && (s.sub.value.status == SubTrial || s.sub.value.status == SubActive)))
  {
  }

  // ---- Prepaid: an active company has money ----

  /** The steps of prepaid operation: no refund and no legacy month statement; every
      payment is of a positive amount; staff activate only a company with money, extend
      no trial that owes, and overwrite no status. */
  predicate PrepaidStep(s: Ledger, step: Step)
  {
    && !Overwrites(s, step)
    && match step
       case MonthSettling(_) => false
       case PaymentRefunded(_) => false
       case Activated(_, _) => s.balance > 0
       case StaffActivated(_, _) => s.balance > 0
       case BulkActivated => s.balance > 0
       case TrialExtended(_, _) => s.balance >= 0
       case PaymentCreated(p) => p.amount > 0
       case _ => true
  }

  predicate PrepaidRun(s: Ledger, steps: seq<Step>)
  {
    steps != [] ==>
      && PrepaidRun(s, steps[..|steps| - 1])
      && PrepaidStep(Run(s, steps[..|steps| - 1]), steps[|steps| - 1])
  }

  predicate Prepaid(s: Ledger)
  {
    && Agrees(s)
    && !HasUnpaid(s.statements)
    && (forall i :: 0 <= i < |s.payments| ==> s.payments[i].amount > 0)
    && (s.company == CompanyActive ==> s.balance > 0)
    && (s.company == CompanyTrial ==> s.balance >= 0)
  }

  /** A step takes days from a positive balance, or leaves the balance no lower. */
  predicate PaysAsItGoes(s: Ledger, t: Ledger)
  {
    var days := Deducted(t) - Deducted(s);
    && days >= 0
    && (if days > 0 then s.balance > 0 && t.balance == s.balance - days else t.balance >= s.balance)
  }

  lemma {:induction false} NothingToSettle(s: Ledger, i: nat)
    requires i <= |s.statements| && !HasUnpaid(s.statements)
    ensures SettleFrom(s, i) == s
    decreases |s.statements| - i
  {
    if i < |s.statements| {
      NothingToSettle(s, i + 1);
    }
  }

  lemma {:induction false} NothingOverdue(s: Ledger, i: nat, today: Date, seen: CompanyStatus)
    requires i <= |s.statements| && !HasUnpaid(s.statements)
    ensures OverdueFrom(s, i, today, seen) == (s, 0)
    decreases |s.statements| - i
  {
    if i < |s.statements| {
      NothingOverdue(s, i + 1, today, seen);
    }
  }

  lemma SweepIsPrepaid(s: Ledger, tariff: Tariff, day: Date)
    requires Prepaid(s)
    ensures Prepaid(Nightly(s, tariff, day)) && PaysAsItGoes(s, Nightly(s, tariff, day))
  {
    if s.company == CompanyActive {
      AccrualTakesNothing(s.charges, tariff.operators, tariff.price, day);
      var a := AccrueDay(s, tariff, day);
      DeductMovesPending(a, Ord(day));
      PendingTotalNatural(a.charges, Ord(day));
    }
  }

  lemma ClosingIsPrepaid(s: Ledger, now: Moment)
    requires Prepaid(s)
    ensures Prepaid(CycleSweep(s, now)) && PaysAsItGoes(s, CycleSweep(s, now))
  {
    if CycleSweep(s, now) != s {
      SettleCycleAgrees(s);
      CycleKeepsStatus(s);
      SettledCycleOwesNothing(s);
      DeductMovesPending(s, Ord(s.sub.value.period.value.end.date) - 1);
      PendingTotalNatural(s.charges, Ord(s.sub.value.period.value.end.date) - 1);
    }
  }

  lemma CreatedRowIsTheOnlyNewOne(statements: seq<Statement>, blank: Statement)
    requires !HasUnpaid(statements)
    ensures var (rows, i) := GetOrCreate(statements, blank);
            forall j :: 0 <= j < |rows| && j != i ==> rows[j].status == Paid
  {
  }

  lemma SummaryOwesNothing(s: Ledger, start: Date, end: Date)
    requires !HasUnpaid(s.statements)
    ensures !HasUnpaid(SummariseCycle(s, start, end).statements)
  {
    hide Ord, GetOrCreate, Link, LinkedWeights;
    CreatedRowIsTheOnlyNewOne(s.statements, Statement(start, Some(start), Some(end), 0, Due, false, false));
  }

  lemma SettledCycleOwesNothing(s: Ledger)
    requires !HasUnpaid(s.statements)
    ensures !HasUnpaid(SettleCycle(s).statements)
  {
    hide Ord, SummariseCycle, Deduct, HasUnpaid;
    if s.sub.Some? && s.sub.value.period.Some? {
      var p := s.sub.value.period.value;
      DeductMovesPending(s, Ord(p.end.date) - 1);
      var d := Deduct(s, Ord(p.end.date) - 1);
      SummaryOwesNothing(d, p.start.date, p.end.date);
    }
  }

  /** With nothing unpaid, a credit goes to the balance whole, and reopens a
      suspended company exactly when a positive balance covers the day. */
  lemma CreditEffect(s: Ledger, i: nat, tariff: Tariff, now: Moment)
    requires i < |s.payments| && s.payments[i].status == Pending && !HasUnpaid(s.statements)
    ensures var t, p := ApplyPayment(s, i, tariff, now), s.payments[i];
            && t.balance == s.balance + p.amount
            && t.statements == s.statements && t.charges == s.charges
            && t.payments == s.payments[i := p.(status := Approved, approvedAt := Some(Instant(now)))]
            && (s.company == CompanyActive ==> t.company == CompanyActive)
            && (s.company == CompanySuspended && t.balance > 0 && t.balance >= Burn(tariff, now.date)
                ==> t.company == CompanyActive)
            && (Agrees(s) && s.company == CompanySuspended && t.company == CompanyActive
                ==> t.balance > 0 && t.balance >= Burn(tariff, now.date))
  {
    hide Ord, Burn, HasUnpaid;
    var p := s.payments[i];
    NothingToSettle(s.(payments := s.payments[i := p.(status := Approved, approvedAt := Some(Instant(now)))],
                       balance := s.balance + p.amount), 0);
  }

  lemma TopUpIsPrepaid(s: Ledger, i: nat, tariff: Tariff, now: Moment)
    requires Prepaid(s) && i < |s.payments|
    ensures Prepaid(ApplyPayment(s, i, tariff, now)) && PaysAsItGoes(s, ApplyPayment(s, i, tariff, now))
  {
    CreditAgrees(s, i, tariff, now);
    if s.payments[i].status == Pending {
      hide Ord, Burn, Sum, DeductedWeights, ApplyPayment, HasUnpaid, Agrees;
      CreditEffect(s, i, tariff, now);
    }
  }

  lemma StepIsPrepaid(s: Ledger, step: Step)
    requires Prepaid(s) && PrepaidStep(s, step)
    ensures Prepaid(Apply(s, step)) && PaysAsItGoes(s, Apply(s, step))
  {
    hide Ord, Sum, SettleCycle, OverdueFrom, ApplyPayment, SettleMonth, Deduct;
    match step
    case NightlySweep(tariff, day) => SweepIsPrepaid(s, tariff, day);
    case CycleClosing(now) => ClosingIsPrepaid(s, now);
    case OverdueSweep(today) => NothingOverdue(s, 0, today, s.company);
    case PaymentApplied(i, tariff, now) => if i < |s.payments| { TopUpIsPrepaid(s, i, tariff, now); }
    case _ =>
  }

  lemma {:induction false} RunIsPrepaid(s: Ledger, steps: seq<Step>)
    requires Prepaid(s) && PrepaidRun(s, steps)
    ensures Prepaid(Run(s, steps))
  {
    if steps != [] {
      RunIsPrepaid(s, steps[..|steps| - 1]);
      StepIsPrepaid(Run(s, steps[..|steps| - 1]), steps[|steps| - 1]);
    }
  }

  /** What the last deduction of a run took, zero if there was none. */
  function LastDeduction(s: Ledger, steps: seq<Step>): int
  {
    if steps == [] then 0 else
    var front := steps[..|steps| - 1];
    var days := Deducted(Run(s, steps)) - Deducted(Run(s, front));
    if days > 0 then days else LastDeduction(s, front)
  }

  /** Over every prepaid run an active company has money, and debt stays below
      what the last deduction took: service stops with the day that ran it out. */
  lemma {:induction false} ActiveMeansPaid(s: Ledger, steps: seq<Step>)
    requires Prepaid(s) && s.balance >= 0 && PrepaidRun(s, steps)
    ensures Prepaid(Run(s, steps))
    ensures Run(s, steps).company == CompanyActive ==> Run(s, steps).balance > 0
    ensures Run(s, steps).balance < 0 ==> 0 - Run(s, steps).balance < LastDeduction(s, steps)
  {
    if steps != [] {
      var front := steps[..|steps| - 1];
      ActiveMeansPaid(s, front);
      StepIsPrepaid(Run(s, front), steps[|steps| - 1]);
    }
  }

  // ---- Catch-up equals day by day ----

  /** Equal but for the deducted flag on charges that cost nothing, which a
      deduction of total zero leaves unset. */
  predicate SameOutcome(s: Ledger, t: Ledger)
  {
    && |s.charges| == |t.charges|
    && t == s.(charges := t.charges)
    && forall i :: 0 <= i < |s.charges| ==>
         t.charges[i] == s.charges[i]
               || (s.charges[i].amount == 0 && t.charges[i] == s.charges[i].(deducted := t.charges[i].deducted))
  }

  function DeductDays(s: Ledger, days: seq<int>): Ledger
  {
    if days == [] then s else Deduct(DeductDays(s, days[..|days| - 1]), days[|days| - 1])
  }

  function Latest(days: seq<int>): int
    requires days != []
  {
    if |days| == 1 then days[0] else Max(Latest(days[..|days| - 1]), days[|days| - 1])
  }

  lemma DeductRespectsOutcome(s: Ledger, t: Ledger, upto: int)
    requires SameOutcome(s, t)
    ensures SameOutcome(Deduct(s, upto), Deduct(t, upto))
  {
    assert PendingWeights(s.charges, upto) == PendingWeights(t.charges, upto);
  }

  /** Deducting without the early return, which a zero total would not notice. */
  function Take(s: Ledger, upto: int): Ledger
  {
    var t := s.(balance := s.balance - PendingTotal(s.charges, upto), charges := MarkUpto(s.charges, upto));
    if PendingTotal(s.charges, upto) > 0 && t.balance <= 0 && t.company == CompanyActive then Block(t) else t
  }

  lemma DeductIsTake(s: Ledger, upto: int)
    ensures SameOutcome(Deduct(s, upto), Take(s, upto))
  {
    PendingTotalNatural(s.charges, upto);
    ZeroTotalMarksNothing(s.charges, upto);
  }

  lemma PendingAdds(charges: seq<Charge>, d1: int, d2: int)
    ensures PendingTotal(charges, Max(d1, d2)) == PendingTotal(charges, d1) + PendingTotal(MarkUpto(charges, d1), d2)
    ensures MarkUpto(MarkUpto(charges, d1), d2) == MarkUpto(charges, Max(d1, d2))
  {
    SumPointwise(PendingWeights(charges, d1), PendingWeights(MarkUpto(charges, d1), d2),
                 PendingWeights(charges, Max(d1, d2)));
  }

  lemma TakeTwice(s: Ledger, d1: int, d2: int)
    ensures Take(Take(s, d1), d2) == Take(s, Max(d1, d2))
  {
    hide PendingTotal, MarkUpto;
    PendingAdds(s.charges, d1, d2);
    PendingTotalNatural(s.charges, d1);
    PendingTotalNatural(MarkUpto(s.charges, d1), d2);
  }

  lemma SameOutcomeTransitive(s: Ledger, t: Ledger, u: Ledger)
    requires SameOutcome(s, t) && SameOutcome(t, u)
    ensures SameOutcome(s, u) && SameOutcome(u, s)
  {
    assert u == t.(charges := u.charges);
    assert s == u.(charges := s.charges);
  }

  lemma DeductTwice(s: Ledger, d1: int, d2: int)
    ensures SameOutcome(Deduct(Deduct(s, d1), d2), Deduct(s, Max(d1, d2)))
  {
    DeductIsTake(s, d1);
    DeductRespectsOutcome(Deduct(s, d1), Take(s, d1), d2);
    DeductIsTake(Take(s, d1), d2);
    SameOutcomeTransitive(Deduct(Deduct(s, d1), d2), Deduct(Take(s, d1), d2), Take(Take(s, d1), d2));
    TakeTwice(s, d1, d2);
    DeductIsTake(s, Max(d1, d2));
    SameOutcomeTransitive(Deduct(s, Max(d1, d2)), Take(s, Max(d1, d2)), Take(s, Max(d1, d2)));
    SameOutcomeTransitive(Deduct(Deduct(s, d1), d2), Take(s, Max(d1, d2)), Deduct(s, Max(d1, d2)));
  }

  lemma ZeroTotalMarksNothing(charges: seq<Charge>, upto: int)
    ensures PendingTotal(charges, upto) == 0 ==>
              forall i :: 0 <= i < |charges| && !charges[i].deducted && charges[i].day <= upto
                    ==> charges[i].amount == 0
  {
    SumZeroIff(PendingWeights(charges, upto));
    if PendingTotal(charges, upto) == 0 {
      forall i | 0 <= i < |charges| && !charges[i].deducted && charges[i].day <= upto ensures charges[i].amount == 0 {
        assert PendingWeights(charges, upto)[i] == 0;
      }
    }
  }

  /** A backlog taken at once ends like the same days taken one sweep at a time,
      whatever days were swept and in whatever order. */
  lemma {:induction false} CatchUp(s: Ledger, days: seq<int>)
    requires days != []
    ensures SameOutcome(DeductDays(s, days), Deduct(s, Latest(days)))
  {
    var front, last := days[..|days| - 1], days[|days| - 1];
    if front == [] {
      assert DeductDays(s, front) == s;
    } else {
      CatchUp(s, front);
      DeductRespectsOutcome(DeductDays(s, front), Deduct(s, Latest(front)), last);
      DeductTwice(s, Latest(front), last);
    }
  }
}
