/** What opens a billing period, what rolls it, and how the cycles of a
    subscription cover time. */
module BillingPeriods {
  import opened Prelude
  import opened Calendar
  import opened Billing
  import opened BillingLaws
  import opened BillingCycles
  import opened BillingEffects

  /** The steps that open a new period, read off the rows before the step: activating
      by hand a subscription that is on trial or suspended, a first payment, and a
      top-up that pays everything a suspended company owes and leaves a day. */
  predicate Reopens(s: Ledger, step: Step)
  {
    match step
    case Activated(_, _) => s.sub.Some? && (s.sub.value.status == SubTrial || s.sub.value.status == SubSuspended)
    case StaffActivated(_, _) => s.sub.Some? && (s.sub.value.status == SubTrial || s.sub.value.status == SubSuspended)
    case PaymentApplied(i, tariff, now) =>
      && s.sub.Some? && i < |s.payments| && s.payments[i].status == Pending
      && (s.sub.value.status == SubTrial
          || (s.sub.value.status == SubSuspended && s.company == CompanySuspended
              && s.balance + s.payments[i].amount - UnpaidTotal(s.statements) >= Max(1, Burn(tariff, now.date))))
    case _ => false
  }

  /** The steps that roll it: the sweep, on an active subscription whose cycle is over. */
  predicate Closes(s: Ledger, step: Step)
  {
    && step.CycleClosing? && s.sub.Some? && s.sub.value.status == SubActive && s.sub.value.period.Some?
    && Instant(s.sub.value.period.value.end) <= Instant(step.now)
  }

  /** Every step opens the period, rolls it or keeps it, and these say which. */
  lemma StepPeriodExactly(s: Ledger, step: Step)
    ensures var t := Apply(s, step);
            if Reopens(s, step) then Opened(s, t, step.now)
            else if Closes(s, step) then RollsPeriod(s, t)
            else KeepsPeriod(s, t)
  {
    hide Ord, Instant, Burn, UnpaidTotal, SettleCycle, OverdueFrom, ApplyPayment;
    match step
    case CycleClosing(now) => SettleCycleRolls(s);
    case PaymentApplied(i, tariff, now) =>
      if i < |s.payments| { CreditPeriodExactly(s, i, tariff, now); }
    case Activated(_, _) =>
    case SuspendedBy(_) =>
    case Canceled =>
    case StaffSuspended =>
    case StaffActivated(_, _) =>
    case _ => StepPeriod(s, step);
  }

  lemma CreditPeriodExactly(s: Ledger, i: nat, tariff: Tariff, now: Moment)
    requires i < |s.payments|
    ensures var t := ApplyPayment(s, i, tariff, now);
            if Reopens(s, PaymentApplied(i, tariff, now)) then Opened(s, t, now) else KeepsPeriod(s, t)
  {
    hide Ord, Instant, Burn, UnpaidTotal, SettleFrom;
    var p := s.payments[i];
    if p.status == Pending {
      var approved := s.(payments := s.payments[i := p.(status := Approved, approvedAt := Some(Instant(now)))]);
      SettlingTouches(approved.(balance := approved.balance + p.amount), 0);
      if s.company == CompanySuspended {
        TopUpReopensIff(approved, p.amount, tariff, now);
      }
    }
  }

  /** A run in which the subscription is never opened anew. */
  predicate NeverReopened(s: Ledger, steps: seq<Step>)
  {
    steps != [] ==>
      && NeverReopened(s, steps[..|steps| - 1])
      && !Reopens(Run(s, steps[..|steps| - 1]), steps[|steps| - 1])
  }

  /** Where cycle number n of a subscription begins: cycle 0 at `start`, every
      later one where the one before it ended. */
  function CycleStart(p: Period, n: nat): Date
  {
    if n == 0 then p.start.date else Roll(p.end.date, n - 1)
  }

  /** After any such run the current period is some n-th cycle counted from the
      first one: exactly one month after another, at the same time of day. */
  lemma {:induction false} PeriodsAreCycles(s: Ledger, steps: seq<Step>) returns (n: nat)
    requires s.sub.Some? && s.sub.value.period.Some? && NeverReopened(s, steps)
    ensures var p, t := s.sub.value.period.value, Run(s, steps);
            && t.sub.Some? && t.sub.value.period.Some?
            && t.sub.value.period.value.start.date == CycleStart(p, n)
            && t.sub.value.period.value.end.date == CycleStart(p, n + 1)
            && t.sub.value.period.value.end.second == p.end.second
  {
    if steps == [] {
      n := 0;
    } else {
      var front, last := steps[..|steps| - 1], steps[|steps| - 1];
      n := PeriodsAreCycles(s, front);
      hide Reopens, Apply;
      StepPeriodExactly(Run(s, front), last);
      if Closes(Run(s, front), last) {
        n := n + 1;
      }
    }
  }

  lemma {:induction false} CycleStartsIncrease(p: Period, n: nat)
    requires ValidPeriod(p)
    ensures Valid(CycleStart(p, n)) && Valid(CycleStart(p, n + 1))
    ensures Ord(CycleStart(p, n)) < Ord(CycleStart(p, n + 1))
  {
    if n > 0 {
      CycleStartsIncrease(p, n - 1);
      CycleLength(CycleStart(p, n));
    }
  }

  lemma {:induction false} LaterCyclesStartLater(p: Period, m: nat, n: nat)
    requires ValidPeriod(p) && m <= n
    ensures Valid(CycleStart(p, m)) && Valid(CycleStart(p, n))
    ensures Ord(CycleStart(p, m)) <= Ord(CycleStart(p, n))
    decreases n - m
  {
    CycleStartsIncrease(p, n);
    if m < n {
      LaterCyclesStartLater(p, m, n - 1);
      CycleStartsIncrease(p, n - 1);
    }
  }

  predicate InCycle(p: Period, n: nat, day: int)
  {
    && Valid(CycleStart(p, n)) && Valid(CycleStart(p, n + 1))
    && Ord(CycleStart(p, n)) <= day < Ord(CycleStart(p, n + 1))
  }

  /** Cycles tile time: every day from the start of the first cycle to the start
      of the n-th lies in exactly one of the first n. */
  lemma {:induction false} CyclesTileTime(p: Period, n: nat, day: int) returns (k: nat)
    requires ValidPeriod(p)
    requires Valid(CycleStart(p, n)) && Ord(p.start.date) <= day < Ord(CycleStart(p, n))
    ensures k < n && InCycle(p, k, day)
    ensures forall m: nat :: InCycle(p, m, day) ==> m == k
  {
    CycleStartsIncrease(p, n - 1);
    if Ord(CycleStart(p, n - 1)) <= day {
      k := n - 1;
      forall m: nat | InCycle(p, m, day) ensures m == k {
        if m < k { LaterCyclesStartLater(p, m + 1, k); }
        if k < m { LaterCyclesStartLater(p, k + 1, m); }
      }
    } else {
      k := CyclesTileTime(p, n - 1, day);
    }
  }
}
