/** The billing services as they run: one company's rows, changed in place.
    Every method does to the rows what its function in Billing.dfy says. */
module Account {
  import opened Prelude
  import opened Calendar
  import opened Billing

  class CompanyAccount {
    var balance: int
    var company: CompanyStatus
    var sub: Option<Subscription>
    var charges: seq<Charge>
    var statements: seq<Statement>
    var payments: seq<Payment>
    var trialEnds: Option<int>
    var staffHold: bool
    /** How many times a transition was refused, where the source raises. */
    ghost var refusals: nat

    /** The rows as a value. */
    function View(): Ledger
      reads this
    {
      Ledger(balance, company, sub, charges, statements, payments, trialEnds, staffHold)
    }

    constructor (price: nat, trialEnds: Option<int>)
      ensures View() == Ledger(0, CompanyTrial, Some(Subscription(SubTrial, price, None)), [], [], [], trialEnds, false)
      ensures refusals == 0
    {
      refusals := 0;
      balance, company, sub := 0, CompanyTrial, Some(Subscription(SubTrial, price, None));
      charges, statements, payments := [], [], [];
      this.trialEnds, staffHold := trialEnds, false;
    }

    // ---- Subscription state machine: `ok` is false where the source raises ----

    method TransitionTo(to: SubStatus) returns (ok: bool)
      requires sub.Some?
      modifies this`sub, this`refusals
      ensures var r := Transition(old(sub.value), to);
              ok == r.Some? && sub == if ok then r else old(sub)
      ensures refusals == old(refusals) + if ok then 0 else 1
    {
      ok := Allowed(sub.value.status, to);
      if ok {
        sub := Some(sub.value.(status := to));
      } else {
        refusals := refusals + 1;
      }
    }

    method ActivateNow(tariff: Tariff, now: Moment) returns (ok: bool)
      requires sub.Some?
      modifies this
      ensures var r := Activate(old(View()), tariff, now);
              ok == r.Some? && View() == if ok then r.value else old(View())
      ensures refusals == old(refusals) + if ok then 0 else 1
    {
      ok := TransitionTo(SubActive);
      if ok {
        sub := Some(sub.value.(price := tariff.price, period := Some(Period(now, AddMonthMoment(now)))));
        company := CompanyActive;
      }
    }

    method SuspendNow(byStaff: bool) returns (ok: bool)
      requires sub.Some?
      modifies this
      ensures var r := Suspend(old(View()), byStaff);
              ok == r.Some? && View() == if ok then r.value else old(View())
      ensures refusals == old(refusals) + if ok then 0 else 1
    {
      ok := TransitionTo(SubSuspended);
      if ok {
        company, staffHold := CompanySuspended, byStaff;
      }
    }

    method CancelNow() returns (ok: bool)
      requires sub.Some?
      modifies this
      ensures var r := Cancel(old(View()));
              ok == r.Some? && View() == if ok then r.value else old(View())
      ensures refusals == old(refusals) + if ok then 0 else 1
    {
      ok := TransitionTo(SubCanceled);
      if ok {
        company := CompanySuspended;
      }
    }

    /** This, and every job and payment below, never asks for a transition that is
        refused: `refusals` stays. */
    method BlockNow()
      modifies this
      ensures View() == Block(old(View()))
      ensures refusals == old(refusals)
    {
      if sub.Some? && (sub.value.status == SubTrial || sub.value.status == SubActive) {
        var ok := SuspendNow(false);
        assert ok;
      } else {
        company := CompanySuspended;
      }
    }

    // ---- The staff's buttons ----

    method StaffSuspendNow()
      modifies this
      ensures View() == StaffSuspend(old(View()))
      ensures refusals == old(refusals)
    {
      if sub.Some? && (sub.value.status == SubTrial || sub.value.status == SubActive) {
        var ok := SuspendNow(true);
        assert ok;
      } else {
        company := CompanySuspended;
      }
    }

    method StaffActivateNow(tariff: Tariff, now: Moment)
      modifies this
      ensures View() == StaffActivate(old(View()), tariff, now)
      ensures refusals == old(refusals)
    {
      if sub.Some? && (sub.value.status == SubTrial || sub.value.status == SubSuspended) {
        var ok := ActivateNow(tariff, now);
        assert ok;
      } else {
        company := CompanyActive;
      }
    }

    method ExtendTrialNow(days: int, now: Moment)
      modifies this
      ensures View() == ExtendTrial(old(View()), days, now)
      ensures refusals == old(refusals)
    {
      var base := if trialEnds.Some? then trialEnds.value else Instant(now);
      company, trialEnds := CompanyTrial, Some(Max(base, Instant(now)) + days * 86400);
    }

    method ExpireTrial(now: Moment)
      modifies this
      ensures View() == TrialExpiry(old(View()), now)
      ensures refusals == old(refusals)
    {
      if company == CompanyTrial && trialEnds.Some? && trialEnds.value < Instant(now) {
        if sub.Some? && sub.value.status == SubTrial {
          var ok := SuspendNow(false);
          assert ok;
        } else {
          company, staffHold := CompanySuspended, false;
        }
      }
    }

    // ---- Daily charges ----

    /** One operator-day, written once however often it is accrued. */
    method AccrueOperatorDay(operator: string, price: nat, day: Date)
      modifies this`charges
      ensures charges == AccrueOperators(old(charges), [operator], price, day)
    {
      assert [operator][..0] == [];
      if !HasCharge(charges, Ord(day), operator) {
        charges := charges + [Charge(Ord(day), operator, DailyRate(price, day), price, false, None)];
      }
    }

    method AccrueCompanyDay(tariff: Tariff, day: Date) returns (count: nat)
      modifies this
      ensures View() == AccrueDay(old(View()), tariff, day)
      ensures refusals == old(refusals)
      ensures count == if old(company) == CompanyActive then |tariff.operators| else 0
    {
      count := 0;
      if company != CompanyActive {
        return;
      }
      while count < |tariff.operators|
        invariant 0 <= count <= |tariff.operators|
        invariant View() == old(View()).(charges := charges) && refusals == old(refusals)
        invariant charges == AccrueOperators(old(charges), tariff.operators[..count], tariff.price, day)
      {
        var done := tariff.operators[..count];
        assert tariff.operators[..count + 1] == done + [tariff.operators[count]];
        assert (done + [tariff.operators[count]])[..count] == done;
        assert [tariff.operators[count]][..0] == [];
        AccrueOperatorDay(tariff.operators[count], tariff.price, day);
        count := count + 1;
      }
      assert tariff.operators[..count] == tariff.operators;
    }

    method SumPending(upto: int) returns (total: int)
      ensures total == PendingTotal(charges, upto) >= 0
    {
      total := 0;
      var i := 0;
      ghost var w := PendingWeights(charges, upto);
      while i < |charges|
        invariant 0 <= i <= |charges|
        invariant total == Sum(w[..i]) >= 0
      {
        assert w[..i + 1][..i] == w[..i];
        if !charges[i].deducted && charges[i].day <= upto {
          total := total + charges[i].amount;
        }
        i := i + 1;
      }
      assert w[..i] == w;
    }

    method MarkDeducted(upto: int)
      modifies this`charges
      ensures charges == MarkUpto(old(charges), upto)
    {
      var i := 0;
      while i < |charges|
        invariant 0 <= i <= |charges| == |old(charges)|
        invariant forall j :: 0 <= j < i ==> charges[j] == MarkUpto(old(charges), upto)[j]
        invariant forall j :: i <= j < |charges| ==> charges[j] == old(charges)[j]
      {
        if !charges[i].deducted && charges[i].day <= upto {
          charges := charges[i := charges[i].(deducted := true)];
        }
        i := i + 1;
      }
    }

    /** Sum the undeducted days up to `upto`, take the sum, then mark them. */
    method DeductPendingCharges(upto: int) returns (total: int)
      modifies this
      ensures View() == Deduct(old(View()), upto)
      ensures refusals == old(refusals)
      ensures total == PendingTotal(old(charges), upto)
    {
      hide PendingTotal, MarkUpto, Block;
      total := SumPending(upto);
      if total <= 0 {
        return;
      }
      balance := balance - total;
      MarkDeducted(upto);
      if balance <= 0 && company == CompanyActive {
        BlockNow();
      }
    }

    method RunNightly(tariff: Tariff, day: Date)
      modifies this
      ensures View() == Nightly(old(View()), tariff, day)
      ensures refusals == old(refusals)
    {
      if company == CompanyActive {
        var count := AccrueCompanyDay(tariff, day);
        var total := DeductPendingCharges(Ord(day));
      }
    }

    // ---- Statements ----

    method SettleRow(i: nat) returns (settled: bool)
      requires i < |statements|
      modifies this
      ensures (View(), settled) == SettleStatement(old(View()), i)
      ensures refusals == old(refusals)
    {
      var st := statements[i];
      if st.status == Paid {
        return true;
      }
      if st.total == 0 {
        statements := statements[i := st.(status := Paid)];
        return true;
      }
      if balance < st.total {
        return false;
      }
      balance := balance - st.total;
      statements := statements[i := st.(status := Paid, taken := true)];
      return true;
    }

    /** The row of a month, created in month order if there is none. */
    method GetOrCreateRow(blank: Statement) returns (i: nat)
      modifies this`statements
      ensures (statements, i) == GetOrCreate(old(statements), blank)
      ensures i < |statements|
    {
      i := 0;
      while i < |statements| && Ord(statements[i].month) < Ord(blank.month)
        invariant i <= |statements|
        invariant Position(statements, blank.month) == i + Position(statements[i..], blank.month)
      {
        assert statements[i..][1..] == statements[i + 1..];
        i := i + 1;
      }
      if i == |statements| || Ord(statements[i].month) != Ord(blank.month) {
        statements := statements[..i] + [blank] + statements[i..];
      }
    }

    method SettleMonthNow(month: Date)
      modifies this
      ensures View() == SettleMonth(old(View()), month)
      ensures refusals == old(refusals)
    {
      var first := FirstOfMonth(month);
      MonthTotalNatural(charges, Ord(first), Ord(AddMonth(first)));
      var total := Sum(MonthWeights(charges, Ord(first), Ord(AddMonth(first))));
      var i := GetOrCreateRow(Statement(first, None, None, total, Due, false, false));
      if statements[i].status != Paid && statements[i].total != total {
        statements := statements[i := statements[i].(total := total)];
      }
      assert statements == statements[i := statements[i]];
      var settled := SettleRow(i);
    }

    /** Link the cycle's unbilled days to row i and add up everything linked to it. */
    method CloseRow(i: nat, start: Date, end: Date)
      requires i < |statements|
      modifies this`charges, this`statements
      ensures View() == CloseStatement(old(View()), i, start, end)
    {
      if statements[i].status == Paid {
        return;
      }
      var key := Ord(statements[i].month);
      var k, total := 0, 0;
      while k < |charges|
        invariant 0 <= k <= |charges| == |old(charges)|
        invariant View() == old(View()).(charges := charges)
        invariant forall j :: 0 <= j < k ==> charges[j] == Link(old(charges), key, Ord(start), Ord(end))[j]
        invariant forall j :: k <= j < |charges| ==> charges[j] == old(charges)[j]
        invariant total == Sum(LinkedWeights(Link(old(charges), key, Ord(start), Ord(end)), key)[..k]) >= 0
      {
        ghost var w := LinkedWeights(Link(old(charges), key, Ord(start), Ord(end)), key);
        assert w[..k + 1][..k] == w[..k];
        if charges[k].statement.None? && Ord(start) <= charges[k].day < Ord(end) {
          charges := charges[k := charges[k].(statement := Some(key))];
        }
        if charges[k].statement == Some(key) {
          total := total + charges[k].amount;
        }
        k := k + 1;
      }
      ghost var linked := Link(old(charges), key, Ord(start), Ord(end));
      assert charges == linked;
      assert LinkedWeights(linked, key)[..k] == LinkedWeights(linked, key);
      statements := statements[i := statements[i].(start := Some(start), end := Some(end),
                                                   total := total, status := Paid, closed := true)];
    }

    method SettleCycleNow()
      modifies this
      ensures View() == SettleCycle(old(View()))
      ensures refusals == old(refusals)
    {
      hide Ord, GetOrCreate, CloseStatement, PendingTotal, MarkUpto;
      if sub.None? || sub.value.period.None? {
        return;
      }
      var p := sub.value.period.value;
      var total := DeductPendingCharges(Ord(p.end.date) - 1);
      var i := GetOrCreateRow(Statement(p.start.date, Some(p.start.date), Some(p.end.date), 0, Due, false, false));
      CloseRow(i, p.start.date, p.end.date);
      sub := Some(sub.value.(period := Some(Period(p.end, AddMonthMoment(p.end)))));
    }

    /** Mark overdue rows; block once per row whose company copy still reads active. */
    method RunOverdueEnforcement(today: Date) returns (blocked: nat)
      modifies this
      ensures (View(), blocked) == EnforceOverdue(old(View()), today)
      ensures refusals == old(refusals)
    {
      blocked := 0;
      var seen := company;
      var i := 0;
      ghost var all := OverdueFrom(View(), 0, today, seen);
      while i < |statements|
        invariant 0 <= i <= |statements|
        invariant var rest := OverdueFrom(View(), i, today, seen);
                  all.0 == rest.0 && all.1 == blocked + rest.1
        invariant refusals == old(refusals)
        decreases |statements| - i
      {
        if statements[i].status == Due && PastGrace(statements[i], today) {
          statements := statements[i := statements[i].(status := Overdue)];
          if seen == CompanyActive {
            BlockNow();
            blocked := blocked + 1;
          }
        }
        i := i + 1;
      }
    }

    // ---- Payments ----

    method ReactivateNow(tariff: Tariff, now: Moment)
      modifies this
      ensures View() == ReactivateIfClear(old(View()), tariff, now)
      ensures refusals == old(refusals)
    {
      if HasUnpaid(statements) || company != CompanySuspended {
        return;
      }
      if balance <= 0 || balance < Burn(tariff, now.date) {
        return;
      }
      if sub.Some? && sub.value.status == SubSuspended {
        var ok := ActivateNow(tariff, now);
        assert ok;
      } else {
        company := CompanyActive;
      }
    }

    method CreditNow(amount: nat, tariff: Tariff, now: Moment)
      modifies this
      ensures View() == CreditBalance(old(View()), amount, tariff, now)
      ensures refusals == old(refusals)
    {
      balance := balance + amount;
      var i := 0;
      ghost var all := SettleFrom(View(), 0);
      while i < |statements|
        invariant 0 <= i <= |statements|
        invariant SettleFrom(View(), i) == all && refusals == old(refusals)
        decreases |statements| - i
      {
        var settled := SettleRow(i);
        if !settled {
          break;
        }
        i := i + 1;
      }
      assert View() == all;
      ReactivateNow(tariff, now);
    }

    /** Credits only a payment that is PENDING in the row itself. */
    method ApplyPaymentNow(i: nat, tariff: Tariff, now: Moment)
      requires i < |payments|
      modifies this
      ensures View() == ApplyPayment(old(View()), i, tariff, now)
      ensures refusals == old(refusals)
    {
      if payments[i].status != Pending {
        return;
      }
      var amount := payments[i].amount;
      payments := payments[i := payments[i].(status := Approved, approvedAt := Some(Instant(now)))];
      CreditNow(amount, tariff, now);
      if sub.Some? {
        if sub.value.status == SubTrial {
          var ok := ActivateNow(tariff, now);
          assert ok;
        } else if sub.value.status == SubActive {
          company := CompanyActive;
        }
      }
    }

    method RefundNow(i: nat) returns (ok: bool)
      requires i < |payments|
      modifies this
      ensures var r := Refund(old(View()), i);
              ok == r.Some? && View() == if ok then r.value else old(View())
      ensures refusals == old(refusals)
    {
      ok := payments[i].status == Approved;
      if ok {
        balance := balance - payments[i].amount;
        payments := payments[i := payments[i].(status := Rejected)];
      }
    }
  }
}
