/** Exactly what a deduction, a top-up, a closing and an overdue sweep do. */
module BillingEffects {
  import opened Prelude
  import opened Calendar
  import opened Billing
  import opened BillingLaws
  import opened BillingStatus
  import opened BillingCycles

  // ---- Deduction ----

  /** A deduction that takes anything marks the days up to its date and no other,
      and stops exactly an active company whose money it used up. */
  lemma DeductExactly(s: Ledger, upto: int)
    ensures var t, total := Deduct(s, upto), PendingTotal(s.charges, upto);
            && |t.charges| == |s.charges|
            && (forall i :: 0 <= i < |s.charges| ==>
                  t.charges[i] == s.charges[i].(
                    deducted := s.charges[i].deducted || (total > 0 && s.charges[i].day <= upto)))
            && (if s.company == CompanyActive && total > 0 && s.balance <= total
                then Stopped(s, t) else SameStanding(s, t))
  {
  }

  /** Days left are the whole days of burn the balance covers, told of an active
      company for which a day costs something. */
  lemma DaysLeftCovers(s: Ledger, tariff: Tariff, day: Date)
    ensures DaysLeft(s, tariff, day).Some? <==> s.company == CompanyActive && Burn(tariff, day) > 0
    ensures DaysLeft(s, tariff, day).Some? ==>
              var k, burn := DaysLeft(s, tariff, day).value, Burn(tariff, day);
              k * burn <= s.balance < k * burn + burn
  {
    hide Burn;
  }

  // ---- What a day costs ----

  lemma {:induction false} DayOfCharges(charges: seq<Charge>, operators: seq<string>, price: nat, day: Date)
    requires forall i, j :: 0 <= i < j < |operators| ==> operators[i] != operators[j]
    requires forall n :: n in operators ==> !HasCharge(charges, Ord(day), n)
    ensures var r := AccrueOperators(charges, operators, price, day);
            && PendingTotal(r, Ord(day)) == PendingTotal(charges, Ord(day)) + |operators| * DailyRate(price, day)
            && forall n :: HasCharge(r, Ord(day), n) ==> HasCharge(charges, Ord(day), n) || n in operators
  {
    hide Ord, DailyRate, Sum, HasCharge;
    if operators != [] {
      var front, name := operators[..|operators| - 1], operators[|operators| - 1];
      DayOfCharges(charges, front, price, day);
      var rest := AccrueOperators(charges, front, price, day);
      var row := Charge(Ord(day), name, DailyRate(price, day), price, false, None);
      assert name in operators && name !in front;
      OneMoreCharge(rest, row, Ord(day));
      assert |operators| * DailyRate(price, day) == |front| * DailyRate(price, day) + DailyRate(price, day);
      assert forall n :: n in front ==> n in operators;
    }
  }

  lemma OneMoreCharge(charges: seq<Charge>, row: Charge, day: int)
    requires row.day == day && !row.deducted
    ensures PendingTotal(charges + [row], day) == PendingTotal(charges, day) + row.amount
    ensures forall n :: HasCharge(charges + [row], day, n) ==> HasCharge(charges, day, n) || n == row.operator
  {
    hide Sum;
    assert PendingWeights(charges + [row], day) == PendingWeights(charges, day) + [row.amount];
    SumAppend(PendingWeights(charges, day), row.amount);
    forall n | HasCharge(charges + [row], day, n) && n != row.operator ensures HasCharge(charges, day, n) {
      var i :| 0 <= i < |charges + [row]| && (charges + [row])[i].day == day && (charges + [row])[i].operator == n;
      assert charges[i].day == day && charges[i].operator == n;
    }
  }

  /** What the burn rate promises: with no backlog, a night costs an active company
      exactly its burn, and it stays active exactly when it had more than that (or
      the day cost nothing). A balance of exactly one day is used up and suspends. */
  lemma NightCostsBurn(s: Ledger, tariff: Tariff, day: Date)
    requires s.company == CompanyActive && PendingTotal(s.charges, Ord(day)) == 0
    requires forall i, j :: 0 <= i < j < |tariff.operators| ==> tariff.operators[i] != tariff.operators[j]
    requires forall n :: n in tariff.operators ==> !HasCharge(s.charges, Ord(day), n)
    ensures var t := Nightly(s, tariff, day);
            && t.balance == s.balance - Burn(tariff, day)
            && (t.company == CompanyActive <==> s.balance > Burn(tariff, day) || Burn(tariff, day) == 0)
  {
    hide Ord, DailyRate, AccrueOperators, PendingTotal;
    DayOfCharges(s.charges, tariff.operators, tariff.price, day);
    DeductMovesPending(AccrueDay(s, tariff, day), Ord(day));
    DeductExactly(AccrueDay(s, tariff, day), Ord(day));
  }

  // ---- Settling unpaid statements ----

  function UnpaidWeights(statements: seq<Statement>): (w: seq<int>)
    ensures |w| == |statements|
  {
    seq(|statements|, i requires 0 <= i < |statements| =>
      if statements[i].status != Paid then statements[i].total else 0)
  }

  function UnpaidTotal(statements: seq<Statement>): int { Sum(UnpaidWeights(statements)) }

  /** What statements i up to n still owe. */
  function OwedIn(s: Ledger, i: nat, n: nat): int
    requires i <= n <= |s.statements|
  {
    Sum(UnpaidWeights(s.statements)[i..n])
  }

  /** Rows from i up to n are paid, the rest are as they were. */
  predicate PaidBetween(s: Ledger, t: Ledger, i: nat, n: nat)
  {
    && |t.statements| == |s.statements| && i <= n <= |s.statements|
    && (forall j :: i <= j < n ==> t.statements[j].status == Paid && t.statements[j].total == s.statements[j].total)
    && (forall j :: 0 <= j < |s.statements| && !(i <= j < n) ==> t.statements[j] == s.statements[j])
  }

  lemma OwedStep(s: Ledger, i: nat, n: nat)
    requires i < n <= |s.statements|
    ensures OwedIn(s, i, n) == UnpaidWeights(s.statements)[i] + OwedIn(s, i + 1, n)
  {
    var w := UnpaidWeights(s.statements)[i..n];
    assert w == [w[0]] + w[1..];
    assert w[1..] == UnpaidWeights(s.statements)[i + 1..n];
    SumConcat([w[0]], w[1..]);
    assert Sum([w[0]]) == w[0] by { assert [w[0]][..0] == []; }
  }

  lemma OwedElsewhere(s: Ledger, t: Ledger, i: nat, n: nat)
    requires i <= n <= |s.statements| == |t.statements|
    requires forall j :: i <= j < n ==> t.statements[j] == s.statements[j]
    ensures OwedIn(t, i, n) == OwedIn(s, i, n)
  {
    assert UnpaidWeights(t.statements)[i..n] == UnpaidWeights(s.statements)[i..n];
  }

  /** Settling pays unpaid statements oldest first, each in full, and stops only
      at one whose total the balance does not cover. */
  lemma {:induction false} SettlesOldestFirst(s: Ledger, i: nat) returns (n: nat)
    requires i <= |s.statements|
    ensures i <= n <= |s.statements|
    ensures PaidBetween(s, SettleFrom(s, i), i, n)
    ensures SettleFrom(s, i).balance == s.balance - OwedIn(s, i, n)
    ensures n < |s.statements| ==>
              s.statements[n].status != Paid && SettleFrom(s, i).balance < s.statements[n].total
    decreases |s.statements| - i
  {
    if i == |s.statements| {
      n := i;
      assert UnpaidWeights(s.statements)[i..n] == [];
    } else {
      var (t, settled) := SettleStatement(s, i);
      if settled {
        n := SettlesOldestFirst(t, i + 1);
        OwedStep(s, i, n);
        OwedElsewhere(s, t, i + 1, n);
      } else {
        n := i;
        assert UnpaidWeights(s.statements)[i..n] == [];
      }
    }
  }

  /** A top-up reopens a suspended company exactly when it pays everything unpaid
      and what is left is positive and covers a day at the current rate. */
  lemma TopUpReopensIff(s: Ledger, amount: nat, tariff: Tariff, now: Moment)
    requires s.company == CompanySuspended
    ensures CreditBalance(s, amount, tariff, now).company == CompanyActive
       <==> s.balance + amount - UnpaidTotal(s.statements) >= Max(1, Burn(tariff, now.date))
  {
    hide Ord, Burn, OwedIn, SettleFrom;
    var t := s.(balance := s.balance + amount);
    var n := SettlesOldestFirst(t, 0);
    var u := SettleFrom(t, 0);
    SettlingTouches(t, 0);
    OwedInAll(t, n);
    if n < |s.statements| {
      assert u.statements[n] == s.statements[n];
      assert HasUnpaid(u.statements);
    } else {
      assert !HasUnpaid(u.statements);
    }
  }

  /** Canceling does not stop a company for good: a top-up runs it again exactly when
      it pays everything unpaid and leaves a day of service; its subscription stays
      canceled either way. */
  lemma CanceledCompanyCanRun(s: Ledger, i: nat, tariff: Tariff, now: Moment)
    requires i < |s.payments| && s.payments[i].status == Pending
    requires s.sub.Some? && s.sub.value.status == SubCanceled && s.company == CompanySuspended
    ensures var t := ApplyPayment(s, i, tariff, now);
            && t.sub == s.sub
            && (t.company == CompanyActive <==>
                  s.balance + s.payments[i].amount - UnpaidTotal(s.statements) >= Max(1, Burn(tariff, now.date)))
  {
    hide Ord, Burn, UnpaidTotal, SettleFrom, Instant;
    var p := s.payments[i];
    var approved := s.(payments := s.payments[i := p.(status := Approved, approvedAt := Some(Instant(now)))]);
    TopUpReopensIff(approved, p.amount, tariff, now);
    SettlingTouches(approved.(balance := approved.balance + p.amount), 0);
  }

  /** What the first n statements owe, against what all of them do. */
  lemma OwedInAll(s: Ledger, n: nat)
    requires n <= |s.statements|
    ensures n == |s.statements| ==> OwedIn(s, 0, n) == UnpaidTotal(s.statements)
    ensures n < |s.statements| && s.statements[n].status != Paid ==>
              OwedIn(s, 0, n) + s.statements[n].total <= UnpaidTotal(s.statements)
  {
    hide Sum;
    var w := UnpaidWeights(s.statements);
    assert w[0..n] == w[..n];
    if n < |s.statements| {
      SumPrefix(w, n);
    } else {
      assert w[0..n] == w;
    }
  }

  /** A first payment ends the trial and opens a cycle at once, whatever its size. */
  lemma FirstPaymentEndsTrial(s: Ledger, i: nat, tariff: Tariff, now: Moment)
    requires i < |s.payments| && s.payments[i].status == Pending
    requires s.sub.Some? && s.sub.value.status == SubTrial && s.company == CompanyTrial
    ensures var t := ApplyPayment(s, i, tariff, now);
            Opened(s, t, now) && t.company == CompanyActive && t.sub.value.price == tariff.price
  {
    hide Ord, Burn, Instant;
    var p := s.payments[i];
    SettlingTouches(s.(payments := s.payments[i := p.(status := Approved, approvedAt := Some(Instant(now)))],
                             balance := s.balance + p.amount), 0);
  }

  // ---- Closing and overdue ----

  predicate FallsDue(st: Statement, today: Date) { st.status == Due && PastGrace(st, today) }

  /** The grace is two days from a cycle's end; a legacy month falls due from the
      third of the month after it. */
  lemma GraceEnds(st: Statement, today: Date)
    requires st.status == Due && Valid(st.month) && Valid(today)
    ensures st.end.Some? ==> (FallsDue(st, today) <==> Ord(today) - Ord(st.end.value) >= 2)
    ensures st.end.None? ==> (FallsDue(st, today) <==> !Before(today, AddMonth(FirstOfMonth(st.month)).(day := 3)))
  {
    var first := AddMonth(FirstOfMonth(st.month));
    var third := first.(day := 3);
    AddMonthAgrees(FirstOfMonth(st.month));
    OrdOrder(today, third);
    assert Ord(third) == Ord(first) + 2;
  }

  function FallingDue(statements: seq<Statement>, i: nat, today: Date): nat
    requires i <= |statements|
    decreases |statements| - i
  {
    if i == |statements| then 0
    else (if FallsDue(statements[i], today) then 1 else 0) + FallingDue(statements, i + 1, today)
  }

  lemma {:induction false} FallingDueSuffix(one: seq<Statement>, two: seq<Statement>, i: nat, today: Date)
    requires |one| == |two| && i <= |one| && forall j :: i <= j < |one| ==> one[j] == two[j]
    ensures FallingDue(one, i, today) == FallingDue(two, i, today)
    decreases |one| - i
  {
    if i < |one| {
      FallingDueSuffix(one, two, i + 1, today);
    }
  }

  lemma BlockMovesNoMoney(s: Ledger)
    ensures SameMoney(s, Block(s))
  {
  }

  /** Overdue enforcement marks exactly the due statements past their grace, moves
      no money, and counts a block for each of them if the company was active. */
  lemma {:induction false} OverdueExactly(s: Ledger, i: nat, today: Date, seen: CompanyStatus)
    requires i <= |s.statements|
    ensures var (t, blocked) := OverdueFrom(s, i, today, seen);
            && |t.statements| == |s.statements|
            && (forall j :: 0 <= j < |s.statements| ==>
                  t.statements[j] == if i <= j && FallsDue(s.statements[j], today)
                                     then s.statements[j].(status := Overdue) else s.statements[j])
            && t.balance == s.balance && t.charges == s.charges && t.payments == s.payments
            && blocked == if seen == CompanyActive then FallingDue(s.statements, i, today) else 0
    decreases |s.statements| - i
  {
    hide Ord, PastGrace, Block;
    if i < |s.statements| {
      if !FallsDue(s.statements[i], today) {
        OverdueExactly(s, i + 1, today, seen);
      } else {
        var t := s.(statements := s.statements[i := s.statements[i].(status := Overdue)]);
        FallingDueSuffix(s.statements, t.statements, i + 1, today);
        BlockMovesNoMoney(t);
        if seen == CompanyActive {
          OverdueExactly(Block(t), i + 1, today, seen);
        } else {
          OverdueExactly(t, i + 1, today, seen);
        }
      }
    }
  }

  // ---- Legacy statements ----

  /** The row a legacy month is settled in, as found or newly created. */
  function MonthRow(s: Ledger, month: Date): (seq<Statement>, nat)
  {
    var first := FirstOfMonth(month);
    MonthTotalNatural(s.charges, Ord(first), Ord(AddMonth(first)));
    var total := Sum(MonthWeights(s.charges, Ord(first), Ord(AddMonth(first))));
    GetOrCreate(s.statements, Statement(first, None, None, total, Due, false, false))
  }

  /** A month's sum counts exactly the charges dated in that month of that year. */
  lemma MonthCounts(charges: seq<Charge>, month: Date, i: nat, day: Date)
    requires i < |charges| && Valid(month) && Valid(day) && charges[i].day == Ord(day)
    ensures var first := FirstOfMonth(month);
            var counted := if day.year == month.year && day.month == month.month then charges[i].amount else 0;
            MonthWeights(charges, Ord(first), Ord(AddMonth(first)))[i] == counted
  {
    hide Ord;
    var first := FirstOfMonth(month);
    AddMonthAgrees(first);
    AddMonthsIndex(first, 1);
    OrdOrder(day, first);
    OrdOrder(day, AddMonth(first));
  }

  /** A legacy month statement adds up the charges of its calendar month, linked
      or not, and is paid at once exactly when the balance covers it; a month paid
      before is left alone, even if its charges have changed. */
  lemma MonthStatement(s: Ledger, month: Date)
    ensures var (rows, i) := MonthRow(s, month);
            var t, first := SettleMonth(s, month), FirstOfMonth(month);
            var total := Sum(MonthWeights(s.charges, Ord(first), Ord(AddMonth(first))));
            var paid := total == 0 || s.balance >= total;
            && i < |rows| && Ord(rows[i].month) == Ord(first)
            && if rows[i].status == Paid then t == s
               else && |t.statements| == |rows|
                    && (forall j :: 0 <= j < |rows| && j != i ==> t.statements[j] == rows[j])
                    && t.statements[i].total == total
                    && (t.statements[i].status == Paid <==> paid)
                    && t.balance == s.balance - (if paid then total else 0)
  {
    hide Ord, Sum, MonthWeights;
    var first := FirstOfMonth(month);
    MonthTotalNatural(s.charges, Ord(first), Ord(AddMonth(first)));
    var (rows, i) := MonthRow(s, month);
    if rows[i].status == Paid {
      var total := Sum(MonthWeights(s.charges, Ord(first), Ord(AddMonth(first))));
      FoundRowWasThere(s.statements, Statement(first, None, None, total, Due, false, false));
    }
    hide GetOrCreate;
  }

  lemma FoundRowWasThere(statements: seq<Statement>, blank: Statement)
    requires blank.status != Paid
    ensures var (rows, i) := GetOrCreate(statements, blank); rows[i].status == Paid ==> rows == statements
  {
  }

  // ---- From signup ----

  /** After any run of the services from signup the money adds up and each day is
      billed at most once; the statuses go forward, and agree throughout exactly when
      nobody overwrote the company; and if the run is prepaid, an active company has
      money and debt stays below the last deduction. */
  lemma FromSignup(withSubscription: bool, price: nat, trialEnds: Option<int>, steps: seq<Step>)
    ensures var start := SignedUp(withSubscription, price, trialEnds);
            var s := Run(start, steps);
            && s.balance == ApprovedTotal(s) - Deducted(s) - Taken(s)
            && Billed(s) && OnePerOperatorDay(s.charges)
            && StatusStep(start, s)
            && (NeverOverwritten(start, steps) <==> forall k :: 0 <= k <= |steps| ==> Agrees(Run(start, steps[..k])))
            && (PrepaidRun(start, steps) ==>
                  && (s.company == CompanyActive ==> s.balance > 0)
                  && (s.balance < 0 ==> 0 - s.balance < LastDeduction(start, steps)))
  {
    hide Run, Billed, LastDeduction, NeverOverwritten, PrepaidRun, StatusStep;
    var start := SignedUp(withSubscription, price, trialEnds);
    assert Billed(start) by { SignedUpBilled(withSubscription, price, trialEnds); }
    MoneyIsConserved(start, steps);
    StatusesAgree(start, steps);
    StatusesGoForward(start, steps);
    EachDayBilledOnce(start, steps);
    if PrepaidRun(start, steps) {
      ActiveMeansPaid(start, steps);
    }
  }

  lemma SignedUpBilled(withSubscription: bool, price: nat, trialEnds: Option<int>)
    ensures Billed(SignedUp(withSubscription, price, trialEnds))
  {
  }
}
