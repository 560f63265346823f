/** Billing cycles: what closing one does to the money, which statement bills
    which day, and how cycles cover time. */
module BillingCycles {
  import opened Prelude
  import opened Calendar
  import opened Billing
  import opened BillingLaws

  // ---- Charges are an append-only record ----

  /** Charges are never lost or repriced, a deducted day stays deducted, and a
      day billed by a statement stays with that statement. */
  predicate ChargeKept(c: Charge, k: Charge)
  {
    && k == c.(deducted := k.deducted, statement := k.statement)
    && (c.deducted ==> k.deducted)
    && (c.statement.Some? ==> k.statement == c.statement)
  }

  predicate ChargesKept(s: Ledger, t: Ledger)
  {
    |s.charges| <= |t.charges| && forall i :: 0 <= i < |s.charges| ==> ChargeKept(s.charges[i], t.charges[i])
  }

  /** The unique constraint: one charge per operator name and day. */
  predicate OnePerOperatorDay(charges: seq<Charge>)
  {
    forall i, j :: 0 <= i < j < |charges|
          ==> charges[i].day != charges[j].day || charges[i].operator != charges[j].operator
  }

  lemma {:induction false} AccrualAppends(charges: seq<Charge>, operators: seq<string>, price: nat, day: Date)
    ensures var r := AccrueOperators(charges, operators, price, day);
            && |charges| <= |r| && r[..|charges|] == charges
            && (forall i :: |charges| <= i < |r| ==>
                  r[i].statement.None? && !r[i].deducted && r[i].day == Ord(day)
                        && r[i].amount == DailyRate(price, day))
            && (forall n :: n in operators ==> HasCharge(r, Ord(day), n))
            && (OnePerOperatorDay(charges) ==> OnePerOperatorDay(r))
  {
    if operators != [] {
      var front, name := operators[..|operators| - 1], operators[|operators| - 1];
      AccrualAppends(charges, front, price, day);
      var rest := AccrueOperators(charges, front, price, day);
      var r := AccrueOperators(charges, operators, price, day);
      forall n | n in operators ensures HasCharge(r, Ord(day), n) {
        if n in front {
          var i :| 0 <= i < |rest| && rest[i].day == Ord(day) && rest[i].operator == n;
          assert r[i] == rest[i];
        } else if r != rest {
          assert r[|rest|].operator == n;
        }
      }
    }
  }

  /** Running the accrual of a day again writes nothing. */
  lemma {:induction false} AccrualIdempotent(charges: seq<Charge>, operators: seq<string>, price: nat, day: Date)
    requires forall n :: n in operators ==> HasCharge(charges, Ord(day), n)
    ensures AccrueOperators(charges, operators, price, day) == charges
  {
    if operators != [] {
      AccrualIdempotent(charges, operators[..|operators| - 1], price, day);
      assert operators[|operators| - 1] in operators;
    }
  }

  lemma AccrueTwice(s: Ledger, tariff: Tariff, later: Tariff, day: Date)
    requires forall n :: n in later.operators ==> n in tariff.operators
    ensures AccrueDay(AccrueDay(s, tariff, day), later, day) == AccrueDay(s, tariff, day)
  {
    AccrualAppends(s.charges, tariff.operators, tariff.price, day);
    if s.company == CompanyActive {
      AccrualIdempotent(AccrueDay(s, tariff, day).charges, later.operators, later.price, day);
    }
  }

  // ---- Statements and the charges they bill ----

  predicate Sorted(statements: seq<Statement>)
  {
    forall i, j :: 0 <= i < j < |statements| ==> Ord(statements[i].month) < Ord(statements[j].month)
  }

  predicate IsClosed(statements: seq<Statement>, key: int)
  {
    exists i :: 0 <= i < |statements| && statements[i].closed && Ord(statements[i].month) == key
  }

  predicate Totals(charges: seq<Charge>, st: Statement)
  {
    && (st.taken ==> st.status == Paid)
    && (st.closed ==> st.status == Paid && !st.taken && st.total == Sum(LinkedWeights(charges, Ord(st.month))))
  }

  /** Every cycle statement's total is the sum of its linked charges, it was not
      also paid from the balance, and charges are linked to no other row. */
  predicate BilledRows(charges: seq<Charge>, statements: seq<Statement>)
  {
    && Sorted(statements)
    && (forall j :: 0 <= j < |statements| ==> Totals(charges, statements[j]))
    && (forall i :: 0 <= i < |charges| && charges[i].statement.Some? ==>
          IsClosed(statements, charges[i].statement.value))
  }

  predicate Billed(s: Ledger) { BilledRows(s.charges, s.statements) && OnePerOperatorDay(s.charges) }

  lemma MarkKeepsBilled(charges: seq<Charge>, upto: int, statements: seq<Statement>)
    requires BilledRows(charges, statements)
    ensures BilledRows(MarkUpto(charges, upto), statements)
  {
    var marked := MarkUpto(charges, upto);
    forall j | 0 <= j < |statements| ensures Totals(marked, statements[j]) {
      assert Totals(charges, statements[j]);
      assert LinkedWeights(marked, Ord(statements[j].month)) == LinkedWeights(charges, Ord(statements[j].month));
    }
  }

  lemma DeductKeepsBilled(s: Ledger, upto: int)
    requires Billed(s)
    ensures Billed(Deduct(s, upto)) && ChargesKept(s, Deduct(s, upto))
  {
    hide Ord, BilledRows;
    MarkKeepsBilled(s.charges, upto, s.statements);
  }

  /** New, unlinked charges belong to no statement's total. */
  lemma AppendKeepsBilled(charges: seq<Charge>, added: seq<Charge>, statements: seq<Statement>)
    requires BilledRows(charges, statements)
    requires forall i :: 0 <= i < |added| ==> added[i].statement.None?
    ensures BilledRows(charges + added, statements)
  {
    forall j | 0 <= j < |statements| ensures Totals(charges + added, statements[j]) {
      assert Totals(charges, statements[j]);
      var key := Ord(statements[j].month);
      assert LinkedWeights(charges + added, key) == LinkedWeights(charges, key) + LinkedWeights(added, key);
      SumConcat(LinkedWeights(charges, key), LinkedWeights(added, key));
      SumZero(LinkedWeights(added, key));
    }
  }

  lemma AccrualKeepsBilled(s: Ledger, tariff: Tariff, day: Date)
    requires Billed(s)
    ensures Billed(AccrueDay(s, tariff, day)) && ChargesKept(s, AccrueDay(s, tariff, day))
  {
    if s.company == CompanyActive {
      AccrualAppends(s.charges, tariff.operators, tariff.price, day);
      var r := AccrueOperators(s.charges, tariff.operators, tariff.price, day);
      assert r == s.charges + r[|s.charges|..];
      AppendKeepsBilled(s.charges, r[|s.charges|..], s.statements);
      forall i | 0 <= i < |s.charges| ensures ChargeKept(s.charges[i], r[i]) {
        assert r[..|s.charges|][i] == s.charges[i];
      }
    }
  }

  lemma CreatedRowKeepsClosed(statements: seq<Statement>, blank: Statement, key: int)
    requires IsClosed(statements, key)
    ensures IsClosed(GetOrCreate(statements, blank).0, key)
  {
    var (rows, i) := GetOrCreate(statements, blank);
    var j :| 0 <= j < |statements| && statements[j].closed && Ord(statements[j].month) == key;
    if rows != statements {
      assert rows[if j < i then j else j + 1] == statements[j];
    }
  }

  lemma CreatedRowKeepsSorted(statements: seq<Statement>, blank: Statement)
    requires Sorted(statements)
    ensures Sorted(GetOrCreate(statements, blank).0)
  {
    var (rows, i) := GetOrCreate(statements, blank);
    if rows != statements {
      forall a, b | 0 <= a < b < |rows| ensures Ord(rows[a].month) < Ord(rows[b].month) {
        assert a < i ==> rows[a] == statements[a];
        assert i < a ==> rows[a] == statements[a - 1];
        assert b < i ==> rows[b] == statements[b];
        assert i < b ==> rows[b] == statements[b - 1];
      }
    }
  }

  lemma CreatedRowKeepsBilled(s: Ledger, blank: Statement)
    requires Billed(s) && !blank.closed && !blank.taken
    ensures Billed(s.(statements := GetOrCreate(s.statements, blank).0))
  {
    var (rows, i) := GetOrCreate(s.statements, blank);
    CreatedRowKeepsSorted(s.statements, blank);
    forall j | 0 <= j < |rows| ensures Totals(s.charges, rows[j]) {
      if rows != s.statements {
        assert j < i ==> rows[j] == s.statements[j];
        assert i < j ==> rows[j] == s.statements[j - 1];
      }
    }
    forall c | 0 <= c < |s.charges| && s.charges[c].statement.Some?
      ensures IsClosed(rows, s.charges[c].statement.value)
    {
      CreatedRowKeepsClosed(s.statements, blank, s.charges[c].statement.value);
    }
  }

  /** Rewriting an open row without changing its month disturbs no link. */
  lemma OpenRowKeepsBilled(s: Ledger, i: nat, row: Statement)
    requires Billed(s) && i < |s.statements| && !s.statements[i].closed
    requires row.month == s.statements[i].month && !row.closed && (row.taken ==> row.status == Paid)
    ensures Billed(s.(statements := s.statements[i := row]))
  {
    forall c | 0 <= c < |s.charges| && s.charges[c].statement.Some?
      ensures IsClosed(s.statements[i := row], s.charges[c].statement.value)
    {
      var j :| 0 <= j < |s.statements| && s.statements[j].closed
               && Ord(s.statements[j].month) == s.charges[c].statement.value;
      assert s.statements[i := row][j] == s.statements[j];
    }
  }

  lemma SettleKeepsBilled(s: Ledger, i: nat)
    requires Billed(s) && i < |s.statements|
    ensures Billed(SettleStatement(s, i).0)
  {
    if s.statements[i].status != Paid {
      assert Totals(s.charges, s.statements[i]);
      OpenRowKeepsBilled(s, i, SettleStatement(s, i).0.statements[i]);
    }
  }

  lemma {:induction false} SettleFromKeepsBilled(s: Ledger, i: nat)
    requires Billed(s) && i <= |s.statements|
    ensures Billed(SettleFrom(s, i)) && SettleFrom(s, i).charges == s.charges
    decreases |s.statements| - i
  {
    if i < |s.statements| {
      SettleKeepsBilled(s, i);
      var (t, settled) := SettleStatement(s, i);
      if settled { SettleFromKeepsBilled(t, i + 1); }
    }
  }

  lemma SettleMonthKeepsBilled(s: Ledger, month: Date)
    requires Billed(s)
    ensures Billed(SettleMonth(s, month)) && SettleMonth(s, month).charges == s.charges
  {
    var first := FirstOfMonth(month);
    MonthTotalNatural(s.charges, Ord(first), Ord(AddMonth(first)));
    var total := Sum(MonthWeights(s.charges, Ord(first), Ord(AddMonth(first))));
    var blank := Statement(first, None, None, total, Due, false, false);
    var (rows, i) := GetOrCreate(s.statements, blank);
    CreatedRowKeepsBilled(s, blank);
    var t := s.(statements := rows);
    assert Totals(t.charges, rows[i]);
    var current := if rows[i].status != Paid then rows[i := rows[i].(total := total)] else rows;
    if rows[i].status != Paid { OpenRowKeepsBilled(t, i, rows[i].(total := total)); }
    SettleKeepsBilled(s.(statements := current), i);
  }

  lemma CloseKeepsBilled(s: Ledger, i: nat, start: Date, end: Date)
    requires Billed(s) && i < |s.statements|
    ensures Billed(CloseStatement(s, i, start, end)) && ChargesKept(s, CloseStatement(s, i, start, end))
  {
    hide Ord, Sum;
    if s.statements[i].status != Paid {
      var t := CloseStatement(s, i, start, end);
      var key := Ord(s.statements[i].month);
      assert Totals(s.charges, s.statements[i]);
      forall j | 0 <= j < |t.statements| ensures Totals(t.charges, t.statements[j]) {
        if j != i {
          assert Totals(s.charges, s.statements[j]);
          var other := Ord(s.statements[j].month);
          assert other != key;
          assert LinkedWeights(t.charges, other) == LinkedWeights(s.charges, other);
        }
      }
      forall c | 0 <= c < |t.charges| && t.charges[c].statement.Some?
        ensures IsClosed(t.statements, t.charges[c].statement.value)
      {
        if s.charges[c].statement.Some? {
          var j :| 0 <= j < |s.statements| && s.statements[j].closed
                   && Ord(s.statements[j].month) == s.charges[c].statement.value;
          assert j != i && t.statements[j] == s.statements[j];
        } else {
          assert t.statements[i].closed;
        }
      }
    }
  }

  lemma SettleCycleKeepsBilled(s: Ledger)
    requires Billed(s)
    ensures Billed(SettleCycle(s)) && ChargesKept(s, SettleCycle(s))
  {
    hide Ord, SummariseCycle, Deduct, BilledRows;
    if s.sub.Some? && s.sub.value.period.Some? {
      var p := s.sub.value.period.value;
      var d := Deduct(s, Ord(p.end.date) - 1);
      DeductKeepsBilled(s, Ord(p.end.date) - 1);
      SummaryKeepsBilled(d, p.start.date, p.end.date);
      ChargesKeptTwice(s, d, SummariseCycle(d, p.start.date, p.end.date));
    }
  }

  lemma SummaryKeepsBilled(s: Ledger, start: Date, end: Date)
    requires Billed(s)
    ensures Billed(SummariseCycle(s, start, end)) && ChargesKept(s, SummariseCycle(s, start, end))
  {
    var blank := Statement(start, Some(start), Some(end), 0, Due, false, false);
    CreatedRowKeepsBilled(s, blank);
    var (rows, i) := GetOrCreate(s.statements, blank);
    CloseKeepsBilled(s.(statements := rows), i, start, end);
  }

  lemma ChargesKeptTwice(s: Ledger, t: Ledger, u: Ledger)
    requires ChargesKept(s, t) && ChargesKept(t, u)
    ensures ChargesKept(s, u)
  {
    forall i | 0 <= i < |s.charges| ensures ChargeKept(s.charges[i], u.charges[i]) {
      assert ChargeKept(s.charges[i], t.charges[i]) && ChargeKept(t.charges[i], u.charges[i]);
    }
  }

  lemma {:induction false} OverdueKeepsBilled(s: Ledger, i: nat, today: Date, seen: CompanyStatus)
    requires Billed(s) && i <= |s.statements|
    ensures var t := OverdueFrom(s, i, today, seen).0; Billed(t) && t.charges == s.charges
    decreases |s.statements| - i
  {
    hide Ord, PastGrace, Sum;
    if i < |s.statements| {
      if s.statements[i].status != Due || !PastGrace(s.statements[i], today) {
        OverdueKeepsBilled(s, i + 1, today, seen);
      } else {
        assert Totals(s.charges, s.statements[i]);
        var row := s.statements[i].(status := Overdue);
        OpenRowKeepsBilled(s, i, row);
        var t := s.(statements := s.statements[i := row]);
        OverdueKeepsBilled(if seen == CompanyActive then Block(t) else t, i + 1, today, seen);
      }
    }
  }

  lemma CreditKeepsBilled(s: Ledger, i: nat, tariff: Tariff, now: Moment)
    requires Billed(s) && i < |s.payments|
    ensures Billed(ApplyPayment(s, i, tariff, now)) && ApplyPayment(s, i, tariff, now).charges == s.charges
  {
    var p := s.payments[i];
    if p.status == Pending {
      var t := s.(payments := s.payments[i := p.(status := Approved, approvedAt := Some(Instant(now)))],
                  balance := s.balance + p.amount);
      SettleFromKeepsBilled(t, 0);
      var u := SettleFrom(t, 0);
      ReactivationMovesNoMoney(u, tariff, now);
      ReactivationMovesNoMoney(ReactivateIfClear(u, tariff, now), tariff, now);
      assert SameMoney(u, ApplyPayment(s, i, tariff, now));
    }
  }

  lemma StepKeepsBilled(s: Ledger, step: Step)
    requires Billed(s)
    ensures Billed(Apply(s, step)) && ChargesKept(s, Apply(s, step))
  {
    hide Ord, BilledRows, SettleCycle, SettleMonth, OverdueFrom, ApplyPayment, AccrueOperators, Deduct;
    match step
    case NightlySweep(tariff, day) =>
      AccrualKeepsBilled(s, tariff, day);
      DeductKeepsBilled(AccrueDay(s, tariff, day), Ord(day));
      ChargesKeptTwice(s, AccrueDay(s, tariff, day), Deduct(AccrueDay(s, tariff, day), Ord(day)));
    case CycleClosing(now) => SettleCycleKeepsBilled(s);
    case MonthSettling(month) => SettleMonthKeepsBilled(s, month);
    case OverdueSweep(today) => OverdueKeepsBilled(s, 0, today, s.company);
    case PaymentApplied(i, tariff, now) => if i < |s.payments| { CreditKeepsBilled(s, i, tariff, now); }
    case _ =>
  }

  /** Over every run each charge is billed by at most one statement, for good,
      and every cycle statement's total stays the sum of its charges. */
  lemma {:induction false} EachDayBilledOnce(s: Ledger, steps: seq<Step>)
    requires Billed(s)
    ensures Billed(Run(s, steps)) && ChargesKept(s, Run(s, steps))
  {
    if steps != [] {
      var front := steps[..|steps| - 1];
      EachDayBilledOnce(s, front);
      StepKeepsBilled(Run(s, front), steps[|steps| - 1]);
      ChargesKeptTwice(s, Run(s, front), Run(s, steps));
    }
  }

  // ---- Closing a cycle ----

  /** Closing charges nothing twice: the balance falls by exactly the days not
      yet deducted, and by nothing when the sweeps kept up. */
  lemma ClosingTakesOnlyPending(s: Ledger)
    requires s.sub.Some? && s.sub.value.period.Some?
    ensures var upto := Ord(s.sub.value.period.value.end.date) - 1;
            && SettleCycle(s).balance == s.balance - PendingTotal(s.charges, upto)
            && Deducted(SettleCycle(s)) == Deducted(s) + PendingTotal(s.charges, upto)
            && PendingTotal(SettleCycle(s).charges, upto) == 0
  {
    hide Ord, SummariseCycle, DeductedWeights, Sum;
    var p := s.sub.value.period.value;
    var upto := Ord(p.end.date) - 1;
    DeductMovesPending(s, upto);
    var d := Deduct(s, upto);
    SummaryTakesNothing(d, p.start.date, p.end.date);
    var t := SummariseCycle(d, p.start.date, p.end.date);
    assert PendingWeights(t.charges, upto) == PendingWeights(d.charges, upto);
    PendingTotalNatural(s.charges, upto);
    if PendingTotal(s.charges, upto) > 0 {
      assert d.charges == MarkUpto(s.charges, upto);
      SumZero(PendingWeights(d.charges, upto));
    }
  }

  // ---- How cycles cover time ----

  predicate Opened(s: Ledger, t: Ledger, now: Moment)
  {
    t.sub.Some? && t.sub.value.status == SubActive && t.sub.value.period == Some(Period(now, AddMonthMoment(now)))
  }

  /** The next cycle starts where the last one ended. */
  predicate RollsPeriod(s: Ledger, t: Ledger)
  {
    && s.sub.Some? && t.sub.Some? && s.sub.value.period.Some?
    && var end := s.sub.value.period.value.end;
       t.sub.value.period == Some(Period(end, AddMonthMoment(end)))
  }

  /** A top-up never moves a running cycle; it can only open one. */
  lemma CreditPeriod(s: Ledger, i: nat, tariff: Tariff, now: Moment)
    requires i < |s.payments|
    ensures KeepsPeriod(s, ApplyPayment(s, i, tariff, now))
         || (s.sub.Some? && s.sub.value.status != SubActive && Opened(s, ApplyPayment(s, i, tariff, now), now))
  {
    var p := s.payments[i];
    if p.status == Pending {
      var t := s.(payments := s.payments[i := p.(status := Approved, approvedAt := Some(Instant(now)))],
                  balance := s.balance + p.amount);
      SettlingTouches(t, 0);
    }
  }

  lemma DeductKeepsPeriod(s: Ledger, upto: int)
    ensures KeepsPeriod(s, Deduct(s, upto))
  {
  }

  lemma SettleCycleRolls(s: Ledger)
    ensures if s.sub.Some? && s.sub.value.period.Some? then RollsPeriod(s, SettleCycle(s)) else SettleCycle(s) == s
  {
  }

  lemma StepPeriod(s: Ledger, step: Step)
    ensures || KeepsPeriod(s, Apply(s, step))
            || (step.CycleClosing? && RollsPeriod(s, Apply(s, step)))
            || ((step.PaymentApplied? || step.Activated? || step.StaffActivated?)
                && s.sub.Some? && s.sub.value.status != SubActive && Opened(s, Apply(s, step), step.now))
  {
    match step
    case NightlySweep(tariff, day) => DeductKeepsPeriod(AccrueDay(s, tariff, day), Ord(day));
    case CycleClosing(now) => SettleCycleRolls(s);
    case OverdueSweep(today) => OverdueTouches(s, 0, today, s.company);
    case PaymentApplied(i, tariff, now) => if i < |s.payments| { CreditPeriod(s, i, tariff, now); }
    case _ =>
  }

  predicate ValidPeriod(p: Period)
  {
    Valid(p.start.date) && Valid(p.end.date) && Ord(p.start.date) < Ord(p.end.date)
  }
}
