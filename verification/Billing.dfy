/** One company's billing rows, and what each billing service does to them as a
    function from rows to rows. The class in Account.dfy performs the same
    services in place; the laws are in BillingLaws.dfy. */
module Billing {
  import opened Prelude
  import opened Calendar

  const GRACE_DAYS := 2

  datatype CompanyStatus = CompanyTrial | CompanyActive | CompanySuspended

  datatype SubStatus = SubTrial | SubActive | SubSuspended | SubCanceled

  datatype Period = Period(start: Moment, end: Moment)

  datatype Subscription = Subscription(status: SubStatus, price: nat, period: Option<Period>)

  /** One operator-day of usage. `day` is a day number, `statement` the day
      number of the month key of the statement that billed it. */
  datatype Charge = Charge(day: int, operator: string, amount: nat, price: nat,
                           deducted: bool, statement: Option<int>)

  datatype StatementStatus = Due | Overdue | Paid

  /** Two of the fields are history, not columns: `taken` says the total was paid
      out of the balance, `closed` that the statement summarises a finished cycle. */
  datatype Statement = Statement(month: Date, start: Option<Date>, end: Option<Date>,
                                 total: nat, status: StatementStatus, taken: bool, closed: bool)

  datatype PaymentStatus = Pending | Approved | Rejected | Failed

  /** `card` marks a saved-card charge, `auto` one made by the nightly job; `key`
      is the day in the idempotency key, `external` the gateway's transaction. */
  datatype Payment = Payment(amount: nat, status: PaymentStatus, auto: bool, card: bool, created: int,
                             approvedAt: Option<int>, key: Option<int>, external: Option<int>)

  /** The company's active operators and the price in force. */
  datatype Tariff = Tariff(operators: seq<string>, price: nat)

  /** `staffHold`: the last recorded suspension was made by a person. */
  datatype Ledger = Ledger(balance: int, company: CompanyStatus, sub: Option<Subscription>,
                           charges: seq<Charge>, statements: seq<Statement>, payments: seq<Payment>,
                           trialEnds: Option<int>, staffHold: bool)

  // ---- Prices ----

  /** Python's round: to the nearest integer, ties to the even one. */
  function RoundHalfEven(p: nat, d: nat): nat
    requires d > 0
  {
    var q, r := p / d, p % d;
    if 2 * r < d || (2 * r == d && q % 2 == 0) then q else q + 1
  }

  function DailyRate(price: nat, day: Date): nat
  {
    RoundHalfEven(price, DaysInMonth(day.year, day.month))
  }

  function Burn(tariff: Tariff, day: Date): nat
  {
    |tariff.operators| * DailyRate(tariff.price, day)
  }

  function DaysLeft(s: Ledger, tariff: Tariff, day: Date): Option<int>
  {
    if s.company != CompanyActive || Burn(tariff, day) <= 0 then None
    else Some(s.balance / Burn(tariff, day))
  }

  // ---- Subscription state machine ----

  predicate Allowed(from: SubStatus, to: SubStatus)
  {
    match from
    case SubTrial => to != SubTrial
    case SubActive => to == SubSuspended || to == SubCanceled
    case SubSuspended => to == SubActive || to == SubCanceled
    case SubCanceled => false
  }

  /** None stands for the InvalidTransition exception. */
  function Transition(sub: Subscription, to: SubStatus): Option<Subscription>
  {
    if Allowed(sub.status, to) then Some(sub.(status := to)) else None
  }

  function Activate(s: Ledger, tariff: Tariff, now: Moment): Option<Ledger>
    requires s.sub.Some?
  {
    match Transition(s.sub.value, SubActive)
    case None => None
    case Some(sub) =>
      var period := Period(now, AddMonthMoment(now));
      Some(s.(sub := Some(sub.(price := tariff.price, period := Some(period))), company := CompanyActive))
  }

  function Suspend(s: Ledger, byStaff: bool): Option<Ledger>
    requires s.sub.Some?
  {
    match Transition(s.sub.value, SubSuspended)
    case None => None
    case Some(sub) => Some(s.(sub := Some(sub), company := CompanySuspended, staffHold := byStaff))
  }

  function Cancel(s: Ledger): Option<Ledger>
    requires s.sub.Some?
  {
    match Transition(s.sub.value, SubCanceled)
    case None => None
    case Some(sub) => Some(s.(sub := Some(sub), company := CompanySuspended))
  }

  /** What running out of money and overdue statements do to a company: suspend
      the subscription if it can be, else only the company. `suspend` is called
      on no other status, so its exception cannot be raised here. */
  function Block(s: Ledger): Ledger
  {
    if s.sub.Some? && (s.sub.value.status == SubTrial || s.sub.value.status == SubActive)
    then Suspend(s, false).value
    else s.(company := CompanySuspended)
  }

  // ---- The staff's buttons, which write the company beside the subscription ----

  function StaffSuspend(s: Ledger): Ledger
  {
    if s.sub.Some? && (s.sub.value.status == SubTrial || s.sub.value.status == SubActive)
    then Suspend(s, true).value
    else s.(company := CompanySuspended)
  }

  function StaffActivate(s: Ledger, tariff: Tariff, now: Moment): Ledger
  {
    if s.sub.Some? && (s.sub.value.status == SubTrial || s.sub.value.status == SubSuspended)
    then Activate(s, tariff, now).value
    else s.(company := CompanyActive)
  }

  /** More days of trial, counted from its end or from now, whichever is later. */
  function ExtendTrial(s: Ledger, days: int, now: Moment): Ledger
  {
    var base := if s.trialEnds.Some? then s.trialEnds.value else Instant(now);
    s.(company := CompanyTrial, trialEnds := Some(Max(base, Instant(now)) + days * 86400))
  }

  function TrialExpiry(s: Ledger, now: Moment): Ledger
  {
    if s.company != CompanyTrial || s.trialEnds.None? || s.trialEnds.value >= Instant(now) then s
    else if s.sub.Some? && s.sub.value.status == SubTrial then Suspend(s, false).value
    else s.(company := CompanySuspended, staffHold := false)
  }

  // ---- Daily charges ----

  predicate HasCharge(charges: seq<Charge>, day: int, operator: string)
  {
    exists i :: 0 <= i < |charges| && charges[i].day == day && charges[i].operator == operator
  }

  function AccrueOperators(charges: seq<Charge>, operators: seq<string>, price: nat, day: Date): seq<Charge>
  {
    if operators == [] then charges else
    var rest := AccrueOperators(charges, operators[..|operators| - 1], price, day);
    var name := operators[|operators| - 1];
    if HasCharge(rest, Ord(day), name) then rest
    else rest + [Charge(Ord(day), name, DailyRate(price, day), price, false, None)]
  }

  function AccrueDay(s: Ledger, tariff: Tariff, day: Date): Ledger
  {
    if s.company != CompanyActive then s
    else s.(charges := AccrueOperators(s.charges, tariff.operators, tariff.price, day))
  }

  function PendingWeights(charges: seq<Charge>, upto: int): (w: seq<int>)
    ensures |w| == |charges|
  {
    seq(|charges|, i requires 0 <= i < |charges| =>
      if !charges[i].deducted && charges[i].day <= upto then charges[i].amount else 0)
  }

  /** The cost of every undeducted day dated `upto` or earlier. */
  function PendingTotal(charges: seq<Charge>, upto: int): int { Sum(PendingWeights(charges, upto)) }

  function MarkUpto(charges: seq<Charge>, upto: int): (r: seq<Charge>)
    ensures |r| == |charges|
  {
    seq(|charges|, i requires 0 <= i < |charges| =>
      if charges[i].day <= upto then charges[i].(deducted := true) else charges[i])
  }

  function Deduct(s: Ledger, upto: int): Ledger
  {
    var total := PendingTotal(s.charges, upto);
    if total <= 0 then s else
    var t := s.(balance := s.balance - total, charges := MarkUpto(s.charges, upto));
    if t.balance <= 0 && t.company == CompanyActive then Block(t) else t
  }

  /** The nightly sweep over a company: accrue the finished day, then take it
      and any backlog from the balance. Only active companies are swept. */
  function Nightly(s: Ledger, tariff: Tariff, day: Date): Ledger
  {
    if s.company != CompanyActive then s else Deduct(AccrueDay(s, tariff, day), Ord(day))
  }

  // ---- Statements ----

  predicate HasUnpaid(statements: seq<Statement>)
  {
    exists i :: 0 <= i < |statements| && statements[i].status != Paid
  }

  /** Statements are kept in month order; this is where a month belongs. */
  function Position(statements: seq<Statement>, month: Date): (i: nat)
    ensures i <= |statements|
    ensures forall j :: 0 <= j < i ==> Ord(statements[j].month) < Ord(month)
    ensures i < |statements| ==> Ord(month) <= Ord(statements[i].month)
  {
    if statements == [] || Ord(month) <= Ord(statements[0].month) then 0
    else 1 + Position(statements[1..], month)
  }

  function GetOrCreate(statements: seq<Statement>, blank: Statement): (r: (seq<Statement>, nat))
    ensures r.1 < |r.0| && Ord(r.0[r.1].month) == Ord(blank.month)
  {
    var i := Position(statements, blank.month);
    if i < |statements| && Ord(statements[i].month) == Ord(blank.month) then (statements, i)
    else (statements[..i] + [blank] + statements[i..], i)
  }

  function SettleStatement(s: Ledger, i: nat): (Ledger, bool)
    requires i < |s.statements|
  {
    var st := s.statements[i];
    if st.status == Paid then (s, true)
    else if st.total == 0 then (s.(statements := s.statements[i := st.(status := Paid)]), true)
    else if s.balance < st.total then (s, false)
    else (s.(balance := s.balance - st.total,
             statements := s.statements[i := st.(status := Paid, taken := true)]), true)
  }

  /** Settle unpaid statements oldest first, stopping at the first not covered. */
  function SettleFrom(s: Ledger, i: nat): Ledger
    requires i <= |s.statements|
    decreases |s.statements| - i
  {
    if i == |s.statements| then s else
    var (t, settled) := SettleStatement(s, i);
    if settled then SettleFrom(t, i + 1) else t
  }

  function MonthWeights(charges: seq<Charge>, from: int, before: int): (w: seq<int>)
    ensures |w| == |charges|
  {
    seq(|charges|, i requires 0 <= i < |charges| =>
      if from <= charges[i].day < before then charges[i].amount else 0)
  }

  lemma MonthTotalNatural(charges: seq<Charge>, from: int, before: int)
    ensures Sum(MonthWeights(charges, from, before)) >= 0
  {
    SumZeroIff(MonthWeights(charges, from, before));
  }

  /** Legacy calendar-month statements: these are paid out of the balance. */
  function SettleMonth(s: Ledger, month: Date): Ledger
  {
    var first := FirstOfMonth(month);
    MonthTotalNatural(s.charges, Ord(first), Ord(AddMonth(first)));
    var total := Sum(MonthWeights(s.charges, Ord(first), Ord(AddMonth(first))));
    var (rows, i) := GetOrCreate(s.statements, Statement(first, None, None, total, Due, false, false));
    var current := if rows[i].status != Paid then rows[i := rows[i].(total := total)] else rows;
    SettleStatement(s.(statements := current), i).0
  }

  function LinkedWeights(charges: seq<Charge>, key: int): (w: seq<int>)
    ensures |w| == |charges|
  {
    seq(|charges|, i requires 0 <= i < |charges| =>
      if charges[i].statement == Some(key) then charges[i].amount else 0)
  }

  lemma LinkedTotalNatural(charges: seq<Charge>, key: int)
    ensures Sum(LinkedWeights(charges, key)) >= 0
  {
    SumZeroIff(LinkedWeights(charges, key));
  }

  function Link(charges: seq<Charge>, key: int, from: int, before: int): (r: seq<Charge>)
    ensures |r| == |charges|
  {
    seq(|charges|, i requires 0 <= i < |charges| =>
      if charges[i].statement.None? && from <= charges[i].day < before
      then charges[i].(statement := Some(key)) else charges[i])
  }

  /** Summarise a finished cycle in row i, unless that row was settled before. */
  function CloseStatement(s: Ledger, i: nat, start: Date, end: Date): Ledger
    requires i < |s.statements|
  {
    if s.statements[i].status == Paid then s else
    var key := Ord(s.statements[i].month);
    var linked := Link(s.charges, key, Ord(start), Ord(end));
    LinkedTotalNatural(linked, key);
    var row := s.statements[i].(start := Some(start), end := Some(end),
                                total := Sum(LinkedWeights(linked, key)), status := Paid, closed := true);
    s.(charges := linked, statements := s.statements[i := row])
  }

  /** The statement of the cycle from `start` to `end`, which adds up days
      already deducted and never charges the balance. */
  function SummariseCycle(s: Ledger, start: Date, end: Date): Ledger
  {
    var (rows, i) := GetOrCreate(s.statements, Statement(start, Some(start), Some(end), 0, Due, false, false));
    CloseStatement(s.(statements := rows), i, start, end)
  }

  function SettleCycle(s: Ledger): Ledger
  {
    if s.sub.None? || s.sub.value.period.None? then s else
    var p := s.sub.value.period.value;
    var d := Deduct(s, Ord(p.end.date) - 1);
    SummariseCycle(d, p.start.date, p.end.date).(
      sub := Some(d.sub.value.(period := Some(Period(p.end, AddMonthMoment(p.end))))))
  }

  /** The daily sweep closes only active subscriptions whose cycle has ended. */
  function CycleSweep(s: Ledger, now: Moment): Ledger
  {
    if s.sub.Some? && s.sub.value.status == SubActive && s.sub.value.period.Some?
       && Instant(s.sub.value.period.value.end) <= Instant(now)
    then SettleCycle(s) else s
  }

  predicate PastGrace(st: Statement, today: Date)
  {
    var dueFrom := if st.end.Some? then Ord(st.end.value) else Ord(AddMonth(FirstOfMonth(st.month)));
    Ord(today) >= dueFrom + GRACE_DAYS
  }

  /** Overdue enforcement from row i on. Each row carries its own copy of the
      company, read when the query ran, so `seen` stays what it was then. */
  function OverdueFrom(s: Ledger, i: nat, today: Date, seen: CompanyStatus): (Ledger, nat)
    requires i <= |s.statements|
    decreases |s.statements| - i
  {
    if i == |s.statements| then (s, 0)
    else if s.statements[i].status != Due || !PastGrace(s.statements[i], today) then OverdueFrom(s, i + 1, today, seen)
    else
      var t := s.(statements := s.statements[i := s.statements[i].(status := Overdue)]);
      if seen == CompanyActive then
        var (u, blocked) := OverdueFrom(Block(t), i + 1, today, seen);
        (u, blocked + 1)
      else OverdueFrom(t, i + 1, today, seen)
  }

  function EnforceOverdue(s: Ledger, today: Date): (Ledger, nat)
  {
    OverdueFrom(s, 0, today, s.company)
  }

  // ---- Payments ----

  function ReactivateIfClear(s: Ledger, tariff: Tariff, now: Moment): Ledger
  {
    if HasUnpaid(s.statements) || s.company != CompanySuspended
       || s.balance <= 0 || s.balance < Burn(tariff, now.date) then s
    else if s.sub.Some? && s.sub.value.status == SubSuspended then Activate(s, tariff, now).value
    else s.(company := CompanyActive)
  }

  function CreditBalance(s: Ledger, amount: nat, tariff: Tariff, now: Moment): Ledger
  {
    ReactivateIfClear(SettleFrom(s.(balance := s.balance + amount), 0), tariff, now)
  }

  /** A first payment ends the trial; for a running subscription it only makes
      sure the company is active. Nothing else moves the cycle. */
  function AfterCredit(s: Ledger, tariff: Tariff, now: Moment): Ledger
  {
    if s.sub.None? then s
    else if s.sub.value.status == SubTrial then Activate(s, tariff, now).value
    else if s.sub.value.status == SubActive then s.(company := CompanyActive)
    else s
  }

  function ApplyPayment(s: Ledger, i: nat, tariff: Tariff, now: Moment): Ledger
    requires i < |s.payments|
  {
    var p := s.payments[i];
    if p.status != Pending then s else
    var approved := s.(payments := s.payments[i := p.(status := Approved, approvedAt := Some(Instant(now)))]);
    AfterCredit(CreditBalance(approved, p.amount, tariff, now), tariff, now)
  }

  /** None stands for the ValueError on a payment that is not approved. */
  function Refund(s: Ledger, i: nat): Option<Ledger>
    requires i < |s.payments|
  {
    var p := s.payments[i];
    if p.status != Approved then None
    else Some(s.(payments := s.payments[i := p.(status := Rejected)], balance := s.balance - p.amount))
  }

  /** A pending payment is cancelled or found to have failed. */
  function Drop(s: Ledger, i: nat, to: PaymentStatus): Ledger
    requires i < |s.payments|
  {
    if s.payments[i].status != Pending then s
    else s.(payments := s.payments[i := s.payments[i].(status := to)])
  }

  function Create(s: Ledger, p: Payment): Ledger { s.(payments := s.payments + [p]) }
}
