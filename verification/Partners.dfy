/** Partner cashback and payouts. Integrators with their cashback accruals and
    sales managers with their commissions run the same code over their own rows;
    the owner of a row stands for either. */
module Partners {
  import opened Prelude
  import opened Calendar

  datatype AccrualStatus = Accrued | Reversed | PaidOut

  /** Rows are in order of creation, which is the order they are paid in. */
  datatype Accrual = Accrual(payment: nat, owner: nat, amount: nat, status: AccrualStatus, payout: Option<nat>)

  datatype PayoutStatus = Requested | Cleared | Refused | Paid

  datatype Payout = Payout(owner: nat, amount: nat, status: PayoutStatus)

  datatype Book = Book(accruals: seq<Accrual>, payouts: seq<Payout>)

  // ---- Balance ----

  predicate Open(a: Accrual, owner: nat) { a.owner == owner && a.status == Accrued }

  function OpenWeights(accruals: seq<Accrual>, owner: nat): (w: seq<int>)
    ensures |w| == |accruals|
  {
    seq(|accruals|, i requires 0 <= i < |accruals| => if Open(accruals[i], owner) then accruals[i].amount else 0)
  }

  function EverWeights(accruals: seq<Accrual>, owner: nat): (w: seq<int>)
    ensures |w| == |accruals|
  {
    seq(|accruals|, i requires 0 <= i < |accruals| => if accruals[i].owner == owner then accruals[i].amount else 0)
  }

  function HeldWeights(payouts: seq<Payout>, owner: nat): (w: seq<int>)
    ensures |w| == |payouts|
  {
    seq(|payouts|, i requires 0 <= i < |payouts| =>
      var p := payouts[i];
      if p.owner == owner && (p.status == Requested || p.status == Cleared) then p.amount else 0)
  }

  function PaidWeights(payouts: seq<Payout>, owner: nat): (w: seq<int>)
    ensures |w| == |payouts|
  {
    seq(|payouts|, i requires 0 <= i < |payouts| =>
      if payouts[i].owner == owner && payouts[i].status == Paid then payouts[i].amount else 0)
  }

  function OpenTotal(b: Book, owner: nat): int { Sum(OpenWeights(b.accruals, owner)) }

  /** Everything ever accrued to an owner, reversed and paid-out rows included. */
  function EverAccrued(b: Book, owner: nat): int { Sum(EverWeights(b.accruals, owner)) }

  function HeldTotal(b: Book, owner: nat): int { Sum(HeldWeights(b.payouts, owner)) }

  function PaidTotal(b: Book, owner: nat): int { Sum(PaidWeights(b.payouts, owner)) }

  /** Open accruals less payouts that hold funds. */
  function Balance(b: Book, owner: nat): int { OpenTotal(b, owner) - HeldTotal(b, owner) }

  // ---- Accrual and reversal ----

  predicate HasAccrual(accruals: seq<Accrual>, payment: nat)
  {
    exists i :: 0 <= i < |accruals| && accruals[i].payment == payment
  }

  /** Half-up rounding of a percentage given in hundredths of a percent. */
  function Share(amount: nat, percent: nat): nat { (2 * amount * percent + 10000) / 20000 }

  /** One accrual per payment, to an active owner, in the company's first months.
      Commissions also need a positive percentage; cashback does not. */
  function Accrue(b: Book, payment: nat, owner: Option<nat>, amount: nat, percent: nat, commission: bool,
                  signup: Moment, months: int, at: Moment): Book
  {
    if owner.None? || HasAccrual(b.accruals, payment) then b
    else if Instant(at) >= Instant(Moment(AddMonths(signup.date, months), signup.second)) then b
    else if commission && percent <= 0 then b
    else b.(accruals := b.accruals + [Accrual(payment, owner.value, Share(amount, percent), Accrued, None)])
  }

  function IndexOf(accruals: seq<Accrual>, payment: nat): (i: nat)
    ensures i <= |accruals|
    ensures i < |accruals| ==> accruals[i].payment == payment
    ensures forall j :: 0 <= j < i ==> accruals[j].payment != payment
  {
    if accruals == [] || accruals[0].payment == payment then 0 else 1 + IndexOf(accruals[1..], payment)
  }

  /** A refund reverses the payment's accrual, whatever became of it. */
  function Reverse(b: Book, payment: nat): Book
  {
    var i := IndexOf(b.accruals, payment);
    if i == |b.accruals| || b.accruals[i].status == Reversed then b
    else b.(accruals := b.accruals[i := b.accruals[i].(status := Reversed)])
  }

  // ---- Payouts ----

  predicate CanMove(from: PayoutStatus, to: PayoutStatus)
  {
    match from
    case Requested => to == Cleared || to == Refused
    case Cleared => to == Paid || to == Refused
    case Refused => false
    case Paid => false
  }

  function Request(b: Book, owner: nat, amount: int, minimum: int): Option<Book>
  {
    if amount <= 0 || amount < minimum || amount > Balance(b, owner) then None
    else Some(b.(payouts := b.payouts + [Payout(owner, amount, Requested)]))
  }

  /** Consume whole open rows of an owner, oldest first, until the amount is covered. */
  function Allocate(accruals: seq<Accrual>, k: nat, owner: nat, payout: nat, remaining: int): seq<Accrual>
    requires k <= |accruals|
    decreases |accruals| - k
  {
    if k == |accruals| || remaining <= 0 then accruals
    else if Open(accruals[k], owner) then
      var row := accruals[k].(status := PaidOut, payout := Some(payout));
      Allocate(accruals[k := row], k + 1, owner, payout, remaining - accruals[k].amount)
    else Allocate(accruals, k + 1, owner, payout, remaining)
  }

  function Process(b: Book, i: nat, to: PayoutStatus): Option<Book>
    requires i < |b.payouts|
  {
    var p := b.payouts[i];
    if !CanMove(p.status, to) then None else
    var moved := b.(payouts := b.payouts[i := p.(status := to)]);
    Some(if to == Paid then moved.(accruals := Allocate(b.accruals, 0, p.owner, i, p.amount)) else moved)
  }

  // ---- The same services in place ----

  class PayoutDesk {
    var accruals: seq<Accrual>
    var payouts: seq<Payout>

    function View(): Book
      reads this
    {
      Book(accruals, payouts)
    }

    constructor ()
      ensures View() == Book([], [])
    {
      accruals, payouts := [], [];
    }

    method AccrueNow(payment: nat, owner: Option<nat>, amount: nat, percent: nat, commission: bool,
                     signup: Moment, months: int, at: Moment)
      modifies this
      ensures View() == Accrue(old(View()), payment, owner, amount, percent, commission, signup, months, at)
    {
      if owner.None? || HasAccrual(accruals, payment) {
        return;
      }
      var cutoff := Moment(AddMonths(signup.date, months), signup.second);
      if Instant(at) >= Instant(cutoff) || (commission && percent <= 0) {
        return;
      }
      accruals := accruals + [Accrual(payment, owner.value, Share(amount, percent), Accrued, None)];
    }

    method ReverseNow(payment: nat)
      modifies this
      ensures View() == Reverse(old(View()), payment)
    {
      var i := IndexOf(accruals, payment);
      if i < |accruals| && accruals[i].status != Reversed {
        accruals := accruals[i := accruals[i].(status := Reversed)];
      }
    }

    method RequestNow(owner: nat, amount: int, minimum: int) returns (ok: bool)
      modifies this
      ensures var r := Request(old(View()), owner, amount, minimum);
              ok == r.Some? && View() == if ok then r.value else old(View())
    {
      ok := 0 < amount && minimum <= amount <= Balance(View(), owner);
      if ok {
        payouts := payouts + [Payout(owner, amount, Requested)];
      }
    }

    method AllocateNow(payout: nat, owner: nat, amount: nat)
      modifies this`accruals
      ensures accruals == Allocate(old(accruals), 0, owner, payout, amount)
    {
      var remaining: int := amount;
      var k := 0;
      while k < |accruals|
        invariant 0 <= k <= |accruals|
        invariant Allocate(accruals, k, owner, payout, remaining) == Allocate(old(accruals), 0, owner, payout, amount)
        decreases |accruals| - k
      {
        if remaining <= 0 {
          break;
        }
        if Open(accruals[k], owner) {
          remaining := remaining - accruals[k].amount;
          accruals := accruals[k := accruals[k].(status := PaidOut, payout := Some(payout))];
        }
        k := k + 1;
      }
    }

    method ProcessNow(i: nat, to: PayoutStatus) returns (ok: bool)
      requires i < |payouts|
      modifies this
      ensures var r := Process(old(View()), i, to);
              ok == r.Some? && View() == if ok then r.value else old(View())
    {
      ok := CanMove(payouts[i].status, to);
      if ok {
        payouts := payouts[i := payouts[i].(status := to)];
        if to == Paid {
          AllocateNow(i, payouts[i].owner, payouts[i].amount);
        }
      }
    }
  }

  // ---- What accrual and reversal do ----

  /** The share is the nearest whole sum, halves rounded up, and never more than
      the payment for a percentage up to a hundred. */
  lemma ShareIsNearest(amount: nat, percent: nat)
    ensures 0 - 10000 < 2 * (10000 * Share(amount, percent) - amount * percent) <= 10000
    ensures percent <= 10000 ==> Share(amount, percent) <= amount
  {
    var x := amount * percent;
    assert 2 * amount * percent == 2 * x;
    if percent <= 10000 {
      assert x <= amount * 10000;
    }
  }

  predicate OnePerPayment(accruals: seq<Accrual>)
  {
    forall i, j :: 0 <= i < j < |accruals| ==> accruals[i].payment != accruals[j].payment
  }

  /** A request is accepted exactly when it is positive, not below the minimum and
      within what is open and not yet promised; it then waits for approval. */
  lemma RequestExactly(b: Book, owner: nat, amount: int, minimum: int)
    ensures var t := Do(b, Requests(owner, amount, minimum));
            var fits := amount > 0 && amount >= minimum && amount <= OpenTotal(b, owner) - HeldTotal(b, owner);
            && (fits ==> t == b.(payouts := b.payouts + [Payout(owner, amount, Requested)]))
            && (!fits ==> t == b)
            && (fits ==> Balance(t, owner) == Balance(b, owner) - amount)
  {
    hide Sum;
    if Do(b, Requests(owner, amount, minimum)) != b {
      var p := Payout(owner, amount, Requested);
      assert HeldWeights(b.payouts + [p], owner) == HeldWeights(b.payouts, owner) + [amount];
      SumAppend(HeldWeights(b.payouts, owner), amount);
    }
  }

  /** A payout's life: approved before it is paid, rejected any time before that,
      and final once paid or rejected. */
  lemma PayoutLife(b: Book, i: nat, to: PayoutStatus)
    requires i < |b.payouts|
    ensures var from := b.payouts[i].status;
            && (Process(b, i, to).Some? <==>
                  from != Paid && from != Refused && to != Requested && to != from && (to == Paid ==> from == Cleared))
            && (Process(b, i, to).Some? ==>
                  Process(b, i, to).value.payouts == b.payouts[i := b.payouts[i].(status := to)])
            && (Process(b, i, to).Some? && to != Paid ==> Process(b, i, to).value.accruals == b.accruals)
  {
    hide Allocate;
  }

  /** No row was lost or changed in payment, owner or amount. */
  predicate SameRows(before: seq<Accrual>, after: seq<Accrual>)
  {
    && |before| <= |after|
    && forall i :: 0 <= i < |before| ==>
         after[i].payment == before[i].payment && after[i].owner == before[i].owner
               && after[i].amount == before[i].amount
  }

  /** Reversing takes the payment's row out of the open total, if it was in it,
      and leaves every other row alone; doing it again changes nothing. */
  lemma ReversalExactly(b: Book, payment: nat, owner: nat)
    requires OnePerPayment(b.accruals)
    ensures var t := Reverse(b, payment);
            && t.payouts == b.payouts && |t.accruals| == |b.accruals|
            && (forall i :: 0 <= i < |b.accruals| ==>
                  t.accruals[i] == if b.accruals[i].payment == payment
                                   then b.accruals[i].(status := Reversed) else b.accruals[i])
            && Reverse(t, payment) == t
  {
    var t, i := Reverse(b, payment), IndexOf(b.accruals, payment);
    if i < |b.accruals| {
      assert t.accruals[i].status == Reversed;
      assert t.accruals == b.accruals[i := t.accruals[i]];
      var j := IndexOf(t.accruals, payment);
      assert t.accruals[i].payment == payment;
      assert j == i;
    } else {
      assert t == b;
    }
  }

  // ---- What allocation takes ----

  /** Rows up to k were consumed by the payout, rows from k on were left alone. */
  predicate Consumed(before: seq<Accrual>, after: seq<Accrual>, k: nat, owner: nat, payout: nat)
  {
    && |after| == |before| && k <= |before|
    && forall j :: 0 <= j < |before| ==>
         after[j] == if j < k && Open(before[j], owner) then before[j].(status := PaidOut, payout := Some(payout))
                     else before[j]
  }

  function PrefixTotal(accruals: seq<Accrual>, owner: nat, k: nat): int
    requires k <= |accruals|
  {
    Sum(OpenWeights(accruals, owner)[..k])
  }

  /** What a payment of `remaining` will consume of an owner's rows from k on. */
  function Consumption(accruals: seq<Accrual>, k: nat, owner: nat, remaining: int): int
    requires k <= |accruals|
    decreases |accruals| - k
  {
    if k == |accruals| || remaining <= 0 then 0
    else if Open(accruals[k], owner) then
      accruals[k].amount + Consumption(accruals, k + 1, owner, remaining - accruals[k].amount)
    else Consumption(accruals, k + 1, owner, remaining)
  }

  lemma PrefixStep(accruals: seq<Accrual>, owner: nat, k: nat)
    requires k < |accruals|
    ensures PrefixTotal(accruals, owner, k + 1)
         == PrefixTotal(accruals, owner, k) + if Open(accruals[k], owner) then accruals[k].amount else 0
  {
    var w := OpenWeights(accruals, owner);
    assert w[..k + 1][..k] == w[..k];
  }

  /** Allocation takes the shortest oldest-first prefix that covers the amount,
      or everything that is open. */
  lemma {:induction false} AllocateFrom(before: seq<Accrual>, accruals: seq<Accrual>, k: nat, owner: nat, payout: nat,
                                        amount: nat, remaining: int) returns (n: nat)
    requires k <= |accruals| && Consumed(before, accruals, k, owner, payout)
    requires remaining == amount - PrefixTotal(before, owner, k)
    requires forall j :: 0 <= j < k && Open(before[j], owner) ==> PrefixTotal(before, owner, j) < amount
    ensures k <= n <= |before|
    ensures Consumed(before, Allocate(accruals, k, owner, payout, remaining), n, owner, payout)
    ensures PrefixTotal(before, owner, n) >= amount || n == |before|
    ensures PrefixTotal(before, owner, n) == PrefixTotal(before, owner, k) + Consumption(before, k, owner, remaining)
    ensures forall j :: 0 <= j < n && Open(before[j], owner) ==> PrefixTotal(before, owner, j) < amount
    decreases |accruals| - k
  {
    hide PrefixTotal;
    if k == |accruals| || remaining <= 0 {
      n := k;
    } else {
      PrefixStep(before, owner, k);
      assert accruals[k] == before[k];
      if Open(accruals[k], owner) {
        var row := accruals[k].(status := PaidOut, payout := Some(payout));
        n := AllocateFrom(before, accruals[k := row], k + 1, owner, payout, amount, remaining - accruals[k].amount);
      } else {
        n := AllocateFrom(before, accruals, k + 1, owner, payout, amount, remaining);
      }
    }
  }

  lemma AllocatesShortestPrefix(accruals: seq<Accrual>, owner: nat, payout: nat, amount: nat) returns (n: nat)
    ensures n <= |accruals|
    ensures Consumed(accruals, Allocate(accruals, 0, owner, payout, amount), n, owner, payout)
    ensures PrefixTotal(accruals, owner, n) >= amount || n == |accruals|
    ensures PrefixTotal(accruals, owner, n) == Consumption(accruals, 0, owner, amount)
    ensures forall j :: 0 <= j < n && Open(accruals[j], owner) ==> PrefixTotal(accruals, owner, j) < amount
  {
    assert OpenWeights(accruals, owner)[..0] == [];
    n := AllocateFrom(accruals, accruals, 0, owner, payout, amount, amount);
  }

  /** What a prefix consumes leaves the owner's open total, no other owner's, and
      nobody's ever-accrued total. */
  lemma ConsumptionTotals(before: seq<Accrual>, after: seq<Accrual>, k: nat, owner: nat, payout: nat, who: nat)
    requires Consumed(before, after, k, owner, payout)
    ensures Sum(OpenWeights(after, who))
         == Sum(OpenWeights(before, who)) - if who == owner then PrefixTotal(before, owner, k) else 0
    ensures EverWeights(after, who) == EverWeights(before, who)
  {
    if who == owner {
      var w, v := OpenWeights(before, who), OpenWeights(after, who);
      assert w == w[..k] + w[k..] && v == v[..k] + w[k..];
      SumConcat(w[..k], w[k..]);
      SumConcat(v[..k], w[k..]);
      SumZero(v[..k]);
    } else {
      assert OpenWeights(after, who) == OpenWeights(before, who);
    }
  }

  // ---- Never paid more than was accrued ----

  /** Two bounds that hold each other up: money paid or promised, and money paid
      or still open, each stay within what was ever accrued. */
  predicate Bounded(b: Book, owner: nat)
  {
    && PaidTotal(b, owner) + HeldTotal(b, owner) <= EverAccrued(b, owner)
    && PaidTotal(b, owner) + OpenTotal(b, owner) <= EverAccrued(b, owner)
  }

  datatype DeskStep =
    | Accrues(payment: nat, owner: Option<nat>, amount: nat, percent: nat, commission: bool,
              signup: Moment, months: int, at: Moment)
    | Reverses(payment: nat)
    | Requests(asker: nat, asked: int, minimum: int)
    | Processes(i: nat, to: PayoutStatus)

  function Do(b: Book, step: DeskStep): Book
  {
    match step
    case Accrues(payment, owner, amount, percent, commission, signup, months, at) =>
      Accrue(b, payment, owner, amount, percent, commission, signup, months, at)
    case Reverses(payment) => Reverse(b, payment)
    case Requests(owner, amount, minimum) =>
      var r := Request(b, owner, amount, minimum); if r.Some? then r.value else b
    case Processes(i, to) =>
      if i < |b.payouts| then (var r := Process(b, i, to); if r.Some? then r.value else b) else b
  }

  function DoAll(b: Book, steps: seq<DeskStep>): Book
  {
    if steps == [] then b else Do(DoAll(b, steps[..|steps| - 1]), steps[|steps| - 1])
  }

  lemma AccrualBounded(b: Book, row: Accrual, owner: nat)
    requires Bounded(b, owner) && row.status == Accrued
    ensures Bounded(b.(accruals := b.accruals + [row]), owner)
  {
    var w := if row.owner == owner then row.amount else 0;
    assert OpenWeights(b.accruals + [row], owner) == OpenWeights(b.accruals, owner) + [w];
    assert EverWeights(b.accruals + [row], owner) == EverWeights(b.accruals, owner) + [w];
    SumAppend(OpenWeights(b.accruals, owner), w);
    SumAppend(EverWeights(b.accruals, owner), w);
  }

  lemma ReversalBounded(b: Book, payment: nat, owner: nat)
    requires Bounded(b, owner)
    ensures Bounded(Reverse(b, payment), owner)
  {
    var t := Reverse(b, payment);
    assert EverWeights(t.accruals, owner) == EverWeights(b.accruals, owner);
    SumMonotone(OpenWeights(t.accruals, owner), OpenWeights(b.accruals, owner));
  }

  lemma RequestBounded(b: Book, owner: nat, amount: int, minimum: int, who: nat)
    requires Bounded(b, who) && Request(b, owner, amount, minimum).Some?
    ensures Bounded(Request(b, owner, amount, minimum).value, who)
  {
    var p := Payout(owner, amount, Requested);
    var w := if owner == who then amount else 0;
    assert HeldWeights(b.payouts + [p], who) == HeldWeights(b.payouts, who) + [w];
    assert PaidWeights(b.payouts + [p], who) == PaidWeights(b.payouts, who) + [0];
    SumAppend(HeldWeights(b.payouts, who), w);
    SumAppend(PaidWeights(b.payouts, who), 0);
  }

  lemma PayoutUpdate(b: Book, i: nat, to: PayoutStatus, who: nat)
    requires i < |b.payouts| && CanMove(b.payouts[i].status, to)
    ensures var p := b.payouts[i];
            var t := b.(payouts := b.payouts[i := p.(status := to)]);
            && HeldTotal(t, who) == HeldTotal(b, who) - (if p.owner == who && to != Cleared then p.amount else 0)
            && PaidTotal(t, who) == PaidTotal(b, who) + (if p.owner == who && to == Paid then p.amount else 0)
  {
    var p := b.payouts[i];
    var q := p.(status := to);
    var h := if p.owner == who && to == Cleared then p.amount else 0;
    var d := if p.owner == who && to == Paid then p.amount else 0;
    assert HeldWeights(b.payouts[i := q], who) == HeldWeights(b.payouts, who)[i := h];
    assert PaidWeights(b.payouts[i := q], who) == PaidWeights(b.payouts, who)[i := d];
    SumUpdate(HeldWeights(b.payouts, who), i, h);
    SumUpdate(PaidWeights(b.payouts, who), i, d);
  }

  /** Paying a request: what it consumed, and how the totals moved. */
  lemma PaymentTotals(b: Book, i: nat, who: nat) returns (n: nat)
    requires i < |b.payouts| && b.payouts[i].status == Cleared
    ensures n <= |b.accruals|
    ensures var p, t := b.payouts[i], Process(b, i, Paid).value;
            var mine := p.owner == who;
            && (PrefixTotal(b.accruals, p.owner, n) >= p.amount || n == |b.accruals|)
            && PrefixTotal(b.accruals, p.owner, n) == Consumption(b.accruals, 0, p.owner, p.amount)
            && OpenTotal(t, who) == OpenTotal(b, who) - (if mine then PrefixTotal(b.accruals, p.owner, n) else 0)
            && EverAccrued(t, who) == EverAccrued(b, who)
            && HeldTotal(t, who) == HeldTotal(b, who) - (if mine then p.amount else 0)
            && PaidTotal(t, who) == PaidTotal(b, who) + (if mine then p.amount else 0)
  {
    var p := b.payouts[i];
    n := AllocatesShortestPrefix(b.accruals, p.owner, i, p.amount);
    ConsumptionTotals(b.accruals, Allocate(b.accruals, 0, p.owner, i, p.amount), n, p.owner, i, who);
    PayoutUpdate(b, i, Paid, who);
  }

  lemma HeldCoversEach(b: Book, i: nat)
    requires i < |b.payouts| && b.payouts[i].status == Cleared
    ensures HeldTotal(b, b.payouts[i].owner) >= b.payouts[i].amount
  {
    var w := HeldWeights(b.payouts, b.payouts[i].owner);
    SumUpdate(w, i, 0);
    SumZeroIff(w[i := 0]);
  }

  lemma ProcessBounded(b: Book, i: nat, to: PayoutStatus, who: nat)
    requires i < |b.payouts| && CanMove(b.payouts[i].status, to) && Bounded(b, who)
    ensures Bounded(Process(b, i, to).value, who)
  {
    var p := b.payouts[i];
    if to == Paid {
      var n := PaymentTotals(b, i, who);
      HeldCoversEach(b, i);
      if p.owner == who && n == |b.accruals| {
        assert OpenWeights(b.accruals, who)[..n] == OpenWeights(b.accruals, who);
      }
    } else {
      PayoutUpdate(b, i, to, who);
      SumZeroIff(HeldWeights(b.payouts, who));
    }
  }

  lemma StepBounded(b: Book, step: DeskStep, who: nat)
    requires Bounded(b, who)
    ensures Bounded(Do(b, step), who)
  {
    hide Instant, AddMonths, Share, Bounded, Allocate;
    match step
    case Accrues(payment, owner, amount, percent, commission, signup, months, at) =>
      if owner.Some? { AccrualBounded(b, Accrual(payment, owner.value, Share(amount, percent), Accrued, None), who); }
    case Reverses(payment) => ReversalBounded(b, payment, who);
    case Requests(owner, amount, minimum) =>
      if Request(b, owner, amount, minimum).Some? { RequestBounded(b, owner, amount, minimum, who); }
    case Processes(i, to) =>
      if i < |b.payouts| && CanMove(b.payouts[i].status, to) { ProcessBounded(b, i, to, who); }
  }

  /** Over every mix of accruals, reversals, requests, approvals, rejections and
      payments, no owner is paid more in total than was ever accrued to them,
      although each payment consumes whole rows. */
  lemma {:induction false} NeverPaidMoreThanAccrued(b: Book, steps: seq<DeskStep>, who: nat)
    requires Bounded(b, who)
    ensures Bounded(DoAll(b, steps), who)
    ensures PaidTotal(DoAll(b, steps), who) <= EverAccrued(DoAll(b, steps), who)
  {
    if steps != [] {
      NeverPaidMoreThanAccrued(b, steps[..|steps| - 1], who);
      StepBounded(DoAll(b, steps[..|steps| - 1]), steps[|steps| - 1], who);
    }
    SumZeroIff(HeldWeights(DoAll(b, steps).payouts, who));
  }

  /** A payment earns at most one accrual, accruals are never lost or changed in
      amount or owner, and a payout that was paid or refused stays so. */
  predicate Regular(b: Book, t: Book)
  {
    && OnePerPayment(t.accruals) && SameRows(b.accruals, t.accruals)
    && |b.payouts| <= |t.payouts|
    && forall i :: 0 <= i < |b.payouts| ==>
         && t.payouts[i] == b.payouts[i].(status := t.payouts[i].status)
         && (b.payouts[i].status == Paid || b.payouts[i].status == Refused ==> t.payouts[i] == b.payouts[i])
  }

  lemma StepRegular(b: Book, step: DeskStep)
    requires OnePerPayment(b.accruals)
    ensures Regular(b, Do(b, step))
  {
    hide Instant, AddMonths, Share, Allocate, Balance;
    match step
    case Processes(i, to) =>
      if i < |b.payouts| {
        var p := b.payouts[i];
        var n := AllocatesShortestPrefix(b.accruals, p.owner, i, p.amount);
      }
    case _ =>
  }

  lemma {:induction false} BooksAreRegular(b: Book, steps: seq<DeskStep>)
    requires OnePerPayment(b.accruals)
    ensures Regular(b, DoAll(b, steps))
  {
    if steps != [] {
      BooksAreRegular(b, steps[..|steps| - 1]);
      StepRegular(DoAll(b, steps[..|steps| - 1]), steps[|steps| - 1]);
    }
  }

  /** A payment earns its owner the share of its amount exactly when the owner is
      active, it has earned nothing yet, it falls inside the company's first
      months, and a commission has a rate; and having earned once, it never earns
      again, whatever happens to the books in between. */
  lemma EarnsOnce(b: Book, payment: nat, owner: Option<nat>, amount: nat, percent: nat, commission: bool,
                  signup: Moment, months: int, at: Moment, steps: seq<DeskStep>, again: DeskStep)
    requires OnePerPayment(b.accruals)
    requires again.Accrues? && again.payment == payment
    ensures var t := Accrue(b, payment, owner, amount, percent, commission, signup, months, at);
            && (t != b <==> owner.Some? && !HasAccrual(b.accruals, payment) && (commission ==> percent > 0)
                            && Instant(at) < Instant(Moment(AddMonths(signup.date, months), signup.second)))
            && (t != b ==>
                  t.accruals == b.accruals + [Accrual(payment, owner.value, Share(amount, percent), Accrued, None)])
            && (t != b ==> Do(DoAll(t, steps), again) == DoAll(t, steps))
  {
    hide Instant, AddMonths, Share, DoAll;
    var t := Accrue(b, payment, owner, amount, percent, commission, signup, months, at);
    if t != b {
      assert t.accruals[|b.accruals|].payment == payment;
      BooksAreRegular(t, steps);
      assert DoAll(t, steps).accruals[|b.accruals|].payment == payment;
    }
  }

  /** By how much the rows a payment consumes exceed the payment. */
  function Overshoot(b: Book, i: nat): int
    requires i < |b.payouts|
  {
    Consumption(b.accruals, 0, b.payouts[i].owner, b.payouts[i].amount) - b.payouts[i].amount
  }

  /** A paid request costs its owner what its rows summed to, not its amount: the
      available balance falls by the overshoot, and nobody else's moves. */
  lemma PaymentCostsTheOvershoot(b: Book, i: nat, who: nat)
    requires i < |b.payouts| && b.payouts[i].status == Cleared
    ensures Balance(Process(b, i, Paid).value, who)
         == Balance(b, who) - if b.payouts[i].owner == who then Overshoot(b, i) else 0
  {
    hide Process, Consumption, PrefixTotal, OpenTotal, HeldTotal;
    var n := PaymentTotals(b, i, who);
  }

  /** A reversal lowers the owner's balance by the row's amount while it was open. */
  lemma ReversalCosts(b: Book, payment: nat, who: nat)
    ensures var i := IndexOf(b.accruals, payment);
            var lost := if i < |b.accruals| && Open(b.accruals[i], who) then b.accruals[i].amount else 0;
            Balance(Reverse(b, payment), who) == Balance(b, who) - lost
  {
    var i, t := IndexOf(b.accruals, payment), Reverse(b, payment);
    if t != b {
      assert OpenWeights(t.accruals, who) == OpenWeights(b.accruals, who)[i := 0];
      SumUpdate(OpenWeights(b.accruals, who), i, 0);
    }
  }

  /** The two steps that overdraw an owner, read off the book before the step: a
      payment whose whole rows overshoot by more than the balance, and the refund of
      a payment whose open accrual is more than the balance, since the rest of it
      was already promised to a payout. */
  predicate Overdraws(b: Book, step: DeskStep, who: nat)
  {
    match step
    case Processes(i, Paid) =>
      i < |b.payouts| && b.payouts[i].status == Cleared && b.payouts[i].owner == who
            && Overshoot(b, i) > Balance(b, who)
    case Reverses(payment) =>
      (var i := IndexOf(b.accruals, payment);
       i < |b.accruals| && Open(b.accruals[i], who) && b.accruals[i].amount > Balance(b, who))
    case _ => false
  }

  /** Exactly these steps take a balance below zero. */
  lemma GoesNegativeIff(b: Book, step: DeskStep, who: nat)
    requires Balance(b, who) >= 0
    ensures Balance(Do(b, step), who) < 0 <==> Overdraws(b, step, who)
  {
    hide Instant, AddMonths, Share, Allocate, Consumption;
    match step
    case Accrues(payment, owner, amount, percent, commission, signup, months, at) =>
      if Do(b, step) != b {
        var w := if owner.value == who then Share(amount, percent) else 0;
        assert OpenWeights(Do(b, step).accruals, who) == OpenWeights(b.accruals, who) + [w];
        SumAppend(OpenWeights(b.accruals, who), w);
      }
    case Reverses(payment) => ReversalCosts(b, payment, who);
    case Requests(owner, amount, minimum) =>
      if Do(b, step) != b {
        var w := if owner == who then amount else 0;
        assert HeldWeights(Do(b, step).payouts, who) == HeldWeights(b.payouts, who) + [w];
        SumAppend(HeldWeights(b.payouts, who), w);
      }
    case Processes(i, to) =>
      if i < |b.payouts| && CanMove(b.payouts[i].status, to) {
        if to == Paid { PaymentCostsTheOvershoot(b, i, who); } else { PayoutUpdate(b, i, to, who); }
      }
  }

  predicate NeverOverdraws(b: Book, steps: seq<DeskStep>, who: nat)
  {
    steps != [] ==>
      && NeverOverdraws(b, steps[..|steps| - 1], who)
      && !Overdraws(DoAll(b, steps[..|steps| - 1]), steps[|steps| - 1], who)
  }

  /** So over every run from empty books without such a step, and only as long as
      there is none, the balance stays at zero or more. */
  lemma {:induction false} SolventUntilOverdrawn(steps: seq<DeskStep>, who: nat)
    ensures NeverOverdraws(Book([], []), steps, who) <==>
              forall k :: 0 <= k <= |steps| ==> Balance(DoAll(Book([], []), steps[..k]), who) >= 0
  {
    var empty := Book([], []);
    if steps == [] {
      assert OpenWeights([], who) == [] && HeldWeights([], who) == [];
      assert DoAll(empty, []) == empty;
    } else {
      hide Do, Balance, Overdraws;
      var front, last := steps[..|steps| - 1], steps[|steps| - 1];
      SolventUntilOverdrawn(front, who);
      Prefixes(steps);
      if Balance(DoAll(empty, front), who) >= 0 {
        GoesNegativeIff(DoAll(empty, front), last, who);
      }
    }
  }

  /** So the balance does go negative. One row of 100 and two requests of 50: paying
      the first consumes the row that the second still counts on. */
  lemma BalanceGoesNegative() returns (b: Book)
    ensures Bounded(b, 0) && Balance(b, 0) == 0
    ensures |b.payouts| == 2 && b.payouts[0].owner == 0 && b.payouts[0].status == Cleared
    ensures Balance(Process(b, 0, Paid).value, 0) == -50
  {
    hide Process, Allocate, Sum;
    b := Book([Accrual(0, 0, 100, Accrued, None)], [Payout(0, 50, Cleared), Payout(0, 50, Cleared)]);
    assert OpenWeights(b.accruals, 0) == EverWeights(b.accruals, 0) == [100];
    assert HeldWeights(b.payouts, 0) == [50, 50];
    assert PaidWeights(b.payouts, 0) == [0, 0];
    SmallSums();
    PaymentCostsTheOvershoot(b, 0, 0);
  }

  /** And with no allocation at all: a row of 100 promised whole to a request, and
      then the payment it came from is refunded. */
  lemma RefundOverdraws() returns (b: Book)
    ensures Bounded(b, 0) && Balance(b, 0) == 0
    ensures Balance(Reverse(b, 7), 0) == -100
  {
    hide Sum;
    b := Book([Accrual(7, 0, 100, Accrued, None)], [Payout(0, 100, Requested)]);
    assert OpenWeights(b.accruals, 0) == EverWeights(b.accruals, 0) == HeldWeights(b.payouts, 0) == [100];
    assert PaidWeights(b.payouts, 0) == [0];
    SmallSums();
    ReversalCosts(b, 7, 0);
  }

  lemma SmallSums()
    ensures Sum([]) == 0 && Sum([100]) == 100 && Sum([50, 50]) == 100 && Sum([0, 0]) == 0 && Sum([0]) == 0
  {
    SumZero([0]);
    SumAppend([], 100);
    SumAppend([50], 50);
    SumAppend([], 50);
    SumZero([0, 0]);
    assert [] + [100] == [100] && [] + [50] == [50] && [50] + [50] == [50, 50];
  }

  /** From empty books, whatever happens. */
  lemma FromEmptyBooks(steps: seq<DeskStep>, who: nat)
    ensures var b := DoAll(Book([], []), steps);
            && PaidTotal(b, who) <= EverAccrued(b, who)
            && OnePerPayment(b.accruals)
  {
    NeverPaidMoreThanAccrued(Book([], []), steps, who);
    BooksAreRegular(Book([], []), steps);
  }
}
