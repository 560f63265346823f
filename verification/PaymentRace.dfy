/** One payment row and any number of workers holding copies of it, read at some
    earlier time and possibly stale; and two sweeps racing to charge one company. */
module PaymentRace {
  import opened Prelude
  import opened Billing

  // ---- Credits and refunds through stale copies ----

  /** `credits` and `debits` count how often the balance was moved for the payment. */
  datatype Race = Race(row: PaymentStatus, copies: map<nat, PaymentStatus>, credits: nat, debits: nat)

  /** `Credit` checks the row under its lock. `Fail`, `Reject` and `Refund` check
      only the worker's copy; `ForceFail` is a gateway's failure notice, which
      checks nothing. */
  datatype Act = Load(w: nat) | Credit(w: nat) | Fail(w: nat) | Reject(w: nat) | Refund(w: nat) | ForceFail(w: nat)

  function Write(r: Race, w: nat, status: PaymentStatus): Race
  {
    r.(row := status, copies := r.copies[w := status])
  }

  function Step(r: Race, a: Act): Race
  {
    if a.Load? then r.(copies := r.copies[a.w := r.row])
    else if a.w !in r.copies then r
    else
      match a
      case Credit(w) =>
        if r.row == Pending then Write(r, w, Approved).(credits := r.credits + 1)
        else r.(copies := r.copies[w := r.row])
      case Fail(w) => if r.copies[w] == Pending then Write(r, w, Failed) else r
      case Reject(w) => if r.copies[w] == Pending then Write(r, w, Rejected) else r
      case Refund(w) =>
        if r.copies[w] == Approved then Write(r, w, Rejected).(debits := r.debits + 1) else r
      case ForceFail(w) => Write(r, w, Failed)
      case Load(_) => r
  }

  function Run(r: Race, acts: seq<Act>): Race
  {
    if acts == [] then r else Step(Run(r, acts[..|acts| - 1]), acts[|acts| - 1])
  }

  predicate Inv(r: Race)
  {
    && r.credits <= 1
    && (r.row == Pending ==> r.credits == 0)
    && (r.row == Approved ==> r.credits == 1)
    && (forall w :: w in r.copies && r.copies[w] == Approved ==> r.credits == 1)
    && (r.debits > 0 ==> r.credits == 1)
  }

  lemma StepKeeps(r: Race, a: Act)
    requires Inv(r)
    ensures Inv(Step(r, a))
    ensures r.row != Pending ==> Step(r, a).row != Pending && Step(r, a).credits == r.credits
  {
  }

  /** However many workers hold stale copies, and whatever failure or refund
      writes race with them, the balance is credited at most once. */
  lemma {:induction false} CreditedAtMostOnce(r: Race, acts: seq<Act>)
    requires Inv(r)
    ensures Inv(Run(r, acts)) && Run(r, acts).credits <= 1
  {
    if acts != [] {
      CreditedAtMostOnce(r, acts[..|acts| - 1]);
      StepKeeps(Run(r, acts[..|acts| - 1]), acts[|acts| - 1]);
    }
  }

  /** A payment that has failed, been rejected or been credited is never credited later. */
  lemma {:induction false} NeverCreditedLater(r: Race, acts: seq<Act>)
    requires Inv(r) && r.row != Pending
    ensures Run(r, acts).row != Pending && Run(r, acts).credits == r.credits
  {
    if acts != [] {
      NeverCreditedLater(r, acts[..|acts| - 1]);
      CreditedAtMostOnce(r, acts[..|acts| - 1]);
      StepKeeps(Run(r, acts[..|acts| - 1]), acts[|acts| - 1]);
    }
  }

  /** From its creation on, with no copies read yet. */
  lemma NewPaymentCreditedAtMostOnce(acts: seq<Act>)
    ensures Run(Race(Pending, map[], 0, 0), acts).credits <= 1
  {
    CreditedAtMostOnce(Race(Pending, map[], 0, 0), acts);
  }

  /** The writer's copy is what the row holds, and a failure notice is obeyed
      only while the payment is pending. */
  predicate Fresh(r: Race, a: Act)
  {
    match a
    case Load(_) => true
    case Credit(_) => true
    case ForceFail(w) => w in r.copies && r.row == Pending
    case _ => a.w in r.copies ==> r.copies[a.w] == r.row
  }

  predicate AllFresh(r: Race, acts: seq<Act>)
  {
    acts != [] ==> AllFresh(r, acts[..|acts| - 1]) && Fresh(Run(r, acts[..|acts| - 1]), acts[|acts| - 1])
  }

  /** The row tells where the money is: the balance holds it exactly while the
      row is APPROVED. */
  predicate Truthful(r: Race)
  {
    r.credits - r.debits == if r.row == Approved then 1 else 0
  }

  /** If every unlocked write comes from an up-to-date copy, the row is truthful
      throughout, so in particular a payment is refunded at most once. */
  lemma {:induction false} FreshWritesAreTruthful(r: Race, acts: seq<Act>)
    requires Inv(r) && Truthful(r) && AllFresh(r, acts)
    ensures Truthful(Run(r, acts)) && Run(r, acts).debits <= Run(r, acts).credits
  {
    if acts != [] {
      FreshWritesAreTruthful(r, acts[..|acts| - 1]);
      CreditedAtMostOnce(r, acts[..|acts| - 1]);
    }
  }

  /** The writes that set the row against the money, read off it before them: refunding
      from a copy what is no longer approved, and failing or rejecting, from an old
      copy or with no look at all, what has been credited. */
  predicate Breaks(r: Race, a: Act)
  {
    !a.Load? && a.w in r.copies &&
    match a
    case Refund(w) => r.copies[w] == Approved && r.row != Approved
    case ForceFail(_) => r.row == Approved
    case Fail(w) => r.copies[w] == Pending && r.row == Approved
    case Reject(w) => r.copies[w] == Pending && r.row == Approved
    case _ => false
  }

  lemma BreaksIff(r: Race, a: Act)
    requires Inv(r) && Truthful(r)
    ensures Truthful(Step(r, a)) <==> !Breaks(r, a)
  {
  }

  predicate NeverBroken(r: Race, acts: seq<Act>)
  {
    acts != [] ==> NeverBroken(r, acts[..|acts| - 1]) && !Breaks(Run(r, acts[..|acts| - 1]), acts[|acts| - 1])
  }

  /** In every interleaving the balance holds the money exactly while the row is
      APPROVED, throughout, exactly when no such write comes. */
  lemma {:induction false} TruthfulIff(r: Race, acts: seq<Act>)
    requires Inv(r) && Truthful(r)
    ensures NeverBroken(r, acts) <==> forall k :: 0 <= k <= |acts| ==> Truthful(Run(r, acts[..k]))
  {
    if acts == [] {
      assert Run(r, acts) == r;
    } else {
      hide Step, Breaks, Truthful, Inv;
      var front, last := acts[..|acts| - 1], acts[|acts| - 1];
      TruthfulIff(r, front);
      CreditedAtMostOnce(r, front);
      Prefixes(acts);
      if Truthful(Run(r, front)) {
        BreaksIff(Run(r, front), last);
      }
    }
  }

  lemma RunOne(r: Race, acts: seq<Act>, a: Act)
    ensures Run(r, acts + [a]) == Step(Run(r, acts), a)
  {
    assert (acts + [a])[..|acts|] == acts;
  }

  /** Two workers that both read APPROVED each debit the balance. */
  lemma StaleRefundsDebitTwice()
    ensures Run(Race(Approved, map[], 1, 0), [Load(1), Load(2), Refund(1), Refund(2)]).debits == 2
  {
    var r := Race(Approved, map[], 1, 0);
    assert Run(r, []) == r;
    RunOne(r, [], Load(1));
    RunOne(r, [Load(1)], Load(2));
    RunOne(r, [Load(1), Load(2)], Refund(1));
    RunOne(r, [Load(1), Load(2), Refund(1)], Refund(2));
    assert [] + [Load(1)] == [Load(1)] && [Load(1)] + [Load(2)] == [Load(1), Load(2)];
    assert [Load(1), Load(2)] + [Refund(1)] == [Load(1), Load(2), Refund(1)];
    assert [Load(1), Load(2), Refund(1)] + [Refund(2)] == [Load(1), Load(2), Refund(1), Refund(2)];
  }

  // ---- Two sweeps racing to charge one company ----

  /** An automatic charge: its day, when it was made, whether its outcome is open. */
  datatype AutoCharge = AutoCharge(day: int, created: int, open: bool)

  /** Sweeps that found nothing pending at their `now` and have not charged yet. */
  datatype Sweeps = Sweeps(charges: seq<AutoCharge>, cleared: map<nat, int>)

  datatype SweepAct = Check(w: nat, now: int) | Create(w: nat) | Resolve(i: nat)

  const DAY := 86400
  const HOLD := 3 * DAY

  predicate HeldAt(charges: seq<AutoCharge>, now: int)
  {
    exists i :: 0 <= i < |charges| && charges[i].open && charges[i].created >= now - HOLD
  }

  predicate DayTaken(charges: seq<AutoCharge>, day: int)
  {
    exists i :: 0 <= i < |charges| && charges[i].day == day
  }

  function SweepStep(s: Sweeps, a: SweepAct): Sweeps
  {
    match a
    case Check(w, now) => if HeldAt(s.charges, now) then s else s.(cleared := s.cleared[w := now])
    case Create(w) =>
      if w !in s.cleared then s
      else
        var now := s.cleared[w];
        var done := s.(cleared := map k | k in s.cleared && k != w :: s.cleared[k]);
        if DayTaken(s.charges, now / DAY) then done
        else done.(charges := s.charges + [AutoCharge(now / DAY, now, true)])
    case Resolve(i) =>
      if i < |s.charges| then s.(charges := s.charges[i := s.charges[i].(open := false)]) else s
  }

  function SweepRun(s: Sweeps, acts: seq<SweepAct>): Sweeps
  {
    if acts == [] then s else SweepStep(SweepRun(s, acts[..|acts| - 1]), acts[|acts| - 1])
  }

  predicate OnePerDay(charges: seq<AutoCharge>)
  {
    forall i, j :: 0 <= i < j < |charges| ==> charges[i].day != charges[j].day
  }

  /** In every interleaving of sweeps the key keeps a company to one charge a day. */
  lemma {:induction false} NeverTwiceADay(s: Sweeps, acts: seq<SweepAct>)
    requires OnePerDay(s.charges)
    ensures OnePerDay(SweepRun(s, acts).charges)
  {
    if acts != [] {
      NeverTwiceADay(s, acts[..|acts| - 1]);
    }
  }

  /** A sweep that nobody races charges exactly when no charge of unknown outcome is
      under three days old and none was made on its date. */
  lemma LoneSweepExactly(s: Sweeps, w: nat, now: int)
    requires w !in s.cleared
    ensures var t := SweepStep(SweepStep(s, Check(w, now)), Create(w));
            var waits := exists i ::
                  0 <= i < |s.charges| && s.charges[i].open && s.charges[i].created >= now - 3 * 86400;
            var made := exists i :: 0 <= i < |s.charges| && s.charges[i].day == now / 86400;
            t.charges == if waits || made then s.charges else s.charges + [AutoCharge(now / 86400, now, true)]
  {
  }

  /** But the check for a pending charge and the creation of the next are two
      steps: two sweeps that were both cleared both charge exactly when their
      dates differ, as when one starts just before midnight. Then two charges of
      unknown outcome are open at once. */
  lemma BothChargeAcrossMidnight(s: Sweeps, v: nat, w: nat)
    requires v != w && v in s.cleared && w in s.cleared
    requires !DayTaken(s.charges, s.cleared[v] / DAY) && !DayTaken(s.charges, s.cleared[w] / DAY)
    ensures var t := SweepStep(SweepStep(s, Create(v)), Create(w));
            |t.charges| == |s.charges| + 2 <==> s.cleared[v] / DAY != s.cleared[w] / DAY
  {
    var t := SweepStep(s, Create(v));
    assert t.charges[|s.charges|].day == s.cleared[v] / DAY;
    assert t.charges[..|s.charges|] == s.charges;
  }
}
