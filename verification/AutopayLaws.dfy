/** Laws of automatic charging: the spending cap, no second charge while an
    outcome is unknown, and what a successful charge leaves behind. */
module AutopayLaws {
  import opened Prelude
  import opened Calendar
  import opened Billing
  import opened BillingLaws
  import opened BillingStatus
  import opened BillingEffects
  import opened Autopay

  // ---- What a successful automatic charge achieves ----

  /** A charge that went through leaves at least one more day covered and the
      company active, even if running out of money had suspended it, and the
      same day's next quote is not due: one charge a day is enough. */
  lemma SuccessfulChargeCoversTheDay(s: Ledger, row: Settings, tariff: Tariff, now: Moment, r: Replies)
    requires !HasUnpaid(s.statements)
    requires Attempt(s, row, tariff, now, r).2 == TagCharged
    ensures var t := Attempt(s, row, tariff, now, r).0;
            && t.balance == s.balance + MakeQuote(s, row, tariff, now).amount
            && t.balance >= Burn(tariff, now.date) > 0
            && t.company == CompanyActive
            && !MakeQuote(t, Attempt(s, row, tariff, now, r).1, tariff, now).due
            && DaysLeft(t, tariff, now.date).Some? && DaysLeft(t, tariff, now.date).value >= 1
  {
    hide Ord, Burn, ApplyPayment, SpentSince, Instant, HasUnpaid;
    var q := MakeQuote(s, row, tariff, now);
    var charged := s.(payments := s.payments + [Answered(NewCharge(q.amount, true, Some(Ord(now.date)), now), r)]);
    CreditEffect(charged, |s.payments|, tariff, now);
    var t := Attempt(s, row, tariff, now, r).0;
    assert t == ApplyPayment(charged, |s.payments|, tariff, now);
    QuotientAtLeastOne(t.balance, Burn(tariff, now.date));
  }

  /** The amount asked is the least that covers the chosen sum (a month of all
      seats unless one is fixed), the debt with one day on top, and the minimum. */
  lemma QuoteIsLeast(s: Ledger, row: Settings, tariff: Tariff, now: Moment, n: int)
    ensures var enough := n >= 1000 && s.balance + n >= Burn(tariff, now.date)
                          && n >= (if row.fixed.Some? && row.fixed.value > 0 then row.fixed.value
                                   else |tariff.operators| * tariff.price);
            enough <==> n >= MakeQuote(s, row, tariff, now).amount
  {
    hide Ord, Burn, SpentSince;
  }

  /** With unpaid statements a charge reopens a suspended company exactly when it
      pays them all and leaves a day's service. */
  lemma ChargeReopensIff(s: Ledger, row: Settings, tariff: Tariff, now: Moment, r: Replies)
    requires Agrees(s) && s.company == CompanySuspended
    requires Attempt(s, row, tariff, now, r).2 == TagCharged
    ensures Attempt(s, row, tariff, now, r).0.company == CompanyActive
       <==> s.balance + MakeQuote(s, row, tariff, now).amount - UnpaidTotal(s.statements) >= Burn(tariff, now.date)
  {
    hide Ord, Burn, SpentSince, Instant, UnpaidTotal, SettleFrom;
    var q := MakeQuote(s, row, tariff, now);
    var charged := s.(payments := s.payments + [Answered(NewCharge(q.amount, true, Some(Ord(now.date)), now), r)]);
    var i := |s.payments|;
    var approved := charged.(payments := charged.payments[i := ApprovedRow(charged.payments[i], now)]);
    TopUpReopensIff(approved, q.amount, tariff, now);
    SettlingTouches(approved.(balance := approved.balance + q.amount), 0);
  }

  lemma QuotientAtLeastOne(a: int, b: int)
    requires b > 0
    ensures a / b >= 1 <==> a >= b
  {
  }

  /** Auto-pay is due exactly when an active company's days left fall below one. */
  lemma DueMeansNoDayLeft(s: Ledger, row: Settings, tariff: Tariff, now: Moment)
    requires s.company == CompanyActive && Burn(tariff, now.date) > 0
    ensures MakeQuote(s, row, tariff, now).due <==> DaysLeft(s, tariff, now.date).value < 1
  {
    hide Ord, Burn;
    QuotientAtLeastOne(s.balance, Burn(tariff, now.date));
  }

  // ---- Every answer of the gateway, and every branch of an attempt ----

  /** The gateway may fail in any way, but it does not lie. No money moves without
      a transaction; a result or "already paid" means it was taken; any other
      error that is not a lost connection means it was not. A lost connection or
      an answer without a result says nothing. */
  predicate HonestReplies(r: Replies, takes: bool)
  {
    match r.receipt
    case Receipt(_) =>
      (match r.pay
       case PayOk(result) => result ==> takes
       case PayError(code) =>
         if code in {"transaction_already_payed", "already_confirmed"} then takes
         else code !in {"connection_failed", "http_error"} ==> !takes)
    case _ => !takes
  }

  // ---- What each answer does to a charge ----

  /** The answers that say the money was taken, with the gateway's own codes. */
  predicate SaysPaid(r: Replies)
  {
    r.receipt.Receipt? &&
    match r.pay
    case PayOk(result) => result
    case PayError(code) => code == "transaction_already_payed" || code == "already_confirmed"
  }

  /** The answers after which nobody knows. */
  predicate SaysNothing(r: Replies)
  {
    r.receipt.Receipt? &&
    match r.pay
    case PayOk(result) => !result
    case PayError(code) => code == "connection_failed" || code == "http_error"
  }

  /** The error a refused charge is refused with. */
  function RefusedWith(r: Replies): string
  {
    match r.receipt
    case ReceiptError(code) => code
    case NoTransaction => "no_transaction"
    case Receipt(_) => if r.pay.PayError? then r.pay.code else ""
  }

  /** Exactly when a charge is made, and what it ends as: approved when the gateway
      says paid, pending when it says nothing, and otherwise failed with its error. */
  lemma ChargeExactly(s: Ledger, usable: bool, amount: int, auto: bool, key: Option<int>,
                      tariff: Tariff, now: Moment, r: Replies)
    ensures var (t, result) := ChargeSavedCard(s, usable, amount, auto, key, tariff, now, r);
            if !usable then t == s && result == ChargeFailed("card_not_active")
            else if amount < 1000 then t == s && result == ChargeFailed("amount_invalid")
            else if key.Some? && exists i :: 0 <= i < |s.payments| && s.payments[i].key == key
            then t == s && result == AlreadyAttempted
            else
              && |t.payments| == |s.payments| + 1 && t.payments[..|s.payments|] == s.payments
              && t.payments[|s.payments|] ==
                   Payment(amount, if SaysPaid(r) then Approved else if SaysNothing(r) then Pending else Failed,
                           auto, true, Instant(now), if SaysPaid(r) then Some(Instant(now)) else None, key,
                           if r.receipt.Receipt? then Some(r.receipt.txn) else None)
              && result == (if SaysPaid(r) then Charged
                            else if SaysNothing(r) then ChargePending else ChargeFailed(RefusedWith(r)))
              && (!SaysPaid(r) ==> t == s.(payments := t.payments))
  {
    hide Ord, Burn, ApplyPayment, Instant;
    if usable && amount >= MIN_AMOUNT && !(key.Some? && KeyTaken(s.payments, key.value)) {
      var row := Answered(NewCharge(amount, auto, key, now), r);
      var charged := s.(payments := s.payments + [row]);
      ApplyPaymentRow(charged, |s.payments|, tariff, now);
    }
  }

  /** Against an honest gateway the three outcomes are kept apart: a confirmed charge
      is approved, its money taken and, with nothing unpaid, credited whole; a declined
      one is FAILED, with nothing credited and nothing taken; one of unknown outcome
      stays PENDING and nothing is credited. */
  lemma ThreeOutcomes(s: Ledger, usable: bool, amount: int, auto: bool, key: Option<int>,
                      tariff: Tariff, now: Moment, r: Replies, takes: bool)
    requires HonestReplies(r, takes)
    ensures var (t, result) := ChargeSavedCard(s, usable, amount, auto, key, tariff, now, r);
            var made := |t.payments| == |s.payments| + 1;
            && (made || t == s)
            && (made ==> var p := t.payments[|s.payments|];
                  && (p.status == Approved <==> SaysPaid(r)) && (p.status == Pending <==> SaysNothing(r))
                  && (p.status == Failed <==> !SaysPaid(r) && !SaysNothing(r))
                  && (p.status == Approved ==> takes) && (p.status == Failed ==> !takes))
            && (result.Charged? ==> made && t.payments[|s.payments|].status == Approved && takes
                                    && (!HasUnpaid(s.statements) ==> t.balance == s.balance + amount))
            && (result.ChargePending? ==> made && t.payments[|s.payments|].status == Pending && t.balance == s.balance)
            && (result.ChargeFailed? && made ==>
                  t.payments[|s.payments|].status == Failed && !takes && t.balance == s.balance)
            && (result.AlreadyAttempted? ==> t == s && key.Some? && KeyTaken(s.payments, key.value))
  {
    hide Ord, Burn, ApplyPayment, Instant, HasUnpaid;
    ChargeExactly(s, usable, amount, auto, key, tariff, now, r);
    if usable && amount >= MIN_AMOUNT && !(key.Some? && KeyTaken(s.payments, key.value)) {
      var row := Answered(NewCharge(amount, auto, key, now), r);
      var charged := s.(payments := s.payments + [row]);
      if Judge(r).Confirmed? {
        ApplyPaymentRow(charged, |s.payments|, tariff, now);
        if !HasUnpaid(s.statements) { CreditEffect(charged, |s.payments|, tariff, now); }
      }
    }
  }

  /** A suspension by hand stops auto-pay exactly when it left a hold: beside a
      subscription already suspended or canceled it stops nothing. */
  lemma StaffSuspensionStopsAutopayIff(s: Ledger, row: Settings, tariff: Tariff, now: Moment, r: Replies)
    requires row.enabled && row.card
    ensures Attempt(StaffSuspend(s), row, tariff, now, r).2 == TagStaffSuspended
       <==> s.staffHold || (s.sub.Some? && (s.sub.value.status == SubTrial || s.sub.value.status == SubActive))
  {
    hide Ord, Instant, MakeQuote, ChargeSavedCard, Held;
    StaffSuspensionHoldsIff(s);
  }

  /** Exactly when an attempt makes a charge: auto-pay is on with a usable card, the
      company neither on trial nor stopped by staff, less than a day is covered by
      the balance though a day costs something, no earlier charge holds, the amount
      fits with the 30-day spend under the company's own limit, or under two months of
      all seats if it chose none, and today's key is free. */
  lemma ChargesExactlyWhen(s: Ledger, row: Settings, tariff: Tariff, now: Moment, r: Replies)
    ensures var q := MakeQuote(s, row, tariff, now);
            |Attempt(s, row, tariff, now, r).0.payments| == |s.payments| + 1 <==>
              && row.enabled && row.card
              && s.company != CompanyTrial && !(s.company == CompanySuspended && s.staffHold)
              && s.balance < Burn(tariff, now.date) && Burn(tariff, now.date) > 0
              && (forall i :: 0 <= i < |s.payments| && s.payments[i].auto && s.payments[i].status == Pending
                    ==> s.payments[i].created < Instant(now) - PENDING_HOLD)
              && SpentSince(s.payments, Instant(now) - WINDOW) + q.amount
                   <= (if row.limit.Some? && row.limit.value > 0 then row.limit.value
                       else 2 * |tariff.operators| * tariff.price)
              && !KeyTaken(s.payments, Ord(now.date))
  {
    hide Ord, Instant, SpentSince, ApplyPayment, Burn;
    var q := MakeQuote(s, row, tariff, now);
    if Refusal(s, row, q, now).None? && !KeyTaken(s.payments, Ord(now.date)) {
      var charged := s.(payments := s.payments + [Answered(NewCharge(q.amount, true, Some(Ord(now.date)), now), r)]);
      ApplyPaymentRow(charged, |s.payments|, tariff, now);
    }
  }

  /** The limit is kept by the charge itself: what an attempt charges fits, with what
      30 days have spent, under the company's own limit, or under two months of all
      seats if it chose none. */
  lemma ChargeFitsTheLimit(s: Ledger, row: Settings, tariff: Tariff, now: Moment, r: Replies)
    ensures var t := Attempt(s, row, tariff, now, r).0;
            |t.payments| > |s.payments| ==>
              var total := SpentSince(s.payments, Instant(now) - 30 * 86400) + t.payments[|s.payments|].amount;
              && (row.limit.Some? && row.limit.value > 0 ==> total <= row.limit.value)
              && (row.limit.None? || row.limit.value == 0 ==> total <= 2 * |tariff.operators| * tariff.price)
  {
    hide Ord, Instant, SpentSince, Attempt, Burn;
    AttemptRow(s, row, tariff, now, r);
    DefaultLimit(row, tariff);
  }

  lemma DefaultLimit(row: Settings, tariff: Tariff)
    ensures LimitInForce(row, tariff) ==
              if row.limit.Some? && row.limit.value > 0 then row.limit.value else 2 * |tariff.operators| * tariff.price
  {
  }

  /** The gateway codes after which a card is of no use. */
  predicate HardError(code: string)
  {
    code in {"card_not_found", "card_expired", "card_is_blocked", "card_not_active", "invalid_card_token",
             "sms_not_active"}
  }

  /** Everything an attempt does to the settings, by what stopped it or how the charge
      it made was answered. */
  lemma SettingsExactly(s: Ledger, row: Settings, tariff: Tariff, now: Moment, r: Replies)
    ensures var (t, after, tag) := Attempt(s, row, tariff, now, r);
            var q := MakeQuote(s, row, tariff, now);
            var limit := if row.limit.Some? && row.limit.value > 0 then row.limit.value
                         else 2 * |tariff.operators| * tariff.price;
            var held := exists i :: 0 <= i < |s.payments| && s.payments[i].auto && s.payments[i].status == Pending
                                    && s.payments[i].created >= Instant(now) - 3 * 86400;
            after ==
              if !row.enabled then row
              else if !row.card then row.(enabled := false, disabledReason := "card_not_active")
              else if s.company == CompanyTrial || (s.company == CompanySuspended && s.staffHold) then row
              else if !(s.balance < Burn(tariff, now.date) && Burn(tariff, now.date) > 0) then row
              else if held then row.(last := WentPending, error := "pending_check")
              else if SpentSince(s.payments, Instant(now) - 30 * 86400) + q.amount > limit
              then row.(last := WentFailed, error := "limit_reached")
              else if KeyTaken(s.payments, Ord(now.date)) then row
              else if SaysPaid(r) then row.(failStreak := 0, last := WentOk, error := "")
              else if SaysNothing(r) then row.(last := WentPending, error := "pending_check")
              else
                var failed := row.(failStreak := row.failStreak + 1, last := WentFailed, error := RefusedWith(r));
                if HardError(RefusedWith(r))
                then failed.(card := false, enabled := false, disabledReason := RefusedWith(r))
                else if row.failStreak + 1 >= 3
                then failed.(enabled := false, disabledReason := "too_many_failures")
                else failed
  {
    hide Ord, Instant, SpentSince, Burn, ChargeSavedCard, KeyTaken, MonthCost;
    var q := MakeQuote(s, row, tariff, now);
    DefaultLimit(row, tariff);
    hide LimitInForce;
    assert q.amount >= 1000;
    ChargeAnswered(s, q.amount, tariff, now, r);
  }

  lemma ChargeAnswered(s: Ledger, amount: int, tariff: Tariff, now: Moment, r: Replies)
    requires amount >= 1000
    ensures ChargeSavedCard(s, true, amount, true, Some(Ord(now.date)), tariff, now, r).1 ==
              if KeyTaken(s.payments, Ord(now.date)) then AlreadyAttempted
              else if SaysPaid(r) then Charged
              else if SaysNothing(r) then ChargePending else ChargeFailed(RefusedWith(r))
  {
    hide Ord, Instant, ChargeSavedCard;
    ChargeExactly(s, true, amount, true, Some(Ord(now.date)), tariff, now, r);
  }

  /** A card the bank refuses for good is retired with the first attempt, and no
      later attempt charges until someone sets auto-pay up again. */
  lemma HardErrorsRetireTheCard(s: Ledger, row: Settings, tariff: Tariff, now: Moment, r: Replies,
                                later: Ledger, tariff2: Tariff, now2: Moment, r2: Replies)
    requires |Attempt(s, row, tariff, now, r).0.payments| > |s.payments|
    requires r.receipt.ReceiptError? || (r.receipt.Receipt? && r.pay.PayError?)
    requires HardError(if r.receipt.ReceiptError? then r.receipt.code else r.pay.code)
    ensures var (t, after, tag) := Attempt(s, row, tariff, now, r);
            && |t.payments| == |s.payments| + 1 && t.payments[|s.payments|].status == Failed
            && !after.enabled && !after.card
            && after.disabledReason == (if r.receipt.ReceiptError? then r.receipt.code else r.pay.code)
            && Attempt(later, after, tariff2, now2, r2) == (later, after, TagOff)
  {
    hide Ord, Instant, MakeQuote, Held, SpentSince, Burn, ChargeSavedCard, KeyTaken;
    var q := MakeQuote(s, row, tariff, now);
    ChargeExactly(s, row.card, q.amount, true, Some(Ord(now.date)), tariff, now, r);
  }

  /** Reconciling a charge of unknown outcome: it is credited exactly when the
      register lists it, given up exactly when the register does not and it is
      over a day old, and otherwise stays as it is; nothing else is touched. */
  lemma ReconcileExactly(s: Ledger, i: nat, reply: RegisterReply, tariff: Tariff, now: Moment)
    requires i < |s.payments| && Unresolved(s.payments[i])
    ensures var t := ReconcileOne(s, i, reply, tariff, now);
            && |t.payments| == |s.payments|
            && (forall j :: 0 <= j < |s.payments| && j != i ==> t.payments[j] == s.payments[j])
            && (t.payments[i].status == Approved <==> reply == Listed)
            && (t.payments[i].status == Failed <==>
                  reply == NotListed && Instant(now) - s.payments[i].created > RECONCILE_GIVE_UP)
            && (t.payments[i].status == Pending ==> t == s)
            && (t.payments[i].status == Failed ==> t.balance == s.balance)
  {
    hide Ord, Instant, ApplyPayment;
    ApplyPaymentRow(s, i, tariff, now);
  }

  /** Reconciling in turn does to each payment what the register says of it. */
  lemma {:induction false} ReconcileRows(s: Ledger, n: nat, register: nat -> RegisterReply, tariff: Tariff, now: Moment)
    requires n <= |s.payments|
    ensures var t := ReconcileUpto(s, n, register, tariff, now);
            && |t.payments| == |s.payments|
            && forall i :: 0 <= i < |s.payments| ==>
                 t.payments[i] ==
                   if i >= n || s.payments[i].status != Pending || !s.payments[i].card || s.payments[i].external.None?
                   then s.payments[i]
                   else if register(i) == Listed then ApprovedRow(s.payments[i], now)
                   else if register(i) == NotListed && Instant(now) - s.payments[i].created > 86400
                   then s.payments[i].(status := Failed) else s.payments[i]
  {
    hide ApplyPayment, Instant;
    if n > 0 {
      ReconcileRows(s, n - 1, register, tariff, now);
      var t := ReconcileUpto(s, n - 1, register, tariff, now);
      ApplyPaymentRow(t, n - 1, tariff, now);
    }
  }

  /** Auto-pay turns itself off: an attempt of an enabled row fails at most three
      days in a row, and a row that is off never charges. */
  lemma AutopayStopsItself(s: Ledger, row: Settings, tariff: Tariff, now: Moment, r: Replies)
    requires row.enabled ==> row.failStreak < MAX_FAIL_STREAK
    ensures var (t, after, tag) := Attempt(s, row, tariff, now, r);
            && (after.enabled ==> after.failStreak < MAX_FAIL_STREAK)
            && (!row.enabled ==> t == s && after == row)
            && (row.enabled && row.failStreak == MAX_FAIL_STREAK - 1 && after.failStreak > row.failStreak ==>
                  !after.enabled)
            && (tag == TagCharged ==> after.failStreak == 0)
            && (after.failStreak == row.failStreak || after.failStreak == row.failStreak + 1 || tag == TagCharged)
  {
    hide Ord, Instant, ChargeSavedCard, MakeQuote, Held;
  }

  // ---- What any move can do to the payments ----

  datatype Change =
    | NoChange
    | Appended(p: Payment)
    | Updated(i: nat, p: Payment)

  function Changed(payments: seq<Payment>, c: Change): seq<Payment>
  {
    match c
    case NoChange => payments
    case Appended(p) => payments + [p]
    case Updated(i, p) => if i < |payments| then payments[i := p] else payments
  }

  function ApprovedRow(p: Payment, now: Moment): Payment
  {
    p.(status := Approved, approvedAt := Some(Instant(now)))
  }

  /** Applying a payment approves its row and touches no other payment. */
  lemma ApplyPaymentRow(s: Ledger, i: nat, tariff: Tariff, now: Moment)
    requires i < |s.payments|
    ensures ApplyPayment(s, i, tariff, now).payments
         == if s.payments[i].status == Pending then s.payments[i := ApprovedRow(s.payments[i], now)] else s.payments
  {
    hide Ord, Burn;
    var p := s.payments[i];
    if p.status == Pending {
      SettlingTouches(s.(payments := s.payments[i := ApprovedRow(p, now)], balance := s.balance + p.amount), 0);
    }
  }

  /** The row an answered charge ends as. */
  function FinalRow(p: Payment, r: Replies, now: Moment): Payment
  {
    if Judge(r).Confirmed? then ApprovedRow(Answered(p, r), now) else Answered(p, r)
  }

  lemma ChargeRow(s: Ledger, usable: bool, amount: int, auto: bool, key: Option<int>,
                  tariff: Tariff, now: Moment, r: Replies)
    ensures var (t, result) := ChargeSavedCard(s, usable, amount, auto, key, tariff, now, r);
            || (t == s && (result.ChargeFailed? || result == AlreadyAttempted))
            || (&& amount >= MIN_AMOUNT
                && (key.Some? ==> !KeyTaken(s.payments, key.value))
                && t.payments == s.payments + [FinalRow(NewCharge(amount, auto, key, now), r, now)])
  {
    hide Ord, ApplyPayment;
    if usable && amount >= MIN_AMOUNT && !(key.Some? && KeyTaken(s.payments, key.value)) {
      var row := Answered(NewCharge(amount, auto, key, now), r);
      var charged := s.(payments := s.payments + [row]);
      if Judge(r).Confirmed? {
        ApplyPaymentRow(charged, |s.payments|, tariff, now);
        assert charged.payments[|s.payments| := ApprovedRow(row, now)] == s.payments + [ApprovedRow(row, now)];
      }
    }
  }

  /** An attempt either leaves every payment alone or appends one automatic
      charge: then no earlier one is pending inside its hold, none was made
      today, and the new one fits under the limit with all spent in 30 days. */
  lemma AttemptRow(s: Ledger, row: Settings, tariff: Tariff, now: Moment, r: Replies)
    ensures var t := Attempt(s, row, tariff, now, r).0;
            var q := MakeQuote(s, row, tariff, now);
            || t == s
            || (&& q.amount >= MIN_AMOUNT
                && !Held(s.payments, now)
                && !KeyTaken(s.payments, Ord(now.date))
                && q.amount + SpentSince(s.payments, Instant(now) - WINDOW) <= LimitInForce(row, tariff)
                && t.payments == s.payments + [FinalRow(NewCharge(q.amount, true, Some(Ord(now.date)), now), r, now)])
  {
    hide Ord, Burn, SpentSince, Instant, ChargeSavedCard, Held, KeyTaken, Answered, NewCharge;
    var q := MakeQuote(s, row, tariff, now);
    ChargeRow(s, row.card, q.amount, true, Some(Ord(now.date)), tariff, now, r);
  }

  /** What the other services do to the payments. */
  function ServiceChange(s: Ledger, step: Step): Change
  {
    match step
    case PaymentCreated(p) => Appended(p.(status := Pending, approvedAt := None))
    case PaymentApplied(i, tariff, now) =>
      if i < |s.payments| && s.payments[i].status == Pending
            then Updated(i, ApprovedRow(s.payments[i], now)) else NoChange
    case PaymentDropped(i, to) =>
      if i < |s.payments| && s.payments[i].status == Pending && (to == Failed || to == Rejected)
      then Updated(i, s.payments[i].(status := to)) else NoChange
    case PaymentRefunded(i) =>
      if i < |s.payments| && s.payments[i].status == Approved
      then Updated(i, s.payments[i].(status := Rejected)) else NoChange
    case _ => NoChange
  }

  lemma SettleCycleKeepsPayments(s: Ledger)
    ensures SettleCycle(s).payments == s.payments
  {
    hide Ord, SummariseCycle, DeductedWeights;
    if s.sub.Some? && s.sub.value.period.Some? {
      var p := s.sub.value.period.value;
      SummaryTakesNothing(Deduct(s, Ord(p.end.date) - 1), p.start.date, p.end.date);
    }
  }

  lemma ServiceRow(s: Ledger, step: Step)
    ensures Apply(s, step).payments == Changed(s.payments, ServiceChange(s, step))
  {
    hide Ord, Instant, SettleCycle, OverdueFrom, ApplyPayment, Sum;
    match step
    case CycleClosing(now) => SettleCycleKeepsPayments(s);
    case OverdueSweep(today) => OverdueTouches(s, 0, today, s.company);
    case PaymentApplied(i, tariff, now) => if i < |s.payments| { ApplyPaymentRow(s, i, tariff, now); }
    case _ =>
  }
}
