/** The auto-pay job as it runs: a company's settings row and account, changed in
    place, each method proved to do what its function in Autopay.dfy says. */
module AutopayJob {
  import opened Prelude
  import opened Calendar
  import opened Billing
  import opened Account
  import opened Autopay
  import AutopayLaws

  class AutopayRow {
    var enabled: bool
    var card: bool
    var fixed: Option<nat>
    var limit: Option<nat>
    var failStreak: nat
    var last: LastStatus
    var error: string
    var disabledReason: string

    function View(): Settings
      reads this
    {
      Settings(enabled, card, fixed, limit, failStreak, last, error, disabledReason)
    }

    constructor ()
      ensures View() == Settings(false, false, None, None, 0, Never, "", "")
    {
      enabled, card, fixed, limit, failStreak := false, false, None, None, 0;
      last, error, disabledReason := Never, "", "";
    }

    method DisableNow(reason: string)
      modifies this
      ensures View() == Disable(old(View()), reason)
    {
      enabled, disabledReason := false, reason;
    }

    method Mark(status: LastStatus, code: string)
      modifies this
      ensures View() == old(View()).(last := status, error := code)
    {
      last, error := status, code;
    }

    /** Create the payment, ask the gateway, and credit only what it confirmed. */
    method Charge(account: CompanyAccount, amount: int, auto: bool, key: Option<int>,
                  tariff: Tariff, now: Moment, r: Replies) returns (result: Result)
      modifies account
      ensures (account.View(), result)
           == ChargeSavedCard(old(account.View()), old(card), amount, auto, key, tariff, now, r)
      ensures account.refusals == old(account.refusals)
    {
      hide Ord, Instant, ApplyPayment;
      if !card {
        return ChargeFailed("card_not_active");
      }
      if amount < MIN_AMOUNT {
        return ChargeFailed("amount_invalid");
      }
      if key.Some? && KeyTaken(account.payments, key.value) {
        return AlreadyAttempted;
      }
      var i := |account.payments|;
      var p := NewCharge(amount, auto, key, now);
      account.payments := account.payments + [Answered(p, r)];
      match Judge(r)
      case Declined(code) => result := ChargeFailed(code);
      case Unknown => result := ChargePending;
      case Confirmed =>
        account.ApplyPaymentNow(i, tariff, now);
        result := Charged;
    }

    /** One company's nightly check. */
    method AttemptAutopay(account: CompanyAccount, tariff: Tariff, now: Moment, r: Replies) returns (tag: Tag)
      requires account as object != this
      modifies this, account
      ensures (account.View(), View(), tag) == Attempt(old(account.View()), old(View()), tariff, now, r)
      ensures account.refusals == old(account.refusals)
    {
      hide Ord, Instant, ChargeSavedCard, SpentSince, Burn;
      if !enabled {
        return TagOff;
      }
      if !card {
        DisableNow("card_not_active");
        return TagDisabled;
      }
      if account.company == CompanyTrial {
        return TagTrial;
      }
      if account.company == CompanySuspended && account.staffHold {
        return TagStaffSuspended;
      }
      var q := MakeQuote(account.View(), View(), tariff, now);
      if !q.due {
        return TagNotDue;
      }
      if Held(account.payments, now) {
        Mark(WentPending, "pending_check");
        return TagHeld;
      }
      if q.overLimit {
        Mark(WentFailed, "limit_reached");
        return TagLimit;
      }
      var result := Charge(account, q.amount, true, Some(Ord(now.date)), tariff, now, r);
      match result
      case AlreadyAttempted => tag := TagAlready;
      case ChargePending =>
        Mark(WentPending, "pending_check");
        tag := TagPending;
      case ChargeFailed(code) => tag := Fail(code);
      case Charged =>
        failStreak := 0;
        Mark(WentOk, "");
        tag := TagCharged;
    }

    method Fail(code: string) returns (tag: Tag)
      modifies this
      ensures (View(), tag) == AfterFailure(old(View()), code)
    {
      failStreak := failStreak + 1;
      Mark(WentFailed, code);
      if code in HARD_CARD_ERRORS {
        card := false;
        DisableNow(code);
        return TagDisabled;
      }
      if failStreak >= MAX_FAIL_STREAK {
        DisableNow("too_many_failures");
        return TagDisabled;
      }
      return TagFailed;
    }

    /** Ask the register about every charge of unknown outcome. */
    method ReconcilePending(account: CompanyAccount, register: nat -> RegisterReply, tariff: Tariff, now: Moment)
      modifies account
      ensures account.View() == ReconcileUpto(old(account.View()), |old(account.payments)|, register, tariff, now)
      ensures account.refusals == old(account.refusals)
    {
      hide Ord, Instant, ApplyPayment;
      var i, n := 0, |account.payments|;
      while i < n
        invariant 0 <= i <= n == |account.payments|
        invariant account.View() == ReconcileUpto(old(account.View()), i, register, tariff, now)
        invariant account.refusals == old(account.refusals)
      {
        AutopayLaws.ApplyPaymentRow(account.View(), i, tariff, now);
        if Unresolved(account.payments[i]) {
          match register(i)
          case Unreachable =>
          case Listed => account.ApplyPaymentNow(i, tariff, now);
          case NotListed =>
            if Instant(now) - account.payments[i].created > RECONCILE_GIVE_UP {
              account.payments := account.payments[i := account.payments[i].(status := Failed)];
            }
        }
        i := i + 1;
      }
    }

    /** The sweep over one company: reconcile first, then attempt, unless the
        platform's switches are off. */
    method RunAutopay(account: CompanyAccount, cardsAvailable: bool, platformEnabled: bool,
                      register: nat -> RegisterReply, tariff: Tariff, now: Moment, r: Replies)
      returns (tag: Option<Tag>)
      requires account as object != this
      modifies this, account
      ensures !cardsAvailable ==> account.View() == old(account.View()) && View() == old(View()) && tag == None
      ensures account.refusals == old(account.refusals)
      ensures cardsAvailable ==>
        var s := ReconcileUpto(old(account.View()), |old(account.payments)|, register, tariff, now);
        if platformEnabled && old(enabled)
        then tag.Some? && (account.View(), View(), tag.value) == Attempt(s, old(View()), tariff, now, r)
        else account.View() == s && View() == old(View()) && tag == None
    {
      tag := None;
      if !cardsAvailable {
        return;
      }
      ReconcilePending(account, register, tariff, now);
      if platformEnabled && enabled {
        var t := AttemptAutopay(account, tariff, now, r);
        tag := Some(t);
      }
    }
  }
}
