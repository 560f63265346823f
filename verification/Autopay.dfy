/** Saved cards and automatic top-up: the three outcomes of a charge against an
    unreliable gateway, reconciliation, and the nightly attempt. */
module Autopay {
  import opened Prelude
  import opened Calendar
  import opened Billing

  const MAX_FAIL_STREAK := 3
  const DEFAULT_LIMIT_MONTHS := 2
  const MIN_AMOUNT := 1000
  const DAY := 86400
  const PENDING_HOLD := 3 * DAY
  const RECONCILE_GIVE_UP := DAY
  const WINDOW := 30 * DAY

  const HARD_CARD_ERRORS: set<string> :=
    {"card_not_found", "card_expired", "card_is_blocked", "card_not_active", "invalid_card_token", "sms_not_active"}

  const ALREADY_PAID: set<string> := {"transaction_already_payed", "already_confirmed"}

  const AMBIGUOUS_CODES: set<string> := {"connection_failed", "http_error"}

  // ---- What the gateway can say ----

  datatype ReceiptReply = ReceiptError(code: string) | NoTransaction | Receipt(txn: int)

  datatype PayReply = PayError(code: string) | PayOk(result: bool)

  datatype RegisterReply = Unreachable | Listed | NotListed

  /** A row of the gateway's transaction register; a missing amount reads as 0. */
  datatype RegisterRow = RegisterRow(id: string, amount: Option<int>)

  /** A transaction is listed when a row has its id and the expected amount. */
  method AskRegister(data: Option<seq<RegisterRow>>, txn: string, amount: nat) returns (reply: RegisterReply)
    ensures reply == Unreachable <==> data.None?
    ensures reply == Listed <==>
              data.Some? && exists i :: 0 <= i < |data.value| && data.value[i].id == txn
                                        && (data.value[i].amount == Some(amount)
                                              || (amount == 0 && data.value[i].amount.None?))
  {
    if data.None? {
      return Unreachable;
    }
    var rows := data.value;
    for i := 0 to |rows|
      invariant forall j :: 0 <= j < i ==>
                  !(rows[j].id == txn && (rows[j].amount == Some(amount) || (amount == 0 && rows[j].amount.None?)))
    {
      var listed := if rows[i].amount.Some? then rows[i].amount.value else 0;
      if rows[i].id == txn && listed == amount {
        return Listed;
      }
    }
    return NotListed;
  }

  /** The gateway's answers to one charge. */
  datatype Replies = Replies(receipt: ReceiptReply, pay: PayReply)

  datatype Verdict = Confirmed | Declined(code: string) | Unknown

  /** A 2xx without a result confirms nothing; "already paid" does. */
  function Judge(r: Replies): Verdict
  {
    match r.receipt
    case ReceiptError(code) => Declined(code)
    case NoTransaction => Declined("no_transaction")
    case Receipt(_) =>
      match r.pay
      case PayOk(result) => if result then Confirmed else Unknown
      case PayError(code) =>
        if code in ALREADY_PAID then Confirmed
        else if code in AMBIGUOUS_CODES then Unknown
        else Declined(code)
  }

  // ---- The one place that charges a saved card ----

  datatype Result = Charged | ChargeFailed(code: string) | ChargePending | AlreadyAttempted

  predicate KeyTaken(payments: seq<Payment>, key: int)
  {
    exists i :: 0 <= i < |payments| && payments[i].key == Some(key)
  }

  function NewCharge(amount: nat, auto: bool, key: Option<int>, now: Moment): Payment
  {
    Payment(amount, Pending, auto, true, Instant(now), None, key, None)
  }

  /** The charge's row once the gateway has answered, before any credit. */
  function Answered(p: Payment, r: Replies): Payment
  {
    var withTxn := if r.receipt.Receipt? then p.(external := Some(r.receipt.txn)) else p;
    if Judge(r).Declined? then withTxn.(status := Failed) else withTxn
  }

  function ChargeSavedCard(s: Ledger, usable: bool, amount: int, auto: bool, key: Option<int>,
                           tariff: Tariff, now: Moment, r: Replies): (Ledger, Result)
  {
    if !usable then (s, ChargeFailed("card_not_active"))
    else if amount < MIN_AMOUNT then (s, ChargeFailed("amount_invalid"))
    else if key.Some? && KeyTaken(s.payments, key.value) then (s, AlreadyAttempted)
    else
      var charged := s.(payments := s.payments + [Answered(NewCharge(amount, auto, key, now), r)]);
      match Judge(r)
      case Declined(code) => (charged, ChargeFailed(code))
      case Unknown => (charged, ChargePending)
      case Confirmed => (ApplyPayment(charged, |s.payments|, tariff, now), Charged)
  }

  // ---- Reconciliation of unknown outcomes ----

  predicate Unresolved(p: Payment)
  {
    p.status == Pending && p.card && p.external.Some?
  }

  function ReconcileOne(s: Ledger, i: nat, reply: RegisterReply, tariff: Tariff, now: Moment): Ledger
    requires i < |s.payments|
  {
    if !Unresolved(s.payments[i]) then s else
    match reply
    case Unreachable => s
    case Listed => ApplyPayment(s, i, tariff, now)
    case NotListed =>
      if Instant(now) - s.payments[i].created > RECONCILE_GIVE_UP then Drop(s, i, Failed) else s
  }

  /** The first n payments reconciled in turn, by what the register says of each. */
  function ReconcileUpto(s: Ledger, n: nat, register: nat -> RegisterReply, tariff: Tariff, now: Moment): Ledger
  {
    if n == 0 then s else
    var t := ReconcileUpto(s, n - 1, register, tariff, now);
    if n - 1 < |t.payments| then ReconcileOne(t, n - 1, register(n - 1), tariff, now) else t
  }

  // ---- The nightly attempt ----

  datatype LastStatus = Never | WentOk | WentPending | WentFailed

  /** The company's auto-pay settings. `card`: a card is chosen and usable. */
  datatype Settings = Settings(enabled: bool, card: bool, fixed: Option<nat>, limit: Option<nat>,
                               failStreak: nat, last: LastStatus, error: string, disabledReason: string)

  datatype Quote = Quote(due: bool, amount: int, limit: int, spent: int, overLimit: bool)

  function AutoWeights(payments: seq<Payment>, lo: int): (w: seq<int>)
    ensures |w| == |payments|
  {
    seq(|payments|, i requires 0 <= i < |payments| =>
      var p := payments[i];
      if p.auto && p.status == Approved && p.approvedAt.Some? && p.approvedAt.value >= lo then p.amount else 0)
  }

  function SpentSince(payments: seq<Payment>, lo: int): int { Sum(AutoWeights(payments, lo)) }

  function MonthCost(tariff: Tariff): nat { |tariff.operators| * tariff.price }

  function LimitInForce(row: Settings, tariff: Tariff): int
  {
    if row.limit.Some? && row.limit.value > 0 then row.limit.value else DEFAULT_LIMIT_MONTHS * MonthCost(tariff)
  }

  function MakeQuote(s: Ledger, row: Settings, tariff: Tariff, now: Moment): Quote
  {
    var burn := Burn(tariff, now.date);
    var base := if row.fixed.Some? && row.fixed.value > 0 then row.fixed.value else MonthCost(tariff);
    var amount := Max(Max(base, burn - s.balance), MIN_AMOUNT);
    var spent := SpentSince(s.payments, Instant(now) - WINDOW);
    var limit := LimitInForce(row, tariff);
    Quote(burn > 0 && s.balance < burn, amount, limit, spent, amount > limit - spent)
  }

  /** An automatic charge of unknown outcome that still holds new attempts. */
  predicate Held(payments: seq<Payment>, now: Moment)
  {
    exists i :: 0 <= i < |payments| && payments[i].auto && payments[i].status == Pending
                && payments[i].created >= Instant(now) - PENDING_HOLD
  }

  datatype Tag = TagOff | TagDisabled | TagTrial | TagStaffSuspended | TagNotDue | TagHeld | TagLimit
               | TagAlready | TagPending | TagFailed | TagCharged

  /** Why an attempt stops before charging, if it does. */
  function Refusal(s: Ledger, row: Settings, q: Quote, now: Moment): Option<Tag>
  {
    if !row.enabled then Some(TagOff)
    else if !row.card then Some(TagDisabled)
    else if s.company == CompanyTrial then Some(TagTrial)
    else if s.company == CompanySuspended && s.staffHold then Some(TagStaffSuspended)
    else if !q.due then Some(TagNotDue)
    else if Held(s.payments, now) then Some(TagHeld)
    else if q.overLimit then Some(TagLimit)
    else None
  }

  function Disable(row: Settings, reason: string): Settings
  {
    row.(enabled := false, disabledReason := reason)
  }

  function AfterRefusal(row: Settings, tag: Tag): Settings
  {
    match tag
    case TagDisabled => Disable(row, "card_not_active")
    case TagHeld => row.(last := WentPending, error := "pending_check")
    case TagLimit => row.(last := WentFailed, error := "limit_reached")
    case _ => row
  }

  /** A failed day: hard card errors retire the card at once, the third failed
      day in a row turns auto-pay off. */
  function AfterFailure(row: Settings, code: string): (Settings, Tag)
  {
    var failed := row.(failStreak := row.failStreak + 1, last := WentFailed, error := code);
    if code in HARD_CARD_ERRORS then (Disable(failed.(card := false), code), TagDisabled)
    else if failed.failStreak >= MAX_FAIL_STREAK then (Disable(failed, "too_many_failures"), TagDisabled)
    else (failed, TagFailed)
  }

  function AfterCharge(row: Settings, result: Result): (Settings, Tag)
  {
    match result
    case AlreadyAttempted => (row, TagAlready)
    case ChargePending => (row.(last := WentPending, error := "pending_check"), TagPending)
    case ChargeFailed(code) => AfterFailure(row, code)
    case Charged => (row.(failStreak := 0, last := WentOk, error := ""), TagCharged)
  }

  function Attempt(s: Ledger, row: Settings, tariff: Tariff, now: Moment, r: Replies): (Ledger, Settings, Tag)
  {
    var q := MakeQuote(s, row, tariff, now);
    match Refusal(s, row, q, now)
    case Some(tag) => (s, AfterRefusal(row, tag), tag)
    case None =>
      var (t, result) := ChargeSavedCard(s, row.card, q.amount, true, Some(Ord(now.date)), tariff, now, r);
      var (after, tag) := AfterCharge(row, result);
      (t, after, tag)
  }
}
