/** Runs of automatic charging against an adversarial but honest gateway: one
    charge a day, nothing credited that was not taken, every ledger law, and when
    taken money is written off. */
module AutopayRuns {
  import opened Prelude
  import opened Calendar
  import opened Billing
  import opened BillingLaws
  import opened BillingStatus
  import opened BillingCycles
  import opened Autopay
  import opened AutopayLaws

  // ---- Runs against an adversarial but honest gateway ----

  /** The ledger, the settings, the charges whose money the gateway has taken,
      those it once left without an outcome, and the clock. */
  datatype Machine = Machine(s: Ledger, row: Settings, taken: set<nat>, unknown: set<nat>, clock: int)

  /** `takes`: whether the gateway moves money while it is asked to pay;
      `TookLate` is money moved behind an answer already given as unknown, at any
      time after it, whatever has become of the payment since. */
  datatype Move =
    | Service(step: Step, at: int)
    | Sweep(tariff: Tariff, now: Moment, replies: Replies, takes: bool)
    | OneClick(usable: bool, amount: int, tariff: Tariff, now: Moment, replies: Replies, takes: bool)
    | Reconcile(i: nat, reply: RegisterReply, tariff: Tariff, now: Moment)
    | TookLate(i: nat)
    | Configure(row: Settings)

  /** Other code makes no saved-card and no automatic charges, the register lists
      nothing that was not taken, and clocks do not run backwards. */
  predicate Enabled(m: Machine, move: Move)
  {
    match move
    case Service(step, at) =>
      && at >= m.clock
      && (step.PaymentCreated? ==> !step.payment.auto && !step.payment.card && step.payment.key.None?)
      && (step.PaymentApplied? ==> Instant(step.now) == at)
    case Sweep(_, now, replies, takes) => ValidMoment(now) && Instant(now) >= m.clock && HonestReplies(replies, takes)
    case OneClick(_, _, _, now, replies, takes) => Instant(now) >= m.clock && HonestReplies(replies, takes)
    case Reconcile(i, reply, _, now) => Instant(now) >= m.clock && (reply == Listed ==> i in m.taken)
    case TookLate(i) => i in m.unknown
    case Configure(_) => true
  }

  /** A new row joins the set if it is `so`. */
  function Grow(rows: set<nat>, before: seq<Payment>, after: seq<Payment>, so: bool): set<nat>
  {
    if so && |after| > |before| then rows + {|before|} else rows
  }

  function Next(m: Machine, move: Move): Machine
  {
    match move
    case Service(step, at) => m.(s := Apply(m.s, step), clock := Max(m.clock, at))
    case Sweep(tariff, now, replies, takes) =>
      var (t, row, tag) := Attempt(m.s, m.row, tariff, now, replies);
      Machine(t, row, Grow(m.taken, m.s.payments, t.payments, takes),
              Grow(m.unknown, m.s.payments, t.payments, Judge(replies).Unknown?), Max(m.clock, Instant(now)))
    case OneClick(usable, amount, tariff, now, replies, takes) =>
      var (t, result) := ChargeSavedCard(m.s, usable, amount, false, None, tariff, now, replies);
      Machine(t, m.row, Grow(m.taken, m.s.payments, t.payments, takes),
              Grow(m.unknown, m.s.payments, t.payments, Judge(replies).Unknown?), Max(m.clock, Instant(now)))
    case Reconcile(i, reply, tariff, now) =>
      if i < |m.s.payments|
      then m.(s := ReconcileOne(m.s, i, reply, tariff, now), clock := Max(m.clock, Instant(now)))
      else m
    case TookLate(i) => m.(taken := m.taken + {i})
    case Configure(row) => m.(row := row)
  }

  // ---- One automatic charge a day; nothing credited that was not taken ----

  /** An automatic charge is keyed by the day it was made, and no key is used twice. */
  predicate KeyedByDay(payments: seq<Payment>)
  {
    && (forall i :: 0 <= i < |payments| && payments[i].auto ==>
          payments[i].card && payments[i].key == Some(payments[i].created / DAY))
    && (forall i, j :: 0 <= i < j < |payments| && payments[i].key.Some? && payments[j].key.Some?
          ==> payments[i].key != payments[j].key)
  }

  /** Any two automatic charges were made on different dates. */
  predicate DifferentDays(payments: seq<Payment>)
  {
    forall i, j :: 0 <= i < j < |payments| && payments[i].auto && payments[j].auto
      ==> payments[i].created / DAY != payments[j].created / DAY
  }

  /** A row has an approval time once it was approved and not while it is pending;
      a pending automatic charge has its transaction. */
  predicate Recorded(payments: seq<Payment>)
  {
    forall i :: 0 <= i < |payments| ==>
      && (payments[i].status == Approved ==> payments[i].approvedAt.Some?)
      && (payments[i].status == Pending ==> payments[i].approvedAt.None?)
      && (payments[i].status == Pending && payments[i].auto ==> payments[i].external.Some?)
  }

  predicate SoundRows(payments: seq<Payment>, taken: set<nat>, unknown: set<nat>)
  {
    && KeyedByDay(payments) && Recorded(payments)
    && (forall i :: i in taken ==> i < |payments| && payments[i].card)
    && (forall i :: i in unknown ==> i < |payments| && payments[i].card)
  }

  predicate Sound(m: Machine) { SoundRows(m.s.payments, m.taken, m.unknown) }

  lemma InstantDay(t: Moment)
    requires ValidMoment(t)
    ensures Instant(t) / DAY == Ord(t.date)
  {
    hide Ord;
  }

  lemma FinalRowFacts(amount: nat, auto: bool, key: Option<int>, now: Moment, r: Replies, takes: bool)
    requires HonestReplies(r, takes)
    ensures var p := FinalRow(NewCharge(amount, auto, key, now), r, now);
            && p.auto == auto && p.card && p.key == key && p.created == Instant(now)
            && (p.status == Approved ==> takes && p.approvedAt.Some?)
            && (p.status == Failed ==> !takes)
            && (p.status == Pending ==> p.approvedAt.None? && p.external.Some?)
            && p.status != Rejected
  {
    hide Instant;
  }

  /** A new row keyed by its day, or not automatic and unkeyed. */
  lemma AppendIsSound(payments: seq<Payment>, taken: set<nat>, unknown: set<nat>, p: Payment, takes: bool, open_: bool)
    requires SoundRows(payments, taken, unknown) && Recorded([p])
    requires p.key.Some? ==> !KeyTaken(payments, p.key.value)
    requires p.auto ==> p.card && p.key == Some(p.created / DAY)
    requires (takes || open_) ==> p.card
    ensures SoundRows(payments
          + [p], Grow(taken, payments, payments + [p], takes), Grow(unknown, payments, payments + [p], open_))
  {
    assert [p][0] == p;
  }

  /** A status change that keeps everything a row is recognised by. */
  lemma UpdateIsSound(payments: seq<Payment>, taken: set<nat>, unknown: set<nat>, i: nat, p: Payment)
    requires SoundRows(payments, taken, unknown) && i < |payments| && Recorded([p])
    requires p == payments[i].(status := p.status, approvedAt := p.approvedAt)
    ensures SoundRows(payments[i := p], taken, unknown)
  {
    assert [p][0] == p;
  }

  lemma ServiceIsSound(m: Machine, move: Move)
    requires Sound(m) && Enabled(m, move) && move.Service?
    ensures Sound(Next(m, move))
  {
    hide Ord, Instant, Apply, KeyedByDay;
    ServiceRow(m.s, move.step);
    match ServiceChange(m.s, move.step)
    case NoChange =>
    case Appended(p) => AppendIsSound(m.s.payments, m.taken, m.unknown, p, false, false);
    case Updated(i, p) => UpdateIsSound(m.s.payments, m.taken, m.unknown, i, p);
  }

  lemma MoveIsSound(m: Machine, move: Move)
    requires Sound(m) && Enabled(m, move)
    ensures Sound(Next(m, move))
  {
    hide Ord, Instant, Attempt, ChargeSavedCard, Apply, ApplyPayment, MakeQuote, SpentSince, FinalRow, KeyedByDay;
    match move
    case Service(step, at) => ServiceIsSound(m, move);
    case Sweep(tariff, now, replies, takes) => SweepIsSound(m, move);
    case OneClick(usable, amount, tariff, now, replies, takes) => OneClickIsSound(m, move);
    case Reconcile(i, reply, tariff, now) =>
      if i < |m.s.payments| {
        ApplyPaymentRow(m.s, i, tariff, now);
        var p := Next(m, move).s.payments[i];
        UpdateIsSound(m.s.payments, m.taken, m.unknown, i, p);
        assert Next(m, move).s.payments == m.s.payments[i := p];
      }
    case _ =>
  }

  lemma SweepIsSound(m: Machine, move: Move)
    requires Sound(m) && Enabled(m, move) && move.Sweep?
    ensures Sound(Next(m, move))
  {
    hide Ord, Instant, Attempt, MakeQuote, SpentSince, FinalRow, SoundRows, HonestReplies, KeyTaken;
    var now := move.now;
    AttemptRow(m.s, m.row, move.tariff, now, move.replies);
    var amount := MakeQuote(m.s, m.row, move.tariff, now).amount;
    if Next(m, move).s != m.s {
      InstantDay(now);
      FinalRowFacts(amount, true, Some(Ord(now.date)), now, move.replies, move.takes);
      AppendIsSound(m.s.payments, m.taken, m.unknown,
                    FinalRow(NewCharge(amount, true, Some(Ord(now.date)), now), move.replies, now),
                    move.takes, Judge(move.replies).Unknown?);
    }
  }

  lemma OneClickIsSound(m: Machine, move: Move)
    requires Sound(m) && Enabled(m, move) && move.OneClick?
    ensures Sound(Next(m, move))
  {
    hide Ord, Instant, ChargeSavedCard, FinalRow, SoundRows, HonestReplies, KeyTaken;
    ChargeRow(m.s, move.usable, move.amount, false, None, move.tariff, move.now, move.replies);
    if Next(m, move).s != m.s {
      FinalRowFacts(move.amount, false, None, move.now, move.replies, move.takes);
      AppendIsSound(m.s.payments, m.taken, m.unknown,
                    FinalRow(NewCharge(move.amount, false, None, move.now), move.replies, move.now),
                    move.takes, Judge(move.replies).Unknown?);
    }
  }

  function Play(m: Machine, moves: seq<Move>): Machine
  {
    if moves == [] then m else Next(Play(m, moves[..|moves| - 1]), moves[|moves| - 1])
  }

  predicate Playable(m: Machine, moves: seq<Move>)
  {
    moves != [] ==>
      Playable(m, moves[..|moves| - 1]) && Enabled(Play(m, moves[..|moves| - 1]), moves[|moves| - 1])
  }

  /** Over every run against an honest gateway, however unreliable, any two automatic
      charges were made on different dates. */
  lemma {:induction false} OneChargeADay(m: Machine, moves: seq<Move>)
    requires Sound(m) && Playable(m, moves)
    ensures Sound(Play(m, moves)) && DifferentDays(Play(m, moves).s.payments)
  {
    if moves != [] {
      OneChargeADay(m, moves[..|moves| - 1]);
      MoveIsSound(Play(m, moves[..|moves| - 1]), moves[|moves| - 1]);
    }
  }

  // ---- Only taken money is credited ----

  predicate OnlyTakenCredited(m: Machine)
  {
    forall i :: 0 <= i < |m.s.payments| && m.s.payments[i].card && m.s.payments[i].status == Approved ==> i in m.taken
  }

  /** The only way to credit a saved card with money it never paid: someone approves
      the pending charge by hand before the gateway has taken it. */
  predicate CreditsUntaken(m: Machine, move: Move)
  {
    match move
    case Service(PaymentApplied(i, _, _), _) =>
      i < |m.s.payments| && m.s.payments[i].card && m.s.payments[i].status == Pending && i !in m.taken
    case _ => false
  }

  lemma CreditsUntakenIff(m: Machine, move: Move)
    requires Sound(m) && OnlyTakenCredited(m) && Enabled(m, move)
    ensures OnlyTakenCredited(Next(m, move)) <==> !CreditsUntaken(m, move)
  {
    hide Ord, Instant, Attempt, ChargeSavedCard, Apply, ApplyPayment, MakeQuote, SpentSince, KeyedByDay, HonestReplies,
          FinalRow;
    match move
    case Service(step, at) => ServiceRow(m.s, step);
    case Sweep(tariff, now, replies, takes) =>
      AttemptRow(m.s, m.row, tariff, now, replies);
      var amount := MakeQuote(m.s, m.row, tariff, now).amount;
      if amount >= MIN_AMOUNT { FinalRowFacts(amount, true, Some(Ord(now.date)), now, replies, takes); }
    case OneClick(usable, amount, tariff, now, replies, takes) =>
      ChargeRow(m.s, usable, amount, false, None, tariff, now, replies);
      if amount >= MIN_AMOUNT { FinalRowFacts(amount, false, None, now, replies, takes); }
    case Reconcile(i, reply, tariff, now) => if i < |m.s.payments| { ApplyPaymentRow(m.s, i, tariff, now); }
    case _ =>
  }

  predicate NeverCreditsUntaken(m: Machine, moves: seq<Move>)
  {
    moves != [] ==>
      && NeverCreditsUntaken(m, moves[..|moves| - 1])
      && !CreditsUntaken(Play(m, moves[..|moves| - 1]), moves[|moves| - 1])
  }

  /** Over every run every saved-card charge credited so far is one whose money the
      gateway took, throughout, exactly when nobody approved an untaken one by hand. */
  lemma {:induction false} OnlyTakenMoneyIsCredited(m: Machine, moves: seq<Move>)
    requires Sound(m) && OnlyTakenCredited(m) && Playable(m, moves)
    ensures NeverCreditsUntaken(m, moves) <==> forall k :: 0 <= k <= |moves| ==> OnlyTakenCredited(Play(m, moves[..k]))
  {
    if moves == [] {
      assert Play(m, moves) == m;
    } else {
      hide Next, Enabled, Sound, OnlyTakenCredited, CreditsUntaken;
      var front, last := moves[..|moves| - 1], moves[|moves| - 1];
      OnlyTakenMoneyIsCredited(m, front);
      OneChargeADay(m, front);
      Prefixes(moves);
      if OnlyTakenCredited(Play(m, front)) {
        CreditsUntakenIff(Play(m, front), last);
      }
    }
  }

  /** When an attempt makes a charge, every earlier automatic charge has a known
      outcome or has been pending for more than three days. */
  lemma NoSecondChargeWhileUnknown(m: Machine, move: Move, i: nat)
    requires move.Sweep? && |Next(m, move).s.payments| > |m.s.payments|
    requires i < |m.s.payments| && m.s.payments[i].auto
    ensures m.s.payments[i].status != Pending
         || Instant(move.now) - m.s.payments[i].created > PENDING_HOLD
  {
    hide Ord, Instant, Attempt, MakeQuote, SpentSince;
    AttemptRow(m.s, m.row, move.tariff, move.now, move.replies);
  }

  // ---- Every ledger law reaches automatic charging ----

  lemma RunOne(s: Ledger, a: Step)
    ensures Run(s, [a]) == Apply(s, a)
  {
    assert [a][..0] == [];
    assert Run(s, []) == s;
  }

  lemma RunTwo(s: Ledger, a: Step, b: Step)
    ensures Run(s, [a, b]) == Apply(Apply(s, a), b)
  {
    RunOne(s, a);
    assert [a, b][..1] == [a];
  }

  /** What a card move does to the ledger: payments come, are applied or dropped. */
  predicate PaymentStep(step: Step)
  {
    (step.PaymentCreated? && step.payment.amount > 0) || step.PaymentApplied? || step.PaymentDropped?
  }

  lemma {:induction false} PaymentsOverwriteNothing(s: Ledger, steps: seq<Step>)
    requires forall i :: 0 <= i < |steps| ==> PaymentStep(steps[i])
    ensures NeverOverwritten(s, steps) && PrepaidRun(s, steps)
  {
    if steps != [] {
      PaymentsOverwriteNothing(s, steps[..|steps| - 1]);
    }
  }

  /** A card charge is a run of ledger steps: the payment is created, and then
      applied, dropped as failed, or left pending. */
  lemma ChargeIsSteps(s: Ledger, usable: bool, amount: int, auto: bool, key: Option<int>,
                      tariff: Tariff, now: Moment, r: Replies) returns (steps: seq<Step>)
    ensures ChargeSavedCard(s, usable, amount, auto, key, tariff, now, r).0 == Run(s, steps)
    ensures forall i :: 0 <= i < |steps| ==> PaymentStep(steps[i])
  {
    hide Ord, ApplyPayment, Instant;
    if !usable || amount < MIN_AMOUNT || (key.Some? && KeyTaken(s.payments, key.value)) {
      steps := [];
      return;
    }
    var row := Answered(NewCharge(amount, auto, key, now), r);
    var created := PaymentCreated(row.(status := Pending));
    var t := Apply(s, created);
    RunOne(s, created);
    match Judge(r)
    case Unknown => steps := [created];
    case Declined(code) =>
      steps := [created, PaymentDropped(|s.payments|, Failed)];
      RunTwo(s, created, steps[1]);
      assert t.payments[|s.payments| := row] == s.payments + [row];
    case Confirmed =>
      steps := [created, PaymentApplied(|s.payments|, tariff, now)];
      RunTwo(s, created, steps[1]);
  }

  /** So conservation, the status law, the billing law and the prepaid law hold
      over every run of moves: each move is a run of ledger steps. */
  lemma MoveIsSteps(m: Machine, move: Move) returns (steps: seq<Step>)
    ensures Next(m, move).s == Run(m.s, steps)
    ensures move.Service? ==> steps == [move.step]
    ensures !move.Service? ==> forall i :: 0 <= i < |steps| ==> PaymentStep(steps[i])
  {
    hide Ord, Instant, Apply, ApplyPayment, MakeQuote, ChargeSavedCard;
    steps := [];
    match move
    case Service(step, at) =>
      steps := [step];
      RunOne(m.s, step);
    case Sweep(tariff, now, replies, takes) =>
      var q := MakeQuote(m.s, m.row, tariff, now);
      if Refusal(m.s, m.row, q, now).None? {
        steps := ChargeIsSteps(m.s, m.row.card, q.amount, true, Some(Ord(now.date)), tariff, now, replies);
      }
    case OneClick(usable, amount, tariff, now, replies, takes) =>
      steps := ChargeIsSteps(m.s, usable, amount, false, None, tariff, now, replies);
    case Reconcile(i, reply, tariff, now) => steps := ReconcileIsSteps(m, i, reply, tariff, now);
    case _ =>
  }

  lemma ReconcileIsSteps(m: Machine, i: nat, reply: RegisterReply, tariff: Tariff, now: Moment)
        returns (steps: seq<Step>)
    ensures Next(m, Reconcile(i, reply, tariff, now)).s == Run(m.s, steps)
    ensures forall k :: 0 <= k < |steps| ==> PaymentStep(steps[k])
  {
    hide Ord, Instant, ApplyPayment;
    steps := [];
    if i < |m.s.payments| && Unresolved(m.s.payments[i]) {
      if reply == Listed {
        steps := [PaymentApplied(i, tariff, now)];
        RunOne(m.s, steps[0]);
      } else if reply == NotListed && Instant(now) - m.s.payments[i].created > RECONCILE_GIVE_UP {
        steps := [PaymentDropped(i, Failed)];
        RunOne(m.s, steps[0]);
      }
    }
  }

  /** The ledger's laws with automatic charging, one-click charges and
      reconciliation among the steps: conservation, each day billed once, and
      statuses that go forward. */
  lemma {:induction false} LedgerLawsWithCards(m: Machine, moves: seq<Move>)
    requires Conserved(m.s) && Billed(m.s)
    ensures var s := Play(m, moves).s; Conserved(s) && Billed(s) && StatusStep(m.s, s)
  {
    hide Conserved, Billed, Next;
    if moves != [] {
      var front, last := moves[..|moves| - 1], moves[|moves| - 1];
      LedgerLawsWithCards(m, front);
      var before := Play(m, front);
      var steps := MoveIsSteps(before, last);
      MoneyIsConserved(before.s, steps);
      StatusesGoForward(before.s, steps);
      EachDayBilledOnce(before.s, steps);
    }
  }

  predicate OverwritesCompany(m: Machine, move: Move) { move.Service? && Overwrites(m.s, move.step) }

  lemma MoveAgrees(m: Machine, move: Move)
    requires Agrees(m.s)
    ensures Agrees(Next(m, move).s) <==> !OverwritesCompany(m, move)
  {
    hide Next, Agrees, Overwrites;
    var steps := MoveIsSteps(m, move);
    if move.Service? {
      RunOne(m.s, move.step);
      StepAgrees(m.s, move.step);
    } else {
      PaymentsOverwriteNothing(m.s, steps);
      StatusesAgree(m.s, steps);
      assert steps[..|steps|] == steps;
    }
  }

  predicate NeverOverwrittenPlay(m: Machine, moves: seq<Move>)
  {
    moves != [] ==>
      && NeverOverwrittenPlay(m, moves[..|moves| - 1])
      && !OverwritesCompany(Play(m, moves[..|moves| - 1]), moves[|moves| - 1])
  }

  /** With cards too, the statuses agree throughout exactly when nobody overwrote the
      company. */
  lemma {:induction false} StatusesAgreeWithCards(m: Machine, moves: seq<Move>)
    requires Agrees(m.s)
    ensures NeverOverwrittenPlay(m, moves) <==> forall k :: 0 <= k <= |moves| ==> Agrees(Play(m, moves[..k]).s)
  {
    if moves == [] {
      assert Play(m, moves) == m;
    } else {
      hide Next, Agrees, OverwritesCompany;
      var front, last := moves[..|moves| - 1], moves[|moves| - 1];
      StatusesAgreeWithCards(m, front);
      Prefixes(moves);
      if Agrees(Play(m, front).s) {
        MoveAgrees(Play(m, front), last);
      }
    }
  }

  // ---- When taken money is given up ----

  /** Dropped without ever having been credited. A refund is not this: it keeps the
      time of the approval. */
  predicate WrittenOff(p: Payment)
  {
    (p.status == Failed || p.status == Rejected) && p.approvedAt.None?
  }

  predicate NothingGivenUp(m: Machine)
  {
    forall i :: 0 <= i < |m.s.payments| && i in m.taken ==> !WrittenOff(m.s.payments[i])
  }

  /** The three ways to lose a customer's money: a staff member or another job drops
      a pending charge the gateway took; reconciliation gives one up because the
      register does not show it yet; or the gateway takes the money of a charge
      that was already dropped. */
  predicate WritesOff(m: Machine, move: Move)
  {
    match move
    case Service(PaymentDropped(i, to), _) =>
      i < |m.s.payments| && i in m.taken && m.s.payments[i].status == Pending && (to == Failed || to == Rejected)
    case Reconcile(i, reply, _, now) =>
      i < |m.s.payments| && i in m.taken && Unresolved(m.s.payments[i])
      && reply == NotListed && Instant(now) - m.s.payments[i].created > RECONCILE_GIVE_UP
    case TookLate(i) => i < |m.s.payments| && WrittenOff(m.s.payments[i])
    case _ => false
  }

  /** Exactly these moves lose money. */
  lemma LosesMoneyIff(m: Machine, move: Move)
    requires Sound(m) && NothingGivenUp(m) && Enabled(m, move)
    ensures NothingGivenUp(Next(m, move)) <==> !WritesOff(m, move)
  {
    hide Ord, Instant, Attempt, ChargeSavedCard, Apply, ApplyPayment, MakeQuote, SpentSince, KeyedByDay, HonestReplies,
          FinalRow;
    match move
    case Service(step, at) => ServiceRow(m.s, step);
    case Sweep(tariff, now, replies, takes) =>
      AttemptRow(m.s, m.row, tariff, now, replies);
      var amount := MakeQuote(m.s, m.row, tariff, now).amount;
      if amount >= MIN_AMOUNT { FinalRowFacts(amount, true, Some(Ord(now.date)), now, replies, takes); }
    case OneClick(usable, amount, tariff, now, replies, takes) =>
      ChargeRow(m.s, usable, amount, false, None, tariff, now, replies);
      if amount >= MIN_AMOUNT { FinalRowFacts(amount, false, None, now, replies, takes); }
    case Reconcile(i, reply, tariff, now) => if i < |m.s.payments| { ApplyPaymentRow(m.s, i, tariff, now); }
    case _ =>
  }

  /** What is written off stays so: no move picks it up again. */
  lemma WrittenOffForGood(m: Machine, move: Move, i: nat)
    requires i < |m.s.payments| && i in m.taken && WrittenOff(m.s.payments[i])
    ensures var n := Next(m, move);
            i < |n.s.payments| && i in n.taken && WrittenOff(n.s.payments[i])
  {
    hide Ord, Instant, Attempt, ChargeSavedCard, Apply, ApplyPayment, MakeQuote, SpentSince, FinalRow;
    match move
    case Service(step, at) => ServiceRow(m.s, step);
    case Sweep(tariff, now, replies, takes) => AttemptRow(m.s, m.row, tariff, now, replies);
    case OneClick(usable, amount, tariff, now, replies, takes) =>
      ChargeRow(m.s, usable, amount, false, None, tariff, now, replies);
    case Reconcile(j, reply, tariff, now) => if j < |m.s.payments| { ApplyPaymentRow(m.s, j, tariff, now); }
    case _ =>
  }

  predicate NeverWritesOff(m: Machine, moves: seq<Move>)
  {
    moves != [] ==>
      && NeverWritesOff(m, moves[..|moves| - 1])
      && !WritesOff(Play(m, moves[..|moves| - 1]), moves[|moves| - 1])
  }

  /** Against an honest gateway a taken charge ends credited, pending or refunded
      exactly when the run never made one of those three moves. */
  lemma {:induction false} TakenMoneyIsNeverWrittenOff(m: Machine, moves: seq<Move>)
    requires Sound(m) && NothingGivenUp(m) && Playable(m, moves)
    ensures NothingGivenUp(Play(m, moves)) <==> NeverWritesOff(m, moves)
  {
    if moves != [] {
      hide Next, Enabled, WritesOff, WrittenOff, Sound;
      var front, last := moves[..|moves| - 1], moves[|moves| - 1];
      TakenMoneyIsNeverWrittenOff(m, front);
      OneChargeADay(m, front);
      var before := Play(m, front);
      if NothingGivenUp(before) {
        LosesMoneyIff(before, last);
      } else {
        var i :| 0 <= i < |before.s.payments| && i in before.taken && WrittenOff(before.s.payments[i]);
        WrittenOffForGood(before, last, i);
      }
    }
  }

  lemma PlayThree(m: Machine, a: Move, b: Move, c: Move)
    ensures Play(m, [a, b, c]) == Next(Next(Next(m, a), b), c)
    ensures Playable(m, [a, b, c]) <==> Enabled(m, a) && Enabled(Next(m, a), b) && Enabled(Next(Next(m, a), b), c)
  {
    hide Next, Enabled;
    assert [a, b, c][..2] == [a, b] && [a, b][..1] == [a] && [a][..0] == [];
    assert Play(m, []) == m && Playable(m, []);
    assert Play(m, [a]) == Next(m, a) && (Playable(m, [a]) <==> Enabled(m, a));
    assert Play(m, [a, b]) == Next(Next(m, a), b);
    assert Playable(m, [a, b]) <==> Enabled(m, a) && Enabled(Next(m, a), b);
  }

  /** It does happen: a one-click charge of unknown outcome is not listed a day
      later and is given up, and then the gateway takes the money. */
  lemma LateTakeLosesMoney(row: Settings, tariff: Tariff) returns (m: Machine, moves: seq<Move>)
    ensures m == NewMachine(true, 0, None, row, 0) && Sound(m) && Playable(m, moves)
    ensures !NothingGivenUp(Play(m, moves))
  {
    hide Ord, ApplyPayment;
    m := NewMachine(true, 0, None, row, 0);
    var day1, day3 := Moment(Date(2025, 1, 1), 0), Moment(Date(2025, 1, 3), 0);
    assert 0 < Instant(day1) && Instant(day3) == Instant(day1) + 2 * DAY by { EarlyJanuary(); }
    hide Instant;
    var unknown := Replies(Receipt(1), PayError("connection_failed"));
    var a, b, c := OneClick(true, 1000, tariff, day1, unknown, false), Reconcile(0, NotListed, tariff, day3),
          TookLate(0);
    moves := [a, b, c];
    var p := NewCharge(1000, false, None, day1).(external := Some(1));
    assert Next(m, a).s.payments == [p] && Next(m, a).unknown == {0};
    assert Next(Next(m, a), b).s.payments == [p.(status := Failed)];
    PlayThree(m, a, b, c);
  }

  lemma EarlyJanuary()
    ensures Instant(Moment(Date(2025, 1, 3), 0)) == Instant(Moment(Date(2025, 1, 1), 0)) + 2 * DAY
    ensures Instant(Moment(Date(2025, 1, 1), 0)) > 0
  {
  }

  // ---- The debt of a prepaid run ----

  predicate PrepaidMove(m: Machine, move: Move) { move.Service? ==> PrepaidStep(m.s, move.step) }

  predicate PrepaidPlay(m: Machine, moves: seq<Move>)
  {
    moves != [] ==>
      && PrepaidPlay(m, moves[..|moves| - 1])
      && PrepaidMove(Play(m, moves[..|moves| - 1]), moves[|moves| - 1])
  }

  lemma {:induction false} PaymentsTakeNoDays(s: Ledger, steps: seq<Step>)
    requires Prepaid(s) && forall i :: 0 <= i < |steps| ==> PaymentStep(steps[i])
    ensures Run(s, steps).charges == s.charges && Run(s, steps).balance >= s.balance
  {
    if steps != [] {
      hide Prepaid, PrepaidStep;
      var front, last := steps[..|steps| - 1], steps[|steps| - 1];
      PaymentsTakeNoDays(s, front);
      PaymentsOverwriteNothing(s, front);
      RunIsPrepaid(s, front);
      OnePaymentTakesNoDays(Run(s, front), last);
    }
  }

  lemma OnePaymentTakesNoDays(s: Ledger, step: Step)
    requires Prepaid(s) && PaymentStep(step)
    ensures Apply(s, step).charges == s.charges && Apply(s, step).balance >= s.balance
  {
    hide Ord, Burn, ApplyPayment;
    if step.PaymentApplied? && step.i < |s.payments| {
      if s.payments[step.i].status == Pending {
        CreditEffect(s, step.i, step.tariff, step.now);
      } else {
        NotPendingIsNoPayment(s, step.i, step.tariff, step.now);
      }
    }
  }

  lemma NotPendingIsNoPayment(s: Ledger, i: nat, tariff: Tariff, now: Moment)
    requires i < |s.payments| && s.payments[i].status != Pending
    ensures ApplyPayment(s, i, tariff, now) == s
  {
  }

  lemma MovePaysAsItGoes(m: Machine, move: Move)
    requires Prepaid(m.s) && PrepaidMove(m, move)
    ensures Prepaid(Next(m, move).s) && PaysAsItGoes(m.s, Next(m, move).s)
  {
    hide Next, Prepaid, Deducted, PrepaidStep, PrepaidRun;
    if move.Service? {
      ServiceIsApply(m, move);
      StepIsPrepaid(m.s, move.step);
    } else {
      var steps := MoveIsSteps(m, move);
      PaymentsOverwriteNothing(m.s, steps);
      RunIsPrepaid(m.s, steps);
      PaymentsTakeNoDays(m.s, steps);
      SameChargesSameDays(m.s, Next(m, move).s);
    }
  }

  lemma ServiceIsApply(m: Machine, move: Move)
    requires move.Service?
    ensures Next(m, move).s == Apply(m.s, move.step)
  {
    hide Apply;
  }

  lemma SameChargesSameDays(s: Ledger, t: Ledger)
    requires s.charges == t.charges
    ensures Deducted(s) == Deducted(t)
  {
  }

  /** What the last deduction of a run of moves took, zero if there was none. */
  function LastTaken(m: Machine, moves: seq<Move>): int
  {
    if moves == [] then 0 else
    var front := moves[..|moves| - 1];
    var days := Deducted(Play(m, moves).s) - Deducted(Play(m, front).s);
    if days > 0 then days else LastTaken(m, front)
  }

  /** Prepaid with card charges among the steps: an active company has money, and debt
      stays below what the last deduction took. */
  lemma {:induction false} DebtIsLastDay(m: Machine, moves: seq<Move>)
    requires Prepaid(m.s) && m.s.balance >= 0 && PrepaidPlay(m, moves)
    ensures Prepaid(Play(m, moves).s)
    ensures Play(m, moves).s.balance < 0 ==> 0 - Play(m, moves).s.balance < LastTaken(m, moves)
  {
    if moves != [] {
      hide Next, Prepaid, PrepaidMove, Deducted;
      var front := moves[..|moves| - 1];
      DebtIsLastDay(m, front);
      MovePaysAsItGoes(Play(m, front), moves[|moves| - 1]);
    }
  }

  // ---- From signup ----

  function NewMachine(withSubscription: bool, price: nat, trialEnds: Option<int>, row: Settings, clock: int): Machine
  {
    Machine(SignedUp(withSubscription, price, trialEnds), row, {}, {}, clock)
  }

  lemma NewMachineIsSound(withSubscription: bool, price: nat, trialEnds: Option<int>, row: Settings, clock: int)
    ensures var m := NewMachine(withSubscription, price, trialEnds, row, clock);
            && Sound(m) && NothingGivenUp(m) && OnlyTakenCredited(m)
            && Conserved(m.s) && Agrees(m.s) && Billed(m.s) && Prepaid(m.s)
  {
  }
}
