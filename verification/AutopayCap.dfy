/** The 30-day spending cap of automatic charging: when it holds, and exactly
    when an attempt puts it at risk. */
module AutopayCap {
  import opened Prelude
  import opened Calendar
  import opened Billing
  import opened BillingLaws
  import opened BillingStatus
  import opened BillingCycles
  import opened Autopay
  import opened AutopayLaws
  import opened AutopayRuns

  function WindowWeights(payments: seq<Payment>, lo: int): (w: seq<int>)
    ensures |w| == |payments|
  {
    seq(|payments|, i requires 0 <= i < |payments| =>
      var p := payments[i];
      if p.auto && p.status == Approved && p.approvedAt.Some? && lo <= p.approvedAt.value <= lo + WINDOW
      then p.amount else 0)
  }

  /** Automatic payments approved in the 30 days that start at `lo`. */
  function ApprovedIn(payments: seq<Payment>, lo: int): int { Sum(WindowWeights(payments, lo)) }

  predicate OpenAuto(p: Payment) { p.auto && p.status == Pending }

  function OpenWeights(payments: seq<Payment>): (w: seq<int>)
    ensures |w| == |payments|
  {
    seq(|payments|, i requires 0 <= i < |payments| => if OpenAuto(payments[i]) then payments[i].amount else 0)
  }

  /** What automatic charges of unknown outcome may still turn out to have cost. */
  function OpenTotal(payments: seq<Payment>): int { Sum(OpenWeights(payments)) }

  ghost predicate WithinLimit(payments: seq<Payment>, limit: int)
  {
    forall lo :: ApprovedIn(payments, lo) <= limit
  }

  predicate ApprovedBy(payments: seq<Payment>, clock: int)
  {
    forall i :: 0 <= i < |payments| && payments[i].auto && payments[i].status == Approved
          && payments[i].approvedAt.Some?
      ==> payments[i].approvedAt.value <= clock
  }

  /** No window holds more than the limit, and what was approved in the last 30
      days leaves room for everything still open. */
  ghost predicate Capped(payments: seq<Payment>, clock: int, limit: int)
  {
    && WithinLimit(payments, limit)
    && ApprovedBy(payments, clock)
    && SpentSince(payments, clock - WINDOW) + OpenTotal(payments) <= limit
  }

  lemma WeightUpdate(payments: seq<Payment>, i: nat, p: Payment, lo: int)
    requires i < |payments|
    ensures ApprovedIn(payments[i := p], lo)
          == ApprovedIn(payments, lo) - WindowWeights(payments, lo)[i] + WindowWeights([p], lo)[0]
    ensures OpenTotal(payments[i := p]) == OpenTotal(payments) - OpenWeights(payments)[i] + OpenWeights([p])[0]
    ensures SpentSince(payments[i := p], lo)
          == SpentSince(payments, lo) - AutoWeights(payments, lo)[i] + AutoWeights([p], lo)[0]
  {
    assert WindowWeights(payments[i := p], lo) == WindowWeights(payments, lo)[i := WindowWeights([p], lo)[0]];
    SumUpdate(WindowWeights(payments, lo), i, WindowWeights([p], lo)[0]);
    assert AutoWeights(payments[i := p], lo) == AutoWeights(payments, lo)[i := AutoWeights([p], lo)[0]];
    SumUpdate(AutoWeights(payments, lo), i, AutoWeights([p], lo)[0]);
    assert OpenWeights(payments[i := p]) == OpenWeights(payments)[i := OpenWeights([p])[0]];
    SumUpdate(OpenWeights(payments), i, OpenWeights([p])[0]);
  }

  lemma WeightAppend(payments: seq<Payment>, p: Payment, lo: int)
    ensures ApprovedIn(payments + [p], lo) == ApprovedIn(payments, lo) + WindowWeights([p], lo)[0]
    ensures OpenTotal(payments + [p]) == OpenTotal(payments) + OpenWeights([p])[0]
    ensures SpentSince(payments + [p], lo) == SpentSince(payments, lo) + AutoWeights([p], lo)[0]
  {
    assert WindowWeights(payments + [p], lo) == WindowWeights(payments, lo) + [WindowWeights([p], lo)[0]];
    SumAppend(WindowWeights(payments, lo), WindowWeights([p], lo)[0]);
    assert AutoWeights(payments + [p], lo) == AutoWeights(payments, lo) + [AutoWeights([p], lo)[0]];
    SumAppend(AutoWeights(payments, lo), AutoWeights([p], lo)[0]);
    assert OpenWeights(payments + [p]) == OpenWeights(payments) + [OpenWeights([p])[0]];
    SumAppend(OpenWeights(payments), OpenWeights([p])[0]);
  }

  /** The sliding-window step: a window that reaches `lo2` or later holds no more
      than everything spent since `lo`, when lo <= lo2. */
  lemma WindowInsideSpent(payments: seq<Payment>, lo: int, lo2: int)
    requires lo <= lo2
    ensures ApprovedIn(payments, lo2) <= SpentSince(payments, lo)
    ensures SpentSince(payments, lo2) <= SpentSince(payments, lo)
  {
    SumMonotone(WindowWeights(payments, lo2), AutoWeights(payments, lo));
    SumMonotone(AutoWeights(payments, lo2), AutoWeights(payments, lo));
  }

  lemma OpenCoversEach(payments: seq<Payment>, i: nat)
    requires i < |payments| && OpenAuto(payments[i])
    ensures OpenTotal(payments) >= payments[i].amount
  {
    SumUpdate(OpenWeights(payments), i, 0);
    SumZeroIff(OpenWeights(payments)[i := 0]);
  }

  lemma OpenNatural(payments: seq<Payment>)
    ensures OpenTotal(payments) >= 0
  {
    SumZeroIff(OpenWeights(payments));
  }

  // ---- The cap, said by what could still happen ----

  /** Every open automatic charge found paid, all at once. */
  function ApproveOpen(payments: seq<Payment>, now: int): (r: seq<Payment>)
    ensures |r| == |payments|
  {
    seq(|payments|, i requires 0 <= i < |payments| =>
      if OpenAuto(payments[i]) then payments[i].(status := Approved, approvedAt := Some(now)) else payments[i])
  }

  lemma ApproveOpenWeights(payments: seq<Payment>, now: int, lo: int)
    ensures ApprovedIn(ApproveOpen(payments, now), lo)
         == ApprovedIn(payments, lo) + if lo <= now <= lo + WINDOW then OpenTotal(payments) else 0
  {
    var after := ApproveOpen(payments, now);
    if lo <= now <= lo + WINDOW {
      SumPointwise(WindowWeights(payments, lo), OpenWeights(payments), WindowWeights(after, lo));
    } else {
      assert WindowWeights(after, lo) == WindowWeights(payments, lo);
    }
  }

  /** The cap is safe exactly when it would survive every open charge turning out
      to be paid right now. */
  lemma CappedIff(payments: seq<Payment>, now: int, limit: int)
    requires ApprovedBy(payments, now)
    ensures WithinLimit(ApproveOpen(payments, now), limit)
       <==> WithinLimit(payments, limit) && SpentSince(payments, now - WINDOW) + OpenTotal(payments) <= limit
  {
    hide Sum, ApprovedIn, SpentSince, OpenTotal, ApproveOpen;
    var after := ApproveOpen(payments, now);
    OpenNatural(payments);
    if WithinLimit(after, limit) {
      forall lo ensures ApprovedIn(payments, lo) <= limit {
        ApproveOpenWeights(payments, now, lo);
        assert ApprovedIn(after, lo) <= limit;
      }
      ApproveOpenWeights(payments, now, now - WINDOW);
      assert ApprovedIn(after, now - WINDOW) <= limit;
      SpentIsTheLastWindow(payments, now);
    } else {
      var lo :| ApprovedIn(after, lo) > limit;
      ApproveOpenWeights(payments, now, lo);
      if WithinLimit(payments, limit) {
        assert ApprovedIn(payments, lo) <= limit;
        WindowInsideSpent(payments, now - WINDOW, lo);
      }
    }
  }

  lemma SpentIsTheLastWindow(payments: seq<Payment>, now: int)
    requires ApprovedBy(payments, now)
    ensures ApprovedIn(payments, now - WINDOW) == SpentSince(payments, now - WINDOW)
  {
    assert WindowWeights(payments, now - WINDOW) == AutoWeights(payments, now - WINDOW);
  }

  // ---- What keeps it ----

  /** Approving an open charge, however late, keeps every window under the limit. */
  lemma ApprovalKeepsCap(payments: seq<Payment>, clock: int, limit: int, i: nat, p: Payment, now: int)
    requires Capped(payments, clock, limit) && now >= clock
    requires i < |payments| && OpenAuto(payments[i])
    requires p == payments[i].(status := Approved, approvedAt := Some(now))
    ensures Capped(payments[i := p], now, limit)
  {
    hide Sum, ApprovedIn, SpentSince, OpenTotal;
    var after := payments[i := p];
    OpenCoversEach(payments, i);
    forall lo ensures ApprovedIn(after, lo) <= limit {
      WeightUpdate(payments, i, p, lo);
      assert ApprovedIn(payments, lo) <= limit;
      if lo <= now <= lo + WINDOW {
        WindowInsideSpent(payments, clock - WINDOW, lo);
      }
    }
    WeightUpdate(payments, i, p, now - WINDOW);
    WindowInsideSpent(payments, clock - WINDOW, now - WINDOW);
  }

  /** Changing a row to one that weighs no more keeps the cap. */
  lemma LighterRowKeepsCap(payments: seq<Payment>, clock: int, limit: int, i: nat, p: Payment)
    requires Capped(payments, clock, limit) && i < |payments|
    requires p.auto == payments[i].auto && p.amount == payments[i].amount && p.status != Pending
    requires p.auto ==> p.status != Approved
    ensures Capped(payments[i := p], clock, limit)
  {
    hide Sum, ApprovedIn, SpentSince, OpenTotal;
    var after := payments[i := p];
    forall lo ensures ApprovedIn(after, lo) <= limit {
      WeightUpdate(payments, i, p, lo);
      assert ApprovedIn(payments, lo) <= limit;
    }
    WeightUpdate(payments, i, p, clock - WINDOW);
  }

  /** A later clock keeps the cap. */
  lemma CapKeepsWithTime(payments: seq<Payment>, clock: int, limit: int, later: int)
    requires Capped(payments, clock, limit) && clock <= later
    ensures Capped(payments, later, limit)
  {
    hide ApprovedIn, SpentSince, OpenTotal;
    WindowInsideSpent(payments, clock - WINDOW, later - WINDOW);
  }

  lemma OtherRowKeepsCap(payments: seq<Payment>, clock: int, limit: int, p: Payment)
    requires Capped(payments, clock, limit) && !p.auto
    ensures Capped(payments + [p], clock, limit)
  {
    hide Sum, ApprovedIn, SpentSince, OpenTotal;
    var after := payments + [p];
    forall lo ensures ApprovedIn(after, lo) <= limit {
      WeightAppend(payments, p, lo);
      assert ApprovedIn(payments, lo) <= limit;
    }
    WeightAppend(payments, p, clock - WINDOW);
  }

  /** A new automatic charge leaves the cap safe exactly when it fits, on top of
      everything spent in 30 days and everything still open. */
  lemma NewChargeCap(payments: seq<Payment>, clock: int, limit: int, p: Payment)
    requires WithinLimit(payments, limit) && ApprovedBy(payments, clock)
    requires p.auto && (p.status == Approved ==> p.approvedAt == Some(clock))
    requires p.status == Approved || p.status == Pending || p.status == Failed
    ensures Capped(payments + [p], clock, limit)
       <==> SpentSince(payments, clock - WINDOW) + OpenTotal(payments)
             + (if p.status == Failed then 0 else p.amount) <= limit
  {
    hide Sum, ApprovedIn, SpentSince, OpenTotal;
    var after := payments + [p];
    WeightAppend(payments, p, clock - WINDOW);
    OpenNatural(payments);
    if SpentSince(payments, clock - WINDOW) + OpenTotal(payments)
          + (if p.status == Failed then 0 else p.amount) <= limit {
      forall lo ensures ApprovedIn(after, lo) <= limit {
        WeightAppend(payments, p, lo);
        assert ApprovedIn(payments, lo) <= limit;
        if lo <= clock <= lo + WINDOW {
          WindowInsideSpent(payments, clock - WINDOW, lo);
        }
      }
    }
  }

  ghost predicate CapState(m: Machine, limit: nat) { Capped(m.s.payments, m.clock, limit) }

  lemma ServiceKeepsCap(m: Machine, move: Move, limit: nat)
    requires CapState(m, limit) && Enabled(m, move) && move.Service?
    ensures CapState(Next(m, move), limit)
  {
    hide Ord, Instant, Capped, Apply, OpenAuto;
    var payments, step := m.s.payments, move.step;
    ServiceRow(m.s, step);
    CapKeepsWithTime(payments, m.clock, limit, move.at);
    match ServiceChange(m.s, step)
    case NoChange =>
    case Appended(p) => OtherRowKeepsCap(payments, move.at, limit, p);
    case Updated(i, p) => UpdateKeepsCap(payments, m.clock, limit, i, p, move.at);
  }

  /** Any change of one row's status made by the services. */
  lemma UpdateKeepsCap(payments: seq<Payment>, clock: int, limit: int, i: nat, p: Payment, now: int)
    requires Capped(payments, clock, limit) && now >= clock && i < |payments|
    requires || (payments[i].status == Pending && p == payments[i].(status := Approved, approvedAt := Some(now)))
             || (payments[i].status == Pending
                   && (p == payments[i].(status := Failed) || p == payments[i].(status := Rejected)))
             || (payments[i].status == Approved && p == payments[i].(status := Rejected))
    ensures Capped(payments[i := p], now, limit)
  {
    hide Capped;
    CapKeepsWithTime(payments, clock, limit, now);
    if payments[i].auto && p.status == Approved {
      ApprovalKeepsCap(payments, now, limit, i, p, now);
    } else {
      LighterRowKeepsCap(payments, now, limit, i, p);
    }
  }

  // ---- Exactly when an attempt keeps it ----

  /** The attempt will get past every check and make a charge. */
  predicate WouldCharge(m: Machine, tariff: Tariff, now: Moment)
  {
    Refusal(m.s, m.row, MakeQuote(m.s, m.row, tariff, now), now).None? && !KeyTaken(m.s.payments, Ord(now.date))
  }

  /** What a sweep is about to commit, were every open charge found paid. */
  function Exposure(m: Machine, tariff: Tariff, now: Moment): int
  {
    SpentSince(m.s.payments, Instant(now) - WINDOW) + OpenTotal(m.s.payments)
    + if WouldCharge(m, tariff, now) then MakeQuote(m.s, m.row, tariff, now).amount else 0
  }

  /** A sweep that charges has room for it; read before the attempt. */
  predicate Roomy(m: Machine, move: Move, limit: nat)
  {
    move.Sweep? && WouldCharge(m, move.tariff, move.now) ==> Exposure(m, move.tariff, move.now) <= limit
  }

  lemma ChargesWhenItWould(m: Machine, tariff: Tariff, now: Moment, r: Replies)
    ensures var t, q := Attempt(m.s, m.row, tariff, now, r).0, MakeQuote(m.s, m.row, tariff, now);
            if WouldCharge(m, tariff, now)
            then q.amount >= MIN_AMOUNT
                 && t.payments == m.s.payments + [FinalRow(NewCharge(q.amount, true, Some(Ord(now.date)), now), r, now)]
            else t == m.s
  {
    hide Ord, Instant, SpentSince, LimitInForce, ApplyPayment, Burn, KeyTaken;
    var q := MakeQuote(m.s, m.row, tariff, now);
    AttemptRow(m.s, m.row, tariff, now, r);
    if WouldCharge(m, tariff, now) {
      var charged := m.s.(payments := m.s.payments
            + [Answered(NewCharge(q.amount, true, Some(Ord(now.date)), now), r)]);
      ApplyPaymentRow(charged, |m.s.payments|, tariff, now);
    }
  }

  /** A sweep that is not declined leaves the cap safe exactly when it has room. */
  lemma SweepKeepsCapIff(m: Machine, move: Move, limit: nat)
    requires CapState(m, limit) && Enabled(m, move) && move.Sweep?
    ensures CapState(Next(m, move), limit) <==> Judge(move.replies).Declined? || Roomy(m, move, limit)
  {
    hide Ord, Instant, SpentSince, OpenTotal, Attempt, ApprovedIn, MakeQuote, WouldCharge, WithinLimit, ApprovedBy;
    var now := move.now;
    CapKeepsWithTime(m.s.payments, m.clock, limit, Instant(now));
    ChargesWhenItWould(m, move.tariff, now, move.replies);
    if WouldCharge(m, move.tariff, now) {
      NewChargeCap(m.s.payments, Instant(now), limit,
                   FinalRow(NewCharge(MakeQuote(m.s, m.row, move.tariff, now).amount, true, Some(Ord(now.date)), now),
                            move.replies, now));
    }
  }

  lemma MoveKeepsCap(m: Machine, move: Move, limit: nat)
    requires CapState(m, limit) && Enabled(m, move) && Roomy(m, move, limit)
    ensures CapState(Next(m, move), limit)
  {
    hide Ord, Instant, Attempt, ChargeSavedCard, Apply, ApplyPayment, SpentSince, ApprovedIn, Capped, Roomy;
    match move
    case Service(step, at) => ServiceKeepsCap(m, move, limit);
    case Sweep(_, _, _, _) => SweepKeepsCapIff(m, move, limit);
    case OneClick(usable, amount, tariff, now, replies, takes) =>
      ChargeRow(m.s, usable, amount, false, None, tariff, now, replies);
      CapKeepsWithTime(m.s.payments, m.clock, limit, Instant(now));
      if amount >= 0 {
        OtherRowKeepsCap(m.s.payments, Instant(now), limit,
              FinalRow(NewCharge(amount, false, None, now), replies, now));
      }
    case Reconcile(i, reply, tariff, now) =>
      if i < |m.s.payments| {
        ApplyPaymentRow(m.s, i, tariff, now);
        CapKeepsWithTime(m.s.payments, m.clock, limit, Instant(now));
        if m.s.payments[i].status == Pending {
          UpdateKeepsCap(m.s.payments, m.clock, limit, i, ApprovedRow(m.s.payments[i], now), Instant(now));
          UpdateKeepsCap(m.s.payments, m.clock, limit, i, m.s.payments[i].(status := Failed), Instant(now));
        }
      }
    case _ =>
  }

  predicate RoomyPlay(m: Machine, moves: seq<Move>, limit: nat)
  {
    moves != [] ==>
      && RoomyPlay(m, moves[..|moves| - 1], limit)
      && Roomy(Play(m, moves[..|moves| - 1]), moves[|moves| - 1], limit)
  }

  /** Over every run whose charging sweeps have room, whatever the settings, no 30
      days hold more than the limit, late approvals included. */
  lemma {:induction false} CapHoldsWithRoom(m: Machine, moves: seq<Move>, limit: nat)
    requires CapState(m, limit) && Playable(m, moves) && RoomyPlay(m, moves, limit)
    ensures CapState(Play(m, moves), limit)
  {
    if moves != [] {
      hide CapState, Roomy, Next;
      CapHoldsWithRoom(m, moves[..|moves| - 1], limit);
      MoveKeepsCap(Play(m, moves[..|moves| - 1]), moves[|moves| - 1], limit);
    }
  }

  /** What the code's own checks need to give that room: at each sweep the company's own
      limit, or two months of all seats if it chose none, is at most `limit`, and no
      charge is left open past its hold. */
  predicate Timely(m: Machine, move: Move, limit: nat)
  {
    match move
    case Sweep(tariff, now, _, _) =>
      && (if m.row.limit.Some? && m.row.limit.value > 0 then m.row.limit.value
          else 2 * |tariff.operators| * tariff.price) <= limit
      && forall i :: 0 <= i < |m.s.payments| && OpenAuto(m.s.payments[i])
                     ==> m.s.payments[i].created >= Instant(now) - PENDING_HOLD
    case _ => true
  }

  lemma TimelyIsRoomy(m: Machine, move: Move, limit: nat)
    requires Timely(m, move, limit)
    ensures Roomy(m, move, limit)
  {
    hide Ord, Instant, SpentSince, Burn, LimitInForce, KeyTaken, Sum;
    if move.Sweep? && WouldCharge(m, move.tariff, move.now) {
      DefaultLimit(m.row, move.tariff);
      assert !Held(m.s.payments, move.now);
      SumZero(OpenWeights(m.s.payments));
    }
  }

  predicate TimelyPlay(m: Machine, moves: seq<Move>, limit: nat)
  {
    moves != [] ==>
      && TimelyPlay(m, moves[..|moves| - 1], limit)
      && Timely(Play(m, moves[..|moves| - 1]), moves[|moves| - 1], limit)
  }

  lemma {:induction false} TimelyPlayIsRoomy(m: Machine, moves: seq<Move>, limit: nat)
    requires TimelyPlay(m, moves, limit)
    ensures RoomyPlay(m, moves, limit)
  {
    if moves != [] {
      hide Timely, Roomy, Play;
      TimelyPlayIsRoomy(m, moves[..|moves| - 1], limit);
      TimelyIsRoomy(Play(m, moves[..|moves| - 1]), moves[|moves| - 1], limit);
    }
  }

  /** The cap: with no charge left open past its hold, the automatic payments
      approved in any 30 days never exceed the highest limit in force at a sweep,
      payments approved late by reconciliation included. */
  lemma CapHolds(m: Machine, moves: seq<Move>, limit: nat)
    requires CapState(m, limit) && Playable(m, moves) && TimelyPlay(m, moves, limit)
    ensures CapState(Play(m, moves), limit)
    ensures forall lo :: ApprovedIn(Play(m, moves).s.payments, lo) <= limit
  {
    hide Play, Playable, TimelyPlay, ApprovedIn;
    TimelyPlayIsRoomy(m, moves, limit);
    CapHoldsWithRoom(m, moves, limit);
  }

  /** Every sweep finds a limit of the company's own, of at most `limit`, and no charge
      open past its three-day hold. */
  predicate ChosenPlay(m: Machine, moves: seq<Move>, limit: nat)
  {
    moves != [] ==>
      && ChosenPlay(m, moves[..|moves| - 1], limit)
      && var before, last := Play(m, moves[..|moves| - 1]), moves[|moves| - 1];
         last.Sweep? ==>
           && before.row.limit.Some? && 0 < before.row.limit.value <= limit
           && forall i :: 0 <= i < |before.s.payments| && OpenAuto(before.s.payments[i])
                          ==> before.s.payments[i].created >= Instant(last.now) - 3 * 86400
  }

  lemma {:induction false} ChosenPlayIsTimely(m: Machine, moves: seq<Move>, limit: nat)
    requires ChosenPlay(m, moves, limit)
    ensures TimelyPlay(m, moves, limit)
  {
    if moves != [] {
      hide Play, Instant;
      ChosenPlayIsTimely(m, moves[..|moves| - 1], limit);
    }
  }

  /** So a company that chose a limit is charged within it in every 30 days. */
  lemma CapHoldsAtTheChosenLimit(m: Machine, moves: seq<Move>, limit: nat)
    requires m.s.payments == [] && Playable(m, moves) && ChosenPlay(m, moves, limit)
    ensures forall lo :: ApprovedIn(Play(m, moves).s.payments, lo) <= limit
  {
    hide Play, Playable, ChosenPlay, TimelyPlay, ApprovedIn;
    NothingSpentYet(m, limit);
    ChosenPlayIsTimely(m, moves, limit);
    CapHolds(m, moves, limit);
  }

  // ---- Exactly when it breaks ----

  /** The register lists every charge of unknown outcome as paid. */
  function AllPaid(s: Ledger, tariff: Tariff, now: Moment): Ledger
  {
    ReconcileUpto(s, |s.payments|, i => Listed, tariff, now)
  }

  lemma AllPaidIsApproveOpen(s: Ledger, tariff: Tariff, now: Moment, lo: int)
    requires Recorded(s.payments) && forall i :: 0 <= i < |s.payments| && s.payments[i].auto ==> s.payments[i].card
    ensures ApprovedIn(AllPaid(s, tariff, now).payments, lo) == ApprovedIn(ApproveOpen(s.payments, Instant(now)), lo)
  {
    hide Instant, ReconcileUpto;
    ReconcileRows(s, |s.payments|, i => Listed, tariff, now);
    assert WindowWeights(AllPaid(s, tariff, now).payments, lo)
          == WindowWeights(ApproveOpen(s.payments, Instant(now)), lo);
  }

  /** The cap fails exactly when a sweep commits too much. Take any state under the
      limit and any sweep the gateway does not decline, and let the gateway then
      confirm everything that is open: the windows stay within the limit exactly
      when the 30-day spend, the open charges and the new charge did together. */
  lemma CapSurvivesIff(m: Machine, move: Move, limit: nat)
    requires Sound(m) && Enabled(m, move) && move.Sweep? && !Judge(move.replies).Declined?
    requires WithinLimit(m.s.payments, limit) && ApprovedBy(m.s.payments, m.clock)
    ensures WithinLimit(AllPaid(Next(m, move).s, move.tariff, move.now).payments, limit)
       <==> Exposure(m, move.tariff, move.now) <= limit
  {
    hide Ord, Instant, SpentSince, OpenTotal, Attempt, ApprovedIn, MakeQuote, WouldCharge, AllPaid, ApproveOpen,
          Enabled, Next;
    var now, t := move.now, Next(m, move).s;
    assert Instant(now) >= m.clock
          && t == Attempt(m.s, m.row, move.tariff, now, move.replies).0 by { SweepIsAttempt(m, move); }
    MoveIsSound(m, move);
    ChargesWhenItWould(m, move.tariff, now, move.replies);
    if WouldCharge(m, move.tariff, now) {
      var p := FinalRow(NewCharge(MakeQuote(m.s, m.row, move.tariff, now).amount, true, Some(Ord(now.date)), now),
            move.replies, now);
      NewChargeCap(m.s.payments, Instant(now), limit, p);
      assert ApprovedBy(t.payments, Instant(now));
    }
    CappedIff(t.payments, Instant(now), limit);
    forall lo ensures ApprovedIn(AllPaid(t, move.tariff, now).payments, lo)
          == ApprovedIn(ApproveOpen(t.payments, Instant(now)), lo) {
      AllPaidIsApproveOpen(t, move.tariff, now, lo);
    }
    assert WithinLimit(AllPaid(t, move.tariff, now).payments, limit)
      <==> WithinLimit(ApproveOpen(t.payments, Instant(now)), limit);
  }

  lemma SweepIsAttempt(m: Machine, move: Move)
    requires move.Sweep? && Enabled(m, move)
    ensures Instant(move.now) >= m.clock
          && Next(m, move).s == Attempt(m.s, m.row, move.tariff, move.now, move.replies).0
  {
    hide Attempt, Instant;
  }

  /** It does break, from signup: a charge of 31000 is left open past its three-day
      hold, so the next attempt charges 31000 again; when reconciliation then finds
      the first one paid, 62000 were approved in one window under a limit of 31000. */
  lemma ChargeOpenPastItsHoldBreaksTheCap() returns (m: Machine, moves: seq<Move>)
    ensures m == NewMachine(true, 31000, None, Settings(true, true, None, Some(31000), 0, Never, "", ""), 0)
    ensures CapState(m, 31000) && Sound(m) && Playable(m, moves)
    ensures exists lo :: ApprovedIn(Play(m, moves).s.payments, lo) == 62000
  {
    hide Ord, Instant, Next, ApprovedIn, Capped, Run, Burn;
    var tariff := Tariff(["operator"], 31000);
    var day1, day5 := Moment(Date(2025, 1, 1), 0), Moment(Date(2025, 1, 5), 0);
    DaysInJanuary();
    m := NewMachine(true, 31000, None, Settings(true, true, None, Some(31000), 0, Never, "", ""), 0);
    var unknown := Replies(Receipt(1), PayError("connection_failed"));
    var confirmed := Replies(Receipt(2), PayOk(true));
    var open := Service(Activated(tariff, day1), 0);
    var a, b, c := Sweep(tariff, day1, unknown, true), Sweep(tariff, day5, confirmed, true),
          Reconcile(0, Listed, tariff, day5);
    moves := [open, a, b, c];

    var m0 := OpenedByHand(m, tariff, day1);
    var m1, p := FirstCharge(m0, tariff, day1, unknown);
    var m2, q := SecondCharge(m1, p, tariff, day5, confirmed);
    var m3 := Next(m2, c);
    LateApproval(m2, 0, tariff, day5);
    assert m3.s.payments == [ApprovedRow(p, day5), q];
    PlayFour(m, open, a, b, c);
    SumOfTwo(ApprovedRow(p, day5), q, Instant(day5));
    NothingSpentYet(m, 31000);
  }

  lemma NothingSpentYet(m: Machine, limit: nat)
    requires m.s.payments == []
    ensures CapState(m, limit)
  {
  }

  lemma OpenedByHand(m: Machine, tariff: Tariff, now: Moment) returns (n: Machine)
    requires m.s.company == CompanyTrial && m.s.sub.Some? && m.s.sub.value.status == SubTrial && m.clock == 0
    ensures n == Next(m, Service(Activated(tariff, now), 0))
    ensures n.s.company == CompanyActive && n.s.balance == m.s.balance && n.s.payments == m.s.payments
    ensures n.row == m.row && n.taken == m.taken && n.clock == m.clock
  {
    n := Next(m, Service(Activated(tariff, now), 0));
  }

  lemma PlayFour(m: Machine, z: Move, a: Move, b: Move, c: Move)
    ensures Play(m, [z, a, b, c]) == Next(Next(Next(Next(m, z), a), b), c)
    ensures Playable(m, [z, a, b, c]) <==>
              Enabled(m, z) && Enabled(Next(m, z), a) && Enabled(Next(Next(m, z), a), b)
                    && Enabled(Next(Next(Next(m, z), a), b), c)
  {
    hide Next, Enabled;
    PlayThree(m, z, a, b);
    assert [z, a, b, c][..3] == [z, a, b];
  }

  lemma LateApproval(m: Machine, i: nat, tariff: Tariff, now: Moment)
    requires i < |m.s.payments| && Unresolved(m.s.payments[i])
    ensures Next(m, Reconcile(i, Listed, tariff, now)).s.payments
          == m.s.payments[i := ApprovedRow(m.s.payments[i], now)]
  {
    hide ApplyPayment;
    ApplyPaymentRow(m.s, i, tariff, now);
  }

  lemma SumOfTwo(p: Payment, q: Payment, at: int)
    requires p.auto && q.auto && p.status == q.status == Approved && p.approvedAt == q.approvedAt == Some(at)
    ensures ApprovedIn([p, q], at) == p.amount + q.amount
  {
    var w := WindowWeights([p, q], at);
    assert w == [p.amount] + [q.amount];
    SumConcat([p.amount], [q.amount]);
    assert [p.amount][..0] == [] && [q.amount][..0] == [];
  }

  lemma DaysInJanuary()
    ensures Instant(Moment(Date(2025, 1, 5), 0)) == Instant(Moment(Date(2025, 1, 1), 0)) + 4 * DAY
    ensures Instant(Moment(Date(2025, 1, 1), 0)) > 0
    ensures Ord(Date(2025, 1, 1)) != Ord(Date(2025, 1, 5))
    ensures Burn(Tariff(["operator"], 31000), Date(2025, 1, 1)) == 1000
    ensures Burn(Tariff(["operator"], 31000), Date(2025, 1, 5)) == 1000
  {
  }

  lemma FirstCharge(m: Machine, tariff: Tariff, now: Moment, r: Replies) returns (n: Machine, p: Payment)
    requires m.s.balance == 0 && m.s.company == CompanyActive && m.s.payments == [] && m.clock == 0 && m.taken == {}
    requires m.row == Settings(true, true, None, Some(31000), 0, Never, "", "")
    requires tariff == Tariff(["operator"], 31000) && Burn(tariff, now.date) == 1000
    requires r == Replies(Receipt(1), PayError("connection_failed")) && Instant(now) > 0
    ensures n == Next(m, Sweep(tariff, now, r, true))
    ensures n.s == m.s.(payments := [p]) && n.taken == {0} && n.clock == Instant(now)
    ensures n.row.enabled && n.row.card && n.row.fixed == None && n.row.limit == Some(31000)
    ensures p == Payment(31000, Pending, true, true, Instant(now), None, Some(Ord(now.date)), Some(1))
  {
    hide Ord, Instant, Burn;
    n := Next(m, Sweep(tariff, now, r, true));
    assert SpentSince([], Instant(now) - WINDOW) == 0;
    p := n.s.payments[0];
  }

  lemma SecondCharge(m: Machine, p: Payment, tariff: Tariff, now: Moment, r: Replies) returns (n: Machine, q: Payment)
    requires m.s.balance == 0 && m.s.company == CompanyActive && m.s.payments == [p] && m.taken == {0}
          && m.clock < Instant(now)
    requires m.row.enabled && m.row.card && m.row.fixed == None && m.row.limit == Some(31000)
    requires p.amount == 31000 && p.auto && p.card && p.status == Pending && p.approvedAt == None
    requires p.created < Instant(now) - PENDING_HOLD && p.key.Some? && p.key.value != Ord(now.date)
    requires tariff == Tariff(["operator"], 31000) && Burn(tariff, now.date) == 1000
    requires r == Replies(Receipt(2), PayOk(true))
    ensures n == Next(m, Sweep(tariff, now, r, true))
    ensures n.s.payments == [p, q] && n.taken == {0, 1} && n.clock == Instant(now)
    ensures q.amount == 31000 && q.auto && q.status == Approved && q.approvedAt == Some(Instant(now))
  {
    hide Ord, Instant, Burn, ApplyPayment;
    n := Next(m, Sweep(tariff, now, r, true));
    SumZero(AutoWeights([p], Instant(now) - WINDOW));
    assert SpentSince([p], Instant(now) - WINDOW) == 0;
    var row := Answered(NewCharge(31000, true, Some(Ord(now.date)), now), r);
    ApplyPaymentRow(m.s.(payments := [p] + [row]), 1, tariff, now);
    q := ApprovedRow(row, now);
    assert ([p] + [row])[1 := q] == [p, q];
  }

  // ---- From signup ----

  /** From signup, over every run against an honest gateway: the money adds up, each
      day is billed once and the statuses go forward; they agree throughout exactly
      when nobody overwrote the company; automatic charges are of different days, and
      credited means taken throughout exactly when nobody approved an untaken charge;
      taken money is written off exactly when one of three moves did it; an active
      company of a prepaid run has money and debt stays below the last deduction; and
      while no charge is left open past its hold no 30 days exceed the highest limit
      in force. */
  lemma PlaysFromSignup(withSubscription: bool, price: nat, trialEnds: Option<int>, row: Settings, clock: int,
                        moves: seq<Move>, limit: nat)
    requires Playable(NewMachine(withSubscription, price, trialEnds, row, clock), moves)
    ensures var start := NewMachine(withSubscription, price, trialEnds, row, clock);
            var m := Play(start, moves);
            && m.s.balance == ApprovedTotal(m.s) - Deducted(m.s) - Taken(m.s)
            && Billed(m.s) && StatusStep(start.s, m.s)
            && (NeverOverwrittenPlay(start, moves) <==>
                  forall k :: 0 <= k <= |moves| ==> Agrees(Play(start, moves[..k]).s))
            && DifferentDays(m.s.payments)
            && (NeverCreditsUntaken(start, moves) <==>
                  forall k :: 0 <= k <= |moves| ==> OnlyTakenCredited(Play(start, moves[..k])))
            && (NothingGivenUp(m) <==> NeverWritesOff(start, moves))
            && (PrepaidPlay(start, moves) ==>
                  && (m.s.company == CompanyActive ==> m.s.balance > 0)
                  && (m.s.balance < 0 ==> 0 - m.s.balance < LastTaken(start, moves)))
            && (TimelyPlay(start, moves, limit) ==> WithinLimit(m.s.payments, limit))
  {
    hide Play, Playable, NeverWritesOff, NothingGivenUp, TimelyPlay, NewMachine, ApprovedIn, Billed, Agrees, LastTaken,
         DifferentDays, OnlyTakenCredited, KeyedByDay, Recorded, PrepaidPlay, NeverOverwrittenPlay, NeverCreditsUntaken,
         StatusStep, SoundRows;
    var start := NewMachine(withSubscription, price, trialEnds, row, clock);
    NewMachineIsSound(withSubscription, price, trialEnds, row, clock);
    NewMachineIsEmpty(withSubscription, price, trialEnds, row, clock);
    LedgerLawsWithCards(start, moves);
    StatusesAgreeWithCards(start, moves);
    OneChargeADay(start, moves);
    OnlyTakenMoneyIsCredited(start, moves);
    TakenMoneyIsNeverWrittenOff(start, moves);
    if PrepaidPlay(start, moves) {
      DebtIsLastDay(start, moves);
    }
    if TimelyPlay(start, moves, limit) {
      NothingSpentYet(start, limit);
      CapHolds(start, moves, limit);
    }
  }

  lemma NewMachineIsEmpty(withSubscription: bool, price: nat, trialEnds: Option<int>, row: Settings, clock: int)
    ensures var m := NewMachine(withSubscription, price, trialEnds, row, clock);
            m.s.payments == [] && m.s.balance == 0
  {
  }
}
