/** Remote dial commands: how acks, status frames and expiry move one command,
    and the limit on how often commands are sent. */
module Dial {
  import opened Prelude

  const ACK_TIMEOUT := 60

  datatype Status = Sent | Received | Rejected | Dialing | Active | Disconnected | Failed | Expired | Offline

  const REJECT_REASONS: set<string> :=
    {"permission_denied", "invalid_number", "another_call_active", "sim_disabled", "duplicate",
     "feature_disabled", "user_declined", "timeout", "expired", "rate_limited"}

  const SIM_MODES: set<string> := {"auto", "device_picker"}

  const CAUSES: set<string> := {"answered", "no_answer", "rejected", "busy", "failed"}

  predicate Terminal(s: Status) { s == Rejected || s == Disconnected || s == Failed || s == Offline }

  /** Progress of a status that is not final. */
  function Rank(s: Status): nat
  {
    match s
    case Received => 1
    case Dialing => 2
    case Active => 3
    case _ => 0
  }

  // ---- Frames from the phone ----

  /** A missing or non-integer field is None. A boolean is an integer in Python:
      as a slot it reads as 0 or 1, but as a duration it is turned away. */
  datatype Frame =
    | Ack(answer: string, simMode: string, simSlot: Option<int>, reason: string)
    | State(state: string, duration: Option<int>, cause: string)

  /** The status a frame asks for; a frame that names none is ignored. */
  function Target(f: Frame): Option<Status>
  {
    match f
    case Ack(answer, _, _, _) =>
      if answer == "received" then Some(Received)
      else if answer == "rejected" then Some(Rejected)
      else None
    case State(state, _, _) =>
      if state == "dialing" then Some(Dialing)
      else if state == "active" then Some(Active)
      else if state == "disconnected" then Some(Disconnected)
      else if state == "failed" then Some(Failed)
      else None
  }

  datatype Command = Command(status: Status, created: int, acked: Option<int>, rejectReason: string,
                             simMode: string, simSlot: Option<int>, duration: Option<int>, cause: string)

  /** Whether a command moves to `to`: never from a final status, never backwards. */
  predicate Advances(from: Status, to: Status)
  {
    !Terminal(from) && (Terminal(to) || Rank(to) > Rank(from))
  }

  function ApplyAck(c: Command, f: Frame, now: int): Command
    requires f.Ack?
  {
    var target := Target(f);
    if target.None? || !Advances(c.status, target.value) then c else
    var moved := c.(status := target.value, acked := if c.acked.None? then Some(now) else c.acked);
    if target.value == Received then
      moved.(simMode := if f.simMode in SIM_MODES then f.simMode else "",
             simSlot := if f.simSlot == Some(0) || f.simSlot == Some(1) then f.simSlot else None)
    else moved.(rejectReason := if f.reason in REJECT_REASONS then f.reason else "unknown")
  }

  function ApplyState(c: Command, f: Frame): Command
    requires f.State?
  {
    var target := Target(f);
    if target.None? || !Advances(c.status, target.value) then c
    else if target.value == Disconnected || target.value == Failed then
      c.(status := target.value,
         duration := if f.duration.Some? && 0 <= f.duration.value < 86400 then f.duration else c.duration,
         cause := if f.cause in CAUSES then f.cause else "")
    else c.(status := target.value)
  }

  function Expire(c: Command, now: int): Command
  {
    if c.status == Sent && c.acked.None? && c.created < now - ACK_TIMEOUT then c.(status := Expired) else c
  }

  // ---- The command row, changed in place ----

  class DialCommand {
    var status: Status
    var acked: Option<int>
    var rejectReason: string
    var simMode: string
    var simSlot: Option<int>
    var duration: Option<int>
    var cause: string
    const created: int

    function View(): Command
      reads this
    {
      Command(status, created, acked, rejectReason, simMode, simSlot, duration, cause)
    }

    /** Sent to a phone that is online; to one that is not, nothing is sent. */
    constructor (online: bool, now: int)
      ensures View() == Command(if online then Sent else Offline, now, None, "", "", None, None, "")
    {
      status, created := if online then Sent else Offline, now;
      acked, rejectReason, simMode, simSlot, duration, cause := None, "", "", None, None, "";
    }

    method Advance(to: Status) returns (ok: bool)
      modifies this`status
      ensures ok == Advances(old(status), to)
      ensures status == if ok then to else old(status)
    {
      if Terminal(status) {
        return false;
      }
      if !Terminal(to) && Rank(to) <= Rank(status) {
        return false;
      }
      status := to;
      return true;
    }

    method HandleAck(f: Frame, now: int) returns (ok: bool)
      requires f.Ack?
      modifies this
      ensures View() == ApplyAck(old(View()), f, now)
      ensures ok <==> Target(f).Some? && Advances(old(status), Target(f).value)
    {
      if f.answer == "received" {
        ok := Advance(Received);
        if !ok {
          return;
        }
        simMode := if f.simMode in SIM_MODES then f.simMode else "";
        simSlot := if f.simSlot == Some(0) || f.simSlot == Some(1) then f.simSlot else None;
      } else if f.answer == "rejected" {
        ok := Advance(Rejected);
        if !ok {
          return;
        }
        rejectReason := if f.reason in REJECT_REASONS then f.reason else "unknown";
      } else {
        return false;
      }
      if acked.None? {
        acked := Some(now);
      }
    }

    method HandleState(f: Frame) returns (ok: bool)
      requires f.State?
      modifies this
      ensures View() == ApplyState(old(View()), f)
      ensures ok <==> Target(f).Some? && Advances(old(status), Target(f).value)
    {
      var target := Target(f);
      if target.None? {
        return false;
      }
      ok := Advance(target.value);
      if ok && (status == Disconnected || status == Failed) {
        if f.duration.Some? && 0 <= f.duration.value < 86400 {
          duration := f.duration;
        }
        cause := if f.cause in CAUSES then f.cause else "";
      }
    }

    method ExpireNow(now: int)
      modifies this`status
      ensures View() == Expire(old(View()), now)
    {
      if status == Sent && acked.None? && created < now - ACK_TIMEOUT {
        status := Expired;
      }
    }
  }

  // ---- Where any sequence of frames and expiries ends ----

  datatype Event = Framed(frame: Frame, at: int) | Swept(now: int)

  function Handle(c: Command, e: Event): Command
  {
    match e
    case Framed(f, at) => if f.Ack? then ApplyAck(c, f, at) else ApplyState(c, f)
    case Swept(now) => Expire(c, now)
  }

  function Run(c: Command, events: seq<Event>): Command
  {
    if events == [] then c else Handle(Run(c, events[..|events| - 1]), events[|events| - 1])
  }

  /** The statuses the phone asked for, in order; sweeps and noise left out. */
  function Targets(events: seq<Event>): seq<Status>
  {
    if events == [] then [] else
    var rest, e := Targets(events[..|events| - 1]), events[|events| - 1];
    if e.Framed? && Target(e.frame).Some? then rest + [Target(e.frame).value] else rest
  }

  predicate SomeSweepTooLate(events: seq<Event>, created: int)
  {
    exists i :: 0 <= i < |events| && events[i].Swept? && created < events[i].now - ACK_TIMEOUT
  }

  function FirstTerminal(targets: seq<Status>): Option<Status>
  {
    if targets == [] then None
    else if Terminal(targets[0]) then Some(targets[0])
    else FirstTerminal(targets[1..])
  }

  function Highest(targets: seq<Status>): Status
  {
    if Active in targets then Active
    else if Dialing in targets then Dialing
    else Received
  }

  /** The outcome, said without replaying anything. */
  function Outcome(targets: seq<Status>, tooLate: bool): Status
  {
    if FirstTerminal(targets).Some? then FirstTerminal(targets).value
    else if targets != [] then Highest(targets)
    else if tooLate then Expired
    else Sent
  }

  lemma {:induction false} FirstTerminalSnoc(targets: seq<Status>, s: Status)
    ensures FirstTerminal(targets + [s]) ==
              if FirstTerminal(targets).Some? then FirstTerminal(targets) else if Terminal(s) then Some(s) else None
  {
    if targets == [] {
      assert (targets + [s])[1..] == [];
    } else {
      assert (targets + [s])[1..] == targets[1..] + [s];
      FirstTerminalSnoc(targets[1..], s);
    }
  }

  lemma {:induction false} FirstTerminalIsTerminal(targets: seq<Status>)
    ensures FirstTerminal(targets).Some?
          ==> Terminal(FirstTerminal(targets).value) && FirstTerminal(targets).value in targets
    ensures FirstTerminal(targets).None? <==> forall s :: s in targets ==> !Terminal(s)
  {
    if targets != [] {
      FirstTerminalIsTerminal(targets[1..]);
      assert targets == [targets[0]] + targets[1..];
    }
  }

  /** What a phone can ask for. */
  const REACTIONS: set<Status> := {Received, Rejected, Dialing, Active, Disconnected, Failed}

  lemma {:induction false} TargetsAreReactions(events: seq<Event>)
    ensures forall s :: s in Targets(events) ==> s in REACTIONS
  {
    if events != [] {
      TargetsAreReactions(events[..|events| - 1]);
    }
  }

  /** A command's status, as the frames and sweeps so far leave it. */
  predicate Tracks(c: Command, targets: seq<Status>, tooLate: bool)
  {
    c.status == Outcome(targets, tooLate) && (c.status == Sent ==> c.acked.None?)
  }

  lemma FrameTracks(c: Command, targets: seq<Status>, tooLate: bool, f: Frame, at: int)
    requires Tracks(c, targets, tooLate)
    requires forall s :: s in targets ==> s in REACTIONS
    ensures Tracks(Handle(c, Framed(f, at)),
                   if Target(f).Some? then targets + [Target(f).value] else targets, tooLate)
  {
    FirstTerminalIsTerminal(targets);
    if Target(f).Some? {
      FirstTerminalSnoc(targets, Target(f).value);
      assert forall s :: s in targets + [Target(f).value] <==> s in targets || s == Target(f).value;
    }
  }

  lemma SweepTracks(c: Command, targets: seq<Status>, tooLate: bool, now: int)
    requires Tracks(c, targets, tooLate)
    requires forall s :: s in targets ==> s in REACTIONS
    ensures Tracks(Handle(c, Swept(now)), targets, tooLate || c.created < now - ACK_TIMEOUT)
  {
    FirstTerminalIsTerminal(targets);
  }

  lemma SweepsSoFar(front: seq<Event>, e: Event, created: int)
    ensures SomeSweepTooLate(front + [e], created)
       <==> SomeSweepTooLate(front, created) || (e.Swept? && created < e.now - ACK_TIMEOUT)
  {
    var events := front + [e];
    if SomeSweepTooLate(front, created) {
      var i :| 0 <= i < |front| && front[i].Swept? && created < front[i].now - ACK_TIMEOUT;
      assert events[i] == front[i];
    }
    if e.Swept? && created < e.now - ACK_TIMEOUT {
      assert events[|front|] == e;
    }
  }

  /** From SENT, every sequence of frames with sweeps anywhere among them ends in
      the first final status the phone named, else in the highest one seen. */
  lemma {:induction false} EndsInOutcome(c: Command, events: seq<Event>)
    requires c.status == Sent && c.acked.None?
    ensures Run(c, events).created == c.created
    ensures Tracks(Run(c, events), Targets(events), SomeSweepTooLate(events, c.created))
  {
    if events != [] {
      hide Tracks, SomeSweepTooLate, Outcome;
      var front, e := events[..|events| - 1], events[|events| - 1];
      EndsInOutcome(c, front);
      TargetsAreReactions(front);
      assert events == front + [e];
      SweepsSoFar(front, e, c.created);
      match e
      case Framed(f, at) =>
        FrameTracks(Run(c, front), Targets(front), SomeSweepTooLate(front, c.created), f, at);
      case Swept(now) =>
        SweepTracks(Run(c, front), Targets(front), SomeSweepTooLate(front, c.created), now);
    }
  }

  /** Once the phone has reacted, sweeps, duplicates and the order of frames that
      are not final make no difference: two histories that name the same final
      status first, or name none and the same set of others, end the same. */
  lemma SameReactionsSameEnd(c: Command, one: seq<Event>, two: seq<Event>)
    requires c.status == Sent && c.acked.None? && Targets(one) != [] && Targets(two) != []
    requires FirstTerminal(Targets(one)) == FirstTerminal(Targets(two))
    requires FirstTerminal(Targets(one)).None? ==>
               forall s :: s in Targets(one) <==> s in Targets(two)
    ensures Run(c, one).status == Run(c, two).status
  {
    EndsInOutcome(c, one);
    EndsInOutcome(c, two);
  }

  function WithoutSweeps(events: seq<Event>): seq<Event>
  {
    if events == [] then [] else
    var rest, e := WithoutSweeps(events[..|events| - 1]), events[|events| - 1];
    if e.Swept? then rest else rest + [e]
  }

  lemma {:induction false} SweepsNameNothing(events: seq<Event>)
    ensures Targets(WithoutSweeps(events)) == Targets(events)
  {
    if events != [] {
      var front, e := events[..|events| - 1], events[|events| - 1];
      SweepsNameNothing(front);
      if e.Framed? {
        assert (WithoutSweeps(front) + [e])[..|WithoutSweeps(front)|] == WithoutSweeps(front);
      }
    }
  }

  lemma SweepsNeverMatterOnceReacted(c: Command, events: seq<Event>)
    requires c.status == Sent && c.acked.None? && Targets(events) != []
    ensures Run(c, WithoutSweeps(events)).status == Run(c, events).status
  {
    SweepsNameNothing(events);
    SameReactionsSameEnd(c, events, WithoutSweeps(events));
  }

  /** What happens once stays: a final status never changes, and the time of the
      first accepted ack is kept. */
  lemma {:induction false} FinalAndAckedStay(c: Command, events: seq<Event>)
    ensures Terminal(c.status) ==> Run(c, events) == c
    ensures c.acked.Some? ==> Run(c, events).acked == c.acked
  {
    if events != [] {
      FinalAndAckedStay(c, events[..|events| - 1]);
    }
  }

  /** Whatever a phone sends, a command's columns hold only the values they may:
      a reason exactly when it was rejected, an ack time only once it reacted. */
  predicate Clean(c: Command)
  {
    && (c.simMode in SIM_MODES || c.simMode == "")
    && (c.simSlot == None || c.simSlot == Some(0) || c.simSlot == Some(1))
    && (c.rejectReason in REJECT_REASONS || c.rejectReason == "unknown" || c.rejectReason == "")
    && (c.rejectReason != "" <==> c.status == Rejected)
    && (c.duration.Some? ==> 0 <= c.duration.value < 86400 && (c.status == Disconnected || c.status == Failed))
    && (c.cause in CAUSES || c.cause == "")
    && (c.status in {Sent, Expired, Offline} ==> c.acked.None?)
    && (c.status == Received ==> c.acked.Some?)
  }

  lemma {:induction false} RecordStaysClean(c: Command, events: seq<Event>)
    requires Clean(c)
    ensures Clean(Run(c, events))
  {
    if events != [] {
      RecordStaysClean(c, events[..|events| - 1]);
      HandleKeepsClean(Run(c, events[..|events| - 1]), events[|events| - 1]);
    }
  }

  lemma HandleKeepsClean(c: Command, e: Event)
    requires Clean(c)
    ensures Clean(Handle(c, e))
  {
    if e.Framed? {
      hide Clean, ApplyAck, ApplyState;
      if e.frame.Ack? { AckKeepsClean(c, e.frame, e.at); } else { StateKeepsClean(c, e.frame); }
    }
  }

  lemma AckKeepsClean(c: Command, f: Frame, now: int)
    requires f.Ack? && Clean(c)
    ensures Clean(ApplyAck(c, f, now))
  {
  }

  lemma StateKeepsClean(c: Command, f: Frame)
    requires f.State? && Clean(c)
    ensures Clean(ApplyState(c, f))
  {
  }

  /** What an accepted frame writes beside the status, and that no other writes
      anything: an ack its time, if it is the first, and its SIM or its reason; a final
      state its duration, if it is one, and its cause. */
  lemma FrameExactly(c: Command, f: Frame, at: int)
    ensures var t := Handle(c, Framed(f, at));
            if Target(f).None? || !Advances(c.status, Target(f).value) then t == c
            else
              match f
              case Ack(answer, mode, slot, reason) =>
                && t.acked == Some(if c.acked.Some? then c.acked.value else at)
                && t.created == c.created && t.duration == c.duration && t.cause == c.cause
                && (answer == "received" ==>
                      && t.status == Received && t.rejectReason == c.rejectReason
                      && t.simMode == (if mode == "auto" || mode == "device_picker" then mode else "")
                      && t.simSlot == (if slot == Some(0) || slot == Some(1) then slot else None))
                && (answer == "rejected" ==>
                      && t.status == Rejected && t.simMode == c.simMode && t.simSlot == c.simSlot
                      && t.rejectReason == (if reason in REJECT_REASONS then reason else "unknown"))
              case State(state, duration, cause) =>
                && t == c.(status := t.status, duration := t.duration, cause := t.cause)
                && (state == "dialing" ==> t == c.(status := Dialing))
                && (state == "active" ==> t == c.(status := Active))
                && (state == "disconnected" || state == "failed" ==>
                      && t.status == (if state == "disconnected" then Disconnected else Failed)
                      && t.duration == (if duration.Some?
                            && 0 <= duration.value < 24 * 3600 then duration else c.duration)
                      && t.cause == (if cause in CAUSES then cause else ""))
  {
  }

  /** A sweep expires exactly a command still unacknowledged a minute after it was sent. */
  lemma SweepExactly(c: Command, now: int)
    ensures var t := Handle(c, Swept(now));
            t == if c.status == Sent && c.acked.None? && now - c.created > 60 then c.(status := Expired) else c
  {
  }

  // ---- How often commands are sent ----

  const DEVICE_MIN_INTERVAL := 10
  const DEVICE_PER_HOUR := 20
  const USER_MIN_INTERVAL := 2
  const USER_PER_HOUR := 120
  const HOUR := 3600

  /** A command created for a device, by a user unless an integration asked. */
  datatype Dialed = Dialed(device: nat, user: Option<nat>, at: int)

  datatype Key = Device(id: nat) | User(id: nat)

  predicate Counts(d: Dialed, k: Key)
  {
    match k
    case Device(id) => d.device == id
    case User(id) => d.user == Some(id)
  }

  function SinceWeights(log: seq<Dialed>, k: Key, lo: int): (w: seq<int>)
    ensures |w| == |log|
  {
    seq(|log|, i requires 0 <= i < |log| => if Counts(log[i], k) && log[i].at >= lo then 1 else 0)
  }

  function HourWeights(log: seq<Dialed>, k: Key, lo: int): (w: seq<int>)
    ensures |w| == |log|
  {
    seq(|log|, i requires 0 <= i < |log| => if Counts(log[i], k) && lo <= log[i].at <= lo + HOUR then 1 else 0)
  }

  /** Commands of a device or a user in the hour that starts at `lo`. */
  function InHour(log: seq<Dialed>, k: Key, lo: int): int { Sum(HourWeights(log, k, lo)) }

  predicate Limited(log: seq<Dialed>, k: Key, now: int, interval: int, perHour: int)
  {
    || (exists i :: 0 <= i < |log| && Counts(log[i], k) && log[i].at >= now - interval)
    || Sum(SinceWeights(log, k, now - HOUR)) >= perHour
  }

  /** The request is refused or logged; None is the rate-limit error. */
  function Dial(log: seq<Dialed>, device: nat, user: Option<nat>, now: int): Option<seq<Dialed>>
  {
    if Limited(log, Device(device), now, DEVICE_MIN_INTERVAL, DEVICE_PER_HOUR) then None
    else if user.Some? && Limited(log, User(user.value), now, USER_MIN_INTERVAL, USER_PER_HOUR) then None
    else Some(log + [Dialed(device, user, now)])
  }

  /** Exactly when a request goes out: the phone was sent nothing in the last ten
      seconds and under twenty in the last hour, and the user, if there is one, nothing
      in two seconds and under a hundred and twenty in the hour. */
  lemma DialExactly(log: seq<Dialed>, device: nat, user: Option<nat>, now: int)
    ensures var free := (k: Key, seconds: int, most: int) =>
              && (forall i :: 0 <= i < |log| && Counts(log[i], k) ==> log[i].at < now - seconds)
              && Sum(seq(|log|, i requires 0 <= i < |log| =>
                       if Counts(log[i], k) && log[i].at >= now - 3600 then 1 else 0)) < most;
            Dial(log, device, user, now) ==
              if free(Device(device), 10, 20) && (user.Some? ==> free(User(user.value), 2, 120))
              then Some(log + [Dialed(device, user, now)]) else None
  {
    hide Sum, Counts;
    assert SinceWeights(log, Device(device), now - HOUR) == seq(|log|, i requires 0 <= i < |log| =>
             if Counts(log[i], Device(device)) && log[i].at >= now - 3600 then 1 else 0);
    if user.Some? {
      assert SinceWeights(log, User(user.value), now - HOUR) == seq(|log|, i requires 0 <= i < |log| =>
               if Counts(log[i], User(user.value)) && log[i].at >= now - 3600 then 1 else 0);
    }
  }

  /** Commands of one device are more than ten seconds apart and at most twenty
      fall in any hour; commands an integration sends for no user are outside
      the users' limits. */
  ghost predicate Paced(log: seq<Dialed>, k: Key, interval: int, perHour: int)
  {
    && (forall i, j :: 0 <= i < j < |log| && Counts(log[i], k) && Counts(log[j], k)
          ==> log[j].at - log[i].at > interval)
    && (forall lo :: InHour(log, k, lo) <= perHour)
  }

  predicate UpTo(log: seq<Dialed>, now: int)
  {
    forall i :: 0 <= i < |log| ==> log[i].at <= now
  }

  lemma DialKeepsPace(log: seq<Dialed>, d: Dialed, k: Key, interval: int, perHour: int)
    requires UpTo(log, d.at) && Paced(log, k, interval, perHour)
    requires Counts(d, k) ==> !Limited(log, k, d.at, interval, perHour)
    ensures Paced(log + [d], k, interval, perHour)
  {
    var after := log + [d];
    forall lo ensures InHour(after, k, lo) <= perHour {
      var w := if Counts(d, k) && lo <= d.at <= lo + HOUR then 1 else 0;
      assert HourWeights(after, k, lo) == HourWeights(log, k, lo) + [w];
      SumAppend(HourWeights(log, k, lo), w);
      assert InHour(log, k, lo) <= perHour;
      if w == 1 {
        SumMonotone(HourWeights(log, k, lo), SinceWeights(log, k, d.at - HOUR));
      }
    }
  }

  datatype Ask = Ask(device: nat, user: Option<nat>, at: int)

  function DialAll(asks: seq<Ask>): seq<Dialed>
  {
    if asks == [] then [] else
    var log, a := DialAll(asks[..|asks| - 1]), asks[|asks| - 1];
    var r := Dial(log, a.device, a.user, a.at);
    if r.Some? then r.value else log
  }

  /** Over every sequence of requests in time order, no phone and no user is ever
      sent commands faster than the limits allow, in any hour whatever. */
  lemma {:induction false} NeverTooFast(asks: seq<Ask>, k: Key, now: int)
    requires forall i, j :: 0 <= i < j < |asks| ==> asks[i].at <= asks[j].at
    requires forall i :: 0 <= i < |asks| ==> asks[i].at <= now
    ensures UpTo(DialAll(asks), now)
    ensures if k.Device? then Paced(DialAll(asks), k, DEVICE_MIN_INTERVAL, DEVICE_PER_HOUR)
            else Paced(DialAll(asks), k, USER_MIN_INTERVAL, USER_PER_HOUR)
  {
    if asks == [] {
      forall lo ensures InHour([], k, lo) == 0 {
        assert HourWeights([], k, lo) == [];
      }
    } else {
      var a := asks[|asks| - 1];
      NeverTooFast(asks[..|asks| - 1], k, a.at);
      var log := DialAll(asks[..|asks| - 1]);
      var d := Dialed(a.device, a.user, a.at);
      if Dial(log, a.device, a.user, a.at).Some? {
        if k.Device? {
          DialKeepsPace(log, d, k, DEVICE_MIN_INTERVAL, DEVICE_PER_HOUR);
        } else {
          DialKeepsPace(log, d, k, USER_MIN_INTERVAL, USER_PER_HOUR);
        }
      }
    }
  }
}
