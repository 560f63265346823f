/** The Bitrix24 claim protocol: call-record deliveries and no-call close tasks
    race for one mark on each click-to-call command, taken by conditional update
    and given back when Bitrix24 refuses. */
module ClickToCall {
  import opened Prelude
  import opened Dial

  const WINDOW_BEFORE := 600
  const WINDOW_AFTER := 120

  /** A click-to-call command; `used` is the claim mark, `callId` whether Bitrix24
      knows the call. */
  datatype Link = Link(operator: nat, number: string, created: int, callId: bool, status: Status, used: bool)

  /** Final states in which no call reached the network. */
  predicate NoCall(s: Status) { s == Offline || s == Expired || s == Rejected || s == Failed }

  datatype CallRecord = CallRecord(outbound: bool, operator: Option<nat>, number: string, start: int)

  /** The links an outbound call may have come from. */
  predicate Candidate(l: Link, r: CallRecord)
  {
    && r.outbound && r.operator == Some(l.operator) && l.number == r.number && !l.used && l.callId
    && r.start - WINDOW_BEFORE <= l.created <= r.start + WINDOW_AFTER
  }

  // ---- The protocol as steps of many workers ----

  /** A delivery walks the candidates it read, then finishes the call it claimed;
      a close task claims one command, reads it again, then finishes. */
  datatype Worker =
    | Idle
    | Scanning(candidates: seq<nat>)
    | Delivering(id: nat)
    | Claimed(id: nat)
    | Closing(id: nat, status: Status)
    | Stopped

  /** `finished[id]`: how many finish calls Bitrix24 answered with success. */
  datatype World = World(links: seq<Link>, workers: map<nat, Worker>, finished: seq<nat>)

  datatype Move =
    | Created(link: Link)
    | StartDelivery(w: nat, record: CallRecord, found: seq<nat>)
    | TryNext(w: nat)
    | StartClose(w: nat, id: nat)
    | ReadBack(w: nat, integration: bool)
    | Finish(w: nat, ok: bool)
    | Dies(w: nat)
    | PhoneMoves(id: nat, to: Status)
    | Expires(id: nat)

  predicate Valid(s: World, m: Move)
  {
    match m
    case Created(link) => !link.used
    case StartDelivery(_, record, found) =>
      forall i :: 0 <= i < |found| ==> found[i] < |s.links| && Candidate(s.links[found[i]], record)
    case StartClose(_, id) => id < |s.links|
    case PhoneMoves(id, _) => id < |s.links|
    case Expires(id) => id < |s.links|
    case _ => true
  }

  function At(s: World, w: nat): Worker { if w in s.workers then s.workers[w] else Idle }

  function Put(s: World, w: nat, to: Worker): World { s.(workers := s.workers[w := to]) }

  function Mark(s: World, id: nat, used: bool): World
    requires id < |s.links|
  {
    s.(links := s.links[id := s.links[id].(used := used)])
  }

  function Step(s: World, m: Move): World
    requires WellFormed(s) && Valid(s, m)
  {
    match m
    case Created(link) => s.(links := s.links + [link], finished := s.finished + [0])
    case StartDelivery(w, record, found) => if At(s, w) == Idle then Put(s, w, Scanning(found)) else s
    case TryNext(w) =>
      (match At(s, w)
       case Scanning(candidates) =>
         if candidates == [] then Put(s, w, Stopped)
         else if !s.links[candidates[0]].used then Put(Mark(s, candidates[0], true), w, Delivering(candidates[0]))
         else Put(s, w, Scanning(candidates[1..]))
       case _ => s)
    case StartClose(w, id) =>
      if At(s, w) != Idle then s
      else if !s.links[id].used && NoCall(s.links[id].status) && s.links[id].callId
      then Put(Mark(s, id, true), w, Claimed(id))
      else Put(s, w, Stopped)
    case ReadBack(w, integration) =>
      (match At(s, w)
       case Claimed(id) =>
         // Without an enabled integration the task ends and keeps its mark. A late
         // ack since the claim leaves a status with no closing code: it fails there.
         if integration && NoCall(s.links[id].status) then Put(s, w, Closing(id, s.links[id].status))
         else Put(s, w, Stopped)
       case _ => s)
    case Finish(w, ok) =>
      (match At(s, w)
       case Delivering(id) => Answer(s, w, id, ok)
       case Closing(id, _) => Answer(s, w, id, ok)
       case _ => s)
    case Dies(w) => Put(s, w, Stopped)
    case PhoneMoves(id, to) =>
      if Advances(s.links[id].status, to) then s.(links := s.links[id := s.links[id].(status := to)]) else s
    case Expires(id) =>
      if s.links[id].status == Sent then s.(links := s.links[id := s.links[id].(status := Expired)]) else s
  }

  /** Success is counted and the mark stays; an error gives the mark back, and the
      worker may be started again to retry. */
  function Answer(s: World, w: nat, id: nat, ok: bool): World
    requires id < |s.links| && id < |s.finished|
  {
    if ok then Put(s.(finished := s.finished[id := s.finished[id] + 1]), w, Stopped)
    else Put(Mark(s, id, false), w, Idle)
  }

  predicate Holds(w: Worker, id: nat)
  {
    match w
    case Delivering(i) => i == id
    case Claimed(i) => i == id
    case Closing(i, _) => i == id
    case _ => false
  }

  predicate WellFormed(s: World)
  {
    && |s.finished| == |s.links|
    && forall w :: w in s.workers ==>
         match s.workers[w]
         case Scanning(candidates) => forall i :: 0 <= i < |candidates| ==> candidates[i] < |s.links|
         case Delivering(id) => id < |s.links|
         case Claimed(id) => id < |s.links|
         case Closing(id, _) => id < |s.links|
         case _ => true
  }

  /** Whoever holds a command marked it, holds it alone, and nobody holds or can
      claim a command that was finished. */
  ghost predicate Exclusive(s: World)
  {
    && (forall w, id: nat :: w in s.workers && Holds(s.workers[w], id) ==> Unfinished(s, id))
    && (forall v, w, id: nat :: v in s.workers && w in s.workers && Holds(s.workers[v], id) && Holds(s.workers[w], id)
          ==> v == w)
    && (forall id :: 0 <= id < |s.finished| ==> s.finished[id] <= 1)
    && (forall id :: 0 <= id < |s.finished| && s.finished[id] == 1 ==> id < |s.links| && s.links[id].used)
    && (forall w :: w in s.workers && s.workers[w].Closing? ==> NoCall(s.workers[w].status))
  }

  predicate Unfinished(s: World, id: nat)
  {
    id < |s.links| && id < |s.finished| && s.links[id].used && s.finished[id] == 0
  }

  lemma StepWellFormed(s: World, m: Move)
    requires WellFormed(s) && Valid(s, m)
    ensures WellFormed(Step(s, m))
  {
  }

  /** A worker that moves on without a new claim disturbs nobody. */
  lemma PutExclusive(s: World, w: nat, to: Worker)
    requires Exclusive(s)
    requires forall id: nat :: Holds(to, id) ==> Holds(At(s, w), id)
    requires to.Closing? ==> NoCall(to.status)
    ensures Exclusive(Put(s, w, to))
  {
    var t := Put(s, w, to);
    forall v, id: nat | v in t.workers && Holds(t.workers[v], id) ensures Unfinished(t, id) {
      assert v in s.workers && Holds(s.workers[v], id);
      assert Unfinished(s, id);
    }
  }

  lemma ClaimExclusive(s: World, w: nat, id: nat, to: Worker)
    requires WellFormed(s) && Exclusive(s) && id < |s.links| && !s.links[id].used && !to.Closing?
    requires forall i: nat :: !Holds(At(s, w), i)
    requires forall i: nat :: Holds(to, i) <==> i == id
    ensures Exclusive(Put(Mark(s, id, true), w, to))
  {
    var t := Put(Mark(s, id, true), w, to);
    forall v, i: nat | v in t.workers && Holds(t.workers[v], i) ensures Unfinished(t, i) {
      if v != w { assert Unfinished(s, i); }
    }
    forall u, v, i: nat | u in t.workers && v in t.workers && Holds(t.workers[u], i) && Holds(t.workers[v], i)
      ensures u == v
    {
      if u != w { assert Unfinished(s, i); }
      if v != w { assert Unfinished(s, i); }
    }
  }

  lemma AnswerExclusive(s: World, w: nat, id: nat, ok: bool)
    requires WellFormed(s) && Exclusive(s) && w in s.workers && Holds(s.workers[w], id) && id < |s.links|
    ensures Exclusive(Answer(s, w, id, ok))
  {
    assert Unfinished(s, id);
    var t := Answer(s, w, id, ok);
    forall v, i: nat | v in t.workers && Holds(t.workers[v], i) ensures Unfinished(t, i) {
      assert v != w && Unfinished(s, i);
    }
  }

  lemma StatusExclusive(s: World, id: nat, to: Status)
    requires Exclusive(s) && id < |s.links|
    ensures Exclusive(s.(links := s.links[id := s.links[id].(status := to)]))
  {
    var t := s.(links := s.links[id := s.links[id].(status := to)]);
    forall v, i: nat | v in t.workers && Holds(t.workers[v], i) ensures Unfinished(t, i) {
      assert Unfinished(s, i);
    }
  }

  lemma CreatedExclusive(s: World, link: Link)
    requires WellFormed(s) && Exclusive(s)
    ensures Exclusive(s.(links := s.links + [link], finished := s.finished + [0]))
  {
    var t := s.(links := s.links + [link], finished := s.finished + [0]);
    forall v, i: nat | v in t.workers && Holds(t.workers[v], i) ensures Unfinished(t, i) {
      assert Unfinished(s, i);
    }
  }

  lemma StepExclusive(s: World, m: Move)
    requires WellFormed(s) && Exclusive(s) && Valid(s, m)
    ensures Exclusive(Step(s, m))
  {
    hide Exclusive, Candidate;
    match m
    case Created(link) => CreatedExclusive(s, link);
    case StartDelivery(w, record, found) => if At(s, w) == Idle { PutExclusive(s, w, Scanning(found)); }
    case TryNext(w) =>
      if At(s, w).Scanning? {
        var candidates := At(s, w).candidates;
        if candidates == [] { PutExclusive(s, w, Stopped); }
        else if s.links[candidates[0]].used { PutExclusive(s, w, Scanning(candidates[1..])); }
        else { ClaimExclusive(s, w, candidates[0], Delivering(candidates[0])); }
      }
    case StartClose(w, id) =>
      if At(s, w) == Idle {
        if !s.links[id].used { ClaimExclusive(s, w, id, Claimed(id)); }
        PutExclusive(s, w, Stopped);
      }
    case ReadBack(w, integration) =>
      if At(s, w).Claimed? {
        var id := At(s, w).id;
        if NoCall(s.links[id].status) { PutExclusive(s, w, Closing(id, s.links[id].status)); }
        PutExclusive(s, w, Stopped);
      }
    case Finish(w, ok) =>
      if At(s, w).Delivering? || At(s, w).Closing? { AnswerExclusive(s, w, At(s, w).id, ok); }
    case Dies(w) => PutExclusive(s, w, Stopped);
    case PhoneMoves(id, to) => StatusExclusive(s, id, to);
    case Expires(id) => StatusExclusive(s, id, Expired);
  }

  predicate Reachable(s: World, moves: seq<Move>, t: World)
    decreases |moves|
  {
    if moves == [] then t == s
    else WellFormed(s) && Valid(s, moves[0]) && Reachable(Step(s, moves[0]), moves[1..], t)
  }

  /** In every interleaving of deliveries, close tasks, retries, deaths and late
      acks: at most one finish call per command succeeds, and no command is held
      by two workers at once. */
  lemma {:induction false} FinishedAtMostOnce(s: World, moves: seq<Move>, t: World)
    requires WellFormed(s) && Exclusive(s) && Reachable(s, moves, t)
    ensures WellFormed(t) && Exclusive(t)
    ensures forall id :: 0 <= id < |t.finished| ==> t.finished[id] <= 1
    decreases |moves|
  {
    if moves != [] {
      StepWellFormed(s, moves[0]);
      StepExclusive(s, moves[0]);
      FinishedAtMostOnce(Step(s, moves[0]), moves[1..], t);
    }
  }

  /** From an empty table: no command is ever finished twice or held twice. */
  lemma FromNoCommands(moves: seq<Move>, t: World)
    requires Reachable(World([], map[], []), moves, t)
    ensures forall id :: 0 <= id < |t.finished| ==> t.finished[id] <= 1
    ensures forall v, w, id: nat ::
              v in t.workers && w in t.workers && Holds(t.workers[v], id) && Holds(t.workers[w], id) ==> v == w
  {
    FinishedAtMostOnce(World([], map[], []), moves, t);
  }

  lemma StepCountsUp(s: World, m: Move, id: nat)
    requires WellFormed(s) && Valid(s, m) && id < |s.finished|
    ensures id < |Step(s, m).finished| && s.finished[id] <= Step(s, m).finished[id]
  {
    hide Candidate;
  }

  /** Once a finish call has succeeded, no later one does. */
  lemma {:induction false} FinishedStaysFinished(s: World, moves: seq<Move>, t: World, id: nat)
    requires WellFormed(s) && Exclusive(s) && Reachable(s, moves, t)
    requires id < |s.finished| && s.finished[id] == 1
    ensures id < |t.finished| && t.finished[id] == 1
    decreases |moves|
  {
    if moves != [] {
      StepWellFormed(s, moves[0]);
      StepExclusive(s, moves[0]);
      StepCountsUp(s, moves[0], id);
      FinishedStaysFinished(Step(s, moves[0]), moves[1..], t, id);
    }
  }

  /** A close task claims a command exactly when its mark is free, Bitrix24 knows
      the call, and no call was made; a delivery claims only what is still free. */
  lemma ClaimsOnlyItsOwn(s: World, w: nat, id: nat)
    requires WellFormed(s) && id < |s.links| && At(s, w) == Idle
    ensures Holds(At(Step(s, StartClose(w, id)), w), id)
       <==> !s.links[id].used && s.links[id].callId && NoCall(s.links[id].status)
  {
  }

  /** A command Bitrix24 knows that nobody answered in time can be closed, once. */
  lemma ExpiredCanBeClosed(s: World, w: nat, id: nat)
    requires WellFormed(s) && id < |s.links| && At(s, w) == Idle
    requires !s.links[id].used && s.links[id].callId && s.links[id].status == Sent
    ensures var a := Step(s, Expires(id));
            && WellFormed(a) && At(Step(a, StartClose(w, id)), w) == Claimed(id)
            && WellFormed(Step(a, StartClose(w, id)))
            && var b := Step(Step(a, StartClose(w, id)), ReadBack(w, true));
            && At(b, w) == Closing(id, Expired) && WellFormed(b)
            && var c := Step(b, Finish(w, true));
            && id < |c.finished| && id < |s.finished| && c.finished[id] == s.finished[id] + 1 && At(c, w) == Stopped
  {
    hide Candidate, Exclusive;
  }

  /** An error gives the claim back whole: the command is free again, so the same
      delivery started again, or any other, can finish the same call. */
  lemma ErrorsCanBeRetried(s: World, w: nat, v: nat, id: nat, record: CallRecord)
    requires WellFormed(s) && Exclusive(s) && id < |s.links|
    requires At(s, w) == Delivering(id) && (At(s, v) == Idle || v == w)
    requires Candidate(s.links[id].(used := false), record)
    ensures var a := Step(s, Finish(w, false));
            && WellFormed(a) && Valid(a, StartDelivery(v, record, [id]))
            && var b := Step(a, StartDelivery(v, record, [id]));
            && WellFormed(b) && At(Step(b, TryNext(v)), v) == Delivering(id)
            && a.finished == s.finished
  {
    hide Exclusive, Advances, NoCall;
  }

  // ---- When a claim is stranded ----

  /** Marked and unfinished, and nobody holds it: no finish call will be made. */
  predicate Stranded(s: World, id: nat)
  {
    && Unfinished(s, id)
    && forall w :: w in s.workers ==> !Holds(s.workers[w], id)
  }

  /** No step of any worker, phone or clock frees or finishes a stranded command. */
  lemma StepKeepsStranded(s: World, m: Move, id: nat)
    requires WellFormed(s) && Valid(s, m) && Stranded(s, id)
    ensures Stranded(Step(s, m), id)
  {
    hide Candidate;
  }

  /** Stranded is for good: whatever happens later the command stays marked and
      unfinished, and no delivery can use it. */
  lemma {:induction false} StrandedForGood(s: World, moves: seq<Move>, t: World, id: nat)
    requires WellFormed(s) && Reachable(s, moves, t) && Stranded(s, id)
    ensures Stranded(t, id)
    ensures forall record :: !Candidate(t.links[id], record)
    decreases |moves|
  {
    hide Stranded, Candidate;
    if moves != [] {
      StepWellFormed(s, moves[0]);
      StepKeepsStranded(s, moves[0], id);
      StrandedForGood(Step(s, moves[0]), moves[1..], t, id);
    } else {
      StrandedIsNoCandidate(t, id);
    }
  }

  lemma StrandedIsNoCandidate(t: World, id: nat)
    requires Stranded(t, id)
    ensures forall record :: !Candidate(t.links[id], record)
  {
  }

  /** The moves that strand a command: its holder dies, or a close task that has
      claimed it reads back no enabled integration, or a status for which there is
      no closing code because an ack came in between. */
  predicate Strands(s: World, m: Move, id: nat)
  {
    match m
    case Dies(w) => Holds(At(s, w), id)
    case ReadBack(w, integration) =>
      At(s, w) == Claimed(id) && id < |s.links| && !(integration && NoCall(s.links[id].status))
    case _ => false
  }

  /** Exactly these moves strand a command that was not stranded before. */
  lemma StrandsIff(s: World, m: Move, id: nat)
    requires WellFormed(s) && Exclusive(s) && Valid(s, m) && !Stranded(s, id)
    ensures Stranded(Step(s, m), id) <==> Strands(s, m, id)
  {
    hide Candidate, Stranded, Exclusive, Advances;
    match m
    case Dies(w) => StoppingStrandsIff(s, w, id);
    case ReadBack(w, integration) =>
      if At(s, w).Claimed? {
        var i := At(s, w).id;
        if integration && NoCall(s.links[i].status) {
          MovingOnStrandsNothing(s, w, Closing(i, s.links[i].status), id);
        } else {
          StoppingStrandsIff(s, w, id);
        }
      }
    case StartDelivery(w, _, found) => if At(s, w) == Idle { MovingOnStrandsNothing(s, w, Scanning(found), id); }
    case TryNext(w) => ScanStrandsNothing(s, w, id);
    case StartClose(w, i) => CloseStrandsNothing(s, w, i, id);
    case Finish(w, ok) => AnswerStrandsNothing(s, w, ok, id);
    case _ => ElsewhereStrandsNothing(s, m, id);
  }

  lemma StoppingStrandsIff(s: World, w: nat, id: nat)
    requires WellFormed(s) && Exclusive(s) && !Stranded(s, id)
    ensures Stranded(Put(s, w, Stopped), id) <==> Holds(At(s, w), id)
  {
    var t := Put(s, w, Stopped);
    if Holds(At(s, w), id) {
      assert Unfinished(s, id);
      forall v | v in t.workers ensures !Holds(t.workers[v], id) {
        if v != w { assert v in s.workers; }
      }
    } else if Unfinished(s, id) {
      var v :| v in s.workers && Holds(s.workers[v], id);
      assert v != w && Holds(t.workers[v], id);
    }
  }

  lemma MovingOnStrandsNothing(s: World, w: nat, to: Worker, id: nat)
    requires !Stranded(s, id) && (Holds(At(s, w), id) ==> Holds(to, id))
    ensures !Stranded(Put(s, w, to), id)
  {
    if Unfinished(s, id) {
      var v :| v in s.workers && Holds(s.workers[v], id);
      assert Holds(Put(s, w, to).workers[v], id);
    }
  }

  lemma ClaimStrandsNothing(s: World, w: nat, i: nat, to: Worker, id: nat)
    requires !Stranded(s, id) && i < |s.links| && Holds(to, i) && (Holds(At(s, w), id) ==> id == i)
    ensures !Stranded(Put(Mark(s, i, true), w, to), id)
  {
    var t := Put(Mark(s, i, true), w, to);
    if id == i {
      assert Holds(t.workers[w], id);
    } else if Unfinished(s, id) {
      var v :| v in s.workers && Holds(s.workers[v], id);
      assert Holds(t.workers[v], id);
    }
  }

  lemma ScanStrandsNothing(s: World, w: nat, id: nat)
    requires WellFormed(s) && !Stranded(s, id)
    ensures !Stranded(Step(s, TryNext(w)), id)
  {
    hide Stranded;
    if At(s, w).Scanning? {
      var candidates := At(s, w).candidates;
      if candidates == [] {
        MovingOnStrandsNothing(s, w, Stopped, id);
      } else if s.links[candidates[0]].used {
        MovingOnStrandsNothing(s, w, Scanning(candidates[1..]), id);
      } else {
        ClaimStrandsNothing(s, w, candidates[0], Delivering(candidates[0]), id);
      }
    }
  }

  lemma CloseStrandsNothing(s: World, w: nat, i: nat, id: nat)
    requires WellFormed(s) && i < |s.links| && !Stranded(s, id)
    ensures !Stranded(Step(s, StartClose(w, i)), id)
  {
    hide Stranded;
    if At(s, w) == Idle {
      ClaimStrandsNothing(s, w, i, Claimed(i), id);
      MovingOnStrandsNothing(s, w, Stopped, id);
    }
  }

  lemma AnswerStrandsNothing(s: World, w: nat, ok: bool, id: nat)
    requires WellFormed(s) && Exclusive(s) && !Stranded(s, id)
    ensures !Stranded(Step(s, Finish(w, ok)), id)
  {
    if At(s, w).Delivering? || At(s, w).Closing? {
      var t := Answer(s, w, At(s, w).id, ok);
      if id != At(s, w).id && Unfinished(s, id) {
        var v :| v in s.workers && Holds(s.workers[v], id);
        assert v != w && Holds(t.workers[v], id);
      }
    }
  }

  lemma ElsewhereStrandsNothing(s: World, m: Move, id: nat)
    requires WellFormed(s) && Exclusive(s) && Valid(s, m) && !Stranded(s, id)
    requires m.Created? || m.PhoneMoves? || m.Expires?
    ensures !Stranded(Step(s, m), id)
  {
    var t := Step(s, m);
    if Unfinished(s, id) {
      var v :| v in s.workers && Holds(s.workers[v], id);
      assert Holds(t.workers[v], id);
    }
  }

  /** It happens with nothing failing: an expired command is claimed for closing, the
      phone's late ack arrives before the second read, and from then on, whatever
      comes, the command stays marked and the real call's delivery cannot use it. */
  lemma LateAckStrandsTheClaim(s: World, w: nat, id: nat, moves: seq<Move>, t: World)
    requires WellFormed(s) && Exclusive(s) && id < |s.links| && At(s, w) == Idle
    requires !s.links[id].used && s.links[id].callId && s.links[id].status == Expired
    requires Reachable(s, [StartClose(w, id), PhoneMoves(id, Received), ReadBack(w, true)] + moves, t)
    ensures id < |t.links| && id < |t.finished| && t.links[id].used && t.finished[id] == 0
    ensures forall record :: !Candidate(t.links[id], record)
  {
    hide Stranded, Exclusive, Candidate;
    var all := [StartClose(w, id), PhoneMoves(id, Received), ReadBack(w, true)] + moves;
    assert all[1..][0] == PhoneMoves(id, Received) && all[1..][1..][0] == ReadBack(w, true)
          && all[1..][1..][1..] == moves;
    var a := Step(s, StartClose(w, id));
    assert Reachable(a, all[1..], t);
    StepExclusive(s, StartClose(w, id));
    var b := Step(a, PhoneMoves(id, Received));
    StepExclusive(a, PhoneMoves(id, Received));
    assert Reachable(b, all[1..][1..], t);
    var c := Step(b, ReadBack(w, true));
    assert At(a, w) == Claimed(id) && b.links[id].status == Received && At(b, w) == Claimed(id);
    assert Strands(b, ReadBack(w, true), id);
    if Stranded(b, id) {
      StepKeepsStranded(b, ReadBack(w, true), id);
    } else {
      StrandsIff(b, ReadBack(w, true), id);
    }
    StrandedForGood(c, moves, t, id);
    assert Unfinished(t, id) by { StrandedIsUnfinished(t, id); }
  }

  lemma StrandedIsUnfinished(t: World, id: nat)
    requires Stranded(t, id)
    ensures Unfinished(t, id)
  {
  }

  // ---- The two claims as they run ----

  class Commands {
    var links: seq<Link>

    constructor (links: seq<Link>)
      ensures this.links == links
    {
      this.links := links;
    }

    /** The conditional update: set the mark if it is free. */
    method Take(id: nat) returns (ok: bool)
      requires id < |links|
      modifies this
      ensures ok == !old(links)[id].used
      ensures links == if ok then old(links)[id := old(links)[id].(used := true)] else old(links)
    {
      ok := !links[id].used;
      if ok {
        links := links[id := links[id].(used := true)];
      }
    }

    /** With nothing racing, a delivery takes the newest candidate, if there is one. */
    method Claim(record: CallRecord) returns (taken: Option<nat>)
      requires forall i, j :: 0 <= i < j < |links| ==> links[i].created <= links[j].created
      modifies this
      ensures taken.None? <==> forall i :: 0 <= i < |old(links)| ==> !Candidate(old(links)[i], record)
      ensures taken.None? ==> links == old(links)
      ensures taken.Some? ==>
        && taken.value < |old(links)| && Candidate(old(links)[taken.value], record)
        && (var l := old(links)[taken.value];
            && record.outbound && record.operator == Some(l.operator) && record.number == l.number
            && l.callId && !l.used && record.start - 600 <= l.created <= record.start + 120)
        && (forall i :: 0 <= i < |old(links)| && Candidate(old(links)[i], record) ==>
              old(links)[i].created <= old(links)[taken.value].created)
        && links == old(links)[taken.value := old(links)[taken.value].(used := true)]
    {
      var i := |links|;
      while i > 0
        invariant 0 <= i <= |links| && links == old(links)
        invariant forall j :: i <= j < |links| ==> !Candidate(links[j], record)
      {
        i := i - 1;
        if Candidate(links[i], record) {
          var ok := Take(i);
          if ok {
            return Some(i);
          }
        }
      }
      taken := None;
    }

    method TakeNoCall(id: nat) returns (ok: bool)
      requires id < |links|
      modifies this
      ensures ok <==> !old(links)[id].used && NoCall(old(links)[id].status) && old(links)[id].callId
      ensures links == if ok then old(links)[id := old(links)[id].(used := true)] else old(links)
    {
      ok := !links[id].used && NoCall(links[id].status) && links[id].callId;
      if ok {
        links := links[id := links[id].(used := true)];
      }
    }
  }
}
