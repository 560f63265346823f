/** "Clients waiting for a call-back": the database query, and the same list kept
    by reading the call log once in time order. */
module Unanswered {
  import opened Prelude

  datatype Direction = Inbound | Outbound

  /** `Other` stands for rejected, busy and failed calls. */
  datatype Outcome = Answered | NoAnswer | Other

  datatype Call = Call(id: nat, number: string, start: int, direction: Direction, outcome: Outcome)

  const EPOCH := 0

  // ---- The query, over the set of rows ----

  /** The most recent call of its number. */
  predicate Latest(rows: set<Call>, c: Call)
  {
    c in rows && forall d :: d in rows && d.number == c.number ==> d.start <= c.start
  }

  /** `at` is the start of the last answered call with a number, or the epoch. */
  predicate LastAnsweredAt(rows: set<Call>, number: string, at: int)
  {
    if exists d :: d in rows && d.number == number && d.outcome == Answered
    then (exists d :: d in rows && d.number == number && d.outcome == Answered && d.start == at)
         && (forall d :: d in rows && d.number == number && d.outcome == Answered ==> d.start <= at)
    else at == EPOCH
  }

  ghost predicate ClientWaiting(rows: set<Call>, number: string)
  {
    exists at, d :: LastAnsweredAt(rows, number, at) && d in rows && d.number == number
                    && d.direction == Inbound && d.outcome == NoAnswer && d.start > at
  }

  ghost function UnansweredNow(rows: set<Call>): set<Call>
  {
    set c | c in rows && Latest(rows, c) && c.outcome == NoAnswer && ClientWaiting(rows, c.number)
  }

  // ---- One pass over the log ----

  /** What the pass remembers of a number: whether its client is waiting, and
      the last call seen. */
  datatype Seen = Seen(waiting: bool, last: Call)

  function After(was: Option<Seen>, c: Call): Seen
  {
    var waiting := was.Some? && was.value.waiting;
    Seen(if c.outcome == Answered then false
         else if c.direction == Inbound && c.outcome == NoAnswer then true
         else waiting, c)
  }

  function Lookup(m: map<string, Seen>, number: string): Option<Seen>
  {
    if number in m then Some(m[number]) else None
  }

  function Pass(log: seq<Call>): map<string, Seen>
  {
    if log == [] then map[] else
    var m, c := Pass(log[..|log| - 1]), log[|log| - 1];
    m[c.number := After(Lookup(m, c.number), c)]
  }

  /** The numbers the pass leaves waiting whose last call is a no-answer. */
  function Waiting(log: seq<Call>): set<Call>
  {
    var m := Pass(log);
    set n | n in m && m[n].waiting && m[n].last.outcome == NoAnswer :: m[n].last
  }

  // ---- They agree ----

  function Rows(log: seq<Call>): set<Call> { set c | c in log }

  /** In time order, with distinct times for each number. */
  predicate TimeOrdered(log: seq<Call>)
  {
    && (forall i, j :: 0 <= i < j < |log| ==> log[i].start <= log[j].start)
    && (forall i, j :: 0 <= i < j < |log| && log[i].number == log[j].number ==> log[i].start < log[j].start)
  }

  /** The client called without being answered, and has not been answered since. */
  predicate MissedSinceAnswered(rows: set<Call>, number: string)
  {
    exists d :: d in rows && d.number == number && d.direction == Inbound && d.outcome == NoAnswer
                && forall a :: a in rows && a.number == number && a.outcome == Answered ==> a.start < d.start
  }

  lemma {:induction false} LastAnsweredExists(rows: set<Call>, number: string) returns (at: int)
    ensures LastAnsweredAt(rows, number, at)
    decreases |rows|
  {
    if d :| d in rows && d.number == number && d.outcome == Answered {
      var later := set a | a in rows && a.number == number && a.outcome == Answered && a.start > d.start;
      if later == {} {
        at := d.start;
        forall a | a in rows && a.number == number && a.outcome == Answered ensures a.start <= at {
          assert a !in later;
        }
      } else {
        assert d !in later && later <= rows;
        SmallerSet(later, rows);
        at := LastAnsweredExists(later, number);
        var l :| l in later;
        assert l.number == number && l.outcome == Answered;
        assert exists m :: m in later && m.number == number && m.outcome == Answered && m.start == at;
        var m :| m in later && m.number == number && m.outcome == Answered && m.start == at;
        forall a | a in rows && a.number == number && a.outcome == Answered ensures a.start <= at {
          assert m.start > d.start;
          if a.start > d.start { assert a in later; }
        }
        assert m in rows;
      }
    } else {
      at := EPOCH;
    }
  }

  lemma {:induction false} SmallerSet<T>(a: set<T>, b: set<T>)
    requires a < b
    ensures |a| < |b|
  {
    if a != {} {
      var x :| x in a;
      SmallerSet(a - {x}, b - {x});
    }
  }

  /** The number was never answered, and called in vain only before 1970. */
  predicate OnlyBeforeEpoch(rows: set<Call>, number: string)
  {
    forall d :: d in rows && d.number == number ==>
      d.outcome != Answered && (d.direction == Inbound && d.outcome == NoAnswer ==> d.start <= EPOCH)
  }

  /** The query's condition, without the subquery's maximum; its default for a
      number never answered drops calls dated before the epoch, and those only. */
  lemma ClientWaitingIff(rows: set<Call>, number: string)
    requires forall a, b :: a in rows && b in rows && a.number == b.number && a.start == b.start ==> a == b
    ensures ClientWaiting(rows, number) <==> MissedSinceAnswered(rows, number) && !OnlyBeforeEpoch(rows, number)
  {
    var at := LastAnsweredExists(rows, number);
    if MissedSinceAnswered(rows, number) && !OnlyBeforeEpoch(rows, number) {
      if exists a :: a in rows && a.number == number && a.outcome == Answered {
        var d :| d in rows && d.number == number && d.direction == Inbound && d.outcome == NoAnswer
                 && forall a :: a in rows && a.number == number && a.outcome == Answered ==> a.start < d.start;
        assert d.start > at;
      } else {
        var d :| d in rows && d.number == number && d.direction == Inbound && d.outcome == NoAnswer && d.start > EPOCH;
        assert d.start > at;
      }
    }
    if ClientWaiting(rows, number) {
      var t, d :| LastAnsweredAt(rows, number, t) && d in rows && d.number == number
                  && d.direction == Inbound && d.outcome == NoAnswer && d.start > t;
      forall a | a in rows && a.number == number && a.outcome == Answered ensures a.start < d.start {
        assert a.start <= t;
      }
    }
  }

  lemma NoRows()
    ensures Rows([]) == {}
  {
  }

  /** The last call of an ordered log is later than every other of its number. */
  lemma LastRow(log: seq<Call>)
    requires log != [] && TimeOrdered(log)
    ensures var front, c := log[..|log| - 1], log[|log| - 1];
            && TimeOrdered(front) && Rows(log) == Rows(front) + {c}
            && forall d :: d in Rows(front) && d.number == c.number ==> d.start < c.start
  {
    var front, c := log[..|log| - 1], log[|log| - 1];
    assert log == front + [c];
    forall d | d in front && d.number == c.number ensures d.start < c.start {
      var i :| 0 <= i < |front| && front[i] == d;
      assert log[i] == d;
    }
  }

  /** What the pass remembers of every number is what the rows say of it. */
  lemma {:induction false} PassSees(log: seq<Call>, number: string)
    requires TimeOrdered(log)
    ensures number in Pass(log) <==> exists d :: d in Rows(log) && d.number == number
    ensures number in Pass(log) ==>
              var s := Pass(log)[number];
              && s.last.number == number && Latest(Rows(log), s.last)
              && (s.waiting <==> MissedSinceAnswered(Rows(log), number))
  {
    hide TimeOrdered, Rows;
    if log == [] {
      assert Rows([]) == {} by { NoRows(); }
    } else {
      var front, c := log[..|log| - 1], log[|log| - 1];
      LastRow(log);
      PassSees(front, number);
      if number == c.number {
        LastCallDecides(Rows(front), c);
      } else {
        OtherNumbersUntouched(Rows(front), c, number);
      }
    }
  }

  lemma LastCallDecides(rows: set<Call>, c: Call)
    requires forall d :: d in rows && d.number == c.number ==> d.start < c.start
    ensures MissedSinceAnswered(rows + {c}, c.number) <==>
              if c.outcome == Answered then false
              else if c.direction == Inbound && c.outcome == NoAnswer then true
              else MissedSinceAnswered(rows, c.number)
  {
    var all := rows + {c};
    if c.outcome != Answered {
      if MissedSinceAnswered(rows, c.number) {
        var d :| d in rows && d.number == c.number && d.direction == Inbound && d.outcome == NoAnswer
                 && forall a :: a in rows && a.number == c.number && a.outcome == Answered ==> a.start < d.start;
        assert d in all;
      }
      if c.direction == Inbound && c.outcome == NoAnswer {
        assert c in all;
      }
    }
  }

  lemma OtherNumbersUntouched(rows: set<Call>, c: Call, number: string)
    requires c.number != number
    ensures MissedSinceAnswered(rows + {c}, number) <==> MissedSinceAnswered(rows, number)
    ensures forall d: Call :: d.number == number ==> (Latest(rows + {c}, d) <==> Latest(rows, d))
  {
    var all := rows + {c};
    if MissedSinceAnswered(rows, number) {
      var d :| d in rows && d.number == number && d.direction == Inbound && d.outcome == NoAnswer
               && forall a :: a in rows && a.number == number && a.outcome == Answered ==> a.start < d.start;
      assert d in all;
    }
    if MissedSinceAnswered(all, number) {
      var d :| d in all && d.number == number && d.direction == Inbound && d.outcome == NoAnswer
               && forall a :: a in all && a.number == number && a.outcome == Answered ==> a.start < d.start;
      assert d in rows;
    }
  }

  /** For every log the query lists exactly the calls the pass does, save those of
      numbers never answered that called only before the epoch: so the two agree
      exactly when no waiting number is one of these. */
  lemma QueryIsOnePass(log: seq<Call>)
    requires TimeOrdered(log)
    ensures forall c :: c in UnansweredNow(Rows(log)) <==> c in Waiting(log) && !OnlyBeforeEpoch(Rows(log), c.number)
    ensures UnansweredNow(Rows(log)) == Waiting(log)
       <==> forall c :: c in Waiting(log) ==> !OnlyBeforeEpoch(Rows(log), c.number)
  {
    var rows, m := Rows(log), Pass(log);
    RowsAreDistinct(log);
    forall c ensures c in UnansweredNow(rows) <==> c in Waiting(log) && !OnlyBeforeEpoch(rows, c.number) {
      PassSees(log, c.number);
      ClientWaitingIff(rows, c.number);
      if c in Waiting(log) {
        var n :| n in m && m[n].waiting && m[n].last.outcome == NoAnswer && m[n].last == c;
        PassSees(log, n);
      }
      if c in UnansweredNow(rows) {
        assert m[c.number].last == c;
      }
    }
  }

  lemma RowsAreDistinct(log: seq<Call>)
    requires TimeOrdered(log)
    ensures forall a, b :: a in Rows(log) && b in Rows(log) && a.number == b.number && a.start == b.start ==> a == b
  {
    forall a, b | a in Rows(log) && b in Rows(log) && a.number == b.number && a.start == b.start ensures a == b {
      var i :| 0 <= i < |log| && log[i] == a;
      var j :| 0 <= j < |log| && log[j] == b;
    }
  }

  /** A number nobody has answered whose only calls are ours is never listed. */
  lemma OnlyClientsWhoCalled(log: seq<Call>, number: string)
    requires TimeOrdered(log)
    requires forall c :: c in log && c.number == number ==> c.direction == Outbound
    ensures forall c :: c in UnansweredNow(Rows(log)) ==> c.number != number
  {
    RowsAreDistinct(log);
    ClientWaitingIff(Rows(log), number);
  }

  /** One call is enough to see it: a missed call is listed exactly when it is
      dated after the epoch, though the client waits either way. */
  lemma BeforeTheEpoch(c: Call)
    requires c.direction == Inbound && c.outcome == NoAnswer
    ensures c in UnansweredNow({c}) <==> c.start > EPOCH
    ensures MissedSinceAnswered({c}, c.number)
  {
    assert c in {c};
    if c.start > EPOCH {
      assert LastAnsweredAt({c}, c.number, EPOCH);
    }
  }
}
