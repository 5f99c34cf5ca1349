/** Stream admission at the reverse log proxy: overlapping Receiver and BatchedReceiver calls share
    one atomic subscription count, a limit and a gauge. */
module EgressAdmission {
  import opened Base
  import opened MetricEmitter

  /** A call: before the gauge, between gauge and count, running or rejected, after the deferred
      decrement of the count, after the deferred decrement of the gauge. */
  datatype Call = Arriving | Gauged | Admitted | Rejected | Released | Gone

  datatype Server = Server(maxStreams: int, subscriptions: int, gauge: Word, calls: seq<Call>)

  datatype Move =
    | Arrive
    | IncrementGauge(call: nat)
    | CountIn(call: nat)
    | CountOut(call: nat)
    | DecrementGauge(call: nat)

  /** One stream, in hundredths. */
  const STREAM: Word := 100

  function Turn(s: Server, i: nat, c: Call): Server
    requires i < |s.calls|
  {
    s.(calls := s.calls[i := c])
  }

  function Next(s: Server, move: Move): Option<Server> {
    match move
    case Arrive => Some(s.(calls := s.calls + [Arriving]))
    case IncrementGauge(i) =>
      if i < |s.calls| && s.calls[i].Arriving? then
        Some(Turn(s, i, Gauged).(gauge := AddWord(s.gauge, STREAM)))
      else None
    case CountIn(i) =>
      if i < |s.calls| && s.calls[i].Gauged? then
        var subCount := s.subscriptions + 1;
        Some(Turn(s, i, if subCount > s.maxStreams then Rejected else Admitted).(subscriptions := subCount))
      else None
    case CountOut(i) =>
      if i < |s.calls| && (s.calls[i].Admitted? || s.calls[i].Rejected?) then
        Some(Turn(s, i, Released).(subscriptions := s.subscriptions - 1))
      else None
    case DecrementGauge(i) =>
      if i < |s.calls| && s.calls[i].Released? then
        Some(Turn(s, i, Gone).(gauge := AddWord(s.gauge, Complement(Pred(STREAM)))))
      else None
  }

  function After(maxStreams: int, moves: seq<Move>): Option<Server> {
    if moves == [] then Some(Server(maxStreams, 0, 0, []))
    else
      var before := After(maxStreams, moves[..|moves| - 1]);
      if before.None? then None else Next(before.value, moves[|moves| - 1])
  }

  function InFlight(): Call -> int {
    (c: Call) => if c.Admitted? || c.Rejected? then 1 else 0
  }

  function Running(): Call -> int {
    (c: Call) => if c.Admitted? then 1 else 0
  }

  function OnGauge(): Call -> int {
    (c: Call) => if c.Arriving? || c.Gone? then 0 else 1
  }

  ghost predicate Inv(s: Server) {
    && s.subscriptions == Sum(s.calls, InFlight())
    && s.gauge == (100 * Sum(s.calls, OnGauge())) % WORD
    && (Sum(s.calls, Running()) > 0 ==> Sum(s.calls, Running()) <= s.maxStreams)
  }

  /** The complement of the predecessor takes one stream off the gauge. */
  lemma GaugeDown(x: int, gauge: Word)
    requires gauge == x % WORD
    ensures AddWord(gauge, Complement(Pred(STREAM))) == (x - 100) % WORD
  {
    assert Complement(Pred(STREAM)) == WORD - 100;
    var q := x / WORD;
    assert x == q * WORD + gauge;
    if gauge >= 100 {
      assert (x - 100) % WORD == gauge - 100;
    } else {
      assert x - 100 == (q - 1) * WORD + (gauge + WORD - 100);
      assert (x - 100) % WORD == gauge + WORD - 100;
    }
  }

  lemma GaugeUp(x: int, gauge: Word)
    requires gauge == x % WORD
    ensures AddWord(gauge, STREAM) == (x + 100) % WORD
  {
    var q := x / WORD;
    assert x + 100 == q * WORD + (gauge + 100);
    if gauge + 100 >= WORD {
      assert x + 100 == (q + 1) * WORD + (gauge + 100 - WORD);
    }
  }

  lemma MoveInv(s: Server, move: Move, t: Server)
    requires Inv(s) && Next(s, move) == Some(t)
    ensures Inv(t) && t.maxStreams == s.maxStreams
  {
    if move.Arrive? {
      SumAppend(s.calls, Arriving, InFlight());
      SumAppend(s.calls, Arriving, Running());
      SumAppend(s.calls, Arriving, OnGauge());
    } else {
      var i := move.call;
      SumUpdate(s.calls, i, t.calls[i], InFlight());
      SumUpdate(s.calls, i, t.calls[i], Running());
      SumUpdate(s.calls, i, t.calls[i], OnGauge());
      GaugeMove(s, move, t);
      RunningInFlight(s.calls);
    }
  }

  lemma GaugeMove(s: Server, move: Move, t: Server)
    requires s.gauge == (100 * Sum(s.calls, OnGauge())) % WORD && Next(s, move) == Some(t) && !move.Arrive?
    ensures t.gauge == (100 * Sum(t.calls, OnGauge())) % WORD
  {
    var i, x := move.call, 100 * Sum(s.calls, OnGauge());
    SumUpdate(s.calls, i, t.calls[i], OnGauge());
    if move.DecrementGauge? {
      GaugeDown(x, s.gauge);
    } else if move.IncrementGauge? {
      GaugeUp(x, s.gauge);
    }
  }

  /** A running call is in flight. */
  lemma {:induction false} RunningInFlight(calls: seq<Call>)
    ensures 0 <= Sum(calls, Running()) <= Sum(calls, InFlight())
  {
    if calls != [] {
      RunningInFlight(calls[..|calls| - 1]);
    }
  }

  lemma {:induction false} RunInv(maxStreams: int, moves: seq<Move>)
    ensures var r := After(maxStreams, moves);
            r.Some? ==> Inv(r.value) && r.value.maxStreams == maxStreams
  {
    if moves != [] {
      var before := After(maxStreams, moves[..|moves| - 1]);
      RunInv(maxStreams, moves[..|moves| - 1]);
      if before.Some? && After(maxStreams, moves).Some? {
        MoveInv(before.value, moves[|moves| - 1], After(maxStreams, moves).value);
      }
    }
  }

  /** Over every run of overlapping calls the limit holds, the count is the calls in flight, and the
      gauge is 100 times the calls between its two updates, modulo 2^64. */
  lemma AdmissionHolds(maxStreams: int, moves: seq<Move>, s: Server)
    requires After(maxStreams, moves) == Some(s)
    ensures Sum(s.calls, Running()) <= if maxStreams > 0 then maxStreams else 0
    ensures s.subscriptions == Sum(s.calls, InFlight())
    ensures s.gauge == (100 * Sum(s.calls, OnGauge())) % WORD
  {
    RunInv(maxStreams, moves);
  }

  /** A call is rejected if and only if at least `maxStreams` other calls are in flight when it counts
      itself in, rejected ones that have not left included; otherwise it is admitted. */
  lemma RejectedExactly(maxStreams: int, moves: seq<Move>, s: Server, i: nat, t: Server)
    requires After(maxStreams, moves) == Some(s) && Next(s, CountIn(i)) == Some(t)
    ensures i < |t.calls|
    ensures t.calls[i] == if Sum(s.calls, InFlight()) >= maxStreams then Rejected else Admitted
    ensures Sum(t.calls, InFlight()) == Sum(s.calls, InFlight()) + 1
  {
    RunInv(maxStreams, moves);
    SumUpdate(s.calls, i, t.calls[i], InFlight());
  }

  /** When every call is over, count and gauge are back where they started. */
  lemma AllReturned(maxStreams: int, moves: seq<Move>, s: Server)
    requires After(maxStreams, moves) == Some(s)
    requires forall i :: 0 <= i < |s.calls| ==> s.calls[i].Gone?
    ensures s.subscriptions == 0 && s.gauge == 0
  {
    RunInv(maxStreams, moves);
    SumAllZero(s.calls, InFlight());
    SumAllZero(s.calls, OnGauge());
  }

  // ---- Every call can leave ----

  lemma Extended(maxStreams: int, moves: seq<Move>, move: Move) returns (more: seq<Move>)
    requires After(maxStreams, moves).Some?
    ensures After(maxStreams, more) == Next(After(maxStreams, moves).value, move)
  {
    more := moves + [move];
    assert more[..|moves|] == moves;
  }

  function Stage(c: Call): nat {
    match c
    case Arriving => 4
    case Gauged => 3
    case Admitted => 2
    case Rejected => 2
    case Released => 1
    case Gone => 0
  }

  /** Every call, admitted or rejected, can go on to its end, whatever the others do in between; with
      AdmissionHolds this gives back its place and its share of the gauge. */
  lemma {:induction false} CanLeave(maxStreams: int, moves: seq<Move>, s: Server, i: nat) returns (more: seq<Move>, t: Server)
    requires After(maxStreams, moves) == Some(s) && i < |s.calls|
    ensures After(maxStreams, more) == Some(t) && t.calls == s.calls[i := Gone]
    decreases Stage(s.calls[i])
  {
    if s.calls[i].Gone? {
      more, t := moves, s;
      return;
    }
    var move := match s.calls[i]
      case Arriving => IncrementGauge(i)
      case Gauged => CountIn(i)
      case Released => DecrementGauge(i)
      case _ => CountOut(i);
    more := Extended(maxStreams, moves, move);
    var u := Next(s, move).value;
    more, t := CanLeave(maxStreams, more, u, i);
  }
}
