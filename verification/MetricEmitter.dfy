/** The metrics: a counter whose delta is swapped out while it is being sent, and a gauge that
    subtracts by adding a complement. */
module MetricEmitter {
  import opened Base

  // ---- The counter, with any number of WithEnvelope calls at once ----

  /** A WithEnvelope call: its swapped-out amount is with the callback, or the callback has failed
      and the amount is about to be added back, or it is over. */
  datatype Flight = Sending(d: Word) | Failed(d: Word) | Over

  /** History: `added` sums all increments, `acknowledged` the amounts whose callback succeeded. */
  datatype State = State(delta: Word, flights: seq<Flight>, added: nat, acknowledged: nat)

  datatype Step =
    | Increment(c: Word)
    | Swap
    | Acknowledge(flight: nat)
    | Fail(flight: nat)
    | AddBack(flight: nat)

  function Next(s: State, step: Step): Option<State> {
    match step
    case Increment(c) => Some(s.(delta := AddWord(s.delta, c), added := s.added + c))
    case Swap => Some(s.(delta := 0, flights := s.flights + [Sending(s.delta)]))
    case Acknowledge(i) =>
      if i < |s.flights| && s.flights[i].Sending? then
        Some(s.(flights := s.flights[i := Over], acknowledged := s.acknowledged + s.flights[i].d))
      else None
    case Fail(i) =>
      if i < |s.flights| && s.flights[i].Sending? then
        Some(s.(flights := s.flights[i := Failed(s.flights[i].d)]))
      else None
    case AddBack(i) =>
      if i < |s.flights| && s.flights[i].Failed? then
        Some(s.(flights := s.flights[i := Over], delta := AddWord(s.delta, s.flights[i].d)))
      else None
  }

  function Init(): State {
    State(0, [], 0, 0)
  }

  function After(steps: seq<Step>): Option<State> {
    if steps == [] then Some(Init())
    else
      var before := After(steps[..|steps| - 1]);
      if before.None? then None else Next(before.value, steps[|steps| - 1])
  }

  function Amount(): Flight -> int {
    (f: Flight) => if f.Over? then 0 else f.d
  }

  /** Everything that was ever added, wherever it is now. */
  function Accounted(s: State): int {
    s.delta + Sum(s.flights, Amount()) + s.acknowledged
  }

  ghost predicate Inv(s: State) {
    Accounted(s) % WORD == s.added % WORD && Accounted(s) <= s.added
  }

  lemma FlightInv(s: State, i: nat, f: Flight, t: State)
    requires Inv(s) && i < |s.flights| && t.flights == s.flights[i := f] && t.added == s.added
    requires t.delta + Amount()(f) + t.acknowledged == s.delta + Amount()(s.flights[i]) + s.acknowledged
    ensures Inv(t)
  {
    SumUpdate(s.flights, i, f, Amount());
    assert Accounted(t) == Accounted(s);
  }

  lemma AddBackInv(s: State, i: nat, t: State)
    requires Inv(s) && Next(s, AddBack(i)) == Some(t)
    ensures Inv(t)
  {
    SumUpdate(s.flights, i, Over, Amount());
    Wrapped(s.delta, s.flights[i].d, Accounted(s) - s.delta - s.flights[i].d, s.added);
  }

  lemma IncrementInv(s: State, c: Word, t: State)
    requires Inv(s) && Next(s, Increment(c)) == Some(t)
    ensures Inv(t)
  {
    var rest := Sum(s.flights, Amount()) + s.acknowledged;
    assert Accounted(s) == s.delta + rest && Accounted(t) == t.delta + rest;
    ShiftMod(s.delta + rest, s.added, c);
    Wrapped(s.delta, c, rest, s.added + c);
  }

  lemma ShiftMod(a: int, b: int, c: int)
    requires a % WORD == b % WORD
    ensures (a + c) % WORD == (b + c) % WORD
  {
    var k := a / WORD - b / WORD;
    assert a + c == b + c + k * WORD;
  }

  lemma SwapInv(s: State, t: State)
    requires Inv(s) && Next(s, Swap) == Some(t)
    ensures Inv(t)
  {
    SumAppend(s.flights, Sending(s.delta), Amount());
    assert Accounted(t) == Accounted(s);
  }

  lemma StepInv(s: State, step: Step, t: State)
    requires Inv(s) && Next(s, step) == Some(t)
    ensures Inv(t)
  {
    match step
    case Increment(c) => IncrementInv(s, c, t);
    case Swap => SwapInv(s, t);
    case AddBack(i) => AddBackInv(s, i, t);
    case _ => FlightInv(s, step.flight, t.flights[step.flight], t);
  }

  /** A wrapped sum stays accounted for modulo 2^64. */
  lemma Wrapped(a: Word, b: Word, rest: int, total: nat)
    requires (a + b + rest) % WORD == total % WORD && a + b + rest <= total
    ensures (AddWord(a, b) + rest) % WORD == total % WORD && AddWord(a, b) + rest <= total
  {
    if a + b >= WORD {
      assert AddWord(a, b) == a + b - WORD;
    }
  }

  lemma {:induction false} RunInv(steps: seq<Step>)
    ensures After(steps).Some? ==> Inv(After(steps).value)
  {
    if steps != [] {
      var before := After(steps[..|steps| - 1]);
      RunInv(steps[..|steps| - 1]);
      if before.Some? && After(steps).Some? {
        StepInv(before.value, steps[|steps| - 1], After(steps).value);
      }
    }
  }

  /** For any interleaving of increments and overlapping sends, some failing: the current delta, the
      amounts swapped out and the amounts acknowledged make up all increments modulo 2^64, and
      exactly so while the increments stay below 2^64. */
  lemma CounterConserved(steps: seq<Step>, s: State)
    requires After(steps) == Some(s)
    ensures (s.delta + Sum(s.flights, Amount()) + s.acknowledged) % WORD == s.added % WORD
    ensures s.added < WORD ==> s.delta + Sum(s.flights, Amount()) + s.acknowledged == s.added
  {
    RunInv(steps);
    forall k | 0 <= k < |s.flights| ensures Amount()(s.flights[k]) >= 0 {
    }
    SumNonNegative(s.flights, Amount());
  }

  /** Once every call is over, what has not been acknowledged is still in the delta. */
  lemma NothingLostToFailures(steps: seq<Step>, s: State)
    requires After(steps) == Some(s) && s.added < WORD
    requires forall k :: 0 <= k < |s.flights| ==> s.flights[k].Over?
    ensures s.delta == s.added - s.acknowledged
  {
    CounterConserved(steps, s);
    SumAllZero(s.flights, Amount());
  }

  // ---- What was incremented, and what was reported ----

  /** The increments of a run, summed. */
  function Incremented(steps: seq<Step>): nat {
    if steps == [] then 0
    else
      var last := steps[|steps| - 1];
      Incremented(steps[..|steps| - 1]) + if last.Increment? then last.c else 0
  }

  /** The amount a call was given when it swapped; a run says so at its Swap steps. */
  function Given(steps: seq<Step>, flight: nat): nat {
    if steps == [] then 0
    else
      var front := steps[..|steps| - 1];
      if steps[|steps| - 1].Swap? && After(front).Some? && |After(front).value.flights| == flight then After(front).value.delta
      else Given(front, flight)
  }

  /** The amounts of the calls whose callback succeeded, summed. */
  function Succeeded(steps: seq<Step>): nat {
    if steps == [] then 0
    else
      var last := steps[|steps| - 1];
      Succeeded(steps[..|steps| - 1]) + if last.Acknowledge? then Given(steps[..|steps| - 1], last.flight) else 0
  }

  /** A call that is not over carries what it was given. */
  ghost predicate Carries(s: State, steps: seq<Step>) {
    forall i :: 0 <= i < |s.flights| && !s.flights[i].Over? ==> s.flights[i].d == Given(steps, i)
  }

  lemma StepCarries(steps: seq<Step>, s: State, step: Step, t: State)
    requires After(steps) == Some(s) && Next(s, step) == Some(t) && Carries(s, steps)
    ensures Carries(t, steps + [step])
  {
    assert (steps + [step])[..|steps|] == steps;
  }

  /** The history kept in the state is what happened: all increments, and the amounts of exactly the
      calls whose callback succeeded. */
  lemma {:induction false} HistoryIsTrue(steps: seq<Step>, s: State)
    requires After(steps) == Some(s)
    ensures s.added == Incremented(steps) && s.acknowledged == Succeeded(steps) && Carries(s, steps)
  {
    if steps != [] {
      var front := steps[..|steps| - 1];
      HistoryIsTrue(front, After(front).value);
      StepCarries(front, After(front).value, steps[|steps| - 1], s);
      assert steps == front + [steps[|steps| - 1]];
    }
  }

  /** A call that swaps is given everything that is neither acknowledged nor with another call, and
      leaves nothing behind. */
  lemma SwapTakesAll(steps: seq<Step>, s: State, t: State)
    requires After(steps) == Some(s) && Next(s, Swap) == Some(t)
    ensures t.delta == 0 && |t.flights| == |s.flights| + 1 && t.flights[|s.flights|].Sending?
    ensures (t.flights[|s.flights|].d + Sum(s.flights, Amount()) + Succeeded(steps)) % WORD == Incremented(steps) % WORD
  {
    HistoryIsTrue(steps, s);
    CounterConserved(steps, s);
  }

  /** A call whose callback fails can add its amount back, and then the delta has what it had and what
      came in meanwhile; one whose callback succeeds leaves the delta alone. */
  lemma CallsSettle(s: State, i: nat, c: Word)
    requires i < |s.flights| && s.flights[i].Sending?
    ensures Next(s, Fail(i)).Some? && Next(Next(s, Fail(i)).value, Increment(c)).Some?
    ensures var t := Next(Next(Next(s, Fail(i)).value, Increment(c)).value, AddBack(i));
            t.Some? && t.value.flights == s.flights[i := Over] && t.value.acknowledged == s.acknowledged
            && t.value.delta == (s.delta + s.flights[i].d + c) % WORD
    ensures var t := Next(s, Acknowledge(i));
            t.Some? && t.value.flights == s.flights[i := Over] && t.value.delta == s.delta
  {
    var d := s.flights[i].d;
    var a := Next(Next(s, Fail(i)).value, Increment(c)).value;
    assert a.flights[i] == Failed(d);
    assert s.flights[i := Failed(d)][i := Over] == s.flights[i := Over];
    ShiftMod(AddWord(s.delta, c), s.delta + c, d);
  }

  class Counter {
    var delta: Word

    method Increment(c: Word)
      modifies this
      ensures delta == AddWord(old(delta), c)
    {
      delta := AddWord(delta, c);
    }

    /** A call that nothing overlaps; `fails` is what the callback answers. */
    method WithEnvelope(fails: bool) returns (reported: Word)
      modifies this
      ensures reported == old(delta)
      ensures delta == if fails then old(delta) else 0
    {
      var d := delta;
      delta := 0;
      reported := d;
      if fails {
        delta := AddWord(delta, d);
      }
    }
  }

  // ---- The gauge, scaled by 100 ----

  /** Go's `^x` on uint64. */
  function Complement(x: Word): Word {
    WORD - 1 - x
  }

  /** Go's `x - 1` on uint64. */
  function Pred(x: Word): Word {
    (x - 1) % WORD
  }

  /** The complement of the predecessor is the negation, at 0 as well. */
  lemma ComplementNegates(x: Word)
    ensures AddWord(x, Complement(Pred(x))) == 0
    ensures Complement(Pred(x)) == (WORD - x) % WORD
  {
  }

  /** `toUint64(value, 2)` for a value with two decimals, given in hundredths. */
  class Gauge {
    var value: Word

    constructor ()
      ensures value == 0
    {
      value := 0;
    }

    method Set(hundredths: Word)
      modifies this
      ensures value == hundredths
    {
      value := hundredths;
    }

    method Increment(hundredths: Word)
      modifies this
      ensures value == (old(value) + hundredths) % WORD
    {
      value := AddWord(value, hundredths);
    }

    method Decrement(hundredths: Word)
      modifies this
      ensures value == (old(value) - hundredths) % WORD
      ensures AddWord(value, hundredths) == old(value)
    {
      ComplementNegates(hundredths);
      value := AddWord(value, Complement(Pred(hundredths)));
    }
  }
}
