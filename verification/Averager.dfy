/** The envelope averager: a 16-bit count and a 48-bit total packed in one word, updated by a
    compare-and-swap loop from any number of goroutines and read once per tick. */
module Averager {
  import opened Base

  const COUNTS: nat := 0x1_0000
  const TOTALS: nat := 0x1_0000_0000_0000

  /** A Go `uint16`. */
  type Short = x: int | 0 <= x < COUNTS

  // ---- The packed word: masks and shifts as division and remainder ----

  /** The upper 16 bits. */
  function CountOf(u: Word): nat {
    u / TOTALS
  }

  /** The lower 48 bits. */
  function TotalOf(u: Word): nat {
    u % TOTALS
  }

  /** encodeDelta on arguments already converted to uint16 and uint64: the count wraps at 16 bits,
      the total at 64 and is then masked to 48. */
  function EncodeDelta(u: Word, count: Short, total: Word): Word {
    ((CountOf(u) + count) % COUNTS * TOTALS + AddWord(TotalOf(u), total) % TOTALS) % WORD
  }

  /** The word that holds these two lanes. */
  function Pack(count: nat, total: nat): Word {
    count % COUNTS * TOTALS + total % TOTALS
  }

  lemma PackLanes(count: nat, total: nat)
    ensures CountOf(Pack(count, total)) == count % COUNTS
    ensures TotalOf(Pack(count, total)) == total % TOTALS
  {
  }

  lemma AddCounts(count: nat, add: Short)
    ensures (count % COUNTS + add) % COUNTS == (count + add) % COUNTS
  {
    assert count + add == count / COUNTS * COUNTS + (count % COUNTS + add);
  }

  lemma AddTotals(total: nat, add: Word)
    ensures (total % TOTALS + add) % WORD % TOTALS == (total + add) % TOTALS
  {
    var sum := total % TOTALS + add;
    assert total + add == total / TOTALS * TOTALS + sum;
    assert sum % WORD == if sum < WORD then sum else sum - COUNTS * TOTALS;
  }

  lemma LanesFit(c: Short, t: nat)
    requires t < TOTALS
    ensures (c * TOTALS + t) % WORD == c * TOTALS + t
  {
  }

  /** No carry passes between the lanes, whatever they hold and whatever is added. */
  lemma EncodeKeepsLanes(count: nat, total: nat, addCount: Short, addTotal: Word)
    ensures EncodeDelta(Pack(count, total), addCount, addTotal) == Pack(count + addCount, total + addTotal)
  {
    PackLanes(count, total);
    AddCounts(count, addCount);
    AddTotals(total, addTotal);
    LanesFit((count + addCount) % COUNTS, (total + addTotal) % TOTALS);
  }

  // ---- Track from any number of goroutines, and the tick ----

  /** A Track call; the arguments are already converted to uint16 and uint64. */
  datatype Call =
    | Loading(count: Short, total: Word)
    | Swapping(count: Short, total: Word, current: Word)
    | Done

  /** History: `counts` and `totals` sum the finished calls, `seenCounts` and `seenTotals` are
      these sums at the last tick. */
  datatype State = State(
    word: Word, calls: seq<Call>, prevCount: nat, prevTotal: Word,
    counts: nat, totals: nat, seenCounts: nat, seenTotals: nat)

  datatype Step =
    | Track(count: int, size: int)
    | Load(call: nat)
    | CompareAndSwap(call: nat)
    | Tick

  /** Go's `count - prevCount` on uint16 and `total - prevTotal` on uint64. */
  function DeltaCount(s: State): nat {
    (CountOf(s.word) - s.prevCount) % COUNTS
  }

  function DeltaTotal(s: State): Word {
    (TotalOf(s.word) - s.prevTotal) % WORD
  }

  /** What the callback is given: no envelopes, or the two sides of the quotient. */
  function Average(s: State): Option<(nat, nat)> {
    if DeltaCount(s) == 0 then None else Some((DeltaTotal(s), DeltaCount(s)))
  }

  function Next(s: State, step: Step): Option<State> {
    match step
    case Track(count, size) => Some(s.(calls := s.calls + [Loading(count % COUNTS, size % WORD)]))
    case Load(i) =>
      if i < |s.calls| && s.calls[i].Loading? then
        Some(s.(calls := s.calls[i := Swapping(s.calls[i].count, s.calls[i].total, s.word)]))
      else None
    case CompareAndSwap(i) =>
      if i >= |s.calls| || !s.calls[i].Swapping? then None
      else
        var c := s.calls[i];
        if s.word != c.current then Some(s.(calls := s.calls[i := Loading(c.count, c.total)]))
        else
          Some(s.(word := EncodeDelta(c.current, c.count, c.total), calls := s.calls[i := Done],
                  counts := s.counts + c.count, totals := s.totals + c.total))
    case Tick =>
      Some(s.(prevCount := CountOf(s.word), prevTotal := TotalOf(s.word), seenCounts := s.counts, seenTotals := s.totals))
  }

  function Init(): State {
    State(0, [], 0, 0, 0, 0, 0, 0)
  }

  function After(steps: seq<Step>): Option<State> {
    if steps == [] then Some(Init())
    else
      var before := After(steps[..|steps| - 1]);
      if before.None? then None else Next(before.value, steps[|steps| - 1])
  }

  ghost predicate Inv(s: State) {
    && s.word == Pack(s.counts, s.totals)
    && s.prevCount == s.seenCounts % COUNTS && s.prevTotal == s.seenTotals % TOTALS
    && s.seenCounts <= s.counts && s.seenTotals <= s.totals
  }

  lemma StepInv(s: State, step: Step, t: State)
    requires Inv(s) && Next(s, step) == Some(t)
    ensures Inv(t)
  {
    PackLanes(s.counts, s.totals);
    if step.CompareAndSwap? {
      var c := s.calls[step.call];
      EncodeKeepsLanes(s.counts, s.totals, c.count, c.total);
    }
  }

  lemma {:induction false} RunInv(steps: seq<Step>)
    ensures After(steps).Some? ==> Inv(After(steps).value)
  {
    if steps != [] {
      var before := After(steps[..|steps| - 1]);
      RunInv(steps[..|steps| - 1]);
      if before.Some? && After(steps).Some? {
        StepInv(before.value, steps[|steps| - 1], After(steps).value);
      }
    }
  }

  /** In every run the word holds both sums, each modulo its own width: no update is lost to a
      failed compare-and-swap, none is applied twice, and no carry leaks. */
  lemma WordHoldsBothSums(steps: seq<Step>, s: State)
    requires After(steps) == Some(s)
    ensures CountOf(s.word) == s.counts % COUNTS
    ensures TotalOf(s.word) == s.totals % TOTALS
  {
    RunInv(steps);
    PackLanes(s.counts, s.totals);
  }

  /** A tick's count is the interval's count modulo 2^16, however often the lane wrapped. */
  lemma TickCount(steps: seq<Step>, s: State)
    requires After(steps) == Some(s)
    ensures DeltaCount(s) == (s.counts - s.seenCounts) % COUNTS
    ensures s.counts - s.seenCounts < COUNTS ==> DeltaCount(s) == s.counts - s.seenCounts
  {
    RunInv(steps);
    WordHoldsBothSums(steps, s);
    CountDifference(s.seenCounts, s.counts);
    assert DeltaCount(s) == (s.counts % COUNTS - s.seenCounts % COUNTS) % COUNTS;
  }

  /** The difference of the totals is exact: see TickTotal. */
  ghost predicate TotalsAgree(s: State) {
    || s.totals / TOTALS == s.seenTotals / TOTALS
    || (s.totals / TOTALS == s.seenTotals / TOTALS + COUNTS && s.totals % TOTALS < s.seenTotals % TOTALS)
  }

  /** The callback is told that nothing was sent exactly when the interval's count is a multiple of
      2^16, and it is given the interval's own total and count exactly when the interval is not empty,
      its count fits 16 bits and its total is exact. */
  lemma TickAverage(steps: seq<Step>, s: State)
    requires After(steps) == Some(s)
    ensures Average(s).None? <==> (s.counts - s.seenCounts) % COUNTS == 0
    ensures Average(s) == Some((s.totals - s.seenTotals, s.counts - s.seenCounts))
       <==> (0 < s.counts - s.seenCounts < COUNTS && TotalsAgree(s))
  {
    RunInv(steps);
    TickCount(steps, s);
    TickTotal(steps, s);
  }

  lemma CountDifference(seen: nat, now: nat)
    requires seen <= now
    ensures (now % COUNTS - seen % COUNTS) % COUNTS == (now - seen) % COUNTS
    ensures now - seen < COUNTS ==> (now - seen) % COUNTS == now - seen
  {
    var d := now % COUNTS - seen % COUNTS;
    assert now - seen == (now / COUNTS - seen / COUNTS) * COUNTS + d;
  }

  /** A tick's total is right modulo 2^48. It is not masked to 48 bits, so it is the interval's total
      exactly when the running total has not wrapped since the last tick (or has wrapped exactly 2^16
      times, which the 64-bit subtraction happens to undo). */
  lemma TickTotal(steps: seq<Step>, s: State)
    requires After(steps) == Some(s)
    ensures DeltaTotal(s) % TOTALS == (s.totals - s.seenTotals) % TOTALS
    ensures DeltaTotal(s) == s.totals - s.seenTotals <==> TotalsAgree(s)
  {
    RunInv(steps);
    PackLanes(s.counts, s.totals);
    TotalExact(s.seenTotals, s.totals);
    TotalModulo(s.seenTotals, s.totals);
  }

  lemma TotalExact(seen: nat, now: nat)
    requires seen <= now
    ensures (now % TOTALS - seen % TOTALS) % WORD == now - seen <==>
      || now / TOTALS == seen / TOTALS
      || (now / TOTALS == seen / TOTALS + COUNTS && now % TOTALS < seen % TOTALS)
  {
    var q, r, q', r' := seen / TOTALS, seen % TOTALS, now / TOTALS, now % TOTALS;
    assert seen == q * TOTALS + r && now == q' * TOTALS + r';
    if r' >= r {
      assert (r' - r) % WORD == r' - r;
    } else {
      assert (r' - r) % WORD == WORD + r' - r;
    }
  }

  lemma NarrowDifference(d: int)
    requires 0 - TOTALS < d < TOTALS
    ensures d % WORD % TOTALS == d % TOTALS
  {
    if d < 0 {
      assert d % WORD == WORD + d;
      assert WORD + d == (COUNTS - 1) * TOTALS + (TOTALS + d);
    }
  }

  lemma TotalModulo(seen: nat, now: nat)
    ensures (now % TOTALS - seen % TOTALS) % WORD % TOTALS == (now - seen) % TOTALS
  {
    var d := now % TOTALS - seen % TOTALS;
    NarrowDifference(d);
    assert now - seen == (now / TOTALS - seen / TOTALS) * TOTALS + d;
  }

  // ---- Everything tracked arrives, and the ticks add up ----

  /** What the Track calls of a run were given, after conversion. */
  function TrackedCounts(steps: seq<Step>): nat {
    if steps == [] then 0
    else
      var last := steps[|steps| - 1];
      TrackedCounts(steps[..|steps| - 1]) + if last.Track? then last.count % COUNTS else 0
  }

  function TrackedTotals(steps: seq<Step>): nat {
    if steps == [] then 0
    else
      var last := steps[|steps| - 1];
      TrackedTotals(steps[..|steps| - 1]) + if last.Track? then last.size % WORD else 0
  }

  function CountLeft(): Call -> int {
    (c: Call) => if c.Done? then 0 else c.count
  }

  function TotalLeft(): Call -> int {
    (c: Call) => if c.Done? then 0 else c.total
  }

  lemma StepTracks(s: State, step: Step, t: State)
    requires Next(s, step) == Some(t)
    ensures t.counts + Sum(t.calls, CountLeft())
         == s.counts + Sum(s.calls, CountLeft()) + if step.Track? then step.count % COUNTS else 0
    ensures t.totals + Sum(t.calls, TotalLeft())
         == s.totals + Sum(s.calls, TotalLeft()) + if step.Track? then step.size % WORD else 0
  {
    match step
    case Track(count, size) =>
      SumAppend(s.calls, Loading(count % COUNTS, size % WORD), CountLeft());
      SumAppend(s.calls, Loading(count % COUNTS, size % WORD), TotalLeft());
    case Load(i) =>
      SumUpdate(s.calls, i, t.calls[i], CountLeft());
      SumUpdate(s.calls, i, t.calls[i], TotalLeft());
    case CompareAndSwap(i) =>
      SumUpdate(s.calls, i, t.calls[i], CountLeft());
      SumUpdate(s.calls, i, t.calls[i], TotalLeft());
    case Tick =>
  }

  /** Nothing tracked is lost: it is in the sums or still with a call that retries. */
  lemma {:induction false} TrackedConserved(steps: seq<Step>, s: State)
    requires After(steps) == Some(s)
    ensures s.counts + Sum(s.calls, CountLeft()) == TrackedCounts(steps)
    ensures s.totals + Sum(s.calls, TotalLeft()) == TrackedTotals(steps)
  {
    if steps != [] {
      var before := After(steps[..|steps| - 1]).value;
      TrackedConserved(steps[..|steps| - 1], before);
      StepTracks(before, steps[|steps| - 1], s);
    }
  }

  /** When all calls have returned, the word holds everything that was tracked. */
  lemma AllTrackedArrives(steps: seq<Step>, s: State)
    requires After(steps) == Some(s) && forall i :: 0 <= i < |s.calls| ==> s.calls[i].Done?
    ensures CountOf(s.word) == TrackedCounts(steps) % COUNTS
    ensures TotalOf(s.word) == TrackedTotals(steps) % TOTALS
  {
    TrackedConserved(steps, s);
    SumAllZero(s.calls, CountLeft());
    SumAllZero(s.calls, TotalLeft());
    WordHoldsBothSums(steps, s);
  }

  /** What the ticks of a run have reported, summed. */
  function ReportedCounts(steps: seq<Step>): nat {
    if steps == [] then 0
    else
      var front := steps[..|steps| - 1];
      ReportedCounts(front) + if steps[|steps| - 1].Tick? && After(front).Some? then DeltaCount(After(front).value) else 0
  }

  function ReportedTotals(steps: seq<Step>): nat {
    if steps == [] then 0
    else
      var front := steps[..|steps| - 1];
      ReportedTotals(front) + if steps[|steps| - 1].Tick? && After(front).Some? then DeltaTotal(After(front).value) else 0
  }

  /** One step more: a tick adds its report, anything else adds nothing. */
  lemma StepReports(steps: seq<Step>, s: State, step: Step, t: State)
    requires After(steps) == Some(s) && Next(s, step) == Some(t)
    requires ReportedCounts(steps) % COUNTS == s.seenCounts % COUNTS
    requires ReportedTotals(steps) % TOTALS == s.seenTotals % TOTALS
    ensures ReportedCounts(steps + [step]) % COUNTS == t.seenCounts % COUNTS
    ensures ReportedTotals(steps + [step]) % TOTALS == t.seenTotals % TOTALS
  {
    assert (steps + [step])[..|steps|] == steps;
    TickCount(steps, s);
    TickTotal(steps, s);
    if step.Tick? {
      CountPieces(ReportedCounts(steps), DeltaCount(s), s.seenCounts, s.counts);
      TotalPieces(ReportedTotals(steps), DeltaTotal(s), s.seenTotals, s.totals);
    }
  }

  lemma {:induction false} ReportsAddUp(steps: seq<Step>, s: State)
    requires After(steps) == Some(s)
    ensures ReportedCounts(steps) % COUNTS == s.seenCounts % COUNTS
    ensures ReportedTotals(steps) % TOTALS == s.seenTotals % TOTALS
  {
    if steps != [] {
      var front, last := steps[..|steps| - 1], steps[|steps| - 1];
      ReportsAddUp(front, After(front).value);
      StepReports(front, After(front).value, last, s);
      assert steps == front + [last];
    }
  }

  /** Whatever the intervals, the ticks' reports and the one to come add up to everything counted,
      modulo the width of each lane. */
  lemma TicksAddUp(steps: seq<Step>, s: State)
    requires After(steps) == Some(s)
    ensures (ReportedCounts(steps) + DeltaCount(s)) % COUNTS == s.counts % COUNTS
    ensures (ReportedTotals(steps) + DeltaTotal(s)) % TOTALS == s.totals % TOTALS
  {
    CountsAddUp(steps, s);
    TotalsAddUp(steps, s);
  }

  lemma CountsAddUp(steps: seq<Step>, s: State)
    requires After(steps) == Some(s)
    ensures (ReportedCounts(steps) + DeltaCount(s)) % COUNTS == s.counts % COUNTS
  {
    ReportsAddUp(steps, s);
    TickCount(steps, s);
    CountPieces(ReportedCounts(steps), DeltaCount(s), s.seenCounts, s.counts);
  }

  lemma TotalsAddUp(steps: seq<Step>, s: State)
    requires After(steps) == Some(s)
    ensures (ReportedTotals(steps) + DeltaTotal(s)) % TOTALS == s.totals % TOTALS
  {
    ReportsAddUp(steps, s);
    TickTotal(steps, s);
    TotalPieces(ReportedTotals(steps), DeltaTotal(s), s.seenTotals, s.totals);
  }

  lemma CountPieces(reported: nat, delta: nat, seen: nat, now: nat)
    requires reported % COUNTS == seen % COUNTS && delta % COUNTS == (now - seen) % COUNTS
    ensures (reported + delta) % COUNTS == now % COUNTS
  {
    var a, b := reported / COUNTS - seen / COUNTS, delta / COUNTS - (now - seen) / COUNTS;
    assert reported == seen + a * COUNTS && delta == now - seen + b * COUNTS;
    assert reported + delta == now + (a + b) * COUNTS;
  }

  lemma TotalPieces(reported: nat, delta: nat, seen: nat, now: nat)
    requires reported % TOTALS == seen % TOTALS && delta % TOTALS == (now - seen) % TOTALS
    ensures (reported + delta) % TOTALS == now % TOTALS
  {
    var a, b := reported / TOTALS - seen / TOTALS, delta / TOTALS - (now - seen) / TOTALS;
    assert reported == seen + a * TOTALS && delta == now - seen + b * TOTALS;
    assert reported + delta == now + (a + b) * TOTALS;
  }

  lemma Extend(steps: seq<Step>, step: Step)
    requires After(steps).Some?
    ensures After(steps + [step]) == Next(After(steps).value, step)
  {
    assert (steps + [step])[..|steps|] == steps;
  }

  /** One Track call from load to swap, with nothing in between. */
  lemma TrackAlone(steps: seq<Step>, count: Short, size: Word) returns (more: seq<Step>)
    requires After(steps).Some?
    requires Inv(After(steps).value)
    ensures After(more).Some?
    ensures var s, t := After(steps).value, After(more).value;
            t == s.(word := t.word, calls := t.calls, counts := s.counts + count, totals := s.totals + size)
  {
    var i := |After(steps).value.calls|;
    Extend(steps, Track(count, size));
    var a := steps + [Track(count, size)];
    assert After(a).value.calls[i] == Loading(count, size);
    Extend(a, Load(i));
    var b := a + [Load(i)];
    Extend(b, CompareAndSwap(i));
    more := b + [CompareAndSwap(i)];
  }

  /** A call that has to retry gets through as soon as nobody comes in between. */
  lemma RetriesAlone(steps: seq<Step>, s: State, i: nat) returns (more: seq<Step>, t: State)
    requires After(steps) == Some(s) && i < |s.calls| && !s.calls[i].Done?
    ensures After(more) == Some(t) && t.calls == s.calls[i := Done]
    ensures t.counts == s.counts + s.calls[i].count && t.totals == s.totals + s.calls[i].total
  {
    var u := s;
    more := steps;
    if s.calls[i].Swapping? && s.word != s.calls[i].current {
      Extend(more, CompareAndSwap(i));
      more := more + [CompareAndSwap(i)];
      u := After(more).value;
    }
    if u.calls[i].Loading? {
      Extend(more, Load(i));
      more := more + [Load(i)];
      u := After(more).value;
    }
    Extend(more, CompareAndSwap(i));
    more := more + [CompareAndSwap(i)];
    t := After(more).value;
  }

  /** The total can be wrong: an interval of one byte that wraps the 48-bit lane. */
  lemma TickTotalWraps() returns (steps: seq<Step>)
    ensures After(steps).Some?
    ensures var s := After(steps).value;
            s.totals - s.seenTotals == 1 && DeltaTotal(s) == WORD - TOTALS + 1
  {
    assert After([]) == Some(Init());
    steps := TrackAlone([], 1, TOTALS - 1);
    Extend(steps, Tick);
    steps := steps + [Tick];
    RunInv(steps);
    steps := TrackAlone(steps, 1, 1);
    RunInv(steps);
    PackLanes(After(steps).value.counts, After(steps).value.totals);
  }

  /** An interval can go unreported: two batches of 32768 envelopes, however large they are. */
  lemma IntervalUnreported(size: Word) returns (steps: seq<Step>)
    ensures After(steps).Some?
    ensures var s := After(steps).value;
            s.counts - s.seenCounts == 65536 && s.totals - s.seenTotals == 2 * size && Average(s).None?
  {
    assert After([]) == Some(Init());
    steps := TrackAlone([], 0x8000, size);
    RunInv(steps);
    steps := TrackAlone(steps, 0x8000, size);
    TickAverage(steps, After(steps).value);
  }

  // ---- The averager itself ----

  class EnvelopeAverager {
    var storage: Word
    var prevCount: nat
    var prevTotal: Word
    ghost var counts: nat
    ghost var totals: nat
    ghost var seenCounts: nat

    ghost predicate Valid()
      reads this
    {
      storage == Pack(counts, totals) && prevCount == seenCounts % COUNTS && seenCounts <= counts
    }

    constructor ()
      ensures Valid() && counts == totals == seenCounts == 0
    {
      storage, prevCount, prevTotal := 0, 0, 0;
      counts, totals, seenCounts := 0, 0, 0;
    }

    /** The retry loop; with nobody else writing, the first compare-and-swap succeeds. */
    method Track(count: int, size: int)
      requires Valid()
      modifies this
      ensures Valid()
      ensures counts == old(counts) + count % COUNTS && totals == old(totals) + size % WORD
      ensures seenCounts == old(seenCounts)
    {
      var swapped := false;
      while !swapped
        invariant Valid() && seenCounts == old(seenCounts)
        invariant !swapped ==> counts == old(counts) && totals == old(totals)
        invariant swapped ==> counts == old(counts) + count % COUNTS && totals == old(totals) + size % WORD
        decreases !swapped
      {
        var current := storage;
        var newValue := EncodeDelta(current, count % COUNTS, size % WORD);
        if storage == current {
          EncodeKeepsLanes(counts, totals, count % COUNTS, size % WORD);
          storage := newValue;
          counts, totals := counts + count % COUNTS, totals + size % WORD;
          swapped := true;
        }
      }
    }

    /** The body of the ticker loop. */
    method TickOnce() returns (deltaCount: nat, deltaTotal: Word)
      requires Valid()
      modifies this
      ensures Valid()
      ensures deltaCount == (counts - old(seenCounts)) % COUNTS
      ensures deltaTotal == (totals % TOTALS - old(prevTotal)) % WORD
      ensures seenCounts == counts == old(counts) && totals == old(totals) && storage == old(storage)
      ensures prevTotal == totals % TOTALS
    {
      PackLanes(counts, totals);
      var count, total := CountOf(storage), TotalOf(storage);
      deltaCount := (count - prevCount) % COUNTS;
      deltaTotal := (total - prevTotal) % WORD;
      prevCount, prevTotal := count, total;
      seenCounts := counts;
    }
  }
}
