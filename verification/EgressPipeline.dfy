/** One egress stream: envelopes are pulled from the source, kept in a bounded buffer or dropped, and
    sent one by one (Receiver) or in batches (BatchedReceiver). */
module EgressPipeline {
  import opened Base

  const BUFFER_SIZE: nat := 10000

  datatype Sender = Looping | Draining | Succeeded | Errored

  /** History: `received`, `dropped`, `sent` and `lost` are the envelopes themselves; the program
      keeps only the counts of the dropped and the sent ones. */
  datatype State<T> = State(
    batched: bool,
    received: seq<T>,
    hand: Option<T>,      // pulled, neither kept nor dropped yet
    dropped: seq<T>,
    buffer: seq<T>,
    ended: bool,          // the source has ended; a batched sender has been told so
    closed: bool,         // the buffer is closed
    pending: seq<T>,      // taken from the buffer, not yet sent
    sent: seq<T>,
    lost: seq<T>,         // handed to a Send that failed
    sender: Sender)

  datatype Step<T> =
    | Pull(e: T)          // rx yields an envelope
    | Keep                // into the buffer, or dropped when it is full
    | End                 // rx fails or ends
    | Close
    | Take                // the sender takes the oldest buffered envelope
    | Send(ok: bool)
    | Drain               // a batched sender learns that the source has ended
    | GiveUp              // a batched sender learns that a Send failed
    | Finish

  function Init<T>(batched: bool): State<T> {
    State(batched, [], None, [], [], false, false, [], [], [], Looping)
  }

  predicate Active<T>(s: State<T>) {
    s.sender.Looping? || s.sender.Draining?
  }

  function Next<T>(s: State<T>, step: Step<T>): Option<State<T>> {
    match step
    case Pull(e) =>
      if s.ended || s.hand.Some? then None else Some(s.(hand := Some(e), received := s.received + [e]))
    case Keep =>
      if s.hand.None? then None
      else if |s.buffer| < BUFFER_SIZE then Some(s.(hand := None, buffer := s.buffer + [s.hand.value]))
      else Some(s.(hand := None, dropped := s.dropped + [s.hand.value]))
    case End => if s.hand.None? && !s.ended then Some(s.(ended := true)) else None
    case Close => if s.ended then Some(s.(closed := true)) else None
    case Take =>
      if Active(s) && s.buffer != [] && (s.batched || s.pending == []) then
        Some(s.(buffer := s.buffer[1..], pending := s.pending + [s.buffer[0]]))
      else None
    case Send(ok) =>
      if !Active(s) || s.pending == [] then None
      else if ok then Some(s.(sent := s.sent + s.pending, pending := []))
      else Some(s.(lost := s.lost + s.pending, pending := [], sender := if s.batched then s.sender else Errored))
    case Drain => if s.batched && s.sender.Looping? && s.ended then Some(s.(sender := Draining)) else None
    case GiveUp => if s.batched && s.sender.Looping? && s.lost != [] then Some(s.(sender := Errored)) else None
    case Finish =>
      if s.closed && s.buffer == [] && s.pending == [] && s.sender == (if s.batched then Draining else Looping) then
        Some(s.(sender := Succeeded))
      else None
  }

  function After<T>(batched: bool, steps: seq<Step<T>>): Option<State<T>> {
    if steps == [] then Some(Init(batched))
    else
      var before := After(batched, steps[..|steps| - 1]);
      if before.None? then None else Next(before.value, steps[|steps| - 1])
  }

  // ---- Subsequences ----

  /** The elements of a occur in b in the same order. */
  ghost predicate Subsequence<T>(a: seq<T>, b: seq<T>) {
    a == [] ||
    (b != [] && (Subsequence(a, b[..|b| - 1])
                 || (a[|a| - 1] == b[|b| - 1] && Subsequence(a[..|a| - 1], b[..|b| - 1]))))
  }

  lemma SubsequenceSkip<T>(a: seq<T>, b: seq<T>, x: T)
    requires Subsequence(a, b)
    ensures Subsequence(a, b + [x])
  {
    assert (b + [x])[..|b|] == b;
  }

  lemma SubsequenceTake<T>(a: seq<T>, b: seq<T>, x: T)
    requires Subsequence(a, b)
    ensures Subsequence(a + [x], b + [x])
  {
    assert (b + [x])[..|b|] == b && (a + [x])[..|a|] == a;
  }

  /** Leaving out the last element keeps a subsequence. */
  lemma {:induction false} SubsequenceInit<T>(a: seq<T>, b: seq<T>)
    requires a != [] && Subsequence(a, b)
    ensures Subsequence(a[..|a| - 1], b)
  {
    var front := b[..|b| - 1];
    if Subsequence(a, front) {
      SubsequenceInit(a, front);
    }
    assert b == front + [b[|b| - 1]];
    SubsequenceSkip(a[..|a| - 1], front, b[|b| - 1]);
  }

  /** Leaving out a middle part keeps a subsequence. */
  lemma {:induction false} SubsequenceCut<T>(a: seq<T>, m: seq<T>, c: seq<T>, b: seq<T>)
    requires Subsequence(a + m + c, b)
    ensures Subsequence(a + c, b)
    decreases |b|, |m|
  {
    var all := a + m + c;
    if m == [] {
      assert all == a + c;
    } else if c == [] {
      assert all[..|all| - 1] == a + m[..|m| - 1] + c;
      SubsequenceInit(all, b);
      SubsequenceCut(a, m[..|m| - 1], c, b);
    } else {
      var front, last := b[..|b| - 1], b[|b| - 1];
      assert b == front + [last];
      if Subsequence(all, front) {
        SubsequenceCut(a, m, c, front);
        SubsequenceSkip(a + c, front, last);
      } else {
        var c' := c[..|c| - 1];
        assert all[..|all| - 1] == a + m + c';
        SubsequenceCut(a, m, c', front);
        SubsequenceTake(a + c', front, last);
        assert a + c' + [last] == a + c;
      }
    }
  }

  // ---- Conservation and order ----

  function InHand<T>(s: State<T>): seq<T> {
    if s.hand.Some? then [s.hand.value] else []
  }

  /** Every received envelope is in exactly one place. */
  ghost predicate Conserved<T>(s: State<T>) {
    multiset(s.received)
    == multiset(s.sent) + multiset(s.lost) + multiset(s.dropped) + multiset(s.pending) + multiset(s.buffer) + multiset(InHand(s))
  }

  ghost predicate Inv<T>(s: State<T>) {
    && Conserved(s)
    && |s.buffer| <= BUFFER_SIZE
    && Subsequence(s.sent + s.pending + s.buffer + InHand(s), s.received)
    && (s.ended ==> s.hand.None?)
    && (s.closed ==> s.ended)
    && (s.sender.Succeeded? ==> s.closed && s.buffer == [] && s.pending == [])
    && (!s.batched && s.sender.Succeeded? ==> s.lost == [])
    && (!s.batched && s.sender.Looping? ==> s.lost == [])
    && (!s.batched ==> !s.sender.Draining?)
    && (s.sender.Errored? ==> s.lost != [])
  }

  lemma KeepOrder<T>(s: State<T>, t: State<T>)
    requires Subsequence(s.sent + s.pending + s.buffer + InHand(s), s.received) && Next(s, Keep) == Some(t)
    ensures Subsequence(t.sent + t.pending + t.buffer + InHand(t), t.received)
  {
    var e := s.hand.value;
    var front := s.sent + s.pending + s.buffer;
    assert InHand(s) == [e] && InHand(t) == [];
    if |s.buffer| < BUFFER_SIZE {
      assert t.sent + t.pending + t.buffer + InHand(t) == front + [e];
    } else {
      SubsequenceInit(front + [e], s.received);
      assert (front + [e])[..|front|] == front;
      assert t.sent + t.pending + t.buffer + InHand(t) == front;
    }
  }

  lemma KeepConserved<T>(s: State<T>, t: State<T>)
    requires Conserved(s) && Next(s, Keep) == Some(t)
    ensures Conserved(t)
  {
    assert InHand(s) == [s.hand.value] && InHand(t) == [];
  }

  lemma KeepInv<T>(s: State<T>, t: State<T>)
    requires Inv(s) && Next(s, Keep) == Some(t)
    ensures Inv(t)
  {
    KeepOrder(s, t);
    KeepConserved(s, t);
  }

  lemma PullOrder<T>(s: State<T>, e: T, t: State<T>)
    requires Subsequence(s.sent + s.pending + s.buffer + InHand(s), s.received) && Next(s, Pull(e)) == Some(t)
    ensures Subsequence(t.sent + t.pending + t.buffer + InHand(t), t.received)
  {
    var front := s.sent + s.pending + s.buffer;
    assert front + InHand(s) == front;
    SubsequenceTake(front, s.received, e);
  }

  lemma PullConserved<T>(s: State<T>, e: T, t: State<T>)
    requires Conserved(s) && Next(s, Pull(e)) == Some(t)
    ensures Conserved(t)
  {
    assert InHand(s) == [] && InHand(t) == [e];
  }

  lemma PullInv<T>(s: State<T>, e: T, t: State<T>)
    requires Inv(s) && Next(s, Pull(e)) == Some(t)
    ensures Inv(t)
  {
    PullOrder(s, e, t);
    PullConserved(s, e, t);
  }

  lemma TakeOrder<T>(s: State<T>, t: State<T>)
    requires Subsequence(s.sent + s.pending + s.buffer + InHand(s), s.received) && Next(s, Take) == Some(t)
    ensures Subsequence(t.sent + t.pending + t.buffer + InHand(t), t.received)
  {
    assert s.buffer == [s.buffer[0]] + s.buffer[1..];
    assert s.sent + s.pending + s.buffer == s.sent + t.pending + t.buffer;
  }

  lemma TakeConserved<T>(s: State<T>, t: State<T>)
    requires Conserved(s) && Next(s, Take) == Some(t)
    ensures Conserved(t)
  {
    assert s.buffer == [s.buffer[0]] + s.buffer[1..];
    assert multiset(t.pending) + multiset(t.buffer) == multiset(s.pending) + multiset(s.buffer);
  }

  lemma TakeInv<T>(s: State<T>, t: State<T>)
    requires Inv(s) && Next(s, Take) == Some(t)
    ensures Inv(t)
  {
    TakeOrder(s, t);
    TakeConserved(s, t);
  }

  lemma SendOrder<T>(s: State<T>, ok: bool, t: State<T>)
    requires Subsequence(s.sent + s.pending + s.buffer + InHand(s), s.received) && Next(s, Send(ok)) == Some(t)
    ensures Subsequence(t.sent + t.pending + t.buffer + InHand(t), t.received)
  {
    var rest := s.buffer + InHand(s);
    assert s.sent + s.pending + s.buffer + InHand(s) == s.sent + s.pending + rest;
    if ok {
      assert t.sent + t.pending + t.buffer + InHand(t) == s.sent + s.pending + rest;
    } else {
      assert t.sent + t.pending + t.buffer + InHand(t) == s.sent + rest;
      SubsequenceCut(s.sent, s.pending, rest, s.received);
    }
  }

  lemma SendConserved<T>(s: State<T>, ok: bool, t: State<T>)
    requires Conserved(s) && Next(s, Send(ok)) == Some(t)
    ensures Conserved(t)
  {
    assert multiset(t.sent) + multiset(t.lost) == multiset(s.sent) + multiset(s.lost) + multiset(s.pending);
    assert multiset(t.pending) == multiset{};
  }

  lemma SendInv<T>(s: State<T>, ok: bool, t: State<T>)
    requires Inv(s) && Next(s, Send(ok)) == Some(t)
    ensures Inv(t)
  {
    SendOrder(s, ok, t);
    SendConserved(s, ok, t);
  }

  /** The steps that only open and close things. */
  lemma ControlInv<T>(s: State<T>, step: Step<T>, t: State<T>)
    requires Inv(s) && Next(s, step) == Some(t)
    requires step.End? || step.Close? || step.Drain? || step.GiveUp? || step.Finish?
    ensures Inv(t)
  {
    assert t == s.(ended := t.ended, closed := t.closed, sender := t.sender);
  }

  lemma StepInv<T>(s: State<T>, step: Step<T>, after: Option<State<T>>)
    requires Inv(s) && Next(s, step) == after
    ensures after.Some? ==> Inv(after.value)
  {
    if after.Some? {
      match step
      case Pull(e) => PullInv(s, e, after.value);
      case Keep => KeepInv(s, after.value);
      case Take => TakeInv(s, after.value);
      case Send(ok) => SendInv(s, ok, after.value);
      case _ => ControlInv(s, step, after.value);
    }
  }

  lemma KindKept<T>(s: State<T>, step: Step<T>)
    ensures Next(s, step).Some? ==> Next(s, step).value.batched == s.batched
  {
  }

  lemma {:induction false} RunInv<T>(batched: bool, steps: seq<Step<T>>)
    ensures var r := After(batched, steps); r.Some? ==> Inv(r.value) && r.value.batched == batched
  {
    if steps != [] {
      var before := After(batched, steps[..|steps| - 1]);
      RunInv(batched, steps[..|steps| - 1]);
      if before.Some? {
        StepInv(before.value, steps[|steps| - 1], After(batched, steps));
        KindKept(before.value, steps[|steps| - 1]);
      }
    }
  }

  /** At every step of either kind of stream: what was received is sent, dropped, buffered, in hand or
      lost to a failed Send, each envelope in one place; the buffer keeps its bound; and the sent
      envelopes keep the order in which they were received. */
  lemma EgressConserved<T>(batched: bool, steps: seq<Step<T>>, s: State<T>)
    requires After(batched, steps) == Some(s)
    ensures multiset(s.received) == multiset(s.sent) + multiset(s.lost) + multiset(s.dropped)
                                    + multiset(s.pending) + multiset(s.buffer) + multiset(InHand(s))
    ensures |s.received| == |s.sent| + |s.lost| + |s.dropped| + |s.pending| + |s.buffer| + |InHand(s)|
    ensures |s.buffer| <= BUFFER_SIZE
    ensures Subsequence(s.sent, s.received)
  {
    RunInv(batched, steps);
    SizesAdd(s);
    var tail := s.pending + s.buffer + InHand(s);
    assert s.sent + s.pending + s.buffer + InHand(s) == s.sent + tail + [];
    SubsequenceCut(s.sent, tail, [], s.received);
    assert s.sent + [] == s.sent;
  }

  lemma SizesAdd<T>(s: State<T>)
    requires Conserved(s)
    ensures |s.received| == |s.sent| + |s.lost| + |s.dropped| + |s.pending| + |s.buffer| + |InHand(s)|
  {
    assert |multiset(s.received)| == |s.received|;
  }

  /** What the source yielded, in order. */
  function Pulled<T>(steps: seq<Step<T>>): seq<T> {
    if steps == [] then []
    else
      var last := steps[|steps| - 1];
      Pulled(steps[..|steps| - 1]) + if last.Pull? then [last.e] else []
  }

  lemma {:induction false} ReceivedIsPulled<T>(batched: bool, steps: seq<Step<T>>, s: State<T>)
    requires After(batched, steps) == Some(s)
    ensures s.received == Pulled(steps)
  {
    if steps != [] {
      var before := After(batched, steps[..|steps| - 1]).value;
      ReceivedIsPulled(batched, steps[..|steps| - 1], before);
      assert s.received == before.received + if steps[|steps| - 1].Pull? then [steps[|steps| - 1].e] else [];
    }
  }

  /** No envelope of this run finds the buffer full. */
  ghost predicate NeverFull<T>(batched: bool, steps: seq<Step<T>>) {
    forall k :: 0 <= k < |steps| && steps[k].Keep? && After(batched, steps[..k]).Some? ==>
      |After(batched, steps[..k]).value.buffer| != 10000
  }

  lemma NeverFullMore<T>(batched: bool, front: seq<Step<T>>, last: Step<T>)
    ensures NeverFull(batched, front + [last]) <==>
      NeverFull(batched, front) && (last.Keep? && After(batched, front).Some? ==> |After(batched, front).value.buffer| != 10000)
  {
    var steps := front + [last];
    forall k | 0 <= k < |steps| ensures steps[..k] == if k == |front| then front else front[..k] {
    }
    if NeverFull(batched, steps) {
      assert steps[|front|] == last;
      forall k | 0 <= k < |front| && front[k].Keep? && After(batched, front[..k]).Some?
        ensures |After(batched, front[..k]).value.buffer| != 10000
      {
        assert steps[k] == front[k] && steps[..k] == front[..k];
      }
    }
  }

  lemma BufferBound<T>(batched: bool, steps: seq<Step<T>>, s: State<T>)
    requires After(batched, steps) == Some(s)
    ensures |s.buffer| <= 10000
  {
    RunInv(batched, steps);
  }

  lemma KeepDrops<T>(s: State<T>, step: Step<T>, t: State<T>)
    requires |s.buffer| <= 10000 && Next(s, step) == Some(t)
    ensures |t.dropped| == |s.dropped| + if step.Keep? && |s.buffer| == 10000 then 1 else 0
  {
  }

  /** An envelope is dropped exactly when it finds 10000 others in the buffer. */
  lemma {:induction false} DroppedExactly<T>(batched: bool, steps: seq<Step<T>>, s: State<T>)
    requires After(batched, steps) == Some(s)
    ensures s.dropped == [] <==> NeverFull(batched, steps)
  {
    if steps != [] {
      var front, last := steps[..|steps| - 1], steps[|steps| - 1];
      var before := After(batched, front).value;
      DroppedExactly(batched, front, before);
      BufferBound(batched, front, before);
      KeepDrops(before, last, s);
      assert steps == front + [last];
      NeverFullMore(batched, front, last);
    }
  }

  /** No Send of this run fails. */
  ghost predicate NoSendFails<T>(steps: seq<Step<T>>) {
    forall k :: 0 <= k < |steps| && steps[k].Send? ==> steps[k].ok
  }

  lemma StepLoses<T>(s: State<T>, step: Step<T>, t: State<T>)
    requires Next(s, step) == Some(t)
    ensures t.lost == [] <==> s.lost == [] && (step.Send? ==> step.ok)
  {
  }

  /** Envelopes are lost exactly by failing Sends. */
  lemma {:induction false} LostExactly<T>(batched: bool, steps: seq<Step<T>>, s: State<T>)
    requires After(batched, steps) == Some(s)
    ensures s.lost == [] <==> NoSendFails(steps)
  {
    if steps != [] {
      var front, last := steps[..|steps| - 1], steps[|steps| - 1];
      var before := After(batched, front).value;
      LostExactly(batched, front, before);
      StepLoses(before, last, s);
      assert steps == front + [last];
    }
  }

  /** A stream that ends without an error has sent or dropped everything it received if and only if
      none of its Sends failed; for a Receiver stream that is always so. */
  lemma SuccessfulEnd<T>(batched: bool, steps: seq<Step<T>>, s: State<T>)
    requires After(batched, steps) == Some(s) && s.sender.Succeeded?
    ensures |s.received| == |s.sent| + |s.dropped| + |s.lost|
    ensures multiset(s.received) == multiset(s.sent) + multiset(s.dropped) + multiset(s.lost)
    ensures multiset(s.received) == multiset(s.sent) + multiset(s.dropped) <==> NoSendFails(steps)
    ensures !batched ==> NoSendFails(steps) && s.lost == []
  {
    EgressConserved(batched, steps, s);
    RunInv(batched, steps);
    LostExactly(batched, steps, s);
    NothingLeft(s);
  }

  lemma NothingLeft<T>(s: State<T>)
    requires Inv(s) && s.sender.Succeeded?
    ensures multiset(s.received) == multiset(s.sent) + multiset(s.dropped) + multiset(s.lost)
    ensures multiset(s.received) == multiset(s.sent) + multiset(s.dropped) <==> s.lost == []
  {
    assert InHand(s) == [];
    assert |multiset(s.lost)| == |s.lost|;
    assert multiset(s.received) == multiset(s.sent) + multiset(s.dropped) + multiset(s.lost);
    assert |multiset(s.received)| == |multiset(s.sent) + multiset(s.dropped)| + |s.lost|;
  }

  /** A Receiver stream has failed exactly when a Send has; a batched one only if a Send has. */
  lemma ErrorsAreSends<T>(batched: bool, steps: seq<Step<T>>, s: State<T>)
    requires After(batched, steps) == Some(s)
    ensures s.sender.Errored? ==> !NoSendFails(steps)
    ensures !batched && !NoSendFails(steps) ==> s.sender.Errored?
  {
    RunInv(batched, steps);
    LostExactly(batched, steps, s);
  }

  /** A batched stream whose loop has not noticed the end of the source can still report a failed Send. */
  lemma BatchFailureReported<T>(steps: seq<Step<T>>, s: State<T>)
    requires After(true, steps) == Some(s) && s.sender.Looping? && !NoSendFails(steps)
    ensures Next(s, GiveUp) == Some(s.(sender := Errored))
  {
    RunInv(true, steps);
    LostExactly(true, steps, s);
  }

  /** The run ended without an error although its only envelope was lost. */
  ghost predicate LostSilently<T>(e: T, steps: seq<Step<T>>) {
    && After(true, steps).Some?
    && var s := After(true, steps).value;
       s.sender.Succeeded? && s.received == [e] && s.lost == [e] && s.sent == [] && s.dropped == []
  }

  /** A batched stream can lose a batch and still end without an error, when a Send fails after the
      source has ended ... */
  lemma BatchLostSilently<T>(e: T) returns (steps: seq<Step<T>>)
    ensures LostSilently(e, steps)
  {
    steps := Extended(true, [], Pull(e));
    steps := Extended(true, steps, Keep);
    steps := Extended(true, steps, End);
    steps := Extended(true, steps, Close);
    steps := Extended(true, steps, Drain);
    steps := Extended(true, steps, Take);
    steps := Extended(true, steps, Send(false));
    steps := Extended(true, steps, Finish);
  }

  lemma FailsEarly<T>(e: T) returns (steps: seq<Step<T>>)
    ensures After(true, steps) == Some(Init<T>(true).(received := [e], lost := [e]))
  {
    var s := Init<T>(true);
    steps := Extended(true, [], Pull(e));
    steps := Extended(true, steps, Keep);
    assert [] + [e] == [e] && [e][1..] == [];
    assert After(true, steps) == Some(s.(received := [e], buffer := [e]));
    steps := Extended(true, steps, Take);
    assert After(true, steps) == Some(s.(received := [e], pending := [e]));
    steps := Extended(true, steps, Send(false));
  }

  /** ... and also when it fails before, if the end is noticed before the failure. */
  lemma BatchLostEarly<T>(e: T) returns (first: seq<Step<T>>, steps: seq<Step<T>>)
    ensures After(true, first).Some? && After(true, first).value.lost == [e] && !After(true, first).value.ended
    ensures first <= steps && LostSilently(e, steps)
  {
    first := FailsEarly(e);
    steps := Extended(true, first, End);
    steps := Extended(true, steps, Close);
    steps := Extended(true, steps, Drain);
    steps := Extended(true, steps, Finish);
  }

  // ---- A stream can always be finished ----

  /** The source has ended and the sender knows; only the buffer is left to send. */
  ghost predicate OnlyBuffer<T>(s: State<T>) {
    s.closed && s.ended && s.hand.None? && s.sender == if s.batched then Draining else Looping
  }

  lemma SendsOne<T>(batched: bool, steps: seq<Step<T>>, s: State<T>) returns (more: seq<Step<T>>)
    requires After(batched, steps) == Some(s) && OnlyBuffer(s) && s.pending == [] && s.buffer != []
    ensures After(batched, more) == Some(s.(buffer := s.buffer[1..], sent := s.sent + [s.buffer[0]]))
  {
    var e := s.buffer[0];
    more := Extended(batched, steps, Take);
    assert [] + [e] == [e];
    assert After(batched, more) == Some(s.(buffer := s.buffer[1..], pending := [e]));
    more := Extended(batched, more, Send(true));
  }

  lemma Finishes<T>(batched: bool, steps: seq<Step<T>>, s: State<T>) returns (more: seq<Step<T>>, t: State<T>)
    requires After(batched, steps) == Some(s) && OnlyBuffer(s) && s.pending == [] && s.buffer == []
    ensures After(batched, more) == Some(t) && t == s.(sent := s.sent + s.buffer, buffer := [], sender := Succeeded)
  {
    more := Extended(batched, steps, Finish);
    t := After(batched, more).value;
    assert s.sent + s.buffer == s.sent;
  }

  lemma {:induction false} SendsRest<T>(batched: bool, steps: seq<Step<T>>, s: State<T>) returns (more: seq<Step<T>>, t: State<T>)
    requires After(batched, steps) == Some(s) && OnlyBuffer(s) && s.pending == []
    ensures After(batched, more) == Some(t)
    ensures t == s.(sent := s.sent + s.buffer, buffer := [], sender := Succeeded)
    decreases |s.buffer|
  {
    if s.buffer == [] {
      more, t := Finishes(batched, steps, s);
    } else {
      more := SendsOne(batched, steps, s);
      more, t := SendsRest(batched, more, s.(buffer := s.buffer[1..], sent := s.sent + [s.buffer[0]]));
      assert s.sent + [s.buffer[0]] + s.buffer[1..] == s.sent + s.buffer;
    }
  }

  lemma SendsPending<T>(batched: bool, steps: seq<Step<T>>, s: State<T>) returns (more: seq<Step<T>>, t: State<T>)
    requires After(batched, steps) == Some(s) && Active(s)
    ensures After(batched, more) == Some(t) && t == s.(sent := s.sent + s.pending, pending := [])
  {
    if s.pending == [] {
      more, t := steps, s;
      assert s.sent + [] == s.sent;
    } else {
      more := Extended(batched, steps, Send(true));
      t := After(batched, more).value;
    }
  }

  /** The envelope in hand, as far as there is room for it. */
  function Kept<T>(s: State<T>): seq<T> {
    if s.hand.Some? && |s.buffer| < BUFFER_SIZE then [s.hand.value] else []
  }

  lemma PutsAway<T>(batched: bool, steps: seq<Step<T>>, s: State<T>) returns (more: seq<Step<T>>, t: State<T>)
    requires After(batched, steps) == Some(s)
    ensures After(batched, more) == Some(t)
    ensures t == s.(hand := None, buffer := s.buffer + Kept(s), dropped := t.dropped)
  {
    if s.hand.None? {
      more, t := steps, s;
      assert s.buffer + [] == s.buffer;
    } else {
      more := Extended(batched, steps, Keep);
      t := After(batched, more).value;
    }
  }

  lemma Ends<T>(batched: bool, steps: seq<Step<T>>, s: State<T>) returns (more: seq<Step<T>>, t: State<T>)
    requires After(batched, steps) == Some(s) && s.hand.None? && Active(s)
    requires s.batched == batched && (batched || s.sender.Looping?)
    ensures After(batched, more) == Some(t) && OnlyBuffer(t)
    ensures t == s.(ended := true, closed := true, sender := if batched then Draining else Looping)
  {
    more := steps;
    if !s.ended {
      more := Extended(batched, more, End);
    }
    more := Extended(batched, more, Close);
    if s.batched && s.sender.Looping? {
      more := Extended(batched, more, Drain);
    }
    t := After(batched, more).value;
  }

  /** From every point of every run at which the sender has not returned: if the source ends now and no
      further Send fails, the stream ends without an error, having sent everything that was buffered. */
  lemma CanFinish<T>(batched: bool, steps: seq<Step<T>>, s: State<T>) returns (more: seq<Step<T>>, t: State<T>)
    requires After(batched, steps) == Some(s) && Active(s)
    ensures After(batched, more) == Some(t) && t.sender.Succeeded?
    ensures t.received == s.received && t.lost == s.lost
    ensures t.sent == s.sent + s.pending + (s.buffer + Kept(s))
  {
    RunInv(batched, steps);
    var a, b, c;
    more, a := PutsAway(batched, steps, s);
    more, b := SendsPending(batched, more, a);
    more, c := Ends(batched, more, b);
    more, t := SendsRest(batched, more, c);
  }

  lemma Extended<T>(batched: bool, steps: seq<Step<T>>, step: Step<T>) returns (more: seq<Step<T>>)
    requires After(batched, steps).Some?
    ensures steps <= more
    ensures After(batched, more) == Next(After(batched, steps).value, step)
  {
    more := steps + [step];
    assert more[..|steps|] == steps;
  }
}
