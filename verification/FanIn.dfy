/** One consumer fed by any number of router streams through one buffered channel: the read loop of
    every stream, the channel, and the receive function handed to the caller. */
module FanIn {
  import opened Base

  /** `received` is history: the payloads of every batch so far. `pending` is the part of the
      current batch not yet in the channel, `batch` the size of that batch until it is credited. */
  datatype Stream<T> = Stream(received: seq<T>, pending: seq<T>, batch: Option<nat>, open: bool)

  /** A payload on its way, with the stream it came from (history). */
  datatype Parcel<T> = Parcel(stream: nat, payload: T)

  datatype State<T> = State(
    size: nat,
    streams: seq<Stream<T>>,
    data: seq<Parcel<T>>,
    read: seq<Parcel<T>>,
    cancelled: bool,
    ingress: nat)

  datatype Step<T> =
    | Open
    | Batch(stream: nat, payload: seq<T>)   // the stream delivers a batch
    | Push(stream: nat)                     // into the buffer
    | Handoff(stream: nat)                  // straight to a waiting receiver
    | Credit(stream: nat)                   // count the finished batch
    | Fail(stream: nat)                     // Recv on the stream returns an error
    | Abandon(stream: nat)                  // the context wins the select in mid-batch
    | Read
    | Cancel

  function Init<T>(size: nat): State<T> {
    State(size, [], [], [], false, 0)
  }

  function Put<T>(s: State<T>, i: nat, t: Stream<T>): State<T>
    requires i < |s.streams|
  {
    s.(streams := s.streams[i := t])
  }

  function Next<T>(s: State<T>, step: Step<T>): Option<State<T>> {
    match step
    case Open => Some(s.(streams := s.streams + [Stream([], [], None, true)]))
    case Read => if s.data == [] then None else Some(s.(read := s.read + [s.data[0]], data := s.data[1..]))
    case Cancel => Some(s.(cancelled := true))
    case _ =>
      if step.stream >= |s.streams| || !s.streams[step.stream].open then None
      else StreamNext(s, step, step.stream, s.streams[step.stream])
  }

  function StreamNext<T>(s: State<T>, step: Step<T>, i: nat, t: Stream<T>): Option<State<T>>
    requires !step.Open? && !step.Read? && !step.Cancel?
    requires i < |s.streams|
  {
    match step
    case Batch(_, payload) =>
      if t.batch.Some? then None
      else Some(Put(s, i, t.(received := t.received + payload, pending := payload, batch := Some(|payload|))))
    case Push(_) =>
      if t.pending == [] || |s.data| >= s.size then None
      else Some(Put(s, i, t.(pending := t.pending[1..])).(data := s.data + [Parcel(i, t.pending[0])]))
    case Handoff(_) =>
      if t.pending == [] || s.data != [] then None
      else Some(Put(s, i, t.(pending := t.pending[1..])).(read := s.read + [Parcel(i, t.pending[0])]))
    case Credit(_) =>
      if t.batch.None? || t.pending != [] then None
      else Some(Put(s, i, t.(batch := None)).(ingress := s.ingress + t.batch.value))
    case Fail(_) =>
      if t.batch.Some? then None else Some(Put(s, i, t.(open := false)))
    case Abandon(_) =>
      if s.cancelled && t.pending != [] then Some(Put(s, i, t.(open := false))) else None
  }

  function After<T>(size: nat, steps: seq<Step<T>>): Option<State<T>> {
    if steps == [] then Some(Init(size))
    else
      var before := After(size, steps[..|steps| - 1]);
      if before.None? then None else Next(before.value, steps[|steps| - 1])
  }

  /** What one stream contributed to a sequence of parcels, in order. */
  function Project<T>(parcels: seq<Parcel<T>>, i: nat): seq<T> {
    if parcels == [] then []
    else
      var front, last := parcels[..|parcels| - 1], parcels[|parcels| - 1];
      Project(front, i) + if last.stream == i then [last.payload] else []
  }

  lemma ProjectAppend<T>(parcels: seq<Parcel<T>>, p: Parcel<T>, i: nat)
    ensures Project(parcels + [p], i) == Project(parcels, i) + if p.stream == i then [p.payload] else []
  {
    assert (parcels + [p])[..|parcels|] == parcels;
  }

  lemma {:induction false} ProjectConcat<T>(a: seq<Parcel<T>>, b: seq<Parcel<T>>, i: nat)
    ensures Project(a + b, i) == Project(a, i) + Project(b, i)
  {
    if b == [] {
      assert a + b == a;
    } else {
      var front, last := b[..|b| - 1], b[|b| - 1];
      ProjectConcat(a, front, i);
      ProjectAppend(a + front, last, i);
      assert a + b == (a + front) + [last];
    }
  }

  function Uncredited<T>(): Stream<T> -> int {
    (t: Stream<T>) => |t.received| - BatchSize(t)
  }

  /** Read and buffered payloads of a stream, then its pending ones, are what it received. */
  ghost predicate Conserved<T>(s: State<T>) {
    forall i :: 0 <= i < |s.streams| ==>
      Project(s.read + s.data, i) + s.streams[i].pending == s.streams[i].received
  }

  /** The size of the batch that is being forwarded, or 0. */
  function BatchSize<T>(t: Stream<T>): nat {
    if t.batch.Some? then t.batch.value else 0
  }

  ghost predicate Inv<T>(s: State<T>) {
    && Conserved(s)
    && |s.data| <= s.size
    && (forall i :: 0 <= i < |s.streams| ==> |s.streams[i].pending| <= BatchSize(s.streams[i]))
    && (forall i :: 0 <= i < |s.streams| && !s.streams[i].open ==> s.streams[i].pending == [] || s.cancelled)
    && (forall k :: 0 <= k < |s.read + s.data| ==> (s.read + s.data)[k].stream < |s.streams|)
    && s.ingress == Sum(s.streams, Uncredited())
  }

  lemma {:induction false} ProjectNone<T>(parcels: seq<Parcel<T>>, i: nat)
    requires forall k :: 0 <= k < |parcels| ==> parcels[k].stream < i
    ensures Project(parcels, i) == []
  {
    if parcels != [] {
      ProjectNone(parcels[..|parcels| - 1], i);
    }
  }

  lemma ForwardOne<T>(parcels: seq<Parcel<T>>, i: nat, pending: seq<T>, received: seq<T>)
    requires pending != [] && Project(parcels, i) + pending == received
    ensures Project(parcels + [Parcel(i, pending[0])], i) + pending[1..] == received
  {
    ProjectAppend(parcels, Parcel(i, pending[0]), i);
    assert pending == [pending[0]] + pending[1..];
  }

  /** A payload leaves the batch of stream i and joins the others at the end. */
  lemma Forwarded<T>(s: State<T>, i: nat, t: State<T>)
    requires Conserved(s) && i < |s.streams| && s.streams[i].pending != []
    requires t.streams == s.streams[i := s.streams[i].(pending := s.streams[i].pending[1..])]
    requires t.read + t.data == s.read + s.data + [Parcel(i, s.streams[i].pending[0])]
    ensures Conserved(t)
  {
    var parcels, pending := s.read + s.data, s.streams[i].pending;
    forall k | 0 <= k < |t.streams|
      ensures Project(t.read + t.data, k) + t.streams[k].pending == t.streams[k].received
    {
      if k == i {
        ForwardOne(parcels, i, pending, s.streams[i].received);
      } else {
        ProjectAppend(parcels, Parcel(i, pending[0]), k);
        assert Project(t.read + t.data, k) == Project(parcels, k) + [] == Project(parcels, k);
      }
    }
  }

  lemma ForwardedSum<T>(streams: seq<Stream<T>>, i: nat, u: Stream<T>)
    requires i < |streams| && u.received == streams[i].received && u.batch == streams[i].batch
    ensures Sum(streams[i := u], Uncredited()) == Sum(streams, Uncredited())
  {
    SumUpdate(streams, i, u, Uncredited());
  }

  /** One stream changes, the parcels do not, and the counter follows. */
  lemma Settled<T>(s: State<T>, i: nat, u: Stream<T>, t: State<T>)
    requires Inv(s) && i < |s.streams|
    requires t == s.(streams := s.streams[i := u], ingress := t.ingress)
    requires Project(s.read + s.data, i) + u.pending == u.received
    requires |u.pending| <= BatchSize(u)
    requires !u.open ==> u.pending == [] || s.cancelled
    requires t.ingress == s.ingress - Uncredited()(s.streams[i]) + Uncredited()(u)
    ensures Inv(t)
  {
    SumUpdate(s.streams, i, u, Uncredited());
  }

  lemma ForwardEffect<T>(s: State<T>, step: Step<T>, t: State<T>)
    requires Next(s, step) == Some(t) && (step.Push? || step.Handoff?)
    ensures var i := step.stream;
            && i < |s.streams| && s.streams[i].open && s.streams[i].pending != []
            && t.streams == s.streams[i := s.streams[i].(pending := s.streams[i].pending[1..])]
            && t.read + t.data == s.read + s.data + [Parcel(i, s.streams[i].pending[0])]
    ensures |t.data| <= |s.data| || |t.data| <= s.size
    ensures t.size == s.size && t.ingress == s.ingress && t.cancelled == s.cancelled
  {
    var p := Parcel(step.stream, s.streams[step.stream].pending[0]);
    assert t.read + t.data == s.read + s.data + [p];
  }

  lemma ForwardInv<T>(s: State<T>, step: Step<T>, t: State<T>)
    requires Inv(s) && Next(s, step) == Some(t) && (step.Push? || step.Handoff?)
    ensures Inv(t)
  {
    ForwardEffect(s, step, t);
    Forwarded(s, step.stream, t);
    ForwardedSum(s.streams, step.stream, t.streams[step.stream]);
  }

  lemma StreamInv<T>(s: State<T>, step: Step<T>, t: State<T>)
    requires Inv(s) && Next(s, step) == Some(t)
    requires step.Batch? || step.Credit? || step.Fail? || step.Abandon?
    ensures Inv(t)
  {
    Settled(s, step.stream, t.streams[step.stream], t);
  }

  lemma OpenConserved<T>(s: State<T>, t: State<T>)
    requires Inv(s) && Next(s, Open) == Some(t)
    ensures Conserved(t)
  {
    ProjectNone(s.read + s.data, |s.streams|);
  }

  lemma OpenInv<T>(s: State<T>, t: State<T>)
    requires Inv(s) && Next(s, Open) == Some(t)
    ensures Inv(t)
  {
    var started: Stream<T> := Stream([], [], None, true);
    OpenConserved(s, t);
    SumAppend(s.streams, started, Uncredited());
  }

  lemma ReadInv<T>(s: State<T>, t: State<T>)
    requires Inv(s) && Next(s, Read) == Some(t)
    ensures Inv(t)
  {
    assert s.data == [s.data[0]] + s.data[1..];
    assert t.read + t.data == s.read + s.data;
  }

  lemma {:induction false} RunInv<T>(size: nat, steps: seq<Step<T>>)
    ensures var r := After(size, steps); r.Some? ==> Inv(r.value) && r.value.size == size
  {
    if steps == [] {
      assert forall i :: Project<T>([], i) == [];
    } else {
      var before, step := After(size, steps[..|steps| - 1]), steps[|steps| - 1];
      RunInv(size, steps[..|steps| - 1]);
      var after := After(size, steps);
      if before.Some? && after.Some? {
        if step.Open? {
          OpenInv(before.value, after.value);
        } else if step.Read? {
          ReadInv(before.value, after.value);
        } else if step.Push? || step.Handoff? {
          ForwardInv(before.value, step, after.value);
        } else if !step.Cancel? {
          StreamInv(before.value, step, after.value);
        }
      }
    }
  }

  /** In every run, whatever the buffer size and however many streams run at once: what the consumer
      has read and what waits in the channel is, for each stream, in order a prefix of what that
      stream received, short only of the part of the current batch still pending; nothing comes from
      elsewhere; and the buffer keeps its bound. */
  lemma StreamsArriveInOrder<T>(size: nat, steps: seq<Step<T>>, s: State<T>, i: nat)
    requires After(size, steps) == Some(s) && i < |s.streams|
    ensures Project(s.read + s.data, i) <= s.streams[i].received
    ensures Project(s.read + s.data, i) + s.streams[i].pending == s.streams[i].received
    ensures |s.streams[i].pending| <= BatchSize(s.streams[i])
    ensures !s.streams[i].open && !s.cancelled ==> Project(s.read + s.data, i) == s.streams[i].received
    ensures Project(s.read, i) <= s.streams[i].received
    ensures |s.data| <= size
    ensures forall k :: 0 <= k < |s.read| ==> s.read[k].stream < |s.streams|
  {
    RunInv(size, steps);
    ProjectConcat(s.read, s.data, i);
    forall k | 0 <= k < |s.read| ensures s.read[k].stream < |s.streams| {
      assert (s.read + s.data)[k] == s.read[k];
    }
  }

  /** The payloads of all batches that the run delivers on stream i, in order. */
  function Delivered<T>(steps: seq<Step<T>>, i: nat): seq<T> {
    if steps == [] then []
    else
      var last := steps[|steps| - 1];
      Delivered(steps[..|steps| - 1], i) + if last.Batch? && last.stream == i then last.payload else []
  }

  lemma StepDelivers<T>(s: State<T>, step: Step<T>, t: State<T>)
    requires Next(s, step) == Some(t)
    ensures |s.streams| <= |t.streams| <= |s.streams| + 1
    ensures forall i :: 0 <= i < |s.streams| ==>
      t.streams[i].received == s.streams[i].received + if step.Batch? && step.stream == i then step.payload else []
    ensures |t.streams| > |s.streams| ==> step.Open? && t.streams[|s.streams|].received == []
    ensures step.Batch? ==> step.stream < |s.streams|
  {
  }

  /** What a stream received is what its batches brought, whole. */
  lemma {:induction false} ReceivedIsDelivered<T>(size: nat, steps: seq<Step<T>>, s: State<T>)
    requires After(size, steps) == Some(s)
    ensures forall i :: 0 <= i < |s.streams| ==> s.streams[i].received == Delivered(steps, i)
    ensures forall i :: i >= |s.streams| ==> Delivered(steps, i) == []
  {
    if steps != [] {
      var before := After(size, steps[..|steps| - 1]).value;
      ReceivedIsDelivered(size, steps[..|steps| - 1], before);
      StepDelivers(before, steps[|steps| - 1], s);
    }
  }

  // ---- A batch can always go through ----

  lemma Extended<T>(size: nat, steps: seq<Step<T>>, step: Step<T>) returns (more: seq<Step<T>>)
    requires After(size, steps).Some?
    ensures After(size, more) == Next(After(size, steps).value, step)
  {
    more := steps + [step];
    assert more[..|steps|] == steps;
  }

  lemma ReadsOne<T>(size: nat, steps: seq<Step<T>>, s: State<T>) returns (more: seq<Step<T>>)
    requires After(size, steps) == Some(s) && s.data != []
    ensures After(size, more) == Some(s.(read := s.read + [s.data[0]], data := s.data[1..]))
  {
    more := Extended(size, steps, Read);
  }

  lemma FirstMoves<T>(a: seq<T>, b: seq<T>)
    requires b != []
    ensures (a + [b[0]]) + b[1..] == a + b
  {
  }

  /** The consumer reads what is buffered, in order. */
  lemma {:induction false} ReadsAll<T>(size: nat, steps: seq<Step<T>>, s: State<T>, left: nat) returns (more: seq<Step<T>>)
    requires After(size, steps) == Some(s) && left == |s.data|
    ensures After(size, more) == Some(s.(read := s.read + s.data, data := []))
    decreases left
  {
    if left == 0 {
      more := steps;
      assert s.read + s.data == s.read;
    } else {
      more := ReadsOne(size, steps, s);
      FirstMoves(s.read, s.data);
      more := ReadsAll(size, more, s.(read := s.read + [s.data[0]], data := s.data[1..]), left - 1);
    }
  }

  /** Payloads on their way from stream i. */
  function Parcels<T>(i: nat, payload: seq<T>): seq<Parcel<T>> {
    if payload == [] then [] else [Parcel(i, payload[0])] + Parcels(i, payload[1..])
  }

  /** What stream i has handed over when only `rest` is left of its batch. */
  function Handed<T>(s: State<T>, i: nat, parcels: seq<Parcel<T>>, rest: seq<T>): State<T>
    requires i < |s.streams|
  {
    s.(read := s.read + parcels, streams := s.streams[i := s.streams[i].(pending := rest)])
  }

  lemma HandsOne<T>(size: nat, steps: seq<Step<T>>, s: State<T>, i: nat) returns (more: seq<Step<T>>)
    requires After(size, steps) == Some(s) && i < |s.streams| && s.streams[i].open && s.data == []
    requires s.streams[i].pending != []
    ensures After(size, more) == Some(Handed(s, i, [Parcel(i, s.streams[i].pending[0])], s.streams[i].pending[1..]))
  {
    more := Extended(size, steps, Handoff(i));
  }

  lemma HandedTwice<T>(s: State<T>, i: nat, a: seq<Parcel<T>>, p: seq<T>, b: seq<Parcel<T>>, q: seq<T>)
    requires i < |s.streams|
    ensures Handed(Handed(s, i, a, p), i, b, q) == Handed(s, i, a + b, q)
  {
    assert s.read + a + b == s.read + (a + b);
  }

  /** With an empty buffer a stream hands its payloads straight to the waiting consumer. */
  lemma {:induction false} HandsOver<T>(size: nat, steps: seq<Step<T>>, s: State<T>, i: nat, pending: seq<T>) returns (more: seq<Step<T>>)
    requires After(size, steps) == Some(s) && i < |s.streams| && s.streams[i].open && s.data == []
    requires pending == s.streams[i].pending
    ensures After(size, more) == Some(Handed(s, i, Parcels(i, pending), []))
    decreases |pending|
  {
    if pending == [] {
      more := steps;
      assert s == Handed(s, i, [], []);
    } else {
      var first := [Parcel(i, pending[0])];
      more := HandsOne(size, steps, s, i);
      more := HandsOver(size, more, Handed(s, i, first, pending[1..]), i, pending[1..]);
      HandedTwice(s, i, first, pending[1..], Parcels(i, pending[1..]), []);
    }
  }

  /** From every point of every run, for every buffer size, 0 included: while the consumer reads, an open
      stream can get the rest of its batch through, behind all that is buffered, and count the batch. */
  lemma CanDeliver<T>(size: nat, steps: seq<Step<T>>, s: State<T>, i: nat) returns (more: seq<Step<T>>, t: State<T>)
    requires After(size, steps) == Some(s) && i < |s.streams| && s.streams[i].open && s.streams[i].batch.Some?
    ensures After(size, more) == Some(t)
    ensures t.read == s.read + s.data + Parcels(i, s.streams[i].pending) && t.data == []
    ensures t.ingress == s.ingress + s.streams[i].batch.value
    ensures t.streams == s.streams[i := s.streams[i].(pending := [], batch := None)]
  {
    more := ReadsAll(size, steps, s, |s.data|);
    var a := s.(read := s.read + s.data, data := []);
    more := HandsOver(size, more, a, i, s.streams[i].pending);
    more := Extended(size, more, Credit(i));
    t := After(size, more).value;
  }

  /** Between batches a stream can fail, and after cancellation it can stop in the middle of one. */
  lemma CanStop<T>(s: State<T>, i: nat)
    requires i < |s.streams| && s.streams[i].open
    requires s.streams[i].batch.None? || (s.cancelled && s.streams[i].pending != [])
    ensures var t := Next(s, if s.streams[i].batch.None? then Fail(i) else Abandon(i));
            t == Some(s.(streams := s.streams[i := s.streams[i].(open := false)]))
  {
  }

  /** The ingress counter is the payloads of all finished batches, whole. */
  lemma IngressCountsBatches<T>(size: nat, steps: seq<Step<T>>, s: State<T>)
    requires After(size, steps) == Some(s)
    ensures s.ingress == Sum(s.streams, Uncredited())
    ensures (forall i :: 0 <= i < |s.streams| ==> s.streams[i].batch.None?) ==> s.ingress == |s.read| + |s.data|
  {
    RunInv(size, steps);
    if forall i :: 0 <= i < |s.streams| ==> s.streams[i].batch.None? {
      SumOfProjections(s.read + s.data, s.streams, Uncredited());
    }
  }

  lemma ParcelHasStream<T>(parcels: seq<Parcel<T>>, streams: nat)
    requires forall k :: 0 <= k < |parcels| ==> parcels[k].stream < streams
    ensures parcels == [] || streams > 0
  {
    if parcels != [] {
      assert parcels[0].stream < streams;
    }
  }

  /** Parcels are partitioned by their streams. */
  lemma {:induction false} SumOfProjections<T>(parcels: seq<Parcel<T>>, streams: seq<Stream<T>>, weight: Stream<T> -> int)
    requires forall k :: 0 <= k < |parcels| ==> parcels[k].stream < |streams|
    requires forall i :: 0 <= i < |streams| ==> weight(streams[i]) == |Project(parcels, i)|
    ensures Sum(streams, weight) == |parcels|
    decreases |streams|
  {
    ParcelHasStream(parcels, |streams|);
    if streams != [] {
      var n: nat := |streams| - 1;
      NotFromFacts(parcels, n);
      forall i | 0 <= i < n ensures weight(streams[..n][i]) == |Project(NotFrom(parcels, n), i)| {
        assert streams[..n][i] == streams[i];
      }
      SumOfProjections(NotFrom(parcels, n), streams[..n], weight);
    }
  }

  function NotFrom<T>(parcels: seq<Parcel<T>>, i: nat): seq<Parcel<T>> {
    if parcels == [] then []
    else
      var front, last := parcels[..|parcels| - 1], parcels[|parcels| - 1];
      NotFrom(front, i) + if last.stream == i then [] else [last]
  }

  lemma {:induction false} NotFromFacts<T>(parcels: seq<Parcel<T>>, i: nat)
    requires forall k :: 0 <= k < |parcels| ==> parcels[k].stream <= i
    ensures |NotFrom(parcels, i)| + |Project(parcels, i)| == |parcels|
    ensures forall k :: 0 <= k < |NotFrom(parcels, i)| ==> NotFrom(parcels, i)[k].stream < i
    ensures forall j: nat :: j < i ==> Project(NotFrom(parcels, i), j) == Project(parcels, j)
  {
    if parcels != [] {
      var front, last := parcels[..|parcels| - 1], parcels[|parcels| - 1];
      NotFromFacts(front, i);
      forall j: nat | j < i ensures Project(NotFrom(parcels, i), j) == Project(parcels, j) {
        ProjectAppend(NotFrom(front, i), last, j);
        assert Project(NotFrom(front, i), j) == Project(front, j);
        if last.stream == i {
          assert NotFrom(parcels, i) == NotFrom(front, i);
        }
      }
    }
  }
}
