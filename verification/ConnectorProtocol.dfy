/** The connector as a step system. A step is one atomic access, one spawn or one stretch of code
    under a lock that nothing else can see into; the finder's scan over the consumer slots and the
    teardown of a goroutine are kept at the grain of their single accesses. Every interleaving of
    the finder, of any number of Subscribe calls and of the goroutines they spawn is a run. */
module ConnectorProtocol {
  import opened Base
  import opened ClientList

  /** The size of the consumer slot array. */
  const MAX_CONNECTIONS: nat := 2000

  /** A pointer to a client record, with the URI that never changes. */
  datatype Ref = Ref(id: nat, uri: string)

  function RefUri(): Ref -> string {
    (c: Ref) => c.uri
  }

  /** A client record; records are never freed, `clients` lists those the connector still knows. */
  datatype Client = Client(uri: string, disconnect: bool, refCount: int)

  /** Where a Subscribe call stands. */
  datatype CallPhase =
    | Seek(i: nat)                                // about to load slot i
    | Judge(i: nat, seen: nat)                    // loaded consumer `seen`, about to load its dead flag
    | Claim(i: nat, expected: Option<nat>)        // about to compare-and-swap slot i
    | Refused                                     // returned "at connection limit"
    | Admitted(slot: nat)                         // waiting for the read lock
    | Visiting(slot: nat, next: nat)              // holds the read lock, has spawned for clients[..next]
    | Returned(slot: nat)                         // returned its receive function

  datatype Consumer = Consumer(dead: bool, dopplers: set<string>, phase: CallPhase)

  /** Where a consumeSubscription goroutine stands. */
  datatype RoutinePhase =
    | Spawned
    | Duplicate                                   // the consumer was already served for this URI: ended
    | Holding                                     // recorded in dopplers, not yet counted
    | Top(tried: bool)                            // head of the retry loop
    | Polled(tried: bool, dead: bool)             // has loaded the consumer's dead flag
    | Connecting
    | Streaming
    | Leaving                                     // out of the loop, waiting for the write lock
    | Locked                                      // teardown: holds the write lock
    | Dropped(last: bool)                         // no longer counted; `last` decides about closing
    | Forgetting                                  // about to forget the URI and unlock
    | Ended

  datatype Routine = Routine(consumer: nat, client: Ref, phase: RoutinePhase)

  /** What the finder goroutine is doing inside the write lock. */
  datatype Spot =
    | NextUri
    | Scan(client: Ref, i: nat)                   // about to load slot i for the new client
    | Check(client: Ref, i: nat, seen: nat)       // loaded consumer `seen`, about to load its dead flag
    | NextDead
    | Probe                                       // marked the first dead client, about to load refCount

  datatype Work = Work(add: seq<string>, dead: seq<Ref>, at: Spot)

  /** The write side of `c.mu`; the read side is held by the consumers in phase Visiting. */
  datatype Lock = Free | FinderHolds(work: Work) | ExitHolds(routine: nat)

  /** `events` is history: the announcements handled so far. */
  datatype State = State(
    info: seq<Client>,
    clients: seq<Ref>,
    slots: seq<Option<nat>>,
    consumers: seq<Consumer>,
    routines: seq<Routine>,
    lock: Lock,
    events: seq<seq<string>>,
    disconnects: nat)

  function Init(size: nat): State {
    State([], [], seq(size, _ => None), [], [], Free, [], 0)
  }

  // ---- Every stored index and pointer refers to something that exists ----

  ghost predicate Known(info: seq<Client>, c: Ref) {
    c.id < |info| && info[c.id].uri == c.uri
  }

  ghost predicate TypedPhase(p: CallPhase, size: nat, callers: nat) {
    match p
    case Seek(i) => i <= size
    case Judge(i, seen) => i < size && seen < callers
    case Claim(i, expected) => i < size && (expected.Some? ==> expected.value < callers)
    case Refused => true
    case Admitted(slot) => slot < size
    case Visiting(slot, _) => slot < size
    case Returned(slot) => slot < size
  }

  ghost predicate TypedLock(lock: Lock, info: seq<Client>, size: nat, callers: nat, routines: nat) {
    match lock
    case Free => true
    case ExitHolds(r) => r < routines
    case FinderHolds(work) =>
      && (forall c :: c in work.dead ==> Known(info, c))
      && (work.at.Scan? ==> Known(info, work.at.client) && work.at.i <= size)
      && (work.at.Check? ==> Known(info, work.at.client) && work.at.i < size && work.at.seen < callers)
      && (work.at.Probe? ==> work.dead != [])
  }

  ghost predicate Typed(s: State) {
    && (forall c :: c in s.clients ==> Known(s.info, c))
    && (forall j :: 0 <= j < |s.slots| && s.slots[j].Some? ==> s.slots[j].value < |s.consumers|)
    && (forall x :: 0 <= x < |s.consumers| ==> TypedPhase(s.consumers[x].phase, |s.slots|, |s.consumers|))
    && (forall r :: 0 <= r < |s.routines| ==> s.routines[r].consumer < |s.consumers| && Known(s.info, s.routines[r].client))
    && TypedLock(s.lock, s.info, |s.slots|, |s.consumers|, |s.routines|)
  }

  /** No Subscribe call holds the read lock. */
  ghost predicate NoReader(consumers: seq<Consumer>) {
    forall x :: 0 <= x < |consumers| ==> !consumers[x].phase.Visiting?
  }

  // ---- The finder: handleFinderEvent ----

  /** `subtractClient` cancels the retirement of every client that is still announced. */
  function Cancel(info: seq<Client>, clients: seq<Ref>, dead: seq<Ref>): (r: seq<Client>)
    ensures |r| == |info|
    ensures forall k :: 0 <= k < |r| ==>
      r[k] == if Ref(k, info[k].uri) in clients && Ref(k, info[k].uri) !in dead then info[k].(disconnect := false) else info[k]
  {
    seq(|info|, k requires 0 <= k < |info| =>
      if Ref(k, info[k].uri) in clients && Ref(k, info[k].uri) !in dead then info[k].(disconnect := false) else info[k])
  }

  lemma {:induction false} DeltaMembers(clients: seq<Ref>, uris: seq<string>)
    ensures forall c :: c in DeltaOf(clients, RefUri(), uris).dead ==> c in clients
  {
    if uris != [] {
      DeltaMembers(clients, uris[..|uris| - 1]);
    }
  }

  /** Takes the write lock and computes the delta. */
  ghost function EventNext(s: State, uris: seq<string>): (r: Option<State>)
    requires Typed(s)
    ensures r.Some? ==> Typed(r.value)
  {
    if s.lock.Free? && NoReader(s.consumers) then
      var d := DeltaOf(s.clients, RefUri(), uris);
      DeltaMembers(s.clients, uris);
      Some(s.(info := Cancel(s.info, s.clients, d.dead),
              lock := FinderHolds(Work(d.add, d.dead, NextUri)),
              events := s.events + [uris]))
    else None
  }

  /** The finder's next access while it holds the lock. */
  ghost function FinderNext(s: State): (r: Option<State>)
    requires Typed(s)
    ensures r.Some? ==> Typed(r.value)
  {
    if !s.lock.FinderHolds? then None
    else
      var w := s.lock.work;
      match w.at
      case NextUri =>
        if w.add == [] then Some(s.(lock := FinderHolds(w.(at := NextDead))))
        else
          var c := Ref(|s.info|, w.add[0]);
          Some(s.(info := s.info + [Client(c.uri, false, 0)],
                  clients := s.clients + [c],
                  lock := FinderHolds(w.(add := w.add[1..], at := Scan(c, 0)))))
      case Scan(c, i) =>
        if i == |s.slots| then Some(s.(lock := FinderHolds(w.(at := NextUri))))
        else if s.slots[i].None? then Some(s.(lock := FinderHolds(w.(at := Scan(c, i + 1)))))
        else Some(s.(lock := FinderHolds(w.(at := Check(c, i, s.slots[i].value)))))
      case Check(c, i, seen) =>
        var t := s.(lock := FinderHolds(w.(at := Scan(c, i + 1))));
        if s.consumers[seen].dead then Some(t)
        else Some(t.(routines := s.routines + [Routine(seen, c, Spawned)]))
      case NextDead =>
        if w.dead == [] then Some(s.(lock := Free))
        else
          assert Known(s.info, w.dead[0]);
          var id := w.dead[0].id;
          Some(s.(info := s.info[id := s.info[id].(disconnect := true)],
                  lock := FinderHolds(w.(at := Probe))))
      case Probe =>
        assert Known(s.info, w.dead[0]);
        var t := s.(lock := FinderHolds(w.(dead := w.dead[1..], at := NextDead)));
        if s.info[w.dead[0].id].refCount == 0 then
          WithoutMembers(s.clients, w.dead[0]);
          Some(t.(clients := Without(s.clients, w.dead[0])))
        else Some(t)
  }

  // ---- A consumer: Subscribe, and the goroutine that watches its context ----

  function StartNext(s: State): State {
    s.(consumers := s.consumers + [Consumer(false, {}, Seek(0))])
  }

  function DieNext(s: State, x: nat): Option<State> {
    if x < |s.consumers| then Some(s.(consumers := s.consumers[x := s.consumers[x].(dead := true)])) else None
  }

  function Move(s: State, x: nat, p: CallPhase): State
    requires x < |s.consumers|
  {
    s.(consumers := s.consumers[x := s.consumers[x].(phase := p)])
  }

  /** addConsumerState: the search of consumer x for a free slot. */
  ghost function SlotNext(s: State, x: nat): (r: Option<State>)
    requires Typed(s)
    ensures r.Some? ==> Typed(r.value)
  {
    if x >= |s.consumers| then None
    else
      match s.consumers[x].phase
      case Seek(i) =>
        if i == |s.slots| then Some(Move(s, x, Refused))
        else if s.slots[i].None? then Some(Move(s, x, Claim(i, None)))
        else Some(Move(s, x, Judge(i, s.slots[i].value)))
      case Judge(i, seen) =>
        Some(Move(s, x, if s.consumers[seen].dead then Claim(i, Some(seen)) else Seek(i + 1)))
      case Claim(i, expected) =>
        if s.slots[i] == expected then Some(Move(s, x, Admitted(i)).(slots := s.slots[i := Some(x)]))
        else Some(Move(s, x, Seek(i + 1)))
      case _ => None
  }

  /** The rest of Subscribe for consumer x: one goroutine per client, under the read lock. */
  ghost function VisitNext(s: State, x: nat): (r: Option<State>)
    requires Typed(s)
    ensures r.Some? ==> Typed(r.value)
  {
    if x >= |s.consumers| then None
    else
      match s.consumers[x].phase
      case Admitted(slot) =>
        if s.lock.Free? then Some(Move(s, x, Visiting(slot, 0))) else None
      case Visiting(slot, next) =>
        if next < |s.clients| then
          Some(Move(s, x, Visiting(slot, next + 1)).(routines := s.routines + [Routine(x, s.clients[next], Spawned)]))
        else Some(Move(s, x, Returned(slot)))
      case _ => None
  }

  // ---- A goroutine: consumeSubscription ----

  function Turn(s: State, r: nat, p: RoutinePhase): State
    requires r < |s.routines|
  {
    s.(routines := s.routines[r := s.routines[r].(phase := p)])
  }

  ghost function Count(s: State, id: nat, change: int): State
    requires id < |s.info|
  {
    s.(info := s.info[id := s.info[id].(refCount := s.info[id].refCount + change)])
  }

  /** tryAddDoppler and the reference count of goroutine r. */
  ghost function EnterNext(s: State, r: nat): (t: Option<State>)
    requires Typed(s)
    ensures t.Some? ==> Typed(t.value)
  {
    if r >= |s.routines| then None
    else
      var g := s.routines[r];
      var cs := s.consumers[g.consumer];
      match g.phase
      case Spawned =>
        if g.client.uri in cs.dopplers then Some(Turn(s, r, Duplicate))
        else
          Some(Turn(s, r, Holding).(consumers :=
            s.consumers[g.consumer := cs.(dopplers := cs.dopplers + {g.client.uri})]))
      case Holding =>
        Some(Count(Turn(s, r, Top(false)), g.client.id, 1))
      case _ => None
  }

  /** The deferred teardown of goroutine r. */
  ghost function ExitNext(s: State, r: nat): (t: Option<State>)
    requires Typed(s)
    ensures t.Some? ==> Typed(t.value)
  {
    if r >= |s.routines| then None
    else
      var g := s.routines[r];
      var cs := s.consumers[g.consumer];
      match g.phase
      case Leaving =>
        if s.lock.Free? && NoReader(s.consumers) then Some(Turn(s, r, Locked).(lock := ExitHolds(r))) else None
      case Locked =>
        var left := s.info[g.client.id].refCount - 1;
        Some(Count(Turn(s, r, Dropped(left <= 0 && s.info[g.client.id].disconnect)), g.client.id, -1))
      case Dropped(last) =>
        if last then
          WithoutMembers(s.clients, g.client);
          Some(Turn(s, r, Forgetting).(clients := Without(s.clients, g.client)))
        else Some(Turn(s, r, Forgetting))
      case Forgetting =>
        Some(Turn(s, r, Ended).(
          consumers := s.consumers[g.consumer := cs.(dopplers := cs.dopplers - {g.client.uri})],
          lock := Free))
      case _ => None
  }

  /** The retry loop of goroutine r; `ok` says whether an attempt to connect succeeds. */
  ghost function LoopNext(s: State, r: nat, ok: bool): (t: Option<State>)
    requires Typed(s)
    ensures t.Some? ==> Typed(t.value)
  {
    if r >= |s.routines| then None
    else
      var g := s.routines[r];
      match g.phase
      case Top(tried) => Some(Turn(s, r, Polled(tried, s.consumers[g.consumer].dead)))
      case Polled(tried, dead) =>
        if !s.lock.Free? then None
        else if (tried && s.info[g.client.id].disconnect) || dead then
          Some(Turn(s, r, Leaving).(disconnects := s.disconnects + 1))
        else Some(Turn(s, r, Connecting))
      case Connecting =>
        Some(Turn(s, r, if ok then Streaming else Top(true)))
      case Streaming => Some(Turn(s, r, Top(true)))
      case _ => None
  }

  // ---- Runs ----

  datatype Step =
    | Event(uris: seq<string>)
    | Finder
    | Start
    | Die(consumer: nat)
    | Slot(consumer: nat)
    | Visit(consumer: nat)
    | Enter(routine: nat)
    | Exit(routine: nat)
    | Loop(routine: nat, ok: bool)

  /** One step, or None when the step is not possible in this state. */
  ghost function Next(s: State, step: Step): (r: Option<State>)
    requires Typed(s)
    ensures r.Some? ==> Typed(r.value)
  {
    match step
    case Event(uris) => EventNext(s, uris)
    case Finder => FinderNext(s)
    case Start => Some(StartNext(s))
    case Die(x) => DieNext(s, x)
    case Slot(x) => SlotNext(s, x)
    case Visit(x) => VisitNext(s, x)
    case Enter(r) => EnterNext(s, r)
    case Exit(r) => ExitNext(s, r)
    case Loop(r, ok) => LoopNext(s, r, ok)
  }

  /** The state a run of steps leads to from a fresh connector with `size` slots. */
  ghost function After(size: nat, steps: seq<Step>): (r: Option<State>)
    ensures r.Some? ==> Typed(r.value)
  {
    if steps == [] then Some(Init(size))
    else
      var before := After(size, steps[..|steps| - 1]);
      if before.None? then None else Next(before.value, steps[|steps| - 1])
  }

  ghost predicate Reachable(size: nat, s: State) {
    exists steps :: After(size, steps) == Some(s)
  }
}
