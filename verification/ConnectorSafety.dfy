/** What every step of the connector keeps, part one: lock discipline, slot ownership, the client
    list, reference counts, and one goroutine per consumer and URI. */
module ConnectorSafety {
  import opened Base
  import opened ClientList
  import opened ConnectorProtocol

  // ---- The invariants ----

  predicate InTeardown(p: RoutinePhase) {
    p.Locked? || p.Dropped? || p.Forgetting?
  }

  /** A writer excludes readers, and exactly the goroutine that holds the lock is in its teardown. */
  ghost predicate LockOk(s: State) {
    && (!s.lock.Free? ==> NoReader(s.consumers))
    && (forall r :: 0 <= r < |s.routines| ==> (InTeardown(s.routines[r].phase) <==> s.lock == ExitHolds(r)))
  }

  predicate HasSlot(p: CallPhase) {
    p.Admitted? || p.Visiting? || p.Returned?
  }

  /** A live admitted consumer is in its slot, a slot holds only its owner, and a caller
      about to overwrite a slot expects a consumer that is dead. */
  ghost predicate SlotsOk(slots: seq<Option<nat>>, consumers: seq<Consumer>) {
    && (forall x :: 0 <= x < |consumers| && HasSlot(consumers[x].phase) && !consumers[x].dead ==>
          consumers[x].phase.slot < |slots| && slots[consumers[x].phase.slot] == Some(x))
    && (forall j :: 0 <= j < |slots| && slots[j].Some? ==>
          && slots[j].value < |consumers|
          && HasSlot(consumers[slots[j].value].phase)
          && consumers[slots[j].value].phase.slot == j)
    && (forall x :: 0 <= x < |consumers| && consumers[x].phase.Claim? && consumers[x].phase.expected.Some? ==>
          && consumers[x].phase.expected.value < |consumers|
          && consumers[consumers[x].phase.expected.value].dead)
  }

  /** The list has no duplicates, and the clients still to be retired are distinct members of it. */
  ghost predicate ListOk(clients: seq<Ref>, lock: Lock) {
    && Distinct(clients)
    && (lock.FinderHolds? ==> Distinct(lock.work.dead) && (forall c :: c in lock.work.dead ==> c in clients))
  }

  predicate Counted(p: RoutinePhase) {
    p.Top? || p.Polled? || p.Connecting? || p.Streaming? || p.Leaving? || p.Locked?
  }

  function CountedFor(id: nat): Routine -> int {
    (g: Routine) => if g.client.id == id && Counted(g.phase) then 1 else 0
  }

  predicate HasLeft(p: RoutinePhase) {
    p.Leaving? || InTeardown(p) || p.Ended?
  }

  function LeftLoop(): Routine -> int {
    (g: Routine) => if HasLeft(g.phase) then 1 else 0
  }

  /** A client's reference count is the number of goroutines that have counted themselves on it. */
  ghost predicate RefCountsOk(info: seq<Client>, routines: seq<Routine>) {
    forall id :: 0 <= id < |info| ==> info[id].refCount == Sum(routines, CountedFor(id))
  }

  predicate Active(p: RoutinePhase) {
    Counted(p) || p.Holding? || p.Dropped? || p.Forgetting?
  }

  ghost predicate Serves(g: Routine, x: nat, uri: string) {
    g.consumer == x && g.client.uri == uri && Active(g.phase)
  }

  /** At most one goroutine is active per consumer and URI. */
  ghost predicate Exclusive(routines: seq<Routine>) {
    forall q, r :: 0 <= q < r < |routines| && Active(routines[q].phase) && Active(routines[r].phase) ==>
      routines[q].consumer != routines[r].consumer || routines[q].client.uri != routines[r].client.uri
  }

  ghost predicate Served(routines: seq<Routine>, x: nat, uri: string) {
    exists r :: 0 <= r < |routines| && Serves(routines[r], x, uri)
  }

  /** `dopplers` records exactly the URIs for which a goroutine is active. */
  ghost predicate Recorded(consumers: seq<Consumer>, routines: seq<Routine>) {
    forall x, uri :: 0 <= x < |consumers| ==> (uri in consumers[x].dopplers <==> Served(routines, x, uri))
  }

  // ---- Locks and slots ----

  /** One goroutine moves to another phase, and nobody else does. */
  ghost predicate Turned(routines: seq<Routine>, r: nat, p: RoutinePhase, routines': seq<Routine>) {
    r < |routines| && routines' == routines[r := routines[r].(phase := p)]
  }

  lemma EventLocks(s: State, uris: seq<string>, t: State)
    requires Typed(s) && EventNext(s, uris) == Some(t)
    requires LockOk(s) && ListOk(s.clients, s.lock)
    ensures LockOk(t) && ListOk(t.clients, t.lock)
  {
    DeltaDead(s.clients, RefUri(), uris);
    DeltaMembers(s.clients, uris);
  }

  lemma FinderLocks(s: State, t: State)
    requires Typed(s) && FinderNext(s) == Some(t)
    requires LockOk(s) && SlotsOk(s.slots, s.consumers)
    ensures LockOk(t) && SlotsOk(t.slots, t.consumers)
  {
  }

  lemma FinderList(s: State, t: State)
    requires Typed(s) && FinderNext(s) == Some(t)
    requires ListOk(s.clients, s.lock)
    ensures ListOk(t.clients, t.lock)
  {
    var w := s.lock.work;
    if w.at.Probe? {
      WithoutMembers(s.clients, w.dead[0]);
      WithoutDistinct(s.clients, w.dead[0]);
    } else if w.at.NextUri? && w.add != [] {
      assert forall c :: c in s.clients ==> c.id < |s.info|;
    }
  }

  lemma SlotLocks(s: State, x: nat, t: State)
    requires Typed(s) && SlotNext(s, x) == Some(t)
    requires LockOk(s)
    ensures LockOk(t)
  {
  }

  lemma SlotSearch(s: State, x: nat, t: State)
    requires Typed(s) && SlotNext(s, x) == Some(t)
    requires SlotsOk(s.slots, s.consumers)
    ensures SlotsOk(t.slots, t.consumers)
  {
    if t.slots == s.slots {
      SlotsMove(s.slots, s.consumers, x, t.consumers[x].phase, t.consumers);
    } else {
      SlotsClaim(s.slots, s.consumers, x, t.slots, t.consumers);
    }
  }

  /** The search goes on; a caller that now intends to overwrite has seen a dead consumer. */
  lemma SlotsMove(slots: seq<Option<nat>>, consumers: seq<Consumer>, x: nat, p: CallPhase, consumers': seq<Consumer>)
    requires SlotsOk(slots, consumers)
    requires x < |consumers| && !HasSlot(consumers[x].phase) && !HasSlot(p)
    requires p.Claim? && p.expected.Some? ==> p.expected.value < |consumers| && consumers[p.expected.value].dead
    requires consumers' == consumers[x := consumers[x].(phase := p)]
    ensures SlotsOk(slots, consumers')
  {
  }

  /** A successful compare-and-swap only ever overwrites an empty slot or a dead consumer. */
  lemma SlotsClaim(slots: seq<Option<nat>>, consumers: seq<Consumer>, x: nat, slots': seq<Option<nat>>, consumers': seq<Consumer>)
    requires SlotsOk(slots, consumers)
    requires x < |consumers| && consumers[x].phase.Claim? && consumers[x].phase.i < |slots|
    requires slots[consumers[x].phase.i] == consumers[x].phase.expected
    requires slots' == slots[consumers[x].phase.i := Some(x)]
    requires consumers' == consumers[x := consumers[x].(phase := Admitted(consumers[x].phase.i))]
    ensures SlotsOk(slots', consumers')
  {
  }

  lemma VisitLocks(s: State, x: nat, t: State)
    requires Typed(s) && VisitNext(s, x) == Some(t)
    requires LockOk(s) && SlotsOk(s.slots, s.consumers)
    ensures LockOk(t) && SlotsOk(t.slots, t.consumers)
  {
  }

  /** A goroutine outside its teardown moves on and stays outside. */
  lemma TurnLock(s: State, r: nat, p: RoutinePhase, t: State)
    requires LockOk(s) && Turned(s.routines, r, p, t.routines)
    requires t.lock == s.lock && (NoReader(s.consumers) ==> NoReader(t.consumers))
    requires !InTeardown(s.routines[r].phase) && !InTeardown(p)
    ensures LockOk(t)
  {
  }

  lemma EnterLocks(s: State, r: nat, t: State)
    requires Typed(s) && EnterNext(s, r) == Some(t)
    requires LockOk(s) && SlotsOk(s.slots, s.consumers)
    ensures LockOk(t) && SlotsOk(t.slots, t.consumers)
  {
    TurnLock(s, r, t.routines[r].phase, t);
  }

  lemma ExitLocks(s: State, r: nat, t: State)
    requires Typed(s) && ExitNext(s, r) == Some(t)
    requires LockOk(s) && SlotsOk(s.slots, s.consumers)
    ensures LockOk(t) && SlotsOk(t.slots, t.consumers)
  {
  }

  lemma ExitList(s: State, r: nat, t: State)
    requires Typed(s) && ExitNext(s, r) == Some(t)
    requires LockOk(s) && ListOk(s.clients, s.lock)
    ensures ListOk(t.clients, t.lock)
  {
    WithoutDistinct(s.clients, s.routines[r].client);
  }

  lemma LoopLocks(s: State, r: nat, ok: bool, t: State)
    requires Typed(s) && LoopNext(s, r, ok) == Some(t)
    requires LockOk(s) && SlotsOk(s.slots, s.consumers)
    ensures LockOk(t) && SlotsOk(t.slots, t.consumers)
  {
    TurnLock(s, r, t.routines[r].phase, t);
  }

  // ---- Reference counts ----

  ghost predicate CountsOk(s: State) {
    RefCountsOk(s.info, s.routines) && s.disconnects == Sum(s.routines, LeftLoop())
  }

  lemma SpawnCounts(s: State, g: Routine, t: State)
    requires CountsOk(s) && g.phase.Spawned?
    requires t.routines == s.routines + [g] && t.info == s.info && t.disconnects == s.disconnects
    ensures CountsOk(t)
  {
    forall id ensures Sum(t.routines, CountedFor(id)) == Sum(s.routines, CountedFor(id)) {
      SumAppend(s.routines, g, CountedFor(id));
    }
    SumAppend(s.routines, g, LeftLoop());
  }

  /** A goroutine moves on and the counters follow what its two phases say. */
  lemma TurnCounts(s: State, r: nat, p: RoutinePhase, t: State)
    requires CountsOk(s) && Turned(s.routines, r, p, t.routines)
    requires |t.info| == |s.info|
    requires forall id :: 0 <= id < |s.info| ==>
      t.info[id].refCount == s.info[id].refCount - CountedFor(id)(s.routines[r]) + CountedFor(id)(t.routines[r])
    requires t.disconnects == s.disconnects - LeftLoop()(s.routines[r]) + LeftLoop()(t.routines[r])
    ensures CountsOk(t)
  {
    forall id | 0 <= id < |t.info| ensures t.info[id].refCount == Sum(t.routines, CountedFor(id)) {
      SumUpdate(s.routines, r, t.routines[r], CountedFor(id));
    }
    SumUpdate(s.routines, r, t.routines[r], LeftLoop());
  }

  lemma FinderCounts(s: State, t: State)
    requires Typed(s) && FinderNext(s) == Some(t)
    requires CountsOk(s)
    ensures CountsOk(t)
  {
    var w := s.lock.work;
    if w.at.Check? && !s.consumers[w.at.seen].dead {
      SpawnCounts(s, Routine(w.at.seen, w.at.client, Spawned), t);
    } else if w.at.NextUri? && w.add != [] {
      SumAllZero(s.routines, CountedFor(|s.info|));
      assert t.info[|s.info|].refCount == Sum(t.routines, CountedFor(|s.info|));
    } else {
      assert w.dead != [] ==> Known(s.info, w.dead[0]);
    }
  }

  lemma VisitCounts(s: State, x: nat, t: State)
    requires Typed(s) && VisitNext(s, x) == Some(t)
    requires CountsOk(s)
    ensures CountsOk(t)
  {
    var p := s.consumers[x].phase;
    if p.Visiting? && p.next < |s.clients| {
      SpawnCounts(s, Routine(x, s.clients[p.next], Spawned), t);
    }
  }

  lemma EnterCounts(s: State, r: nat, t: State)
    requires Typed(s) && EnterNext(s, r) == Some(t)
    requires CountsOk(s)
    ensures CountsOk(t)
  {
    TurnCounts(s, r, t.routines[r].phase, t);
  }

  lemma ExitCounts(s: State, r: nat, t: State)
    requires Typed(s) && ExitNext(s, r) == Some(t)
    requires CountsOk(s)
    ensures CountsOk(t)
  {
    TurnCounts(s, r, t.routines[r].phase, t);
  }

  lemma LoopCounts(s: State, r: nat, ok: bool, t: State)
    requires Typed(s) && LoopNext(s, r, ok) == Some(t)
    requires CountsOk(s)
    ensures CountsOk(t)
  {
    TurnCounts(s, r, t.routines[r].phase, t);
  }

  // ---- One goroutine per consumer and URI ----

  ghost predicate DopplersOk(consumers: seq<Consumer>, routines: seq<Routine>) {
    && (forall r :: 0 <= r < |routines| ==> routines[r].consumer < |consumers|)
    && Exclusive(routines)
    && Recorded(consumers, routines)
  }

  /** Any change that keeps who is active for what, and every `dopplers` set. */
  lemma DopplersFrame(consumers: seq<Consumer>, routines: seq<Routine>, consumers': seq<Consumer>, routines': seq<Routine>)
    requires DopplersOk(consumers, routines)
    requires |consumers| <= |consumers'| && |routines| <= |routines'|
    requires forall x :: 0 <= x < |consumers| ==> consumers'[x].dopplers == consumers[x].dopplers
    requires forall x :: |consumers| <= x < |consumers'| ==> consumers'[x].dopplers == {}
    requires forall r :: 0 <= r < |routines| ==>
      && routines'[r].consumer == routines[r].consumer && routines'[r].client == routines[r].client
      && Active(routines'[r].phase) == Active(routines[r].phase)
    requires forall r :: |routines| <= r < |routines'| ==> routines'[r].phase.Spawned? && routines'[r].consumer < |consumers'|
    ensures DopplersOk(consumers', routines')
  {
    forall x, uri | 0 <= x < |consumers'|
      ensures uri in consumers'[x].dopplers <==> Served(routines', x, uri)
    {
      if x < |consumers| && uri in consumers[x].dopplers {
        var r :| 0 <= r < |routines| && Serves(routines[r], x, uri);
        assert Serves(routines'[r], x, uri);
      }
      if Served(routines', x, uri) {
        var r :| 0 <= r < |routines'| && Serves(routines'[r], x, uri);
        assert Serves(routines[r], x, uri);
      }
    }
  }

  /** A goroutine that passes the check becomes the one active for its URI. */
  lemma DopplersAdd(s: State, r: nat, t: State)
    requires Typed(s) && DopplersOk(s.consumers, s.routines)
    requires r < |s.routines| && s.routines[r].phase.Spawned?
    requires s.routines[r].client.uri !in s.consumers[s.routines[r].consumer].dopplers
    requires EnterNext(s, r) == Some(t)
    ensures DopplersOk(t.consumers, t.routines)
  {
    var g := s.routines[r];
    assert !Served(s.routines, g.consumer, g.client.uri);
    forall x: nat, uri | x < |t.consumers|
      ensures uri in t.consumers[x].dopplers <==> Served(t.routines, x, uri)
    {
      if x == g.consumer && uri == g.client.uri {
        assert Serves(t.routines[r], x, uri);
      } else {
        ServedElsewhere(s.routines, r, Holding, t.routines, x, uri);
      }
    }
    forall q | 0 <= q < |s.routines| && q != r && Active(s.routines[q].phase)
      ensures s.routines[q].consumer != g.consumer || s.routines[q].client.uri != g.client.uri
    {
      assert !Serves(s.routines[q], g.consumer, g.client.uri);
    }
  }

  /** A goroutine that forgets its URI was the only one active for it. */
  lemma DopplersForget(s: State, r: nat, t: State)
    requires Typed(s) && DopplersOk(s.consumers, s.routines)
    requires r < |s.routines| && s.routines[r].phase.Forgetting?
    requires ExitNext(s, r) == Some(t)
    ensures DopplersOk(t.consumers, t.routines)
  {
    var g := s.routines[r];
    forall x: nat, uri | x < |t.consumers|
      ensures uri in t.consumers[x].dopplers <==> Served(t.routines, x, uri)
    {
      if x == g.consumer && uri == g.client.uri {
        NobodyElse(s.routines, r, t.routines);
      } else {
        ServedElsewhere(s.routines, r, Ended, t.routines, x, uri);
      }
    }
  }

  lemma NobodyElse(routines: seq<Routine>, r: nat, routines': seq<Routine>)
    requires Exclusive(routines) && Turned(routines, r, Ended, routines') && Active(routines[r].phase)
    ensures !Served(routines', routines[r].consumer, routines[r].client.uri)
  {
    forall q | 0 <= q < |routines'| ensures !Serves(routines'[q], routines[r].consumer, routines[r].client.uri) {
      assert q == r || routines'[q] == routines[q];
    }
  }

  /** A goroutine for another consumer or URI makes no difference. */
  lemma ServedElsewhere(routines: seq<Routine>, r: nat, p: RoutinePhase, routines': seq<Routine>, x: nat, uri: string)
    requires Turned(routines, r, p, routines')
    requires x != routines[r].consumer || uri != routines[r].client.uri
    ensures Served(routines', x, uri) <==> Served(routines, x, uri)
  {
    if Served(routines, x, uri) {
      var q :| 0 <= q < |routines| && Serves(routines[q], x, uri);
      assert Serves(routines'[q], x, uri);
    }
    if Served(routines', x, uri) {
      var q :| 0 <= q < |routines'| && Serves(routines'[q], x, uri);
      assert Serves(routines[q], x, uri);
    }
  }

  lemma EnterDopplers(s: State, r: nat, t: State)
    requires Typed(s) && EnterNext(s, r) == Some(t)
    requires DopplersOk(s.consumers, s.routines)
    ensures DopplersOk(t.consumers, t.routines)
  {
    var g := s.routines[r];
    if g.phase.Spawned? && g.client.uri !in s.consumers[g.consumer].dopplers {
      DopplersAdd(s, r, t);
    } else {
      DopplersFrame(s.consumers, s.routines, t.consumers, t.routines);
    }
  }

  lemma ExitDopplers(s: State, r: nat, t: State)
    requires Typed(s) && ExitNext(s, r) == Some(t)
    requires DopplersOk(s.consumers, s.routines)
    ensures DopplersOk(t.consumers, t.routines)
  {
    if s.routines[r].phase.Forgetting? {
      DopplersForget(s, r, t);
    } else {
      DopplersFrame(s.consumers, s.routines, t.consumers, t.routines);
    }
  }
}
