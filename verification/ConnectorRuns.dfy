/** The connector over whole runs: every interleaving keeps the invariants, and what they promise. */
module ConnectorRuns {
  import opened Base
  import opened ClientList
  import opened ConnectorProtocol
  import opened ConnectorSafety
  import opened ConnectorCoverage

  ghost predicate Inv(s: State)
    requires Typed(s)
  {
    && LockOk(s) && SlotsOk(s.slots, s.consumers) && ListOk(s.clients, s.lock)
    && CountsOk(s) && DopplersOk(s.consumers, s.routines)
    && NoZombie(s) && LiveOk(s) && NoLost(s) && SteadyOk(s) && ServedOk(s)
  }

  lemma InitInv(size: nat)
    ensures Inv(Init(size))
  {
  }

  lemma EventFrame(s: State, uris: seq<string>, t: State)
    requires Typed(s) && EventNext(s, uris) == Some(t)
    requires SlotsOk(s.slots, s.consumers) && CountsOk(s) && DopplersOk(s.consumers, s.routines) && NoLost(s)
    ensures SlotsOk(t.slots, t.consumers) && CountsOk(t) && DopplersOk(t.consumers, t.routines) && NoLost(t)
  {
  }

  lemma EventInv(s: State, uris: seq<string>, t: State)
    requires Typed(s) && EventNext(s, uris) == Some(t) && Inv(s)
    ensures Inv(t)
  {
    EventFrame(s, uris, t);
    EventLocks(s, uris, t);
    EventZombie(s, uris, t);
    EventLive(s, uris, t);
    EventSteady(s, uris, t);
    EventServed(s, uris, t);
  }

  lemma FinderFrame(s: State, t: State)
    requires Typed(s) && FinderNext(s) == Some(t)
    requires ServedOk(s) && DopplersOk(s.consumers, s.routines)
    ensures ServedOk(t) && DopplersOk(t.consumers, t.routines)
  {
    SpawnServed(s, t);
    DopplersFrame(s.consumers, s.routines, t.consumers, t.routines);
  }

  lemma FinderInv(s: State, t: State)
    requires Typed(s) && FinderNext(s) == Some(t) && Inv(s)
    ensures Inv(t)
  {
    FinderLocks(s, t);
    FinderList(s, t);
    FinderCounts(s, t);
    FinderZombie(s, t);
    FinderLive(s, t);
    FinderLost(s, t);
    FinderSteady(s, t);
    FinderFrame(s, t);
  }

  /** Steps of callers touch neither the records, the list, the lock nor any existing goroutine. */
  lemma CallRest(s: State, t: State)
    requires ListOk(s.clients, s.lock) && NoZombie(s) && LiveOk(s) && SteadyOk(s) && LockOk(s)
    requires t.info == s.info && t.clients == s.clients && t.lock == s.lock && t.events == s.events
    requires |s.routines| <= |t.routines| && t.routines[..|s.routines|] == s.routines
    requires s.lock.ExitHolds? ==> s.lock.routine < |s.routines|
    ensures ListOk(t.clients, t.lock) && NoZombie(t) && LiveOk(t) && SteadyOk(t)
  {
    forall r | 0 <= r < |s.routines| ensures t.routines[r] == s.routines[r] {
      assert t.routines[..|s.routines|][r] == t.routines[r];
    }
  }

  lemma StartFrame(s: State, t: State)
    requires Typed(s) && t == StartNext(s)
    requires ServedOk(s) && DopplersOk(s.consumers, s.routines)
    ensures ServedOk(t) && DopplersOk(t.consumers, t.routines)
  {
    SpawnServed(s, t);
    DopplersFrame(s.consumers, s.routines, t.consumers, t.routines);
  }

  lemma StartKeeps(s: State, t: State)
    requires Typed(s) && t == StartNext(s)
    requires LockOk(s) && SlotsOk(s.slots, s.consumers) && CountsOk(s) && NoLost(s)
    ensures LockOk(t) && SlotsOk(t.slots, t.consumers) && CountsOk(t) && NoLost(t)
  {
  }

  lemma StartInv(s: State, t: State)
    requires Typed(s) && t == StartNext(s) && Inv(s)
    ensures Inv(t)
  {
    StartKeeps(s, t);
    StartFrame(s, t);
    CallRest(s, t);
  }

  lemma DieFrame(s: State, x: nat, t: State)
    requires Typed(s) && DieNext(s, x) == Some(t)
    requires ServedOk(s) && DopplersOk(s.consumers, s.routines)
    ensures ServedOk(t) && DopplersOk(t.consumers, t.routines)
  {
    SpawnServed(s, t);
    DopplersFrame(s.consumers, s.routines, t.consumers, t.routines);
  }

  lemma DieKeeps(s: State, x: nat, t: State)
    requires Typed(s) && DieNext(s, x) == Some(t)
    requires LockOk(s) && SlotsOk(s.slots, s.consumers) && CountsOk(s) && NoLost(s)
    ensures LockOk(t) && SlotsOk(t.slots, t.consumers) && CountsOk(t) && NoLost(t)
  {
  }

  lemma DieInv(s: State, x: nat, t: State)
    requires Typed(s) && DieNext(s, x) == Some(t) && Inv(s)
    ensures Inv(t)
  {
    DieKeeps(s, x, t);
    DieFrame(s, x, t);
    CallRest(s, t);
  }

  lemma SlotFrame(s: State, x: nat, t: State)
    requires Typed(s) && SlotNext(s, x) == Some(t)
    requires ServedOk(s) && DopplersOk(s.consumers, s.routines)
    ensures ServedOk(t) && DopplersOk(t.consumers, t.routines)
  {
    SpawnServed(s, t);
    DopplersFrame(s.consumers, s.routines, t.consumers, t.routines);
  }

  lemma SlotCounts(s: State, x: nat, t: State)
    requires Typed(s) && SlotNext(s, x) == Some(t)
    requires CountsOk(s)
    ensures CountsOk(t)
  {
  }

  lemma SlotRest(s: State, x: nat, t: State)
    requires Typed(s) && SlotNext(s, x) == Some(t)
    requires ListOk(s.clients, s.lock) && NoZombie(s) && LiveOk(s) && SteadyOk(s) && LockOk(s)
    ensures ListOk(t.clients, t.lock) && NoZombie(t) && LiveOk(t) && SteadyOk(t)
  {
    SlotEffect(s, x, t);
    CallRest(s, t);
  }

  lemma SlotEffect(s: State, x: nat, t: State)
    requires Typed(s) && SlotNext(s, x) == Some(t)
    ensures t == s.(slots := t.slots, consumers := t.consumers)
    ensures s.lock.ExitHolds? ==> s.lock.routine < |s.routines|
  {
  }

  lemma SlotInv(s: State, x: nat, t: State)
    requires Typed(s) && SlotNext(s, x) == Some(t) && Inv(s)
    ensures Inv(t)
  {
    SlotLocks(s, x, t);
    SlotSearch(s, x, t);
    SlotLost(s, x, t);
    SlotFrame(s, x, t);
    SlotCounts(s, x, t);
    SlotRest(s, x, t);
  }

  lemma VisitFrame(s: State, x: nat, t: State)
    requires Typed(s) && VisitNext(s, x) == Some(t)
    requires ServedOk(s) && DopplersOk(s.consumers, s.routines)
    ensures ServedOk(t) && DopplersOk(t.consumers, t.routines)
  {
    SpawnServed(s, t);
    DopplersFrame(s.consumers, s.routines, t.consumers, t.routines);
  }

  lemma VisitEffect(s: State, x: nat, t: State)
    requires Typed(s) && VisitNext(s, x) == Some(t)
    ensures t == s.(consumers := t.consumers, routines := t.routines)
    ensures |s.routines| <= |t.routines| && t.routines[..|s.routines|] == s.routines
    ensures s.lock.ExitHolds? ==> s.lock.routine < |s.routines|
  {
  }

  lemma VisitRest(s: State, x: nat, t: State)
    requires Typed(s) && VisitNext(s, x) == Some(t)
    requires ListOk(s.clients, s.lock) && NoZombie(s) && LiveOk(s) && SteadyOk(s) && LockOk(s)
    ensures ListOk(t.clients, t.lock) && NoZombie(t) && LiveOk(t) && SteadyOk(t)
  {
    VisitEffect(s, x, t);
    CallRest(s, t);
  }

  lemma VisitInv(s: State, x: nat, t: State)
    requires Typed(s) && VisitNext(s, x) == Some(t) && Inv(s)
    ensures Inv(t)
  {
    VisitLocks(s, x, t);
    VisitCounts(s, x, t);
    VisitLost(s, x, t);
    VisitFrame(s, x, t);
    VisitRest(s, x, t);
  }

  lemma EnterLost(s: State, r: nat, t: State)
    requires Typed(s) && EnterNext(s, r) == Some(t)
    requires NoLost(s)
    ensures NoLost(t)
  {
    RoutineLost(s, t);
  }

  lemma EnterSteady(s: State, r: nat, t: State)
    requires Typed(s) && EnterNext(s, r) == Some(t)
    requires SteadyOk(s) && ListOk(s.clients, s.lock)
    ensures SteadyOk(t) && ListOk(t.clients, t.lock)
  {
    KeepSteady(s, t);
  }

  lemma EnterInv(s: State, r: nat, t: State)
    requires Typed(s) && EnterNext(s, r) == Some(t) && Inv(s)
    ensures Inv(t)
  {
    EnterLocks(s, r, t);
    EnterCounts(s, r, t);
    EnterDopplers(s, r, t);
    EnterZombie(s, r, t);
    EnterLive(s, r, t);
    EnterLost(s, r, t);
    EnterSteady(s, r, t);
    EnterServed(s, r, t);
  }

  lemma ExitInv(s: State, r: nat, t: State)
    requires Typed(s) && ExitNext(s, r) == Some(t) && Inv(s)
    ensures Inv(t)
  {
    ExitLocks(s, r, t);
    ExitList(s, r, t);
    ExitCounts(s, r, t);
    ExitDopplers(s, r, t);
    ExitZombie(s, r, t);
    ExitLive(s, r, t);
    ExitLost(s, r, t);
    ExitSteady(s, r, t);
    ExitServed(s, r, t);
  }

  lemma LoopLost(s: State, r: nat, ok: bool, t: State)
    requires Typed(s) && LoopNext(s, r, ok) == Some(t)
    requires NoLost(s)
    ensures NoLost(t)
  {
    RoutineLost(s, t);
  }

  lemma LoopSteady(s: State, r: nat, ok: bool, t: State)
    requires Typed(s) && LoopNext(s, r, ok) == Some(t)
    requires SteadyOk(s)
    ensures SteadyOk(t)
  {
    KeepSteady(s, t);
  }

  lemma LoopDopplers(s: State, r: nat, ok: bool, t: State)
    requires Typed(s) && LoopNext(s, r, ok) == Some(t)
    requires DopplersOk(s.consumers, s.routines)
    ensures DopplersOk(t.consumers, t.routines)
  {
    DopplersFrame(s.consumers, s.routines, t.consumers, t.routines);
  }

  lemma LoopLive(s: State, r: nat, ok: bool, t: State)
    requires Typed(s) && LoopNext(s, r, ok) == Some(t)
    requires LiveOk(s) && ListOk(s.clients, s.lock)
    ensures LiveOk(t) && ListOk(t.clients, t.lock)
  {
    CountLive(s, t);
  }

  lemma LoopInv(s: State, r: nat, ok: bool, t: State)
    requires Typed(s) && LoopNext(s, r, ok) == Some(t) && Inv(s)
    ensures Inv(t)
  {
    LoopLocks(s, r, ok, t);
    LoopCounts(s, r, ok, t);
    LoopZombie(s, r, ok, t);
    LoopLive(s, r, ok, t);
    LoopLost(s, r, ok, t);
    LoopSteady(s, r, ok, t);
    LoopDopplers(s, r, ok, t);
    LoopServed(s, r, ok, t);
  }

  lemma StepInv(s: State, step: Step, after: Option<State>)
    requires Typed(s) && Inv(s) && after == Next(s, step)
    ensures after.Some? ==> Typed(after.value) && Inv(after.value)
  {
    if after.Some? {
      match step
      case Event(uris) => EventInv(s, uris, after.value);
      case Finder => FinderInv(s, after.value);
      case Start => StartInv(s, after.value);
      case Die(x) => DieInv(s, x, after.value);
      case Slot(x) => SlotInv(s, x, after.value);
      case Visit(x) => VisitInv(s, x, after.value);
      case Enter(r) => EnterInv(s, r, after.value);
      case Exit(r) => ExitInv(s, r, after.value);
      case Loop(r, ok) => LoopInv(s, r, ok, after.value);
    }
  }

  lemma StepSize(s: State, step: Step)
    requires Typed(s)
    ensures var t := Next(s, step); t.Some? ==> |t.value.slots| == |s.slots|
  {
  }

  /** Every reachable state satisfies every invariant. */
  lemma {:induction false} RunInv(size: nat, steps: seq<Step>)
    ensures var r := After(size, steps);
            r.Some? ==> Inv(r.value) && |r.value.slots| == size
  {
    if steps == [] {
      InitInv(size);
    } else {
      var before := After(size, steps[..|steps| - 1]);
      RunInv(size, steps[..|steps| - 1]);
      if before.Some? {
        StepInv(before.value, steps[|steps| - 1], After(size, steps));
        StepSize(before.value, steps[|steps| - 1]);
      }
    }
  }
}
