/** How often goroutines are started: for a consumer and a client once by the finder's scan and once
    by the consumer's own Subscribe call, at the most; and the scan starts none for the dead. */
module ConnectorStarts {
  import opened Base
  import opened ClientList
  import opened ConnectorProtocol
  import opened ConnectorSafety
  import opened ConnectorRuns

  function StartedFor(x: nat, c: Ref): Routine -> int {
    (g: Routine) => if g.consumer == x && g.client == c then 1 else 0
  }

  function Starts(routines: seq<Routine>, x: nat, c: Ref): int {
    Sum(routines, StartedFor(x, c))
  }

  /** The consumer's own call may have started a goroutine for the client. */
  ghost predicate ByVisit(p: CallPhase, clients: seq<Ref>, c: Ref) {
    p.Returned? || (p.Visiting? && exists k :: 0 <= k < p.next && k < |clients| && clients[k] == c)
  }

  /** The finder's scan for this client has yet to pass the slot. */
  ghost predicate Ahead(lock: Lock, c: Ref, slot: nat) {
    && lock.FinderHolds?
    && ((lock.work.at.Scan? && lock.work.at.client == c && slot >= lock.work.at.i)
        || (lock.work.at.Check? && lock.work.at.client == c && slot >= lock.work.at.i))
  }

  /** A scan may have started a goroutine for the client. */
  ghost predicate ByScan(p: CallPhase, lock: Lock, c: Ref) {
    HasSlot(p) && !Ahead(lock, c, p.slot)
  }

  ghost function Bound(p: CallPhase, clients: seq<Ref>, lock: Lock, c: Ref): nat {
    (if ByVisit(p, clients, c) then 1 else 0) + (if ByScan(p, lock, c) then 1 else 0)
  }

  /** The consumer the scan is looking at won the slot the scan is at. */
  ghost predicate CheckOk(lock: Lock, consumers: seq<Consumer>) {
    lock.FinderHolds? && lock.work.at.Check? ==>
      && lock.work.at.seen < |consumers|
      && HasSlot(consumers[lock.work.at.seen].phase)
      && consumers[lock.work.at.seen].phase.slot == lock.work.at.i
  }

  ghost predicate StartsOk(s: State) {
    && CheckOk(s.lock, s.consumers)
    && forall x, c :: 0 <= x < |s.consumers| ==>
         Starts(s.routines, x, c) <= Bound(s.consumers[x].phase, s.clients, s.lock, c)
  }

  /** No goroutine is started, and no consumer falls back. */
  lemma StartsFrame(s: State, t: State)
    requires StartsOk(s) && CheckOk(t.lock, t.consumers)
    requires |t.consumers| == |s.consumers| && Turning(s.routines, t.routines)
    requires forall x, c :: 0 <= x < |s.consumers| ==>
      Bound(s.consumers[x].phase, s.clients, s.lock, c) <= Bound(t.consumers[x].phase, t.clients, t.lock, c)
    ensures StartsOk(t)
  {
    forall x, c | 0 <= x < |t.consumers|
      ensures Starts(t.routines, x, c) <= Bound(t.consumers[x].phase, t.clients, t.lock, c)
    {
      SumSame(s.routines, t.routines, StartedFor(x, c));
    }
  }

  /** The same goroutines, whatever they are doing. */
  ghost predicate Turning(a: seq<Routine>, b: seq<Routine>) {
    |a| == |b| && forall r :: 0 <= r < |a| ==> a[r].consumer == b[r].consumer && a[r].client == b[r].client
  }

  /** One goroutine is started, and leaves room for itself. */
  lemma StartsMore(s: State, x: nat, d: Ref, t: State)
    requires StartsOk(s) && CheckOk(t.lock, t.consumers)
    requires |t.consumers| == |s.consumers| && x < |s.consumers|
    requires t.routines == s.routines + [Routine(x, d, Spawned)]
    requires forall y, c :: 0 <= y < |s.consumers| ==>
      Bound(s.consumers[y].phase, s.clients, s.lock, c) <= Bound(t.consumers[y].phase, t.clients, t.lock, c)
    requires Bound(s.consumers[x].phase, s.clients, s.lock, d) < Bound(t.consumers[x].phase, t.clients, t.lock, d)
    ensures StartsOk(t)
  {
    forall y, c | 0 <= y < |t.consumers|
      ensures Starts(t.routines, y, c) <= Bound(t.consumers[y].phase, t.clients, t.lock, c)
    {
      SumAppend(s.routines, Routine(x, d, Spawned), StartedFor(y, c));
    }
  }

  lemma NotVisiting(consumers: seq<Consumer>, a: seq<Ref>, b: seq<Ref>)
    requires NoReader(consumers)
    ensures forall x, c :: 0 <= x < |consumers| ==> (ByVisit(consumers[x].phase, a, c) <==> ByVisit(consumers[x].phase, b, c))
  {
  }

  lemma EventStarts(s: State, uris: seq<string>, t: State)
    requires Typed(s) && EventNext(s, uris) == Some(t) && StartsOk(s)
    ensures StartsOk(t)
  {
    StartsFrame(s, t);
  }

  /** A new record has no goroutines yet. */
  lemma AddStarts(s: State, t: State)
    requires Typed(s) && FinderNext(s) == Some(t) && s.lock.work.at.NextUri? && s.lock.work.add != []
    requires StartsOk(s) && NoReader(s.consumers)
    ensures StartsOk(t)
  {
    var added := Ref(|s.info|, s.lock.work.add[0]);
    NotVisiting(s.consumers, s.clients, t.clients);
    forall x, c | 0 <= x < |t.consumers|
      ensures Starts(t.routines, x, c) <= Bound(t.consumers[x].phase, t.clients, t.lock, c)
    {
      if c == added {
        SumAllZero(s.routines, StartedFor(x, c));
      }
    }
  }

  lemma ScanStarts(s: State, t: State)
    requires Typed(s) && FinderNext(s) == Some(t) && s.lock.work.at.Scan?
    requires StartsOk(s) && SlotsOk(s.slots, s.consumers)
    ensures StartsOk(t)
  {
    StartsFrame(s, t);
  }

  lemma CheckStarts(s: State, t: State)
    requires Typed(s) && FinderNext(s) == Some(t) && s.lock.work.at.Check?
    requires StartsOk(s)
    ensures StartsOk(t)
  {
    var at := s.lock.work.at;
    if s.consumers[at.seen].dead {
      StartsFrame(s, t);
    } else {
      StartsMore(s, at.seen, at.client, t);
    }
  }

  lemma RetireStarts(s: State, t: State)
    requires Typed(s) && FinderNext(s) == Some(t) && (s.lock.work.at.NextDead? || s.lock.work.at.Probe?)
    requires StartsOk(s) && NoReader(s.consumers)
    ensures StartsOk(t)
  {
    NotVisiting(s.consumers, s.clients, t.clients);
    StartsFrame(s, t);
  }

  lemma FinderStarts(s: State, t: State)
    requires Typed(s) && FinderNext(s) == Some(t)
    requires StartsOk(s) && LockOk(s) && SlotsOk(s.slots, s.consumers)
    ensures StartsOk(t)
  {
    match s.lock.work.at
    case NextUri =>
      if s.lock.work.add != [] {
        AddStarts(s, t);
      } else {
        StartsFrame(s, t);
      }
    case Scan(_, _) => ScanStarts(s, t);
    case Check(_, _, _) => CheckStarts(s, t);
    case _ => RetireStarts(s, t);
  }

  lemma StartStarts(s: State, t: State)
    requires Typed(s) && t == StartNext(s) && StartsOk(s)
    ensures StartsOk(t)
  {
    forall x, c | 0 <= x < |t.consumers|
      ensures Starts(t.routines, x, c) <= Bound(t.consumers[x].phase, t.clients, t.lock, c)
    {
      if x == |s.consumers| {
        SumAllZero(s.routines, StartedFor(x, c));
      } else {
        assert t.consumers[x] == s.consumers[x];
      }
    }
  }

  lemma DieStarts(s: State, x: nat, t: State)
    requires Typed(s) && DieNext(s, x) == Some(t) && StartsOk(s)
    ensures StartsOk(t)
  {
    StartsFrame(s, t);
  }

  lemma SlotStarts(s: State, x: nat, t: State)
    requires Typed(s) && SlotNext(s, x) == Some(t) && StartsOk(s)
    ensures StartsOk(t)
  {
    StartsFrame(s, t);
  }

  /** Passing one more client under the read lock. */
  lemma PassingMore(clients: seq<Ref>, slot: nat, next: nat)
    requires Distinct(clients) && next < |clients|
    ensures !ByVisit(Visiting(slot, next), clients, clients[next])
    ensures forall c :: ByVisit(Visiting(slot, next + 1), clients, c) <==> ByVisit(Visiting(slot, next), clients, c) || c == clients[next]
  {
    forall c ensures ByVisit(Visiting(slot, next + 1), clients, c) <==> ByVisit(Visiting(slot, next), clients, c) || c == clients[next] {
      if ByVisit(Visiting(slot, next), clients, c) {
        var k :| 0 <= k < next && k < |clients| && clients[k] == c;
        assert clients[k] == c;
      }
    }
  }

  lemma VisitStarts(s: State, x: nat, t: State)
    requires Typed(s) && VisitNext(s, x) == Some(t)
    requires StartsOk(s) && LockOk(s) && Distinct(s.clients)
    ensures StartsOk(t)
  {
    var p := s.consumers[x].phase;
    if p.Visiting? && p.next < |s.clients| {
      PassingMore(s.clients, p.slot, p.next);
      StartsMore(s, x, s.clients[p.next], t);
    } else {
      StartsFrame(s, t);
    }
  }

  lemma EnterStarts(s: State, r: nat, t: State)
    requires Typed(s) && EnterNext(s, r) == Some(t) && StartsOk(s)
    ensures StartsOk(t)
  {
    StartsFrame(s, t);
  }

  lemma LoopStarts(s: State, r: nat, ok: bool, t: State)
    requires Typed(s) && LoopNext(s, r, ok) == Some(t) && StartsOk(s)
    ensures StartsOk(t)
  {
    StartsFrame(s, t);
  }

  lemma ExitStarts(s: State, r: nat, t: State)
    requires Typed(s) && ExitNext(s, r) == Some(t)
    requires StartsOk(s) && LockOk(s)
    ensures StartsOk(t)
  {
    if s.routines[r].phase.Dropped? {
      NotVisiting(s.consumers, s.clients, t.clients);
    }
    StartsFrame(s, t);
  }

  lemma StepStarts(s: State, step: Step, t: State)
    requires Typed(s) && Inv(s) && StartsOk(s) && Next(s, step) == Some(t)
    ensures StartsOk(t)
  {
    match step
    case Event(uris) => EventStarts(s, uris, t);
    case Finder => FinderStarts(s, t);
    case Start => StartStarts(s, t);
    case Die(x) => DieStarts(s, x, t);
    case Slot(x) => SlotStarts(s, x, t);
    case Visit(x) => VisitStarts(s, x, t);
    case Enter(r) => EnterStarts(s, r, t);
    case Exit(r) => ExitStarts(s, r, t);
    case Loop(r, ok) => LoopStarts(s, r, ok, t);
  }

  lemma {:induction false} RunStarts(size: nat, steps: seq<Step>, s: State)
    requires After(size, steps) == Some(s)
    ensures StartsOk(s)
  {
    if steps != [] {
      var before := After(size, steps[..|steps| - 1]).value;
      RunInv(size, steps[..|steps| - 1]);
      RunStarts(size, steps[..|steps| - 1], before);
      StepStarts(before, steps[|steps| - 1], s);
    }
  }

  /** In every run at most two goroutines are ever started for a consumer and a client; none before the
      consumer is admitted, and none but the scan's before it visits the list. */
  lemma AtMostTwoStarts(size: nat, s: State, x: nat, c: Ref)
    requires Reachable(size, s) && x < |s.consumers|
    ensures Starts(s.routines, x, c) <= 2
    ensures !HasSlot(s.consumers[x].phase) ==> Starts(s.routines, x, c) <= 0
    ensures s.consumers[x].phase.Admitted? ==> Starts(s.routines, x, c) <= 1
  {
    var steps :| After(size, steps) == Some(s);
    RunStarts(size, steps, s);
  }

  lemma ScanStartsOne(s: State, t: State)
    requires Typed(s) && FinderNext(s) == Some(t) && t.routines != s.routines
    ensures s.lock.work.at.Check? && s.lock.work.at.seen < |s.consumers| && !s.consumers[s.lock.work.at.seen].dead
    ensures t.routines == s.routines + [Routine(s.lock.work.at.seen, s.lock.work.at.client, Spawned)]
  {
  }

  /** The finder starts goroutines one at a time, for an admitted consumer that it has just seen alive. */
  lemma ScanStartsLive(size: nat, s: State, t: State) returns (x: nat, c: Ref)
    requires Reachable(size, s) && Typed(s) && FinderNext(s) == Some(t) && t.routines != s.routines
    ensures t.routines == s.routines + [Routine(x, c, Spawned)]
    ensures x < |s.consumers| && HasSlot(s.consumers[x].phase) && !s.consumers[x].dead
  {
    var steps :| After(size, steps) == Some(s);
    RunStarts(size, steps, s);
    ScanStartsOne(s, t);
    x, c := s.lock.work.at.seen, s.lock.work.at.client;
  }
}
