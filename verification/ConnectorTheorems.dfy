/** The connector's promises, for every number of slots and every run. */
module ConnectorTheorems {
  import opened Base
  import opened ClientList
  import opened ConnectorProtocol
  import opened ConnectorSafety
  import opened ConnectorCoverage
  import opened ConnectorRuns

  /** No lost pair: once Subscribe has returned and no event is being handled, a live consumer has
      had a goroutine started for every listed client, however the two overlapped. */
  lemma NoLostPair(size: nat, s: State, x: nat, c: Ref)
    requires Reachable(size, s) && !s.lock.FinderHolds?
    requires x < |s.consumers| && s.consumers[x].phase.Returned? && !s.consumers[x].dead
    requires c in s.clients
    ensures exists r :: 0 <= r < |s.routines| && s.routines[r].consumer == x && s.routines[r].client == c
  {
    var steps :| After(size, steps) == Some(s);
    RunInv(size, steps);
    assert Covered(s.routines, x, c);
    var r :| 0 <= r < |s.routines| && SpawnedFor(s.routines[r], x, c);
  }

  /** The clients not marked for disconnection are, as a multiset of URIs, the last announcement. */
  lemma ListFollowsAnnouncement(size: nat, s: State)
    requires Reachable(size, s) && s.lock.Free?
    ensures LiveUris(s.clients, s.info, []) == multiset(Latest(s.events))
    ensures Distinct(s.clients)
  {
    var steps :| After(size, steps) == Some(s);
    RunInv(size, steps);
  }

  /** A listed client marked for disconnection is still in use: somebody is left to close it. */
  lemma NoZombieClients(size: nat, s: State, c: Ref)
    requires Reachable(size, s) && s.lock.Free?
    requires c in s.clients
    ensures c.id < |s.info|
    ensures s.info[c.id].disconnect ==>
      exists r :: 0 <= r < |s.routines| && s.routines[r].client.id == c.id && Counted(s.routines[r].phase)
  {
    var steps :| After(size, steps) == Some(s);
    RunInv(size, steps);
    assert Known(s.info, c);
    if s.info[c.id].disconnect {
      var r := SumPositive(s.routines, CountedFor(c.id));
    }
  }

  // ---- Who is taken off the list ----

  /** No goroutine other than r is counted on this record. */
  ghost predicate NobodyElseCounted(routines: seq<Routine>, r: nat, id: nat) {
    forall q :: 0 <= q < |routines| && q != r && routines[q].client.id == id ==> !Counted(routines[q].phase)
  }

  ghost predicate NobodyCounted(routines: seq<Routine>, id: nat) {
    NobodyElseCounted(routines, |routines|, id)
  }

  lemma CountsNobody(routines: seq<Routine>, id: nat)
    ensures Sum(routines, CountedFor(id)) == 0 <==> NobodyCounted(routines, id)
  {
    SumZero(routines, CountedFor(id));
  }

  lemma CountsOnlyOne(routines: seq<Routine>, r: nat, id: nat)
    requires r < |routines| && routines[r].client.id == id && Counted(routines[r].phase)
    ensures Sum(routines, CountedFor(id)) >= 1
    ensures Sum(routines, CountedFor(id)) == 1 <==> NobodyElseCounted(routines, r, id)
  {
    var others := routines[r := routines[r].(phase := Ended)];
    SumUpdate(routines, r, others[r], CountedFor(id));
    SumNonNegative(others, CountedFor(id));
    CountsNobody(others, id);
    assert NobodyCounted(others, id) <==> NobodyElseCounted(routines, r, id);
  }

  lemma ProbeFacts(size: nat, s: State)
    requires Reachable(size, s) && Typed(s) && s.lock.FinderHolds? && s.lock.work.at.Probe?
    ensures s.lock.work.dead != []
    ensures var c := s.lock.work.dead[0];
            && c in s.clients && Known(s.info, c) && s.info[c.id].disconnect
            && s.info[c.id].refCount == Sum(s.routines, CountedFor(c.id))
  {
    var steps :| After(size, steps) == Some(s);
    RunInv(size, steps);
    assert s.lock.work.dead[0] in s.lock.work.dead;
  }

  /** The finder, done with a dead client, has marked it, and takes it off the list if and only if no
      goroutine is counted on it. */
  lemma FinderRetires(size: nat, s: State, t: State)
    requires Reachable(size, s) && Typed(s) && FinderNext(s) == Some(t) && s.lock.work.at.Probe?
    ensures s.lock.work.dead != []
    ensures var c := s.lock.work.dead[0];
            && c in s.clients && c.id < |s.info| && s.info[c.id].disconnect && t.info == s.info
            && (c !in t.clients <==> NobodyCounted(s.routines, c.id))
  {
    ProbeFacts(size, s);
    var c := s.lock.work.dead[0];
    WithoutMembers(s.clients, c);
    CountsNobody(s.routines, c.id);
  }

  /** Whoever the finder takes off the list is marked, and no goroutine is counted on it. */
  lemma ClosedOnlyUnused(size: nat, s: State, t: State, c: Ref)
    requires Reachable(size, s) && Typed(s) && FinderNext(s) == Some(t)
    requires c in s.clients && c !in t.clients
    ensures c.id < |s.info| && s.info[c.id].disconnect && NobodyCounted(s.routines, c.id)
  {
    FinderCloses(s, t, c);
    FinderRetires(size, s, t);
  }

  /** A goroutine that gives up its count closes its client exactly when the client is marked and
      nobody else is counted on it at that moment. */
  lemma LastOneCloses(size: nat, s: State, r: nat, t: State)
    requires Reachable(size, s) && Typed(s) && ExitNext(s, r) == Some(t) && s.routines[r].phase.Locked?
    ensures r < |t.routines|
    ensures var id := s.routines[r].client.id;
            id < |s.info|
            && t.routines[r].phase == Dropped(s.info[id].disconnect && NobodyElseCounted(s.routines, r, id))
  {
    var steps :| After(size, steps) == Some(s);
    RunInv(size, steps);
    var c := s.routines[r].client;
    assert Known(s.info, c);
    CountsOnlyOne(s.routines, r, c.id);
  }

  /** Closing takes exactly this client off the list, and only the finder and such a goroutine close. */
  lemma OnlyTheseClose(size: nat, s: State, step: Step, t: State, c: Ref)
    requires Reachable(size, s) && Typed(s) && Next(s, step) == Some(t) && c in s.clients
    ensures c !in t.clients ==>
      || (step.Finder? && s.lock.FinderHolds? && s.lock.work.at.Probe? && s.lock.work.dead != [] && c == s.lock.work.dead[0])
      || (step.Exit? && step.routine < |s.routines| && s.routines[step.routine].phase == Dropped(true)
          && s.routines[step.routine].client == c)
    ensures step.Exit? && step.routine < |s.routines| && s.routines[step.routine] == Routine(s.routines[step.routine].consumer, c, Dropped(true)) ==>
      c !in t.clients
  {
    match step
    case Finder => FinderCloses(s, t, c);
    case Exit(r) => ExitCloses(s, r, t, c);
    case Slot(x) => SlotLeavesList(s, x, t);
    case Visit(x) => VisitLeavesList(s, x, t);
    case _ =>
  }

  lemma FinderCloses(s: State, t: State, c: Ref)
    requires Typed(s) && FinderNext(s) == Some(t) && c in s.clients
    ensures c !in t.clients ==> s.lock.work.at.Probe? && s.lock.work.dead != [] && c == s.lock.work.dead[0]
  {
    if s.lock.work.at.Probe? {
      WithoutMembers(s.clients, s.lock.work.dead[0]);
    }
  }

  lemma ExitCloses(s: State, r: nat, t: State, c: Ref)
    requires Typed(s) && ExitNext(s, r) == Some(t) && c in s.clients
    ensures c !in t.clients <==> s.routines[r].phase == Dropped(true) && s.routines[r].client == c
  {
    WithoutMembers(s.clients, s.routines[r].client);
  }

  lemma SlotLeavesList(s: State, x: nat, t: State)
    requires Typed(s) && SlotNext(s, x) == Some(t)
    ensures t.clients == s.clients
  {
  }

  lemma VisitLeavesList(s: State, x: nat, t: State)
    requires Typed(s) && VisitNext(s, x) == Some(t)
    ensures t.clients == s.clients
  {
  }

  lemma {:induction false} SumPositive(routines: seq<Routine>, weight: Routine -> int) returns (r: nat)
    requires Sum(routines, weight) > 0
    ensures r < |routines| && weight(routines[r]) > 0
  {
    var n := |routines| - 1;
    if weight(routines[n]) > 0 {
      r := n;
    } else {
      r := SumPositive(routines[..n], weight);
    }
  }

  /** The reference count is the number of counted goroutines, hence never negative, and every
      goroutine that left its loop was reported as a disconnect exactly once. */
  lemma ReferencesCounted(size: nat, s: State, id: nat)
    requires Reachable(size, s) && id < |s.info|
    ensures s.info[id].refCount == Sum(s.routines, CountedFor(id))
    ensures s.info[id].refCount >= 0
    ensures s.disconnects == Sum(s.routines, LeftLoop())
  {
    var steps :| After(size, steps) == Some(s);
    RunInv(size, steps);
    SumNonNegative(s.routines, CountedFor(id));
  }

  /** At most one goroutine is active per consumer and URI, and `dopplers` says which URIs have one. */
  lemma OneRoutinePerUri(size: nat, s: State, x: nat, uri: string)
    requires Reachable(size, s) && x < |s.consumers|
    ensures uri in s.consumers[x].dopplers <==> exists r :: 0 <= r < |s.routines| && Serves(s.routines[r], x, uri)
    ensures forall q, r ::
      (0 <= q < |s.routines| && 0 <= r < |s.routines| && Serves(s.routines[q], x, uri) && Serves(s.routines[r], x, uri))
      ==> q == r
  {
    var steps :| After(size, steps) == Some(s);
    RunInv(size, steps);
    assert uri in s.consumers[x].dopplers <==> Served(s.routines, x, uri);
    forall q, r | 0 <= q < r < |s.routines| ensures !(Serves(s.routines[q], x, uri) && Serves(s.routines[r], x, uri)) {
    }
  }

  // ---- Slots ----

  ghost predicate LiveAdmitted(s: State, x: nat) {
    x < |s.consumers| && HasSlot(s.consumers[x].phase) && !s.consumers[x].dead
  }

  /** A live admitted consumer is in the slot it won, and no other caller won that slot. */
  lemma SlotsExclusive(size: nat, s: State, x: nat, y: nat)
    requires Reachable(size, s) && LiveAdmitted(s, x) && LiveAdmitted(s, y)
    ensures s.consumers[x].phase.slot < |s.slots| && s.slots[s.consumers[x].phase.slot] == Some(x)
    ensures x != y ==> s.consumers[x].phase.slot != s.consumers[y].phase.slot
  {
    var steps :| After(size, steps) == Some(s);
    RunInv(size, steps);
  }

  /** No step overwrites a live admitted consumer. */
  lemma SlotKept(size: nat, s: State, step: Step, t: State, x: nat)
    requires Reachable(size, s) && Typed(s) && Next(s, step) == Some(t)
    requires LiveAdmitted(s, x) && LiveAdmitted(t, x)
    ensures s.consumers[x].phase.slot == t.consumers[x].phase.slot < |t.slots|
    ensures t.slots[t.consumers[x].phase.slot] == Some(x)
  {
    var steps :| After(size, steps) == Some(s);
    RunInv(size, steps);
    ReachableStep(size, s, step, t);
    SlotsExclusive(size, t, x, x);
    SlotConstant(s, step, t, x);
  }

  /** Only the call itself moves its phase, and an admitted one keeps its slot. */
  lemma SlotConstant(s: State, step: Step, t: State, x: nat)
    requires Typed(s) && Next(s, step) == Some(t)
    requires x < |s.consumers| && HasSlot(s.consumers[x].phase)
    ensures x < |t.consumers| && HasSlot(t.consumers[x].phase)
    ensures t.consumers[x].phase.slot == s.consumers[x].phase.slot
  {
    match step
    case Slot(y) => SlotNextKeeps(s, y, t, x);
    case Visit(y) => VisitNextKeeps(s, y, t, x);
    case _ => assert t.consumers[x].phase == s.consumers[x].phase;
  }

  lemma SlotNextKeeps(s: State, y: nat, t: State, x: nat)
    requires Typed(s) && SlotNext(s, y) == Some(t)
    requires x < |s.consumers| && HasSlot(s.consumers[x].phase)
    ensures |t.consumers| == |s.consumers| && t.consumers[x].phase == s.consumers[x].phase
  {
  }

  lemma VisitNextKeeps(s: State, y: nat, t: State, x: nat)
    requires Typed(s) && VisitNext(s, y) == Some(t)
    requires x < |s.consumers| && HasSlot(s.consumers[x].phase)
    ensures |t.consumers| == |s.consumers| && HasSlot(t.consumers[x].phase)
    ensures t.consumers[x].phase.slot == s.consumers[x].phase.slot
  {
  }

  lemma ReachableStep(size: nat, s: State, step: Step, t: State)
    requires Reachable(size, s) && Typed(s) && Next(s, step) == Some(t)
    ensures Reachable(size, t)
  {
    var steps :| After(size, steps) == Some(s);
    assert (steps + [step])[..|steps|] == steps;
    assert After(size, steps + [step]) == Some(t);
  }

  /** The consumers named in the slots. */
  function Occupants(slots: seq<Option<nat>>): (r: set<nat>)
    ensures |r| <= |slots|
    ensures forall j :: 0 <= j < |slots| && slots[j].Some? ==> slots[j].value in r
  {
    if slots == [] then {}
    else
      var r := Occupants(slots[..|slots| - 1]);
      if slots[|slots| - 1].Some? then r + {slots[|slots| - 1].value} else r
  }

  /** The connection limit: at most `size` admitted consumers are live at once. */
  lemma ConnectionLimit(size: nat, s: State)
    requires Reachable(size, s)
    ensures |set x: nat | x < |s.consumers| && LiveAdmitted(s, x)| <= size
  {
    var steps :| After(size, steps) == Some(s);
    RunInv(size, steps);
    SubsetSize((set x: nat | x < |s.consumers| && LiveAdmitted(s, x)), Occupants(s.slots));
  }

  /** The source's limit: never more than 2000. */
  lemma SourceConnectionLimit(s: State)
    requires Reachable(MAX_CONNECTIONS, s)
    ensures |set x: nat | x < |s.consumers| && LiveAdmitted(s, x)| <= 2000
  {
    ConnectionLimit(MAX_CONNECTIONS, s);
  }

  // ---- Service ----

  /** While no event announces a URI less often than an earlier one, every live consumer has a
      goroutine that serves it or is about to. */
  lemma SteadyUriServed(size: nat, s: State, x: nat, uri: string)
    requires Reachable(size, s) && !s.lock.FinderHolds?
    requires x < |s.consumers| && s.consumers[x].phase.Returned? && !s.consumers[x].dead
    requires uri in Latest(s.events) && Steady(s.events, uri)
    ensures Going(s.routines, x, uri)
  {
    var steps :| After(size, steps) == Some(s);
    RunInv(size, steps);
    var c := LiveMember(s.clients, s.info, [], uri);
    assert Covered(s.routines, x, c);
    var r :| 0 <= r < |s.routines| && SpawnedFor(s.routines[r], x, c);
    if !s.routines[r].phase.Duplicate? {
      assert Goes(s.routines[r], x, uri);
    }
  }
}
