/** What every step of the connector keeps, part two: the list follows the announcements, retired
    clients do not linger, no consumer misses a client, and steady URIs stay served. */
module ConnectorCoverage {
  import opened Base
  import opened ClientList
  import opened ConnectorProtocol
  import opened ConnectorSafety

  // ---- Retired clients do not linger ----

  /** The client is about to be taken off the list by the holder of the lock. */
  ghost predicate Closing(s: State, c: Ref) {
    match s.lock
    case Free => false
    case FinderHolds(w) => w.at.Probe? && w.dead != [] && w.dead[0] == c
    case ExitHolds(r) => r < |s.routines| && s.routines[r].phase == Dropped(true) && s.routines[r].client == c
  }

  /** A listed client that is marked for disconnection still has a goroutine counted on it. */
  ghost predicate NoZombie(s: State) {
    forall c :: c in s.clients && c.id < |s.info| && s.info[c.id].disconnect && s.info[c.id].refCount <= 0 ==> Closing(s, c)
  }

  lemma EventZombie(s: State, uris: seq<string>, t: State)
    requires Typed(s) && EventNext(s, uris) == Some(t)
    requires NoZombie(s)
    ensures NoZombie(t)
  {
  }

  lemma FinderMarkZombie(s: State, t: State)
    requires Typed(s) && FinderNext(s) == Some(t)
    requires NoZombie(s) && s.lock.work.at.NextDead?
    ensures NoZombie(t)
  {
    var w := s.lock.work;
    if w.dead != [] {
      assert Known(s.info, w.dead[0]);
      forall c | c in t.clients && t.info[c.id].disconnect && t.info[c.id].refCount <= 0 ensures Closing(t, c) {
        assert Known(s.info, c);
      }
    }
  }

  lemma FinderProbeZombie(s: State, t: State)
    requires Typed(s) && FinderNext(s) == Some(t)
    requires NoZombie(s) && CountsOk(s) && s.lock.work.at.Probe?
    ensures NoZombie(t)
  {
    var c := s.lock.work.dead[0];
    WithoutMembers(s.clients, c);
    assert Known(s.info, c);
    SumNonNegative(s.routines, CountedFor(c.id));
  }

  lemma FinderZombie(s: State, t: State)
    requires Typed(s) && FinderNext(s) == Some(t)
    requires NoZombie(s) && CountsOk(s)
    ensures NoZombie(t)
  {
    match s.lock.work.at
    case NextDead => FinderMarkZombie(s, t);
    case Probe => FinderProbeZombie(s, t);
    case _ =>
  }

  lemma EnterZombie(s: State, r: nat, t: State)
    requires Typed(s) && EnterNext(s, r) == Some(t)
    requires NoZombie(s) && LockOk(s)
    ensures NoZombie(t)
  {
  }

  lemma ExitZombie(s: State, r: nat, t: State)
    requires Typed(s) && ExitNext(s, r) == Some(t)
    requires NoZombie(s) && LockOk(s)
    ensures NoZombie(t)
  {
    var g := s.routines[r];
    WithoutMembers(s.clients, g.client);
    if g.phase.Locked? {
      forall c | c in t.clients && t.info[c.id].disconnect && t.info[c.id].refCount <= 0 ensures Closing(t, c) {
        assert Known(s.info, c);
      }
    }
  }

  lemma LoopZombie(s: State, r: nat, ok: bool, t: State)
    requires Typed(s) && LoopNext(s, r, ok) == Some(t)
    requires NoZombie(s) && LockOk(s)
    ensures NoZombie(t)
  {
  }

  // ---- The list follows the announcements ----

  predicate Live(info: seq<Client>, dead: seq<Ref>, c: Ref) {
    c.id < |info| && !info[c.id].disconnect && c !in dead
  }

  /** The URIs of the clients that are neither retired nor about to be. */
  function LiveUris(clients: seq<Ref>, info: seq<Client>, dead: seq<Ref>): multiset<string> {
    if clients == [] then multiset{}
    else
      var c := clients[|clients| - 1];
      LiveUris(clients[..|clients| - 1], info, dead) + if Live(info, dead, c) then multiset{c.uri} else multiset{}
  }

  lemma {:induction false} LiveFrame(clients: seq<Ref>, info: seq<Client>, dead: seq<Ref>, info': seq<Client>, dead': seq<Ref>)
    requires forall c :: c in clients ==> Live(info, dead, c) == Live(info', dead', c)
    ensures LiveUris(clients, info', dead') == LiveUris(clients, info, dead)
  {
    if clients != [] {
      LiveFrame(clients[..|clients| - 1], info, dead, info', dead');
    }
  }

  lemma {:induction false} LiveWithout(clients: seq<Ref>, c: Ref, info: seq<Client>, dead: seq<Ref>)
    requires !Live(info, dead, c)
    ensures LiveUris(Without(clients, c), info, dead) == LiveUris(clients, info, dead)
  {
    if clients != [] {
      var front, last := clients[..|clients| - 1], clients[|clients| - 1];
      LiveWithout(front, c, info, dead);
      var r := Without(front, c);
      assert (r + [last])[..|r|] == r;
    }
  }

  lemma {:induction false} LiveMember(clients: seq<Ref>, info: seq<Client>, dead: seq<Ref>, uri: string) returns (c: Ref)
    requires uri in LiveUris(clients, info, dead)
    ensures c in clients && c.uri == uri && Live(info, dead, c)
  {
    var front, last := clients[..|clients| - 1], clients[|clients| - 1];
    if Live(info, dead, last) && last.uri == uri {
      c := last;
    } else {
      c := LiveMember(front, info, dead, uri);
    }
  }

  /** When exactly the clients outside `dead` are live, live and dead URIs make up the list. */
  lemma {:induction false} LiveSplit(clients: seq<Ref>, info: seq<Client>, dead: seq<Ref>)
    requires Distinct(clients) && Distinct(dead)
    requires forall c :: c in dead ==> c in clients
    requires forall c :: c in clients ==> (Live(info, dead, c) <==> c !in dead)
    ensures LiveUris(clients, info, dead) + multiset(Uris(dead, RefUri())) == multiset(Uris(clients, RefUri()))
    decreases |clients|, 1
  {
    if clients == [] {
      assert |dead| > 0 ==> dead[0] in dead;
    } else {
      var front, last := clients[..|clients| - 1], clients[|clients| - 1];
      UrisAppend(front, last);
      assert clients == front + [last];
      if last in dead {
        LiveSplitDead(clients, info, dead);
      } else {
        LiveSplit(front, info, dead);
      }
    }
  }

  lemma UrisAppend(clients: seq<Ref>, c: Ref)
    ensures multiset(Uris(clients + [c], RefUri())) == multiset(Uris(clients, RefUri())) + multiset{c.uri}
  {
    assert Uris(clients + [c], RefUri()) == Uris(clients, RefUri()) + [c.uri];
  }

  /** Taking a client that is not listed off the dead ones changes nothing for those listed. */
  lemma LiveLess(clients: seq<Ref>, info: seq<Client>, dead: seq<Ref>, i: nat)
    requires i < |dead| && Distinct(dead) && dead[i] !in clients
    ensures LiveUris(clients, info, RemoveAt(dead, i)) == LiveUris(clients, info, dead)
  {
    RemoveAtMembers(dead, i);
    LiveFrame(clients, info, dead, info, RemoveAt(dead, i));
  }

  /** The case of a dead client at the end: it comes off both lists. */
  lemma {:induction false} LiveSplitDead(clients: seq<Ref>, info: seq<Client>, dead: seq<Ref>)
    requires clients != [] && clients[|clients| - 1] in dead
    requires Distinct(clients) && Distinct(dead)
    requires forall c :: c in dead ==> c in clients
    requires forall c :: c in clients ==> (Live(info, dead, c) <==> c !in dead)
    ensures LiveUris(clients, info, dead) + multiset(Uris(dead, RefUri())) == multiset(Uris(clients, RefUri()))
    decreases |clients|, 0
  {
    var front, last := clients[..|clients| - 1], clients[|clients| - 1];
    assert clients == front + [last];
    var i :| 0 <= i < |dead| && dead[i] == last;
    var less := RemoveAt(dead, i);
    RemoveAtMembers(dead, i);
    assert last !in front;
    LiveSplit(front, info, less);
    LiveLess(front, info, dead, i);
    UrisSplit(dead, RefUri(), i);
    UrisAppend(front, last);
    AddBack(LiveUris(front, info, dead), multiset(Uris(less, RefUri())), last.uri);
  }

  lemma AddBack(live: multiset<string>, dead: multiset<string>, uri: string)
    ensures live + (dead + multiset{uri}) == live + dead + multiset{uri}
  {
  }

  /** When every client of a URI is live, all its occurrences in the list count. */
  lemma {:induction false} LiveAll(clients: seq<Ref>, info: seq<Client>, dead: seq<Ref>, uri: string)
    requires forall c :: c in clients && c.uri == uri ==> Live(info, dead, c)
    ensures LiveUris(clients, info, dead)[uri] == multiset(Uris(clients, RefUri()))[uri]
  {
    if clients == [] {
    } else {
      var front, last := clients[..|clients| - 1], clients[|clients| - 1];
      LiveAll(front, info, dead, uri);
      assert Uris(clients, RefUri()) == Uris(front, RefUri()) + [last.uri];
    }
  }

  function Latest(events: seq<seq<string>>): seq<string> {
    if events == [] then [] else events[|events| - 1]
  }

  /** Outside an event the live URIs are the announced ones, as multisets; inside, those still
      to be added make up the difference. */
  ghost predicate LiveOk(s: State) {
    match s.lock
    case FinderHolds(w) =>
      && LiveUris(s.clients, s.info, w.dead) + multiset(w.add) == multiset(Latest(s.events))
      && (w.at.NextDead? || w.at.Probe? ==> w.add == [])
      && (w.at.Probe? ==> w.dead != [] && w.dead[0].id < |s.info| && s.info[w.dead[0].id].disconnect)
    case Free =>
      LiveUris(s.clients, s.info, []) == multiset(Latest(s.events))
    case ExitHolds(r) =>
      && LiveUris(s.clients, s.info, []) == multiset(Latest(s.events))
      && (r < |s.routines| && s.routines[r].phase == Dropped(true) ==>
            s.routines[r].client.id < |s.info| && s.info[s.routines[r].client.id].disconnect)
  }

  /** The delta leaves live exactly what is announced and known; what it adds is the rest. */
  lemma LiveAfterDelta(clients: seq<Ref>, uris: seq<string>, info: seq<Client>)
    requires Distinct(clients)
    requires var dead := DeltaOf(clients, RefUri(), uris).dead;
             forall c :: c in clients ==> (Live(info, dead, c) <==> c !in dead)
    ensures var d := DeltaOf(clients, RefUri(), uris);
            LiveUris(clients, info, d.dead) + multiset(d.add) == multiset(uris)
  {
    var d := DeltaOf(clients, RefUri(), uris);
    DeltaDead(clients, RefUri(), uris);
    DeltaMembers(clients, uris);
    LiveSplit(clients, info, d.dead);
    DeltaIsDifference(clients, RefUri(), uris);
    var all, dead := multiset(Uris(clients, RefUri())), multiset(Uris(d.dead, RefUri()));
    assert LiveUris(clients, info, d.dead) == all - dead;
    DifferenceRest(all, multiset(uris));
  }

  lemma EventLive(s: State, uris: seq<string>, t: State)
    requires Typed(s) && EventNext(s, uris) == Some(t)
    requires ListOk(s.clients, s.lock)
    ensures LiveOk(t)
  {
    var dead := DeltaOf(s.clients, RefUri(), uris).dead;
    forall c | c in s.clients ensures Live(t.info, dead, c) <==> c !in dead {
      assert Known(s.info, c) && Ref(c.id, s.info[c.id].uri) == c;
    }
    LiveAfterDelta(s.clients, uris, t.info);
  }

  lemma DifferenceRest(known: multiset<string>, announced: multiset<string>)
    ensures (known - (known - announced)) + (announced - known) == announced
  {
  }

  lemma LiveAdd(clients: seq<Ref>, info: seq<Client>, dead: seq<Ref>, uri: string)
    requires forall d :: d in clients || d in dead ==> Known(info, d)
    ensures LiveUris(clients + [Ref(|info|, uri)], info + [Client(uri, false, 0)], dead)
         == LiveUris(clients, info, dead) + multiset{uri}
  {
    var c, info' := Ref(|info|, uri), info + [Client(uri, false, 0)];
    LiveFrame(clients, info, dead, info', dead);
    assert (clients + [c])[..|clients|] == clients;
    assert Live(info', dead, c);
  }

  lemma LiveMark(clients: seq<Ref>, info: seq<Client>, dead: seq<Ref>, info': seq<Client>)
    requires forall d :: d in clients || d in dead ==> Known(info, d)
    requires dead != [] && dead[0].id < |info|
    requires info' == info[dead[0].id := info[dead[0].id].(disconnect := true)]
    ensures LiveUris(clients, info', dead) == LiveUris(clients, info, dead)
  {
    assert dead[0] in dead;
    forall c | c in clients ensures Live(info, dead, c) == Live(info', dead, c) {
      assert Known(info, c) && Known(info, dead[0]);
    }
    LiveFrame(clients, info, dead, info', dead);
  }

  lemma LiveProbe(clients: seq<Ref>, info: seq<Client>, dead: seq<Ref>)
    requires forall d :: d in clients || d in dead ==> Known(info, d)
    requires dead != [] && dead[0].id < |info| && info[dead[0].id].disconnect
    ensures LiveUris(clients, info, dead[1..]) == LiveUris(clients, info, dead)
    ensures LiveUris(Without(clients, dead[0]), info, dead[1..]) == LiveUris(clients, info, dead)
  {
    assert dead == [dead[0]] + dead[1..];
    LiveFrame(clients, info, dead, info, dead[1..]);
    LiveWithout(clients, dead[0], info, dead[1..]);
  }

  lemma FinderAddLive(s: State, t: State)
    requires Typed(s) && FinderNext(s) == Some(t)
    requires LiveOk(s) && s.lock.work.at.NextUri?
    ensures LiveOk(t)
  {
    var w := s.lock.work;
    if w.add != [] {
      var front := LiveUris(s.clients, s.info, w.dead);
      LiveAdd(s.clients, s.info, w.dead, w.add[0]);
      assert w.add == [w.add[0]] + w.add[1..];
      assert front + multiset(w.add) == (front + multiset{w.add[0]}) + multiset(w.add[1..]);
    }
  }

  lemma FinderMarkLive(s: State, t: State)
    requires Typed(s) && FinderNext(s) == Some(t)
    requires LiveOk(s) && s.lock.work.at.NextDead?
    ensures LiveOk(t)
  {
    var w := s.lock.work;
    if w.dead != [] {
      assert Known(s.info, w.dead[0]);
      LiveMark(s.clients, s.info, w.dead, t.info);
    }
  }

  /** What the probe does: the first dead client is done with, and comes off the list or stays on it. */
  lemma ProbeEffect(s: State, t: State)
    requires Typed(s) && FinderNext(s) == Some(t) && s.lock.work.at.Probe?
    ensures s.lock.work.dead != []
    ensures t.info == s.info && t.events == s.events
    ensures t.lock == FinderHolds(s.lock.work.(dead := s.lock.work.dead[1..], at := NextDead))
    ensures t.clients == s.clients || t.clients == Without(s.clients, s.lock.work.dead[0])
    ensures forall d :: d in s.clients || d in s.lock.work.dead ==> Known(s.info, d)
  {
  }

  lemma FinderProbeLive(s: State, t: State)
    requires Typed(s) && FinderNext(s) == Some(t)
    requires LiveOk(s) && s.lock.work.at.Probe?
    ensures LiveOk(t)
  {
    ProbeEffect(s, t);
    LiveProbe(s.clients, s.info, s.lock.work.dead);
  }

  /** What the scan does: nothing to the list and the records, nor to what is left to add and retire. */
  lemma ScanEffect(s: State, t: State)
    requires Typed(s) && FinderNext(s) == Some(t) && (s.lock.work.at.Scan? || s.lock.work.at.Check?)
    ensures t.clients == s.clients && t.info == s.info && t.events == s.events
    ensures t.lock.FinderHolds? && t.lock.work == s.lock.work.(at := t.lock.work.at)
    ensures t.lock.work.at.NextUri? || t.lock.work.at.Scan? || t.lock.work.at.Check?
  {
  }

  lemma FinderScanLive(s: State, t: State)
    requires Typed(s) && FinderNext(s) == Some(t)
    requires LiveOk(s) && (s.lock.work.at.Scan? || s.lock.work.at.Check?)
    ensures LiveOk(t)
  {
    ScanEffect(s, t);
  }

  lemma FinderLive(s: State, t: State)
    requires Typed(s) && FinderNext(s) == Some(t)
    requires LiveOk(s)
    ensures LiveOk(t)
  {
    match s.lock.work.at
    case NextUri => FinderAddLive(s, t);
    case NextDead => FinderMarkLive(s, t);
    case Probe => FinderProbeLive(s, t);
    case _ => FinderScanLive(s, t);
  }

  /** Reference counts do not matter to what is live. */
  lemma CountLive(s: State, t: State)
    requires LiveOk(s)
    requires t.clients == s.clients && t.events == s.events && t.lock == s.lock
    requires |t.info| == |s.info| && forall id :: 0 <= id < |s.info| ==> t.info[id].disconnect == s.info[id].disconnect
    requires forall r: nat :: s.lock == ExitHolds(r) && r < |t.routines| && t.routines[r].phase == Dropped(true) ==>
      r < |s.routines| && t.routines[r] == s.routines[r]
    ensures LiveOk(t)
  {
    var dead := if s.lock.FinderHolds? then s.lock.work.dead else [];
    LiveFrame(s.clients, s.info, dead, t.info, dead);
  }

  lemma EnterLive(s: State, r: nat, t: State)
    requires Typed(s) && EnterNext(s, r) == Some(t)
    requires LiveOk(s) && LockOk(s)
    ensures LiveOk(t)
  {
    CountLive(s, t);
  }

  lemma ExitLive(s: State, r: nat, t: State)
    requires Typed(s) && ExitNext(s, r) == Some(t)
    requires LiveOk(s) && LockOk(s)
    ensures LiveOk(t)
  {
    var g := s.routines[r];
    if g.phase.Locked? {
      LiveFrame(s.clients, s.info, [], t.info, []);
    } else if g.phase == Dropped(true) {
      LiveWithout(s.clients, g.client, s.info, []);
    }
  }

  // ---- No consumer misses a client ----

  ghost predicate SpawnedFor(g: Routine, x: nat, c: Ref) {
    g.consumer == x && g.client == c
  }

  /** A goroutine was started for this consumer and this client. */
  ghost predicate Covered(routines: seq<Routine>, x: nat, c: Ref) {
    exists r :: 0 <= r < |routines| && SpawnedFor(routines[r], x, c)
  }

  /** The finder's scan for this client has yet to reach the slot. */
  ghost predicate Due(lock: Lock, c: Ref, slot: nat, x: nat) {
    && lock.FinderHolds?
    && var at := lock.work.at;
       || (at.Scan? && at.client == c && slot >= at.i)
       || (at.Check? && at.client == c && (slot > at.i || (slot == at.i && at.seen == x)))
  }

  ghost predicate NoLost(s: State) {
    && (forall x, c :: 0 <= x < |s.consumers| && s.consumers[x].phase.Returned? && !s.consumers[x].dead && c in s.clients ==>
          Covered(s.routines, x, c) || Due(s.lock, c, s.consumers[x].phase.slot, x))
    && (forall x, k :: 0 <= x < |s.consumers| && s.consumers[x].phase.Visiting?
                       && 0 <= k < s.consumers[x].phase.next && k < |s.clients| ==>
          Covered(s.routines, x, s.clients[k]))
  }

  /** Goroutines keep their consumer and client for good. */
  ghost predicate Grows(routines: seq<Routine>, routines': seq<Routine>) {
    && |routines| <= |routines'|
    && forall r :: 0 <= r < |routines| ==>
         routines'[r].consumer == routines[r].consumer && routines'[r].client == routines[r].client
  }

  lemma CoveredGrows(routines: seq<Routine>, routines': seq<Routine>)
    requires Grows(routines, routines')
    ensures forall x, c :: Covered(routines, x, c) ==> Covered(routines', x, c)
  {
    forall x, c | Covered(routines, x, c) ensures Covered(routines', x, c) {
      var r :| 0 <= r < |routines| && SpawnedFor(routines[r], x, c);
      assert SpawnedFor(routines'[r], x, c);
    }
  }

  lemma FinderScanLost(s: State, t: State)
    requires Typed(s) && FinderNext(s) == Some(t)
    requires NoLost(s) && LockOk(s) && SlotsOk(s.slots, s.consumers) && s.lock.work.at.Scan?
    ensures NoLost(t)
  {
  }

  lemma FinderCheckLost(s: State, t: State)
    requires Typed(s) && FinderNext(s) == Some(t)
    requires NoLost(s) && LockOk(s) && s.lock.work.at.Check?
    ensures NoLost(t)
  {
    var w := s.lock.work;
    CoveredGrows(s.routines, t.routines);
    if !s.consumers[w.at.seen].dead {
      assert SpawnedFor(t.routines[|s.routines|], w.at.seen, w.at.client);
    }
  }

  lemma FinderListLost(s: State, t: State)
    requires Typed(s) && FinderNext(s) == Some(t)
    requires NoLost(s) && LockOk(s) && !s.lock.work.at.Scan? && !s.lock.work.at.Check?
    ensures NoLost(t)
  {
    var w := s.lock.work;
    if w.at.Probe? {
      WithoutMembers(s.clients, w.dead[0]);
    }
  }

  lemma FinderLost(s: State, t: State)
    requires Typed(s) && FinderNext(s) == Some(t)
    requires NoLost(s) && LockOk(s) && SlotsOk(s.slots, s.consumers)
    ensures NoLost(t)
  {
    match s.lock.work.at
    case Scan(_, _) => FinderScanLost(s, t);
    case Check(_, _, _) => FinderCheckLost(s, t);
    case _ => FinderListLost(s, t);
  }

  lemma SlotLost(s: State, x: nat, t: State)
    requires Typed(s) && SlotNext(s, x) == Some(t)
    requires NoLost(s)
    ensures NoLost(t)
  {
  }

  lemma VisitLost(s: State, x: nat, t: State)
    requires Typed(s) && VisitNext(s, x) == Some(t)
    requires NoLost(s)
    ensures NoLost(t)
  {
    CoveredGrows(s.routines, t.routines);
    var p := s.consumers[x].phase;
    if p.Visiting? && p.next < |s.clients| {
      assert SpawnedFor(t.routines[|s.routines|], x, s.clients[p.next]);
    }
  }

  /** Steps of goroutines: nobody's coverage, slot or phase changes, and the list can only shrink,
      under the write lock. */
  lemma RoutineLost(s: State, t: State)
    requires NoLost(s) && Grows(s.routines, t.routines)
    requires |t.consumers| == |s.consumers|
    requires forall x :: 0 <= x < |s.consumers| ==>
      t.consumers[x].phase == s.consumers[x].phase && t.consumers[x].dead == s.consumers[x].dead
    requires forall c :: c in t.clients ==> c in s.clients
    requires t.clients == s.clients || NoReader(t.consumers)
    requires t.lock == s.lock || !s.lock.FinderHolds?
    ensures NoLost(t)
  {
    CoveredGrows(s.routines, t.routines);
  }

  lemma ExitLost(s: State, r: nat, t: State)
    requires Typed(s) && ExitNext(s, r) == Some(t)
    requires NoLost(s) && LockOk(s)
    ensures NoLost(t)
  {
    WithoutMembers(s.clients, s.routines[r].client);
    RoutineLost(s, t);
  }

  // ---- A steadily announced URI stays served ----

  /** No event announces the URI less often than an earlier one. */
  ghost predicate Steady(events: seq<seq<string>>, uri: string) {
    forall i, j :: 0 <= i < j < |events| ==> multiset(events[i])[uri] <= multiset(events[j])[uri]
  }

  /** The client of a steady URI is listed, not retired, and never up for retirement. */
  ghost predicate SteadyOk(s: State) {
    forall id :: 0 <= id < |s.info| && Steady(s.events, s.info[id].uri) ==>
      && !s.info[id].disconnect
      && Ref(id, s.info[id].uri) in s.clients
      && s.info[id].uri in Latest(s.events)
      && (s.lock.FinderHolds? ==> Ref(id, s.info[id].uri) !in s.lock.work.dead)
  }

  lemma SteadyPrefix(events: seq<seq<string>>, e: seq<string>, uri: string)
    requires Steady(events + [e], uri)
    ensures Steady(events, uri)
    ensures multiset(Latest(events))[uri] <= multiset(e)[uri]
  {
    var all := events + [e];
    assert all[|events|] == e;
    forall i, j | 0 <= i < j < |events| ensures multiset(events[i])[uri] <= multiset(events[j])[uri] {
      assert all[i] == events[i] && all[j] == events[j];
    }
    if events != [] {
      assert all[|events| - 1] == Latest(events);
    }
  }

  lemma EventSteady(s: State, uris: seq<string>, t: State)
    requires Typed(s) && EventNext(s, uris) == Some(t)
    requires SteadyOk(s) && ListOk(s.clients, s.lock) && LiveOk(s)
    ensures SteadyOk(t)
  {
    forall id | 0 <= id < |t.info| && Steady(t.events, t.info[id].uri)
      ensures !t.info[id].disconnect && Ref(id, t.info[id].uri) in t.clients
      ensures t.info[id].uri in uris && Ref(id, t.info[id].uri) !in t.lock.work.dead
    {
      SteadySurvives(s, uris, id);
    }
  }

  /** There are as many clients of a steady URI as its last announcement had, and the next one uses
      them all up. */
  lemma SteadySurvives(s: State, uris: seq<string>, id: nat)
    requires Typed(s) && SteadyOk(s) && ListOk(s.clients, s.lock) && LiveOk(s) && s.lock.Free?
    requires id < |s.info| && Steady(s.events + [uris], s.info[id].uri)
    ensures !s.info[id].disconnect && Ref(id, s.info[id].uri) in s.clients && s.info[id].uri in uris
    ensures Ref(id, s.info[id].uri) !in DeltaOf(s.clients, RefUri(), uris).dead
  {
    var uri := s.info[id].uri;
    var c := Ref(id, uri);
    var dead := DeltaOf(s.clients, RefUri(), uris).dead;
    SteadyPrefix(s.events, uris, uri);
    if c in dead {
      var i :| 0 <= i < |dead| && dead[i] == c;
      assert Uris(dead, RefUri())[i] == uri;
      DeltaIsDifference(s.clients, RefUri(), uris);
      forall d | d in s.clients && d.uri == uri ensures Live(s.info, [], d) {
        assert Known(s.info, d);
      }
      LiveAll(s.clients, s.info, [], uri);
      assert false;
    }
  }

  lemma FinderAddSteady(s: State, t: State)
    requires Typed(s) && FinderNext(s) == Some(t)
    requires SteadyOk(s) && LiveOk(s) && s.lock.work.at.NextUri?
    ensures SteadyOk(t)
  {
    var w := s.lock.work;
    if w.add != [] {
      assert w.add[0] in multiset(Latest(s.events));
      assert forall d :: d in w.dead ==> Known(s.info, d);
    }
  }

  lemma FinderMarkSteady(s: State, t: State)
    requires Typed(s) && FinderNext(s) == Some(t)
    requires SteadyOk(s) && s.lock.work.at.NextDead?
    ensures SteadyOk(t)
  {
    var w := s.lock.work;
    if w.dead != [] {
      assert w.dead[0] in w.dead && Known(s.info, w.dead[0]);
      forall id | 0 <= id < |s.info| && Steady(s.events, s.info[id].uri) ensures id != w.dead[0].id {
        assert Ref(id, s.info[id].uri) !in w.dead;
      }
    }
  }

  lemma FinderProbeSteady(s: State, t: State)
    requires Typed(s) && FinderNext(s) == Some(t)
    requires SteadyOk(s) && s.lock.work.at.Probe?
    ensures SteadyOk(t)
  {
    var w := s.lock.work;
    assert w.dead[0] in w.dead && w.dead == [w.dead[0]] + w.dead[1..];
    WithoutMembers(s.clients, w.dead[0]);
  }

  lemma FinderScanSteady(s: State, t: State)
    requires Typed(s) && FinderNext(s) == Some(t)
    requires SteadyOk(s) && (s.lock.work.at.Scan? || s.lock.work.at.Check?)
    ensures SteadyOk(t)
  {
    assert t.lock.work.dead == s.lock.work.dead;
  }

  lemma FinderSteady(s: State, t: State)
    requires Typed(s) && FinderNext(s) == Some(t)
    requires SteadyOk(s) && LiveOk(s)
    ensures SteadyOk(t)
  {
    var w := s.lock.work;
    match w.at
    case NextUri => FinderAddSteady(s, t);
    case NextDead => FinderMarkSteady(s, t);
    case Probe => FinderProbeSteady(s, t);
    case _ => FinderScanSteady(s, t);
  }

  /** Steps that leave the list, the marks and the history alone. */
  lemma KeepSteady(s: State, t: State)
    requires SteadyOk(s)
    requires t.clients == s.clients && t.events == s.events && |t.info| == |s.info|
    requires forall id :: 0 <= id < |s.info| ==>
      t.info[id].uri == s.info[id].uri && t.info[id].disconnect == s.info[id].disconnect
    requires t.lock.FinderHolds? ==> s.lock == t.lock
    ensures SteadyOk(t)
  {
  }

  lemma ExitSteady(s: State, r: nat, t: State)
    requires Typed(s) && ExitNext(s, r) == Some(t)
    requires SteadyOk(s) && LiveOk(s) && LockOk(s)
    ensures SteadyOk(t)
  {
    var g := s.routines[r];
    if g.phase == Dropped(true) {
      WithoutMembers(s.clients, g.client);
    } else {
      KeepSteady(s, t);
    }
  }

  /** A goroutine that is serving the consumer for this URI, or is about to try. */
  ghost predicate Goes(g: Routine, x: nat, uri: string) {
    g.consumer == x && g.client.uri == uri && !HasLeft(g.phase) && !g.phase.Duplicate?
  }

  ghost predicate Going(routines: seq<Routine>, x: nat, uri: string) {
    exists r :: 0 <= r < |routines| && Goes(routines[r], x, uri)
  }

  /** For a live consumer no goroutine of a steady URI has given up, and a duplicate
      has ended only because another goroutine is at work. */
  ghost predicate ServedOk(s: State) {
    && (forall r :: 0 <= r < |s.routines| ==> s.routines[r].consumer < |s.consumers|)
    && (forall r :: 0 <= r < |s.routines| && s.routines[r].phase.Polled? && s.routines[r].phase.dead ==>
          s.consumers[s.routines[r].consumer].dead)
    && (forall r :: 0 <= r < |s.routines| && Steady(s.events, s.routines[r].client.uri)
                    && !s.consumers[s.routines[r].consumer].dead ==>
          && !HasLeft(s.routines[r].phase)
          && (s.routines[r].phase.Duplicate? ==> Going(s.routines, s.routines[r].consumer, s.routines[r].client.uri)))
  }

  lemma EventServed(s: State, uris: seq<string>, t: State)
    requires Typed(s) && EventNext(s, uris) == Some(t)
    requires ServedOk(s)
    ensures ServedOk(t)
  {
    forall uri | Steady(t.events, uri) ensures Steady(s.events, uri) {
      SteadyPrefix(s.events, uris, uri);
    }
  }

  /** Consumers may die or move, goroutines may be added; existing goroutines stay as they are. */
  lemma SpawnServed(s: State, t: State)
    requires ServedOk(s)
    requires t.events == s.events && |s.consumers| <= |t.consumers| && |s.routines| <= |t.routines|
    requires forall x :: 0 <= x < |s.consumers| && s.consumers[x].dead ==> t.consumers[x].dead
    requires forall r :: 0 <= r < |s.routines| ==> t.routines[r] == s.routines[r]
    requires forall r :: |s.routines| <= r < |t.routines| ==>
      t.routines[r].phase.Spawned? && t.routines[r].consumer < |t.consumers|
    ensures ServedOk(t)
  {
    forall x, uri | Going(s.routines, x, uri) ensures Going(t.routines, x, uri) {
      var r :| 0 <= r < |s.routines| && Goes(s.routines[r], x, uri);
      assert Goes(t.routines[r], x, uri);
    }
  }

  /** One goroutine moves on; if it stops, its consumer is dead, its URI unsteady, or another one serves. */
  lemma TurnServed(s: State, r: nat, p: RoutinePhase, t: State)
    requires ServedOk(s) && Turned(s.routines, r, p, t.routines)
    requires t.events == s.events && |t.consumers| == |s.consumers|
    requires forall x :: 0 <= x < |s.consumers| ==> t.consumers[x].dead == s.consumers[x].dead
    requires p.Polled? && p.dead ==> s.consumers[s.routines[r].consumer].dead
    requires
      var g := s.routines[r];
      || s.consumers[g.consumer].dead
      || !Steady(s.events, g.client.uri)
      || (!HasLeft(p) && !p.Duplicate?)
      || (p.Duplicate? && exists q :: 0 <= q < |s.routines| && q != r && Goes(s.routines[q], g.consumer, g.client.uri))
    ensures ServedOk(t)
  {
    var g := s.routines[r];
    forall x: nat, uri | Going(s.routines, x, uri) && x < |s.consumers| && !s.consumers[x].dead && Steady(s.events, uri)
      ensures Going(t.routines, x, uri)
    {
      var q :| 0 <= q < |s.routines| && Goes(s.routines[q], x, uri);
      if q == r && p.Duplicate? {
        var q' :| 0 <= q' < |s.routines| && q' != r && Goes(s.routines[q'], g.consumer, g.client.uri);
        assert Goes(t.routines[q'], x, uri);
      } else {
        assert Goes(t.routines[q], x, uri);
      }
    }
    if p.Duplicate? && !s.consumers[g.consumer].dead && Steady(s.events, g.client.uri) {
      var q' :| 0 <= q' < |s.routines| && q' != r && Goes(s.routines[q'], g.consumer, g.client.uri);
      assert Goes(t.routines[q'], g.consumer, g.client.uri);
    }
  }

  /** A goroutine that finds its URI taken has another one at work. */
  lemma TakenByAnother(s: State, r: nat) returns (q: nat)
    requires ServedOk(s) && DopplersOk(s.consumers, s.routines)
    requires r < |s.routines| && s.routines[r].phase.Spawned?
    requires var g := s.routines[r];
             !s.consumers[g.consumer].dead && Steady(s.events, g.client.uri) && g.client.uri in s.consumers[g.consumer].dopplers
    ensures q < |s.routines| && q != r && Goes(s.routines[q], s.routines[r].consumer, s.routines[r].client.uri)
  {
    var g := s.routines[r];
    assert Served(s.routines, g.consumer, g.client.uri);
    q :| 0 <= q < |s.routines| && Serves(s.routines[q], g.consumer, g.client.uri);
  }

  lemma EnterServed(s: State, r: nat, t: State)
    requires Typed(s) && EnterNext(s, r) == Some(t)
    requires ServedOk(s) && DopplersOk(s.consumers, s.routines)
    ensures ServedOk(t)
  {
    var g := s.routines[r];
    if t.routines[r].phase.Duplicate? && !s.consumers[g.consumer].dead && Steady(s.events, g.client.uri) {
      var q := TakenByAnother(s, r);
    }
    TurnServed(s, r, t.routines[r].phase, t);
  }

  lemma ExitServed(s: State, r: nat, t: State)
    requires Typed(s) && ExitNext(s, r) == Some(t)
    requires ServedOk(s)
    ensures ServedOk(t)
  {
    TurnServed(s, r, t.routines[r].phase, t);
  }

  lemma LoopServed(s: State, r: nat, ok: bool, t: State)
    requires Typed(s) && LoopNext(s, r, ok) == Some(t)
    requires ServedOk(s) && SteadyOk(s)
    ensures ServedOk(t)
  {
    assert Known(s.info, s.routines[r].client);
    TurnServed(s, r, t.routines[r].phase, t);
  }
}
