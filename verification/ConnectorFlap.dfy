/** Steadiness is exactly what service needs. A router that is announced less often than before, and
    whose goroutine is then overtaken on its way out by later announcements, ends up announced,
    listed and unmarked, yet its live consumer has no goroutine for it any more. */
module ConnectorFlap {
  import opened Base
  import opened ClientList
  import opened ConnectorProtocol
  import opened ConnectorSafety
  import opened ConnectorCoverage
  import opened ConnectorRuns
  import opened ConnectorTheorems

  lemma Sound(size: nat, s: State)
    requires Reachable(size, s)
    ensures Typed(s) && Inv(s) && |s.slots| == size
  {
    var steps :| After(size, steps) == Some(s);
    RunInv(size, steps);
  }

  /** A state of some run with the write lock free. */
  ghost predicate Idle(size: nat, s: State) {
    Reachable(size, s) && Typed(s) && s.lock.Free?
  }

  // ---- The finder finishes what it has begun ----

  /** All that the finder does to consumers and goroutines is to start new ones. */
  ghost predicate Widened(s: State, t: State) {
    && t.consumers == s.consumers && |s.info| <= |t.info| && |s.routines| <= |t.routines|
    && (forall r :: 0 <= r < |s.routines| ==> t.routines[r] == s.routines[r])
    && (forall r :: |s.routines| <= r < |t.routines| ==> t.routines[r].phase.Spawned?)
  }

  /** The client is marked, or the finder is about to mark it. */
  ghost predicate Retired(s: State, c: Ref) {
    c.id < |s.info| && (s.info[c.id].disconnect || (s.lock.FinderHolds? && c in s.lock.work.dead))
  }

  function Stage(at: Spot): nat {
    match at
    case NextUri => 1
    case Scan(_, _) => 2
    case Check(_, _, _) => 2
    case _ => 0
  }

  /** The accesses the finder still needs in its present stage. */
  function Left(work: Work, size: nat): int {
    match work.at
    case NextUri => 0
    case Scan(_, i) => 2 * (size - i) + 1
    case Check(_, i, _) => 2 * (size - i)
    case NextDead => 2 * |work.dead|
    case Probe => 2 * |work.dead| - 1
  }

  lemma FinderWidens(s: State, t: State)
    requires Typed(s) && FinderNext(s) == Some(t)
    ensures Widened(s, t) && t.events == s.events
  {
    var w := s.lock.work;
    match w.at
    case Probe => ProbeEffect(s, t);
    case NextDead => assert w.dead != [] ==> Known(s.info, w.dead[0]);
    case _ =>
  }

  lemma ProbeKeepsRetired(s: State, t: State, c: Ref)
    requires Typed(s) && FinderNext(s) == Some(t) && s.lock.work.at.Probe?
    requires LiveOk(s) && Retired(s, c)
    ensures Retired(t, c)
  {
    var dead := s.lock.work.dead;
    ProbeEffect(s, t);
    assert dead == [dead[0]] + dead[1..];
  }

  lemma MarkKeepsRetired(s: State, t: State, c: Ref)
    requires Typed(s) && FinderNext(s) == Some(t) && s.lock.work.at.NextDead?
    requires Retired(s, c)
    ensures Retired(t, c)
  {
    var dead := s.lock.work.dead;
    if dead != [] {
      assert dead[0] in dead && Known(s.info, dead[0]);
    }
  }

  lemma AddKeepsRetired(s: State, t: State, c: Ref)
    requires Typed(s) && FinderNext(s) == Some(t) && s.lock.work.at.NextUri?
    requires Retired(s, c)
    ensures Retired(t, c)
  {
  }

  lemma FinderKeepsRetired(s: State, t: State, c: Ref)
    requires Typed(s) && FinderNext(s) == Some(t)
    requires LiveOk(s) && Retired(s, c)
    ensures Retired(t, c)
  {
    match s.lock.work.at
    case NextUri => AddKeepsRetired(s, t, c);
    case NextDead => MarkKeepsRetired(s, t, c);
    case Probe => ProbeKeepsRetired(s, t, c);
    case _ => ScanEffect(s, t);
  }

  lemma FinderProgress(s: State, t: State)
    requires Typed(s) && FinderNext(s) == Some(t) && t.lock.FinderHolds?
    ensures var v, w := s.lock.work, t.lock.work;
            || |w.add| < |v.add|
            || (|w.add| == |v.add| && Stage(w.at) < Stage(v.at))
            || (|w.add| == |v.add| && Stage(w.at) == Stage(v.at) && 0 <= Left(w, |t.slots|) < Left(v, |s.slots|))
    ensures |t.slots| == |s.slots|
  {
  }

  lemma WidenedMore(s: State, t: State, u: State)
    requires Widened(s, t) && Widened(t, u)
    ensures Widened(s, u)
  {
  }

  lemma FinderGoesOn(size: nat, s: State) returns (t: State)
    requires Reachable(size, s) && Typed(s) && s.lock.FinderHolds?
    ensures Reachable(size, t) && Typed(t) && FinderNext(s) == Some(t)
    ensures t.lock.FinderHolds? || t.lock.Free?
  {
    t := FinderNext(s).value;
    ReachableStep(size, s, Finder, t);
  }

  /** From any point inside an event the finder gets to the end of it. */
  lemma {:induction false} Completed(size: nat, s: State) returns (t: State)
    requires Reachable(size, s) && Typed(s) && s.lock.FinderHolds?
    ensures Idle(size, t) && Widened(s, t) && t.events == s.events
    ensures forall c :: Retired(s, c) ==> Retired(t, c)
    decreases |s.lock.work.add|, Stage(s.lock.work.at), Left(s.lock.work, |s.slots|)
  {
    var u := FinderGoesOn(size, s);
    Sound(size, s);
    FinderWidens(s, u);
    forall c | Retired(s, c) ensures Retired(u, c) {
      FinderKeepsRetired(s, u, c);
    }
    t := u;
    if u.lock.FinderHolds? {
      FinderProgress(s, u);
      t := Completed(size, u);
      WidenedMore(s, u, t);
    }
  }

  /** One event from beginning to end: whoever the delta declares dead is marked. */
  lemma Announce(size: nat, s: State, uris: seq<string>) returns (t: State)
    requires Idle(size, s) && NoReader(s.consumers)
    ensures Idle(size, t) && Widened(s, t) && t.events == s.events + [uris]
    ensures forall c :: c in DeltaOf(s.clients, RefUri(), uris).dead ==> c.id < |t.info| && t.info[c.id].disconnect
  {
    var u := EventNext(s, uris).value;
    ReachableStep(size, s, Event(uris), u);
    forall c | c in DeltaOf(s.clients, RefUri(), uris).dead ensures Retired(u, c) {
      assert Known(u.info, c);
    }
    t := Completed(size, u);
  }

  /** Any history can be run with nobody listening. */
  lemma Announced(size: nat, events: seq<seq<string>>) returns (s: State)
    ensures Idle(size, s) && s.events == events && s.consumers == []
  {
    assert After(size, []) == Some(Init(size));
    s := Init(size);
    for i := 0 to |events|
      invariant Idle(size, s) && s.events == events[..i] && s.consumers == []
    {
      s := Announce(size, s, events[i]);
      assert events[..i + 1] == events[..i] + [events[i]];
    }
    assert events[..|events|] == events;
  }

  // ---- A consumer subscribes ----

  /** One consumer, and only goroutines that have not moved yet. */
  ghost predicate Fresh(s: State, phase: CallPhase) {
    && s.consumers == [Consumer(false, {}, phase)]
    && (forall r :: 0 <= r < |s.routines| ==> s.routines[r].consumer == 0 && s.routines[r].phase.Spawned?)
  }

  lemma Admit(size: nat, s: State) returns (t: State)
    requires Idle(size, s) && s.consumers == [] && s.slots != []
    ensures Idle(size, t) && Fresh(t, Admitted(0))
    ensures t.events == s.events
  {
    assert s.slots[0] == None;
    var a := StartNext(s);
    ReachableStep(size, s, Start, a);
    var b := SlotNext(a, 0).value;
    ReachableStep(size, a, Slot(0), b);
    t := SlotNext(b, 0).value;
    ReachableStep(size, b, Slot(0), t);
  }

  lemma VisitsOne(size: nat, s: State, next: nat) returns (t: State)
    requires Idle(size, s) && Fresh(s, Visiting(0, next)) && next < |s.clients|
    ensures Idle(size, t) && Fresh(t, Visiting(0, next + 1)) && t.events == s.events && t.clients == s.clients
  {
    t := VisitNext(s, 0).value;
    ReachableStep(size, s, Visit(0), t);
    assert t.routines == s.routines + [Routine(0, s.clients[next], Spawned)];
  }

  lemma VisitsLast(size: nat, s: State) returns (t: State)
    requires Idle(size, s) && Fresh(s, Visiting(0, |s.clients|))
    ensures Idle(size, t) && Fresh(t, Returned(0)) && t.events == s.events
  {
    t := VisitNext(s, 0).value;
    ReachableStep(size, s, Visit(0), t);
  }

  lemma Joined(size: nat, s: State) returns (t: State)
    requires size > 0 && Idle(size, s) && s.consumers == []
    ensures Idle(size, t) && Fresh(t, Returned(0)) && t.events == s.events
  {
    Sound(size, s);
    var a := Admit(size, s);
    t := VisitNext(a, 0).value;
    ReachableStep(size, a, Visit(0), t);
    var next := 0;
    while next < |t.clients|
      invariant next <= |t.clients| && Idle(size, t) && Fresh(t, Visiting(0, next)) && t.events == s.events
      decreases |t.clients| - next
    {
      t := VisitsOne(size, t, next);
      next := next + 1;
    }
    t := VisitsLast(size, t);
  }

  lemma {:induction false} LiveBound(clients: seq<Ref>, info: seq<Client>, dead: seq<Ref>, uri: string)
    ensures LiveUris(clients, info, dead)[uri] <= multiset(Uris(clients, RefUri()))[uri]
  {
    if clients != [] {
      var front, last := clients[..|clients| - 1], clients[|clients| - 1];
      LiveBound(front, info, dead, uri);
      assert clients == front + [last];
      UrisAppend(front, last);
    }
  }

  /** When a URI is announced less often, one of its clients is declared dead. */
  lemma DeadClient(s: State, uris: seq<string>, uri: string) returns (c: Ref)
    requires LiveUris(s.clients, s.info, [])[uri] > multiset(uris)[uri]
    ensures c in DeltaOf(s.clients, RefUri(), uris).dead && c in s.clients && c.uri == uri
  {
    var dead := DeltaOf(s.clients, RefUri(), uris).dead;
    LiveBound(s.clients, s.info, [], uri);
    DeltaIsDifference(s.clients, RefUri(), uris);
    assert uri in multiset(Uris(dead, RefUri()));
    var k :| 0 <= k < |dead| && Uris(dead, RefUri())[k] == uri;
    DeltaMembers(s.clients, uris);
    c := dead[k];
  }

  /** The consumer has a goroutine for it. */
  lemma Doomed(size: nat, s: State, uris: seq<string>, uri: string) returns (r: nat)
    requires Idle(size, s) && Fresh(s, Returned(0))
    requires multiset(Latest(s.events))[uri] > multiset(uris)[uri]
    ensures r < |s.routines| && s.routines[r].client.uri == uri
    ensures s.routines[r].client in DeltaOf(s.clients, RefUri(), uris).dead
  {
    Sound(size, s);
    var c := DeadClient(s, uris, uri);
    NoLostPair(size, s, 0, c);
    r :| 0 <= r < |s.routines| && s.routines[r].consumer == 0 && s.routines[r].client == c;
  }

  // ---- Its goroutine for the doomed client ----

  /** One live subscribed consumer is served for the URI by goroutine r, and nobody else has moved. */
  ghost predicate Alone(s: State, r: nat, uri: string, phase: RoutinePhase) {
    && |s.consumers| == 1 && s.consumers[0].phase.Returned? && !s.consumers[0].dead && uri in s.consumers[0].dopplers
    && r < |s.routines| && s.routines[r].client.uri == uri && s.routines[r].phase == phase
    && (forall q :: 0 <= q < |s.routines| ==> s.routines[q].consumer == 0)
    && (forall q :: 0 <= q < |s.routines| && q != r ==> s.routines[q].phase.Spawned?)
  }

  lemma Enters(size: nat, s: State, r: nat, uri: string) returns (t: State)
    requires Idle(size, s) && Fresh(s, Returned(0)) && r < |s.routines| && s.routines[r].client.uri == uri
    ensures Idle(size, t) && Alone(t, r, uri, Top(false))
    ensures t.events == s.events && t.clients == s.clients && t.routines[r].client == s.routines[r].client
  {
    var a := EnterNext(s, r).value;
    ReachableStep(size, s, Enter(r), a);
    t := EnterNext(a, r).value;
    ReachableStep(size, a, Enter(r), t);
  }

  /** One move of the retry loop; no attempt to connect succeeds. */
  lemma Loops(size: nat, s: State, r: nat, uri: string, p: RoutinePhase, p': RoutinePhase) returns (t: State)
    requires Idle(size, s) && Alone(s, r, uri, p)
    requires p.Top? || p.Polled? || p.Connecting?
    requires p' ==
      match p
      case Top(tried) => Polled(tried, false)
      case Polled(tried, dead) => if (tried && s.info[s.routines[r].client.id].disconnect) || dead then Leaving else Connecting
      case _ => Top(true)
    ensures Idle(size, t) && Alone(t, r, uri, p')
    ensures t.events == s.events && t.clients == s.clients && t.info == s.info && t.routines[r].client == s.routines[r].client
  {
    t := LoopNext(s, r, false).value;
    ReachableStep(size, s, Loop(r, false), t);
  }

  lemma Tries(size: nat, s: State, r: nat, uri: string) returns (t: State)
    requires Idle(size, s) && Alone(s, r, uri, Top(false))
    ensures Idle(size, t) && Alone(t, r, uri, Top(true))
    ensures t.events == s.events && t.clients == s.clients && t.routines[r].client == s.routines[r].client
  {
    t := Loops(size, s, r, uri, Top(false), Polled(false, false));
    t := Loops(size, t, r, uri, Polled(false, false), Connecting);
    t := Loops(size, t, r, uri, Connecting, Top(true));
  }

  lemma Quits(size: nat, s: State, r: nat, uri: string) returns (t: State)
    requires Idle(size, s) && Alone(s, r, uri, Top(true)) && s.info[s.routines[r].client.id].disconnect
    ensures Idle(size, t) && Alone(t, r, uri, Leaving) && t.events == s.events
  {
    t := Loops(size, s, r, uri, Top(true), Polled(true, false));
    t := Loops(size, t, r, uri, Polled(true, false), Leaving);
  }

  lemma WidenedAlone(s: State, t: State, r: nat, uri: string, phase: RoutinePhase)
    requires Typed(t) && Widened(s, t) && Alone(s, r, uri, phase)
    ensures Alone(t, r, uri, phase)
  {
  }

  lemma AnnounceAlone(size: nat, s: State, r: nat, uri: string, phase: RoutinePhase, uris: seq<string>) returns (t: State)
    requires Idle(size, s) && Alone(s, r, uri, phase)
    ensures Idle(size, t) && Alone(t, r, uri, phase) && t.events == s.events + [uris]
    ensures s.routines[r].client in DeltaOf(s.clients, RefUri(), uris).dead ==> t.info[t.routines[r].client.id].disconnect
  {
    t := Announce(size, s, uris);
    WidenedAlone(s, t, r, uri, phase);
  }

  /** Announcements come in while the goroutine waits for the lock. */
  lemma {:induction false} Overtaken(size: nat, s: State, r: nat, uri: string, later: seq<seq<string>>) returns (t: State)
    requires Idle(size, s) && Alone(s, r, uri, Leaving)
    ensures Idle(size, t) && Alone(t, r, uri, Leaving) && t.events == s.events + later
  {
    t := s;
    if later != [] {
      t := Overtaken(size, s, r, uri, later[..|later| - 1]);
      t := AnnounceAlone(size, t, r, uri, Leaving, later[|later| - 1]);
      assert later == later[..|later| - 1] + [later[|later| - 1]];
    }
  }

  /** As Alone, but of the others those below n have found the URI taken and ended. */
  ghost predicate Deserted(s: State, r: nat, uri: string, phase: RoutinePhase, n: nat) {
    && |s.consumers| == 1 && s.consumers[0].phase.Returned? && !s.consumers[0].dead
    && r < |s.routines| && s.routines[r].phase == phase
    && (forall q :: 0 <= q < |s.routines| ==> s.routines[q].consumer == 0)
    && (forall q :: 0 <= q < |s.routines| && q < n && q != r && s.routines[q].client.uri == uri ==> s.routines[q].phase.Duplicate?)
    && (forall q :: 0 <= q < |s.routines| && n <= q && q != r ==> s.routines[q].phase.Spawned?)
  }

  lemma GivesUp(size: nat, s: State, r: nat, uri: string, n: nat) returns (t: State)
    requires Idle(size, s) && Deserted(s, r, uri, Leaving, n) && n < |s.routines| && uri in s.consumers[0].dopplers
    ensures Idle(size, t) && Deserted(t, r, uri, Leaving, n + 1)
    ensures t == s.(routines := t.routines) && |t.routines| == |s.routines|
  {
    t := s;
    if n != r && s.routines[n].client.uri == uri {
      t := EnterNext(s, n).value;
      ReachableStep(size, s, Enter(n), t);
    }
  }

  /** Every other goroutine for the URI finds it taken. */
  lemma AllGiveUp(size: nat, s: State, r: nat, uri: string) returns (t: State)
    requires Idle(size, s) && Alone(s, r, uri, Leaving)
    ensures Idle(size, t) && Deserted(t, r, uri, Leaving, |t.routines|) && t.events == s.events
  {
    t := s;
    for n := 0 to |s.routines|
      invariant Idle(size, t) && Deserted(t, r, uri, Leaving, n)
      invariant t == s.(routines := t.routines) && |t.routines| == |s.routines|
    {
      t := GivesUp(size, t, r, uri, n);
    }
  }

  lemma DesertedTurn(s: State, r: nat, uri: string, p: RoutinePhase, t: State, p': RoutinePhase)
    requires Deserted(s, r, uri, p, |s.routines|) && Turned(s.routines, r, p', t.routines)
    requires |t.consumers| == 1 && t.consumers[0].phase == s.consumers[0].phase && t.consumers[0].dead == s.consumers[0].dead
    ensures Deserted(t, r, uri, p', |t.routines|)
  {
  }

  lemma ExitEffect(s: State, r: nat, t: State)
    requires Typed(s) && ExitNext(s, r) == Some(t)
    ensures Turned(s.routines, r, t.routines[r].phase, t.routines) && t.events == s.events
    ensures |t.consumers| == |s.consumers|
    ensures forall x :: 0 <= x < |s.consumers| ==>
      t.consumers[x].phase == s.consumers[x].phase && t.consumers[x].dead == s.consumers[x].dead
  {
  }

  lemma ExitPhases(s: State, r: nat)
    requires Typed(s) && r < |s.routines| && NoReader(s.consumers)
    requires var p := s.routines[r].phase; (p.Leaving? && s.lock.Free?) || p.Locked? || p.Dropped? || p.Forgetting?
    ensures var t := ExitNext(s, r);
            && t.Some? && r < |t.value.routines|
            && var p, p' := s.routines[r].phase, t.value.routines[r].phase;
               && (p.Leaving? ==> p'.Locked?) && (p.Locked? ==> p'.Dropped?) && (p.Dropped? ==> p'.Forgetting?)
               && (p.Forgetting? ==> p'.Ended? && t.value.lock.Free?)
  {
  }

  /** The next access of the teardown. */
  lemma TearsDown(size: nat, s: State, r: nat, uri: string, p: RoutinePhase) returns (t: State, p': RoutinePhase)
    requires Reachable(size, s) && Typed(s) && Deserted(s, r, uri, p, |s.routines|)
    requires (p.Leaving? && s.lock.Free?) || p.Locked? || p.Dropped? || p.Forgetting?
    ensures Reachable(size, t) && Typed(t) && Deserted(t, r, uri, p', |t.routines|) && t.events == s.events
    ensures p.Leaving? ==> p'.Locked?
    ensures p.Locked? ==> p'.Dropped?
    ensures p.Dropped? ==> p'.Forgetting?
    ensures p.Forgetting? ==> p'.Ended? && t.lock.Free?
  {
    ExitPhases(s, r);
    t := ExitNext(s, r).value;
    p' := t.routines[r].phase;
    ReachableStep(size, s, Exit(r), t);
    ExitEffect(s, r, t);
    DesertedTurn(s, r, uri, p, t, p');
  }

  lemma Ends(size: nat, s: State, r: nat, uri: string) returns (t: State)
    requires Idle(size, s) && Deserted(s, r, uri, Leaving, |s.routines|)
    ensures Idle(size, t) && Deserted(t, r, uri, Ended, |t.routines|) && t.events == s.events
  {
    var p;
    t, p := TearsDown(size, s, r, uri, Leaving);
    t, p := TearsDown(size, t, r, uri, p);
    t, p := TearsDown(size, t, r, uri, p);
    t, p := TearsDown(size, t, r, uri, p);
  }

  // ---- The converse, and the two together ----

  /** A history that is not steady has a step down. */
  lemma StepDown(events: seq<seq<string>>, uri: string) returns (k: nat)
    requires !Steady(events, uri)
    ensures k + 1 < |events| && multiset(events[k])[uri] > multiset(events[k + 1])[uri]
  {
    var i, j :| 0 <= i < j < |events| && multiset(events[i])[uri] > multiset(events[j])[uri];
    k := i;
    while multiset(events[k])[uri] <= multiset(events[k + 1])[uri]
      invariant i <= k < j && multiset(events[k])[uri] > multiset(events[j])[uri]
      decreases j - k
    {
      k := k + 1;
    }
  }

  /** The run up to the announcement that drops the URI, and its goroutine on the way out. */
  lemma OnTheWayOut(size: nat, events: seq<seq<string>>, uris: seq<string>, uri: string) returns (s: State, r: nat)
    requires size > 0 && multiset(Latest(events))[uri] > multiset(uris)[uri]
    ensures Idle(size, s) && Alone(s, r, uri, Leaving) && s.events == events + [uris]
  {
    s := Announced(size, events);
    s := Joined(size, s);
    r := Doomed(size, s, uris, uri);
    s := Enters(size, s, r, uri);
    s := Tries(size, s, r, uri);
    s := AnnounceAlone(size, s, r, uri, Top(true), uris);
    s := Quits(size, s, r, uri);
  }

  lemma NobodyGoes(s: State, r: nat, uri: string)
    requires Deserted(s, r, uri, Ended, |s.routines|)
    ensures !Going(s.routines, 0, uri)
  {
  }

  /** The rest of the run: the other announcements, and the end of all goroutines for the URI. */
  lemma Deserting(size: nat, s: State, r: nat, uri: string, later: seq<seq<string>>) returns (t: State)
    requires Idle(size, s) && Alone(s, r, uri, Leaving)
    ensures Idle(size, t) && t.events == s.events + later
    ensures |t.consumers| == 1 && t.consumers[0].phase.Returned? && !t.consumers[0].dead
    ensures !Going(t.routines, 0, uri)
  {
    t := Overtaken(size, s, r, uri, later);
    t := AllGiveUp(size, t, r, uri);
    t := Ends(size, t, r, uri);
    NobodyGoes(t, r, uri);
  }

  lemma AnnouncedListed(size: nat, s: State, uri: string)
    requires Reachable(size, s) && s.lock.Free? && uri in Latest(s.events)
    ensures exists c :: c in s.clients && c.uri == uri && Live(s.info, [], c)
  {
    ListFollowsAnnouncement(size, s);
    var c := LiveMember(s.clients, s.info, [], uri);
  }

  /** Every history in which the URI is at some point announced less often than before has a run at the
      end of which a live subscribed consumer has no goroutine that serves the URI or is about to. If the
      last event announces the URI, a client for it is listed and not marked. */
  lemma UnsteadyUriUnserved(size: nat, events: seq<seq<string>>, uri: string) returns (s: State)
    requires size > 0 && !Steady(events, uri)
    ensures Reachable(size, s) && s.lock.Free? && s.events == events
    ensures |s.consumers| == 1 && s.consumers[0].phase.Returned? && !s.consumers[0].dead
    ensures !Going(s.routines, 0, uri)
    ensures uri in Latest(events) ==> exists c :: c in s.clients && c.uri == uri && Live(s.info, [], c)
  {
    var k := StepDown(events, uri);
    var r;
    s, r := OnTheWayOut(size, events[..k + 1], events[k + 1], uri);
    s := Deserting(size, s, r, uri, events[k + 2..]);
    assert events[..k + 1] + [events[k + 1]] + events[k + 2..] == events;
    if uri in Latest(events) {
      AnnouncedListed(size, s, uri);
    }
  }

  /** In particular a router that is withdrawn and announced again. */
  lemma RelistedUriUnserved(size: nat, uri: string) returns (s: State)
    requires size > 0
    ensures Reachable(size, s) && s.lock.Free? && s.events == [[uri], [], [uri]]
    ensures |s.consumers| == 1 && s.consumers[0].phase.Returned? && !s.consumers[0].dead
    ensures !Going(s.routines, 0, uri)
    ensures exists c :: c in s.clients && c.uri == uri && Live(s.info, [], c)
  {
    var events := [[uri], [], [uri]];
    assert multiset(events[0])[uri] > multiset(events[1])[uri];
    s := UnsteadyUriUnserved(size, events, uri);
  }

  /** Every live consumer whose Subscribe has returned has a goroutine that serves the URI or is about to. */
  ghost predicate AllServed(s: State, uri: string) {
    forall x :: 0 <= x < |s.consumers| && s.consumers[x].phase.Returned? && !s.consumers[x].dead ==>
      Going(s.routines, x, uri)
  }

  /** The histories that guarantee service, exactly: an announced URI is served in every run with this
      history, whatever else happens in it, if and only if no event announced it less often than an
      earlier one. */
  lemma ServedExactly(size: nat, events: seq<seq<string>>, uri: string)
    requires size > 0 && uri in Latest(events)
    ensures Steady(events, uri) <==>
      forall s :: Reachable(size, s) && s.events == events && !s.lock.FinderHolds? ==> AllServed(s, uri)
  {
    if Steady(events, uri) {
      forall s | Reachable(size, s) && s.events == events && !s.lock.FinderHolds? ensures AllServed(s, uri) {
        forall x | 0 <= x < |s.consumers| && s.consumers[x].phase.Returned? && !s.consumers[x].dead
          ensures Going(s.routines, x, uri)
        {
          SteadyUriServed(size, s, x, uri);
        }
      }
    } else {
      var s := UnsteadyUriUnserved(size, events, uri);
      assert !AllServed(s, uri);
    }
  }
}
