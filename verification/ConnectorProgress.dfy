/** What the connector gets done: the search for a slot ends whatever the others do, finds the first open
    slot when left alone, and a goroutine makes one attempt, streams, and leaves when it should. */
module ConnectorProgress {
  import opened Base
  import opened ClientList
  import opened ConnectorProtocol
  import opened ConnectorSafety
  import opened ConnectorRuns
  import opened ConnectorTheorems

  // ---- The announcements of a run ----

  /** The events among the steps of a run. */
  function Announcements(steps: seq<Step>): seq<seq<string>> {
    if steps == [] then []
    else
      var last := steps[|steps| - 1];
      Announcements(steps[..|steps| - 1]) + if last.Event? then [last.uris] else []
  }

  lemma StepAnnounces(s: State, step: Step, t: State)
    requires Typed(s) && Next(s, step) == Some(t)
    ensures t.events == s.events + if step.Event? then [step.uris] else []
  {
  }

  /** The history kept in the state is what the finder announced, event by event. */
  lemma {:induction false} EventsAreAnnounced(size: nat, steps: seq<Step>, s: State)
    requires After(size, steps) == Some(s)
    ensures s.events == Announcements(steps)
  {
    if steps != [] {
      var before := After(size, steps[..|steps| - 1]).value;
      EventsAreAnnounced(size, steps[..|steps| - 1], before);
      StepAnnounces(before, steps[|steps| - 1], s);
    }
  }

  // ---- The lock and the list ----

  /** While somebody holds the lock for writing nobody else gets it, and while a call holds it for
      reading nobody gets it for writing. */
  lemma LockExcludes(s: State, uris: seq<string>, x: nat, r: nat, ok: bool)
    requires Typed(s)
    ensures !s.lock.Free? || !NoReader(s.consumers) ==> EventNext(s, uris).None?
    ensures !s.lock.Free? || !NoReader(s.consumers) ==>
      r < |s.routines| && s.routines[r].phase.Leaving? ==> ExitNext(s, r).None?
    ensures !s.lock.Free? ==> x < |s.consumers| && s.consumers[x].phase.Admitted? ==> VisitNext(s, x).None?
    ensures !s.lock.Free? ==> r < |s.routines| && s.routines[r].phase.Polled? ==> LoopNext(s, r, ok).None?
  {
  }

  /** Clients arrive at the end of the list, leave it one by one, and never change places. */
  ghost predicate ListStep(s: State, t: State) {
    || t.clients == s.clients
    || (exists uri :: t.clients == s.clients + [Ref(|s.info|, uri)])
    || (exists c :: t.clients == Without(s.clients, c))
  }

  lemma FinderList(s: State, t: State)
    requires Typed(s) && FinderNext(s) == Some(t)
    ensures ListStep(s, t)
  {
    var w := s.lock.work;
    if w.at.NextUri? && w.add != [] {
      assert t.clients == s.clients + [Ref(|s.info|, w.add[0])];
    } else if w.at.Probe? {
      assert t.clients == s.clients || t.clients == Without(s.clients, w.dead[0]);
    }
  }

  lemma ExitList(s: State, r: nat, t: State)
    requires Typed(s) && ExitNext(s, r) == Some(t)
    ensures ListStep(s, t)
  {
    assert t.clients == s.clients || t.clients == Without(s.clients, s.routines[r].client);
  }

  lemma ListKeepsOrder(s: State, step: Step, t: State)
    requires Typed(s) && Next(s, step) == Some(t)
    ensures ListStep(s, t)
  {
    match step
    case Finder => FinderList(s, t);
    case Exit(r) => ExitList(s, r, t);
    case Slot(x) => SlotLeavesList(s, x, t);
    case Visit(x) => VisitLeavesList(s, x, t);
    case _ =>
  }

  // ---- The search for a slot ----

  predicate Searching(p: CallPhase) {
    p.Seek? || p.Judge? || p.Claim?
  }

  /** How many more accesses a search can take. */
  function Todo(p: CallPhase, size: nat): int {
    match p
    case Seek(i) => 3 * (size - i) + 1
    case Judge(i, _) => 3 * (size - i)
    case Claim(i, _) => 3 * (size - i) - 1
    case _ => 0
  }

  /** A search never waits: each of its accesses brings it closer to its end, it gives up only behind
      the last slot, and a lost race only moves it on to the next slot. */
  lemma SearchAdvances(s: State, x: nat, t: State)
    requires Typed(s) && SlotNext(s, x) == Some(t)
    ensures |t.slots| == |s.slots| && x < |s.consumers| == |t.consumers|
    ensures 0 <= Todo(t.consumers[x].phase, |s.slots|) < Todo(s.consumers[x].phase, |s.slots|)
    ensures t.consumers[x].phase.Refused? ==> s.consumers[x].phase == Seek(|s.slots|)
    ensures var p := s.consumers[x].phase; p.Claim? && s.slots[p.i] != p.expected ==> t.consumers[x].phase == Seek(p.i + 1)
  {
  }

  lemma SearchContinues(s: State, x: nat)
    requires Typed(s) && x < |s.consumers|
    ensures Searching(s.consumers[x].phase) <==> SlotNext(s, x).Some?
  {
  }

  /** The search run to its end with nobody in between. */
  ghost function Searched(s: State, x: nat): (t: State)
    requires Typed(s) && x < |s.consumers|
    ensures Typed(t) && |t.consumers| == |s.consumers|
    decreases Todo(s.consumers[x].phase, |s.slots|)
  {
    var next := SlotNext(s, x);
    if next.None? then s
    else
      SearchAdvances(s, x, next.value);
      Searched(next.value, x)
  }

  /** Empty, or held by a consumer that is dead. */
  ghost predicate OpenSlot(s: State, j: nat) {
    j < |s.slots| && (s.slots[j].None? || (s.slots[j].value < |s.consumers| && s.consumers[s.slots[j].value].dead))
  }

  lemma SeekTaken(s: State, x: nat, i: nat)
    requires Typed(s) && x < |s.consumers| && s.consumers[x].phase == Seek(i)
    requires i < |s.slots| && !OpenSlot(s, i)
    ensures Typed(Move(s, x, Seek(i + 1))) && Searched(s, x) == Searched(Move(s, x, Seek(i + 1)), x)
  {
    var a := SlotNext(s, x).value;
    assert a == Move(s, x, Judge(i, s.slots[i].value));
    var b := SlotNext(a, x).value;
    assert b.consumers == s.consumers[x := s.consumers[x].(phase := Seek(i + 1))];
    assert b == Move(s, x, Seek(i + 1));
    assert Searched(s, x) == Searched(a, x) == Searched(b, x);
  }

  lemma ClaimTakes(s: State, x: nat, i: nat, expected: Option<nat>)
    requires Typed(s) && x < |s.consumers| && s.consumers[x].phase == Claim(i, expected)
    requires s.slots[i] == expected
    ensures Searched(s, x) == Move(s, x, Admitted(i)).(slots := s.slots[i := Some(x)])
  {
    var b := SlotNext(s, x).value;
    assert b == Move(s, x, Admitted(i)).(slots := s.slots[i := Some(x)]);
    assert SlotNext(b, x).None?;
    assert Searched(s, x) == Searched(b, x) == b;
  }

  lemma SeekOpen(s: State, x: nat, i: nat)
    requires Typed(s) && x < |s.consumers| && s.consumers[x].phase == Seek(i)
    requires OpenSlot(s, i)
    ensures Searched(s, x) == Move(s, x, Admitted(i)).(slots := s.slots[i := Some(x)])
  {
    var a := SlotNext(s, x).value;
    if s.slots[i].None? {
      assert a == Move(s, x, Claim(i, None));
      ClaimTakes(a, x, i, None);
      MoveMove(s, x, Claim(i, None), Admitted(i));
    } else {
      var b := SlotNext(a, x).value;
      MoveMove(s, x, Judge(i, s.slots[i].value), Claim(i, s.slots[i]));
      assert b == Move(s, x, Claim(i, s.slots[i]));
      ClaimTakes(b, x, i, s.slots[i]);
      MoveMove(s, x, Claim(i, s.slots[i]), Admitted(i));
      assert Searched(s, x) == Searched(a, x) == Searched(b, x);
    }
  }

  lemma MoveMove(s: State, x: nat, p: CallPhase, q: CallPhase)
    requires x < |s.consumers|
    ensures Move(Move(s, x, p), x, q) == Move(s, x, q)
  {
    assert s.consumers[x := s.consumers[x].(phase := p)][x := s.consumers[x].(phase := q)]
        == s.consumers[x := s.consumers[x].(phase := q)];
  }

  /** The first open slot from i on. */
  ghost predicate FirstFrom(s: State, i: nat, j: nat) {
    i <= j && OpenSlot(s, j) && forall k: nat :: i <= k < j ==> !OpenSlot(s, k)
  }

  lemma SameOpen(s: State, x: nat, p: CallPhase)
    requires x < |s.consumers|
    ensures forall j: nat :: OpenSlot(Move(s, x, p), j) <==> OpenSlot(s, j)
  {
  }

  /** Left alone, a search takes the first open slot ... */
  lemma {:induction false} SearchAlone(s: State, x: nat, i: nat, j: nat)
    requires Typed(s) && x < |s.consumers| && s.consumers[x].phase == Seek(i) && FirstFrom(s, i, j)
    ensures Searched(s, x) == Move(s, x, Admitted(j)).(slots := s.slots[j := Some(x)])
    decreases j - i
  {
    if i == j {
      SeekOpen(s, x, i);
    } else {
      SeekTaken(s, x, i);
      SameOpen(s, x, Seek(i + 1));
      SearchAlone(Move(s, x, Seek(i + 1)), x, i + 1, j);
      MoveMove(s, x, Seek(i + 1), Admitted(j));
    }
  }

  /** ... and is refused when there is none. */
  lemma {:induction false} SearchRefused(s: State, x: nat, i: nat)
    requires Typed(s) && x < |s.consumers| && s.consumers[x].phase == Seek(i)
    requires forall j: nat :: i <= j ==> !OpenSlot(s, j)
    ensures Searched(s, x) == Move(s, x, Refused)
    decreases |s.slots| - i
  {
    if i == |s.slots| {
      var t := SlotNext(s, x).value;
      assert t == Move(s, x, Refused) && SlotNext(t, x).None?;
      assert Searched(s, x) == Searched(t, x);
    } else {
      SeekTaken(s, x, i);
      SameOpen(s, x, Seek(i + 1));
      SearchRefused(Move(s, x, Seek(i + 1)), x, i + 1);
      MoveMove(s, x, Seek(i + 1), Refused);
    }
  }

  lemma FirstOpen(s: State, j: nat) returns (first: nat)
    requires OpenSlot(s, j)
    ensures FirstFrom(s, 0, first)
  {
    first := 0;
    while !OpenSlot(s, first)
      invariant first <= j && forall k: nat :: k < first ==> !OpenSlot(s, k)
      decreases j - first
    {
      first := first + 1;
    }
  }

  /** A consumer whose context is cancelled makes room: a call that starts afterwards and is left alone
      is admitted. */
  lemma CancelledMakesRoom(s: State, y: nat, j: nat)
    requires Typed(s) && j < |s.slots| && s.slots[j] == Some(y)
    ensures DieNext(s, y).Some?
    ensures var t := StartNext(DieNext(s, y).value);
            Typed(t) && Searched(t, |s.consumers|).consumers[|s.consumers|].phase.Admitted?
  {
    var x := |s.consumers|;
    var t := StartNext(DieNext(s, y).value);
    assert Next(s, Die(y)).Some? && Next(DieNext(s, y).value, Start) == Some(t);
    assert OpenSlot(t, j);
    var first := FirstOpen(t, j);
    SearchAlone(t, x, 0, first);
  }

  // ---- A goroutine left alone ----

  /** One round of the retry loop up to its decision: it leaves exactly when the consumer is dead, or the
      client is marked and there has been an attempt; otherwise it attempts to connect. */
  lemma PollDecides(size: nat, s: State, r: nat) returns (t: State)
    requires Reachable(size, s) && Typed(s) && s.lock.Free? && r < |s.routines| && s.routines[r].phase.Top?
    ensures Reachable(size, t) && Typed(t)
    ensures var g := s.routines[r];
            && g.consumer < |s.consumers| && g.client.id < |s.info|
            && var leaves := s.consumers[g.consumer].dead || (g.phase.tried && s.info[g.client.id].disconnect);
               t == Turn(s, r, if leaves then Leaving else Connecting).(disconnects := s.disconnects + if leaves then 1 else 0)
  {
    var g := s.routines[r];
    assert Known(s.info, g.client);
    var a := LoopNext(s, r, true).value;
    ReachableStep(size, s, Loop(r, true), a);
    assert a == Turn(s, r, Polled(g.phase.tried, s.consumers[g.consumer].dead));
    t := LoopNext(a, r, true).value;
    ReachableStep(size, a, Loop(r, true), t);
    assert forall p, q :: Turn(Turn(s, r, p), r, q) == Turn(s, r, q) by {
      TurnTurn(s, r);
    }
  }

  lemma TurnTurn(s: State, r: nat)
    requires r < |s.routines|
    ensures forall p, q :: Turn(Turn(s, r, p), r, q) == Turn(s, r, q)
  {
    forall p, q ensures Turn(Turn(s, r, p), r, q) == Turn(s, r, q) {
      assert s.routines[r := s.routines[r].(phase := p)][r := s.routines[r].(phase := q)]
          == s.routines[r := s.routines[r].(phase := q)];
    }
  }

  /** An attempt that succeeds streams until the stream ends; either way the loop has tried. */
  lemma AttemptStreams(size: nat, s: State, r: nat, ok: bool) returns (t: State)
    requires Reachable(size, s) && Typed(s) && r < |s.routines| && s.routines[r].phase.Connecting?
    ensures Reachable(size, t) && Typed(t)
    ensures LoopNext(s, r, ok) == Some(Turn(s, r, if ok then Streaming else Top(true)))
    ensures t == Turn(s, r, Top(true))
  {
    t := LoopNext(s, r, ok).value;
    ReachableStep(size, s, Loop(r, ok), t);
    if ok {
      var u := LoopNext(t, r, ok).value;
      ReachableStep(size, t, Loop(r, ok), u);
      t := u;
    }
    assert t.routines == s.routines[r := s.routines[r].(phase := Top(true))];
  }

  /** The first goroutine for a live consumer and a URI makes an attempt even when its client is marked,
      and streams when the attempt succeeds. */
  lemma FirstAttemptStreams(size: nat, s: State, r: nat) returns (t: State)
    requires Reachable(size, s) && Typed(s) && s.lock.Free? && r < |s.routines| && s.routines[r].phase.Spawned?
    requires !s.consumers[s.routines[r].consumer].dead
    requires s.routines[r].client.uri !in s.consumers[s.routines[r].consumer].dopplers
    ensures Reachable(size, t) && r < |t.routines| && t.routines[r].phase == Streaming
  {
    var a := EnterNext(s, r).value;
    ReachableStep(size, s, Enter(r), a);
    var b := EnterNext(a, r).value;
    ReachableStep(size, a, Enter(r), b);
    var c := PollDecides(size, b, r);
    var back := AttemptStreams(size, c, r, true);
    t := LoopNext(c, r, true).value;
    ReachableStep(size, c, Loop(r, true), t);
  }

  lemma Exits(size: nat, s: State, r: nat, t: State)
    requires Reachable(size, s) && Typed(s) && ExitNext(s, r) == Some(t)
    ensures Reachable(size, t) && Typed(t)
  {
    ReachableStep(size, s, Exit(r), t);
  }

  lemma TurnedTwice(a: seq<Routine>, r: nat, p: RoutinePhase, b: seq<Routine>, q: RoutinePhase, c: seq<Routine>)
    requires Turned(a, r, p, b) && Turned(b, r, q, c)
    ensures Turned(a, r, q, c)
  {
  }

  lemma Locks(size: nat, s: State, r: nat) returns (t: State)
    requires Reachable(size, s) && Typed(s) && s.lock.Free? && NoReader(s.consumers)
    requires r < |s.routines| && s.routines[r].phase.Leaving?
    ensures Reachable(size, t) && Typed(t) && Turned(s.routines, r, Locked, t.routines)
    ensures t.info == s.info && t.clients == s.clients && t.consumers == s.consumers
  {
    t := Turn(s, r, Locked).(lock := ExitHolds(r));
    Exits(size, s, r, t);
  }

  lemma Drops(size: nat, s: State, r: nat) returns (t: State)
    requires Reachable(size, s) && Typed(s) && r < |s.routines| && s.routines[r].phase.Locked?
    ensures Reachable(size, t) && Typed(t)
    ensures var id := s.routines[r].client.id;
            && id < |s.info|
            && Turned(s.routines, r, Dropped(s.info[id].disconnect && NobodyElseCounted(s.routines, r, id)), t.routines)
            && t.info == s.info[id := s.info[id].(refCount := s.info[id].refCount - 1)]
    ensures t.clients == s.clients && t.consumers == s.consumers
  {
    assert Known(s.info, s.routines[r].client);
    t := ExitNext(s, r).value;
    LastOneCloses(size, s, r, t);
    Exits(size, s, r, t);
  }

  lemma Closes(size: nat, s: State, r: nat, last: bool) returns (t: State)
    requires Reachable(size, s) && Typed(s) && r < |s.routines| && s.routines[r].phase == Dropped(last)
    ensures Reachable(size, t) && Typed(t) && Turned(s.routines, r, Forgetting, t.routines)
    ensures t.info == s.info && t.consumers == s.consumers
    ensures t.clients == if last then Without(s.clients, s.routines[r].client) else s.clients
  {
    t := ExitNext(s, r).value;
    Exits(size, s, r, t);
  }

  function Forget(consumers: seq<Consumer>, x: nat, uri: string): seq<Consumer>
    requires x < |consumers|
  {
    consumers[x := consumers[x].(dopplers := consumers[x].dopplers - {uri})]
  }

  lemma Forgets(size: nat, s: State, r: nat) returns (t: State)
    requires Reachable(size, s) && Typed(s) && r < |s.routines| && s.routines[r].phase.Forgetting?
    ensures Reachable(size, t) && Turned(s.routines, r, Ended, t.routines) && t.lock.Free?
    ensures t.info == s.info && t.clients == s.clients && s.routines[r].consumer < |s.consumers|
    ensures t.consumers == Forget(s.consumers, s.routines[r].consumer, s.routines[r].client.uri)
  {
    t := ExitNext(s, r).value;
    Exits(size, s, r, t);
  }

  /** The first half of the teardown: the lock and the count. */
  lemma Uncounts(size: nat, s: State, r: nat) returns (t: State, last: bool)
    requires Reachable(size, s) && Typed(s) && s.lock.Free? && NoReader(s.consumers)
    requires r < |s.routines| && s.routines[r].phase.Leaving?
    ensures Reachable(size, t) && Typed(t) && Turned(s.routines, r, Dropped(last), t.routines)
    ensures var id := s.routines[r].client.id;
            && id < |s.info| && last == (s.info[id].disconnect && NobodyElseCounted(s.routines, r, id))
            && t.info == s.info[id := s.info[id].(refCount := s.info[id].refCount - 1)]
    ensures t.clients == s.clients && t.consumers == s.consumers
  {
    var a := Locks(size, s, r);
    ElseCounted(s.routines, a.routines, r, s.routines[r].client.id);
    t := Drops(size, a, r);
    last := t.routines[r].phase.last;
    TurnedTwice(s.routines, r, Locked, a.routines, Dropped(last), t.routines);
  }

  /** The teardown: the goroutine is no longer counted, its URI is free for the consumer again, and its
      client is taken off the list exactly when it is marked and nobody else is counted on it. */
  lemma TearsDown(size: nat, s: State, r: nat) returns (t: State)
    requires Reachable(size, s) && Typed(s) && s.lock.Free? && NoReader(s.consumers)
    requires r < |s.routines| && s.routines[r].phase.Leaving?
    ensures Reachable(size, t) && t.lock.Free? && Turned(s.routines, r, Ended, t.routines)
    ensures var g := s.routines[r];
            && g.consumer < |s.consumers| && g.client.id < |s.info|
            && t.info == s.info[g.client.id := s.info[g.client.id].(refCount := s.info[g.client.id].refCount - 1)]
            && t.consumers == Forget(s.consumers, g.consumer, g.client.uri)
            && t.clients == if s.info[g.client.id].disconnect && NobodyElseCounted(s.routines, r, g.client.id)
                            then Without(s.clients, g.client) else s.clients
  {
    var b, last := Uncounts(size, s, r);
    var c := Closes(size, b, r, last);
    TurnedTwice(s.routines, r, Dropped(last), b.routines, Forgetting, c.routines);
    t := Forgets(size, c, r);
    TurnedTwice(s.routines, r, Forgetting, c.routines, Ended, t.routines);
  }

  lemma ElseCounted(a: seq<Routine>, b: seq<Routine>, r: nat, id: nat)
    requires r < |a| && |a| == |b| && forall q :: 0 <= q < |a| && q != r ==> a[q] == b[q]
    ensures NobodyElseCounted(a, r, id) <==> NobodyElseCounted(b, r, id)
  {
  }

  /** A goroutine whose consumer is dead, or whose client is marked after an attempt, leaves for good. */
  lemma Departs(size: nat, s: State, r: nat) returns (t: State)
    requires Reachable(size, s) && Typed(s) && s.lock.Free? && NoReader(s.consumers)
    requires r < |s.routines| && s.routines[r].phase.Top?
    requires s.consumers[s.routines[r].consumer].dead
      || (s.routines[r].phase.tried && Known(s.info, s.routines[r].client) && s.info[s.routines[r].client.id].disconnect)
    ensures Reachable(size, t) && t.lock.Free?
    ensures r < |t.routines| && t.routines[r].phase.Ended?
    ensures s.routines[r].consumer < |t.consumers|
    ensures s.routines[r].client.uri !in t.consumers[s.routines[r].consumer].dopplers
  {
    var a := PollDecides(size, s, r);
    t := TearsDown(size, a, r);
  }
}
