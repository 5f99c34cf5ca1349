/** The list work of a finder event: which announced routers are new, which known ones are gone,
    and how a retired one leaves the list. The functions are the specification; the class works
    in place on the slice's backing array, as the connector does. */
module ClientList {
  import opened Base

  function Uris<T>(clients: seq<T>, key: T -> string): (r: seq<string>)
    ensures |r| == |clients|
    ensures forall k :: 0 <= k < |r| ==> r[k] == key(clients[k])
  {
    seq(|clients|, i requires 0 <= i < |clients| => key(clients[i]))
  }

  /** The position of the first client with this URI, or the length when there is none. */
  function IndexOf<T>(clients: seq<T>, key: T -> string, uri: string): (i: nat)
    ensures i <= |clients|
    ensures i < |clients| ==> key(clients[i]) == uri
    ensures forall k :: 0 <= k < i ==> key(clients[k]) != uri
  {
    if clients == [] || key(clients[0]) == uri then 0 else 1 + IndexOf(clients[1..], key, uri)
  }

  function RemoveAt<T>(s: seq<T>, i: nat): seq<T>
    requires i < |s|
  {
    s[..i] + s[i + 1..]
  }

  /** The answer of `delta`: URIs to add, clients to retire. */
  datatype Delta<T> = Changes(add: seq<string>, dead: seq<T>)

  /** Every announced URI takes the first remaining client of that URI off the list;
      an announced URI without one is new, and the clients left over are dead. */
  function DeltaOf<T>(clients: seq<T>, key: T -> string, uris: seq<string>): Delta<T> {
    if uris == [] then Changes([], clients)
    else
      var d := DeltaOf(clients, key, uris[..|uris| - 1]);
      var uri := uris[|uris| - 1];
      var i := IndexOf(d.dead, key, uri);
      if i < |d.dead| then Changes(d.add, RemoveAt(d.dead, i)) else Changes(d.add + [uri], d.dead)
  }

  lemma DeltaStep<T>(clients: seq<T>, key: T -> string, uris: seq<string>, j: nat)
    requires j < |uris|
    ensures var d := DeltaOf(clients, key, uris[..j]);
            var i := IndexOf(d.dead, key, uris[j]);
            DeltaOf(clients, key, uris[..j + 1])
            == if i < |d.dead| then Changes(d.add, RemoveAt(d.dead, i)) else Changes(d.add + [uris[j]], d.dead)
  {
    assert uris[..j + 1][..j] == uris[..j];
  }

  lemma UrisSplit<T>(clients: seq<T>, key: T -> string, i: nat)
    requires i < |clients|
    ensures multiset(Uris(clients, key)) == multiset(Uris(RemoveAt(clients, i), key)) + multiset{key(clients[i])}
  {
    var us := Uris(clients, key);
    var a, b := us[..i], us[i + 1..];
    assert us == a + [us[i]] + b;
    assert multiset(us) == multiset(a) + multiset{us[i]} + multiset(b);
    assert Uris(RemoveAt(clients, i), key) == a + b;
  }

  /** One more announced URI either uses up a known one or is new. */
  lemma DifferenceStep(known: multiset<string>, announced: multiset<string>, uri: string)
    ensures uri in known - announced ==>
              && (announced + multiset{uri}) - known == announced - known
              && known - (announced + multiset{uri}) == (known - announced) - multiset{uri}
    ensures uri !in known - announced ==>
              && (announced + multiset{uri}) - known == (announced - known) + multiset{uri}
              && known - (announced + multiset{uri}) == known - announced
  {
  }

  /** `delta` computes the two multiset differences between the announced and the known URIs. */
  lemma {:induction false} DeltaIsDifference<T>(clients: seq<T>, key: T -> string, uris: seq<string>)
    ensures var d := DeltaOf(clients, key, uris);
            && multiset(d.add) == multiset(uris) - multiset(Uris(clients, key))
            && multiset(Uris(d.dead, key)) == multiset(Uris(clients, key)) - multiset(uris)
  {
    if uris != [] {
      var front, uri := uris[..|uris| - 1], uris[|uris| - 1];
      assert uris == front + [uri];
      var d := DeltaOf(clients, key, front);
      DeltaIsDifference(clients, key, front);
      DifferenceStep(multiset(Uris(clients, key)), multiset(front), uri);
      var i := IndexOf(d.dead, key, uri);
      if i < |d.dead| {
        UrisSplit(d.dead, key, i);
        assert Uris(d.dead, key)[i] == uri;
      } else {
        assert uri !in Uris(d.dead, key);
      }
    }
  }

  /** The clients declared dead are distinct members of the list when the list has no duplicates. */
  lemma {:induction false} DeltaDead<T>(clients: seq<T>, key: T -> string, uris: seq<string>)
    requires Distinct(clients)
    ensures var dead := DeltaOf(clients, key, uris).dead;
            && Distinct(dead)
            && forall k :: 0 <= k < |dead| ==> dead[k] in clients
  {
    if uris != [] {
      DeltaDead(clients, key, uris[..|uris| - 1]);
    }
  }

  lemma {:induction false} WithoutAt<T>(s: seq<T>, i: nat)
    requires i < |s| && Distinct(s)
    ensures Without(s, s[i]) == RemoveAt(s, i)
  {
    var n := |s| - 1;
    var front, x := s[..n], s[i];
    assert forall k :: 0 <= k < n ==> front[k] == s[k];
    if i == n {
      WithoutMembers(front, x);
      assert RemoveAt(s, i) == front;
    } else {
      assert front[i] == x && s[n] != x;
      WithoutAt(front, i);
      assert RemoveAt(s, i) == RemoveAt(front, i) + [s[n]];
    }
  }

  lemma RemoveAtMembers<T>(s: seq<T>, i: nat)
    requires i < |s| && Distinct(s)
    ensures forall y :: y in RemoveAt(s, i) <==> y in s && y != s[i]
    ensures Distinct(RemoveAt(s, i))
  {
    WithoutAt(s, i);
    WithoutMembers(s, s[i]);
    WithoutDistinct(s, s[i]);
  }

  /** One URI more in the loop of `delta`. */
  lemma DeltaNext<T>(known: seq<T>, key: T -> string, uris: seq<string>, j: nat, add: seq<string>, still: seq<T>)
    requires Distinct(known) && j < |uris| && DeltaOf(known, key, uris[..j]) == Changes(add, still)
    ensures Distinct(still) && forall c :: c in still ==> c in known
    ensures var i := IndexOf(still, key, uris[j]);
            && DeltaOf(known, key, uris[..j + 1])
               == (if i < |still| then Changes(add, RemoveAt(still, i)) else Changes(add + [uris[j]], still))
            && (i < |still| ==> forall c :: c in RemoveAt(still, i) <==> c in still && c != still[i])
  {
    var i := IndexOf(still, key, uris[j]);
    DeltaDead(known, key, uris[..j]);
    DeltaStep(known, key, uris, j);
    if i < |still| {
      RemoveAtMembers(still, i);
    }
  }

  class DopplerClientInfo {
    const uri: string
    var disconnect: bool
    var refCount: int

    constructor (uri: string)
      ensures this.uri == uri && !disconnect && refCount == 0
    {
      this.uri := uri;
      disconnect := false;
      refCount := 0;
    }
  }

  function UriKey(): DopplerClientInfo -> string {
    (c: DopplerClientInfo) => c.uri
  }

  /** Go's `append(s[:i], s[i+1:]...)` on a slice of length n: the tail moves down one place
      inside the same array, and the cell past the new end keeps its old value. */
  method SpliceOut(buf: array<DopplerClientInfo>, n: nat, i: nat)
    requires i < n <= buf.Length
    modifies buf
    ensures buf[..n - 1] == RemoveAt(old(buf[..n]), i)
    ensures forall k :: n - 1 <= k < buf.Length ==> buf[k] == old(buf[k])
  {
    var j := i + 1;
    while j < n
      invariant i + 1 <= j <= n
      invariant forall k :: 0 <= k < i ==> buf[k] == old(buf[k])
      invariant forall k :: i <= k < j - 1 ==> buf[k] == old(buf[k + 1])
      invariant forall k :: j - 1 <= k < buf.Length ==> buf[k] == old(buf[k])
    {
      buf[j - 1] := buf[j];
      j := j + 1;
    }
    assert forall k :: 0 <= k < n - 1 ==> RemoveAt(old(buf[..n]), i)[k] == old(if k < i then buf[k] else buf[k + 1]);
  }

  /** Takes the first client of this URI off the slice and cancels its retirement. */
  method SubtractClient(remaining: array<DopplerClientInfo>, n: nat, uri: string)
    returns (left: nat, contained: bool)
    requires n <= remaining.Length && Distinct(remaining[..n])
    modifies remaining, (set c | c in remaining[..n])`disconnect
    ensures var was: seq<DopplerClientInfo> := old(remaining[..n]);
            var i := IndexOf(was, UriKey(), uri);
            && contained == (i < n)
            && left <= n
            && remaining[..left] == (if i < n then RemoveAt(was, i) else was)
            && (forall c :: c in was ==> c.disconnect == (old(c.disconnect) && !(i < n && c == was[i])))
  {
    var i := 0;
    while i < n
      invariant 0 <= i <= n
      invariant forall k :: 0 <= k < i ==> remaining[k].uri != uri
      invariant remaining[..n] == old(remaining[..n])
      invariant forall k :: 0 <= k < n ==> remaining[k].disconnect == old(remaining[k].disconnect)
    {
      if uri == remaining[i].uri {
        assert IndexOf(remaining[..n], UriKey(), uri) == i;
        remaining[i].disconnect := false;
        SpliceOut(remaining, n, i);
        return n - 1, true;
      }
      i := i + 1;
    }
    return n, false;
  }

  /** The loop of `delta`, on the copied slice. */
  method SubtractAll(dead: array<DopplerClientInfo>, n: nat, uris: seq<string>)
    returns (add: seq<string>, left: nat)
    requires n <= dead.Length && Distinct(dead[..n])
    modifies dead, (set c | c in dead[..n])`disconnect
    ensures left <= n
    ensures DeltaOf(old(dead[..n]), UriKey(), uris) == Changes(add, dead[..left])
    ensures forall c :: c in old(dead[..n]) ==> c.disconnect == (c in dead[..left] && old(c.disconnect))
  {
    ghost var known: seq<DopplerClientInfo> := dead[..n];
    ghost var still := known;
    ghost var marked := set c | c in known && c.disconnect;
    left, add := n, [];
    for j := 0 to |uris|
      invariant left <= n && still == dead[..left]
      invariant DeltaOf(known, UriKey(), uris[..j]) == Changes(add, still)
      invariant forall c :: c in known ==> (c.disconnect <==> c in still && c in marked)
    {
      ghost var i := IndexOf(still, UriKey(), uris[j]);
      DeltaNext(known, UriKey(), uris, j, add, still);
      var contained;
      left, contained := SubtractClient(dead, left, uris[j]);
      if !contained {
        add := add + [uris[j]];
      } else {
        still := RemoveAt(still, i);
      }
    }
    assert uris[..|uris|] == uris;
  }

  /** The connector, as one goroutine at a time sees it: its client list, that is a length and a
      backing array, the slots of the consumers, and a record of the goroutines started. */
  class GRPCConnector {
    var clients: array<DopplerClientInfo>
    var count: nat
    var consumerStates: array<ConsumerState?>
    var spawned: seq<(ConsumerState, DopplerClientInfo)>

    ghost predicate Valid()
      reads this, clients
    {
      count <= clients.Length && Distinct(clients[..count])
    }

    ghost function Clients(): seq<DopplerClientInfo>
      reads this, clients
      requires Valid()
    {
      clients[..count]
    }

    /** Works on a copy, so the list itself is left alone; every client still announced
        has its retirement cancelled, and no other flag changes. */
    method Delta(uris: seq<string>)
      returns (add: seq<string>, dead: array<DopplerClientInfo>, deadCount: nat)
      requires Valid()
      modifies (set c | c in clients[..count])`disconnect
      ensures Valid() && Clients() == old(Clients())
      ensures fresh(dead) && deadCount <= dead.Length
      ensures DeltaOf(Clients(), UriKey(), uris) == Changes(add, dead[..deadCount])
      ensures forall c :: c in Clients() ==> c.disconnect == (c in dead[..deadCount] && old(c.disconnect))
    {
      dead := new DopplerClientInfo[count](k requires 0 <= k < count && count <= clients.Length reads this, clients => clients[k]);
      assert dead[..count] == Clients();
      add, deadCount := SubtractAll(dead, count, uris);
    }

    /** Removes the client and keeps the order of the rest, although the list is spliced
        while the loop is still ranging over its old extent. */
    method Close(client: DopplerClientInfo)
      requires Valid()
      modifies clients, `count
      ensures Valid() && clients == old(clients)
      ensures Clients() == Without(old(Clients()), client)
    {
      ghost var was: seq<DopplerClientInfo> := Clients();
      var n := count;
      ghost var at: nat := n;
      for i := 0 to n
        invariant clients == old(clients) && at <= n == |was| <= clients.Length
        invariant at == n ==> count == n && clients[..n] == was && client !in was[..i]
        invariant at < n ==> at < i && was[at] == client && count == n - 1
        invariant at < n ==> forall k :: i <= k < n ==> clients[k] != client
        invariant at < n ==> clients[..n - 1] == RemoveAt(was, at) && clients[n - 1] == was[n - 1]
      {
        if clients[i] == client {
          SpliceOut(clients, count, i);
          count := count - 1;
          at := i;
        }
      }
      if at < n {
        WithoutAt(was, at);
      } else {
        WithoutMembers(was, client);
      }
    }

    /** The first slot that is empty or holds a dead consumer is taken; a live one never is, and the
        search fails only when every slot is live. */
    method AddConsumerState(cs: ConsumerState) returns (slot: Option<nat>)
      modifies consumerStates
      ensures slot.None? ==> consumerStates[..] == old(consumerStates[..])
      ensures slot.None? ==> forall j :: 0 <= j < consumerStates.Length ==> consumerStates[j] != null && !consumerStates[j].dead
      ensures slot.Some? ==>
        && slot.value < consumerStates.Length
        && old(consumerStates[slot.value] == null || consumerStates[slot.value].dead)
        && consumerStates[..] == old(consumerStates[..])[slot.value := cs]
        && forall j :: 0 <= j < slot.value ==> old(consumerStates[j] != null && !consumerStates[j].dead)
    {
      for i := 0 to consumerStates.Length
        invariant consumerStates[..] == old(consumerStates[..])
        invariant forall j :: 0 <= j < i ==> consumerStates[j] != null && !consumerStates[j].dead
      {
        var state := consumerStates[i];
        if state == null || state.dead {
          consumerStates[i] := cs;
          return Some(i);
        }
      }
      return None;
    }

    /** Publish first, then one goroutine per listed client, in order; a refused consumer gets none. */
    method Subscribe(cs: ConsumerState) returns (admitted: bool)
      requires Valid()
      modifies consumerStates, `spawned
      ensures Valid() && Clients() == old(Clients())
      ensures admitted <==> exists j :: 0 <= j < consumerStates.Length && old(consumerStates[j] == null || consumerStates[j].dead)
      ensures admitted ==> exists j :: 0 <= j < consumerStates.Length && consumerStates[j] == cs
      ensures spawned == old(spawned) + if admitted then Pairs(cs, Clients()) else []
    {
      var slot := AddConsumerState(cs);
      if slot.None? {
        assert forall j :: 0 <= j < consumerStates.Length ==> consumerStates[..][j] == old(consumerStates[..])[j];
        return false;
      }
      assert consumerStates[slot.value] == consumerStates[..][slot.value] == cs;
      for i := 0 to count
        invariant Valid() && clients == old(clients) && Clients() == old(Clients())
        invariant consumerStates == old(consumerStates) && consumerStates[slot.value] == cs
        invariant spawned == old(spawned) + Pairs(cs, clients[..i])
      {
        assert clients[..i + 1][..i] == clients[..i];
        spawned := spawned + [(cs, clients[i])];
      }
      return true;
    }
  }

  function Pairs(cs: ConsumerState, clients: seq<DopplerClientInfo>): seq<(ConsumerState, DopplerClientInfo)> {
    if clients == [] then [] else Pairs(cs, clients[..|clients| - 1]) + [(cs, clients[|clients| - 1])]
  }

  /** A consumer and the URIs it is being served for; the mutex makes each call one step. */
  class ConsumerState {
    var dead: bool
    var dopplers: map<string, bool>

    ghost predicate Holds(doppler: string)
      reads this
    {
      doppler in dopplers && dopplers[doppler]
    }

    method TryAddDoppler(doppler: string) returns (added: bool)
      modifies `dopplers
      ensures added == !old(Holds(doppler))
      ensures forall d :: Holds(d) <==> old(Holds(d)) || d == doppler
    {
      if doppler in dopplers && dopplers[doppler] {
        return false;
      }
      dopplers := dopplers[doppler := true];
      return true;
    }

    method ForgetDoppler(doppler: string)
      modifies `dopplers
      ensures forall d :: Holds(d) <==> old(Holds(d)) && d != doppler
    {
      dopplers := dopplers - {doppler};
    }
  }
}
