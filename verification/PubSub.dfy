/** The v2 subscription store: selectors become filters and paths, publishing walks the tree, and a
    guard on the source ID stands before every setter. */
module PubSub {
  import opened Base
  import opened EnvelopeTraverser

  // ---- Selectors ----

  datatype Selection =
    | NoSelection
    | LogSelection
    | CounterSelection(name: string)
    | GaugeSelection(names: seq<string>)
    | TimerSelection
    | EventSelection

  datatype Selector = Selector(sourceId: string, message: Selection)

  const EMPTY_FILTER: EnvelopeFilter := EnvelopeFilter(None, None, None, None, None, None)

  function BuildFilter(s: Selector): EnvelopeFilter {
    var f := if s.sourceId != "" then EMPTY_FILTER.(sourceId := Some(s.sourceId)) else EMPTY_FILTER;
    match s.message
    case NoSelection => f
    case LogSelection => f.(log := Some(None))
    case CounterSelection(name) =>
      f.(counter := Some(if name != "" then Some(CounterFilter(Some(name))) else None))
    case GaugeSelection(names) =>
      f.(gauge := Some(if |names| != 0 then Some(GaugeFilter(Some(names))) else None))
    case TimerSelection => f.(timer := Some(None))
    case EventSelection => f.(event := Some(None))
  }

  /** The guard against a hash collision in the source ID. */
  predicate PassesGuard(sourceId: string, e: Envelope) {
    sourceId == "" || sourceId == e.sourceId
  }

  /** What a selector asks for: the source exactly, the type exactly, names up to their hashes. */
  ghost predicate Selects(crc: Crc, s: Selector, e: Envelope) {
    PassesGuard(s.sourceId, e) && TypeSelected(s, e) && NamesSelected(crc, s, e)
  }

  predicate TypeSelected(s: Selector, e: Envelope) {
    match s.message
    case NoSelection => false
    case LogSelection => e.message.Log?
    case CounterSelection(_) => e.message.Counter?
    case GaugeSelection(_) => e.message.Gauge?
    case TimerSelection => e.message.Timer?
    case EventSelection => e.message.Event?
  }

  /** A named counter needs a counter of that name hash; named gauges need exactly the key set, up
      to the wrapped sum of hashes. */
  ghost predicate NamesSelected(crc: Crc, s: Selector, e: Envelope) {
    && (s.message.CounterSelection? && s.message.name != "" && e.message.Counter? ==>
          e.message.name.Some? && Hash(crc, s.message.name) == Hash(crc, e.message.name.value))
    && (s.message.GaugeSelection? && |s.message.names| != 0 && e.message.Gauge? ==>
          e.message.metrics.Some?
          && HashUint64(SumNames(crc, s.message.names)) == HashUint64(SumKeys(crc, e.message.metrics.value)))
  }

  predicate Bare(s: Selector) {
    match s.message
    case NoSelection => false
    case CounterSelection(name) => name == ""
    case GaugeSelection(names) => names == []
    case _ => true
  }

  // ---- The store, and the tree walk it is published through ----

  datatype Subscription = Subscription(path: seq<Word>, sourceId: string, setter: nat)

  type Store = map<nat, Subscription>

  /** The library's contract: deliver to everything stored at the node, then descend into the
      children paths(0), paths(1), ... until there is none. */
  ghost function Walk(crc: Crc, subs: Store, t: Traverser, e: Envelope, prefix: seq<Word>): multiset<nat>
    requires Fits(t, e)
    decreases Rank(t), 3
  {
    multiset(set k | k in subs && subs[k].path == prefix) + WalkFrom(crc, subs, t, e, prefix, 0)
  }

  ghost function WalkFrom(crc: Crc, subs: Store, t: Traverser, e: Envelope, prefix: seq<Word>, idx: nat): multiset<nat>
    requires Fits(t, e) && idx <= 2
    decreases Rank(t), 2 - idx
  {
    match Paths(crc, t, idx, e)
    case Stop => multiset{}
    case Branch(p, next) =>
      Walk(crc, subs, next, e, prefix + [p]) + WalkFrom(crc, subs, t, e, prefix, idx + 1)
  }

  /** How often publishing e calls the setter of subscription k. */
  ghost function SetCalls(crc: Crc, subs: Store, e: Envelope, k: nat): nat
    requires k in subs
  {
    if PassesGuard(subs[k].sourceId, e) then Walk(crc, subs, SourceId, e, [])[k] else 0
  }

  ghost function Suffix(path: seq<Word>, prefix: seq<Word>): seq<Word>
    requires prefix <= path
  {
    path[|prefix|..]
  }

  /** The walk delivers to a subscription as often as it visits its path. */
  lemma {:induction false} WalkDelivers(crc: Crc, subs: Store, t: Traverser, e: Envelope, prefix: seq<Word>, k: nat)
    requires Fits(t, e) && k in subs
    ensures Walk(crc, subs, t, e, prefix)[k]
         == if prefix <= subs[k].path then Visits(crc, t, e, Suffix(subs[k].path, prefix)) else 0
    decreases Rank(t), 3
  {
    WalkFromDelivers(crc, subs, t, e, prefix, 0, k);
    if subs[k].path == prefix {
      assert Suffix(subs[k].path, prefix) == [];
    } else if prefix <= subs[k].path {
      assert prefix < subs[k].path;
    }
  }

  lemma PrefixStep(path: seq<Word>, prefix: seq<Word>, p: Word)
    ensures prefix + [p] <= path <==> prefix < path && Suffix(path, prefix)[0] == p
    ensures prefix + [p] <= path ==> Suffix(path, prefix)[1..] == Suffix(path, prefix + [p])
  {
    if prefix < path && path[|prefix|] == p {
      assert path[..|prefix| + 1] == prefix + [p];
    }
  }

  lemma {:induction false} WalkFromDelivers(crc: Crc, subs: Store, t: Traverser, e: Envelope, prefix: seq<Word>, idx: nat, k: nat)
    requires Fits(t, e) && idx <= 2 && k in subs
    ensures WalkFrom(crc, subs, t, e, prefix, idx)[k]
         == if prefix < subs[k].path then VisitsFrom(crc, t, e, Suffix(subs[k].path, prefix), idx) else 0
    decreases Rank(t), 2 - idx
  {
    var path := subs[k].path;
    match Paths(crc, t, idx, e)
    case Stop =>
    case Branch(p, next) =>
      WalkDelivers(crc, subs, next, e, prefix + [p], k);
      WalkFromDelivers(crc, subs, t, e, prefix, idx + 1, k);
      PrefixStep(path, prefix, p);
      assert WalkFrom(crc, subs, t, e, prefix, idx)[k]
          == Walk(crc, subs, next, e, prefix + [p])[k] + WalkFrom(crc, subs, t, e, prefix, idx + 1)[k];
      if prefix < path {
        var suffix := Suffix(path, prefix);
        assert VisitsFrom(crc, t, e, suffix, idx)
            == (if p == suffix[0] then Visits(crc, next, e, suffix[1..]) else 0) + VisitsFrom(crc, t, e, suffix, idx + 1);
      }
  }

  /** The subscription made for a selector. */
  function For(crc: Crc, s: Selector, setter: nat): Subscription
    requires PathOf(crc, Some(BuildFilter(s))).Some?
  {
    Subscription(PathOf(crc, Some(BuildFilter(s))).value, s.sourceId, setter)
  }

  /** A built filter never has two messages, so compiling it never panics. */
  lemma BuildFilterCompiles(crc: Crc, s: Selector)
    ensures MessageCount(BuildFilter(s)) == if s.message.NoSelection? then 0 else 1
    ensures PathOf(crc, Some(BuildFilter(s))).Some?
  {
  }

  /** Before the guard, a subscription is reached when its filter matches by hashes. */
  lemma FilterMeaning(crc: Crc, s: Selector, e: Envelope)
    requires !s.message.NoSelection?
    ensures Matches(crc, BuildFilter(s), e) <==>
      (s.sourceId != "" ==> Hash(crc, s.sourceId) == Hash(crc, e.sourceId)) && TypeSelected(s, e) && NamesSelected(crc, s, e)
  {
  }

  /** Unsharded, a selector's setter is called exactly once for every envelope it selects, and
      never otherwise. Collisions between source IDs make no difference. */
  lemma SetOnce(crc: Crc, subs: Store, s: Selector, setter: nat, k: nat, e: Envelope)
    requires !s.message.NoSelection?
    requires k in subs && PathOf(crc, Some(BuildFilter(s))).Some? && subs[k] == For(crc, s, setter)
    ensures SetCalls(crc, subs, e, k) == if Selects(crc, s, e) then 1 else 0
  {
    var path := subs[k].path;
    BuildFilterCompiles(crc, s);
    WalkDelivers(crc, subs, SourceId, e, [], k);
    assert Suffix(path, []) == path;
    PathMeaning(crc, BuildFilter(s), e);
    FilterMeaning(crc, s, e);
  }

  /** A bare selector is exact: no hash appears in what it selects. */
  lemma BareSetOnce(crc: Crc, subs: Store, s: Selector, setter: nat, k: nat, e: Envelope)
    requires Bare(s)
    requires k in subs && PathOf(crc, Some(BuildFilter(s))).Some? && subs[k] == For(crc, s, setter)
    ensures SetCalls(crc, subs, e, k) ==
      if TypeSelected(s, e) && (s.sourceId == "" || s.sourceId == e.sourceId) then 1 else 0
  {
    SetOnce(crc, subs, s, setter, k, e);
  }

  /** Without the guard a colliding source ID would be delivered. */
  lemma GuardNeeded(crc: Crc, s: Selector, e: Envelope)
    requires s.message.LogSelection? && e.message.Log?
    requires s.sourceId != "" && s.sourceId != e.sourceId && crc(s.sourceId) == crc(e.sourceId)
    ensures PathOf(crc, Some(BuildFilter(s))).Some?
    ensures Visits(crc, SourceId, e, PathOf(crc, Some(BuildFilter(s))).value) == 1
    ensures !PassesGuard(s.sourceId, e)
  {
    PathMeaning(crc, BuildFilter(s), e);
  }

  /** How often publishing e calls this setter through the subscriptions of one request. */
  ghost function Received(crc: Crc, subs: Store, tokens: seq<nat>, setter: nat, e: Envelope): nat
    requires forall j :: 0 <= j < |tokens| ==> tokens[j] in subs
  {
    if tokens == [] then 0
    else
      var k := tokens[|tokens| - 1];
      Received(crc, subs, tokens[..|tokens| - 1], setter, e) + if subs[k].setter == setter then SetCalls(crc, subs, e, k) else 0
  }

  /** How many selectors of a request select the envelope. */
  ghost function Hits(crc: Crc, selectors: seq<Selector>, e: Envelope): nat {
    if selectors == [] then 0
    else Hits(crc, selectors[..|selectors| - 1], e) + if Selects(crc, selectors[|selectors| - 1], e) then 1 else 0
  }

  /** The selectors that carry a message, in order; the others are skipped. */
  function WithMessage(selectors: seq<Selector>): seq<Selector> {
    if selectors == [] then []
    else
      var rest, s := WithMessage(selectors[..|selectors| - 1]), selectors[|selectors| - 1];
      if s.message.NoSelection? then rest else rest + [s]
  }

  lemma HitsAppend(crc: Crc, selectors: seq<Selector>, s: Selector, e: Envelope)
    ensures Hits(crc, selectors + [s], e) == Hits(crc, selectors, e) + if Selects(crc, s, e) then 1 else 0
  {
    assert (selectors + [s])[..|selectors|] == selectors;
  }

  lemma NoMessageNoHit(crc: Crc, s: Selector, e: Envelope)
    requires s.message.NoSelection?
    ensures !Selects(crc, s, e)
  {
  }

  /** Skipping the selectors without a message loses no envelope. */
  lemma {:induction false} WithMessageHits(crc: Crc, selectors: seq<Selector>, e: Envelope)
    ensures Hits(crc, WithMessage(selectors), e) == Hits(crc, selectors, e)
  {
    if selectors != [] {
      var front, s := selectors[..|selectors| - 1], selectors[|selectors| - 1];
      WithMessageHits(crc, front, e);
      assert selectors == front + [s];
      HitsAppend(crc, front, s, e);
      if s.message.NoSelection? {
        NoMessageNoHit(crc, s, e);
      } else {
        HitsAppend(crc, WithMessage(front), s, e);
      }
    }
  }

  lemma {:induction false} WithMessageHave(selectors: seq<Selector>)
    ensures forall s :: s in WithMessage(selectors) ==> !s.message.NoSelection?
    ensures (forall s :: s in selectors ==> !s.message.NoSelection?) ==> WithMessage(selectors) == selectors
  {
    if selectors != [] {
      var front, s := selectors[..|selectors| - 1], selectors[|selectors| - 1];
      WithMessageHave(front);
      assert selectors == front + [s];
    }
  }

  /** Token j stands for selector j, and no subscription stands for two selectors. */
  ghost predicate Registered(crc: Crc, subs: Store, tokens: seq<nat>, selectors: seq<Selector>, setter: nat) {
    && |tokens| == |selectors| && Distinct(tokens)
    && forall j :: 0 <= j < |tokens| ==>
         && tokens[j] in subs
         && PathOf(crc, Some(BuildFilter(selectors[j]))).Some?
         && subs[tokens[j]] == For(crc, selectors[j], setter)
  }

  /** Every subscription of a request stands for its setter, path and source ID. */
  lemma RegisteredFields(crc: Crc, subs: Store, tokens: seq<nat>, selectors: seq<Selector>, setter: nat, j: nat)
    requires Registered(crc, subs, tokens, selectors, setter) && j < |tokens|
    ensures tokens[j] in subs && j < |selectors|
    ensures subs[tokens[j]].setter == setter && subs[tokens[j]].sourceId == selectors[j].sourceId
    ensures PathOf(crc, Some(BuildFilter(selectors[j]))) == Some(subs[tokens[j]].path)
  {
  }

  lemma {:induction false} EachReceives(crc: Crc, subs: Store, tokens: seq<nat>, selectors: seq<Selector>, setter: nat, e: Envelope)
    requires Registered(crc, subs, tokens, selectors, setter)
    requires forall s :: s in selectors ==> !s.message.NoSelection?
    ensures Received(crc, subs, tokens, setter, e) == Hits(crc, selectors, e)
  {
    if tokens != [] {
      var n := |tokens| - 1;
      assert selectors[n] in selectors;
      EachReceives(crc, subs, tokens[..n], selectors[..n], setter, e);
      RegisteredFields(crc, subs, tokens, selectors, setter, n);
      SetOnce(crc, subs, selectors[n], setter, tokens[n], e);
    }
  }

  /** While a request is registered, as Subscribe leaves it, an envelope reaches its setter once per
      selector of the request that selects it, whatever else is stored. */
  lemma RequestReceives(crc: Crc, subs: Store, tokens: seq<nat>, selectors: seq<Selector>, setter: nat, e: Envelope)
    requires Registered(crc, subs, tokens, WithMessage(selectors), setter)
    ensures Received(crc, subs, tokens, setter, e) == Hits(crc, selectors, e)
  {
    WithMessageHave(selectors);
    EachReceives(crc, subs, tokens, WithMessage(selectors), setter, e);
    WithMessageHits(crc, selectors, e);
  }

  /** One more selector with a message takes one more subscription. */
  lemma RegisteredMore(crc: Crc, subs: Store, tokens: seq<nat>, selectors: seq<Selector>, setter: nat, s: Selector, k: nat)
    requires Registered(crc, subs, tokens, selectors, setter)
    requires k !in subs && PathOf(crc, Some(BuildFilter(s))).Some?
    ensures Registered(crc, subs[k := For(crc, s, setter)], tokens + [k], selectors + [s], setter)
  {
  }

  class PubSub {
    var subs: Store
    var next: nat

    ghost predicate Valid()
      reads this
    {
      forall k :: k in subs ==> k < next
    }

    constructor ()
      ensures Valid() && subs == map[]
    {
      subs, next := map[], 0;
    }

    /** Registers every selector that has a message; the new subscriptions are exactly these, and
        taking them away again restores the store. */
    method Subscribe(crc: Crc, selectors: seq<Selector>, setter: nat) returns (tokens: seq<nat>)
      requires Valid()
      modifies this
      ensures Valid()
      ensures Registered(crc, subs, tokens, WithMessage(selectors), setter)
      ensures forall k :: k in tokens ==> k !in old(subs)
      ensures subs - (set k | k in tokens) == old(subs)
    {
      tokens := [];
      for i := 0 to |selectors|
        invariant Valid() && next >= old(next)
        invariant forall k :: k in tokens ==> old(next) <= k < next
        invariant Registered(crc, subs, tokens, WithMessage(selectors[..i]), setter)
        invariant subs.Keys == old(subs).Keys + (set k | k in tokens)
        invariant forall k :: k in old(subs) ==> subs[k] == old(subs[k])
      {
        var s := selectors[i];
        assert selectors[..i + 1][..i] == selectors[..i];
        if s.message.NoSelection? {
          continue;
        }
        BuildFilterCompiles(crc, s);
        var path := CreatePath(crc, Some(BuildFilter(s)));
        assert next !in subs;
        RegisteredMore(crc, subs, tokens, WithMessage(selectors[..i]), setter, s, next);
        subs := subs[next := Subscription(path.value, s.sourceId, setter)];
        tokens := tokens + [next];
        next := next + 1;
      }
      assert selectors[..|selectors|] == selectors;
      assert forall k :: k in tokens ==> k !in old(subs);
    }

    /** The returned function: it takes back what Subscribe added, and calling it again changes nothing. */
    method Unsubscribe(tokens: seq<nat>)
      requires Valid()
      modifies `subs
      ensures Valid()
      ensures subs == old(subs) - (set k | k in tokens)
    {
      for i := 0 to |tokens|
        invariant subs == old(subs) - (set k | k in tokens[..i])
      {
        ghost var done, more := tokens[..i], tokens[..i + 1];
        assert (set k | k in more) == (set k | k in done) + {tokens[i]};
        subs := subs - {tokens[i]};
      }
      assert tokens[..|tokens|] == tokens;
    }
  }
}
