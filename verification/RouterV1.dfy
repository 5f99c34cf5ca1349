/** The v1 router: a map of maps of slices that must agree with a plain list of registrations. */
module RouterV1 {
  import opened Base

  datatype FilterType = NoType | LogType | MetricType

  datatype Filter = Filter(appID: string, envelopeType: FilterType)

  datatype RequestFilter = RequestFilter(appID: string, log: bool, metric: bool)

  datatype Request = Request(shardID: string, filter: Option<RequestFilter>)

  /** A registration, and a write on its behalf; setters are known by identity. */
  datatype Registration = Registration(filter: Filter, shard: string, setter: nat)

  type Index = map<Filter, map<string, seq<nat>>>

  function ConvertFilter(req: Request): Filter {
    match req.filter
    case None => Filter("", NoType)
    case Some(f) => Filter(f.appID, if f.metric then MetricType else if f.log then LogType else NoType)
  }

  /** The event types of an envelope. */
  datatype EventType = HttpStartStop | LogMessage | ValueMetric | CounterEvent | ErrorEvent | ContainerMetric

  /** Everything that is not a log message counts as a metric. */
  function FilterTypeOf(event: EventType): FilterType {
    match event
    case LogMessage => LogType
    case _ => MetricType
  }

  function RegistrationOf(req: Request, setter: nat): Registration {
    Registration(ConvertFilter(req), req.shardID, setter)
  }

  // ---- The plain list, and the index that represents it ----

  /** The setters registered for one filter and shard, in order. */
  function Bucket(regs: seq<Registration>, f: Filter, shard: string): seq<nat> {
    if regs == [] then []
    else
      var r := regs[|regs| - 1];
      Bucket(regs[..|regs| - 1], f, shard) + if r.filter == f && r.shard == shard then [r.setter] else []
  }

  function Lookup(index: Index, f: Filter, shard: string): seq<nat> {
    if f in index && shard in index[f] then index[f][shard] else []
  }

  /** Same buckets, and no empty bucket or inner map is kept. */
  ghost predicate Represents(index: Index, regs: seq<Registration>) {
    && (forall f, shard :: Lookup(index, f, shard) == Bucket(regs, f, shard))
    && (forall f :: f in index ==> index[f] != map[])
    && (forall f, shard :: f in index && shard in index[f] ==> index[f][shard] != [])
  }

  function Insert(index: Index, r: Registration): Index {
    var m := if r.filter in index then index[r.filter] else map[];
    index[r.filter := m[r.shard := Lookup(index, r.filter, r.shard) + [r.setter]]]
  }

  function Delete(index: Index, r: Registration): Index {
    var left := Without(Lookup(index, r.filter, r.shard), r.setter);
    if left != [] && r.filter in index then index[r.filter := index[r.filter][r.shard := left]]
    else if r.filter !in index then index
    else
      var m := index[r.filter] - {r.shard};
      if m == map[] then index - {r.filter} else index[r.filter := m]
  }

  lemma BucketAppend(regs: seq<Registration>, r: Registration, f: Filter, shard: string)
    ensures Bucket(regs + [r], f, shard)
         == Bucket(regs, f, shard) + if r.filter == f && r.shard == shard then [r.setter] else []
  {
    assert (regs + [r])[..|regs|] == regs;
  }

  /** What looking up finds after an insertion, and that nothing empty appears. */
  lemma InsertLookup(index: Index, r: Registration, f: Filter, shard: string)
    ensures Lookup(Insert(index, r), f, shard)
         == Lookup(index, f, shard) + if r.filter == f && r.shard == shard then [r.setter] else []
  {
  }

  lemma InsertNonEmpty(index: Index, r: Registration)
    requires forall f :: f in index ==> index[f] != map[]
    requires forall f, shard :: f in index && shard in index[f] ==> index[f][shard] != []
    ensures var more := Insert(index, r);
            && (forall f :: f in more ==> more[f] != map[])
            && (forall f, shard :: f in more && shard in more[f] ==> more[f][shard] != [])
  {
    assert r.shard in Insert(index, r)[r.filter];
  }

  lemma InsertRepresents(index: Index, regs: seq<Registration>, r: Registration)
    requires Represents(index, regs)
    ensures Represents(Insert(index, r), regs + [r])
  {
    InsertNonEmpty(index, r);
    forall f, shard ensures Lookup(Insert(index, r), f, shard) == Bucket(regs + [r], f, shard) {
      BucketAppend(regs, r, f, shard);
      InsertLookup(index, r, f, shard);
    }
  }

  lemma WithoutAppend<T>(s: seq<T>, x: T, y: T)
    ensures Without(s + [x], y) == Without(s, y) + if x == y then [] else [x]
  {
    assert (s + [x])[..|s|] == s;
  }

  lemma {:induction false} BucketWithout(regs: seq<Registration>, r: Registration, f: Filter, shard: string)
    ensures Bucket(Without(regs, r), f, shard)
         == if r.filter == f && r.shard == shard then Without(Bucket(regs, f, shard), r.setter) else Bucket(regs, f, shard)
  {
    if regs != [] {
      var front, last := regs[..|regs| - 1], regs[|regs| - 1];
      var b := Bucket(front, f, shard);
      BucketWithout(front, r, f, shard);
      if last == r {
        assert Without(regs, r) == Without(front, r);
      } else {
        assert Without(regs, r) == Without(front, r) + [last];
        BucketAppend(Without(front, r), last, f, shard);
      }
      if last.filter == f && last.shard == shard {
        assert Bucket(regs, f, shard) == b + [last.setter];
        WithoutAppend(b, last.setter, r.setter);
      } else {
        assert Bucket(regs, f, shard) == b;
      }
    }
  }

  /** What looking up finds after a deletion, and that nothing empty is left behind. */
  lemma DeleteLookup(index: Index, r: Registration, f: Filter, shard: string)
    ensures Lookup(Delete(index, r), f, shard)
         == if r.filter == f && r.shard == shard then Without(Lookup(index, f, shard), r.setter) else Lookup(index, f, shard)
  {
    if r.filter in index && f == r.filter && shard in index[f] && shard != r.shard {
      assert shard in index[f] - {r.shard};
    }
  }

  lemma DeleteNonEmpty(index: Index, r: Registration)
    requires forall f :: f in index ==> index[f] != map[]
    requires forall f, shard :: f in index && shard in index[f] ==> index[f][shard] != []
    ensures var less := Delete(index, r);
            && (forall f :: f in less ==> less[f] != map[])
            && (forall f, shard :: f in less && shard in less[f] ==> less[f][shard] != [])
  {
    var left := Without(Lookup(index, r.filter, r.shard), r.setter);
    if left != [] && r.filter in index {
      assert r.shard in Delete(index, r)[r.filter];
    }
  }

  lemma DeleteRepresents(index: Index, regs: seq<Registration>, r: Registration)
    requires Represents(index, regs)
    ensures Represents(Delete(index, r), Without(regs, r))
  {
    DeleteNonEmpty(index, r);
    forall f, shard ensures Lookup(Delete(index, r), f, shard) == Bucket(Without(regs, r), f, shard) {
      BucketWithout(regs, r, f, shard);
      DeleteLookup(index, r, f, shard);
      assert Lookup(index, f, shard) == Bucket(regs, f, shard);
    }
  }

  /** A list of registrations has only one index. */
  lemma RepresentsUnique(a: Index, b: Index, regs: seq<Registration>)
    requires Represents(a, regs) && Represents(b, regs)
    ensures a == b
  {
    SameKeys(a, b, regs);
    SameKeys(b, a, regs);
    forall f | f in a ensures a[f] == b[f] {
      forall shard ensures shard in a[f] <==> shard in b[f] {
        assert Lookup(a, f, shard) == Lookup(b, f, shard);
      }
      forall shard | shard in a[f] ensures a[f][shard] == b[f][shard] {
        assert Lookup(a, f, shard) == Lookup(b, f, shard);
      }
    }
  }

  lemma SameKeys(a: Index, b: Index, regs: seq<Registration>)
    requires Represents(a, regs) && Represents(b, regs)
    ensures forall f :: f in a ==> f in b
  {
    forall f | f in a ensures f in b {
      assert a[f] != map[];
      var shard :| shard in a[f];
      assert Lookup(a, f, shard) == Lookup(b, f, shard);
    }
  }

  /** The index built by registering a list in order. */
  function IndexOf(regs: seq<Registration>): Index {
    if regs == [] then map[] else Insert(IndexOf(regs[..|regs| - 1]), regs[|regs| - 1])
  }

  lemma {:induction false} IndexOfRepresents(regs: seq<Registration>)
    ensures Represents(IndexOf(regs), regs)
  {
    if regs != [] {
      IndexOfRepresents(regs[..|regs| - 1]);
      InsertRepresents(IndexOf(regs[..|regs| - 1]), regs[..|regs| - 1], regs[|regs| - 1]);
      assert regs == regs[..|regs| - 1] + [regs[|regs| - 1]];
    }
  }

  // ---- Runs of registrations and cleanups ----

  datatype Op = Register(reg: Registration) | Cleanup(reg: Registration)

  function IndexAfter(ops: seq<Op>): Index {
    if ops == [] then map[]
    else
      var index, op := IndexAfter(ops[..|ops| - 1]), ops[|ops| - 1];
      if op.Register? then Insert(index, op.reg) else Delete(index, op.reg)
  }

  /** The registrations that no later cleanup takes back, in order. */
  function Survivors(ops: seq<Op>): seq<Registration> {
    if ops == [] then []
    else if ops[0].Register? && Cleanup(ops[0].reg) !in ops[1..] then [ops[0].reg] + Survivors(ops[1..])
    else Survivors(ops[1..])
  }

  lemma {:induction false} SurvivorsRegister(ops: seq<Op>, r: Registration)
    ensures Survivors(ops + [Register(r)]) == Survivors(ops) + [r]
  {
    var more := ops + [Register(r)];
    if ops == [] {
      assert more[1..] == [];
    } else {
      SurvivorsRegister(ops[1..], r);
      assert more[1..] == ops[1..] + [Register(r)];
      assert Cleanup(ops[0].reg) in more[1..] <==> Cleanup(ops[0].reg) in ops[1..];
    }
  }

  lemma {:induction false} WithoutCons<T>(x: T, s: seq<T>, y: T)
    ensures Without([x] + s, y) == (if x == y then [] else [x]) + Without(s, y)
  {
    if s == [] {
      assert [x] + s == [x];
      assert [x][..0] == [];
    } else {
      var front := s[..|s| - 1];
      WithoutCons(x, front, y);
      assert ([x] + s)[..|s|] == [x] + front;
    }
  }

  lemma {:induction false} SurvivorsCleanup(ops: seq<Op>, r: Registration)
    ensures Survivors(ops + [Cleanup(r)]) == Without(Survivors(ops), r)
  {
    var more := ops + [Cleanup(r)];
    if ops == [] {
      assert more[1..] == [];
    } else {
      SurvivorsCleanup(ops[1..], r);
      assert more[1..] == ops[1..] + [Cleanup(r)];
      assert Cleanup(ops[0].reg) in more[1..] <==> Cleanup(ops[0].reg) in ops[1..] || ops[0].reg == r;
      if ops[0].Register? {
        WithoutCons(ops[0].reg, Survivors(ops[1..]), r);
      }
    }
  }

  lemma {:induction false} RunRepresents(ops: seq<Op>)
    ensures Represents(IndexAfter(ops), Survivors(ops))
  {
    if ops != [] {
      var front, op := ops[..|ops| - 1], ops[|ops| - 1];
      assert ops == front + [op];
      RunRepresents(front);
      if op.Register? {
        InsertRepresents(IndexAfter(front), Survivors(front), op.reg);
        SurvivorsRegister(front, op.reg);
      } else {
        DeleteRepresents(IndexAfter(front), Survivors(front), op.reg);
        SurvivorsCleanup(front, op.reg);
      }
    }
  }

  /** A cleanup takes back its registration as often as it was made, and no other. */
  lemma CleanupTakesBack(ops: seq<Op>, r: Registration)
    ensures multiset(Survivors(ops + [Cleanup(r)])) == multiset(Survivors(ops))[r := 0]
    ensures multiset(Survivors(ops + [Register(r)])) == multiset(Survivors(ops)) + multiset{r}
  {
    SurvivorsCleanup(ops, r);
    WithoutCounts(Survivors(ops), r);
    SurvivorsRegister(ops, r);
  }

  /** After any registrations and cleanups, in any order and with repeated cleanups, the index is
      the one built by registering only the survivors, and it keeps no empty bucket or map. */
  lemma RunLeavesSurvivors(ops: seq<Op>)
    ensures IndexAfter(ops) == IndexOf(Survivors(ops))
    ensures forall f, shard :: f in IndexAfter(ops) && shard in IndexAfter(ops)[f] ==> IndexAfter(ops)[f][shard] != []
    ensures forall f :: f in IndexAfter(ops) ==> IndexAfter(ops)[f] != map[]
  {
    RunRepresents(ops);
    IndexOfRepresents(Survivors(ops));
    RepresentsUnique(IndexAfter(ops), IndexOf(Survivors(ops)), Survivors(ops));
  }

  // ---- Sending ----

  /** The plain predicate: the application is unset or equal, and so is the type. */
  predicate Matching(f: Filter, appID: string, envelopeType: FilterType) {
    (f.appID == "" || f.appID == appID) && (f.envelopeType == NoType || f.envelopeType == envelopeType)
  }

  /** What a request asks for, in its own terms: without a filter everything; otherwise its application,
      if it names one, and log messages or everything else, if it asks for one of them. A request for
      both gets metrics. */
  predicate Wants(req: Request, appID: string, event: EventType) {
    match req.filter
    case None => true
    case Some(f) =>
      && (f.appID == "" || f.appID == appID)
      && (f.metric ==> event != LogMessage)
      && (f.log && !f.metric ==> event == LogMessage)
  }

  /** A registration matches exactly the envelopes its request asks for. */
  lemma RegistrationWants(req: Request, setter: nat, appID: string, event: EventType)
    ensures Matching(RegistrationOf(req, setter).filter, appID, FilterTypeOf(event)) <==> Wants(req, appID, event)
    ensures RegistrationOf(req, setter).shard == req.shardID && RegistrationOf(req, setter).setter == setter
    ensures FilterTypeOf(event) != NoType
  {
  }

  function TypedFilters(appID: string, envelopeType: FilterType): seq<Filter> {
    [Filter("", envelopeType), Filter("", NoType)]
    + if appID != "" then [Filter(appID, NoType), Filter(appID, envelopeType)] else []
  }

  /** The filters looked up are exactly the matching ones, each once. */
  lemma TypedFiltersMatch(appID: string, envelopeType: FilterType)
    requires envelopeType != NoType
    ensures forall f :: f in TypedFilters(appID, envelopeType) <==> Matching(f, appID, envelopeType)
    ensures Distinct(TypedFilters(appID, envelopeType))
  {
    var fs := TypedFilters(appID, envelopeType);
    forall f | Matching(f, appID, envelopeType) ensures f in fs {
      if f.appID == "" {
        assert f == fs[0] || f == fs[1];
      } else {
        assert f == fs[2] || f == fs[3];
      }
    }
  }

  /** One group was written as it should be: everybody without a shard ID, one member with one. */
  ghost predicate Served(bucket: seq<nat>, shard: string, written: seq<nat>) {
    if bucket == [] || shard == "" then written == bucket
    else |written| == 1 && written[0] in bucket
  }

  /** The writes of one envelope are right for a list of registrations. */
  ghost predicate Delivered(regs: seq<Registration>, appID: string, envelopeType: FilterType, writes: seq<Registration>) {
    forall f, shard ::
      if Matching(f, appID, envelopeType) then Served(Bucket(regs, f, shard), shard, Bucket(writes, f, shard))
      else Bucket(writes, f, shard) == []
  }

  lemma {:induction false} BucketCounts(regs: seq<Registration>, r: Registration)
    ensures multiset(regs)[r] == multiset(Bucket(regs, r.filter, r.shard))[r.setter]
  {
    if regs != [] {
      var front, last := regs[..|regs| - 1], regs[|regs| - 1];
      assert regs == front + [last];
      BucketCounts(front, r);
    }
  }

  /** A registration without a shard ID is written once per time it was registered if it matches,
      and never otherwise. */
  lemma UnshardedWrittenOnce(regs: seq<Registration>, appID: string, envelopeType: FilterType, writes: seq<Registration>, r: Registration)
    requires Delivered(regs, appID, envelopeType, writes) && r.shard == ""
    ensures multiset(writes)[r] == if Matching(r.filter, appID, envelopeType) then multiset(regs)[r] else 0
  {
    BucketCounts(regs, r);
    BucketCounts(writes, r);
    assert Matching(r.filter, appID, envelopeType) ==> Served(Bucket(regs, r.filter, ""), "", Bucket(writes, r.filter, ""));
  }

  /** What sending an envelope does for a request without a shard ID: its setter is written if and only
      if the request asks for the envelope, once per time it was registered. */
  lemma RequestWritten(regs: seq<Registration>, req: Request, setter: nat, appID: string, event: EventType, writes: seq<Registration>)
    requires Delivered(regs, appID, FilterTypeOf(event), writes) && req.shardID == ""
    ensures var r := RegistrationOf(req, setter);
            multiset(writes)[r] == if Wants(req, appID, event) then multiset(regs)[r] else 0
  {
    RegistrationWants(req, setter, appID, event);
    UnshardedWrittenOnce(regs, appID, FilterTypeOf(event), writes, RegistrationOf(req, setter));
  }

  lemma ServedMembers(bucket: seq<nat>, shard: string, written: seq<nat>, setter: nat)
    requires Served(bucket, shard, written) && setter in written
    ensures setter in bucket
  {
  }

  /** Every write is on behalf of a matching registration. */
  lemma WritesAreRegistered(regs: seq<Registration>, appID: string, envelopeType: FilterType, writes: seq<Registration>, w: Registration)
    requires Delivered(regs, appID, envelopeType, writes) && w in writes
    ensures w in regs && Matching(w.filter, appID, envelopeType)
  {
    var bucket, written := Bucket(regs, w.filter, w.shard), Bucket(writes, w.filter, w.shard);
    InBucket(writes, w);
    InBucket(regs, w);
    assert written != [];
    assert Matching(w.filter, appID, envelopeType) && Served(bucket, w.shard, written);
    ServedMembers(bucket, w.shard, written, w.setter);
  }

  /** No two matching registrations share a filter and a shard ID. */
  ghost predicate NoMatchingGroup(regs: seq<Registration>, appID: string, envelopeType: FilterType) {
    forall q, r ::
      (q in regs && r in regs && Matching(r.filter, appID, envelopeType)
       && q.filter == r.filter && q.shard == r.shard && r.shard != "")
      ==> q == r
  }

  /** All matching registrations are written if and only if none of them share a shard. */
  lemma AllWrittenExactly(regs: seq<Registration>, appID: string, envelopeType: FilterType, writes: seq<Registration>)
    requires Delivered(regs, appID, envelopeType, writes)
    ensures (forall r :: r in regs && Matching(r.filter, appID, envelopeType) ==> r in writes)
       <==> NoMatchingGroup(regs, appID, envelopeType)
  {
    if NoMatchingGroup(regs, appID, envelopeType) {
      forall r | r in regs && Matching(r.filter, appID, envelopeType) ensures r in writes {
        GroupWritten(regs, appID, envelopeType, writes, r);
      }
    } else {
      var q, r :| q in regs && r in regs && Matching(r.filter, appID, envelopeType)
                  && q.filter == r.filter && q.shard == r.shard && r.shard != "" && q != r;
      OneOfTwo(regs, appID, envelopeType, writes, q, r);
    }
  }

  lemma GroupWritten(regs: seq<Registration>, appID: string, envelopeType: FilterType, writes: seq<Registration>, r: Registration)
    requires Delivered(regs, appID, envelopeType, writes) && NoMatchingGroup(regs, appID, envelopeType)
    requires r in regs && Matching(r.filter, appID, envelopeType)
    ensures r in writes
  {
    var bucket, written := Bucket(regs, r.filter, r.shard), Bucket(writes, r.filter, r.shard);
    InBucket(regs, r);
    InBucket(writes, r);
    assert Served(bucket, r.shard, written);
    if r.shard != "" {
      InBucket(regs, r.(setter := written[0]));
    }
  }

  lemma OneOfTwo(regs: seq<Registration>, appID: string, envelopeType: FilterType, writes: seq<Registration>, q: Registration, r: Registration)
    requires Delivered(regs, appID, envelopeType, writes)
    requires q in regs && r in regs && Matching(r.filter, appID, envelopeType)
    requires q.filter == r.filter && q.shard == r.shard && r.shard != "" && q != r
    ensures !(q in writes && r in writes)
  {
    var bucket, written := Bucket(regs, r.filter, r.shard), Bucket(writes, r.filter, r.shard);
    InBucket(regs, r);
    InBucket(writes, q);
    InBucket(writes, r);
    assert Served(bucket, r.shard, written);
  }

  lemma InBucket(regs: seq<Registration>, r: Registration)
    ensures r in regs <==> r.setter in Bucket(regs, r.filter, r.shard)
  {
    BucketCounts(regs, r);
    assert r in regs <==> r in multiset(regs);
    assert r.setter in Bucket(regs, r.filter, r.shard) <==> r.setter in multiset(Bucket(regs, r.filter, r.shard));
  }

  /** The writes after one more filter, or one more shard of it, has been handled. */
  ghost predicate Handled(regs: seq<Registration>, filters: set<Filter>, writes: seq<Registration>) {
    forall f, shard ::
      if f in filters then Served(Bucket(regs, f, shard), shard, Bucket(writes, f, shard))
      else Bucket(writes, f, shard) == []
  }

  /** Other filters are as before, and of this one all shards but those left have been served. */
  ghost predicate Partly(regs: seq<Registration>, f: Filter, left: set<string>, before: seq<Registration>, writes: seq<Registration>) {
    && (forall g, shard :: g != f ==> Bucket(writes, g, shard) == Bucket(before, g, shard))
    && (forall id :: if id in left then Bucket(writes, f, id) == [] else Served(Bucket(regs, f, id), id, Bucket(writes, f, id)))
  }

  lemma PartlyStart(regs: seq<Registration>, done: set<Filter>, f: Filter, left: set<string>, before: seq<Registration>)
    requires f !in done && Handled(regs, done, before)
    requires forall id :: id !in left ==> Bucket(regs, f, id) == []
    ensures Partly(regs, f, left, before, before)
  {
  }

  lemma PartlyStep(regs: seq<Registration>, f: Filter, left: set<string>, before: seq<Registration>, writes: seq<Registration>,
                   id: string, written: seq<nat>, writes': seq<Registration>)
    requires Partly(regs, f, left, before, writes) && id in left
    requires Served(Bucket(regs, f, id), id, written)
    requires Bucket(writes', f, id) == Bucket(writes, f, id) + written
    requires forall g, shard :: g != f || shard != id ==> Bucket(writes', g, shard) == Bucket(writes, g, shard)
    ensures Partly(regs, f, left - {id}, before, writes')
  {
    assert Bucket(writes', f, id) == written;
  }

  lemma PartlyEnd(regs: seq<Registration>, done: set<Filter>, f: Filter, before: seq<Registration>, writes: seq<Registration>)
    requires Handled(regs, done, before) && Partly(regs, f, {}, before, writes)
    ensures Handled(regs, done + {f}, writes)
  {
  }

  /** The inner map of a filter is its buckets; a shard it does not mention has none. */
  lemma GroupsAreBuckets(index: Index, regs: seq<Registration>, f: Filter, groups: map<string, seq<nat>>)
    requires Represents(index, regs)
    requires groups == if f in index then index[f] else map[]
    ensures forall id :: id in groups ==> groups[id] == Bucket(regs, f, id) && groups[id] != []
    ensures forall id :: id !in groups ==> Bucket(regs, f, id) == []
  {
    forall id ensures Lookup(index, f, id) == Bucket(regs, f, id) {
    }
  }

  class Router {
    var subscriptions: Index
    ghost var regs: seq<Registration>

    ghost predicate Valid()
      reads this
    {
      Represents(subscriptions, regs)
    }

    constructor ()
      ensures Valid() && regs == []
    {
      subscriptions, regs := map[], [];
    }

    method Register(req: Request, setter: nat)
      requires Valid()
      modifies this
      ensures Valid()
      ensures regs == old(regs) + [RegistrationOf(req, setter)]
    {
      ghost var r := RegistrationOf(req, setter);
      ghost var was := subscriptions;
      InsertRepresents(was, regs, r);
      var f := ConvertFilter(req);
      if f !in subscriptions {
        subscriptions := subscriptions[f := map[]];
      }
      var m := subscriptions[f];
      var setters := if req.shardID in m then m[req.shardID] else [];
      subscriptions := subscriptions[f := m[req.shardID := setters + [setter]]];
      assert subscriptions == Insert(was, r);
      regs := regs + [r];
    }

    /** The returned cleanup; calling it again, or for an unknown registration, changes nothing. */
    method CleanUp(req: Request, setter: nat)
      requires Valid()
      modifies this
      ensures Valid()
      ensures regs == Without(old(regs), RegistrationOf(req, setter))
    {
      var f := ConvertFilter(req);
      var r := RegistrationOf(req, setter);
      var known := if f in subscriptions && req.shardID in subscriptions[f] then subscriptions[f][req.shardID] else [];
      var setters := [];
      for i := 0 to |known|
        invariant setters == Without(known[..i], setter)
      {
        assert known[..i + 1][..i] == known[..i];
        if known[i] != setter {
          setters := setters + [known[i]];
        }
      }
      assert known[..|known|] == known;
      DeleteRepresents(subscriptions, regs, r);
      WithoutMembers(known, setter);
      if |setters| > 0 {
        subscriptions := subscriptions[f := subscriptions[f][req.shardID := setters]];
      } else if f in subscriptions {
        subscriptions := subscriptions[f := subscriptions[f] - {req.shardID}];
        if |subscriptions[f]| == 0 {
          subscriptions := subscriptions - {f};
        }
      }
      assert subscriptions == Delete(old(subscriptions), r);
      regs := Without(regs, r);
    }

    /** Writes one shard group; the random choice is any member. */
    method WriteToShard(f: Filter, id: string, setters: seq<nat>, before: seq<Registration>)
      returns (writes: seq<Registration>, ghost written: seq<nat>)
      requires setters != []
      ensures Served(setters, id, written)
      ensures Bucket(writes, f, id) == Bucket(before, f, id) + written
      ensures forall g, shard :: g != f || shard != id ==> Bucket(writes, g, shard) == Bucket(before, g, shard)
    {
      writes := before;
      if id == "" {
        for i := 0 to |setters|
          invariant Bucket(writes, f, id) == Bucket(before, f, id) + setters[..i]
          invariant forall g, shard :: g != f || shard != id ==> Bucket(writes, g, shard) == Bucket(before, g, shard)
        {
          forall g, shard ensures Bucket(writes + [Registration(f, id, setters[i])], g, shard)
            == Bucket(writes, g, shard) + if f == g && id == shard then [setters[i]] else []
          {
            BucketAppend(writes, Registration(f, id, setters[i]), g, shard);
          }
          writes := writes + [Registration(f, id, setters[i])];
        }
        written := setters;
        assert setters[..|setters|] == setters;
        return;
      }
      var pick :| 0 <= pick < |setters|;
      forall g, shard ensures Bucket(before + [Registration(f, id, setters[pick])], g, shard)
        == Bucket(before, g, shard) + if f == g && id == shard then [setters[pick]] else []
      {
        BucketAppend(before, Registration(f, id, setters[pick]), g, shard);
      }
      writes := before + [Registration(f, id, setters[pick])];
      written := [setters[pick]];
    }

    /** Writes every shard group of one filter, in whatever order the map yields them. */
    method SendToFilter(f: Filter, ghost done: set<Filter>, before: seq<Registration>) returns (writes: seq<Registration>)
      requires Valid() && f !in done && Handled(regs, done, before)
      ensures Handled(regs, done + {f}, writes)
    {
      writes := before;
      var groups: map<string, seq<nat>> := if f in subscriptions then subscriptions[f] else map[];
      GroupsAreBuckets(subscriptions, regs, f, groups);
      var left := groups.Keys;
      PartlyStart(regs, done, f, left, before);
      while left != {}
        invariant left <= groups.Keys
        invariant Partly(regs, f, left, before, writes)
        decreases left
      {
        var id :| id in left;
        ghost var written, was := [], writes;
        writes, written := WriteToShard(f, id, groups[id], writes);
        PartlyStep(regs, f, left, before, was, id, written, writes);
        left := left - {id};
      }
      PartlyEnd(regs, done, f, before, writes);
    }

    /** SendTo: `data` is the marshalled envelope, or None when marshalling failed. */
    method SendTo(appID: string, event: EventType, data: Option<seq<bv8>>) returns (writes: seq<Registration>)
      requires Valid()
      ensures data.Some? ==> Delivered(regs, appID, FilterTypeOf(event), writes)
      ensures data.None? ==> writes == []
    {
      writes := [];
      if data.None? {
        return;
      }
      var envelopeType := FilterTypeOf(event);
      var filters := [Filter("", envelopeType), Filter("", NoType)];
      if appID != "" {
        filters := filters + [Filter(appID, NoType), Filter(appID, envelopeType)];
      }
      assert filters == TypedFilters(appID, envelopeType);
      TypedFiltersMatch(appID, envelopeType);
      for i := 0 to |filters|
        invariant Handled(regs, (set f | f in filters[..i]), writes)
      {
        ghost var done, more := filters[..i], filters[..i + 1];
        assert (set f | f in more) == (set f | f in done) + {filters[i]};
        writes := SendToFilter(filters[i], (set f | f in done), writes);
      }
      assert filters[..|filters|] == filters;
    }
  }
}
