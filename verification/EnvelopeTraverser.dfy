/** The generated index of the v2 router: how a filter is compiled to a path, how an envelope is
    walked, and what a path means. CRC-64 is a parameter, so nothing depends on its collisions. */
module EnvelopeTraverser {
  import opened Base

  type Crc = string -> Word

  // ---- Envelopes and filters ----

  datatype EventBody = EventBody(title: string, body: string)

  /** The oneof of an envelope; a set member may hold a nil pointer (None). Of a gauge only the
      names of its metrics matter here. */
  datatype Message =
    | NoMessage
    | Log(log: bool)
    | Counter(name: Option<string>)
    | Gauge(metrics: Option<set<string>>)
    | Timer(timer: bool)
    | Event(event: Option<EventBody>)

  datatype Envelope = Envelope(sourceId: string, message: Message)

  datatype Presence = Present

  datatype CounterFilter = CounterFilter(name: Option<string>)

  datatype GaugeFilter = GaugeFilter(metrics: Option<seq<string>>)

  datatype EventFilter = EventFilter(title: Option<string>, body: Option<string>)

  /** Each message field: unset, or set with an inner filter that may be nil. */
  datatype EnvelopeFilter = EnvelopeFilter(
    sourceId: Option<string>,
    log: Option<Option<Presence>>,
    counter: Option<Option<CounterFilter>>,
    gauge: Option<Option<GaugeFilter>>,
    timer: Option<Option<Presence>>,
    event: Option<Option<EventFilter>>)

  // ---- Hashes ----

  /** 0 is reserved as the wildcard. */
  function HashUint64(data: Word): (r: Word)
    ensures r != 0
    ensures data != 0 ==> r == data
    ensures data == 0 ==> r == 1
  {
    if data == 0 then 1 else data
  }

  function Hash(crc: Crc, s: string): (r: Word)
    ensures r != 0
    ensures r == crc(s) || (crc(s) == 0 && r == 1)
  {
    HashUint64(crc(s))
  }

  /** The wrapped sum of the hashes of a list of names. */
  function SumNames(crc: Crc, names: seq<string>): Word {
    if names == [] then 0
    else AddWord(SumNames(crc, names[..|names| - 1]), Hash(crc, names[|names| - 1]))
  }

  /** The wrapped sum over the keys of a map, in some order. */
  ghost function SumKeys(crc: Crc, keys: set<string>): Word {
    if keys == {} then 0
    else
      var k :| k in keys;
      AddWord(SumKeys(crc, keys - {k}), Hash(crc, k))
  }

  /** The order does not matter. */
  lemma {:induction false} SumKeysAnyOrder(crc: Crc, keys: set<string>, k: string)
    requires k in keys
    ensures SumKeys(crc, keys) == AddWord(SumKeys(crc, keys - {k}), Hash(crc, k))
    decreases |keys|
  {
    var j :| j in keys && SumKeys(crc, keys) == AddWord(SumKeys(crc, keys - {j}), Hash(crc, j));
    if j != k {
      SumKeysAnyOrder(crc, keys - {j}, k);
      SumKeysAnyOrder(crc, keys - {k}, j);
      assert keys - {j} - {k} == keys - {k} - {j};
      AddSwap(SumKeys(crc, keys - {j} - {k}), Hash(crc, k), Hash(crc, j));
    }
  }

  lemma AddSwap(a: Word, b: Word, c: Word)
    ensures AddWord(AddWord(a, b), c) == AddWord(AddWord(a, c), b)
  {
    assert AddWord(a, b) == if a + b < WORD then a + b else a + b - WORD;
    assert AddWord(a, c) == if a + c < WORD then a + c else a + c - WORD;
  }

  lemma {:induction false} SumNamesOfSet(crc: Crc, names: seq<string>)
    requires Distinct(names)
    ensures SumNames(crc, names) == SumKeys(crc, set n | n in names)
  {
    if names == [] {
      assert (set n | n in names) == {};
    } else {
      var front, last := names[..|names| - 1], names[|names| - 1];
      assert names == front + [last];
      SumNamesOfSet(crc, front);
      var all := set n | n in names;
      SumKeysAnyOrder(crc, all, last);
      assert last !in front;
      assert all - {last} == set n | n in front;
    }
  }

  /** The summing loop over a gauge's metrics, in whatever order the map yields its keys. */
  method SumMetrics(crc: Crc, metrics: set<string>) returns (total: Word)
    ensures total == SumKeys(crc, metrics)
  {
    total := 0;
    var left := metrics;
    while left != {}
      invariant left <= metrics
      invariant total == SumKeys(crc, metrics - left)
      decreases left
    {
      var x :| x in left;
      SumKeysAnyOrder(crc, metrics - (left - {x}), x);
      assert metrics - (left - {x}) - {x} == metrics - left;
      total := AddWord(total, Hash(crc, x));
      left := left - {x};
    }
    assert metrics - left == metrics;
  }

  // ---- Compiling a filter ----

  function Field(crc: Crc, value: Option<string>): Word {
    if value.Some? then Hash(crc, value.value) else 0
  }

  function CounterPath(crc: Crc, f: Option<Option<CounterFilter>>): seq<Word> {
    match f
    case None => []
    case Some(None) => [1]
    case Some(Some(c)) => [1, 1, Field(crc, c.name)]
  }

  function EventPath(crc: Crc, f: Option<Option<EventFilter>>): seq<Word> {
    match f
    case None => []
    case Some(None) => [2]
    case Some(Some(e)) => [2, 1, Field(crc, e.title), Field(crc, e.body)]
  }

  function MetricsField(crc: Crc, names: Option<seq<string>>): Word {
    if names.Some? then HashUint64(SumNames(crc, names.value)) else 0
  }

  function GaugePath(crc: Crc, f: Option<Option<GaugeFilter>>): seq<Word> {
    match f
    case None => []
    case Some(None) => [3]
    case Some(Some(g)) => [3, 1, MetricsField(crc, g.metrics)]
  }

  function PresencePath(code: Word, f: Option<Option<Presence>>): seq<Word> {
    match f
    case None => []
    case Some(None) => [code]
    case Some(Some(_)) => [code, 1]
  }

  function One<T>(o: Option<T>): nat {
    if o.Some? then 1 else 0
  }

  function MessageCount(f: EnvelopeFilter): nat {
    One(f.log) + One(f.counter) + One(f.gauge) + One(f.timer) + One(f.event)
  }

  function FullPath(crc: Crc, f: EnvelopeFilter): seq<Word> {
    [Field(crc, f.sourceId)] + CounterPath(crc, f.counter) + EventPath(crc, f.event) + GaugePath(crc, f.gauge)
    + PresencePath(4, f.log) + PresencePath(5, f.timer)
  }

  /** Trailing zeros go, except the first element. */
  function Trim(path: seq<Word>): seq<Word> {
    if |path| > 1 && path[|path| - 1] == 0 then Trim(path[..|path| - 1]) else path
  }

  /** The compiled path of a filter; a nil filter has the empty path, and more than one message
      panics (None). */
  function PathOf(crc: Crc, f: Option<EnvelopeFilter>): Option<seq<Word>> {
    match f
    case None => Some([])
    case Some(f) => if MessageCount(f) > 1 then None else Some(Trim(FullPath(crc, f)))
  }

  method CreateGaugePath(crc: Crc, f: Option<Option<GaugeFilter>>) returns (path: seq<Word>)
    ensures path == GaugePath(crc, f)
  {
    if f.None? {
      return [];
    }
    path := [3];
    if f.value.Some? {
      path := path + [1];
      var metrics := f.value.value.metrics;
      if metrics.Some? {
        var total: Word := 0;
        for i := 0 to |metrics.value|
          invariant total == SumNames(crc, metrics.value[..i])
        {
          assert metrics.value[..i + 1][..i] == metrics.value[..i];
          total := AddWord(total, Hash(crc, metrics.value[i]));
        }
        assert metrics.value[..|metrics.value|] == metrics.value;
        path := path + [HashUint64(total)];
      } else {
        path := path + [0];
      }
    }
  }

  /** envelopeTraverserCreatePath: count the messages, append the parts, trim in a loop. */
  method CreatePath(crc: Crc, filter: Option<EnvelopeFilter>) returns (r: Option<seq<Word>>)
    ensures r == PathOf(crc, filter)
  {
    if filter.None? {
      return Some([]);
    }
    var f := filter.value;
    var count := 0;
    if f.log.Some? {
      count := count + 1;
    }
    if f.counter.Some? {
      count := count + 1;
    }
    if f.gauge.Some? {
      count := count + 1;
    }
    if f.timer.Some? {
      count := count + 1;
    }
    if f.event.Some? {
      count := count + 1;
    }
    if count > 1 {
      return None;
    }
    var path: seq<Word> := [if f.sourceId.Some? then Hash(crc, f.sourceId.value) else 0];
    path := path + CounterPath(crc, f.counter);
    path := path + EventPath(crc, f.event);
    var gauge := CreateGaugePath(crc, f.gauge);
    path := path + gauge;
    path := path + PresencePath(4, f.log);
    path := path + PresencePath(5, f.timer);
    var i := |path| - 1;
    while i >= 1
      invariant |path| == i + 1 >= 1
      invariant Trim(path) == Trim(FullPath(crc, f))
      decreases i
    {
      if path[i] != 0 {
        break;
      }
      path := path[..i];
      i := i - 1;
    }
    return Some(path);
  }

  // ---- Walking an envelope ----

  datatype Traverser =
    | SourceId | MessageType | LogT | CounterT | CounterName | GaugeT | GaugeMetrics | TimerT
    | EventT | EventTitle | EventBodyT | Done

  /** What `paths(idx)` answers: no more branches, or a child and where to go on from it. */
  datatype Branch = Stop | Branch(path: Word, next: Traverser)

  /** The type assertions of a traverser hold on this envelope. */
  predicate Fits(t: Traverser, e: Envelope) {
    match t
    case LogT => e.message.Log?
    case CounterT => e.message.Counter?
    case CounterName => e.message.Counter? && e.message.name.Some?
    case GaugeT => e.message.Gauge?
    case GaugeMetrics => e.message.Gauge? && e.message.metrics.Some?
    case TimerT => e.message.Timer?
    case EventT => e.message.Event?
    case EventTitle => e.message.Event? && e.message.event.Some?
    case EventBodyT => e.message.Event? && e.message.event.Some?
    case _ => true
  }

  function Rank(t: Traverser): nat {
    match t
    case SourceId => 5
    case MessageType => 4
    case EventT => 3
    case EventTitle => 2
    case Done => 0
    case EventBodyT => 1
    case CounterName => 1
    case GaugeMetrics => 1
    case _ => 3
  }

  function MessageBranch(m: Message): Branch {
    match m
    case Log(_) => Branch(4, LogT)
    case Counter(_) => Branch(1, CounterT)
    case Gauge(_) => Branch(3, GaugeT)
    case Timer(_) => Branch(5, TimerT)
    case Event(_) => Branch(2, EventT)
    case NoMessage => Branch(0, Done)
  }

  function Inner(present: bool, next: Traverser): Branch {
    if present then Branch(1, next) else Branch(0, Done)
  }

  /** The two children of a field: the wildcard, then the hash of the envelope's value. */
  function Two(idx: nat, key: Word, next: Traverser): Branch {
    if idx == 0 then Branch(0, next) else if idx == 1 then Branch(key, next) else Stop
  }

  function OnlyFirst(idx: nat, b: Branch): Branch {
    if idx == 0 then b else Stop
  }

  /** The traversers: child number idx of an envelope at this point of the walk. */
  ghost function Paths(crc: Crc, t: Traverser, idx: nat, e: Envelope): (b: Branch)
    requires Fits(t, e)
    ensures b.Branch? ==> idx < 2 && Fits(b.next, e) && Rank(b.next) < Rank(t)
  {
    match t
    case SourceId => Two(idx, Hash(crc, e.sourceId), MessageType)
    case MessageType => OnlyFirst(idx, MessageBranch(e.message))
    case LogT => OnlyFirst(idx, Inner(e.message.log, Done))
    case CounterT => OnlyFirst(idx, Inner(e.message.name.Some?, CounterName))
    case CounterName => Two(idx, Hash(crc, e.message.name.value), Done)
    case GaugeT => OnlyFirst(idx, Inner(e.message.metrics.Some?, GaugeMetrics))
    case GaugeMetrics => Two(idx, HashUint64(SumKeys(crc, e.message.metrics.value)), Done)
    case TimerT => OnlyFirst(idx, Inner(e.message.timer, Done))
    case EventT => OnlyFirst(idx, Inner(e.message.event.Some?, EventTitle))
    case EventTitle => Two(idx, Hash(crc, e.message.event.value.title), EventBodyT)
    case EventBodyT => Two(idx, Hash(crc, e.message.event.value.body), Done)
    case Done => Stop
  }

  /** How often the tree walk reaches the node at `path` below a node visited with traverser t:
      at the node itself, then in each child paths(0), paths(1), ... until there is none. */
  ghost function Visits(crc: Crc, t: Traverser, e: Envelope, path: seq<Word>): nat
    requires Fits(t, e)
    decreases |path|, 3
  {
    if path == [] then 1 else VisitsFrom(crc, t, e, path, 0)
  }

  ghost function VisitsFrom(crc: Crc, t: Traverser, e: Envelope, path: seq<Word>, idx: nat): nat
    requires Fits(t, e) && path != [] && idx <= 2
    decreases |path|, 2 - idx
  {
    match Paths(crc, t, idx, e)
    case Stop => 0
    case Branch(p, next) =>
      (if p == path[0] then Visits(crc, next, e, path[1..]) else 0) + VisitsFrom(crc, t, e, path, idx + 1)
  }

  // ---- What a path means ----

  ghost predicate FieldMatches(crc: Crc, wanted: Option<string>, value: string) {
    wanted.Some? ==> Hash(crc, wanted.value) == Hash(crc, value)
  }

  ghost predicate MetricsMatch(crc: Crc, names: Option<seq<string>>, keys: set<string>) {
    names.Some? ==> HashUint64(SumNames(crc, names.value)) == HashUint64(SumKeys(crc, keys))
  }

  /** The meaning of a filter, field by field: every field that is set agrees with the envelope's,
      up to the hash; an inner filter needs the inner message to be there. */
  ghost predicate Matches(crc: Crc, f: EnvelopeFilter, e: Envelope) {
    && FieldMatches(crc, f.sourceId, e.sourceId)
    && (f.log.Some? ==> e.message.Log? && (f.log.value.Some? ==> e.message.log))
    && (f.timer.Some? ==> e.message.Timer? && (f.timer.value.Some? ==> e.message.timer))
    && (f.counter.Some? ==> e.message.Counter? && (f.counter.value.Some? ==>
          e.message.name.Some? && FieldMatches(crc, f.counter.value.value.name, e.message.name.value)))
    && (f.gauge.Some? ==> e.message.Gauge? && (f.gauge.value.Some? ==>
          e.message.metrics.Some? && MetricsMatch(crc, f.gauge.value.value.metrics, e.message.metrics.value)))
    && (f.event.Some? ==> e.message.Event? && (f.event.value.Some? ==>
          && e.message.event.Some?
          && FieldMatches(crc, f.event.value.value.title, e.message.event.value.title)
          && FieldMatches(crc, f.event.value.value.body, e.message.event.value.body)))
  }

  /** One level of the walk through a field: as hashes are never 0, at most one child fits. */
  lemma VisitField(crc: Crc, t: Traverser, e: Envelope, key: Word, next: Traverser, path: seq<Word>)
    requires Fits(t, e) && Fits(next, e) && key != 0 && path != []
    requires forall idx: nat :: Paths(crc, t, idx, e) == Two(idx, key, next)
    ensures Visits(crc, t, e, path) == if path[0] == 0 || path[0] == key then Visits(crc, next, e, path[1..]) else 0
  {
    assert VisitsFrom(crc, t, e, path, 2) == 0;
    assert VisitsFrom(crc, t, e, path, 1) == if key == path[0] then Visits(crc, next, e, path[1..]) else 0;
    assert Visits(crc, t, e, path) == VisitsFrom(crc, t, e, path, 0);
  }

  /** One level of the walk with a single child. */
  lemma VisitOnly(crc: Crc, t: Traverser, e: Envelope, b: Branch, path: seq<Word>)
    requires Fits(t, e) && b.Branch? && Fits(b.next, e) && path != []
    requires forall idx: nat :: Paths(crc, t, idx, e) == OnlyFirst(idx, b)
    ensures Visits(crc, t, e, path) == if path[0] == b.path then Visits(crc, b.next, e, path[1..]) else 0
  {
    assert VisitsFrom(crc, t, e, path, 1) == 0;
    assert Visits(crc, t, e, path) == VisitsFrom(crc, t, e, path, 0);
  }

  /** What the walk below the source does with a message part of a path. */
  lemma VisitMessage(crc: Crc, e: Envelope, path: seq<Word>)
    requires path != []
    ensures var b := MessageBranch(e.message);
            Visits(crc, MessageType, e, path) == if path[0] == b.path then Visits(crc, b.next, e, path[1..]) else 0
  {
    VisitOnly(crc, MessageType, e, MessageBranch(e.message), path);
  }

  lemma VisitSource(crc: Crc, e: Envelope, source: Option<string>, rest: seq<Word>)
    ensures Visits(crc, SourceId, e, [Field(crc, source)] + rest)
         == if FieldMatches(crc, source, e.sourceId) then Visits(crc, MessageType, e, rest) else 0
  {
    var path := [Field(crc, source)] + rest;
    assert path[1..] == rest;
    VisitField(crc, SourceId, e, Hash(crc, e.sourceId), MessageType, path);
  }

  lemma TrimZero(path: seq<Word>)
    requires path != []
    ensures Trim(path + [0]) == Trim(path)
  {
    assert (path + [0])[..|path|] == path;
  }

  lemma PresenceMeaning(crc: Crc, f: EnvelopeFilter, e: Envelope)
    requires MessageCount(f) == 1 && (f.log.Some? || f.timer.Some?)
    ensures Visits(crc, SourceId, e, Trim(FullPath(crc, f))) == if Matches(crc, f, e) then 1 else 0
  {
    var code: Word := if f.log.Some? then 4 else 5;
    var inner := if f.log.Some? then f.log.value else f.timer.value;
    var rest := PresencePath(code, Some(inner));
    assert FullPath(crc, f) == [Field(crc, f.sourceId)] + rest;
    VisitSource(crc, e, f.sourceId, rest);
    VisitMessage(crc, e, rest);
    if inner.Some? && MessageBranch(e.message).path == code {
      assert rest[1..] == [1];
      if e.message.Log? {
        VisitOnly(crc, LogT, e, Inner(e.message.log, Done), [1]);
      } else {
        VisitOnly(crc, TimerT, e, Inner(e.message.timer, Done), [1]);
      }
    }
  }

  lemma CounterMeaning(crc: Crc, f: EnvelopeFilter, e: Envelope)
    requires MessageCount(f) == 1 && f.counter.Some?
    ensures Visits(crc, SourceId, e, Trim(FullPath(crc, f))) == if Matches(crc, f, e) then 1 else 0
  {
    var source := [Field(crc, f.sourceId)];
    assert FullPath(crc, f) == source + CounterPath(crc, f.counter);
    var rest: seq<Word> := [1];
    if f.counter.value.Some? {
      var name := Field(crc, f.counter.value.value.name);
      rest := if name == 0 then [1, 1] else [1, 1, name];
      TrimZero(source + [1, 1]);
      assert source + [1, 1] + [name] == source + [1, 1, name];
    }
    assert Trim(FullPath(crc, f)) == source + rest;
    VisitSource(crc, e, f.sourceId, rest);
    VisitMessage(crc, e, rest);
    if rest[1..] != [] && e.message.Counter? {
      VisitOnly(crc, CounterT, e, Inner(e.message.name.Some?, CounterName), rest[1..]);
      if rest[1..][1..] != [] && e.message.name.Some? {
        VisitField(crc, CounterName, e, Hash(crc, e.message.name.value), Done, rest[1..][1..]);
      }
    }
  }

  lemma GaugeMeaning(crc: Crc, f: EnvelopeFilter, e: Envelope)
    requires MessageCount(f) == 1 && f.gauge.Some?
    ensures Visits(crc, SourceId, e, Trim(FullPath(crc, f))) == if Matches(crc, f, e) then 1 else 0
  {
    var source := [Field(crc, f.sourceId)];
    assert FullPath(crc, f) == source + GaugePath(crc, f.gauge);
    var rest: seq<Word> := [3];
    if f.gauge.value.Some? {
      var total := MetricsField(crc, f.gauge.value.value.metrics);
      rest := if total == 0 then [3, 1] else [3, 1, total];
      TrimZero(source + [3, 1]);
      assert source + [3, 1] + [total] == source + [3, 1, total];
    }
    assert Trim(FullPath(crc, f)) == source + rest;
    VisitSource(crc, e, f.sourceId, rest);
    VisitMessage(crc, e, rest);
    if rest[1..] != [] && e.message.Gauge? {
      VisitOnly(crc, GaugeT, e, Inner(e.message.metrics.Some?, GaugeMetrics), rest[1..]);
      if rest[1..][1..] != [] && e.message.metrics.Some? {
        VisitField(crc, GaugeMetrics, e, HashUint64(SumKeys(crc, e.message.metrics.value)), Done, rest[1..][1..]);
      }
    }
  }

  /** The message part of an event path after trimming. */
  function EventRest(title: Word, body: Word): seq<Word> {
    if body != 0 then [2, 1, title, body] else if title != 0 then [2, 1, title] else [2, 1]
  }

  lemma TrimEvent(source: Word, title: Word, body: Word)
    ensures Trim([source, 2, 1, title, body]) == [source] + EventRest(title, body)
  {
    TrimZero([source, 2, 1]);
    TrimZero([source, 2, 1, title]);
    assert [source, 2, 1] + [title] == [source, 2, 1, title];
    assert [source, 2, 1, title] + [body] == [source, 2, 1, title, body];
  }

  lemma VisitEvent(crc: Crc, e: Envelope, f: EventFilter)
    requires e.message.Event? && e.message.event.Some?
    ensures var b := e.message.event.value;
            Visits(crc, EventTitle, e, EventRest(Field(crc, f.title), Field(crc, f.body))[2..])
            == if FieldMatches(crc, f.title, b.title) && FieldMatches(crc, f.body, b.body) then 1 else 0
  {
    var b := e.message.event.value;
    var rest := EventRest(Field(crc, f.title), Field(crc, f.body))[2..];
    if rest != [] {
      VisitField(crc, EventTitle, e, Hash(crc, b.title), EventBodyT, rest);
      if rest[1..] != [] {
        VisitField(crc, EventBodyT, e, Hash(crc, b.body), Done, rest[1..]);
      }
    }
  }

  lemma EventMeaning(crc: Crc, f: EnvelopeFilter, e: Envelope)
    requires MessageCount(f) == 1 && f.event.Some?
    ensures Visits(crc, SourceId, e, Trim(FullPath(crc, f))) == if Matches(crc, f, e) then 1 else 0
  {
    var source := Field(crc, f.sourceId);
    var rest: seq<Word> := [2];
    if f.event.value.None? {
      assert FullPath(crc, f) == [source, 2];
    } else {
      var title, body := Field(crc, f.event.value.value.title), Field(crc, f.event.value.value.body);
      rest := EventRest(title, body);
      assert FullPath(crc, f) == [source, 2, 1, title, body];
      TrimEvent(source, title, body);
    }
    assert Trim(FullPath(crc, f)) == [source] + rest;
    VisitSource(crc, e, f.sourceId, rest);
    VisitMessage(crc, e, rest);
    if rest[1..] != [] && e.message.Event? {
      VisitOnly(crc, EventT, e, Inner(e.message.event.Some?, EventTitle), rest[1..]);
      if e.message.event.Some? {
        assert rest[1..][1..] == rest[2..];
        VisitEvent(crc, e, f.event.value.value);
      }
    }
  }

  /** The compiler panics exactly when two of the five messages are set. */
  lemma PanicsExactly(crc: Crc, f: EnvelopeFilter)
    ensures PathOf(crc, Some(f)).None? <==>
      || (f.log.Some? && (f.counter.Some? || f.gauge.Some? || f.timer.Some? || f.event.Some?))
      || (f.counter.Some? && (f.gauge.Some? || f.timer.Some? || f.event.Some?))
      || (f.gauge.Some? && (f.timer.Some? || f.event.Some?))
      || (f.timer.Some? && f.event.Some?)
  {
    assert MessageCount(f) > 1 <==>
      || (f.log.Some? && (f.counter.Some? || f.gauge.Some? || f.timer.Some? || f.event.Some?))
      || (f.counter.Some? && (f.gauge.Some? || f.timer.Some? || f.event.Some?))
      || (f.gauge.Some? && (f.timer.Some? || f.event.Some?))
      || (f.timer.Some? && f.event.Some?);
  }

  lemma {:induction false} TrimEnds(path: seq<Word>)
    requires path != []
    ensures Trim(path) != [] && Trim(path) <= path
    ensures |Trim(path)| > 1 ==> Trim(path)[|Trim(path)| - 1] != 0
    ensures forall k :: |Trim(path)| <= k < |path| ==> path[k] == 0
  {
    if |path| > 1 && path[|path| - 1] == 0 {
      TrimEnds(path[..|path| - 1]);
    }
  }

  /** A compiled path starts with the source and has no trailing wildcard behind it; a nil filter has
      the empty path, which every walk visits. */
  lemma PathsAreTrimmed(crc: Crc, f: EnvelopeFilter, e: Envelope)
    requires PathOf(crc, Some(f)).Some?
    ensures var path := PathOf(crc, Some(f)).value;
            path != [] && path[0] == Field(crc, f.sourceId) && (|path| > 1 ==> path[|path| - 1] != 0)
    ensures PathOf(crc, None) == Some([]) && Visits(crc, SourceId, e, []) == 1
  {
    TrimEnds(FullPath(crc, f));
  }

  /** The compiler and the interpreter agree: for every filter that compiles and every envelope, the
      walk reaches the compiled path exactly once when the filter matches, and never otherwise. */
  lemma PathMeaning(crc: Crc, f: EnvelopeFilter, e: Envelope)
    requires MessageCount(f) <= 1
    ensures PathOf(crc, Some(f)).Some?
    ensures Visits(crc, SourceId, e, PathOf(crc, Some(f)).value) == if Matches(crc, f, e) then 1 else 0
  {
    if f.log.Some? || f.timer.Some? {
      PresenceMeaning(crc, f, e);
    } else if f.counter.Some? {
      CounterMeaning(crc, f, e);
    } else if f.gauge.Some? {
      GaugeMeaning(crc, f, e);
    } else if f.event.Some? {
      EventMeaning(crc, f, e);
    } else {
      assert FullPath(crc, f) == [Field(crc, f.sourceId)] + [];
      VisitSource(crc, e, f.sourceId, []);
    }
  }
}
