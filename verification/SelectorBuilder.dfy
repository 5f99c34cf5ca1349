/** The gateway's query language: query parameters become selectors. Together with the selector
    compiler and the tree walk this gives the meaning of a query, end to end. */
module SelectorBuilder {
  import opened Base
  import opened EnvelopeTraverser
  import opened PubSub

  type Values = map<string, seq<string>>

  datatype QueryError = EmptyQuery | MissingType | CounterNamePresentButEmpty | GaugeNamePresentButEmpty

  const ENVELOPE_TYPES: seq<string> := ["log", "counter", "gauge", "timer", "event"]

  // ---- strings.Split(name, ",") ----

  function Split(name: string): (r: seq<string>)
    ensures |r| >= 1
  {
    if name == "" then [""]
    else
      var r, c := Split(name[..|name| - 1]), name[|name| - 1];
      if c == ',' then r + [""] else r[..|r| - 1] + [r[|r| - 1] + [c]]
  }

  function Join(parts: seq<string>): string
    requires |parts| >= 1
  {
    if |parts| == 1 then parts[0] else Join(parts[..|parts| - 1]) + "," + parts[|parts| - 1]
  }

  /** Splitting loses nothing, and no part has a comma left. */
  lemma {:induction false} SplitJoin(name: string)
    ensures Join(Split(name)) == name
    ensures forall part :: part in Split(name) ==> ',' !in part
  {
    if name != "" {
      var front, c := name[..|name| - 1], name[|name| - 1];
      var r := Split(front);
      SplitJoin(front);
      assert name == front + [c];
      if c == ',' {
        assert (r + [""])[..|r|] == r;
      } else {
        JoinLast(r, c);
        var last := r[|r| - 1];
        assert last in r;
        assert ',' !in last + [c];
      }
    }
  }

  /** A character added to the last part is added to the whole. */
  lemma JoinLast(parts: seq<string>, c: char)
    requires |parts| >= 1
    ensures Join(parts[..|parts| - 1] + [parts[|parts| - 1] + [c]]) == Join(parts) + [c]
  {
    var front, last := parts[..|parts| - 1], parts[|parts| - 1];
    var more := front + [last + [c]];
    assert more[..|more| - 1] == front;
    if |parts| > 1 {
      assert Join(front) + "," + (last + [c]) == (Join(front) + "," + last) + [c];
    }
  }

  // ---- What BuildSelector builds ----

  function CounterSelectors(sid: string, names: seq<string>): seq<Selector> {
    if names == [] then []
    else CounterSelectors(sid, names[..|names| - 1]) + [Selector(sid, CounterSelection(names[|names| - 1]))]
  }

  function GaugeSelectors(sid: string, names: seq<string>): seq<Selector> {
    if names == [] then []
    else GaugeSelectors(sid, names[..|names| - 1]) + [Selector(sid, GaugeSelection(Split(names[|names| - 1])))]
  }

  function ValuesOf(v: Values, key: string): Option<seq<string>> {
    if key in v then Some(v[key]) else None
  }

  function CountersFor(sid: string, names: Option<seq<string>>): seq<Selector> {
    if names.None? then [Selector(sid, CounterSelection(""))] else CounterSelectors(sid, names.value)
  }

  function GaugesFor(sid: string, names: Option<seq<string>>): seq<Selector> {
    if names.None? || names.value == [] then [Selector(sid, GaugeSelection([]))] else GaugeSelectors(sid, names.value)
  }

  function If(condition: bool, selectors: seq<Selector>): seq<Selector> {
    if condition then selectors else []
  }

  /** The selectors of one source ID. */
  function ForSource(v: Values, sid: string): seq<Selector> {
    If("log" in v, [Selector(sid, LogSelection)])
    + If("counter" in v || "counter.name" in v, CountersFor(sid, ValuesOf(v, "counter.name")))
    + If("gauge" in v || "gauge.name" in v, GaugesFor(sid, ValuesOf(v, "gauge.name")))
    + If("timer" in v, [Selector(sid, TimerSelection)])
    + If("event" in v, [Selector(sid, EventSelection)])
  }

  function ForSources(v: Values, sids: seq<string>): seq<Selector> {
    if sids == [] then [] else ForSources(v, sids[..|sids| - 1]) + ForSource(v, sids[|sids| - 1])
  }

  function SourceIds(v: Values): seq<string> {
    if "source_id" in v && v["source_id"] != [] then v["source_id"] else [""]
  }

  predicate ContainsEnvelopeType(v: Values) {
    "counter.name" in v || "gauge.name" in v || exists t :: t in ENVELOPE_TYPES && t in v
  }

  predicate PresentButEmpty(v: Values, key: string) {
    key in v && v[key] == []
  }

  function Built(v: Values): Result<seq<Selector>, QueryError> {
    if |v| == 0 then Err(EmptyQuery)
    else if !ContainsEnvelopeType(v) then Err(MissingType)
    else if PresentButEmpty(v, "counter.name") then Err(CounterNamePresentButEmpty)
    else if PresentButEmpty(v, "gauge.name") then Err(GaugeNamePresentButEmpty)
    else Ok(ForSources(v, SourceIds(v)))
  }

  method AddCounterSelector(selectors: seq<Selector>, sid: string, names: Option<seq<string>>) returns (r: seq<Selector>)
    ensures r == selectors + CountersFor(sid, names)
  {
    if names.None? {
      return selectors + [Selector(sid, CounterSelection(""))];
    }
    r := selectors;
    for i := 0 to |names.value|
      invariant r == selectors + CounterSelectors(sid, names.value[..i])
    {
      assert names.value[..i + 1][..i] == names.value[..i];
      r := r + [Selector(sid, CounterSelection(names.value[i]))];
    }
    assert names.value[..|names.value|] == names.value;
  }

  method AddGaugeSelector(selectors: seq<Selector>, sid: string, names: Option<seq<string>>) returns (r: seq<Selector>)
    ensures r == selectors + GaugesFor(sid, names)
  {
    if names.None? || |names.value| == 0 {
      return selectors + [Selector(sid, GaugeSelection([]))];
    }
    r := selectors;
    for i := 0 to |names.value|
      invariant r == selectors + GaugeSelectors(sid, names.value[..i])
    {
      assert names.value[..i + 1][..i] == names.value[..i];
      r := r + [Selector(sid, GaugeSelection(Split(names.value[i])))];
    }
    assert names.value[..|names.value|] == names.value;
  }

  method HasEnvelopeType(v: Values) returns (r: bool)
    ensures r == ContainsEnvelopeType(v)
  {
    if "counter.name" in v || "gauge.name" in v {
      return true;
    }
    for i := 0 to |ENVELOPE_TYPES|
      invariant forall k :: 0 <= k < i ==> ENVELOPE_TYPES[k] !in v
    {
      if ENVELOPE_TYPES[i] in v {
        return true;
      }
    }
    return false;
  }

  /** BuildSelector: the checks in their order, then the loop over the source IDs. */
  method BuildSelector(v: Values) returns (r: Result<seq<Selector>, QueryError>)
    ensures r == Built(v)
  {
    if |v| == 0 {
      return Err(EmptyQuery);
    }
    var typed := HasEnvelopeType(v);
    if !typed {
      return Err(MissingType);
    }
    if PresentButEmpty(v, "counter.name") {
      return Err(CounterNamePresentButEmpty);
    }
    if PresentButEmpty(v, "gauge.name") {
      return Err(GaugeNamePresentButEmpty);
    }
    var sids := if "source_id" in v then v["source_id"] else [];
    if |sids| == 0 {
      sids := [""];
    }
    var selectors := [];
    for i := 0 to |sids|
      invariant selectors == ForSources(v, sids[..i])
    {
      assert sids[..i + 1][..i] == sids[..i];
      selectors := AddForSource(v, sids[i], selectors);
    }
    assert sids[..|sids|] == sids;
    return Ok(selectors);
  }

  /** The body of the loop: one selector or list of selectors per requested type. */
  method AddForSource(v: Values, sid: string, before: seq<Selector>) returns (selectors: seq<Selector>)
    ensures selectors == before + ForSource(v, sid)
  {
    ghost var added := If("log" in v, [Selector(sid, LogSelection)]);
    selectors := before;
    if "log" in v {
      selectors := selectors + [Selector(sid, LogSelection)];
    }
    assert selectors == before + added;
    ghost var counters := If("counter" in v || "counter.name" in v, CountersFor(sid, ValuesOf(v, "counter.name")));
    if "counter" in v || "counter.name" in v {
      selectors := AddCounterSelector(selectors, sid, ValuesOf(v, "counter.name"));
    }
    Regroup(before, added, counters);
    added := added + counters;
    ghost var gauges := If("gauge" in v || "gauge.name" in v, GaugesFor(sid, ValuesOf(v, "gauge.name")));
    if "gauge" in v || "gauge.name" in v {
      selectors := AddGaugeSelector(selectors, sid, ValuesOf(v, "gauge.name"));
    }
    Regroup(before, added, gauges);
    added := added + gauges;
    if "timer" in v {
      selectors := selectors + [Selector(sid, TimerSelection)];
    }
    Regroup(before, added, [Selector(sid, TimerSelection)]);
    added := added + If("timer" in v, [Selector(sid, TimerSelection)]);
    if "event" in v {
      selectors := selectors + [Selector(sid, EventSelection)];
    }
    Regroup(before, added, [Selector(sid, EventSelection)]);
  }

  lemma Regroup(a: seq<Selector>, b: seq<Selector>, c: seq<Selector>)
    ensures a + b + c == a + (b + c)
    ensures a + b + [] == a + b && b + [] == b
  {
  }

  // ---- What a query means ----

  /** One counter name of the query: the empty name asks for every counter. */
  ghost predicate CounterNamed(crc: Crc, wanted: string, name: Option<string>) {
    wanted == "" || (name.Some? && Hash(crc, wanted) == Hash(crc, name.value))
  }

  /** One comma-separated list of gauge names: exactly these metrics, up to the sum of hashes. */
  ghost predicate GaugeNamed(crc: Crc, wanted: string, metrics: Option<set<string>>) {
    metrics.Some? && HashUint64(SumNames(crc, Split(wanted))) == HashUint64(SumKeys(crc, metrics.value))
  }

  /** The query asks for envelopes of this type and, where it lists names, of one of these names. */
  ghost predicate Requested(crc: Crc, v: Values, m: Message) {
    match m
    case NoMessage => false
    case Log(_) => "log" in v
    case Timer(_) => "timer" in v
    case Event(_) => "event" in v
    case Counter(name) =>
      if "counter.name" in v then exists n :: n in v["counter.name"] && CounterNamed(crc, n, name) else "counter" in v
    case Gauge(metrics) =>
      if "gauge.name" in v then exists n :: n in v["gauge.name"] && GaugeNamed(crc, n, metrics) else "gauge" in v
  }

  /** No source ID is given, or some given one is empty or the envelope's. */
  ghost predicate SourceRequested(v: Values, e: Envelope) {
    "source_id" !in v || v["source_id"] == [] || exists sid :: sid in v["source_id"] && PassesGuard(sid, e)
  }

  ghost predicate AnySelects(crc: Crc, selectors: seq<Selector>, e: Envelope) {
    exists s :: s in selectors && Selects(crc, s, e)
  }

  lemma AnyConcat(crc: Crc, a: seq<Selector>, b: seq<Selector>, e: Envelope)
    ensures AnySelects(crc, a + b, e) <==> AnySelects(crc, a, e) || AnySelects(crc, b, e)
  {
    if AnySelects(crc, a, e) {
      var s :| s in a && Selects(crc, s, e);
      assert s in a + b;
    }
    if AnySelects(crc, b, e) {
      var s :| s in b && Selects(crc, s, e);
      assert s in a + b;
    }
  }

  lemma AnySingle(crc: Crc, s: Selector, e: Envelope)
    ensures AnySelects(crc, [s], e) <==> Selects(crc, s, e)
  {
    assert s in [s];
  }

  lemma {:induction false} CountersMeaning(crc: Crc, sid: string, names: seq<string>, e: Envelope)
    ensures AnySelects(crc, CounterSelectors(sid, names), e) <==>
      && PassesGuard(sid, e) && e.message.Counter?
      && exists n :: n in names && CounterNamed(crc, n, e.message.name)
  {
    if names != [] {
      var front, last := names[..|names| - 1], names[|names| - 1];
      var s := Selector(sid, CounterSelection(last));
      CountersMeaning(crc, sid, front, e);
      AnyConcat(crc, CounterSelectors(sid, front), [s], e);
      AnySingle(crc, s, e);
      assert names == front + [last];
      assert last in names;
      assert forall n :: n in names <==> n in front || n == last;
    }
  }

  lemma {:induction false} GaugesMeaning(crc: Crc, sid: string, names: seq<string>, e: Envelope)
    ensures AnySelects(crc, GaugeSelectors(sid, names), e) <==>
      && PassesGuard(sid, e) && e.message.Gauge?
      && exists n :: n in names && GaugeNamed(crc, n, e.message.metrics)
  {
    if names != [] {
      var front, last := names[..|names| - 1], names[|names| - 1];
      var s := Selector(sid, GaugeSelection(Split(last)));
      GaugesMeaning(crc, sid, front, e);
      AnyConcat(crc, GaugeSelectors(sid, front), [s], e);
      AnySingle(crc, s, e);
      assert names == front + [last];
      assert last in names;
      assert forall n :: n in names <==> n in front || n == last;
    }
  }

  lemma CountersForMeaning(crc: Crc, v: Values, sid: string, e: Envelope)
    ensures AnySelects(crc, If("counter" in v || "counter.name" in v, CountersFor(sid, ValuesOf(v, "counter.name"))), e)
      <==> PassesGuard(sid, e) && e.message.Counter? && Requested(crc, v, e.message)
  {
    if "counter.name" in v {
      CountersMeaning(crc, sid, v["counter.name"], e);
    } else {
      AnySingle(crc, Selector(sid, CounterSelection("")), e);
    }
  }

  lemma GaugesForMeaning(crc: Crc, v: Values, sid: string, e: Envelope)
    requires !PresentButEmpty(v, "gauge.name")
    ensures AnySelects(crc, If("gauge" in v || "gauge.name" in v, GaugesFor(sid, ValuesOf(v, "gauge.name"))), e)
      <==> PassesGuard(sid, e) && e.message.Gauge? && Requested(crc, v, e.message)
  {
    if "gauge.name" in v {
      GaugesMeaning(crc, sid, v["gauge.name"], e);
    } else {
      AnySingle(crc, Selector(sid, GaugeSelection([])), e);
    }
  }

  lemma SourceMeaning(crc: Crc, v: Values, sid: string, e: Envelope)
    requires !PresentButEmpty(v, "gauge.name")
    ensures AnySelects(crc, ForSource(v, sid), e) <==> PassesGuard(sid, e) && Requested(crc, v, e.message)
  {
    var log := If("log" in v, [Selector(sid, LogSelection)]);
    var counter := If("counter" in v || "counter.name" in v, CountersFor(sid, ValuesOf(v, "counter.name")));
    var gauge := If("gauge" in v || "gauge.name" in v, GaugesFor(sid, ValuesOf(v, "gauge.name")));
    var timer := If("timer" in v, [Selector(sid, TimerSelection)]);
    var event := If("event" in v, [Selector(sid, EventSelection)]);
    AnyConcat(crc, log, counter, e);
    AnyConcat(crc, log + counter, gauge, e);
    AnyConcat(crc, log + counter + gauge, timer, e);
    AnyConcat(crc, log + counter + gauge + timer, event, e);
    AnySingle(crc, Selector(sid, LogSelection), e);
    AnySingle(crc, Selector(sid, TimerSelection), e);
    AnySingle(crc, Selector(sid, EventSelection), e);
    CountersForMeaning(crc, v, sid, e);
    GaugesForMeaning(crc, v, sid, e);
  }

  lemma {:induction false} SourcesMeaning(crc: Crc, v: Values, sids: seq<string>, e: Envelope)
    requires !PresentButEmpty(v, "gauge.name")
    ensures AnySelects(crc, ForSources(v, sids), e) <==>
      (exists sid :: sid in sids && PassesGuard(sid, e)) && Requested(crc, v, e.message)
  {
    if sids != [] {
      var front, last := sids[..|sids| - 1], sids[|sids| - 1];
      SourcesMeaning(crc, v, front, e);
      SourceMeaning(crc, v, last, e);
      AnyConcat(crc, ForSources(v, front), ForSource(v, last), e);
      assert sids == front + [last];
      assert last in sids;
      assert forall sid :: sid in sids <==> sid in front || sid == last;
    }
  }

  /** The gateway's promise: for every query it accepts, some selector it builds selects an envelope
      exactly when the query asks for its type, name and source. */
  lemma QueryMeaning(crc: Crc, v: Values, e: Envelope)
    requires Built(v).Ok?
    ensures AnySelects(crc, Built(v).value, e) <==> Requested(crc, v, e.message) && SourceRequested(v, e)
  {
    SourcesMeaning(crc, v, SourceIds(v), e);
    if "source_id" !in v || v["source_id"] == [] {
      assert "" in SourceIds(v) && PassesGuard("", e);
    }
  }

  /** A query is rejected exactly when it names no type or leaves a name list empty, and the error says
      which; an empty counter list is noticed before an empty gauge list. */
  lemma AcceptedExactly(v: Values)
    ensures var typed := exists t :: t in ["log", "counter", "gauge", "timer", "event", "counter.name", "gauge.name"] && t in v;
            var counters := "counter.name" in v && v["counter.name"] == [];
            var gauges := "gauge.name" in v && v["gauge.name"] == [];
            && (Built(v).Ok? <==> typed && !counters && !gauges)
            && (Built(v) == Err(EmptyQuery) <==> v == map[])
            && (Built(v) == Err(MissingType) <==> v != map[] && !typed)
            && (Built(v) == Err(CounterNamePresentButEmpty) <==> counters)
            && (Built(v) == Err(GaugeNamePresentButEmpty) <==> gauges && !counters)
  {
    TypedExactly(v);
    if "counter.name" in v || "gauge.name" in v {
      assert ContainsEnvelopeType(v) && v != map[];
    }
    assert |v| == 0 <==> v == map[];
  }

  lemma TypedExactly(v: Values)
    ensures ContainsEnvelopeType(v) <==>
      exists t :: t in ["log", "counter", "gauge", "timer", "event", "counter.name", "gauge.name"] && t in v
    ensures ContainsEnvelopeType(v) ==> v != map[]
  {
    var keys := ["log", "counter", "gauge", "timer", "event", "counter.name", "gauge.name"];
    if ContainsEnvelopeType(v) {
      if "counter.name" in v {
        assert keys[5] in keys;
      } else if "gauge.name" in v {
        assert keys[6] in keys;
      } else {
        var t :| t in ENVELOPE_TYPES && t in v;
        assert t in keys;
      }
    }
    if t :| t in keys && t in v {
      assert t == "counter.name" || t == "gauge.name" || t in ENVELOPE_TYPES;
    }
  }

  lemma {:induction false} BuiltHaveMessages(v: Values, sids: seq<string>)
    ensures forall s :: s in ForSources(v, sids) ==> !s.message.NoSelection?
  {
    if sids != [] {
      BuiltHaveMessages(v, sids[..|sids| - 1]);
      SourceHasMessages(v, sids[|sids| - 1]);
    }
  }

  lemma SourceHasMessages(v: Values, sid: string)
    ensures forall s :: s in ForSource(v, sid) ==> !s.message.NoSelection?
  {
    var counter := CountersFor(sid, ValuesOf(v, "counter.name"));
    var gauge := GaugesFor(sid, ValuesOf(v, "gauge.name"));
    assert forall s :: s in counter ==> !s.message.NoSelection? by {
      if "counter.name" in v {
        NamedHaveMessages(sid, v["counter.name"]);
      }
    }
    assert forall s :: s in gauge ==> !s.message.NoSelection? by {
      if "gauge.name" in v {
        NamedHaveMessages(sid, v["gauge.name"]);
      }
    }
  }

  lemma {:induction false} NamedHaveMessages(sid: string, names: seq<string>)
    ensures forall s :: s in CounterSelectors(sid, names) ==> !s.message.NoSelection?
    ensures forall s :: s in GaugeSelectors(sid, names) ==> !s.message.NoSelection?
  {
    if names != [] {
      NamedHaveMessages(sid, names[..|names| - 1]);
    }
  }

  lemma {:induction false} HitsPositive(crc: Crc, selectors: seq<Selector>, e: Envelope)
    ensures Hits(crc, selectors, e) > 0 <==> AnySelects(crc, selectors, e)
  {
    if selectors != [] {
      var front, last := selectors[..|selectors| - 1], selectors[|selectors| - 1];
      HitsPositive(crc, front, e);
      AnyConcat(crc, front, [last], e);
      AnySingle(crc, last, e);
      assert selectors == front + [last];
    }
  }

  /** End to end: once the selectors of an accepted query are registered in the router, each with its
      own subscription, publishing an envelope calls their setter if and only if the query asks for it. */
  lemma QueryDelivers(crc: Crc, v: Values, subs: Store, tokens: seq<nat>, setter: nat, e: Envelope)
    requires Built(v).Ok? && Registered(crc, subs, tokens, WithMessage(Built(v).value), setter)
    ensures |tokens| == |Built(v).value|
    ensures Received(crc, subs, tokens, setter, e) > 0 <==> Requested(crc, v, e.message) && SourceRequested(v, e)
  {
    var selectors := Built(v).value;
    BuiltHaveMessages(v, SourceIds(v));
    WithMessageHave(selectors);
    RequestReceives(crc, subs, tokens, selectors, setter, e);
    HitsPositive(crc, selectors, e);
    QueryMeaning(crc, v, e);
  }

  // ---- How often a query is answered ----

  lemma {:induction false} HitsConcat(crc: Crc, a: seq<Selector>, b: seq<Selector>, e: Envelope)
    ensures Hits(crc, a + b, e) == Hits(crc, a, e) + Hits(crc, b, e)
  {
    if b == [] {
      assert a + b == a;
    } else {
      var front, last := b[..|b| - 1], b[|b| - 1];
      HitsConcat(crc, a, front, e);
      HitsAppend(crc, a + front, last, e);
      assert a + b == (a + front) + [last];
    }
  }

  lemma HitsOne(crc: Crc, s: Selector, e: Envelope)
    ensures Hits(crc, [s], e) == if Selects(crc, s, e) then 1 else 0
  {
    HitsAppend(crc, [], s, e);
    assert [] + [s] == [s];
  }

  /** How many of the listed counter names fit. */
  ghost function CountersNamed(crc: Crc, names: seq<string>, name: Option<string>): nat {
    if names == [] then 0
    else CountersNamed(crc, names[..|names| - 1], name) + if CounterNamed(crc, names[|names| - 1], name) then 1 else 0
  }

  /** How many of the listed gauge name lists fit. */
  ghost function GaugesNamed(crc: Crc, names: seq<string>, metrics: Option<set<string>>): nat {
    if names == [] then 0
    else GaugesNamed(crc, names[..|names| - 1], metrics) + if GaugeNamed(crc, names[|names| - 1], metrics) then 1 else 0
  }

  /** How many of the given source IDs are empty or this one. */
  function SourcesGiven(sids: seq<string>, sourceId: string): nat {
    if sids == [] then 0
    else
      var sid := sids[|sids| - 1];
      SourcesGiven(sids[..|sids| - 1], sourceId) + if sid == "" || sid == sourceId then 1 else 0
  }

  /** How often the query asks for a message: once by its type, or once per listed name that fits. */
  ghost function TimesRequested(crc: Crc, v: Values, m: Message): nat {
    match m
    case NoMessage => 0
    case Log(_) => if "log" in v then 1 else 0
    case Timer(_) => if "timer" in v then 1 else 0
    case Event(_) => if "event" in v then 1 else 0
    case Counter(name) =>
      if "counter.name" in v then CountersNamed(crc, v["counter.name"], name) else if "counter" in v then 1 else 0
    case Gauge(metrics) =>
      if "gauge.name" in v then GaugesNamed(crc, v["gauge.name"], metrics) else if "gauge" in v then 1 else 0
  }

  /** How often the query asks for a source: once per given ID that fits, or once when none is given. */
  function TimesSource(v: Values, sourceId: string): nat {
    if "source_id" !in v || v["source_id"] == [] then 1 else SourcesGiven(v["source_id"], sourceId)
  }

  lemma {:induction false} CountersHits(crc: Crc, sid: string, names: seq<string>, e: Envelope)
    ensures Hits(crc, CounterSelectors(sid, names), e)
         == if PassesGuard(sid, e) && e.message.Counter? then CountersNamed(crc, names, e.message.name) else 0
  {
    if names != [] {
      var front, last := names[..|names| - 1], names[|names| - 1];
      CountersHits(crc, sid, front, e);
      HitsAppend(crc, CounterSelectors(sid, front), Selector(sid, CounterSelection(last)), e);
    }
  }

  lemma {:induction false} GaugesHits(crc: Crc, sid: string, names: seq<string>, e: Envelope)
    ensures Hits(crc, GaugeSelectors(sid, names), e)
         == if PassesGuard(sid, e) && e.message.Gauge? then GaugesNamed(crc, names, e.message.metrics) else 0
  {
    if names != [] {
      var front, last := names[..|names| - 1], names[|names| - 1];
      GaugesHits(crc, sid, front, e);
      HitsAppend(crc, GaugeSelectors(sid, front), Selector(sid, GaugeSelection(Split(last))), e);
    }
  }

  lemma CountersForHits(crc: Crc, v: Values, sid: string, e: Envelope)
    ensures Hits(crc, If("counter" in v || "counter.name" in v, CountersFor(sid, ValuesOf(v, "counter.name"))), e)
         == if PassesGuard(sid, e) && e.message.Counter? then TimesRequested(crc, v, e.message) else 0
  {
    if "counter.name" in v {
      CountersHits(crc, sid, v["counter.name"], e);
    } else {
      HitsOne(crc, Selector(sid, CounterSelection("")), e);
    }
  }

  /** Selectors without names select by source and type alone. */
  lemma BareSelects(crc: Crc, sid: string, e: Envelope)
    ensures Selects(crc, Selector(sid, LogSelection), e) <==> PassesGuard(sid, e) && e.message.Log?
    ensures Selects(crc, Selector(sid, TimerSelection), e) <==> PassesGuard(sid, e) && e.message.Timer?
    ensures Selects(crc, Selector(sid, EventSelection), e) <==> PassesGuard(sid, e) && e.message.Event?
    ensures Selects(crc, Selector(sid, GaugeSelection([])), e) <==> PassesGuard(sid, e) && e.message.Gauge?
  {
  }

  lemma GaugesForHits(crc: Crc, v: Values, sid: string, e: Envelope)
    requires !PresentButEmpty(v, "gauge.name")
    ensures Hits(crc, If("gauge" in v || "gauge.name" in v, GaugesFor(sid, ValuesOf(v, "gauge.name"))), e)
         == if PassesGuard(sid, e) && e.message.Gauge? then TimesRequested(crc, v, e.message) else 0
  {
    if "gauge.name" in v {
      var names := v["gauge.name"];
      assert GaugesFor(sid, ValuesOf(v, "gauge.name")) == GaugeSelectors(sid, names);
      GaugesHits(crc, sid, names, e);
    } else {
      BareHits(crc, "gauge" in v, Selector(sid, GaugeSelection([])), e);
      BareSelects(crc, sid, e);
      assert "gauge" !in v ==> Hits(crc, [], e) == 0;
    }
  }

  lemma FiveParts(crc: Crc, a: seq<Selector>, b: seq<Selector>, c: seq<Selector>, d: seq<Selector>, f: seq<Selector>, e: Envelope)
    ensures Hits(crc, a + b + c + d + f, e)
         == Hits(crc, a, e) + Hits(crc, b, e) + Hits(crc, c, e) + Hits(crc, d, e) + Hits(crc, f, e)
  {
    HitsConcat(crc, a, b, e);
    HitsConcat(crc, a + b, c, e);
    HitsConcat(crc, a + b + c, d, e);
    HitsConcat(crc, a + b + c + d, f, e);
  }

  lemma BareHits(crc: Crc, asked: bool, s: Selector, e: Envelope)
    ensures Hits(crc, If(asked, [s]), e) == if asked && Selects(crc, s, e) then 1 else 0
  {
    HitsOne(crc, s, e);
  }

  /** The three types without names. */
  lemma PlainHits(crc: Crc, v: Values, sid: string, e: Envelope)
    ensures Hits(crc, If("log" in v, [Selector(sid, LogSelection)]), e)
         == if PassesGuard(sid, e) && e.message.Log? then TimesRequested(crc, v, e.message) else 0
    ensures Hits(crc, If("timer" in v, [Selector(sid, TimerSelection)]), e)
         == if PassesGuard(sid, e) && e.message.Timer? then TimesRequested(crc, v, e.message) else 0
    ensures Hits(crc, If("event" in v, [Selector(sid, EventSelection)]), e)
         == if PassesGuard(sid, e) && e.message.Event? then TimesRequested(crc, v, e.message) else 0
  {
    BareSelects(crc, sid, e);
    BareHits(crc, "log" in v, Selector(sid, LogSelection), e);
    BareHits(crc, "timer" in v, Selector(sid, TimerSelection), e);
    BareHits(crc, "event" in v, Selector(sid, EventSelection), e);
  }

  lemma SourceHits(crc: Crc, v: Values, sid: string, e: Envelope)
    requires !PresentButEmpty(v, "gauge.name")
    ensures Hits(crc, ForSource(v, sid), e) == if PassesGuard(sid, e) then TimesRequested(crc, v, e.message) else 0
  {
    FiveParts(crc,
      If("log" in v, [Selector(sid, LogSelection)]),
      If("counter" in v || "counter.name" in v, CountersFor(sid, ValuesOf(v, "counter.name"))),
      If("gauge" in v || "gauge.name" in v, GaugesFor(sid, ValuesOf(v, "gauge.name"))),
      If("timer" in v, [Selector(sid, TimerSelection)]),
      If("event" in v, [Selector(sid, EventSelection)]), e);
    PlainHits(crc, v, sid, e);
    CountersForHits(crc, v, sid, e);
    GaugesForHits(crc, v, sid, e);
  }

  /** Multiplication by repeated addition. */
  function Times(a: nat, b: nat): nat {
    if a == 0 then 0 else Times(a - 1, b) + b
  }

  lemma {:induction false} TimesIsProduct(a: nat, b: nat)
    ensures Times(a, b) == a * b
  {
    if a > 0 {
      TimesIsProduct(a - 1, b);
      assert a * b == (a - 1) * b + b;
    }
  }

  /** What a function makes of the sources, one after the other. */
  function Flat(part: string -> seq<Selector>, sids: seq<string>): seq<Selector> {
    if sids == [] then [] else Flat(part, sids[..|sids| - 1]) + part(sids[|sids| - 1])
  }

  function SourcePart(v: Values): string -> seq<Selector> {
    (sid: string) => ForSource(v, sid)
  }

  lemma {:induction false} ForSourcesFlat(v: Values, sids: seq<string>)
    ensures ForSources(v, sids) == Flat(SourcePart(v), sids)
  {
    if sids != [] {
      ForSourcesFlat(v, sids[..|sids| - 1]);
    }
  }

  /** When every source that fits is answered n times. */
  lemma {:induction false} FlatHits(crc: Crc, part: string -> seq<Selector>, sids: seq<string>, e: Envelope, n: nat)
    requires forall sid :: Hits(crc, part(sid), e) == if PassesGuard(sid, e) then n else 0
    ensures Hits(crc, Flat(part, sids), e) == Times(SourcesGiven(sids, e.sourceId), n)
  {
    if sids != [] {
      var front, last := sids[..|sids| - 1], sids[|sids| - 1];
      FlatHits(crc, part, front, e, n);
      HitsConcat(crc, Flat(part, front), part(last), e);
    }
  }

  lemma SourcesHits(crc: Crc, v: Values, sids: seq<string>, e: Envelope)
    requires !PresentButEmpty(v, "gauge.name")
    ensures Hits(crc, ForSources(v, sids), e) == Times(SourcesGiven(sids, e.sourceId), TimesRequested(crc, v, e.message))
  {
    forall sid ensures Hits(crc, SourcePart(v)(sid), e) == if PassesGuard(sid, e) then TimesRequested(crc, v, e.message) else 0 {
      SourceHits(crc, v, sid, e);
    }
    FlatHits(crc, SourcePart(v), sids, e, TimesRequested(crc, v, e.message));
    ForSourcesFlat(v, sids);
  }

  /** The exact number of times: while an accepted query is registered, publishing an envelope calls its
      setter once for every pair of a given source ID and a way in which the query asks for the message. */
  lemma QueryReceives(crc: Crc, v: Values, subs: Store, tokens: seq<nat>, setter: nat, e: Envelope)
    requires Built(v).Ok? && Registered(crc, subs, tokens, WithMessage(Built(v).value), setter)
    ensures Received(crc, subs, tokens, setter, e) == TimesSource(v, e.sourceId) * TimesRequested(crc, v, e.message)
  {
    RequestReceives(crc, subs, tokens, Built(v).value, setter, e);
    SourcesHits(crc, v, SourceIds(v), e);
    TimesIsProduct(TimesSource(v, e.sourceId), TimesRequested(crc, v, e.message));
    if "source_id" !in v || v["source_id"] == [] {
      assert [""][..0] == [];
      assert SourcesGiven([""], e.sourceId) == 1;
    }
  }

  /** A listed counter name fits exactly the counters of that name, those whose CRC collides with it,
      and, as 0 is reserved, those where one CRC is 0 and the other 1. */
  lemma CounterNamedExactly(crc: Crc, wanted: string, name: Option<string>)
    ensures CounterNamed(crc, wanted, name) <==>
      || wanted == ""
      || (name.Some? && (wanted == name.value || crc(wanted) == crc(name.value)
                         || (crc(wanted) == 0 && crc(name.value) == 1) || (crc(wanted) == 1 && crc(name.value) == 0)))
  {
  }

  // ---- Two readings of a query that its documentation does not suggest ----

  /** An empty `counter.name` asks for every counter, named or not. */
  lemma EmptyCounterName(crc: Crc, sourceId: string, name: Option<string>)
    ensures var r := Built(map["counter.name" := [""]]);
            r.Ok? && AnySelects(crc, r.value, Envelope(sourceId, Counter(name)))
  {
    var v: Values := map["counter.name" := [""]];
    assert "counter.name" in v.Keys && "" in v["counter.name"];
    assert CounterNamed(crc, "", name);
    QueryMeaning(crc, v, Envelope(sourceId, Counter(name)));
  }

  lemma {:induction false} SplitPlain(name: string)
    requires ',' !in name
    ensures Split(name) == [name]
  {
    if name != "" {
      var front, c := name[..|name| - 1], name[|name| - 1];
      assert name == front + [c];
      SplitPlain(front);
    }
  }

  lemma {:induction false} SplitAfterComma(name: string, last: string)
    requires ',' !in last
    ensures Split(name + "," + last) == Split(name) + [last]
  {
    var whole := name + "," + last;
    if last == "" {
      assert whole[..|whole| - 1] == name;
    } else {
      var front, c := last[..|last| - 1], last[|last| - 1];
      assert last == front + [c];
      SplitAfterComma(name, front);
      assert whole[..|whole| - 1] == name + "," + front;
    }
  }

  /** Joining and splitting is the identity on parts without commas. */
  lemma {:induction false} JoinSplit(parts: seq<string>)
    requires |parts| >= 1 && forall k :: 0 <= k < |parts| ==> ',' !in parts[k]
    ensures Split(Join(parts)) == parts
  {
    if |parts| == 1 {
      SplitPlain(parts[0]);
    } else {
      JoinSplit(parts[..|parts| - 1]);
      SplitAfterComma(Join(parts[..|parts| - 1]), parts[|parts| - 1]);
    }
  }

  /** `gauge.name` with any number of distinct names asks for the gauge that has exactly these metrics,
      whatever the hash function. */
  lemma GaugeListSelects(crc: Crc, names: seq<string>, sourceId: string)
    requires |names| >= 1 && Distinct(names) && forall k :: 0 <= k < |names| ==> ',' !in names[k]
    ensures var r := Built(map["gauge.name" := [Join(names)]]);
            r.Ok? && AnySelects(crc, r.value, Envelope(sourceId, Gauge(Some(set n | n in names))))
  {
    JoinSplit(names);
    SumNamesOfSet(crc, names);
    OneGaugeList(crc, Join(names), Envelope(sourceId, Gauge(Some(set n | n in names))));
  }

  /** Among gauges, a list of distinct names selects by the sum over the names and the sum over the keys. */
  lemma GaugeListMeaning(crc: Crc, names: seq<string>, e: Envelope)
    requires |names| >= 1 && Distinct(names) && forall k :: 0 <= k < |names| ==> ',' !in names[k]
    requires e.message.Gauge?
    ensures var r := Built(map["gauge.name" := [Join(names)]]);
            r.Ok? && (AnySelects(crc, r.value, e) <==>
              e.message.metrics.Some?
              && HashUint64(SumKeys(crc, set n | n in names)) == HashUint64(SumKeys(crc, e.message.metrics.value)))
  {
    JoinSplit(names);
    SumNamesOfSet(crc, names);
    OneGaugeList(crc, Join(names), e);
  }

  lemma SumOfOneMore(crc: Crc, keys: set<string>, k: string)
    requires k !in keys
    ensures SumKeys(crc, keys + {k}) == AddWord(SumKeys(crc, keys), Hash(crc, k))
  {
    SumKeysAnyOrder(crc, keys + {k}, k);
    assert keys + {k} - {k} == keys;
  }

  lemma AddZero(w: Word)
    ensures AddWord(0, w) == w
  {
  }

  lemma SingleSums(crc: Crc, a: string)
    ensures SumNames(crc, [a]) == Hash(crc, a)
    ensures SumKeys(crc, {a}) == Hash(crc, a)
  {
    assert [a][..0] == [];
    SumOfOneMore(crc, {}, a);
    assert {} + {a} == {a};
    AddZero(Hash(crc, a));
  }

  lemma PairSums(crc: Crc, a: string, b: string)
    requires a != b
    ensures SumNames(crc, [a, b]) == SumKeys(crc, {a, b}) == AddWord(Hash(crc, a), Hash(crc, b))
  {
    SingleSums(crc, a);
    assert [a, b][..1] == [a];
    SumOfOneMore(crc, {a}, b);
    assert {a} + {b} == {a, b};
  }

  lemma OneGaugeList(crc: Crc, wanted: string, e: Envelope)
    requires e.message.Gauge?
    ensures var r := Built(map["gauge.name" := [wanted]]);
            r.Ok? && (AnySelects(crc, r.value, e) <==> GaugeNamed(crc, wanted, e.message.metrics))
  {
    var v: Values := map["gauge.name" := [wanted]];
    assert "gauge.name" in v.Keys && v["gauge.name"] == [wanted];
    QueryMeaning(crc, v, e);
    assert wanted in v["gauge.name"];
  }

  /** `gauge.name=a,b` asks for a gauge whose metrics are a and b, and for one with one metric more only
      under the two coincidences that `hashUint64` makes possible. */
  lemma GaugeListIsWholeKeySet(crc: Crc, a: string, b: string, c: string, e: Envelope)
    requires ',' !in a && ',' !in b && a != b && c != a && c != b
    requires e.message.Gauge? && (e.message.metrics == Some({a, b}) || e.message.metrics == Some({a, b, c}))
    ensures var r := Built(map["gauge.name" := [a + "," + b]]);
            && r.Ok?
            && var two, one := AddWord(Hash(crc, a), Hash(crc, b)), Hash(crc, c);
               AnySelects(crc, r.value, e)
               <==> c !in e.message.metrics.value || (two == 0 && one == 1) || (two == 1 && one == WORD - 1)
  {
    OneGaugeList(crc, a + "," + b, e);
    SplitPlain(a);
    SplitAfterComma(a, b);
    assert Split(a + "," + b) == [a, b];
    PairSums(crc, a, b);
    SumOfOneMore(crc, {a, b}, c);
    assert {a, b} + {c} == {a, b, c};
    OneMore(AddWord(Hash(crc, a), Hash(crc, b)), Hash(crc, c));
  }

  lemma OneMore(sum: Word, hash: Word)
    requires hash != 0
    ensures HashUint64(AddWord(sum, hash)) == HashUint64(sum) <==> (sum == 0 && hash == 1) || (sum == 1 && hash == WORD - 1)
  {
    assert AddWord(sum, hash) == if sum + hash < WORD then sum + hash else sum + hash - WORD;
  }
}
