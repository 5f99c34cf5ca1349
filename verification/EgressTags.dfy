/** Tag conversion: an envelope leaves with either preferred tags or deprecated tags, not both. */
module EgressTags {
  import opened Base

  /** A deprecated value; NoData is a value whose oneof is unset. Decimals are kept as scaled
      integers, and how numbers print is a parameter. */
  datatype Value = NoData | Decimal(d: int) | Integer(i: int) | Text(t: string)

  datatype Printer = Printer(decimal: int -> string, integer: int -> string)

  /** The two tag maps of an envelope; a nil map is None. */
  datatype Tags = Tags(tags: Option<map<string, string>>, deprecated: Option<map<string, Value>>)

  function Get<V>(m: Option<map<string, V>>): map<string, V> {
    if m.Some? then m.value else map[]
  }

  function Show(p: Printer, v: Value): string
    requires !v.NoData?
  {
    match v
    case Decimal(d) => p.decimal(d)
    case Integer(i) => p.integer(i)
    case Text(t) => t
  }

  /** The deprecated tags that carry data, printed. */
  function Printed(p: Printer, deprecated: map<string, Value>): map<string, string> {
    map name | name in deprecated && !deprecated[name].NoData? :: Show(p, deprecated[name])
  }

  function Texts(tags: map<string, string>): map<string, Value> {
    map name | name in tags :: Text(tags[name])
  }

  /** convergeTags as a function: on shared names the map that is dissolved wins. */
  function Converge(p: Printer, usePreferred: bool, e: Tags): Tags {
    if usePreferred then Tags(Some(Get(e.tags) + Printed(p, Get(e.deprecated))), None)
    else Tags(None, Some(Get(e.deprecated) + Texts(Get(e.tags))))
  }

  class Envelope {
    var tags: Option<map<string, string>>
    var deprecatedTags: Option<map<string, Value>>

    constructor (e: Tags)
      ensures Contents() == e
    {
      tags, deprecatedTags := e.tags, e.deprecated;
    }

    function Contents(): Tags
      reads this
    {
      Tags(tags, deprecatedTags)
    }

    /** The loop visits the deprecated tags in any order; the outcome is the function's. */
    method ToPreferred(p: Printer)
      modifies this
      ensures Contents() == Converge(p, true, old(Contents()))
    {
      if tags.None? {
        tags := Some(map[]);
      }
      ghost var before := tags.value;
      var source := Get(deprecatedTags);
      var left := source.Keys;
      assert source - left == map[];
      while left != {}
        invariant left <= source.Keys
        invariant tags.Some? && tags.value == before + Printed(p, source - left)
        decreases left
      {
        var name :| name in left;
        PrintedMore(p, source - left, name, source[name]);
        assert source - (left - {name}) == (source - left)[name := source[name]];
        if !source[name].NoData? {
          tags := Some(tags.value[name := Show(p, source[name])]);
        }
        left := left - {name};
      }
      assert source - {} == source;
      deprecatedTags := None;
    }

    /** The same in the other direction. */
    method ToDeprecated(p: Printer)
      modifies this
      ensures Contents() == Converge(p, false, old(Contents()))
    {
      if deprecatedTags.None? {
        deprecatedTags := Some(map[]);
      }
      ghost var before := deprecatedTags.value;
      var source := Get(tags);
      var left := source.Keys;
      while left != {}
        invariant left <= source.Keys
        invariant deprecatedTags.Some? && deprecatedTags.value == before + Texts(source - left)
        decreases left
      {
        var name :| name in left;
        assert source - (left - {name}) == (source - left)[name := source[name]];
        deprecatedTags := Some(deprecatedTags.value[name := Text(source[name])]);
        left := left - {name};
      }
      assert source - {} == source;
      tags := None;
    }

    method ConvergeTags(p: Printer, usePreferred: bool)
      modifies this
      ensures Contents() == Converge(p, usePreferred, old(Contents()))
    {
      if usePreferred {
        ToPreferred(p);
        return;
      }
      ToDeprecated(p);
    }
  }

  lemma PrintedMore(p: Printer, m: map<string, Value>, name: string, v: Value)
    requires name !in m
    ensures Printed(p, m[name := v]) == if v.NoData? then Printed(p, m) else Printed(p, m)[name := Show(p, v)]
  {
  }

  /** Preferred tags, name by name: a deprecated value is printed according to its kind and wins, one
      without data is passed over, and every other tag stays as it was. */
  lemma PreferredByName(p: Printer, e: Tags, name: string)
    ensures var r := Converge(p, true, e);
            && r.deprecated.None? && r.tags.Some?
            && var value := if name in Get(e.deprecated) then Some(Get(e.deprecated)[name]) else None;
               var tag := if name in Get(e.tags) then Some(Get(e.tags)[name]) else None;
               var result := if name in r.tags.value then Some(r.tags.value[name]) else None;
               && (forall d :: value == Some(Decimal(d)) ==> result == Some(p.decimal(d)))
               && (forall i :: value == Some(Integer(i)) ==> result == Some(p.integer(i)))
               && (forall t :: value == Some(Text(t)) ==> result == Some(t))
               && (value == None || value == Some(NoData) ==> result == tag)
  {
  }

  /** Deprecated tags, name by name: a preferred tag becomes a text and wins, and every other value
      stays as it was. */
  lemma DeprecatedByName(p: Printer, e: Tags, name: string)
    ensures var r := Converge(p, false, e);
            && r.tags.None? && r.deprecated.Some?
            && (name in Get(e.tags) ==> name in r.deprecated.value && r.deprecated.value[name] == Text(Get(e.tags)[name]))
            && (name !in Get(e.tags) && name in Get(e.deprecated) ==>
                  name in r.deprecated.value && r.deprecated.value[name] == Get(e.deprecated)[name])
            && (name !in Get(e.tags) && name !in Get(e.deprecated) ==> name !in r.deprecated.value)
  {
  }

  /** Converting twice the same way is converting once. */
  lemma ConvergeIdempotent(p: Printer, usePreferred: bool, e: Tags)
    ensures Converge(p, usePreferred, Converge(p, usePreferred, e)) == Converge(p, usePreferred, e)
  {
    var once := Converge(p, usePreferred, e);
    if usePreferred {
      assert once.tags.value + Printed(p, map[]) == once.tags.value;
    } else {
      assert once.deprecated.value + Texts(map[]) == once.deprecated.value;
    }
  }

  /** Going to deprecated tags and back to preferred ones changes nothing. */
  lemma PreferredRoundTrip(p: Printer, e: Tags)
    ensures Converge(p, true, Converge(p, false, Converge(p, true, e))) == Converge(p, true, e)
  {
    var once := Converge(p, true, e).tags.value;
    assert map[] + Texts(once) == Texts(once);
    assert map[] + Printed(p, Texts(once)) == once;
  }

  /** Preferred tags directly, or by way of deprecated ones: the same exactly when the two maps agree
      wherever both have a value to show. */
  lemma DetourAgrees(p: Printer, e: Tags)
    ensures Converge(p, true, Converge(p, false, e)) == Converge(p, true, e) <==>
      forall name :: name in Get(e.tags) && name in Get(e.deprecated) && !Get(e.deprecated)[name].NoData? ==>
        Show(p, Get(e.deprecated)[name]) == Get(e.tags)[name]
  {
    var tags, dep := Get(e.tags), Get(e.deprecated);
    var direct := tags + Printed(p, dep);
    var detour := map[] + Printed(p, dep + Texts(tags));
    assert Converge(p, true, Converge(p, false, e)) == Tags(Some(detour), None);
    assert detour.Keys == direct.Keys;
    forall name | name in direct
      ensures name in tags && name in dep && !dep[name].NoData? ==>
        detour[name] == tags[name] && direct[name] == Show(p, dep[name])
      ensures !(name in tags && name in dep && !dep[name].NoData?) ==> detour[name] == direct[name]
    {
    }
    if detour == direct {
      forall name | name in tags && name in dep && !dep[name].NoData? ensures Show(p, dep[name]) == tags[name] {
        assert name in direct;
      }
    }
  }
}
