/**
 * The string helpers of the protocol code generator (`generate_protocol.py`): the table
 * from protocol primitive types to Python type names, the renaming of a type that shares
 * its domain's name, the `__slots__` list text, the event-namespace initialiser text, the
 * event name of a scoped event, and the collection of a domain's events.
 *
 * `stringcase.pascalcase` is not part of this model: it is the parameter `pascal`.
 */
module Generator {
  import opened Json
  import opened Text

  /** `PT_PYT`: the Python name of each protocol primitive type. */
  const PtPyt: map<string, string> :=
    map["object" := "dict", "string" := "str", "integer" := "int",
        "number" := "float", "boolean" := "bool", "any" := "Any"]

  /** `PT_PYT` covers exactly the six primitives, each with its Python counterpart. */
  function PythonType(protocolType: string): (r: Option<string>)
    ensures r.Some? <==> protocolType in {"object", "string", "integer", "number", "boolean", "any"}
    ensures protocolType == "object" ==> r == Some("dict")
    ensures protocolType == "string" ==> r == Some("str")
    ensures protocolType == "integer" ==> r == Some("int")
    ensures protocolType == "number" ==> r == Some("float")
    ensures protocolType == "boolean" ==> r == Some("bool")
    ensures protocolType == "any" ==> r == Some("Any")
  {
    if protocolType in PtPyt then Some(PtPyt[protocolType]) else None
  }

  /**
   * `dtype_name(dt, dname)`: a type named like its domain gets a `T` suffix, so that the
   * generated class never shadows the domain; every other name is kept.
   */
  function DtypeName(dt: string, dname: string): (r: string)
    ensures r != dname
    ensures r == dt || r == dt + "T"
    ensures r == dt <==> dt != dname
  {
    if dt == dname then dt + "T" else dt
  }

  /** Renaming twice with the same domain name changes nothing more. */
  lemma DtypeNameIdempotent(dt: string, dname: string)
    ensures DtypeName(DtypeName(dt, dname), dname) == DtypeName(dt, dname)
  {
  }

  /** A property of a generated type; only its name is used here. */
  datatype Prop = Prop(name: string)

  /** The quoted names of `props`, in order: the items of a `__slots__` list. */
  function Slots(props: seq<Prop>): (r: seq<string>)
    ensures |r| == |props|
    ensures forall k :: 0 <= k < |props| ==> r[k] == Quote(props[k].name)
  {
    seq(|props|, k requires 0 <= k < |props| => Quote(props[k].name))
  }

  /** `slotgen(props)`: the quoted property names joined by `", "`. */
  method SlotGen(props: seq<Prop>) returns (r: string)
    ensures r == Join(Slots(props), ", ")
    ensures props == [] ==> r == ""
  {
    var l: seq<string> := [];
    for i := 0 to |props|
      invariant |l| == i
      invariant forall k :: 0 <= k < i ==> l[k] == Quote(props[k].name)
    {
      l := l + [Quote(props[i].name)];
    }
    assert l == Slots(props);
    r := Join(l, ", ");
  }

  /** The `__slots__` text reads back, by splitting on `", "`, as the quoted names in order. */
  lemma SlotGenReadsBack(props: seq<Prop>)
    requires |props| >= 1
    requires forall k :: 0 <= k < |props| ==> ',' !in props[k].name
    ensures Split(Join(Slots(props), ", "), ", ") == Slots(props)
  {
    var xs := Slots(props);
    forall k | 0 <= k < |xs| ensures ", "[0] !in xs[k] {
      assert xs[k] == "\"" + props[k].name + "\"";
    }
    SplitJoin(xs, ", ");
  }

  /** `onEvent(fe)`: `fe.split(".")[1]`, the event name of a scoped event name. */
  function OnEvent(fe: string): (r: Result<string>)
    ensures r.Err? ==> r.error == IndexError
  {
    var parts := Split(fe, ".");
    if |parts| >= 2 then Ok(parts[1]) else Err(IndexError)
  }

  lemma {:induction false} FindDot(s: string)
    ensures Find(s, ".") >= 0 <==> '.' in s
  {
    if '.' in s {
      var j :| 0 <= j < |s| && s[j] == '.';
      assert s[j..j + 1] == ".";
      assert OccursAt(s, ".", j);
    } else {
      FindNone(s, ".");
    }
  }

  /** `onEvent` succeeds exactly on names that contain a dot; otherwise it raises IndexError. */
  lemma OnEventDefined(fe: string)
    ensures OnEvent(fe).Ok? <==> '.' in fe
  {
    SplitHasSecond(fe, ".");
    FindDot(fe);
  }

  /** `onEvent` recovers the event part of a `Domain.event` name. */
  lemma OnEventScoped(domain: string, event: string)
    requires '.' !in domain && '.' !in event
    ensures OnEvent(domain + "." + event) == Ok(event)
  {
    SplitPair(domain, event, ".");
  }

  /**
   * The entries `event_ns_init` builds: for each `(ename, _)` the quoted pascal-cased
   * event part of `ename`; the first name without a dot raises IndexError.
   */
  function NsEntries(values: seq<(string, string)>, pascal: string -> string): (r: Result<seq<string>>)
    ensures r.Ok? ==> |r.value| == |values|
    ensures r.Ok? <==> forall k :: 0 <= k < |values| ==> OnEvent(values[k].0).Ok?
    ensures r.Ok? ==> forall k :: 0 <= k < |values| ==>
      r.value[k] == Quote(pascal(OnEvent(values[k].0).value))
    ensures r.Err? ==> r.error == IndexError
  {
    if |values| == 0 then Ok([])
    else
      match OnEvent(values[|values| - 1].0)
      case Err(e) => Err(e)
      case Ok(name) =>
        match NsEntries(values[..|values| - 1], pascal)
        case Err(e) => Err(e)
        case Ok(l) => Ok(l + [Quote(pascal(name))])
  }

  /** `event_ns_init(values)`: the entries joined by `", "`. */
  method EventNsInit(values: seq<(string, string)>, pascal: string -> string) returns (r: Result<string>)
    ensures r.Ok? <==> forall k :: 0 <= k < |values| ==> '.' in values[k].0
    ensures NsEntries(values, pascal).Ok? ==> r == Ok(Join(NsEntries(values, pascal).value, ", "))
    ensures NsEntries(values, pascal).Err? ==> r == Err(IndexError)
  {
    var l: seq<string> := [];
    for i := 0 to |values|
      invariant NsEntries(values[..i], pascal) == Ok(l)
    {
      var prop := OnEvent(values[i].0);
      OnEventDefined(values[i].0);
      if prop.Err? {
        assert NsEntries(values, pascal).Err?;
        forall k | 0 <= k < |values| ensures OnEvent(values[k].0).Ok? <==> '.' in values[k].0 {
          OnEventDefined(values[k].0);
        }
        return Err(IndexError);
      }
      assert values[..i + 1][..i] == values[..i];
      l := l + [Quote(pascal(prop.value))];
    }
    assert values[..|values|] == values;
    forall k | 0 <= k < |values| ensures '.' in values[k].0 {
      OnEventDefined(values[k].0);
    }
    r := Ok(Join(l, ", "));
  }

  /** An event of a protocol domain, as the generator's `Domain` object lists it. */
  datatype Event = Event(scopedName: string, className: string)

  /** The part of the generator's `Domain` that `generate_events` reads. */
  datatype Domain = Domain(hasEvents: bool, events: seq<Event>)

  /** One `(scoped_name, class_name)` pair per event, in order. */
  function EventPairs(events: seq<Event>): (r: seq<(string, string)>)
    ensures |r| == |events|
    ensures forall k :: 0 <= k < |events| ==> r[k] == (events[k].scopedName, events[k].className)
  {
    seq(|events|, k requires 0 <= k < |events| => (events[k].scopedName, events[k].className))
  }

  /**
   * `generate_events` as written: its `return` sits inside the loop body, so a domain with
   * events yields only its first pair, and a domain flagged with events but listing none
   * falls through to `None`.
   */
  method GenerateEvents(d: Domain) returns (r: Option<seq<(string, string)>>)
    ensures d.hasEvents && |d.events| > 0 ==> r == Some([(d.events[0].scopedName, d.events[0].className)])
    ensures !(d.hasEvents && |d.events| > 0) ==> r == None
  {
    if d.hasEvents {
      var eventToClazz: seq<(string, string)> := [];
      for i := 0 to |d.events|
        invariant i == 0 && eventToClazz == []
      {
        var e := d.events[i];
        eventToClazz := eventToClazz + [(e.scopedName, e.className)];
        assert eventToClazz == [(d.events[0].scopedName, d.events[0].className)];
        return Some(eventToClazz);
      }
    }
    return None;
  }

  /** What `generate_events` evidently means: every event's pair, in order. */
  method GenerateEventsIntended(d: Domain) returns (r: Option<seq<(string, string)>>)
    ensures d.hasEvents ==> r == Some(EventPairs(d.events))
    ensures !d.hasEvents ==> r == None
  {
    if d.hasEvents {
      var eventToClazz: seq<(string, string)> := [];
      for i := 0 to |d.events|
        invariant eventToClazz == EventPairs(d.events[..i])
      {
        var e := d.events[i];
        eventToClazz := eventToClazz + [(e.scopedName, e.className)];
      }
      assert d.events[..|d.events|] == d.events;
      return Some(eventToClazz);
    }
    return None;
  }

  /** The as-written result loses every event after the first. */
  lemma GenerateEventsLosesEvents(d: Domain)
    requires d.hasEvents && |d.events| >= 2
    ensures [(d.events[0].scopedName, d.events[0].className)] != EventPairs(d.events)
  {
  }
}
