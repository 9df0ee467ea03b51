/**
 * The `Log` domain's one event, `EntryAddedEvent` (`Log.entryAdded`). Unlike the other
 * generated decoders its `safe_create` has no fallback: a malformed payload makes the
 * constructor call raise, and the exception reaches the caller.
 *
 * `LogEntry` lives in `cripy/protocol/log/types.py`, which is not part of this model: its
 * decoder is the parameter `logEntry`.
 */
module LogEvents {
  import opened Json
  import opened Decoding

  /** `EntryAddedEvent.event`. */
  const EntryAddedName: string := "Log.entryAdded"

  /** `EntryAddedEvent(entry)`: one required parameter, decoded by `LogEntry.safe_create`. */
  function EntryAdded(logEntry: Schema): Schema
  {
    Fields("EntryAddedEvent", [Field("entry", true, One(logEntry))])
  }

  /**
   * `EntryAddedEvent.safe_create(init)`: None for None, otherwise `EntryAddedEvent(**init)`,
   * which raises TypeError unless `init` is a mapping whose only key is `entry`.
   */
  function SafeCreate(logEntry: Schema, init: Json): (r: Result<Py>)
    ensures init.JNull? ==> r == Ok(PNone)
    ensures !init.JNull? ==> (r.Ok? <==> init.JObj? && Keys(init.entries) == {"entry"})
    ensures r.Err? ==> r.error == TypeError
    ensures !init.JNull? && r.Ok? ==>
      r.value == PObj("EntryAddedEvent", [("entry", Decode(logEntry, Arg(init.entries, "entry")))])
  {
    EntryAddedShape(logEntry, init);
    if init.JNull? then Ok(PNone) else Construct(EntryAdded(logEntry), init)
  }

  lemma EntryAddedShape(logEntry: Schema, j: Json)
    ensures Construct(EntryAdded(logEntry), j).Ok? <==> j.JObj? && Keys(j.entries) == {"entry"}
    ensures Construct(EntryAdded(logEntry), j).Err? ==> Construct(EntryAdded(logEntry), j).error == TypeError
    ensures Construct(EntryAdded(logEntry), j).Ok? ==>
      Construct(EntryAdded(logEntry), j).value ==
        PObj("EntryAddedEvent", [("entry", Decode(logEntry, Arg(j.entries, "entry")))])
  {
    var fs := EntryAdded(logEntry).fields;
    assert Names(fs) == {"entry"} && RequiredNames(fs) == {"entry"} by {
      assert fs[0].name == "entry" && fs[0].required;
    }
    ConstructFields("EntryAddedEvent", fs, j);
    if Construct(EntryAdded(logEntry), j).Ok? {
      DecodeOutcome(EntryAdded(logEntry), j);
      ScalarDecodes("EntryAddedEvent", fs, j);
      var a := ScalarAttrs(fs, j.entries);
      assert a == [a[0]];
    }
  }

  /**
   * Where the strict decoder succeeds it agrees with the defensive one; where it raises,
   * a defensive decoder of the same class would have returned the input unchanged.
   */
  lemma StrictAgreesWithDefensive(logEntry: Schema, init: Json)
    ensures SafeCreate(logEntry, init).Ok? ==> SafeCreate(logEntry, init).value == Decode(EntryAdded(logEntry), init)
    ensures SafeCreate(logEntry, init).Err? ==> Decode(EntryAdded(logEntry), init) == Lift(init)
  {
    DecodeOutcome(EntryAdded(logEntry), init);
  }

  /**
   * The events `safe_create_from_list` builds from the items of a list, in order, or the
   * TypeError of the first item that is not a mapping holding just `entry`.
   */
  function Events(logEntry: Schema, xs: seq<Json>): (r: Result<seq<Py>>)
    ensures r.Ok? <==> forall k :: 0 <= k < |xs| ==> Construct(EntryAdded(logEntry), xs[k]).Ok?
    ensures r.Err? ==> r.error == TypeError
    ensures r.Ok? ==> |r.value| == |xs|
    ensures r.Ok? ==> forall k :: 0 <= k < |xs| ==> r.value[k] == Construct(EntryAdded(logEntry), xs[k]).value
  {
    if |xs| == 0 then Ok([])
    else
      match Events(logEntry, xs[..|xs| - 1])
      case Err(e) => Err(e)
      case Ok(l) =>
        EntryAddedShape(logEntry, xs[|xs| - 1]);
        match Construct(EntryAdded(logEntry), xs[|xs| - 1])
        case Err(e) => Err(e)
        case Ok(p) => Ok(l + [p])
  }

  /** What `safe_create_from_list(init)` returns, or the exception it raises. */
  function FromList(logEntry: Schema, init: Json): (r: Result<Py>)
    ensures init.JNull? ==> r == Ok(PNone)
    ensures r.Err? ==> r.error == TypeError
    ensures !init.JNull? && !Iterable(init) ==> r.Err?
  {
    if init.JNull? then Ok(PNone)
    else
      match Iterate(init)
      case Err(e) => Err(e)
      case Ok(xs) =>
        match Events(logEntry, xs)
        case Err(e) => Err(e)
        case Ok(l) => Ok(PList(l))
  }

  /**
   * `EntryAddedEvent.safe_create_from_list(init)`: one event per item, in order; the first
   * item that does not construct raises, and None gives None.
   */
  method SafeCreateFromList(logEntry: Schema, init: Json) returns (r: Result<Py>)
    ensures r == FromList(logEntry, init)
  {
    if init.JNull? {
      return Ok(PNone);
    }
    var items := Iterate(init);
    if items.Err? {
      return Err(items.error);
    }
    var xs := items.value;
    var listOfSelf: seq<Py> := [];
    for i := 0 to |xs|
      invariant Events(logEntry, xs[..i]) == Ok(listOfSelf)
    {
      EventsStep(logEntry, xs, i);
      var ev := Construct(EntryAdded(logEntry), xs[i]);
      if ev.Err? {
        EntryAddedShape(logEntry, xs[i]);
        EventsPrefixErr(logEntry, xs, i + 1);
        return Err(ev.error);
      }
      listOfSelf := listOfSelf + [ev.value];
    }
    assert xs[..|xs|] == xs;
    r := Ok(PList(listOfSelf));
  }

  /** One more item: the prefix's events and the item's, or the item's exception. */
  lemma EventsStep(logEntry: Schema, xs: seq<Json>, i: nat)
    requires i < |xs| && Events(logEntry, xs[..i]).Ok?
    ensures Construct(EntryAdded(logEntry), xs[i]).Err? ==> Events(logEntry, xs[..i + 1]).Err?
    ensures Construct(EntryAdded(logEntry), xs[i]).Ok? ==>
      Events(logEntry, xs[..i + 1]) ==
        Ok(Events(logEntry, xs[..i]).value + [Construct(EntryAdded(logEntry), xs[i]).value])
  {
    assert xs[..i + 1][..i] == xs[..i];
  }

  /** Once a prefix raises, so does the whole list: nothing after the failing item is built. */
  lemma {:induction false} EventsPrefixErr(logEntry: Schema, xs: seq<Json>, n: nat)
    requires n <= |xs| && Events(logEntry, xs[..n]).Err?
    ensures Events(logEntry, xs).Err?
    decreases |xs| - n
  {
    if n < |xs| {
      assert xs[..n + 1][..n] == xs[..n];
      EventsPrefixErr(logEntry, xs, n + 1);
    } else {
      assert xs[..n] == xs;
    }
  }

  /**
   * The list decoder yields one event per item, each the constructed event of that item;
   * a None item raises.
   */
  lemma FromListItems(logEntry: Schema, xs: seq<Json>)
    ensures FromList(logEntry, JArr(xs)).Ok? <==>
      forall k :: 0 <= k < |xs| ==> xs[k].JObj? && Keys(xs[k].entries) == {"entry"}
    ensures FromList(logEntry, JArr(xs)).Ok? ==>
      var l := FromList(logEntry, JArr(xs)).value;
      l.PList? && |l.items| == |xs| &&
      forall k :: 0 <= k < |xs| ==> Ok(l.items[k]) == SafeCreate(logEntry, xs[k])
    ensures (exists k :: 0 <= k < |xs| && xs[k].JNull?) ==> FromList(logEntry, JArr(xs)).Err?
  {
    forall k | 0 <= k < |xs| {
      EntryAddedShape(logEntry, xs[k]);
    }
  }

  /** Where the strict list decoder succeeds it gives what the defensive one gives. */
  lemma FromListAgreesWithDefensive(logEntry: Schema, init: Json)
    requires FromList(logEntry, init).Ok?
    ensures FromList(logEntry, init) == DecodeList(EntryAdded(logEntry), init)
  {
    DecodeListSpec(EntryAdded(logEntry), init);
    if !init.JNull? {
      var xs := Iterate(init).value;
      var l := Events(logEntry, xs).value;
      forall k | 0 <= k < |xs| ensures l[k] == Decode(EntryAdded(logEntry), xs[k]) {
        DecodeOutcome(EntryAdded(logEntry), xs[k]);
        EntryAddedShape(logEntry, xs[k]);
      }
      match init
      case JArr(_) =>
        assert DecodeList(EntryAdded(logEntry), init).value.items == l;
      case JStr(t) =>
        assert l == [];
      case JObj(es) =>
        assert l == [];
    }
  }

  /** `EVENT_TO_CLASS`. */
  function EventToClass(logEntry: Schema): map<string, Schema>
  {
    map[EntryAddedName := EntryAdded(logEntry)]
  }

  /**
   * `EVENT_TO_CLASS` has exactly one key, the class's `event` constant, naming `EntryAddedEvent`.
   */
  lemma EventToClassSpec(logEntry: Schema, n: string)
    ensures n in EventToClass(logEntry) <==> n == EntryAddedName
    ensures n in EventToClass(logEntry) ==> EventToClass(logEntry)[n].cls == "EntryAddedEvent"
  {
  }
}
