/**
 * The Runtime domain's event classes (`cripy/gevent/protocol/runtime/events.py`): their
 * schemas for the generic decoder, their `__slots__`, their `__repr__`, and the two tables
 * that name them.
 *
 * The module `cripy.gevent.protocol.runtime.types` is not part of this model: the decoders
 * of `RemoteObject`, `StackTrace`, `ExceptionDetails` and `ExecutionContextDescription` are
 * the parameter `t`, and every property below holds whatever they are.
 */
module RuntimeEvents {
  import opened Json
  import opened Text
  import opened Decoding

  /** The Runtime types the events nest. */
  datatype RuntimeTypes = RuntimeTypes(
    remoteObject: Schema, stackTrace: Schema, exceptionDetails: Schema, executionContextDescription: Schema)

  const ConsoleAPICalledSlots: seq<string> := ["type", "args", "executionContextId", "timestamp", "stackTrace", "context"]

  function ConsoleAPICalled(t: RuntimeTypes): Schema
  {
    Fields("ConsoleAPICalledEvent",
      [Req("type"), Field("args", true, Many(t.remoteObject)), Req("executionContextId"),
       Req("timestamp"), Field("stackTrace", false, One(t.stackTrace)), Opt("context")])
  }

  const ExceptionRevokedSlots: seq<string> := ["reason", "exceptionId"]

  const ExceptionRevoked: Schema :=
    Fields("ExceptionRevokedEvent", [Req("reason"), Req("exceptionId")])

  const ExceptionThrownSlots: seq<string> := ["timestamp", "exceptionDetails"]

  function ExceptionThrown(t: RuntimeTypes): Schema
  {
    Fields("ExceptionThrownEvent",
      [Req("timestamp"), Field("exceptionDetails", true, One(t.exceptionDetails))])
  }

  const ExecutionContextCreatedSlots: seq<string> := ["context"]

  function ExecutionContextCreated(t: RuntimeTypes): Schema
  {
    Fields("ExecutionContextCreatedEvent",
      [Field("context", true, One(t.executionContextDescription))])
  }

  const ExecutionContextDestroyedSlots: seq<string> := ["executionContextId"]

  const ExecutionContextDestroyed: Schema :=
    Fields("ExecutionContextDestroyedEvent", [Req("executionContextId")])

  const InspectRequestedSlots: seq<string> := ["object", "hints"]

  function InspectRequested(t: RuntimeTypes): Schema
  {
    Fields("InspectRequestedEvent",
      [Field("object", true, One(t.remoteObject)), Req("hints")])
  }

  /** `ExecutionContextsClearedEvent` derives from `dict` and takes any keyword arguments. */
  const ExecutionContextsCleared: Schema := DictLike("ExecutionContextsClearedEvent")

  /**
   * `ConsoleAPICalledEvent.__repr__`: `ConsoleAPICalledEvent(` + the `name={!r}` of each attribute
   * that is not None + `)`.
   */
  method ConsoleAPICalledRepr(e: Py, show: Py -> string) returns (r: string)
    requires e.PObj? && KeyList(e.attrs) == ConsoleAPICalledSlots
    ensures r == Repr("ConsoleAPICalledEvent", e.attrs, show)
  {
    var a := e.attrs;
    assert |a| == |KeyList(a)| == 6;
    var reprArgs: seq<string> := [];
    if a[0].1 != PNone {
      reprArgs := reprArgs + ["type=" + show(a[0].1)];
    }
    assert a[0].0 == KeyList(a)[0] && a[0].0 + "=" == "type=";
    assert reprArgs == ReprArgsTo(a, 1, show);
    if a[1].1 != PNone {
      reprArgs := reprArgs + ["args=" + show(a[1].1)];
    }
    assert a[1].0 == KeyList(a)[1] && a[1].0 + "=" == "args=";
    assert reprArgs == ReprArgsTo(a, 2, show);
    if a[2].1 != PNone {
      reprArgs := reprArgs + ["executionContextId=" + show(a[2].1)];
    }
    assert a[2].0 == KeyList(a)[2] && a[2].0 + "=" == "executionContextId=";
    assert reprArgs == ReprArgsTo(a, 3, show);
    if a[3].1 != PNone {
      reprArgs := reprArgs + ["timestamp=" + show(a[3].1)];
    }
    assert a[3].0 == KeyList(a)[3] && a[3].0 + "=" == "timestamp=";
    assert reprArgs == ReprArgsTo(a, 4, show);
    if a[4].1 != PNone {
      reprArgs := reprArgs + ["stackTrace=" + show(a[4].1)];
    }
    assert a[4].0 == KeyList(a)[4] && a[4].0 + "=" == "stackTrace=";
    assert reprArgs == ReprArgsTo(a, 5, show);
    if a[5].1 != PNone {
      reprArgs := reprArgs + ["context=" + show(a[5].1)];
    }
    assert a[5].0 == KeyList(a)[5] && a[5].0 + "=" == "context=";
    assert reprArgs == ReprArgsTo(a, 6, show);
    assert "ConsoleAPICalledEvent" + "(" == "ConsoleAPICalledEvent(";
    r := "ConsoleAPICalledEvent(" + Join(reprArgs, ", ") + ")";
  }

  /**
   * `ExceptionRevokedEvent.__repr__`: `ExceptionRevokedEvent(` + the `name={!r}` of each attribute
   * that is not None + `)`.
   */
  method ExceptionRevokedRepr(e: Py, show: Py -> string) returns (r: string)
    requires e.PObj? && KeyList(e.attrs) == ExceptionRevokedSlots
    ensures r == Repr("ExceptionRevokedEvent", e.attrs, show)
  {
    var a := e.attrs;
    assert |a| == |KeyList(a)| == 2;
    var reprArgs: seq<string> := [];
    if a[0].1 != PNone {
      reprArgs := reprArgs + ["reason=" + show(a[0].1)];
    }
    assert a[0].0 == KeyList(a)[0] && a[0].0 + "=" == "reason=";
    assert reprArgs == ReprArgsTo(a, 1, show);
    if a[1].1 != PNone {
      reprArgs := reprArgs + ["exceptionId=" + show(a[1].1)];
    }
    assert a[1].0 == KeyList(a)[1] && a[1].0 + "=" == "exceptionId=";
    assert reprArgs == ReprArgsTo(a, 2, show);
    assert "ExceptionRevokedEvent" + "(" == "ExceptionRevokedEvent(";
    r := "ExceptionRevokedEvent(" + Join(reprArgs, ", ") + ")";
  }

  /**
   * `ExceptionThrownEvent.__repr__`: `ExceptionThrownEvent(` + the `name={!r}` of each attribute
   * that is not None + `)`.
   */
  method ExceptionThrownRepr(e: Py, show: Py -> string) returns (r: string)
    requires e.PObj? && KeyList(e.attrs) == ExceptionThrownSlots
    ensures r == Repr("ExceptionThrownEvent", e.attrs, show)
  {
    var a := e.attrs;
    assert |a| == |KeyList(a)| == 2;
    var reprArgs: seq<string> := [];
    if a[0].1 != PNone {
      reprArgs := reprArgs + ["timestamp=" + show(a[0].1)];
    }
    assert a[0].0 == KeyList(a)[0] && a[0].0 + "=" == "timestamp=";
    assert reprArgs == ReprArgsTo(a, 1, show);
    if a[1].1 != PNone {
      reprArgs := reprArgs + ["exceptionDetails=" + show(a[1].1)];
    }
    assert a[1].0 == KeyList(a)[1] && a[1].0 + "=" == "exceptionDetails=";
    assert reprArgs == ReprArgsTo(a, 2, show);
    assert "ExceptionThrownEvent" + "(" == "ExceptionThrownEvent(";
    r := "ExceptionThrownEvent(" + Join(reprArgs, ", ") + ")";
  }

  /**
   * `ExecutionContextCreatedEvent.__repr__`: `ExecutionContextCreatedEvent(` + the `name={!r}` of
   * each attribute that is not None + `)`.
   */
  method ExecutionContextCreatedRepr(e: Py, show: Py -> string) returns (r: string)
    requires e.PObj? && KeyList(e.attrs) == ExecutionContextCreatedSlots
    ensures r == Repr("ExecutionContextCreatedEvent", e.attrs, show)
  {
    var a := e.attrs;
    assert |a| == |KeyList(a)| == 1;
    var reprArgs: seq<string> := [];
    if a[0].1 != PNone {
      reprArgs := reprArgs + ["context=" + show(a[0].1)];
    }
    assert a[0].0 == KeyList(a)[0] && a[0].0 + "=" == "context=";
    assert reprArgs == ReprArgsTo(a, 1, show);
    assert "ExecutionContextCreatedEvent" + "(" == "ExecutionContextCreatedEvent(";
    r := "ExecutionContextCreatedEvent(" + Join(reprArgs, ", ") + ")";
  }

  /**
   * `ExecutionContextDestroyedEvent.__repr__`: `ExecutionContextDestroyedEvent(` + the `name={!r}`
   * of each attribute that is not None + `)`.
   */
  method ExecutionContextDestroyedRepr(e: Py, show: Py -> string) returns (r: string)
    requires e.PObj? && KeyList(e.attrs) == ExecutionContextDestroyedSlots
    ensures r == Repr("ExecutionContextDestroyedEvent", e.attrs, show)
  {
    var a := e.attrs;
    assert |a| == |KeyList(a)| == 1;
    var reprArgs: seq<string> := [];
    if a[0].1 != PNone {
      reprArgs := reprArgs + ["executionContextId=" + show(a[0].1)];
    }
    assert a[0].0 == KeyList(a)[0] && a[0].0 + "=" == "executionContextId=";
    assert reprArgs == ReprArgsTo(a, 1, show);
    assert "ExecutionContextDestroyedEvent" + "(" == "ExecutionContextDestroyedEvent(";
    r := "ExecutionContextDestroyedEvent(" + Join(reprArgs, ", ") + ")";
  }

  /**
   * `InspectRequestedEvent.__repr__`: `InspectRequestedEvent(` + the `name={!r}` of each attribute
   * that is not None + `)`.
   */
  method InspectRequestedRepr(e: Py, show: Py -> string) returns (r: string)
    requires e.PObj? && KeyList(e.attrs) == InspectRequestedSlots
    ensures r == Repr("InspectRequestedEvent", e.attrs, show)
  {
    var a := e.attrs;
    assert |a| == |KeyList(a)| == 2;
    var reprArgs: seq<string> := [];
    if a[0].1 != PNone {
      reprArgs := reprArgs + ["object=" + show(a[0].1)];
    }
    assert a[0].0 == KeyList(a)[0] && a[0].0 + "=" == "object=";
    assert reprArgs == ReprArgsTo(a, 1, show);
    if a[1].1 != PNone {
      reprArgs := reprArgs + ["hints=" + show(a[1].1)];
    }
    assert a[1].0 == KeyList(a)[1] && a[1].0 + "=" == "hints=";
    assert reprArgs == ReprArgsTo(a, 2, show);
    assert "InspectRequestedEvent" + "(" == "InspectRequestedEvent(";
    r := "InspectRequestedEvent(" + Join(reprArgs, ", ") + ")";
  }

  /** `RUNTIME_EVENTS_TO_CLASS`: the class that decodes each event's parameters. */
  function RuntimeEventsToClass(t: RuntimeTypes): map<string, Schema>
  {
    map[
      "Runtime.consoleAPICalled" := ConsoleAPICalled(t),
      "Runtime.exceptionRevoked" := ExceptionRevoked,
      "Runtime.exceptionThrown" := ExceptionThrown(t),
      "Runtime.executionContextCreated" := ExecutionContextCreated(t),
      "Runtime.executionContextDestroyed" := ExecutionContextDestroyed,
      "Runtime.executionContextsCleared" := ExecutionContextsCleared,
      "Runtime.inspectRequested" := InspectRequested(t)]
  }

  /** `RUNTIME_EVENTS_NS`: the fields of the `RuntimeNS` named tuple with their values, in order. */
  const RuntimeEventsNs: seq<(string, string)> := [
    ("ConsoleAPICalled", "Runtime.consoleAPICalled"),
    ("ExceptionRevoked", "Runtime.exceptionRevoked"),
    ("ExceptionThrown", "Runtime.exceptionThrown"),
    ("ExecutionContextCreated", "Runtime.executionContextCreated"),
    ("ExecutionContextDestroyed", "Runtime.executionContextDestroyed"),
    ("ExecutionContextsCleared", "Runtime.executionContextsCleared"),
    ("InspectRequested", "Runtime.inspectRequested")]

  /**
   * Each field `F` of `RUNTIME_EVENTS_NS` names a key of `RUNTIME_EVENTS_TO_CLASS` whose class is
   * `FEvent`.
   */
  lemma RuntimeNsValuesAreKeys(t: RuntimeTypes)
    ensures |RuntimeEventsNs| == 7
    ensures forall k :: 0 <= k < |RuntimeEventsNs| ==>
      && RuntimeEventsNs[k].1 in RuntimeEventsToClass(t)
      && RuntimeEventsToClass(t)[RuntimeEventsNs[k].1].cls == RuntimeEventsNs[k].0 + "Event"
  {
  }

  /** Every key of `RUNTIME_EVENTS_TO_CLASS` is one of the values of `RUNTIME_EVENTS_NS`. */
  lemma RuntimeKeysAreNsValues(t: RuntimeTypes, n: string)
    requires n in RuntimeEventsToClass(t)
    ensures exists k :: 0 <= k < |RuntimeEventsNs| && RuntimeEventsNs[k].1 == n
  {
    var ns := RuntimeEventsNs;
    if n == ns[0].1 {
    } else if n == ns[1].1 {
      assert ns[1].1 == n;
    } else if n == ns[2].1 {
      assert ns[2].1 == n;
    } else if n == ns[3].1 {
      assert ns[3].1 == n;
    } else if n == ns[4].1 {
      assert ns[4].1 == n;
    } else if n == ns[5].1 {
      assert ns[5].1 == n;
    } else {
      assert ns[6].1 == n;
    }
  }

  /** A decoded event's attributes are in slot order: it is one `__repr__` accepts. */
  lemma SlotsAreFieldOrder(t: RuntimeTypes)
    ensures FieldNames(ConsoleAPICalled(t).fields) == ConsoleAPICalledSlots
    ensures FieldNames(ExceptionRevoked.fields) == ExceptionRevokedSlots
    ensures FieldNames(ExceptionThrown(t).fields) == ExceptionThrownSlots
    ensures FieldNames(ExecutionContextCreated(t).fields) == ExecutionContextCreatedSlots
    ensures FieldNames(ExecutionContextDestroyed.fields) == ExecutionContextDestroyedSlots
    ensures FieldNames(InspectRequested(t).fields) == InspectRequestedSlots
  {
  }

  lemma ConsoleAPICalledNames(t: RuntimeTypes)
    ensures Names(ConsoleAPICalled(t).fields) ==
      {"type", "args", "executionContextId", "timestamp", "stackTrace", "context"}
    ensures RequiredNames(ConsoleAPICalled(t).fields) == {"type", "args", "executionContextId", "timestamp"}
  {
    var fs := ConsoleAPICalled(t).fields;
    assert fs[0].name == "type" && fs[1].name == "args" && fs[2].name == "executionContextId";
    assert fs[3].name == "timestamp" && fs[4].name == "stackTrace" && fs[5].name == "context";
  }

  /**
   * `ConsoleAPICalledEvent.safe_create` yields an event iff the input is a mapping holding
   * `type`, `args`, `executionContextId` and `timestamp`, with no key beyond those and
   * `stackTrace` and `context`, and whose `args` is None or can be iterated; otherwise the
   * input comes back unchanged.
   */
  lemma ConsoleAPICalledDecodes(t: RuntimeTypes, j: Json)
    ensures Decode(ConsoleAPICalled(t), j).PObj? <==>
      && j.JObj?
      && {"type", "args", "executionContextId", "timestamp"} <= Keys(j.entries)
      && Keys(j.entries) <= {"type", "args", "executionContextId", "timestamp", "stackTrace", "context"}
      && (Arg(j.entries, "args").JNull? || Iterable(Arg(j.entries, "args")))
    ensures !j.JNull? && !Decode(ConsoleAPICalled(t), j).PObj? ==> Decode(ConsoleAPICalled(t), j) == Lift(j)
  {
    var s := ConsoleAPICalled(t);
    var fs := s.fields;
    ConsoleAPICalledNames(t);
    DecodeOutcome(s, j);
    ConstructFields("ConsoleAPICalledEvent", fs, j);
    if j.JObj? {
      var es := j.entries;
      assert (forall k :: 0 <= k < |fs| ==> Assignable(fs[k], es)) <==> Assignable(fs[1], es) by {
        assert !fs[0].kind.Many? && !fs[2].kind.Many? && !fs[3].kind.Many?;
        assert !fs[4].kind.Many? && !fs[5].kind.Many?;
      }
    }
  }

  /**
   * A decoded `ConsoleAPICalledEvent` keeps `type` as given, decodes `args` as a list of
   * `RemoteObject`s and `stackTrace` as a `StackTrace` (None when absent).
   */
  lemma ConsoleAPICalledAttrs(t: RuntimeTypes, es: seq<(string, Json)>)
    requires Decode(ConsoleAPICalled(t), JObj(es)).PObj?
    ensures
      var a := Decode(ConsoleAPICalled(t), JObj(es)).attrs;
      && KeyList(a) == ConsoleAPICalledSlots
      && a[0].1 == Lift(Arg(es, "type"))
      && Ok(a[1].1) == DecodeList(t.remoteObject, Arg(es, "args"))
      && a[4].1 == Decode(t.stackTrace, Arg(es, "stackTrace"))
  {
    var s := ConsoleAPICalled(t);
    DecodeOutcome(s, JObj(es));
    AttrsShape(s.fields, es);
  }

  /**
   * `ExecutionContextsClearedEvent.safe_create` of a mapping is that mapping's entries, as the
   * dict subclass.
   */
  lemma ExecutionContextsClearedKeepsEntries(es: seq<(string, Json)>)
    ensures Decode(ExecutionContextsCleared, JObj(es)) == PDictOf("ExecutionContextsClearedEvent", Lift(JObj(es)).entries)
    ensures Decode(ExecutionContextsCleared, JObj(es)).entries == Lift(JObj(es)).entries
  {
  }

  /** Any other value that is not None comes back unchanged. */
  lemma ExecutionContextsClearedOthers(j: Json)
    requires !j.JObj?
    ensures Decode(ExecutionContextsCleared, j) == Lift(j)
  {
  }
}
