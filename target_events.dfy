/**
 * The Target domain's event classes (`cripy/gevent/protocol/target/events.py`): their
 * schemas for the generic decoder, their `__slots__`, their `__repr__`, and the two tables
 * that name them.
 *
 * The module `cripy.gevent.protocol.target.types` is not part of this model: the decoder of
 * `TargetInfo` is the parameter `targetInfo`, and every property below holds whatever it is.
 */
module TargetEvents {
  import opened Json
  import opened Text
  import opened Decoding

  const AttachedToTargetSlots: seq<string> := ["sessionId", "targetInfo", "waitingForDebugger"]

  function AttachedToTarget(targetInfo: Schema): Schema
  {
    Fields("AttachedToTargetEvent",
      [Req("sessionId"), Field("targetInfo", true, One(targetInfo)), Req("waitingForDebugger")])
  }

  const DetachedFromTargetSlots: seq<string> := ["sessionId", "targetId"]

  const DetachedFromTarget: Schema :=
    Fields("DetachedFromTargetEvent", [Req("sessionId"), Opt("targetId")])

  const ReceivedMessageFromTargetSlots: seq<string> := ["sessionId", "message", "targetId"]

  const ReceivedMessageFromTarget: Schema :=
    Fields("ReceivedMessageFromTargetEvent",
      [Req("sessionId"), Req("message"), Opt("targetId")])

  const TargetCreatedSlots: seq<string> := ["targetInfo"]

  function TargetCreated(targetInfo: Schema): Schema
  {
    Fields("TargetCreatedEvent", [Field("targetInfo", true, One(targetInfo))])
  }

  const TargetDestroyedSlots: seq<string> := ["targetId"]

  const TargetDestroyed: Schema :=
    Fields("TargetDestroyedEvent", [Req("targetId")])

  const TargetInfoChangedSlots: seq<string> := ["targetInfo"]

  function TargetInfoChanged(targetInfo: Schema): Schema
  {
    Fields("TargetInfoChangedEvent", [Field("targetInfo", true, One(targetInfo))])
  }

  /**
   * `AttachedToTargetEvent.__repr__`: `AttachedToTargetEvent(` + the `name={!r}` of each attribute
   * that is not None + `)`.
   */
  method AttachedToTargetRepr(e: Py, show: Py -> string) returns (r: string)
    requires e.PObj? && KeyList(e.attrs) == AttachedToTargetSlots
    ensures r == Repr("AttachedToTargetEvent", e.attrs, show)
  {
    var a := e.attrs;
    assert |a| == |KeyList(a)| == 3;
    var reprArgs: seq<string> := [];
    if a[0].1 != PNone {
      reprArgs := reprArgs + ["sessionId=" + show(a[0].1)];
    }
    assert a[0].0 == KeyList(a)[0] && a[0].0 + "=" == "sessionId=";
    assert reprArgs == ReprArgsTo(a, 1, show);
    if a[1].1 != PNone {
      reprArgs := reprArgs + ["targetInfo=" + show(a[1].1)];
    }
    assert a[1].0 == KeyList(a)[1] && a[1].0 + "=" == "targetInfo=";
    assert reprArgs == ReprArgsTo(a, 2, show);
    if a[2].1 != PNone {
      reprArgs := reprArgs + ["waitingForDebugger=" + show(a[2].1)];
    }
    assert a[2].0 == KeyList(a)[2] && a[2].0 + "=" == "waitingForDebugger=";
    assert reprArgs == ReprArgsTo(a, 3, show);
    assert "AttachedToTargetEvent" + "(" == "AttachedToTargetEvent(";
    r := "AttachedToTargetEvent(" + Join(reprArgs, ", ") + ")";
  }

  /**
   * `DetachedFromTargetEvent.__repr__`: `DetachedFromTargetEvent(` + the `name={!r}` of each
   * attribute that is not None + `)`.
   */
  method DetachedFromTargetRepr(e: Py, show: Py -> string) returns (r: string)
    requires e.PObj? && KeyList(e.attrs) == DetachedFromTargetSlots
    ensures r == Repr("DetachedFromTargetEvent", e.attrs, show)
  {
    var a := e.attrs;
    assert |a| == |KeyList(a)| == 2;
    var reprArgs: seq<string> := [];
    if a[0].1 != PNone {
      reprArgs := reprArgs + ["sessionId=" + show(a[0].1)];
    }
    assert a[0].0 == KeyList(a)[0] && a[0].0 + "=" == "sessionId=";
    assert reprArgs == ReprArgsTo(a, 1, show);
    if a[1].1 != PNone {
      reprArgs := reprArgs + ["targetId=" + show(a[1].1)];
    }
    assert a[1].0 == KeyList(a)[1] && a[1].0 + "=" == "targetId=";
    assert reprArgs == ReprArgsTo(a, 2, show);
    assert "DetachedFromTargetEvent" + "(" == "DetachedFromTargetEvent(";
    r := "DetachedFromTargetEvent(" + Join(reprArgs, ", ") + ")";
  }

  /**
   * `ReceivedMessageFromTargetEvent.__repr__`: `ReceivedMessageFromTargetEvent(` + the `name={!r}`
   * of each attribute that is not None + `)`.
   */
  method ReceivedMessageFromTargetRepr(e: Py, show: Py -> string) returns (r: string)
    requires e.PObj? && KeyList(e.attrs) == ReceivedMessageFromTargetSlots
    ensures r == Repr("ReceivedMessageFromTargetEvent", e.attrs, show)
  {
    var a := e.attrs;
    assert |a| == |KeyList(a)| == 3;
    var reprArgs: seq<string> := [];
    if a[0].1 != PNone {
      reprArgs := reprArgs + ["sessionId=" + show(a[0].1)];
    }
    assert a[0].0 == KeyList(a)[0] && a[0].0 + "=" == "sessionId=";
    assert reprArgs == ReprArgsTo(a, 1, show);
    if a[1].1 != PNone {
      reprArgs := reprArgs + ["message=" + show(a[1].1)];
    }
    assert a[1].0 == KeyList(a)[1] && a[1].0 + "=" == "message=";
    assert reprArgs == ReprArgsTo(a, 2, show);
    if a[2].1 != PNone {
      reprArgs := reprArgs + ["targetId=" + show(a[2].1)];
    }
    assert a[2].0 == KeyList(a)[2] && a[2].0 + "=" == "targetId=";
    assert reprArgs == ReprArgsTo(a, 3, show);
    assert "ReceivedMessageFromTargetEvent" + "(" == "ReceivedMessageFromTargetEvent(";
    r := "ReceivedMessageFromTargetEvent(" + Join(reprArgs, ", ") + ")";
  }

  /**
   * `TargetCreatedEvent.__repr__`: `TargetCreatedEvent(` + the `name={!r}` of each attribute that
   * is not None + `)`.
   */
  method TargetCreatedRepr(e: Py, show: Py -> string) returns (r: string)
    requires e.PObj? && KeyList(e.attrs) == TargetCreatedSlots
    ensures r == Repr("TargetCreatedEvent", e.attrs, show)
  {
    var a := e.attrs;
    assert |a| == |KeyList(a)| == 1;
    var reprArgs: seq<string> := [];
    if a[0].1 != PNone {
      reprArgs := reprArgs + ["targetInfo=" + show(a[0].1)];
    }
    assert a[0].0 == KeyList(a)[0] && a[0].0 + "=" == "targetInfo=";
    assert reprArgs == ReprArgsTo(a, 1, show);
    assert "TargetCreatedEvent" + "(" == "TargetCreatedEvent(";
    r := "TargetCreatedEvent(" + Join(reprArgs, ", ") + ")";
  }

  /**
   * `TargetDestroyedEvent.__repr__`: `TargetDestroyedEvent(` + the `name={!r}` of each attribute
   * that is not None + `)`.
   */
  method TargetDestroyedRepr(e: Py, show: Py -> string) returns (r: string)
    requires e.PObj? && KeyList(e.attrs) == TargetDestroyedSlots
    ensures r == Repr("TargetDestroyedEvent", e.attrs, show)
  {
    var a := e.attrs;
    assert |a| == |KeyList(a)| == 1;
    var reprArgs: seq<string> := [];
    if a[0].1 != PNone {
      reprArgs := reprArgs + ["targetId=" + show(a[0].1)];
    }
    assert a[0].0 == KeyList(a)[0] && a[0].0 + "=" == "targetId=";
    assert reprArgs == ReprArgsTo(a, 1, show);
    assert "TargetDestroyedEvent" + "(" == "TargetDestroyedEvent(";
    r := "TargetDestroyedEvent(" + Join(reprArgs, ", ") + ")";
  }

  /**
   * `TargetInfoChangedEvent.__repr__`: `TargetInfoChangedEvent(` + the `name={!r}` of each
   * attribute that is not None + `)`.
   */
  method TargetInfoChangedRepr(e: Py, show: Py -> string) returns (r: string)
    requires e.PObj? && KeyList(e.attrs) == TargetInfoChangedSlots
    ensures r == Repr("TargetInfoChangedEvent", e.attrs, show)
  {
    var a := e.attrs;
    assert |a| == |KeyList(a)| == 1;
    var reprArgs: seq<string> := [];
    if a[0].1 != PNone {
      reprArgs := reprArgs + ["targetInfo=" + show(a[0].1)];
    }
    assert a[0].0 == KeyList(a)[0] && a[0].0 + "=" == "targetInfo=";
    assert reprArgs == ReprArgsTo(a, 1, show);
    assert "TargetInfoChangedEvent" + "(" == "TargetInfoChangedEvent(";
    r := "TargetInfoChangedEvent(" + Join(reprArgs, ", ") + ")";
  }

  /** `TARGET_EVENTS_TO_CLASS`: the class that decodes each event's parameters. */
  function TargetEventsToClass(targetInfo: Schema): map<string, Schema>
  {
    map[
      "Target.attachedToTarget" := AttachedToTarget(targetInfo),
      "Target.detachedFromTarget" := DetachedFromTarget,
      "Target.receivedMessageFromTarget" := ReceivedMessageFromTarget,
      "Target.targetCreated" := TargetCreated(targetInfo),
      "Target.targetDestroyed" := TargetDestroyed,
      "Target.targetInfoChanged" := TargetInfoChanged(targetInfo)]
  }

  /** `TARGET_EVENTS_NS`: the fields of the `TargetNS` named tuple with their values, in order. */
  const TargetEventsNs: seq<(string, string)> := [
    ("AttachedToTarget", "Target.attachedToTarget"),
    ("DetachedFromTarget", "Target.detachedFromTarget"),
    ("ReceivedMessageFromTarget", "Target.receivedMessageFromTarget"),
    ("TargetCreated", "Target.targetCreated"),
    ("TargetDestroyed", "Target.targetDestroyed"),
    ("TargetInfoChanged", "Target.targetInfoChanged")]

  /**
   * Each field `F` of `TARGET_EVENTS_NS` names a key of `TARGET_EVENTS_TO_CLASS` whose class is
   * `FEvent`.
   */
  lemma TargetNsValuesAreKeys(targetInfo: Schema)
    ensures |TargetEventsNs| == 6
    ensures forall k :: 0 <= k < |TargetEventsNs| ==>
      && TargetEventsNs[k].1 in TargetEventsToClass(targetInfo)
      && TargetEventsToClass(targetInfo)[TargetEventsNs[k].1].cls == TargetEventsNs[k].0 + "Event"
  {
    forall k | 0 <= k < |TargetEventsNs|
      ensures TargetEventsNs[k].1 in TargetEventsToClass(targetInfo)
      ensures TargetEventsToClass(targetInfo)[TargetEventsNs[k].1].cls == TargetEventsNs[k].0 + "Event"
    {
      if k == 0 {
        assert "AttachedToTarget" + "Event" == "AttachedToTargetEvent";
      } else if k == 1 {
        assert "DetachedFromTarget" + "Event" == "DetachedFromTargetEvent";
      } else if k == 2 {
        assert "ReceivedMessageFromTarget" + "Event" == "ReceivedMessageFromTargetEvent";
      } else if k == 3 {
        assert "TargetCreated" + "Event" == "TargetCreatedEvent";
      } else if k == 4 {
        assert "TargetDestroyed" + "Event" == "TargetDestroyedEvent";
      } else {
        assert "TargetInfoChanged" + "Event" == "TargetInfoChangedEvent";
      }
    }
  }

  /** Every key of `TARGET_EVENTS_TO_CLASS` is one of the values of `TARGET_EVENTS_NS`. */
  lemma TargetKeysAreNsValues(targetInfo: Schema, n: string)
    requires n in TargetEventsToClass(targetInfo)
    ensures exists k :: 0 <= k < |TargetEventsNs| && TargetEventsNs[k].1 == n
  {
    var ns := TargetEventsNs;
    if n == ns[0].1 {
    } else if n == ns[1].1 {
      assert ns[1].1 == n;
    } else if n == ns[2].1 {
      assert ns[2].1 == n;
    } else if n == ns[3].1 {
      assert ns[3].1 == n;
    } else if n == ns[4].1 {
      assert ns[4].1 == n;
    } else {
      assert ns[5].1 == n;
    }
  }

  /** A decoded event's attributes are in slot order: it is one `__repr__` accepts. */
  lemma SlotsAreFieldOrder(targetInfo: Schema)
    ensures FieldNames(AttachedToTarget(targetInfo).fields) == AttachedToTargetSlots
    ensures FieldNames(DetachedFromTarget.fields) == DetachedFromTargetSlots
    ensures FieldNames(ReceivedMessageFromTarget.fields) == ReceivedMessageFromTargetSlots
    ensures FieldNames(TargetCreated(targetInfo).fields) == TargetCreatedSlots
    ensures FieldNames(TargetDestroyed.fields) == TargetDestroyedSlots
    ensures FieldNames(TargetInfoChanged(targetInfo).fields) == TargetInfoChangedSlots
  {
  }

  /**
   * `AttachedToTargetEvent` requires all three of its fields: `safe_create` yields an event
   * iff the keys are exactly `sessionId`, `targetInfo` and `waitingForDebugger`, and gives the
   * input back otherwise.
   */
  lemma AttachedToTargetDecodes(targetInfo: Schema, j: Json)
    ensures Decode(AttachedToTarget(targetInfo), j).PObj? <==>
      j.JObj? && Keys(j.entries) == {"sessionId", "targetInfo", "waitingForDebugger"}
    ensures !j.JNull? && !Decode(AttachedToTarget(targetInfo), j).PObj? ==>
      Decode(AttachedToTarget(targetInfo), j) == Lift(j)
  {
    AttachedToTargetNames(targetInfo);
    ScalarDecodes("AttachedToTargetEvent", AttachedToTarget(targetInfo).fields, j);
  }

  /** All three parameters of `AttachedToTargetEvent` are required. */
  lemma AttachedToTargetNames(targetInfo: Schema)
    ensures Names(AttachedToTarget(targetInfo).fields) == {"sessionId", "targetInfo", "waitingForDebugger"}
    ensures RequiredNames(AttachedToTarget(targetInfo).fields) == Names(AttachedToTarget(targetInfo).fields)
  {
    var fs := AttachedToTarget(targetInfo).fields;
    assert fs[0].name == "sessionId" && fs[1].name == "targetInfo" && fs[2].name == "waitingForDebugger";
  }

  /**
   * A decoded `AttachedToTargetEvent` stores `sessionId` and `waitingForDebugger` as given
   * and `targetInfo` through `TargetInfo.safe_create`.
   */
  lemma AttachedToTargetAttrs(targetInfo: Schema, es: seq<(string, Json)>)
    requires Keys(es) == {"sessionId", "targetInfo", "waitingForDebugger"}
    ensures Decode(AttachedToTarget(targetInfo), JObj(es)) == PObj("AttachedToTargetEvent",
      [("sessionId", Lift(Arg(es, "sessionId"))), ("targetInfo", Decode(targetInfo, Arg(es, "targetInfo"))),
       ("waitingForDebugger", Lift(Arg(es, "waitingForDebugger")))])
  {
    var fs := AttachedToTarget(targetInfo).fields;
    AttachedToTargetNames(targetInfo);
    ScalarDecodes("AttachedToTargetEvent", fs, JObj(es));
    var a := ScalarAttrs(fs, es);
    assert a == [a[0], a[1], a[2]];
  }

  /**
   * `DetachedFromTargetEvent` requires only `sessionId`: a mapping with it and at most
   * `targetId` besides decodes, `sessionId` is stored as given, and an absent `targetId`
   * is None.
   */
  lemma DetachedFromTargetDecodes(j: Json)
    ensures Decode(DetachedFromTarget, j).PObj? <==>
      j.JObj? && "sessionId" in Keys(j.entries) && Keys(j.entries) <= {"sessionId", "targetId"}
    ensures !j.JNull? && !Decode(DetachedFromTarget, j).PObj? ==> Decode(DetachedFromTarget, j) == Lift(j)
    ensures Decode(DetachedFromTarget, j).PObj? ==>
      var es := j.entries;
      && Decode(DetachedFromTarget, j) ==
           PObj("DetachedFromTargetEvent", [("sessionId", Lift(Arg(es, "sessionId"))), ("targetId", Lift(Arg(es, "targetId")))])
      && ("targetId" !in Keys(es) ==> Decode(DetachedFromTarget, j).attrs[1].1 == PNone)
  {
    var s := DetachedFromTarget;
    var fs := s.fields;
    assert Names(fs) == {"sessionId", "targetId"} && RequiredNames(fs) == {"sessionId"} by {
      assert fs[0].name == "sessionId" && fs[1].name == "targetId" && !fs[1].required;
    }
    DecodeOutcome(s, j);
    ConstructFields("DetachedFromTargetEvent", fs, j);
    if Decode(s, j).PObj? {
      DecodeFields("DetachedFromTargetEvent", fs, j.entries);
      var a := Decode(s, j).attrs;
      assert a[0].0 == KeyList(a)[0] && a[1].0 == KeyList(a)[1];
      assert a == [a[0], a[1]];
      IndexOfKeys(j.entries, "targetId");
    }
  }

  /** The `DetachedFromTargetEvent` repr leaves `targetId` out when it is None. */
  lemma DetachedFromTargetReprOmitsTargetId(e: Py, show: Py -> string)
    requires e.PObj? && KeyList(e.attrs) == DetachedFromTargetSlots
    requires e.attrs[0].1 != PNone && e.attrs[1].1 == PNone
    ensures Repr("DetachedFromTargetEvent", e.attrs, show) == "DetachedFromTargetEvent(sessionId=" + show(e.attrs[0].1) + ")"
  {
    var a := e.attrs;
    assert |a| == |KeyList(a)| == 2;
    assert a[0].0 == KeyList(a)[0] && a[0].0 + "=" == "sessionId=";
    assert ReprArgs(a, show) == [a[0].0 + "=" + show(a[0].1)] by {
      assert ReprArgsTo(a, 1, show) == ReprArgsTo(a, 0, show) + Piece(a[0], show);
    }
  }
}
