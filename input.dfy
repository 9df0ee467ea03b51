/**
 * The `Input` domain (`cripy/gevent/protocol/input/domain.py`), gevent flavour: each command
 * sends its params and returns `wres.get()`, the reply the client's call resolves to.
 */
module InputDomain {
  import opened Json
  import opened Decoding
  import opened Protocol

  class Input {
    const chrome: Client

    constructor (chrome: Client)
      ensures this.chrome == chrome
    {
      this.chrome := chrome;
    }

    /**
     * `dispatchKeyEvent(type, modifiers, timestamp, text, unmodifiedText, keyIdentifier, code,
     * key, windowsVirtualKeyCode, nativeVirtualKeyCode, autoRepeat, isKeypad, isSystemKey,
     * location)`: sends `Input.dispatchKeyEvent` with the arguments that are not None, and returns
     * `wres.get()`, the reply.
     */
    method DispatchKeyEvent(
      typ: Json, modifiers: Json, timestamp: Json, text: Json, unmodifiedText: Json,
      keyIdentifier: Json, code: Json, key: Json, windowsVirtualKeyCode: Json,
      nativeVirtualKeyCode: Json, autoRepeat: Json, isKeypad: Json, isSystemKey: Json,
      location: Json)
      returns (r: Json)
      modifies chrome
      ensures chrome.SentOne(old(chrome.trace), old(chrome.replies), "Input.dispatchKeyEvent",
        Some(BuildParams([("type", typ), ("modifiers", modifiers), ("timestamp", timestamp),
            ("text", text), ("unmodifiedText", unmodifiedText), ("keyIdentifier", keyIdentifier),
            ("code", code), ("key", key), ("windowsVirtualKeyCode", windowsVirtualKeyCode),
            ("nativeVirtualKeyCode", nativeVirtualKeyCode), ("autoRepeat", autoRepeat),
            ("isKeypad", isKeypad), ("isSystemKey", isSystemKey), ("location", location)])))
      ensures r == NextReply(old(chrome.replies))
    {
      var msgDict := MsgDict([
        ("type", typ),
        ("modifiers", modifiers),
        ("timestamp", timestamp),
        ("text", text),
        ("unmodifiedText", unmodifiedText),
        ("keyIdentifier", keyIdentifier),
        ("code", code),
        ("key", key),
        ("windowsVirtualKeyCode", windowsVirtualKeyCode),
        ("nativeVirtualKeyCode", nativeVirtualKeyCode),
        ("autoRepeat", autoRepeat),
        ("isKeypad", isKeypad),
        ("isSystemKey", isSystemKey),
        ("location", location)]);
      var wres := chrome.Send("Input.dispatchKeyEvent", Some(msgDict));
      r := wres;
    }

    /**
     * `dispatchMouseEvent(type, x, y, modifiers, timestamp, button, clickCount, deltaX, deltaY)`:
     * sends `Input.dispatchMouseEvent` with the arguments that are not None, and returns
     * `wres.get()`, the reply.
     */
    method DispatchMouseEvent(
      typ: Json, x: Json, y: Json, modifiers: Json, timestamp: Json, button: Json,
      clickCount: Json, deltaX: Json, deltaY: Json)
      returns (r: Json)
      modifies chrome
      ensures chrome.SentOne(old(chrome.trace), old(chrome.replies), "Input.dispatchMouseEvent",
        Some(BuildParams([("type", typ), ("x", x), ("y", y), ("modifiers", modifiers),
            ("timestamp", timestamp), ("button", button), ("clickCount", clickCount), ("deltaX",
            deltaX), ("deltaY", deltaY)])))
      ensures r == NextReply(old(chrome.replies))
    {
      var msgDict := MsgDict([
        ("type", typ),
        ("x", x),
        ("y", y),
        ("modifiers", modifiers),
        ("timestamp", timestamp),
        ("button", button),
        ("clickCount", clickCount),
        ("deltaX", deltaX),
        ("deltaY", deltaY)]);
      var wres := chrome.Send("Input.dispatchMouseEvent", Some(msgDict));
      r := wres;
    }

    /**
     * `dispatchTouchEvent(type, touchPoints, modifiers, timestamp)`: sends
     * `Input.dispatchTouchEvent` with the arguments that are not None, and returns `wres.get()`,
     * the reply.
     */
    method DispatchTouchEvent(
      typ: Json, touchPoints: Json, modifiers: Json, timestamp: Json)
      returns (r: Json)
      modifies chrome
      ensures chrome.SentOne(old(chrome.trace), old(chrome.replies), "Input.dispatchTouchEvent",
        Some(BuildParams([("type", typ), ("touchPoints", touchPoints), ("modifiers", modifiers),
            ("timestamp", timestamp)])))
      ensures r == NextReply(old(chrome.replies))
    {
      var msgDict := MsgDict([
        ("type", typ),
        ("touchPoints", touchPoints),
        ("modifiers", modifiers),
        ("timestamp", timestamp)]);
      var wres := chrome.Send("Input.dispatchTouchEvent", Some(msgDict));
      r := wres;
    }

    /**
     * `emulateTouchFromMouseEvent(type, x, y, button, timestamp, deltaX, deltaY, modifiers,
     * clickCount)`: sends `Input.emulateTouchFromMouseEvent` with the arguments that are not None,
     * and returns `wres.get()`, the reply.
     */
    method EmulateTouchFromMouseEvent(
      typ: Json, x: Json, y: Json, button: Json, timestamp: Json, deltaX: Json, deltaY: Json,
      modifiers: Json, clickCount: Json)
      returns (r: Json)
      modifies chrome
      ensures chrome.SentOne(old(chrome.trace), old(chrome.replies),
        "Input.emulateTouchFromMouseEvent",
        Some(BuildParams([("type", typ), ("x", x), ("y", y), ("button", button), ("timestamp",
            timestamp), ("deltaX", deltaX), ("deltaY", deltaY), ("modifiers", modifiers),
            ("clickCount", clickCount)])))
      ensures r == NextReply(old(chrome.replies))
    {
      var msgDict := MsgDict([
        ("type", typ),
        ("x", x),
        ("y", y),
        ("button", button),
        ("timestamp", timestamp),
        ("deltaX", deltaX),
        ("deltaY", deltaY),
        ("modifiers", modifiers),
        ("clickCount", clickCount)]);
      var wres := chrome.Send("Input.emulateTouchFromMouseEvent", Some(msgDict));
      r := wres;
    }

    /**
     * `setIgnoreInputEvents(ignore)`: sends `Input.setIgnoreInputEvents` with the arguments that
     * are not None, and returns `wres.get()`, the reply.
     */
    method SetIgnoreInputEvents(ignore: Json) returns (r: Json)
      modifies chrome
      ensures chrome.SentOne(old(chrome.trace), old(chrome.replies), "Input.setIgnoreInputEvents",
        Some(BuildParams([("ignore", ignore)])))
      ensures r == NextReply(old(chrome.replies))
    {
      var msgDict := MsgDict([("ignore", ignore)]);
      var wres := chrome.Send("Input.setIgnoreInputEvents", Some(msgDict));
      r := wres;
    }

    /**
     * `synthesizePinchGesture(x, y, scaleFactor, relativeSpeed, gestureSourceType)`: sends
     * `Input.synthesizePinchGesture` with the arguments that are not None, and returns
     * `wres.get()`, the reply.
     */
    method SynthesizePinchGesture(
      x: Json, y: Json, scaleFactor: Json, relativeSpeed: Json, gestureSourceType: Json)
      returns (r: Json)
      modifies chrome
      ensures chrome.SentOne(old(chrome.trace), old(chrome.replies), "Input.synthesizePinchGesture",
        Some(BuildParams([("x", x), ("y", y), ("scaleFactor", scaleFactor), ("relativeSpeed",
            relativeSpeed), ("gestureSourceType", gestureSourceType)])))
      ensures r == NextReply(old(chrome.replies))
    {
      var msgDict := MsgDict([
        ("x", x),
        ("y", y),
        ("scaleFactor", scaleFactor),
        ("relativeSpeed", relativeSpeed),
        ("gestureSourceType", gestureSourceType)]);
      var wres := chrome.Send("Input.synthesizePinchGesture", Some(msgDict));
      r := wres;
    }

    /**
     * `synthesizeScrollGesture(x, y, xDistance, yDistance, xOverscroll, yOverscroll, preventFling,
     * speed, gestureSourceType, repeatCount, repeatDelayMs, interactionMarkerName)`: sends
     * `Input.synthesizeScrollGesture` with the arguments that are not None, and returns
     * `wres.get()`, the reply.
     */
    method SynthesizeScrollGesture(
      x: Json, y: Json, xDistance: Json, yDistance: Json, xOverscroll: Json, yOverscroll: Json,
      preventFling: Json, speed: Json, gestureSourceType: Json, repeatCount: Json,
      repeatDelayMs: Json, interactionMarkerName: Json)
      returns (r: Json)
      modifies chrome
      ensures chrome.SentOne(old(chrome.trace), old(chrome.replies),
        "Input.synthesizeScrollGesture",
        Some(BuildParams([("x", x), ("y", y), ("xDistance", xDistance), ("yDistance", yDistance),
            ("xOverscroll", xOverscroll), ("yOverscroll", yOverscroll), ("preventFling",
            preventFling), ("speed", speed), ("gestureSourceType", gestureSourceType),
            ("repeatCount", repeatCount), ("repeatDelayMs", repeatDelayMs),
            ("interactionMarkerName", interactionMarkerName)])))
      ensures r == NextReply(old(chrome.replies))
    {
      var msgDict := MsgDict([
        ("x", x),
        ("y", y),
        ("xDistance", xDistance),
        ("yDistance", yDistance),
        ("xOverscroll", xOverscroll),
        ("yOverscroll", yOverscroll),
        ("preventFling", preventFling),
        ("speed", speed),
        ("gestureSourceType", gestureSourceType),
        ("repeatCount", repeatCount),
        ("repeatDelayMs", repeatDelayMs),
        ("interactionMarkerName", interactionMarkerName)]);
      var wres := chrome.Send("Input.synthesizeScrollGesture", Some(msgDict));
      r := wres;
    }

    /**
     * `synthesizeTapGesture(x, y, duration, tapCount, gestureSourceType)`: sends
     * `Input.synthesizeTapGesture` with the arguments that are not None, and returns `wres.get()`,
     * the reply.
     */
    method SynthesizeTapGesture(
      x: Json, y: Json, duration: Json, tapCount: Json, gestureSourceType: Json)
      returns (r: Json)
      modifies chrome
      ensures chrome.SentOne(old(chrome.trace), old(chrome.replies), "Input.synthesizeTapGesture",
        Some(BuildParams([("x", x), ("y", y), ("duration", duration), ("tapCount", tapCount),
            ("gestureSourceType", gestureSourceType)])))
      ensures r == NextReply(old(chrome.replies))
    {
      var msgDict := MsgDict([
        ("x", x),
        ("y", y),
        ("duration", duration),
        ("tapCount", tapCount),
        ("gestureSourceType", gestureSourceType)]);
      var wres := chrome.Send("Input.synthesizeTapGesture", Some(msgDict));
      r := wres;
    }

    /** `get_event_classes()`: the domain declares no events. */
    static function GetEventClasses(): (r: Option<EventTable>)
      ensures r == None
    {
      None
    }
  }

  /**
   * The params of `dispatchKeyEvent` hold key `k` exactly when argument `k` is not None, with its
   * value.
   */
  lemma DispatchKeyEventParams(typ: Json, modifiers: Json, timestamp: Json, text: Json,
      unmodifiedText: Json, keyIdentifier: Json, code: Json, key: Json,
      windowsVirtualKeyCode: Json, nativeVirtualKeyCode: Json, autoRepeat: Json, isKeypad: Json,
      isSystemKey: Json, location: Json, k: string)
    ensures
      var args := [("type", typ), ("modifiers", modifiers), ("timestamp", timestamp), ("text",
          text), ("unmodifiedText", unmodifiedText), ("keyIdentifier", keyIdentifier), ("code",
          code), ("key", key), ("windowsVirtualKeyCode", windowsVirtualKeyCode),
          ("nativeVirtualKeyCode", nativeVirtualKeyCode), ("autoRepeat", autoRepeat), ("isKeypad",
          isKeypad), ("isSystemKey", isSystemKey), ("location", location)];
      Arg(BuildParams(args), k) == Arg(args, k) &&
      (k in Keys(BuildParams(args)) <==> !Arg(args, k).JNull?)
  {
    ArgBuildParams([("type", typ), ("modifiers", modifiers), ("timestamp", timestamp), ("text",
        text), ("unmodifiedText", unmodifiedText), ("keyIdentifier", keyIdentifier), ("code",
        code), ("key", key), ("windowsVirtualKeyCode", windowsVirtualKeyCode),
        ("nativeVirtualKeyCode", nativeVirtualKeyCode), ("autoRepeat", autoRepeat), ("isKeypad",
        isKeypad), ("isSystemKey", isSystemKey), ("location", location)], k);
  }

  /** `dispatchKeyEvent` sends its keys in parameter-declaration order. */
  lemma DispatchKeyEventOrder(typ: Json, modifiers: Json, timestamp: Json, text: Json,
      unmodifiedText: Json, keyIdentifier: Json, code: Json, key: Json,
      windowsVirtualKeyCode: Json, nativeVirtualKeyCode: Json, autoRepeat: Json, isKeypad: Json,
      isSystemKey: Json, location: Json, a: nat, b: nat)
    requires
      var args := [("type", typ), ("modifiers", modifiers), ("timestamp", timestamp), ("text",
          text), ("unmodifiedText", unmodifiedText), ("keyIdentifier", keyIdentifier), ("code",
          code), ("key", key), ("windowsVirtualKeyCode", windowsVirtualKeyCode),
          ("nativeVirtualKeyCode", nativeVirtualKeyCode), ("autoRepeat", autoRepeat), ("isKeypad",
          isKeypad), ("isSystemKey", isSystemKey), ("location", location)];
      a < b < 14 && !args[a].1.JNull? && !args[b].1.JNull?
    ensures
      var args := [("type", typ), ("modifiers", modifiers), ("timestamp", timestamp), ("text",
          text), ("unmodifiedText", unmodifiedText), ("keyIdentifier", keyIdentifier), ("code",
          code), ("key", key), ("windowsVirtualKeyCode", windowsVirtualKeyCode),
          ("nativeVirtualKeyCode", nativeVirtualKeyCode), ("autoRepeat", autoRepeat), ("isKeypad",
          isKeypad), ("isSystemKey", isSystemKey), ("location", location)];
      0 <= IndexOf(BuildParams(args), args[a].0) < IndexOf(BuildParams(args), args[b].0)
  {
    BuildParamsOrder([("type", typ), ("modifiers", modifiers), ("timestamp", timestamp), ("text",
        text), ("unmodifiedText", unmodifiedText), ("keyIdentifier", keyIdentifier), ("code",
        code), ("key", key), ("windowsVirtualKeyCode", windowsVirtualKeyCode),
        ("nativeVirtualKeyCode", nativeVirtualKeyCode), ("autoRepeat", autoRepeat), ("isKeypad",
        isKeypad), ("isSystemKey", isSystemKey), ("location", location)], a, b);
  }

  /** `dispatchMouseEvent(type, x, y)`, everything else None, sends exactly `type`, `x` and `y`. */
  lemma DispatchMouseEventMinimal(typ: Json, x: Json, y: Json)
    requires !typ.JNull? && !x.JNull? && !y.JNull?
    ensures BuildParams([("type", typ), ("x", x), ("y", y), ("modifiers", JNull), ("timestamp",
      JNull), ("button", JNull), ("clickCount", JNull), ("deltaX", JNull), ("deltaY",
      JNull)]) == [("type", typ), ("x", x), ("y", y)]
  {
    BuildParamsLeading([("type", typ), ("x", x), ("y", y), ("modifiers", JNull), ("timestamp",
        JNull), ("button", JNull), ("clickCount", JNull), ("deltaX", JNull), ("deltaY", JNull)], 3);
    assert [("type", typ), ("x", x), ("y", y), ("modifiers", JNull), ("timestamp", JNull),
        ("button", JNull), ("clickCount", JNull), ("deltaX", JNull), ("deltaY",
        JNull)][..3] == [("type", typ), ("x", x), ("y", y)];
  }
}
