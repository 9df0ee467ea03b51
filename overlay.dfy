/**
 * The `Overlay` domain (`cripy/asyncio/protocol/overlay/domain.py`), asyncio flavour: commands
 * send their params and return the awaited reply unchanged; three helpers register event
 * handlers.
 */
module OverlayDomain {
  import opened Json
  import opened Decoding
  import opened Protocol

  class Overlay {
    const chrome: Client

    constructor (chrome: Client)
      ensures this.chrome == chrome
    {
      this.chrome := chrome;
    }

    /** `disable()`: sends `Overlay.disable` with no params, and returns the reply. */
    method Disable() returns (r: Json)
      modifies chrome
      ensures chrome.SentOne(old(chrome.trace), old(chrome.replies), "Overlay.disable", None)
      ensures r == NextReply(old(chrome.replies))
    {
      var res := chrome.Send("Overlay.disable", None);
      r := res;
    }

    /** `enable()`: sends `Overlay.enable` with no params, and returns the reply. */
    method Enable() returns (r: Json)
      modifies chrome
      ensures chrome.SentOne(old(chrome.trace), old(chrome.replies), "Overlay.enable", None)
      ensures r == NextReply(old(chrome.replies))
    {
      var res := chrome.Send("Overlay.enable", None);
      r := res;
    }

    /**
     * `getHighlightObjectForTest(nodeId)`: sends `Overlay.getHighlightObjectForTest` with the
     * arguments that are not None, and returns the reply.
     */
    method GetHighlightObjectForTest(nodeId: Json) returns (r: Json)
      modifies chrome
      ensures chrome.SentOne(old(chrome.trace), old(chrome.replies),
        "Overlay.getHighlightObjectForTest",
        Some(BuildParams([("nodeId", nodeId)])))
      ensures r == NextReply(old(chrome.replies))
    {
      var msgDict := MsgDict([("nodeId", nodeId)]);
      var res := chrome.Send("Overlay.getHighlightObjectForTest", Some(msgDict));
      r := res;
    }

    /** `hideHighlight()`: sends `Overlay.hideHighlight` with no params, and returns the reply. */
    method HideHighlight() returns (r: Json)
      modifies chrome
      ensures chrome.SentOne(old(chrome.trace), old(chrome.replies), "Overlay.hideHighlight", None)
      ensures r == NextReply(old(chrome.replies))
    {
      var res := chrome.Send("Overlay.hideHighlight", None);
      r := res;
    }

    /**
     * `highlightFrame(frameId, contentColor, contentOutlineColor)`: sends `Overlay.highlightFrame`
     * with the arguments that are not None, and returns the reply.
     */
    method HighlightFrame(
      frameId: Json, contentColor: Json, contentOutlineColor: Json)
      returns (r: Json)
      modifies chrome
      ensures chrome.SentOne(old(chrome.trace), old(chrome.replies), "Overlay.highlightFrame",
        Some(BuildParams([("frameId", frameId), ("contentColor", contentColor),
            ("contentOutlineColor", contentOutlineColor)])))
      ensures r == NextReply(old(chrome.replies))
    {
      var msgDict := MsgDict([
        ("frameId", frameId),
        ("contentColor", contentColor),
        ("contentOutlineColor", contentOutlineColor)]);
      var res := chrome.Send("Overlay.highlightFrame", Some(msgDict));
      r := res;
    }

    /**
     * `highlightNode(highlightConfig, nodeId, backendNodeId, objectId)`: sends
     * `Overlay.highlightNode` with the arguments that are not None, and returns the reply.
     */
    method HighlightNode(
      highlightConfig: Json, nodeId: Json, backendNodeId: Json, objectId: Json)
      returns (r: Json)
      modifies chrome
      ensures chrome.SentOne(old(chrome.trace), old(chrome.replies), "Overlay.highlightNode",
        Some(BuildParams([("highlightConfig", highlightConfig), ("nodeId", nodeId),
            ("backendNodeId", backendNodeId), ("objectId", objectId)])))
      ensures r == NextReply(old(chrome.replies))
    {
      var msgDict := MsgDict([
        ("highlightConfig", highlightConfig),
        ("nodeId", nodeId),
        ("backendNodeId", backendNodeId),
        ("objectId", objectId)]);
      var res := chrome.Send("Overlay.highlightNode", Some(msgDict));
      r := res;
    }

    /**
     * `highlightQuad(quad, color, outlineColor)`: sends `Overlay.highlightQuad` with the arguments
     * that are not None, and returns the reply.
     */
    method HighlightQuad(quad: Json, color: Json, outlineColor: Json) returns (r: Json)
      modifies chrome
      ensures chrome.SentOne(old(chrome.trace), old(chrome.replies), "Overlay.highlightQuad",
        Some(BuildParams([("quad", quad), ("color", color), ("outlineColor", outlineColor)])))
      ensures r == NextReply(old(chrome.replies))
    {
      var msgDict := MsgDict([("quad", quad), ("color", color), ("outlineColor", outlineColor)]);
      var res := chrome.Send("Overlay.highlightQuad", Some(msgDict));
      r := res;
    }

    /**
     * `highlightRect(x, y, width, height, color, outlineColor)`: sends `Overlay.highlightRect`
     * with the arguments that are not None, and returns the reply.
     */
    method HighlightRect(
      x: Json, y: Json, width: Json, height: Json, color: Json, outlineColor: Json)
      returns (r: Json)
      modifies chrome
      ensures chrome.SentOne(old(chrome.trace), old(chrome.replies), "Overlay.highlightRect",
        Some(BuildParams([("x", x), ("y", y), ("width", width), ("height", height), ("color",
            color), ("outlineColor", outlineColor)])))
      ensures r == NextReply(old(chrome.replies))
    {
      var msgDict := MsgDict([
        ("x", x),
        ("y", y),
        ("width", width),
        ("height", height),
        ("color", color),
        ("outlineColor", outlineColor)]);
      var res := chrome.Send("Overlay.highlightRect", Some(msgDict));
      r := res;
    }

    /**
     * `setInspectMode(mode, highlightConfig)`: sends `Overlay.setInspectMode` with the arguments
     * that are not None, and returns the reply.
     */
    method SetInspectMode(mode: Json, highlightConfig: Json) returns (r: Json)
      modifies chrome
      ensures chrome.SentOne(old(chrome.trace), old(chrome.replies), "Overlay.setInspectMode",
        Some(BuildParams([("mode", mode), ("highlightConfig", highlightConfig)])))
      ensures r == NextReply(old(chrome.replies))
    {
      var msgDict := MsgDict([("mode", mode), ("highlightConfig", highlightConfig)]);
      var res := chrome.Send("Overlay.setInspectMode", Some(msgDict));
      r := res;
    }

    /**
     * `setPausedInDebuggerMessage(message)`: sends `Overlay.setPausedInDebuggerMessage` with the
     * arguments that are not None, and returns the reply.
     */
    method SetPausedInDebuggerMessage(message: Json) returns (r: Json)
      modifies chrome
      ensures chrome.SentOne(old(chrome.trace), old(chrome.replies),
        "Overlay.setPausedInDebuggerMessage",
        Some(BuildParams([("message", message)])))
      ensures r == NextReply(old(chrome.replies))
    {
      var msgDict := MsgDict([("message", message)]);
      var res := chrome.Send("Overlay.setPausedInDebuggerMessage", Some(msgDict));
      r := res;
    }

    /**
     * `setShowDebugBorders(show)`: sends `Overlay.setShowDebugBorders` with the arguments that are
     * not None, and returns the reply.
     */
    method SetShowDebugBorders(show: Json) returns (r: Json)
      modifies chrome
      ensures chrome.SentOne(old(chrome.trace), old(chrome.replies), "Overlay.setShowDebugBorders",
        Some(BuildParams([("show", show)])))
      ensures r == NextReply(old(chrome.replies))
    {
      var msgDict := MsgDict([("show", show)]);
      var res := chrome.Send("Overlay.setShowDebugBorders", Some(msgDict));
      r := res;
    }

    /**
     * `setShowFPSCounter(show)`: sends `Overlay.setShowFPSCounter` with the arguments that are not
     * None, and returns the reply.
     */
    method SetShowFPSCounter(show: Json) returns (r: Json)
      modifies chrome
      ensures chrome.SentOne(old(chrome.trace), old(chrome.replies), "Overlay.setShowFPSCounter",
        Some(BuildParams([("show", show)])))
      ensures r == NextReply(old(chrome.replies))
    {
      var msgDict := MsgDict([("show", show)]);
      var res := chrome.Send("Overlay.setShowFPSCounter", Some(msgDict));
      r := res;
    }

    /**
     * `setShowPaintRects(result)`: sends `Overlay.setShowPaintRects` with the arguments that are
     * not None, and returns the reply.
     */
    method SetShowPaintRects(result: Json) returns (r: Json)
      modifies chrome
      ensures chrome.SentOne(old(chrome.trace), old(chrome.replies), "Overlay.setShowPaintRects",
        Some(BuildParams([("result", result)])))
      ensures r == NextReply(old(chrome.replies))
    {
      var msgDict := MsgDict([("result", result)]);
      var res := chrome.Send("Overlay.setShowPaintRects", Some(msgDict));
      r := res;
    }

    /**
     * `setShowScrollBottleneckRects(show)`: sends `Overlay.setShowScrollBottleneckRects` with the
     * arguments that are not None, and returns the reply.
     */
    method SetShowScrollBottleneckRects(show: Json) returns (r: Json)
      modifies chrome
      ensures chrome.SentOne(old(chrome.trace), old(chrome.replies),
        "Overlay.setShowScrollBottleneckRects",
        Some(BuildParams([("show", show)])))
      ensures r == NextReply(old(chrome.replies))
    {
      var msgDict := MsgDict([("show", show)]);
      var res := chrome.Send("Overlay.setShowScrollBottleneckRects", Some(msgDict));
      r := res;
    }

    /**
     * `setShowViewportSizeOnResize(show)`: sends `Overlay.setShowViewportSizeOnResize` with the
     * arguments that are not None, and returns the reply.
     */
    method SetShowViewportSizeOnResize(show: Json) returns (r: Json)
      modifies chrome
      ensures chrome.SentOne(old(chrome.trace), old(chrome.replies),
        "Overlay.setShowViewportSizeOnResize",
        Some(BuildParams([("show", show)])))
      ensures r == NextReply(old(chrome.replies))
    {
      var msgDict := MsgDict([("show", show)]);
      var res := chrome.Send("Overlay.setShowViewportSizeOnResize", Some(msgDict));
      r := res;
    }

    /**
     * `setSuspended(suspended)`: sends `Overlay.setSuspended` with the arguments that are not
     * None, and returns the reply.
     */
    method SetSuspended(suspended: Json) returns (r: Json)
      modifies chrome
      ensures chrome.SentOne(old(chrome.trace), old(chrome.replies), "Overlay.setSuspended",
        Some(BuildParams([("suspended", suspended)])))
      ensures r == NextReply(old(chrome.replies))
    {
      var msgDict := MsgDict([("suspended", suspended)]);
      var res := chrome.Send("Overlay.setSuspended", Some(msgDict));
      r := res;
    }

    /**
     * `inspectNodeRequested(fn, once=False)`: registers `fn` for `Overlay.inspectNodeRequested`,
     * with `once` when the `once` argument is truthy, with `on` otherwise.
     */
    method InspectNodeRequested(fn: Handler, once: Py)
      modifies chrome
      ensures chrome.RegisteredOne(old(chrome.trace), old(chrome.replies),
        "Overlay.inspectNodeRequested", fn, Truthy(once))
    {
      if Truthy(once) {
        chrome.Once("Overlay.inspectNodeRequested", fn);
      } else {
        chrome.On("Overlay.inspectNodeRequested", fn);
      }
    }

    /**
     * `nodeHighlightRequested(fn, once=False)`: registers `fn` for
     * `Overlay.nodeHighlightRequested`, with `once` when the `once` argument is truthy, with `on`
     * otherwise.
     */
    method NodeHighlightRequested(fn: Handler, once: Py)
      modifies chrome
      ensures chrome.RegisteredOne(old(chrome.trace), old(chrome.replies),
        "Overlay.nodeHighlightRequested", fn, Truthy(once))
    {
      if Truthy(once) {
        chrome.Once("Overlay.nodeHighlightRequested", fn);
      } else {
        chrome.On("Overlay.nodeHighlightRequested", fn);
      }
    }

    /**
     * `screenshotRequested(fn, once=False)`: registers `fn` for `Overlay.screenshotRequested`,
     * with `once` when the `once` argument is truthy, with `on` otherwise.
     */
    method ScreenshotRequested(fn: Handler, once: Py)
      modifies chrome
      ensures chrome.RegisteredOne(old(chrome.trace), old(chrome.replies),
        "Overlay.screenshotRequested", fn, Truthy(once))
    {
      if Truthy(once) {
        chrome.Once("Overlay.screenshotRequested", fn);
      } else {
        chrome.On("Overlay.screenshotRequested", fn);
      }
    }

    /**
     * `get_event_classes()`: the `Events.OVERLAY_EVENTS_TO_CLASS` table of the events module,
     * itself.
     */
    static function GetEventClasses(eventToClass: EventTable): (r: EventTable)
      ensures r == eventToClass
    {
      eventToClass
    }
  }

  /**
   * `highlightRect` sends exactly the arguments among `x`, `y`, `width`, `height`, `color` and
   * `outlineColor` that are not None.
   */
  lemma HighlightRectParams(x: Json, y: Json, width: Json, height: Json, color: Json,
      outlineColor: Json, k: string)
    ensures
      var args := [("x", x), ("y", y), ("width", width), ("height", height), ("color", color),
          ("outlineColor", outlineColor)];
      Arg(BuildParams(args), k) == Arg(args, k) &&
      (k in Keys(BuildParams(args)) <==> !Arg(args, k).JNull?)
  {
    ArgBuildParams([("x", x), ("y", y), ("width", width), ("height", height), ("color", color),
        ("outlineColor", outlineColor)], k);
  }

  /** `setShowPaintRects` sends its flag under the key `result`, and nothing else. */
  lemma SetShowPaintRectsKey(result: Json)
    ensures BuildParams([("result", result)]) == if result.JNull? then [] else [("result", result)]
    ensures Keys(BuildParams([("result", result)])) == if result.JNull? then {} else {"result"}
  {
    BuildParamsOne("result", result);
  }

  /**
   * With no message, the `msg_dict` that `setPausedInDebuggerMessage()` builds is empty. That
   * the empty mapping is still passed to `send` is stated by the method's own ensures.
   */
  lemma SetPausedInDebuggerMessageEmpty()
    ensures BuildParams([("message", JNull)]) == []
  {
    BuildParamsOne("message", JNull);
  }
}
