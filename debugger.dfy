/**
 * The `Debugger` domain (`cripy/async/protocol/debugger/__init__.py`): one method per
 * protocol command, each building its params from its keyword arguments and sending them
 * through the client; the commands whose replies carry typed values rewrite those keys in
 * place. The reply types (`Runtime.RemoteObject`, `Types.Location`, ...) live in modules
 * that are not part of this model: their decoders are the `decoders` the object is built with.
 */
module DebuggerDomain {
  import opened Json
  import opened Decoding
  import opened Protocol

  /**
   * The decoders of the reply types this domain's commands rewrite: `Runtime.RemoteObject`,
   * `Runtime.ExceptionDetails`, `Runtime.StackTrace`, `Runtime.StackTraceId`,
   * `Types.BreakLocation`, `Types.CallFrame`, `Types.SearchMatch`, `Types.Location`.
   */
  datatype DebuggerDecoders = DebuggerDecoders(
    remoteObject: Schema,
    exceptionDetails: Schema,
    stackTrace: Schema,
    stackTraceId: Schema,
    breakLocation: Schema,
    callFrame: Schema,
    searchMatch: Schema,
    location: Schema)

  /**
   * The reply keys `evaluateOnCallFrame` rewrites, in order: `res["result"]`,
   * `res["exceptionDetails"]`.
   */
  function EvaluateOnCallFrameRewrites(decoders: DebuggerDecoders): seq<(string, Kind)>
  {
    [("result", One(decoders.remoteObject)), ("exceptionDetails", One(decoders.exceptionDetails))]
  }

  /** The reply keys `getPossibleBreakpoints` rewrites, in order: `res["locations"]`. */
  function GetPossibleBreakpointsRewrites(decoders: DebuggerDecoders): seq<(string, Kind)>
  {
    [("locations", Many(decoders.breakLocation))]
  }

  /** The reply keys `getStackTrace` rewrites, in order: `res["stackTrace"]`. */
  function GetStackTraceRewrites(decoders: DebuggerDecoders): seq<(string, Kind)>
  {
    [("stackTrace", One(decoders.stackTrace))]
  }

  /**
   * The reply keys `restartFrame` rewrites, in order: `res["callFrames"]`,
   * `res["asyncStackTrace"]`, `res["asyncStackTraceId"]`.
   */
  function RestartFrameRewrites(decoders: DebuggerDecoders): seq<(string, Kind)>
  {
    [("callFrames", Many(decoders.callFrame)), ("asyncStackTrace", One(decoders.stackTrace)),
        ("asyncStackTraceId", One(decoders.stackTraceId))]
  }

  /** The reply keys `searchInContent` rewrites, in order: `res["result"]`. */
  function SearchInContentRewrites(decoders: DebuggerDecoders): seq<(string, Kind)>
  {
    [("result", Many(decoders.searchMatch))]
  }

  /** The reply keys `setBreakpoint` rewrites, in order: `res["actualLocation"]`. */
  function SetBreakpointRewrites(decoders: DebuggerDecoders): seq<(string, Kind)>
  {
    [("actualLocation", One(decoders.location))]
  }

  /** The reply keys `setBreakpointByUrl` rewrites, in order: `res["locations"]`. */
  function SetBreakpointByUrlRewrites(decoders: DebuggerDecoders): seq<(string, Kind)>
  {
    [("locations", Many(decoders.location))]
  }

  /**
   * The reply keys `setScriptSource` rewrites, in order: `res["callFrames"]`,
   * `res["asyncStackTrace"]`, `res["asyncStackTraceId"]`, `res["exceptionDetails"]`.
   */
  function SetScriptSourceRewrites(decoders: DebuggerDecoders): seq<(string, Kind)>
  {
    [("callFrames", Many(decoders.callFrame)), ("asyncStackTrace", One(decoders.stackTrace)),
        ("asyncStackTraceId", One(decoders.stackTraceId)), ("exceptionDetails",
        One(decoders.exceptionDetails))]
  }

  class Debugger {
    const chrome: Client
    const decoders: DebuggerDecoders

    constructor (chrome: Client, decoders: DebuggerDecoders)
      ensures this.chrome == chrome && this.decoders == decoders
    {
      this.chrome := chrome;
      this.decoders := decoders;
    }

    /**
     * `continueToLocation(location, targetCallFrames)`: sends `Debugger.continueToLocation` with
     * the arguments that are not None, and returns the reply.
     */
    method ContinueToLocation(location: Json, targetCallFrames: Json) returns (r: Json)
      modifies chrome
      ensures chrome.SentOne(old(chrome.trace), old(chrome.replies), "Debugger.continueToLocation",
        Some(BuildParams([("location", location), ("targetCallFrames", targetCallFrames)])))
      ensures r == NextReply(old(chrome.replies))
    {
      var msgDict := MsgDict([("location", location), ("targetCallFrames", targetCallFrames)]);
      var mayberes := chrome.Send("Debugger.continueToLocation", Some(msgDict));
      r := mayberes;
    }

    /** `disable()`: sends `Debugger.disable` with no params, and returns the reply. */
    method Disable() returns (r: Json)
      modifies chrome
      ensures chrome.SentOne(old(chrome.trace), old(chrome.replies), "Debugger.disable", None)
      ensures r == NextReply(old(chrome.replies))
    {
      var mayberes := chrome.Send("Debugger.disable", None);
      r := mayberes;
    }

    /** `enable()`: sends `Debugger.enable` with no params, and returns the reply. */
    method Enable() returns (r: Json)
      modifies chrome
      ensures chrome.SentOne(old(chrome.trace), old(chrome.replies), "Debugger.enable", None)
      ensures r == NextReply(old(chrome.replies))
    {
      var mayberes := chrome.Send("Debugger.enable", None);
      r := mayberes;
    }

    /**
     * `evaluateOnCallFrame(callFrameId, expression, objectGroup, includeCommandLineAPI, silent,
     * returnByValue, generatePreview, throwOnSideEffect, timeout)`: sends
     * `Debugger.evaluateOnCallFrame` with the arguments that are not None, then rewrites `result`,
     * `exceptionDetails` of the reply.
     */
    method EvaluateOnCallFrame(
      callFrameId: Json, expression: Json, objectGroup: Json, includeCommandLineAPI: Json,
      silent: Json, returnByValue: Json, generatePreview: Json, throwOnSideEffect: Json,
      timeout: Json)
      returns (r: Result<Py>)
      modifies chrome
      ensures chrome.SentOne(old(chrome.trace), old(chrome.replies), "Debugger.evaluateOnCallFrame",
        Some(BuildParams([("callFrameId", callFrameId), ("expression", expression),
            ("objectGroup", objectGroup), ("includeCommandLineAPI", includeCommandLineAPI),
            ("silent", silent), ("returnByValue", returnByValue), ("generatePreview",
            generatePreview), ("throwOnSideEffect", throwOnSideEffect), ("timeout", timeout)])))
      ensures r == Reply(NextReply(old(chrome.replies)), EvaluateOnCallFrameRewrites(decoders))
    {
      var msgDict := MsgDict([
        ("callFrameId", callFrameId),
        ("expression", expression),
        ("objectGroup", objectGroup),
        ("includeCommandLineAPI", includeCommandLineAPI),
        ("silent", silent),
        ("returnByValue", returnByValue),
        ("generatePreview", generatePreview),
        ("throwOnSideEffect", throwOnSideEffect),
        ("timeout", timeout)]);
      var mayberes := chrome.Send("Debugger.evaluateOnCallFrame", Some(msgDict));
      var res := mayberes;
      r := RewriteReply(res, EvaluateOnCallFrameRewrites(decoders));
    }

    /**
     * `getPossibleBreakpoints(start, end, restrictToFunction)`: sends
     * `Debugger.getPossibleBreakpoints` with the arguments that are not None, then rewrites
     * `locations` of the reply.
     */
    method GetPossibleBreakpoints(
      start: Json, end: Json, restrictToFunction: Json)
      returns (r: Result<Py>)
      modifies chrome
      ensures chrome.SentOne(old(chrome.trace), old(chrome.replies),
        "Debugger.getPossibleBreakpoints",
        Some(BuildParams([("start", start), ("end", end), ("restrictToFunction",
            restrictToFunction)])))
      ensures r == Reply(NextReply(old(chrome.replies)), GetPossibleBreakpointsRewrites(decoders))
    {
      var msgDict := MsgDict([
        ("start", start),
        ("end", end),
        ("restrictToFunction", restrictToFunction)]);
      var mayberes := chrome.Send("Debugger.getPossibleBreakpoints", Some(msgDict));
      var res := mayberes;
      r := RewriteReply(res, GetPossibleBreakpointsRewrites(decoders));
    }

    /**
     * `getScriptSource(scriptId)`: sends `Debugger.getScriptSource` with the arguments that are
     * not None, and returns the reply.
     */
    method GetScriptSource(scriptId: Json) returns (r: Json)
      modifies chrome
      ensures chrome.SentOne(old(chrome.trace), old(chrome.replies), "Debugger.getScriptSource",
        Some(BuildParams([("scriptId", scriptId)])))
      ensures r == NextReply(old(chrome.replies))
    {
      var msgDict := MsgDict([("scriptId", scriptId)]);
      var mayberes := chrome.Send("Debugger.getScriptSource", Some(msgDict));
      r := mayberes;
    }

    /**
     * `getStackTrace(stackTraceId)`: sends `Debugger.getStackTrace` with the arguments that are
     * not None, then rewrites `stackTrace` of the reply.
     */
    method GetStackTrace(stackTraceId: Json) returns (r: Result<Py>)
      modifies chrome
      ensures chrome.SentOne(old(chrome.trace), old(chrome.replies), "Debugger.getStackTrace",
        Some(BuildParams([("stackTraceId", stackTraceId)])))
      ensures r == Reply(NextReply(old(chrome.replies)), GetStackTraceRewrites(decoders))
    {
      var msgDict := MsgDict([("stackTraceId", stackTraceId)]);
      var mayberes := chrome.Send("Debugger.getStackTrace", Some(msgDict));
      var res := mayberes;
      r := RewriteReply(res, GetStackTraceRewrites(decoders));
    }

    /** `pause()`: sends `Debugger.pause` with no params, and returns the reply. */
    method Pause() returns (r: Json)
      modifies chrome
      ensures chrome.SentOne(old(chrome.trace), old(chrome.replies), "Debugger.pause", None)
      ensures r == NextReply(old(chrome.replies))
    {
      var mayberes := chrome.Send("Debugger.pause", None);
      r := mayberes;
    }

    /**
     * `pauseOnAsyncCall(parentStackTraceId)`: sends `Debugger.pauseOnAsyncCall` with the arguments
     * that are not None, and returns the reply.
     */
    method PauseOnAsyncCall(parentStackTraceId: Json) returns (r: Json)
      modifies chrome
      ensures chrome.SentOne(old(chrome.trace), old(chrome.replies), "Debugger.pauseOnAsyncCall",
        Some(BuildParams([("parentStackTraceId", parentStackTraceId)])))
      ensures r == NextReply(old(chrome.replies))
    {
      var msgDict := MsgDict([("parentStackTraceId", parentStackTraceId)]);
      var mayberes := chrome.Send("Debugger.pauseOnAsyncCall", Some(msgDict));
      r := mayberes;
    }

    /**
     * `removeBreakpoint(breakpointId)`: sends `Debugger.removeBreakpoint` with the arguments that
     * are not None, and returns the reply.
     */
    method RemoveBreakpoint(breakpointId: Json) returns (r: Json)
      modifies chrome
      ensures chrome.SentOne(old(chrome.trace), old(chrome.replies), "Debugger.removeBreakpoint",
        Some(BuildParams([("breakpointId", breakpointId)])))
      ensures r == NextReply(old(chrome.replies))
    {
      var msgDict := MsgDict([("breakpointId", breakpointId)]);
      var mayberes := chrome.Send("Debugger.removeBreakpoint", Some(msgDict));
      r := mayberes;
    }

    /**
     * `restartFrame(callFrameId)`: sends `Debugger.restartFrame` with the arguments that are not
     * None, then rewrites `callFrames`, `asyncStackTrace`, `asyncStackTraceId` of the reply.
     */
    method RestartFrame(callFrameId: Json) returns (r: Result<Py>)
      modifies chrome
      ensures chrome.SentOne(old(chrome.trace), old(chrome.replies), "Debugger.restartFrame",
        Some(BuildParams([("callFrameId", callFrameId)])))
      ensures r == Reply(NextReply(old(chrome.replies)), RestartFrameRewrites(decoders))
    {
      var msgDict := MsgDict([("callFrameId", callFrameId)]);
      var mayberes := chrome.Send("Debugger.restartFrame", Some(msgDict));
      var res := mayberes;
      r := RewriteReply(res, RestartFrameRewrites(decoders));
    }

    /** `resume()`: sends `Debugger.resume` with no params, and returns the reply. */
    method Resume() returns (r: Json)
      modifies chrome
      ensures chrome.SentOne(old(chrome.trace), old(chrome.replies), "Debugger.resume", None)
      ensures r == NextReply(old(chrome.replies))
    {
      var mayberes := chrome.Send("Debugger.resume", None);
      r := mayberes;
    }

    /**
     * `scheduleStepIntoAsync()`: sends `Debugger.scheduleStepIntoAsync` with no params, and
     * returns the reply.
     */
    method ScheduleStepIntoAsync() returns (r: Json)
      modifies chrome
      ensures chrome.SentOne(old(chrome.trace), old(chrome.replies),
        "Debugger.scheduleStepIntoAsync", None)
      ensures r == NextReply(old(chrome.replies))
    {
      var mayberes := chrome.Send("Debugger.scheduleStepIntoAsync", None);
      r := mayberes;
    }

    /**
     * `searchInContent(scriptId, query, caseSensitive, isRegex)`: sends `Debugger.searchInContent`
     * with the arguments that are not None, then rewrites `result` of the reply.
     */
    method SearchInContent(
      scriptId: Json, query: Json, caseSensitive: Json, isRegex: Json)
      returns (r: Result<Py>)
      modifies chrome
      ensures chrome.SentOne(old(chrome.trace), old(chrome.replies), "Debugger.searchInContent",
        Some(BuildParams([("scriptId", scriptId), ("query", query), ("caseSensitive",
            caseSensitive), ("isRegex", isRegex)])))
      ensures r == Reply(NextReply(old(chrome.replies)), SearchInContentRewrites(decoders))
    {
      var msgDict := MsgDict([
        ("scriptId", scriptId),
        ("query", query),
        ("caseSensitive", caseSensitive),
        ("isRegex", isRegex)]);
      var mayberes := chrome.Send("Debugger.searchInContent", Some(msgDict));
      var res := mayberes;
      r := RewriteReply(res, SearchInContentRewrites(decoders));
    }

    /**
     * `setAsyncCallStackDepth(maxDepth)`: sends `Debugger.setAsyncCallStackDepth` with the
     * arguments that are not None, and returns the reply.
     */
    method SetAsyncCallStackDepth(maxDepth: Json) returns (r: Json)
      modifies chrome
      ensures chrome.SentOne(old(chrome.trace), old(chrome.replies),
        "Debugger.setAsyncCallStackDepth",
        Some(BuildParams([("maxDepth", maxDepth)])))
      ensures r == NextReply(old(chrome.replies))
    {
      var msgDict := MsgDict([("maxDepth", maxDepth)]);
      var mayberes := chrome.Send("Debugger.setAsyncCallStackDepth", Some(msgDict));
      r := mayberes;
    }

    /**
     * `setBlackboxPatterns(patterns)`: sends `Debugger.setBlackboxPatterns` with the arguments
     * that are not None, and returns the reply.
     */
    method SetBlackboxPatterns(patterns: Json) returns (r: Json)
      modifies chrome
      ensures chrome.SentOne(old(chrome.trace), old(chrome.replies), "Debugger.setBlackboxPatterns",
        Some(BuildParams([("patterns", patterns)])))
      ensures r == NextReply(old(chrome.replies))
    {
      var msgDict := MsgDict([("patterns", patterns)]);
      var mayberes := chrome.Send("Debugger.setBlackboxPatterns", Some(msgDict));
      r := mayberes;
    }

    /**
     * `setBlackboxedRanges(scriptId, positions)`: sends `Debugger.setBlackboxedRanges` with the
     * arguments that are not None, and returns the reply.
     */
    method SetBlackboxedRanges(scriptId: Json, positions: Json) returns (r: Json)
      modifies chrome
      ensures chrome.SentOne(old(chrome.trace), old(chrome.replies), "Debugger.setBlackboxedRanges",
        Some(BuildParams([("scriptId", scriptId), ("positions", positions)])))
      ensures r == NextReply(old(chrome.replies))
    {
      var msgDict := MsgDict([("scriptId", scriptId), ("positions", positions)]);
      var mayberes := chrome.Send("Debugger.setBlackboxedRanges", Some(msgDict));
      r := mayberes;
    }

    /**
     * `setBreakpoint(location, condition)`: sends `Debugger.setBreakpoint` with the arguments that
     * are not None, then rewrites `actualLocation` of the reply.
     */
    method SetBreakpoint(location: Json, condition: Json) returns (r: Result<Py>)
      modifies chrome
      ensures chrome.SentOne(old(chrome.trace), old(chrome.replies), "Debugger.setBreakpoint",
        Some(BuildParams([("location", location), ("condition", condition)])))
      ensures r == Reply(NextReply(old(chrome.replies)), SetBreakpointRewrites(decoders))
    {
      var msgDict := MsgDict([("location", location), ("condition", condition)]);
      var mayberes := chrome.Send("Debugger.setBreakpoint", Some(msgDict));
      var res := mayberes;
      r := RewriteReply(res, SetBreakpointRewrites(decoders));
    }

    /**
     * `setBreakpointByUrl(lineNumber, url, urlRegex, scriptHash, columnNumber, condition)`: sends
     * `Debugger.setBreakpointByUrl` with the arguments that are not None, then rewrites
     * `locations` of the reply.
     */
    method SetBreakpointByUrl(
      lineNumber: Json, url: Json, urlRegex: Json, scriptHash: Json, columnNumber: Json,
      condition: Json)
      returns (r: Result<Py>)
      modifies chrome
      ensures chrome.SentOne(old(chrome.trace), old(chrome.replies), "Debugger.setBreakpointByUrl",
        Some(BuildParams([("lineNumber", lineNumber), ("url", url), ("urlRegex", urlRegex),
            ("scriptHash", scriptHash), ("columnNumber", columnNumber), ("condition", condition)])))
      ensures r == Reply(NextReply(old(chrome.replies)), SetBreakpointByUrlRewrites(decoders))
    {
      var msgDict := MsgDict([
        ("lineNumber", lineNumber),
        ("url", url),
        ("urlRegex", urlRegex),
        ("scriptHash", scriptHash),
        ("columnNumber", columnNumber),
        ("condition", condition)]);
      var mayberes := chrome.Send("Debugger.setBreakpointByUrl", Some(msgDict));
      var res := mayberes;
      r := RewriteReply(res, SetBreakpointByUrlRewrites(decoders));
    }

    /**
     * `setBreakpointOnFunctionCall(objectId, condition)`: sends
     * `Debugger.setBreakpointOnFunctionCall` with the arguments that are not None, and returns the
     * reply.
     */
    method SetBreakpointOnFunctionCall(objectId: Json, condition: Json) returns (r: Json)
      modifies chrome
      ensures chrome.SentOne(old(chrome.trace), old(chrome.replies),
        "Debugger.setBreakpointOnFunctionCall",
        Some(BuildParams([("objectId", objectId), ("condition", condition)])))
      ensures r == NextReply(old(chrome.replies))
    {
      var msgDict := MsgDict([("objectId", objectId), ("condition", condition)]);
      var mayberes := chrome.Send("Debugger.setBreakpointOnFunctionCall", Some(msgDict));
      r := mayberes;
    }

    /**
     * `setBreakpointsActive(active)`: sends `Debugger.setBreakpointsActive` with the arguments
     * that are not None, and returns the reply.
     */
    method SetBreakpointsActive(active: Json) returns (r: Json)
      modifies chrome
      ensures chrome.SentOne(old(chrome.trace), old(chrome.replies),
        "Debugger.setBreakpointsActive",
        Some(BuildParams([("active", active)])))
      ensures r == NextReply(old(chrome.replies))
    {
      var msgDict := MsgDict([("active", active)]);
      var mayberes := chrome.Send("Debugger.setBreakpointsActive", Some(msgDict));
      r := mayberes;
    }

    /**
     * `setPauseOnExceptions(state)`: sends `Debugger.setPauseOnExceptions` with the arguments that
     * are not None, and returns the reply.
     */
    method SetPauseOnExceptions(state: Json) returns (r: Json)
      modifies chrome
      ensures chrome.SentOne(old(chrome.trace), old(chrome.replies),
        "Debugger.setPauseOnExceptions",
        Some(BuildParams([("state", state)])))
      ensures r == NextReply(old(chrome.replies))
    {
      var msgDict := MsgDict([("state", state)]);
      var mayberes := chrome.Send("Debugger.setPauseOnExceptions", Some(msgDict));
      r := mayberes;
    }

    /**
     * `setReturnValue(newValue)`: sends `Debugger.setReturnValue` with the arguments that are not
     * None, and returns the reply.
     */
    method SetReturnValue(newValue: Json) returns (r: Json)
      modifies chrome
      ensures chrome.SentOne(old(chrome.trace), old(chrome.replies), "Debugger.setReturnValue",
        Some(BuildParams([("newValue", newValue)])))
      ensures r == NextReply(old(chrome.replies))
    {
      var msgDict := MsgDict([("newValue", newValue)]);
      var mayberes := chrome.Send("Debugger.setReturnValue", Some(msgDict));
      r := mayberes;
    }

    /**
     * `setScriptSource(scriptId, scriptSource, dryRun)`: sends `Debugger.setScriptSource` with the
     * arguments that are not None, then rewrites `callFrames`, `asyncStackTrace`,
     * `asyncStackTraceId`, `exceptionDetails` of the reply.
     */
    method SetScriptSource(scriptId: Json, scriptSource: Json, dryRun: Json) returns (r: Result<Py>)
      modifies chrome
      ensures chrome.SentOne(old(chrome.trace), old(chrome.replies), "Debugger.setScriptSource",
        Some(BuildParams([("scriptId", scriptId), ("scriptSource", scriptSource), ("dryRun",
            dryRun)])))
      ensures r == Reply(NextReply(old(chrome.replies)), SetScriptSourceRewrites(decoders))
    {
      var msgDict := MsgDict([
        ("scriptId", scriptId),
        ("scriptSource", scriptSource),
        ("dryRun", dryRun)]);
      var mayberes := chrome.Send("Debugger.setScriptSource", Some(msgDict));
      var res := mayberes;
      r := RewriteReply(res, SetScriptSourceRewrites(decoders));
    }

    /**
     * `setSkipAllPauses(skip)`: sends `Debugger.setSkipAllPauses` with the arguments that are not
     * None, and returns the reply.
     */
    method SetSkipAllPauses(skip: Json) returns (r: Json)
      modifies chrome
      ensures chrome.SentOne(old(chrome.trace), old(chrome.replies), "Debugger.setSkipAllPauses",
        Some(BuildParams([("skip", skip)])))
      ensures r == NextReply(old(chrome.replies))
    {
      var msgDict := MsgDict([("skip", skip)]);
      var mayberes := chrome.Send("Debugger.setSkipAllPauses", Some(msgDict));
      r := mayberes;
    }

    /**
     * `setVariableValue(scopeNumber, variableName, newValue, callFrameId)`: sends
     * `Debugger.setVariableValue` with the arguments that are not None, and returns the reply.
     */
    method SetVariableValue(
      scopeNumber: Json, variableName: Json, newValue: Json, callFrameId: Json)
      returns (r: Json)
      modifies chrome
      ensures chrome.SentOne(old(chrome.trace), old(chrome.replies), "Debugger.setVariableValue",
        Some(BuildParams([("scopeNumber", scopeNumber), ("variableName", variableName),
            ("newValue", newValue), ("callFrameId", callFrameId)])))
      ensures r == NextReply(old(chrome.replies))
    {
      var msgDict := MsgDict([
        ("scopeNumber", scopeNumber),
        ("variableName", variableName),
        ("newValue", newValue),
        ("callFrameId", callFrameId)]);
      var mayberes := chrome.Send("Debugger.setVariableValue", Some(msgDict));
      r := mayberes;
    }

    /**
     * `stepInto(breakOnAsyncCall)`: sends `Debugger.stepInto` with the arguments that are not
     * None, and returns the reply.
     */
    method StepInto(breakOnAsyncCall: Json) returns (r: Json)
      modifies chrome
      ensures chrome.SentOne(old(chrome.trace), old(chrome.replies), "Debugger.stepInto",
        Some(BuildParams([("breakOnAsyncCall", breakOnAsyncCall)])))
      ensures r == NextReply(old(chrome.replies))
    {
      var msgDict := MsgDict([("breakOnAsyncCall", breakOnAsyncCall)]);
      var mayberes := chrome.Send("Debugger.stepInto", Some(msgDict));
      r := mayberes;
    }

    /** `stepOut()`: sends `Debugger.stepOut` with no params, and returns the reply. */
    method StepOut() returns (r: Json)
      modifies chrome
      ensures chrome.SentOne(old(chrome.trace), old(chrome.replies), "Debugger.stepOut", None)
      ensures r == NextReply(old(chrome.replies))
    {
      var mayberes := chrome.Send("Debugger.stepOut", None);
      r := mayberes;
    }

    /** `stepOver()`: sends `Debugger.stepOver` with no params, and returns the reply. */
    method StepOver() returns (r: Json)
      modifies chrome
      ensures chrome.SentOne(old(chrome.trace), old(chrome.replies), "Debugger.stepOver", None)
      ensures r == NextReply(old(chrome.replies))
    {
      var mayberes := chrome.Send("Debugger.stepOver", None);
      r := mayberes;
    }

    /** `get_event_classes()`: the `Events.EVENT_TO_CLASS` table of the events module, itself. */
    static function GetEventClasses(eventToClass: EventTable): (r: EventTable)
      ensures r == eventToClass
    {
      eventToClass
    }
  }

  /**
   * The params of `evaluateOnCallFrame` hold key `k` exactly when argument `k` is not None, with
   * its value.
   */
  lemma EvaluateOnCallFrameParams(callFrameId: Json, expression: Json, objectGroup: Json,
      includeCommandLineAPI: Json, silent: Json, returnByValue: Json, generatePreview: Json,
      throwOnSideEffect: Json, timeout: Json, k: string)
    ensures
      var args := [("callFrameId", callFrameId), ("expression", expression), ("objectGroup",
          objectGroup), ("includeCommandLineAPI", includeCommandLineAPI), ("silent", silent),
          ("returnByValue", returnByValue), ("generatePreview", generatePreview),
          ("throwOnSideEffect", throwOnSideEffect), ("timeout", timeout)];
      Arg(BuildParams(args), k) == Arg(args, k) &&
      (k in Keys(BuildParams(args)) <==> !Arg(args, k).JNull?)
  {
    ArgBuildParams([("callFrameId", callFrameId), ("expression", expression), ("objectGroup",
        objectGroup), ("includeCommandLineAPI", includeCommandLineAPI), ("silent", silent),
        ("returnByValue", returnByValue), ("generatePreview", generatePreview),
        ("throwOnSideEffect", throwOnSideEffect), ("timeout", timeout)], k);
  }

  /** `continueToLocation(None)` sends an empty mapping: even the required location is dropped. */
  lemma ContinueToLocationNone()
    ensures BuildParams([("location", JNull), ("targetCallFrames", JNull)]) == []
  {
    BuildParamsAllNone([("location", JNull), ("targetCallFrames", JNull)]);
  }

  /**
   * Only `res["locations"]` changes, to the `BreakLocation` list decoded from it; a reply without
   * it raises KeyError.
   */
  lemma GetPossibleBreakpointsReply(decoders: DebuggerDecoders, es: seq<(string, Json)>, i: nat)
    requires DistinctKeys(es) && i < |es|
    ensures Reply(JObj(es), GetPossibleBreakpointsRewrites(decoders)).Ok? <==>
      "locations" in Keys(es) && Convert(Many(decoders.breakLocation), Arg(es, "locations")).Ok?
    ensures "locations" !in Keys(es) ==>
      Reply(JObj(es), GetPossibleBreakpointsRewrites(decoders)) == Err(KeyError("locations"))
    ensures Reply(JObj(es), GetPossibleBreakpointsRewrites(decoders)).Ok? ==>
      Reply(JObj(es), GetPossibleBreakpointsRewrites(decoders)).value.entries[i] ==
        (es[i].0, if es[i].0 == "locations" then Convert(Many(decoders.breakLocation),
            es[i].1).value else Lift(es[i].1))
  {
    SingleRewrite(es, "locations", Many(decoders.breakLocation), i);
  }

  /**
   * `evaluateOnCallFrame` indexes `result`, then `exceptionDetails`: a reply lacking either
   * raises KeyError for the first one missing, a reply that is not a dict raises TypeError,
   * and a dict holding both goes through.
   */
  lemma EvaluateOnCallFrameKeys(decoders: DebuggerDecoders, reply: Json)
    ensures !reply.JObj? ==> Reply(reply, EvaluateOnCallFrameRewrites(decoders)) == Err(TypeError)
    ensures reply.JObj? && "result" !in Keys(reply.entries) ==>
      Reply(reply, EvaluateOnCallFrameRewrites(decoders)) == Err(KeyError("result"))
    ensures
      var missing := reply.JObj? && "exceptionDetails" !in Keys(reply.entries);
      missing && "result" in Keys(reply.entries) ==>
        Reply(reply, EvaluateOnCallFrameRewrites(decoders)) == Err(KeyError("exceptionDetails"))
    ensures reply.JObj? ==> (Reply(reply, EvaluateOnCallFrameRewrites(decoders)).Ok? <==>
      "result" in Keys(reply.entries) && "exceptionDetails" in Keys(reply.entries))
  {
    var rs := EvaluateOnCallFrameRewrites(decoders);
    if reply.JObj? {
      var es := reply.entries;
      if "result" !in Keys(es) {
        FirstMissingKey(es, rs, 0);
      } else if "exceptionDetails" !in Keys(es) {
        FirstMissingKey(es, rs, 1);
      }
    }
  }

  /**
   * `setScriptSource` rewrites exactly `callFrames`, `asyncStackTrace`, `asyncStackTraceId` and
   * `exceptionDetails`.
   */
  lemma SetScriptSourceNames(decoders: DebuggerDecoders)
    ensures DistinctKeys(SetScriptSourceRewrites(decoders))
    ensures RewriteNames(SetScriptSourceRewrites(decoders)) ==
      {"callFrames", "asyncStackTrace", "asyncStackTraceId", "exceptionDetails"}
  {
    var rs := SetScriptSourceRewrites(decoders);
    assert rs[0].0 == "callFrames" && rs[1].0 == "asyncStackTrace";
    assert rs[2].0 == "asyncStackTraceId" && rs[3].0 == "exceptionDetails";
  }

  /**
   * Every entry of a `setScriptSource` reply other than the four rewritten keys is kept as
   * received.
   */
  lemma SetScriptSourceKeepsOthers(decoders: DebuggerDecoders, es: seq<(string, Json)>, i: nat)
    requires DistinctKeys(es) && i < |es|
    requires Reply(JObj(es), SetScriptSourceRewrites(decoders)).Ok?
    requires es[i].0 !in {"callFrames", "asyncStackTrace", "asyncStackTraceId", "exceptionDetails"}
    ensures Reply(JObj(es), SetScriptSourceRewrites(decoders)).value.entries[i] == (es[i].0,
      Lift(es[i].1))
  {
    var rs := SetScriptSourceRewrites(decoders);
    SetScriptSourceNames(decoders);
    assert es[i].0 !in RewriteNames(rs);
    ReplyEntries(es, rs, i);
  }
}
