/**
 * The `HeadlessExperimental` domain (`cripy/asyncio/protocol/headlessexperimental/domain.py`).
 */
module HeadlessExperimentalDomain {
  import opened Json
  import opened Decoding
  import opened Protocol

  class HeadlessExperimental {
    const chrome: Client

    constructor (chrome: Client)
      ensures this.chrome == chrome
    {
      this.chrome := chrome;
    }

    /**
     * `beginFrame(frameTimeTicks, interval, noDisplayUpdates, screenshot)`: sends
     * `HeadlessExperimental.beginFrame` with the arguments that are not None, and returns the
     * reply.
     */
    method BeginFrame(
      frameTimeTicks: Json, interval: Json, noDisplayUpdates: Json, screenshot: Json)
      returns (r: Json)
      modifies chrome
      ensures chrome.SentOne(old(chrome.trace), old(chrome.replies),
        "HeadlessExperimental.beginFrame",
        Some(BuildParams([("frameTimeTicks", frameTimeTicks), ("interval", interval),
            ("noDisplayUpdates", noDisplayUpdates), ("screenshot", screenshot)])))
      ensures r == NextReply(old(chrome.replies))
    {
      var msgDict := MsgDict([
        ("frameTimeTicks", frameTimeTicks),
        ("interval", interval),
        ("noDisplayUpdates", noDisplayUpdates),
        ("screenshot", screenshot)]);
      var res := chrome.Send("HeadlessExperimental.beginFrame", Some(msgDict));
      r := res;
    }

    /** `disable()`: sends `HeadlessExperimental.disable` with no params, and returns the reply. */
    method Disable() returns (r: Json)
      modifies chrome
      ensures chrome.SentOne(old(chrome.trace), old(chrome.replies),
        "HeadlessExperimental.disable", None)
      ensures r == NextReply(old(chrome.replies))
    {
      var res := chrome.Send("HeadlessExperimental.disable", None);
      r := res;
    }

    /** `enable()`: sends `HeadlessExperimental.enable` with no params, and returns the reply. */
    method Enable() returns (r: Json)
      modifies chrome
      ensures chrome.SentOne(old(chrome.trace), old(chrome.replies),
        "HeadlessExperimental.enable", None)
      ensures r == NextReply(old(chrome.replies))
    {
      var res := chrome.Send("HeadlessExperimental.enable", None);
      r := res;
    }

    /**
     * `needsBeginFramesChanged(fn, once=False)`: registers `fn` for
     * `HeadlessExperimental.needsBeginFramesChanged`, with `once` when the `once` argument is
     * truthy, with `on` otherwise.
     */
    method NeedsBeginFramesChanged(fn: Handler, once: Py)
      modifies chrome
      ensures chrome.RegisteredOne(old(chrome.trace), old(chrome.replies),
        "HeadlessExperimental.needsBeginFramesChanged", fn, Truthy(once))
    {
      if Truthy(once) {
        chrome.Once("HeadlessExperimental.needsBeginFramesChanged", fn);
      } else {
        chrome.On("HeadlessExperimental.needsBeginFramesChanged", fn);
      }
    }

    /**
     * `get_event_classes()`: the `Events.HEADLESSEXPERIMENTAL_EVENTS_TO_CLASS` table of the events
     * module, itself.
     */
    static function GetEventClasses(eventToClass: EventTable): (r: EventTable)
      ensures r == eventToClass
    {
      eventToClass
    }
  }

  /** `beginFrame` includes each of its four keys exactly when that argument is not None. */
  lemma BeginFrameParams(frameTimeTicks: Json, interval: Json, noDisplayUpdates: Json,
      screenshot: Json, k: string)
    ensures
      var args := [("frameTimeTicks", frameTimeTicks), ("interval", interval),
          ("noDisplayUpdates", noDisplayUpdates), ("screenshot", screenshot)];
      Arg(BuildParams(args), k) == Arg(args, k) &&
      (k in Keys(BuildParams(args)) <==> !Arg(args, k).JNull?)
  {
    ArgBuildParams([("frameTimeTicks", frameTimeTicks), ("interval", interval),
        ("noDisplayUpdates", noDisplayUpdates), ("screenshot", screenshot)], k);
  }

  /** `beginFrame()` with every argument None sends an empty mapping. */
  lemma BeginFrameAllNone()
    ensures BuildParams([("frameTimeTicks", JNull), ("interval", JNull), ("noDisplayUpdates",
      JNull), ("screenshot", JNull)]) == []
  {
    BuildParamsAllNone([("frameTimeTicks", JNull), ("interval", JNull), ("noDisplayUpdates",
        JNull), ("screenshot", JNull)]);
  }
}
