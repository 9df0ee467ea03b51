/**
 * The `HeapProfiler` domain (`cripy/asyncio/protocol/heapprofiler.py`): commands that send
 * their params and return the awaited reply, and five event-registration helpers.
 */
module HeapProfilerDomain {
  import opened Json
  import opened Decoding
  import opened Protocol

  class HeapProfiler {
    const chrome: Client

    constructor (chrome: Client)
      ensures this.chrome == chrome
    {
      this.chrome := chrome;
    }

    /**
     * `addInspectedHeapObject(heapObjectId)`: sends `HeapProfiler.addInspectedHeapObject` with the
     * arguments that are not None, and returns the reply.
     */
    method AddInspectedHeapObject(heapObjectId: Json) returns (r: Json)
      modifies chrome
      ensures chrome.SentOne(old(chrome.trace), old(chrome.replies),
        "HeapProfiler.addInspectedHeapObject",
        Some(BuildParams([("heapObjectId", heapObjectId)])))
      ensures r == NextReply(old(chrome.replies))
    {
      var msgDict := MsgDict([("heapObjectId", heapObjectId)]);
      var res := chrome.Send("HeapProfiler.addInspectedHeapObject", Some(msgDict));
      r := res;
    }

    /**
     * `collectGarbage()`: sends `HeapProfiler.collectGarbage` with no params, and returns the
     * reply.
     */
    method CollectGarbage() returns (r: Json)
      modifies chrome
      ensures chrome.SentOne(old(chrome.trace), old(chrome.replies),
        "HeapProfiler.collectGarbage", None)
      ensures r == NextReply(old(chrome.replies))
    {
      var res := chrome.Send("HeapProfiler.collectGarbage", None);
      r := res;
    }

    /** `disable()`: sends `HeapProfiler.disable` with no params, and returns the reply. */
    method Disable() returns (r: Json)
      modifies chrome
      ensures chrome.SentOne(old(chrome.trace), old(chrome.replies), "HeapProfiler.disable", None)
      ensures r == NextReply(old(chrome.replies))
    {
      var res := chrome.Send("HeapProfiler.disable", None);
      r := res;
    }

    /** `enable()`: sends `HeapProfiler.enable` with no params, and returns the reply. */
    method Enable() returns (r: Json)
      modifies chrome
      ensures chrome.SentOne(old(chrome.trace), old(chrome.replies), "HeapProfiler.enable", None)
      ensures r == NextReply(old(chrome.replies))
    {
      var res := chrome.Send("HeapProfiler.enable", None);
      r := res;
    }

    /**
     * `getHeapObjectId(objectId)`: sends `HeapProfiler.getHeapObjectId` with the arguments that
     * are not None, and returns the reply.
     */
    method GetHeapObjectId(objectId: Json) returns (r: Json)
      modifies chrome
      ensures chrome.SentOne(old(chrome.trace), old(chrome.replies), "HeapProfiler.getHeapObjectId",
        Some(BuildParams([("objectId", objectId)])))
      ensures r == NextReply(old(chrome.replies))
    {
      var msgDict := MsgDict([("objectId", objectId)]);
      var res := chrome.Send("HeapProfiler.getHeapObjectId", Some(msgDict));
      r := res;
    }

    /**
     * `getObjectByHeapObjectId(objectId, objectGroup)`: sends
     * `HeapProfiler.getObjectByHeapObjectId` with the arguments that are not None, and returns the
     * reply.
     */
    method GetObjectByHeapObjectId(objectId: Json, objectGroup: Json) returns (r: Json)
      modifies chrome
      ensures chrome.SentOne(old(chrome.trace), old(chrome.replies),
        "HeapProfiler.getObjectByHeapObjectId",
        Some(BuildParams([("objectId", objectId), ("objectGroup", objectGroup)])))
      ensures r == NextReply(old(chrome.replies))
    {
      var msgDict := MsgDict([("objectId", objectId), ("objectGroup", objectGroup)]);
      var res := chrome.Send("HeapProfiler.getObjectByHeapObjectId", Some(msgDict));
      r := res;
    }

    /**
     * `getSamplingProfile()`: sends `HeapProfiler.getSamplingProfile` with no params, and returns
     * the reply.
     */
    method GetSamplingProfile() returns (r: Json)
      modifies chrome
      ensures chrome.SentOne(old(chrome.trace), old(chrome.replies),
        "HeapProfiler.getSamplingProfile", None)
      ensures r == NextReply(old(chrome.replies))
    {
      var res := chrome.Send("HeapProfiler.getSamplingProfile", None);
      r := res;
    }

    /**
     * `startSampling(samplingInterval)`: sends `HeapProfiler.startSampling` with the arguments
     * that are not None, and returns the reply.
     */
    method StartSampling(samplingInterval: Json) returns (r: Json)
      modifies chrome
      ensures chrome.SentOne(old(chrome.trace), old(chrome.replies), "HeapProfiler.startSampling",
        Some(BuildParams([("samplingInterval", samplingInterval)])))
      ensures r == NextReply(old(chrome.replies))
    {
      var msgDict := MsgDict([("samplingInterval", samplingInterval)]);
      var res := chrome.Send("HeapProfiler.startSampling", Some(msgDict));
      r := res;
    }

    /**
     * `startTrackingHeapObjects(trackAllocations)`: sends `HeapProfiler.startTrackingHeapObjects`
     * with the arguments that are not None, and returns the reply.
     */
    method StartTrackingHeapObjects(trackAllocations: Json) returns (r: Json)
      modifies chrome
      ensures chrome.SentOne(old(chrome.trace), old(chrome.replies),
        "HeapProfiler.startTrackingHeapObjects",
        Some(BuildParams([("trackAllocations", trackAllocations)])))
      ensures r == NextReply(old(chrome.replies))
    {
      var msgDict := MsgDict([("trackAllocations", trackAllocations)]);
      var res := chrome.Send("HeapProfiler.startTrackingHeapObjects", Some(msgDict));
      r := res;
    }

    /**
     * `stopSampling()`: sends `HeapProfiler.stopSampling` with no params, and returns the reply.
     */
    method StopSampling() returns (r: Json)
      modifies chrome
      ensures chrome.SentOne(old(chrome.trace), old(chrome.replies), "HeapProfiler.stopSampling",
        None)
      ensures r == NextReply(old(chrome.replies))
    {
      var res := chrome.Send("HeapProfiler.stopSampling", None);
      r := res;
    }

    /**
     * `stopTrackingHeapObjects(reportProgress)`: sends `HeapProfiler.stopTrackingHeapObjects` with
     * the arguments that are not None, and returns the reply.
     */
    method StopTrackingHeapObjects(reportProgress: Json) returns (r: Json)
      modifies chrome
      ensures chrome.SentOne(old(chrome.trace), old(chrome.replies),
        "HeapProfiler.stopTrackingHeapObjects",
        Some(BuildParams([("reportProgress", reportProgress)])))
      ensures r == NextReply(old(chrome.replies))
    {
      var msgDict := MsgDict([("reportProgress", reportProgress)]);
      var res := chrome.Send("HeapProfiler.stopTrackingHeapObjects", Some(msgDict));
      r := res;
    }

    /**
     * `takeHeapSnapshot(reportProgress)`: sends `HeapProfiler.takeHeapSnapshot` with the arguments
     * that are not None, and returns the reply.
     */
    method TakeHeapSnapshot(reportProgress: Json) returns (r: Json)
      modifies chrome
      ensures chrome.SentOne(old(chrome.trace), old(chrome.replies),
        "HeapProfiler.takeHeapSnapshot",
        Some(BuildParams([("reportProgress", reportProgress)])))
      ensures r == NextReply(old(chrome.replies))
    {
      var msgDict := MsgDict([("reportProgress", reportProgress)]);
      var res := chrome.Send("HeapProfiler.takeHeapSnapshot", Some(msgDict));
      r := res;
    }

    /**
     * `addHeapSnapshotChunk(fn, once=False)`: registers `fn` for
     * `HeapProfiler.addHeapSnapshotChunk`, with `once` when the `once` argument is truthy, with
     * `on` otherwise.
     */
    method AddHeapSnapshotChunk(fn: Handler, once: Py)
      modifies chrome
      ensures chrome.RegisteredOne(old(chrome.trace), old(chrome.replies),
        "HeapProfiler.addHeapSnapshotChunk", fn, Truthy(once))
    {
      if Truthy(once) {
        chrome.Once("HeapProfiler.addHeapSnapshotChunk", fn);
      } else {
        chrome.On("HeapProfiler.addHeapSnapshotChunk", fn);
      }
    }

    /**
     * `heapStatsUpdate(fn, once=False)`: registers `fn` for `HeapProfiler.heapStatsUpdate`, with
     * `once` when the `once` argument is truthy, with `on` otherwise.
     */
    method HeapStatsUpdate(fn: Handler, once: Py)
      modifies chrome
      ensures chrome.RegisteredOne(old(chrome.trace), old(chrome.replies),
        "HeapProfiler.heapStatsUpdate", fn, Truthy(once))
    {
      if Truthy(once) {
        chrome.Once("HeapProfiler.heapStatsUpdate", fn);
      } else {
        chrome.On("HeapProfiler.heapStatsUpdate", fn);
      }
    }

    /**
     * `lastSeenObjectId(fn, once=False)`: registers `fn` for `HeapProfiler.lastSeenObjectId`, with
     * `once` when the `once` argument is truthy, with `on` otherwise.
     */
    method LastSeenObjectId(fn: Handler, once: Py)
      modifies chrome
      ensures chrome.RegisteredOne(old(chrome.trace), old(chrome.replies),
        "HeapProfiler.lastSeenObjectId", fn, Truthy(once))
    {
      if Truthy(once) {
        chrome.Once("HeapProfiler.lastSeenObjectId", fn);
      } else {
        chrome.On("HeapProfiler.lastSeenObjectId", fn);
      }
    }

    /**
     * `reportHeapSnapshotProgress(fn, once=False)`: registers `fn` for
     * `HeapProfiler.reportHeapSnapshotProgress`, with `once` when the `once` argument is truthy,
     * with `on` otherwise.
     */
    method ReportHeapSnapshotProgress(fn: Handler, once: Py)
      modifies chrome
      ensures chrome.RegisteredOne(old(chrome.trace), old(chrome.replies),
        "HeapProfiler.reportHeapSnapshotProgress", fn, Truthy(once))
    {
      if Truthy(once) {
        chrome.Once("HeapProfiler.reportHeapSnapshotProgress", fn);
      } else {
        chrome.On("HeapProfiler.reportHeapSnapshotProgress", fn);
      }
    }

    /**
     * `resetProfiles(fn, once=False)`: registers `fn` for `HeapProfiler.resetProfiles`, with
     * `once` when the `once` argument is truthy, with `on` otherwise.
     */
    method ResetProfiles(fn: Handler, once: Py)
      modifies chrome
      ensures chrome.RegisteredOne(old(chrome.trace), old(chrome.replies),
        "HeapProfiler.resetProfiles", fn, Truthy(once))
    {
      if Truthy(once) {
        chrome.Once("HeapProfiler.resetProfiles", fn);
      } else {
        chrome.On("HeapProfiler.resetProfiles", fn);
      }
    }
  }

  /** `getObjectByHeapObjectId` includes `objectGroup` exactly when it is not None. */
  lemma GetObjectByHeapObjectIdGroup(objectId: Json, objectGroup: Json)
    ensures
      var args := [("objectId", objectId), ("objectGroup", objectGroup)];
      ("objectGroup" in Keys(BuildParams(args)) <==> !objectGroup.JNull?) &&
      Arg(BuildParams(args), "objectGroup") == objectGroup
  {
    ArgBuildParams([("objectId", objectId), ("objectGroup", objectGroup)], "objectGroup");
  }

  /** `startSampling()` sends an empty mapping. */
  lemma StartSamplingEmpty()
    ensures BuildParams([("samplingInterval", JNull)]) == []
  {
    BuildParamsOne("samplingInterval", JNull);
  }
}
