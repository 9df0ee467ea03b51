/**
 * The `Storage` domain (`cripy/async/protocol/storage/__init__.py`). `getUsageAndQuota`
 * rewrites `usageBreakdown` through the decoder of `Types.UsageForType`, which lives in a
 * module that is not part of this model and is the object's `decoders`.
 */
module StorageDomain {
  import opened Json
  import opened Decoding
  import opened Protocol

  /** The decoders of the reply types this domain's commands rewrite: `Types.UsageForType`. */
  datatype StorageDecoders = StorageDecoders(usageForType: Schema)

  /** The reply keys `getUsageAndQuota` rewrites, in order: `res["usageBreakdown"]`. */
  function GetUsageAndQuotaRewrites(decoders: StorageDecoders): seq<(string, Kind)>
  {
    [("usageBreakdown", Many(decoders.usageForType))]
  }

  class Storage {
    const chrome: Client
    const decoders: StorageDecoders

    constructor (chrome: Client, decoders: StorageDecoders)
      ensures this.chrome == chrome && this.decoders == decoders
    {
      this.chrome := chrome;
      this.decoders := decoders;
    }

    /**
     * `clearDataForOrigin(origin, storageTypes)`: sends `Storage.clearDataForOrigin` with the
     * arguments that are not None, and returns the reply.
     */
    method ClearDataForOrigin(origin: Json, storageTypes: Json) returns (r: Json)
      modifies chrome
      ensures chrome.SentOne(old(chrome.trace), old(chrome.replies), "Storage.clearDataForOrigin",
        Some(BuildParams([("origin", origin), ("storageTypes", storageTypes)])))
      ensures r == NextReply(old(chrome.replies))
    {
      var msgDict := MsgDict([("origin", origin), ("storageTypes", storageTypes)]);
      var mayberes := chrome.Send("Storage.clearDataForOrigin", Some(msgDict));
      r := mayberes;
    }

    /**
     * `getUsageAndQuota(origin)`: sends `Storage.getUsageAndQuota` with the arguments that are not
     * None, then rewrites `usageBreakdown` of the reply.
     */
    method GetUsageAndQuota(origin: Json) returns (r: Result<Py>)
      modifies chrome
      ensures chrome.SentOne(old(chrome.trace), old(chrome.replies), "Storage.getUsageAndQuota",
        Some(BuildParams([("origin", origin)])))
      ensures r == Reply(NextReply(old(chrome.replies)), GetUsageAndQuotaRewrites(decoders))
    {
      var msgDict := MsgDict([("origin", origin)]);
      var mayberes := chrome.Send("Storage.getUsageAndQuota", Some(msgDict));
      var res := mayberes;
      r := RewriteReply(res, GetUsageAndQuotaRewrites(decoders));
    }

    /**
     * `trackCacheStorageForOrigin(origin)`: sends `Storage.trackCacheStorageForOrigin` with the
     * arguments that are not None, and returns the reply.
     */
    method TrackCacheStorageForOrigin(origin: Json) returns (r: Json)
      modifies chrome
      ensures chrome.SentOne(old(chrome.trace), old(chrome.replies),
        "Storage.trackCacheStorageForOrigin",
        Some(BuildParams([("origin", origin)])))
      ensures r == NextReply(old(chrome.replies))
    {
      var msgDict := MsgDict([("origin", origin)]);
      var mayberes := chrome.Send("Storage.trackCacheStorageForOrigin", Some(msgDict));
      r := mayberes;
    }

    /**
     * `trackIndexedDBForOrigin(origin)`: sends `Storage.trackIndexedDBForOrigin` with the
     * arguments that are not None, and returns the reply.
     */
    method TrackIndexedDBForOrigin(origin: Json) returns (r: Json)
      modifies chrome
      ensures chrome.SentOne(old(chrome.trace), old(chrome.replies),
        "Storage.trackIndexedDBForOrigin",
        Some(BuildParams([("origin", origin)])))
      ensures r == NextReply(old(chrome.replies))
    {
      var msgDict := MsgDict([("origin", origin)]);
      var mayberes := chrome.Send("Storage.trackIndexedDBForOrigin", Some(msgDict));
      r := mayberes;
    }

    /**
     * `untrackCacheStorageForOrigin(origin)`: sends `Storage.untrackCacheStorageForOrigin` with
     * the arguments that are not None, and returns the reply.
     */
    method UntrackCacheStorageForOrigin(origin: Json) returns (r: Json)
      modifies chrome
      ensures chrome.SentOne(old(chrome.trace), old(chrome.replies),
        "Storage.untrackCacheStorageForOrigin",
        Some(BuildParams([("origin", origin)])))
      ensures r == NextReply(old(chrome.replies))
    {
      var msgDict := MsgDict([("origin", origin)]);
      var mayberes := chrome.Send("Storage.untrackCacheStorageForOrigin", Some(msgDict));
      r := mayberes;
    }

    /**
     * `untrackIndexedDBForOrigin(origin)`: sends `Storage.untrackIndexedDBForOrigin` with the
     * arguments that are not None, and returns the reply.
     */
    method UntrackIndexedDBForOrigin(origin: Json) returns (r: Json)
      modifies chrome
      ensures chrome.SentOne(old(chrome.trace), old(chrome.replies),
        "Storage.untrackIndexedDBForOrigin",
        Some(BuildParams([("origin", origin)])))
      ensures r == NextReply(old(chrome.replies))
    {
      var msgDict := MsgDict([("origin", origin)]);
      var mayberes := chrome.Send("Storage.untrackIndexedDBForOrigin", Some(msgDict));
      r := mayberes;
    }

    /** `get_event_classes()`: the `Events.EVENT_TO_CLASS` table of the events module, itself. */
    static function GetEventClasses(eventToClass: EventTable): (r: EventTable)
      ensures r == eventToClass
    {
      eventToClass
    }
  }

  /**
   * `clearDataForOrigin` sends exactly the values among `origin` and `storageTypes` that are not
   * None.
   */
  lemma ClearDataForOriginParams(origin: Json, storageTypes: Json, k: string)
    ensures
      var args := [("origin", origin), ("storageTypes", storageTypes)];
      Arg(BuildParams(args), k) == Arg(args, k) &&
      (k in Keys(BuildParams(args)) <==> !Arg(args, k).JNull?)
  {
    ArgBuildParams([("origin", origin), ("storageTypes", storageTypes)], k);
  }

  /**
   * Only `res["usageBreakdown"]` changes, to the `UsageForType` list decoded from it; a reply
   * without it raises KeyError.
   */
  lemma GetUsageAndQuotaReply(decoders: StorageDecoders, es: seq<(string, Json)>, i: nat)
    requires DistinctKeys(es) && i < |es|
    ensures Reply(JObj(es), GetUsageAndQuotaRewrites(decoders)).Ok? <==>
      "usageBreakdown" in Keys(es) && Convert(Many(decoders.usageForType), Arg(es,
          "usageBreakdown")).Ok?
    ensures "usageBreakdown" !in Keys(es) ==>
      Reply(JObj(es), GetUsageAndQuotaRewrites(decoders)) == Err(KeyError("usageBreakdown"))
    ensures Reply(JObj(es), GetUsageAndQuotaRewrites(decoders)).Ok? ==>
      Reply(JObj(es), GetUsageAndQuotaRewrites(decoders)).value.entries[i] ==
        (es[i].0, if es[i].0 == "usageBreakdown" then Convert(Many(decoders.usageForType),
            es[i].1).value else Lift(es[i].1))
  {
    SingleRewrite(es, "usageBreakdown", Many(decoders.usageForType), i);
  }
}
