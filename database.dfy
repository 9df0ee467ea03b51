/**
 * The `Database` domain (`cripy/asyncio/protocol/database/domain.py`). `executeSQL` rewrites
 * `sqlError` through the decoder of `Types.Error`, which lives in a module that is not part
 * of this model and is the object's `decoders`.
 */
module DatabaseDomain {
  import opened Json
  import opened Decoding
  import opened Protocol

  /** The decoders of the reply types this domain's commands rewrite: `Types.Error`. */
  datatype DatabaseDecoders = DatabaseDecoders(error: Schema)

  /** The reply keys `executeSQL` rewrites, in order: `res["sqlError"]`. */
  function ExecuteSQLRewrites(decoders: DatabaseDecoders): seq<(string, Kind)>
  {
    [("sqlError", One(decoders.error))]
  }

  class Database {
    const chrome: Client
    const decoders: DatabaseDecoders

    constructor (chrome: Client, decoders: DatabaseDecoders)
      ensures this.chrome == chrome && this.decoders == decoders
    {
      this.chrome := chrome;
      this.decoders := decoders;
    }

    /** `disable()`: sends `Database.disable` with no params, and returns the reply. */
    method Disable() returns (r: Json)
      modifies chrome
      ensures chrome.SentOne(old(chrome.trace), old(chrome.replies), "Database.disable", None)
      ensures r == NextReply(old(chrome.replies))
    {
      var res := chrome.Send("Database.disable", None);
      r := res;
    }

    /** `enable()`: sends `Database.enable` with no params, and returns the reply. */
    method Enable() returns (r: Json)
      modifies chrome
      ensures chrome.SentOne(old(chrome.trace), old(chrome.replies), "Database.enable", None)
      ensures r == NextReply(old(chrome.replies))
    {
      var res := chrome.Send("Database.enable", None);
      r := res;
    }

    /**
     * `executeSQL(databaseId, query)`: sends `Database.executeSQL` with the arguments that are not
     * None, then rewrites `sqlError` of the reply.
     */
    method ExecuteSQL(databaseId: Json, query: Json) returns (r: Result<Py>)
      modifies chrome
      ensures chrome.SentOne(old(chrome.trace), old(chrome.replies), "Database.executeSQL",
        Some(BuildParams([("databaseId", databaseId), ("query", query)])))
      ensures r == Reply(NextReply(old(chrome.replies)), ExecuteSQLRewrites(decoders))
    {
      var msgDict := MsgDict([("databaseId", databaseId), ("query", query)]);
      var res := chrome.Send("Database.executeSQL", Some(msgDict));
      r := RewriteReply(res, ExecuteSQLRewrites(decoders));
    }

    /**
     * `getDatabaseTableNames(databaseId)`: sends `Database.getDatabaseTableNames` with the
     * arguments that are not None, and returns the reply.
     */
    method GetDatabaseTableNames(databaseId: Json) returns (r: Json)
      modifies chrome
      ensures chrome.SentOne(old(chrome.trace), old(chrome.replies),
        "Database.getDatabaseTableNames",
        Some(BuildParams([("databaseId", databaseId)])))
      ensures r == NextReply(old(chrome.replies))
    {
      var msgDict := MsgDict([("databaseId", databaseId)]);
      var res := chrome.Send("Database.getDatabaseTableNames", Some(msgDict));
      r := res;
    }

    /**
     * `addDatabase(fn, once=False)`: registers `fn` for `Database.addDatabase`, with `once` when
     * the `once` argument is truthy, with `on` otherwise.
     */
    method AddDatabase(fn: Handler, once: Py)
      modifies chrome
      ensures chrome.RegisteredOne(old(chrome.trace), old(chrome.replies), "Database.addDatabase",
        fn, Truthy(once))
    {
      if Truthy(once) {
        chrome.Once("Database.addDatabase", fn);
      } else {
        chrome.On("Database.addDatabase", fn);
      }
    }

    /**
     * `get_event_classes()`: the `Events.DATABASE_EVENTS_TO_CLASS` table of the events module,
     * itself.
     */
    static function GetEventClasses(eventToClass: EventTable): (r: EventTable)
      ensures r == eventToClass
    {
      eventToClass
    }
  }

  /** `executeSQL` sends exactly the values among `databaseId` and `query` that are not None. */
  lemma ExecuteSQLParams(databaseId: Json, query: Json, k: string)
    ensures
      var args := [("databaseId", databaseId), ("query", query)];
      Arg(BuildParams(args), k) == Arg(args, k) &&
      (k in Keys(BuildParams(args)) <==> !Arg(args, k).JNull?)
  {
    ArgBuildParams([("databaseId", databaseId), ("query", query)], k);
  }

  /**
   * `res["sqlError"]` becomes `Types.Error.safe_create` of it and every other entry is kept; a
   * reply without it raises KeyError.
   */
  lemma ExecuteSQLReply(decoders: DatabaseDecoders, es: seq<(string, Json)>, i: nat)
    requires DistinctKeys(es) && i < |es|
    ensures Reply(JObj(es), ExecuteSQLRewrites(decoders)).Ok? <==>
      "sqlError" in Keys(es) && Convert(One(decoders.error), Arg(es, "sqlError")).Ok?
    ensures "sqlError" !in Keys(es) ==>
      Reply(JObj(es), ExecuteSQLRewrites(decoders)) == Err(KeyError("sqlError"))
    ensures Reply(JObj(es), ExecuteSQLRewrites(decoders)).Ok? ==>
      Reply(JObj(es), ExecuteSQLRewrites(decoders)).value.entries[i] ==
        (es[i].0, if es[i].0 == "sqlError" then Convert(One(decoders.error),
            es[i].1).value else Lift(es[i].1))
  {
    SingleRewrite(es, "sqlError", One(decoders.error), i);
  }
}
