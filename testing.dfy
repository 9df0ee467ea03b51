/**
 * The `Testing` domain (`cripy/protocol/testing.py`), an attrs dataclass over its `client`.
 * `generateTestReport` hands back what `client.send` returns, without awaiting it; the stub
 * client returns the reply itself, so the awaitable and its value are not told apart.
 */
module TestingDomain {
  import opened Json
  import opened Decoding
  import opened Protocol

  class Testing {
    const client: Client

    constructor (client: Client)
      ensures this.client == client
    {
      this.client := client;
    }

    /**
     * `generateTestReport(message, group)`: sends `Testing.generateTestReport` with the arguments
     * that are not None, and returns what `send` returns.
     */
    method GenerateTestReport(message: Json, group: Json) returns (r: Json)
      modifies client
      ensures client.SentOne(old(client.trace), old(client.replies), "Testing.generateTestReport",
        Some(BuildParams([("message", message), ("group", group)])))
      ensures r == NextReply(old(client.replies))
    {
      var msgDict := MsgDict([("message", message), ("group", group)]);
      r := client.Send("Testing.generateTestReport", Some(msgDict));
    }
  }

  /** `generateTestReport` includes `message` and `group` each exactly when it is not None. */
  lemma GenerateTestReportParams(message: Json, group: Json)
    ensures
      var params := BuildParams([("message", message), ("group", group)]);
      && ("message" in Keys(params) <==> !message.JNull?)
      && ("group" in Keys(params) <==> !group.JNull?)
    ensures
      var params := BuildParams([("message", message), ("group", group)]);
      Arg(params, "message") == message && Arg(params, "group") == group
  {
    ArgBuildParams([("message", message), ("group", group)], "message");
    ArgBuildParams([("message", message), ("group", group)], "group");
  }
}
