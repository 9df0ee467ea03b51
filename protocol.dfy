/**
 * What every generated domain method shares: the parameter mapping built from its keyword
 * arguments, the client it sends through and registers handlers with, and the in-place
 * rewriting of reply keys through typed decoders.
 *
 * The client (`Connection` / `CDPSession`) is not part of this model. It is replaced by a
 * recording stub: `Client` appends every `send`, `on` and `once` call to a trace and answers
 * each `send` with the next reply of a script given up front (`None` once the script is
 * exhausted). Awaiting a reply, and gevent's `wres.get()`, hand the reply back unchanged.
 */
module Protocol {
  import opened Json
  import opened Decoding

  /** A Python callable handed to `on` / `once`; only its identity matters. */
  datatype Handler = Handler(id: nat)

  /** An events table such as `OVERLAY_EVENTS_TO_CLASS`: event name to the class decoding it. */
  type EventTable = map<string, Schema>

  /** One call the generated code makes on its client. */
  datatype Call =
      /** `send(command)` when `params` is None, `send(command, params)` otherwise. */
    | Sent(command: string, params: Option<seq<(string, Json)>>)
      /** `once(event, fn)` when `once` holds, `on(event, fn)` otherwise. */
    | Registered(event: string, handler: Handler, once: bool)

  /** The reply the next `send` receives from a script of replies. */
  function NextReply(replies: seq<Json>): Json
  {
    if |replies| == 0 then JNull else replies[0]
  }

  /** The script once the next reply is used up. */
  function Remaining(replies: seq<Json>): seq<Json>
  {
    if |replies| == 0 then [] else replies[1..]
  }

  /** The recording client: the calls made so far and the replies still to come. */
  class Client {
    var trace: seq<Call>
    var replies: seq<Json>

    constructor (replies: seq<Json>)
      ensures trace == [] && this.replies == replies
    {
      trace := [];
      this.replies := replies;
    }

    /** `send(command[, params])`: the call is recorded and answered with the next reply. */
    method Send(command: string, params: Option<seq<(string, Json)>>) returns (reply: Json)
      modifies this
      ensures trace == old(trace) + [Sent(command, params)]
      ensures replies == Remaining(old(replies))
      ensures reply == NextReply(old(replies))
    {
      trace := trace + [Sent(command, params)];
      reply := NextReply(replies);
      replies := Remaining(replies);
    }

    /** `on(event, fn)`: a lasting registration. */
    method On(event: string, fn: Handler)
      modifies this
      ensures trace == old(trace) + [Registered(event, fn, false)]
      ensures replies == old(replies)
    {
      trace := trace + [Registered(event, fn, false)];
    }

    /** `once(event, fn)`: a registration for the next occurrence only. */
    method Once(event: string, fn: Handler)
      modifies this
      ensures trace == old(trace) + [Registered(event, fn, true)]
      ensures replies == old(replies)
    {
      trace := trace + [Registered(event, fn, true)];
    }

    /** The stub's state after one `send(command, params)` from `trace0` and `replies0`. */
    predicate SentOne(trace0: seq<Call>, replies0: seq<Json>, command: string, params: Option<seq<(string, Json)>>)
      reads this
    {
      trace == trace0 + [Sent(command, params)] && replies == Remaining(replies0)
    }

    /** The stub's state after one registration of `fn` for `event` from `trace0` and `replies0`. */
    predicate RegisteredOne(trace0: seq<Call>, replies0: seq<Json>, event: string, fn: Handler, once: bool)
      reads this
    {
      trace == trace0 + [Registered(event, fn, once)] && replies == replies0
    }
  }

  /** No two entries share a key, as in a Python dict or a parameter list. */
  predicate DistinctKeys<V>(es: seq<(string, V)>)
  {
    forall i, j :: 0 <= i < j < |es| ==> es[i].0 != es[j].0
  }

  /**
   * The `msg_dict` a command builds from its `(name, argument)` pairs, in declaration order:
   * an entry for each argument that is not None.
   */
  function BuildParams(args: seq<(string, Json)>): (p: seq<(string, Json)>)
    ensures |p| <= |args|
    ensures forall e :: e in p <==> e in args && e.1 != JNull
    decreases |args|
  {
    if |args| == 0 then []
    else
      var last := args[|args| - 1];
      var init := args[..|args| - 1];
      assert args == init + [last];
      BuildParams(init) + (if last.1 != JNull then [last] else [])
  }

  /**
   * `msg_dict = dict()` followed by one `if arg is not None: msg_dict[name] = arg` per
   * parameter. Parameter names are distinct (Python rejects a repeated one), so each
   * insertion adds a new key at the end.
   */
  method MsgDict(args: seq<(string, Json)>) returns (msgDict: seq<(string, Json)>)
    ensures msgDict == BuildParams(args)
  {
    msgDict := [];
    for i := 0 to |args|
      invariant msgDict == BuildParams(args[..i])
    {
      assert args[..i + 1][..i] == args[..i];
      if args[i].1 != JNull {
        msgDict := msgDict + [args[i]];
      }
    }
    assert args[..|args|] == args;
  }

  /** The parameters of consecutive arguments follow each other: declaration order is kept. */
  lemma {:induction false} BuildParamsAppend(a: seq<(string, Json)>, b: seq<(string, Json)>)
    ensures BuildParams(a + b) == BuildParams(a) + BuildParams(b)
    decreases |b|
  {
    if |b| == 0 {
      assert a + b == a;
    } else {
      var b0 := b[..|b| - 1];
      assert (a + b)[..|a + b| - 1] == a + b0;
      assert (a + b)[|a + b| - 1] == b[|b| - 1];
      BuildParamsAppend(a, b0);
    }
  }

  /** One more argument: its entry joins the parameters, at the end, exactly when it is not None. */
  lemma BuildParamsSnoc(args: seq<(string, Json)>, e: (string, Json))
    ensures BuildParams(args + [e]) == BuildParams(args) + (if e.1 != JNull then [e] else [])
  {
    assert (args + [e])[..|args|] == args;
  }

  /** An argument that is not None has its key among the parameters. */
  lemma ParamsHaveKey(args: seq<(string, Json)>, a: nat)
    requires a < |args| && !args[a].1.JNull?
    ensures IndexOf(BuildParams(args), args[a].0) >= 0
  {
    var p := BuildParams(args);
    assert args[a] in p;
    IndexOfKeys(p, args[a].0);
  }

  /** A key no argument carries is not among the parameters. */
  lemma ParamsLackKey(args: seq<(string, Json)>, k: string)
    requires forall j :: 0 <= j < |args| ==> args[j].0 != k
    ensures IndexOf(BuildParams(args), k) < 0
  {
    var p := BuildParams(args);
    forall j | 0 <= j < |p| ensures p[j].0 != k {
      assert p[j] in args;
    }
  }

  /**
   * Arguments that are all set up to some point and all None after it: exactly the ones
   * before that point are sent, as given.
   */
  lemma {:induction false} BuildParamsLeading(args: seq<(string, Json)>, n: nat)
    requires n <= |args|
    requires forall k :: 0 <= k < n ==> !args[k].1.JNull?
    requires forall k :: n <= k < |args| ==> args[k].1.JNull?
    ensures BuildParams(args) == args[..n]
    decreases |args|
  {
    if |args| == n {
      BuildParamsNoneMissing(args);
    } else {
      var init := args[..|args| - 1];
      assert forall k :: 0 <= k < |init| ==> init[k] == args[k];
      BuildParamsLeading(init, n);
      assert init[..n] == args[..n];
    }
  }

  /** Where a key sits among the parameters once one more argument follows. */
  lemma ParamsIndexSnoc(args: seq<(string, Json)>, e: (string, Json), k: string)
    ensures IndexOf(BuildParams(args), k) >= 0 ==>
      IndexOf(BuildParams(args + [e]), k) == IndexOf(BuildParams(args), k)
    ensures IndexOf(BuildParams(args), k) < 0 && k == e.0 && e.1 != JNull ==>
      IndexOf(BuildParams(args + [e]), k) == |BuildParams(args)|
  {
    BuildParamsSnoc(args, e);
    IndexOfAppend(BuildParams(args), if e.1 != JNull then [e] else [], k);
  }

  /** Parameters appear in declaration order: an earlier argument's entry comes first. */
  lemma {:induction false} BuildParamsOrder(args: seq<(string, Json)>, a: nat, b: nat)
    requires DistinctKeys(args) && a < b < |args|
    requires !args[a].1.JNull? && !args[b].1.JNull?
    ensures 0 <= IndexOf(BuildParams(args), args[a].0) < IndexOf(BuildParams(args), args[b].0)
    decreases |args|
  {
    var n := |args| - 1;
    var init, e := args[..n], args[n];
    assert args == init + [e];
    assert forall j :: 0 <= j < |init| ==> init[j] == args[j];
    if b == n {
      ParamsHaveKey(init, a);
      ParamsLackKey(init, e.0);
      ParamsIndexSnoc(init, e, args[a].0);
      ParamsIndexSnoc(init, e, e.0);
    } else {
      BuildParamsOrder(init, a, b);
      ParamsIndexSnoc(init, e, args[a].0);
      ParamsIndexSnoc(init, e, args[b].0);
    }
  }

  /** Only None is filtered: `False`, `0` and `""` are sent like any other value. */
  lemma ParamsKeepFalsy(args: seq<(string, Json)>, k: nat)
    requires k < |args|
    requires args[k].1 == JBool(false) || args[k].1 == JNum(0) || args[k].1 == JStr("")
    ensures args[k] in BuildParams(args)
  {
  }

  /** A single argument becomes an entry exactly when it is not None: falsy values are kept. */
  lemma BuildParamsOne(name: string, v: Json)
    ensures BuildParams([(name, v)]) == if v.JNull? then [] else [(name, v)]
  {
    assert [(name, v)][..0] == [];
  }

  /** All arguments None: the empty mapping (which is still sent, unlike no params at all). */
  lemma {:induction false} BuildParamsAllNone(args: seq<(string, Json)>)
    requires forall k :: 0 <= k < |args| ==> args[k].1.JNull?
    ensures BuildParams(args) == []
    decreases |args|
  {
    if |args| > 0 {
      BuildParamsAllNone(args[..|args| - 1]);
    }
  }

  /** No argument None: every argument is sent, in order. */
  lemma {:induction false} BuildParamsNoneMissing(args: seq<(string, Json)>)
    requires forall k :: 0 <= k < |args| ==> !args[k].1.JNull?
    ensures BuildParams(args) == args
    decreases |args|
  {
    if |args| > 0 {
      var init := args[..|args| - 1];
      BuildParamsNoneMissing(init);
      assert init + [args[|args| - 1]] == args;
    }
  }

  /**
   * Looking a key up in the parameters gives what looking it up among the arguments gives:
   * the argument's value, or None (absent) when the argument is None or not a parameter.
   */
  lemma ArgBuildParams(args: seq<(string, Json)>, k: string)
    requires DistinctKeys(args)
    ensures Arg(BuildParams(args), k) == Arg(args, k)
    ensures k in Keys(BuildParams(args)) <==> !Arg(args, k).JNull?
  {
    var p := BuildParams(args);
    IndexOfKeys(p, k);
    IndexOfKeys(args, k);
    var ip := IndexOf(p, k);
    var ia := IndexOf(args, k);
    if ia >= 0 {
      var e := args[ia];
      if ip >= 0 {
        assert p[ip] in p;
        var m :| 0 <= m < |args| && args[m] == p[ip];
        assert m == ia;
      }
    }
  }

  /** Looking a key up in a concatenation: the first part wins. */
  lemma {:induction false} IndexOfAppend<V>(a: seq<(string, V)>, b: seq<(string, V)>, k: string)
    ensures IndexOf(a, k) >= 0 ==> IndexOf(a + b, k) == IndexOf(a, k)
    ensures IndexOf(a, k) < 0 && IndexOf(b, k) >= 0 ==> IndexOf(a + b, k) == |a| + IndexOf(b, k)
    ensures IndexOf(a, k) < 0 && IndexOf(b, k) < 0 ==> IndexOf(a + b, k) < 0
    decreases |a|
  {
    if |a| == 0 {
      assert a + b == b;
    } else if a[0].0 != k {
      assert (a + b)[1..] == a[1..] + b;
      IndexOfAppend(a[1..], b, k);
    }
  }

  /** The raw reply entries as a Python dict holds them before any rewrite. */
  function LiftEntries(es: seq<(string, Json)>): (d: seq<(string, Py)>)
    ensures |d| == |es| && KeyList(d) == KeyList(es)
    ensures forall i :: 0 <= i < |es| ==> d[i] == (es[i].0, Lift(es[i].1))
  {
    seq(|es|, i requires 0 <= i < |es| => (es[i].0, Lift(es[i].1)))
  }

  /** The keys a list of rewrites names. */
  function RewriteNames(rs: seq<(string, Kind)>): set<string>
  {
    set j | 0 <= j < |rs| :: rs[j].0
  }

  /**
   * The reply dict after the rewrites `res[k] = T.safe_create(res[k])` (or
   * `_from_list`) for each `(k, kind)` of `rs` in turn: each reads the value the reply
   * carried and replaces it in place, and the first missing key raises KeyError.
   */
  function Rewritten(es: seq<(string, Json)>, rs: seq<(string, Kind)>): (r: Result<seq<(string, Py)>>)
    ensures r.Ok? ==> |r.value| == |es| && KeyList(r.value) == KeyList(es)
    ensures r.Ok? <==> forall j :: 0 <= j < |rs| ==>
      rs[j].0 in Keys(es) && Convert(rs[j].1, Arg(es, rs[j].0)).Ok?
    ensures r.Err? ==> r.error == TypeError || exists j :: 0 <= j < |rs| && r.error == KeyError(rs[j].0)
    decreases |rs|
  {
    if |rs| == 0 then Ok(LiftEntries(es))
    else
      var init := rs[..|rs| - 1];
      var (k, kind) := rs[|rs| - 1];
      assert forall j :: 0 <= j < |init| ==> init[j] == rs[j];
      match Rewritten(es, init)
      case Err(e) => Err(e)
      case Ok(d) =>
        var i := IndexOf(es, k);
        IndexOfKeys(es, k);
        if i < 0 then Err(KeyError(k))
        else
          match Convert(kind, es[i].1)
          case Err(e) =>
            assert Convert(rs[|rs| - 1].1, Arg(es, rs[|rs| - 1].0)) == Err(e);
            Err(e)
          case Ok(p) =>
            assert KeyList(d[i := (k, p)]) == KeyList(d) by {
              assert forall m :: 0 <= m < |d| ==> KeyList(d[i := (k, p)])[m] == KeyList(d)[m];
            }
            Ok(d[i := (k, p)])
  }

  /**
   * The value of a command that rewrites the reply keys `rs`: the rewritten dict, the
   * reply itself when there is nothing to rewrite, or the exception: TypeError when the
   * reply is not a dict (`None["k"]`), KeyError for a missing key.
   */
  function Reply(reply: Json, rs: seq<(string, Kind)>): Result<Py>
  {
    if |rs| == 0 then Ok(Lift(reply))
    else if !reply.JObj? then Err(TypeError)
    else
      match Rewritten(reply.entries, rs)
      case Err(e) => Err(e)
      case Ok(d) => Ok(PDict(d))
  }

  /** Rewriting the keys `rs` of a reply, one assignment after the other, in place. */
  method RewriteReply(reply: Json, rs: seq<(string, Kind)>) returns (r: Result<Py>)
    ensures r == Reply(reply, rs)
  {
    if |rs| == 0 {
      return Ok(Lift(reply));
    }
    if !reply.JObj? {
      return Err(TypeError);
    }
    var es := reply.entries;
    var res := LiftEntries(es);
    for i := 0 to |rs|
      invariant Rewritten(es, rs[..i]) == Ok(res)
    {
      assert rs[..i + 1][..i] == rs[..i];
      var (k, kind) := rs[i];
      var idx := IndexOf(es, k);
      if idx < 0 {
        RewrittenPrefixErr(es, rs, i + 1);
        return Err(KeyError(k));
      }
      var v := Convert(kind, es[idx].1);
      if v.Err? {
        RewrittenPrefixErr(es, rs, i + 1);
        return Err(v.error);
      }
      res := res[idx := (k, v.value)];
    }
    assert rs[..|rs|] == rs;
    r := Ok(PDict(res));
  }

  /** A rewrite that raises stops the command: later rewrites never run, and the error stands. */
  lemma {:induction false} RewrittenPrefixErr(es: seq<(string, Json)>, rs: seq<(string, Kind)>, n: nat)
    requires 0 < n <= |rs| && Rewritten(es, rs[..n]).Err?
    ensures Rewritten(es, rs) == Rewritten(es, rs[..n])
    decreases |rs| - n
  {
    if n < |rs| {
      assert rs[..n + 1][..n] == rs[..n];
      RewrittenPrefixErr(es, rs, n + 1);
    } else {
      assert rs[..n] == rs;
    }
  }

  /** Rewriting nothing leaves the reply untouched: the commands that return `res` as received. */
  lemma ReplyNoRewrites(reply: Json)
    ensures Reply(reply, []) == Ok(Lift(reply))
  {
  }

  /** A reply that is not a dict makes the first rewrite raise TypeError. */
  lemma ReplyNotDict(reply: Json, rs: seq<(string, Kind)>)
    requires |rs| > 0 && !reply.JObj?
    ensures Reply(reply, rs) == Err(TypeError)
  {
  }

  /**
   * The first rewrite whose key the reply lacks raises KeyError for that key, provided the
   * rewrites before it went through.
   */
  lemma FirstMissingKey(es: seq<(string, Json)>, rs: seq<(string, Kind)>, j: nat)
    requires j < |rs| && rs[j].0 !in Keys(es)
    requires forall i :: 0 <= i < j ==> rs[i].0 in Keys(es) && Convert(rs[i].1, Arg(es, rs[i].0)).Ok?
    ensures Reply(JObj(es), rs) == Err(KeyError(rs[j].0))
  {
    assert forall i :: 0 <= i < j ==> rs[..j][i] == rs[i];
    assert Rewritten(es, rs[..j]).Ok?;
    assert rs[..j + 1][..j] == rs[..j];
    IndexOfKeys(es, rs[j].0);
    assert Rewritten(es, rs[..j + 1]) == Err(KeyError(rs[j].0));
    RewrittenPrefixErr(es, rs, j + 1);
  }

  /**
   * Only the named keys change: every reply entry whose key no rewrite names keeps its
   * value as received, at its position.
   */
  lemma {:induction false} RewriteKeepsOthers(es: seq<(string, Json)>, rs: seq<(string, Kind)>, i: nat)
    requires i < |es| && es[i].0 !in RewriteNames(rs)
    requires Rewritten(es, rs).Ok?
    ensures Rewritten(es, rs).value[i] == (es[i].0, Lift(es[i].1))
    decreases |rs|
  {
    if |rs| > 0 {
      var init := rs[..|rs| - 1];
      assert RewriteNames(init) <= RewriteNames(rs) by {
        forall j | 0 <= j < |init| ensures init[j].0 in RewriteNames(rs) {
          assert init[j] == rs[j];
        }
      }
      RewriteKeepsOthers(es, init, i);
      var k := rs[|rs| - 1].0;
      assert k in RewriteNames(rs);
      assert IndexOf(es, k) != i;
    }
  }

  /**
   * Each named key holds the decoded value of what the reply carried under it, at the
   * key's position (rewritten keys are distinct, so no later rewrite overwrites it).
   */
  lemma {:induction false} RewriteSetsNamed(es: seq<(string, Json)>, rs: seq<(string, Kind)>, j: nat)
    requires j < |rs| && DistinctKeys(rs)
    requires Rewritten(es, rs).Ok?
    ensures IndexOf(es, rs[j].0) >= 0
    ensures Rewritten(es, rs).value[IndexOf(es, rs[j].0)] ==
      (rs[j].0, Convert(rs[j].1, Arg(es, rs[j].0)).value)
    decreases |rs|
  {
    IndexOfKeys(es, rs[j].0);
    var init := rs[..|rs| - 1];
    var n := |rs| - 1;
    IndexOfKeys(es, rs[n].0);
    if j < n {
      assert init[j] == rs[j];
      assert DistinctKeys(init) by {
        forall a, b | 0 <= a < b < |init| ensures init[a].0 != init[b].0 {
          assert init[a] == rs[a] && init[b] == rs[b];
        }
      }
      RewriteSetsNamed(es, init, j);
      assert rs[j].0 != rs[n].0;
      assert IndexOf(es, rs[j].0) != IndexOf(es, rs[n].0);
    }
  }

  /** Looking up a rewritten key in the command's result gives the decoded value. */
  lemma RewriteLookup(es: seq<(string, Json)>, rs: seq<(string, Kind)>, j: nat)
    requires j < |rs| && DistinctKeys(rs) && Rewritten(es, rs).Ok?
    ensures IndexOf(Rewritten(es, rs).value, rs[j].0) == IndexOf(es, rs[j].0)
  {
    RewriteSetsNamed(es, rs, j);
    var d := Rewritten(es, rs).value;
    var k := rs[j].0;
    var i := IndexOf(es, k);
    assert forall m :: 0 <= m < |es| ==> d[m].0 == KeyList(d)[m] == KeyList(es)[m] == es[m].0;
    var i' := IndexOf(d, k);
    assert d[i].0 == k;
  }

  /** The decoder a list of rewrites applies to a key: the named kind, or none (`Plain`). */
  function KindOf(rs: seq<(string, Kind)>, k: string): (kind: Kind)
    ensures k !in RewriteNames(rs) ==> kind == Plain
  {
    var i := IndexOf(rs, k);
    if i < 0 then Plain else rs[i].1
  }

  /**
   * The whole rewritten reply, entry by entry: a named key holds its decoded value, every
   * other key its value as received, each at the position the reply had it.
   */
  lemma ReplyEntries(es: seq<(string, Json)>, rs: seq<(string, Kind)>, i: nat)
    requires DistinctKeys(es) && DistinctKeys(rs) && i < |es|
    requires |rs| > 0 && Reply(JObj(es), rs).Ok?
    ensures Reply(JObj(es), rs).value.PDict? && |Reply(JObj(es), rs).value.entries| == |es|
    ensures es[i].0 !in RewriteNames(rs) ==>
      Reply(JObj(es), rs).value.entries[i] == (es[i].0, Lift(es[i].1))
    ensures es[i].0 in RewriteNames(rs) ==>
      Reply(JObj(es), rs).value.entries[i] == (es[i].0, Convert(KindOf(rs, es[i].0), es[i].1).value)
  {
    var k := es[i].0;
    if k in RewriteNames(rs) {
      var j :| 0 <= j < |rs| && rs[j].0 == k;
      RewriteSetsNamed(es, rs, j);
      assert IndexOf(es, k) == i;
      assert IndexOf(rs, k) == j;
    } else {
      RewriteKeepsOthers(es, rs, i);
    }
  }

  /**
   * A command that rewrites one key: it goes through exactly when the reply has the key and
   * its decoder does not raise; the key then holds the decoded value and every other entry
   * is as received. A reply lacking the key raises KeyError for it.
   */
  lemma SingleRewrite(es: seq<(string, Json)>, key: string, kind: Kind, i: nat)
    requires DistinctKeys(es) && i < |es|
    ensures Reply(JObj(es), [(key, kind)]).Ok? <==> key in Keys(es) && Convert(kind, Arg(es, key)).Ok?
    ensures key !in Keys(es) ==> Reply(JObj(es), [(key, kind)]) == Err(KeyError(key))
    ensures Reply(JObj(es), [(key, kind)]).Ok? ==>
      Reply(JObj(es), [(key, kind)]).value.PDict? &&
      Reply(JObj(es), [(key, kind)]).value.entries[i] ==
        (es[i].0, if es[i].0 == key then Convert(kind, es[i].1).value else Lift(es[i].1))
  {
    var rs := [(key, kind)];
    assert RewriteNames(rs) == {key} by {
      assert rs[0].0 == key;
    }
    if key !in Keys(es) {
      FirstMissingKey(es, rs, 0);
    }
    if Reply(JObj(es), rs).Ok? {
      ReplyEntries(es, rs, i);
    }
  }
}
