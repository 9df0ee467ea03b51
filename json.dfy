/**
 * Values exchanged with the browser and the Python values the client builds from them.
 *
 * `Json` is what arrives on the wire (after parsing): JSON `null` is Python `None`,
 * and an object is an ordered list of entries, as a Python dict keeps insertion order.
 * Numbers are opaque: no field of the modelled code does arithmetic on them.
 *
 * `Py` is what the decoders hand back: either the raw input (embedded with `Lift`) or
 * instances of the generated classes, possibly nested inside fresh lists.
 */
module Json {

  datatype Option<+T> = None | Some(value: T)

  /** The Python exceptions the modelled code can raise. */
  datatype PyError =
    | TypeError     // `T(**x)` on a non-mapping or a bad keyword, `for it in 5`, `None["k"]`
    | KeyError(key: string)
    | IndexError    // `"name".split(".")[1]` on a name without a dot

  datatype Result<+T> = Ok(value: T) | Err(error: PyError)

  datatype Json =
    | JNull
    | JBool(b: bool)
    | JNum(n: int)
    | JStr(s: string)
    | JArr(items: seq<Json>)
    | JObj(entries: seq<(string, Json)>)

  datatype Py =
    | PNone
    | PBool(b: bool)
    | PNum(n: int)
    | PStr(s: string)
    | PList(items: seq<Py>)
    | PDict(entries: seq<(string, Py)>)
      /** An instance of a generated class whose `__init__` assigns attributes. */
    | PObj(cls: string, attrs: seq<(string, Py)>)
      /** An instance of a generated class that subclasses `dict`. */
    | PDictOf(cls: string, entries: seq<(string, Py)>)

  /** The Python value that parsing `j` yields: the value a decoder returns "unchanged". */
  function Lift(j: Json): (p: Py)
    ensures j.JNull? <==> p.PNone?
    ensures p.PObj? ==> false
    ensures p.PDictOf? ==> false
  {
    match j
    case JNull => PNone
    case JBool(b) => PBool(b)
    case JNum(n) => PNum(n)
    case JStr(s) => PStr(s)
    case JArr(xs) => PList(seq(|xs|, i requires 0 <= i < |xs| => Lift(xs[i])))
    case JObj(es) => PDict(seq(|es|, i requires 0 <= i < |es| => (es[i].0, Lift(es[i].1))))
  }

  /** Lift is injective: no two wire values are the same Python value. */
  lemma {:induction false} LiftInjective(a: Json, b: Json)
    requires Lift(a) == Lift(b)
    ensures a == b
  {
    match a
    case JArr(xs) =>
      var ys := b.items;
      assert |xs| == |Lift(a).items| == |ys|;
      forall i | 0 <= i < |xs| ensures xs[i] == ys[i] {
        assert Lift(a).items[i] == Lift(b).items[i];
        LiftInjective(xs[i], ys[i]);
      }
    case JObj(es) =>
      var fs := b.entries;
      assert |es| == |Lift(a).entries| == |fs|;
      forall i | 0 <= i < |es| ensures es[i] == fs[i] {
        assert Lift(a).entries[i] == Lift(b).entries[i];
        LiftInjective(es[i].1, fs[i].1);
      }
    case _ =>
  }

  /** Position of the first entry with key `k`, or -1. */
  function IndexOf<V>(es: seq<(string, V)>, k: string): (i: int)
    ensures -1 <= i < |es|
    ensures i >= 0 ==> es[i].0 == k && forall j :: 0 <= j < i ==> es[j].0 != k
    ensures i < 0 ==> forall j :: 0 <= j < |es| ==> es[j].0 != k
  {
    if |es| == 0 then -1
    else if es[0].0 == k then 0
    else
      var i := IndexOf(es[1..], k);
      if i < 0 then -1 else i + 1
  }

  function Keys<V>(es: seq<(string, V)>): set<string>
  {
    set i | 0 <= i < |es| :: es[i].0
  }

  function KeyList<V>(es: seq<(string, V)>): seq<string>
  {
    seq(|es|, i requires 0 <= i < |es| => es[i].0)
  }

  /**
   * Python's truth test `if p:` on a value. `None`, `False`, zero and empty strings, lists
   * and dicts are false; instances of the generated classes, which define neither
   * `__bool__` nor `__len__`, are true; a `dict`-derived instance is true when it has entries.
   */
  predicate Truthy(p: Py)
  {
    match p
    case PNone => false
    case PBool(b) => b
    case PNum(n) => n != 0
    case PStr(s) => |s| > 0
    case PList(xs) => |xs| > 0
    case PDict(es) => |es| > 0
    case PObj(_, _) => true
    case PDictOf(_, es) => |es| > 0
  }

  lemma IndexOfKeys<V>(es: seq<(string, V)>, k: string)
    ensures IndexOf(es, k) >= 0 <==> k in Keys(es)
  {
    if k in Keys(es) {
      var j :| 0 <= j < |es| && es[j].0 == k;
    }
  }
}
