/**
 * The defensive decoders of the generated type and event classes, once, driven by a
 * per-class schema.
 *
 * Every generated class `T` has a constructor that takes the protocol fields as keyword
 * parameters (required ones without default, optional ones defaulting to `None`) and
 * assigns one attribute per field, feeding nested fields through the nested class's
 * `safe_create` or `safe_create_from_list`. Then:
 *
 *   T.safe_create(init)           = None if init is None, else T(**init), or init itself
 *                                   if that raised;
 *   T.safe_create_from_list(init) = None if init is None, else
 *                                   [T.safe_create(it) for it in init].
 *
 * `Construct` is `T(**init)` (with Python's keyword binding and the exceptions it raises),
 * `Decode` is `safe_create` and `DecodeList` is `safe_create_from_list`.
 */
module Decoding {
  import opened Json
  import opened Text

  /** How a constructor turns the value of one keyword argument into an attribute. */
  datatype Kind =
    | Plain          // `self.f = f`
    | One(s: Schema) // `self.f = S.safe_create(f)`
    | Many(s: Schema) // `self.f = S.safe_create_from_list(f)`

  datatype Field = Field(name: string, required: bool, kind: Kind)

  datatype Schema =
      /**
       * A class whose `__init__` takes the listed keyword parameters; `fields` is in assignment
       * order.
       */
    | Fields(cls: string, fields: seq<Field>)
      /**
       * A class derived from `dict` with no `__init__` of its own: `T(**init)` copies the entries.
       */
    | DictLike(cls: string)

  function Req(name: string): Field { Field(name, true, Plain) }
  function Opt(name: string): Field { Field(name, false, Plain) }

  function Names(fs: seq<Field>): set<string>
  {
    set k | 0 <= k < |fs| :: fs[k].name
  }

  function FieldNames(fs: seq<Field>): seq<string>
  {
    seq(|fs|, k requires 0 <= k < |fs| => fs[k].name)
  }

  function RequiredNames(fs: seq<Field>): set<string>
  {
    set k | 0 <= k < |fs| && fs[k].required :: fs[k].name
  }

  /**
   * Python's binding of `T(**es)` to `__init__(self, <fields>)`: it succeeds iff every key
   * names a parameter and every parameter without default is given (even as `None`).
   */
  predicate Binds(fs: seq<Field>, es: seq<(string, Json)>)
  {
    Keys(es) <= Names(fs) && RequiredNames(fs) <= Keys(es)
  }

  /**
   * `for it in v` succeeds on lists, strings and dicts, and raises TypeError on numbers and
   * booleans.
   */
  predicate Iterable(v: Json)
  {
    v.JArr? || v.JStr? || v.JObj?
  }

  /** The values `for it in v` visits: items, one-character strings, or keys. */
  function Iterate(v: Json): (r: Result<seq<Json>>)
    ensures r.Ok? <==> Iterable(v)
    ensures r.Err? ==> r.error == TypeError
  {
    match v
    case JArr(xs) => Ok(xs)
    case JStr(t) => Ok(seq(|t|, k requires 0 <= k < |t| => JStr([t[k]])))
    case JObj(es) => Ok(seq(|es|, k requires 0 <= k < |es| => JStr(es[k].0)))
    case _ => Err(TypeError)
  }

  /** `T(**j)`: the instance, or the exception the call raises. */
  function Construct(s: Schema, j: Json): Result<Py>
    decreases j, 1, 0
  {
    match j
    case JObj(es) =>
      (match s
       case DictLike(cls) => Ok(PDictOf(cls, Lift(j).entries))
       case Fields(cls, fs) =>
         if !Binds(fs, es) then Err(TypeError)
         else
           match Attrs(fs, es)
           case Ok(a) => Ok(PObj(cls, a))
           case Err(e) => Err(e))
    case _ => Err(TypeError)
  }

  /** The attribute assignments of `__init__`, in order; the first one that raises aborts it. */
  function Attrs(fs: seq<Field>, es: seq<(string, Json)>): Result<seq<(string, Py)>>
    decreases JObj(es), 0, |fs|
  {
    if |fs| == 0 then Ok([])
    else
      var i := IndexOf(es, fs[0].name);
      var v := if i < 0 then Ok(PNone) else Convert(fs[0].kind, es[i].1);
      match v
      case Err(e) => Err(e)
      case Ok(p) =>
        match Attrs(fs[1..], es)
        case Err(e) => Err(e)
        case Ok(rest) => Ok([(fs[0].name, p)] + rest)
  }

  /** The right-hand side of one attribute assignment. */
  function Convert(k: Kind, v: Json): Result<Py>
    decreases v, 4, 0
  {
    match k
    case Plain => Ok(Lift(v))
    case One(s) => Ok(Decode(s, v))
    case Many(s) => DecodeList(s, v)
  }

  /** `S.safe_create(j)`. */
  function Decode(s: Schema, j: Json): Py
    decreases j, 2, 0
  {
    if j.JNull? then PNone
    else
      match Construct(s, j)
      case Ok(p) => p
      case Err(_) => Lift(j)
  }

  /** `S.safe_create_from_list(v)`: a fresh list, or TypeError when `v` cannot be iterated. */
  function DecodeList(s: Schema, v: Json): Result<Py>
    decreases v, 3, 0
  {
    match v
    case JNull => Ok(PNone)
    case JArr(xs) => Ok(PList(seq(|xs|, k requires 0 <= k < |xs| => Decode(s, xs[k]))))
    case JStr(t) => Ok(PList(seq(|t|, k requires 0 <= k < |t| => PStr([t[k]]))))
    case JObj(es) => Ok(PList(seq(|es|, k requires 0 <= k < |es| => PStr(es[k].0))))
    case _ => Err(TypeError)
  }

  /** `v` is an instance of the class `s` describes, with its attributes in assignment order. */
  predicate IsInstance(v: Py, s: Schema)
  {
    match s
    case Fields(cls, fs) => v.PObj? && v.cls == cls && KeyList(v.attrs) == FieldNames(fs)
    case DictLike(cls) => v.PDictOf? && v.cls == cls
  }

  // ---------------------------------------------------------------------------------------
  // What the decoders promise

  /**
   * `safe_create` never raises: for `None` it gives `None`; otherwise it gives either an
   * instance of the class or its input unchanged, and the instance exactly when the
   * constructor call succeeds.
   */
  lemma DecodeOutcome(s: Schema, j: Json)
    ensures j.JNull? ==> Decode(s, j) == PNone
    ensures !j.JNull? ==> (Construct(s, j).Ok? <==> Decode(s, j) != Lift(j))
    ensures !j.JNull? && Construct(s, j).Err? ==> Decode(s, j) == Lift(j)
    ensures Construct(s, j).Ok? ==> j.JObj? && Decode(s, j) == Construct(s, j).value
    ensures Construct(s, j).Ok? ==> IsInstance(Construct(s, j).value, s)
  {
    if Construct(s, j).Ok? {
      match s
      case DictLike(_) =>
      case Fields(cls, fs) =>
        AttrsShape(fs, j.entries);
    }
  }

  /** The keyword argument `name` as `__init__` sees it: the given value, or the default `None`. */
  function Arg(es: seq<(string, Json)>, name: string): Json
  {
    var i := IndexOf(es, name);
    if i < 0 then JNull else es[i].1
  }

  /** The value one field ends up with, when construction succeeds. */
  function FieldValue(f: Field, es: seq<(string, Json)>): Result<Py>
  {
    Convert(f.kind, Arg(es, f.name))
  }

  /**
   * The assignment of field `f` does not raise: only a list field can, when it is given a
   * value that is neither `None` nor iterable.
   */
  predicate Assignable(f: Field, es: seq<(string, Json)>)
  {
    f.kind.Many? ==> Arg(es, f.name).JNull? || Iterable(Arg(es, f.name))
  }

  lemma ConvertOk(f: Field, es: seq<(string, Json)>)
    ensures FieldValue(f, es).Ok? <==> Assignable(f, es)
    ensures FieldValue(f, es).Err? ==> FieldValue(f, es).error == TypeError
  {
    var v := Arg(es, f.name);
    if f.kind.Many? {
      assert FieldValue(f, es) == DecodeList(f.kind.s, v);
      match v
      case JNull =>
      case JArr(_) =>
      case JStr(_) =>
      case JObj(_) =>
      case JBool(_) =>
      case JNum(_) =>
    }
  }

  /** The assignment Attrs performs for one field is the conversion of its keyword argument. */
  lemma AttrStep(f: Field, es: seq<(string, Json)>)
    ensures (var i := IndexOf(es, f.name); if i < 0 then Ok(PNone) else Convert(f.kind, es[i].1)) == FieldValue(f, es)
  {
    if IndexOf(es, f.name) < 0 {
      match f.kind
      case Plain =>
      case One(_) =>
      case Many(_) =>
    }
  }

  /**
   * The assignments succeed iff every list field given is iterable, and then the object has
   * one attribute per declared field, in order: the decoded value of the keyword argument,
   * or `None` when it was not given.
   */
  lemma {:induction false} AttrsShape(fs: seq<Field>, es: seq<(string, Json)>)
    ensures Attrs(fs, es).Ok? <==> forall k :: 0 <= k < |fs| ==> Assignable(fs[k], es)
    ensures Attrs(fs, es).Err? ==> Attrs(fs, es).error == TypeError
    ensures Attrs(fs, es).Ok? ==>
      var a := Attrs(fs, es).value;
      && |a| == |fs|
      && KeyList(a) == FieldNames(fs)
      && forall k :: 0 <= k < |fs| ==> Ok(a[k].1) == FieldValue(fs[k], es)
    decreases |fs|
  {
    if |fs| > 0 {
      AttrsShape(fs[1..], es);
      ConvertOk(fs[0], es);
      AttrStep(fs[0], es);
      assert forall k :: 1 <= k < |fs| ==> fs[k] == fs[1..][k - 1];
      if Attrs(fs, es).Ok? {
        var a := Attrs(fs, es).value;
        var rest := Attrs(fs[1..], es).value;
        assert a == [(fs[0].name, a[0].1)] + rest;
        ConsKeys(fs, a, rest);
      }
    }
  }

  /** Naming the first field and then the rest's keys gives the declared names, in order. */
  lemma ConsKeys<V>(fs: seq<Field>, a: seq<(string, V)>, rest: seq<(string, V)>)
    requires |fs| > 0 && |a| > 0 && a == [(fs[0].name, a[0].1)] + rest
    requires KeyList(rest) == FieldNames(fs[1..])
    ensures KeyList(a) == FieldNames(fs)
    ensures forall k :: 1 <= k < |a| ==> a[k] == rest[k - 1]
  {
    assert KeyList(a) == [fs[0].name] + KeyList(rest);
    assert FieldNames(fs) == [fs[0].name] + FieldNames(fs[1..]);
  }

  /**
   * The constructor call of a class with keyword parameters succeeds iff the input is a
   * mapping whose keys are declared fields, which gives every required field, and whose
   * list-valued fields can be iterated.
   */
  lemma ConstructFields(cls: string, fs: seq<Field>, j: Json)
    ensures Construct(Fields(cls, fs), j).Ok? <==>
      j.JObj? && Binds(fs, j.entries) && forall k :: 0 <= k < |fs| ==> Assignable(fs[k], j.entries)
    ensures Construct(Fields(cls, fs), j).Err? ==> Construct(Fields(cls, fs), j).error == TypeError
  {
    if j.JObj? {
      AttrsShape(fs, j.entries);
    }
  }

  /** A dict subclass accepts every mapping and keeps its entries; anything else raises. */
  lemma ConstructDictLike(cls: string, j: Json)
    ensures Construct(DictLike(cls), j).Ok? <==> j.JObj?
    ensures j.JObj? ==> Construct(DictLike(cls), j) == Ok(PDictOf(cls, Lift(j).entries))
  {
  }

  /**
   * A mapping that binds and whose list fields can be iterated decodes to an instance whose
   * attributes are, in order, the converted keyword arguments (`None` for the absent ones).
   */
  lemma DecodeFields(cls: string, fs: seq<Field>, es: seq<(string, Json)>)
    requires Binds(fs, es)
    requires forall k :: 0 <= k < |fs| ==> Assignable(fs[k], es)
    ensures Decode(Fields(cls, fs), JObj(es)).PObj?
    ensures
      var v := Decode(Fields(cls, fs), JObj(es));
      && v.cls == cls
      && |v.attrs| == |fs|
      && KeyList(v.attrs) == FieldNames(fs)
      && forall k :: 0 <= k < |fs| ==> Ok(v.attrs[k].1) == FieldValue(fs[k], es)
  {
    AttrsShape(fs, es);
  }

  /** The value a field without list conversion takes: the argument as given, or decoded. */
  function ScalarValue(f: Field, es: seq<(string, Json)>): Py
  {
    match f.kind
    case Plain => Lift(Arg(es, f.name))
    case One(s) => Decode(s, Arg(es, f.name))
    case Many(_) => PNone
  }

  /** The attributes of a class without list fields, one per field, in declaration order. */
  function ScalarAttrs(fs: seq<Field>, es: seq<(string, Json)>): (a: seq<(string, Py)>)
    ensures |a| == |fs| && KeyList(a) == FieldNames(fs)
  {
    seq(|fs|, k requires 0 <= k < |fs| => (fs[k].name, ScalarValue(fs[k], es)))
  }

  /**
   * A class without list fields decodes a mapping exactly when the mapping binds; the
   * instance then holds each keyword argument as given or decoded, and any other input
   * is kept unchanged.
   */
  lemma ScalarDecodes(cls: string, fs: seq<Field>, j: Json)
    requires forall k :: 0 <= k < |fs| ==> !fs[k].kind.Many?
    ensures Decode(Fields(cls, fs), j).PObj? <==> j.JObj? && Binds(fs, j.entries)
    ensures !j.JNull? && !(j.JObj? && Binds(fs, j.entries)) ==> Decode(Fields(cls, fs), j) == Lift(j)
    ensures Decode(Fields(cls, fs), j).PObj? ==> Decode(Fields(cls, fs), j) == PObj(cls, ScalarAttrs(fs, j.entries))
  {
    DecodeOutcome(Fields(cls, fs), j);
    ConstructFields(cls, fs, j);
    if j.JObj? && Binds(fs, j.entries) {
      var es := j.entries;
      DecodeFields(cls, fs, es);
      var a := Decode(Fields(cls, fs), j).attrs;
      forall k | 0 <= k < |fs| ensures a[k] == ScalarAttrs(fs, es)[k] {
        assert a[k].0 == KeyList(a)[k];
        match fs[k].kind
        case Plain =>
        case One(_) =>
      }
    }
  }

  /** A list field given a number or a boolean makes the whole object fall back to its input. */
  lemma NonIterableRaw(cls: string, fs: seq<Field>, es: seq<(string, Json)>, k: nat)
    requires k < |fs| && fs[k].kind.Many?
    requires Arg(es, fs[k].name).JNum? || Arg(es, fs[k].name).JBool?
    ensures Decode(Fields(cls, fs), JObj(es)) == Lift(JObj(es))
  {
    AttrsShape(fs, es);
    assert !Assignable(fs[k], es);
  }

  /**
   * `safe_create_from_list`: `None` for `None`; otherwise one decoded element per value that
   * `for it in v` visits, in order, or TypeError when `v` cannot be iterated.
   */
  lemma DecodeListSpec(s: Schema, v: Json)
    ensures v.JNull? ==> DecodeList(s, v) == Ok(PNone)
    ensures !v.JNull? ==> (DecodeList(s, v).Ok? <==> Iterable(v))
    ensures DecodeList(s, v).Err? ==> DecodeList(s, v).error == TypeError
    ensures !v.JNull? && Iterable(v) ==>
      var items := Iterate(v).value;
      && DecodeList(s, v).value.PList?
      && |DecodeList(s, v).value.items| == |items|
      && forall k :: 0 <= k < |items| ==> DecodeList(s, v).value.items[k] == Decode(s, items[k])
  {
  }

  /** `S.safe_create_from_list(v)`, looping over `v` as the generated code does. */
  method SafeCreateFromList(s: Schema, v: Json) returns (r: Result<Py>)
    ensures r == DecodeList(s, v)
  {
    if v.JNull? {
      return Ok(PNone);
    }
    var it := Iterate(v);
    if it.Err? {
      return Err(TypeError);
    }
    var items := it.value;
    var listOfSelf: seq<Py> := [];
    for i := 0 to |items|
      invariant |listOfSelf| == i
      invariant forall k :: 0 <= k < i ==> listOfSelf[k] == Decode(s, items[k])
    {
      listOfSelf := listOfSelf + [Decode(s, items[i])];
    }
    DecodeListSpec(s, v);
    assert PList(listOfSelf) == DecodeList(s, v).value;
    r := Ok(PList(listOfSelf));
  }

  // ---------------------------------------------------------------------------------------
  // `__repr__` of the event classes and of TraceConfig

  /** The `name={!r}` piece of one attribute, present only when the attribute is not None. */
  function Piece(attr: (string, Py), show: Py -> string): seq<string>
  {
    if attr.1 != PNone then [attr.0 + "=" + show(attr.1)] else []
  }

  /** `repr_args` after the first `n` attribute checks: the pieces of the set ones, in order. */
  function ReprArgsTo(attrs: seq<(string, Py)>, n: nat, show: Py -> string): seq<string>
    requires n <= |attrs|
  {
    if n == 0 then [] else ReprArgsTo(attrs, n - 1, show) + Piece(attrs[n - 1], show)
  }

  /** `repr_args` once every attribute is checked. */
  function ReprArgs(attrs: seq<(string, Py)>, show: Py -> string): seq<string>
  {
    ReprArgsTo(attrs, |attrs|, show)
  }

  /** `Cls(` + `", ".join(repr_args)` + `)`. */
  function Repr(cls: string, attrs: seq<(string, Py)>, show: Py -> string): string
  {
    cls + "(" + Join(ReprArgs(attrs, show), ", ") + ")"
  }

  /** Every attribute among the first `n` that is set contributes its `name={!r}` piece. */
  lemma {:induction false} ReprArgsComplete(attrs: seq<(string, Py)>, n: nat, show: Py -> string, k: nat)
    requires k < n <= |attrs| && attrs[k].1 != PNone
    ensures attrs[k].0 + "=" + show(attrs[k].1) in ReprArgsTo(attrs, n, show)
    decreases n
  {
    if k < n - 1 {
      ReprArgsComplete(attrs, n - 1, show, k);
    }
  }

  /** Every piece comes from an attribute that is set: a None attribute is left out. */
  lemma {:induction false} ReprArgsSound(attrs: seq<(string, Py)>, n: nat, show: Py -> string, p: string)
    requires n <= |attrs| && p in ReprArgsTo(attrs, n, show)
    ensures exists k :: 0 <= k < n && attrs[k].1 != PNone && p == attrs[k].0 + "=" + show(attrs[k].1)
    decreases n
  {
    if p in ReprArgsTo(attrs, n - 1, show) {
      ReprArgsSound(attrs, n - 1, show, p);
    } else {
      assert p in Piece(attrs[n - 1], show);
    }
  }

  /** At most one piece per attribute: exactly one each when all are set, none when all are None. */
  lemma {:induction false} ReprArgsCount(attrs: seq<(string, Py)>, n: nat, show: Py -> string)
    requires n <= |attrs|
    ensures |ReprArgsTo(attrs, n, show)| <= n
    ensures (forall k :: 0 <= k < n ==> attrs[k].1 != PNone) ==> |ReprArgsTo(attrs, n, show)| == n
    ensures (forall k :: 0 <= k < n ==> attrs[k].1 == PNone) ==> ReprArgsTo(attrs, n, show) == []
    decreases n
  {
    if n > 0 {
      ReprArgsCount(attrs, n - 1, show);
    }
  }

  /** An object whose attributes are all None prints as `Cls()`. */
  lemma ReprAllNone(cls: string, attrs: seq<(string, Py)>, show: Py -> string)
    requires forall k :: 0 <= k < |attrs| ==> attrs[k].1 == PNone
    ensures Repr(cls, attrs, show) == cls + "()"
  {
    ReprArgsCount(attrs, |attrs|, show);
  }
}
