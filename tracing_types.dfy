/**
 * The Tracing domain's configuration types (`cripy/async/protocol/tracing/types.py`).
 *
 * `TraceConfig` is an object whose constructor assigns eight attributes, all optional, and
 * that answers `in`, `[]` and `get` from its attribute dictionary; it is a class here.
 * `MemoryDumpConfig` derives from `dict`: a mapping passed to it is copied as it is.
 */
module TracingTypes {
  import opened Json
  import opened Text
  import opened Decoding

  const MemoryDumpConfig: Schema := DictLike("MemoryDumpConfig")

  /** The eight keyword parameters of `TraceConfig.__init__`, in assignment order, none required. */
  const TraceConfigNames: seq<string> := ["recordMode", "enableSampling", "enableSystrace", "enableArgumentFilter", "includedCategories", "excludedCategories", "syntheticDelays", "memoryDumpConfig"]

  const TraceConfigSchema: Schema :=
    Fields("TraceConfig",
      [Opt("recordMode"), Opt("enableSampling"), Opt("enableSystrace"), Opt("enableArgumentFilter"),
       Opt("includedCategories"), Opt("excludedCategories"), Opt("syntheticDelays"),
       Field("memoryDumpConfig", false, One(MemoryDumpConfig))])

  /** `TYPE_TO_OBJECT`. */
  const TypeToObject: map<string, Schema> := map["TraceConfig" := TraceConfigSchema, "MemoryDumpConfig" := MemoryDumpConfig]

  lemma TypeToObjectNames()
    ensures TypeToObject.Keys == {"TraceConfig", "MemoryDumpConfig"}
    ensures forall n :: n in TypeToObject ==> TypeToObject[n].cls == n
  {
  }

  /** What `TraceConfig.safe_create` hands back: a new instance, or a value that is not one. */
  datatype Created = Instance(cfg: TraceConfig) | Raw(value: Py)

  class TraceConfig {

    var recordMode: Py
    var enableSampling: Py
    var enableSystrace: Py
    var enableArgumentFilter: Py
    var includedCategories: Py
    var excludedCategories: Py
    var syntheticDelays: Py
    var memoryDumpConfig: Py

    /** `self.__dict__`: the attributes, in the order `__init__` assigns them. */
    function Dict(): (d: seq<(string, Py)>)
      reads this
      ensures KeyList(d) == TraceConfigNames
    {
      [("recordMode", recordMode),
       ("enableSampling", enableSampling),
       ("enableSystrace", enableSystrace),
       ("enableArgumentFilter", enableArgumentFilter),
       ("includedCategories", includedCategories),
       ("excludedCategories", excludedCategories),
       ("syntheticDelays", syntheticDelays),
       ("memoryDumpConfig", memoryDumpConfig)]
    }

    /**
     * `TraceConfig(...)`: each argument stored as given, except `memoryDumpConfig`, which is
     * decoded.
     */
    constructor (recordMode: Json, enableSampling: Json, enableSystrace: Json, enableArgumentFilter: Json, includedCategories: Json, excludedCategories: Json, syntheticDelays: Json, memoryDumpConfig: Json)
      ensures Dict() == [("recordMode", Lift(recordMode)),
        ("enableSampling", Lift(enableSampling)),
        ("enableSystrace", Lift(enableSystrace)),
        ("enableArgumentFilter", Lift(enableArgumentFilter)),
        ("includedCategories", Lift(includedCategories)),
        ("excludedCategories", Lift(excludedCategories)),
        ("syntheticDelays", Lift(syntheticDelays)),
        ("memoryDumpConfig", Decode(MemoryDumpConfig, memoryDumpConfig))]
    {
      this.recordMode := Lift(recordMode);
      this.enableSampling := Lift(enableSampling);
      this.enableSystrace := Lift(enableSystrace);
      this.enableArgumentFilter := Lift(enableArgumentFilter);
      this.includedCategories := Lift(includedCategories);
      this.excludedCategories := Lift(excludedCategories);
      this.syntheticDelays := Lift(syntheticDelays);
      this.memoryDumpConfig := Decode(MemoryDumpConfig, memoryDumpConfig);
    }

    /** `item in cfg`: true exactly for the eight attribute names, whatever their values. */
    predicate Contains(item: string)
      reads this
      ensures Contains(item) <==> item in {"recordMode", "enableSampling", "enableSystrace", "enableArgumentFilter", "includedCategories", "excludedCategories", "syntheticDelays", "memoryDumpConfig"}
    {
      item in KeyList(Dict())
    }

    /** `cfg[k]`: the stored value of an attribute; KeyError for any other key. */
    function GetItem(k: string): (r: Result<Py>)
      reads this
      ensures r.Ok? <==> Contains(k)
      ensures r.Ok? ==> (k, r.value) in Dict()
      ensures r.Err? ==> r.error == KeyError(k)
    {
      var i := IndexOf(Dict(), k);
      if i < 0 then Err(KeyError(k)) else Ok(Dict()[i].1)
    }

    /** `cfg.get(what, default)`: `cfg[what]` for an attribute name, `default` for anything else. */
    function Get(what: string, default: Py): (r: Py)
      reads this
      ensures Contains(what) ==> Ok(r) == GetItem(what)
      ensures !Contains(what) ==> r == default
    {
      var i := IndexOf(Dict(), what);
      if i < 0 then default else Dict()[i].1
    }

    /** `TraceConfig.__repr__`: the attributes that are not None, in declaration order. */
    method Repr(show: Py -> string) returns (r: string)
      ensures r == Decoding.Repr("TraceConfig", Dict(), show)
    {
      ghost var d := Dict();
      assert |d| == 8;
      assert d[0] == ("recordMode", recordMode) && "recordMode" + "=" == "recordMode=";
      assert d[1] == ("enableSampling", enableSampling) && "enableSampling" + "=" == "enableSampling=";
      assert d[2] == ("enableSystrace", enableSystrace) && "enableSystrace" + "=" == "enableSystrace=";
      assert d[3] == ("enableArgumentFilter", enableArgumentFilter) && "enableArgumentFilter" + "=" == "enableArgumentFilter=";
      assert d[4] == ("includedCategories", includedCategories) && "includedCategories" + "=" == "includedCategories=";
      assert d[5] == ("excludedCategories", excludedCategories) && "excludedCategories" + "=" == "excludedCategories=";
      assert d[6] == ("syntheticDelays", syntheticDelays) && "syntheticDelays" + "=" == "syntheticDelays=";
      assert d[7] == ("memoryDumpConfig", memoryDumpConfig) && "memoryDumpConfig" + "=" == "memoryDumpConfig=";
      var reprArgs: seq<string> := [];
      if recordMode != PNone {
        reprArgs := reprArgs + ["recordMode=" + show(recordMode)];
      }
      assert reprArgs == ReprArgsTo(d, 1, show);
      if enableSampling != PNone {
        reprArgs := reprArgs + ["enableSampling=" + show(enableSampling)];
      }
      assert reprArgs == ReprArgsTo(d, 2, show);
      if enableSystrace != PNone {
        reprArgs := reprArgs + ["enableSystrace=" + show(enableSystrace)];
      }
      assert reprArgs == ReprArgsTo(d, 3, show);
      if enableArgumentFilter != PNone {
        reprArgs := reprArgs + ["enableArgumentFilter=" + show(enableArgumentFilter)];
      }
      assert reprArgs == ReprArgsTo(d, 4, show);
      if includedCategories != PNone {
        reprArgs := reprArgs + ["includedCategories=" + show(includedCategories)];
      }
      assert reprArgs == ReprArgsTo(d, 5, show);
      if excludedCategories != PNone {
        reprArgs := reprArgs + ["excludedCategories=" + show(excludedCategories)];
      }
      assert reprArgs == ReprArgsTo(d, 6, show);
      if syntheticDelays != PNone {
        reprArgs := reprArgs + ["syntheticDelays=" + show(syntheticDelays)];
      }
      assert reprArgs == ReprArgsTo(d, 7, show);
      if memoryDumpConfig != PNone {
        reprArgs := reprArgs + ["memoryDumpConfig=" + show(memoryDumpConfig)];
      }
      assert reprArgs == ReprArgsTo(d, 8, show);
      assert ReprArgs(d, show) == reprArgs;
      assert "TraceConfig" + "(" == "TraceConfig(";
      r := "TraceConfig(" + Join(reprArgs, ", ") + ")";
      assert r == Decoding.Repr("TraceConfig", d, show);
    }

    /**
     * `TraceConfig.safe_create(init)`: None for None; a new instance for a mapping whose keys
     * are all attribute names; the input itself otherwise. The instance holds what the
     * generic decoder computes.
     */
    static method SafeCreate(init: Json) returns (r: Created)
      ensures r.Instance? <==> Decode(TraceConfigSchema, init).PObj?
      ensures r.Instance? ==> fresh(r.cfg) && r.cfg.Dict() == Decode(TraceConfigSchema, init).attrs
      ensures r.Raw? ==> r.value == Decode(TraceConfigSchema, init)
    {
      if init.JNull? {
        return Raw(PNone);
      }
      TraceConfigNamesSet();
      if !init.JObj? || !(Keys(init.entries) <= Names(TraceConfigSchema.fields)) {
        DecodeOutcome(TraceConfigSchema, init);
        ConstructFields("TraceConfig", TraceConfigSchema.fields, init);
        return Raw(Lift(init));
      }
      var es := init.entries;
      TraceConfigDecodes(es);
      var cfg := new TraceConfig(Arg(es, "recordMode"), Arg(es, "enableSampling"), Arg(es, "enableSystrace"), Arg(es, "enableArgumentFilter"), Arg(es, "includedCategories"), Arg(es, "excludedCategories"), Arg(es, "syntheticDelays"), Arg(es, "memoryDumpConfig"));
      return Instance(cfg);
    }
  }

  lemma TraceConfigNamesSet()
    ensures Names(TraceConfigSchema.fields) ==
      {"recordMode", "enableSampling", "enableSystrace", "enableArgumentFilter", "includedCategories",
       "excludedCategories", "syntheticDelays", "memoryDumpConfig"}
    ensures RequiredNames(TraceConfigSchema.fields) == {}
    ensures FieldNames(TraceConfigSchema.fields) == TraceConfigNames
  {
    var fs := TraceConfigSchema.fields;
    assert fs[0].name == "recordMode" && fs[1].name == "enableSampling" && fs[2].name == "enableSystrace";
    assert fs[3].name == "enableArgumentFilter" && fs[4].name == "includedCategories";
    assert fs[5].name == "excludedCategories" && fs[6].name == "syntheticDelays" && fs[7].name == "memoryDumpConfig";
  }

  /**
   * A mapping whose keys are attribute names decodes: every given value is kept as it is,
   * except `memoryDumpConfig`, which goes through `MemoryDumpConfig.safe_create`; every
   * absent one is None.
   */
  lemma TraceConfigDecodes(es: seq<(string, Json)>)
    requires Keys(es) <= {"recordMode", "enableSampling", "enableSystrace", "enableArgumentFilter",
                          "includedCategories", "excludedCategories", "syntheticDelays", "memoryDumpConfig"}
    ensures Decode(TraceConfigSchema, JObj(es)) == PObj("TraceConfig",
      [("recordMode", Lift(Arg(es, "recordMode"))), ("enableSampling", Lift(Arg(es, "enableSampling"))),
       ("enableSystrace", Lift(Arg(es, "enableSystrace"))), ("enableArgumentFilter", Lift(Arg(es, "enableArgumentFilter"))),
       ("includedCategories", Lift(Arg(es, "includedCategories"))),
       ("excludedCategories", Lift(Arg(es, "excludedCategories"))),
       ("syntheticDelays", Lift(Arg(es, "syntheticDelays"))),
       ("memoryDumpConfig", Decode(MemoryDumpConfig, Arg(es, "memoryDumpConfig")))])
  {
    TraceConfigNamesSet();
    ScalarDecodes("TraceConfig", TraceConfigSchema.fields, JObj(es));
    TraceConfigAttrs(es);
  }

  /** The attributes a decoded `TraceConfig` holds, field by field. */
  lemma TraceConfigAttrs(es: seq<(string, Json)>)
    ensures ScalarAttrs(TraceConfigSchema.fields, es) ==
      [("recordMode", Lift(Arg(es, "recordMode"))), ("enableSampling", Lift(Arg(es, "enableSampling"))),
       ("enableSystrace", Lift(Arg(es, "enableSystrace"))), ("enableArgumentFilter", Lift(Arg(es, "enableArgumentFilter"))),
       ("includedCategories", Lift(Arg(es, "includedCategories"))),
       ("excludedCategories", Lift(Arg(es, "excludedCategories"))),
       ("syntheticDelays", Lift(Arg(es, "syntheticDelays"))),
       ("memoryDumpConfig", Decode(MemoryDumpConfig, Arg(es, "memoryDumpConfig")))]
  {
    var a := ScalarAttrs(TraceConfigSchema.fields, es);
    assert a == [a[0], a[1], a[2], a[3], a[4], a[5], a[6], a[7]];
  }

  /**
   * No parameter is required: `TraceConfig.safe_create({})` is an instance whose every attribute
   * is None.
   */
  lemma TraceConfigEmpty()
    ensures Decode(TraceConfigSchema, JObj([])).PObj?
    ensures forall k :: 0 <= k < |Decode(TraceConfigSchema, JObj([])).attrs| ==>
      Decode(TraceConfigSchema, JObj([])).attrs[k].1 == PNone
  {
    assert Keys<Json>([]) == {};
    TraceConfigDecodes([]);
  }

  /** A key that names no attribute makes `safe_create` return its input unchanged. */
  lemma TraceConfigUnknownKey(es: seq<(string, Json)>, k: string)
    requires k in Keys(es)
    requires k !in {"recordMode", "enableSampling", "enableSystrace", "enableArgumentFilter",
                    "includedCategories", "excludedCategories", "syntheticDelays", "memoryDumpConfig"}
    ensures Decode(TraceConfigSchema, JObj(es)) == Lift(JObj(es))
  {
    TraceConfigNamesSet();
    ScalarDecodes("TraceConfig", TraceConfigSchema.fields, JObj(es));
  }

  /**
   * A `memoryDumpConfig` given as a mapping becomes a `MemoryDumpConfig` holding the same entries.
   */
  lemma MemoryDumpConfigKeepsEntries(es: seq<(string, Json)>, m: seq<(string, Json)>)
    requires Keys(es) <= {"recordMode", "enableSampling", "enableSystrace", "enableArgumentFilter",
                          "includedCategories", "excludedCategories", "syntheticDelays", "memoryDumpConfig"}
    requires Arg(es, "memoryDumpConfig") == JObj(m)
    ensures Decode(TraceConfigSchema, JObj(es)).PObj? && |Decode(TraceConfigSchema, JObj(es)).attrs| == 8
    ensures Decode(TraceConfigSchema, JObj(es)).attrs[7] == ("memoryDumpConfig", PDictOf("MemoryDumpConfig", Lift(JObj(m)).entries))
  {
    TraceConfigDecodes(es);
  }
}
