/**
 * The 21 generated CSS domain types (`cripy/protocol/css/types.py`), each one a schema for
 * the generic decoder: field names in assignment order, whether `__init__` gives the
 * parameter a default, and which nested `safe_create` / `safe_create_from_list` feeds it.
 * `DOM` and `Page` types are only named in annotations there and play no part.
 */
module CssTypes {
  import opened Json
  import opened Decoding

  const SourceRange: Schema :=
    Fields("SourceRange", [Req("startLine"), Req("startColumn"), Req("endLine"), Req("endColumn")])

  const Value: Schema :=
    Fields("Value", [Req("text"), Field("range", false, One(SourceRange))])

  const StyleDeclarationEdit: Schema :=
    Fields("StyleDeclarationEdit", [Req("styleSheetId"), Field("range", true, One(SourceRange)), Req("text")])

  const ShorthandEntry: Schema :=
    Fields("ShorthandEntry", [Req("name"), Req("value"), Opt("important")])

  const SelectorList: Schema :=
    Fields("SelectorList", [Field("selectors", true, Many(Value)), Req("text")])

  const RuleUsage: Schema :=
    Fields("RuleUsage", [Req("styleSheetId"), Req("startOffset"), Req("endOffset"), Req("used")])

  const PlatformFontUsage: Schema :=
    Fields("PlatformFontUsage", [Req("familyName"), Req("isCustomFont"), Req("glyphCount")])

  const MediaQueryExpression: Schema :=
    Fields("MediaQueryExpression",
      [Req("value"), Req("unit"), Req("feature"), Field("valueRange", false, One(SourceRange)), Opt("computedLength")])

  const MediaQuery: Schema :=
    Fields("MediaQuery", [Field("expressions", true, Many(MediaQueryExpression)), Req("active")])

  const FontFace: Schema :=
    Fields("FontFace",
      [Req("fontFamily"), Req("fontStyle"), Req("fontVariant"), Req("fontWeight"), Req("fontStretch"),
       Req("unicodeRange"), Req("src"), Req("platformFontFamily")])

  const CSSStyleSheetHeader: Schema :=
    Fields("CSSStyleSheetHeader",
      [Req("styleSheetId"), Req("frameId"), Req("sourceURL"), Opt("sourceMapURL"), Req("origin"), Req("title"),
       Opt("ownerNode"), Req("disabled"), Opt("hasSourceURL"), Req("isInline"), Req("startLine"),
       Req("startColumn"), Req("length")])

  const CSSProperty: Schema :=
    Fields("CSSProperty",
      [Req("name"), Req("value"), Opt("important"), Opt("implicit"), Opt("text"), Opt("parsedOk"),
       Opt("disabled"), Field("range", false, One(SourceRange))])

  const CSSStyle: Schema :=
    Fields("CSSStyle",
      [Opt("styleSheetId"), Field("cssProperties", true, Many(CSSProperty)),
       Field("shorthandEntries", true, Many(ShorthandEntry)), Opt("cssText"), Field("range", false, One(SourceRange))])

  const CSSMedia: Schema :=
    Fields("CSSMedia",
      [Req("text"), Req("source"), Opt("sourceURL"), Field("range", false, One(SourceRange)), Opt("styleSheetId"),
       Field("mediaList", false, Many(MediaQuery))])

  const CSSRule: Schema :=
    Fields("CSSRule",
      [Opt("styleSheetId"), Field("selectorList", true, One(SelectorList)), Req("origin"),
       Field("style", true, One(CSSStyle)), Field("media", false, Many(CSSMedia))])

  const RuleMatch: Schema :=
    Fields("RuleMatch", [Field("rule", true, One(CSSRule)), Req("matchingSelectors")])

  const PseudoElementMatches: Schema :=
    Fields("PseudoElementMatches", [Req("pseudoType"), Field("matches", true, Many(RuleMatch))])

  const InheritedStyleEntry: Schema :=
    Fields("InheritedStyleEntry",
      [Field("inlineStyle", false, One(CSSStyle)), Field("matchedCSSRules", true, Many(RuleMatch))])

  const CSSKeyframeRule: Schema :=
    Fields("CSSKeyframeRule",
      [Opt("styleSheetId"), Req("origin"), Field("keyText", true, One(Value)), Field("style", true, One(CSSStyle))])

  const CSSKeyframesRule: Schema :=
    Fields("CSSKeyframesRule", [Field("animationName", true, One(Value)), Field("keyframes", true, Many(CSSKeyframeRule))])

  const CSSComputedStyleProperty: Schema :=
    Fields("CSSComputedStyleProperty", [Req("name"), Req("value")])

  /** `TYPE_TO_OBJECT`. */
  const TypeToObject: map<string, Schema> := map[
    "Value" := Value, "StyleDeclarationEdit" := StyleDeclarationEdit, "SourceRange" := SourceRange,
    "ShorthandEntry" := ShorthandEntry, "SelectorList" := SelectorList, "RuleUsage" := RuleUsage,
    "RuleMatch" := RuleMatch, "PseudoElementMatches" := PseudoElementMatches,
    "PlatformFontUsage" := PlatformFontUsage, "MediaQueryExpression" := MediaQueryExpression,
    "MediaQuery" := MediaQuery, "InheritedStyleEntry" := InheritedStyleEntry, "FontFace" := FontFace,
    "CSSStyleSheetHeader" := CSSStyleSheetHeader, "CSSStyle" := CSSStyle, "CSSRule" := CSSRule,
    "CSSProperty" := CSSProperty, "CSSMedia" := CSSMedia, "CSSKeyframesRule" := CSSKeyframesRule,
    "CSSKeyframeRule" := CSSKeyframeRule, "CSSComputedStyleProperty" := CSSComputedStyleProperty]

  /** `TYPE_TO_OBJECT` has the 21 type names as keys, each mapped to the class of that name. */
  lemma TypeToObjectNames()
    ensures forall n :: n in TypeToObject ==> TypeToObject[n].Fields? && TypeToObject[n].cls == n
  {
  }

  /** The 21 keys of `TYPE_TO_OBJECT`, one per class of the module. */
  lemma TypeToObjectKeys()
    ensures TypeToObject.Keys == {
      "Value", "StyleDeclarationEdit", "SourceRange", "ShorthandEntry", "SelectorList", "RuleUsage",
      "RuleMatch", "PseudoElementMatches", "PlatformFontUsage", "MediaQueryExpression", "MediaQuery",
      "InheritedStyleEntry", "FontFace", "CSSStyleSheetHeader", "CSSStyle", "CSSRule", "CSSProperty",
      "CSSMedia", "CSSKeyframesRule", "CSSKeyframeRule", "CSSComputedStyleProperty"}
  {
  }

  /** All four `SourceRange` parameters are required. */
  lemma SourceRangeNames()
    ensures Names(SourceRange.fields) == {"startLine", "startColumn", "endLine", "endColumn"}
    ensures RequiredNames(SourceRange.fields) == Names(SourceRange.fields)
  {
    var fs := SourceRange.fields;
    assert fs[0].name == "startLine" && fs[1].name == "startColumn";
    assert fs[2].name == "endLine" && fs[3].name == "endColumn";
  }

  /**
   * `SourceRange.safe_create` yields a `SourceRange` exactly when the keys are the four
   * coordinates; then the attributes are the given values in order. A missing or extra
   * key yields the input unchanged.
   */
  lemma SourceRangeDecodes(j: Json)
    ensures Decode(SourceRange, j).PObj? <==>
      j.JObj? && Keys(j.entries) == {"startLine", "startColumn", "endLine", "endColumn"}
    ensures j.JObj? && Keys(j.entries) != {"startLine", "startColumn", "endLine", "endColumn"} ==>
      Decode(SourceRange, j) == Lift(j)
  {
    var fs := SourceRange.fields;
    SourceRangeNames();
    ScalarDecodes("SourceRange", fs, j);
  }

  /** A decoded `SourceRange` holds the four positions as given, in declaration order. */
  lemma SourceRangeAttrs(es: seq<(string, Json)>)
    requires Keys(es) == {"startLine", "startColumn", "endLine", "endColumn"}
    ensures Decode(SourceRange, JObj(es)) == PObj("SourceRange",
      [("startLine", Lift(Arg(es, "startLine"))), ("startColumn", Lift(Arg(es, "startColumn"))),
       ("endLine", Lift(Arg(es, "endLine"))), ("endColumn", Lift(Arg(es, "endColumn")))])
  {
    var fs := SourceRange.fields;
    SourceRangeNames();
    ScalarDecodes("SourceRange", fs, JObj(es));
    var a := ScalarAttrs(fs, es);
    assert a[0] == ("startLine", Lift(Arg(es, "startLine")));
    assert a[1] == ("startColumn", Lift(Arg(es, "startColumn")));
    assert a[2] == ("endLine", Lift(Arg(es, "endLine")));
    assert a[3] == ("endColumn", Lift(Arg(es, "endColumn")));
  }

  /**
   * `Value` needs `text` and accepts `range`; an absent `range` becomes `None`, a given one
   * goes through `SourceRange.safe_create`.
   */
  lemma ValueDecodes(es: seq<(string, Json)>)
    requires "text" in Keys(es) && Keys(es) <= {"text", "range"}
    ensures Decode(Value, JObj(es)) ==
      PObj("Value", [("text", Lift(Arg(es, "text"))), ("range", Decode(SourceRange, Arg(es, "range")))])
    ensures "range" !in Keys(es) ==> Decode(Value, JObj(es)).attrs[1] == ("range", PNone)
  {
    var fs := Value.fields;
    assert Names(fs) == {"text", "range"} && RequiredNames(fs) == {"text"} by {
      assert fs[0].name == "text" && fs[1].name == "range";
    }
    DecodeFields("Value", fs, es);
    var a := Decode(Value, JObj(es)).attrs;
    assert a[0].0 == KeyList(a)[0] && a[1].0 == KeyList(a)[1];
    assert a == [a[0], a[1]];
    IndexOfKeys(es, "range");
  }

  /**
   * A `SelectorList` with a list of selectors decodes, and each selector is decoded on its
   * own: one that fails to decode stays raw inside the decoded list.
   */
  lemma SelectorListKeepsRawSelectors(es: seq<(string, Json)>, xs: seq<Json>)
    requires Keys(es) == {"selectors", "text"} && Arg(es, "selectors") == JArr(xs)
    ensures Decode(SelectorList, JObj(es)) ==
      PObj("SelectorList", [("selectors", PList(seq(|xs|, k requires 0 <= k < |xs| => Decode(Value, xs[k])))),
                            ("text", Lift(Arg(es, "text")))])
    ensures forall k :: 0 <= k < |xs| && !xs[k].JNull? && Construct(Value, xs[k]).Err? ==>
      Decode(SelectorList, JObj(es)).attrs[0].1.items[k] == Lift(xs[k])
  {
    var fs := SelectorList.fields;
    assert Names(fs) == {"selectors", "text"} && RequiredNames(fs) == {"selectors", "text"} by {
      assert fs[0].name == "selectors" && fs[1].name == "text";
    }
    assert Assignable(fs[0], es);
    DecodeFields("SelectorList", fs, es);
    var a := Decode(SelectorList, JObj(es)).attrs;
    assert a[0].0 == KeyList(a)[0] && a[1].0 == KeyList(a)[1];
    assert a == [a[0], a[1]];
    DecodeListSpec(Value, JArr(xs));
    var items := seq(|xs|, k requires 0 <= k < |xs| => Decode(Value, xs[k]));
    assert Ok(a[0].1) == DecodeList(Value, JArr(xs));
    assert a[0].1.items == items;
  }

  /** A `selectors` value that cannot be iterated makes the whole `SelectorList` stay raw. */
  lemma SelectorListNonIterable(es: seq<(string, Json)>)
    requires Arg(es, "selectors").JNum? || Arg(es, "selectors").JBool?
    ensures Decode(SelectorList, JObj(es)) == Lift(JObj(es))
  {
    NonIterableRaw("SelectorList", SelectorList.fields, es, 0);
  }

  /**
   * The list fields of `CSSStyle` are checked the same way: a `cssProperties` value that
   * cannot be iterated makes the style stay raw even when every key is well formed.
   */
  lemma CSSStyleNonIterable(es: seq<(string, Json)>)
    requires Arg(es, "cssProperties").JNum? || Arg(es, "cssProperties").JBool?
    ensures Decode(CSSStyle, JObj(es)) == Lift(JObj(es))
  {
    NonIterableRaw("CSSStyle", CSSStyle.fields, es, 1);
  }

  /** A `CSSRule` without its required `style` stays raw, whatever else it holds. */
  lemma CSSRuleNeedsStyle(es: seq<(string, Json)>)
    requires "style" !in Keys(es)
    ensures Decode(CSSRule, JObj(es)) == Lift(JObj(es))
  {
    var fs := CSSRule.fields;
    assert "style" in RequiredNames(fs) by {
      assert fs[3].name == "style" && fs[3].required;
    }
    DecodeOutcome(CSSRule, JObj(es));
  }
}
