/**
 * `applyScrollbarStyles`: projects a configuration onto the live document.
 * It removes the previous dynamic style element, writes eight custom
 * properties on the root element, appends a fresh style element holding the
 * four scrollbar rules, and sets the body's overflow.
 *
 * The hidden override is uneven. The custom properties collapse every size
 * to `0px` and every colour to `transparent`; the injected rules collapse
 * only the width, the height and the track and thumb backgrounds, and keep
 * the stored radii and hover colour.
 */
module StyleApplier {
  import opened Wrappers
  import opened Text
  import opened Config
  import opened ScrollbarRules

  const DynamicStyleId := "dynamic-scrollbar-styles"

  /** Every value collapsed, as the custom properties show a hidden scrollbar. */
  const Collapsed := Shown("0px", "0px", "transparent", "transparent", "transparent", "0px", "0px")

  /** `${hidden ? '0' : n}px`. */
  function SizeUnlessHidden(c: ScrollbarConfig, n: nat): string {
    (if c.visibility == Hidden then "0" else NatToString(n)) + "px"
  }

  function ColorUnlessHidden(c: ScrollbarConfig, color: string): string {
    if c.visibility == Hidden then "transparent" else color
  }

  /** The values written to the root's custom properties. */
  function Effective(c: ScrollbarConfig): (s: Shown)
    ensures c.visibility == Hidden ==> s == Collapsed
    ensures c.visibility != Hidden ==> s == Stored(c)
  {
    Shown(SizeUnlessHidden(c, c.width), SizeUnlessHidden(c, c.height),
          ColorUnlessHidden(c, c.thumbColor), ColorUnlessHidden(c, c.trackColor), ColorUnlessHidden(c, c.hoverColor),
          SizeUnlessHidden(c, c.thumbRadius), SizeUnlessHidden(c, c.trackRadius))
  }

  /** The values the injected rules are written with. */
  function Injected(c: ScrollbarConfig): (s: Shown)
    ensures c.visibility == Hidden ==>
      s == Stored(c).(width := "0px", height := "0px", thumbColor := "transparent", trackColor := "transparent")
    ensures c.visibility != Hidden ==> s == Stored(c)
  {
    Shown(SizeUnlessHidden(c, c.width), SizeUnlessHidden(c, c.height),
          ColorUnlessHidden(c, c.thumbColor), ColorUnlessHidden(c, c.trackColor), c.hoverColor,
          Px(c.thumbRadius), Px(c.trackRadius))
  }

  /**
   * The injected rules agree with the custom properties except on a hidden
   * scrollbar with a rounded corner or a hover colour other than `transparent`.
   */
  lemma InjectedAgreesWithEffective(c: ScrollbarConfig)
    ensures Injected(c) == Effective(c) <==>
      c.visibility != Hidden || (c.thumbRadius == 0 && c.trackRadius == 0 && c.hoverColor == "transparent")
  {
    PxZero(c.thumbRadius);
    PxZero(c.trackRadius);
  }

  const CustomPropertyNames := {
    "--scrollbar-width", "--scrollbar-height", "--scrollbar-thumb-color", "--scrollbar-track-color",
    "--scrollbar-thumb-hover-color", "--scrollbar-thumb-radius", "--scrollbar-track-radius",
    "--scrollbar-visibility" }

  /** The eight custom properties `apply` writes on the root element. */
  function CustomProperties(c: ScrollbarConfig): (props: map<string, string>)
    ensures props.Keys == CustomPropertyNames
    ensures props["--scrollbar-visibility"] == VisibilityName(c.visibility)
    ensures c.visibility == Hidden ==>
      && props["--scrollbar-width"] == "0px" && props["--scrollbar-height"] == "0px"
      && props["--scrollbar-thumb-radius"] == "0px" && props["--scrollbar-track-radius"] == "0px"
      && props["--scrollbar-thumb-color"] == "transparent" && props["--scrollbar-track-color"] == "transparent"
      && props["--scrollbar-thumb-hover-color"] == "transparent"
    ensures c.visibility != Hidden ==>
      && props["--scrollbar-width"] == Px(c.width) && props["--scrollbar-height"] == Px(c.height)
      && props["--scrollbar-thumb-radius"] == Px(c.thumbRadius) && props["--scrollbar-track-radius"] == Px(c.trackRadius)
      && props["--scrollbar-thumb-color"] == c.thumbColor && props["--scrollbar-track-color"] == c.trackColor
      && props["--scrollbar-thumb-hover-color"] == c.hoverColor
  {
    var e := Effective(c);
    map[]
      ["--scrollbar-width" := e.width]
      ["--scrollbar-height" := e.height]
      ["--scrollbar-thumb-color" := e.thumbColor]
      ["--scrollbar-track-color" := e.trackColor]
      ["--scrollbar-thumb-hover-color" := e.hoverColor]
      ["--scrollbar-thumb-radius" := e.thumbRadius]
      ["--scrollbar-track-radius" := e.trackRadius]
      ["--scrollbar-visibility" := VisibilityName(c.visibility)]
  }

  /** Writing one property after a batch is the same as writing it as part of the batch. */
  lemma UnionUpdate(m: map<string, string>, batch: map<string, string>, name: string, value: string)
    ensures (m + batch)[name := value] == m + batch[name := value]
  {
  }

  /** `    /* WebKit browsers (Chrome, Safari, Edge) */`, in two pieces to keep proofs about it small. */
  const WebKitComment := "    /* WebKit browsers" + " (Chrome, Safari, Edge) */"

  function InjectedLines(c: ScrollbarConfig): (lines: seq<string>)
    ensures |lines| == 23
  {
    ["", WebKitComment]
    + RuleLines(Injected(c), "    ", " !important")
    + ["    ", "  "]
  }

  /** The text of the injected style element. */
  function InjectedCss(c: ScrollbarConfig): string {
    Join(InjectedLines(c))
  }

  /**
   * Under `hidden` the injected rules zero the width and height and clear the
   * track and thumb backgrounds, but keep the stored radii and hover colour.
   */
  lemma InjectedRuleUnderHidden(c: ScrollbarConfig)
    requires c.visibility == Hidden
    ensures Contains(InjectedCss(c), Declaration("width", "0px", " !important"))
    ensures Contains(InjectedCss(c), Declaration("height", "0px", " !important"))
    ensures Contains(InjectedCss(c), Declaration("background", "transparent", " !important"))
    ensures Contains(InjectedCss(c), Declaration("border-radius", Px(c.trackRadius), " !important"))
    ensures Contains(InjectedCss(c), Declaration("border-radius", Px(c.thumbRadius), " !important"))
    ensures Contains(InjectedCss(c), Declaration("background", c.hoverColor, " !important"))
  {
    var lines := InjectedLines(c);
    var s := Injected(c);
    InjectedDeclContained(c, 3, "width", s.width);
    InjectedDeclContained(c, 4, "height", s.height);
    InjectedDeclContained(c, 8, "background", s.trackColor);
    InjectedDeclContained(c, 9, "border-radius", s.trackRadius);
    InjectedDeclContained(c, 14, "border-radius", s.thumbRadius);
    InjectedDeclContained(c, 19, "background", s.hoverColor);
  }

  /** Line `k` of the injected text is the declaration `property: value !important;`. */
  lemma InjectedDeclContained(c: ScrollbarConfig, k: nat, property: string, value: string)
    requires k < 23 && InjectedLines(c)[k] == DeclLine("    ", property, value, " !important")
    ensures Contains(InjectedCss(c), Declaration(property, value, " !important"))
  {
    JoinContainsLine(InjectedLines(c), k);
    DeclLineContains("    ", property, value, " !important");
    ContainsTransitive(InjectedCss(c), InjectedLines(c)[k], Declaration(property, value, " !important"));
  }

  /** The injected text shows exactly the injected values: it changes exactly when they do. */
  lemma InjectedCssShowsInjected(c: ScrollbarConfig, d: ScrollbarConfig)
    requires ColorsOnOneLine(c) && ColorsOnOneLine(d)
    ensures InjectedCss(c) == InjectedCss(d) <==> Injected(c) == Injected(d)
  {
    InjectedOnOneLine(c);
    InjectedOnOneLine(d);
    JoinInjective(InjectedLines(c), InjectedLines(d));
    RuleLinesInjective(Injected(c), Injected(d), "    ", " !important");
    if InjectedLines(c) == InjectedLines(d) {
      assert InjectedLines(c)[2..21] == RuleLines(Injected(c), "    ", " !important");
      assert InjectedLines(d)[2..21] == RuleLines(Injected(d), "    ", " !important");
    }
  }

  lemma InjectedFrameOnOneLine()
    ensures AllOnOneLine(["", WebKitComment]) && AllOnOneLine(["    ", "  "])
  {
    NoNewlineConcat("    /* WebKit browsers", " (Chrome, Safari, Edge) */");
  }

  lemma InjectedShownOnOneLine(c: ScrollbarConfig)
    requires ColorsOnOneLine(c)
    ensures ShownOnOneLine(Injected(c))
  {
    var s := Injected(c);
    StoredOnOneLine(c);
    if c.visibility == Hidden {
      CollapsedValuesOnOneLine();
      assert s.width == "0px" && s.height == "0px";
      assert s.thumbColor == "transparent" && s.trackColor == "transparent";
      assert s.hoverColor == Stored(c).hoverColor;
      assert s.thumbRadius == Stored(c).thumbRadius && s.trackRadius == Stored(c).trackRadius;
    }
  }

  lemma CollapsedValuesOnOneLine()
    ensures NoNewline("0px") && NoNewline("transparent")
  {
  }

  lemma InjectedOnOneLine(c: ScrollbarConfig)
    requires ColorsOnOneLine(c)
    ensures AllOnOneLine(InjectedLines(c))
  {
    var rules := RuleLines(Injected(c), "    ", " !important");
    InjectedShownOnOneLine(c);
    RuleLinesOnOneLine(Injected(c), "    ", " !important");
    InjectedFrameOnOneLine();
    AllOnOneLineConcat(["", WebKitComment], rules);
    AllOnOneLineConcat(["", WebKitComment] + rules, ["    ", "  "]);
  }

  /** A `<style>` element in the document head. */
  datatype StyleElement = StyleElement(id: string, text: string)

  function CountId(styles: seq<StyleElement>, id: string): nat {
    if styles == [] then 0 else (if styles[0].id == id then 1 else 0) + CountId(styles[1..], id)
  }

  /** The elements without the first one carrying `id` (what `getElementById(id).remove()` leaves). */
  function WithoutFirst(styles: seq<StyleElement>, id: string): seq<StyleElement> {
    if styles == [] then []
    else if styles[0].id == id then styles[1..]
    else [styles[0]] + WithoutFirst(styles[1..], id)
  }

  /** The elements that do not carry `id`, in document order. */
  function Others(styles: seq<StyleElement>, id: string): seq<StyleElement> {
    if styles == [] then []
    else if styles[0].id == id then Others(styles[1..], id)
    else [styles[0]] + Others(styles[1..], id)
  }

  lemma {:induction false} CountWithoutFirst(styles: seq<StyleElement>, id: string)
    ensures CountId(WithoutFirst(styles, id), id) == if CountId(styles, id) > 0 then CountId(styles, id) - 1 else 0
    ensures Others(WithoutFirst(styles, id), id) == Others(styles, id)
  {
    if styles != [] && styles[0].id != id {
      CountWithoutFirst(styles[1..], id);
      assert ([styles[0]] + WithoutFirst(styles[1..], id))[1..] == WithoutFirst(styles[1..], id);
    }
  }

  lemma {:induction false} WithoutFirstAt(styles: seq<StyleElement>, id: string, k: nat)
    requires k < |styles| && styles[k].id == id
    requires forall j :: 0 <= j < k ==> styles[j].id != id
    ensures WithoutFirst(styles, id) == styles[..k] + styles[k + 1..]
  {
    if k > 0 {
      WithoutFirstAt(styles[1..], id, k - 1);
      assert styles[1..][..k - 1] == styles[1..k];
      assert styles[1..][k..] == styles[k + 1..];
      assert [styles[0]] + styles[1..k] == styles[..k];
    }
  }

  lemma {:induction false} WithoutFirstAbsent(styles: seq<StyleElement>, id: string)
    requires forall j :: 0 <= j < |styles| ==> styles[j].id != id
    ensures WithoutFirst(styles, id) == styles
  {
    if styles != [] {
      WithoutFirstAbsent(styles[1..], id);
      assert [styles[0]] + styles[1..] == styles;
    }
  }

  lemma {:induction false} CountAppend(styles: seq<StyleElement>, e: StyleElement, id: string)
    ensures CountId(styles + [e], id) == CountId(styles, id) + (if e.id == id then 1 else 0)
  {
    if styles == [] {
      assert [] + [e] == [e];
    } else {
      CountAppend(styles[1..], e, id);
      assert (styles + [e])[0] == styles[0];
      assert (styles + [e])[1..] == styles[1..] + [e];
    }
  }

  lemma {:induction false} OthersAppend(styles: seq<StyleElement>, e: StyleElement, id: string)
    requires e.id == id
    ensures Others(styles + [e], id) == Others(styles, id)
  {
    if styles == [] {
      assert [] + [e] == [e];
    } else {
      OthersAppend(styles[1..], e, id);
      assert (styles + [e])[0] == styles[0];
      assert (styles + [e])[1..] == styles[1..] + [e];
    }
  }

  lemma {:induction false} WithoutFirstOfAppended(styles: seq<StyleElement>, e: StyleElement, id: string)
    requires CountId(styles, id) == 0 && e.id == id
    ensures WithoutFirst(styles + [e], id) == styles
  {
    if styles == [] {
      assert [] + [e] == [e];
    } else {
      WithoutFirstOfAppended(styles[1..], e, id);
      assert (styles + [e])[1..] == styles[1..] + [e];
      assert [styles[0]] + styles[1..] == styles;
    }
  }

  /** What the document holds: root custom properties, head style elements, body overflow. */
  datatype DocumentState = DocumentState(rootProps: map<string, string>, styles: seq<StyleElement>, bodyOverflow: string)

  /** The document after `apply(c)`. */
  function Applied(d: DocumentState, c: ScrollbarConfig): (r: DocumentState)
    ensures r.rootProps.Keys == d.rootProps.Keys + CustomPropertyNames
    ensures forall name :: name in d.rootProps && name !in CustomPropertyNames ==> r.rootProps[name] == d.rootProps[name]
    ensures c.visibility == Hidden ==> r.bodyOverflow == d.bodyOverflow
    ensures c.visibility == Visible ==> r.bodyOverflow == "scroll"
    ensures c.visibility == Auto ==> r.bodyOverflow == "auto"
  {
    DocumentState(
      d.rootProps + CustomProperties(c),
      WithoutFirst(d.styles, DynamicStyleId) + [StyleElement(DynamicStyleId, InjectedCss(c))],
      match c.visibility
      case Hidden => d.bodyOverflow
      case Visible => "scroll"
      case Auto => "auto")
  }

  /**
   * Given at most one dynamic style element before, exactly one is left after
   * `apply`: the last one, holding the rules for `c`. The other elements stay,
   * in their order.
   */
  lemma AppliedLeavesOneDynamicStyle(d: DocumentState, c: ScrollbarConfig)
    requires CountId(d.styles, DynamicStyleId) <= 1
    ensures CountId(Applied(d, c).styles, DynamicStyleId) == 1
    ensures Applied(d, c).styles[|Applied(d, c).styles| - 1] == StyleElement(DynamicStyleId, InjectedCss(c))
    ensures Others(Applied(d, c).styles, DynamicStyleId) == Others(d.styles, DynamicStyleId)
  {
    CountWithoutFirst(d.styles, DynamicStyleId);
    CountAppend(WithoutFirst(d.styles, DynamicStyleId), StyleElement(DynamicStyleId, InjectedCss(c)), DynamicStyleId);
    OthersAppend(WithoutFirst(d.styles, DynamicStyleId), StyleElement(DynamicStyleId, InjectedCss(c)), DynamicStyleId);
  }

  /** Applying the same configuration twice gives the document applying it once gives. */
  lemma AppliedIdempotent(d: DocumentState, c: ScrollbarConfig)
    requires CountId(d.styles, DynamicStyleId) <= 1
    ensures Applied(Applied(d, c), c) == Applied(d, c)
  {
    var e := StyleElement(DynamicStyleId, InjectedCss(c));
    CountWithoutFirst(d.styles, DynamicStyleId);
    WithoutFirstOfAppended(WithoutFirst(d.styles, DynamicStyleId), e, DynamicStyleId);
    var once := Applied(d, c);
    assert once.rootProps + CustomProperties(c) == once.rootProps;
  }

  /** The custom properties on the root after `apply(c)`, whatever was there before. */
  lemma AppliedCustomProperties(d: DocumentState, c: ScrollbarConfig)
    ensures forall name :: name in CustomPropertyNames ==> Applied(d, c).rootProps[name] == CustomProperties(c)[name]
  {
  }

  lemma RewriteUnchanged(m: map<string, string>, key: string, value: string)
    requires key in m && m[key] == value
    ensures m[key := value] == m
  {
  }

  /** The live document. */
  class Document {
    var rootProps: map<string, string>
    var styles: seq<StyleElement>
    var bodyOverflow: string

    constructor (rootProps: map<string, string>, styles: seq<StyleElement>, bodyOverflow: string)
      ensures this.rootProps == rootProps && this.styles == styles && this.bodyOverflow == bodyOverflow
    {
      this.rootProps := rootProps;
      this.styles := styles;
      this.bodyOverflow := bodyOverflow;
    }

    function State(): DocumentState
      reads this
    {
      DocumentState(rootProps, styles, bodyOverflow)
    }

    /** `document.getElementById(id)` among the style elements: the first one carrying `id`. */
    method GetElementById(id: string) returns (index: Option<nat>)
      ensures index.Some? ==> index.value < |styles| && styles[index.value].id == id
      ensures index.Some? ==> forall j :: 0 <= j < index.value ==> styles[j].id != id
      ensures index.None? ==> forall j :: 0 <= j < |styles| ==> styles[j].id != id
    {
      var i := 0;
      while i < |styles|
        invariant 0 <= i <= |styles|
        invariant forall j :: 0 <= j < i ==> styles[j].id != id
      {
        if styles[i].id == id {
          return Some(i);
        }
        i := i + 1;
      }
      return None;
    }

    /** `root.style.setProperty(name, value)`. */
    method SetProperty(name: string, value: string)
      modifies this`rootProps
      ensures rootProps == old(rootProps)[name := value]
    {
      rootProps := rootProps[name := value];
    }

    /** `document.getElementById(id)?.remove()`. */
    method RemoveElementById(id: string)
      modifies this`styles
      ensures styles == WithoutFirst(old(styles), id)
    {
      var existing := GetElementById(id);
      if existing.Some? {
        WithoutFirstAt(styles, id, existing.value);
        styles := styles[..existing.value] + styles[existing.value + 1..];
      } else {
        WithoutFirstAbsent(styles, id);
      }
    }

    /** The eight `setProperty` calls at the start of `applyScrollbarStyles`. */
    method WriteCustomProperties(c: ScrollbarConfig)
      modifies this`rootProps
      ensures rootProps == old(rootProps) + CustomProperties(c)
    {
      ghost var e := Effective(c);
      ghost var batch: map<string, string> := map[];
      assert rootProps == old(rootProps) + batch;
      SetProperty("--scrollbar-width", SizeUnlessHidden(c, c.width));
      UnionUpdate(old(rootProps), batch, "--scrollbar-width", e.width);
      batch := batch["--scrollbar-width" := e.width];
      SetProperty("--scrollbar-height", SizeUnlessHidden(c, c.height));
      UnionUpdate(old(rootProps), batch, "--scrollbar-height", e.height);
      batch := batch["--scrollbar-height" := e.height];
      SetProperty("--scrollbar-thumb-color", ColorUnlessHidden(c, c.thumbColor));
      UnionUpdate(old(rootProps), batch, "--scrollbar-thumb-color", e.thumbColor);
      batch := batch["--scrollbar-thumb-color" := e.thumbColor];
      SetProperty("--scrollbar-track-color", ColorUnlessHidden(c, c.trackColor));
      UnionUpdate(old(rootProps), batch, "--scrollbar-track-color", e.trackColor);
      batch := batch["--scrollbar-track-color" := e.trackColor];
      SetProperty("--scrollbar-thumb-hover-color", ColorUnlessHidden(c, c.hoverColor));
      UnionUpdate(old(rootProps), batch, "--scrollbar-thumb-hover-color", e.hoverColor);
      batch := batch["--scrollbar-thumb-hover-color" := e.hoverColor];
      SetProperty("--scrollbar-thumb-radius", SizeUnlessHidden(c, c.thumbRadius));
      UnionUpdate(old(rootProps), batch, "--scrollbar-thumb-radius", e.thumbRadius);
      batch := batch["--scrollbar-thumb-radius" := e.thumbRadius];
      SetProperty("--scrollbar-track-radius", SizeUnlessHidden(c, c.trackRadius));
      UnionUpdate(old(rootProps), batch, "--scrollbar-track-radius", e.trackRadius);
      batch := batch["--scrollbar-track-radius" := e.trackRadius];
      SetProperty("--scrollbar-visibility", VisibilityName(c.visibility));
      UnionUpdate(old(rootProps), batch, "--scrollbar-visibility", VisibilityName(c.visibility));
      batch := batch["--scrollbar-visibility" := VisibilityName(c.visibility)];
    }

    /** `applyScrollbarStyles(c)`. */
    method Apply(c: ScrollbarConfig)
      modifies this
      ensures State() == Applied(old(State()), c)
    {
      RemoveElementById(DynamicStyleId);
      WriteCustomProperties(c);
      styles := styles + [StyleElement(DynamicStyleId, InjectedCss(c))];
      if c.visibility == Hidden {
        // The collapsed sizes are already there, so writing them again changes nothing.
        ghost var props := rootProps;
        assert props["--scrollbar-width"] == "0px" && props["--scrollbar-height"] == "0px";
        SetProperty("--scrollbar-width", "0px");
        RewriteUnchanged(props, "--scrollbar-width", "0px");
        SetProperty("--scrollbar-height", "0px");
        RewriteUnchanged(props, "--scrollbar-height", "0px");
      } else if c.visibility == Visible {
        bodyOverflow := "scroll";
      } else {
        bodyOverflow := "auto";
      }
    }
  }
}
