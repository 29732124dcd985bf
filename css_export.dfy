/**
 * `generateScrollbarCSS`: the plain style sheet offered for export. It is
 * written with the stored values, with no collapse for a hidden scrollbar;
 * only the closing Internet Explorer hint depends on the visibility.
 */
module CssExport {
  import opened Text
  import opened Config
  import opened ScrollbarRules

  const CssHeader := "/* Custom Scrollbar Styles */"
  const IeComment := "/* For Internet Explorer */"

  /** The value of `-ms-overflow-style`: `none` exactly for a hidden scrollbar. */
  function IeOverflowStyle(c: ScrollbarConfig): (style: string)
    ensures style == "none" <==> c.visibility == Hidden
    ensures style == "none" || style == "scrollbar"
  {
    if c.visibility == Hidden then "none" else "scrollbar"
  }

  function IeLine(c: ScrollbarConfig): string {
    "  -ms-overflow-style: " + IeOverflowStyle(c) + ";"
  }

  function CssLines(c: ScrollbarConfig): (lines: seq<string>)
    ensures |lines| == 26
  {
    [CssHeader]
    + RuleLines(Stored(c), "", "")
    + ["", "", IeComment, "body {", IeLine(c), "}"]
  }

  /** The exported style sheet. */
  function GenerateCss(c: ScrollbarConfig): string {
    Join(CssLines(c))
  }

  lemma CssLinesOnOneLine(c: ScrollbarConfig)
    requires ColorsOnOneLine(c)
    ensures AllOnOneLine(CssLines(c))
  {
    StoredOnOneLine(c);
    RuleLinesOnOneLine(Stored(c), "", "");
    assert AllOnOneLine([CssHeader]);
    NoNewlineConcat("  -ms-overflow-style: ", IeOverflowStyle(c));
    NoNewlineConcat("  -ms-overflow-style: " + IeOverflowStyle(c), ";");
    assert AllOnOneLine(["", "", IeComment, "body {", IeLine(c), "}"]);
    AllOnOneLineConcat([CssHeader], RuleLines(Stored(c), "", ""));
    AllOnOneLineConcat([CssHeader] + RuleLines(Stored(c), "", ""), ["", "", IeComment, "body {", IeLine(c), "}"]);
  }

  /** Line 25 of the sheet is the Internet Explorer hint. */
  lemma CssIeLine(c: ScrollbarConfig)
    requires ColorsOnOneLine(c)
    ensures |Lines(GenerateCss(c))| == 26
    ensures Lines(GenerateCss(c))[24] == "  -ms-overflow-style: " + IeOverflowStyle(c) + ";"
  {
    CssLinesOnOneLine(c);
    LinesOfJoin(CssLines(c));
  }

  /**
   * The sheet shows the seven stored values and whether the scrollbar is
   * hidden, and nothing else: two configurations give the same sheet exactly
   * when they agree on those (so `customCSS` and the difference between
   * `auto` and `visible` never reach it).
   */
  lemma GenerateCssInjective(a: ScrollbarConfig, b: ScrollbarConfig)
    requires ColorsOnOneLine(a) && ColorsOnOneLine(b)
    ensures GenerateCss(a) == GenerateCss(b) <==>
      Stored(a) == Stored(b) && (a.visibility == Hidden <==> b.visibility == Hidden)
  {
    CssLinesOnOneLine(a);
    CssLinesOnOneLine(b);
    JoinInjective(CssLines(a), CssLines(b));
    var la, lb := CssLines(a), CssLines(b);
    if la == lb {
      assert la[1..20] == RuleLines(Stored(a), "", "");
      assert lb[1..20] == RuleLines(Stored(b), "", "");
      RuleLinesInjective(Stored(a), Stored(b), "", "");
      assert la[24] == lb[24];
      CancelAround("  -ms-overflow-style: ", IeOverflowStyle(a), IeOverflowStyle(b), ";");
    }
  }

  /** The sheet holds every stored size and radius in its declaration. */
  lemma GenerateCssShowsSizes(c: ScrollbarConfig)
    ensures Contains(GenerateCss(c), Declaration("width", Px(c.width), ""))
    ensures Contains(GenerateCss(c), Declaration("height", Px(c.height), ""))
    ensures Contains(GenerateCss(c), Declaration("border-radius", Px(c.trackRadius), ""))
    ensures Contains(GenerateCss(c), Declaration("border-radius", Px(c.thumbRadius), ""))
  {
    CssLineShows(c, 2, "width", Px(c.width));
    CssLineShows(c, 3, "height", Px(c.height));
    CssLineShows(c, 8, "border-radius", Px(c.trackRadius));
    CssLineShows(c, 13, "border-radius", Px(c.thumbRadius));
  }

  /** The sheet holds every stored colour in its declaration. */
  lemma GenerateCssShowsColors(c: ScrollbarConfig)
    ensures Contains(GenerateCss(c), Declaration("background", c.trackColor, ""))
    ensures Contains(GenerateCss(c), Declaration("background", c.thumbColor, ""))
    ensures Contains(GenerateCss(c), Declaration("background", c.hoverColor, ""))
  {
    CssLineShows(c, 7, "background", c.trackColor);
    CssLineShows(c, 12, "background", c.thumbColor);
    CssLineShows(c, 18, "background", c.hoverColor);
  }

  lemma CssLineShows(c: ScrollbarConfig, k: nat, property: string, value: string)
    requires k < 26 && CssLines(c)[k] == DeclLine("", property, value, "")
    ensures Contains(GenerateCss(c), Declaration(property, value, ""))
  {
    JoinContainsLine(CssLines(c), k);
    DeclLineContains("", property, value, "");
    ContainsTransitive(GenerateCss(c), CssLines(c)[k], Declaration(property, value, ""));
  }

  /** The default's colours carry no line break, so every lemma about the texts applies to it. */
  lemma DefaultConfigOnOneLine()
    ensures ColorsOnOneLine(DefaultConfig)
  {
  }

  lemma DefaultDeclarations()
    ensures Px(DefaultConfig.width) == "8px"
    ensures Declaration("background", DefaultConfig.thumbColor, "") == "background: #94a3b8;"
    ensures Declaration("width", "8px", "") == "width: 8px;"
  {
  }

  /**
   * The default configuration, like any other with its grey thumb and its
   * eight-pixel width, exports `background: #94a3b8;` and `width: 8px;`.
   */
  lemma GenerateCssOfDefault(c: ScrollbarConfig)
    requires c.thumbColor == DefaultConfig.thumbColor && c.width == DefaultConfig.width
    ensures Contains(GenerateCss(c), "background: #94a3b8;")
    ensures Contains(GenerateCss(c), "width: 8px;")
  {
    GenerateCssShowsSizes(c);
    GenerateCssShowsColors(c);
    DefaultDeclarations();
  }
}
