/**
 * The four WebKit scrollbar rules that both the live style block and the
 * exported style sheet are made of (`::-webkit-scrollbar`, its track, its
 * thumb and the thumb's hover state), rendered from seven shown values.
 * The two renderings differ only in indentation and in the `!important`
 * marker after each value.
 */
module ScrollbarRules {
  import opened Text
  import opened Config

  /** A size as CSS text: the template `${n}px`. */
  function Px(n: nat): (s: string)
    ensures |s| >= 3 && s[|s| - 2..] == "px"
  {
    NatToString(n) + "px"
  }

  lemma PxInjective(m: nat, n: nat)
    ensures Px(m) == Px(n) <==> m == n
  {
    if Px(m) == Px(n) {
      assert NatToString(m) == Px(m)[..|Px(m)| - 2];
      assert NatToString(n) == Px(n)[..|Px(n)| - 2];
      NatToStringInjective(m, n);
    }
  }

  /** `0px` is the rendering of zero and of nothing else. */
  lemma PxZero(n: nat)
    ensures Px(n) == "0px" <==> n == 0
  {
    assert Px(0) == "0px";
    PxInjective(n, 0);
  }

  /** The seven values a scrollbar is drawn with, as the CSS text that is written out. */
  datatype Shown = Shown(
    width: string,
    height: string,
    thumbColor: string,
    trackColor: string,
    hoverColor: string,
    thumbRadius: string,
    trackRadius: string)

  predicate ShownOnOneLine(s: Shown) {
    NoNewline(s.width) && NoNewline(s.height) && NoNewline(s.thumbColor) && NoNewline(s.trackColor)
    && NoNewline(s.hoverColor) && NoNewline(s.thumbRadius) && NoNewline(s.trackRadius)
  }

  /** The stored values, sizes and radii with their `px` unit, nothing collapsed. */
  function Stored(c: ScrollbarConfig): (s: Shown)
    ensures s.thumbColor == c.thumbColor && s.trackColor == c.trackColor && s.hoverColor == c.hoverColor
    ensures s.width == Px(c.width) && s.height == Px(c.height)
    ensures s.thumbRadius == Px(c.thumbRadius) && s.trackRadius == Px(c.trackRadius)
  {
    Shown(Px(c.width), Px(c.height), c.thumbColor, c.trackColor, c.hoverColor, Px(c.thumbRadius), Px(c.trackRadius))
  }

  /** Two configurations show the same stored values exactly when they agree on the seven drawn fields. */
  lemma StoredInjective(a: ScrollbarConfig, b: ScrollbarConfig)
    ensures Stored(a) == Stored(b) <==>
      a.(visibility := b.visibility, customCSS := b.customCSS) == b
  {
    PxInjective(a.width, b.width);
    PxInjective(a.height, b.height);
    PxInjective(a.thumbRadius, b.thumbRadius);
    PxInjective(a.trackRadius, b.trackRadius);
  }

  /** Colours carry no line break, so every shown value sits on one line. */
  predicate ColorsOnOneLine(c: ScrollbarConfig) {
    NoNewline(c.thumbColor) && NoNewline(c.trackColor) && NoNewline(c.hoverColor)
  }

  lemma PxOnOneLine(n: nat)
    ensures NoNewline(Px(n))
  {
  }

  lemma StoredOnOneLine(c: ScrollbarConfig)
    requires ColorsOnOneLine(c)
    ensures ShownOnOneLine(Stored(c))
  {
    PxOnOneLine(c.width);
    PxOnOneLine(c.height);
    PxOnOneLine(c.thumbRadius);
    PxOnOneLine(c.trackRadius);
  }

  /** One declaration: `<property>: <value><important>;`. */
  function Declaration(property: string, value: string, important: string): string {
    (property + ": ") + value + (important + ";")
  }

  /** A declaration on a line of its own, two spaces deeper than the rule's selector. */
  function DeclLine(indent: string, property: string, value: string, important: string): string {
    (indent + "  ") + Declaration(property, value, important)
  }

  lemma DeclLineInjective(indent: string, property: string, v: string, w: string, important: string)
    ensures DeclLine(indent, property, v, important) == DeclLine(indent, property, w, important) <==> v == w
  {
    CancelPrefix(indent + "  ", Declaration(property, v, important), Declaration(property, w, important));
    CancelAround(property + ": ", v, w, important + ";");
  }

  lemma DeclLineContains(indent: string, property: string, value: string, important: string)
    ensures Contains(DeclLine(indent, property, value, important), Declaration(property, value, important))
  {
    ContainsSuffix(indent + "  ", Declaration(property, value, important));
  }

  /** The four rules, one blank (indentation-only) line between each two. */
  function RuleLines(s: Shown, indent: string, important: string): (lines: seq<string>)
    ensures |lines| == 19
  {
    [ indent + "::-webkit-scrollbar {",
      DeclLine(indent, "width", s.width, important),
      DeclLine(indent, "height", s.height, important),
      indent + "}",
      indent,
      indent + "::-webkit-scrollbar-track {",
      DeclLine(indent, "background", s.trackColor, important),
      DeclLine(indent, "border-radius", s.trackRadius, important),
      indent + "}",
      indent,
      indent + "::-webkit-scrollbar-thumb {",
      DeclLine(indent, "background", s.thumbColor, important),
      DeclLine(indent, "border-radius", s.thumbRadius, important),
      DeclLine(indent, "transition", "background-color 0.2s ease", important),
      indent + "}",
      indent,
      indent + "::-webkit-scrollbar-thumb:hover {",
      DeclLine(indent, "background", s.hoverColor, important),
      indent + "}" ]
  }

  /** The rules show every one of the seven values: different values give different rules. */
  lemma RuleLinesInjective(s: Shown, t: Shown, indent: string, important: string)
    ensures RuleLines(s, indent, important) == RuleLines(t, indent, important) <==> s == t
  {
    if RuleLines(s, indent, important) == RuleLines(t, indent, important) {
      var ls, lt := RuleLines(s, indent, important), RuleLines(t, indent, important);
      assert ls[1] == lt[1] && ls[2] == lt[2] && ls[6] == lt[6] && ls[7] == lt[7];
      assert ls[11] == lt[11] && ls[12] == lt[12] && ls[17] == lt[17];
      DeclLineInjective(indent, "width", s.width, t.width, important);
      DeclLineInjective(indent, "height", s.height, t.height, important);
      DeclLineInjective(indent, "background", s.trackColor, t.trackColor, important);
      DeclLineInjective(indent, "border-radius", s.trackRadius, t.trackRadius, important);
      DeclLineInjective(indent, "background", s.thumbColor, t.thumbColor, important);
      DeclLineInjective(indent, "border-radius", s.thumbRadius, t.thumbRadius, important);
      DeclLineInjective(indent, "background", s.hoverColor, t.hoverColor, important);
    }
  }

  lemma DeclLineOnOneLine(indent: string, property: string, value: string, important: string)
    requires NoNewline(indent) && NoNewline(property) && NoNewline(value) && NoNewline(important)
    ensures NoNewline(DeclLine(indent, property, value, important))
  {
    NoNewlineConcat(indent, "  ");
    NoNewlineConcat(property, ": ");
    NoNewlineConcat(property + ": ", value);
    NoNewlineConcat(important, ";");
    NoNewlineConcat(property + ": " + value, important + ";");
    NoNewlineConcat(indent + "  ", Declaration(property, value, important));
  }

  lemma RuleLinesOnOneLine(s: Shown, indent: string, important: string)
    requires ShownOnOneLine(s) && NoNewline(indent) && NoNewline(important)
    ensures AllOnOneLine(RuleLines(s, indent, important))
  {
    DeclLineOnOneLine(indent, "width", s.width, important);
    DeclLineOnOneLine(indent, "height", s.height, important);
    DeclLineOnOneLine(indent, "background", s.trackColor, important);
    DeclLineOnOneLine(indent, "border-radius", s.trackRadius, important);
    DeclLineOnOneLine(indent, "background", s.thumbColor, important);
    DeclLineOnOneLine(indent, "border-radius", s.thumbRadius, important);
    DeclLineOnOneLine(indent, "transition", "background-color 0.2s ease", important);
    DeclLineOnOneLine(indent, "background", s.hoverColor, important);
    NoNewlineConcat(indent, "::-webkit-scrollbar {");
    NoNewlineConcat(indent, "}");
    NoNewlineConcat(indent, "::-webkit-scrollbar-track {");
    NoNewlineConcat(indent, "::-webkit-scrollbar-thumb {");
    NoNewlineConcat(indent, "::-webkit-scrollbar-thumb:hover {");
  }
}
