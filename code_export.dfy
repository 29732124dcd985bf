/**
 * The code export panel: the same configuration as a plain style sheet, as
 * SCSS with one variable per value, or as a JavaScript snippet that carries
 * the configuration and a function setting the custom properties; the
 * format picks the text and the extension of the downloaded file.
 */
module CodeExport {
  import opened Wrappers
  import opened Text
  import opened Config
  import opened Codec
  import opened ScrollbarRules
  import opened StyleApplier
  import opened CssExport

  // ---------------------------------------------------------------- SCSS

  /** The seven SCSS variables, in the order they are declared. */
  const ScssVariableNames: seq<string> := [
    "scrollbar-width", "scrollbar-height", "scrollbar-thumb-color", "scrollbar-track-color",
    "scrollbar-thumb-hover-color", "scrollbar-thumb-radius", "scrollbar-track-radius"]

  /** The seven shown values, in the same order as the variables. */
  function ShownValues(s: Shown): (values: seq<string>)
    ensures |values| == 7
  {
    [s.width, s.height, s.thumbColor, s.trackColor, s.hoverColor, s.thumbRadius, s.trackRadius]
  }

  /** `$<name>: <value>;`. */
  function ScssVariable(name: string, value: string): string {
    ("$" + name + ": ") + value + ";"
  }

  function ScssVariableLines(s: Shown): (lines: seq<string>)
    ensures |lines| == 7
    ensures forall k :: 0 <= k < 7 ==> lines[k] == ScssVariable(ScssVariableNames[k], ShownValues(s)[k])
  {
    [ ScssVariable("scrollbar-width", s.width),
      ScssVariable("scrollbar-height", s.height),
      ScssVariable("scrollbar-thumb-color", s.thumbColor),
      ScssVariable("scrollbar-track-color", s.trackColor),
      ScssVariable("scrollbar-thumb-hover-color", s.hoverColor),
      ScssVariable("scrollbar-thumb-radius", s.thumbRadius),
      ScssVariable("scrollbar-track-radius", s.trackRadius) ]
  }

  /** The rules after the variables; they name the variables and hold no value of their own. */
  const ScssStyleLines: seq<string> := ScssStylesHeading + ScssSizeRule + ScssTrackRule + ScssThumbRule + ScssHoverRule

  const ScssStylesHeading: seq<string> := ["", "// Scrollbar Styles"]

  const ScssSizeRule: seq<string> := [
    "::-webkit-scrollbar {",
    "  width: " + "$scrollbar-width;",
    "  height: " + "$scrollbar-height;",
    "}"]

  const ScssTrackRule: seq<string> := [
    "",
    "::-webkit-scrollbar-track {",
    "  background: " + "$scrollbar-track-color;",
    "  border-radius: " + "$scrollbar-track-radius;",
    "}"]

  const ScssThumbRule: seq<string> := [
    "",
    "::-webkit-scrollbar-thumb {",
    "  background: " + "$scrollbar-thumb-color;",
    "  border-radius: " + "$scrollbar-thumb-radius;",
    "  transition: " + "background-color 0.2s ease;"]

  /** The hover state, nested inside the thumb rule. */
  const ScssHoverRule: seq<string> := [
    "  ",
    "  &:hover {",
    "    background: " + "$scrollbar-thumb-hover-color;",
    "  }",
    "}"]

  function ScssLines(c: ScrollbarConfig): (lines: seq<string>)
    ensures |lines| == 29
  {
    ["// Scrollbar Variables"] + ScssVariableLines(Stored(c)) + ScssStyleLines
  }

  /** The SCSS export. */
  function ScssCode(c: ScrollbarConfig): string {
    Join(ScssLines(c))
  }

  lemma ScssSizeRulesOnOneLine()
    ensures AllOnOneLine(ScssStylesHeading) && AllOnOneLine(ScssSizeRule)
  {
    NoNewlineConcat("  width: ", "$scrollbar-width;");
    NoNewlineConcat("  height: ", "$scrollbar-height;");
  }

  lemma ScssTrackRuleOnOneLine()
    ensures AllOnOneLine(ScssTrackRule)
  {
    NoNewlineConcat("  background: ", "$scrollbar-track-color;");
    NoNewlineConcat("  border-radius: ", "$scrollbar-track-radius;");
  }

  lemma ScssThumbRuleOnOneLine()
    ensures AllOnOneLine(ScssThumbRule)
  {
    NoNewlineConcat("  background: ", "$scrollbar-thumb-color;");
    NoNewlineConcat("  border-radius: ", "$scrollbar-thumb-radius;");
    NoNewlineConcat("  transition: ", "background-color 0.2s ease;");
  }

  lemma ScssHoverRuleOnOneLine()
    ensures AllOnOneLine(ScssHoverRule)
  {
    NoNewlineConcat("    background: ", "$scrollbar-thumb-hover-color;");
  }

  lemma ScssStyleLinesOnOneLine()
    ensures AllOnOneLine(ScssStyleLines)
  {
    ScssSizeRulesOnOneLine();
    ScssTrackRuleOnOneLine();
    ScssThumbRuleOnOneLine();
    ScssHoverRuleOnOneLine();
    AllOnOneLineConcat(ScssStylesHeading, ScssSizeRule);
    AllOnOneLineConcat(ScssStylesHeading + ScssSizeRule, ScssTrackRule);
    AllOnOneLineConcat(ScssStylesHeading + ScssSizeRule + ScssTrackRule, ScssThumbRule);
    AllOnOneLineConcat(ScssStylesHeading + ScssSizeRule + ScssTrackRule + ScssThumbRule, ScssHoverRule);
  }

  lemma ScssVariableOnOneLine(name: string, value: string)
    requires NoNewline(name) && NoNewline(value)
    ensures NoNewline(ScssVariable(name, value))
  {
    NoNewlineConcat("$", name);
    NoNewlineConcat("$" + name, ": ");
    NoNewlineConcat("$" + name + ": ", value);
    NoNewlineConcat("$" + name + ": " + value, ";");
  }

  lemma ScssLinesOnOneLine(c: ScrollbarConfig)
    requires ColorsOnOneLine(c)
    ensures AllOnOneLine(ScssLines(c))
  {
    var s := Stored(c);
    StoredOnOneLine(c);
    ScssVariableOnOneLine("scrollbar-width", s.width);
    ScssVariableOnOneLine("scrollbar-height", s.height);
    ScssVariableOnOneLine("scrollbar-thumb-color", s.thumbColor);
    ScssVariableOnOneLine("scrollbar-track-color", s.trackColor);
    ScssVariableOnOneLine("scrollbar-thumb-hover-color", s.hoverColor);
    ScssVariableOnOneLine("scrollbar-thumb-radius", s.thumbRadius);
    ScssVariableOnOneLine("scrollbar-track-radius", s.trackRadius);
    assert AllOnOneLine(ScssVariableLines(s));
    ScssStyleLinesOnOneLine();
    assert AllOnOneLine(["// Scrollbar Variables"]);
    AllOnOneLineConcat(["// Scrollbar Variables"], ScssVariableLines(s));
    AllOnOneLineConcat(["// Scrollbar Variables"] + ScssVariableLines(s), ScssStyleLines);
  }

  /**
   * Lines 2 to 8 of the SCSS declare the seven variables in their fixed
   * order, each bound to the stored value (sizes and radii with `px`, no
   * collapse for a hidden scrollbar).
   */
  lemma ScssDeclaresVariables(c: ScrollbarConfig)
    requires ColorsOnOneLine(c)
    ensures |Lines(ScssCode(c))| == 29
    ensures forall k :: 0 <= k < 7 ==>
      Lines(ScssCode(c))[k + 1] == ScssVariable(ScssVariableNames[k], ShownValues(Stored(c))[k])
  {
    ScssLinesOnOneLine(c);
    LinesOfJoin(ScssLines(c));
    forall k | 0 <= k < 7
      ensures ScssLines(c)[k + 1] == ScssVariableLines(Stored(c))[k]
    {
    }
  }

  /**
   * The SCSS shows the seven stored values and nothing else: two
   * configurations give the same SCSS exactly when their stored values
   * agree, so neither `visibility` nor `customCSS` reaches it.
   */
  lemma ScssCodeInjective(a: ScrollbarConfig, b: ScrollbarConfig)
    requires ColorsOnOneLine(a) && ColorsOnOneLine(b)
    ensures ScssCode(a) == ScssCode(b) <==> Stored(a) == Stored(b)
  {
    ScssLinesOnOneLine(a);
    ScssLinesOnOneLine(b);
    JoinInjective(ScssLines(a), ScssLines(b));
    if ScssLines(a) == ScssLines(b) {
      var va, vb := ScssVariableLines(Stored(a)), ScssVariableLines(Stored(b));
      assert va == ScssLines(a)[1..8] && vb == ScssLines(b)[1..8];
      forall k | 0 <= k < 7
        ensures ShownValues(Stored(a))[k] == ShownValues(Stored(b))[k]
      {
        assert va[k] == vb[k];
        CancelAround("$" + ScssVariableNames[k] + ": ", ShownValues(Stored(a))[k], ShownValues(Stored(b))[k], ";");
      }
      assert ShownValues(Stored(a)) == ShownValues(Stored(b));
    }
  }

  // ------------------------------------------------------------------ JS

  /** The snippet up to the embedded configuration. */
  const JsHeader := "// Scrollbar Configuration Object\n" + "const scrollbarConfig = "

  /** `  root.style.setProperty('<name>', <value>);`. */
  function SetPropertyCall(indent: string, name: string, value: string): string {
    indent + "root.style.setProperty('" + name + "', " + value + ");"
  }

  /** A value passed to `setProperty` in the snippet. */
  datatype JsValue =
    | PxOf(field: Field)       // `${config.<field>}px`
    | ConfigRead(field: Field) // config.<field>
    | Quoted(text: string)     // '<text>'

  /** The field's key in the configuration object. */
  function JsFieldName(f: Field): string {
    match f
    case ThumbColorField => "thumbColor"
    case TrackColorField => "trackColor"
    case HoverColorField => "hoverColor"
    case WidthField => "width"
    case HeightField => "height"
    case ThumbRadiusField => "thumbRadius"
    case TrackRadiusField => "trackRadius"
    case VisibilityField => "visibility"
    case CustomCssField => "customCSS"
  }

  /** How the snippet writes a value in its text. */
  function JsValueText(v: JsValue): string {
    match v
    case PxOf(f) => "`${config." + JsFieldName(f) + "}px`"
    case ConfigRead(f) => "config." + JsFieldName(f)
    case Quoted(t) => "'" + t + "'"
  }

  /** A field's value as JavaScript turns it into a string. */
  function JsString(v: FieldValue): string {
    match v
    case Text(s) => s
    case Pixels(n) => NatToString(n)
    case Mode(m) => VisibilityName(m)
    case Css(css) => if css.Some? then css.value else "undefined"
  }

  /** The string a value evaluates to when the snippet runs on `c`. */
  function JsEval(v: JsValue, c: ScrollbarConfig): string {
    match v
    case PxOf(f) => JsString(Get(c, f)) + "px"
    case ConfigRead(f) => JsString(Get(c, f))
    case Quoted(t) => t
  }

  /** One `setProperty` call: the property's name and the value written to it. */
  datatype Setter = Setter(name: string, value: JsValue)

  /** The seven calls every run makes, in order. */
  const SnippetSetters: seq<Setter> := [
    Setter("--scrollbar-width", PxOf(WidthField)),
    Setter("--scrollbar-height", PxOf(HeightField)),
    Setter("--scrollbar-thumb-color", ConfigRead(ThumbColorField)),
    Setter("--scrollbar-track-color", ConfigRead(TrackColorField)),
    Setter("--scrollbar-thumb-hover-color", ConfigRead(HoverColorField)),
    Setter("--scrollbar-thumb-radius", PxOf(ThumbRadiusField)),
    Setter("--scrollbar-track-radius", PxOf(TrackRadiusField))]

  /** The two calls inside `if (config.visibility === 'hidden')`. */
  const HiddenSetters: seq<Setter> := [
    Setter("--scrollbar-width", Quoted("0px")),
    Setter("--scrollbar-height", Quoted("0px"))]

  function SetterLines(indent: string, setters: seq<Setter>): (lines: seq<string>)
    ensures |lines| == |setters|
    ensures forall i :: 0 <= i < |setters| ==>
      lines[i] == SetPropertyCall(indent, setters[i].name, JsValueText(setters[i].value))
  {
    if setters == [] then []
    else [SetPropertyCall(indent, setters[0].name, JsValueText(setters[0].value))] + SetterLines(indent, setters[1..])
  }

  /** The snippet after the embedded configuration: the function that applies it, and its call. */
  const JsBodyLines: seq<string> :=
    ["", "// Function to apply scrollbar styles", "function applyScrollbarStyles(config) {",
     "  const root = document.documentElement;", "  "]
    + SetterLines("  ", SnippetSetters)
    + ["  ", "  if (config.visibility === 'hidden') {"]
    + SetterLines("    ", HiddenSetters)
    + ["  }", "}", "", "// Apply the configuration", "applyScrollbarStyles(scrollbarConfig);"]

  /** Running `setProperty` calls one after another over the root's properties. */
  function RunSetters(setters: seq<Setter>, c: ScrollbarConfig, props: map<string, string>): map<string, string> {
    if setters == [] then props
    else RunSetters(setters[1..], c, props[setters[0].name := JsEval(setters[0].value, c)])
  }

  /** The properties the snippet's function sets when run on `c` over an empty root. */
  function RunSnippet(c: ScrollbarConfig): map<string, string> {
    var props := RunSetters(SnippetSetters, c, map[]);
    if c.visibility == Hidden then RunSetters(HiddenSetters, c, props) else props
  }

  const JsTrailer := ";\n" + Join(JsBodyLines)

  /** The JavaScript export: the configuration's text between a fixed header and trailer. */
  function JsCode(c: ScrollbarConfig): string {
    JsHeader + Encode(c) + JsTrailer
  }

  /** The text strictly between a given header and trailer, if `text` has both. */
  function Between(text: string, header: string, trailer: string): (middle: Option<string>)
    ensures middle.Some? ==> header + middle.value + trailer == text
  {
    if |text| >= |header| + |trailer|
       && text[..|header|] == header
       && text[|text| - |trailer|..] == trailer
    then
      var middle := text[|header|..|text| - |trailer|];
      assert header + middle + trailer == text;
      Some(middle)
    else None
  }

  lemma BetweenOf(header: string, middle: string, trailer: string)
    ensures Between(header + middle + trailer, header, trailer) == Some(middle)
  {
    var text := header + middle + trailer;
    assert text[..|header|] == header;
    assert text[|text| - |trailer|..] == trailer;
    assert text[|header|..|text| - |trailer|] == middle;
  }

  /** Reads the configuration back out of a snippet; None when the text is not a snippet. */
  function ConfigOfJs(text: string): Option<ScrollbarConfig> {
    var middle :- Between(text, JsHeader, JsTrailer);
    Decode(middle)
  }

  /** The snippet carries the whole configuration: it can be read back from the text. */
  lemma ConfigOfJsCode(c: ScrollbarConfig)
    ensures ConfigOfJs(JsCode(c)) == Some(c)
  {
    BetweenOf(JsHeader, Encode(c), JsTrailer);
    DecodeEncode(c);
  }

  /** Different configurations give different snippets. */
  lemma JsCodeInjective(a: ScrollbarConfig, b: ScrollbarConfig)
    ensures JsCode(a) == JsCode(b) <==> a == b
  {
    ConfigOfJsCode(a);
    ConfigOfJsCode(b);
  }

  /**
   * The values the snippet's function writes when run on `c`: only width
   * and height collapse for a hidden scrollbar, unlike `apply`.
   */
  function SnippetShown(c: ScrollbarConfig): (s: Shown)
    ensures c.visibility == Hidden ==> s == Stored(c).(width := "0px", height := "0px")
    ensures c.visibility != Hidden ==> s == Stored(c)
  {
    var stored := Stored(c);
    if c.visibility == Hidden then stored.(width := "0px", height := "0px") else stored
  }

  /** The custom properties the snippet sets; it never writes `--scrollbar-visibility`. */
  function SnippetProperties(c: ScrollbarConfig): (props: map<string, string>)
    ensures props.Keys == CustomPropertyNames - {"--scrollbar-visibility"}
  {
    var s := SnippetShown(c);
    map[]
      ["--scrollbar-width" := s.width]
      ["--scrollbar-height" := s.height]
      ["--scrollbar-thumb-color" := s.thumbColor]
      ["--scrollbar-track-color" := s.trackColor]
      ["--scrollbar-thumb-hover-color" := s.hoverColor]
      ["--scrollbar-thumb-radius" := s.thumbRadius]
      ["--scrollbar-track-radius" := s.trackRadius]
  }

  /**
   * The snippet sets the same values as `apply` exactly when the scrollbar
   * is not hidden, or when it is hidden with transparent colours and square
   * corners already.
   */
  lemma SnippetAgreesWithApply(c: ScrollbarConfig)
    ensures SnippetShown(c) == Effective(c) <==>
      c.visibility != Hidden
      || (c.thumbColor == "transparent" && c.trackColor == "transparent" && c.hoverColor == "transparent"
          && c.thumbRadius == 0 && c.trackRadius == 0)
  {
    PxZero(c.thumbRadius);
    PxZero(c.trackRadius);
  }

  /** The snippet's text, run on `c`, sets exactly the properties `SnippetProperties` gives. */
  lemma RunSnippetSetsSnippetProperties(c: ScrollbarConfig)
    ensures RunSnippet(c) == SnippetProperties(c)
  {
    var st := Stored(c);
    var props := map[]
      ["--scrollbar-width" := st.width]
      ["--scrollbar-height" := st.height]
      ["--scrollbar-thumb-color" := st.thumbColor]
      ["--scrollbar-track-color" := st.trackColor]
      ["--scrollbar-thumb-hover-color" := st.hoverColor]
      ["--scrollbar-thumb-radius" := st.thumbRadius]
      ["--scrollbar-track-radius" := st.trackRadius];
    SnippetSettersRun(c);
    if c.visibility == Hidden {
      RunTwoSetters(HiddenSetters, c, props);
    }
  }

  /** The seven unconditional calls write the stored values. */
  lemma SnippetSettersRun(c: ScrollbarConfig)
    ensures RunSetters(SnippetSetters, c, map[]) == map[]
      ["--scrollbar-width" := Px(c.width)]
      ["--scrollbar-height" := Px(c.height)]
      ["--scrollbar-thumb-color" := c.thumbColor]
      ["--scrollbar-track-color" := c.trackColor]
      ["--scrollbar-thumb-hover-color" := c.hoverColor]
      ["--scrollbar-thumb-radius" := Px(c.thumbRadius)]
      ["--scrollbar-track-radius" := Px(c.trackRadius)]
  {
    RunSevenSetters(SnippetSetters, c, map[]);
  }

  lemma RunSevenSetters(ss: seq<Setter>, c: ScrollbarConfig, props: map<string, string>)
    requires |ss| == 7
    ensures RunSetters(ss, c, props) == props
      [ss[0].name := JsEval(ss[0].value, c)][ss[1].name := JsEval(ss[1].value, c)]
      [ss[2].name := JsEval(ss[2].value, c)][ss[3].name := JsEval(ss[3].value, c)]
      [ss[4].name := JsEval(ss[4].value, c)][ss[5].name := JsEval(ss[5].value, c)]
      [ss[6].name := JsEval(ss[6].value, c)]
  {
    assert ss == ss[..6] + [ss[6]];
    RunSettersSnoc(ss[..6], ss[6], c, props);
    assert ss[..6] == ss[..5] + [ss[5]];
    RunSettersSnoc(ss[..5], ss[5], c, props);
    assert ss[..5] == ss[..4] + [ss[4]];
    RunSettersSnoc(ss[..4], ss[4], c, props);
    assert ss[..4] == ss[..3] + [ss[3]];
    RunSettersSnoc(ss[..3], ss[3], c, props);
    assert ss[..3] == ss[..2] + [ss[2]];
    RunSettersSnoc(ss[..2], ss[2], c, props);
    RunTwoSetters(ss[..2], c, props);
  }

  lemma RunTwoSetters(ss: seq<Setter>, c: ScrollbarConfig, props: map<string, string>)
    requires |ss| == 2
    ensures RunSetters(ss, c, props) ==
      props[ss[0].name := JsEval(ss[0].value, c)][ss[1].name := JsEval(ss[1].value, c)]
  {
    assert ss == [ss[0]] + [ss[1]];
    RunSettersSnoc([ss[0]], ss[1], c, props);
    assert [ss[0]] == [] + [ss[0]];
    RunSettersSnoc([], ss[0], c, props);
  }

  /** The last call is made last: running a sequence of calls is running all but the last, then the last. */
  lemma {:induction false} RunSettersSnoc(setters: seq<Setter>, last: Setter, c: ScrollbarConfig, props: map<string, string>)
    ensures RunSetters(setters + [last], c, props) == RunSetters(setters, c, props)[last.name := JsEval(last.value, c)]
    decreases |setters|
  {
    if setters == [] {
      assert [] + [last] == [last];
    } else {
      assert (setters + [last])[1..] == setters[1..] + [last];
      RunSettersSnoc(setters[1..], last, c, props[setters[0].name := JsEval(setters[0].value, c)]);
    }
  }

  /** Under `hidden` the snippet keeps the stored colours and radii that `apply` clears. */
  lemma SnippetKeepsHiddenColors(c: ScrollbarConfig)
    requires c.visibility == Hidden
    ensures SnippetProperties(c)["--scrollbar-thumb-color"] == c.thumbColor
    ensures SnippetProperties(c)["--scrollbar-thumb-radius"] == Px(c.thumbRadius)
    ensures CustomProperties(c)["--scrollbar-thumb-color"] == "transparent"
    ensures CustomProperties(c)["--scrollbar-thumb-radius"] == "0px"
    ensures SnippetProperties(c)["--scrollbar-width"] == CustomProperties(c)["--scrollbar-width"] == "0px"
  {
  }

  // -------------------------------------------------------- format choice

  datatype ExportFormat = CssFormat | ScssFormat | JsFormat

  /** `getCurrentCode()`. */
  function CurrentCode(format: ExportFormat, c: ScrollbarConfig): (code: string)
    ensures format == CssFormat ==> code == GenerateCss(c)
    ensures format == ScssFormat ==> code == ScssCode(c)
    ensures format == JsFormat ==> code == JsCode(c)
  {
    match format
    case ScssFormat => ScssCode(c)
    case JsFormat => JsCode(c)
    case CssFormat => GenerateCss(c)
  }

  /** `getFileExtension()`. */
  function FileExtension(format: ExportFormat): (ext: string)
    ensures ext in {".css", ".scss", ".js"}
    ensures ext[0] == '.'
    ensures format == CssFormat <==> ext == ".css"
    ensures format == ScssFormat <==> ext == ".scss"
    ensures format == JsFormat <==> ext == ".js"
  {
    match format
    case ScssFormat => ".scss"
    case JsFormat => ".js"
    case CssFormat => ".css"
  }

  lemma FileExtensionInjective(f: ExportFormat, g: ExportFormat)
    ensures FileExtension(f) == FileExtension(g) <==> f == g
  {
  }

  const DownloadStem := "scrollbar-styles"

  /** The name the downloaded file is given. */
  function DownloadName(format: ExportFormat): (name: string)
    ensures |name| > |DownloadStem| && name[..|DownloadStem|] == DownloadStem
    ensures name[|DownloadStem|..] == FileExtension(format)
  {
    DownloadStem + FileExtension(format)
  }

  /** Each format downloads under a name of its own. */
  lemma DownloadNameInjective(f: ExportFormat, g: ExportFormat)
    ensures DownloadName(f) == DownloadName(g) <==> f == g
  {
    CancelPrefix(DownloadStem, FileExtension(f), FileExtension(g));
    FileExtensionInjective(f, g);
  }
}
