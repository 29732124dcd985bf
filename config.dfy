/**
 * The scrollbar configuration record, its default value, the shallow merge
 * of a partial update, and the light/dark theme flag.
 */
module Config {
  import opened Wrappers

  datatype Visibility = Auto | Visible | Hidden

  /** The visibility as the source spells it: 'auto' | 'visible' | 'hidden'. */
  function VisibilityName(v: Visibility): (name: string)
    ensures name in {"auto", "visible", "hidden"}
  {
    match v
    case Auto => "auto"
    case Visible => "visible"
    case Hidden => "hidden"
  }

  lemma VisibilityNameInjective(v: Visibility, w: Visibility)
    ensures VisibilityName(v) == VisibilityName(w) <==> v == w
  {
  }

  /**
   * Sizes and radii are whole pixels; `customCSS` is the one optional field
   * (None stands for a key that is not present in the object).
   */
  datatype ScrollbarConfig = ScrollbarConfig(
    thumbColor: string,
    trackColor: string,
    hoverColor: string,
    width: nat,
    height: nat,
    thumbRadius: nat,
    trackRadius: nat,
    visibility: Visibility,
    customCSS: Option<string>)

  const DefaultConfig := ScrollbarConfig("#94a3b8", "transparent", "#64748b", 8, 8, 4, 4, Auto, None)

  /** A `Partial<ScrollbarConfig>`: every field may be left out. */
  datatype PartialConfig = PartialConfig(
    thumbColor: Option<string>,
    trackColor: Option<string>,
    hoverColor: Option<string>,
    width: Option<nat>,
    height: Option<nat>,
    thumbRadius: Option<nat>,
    trackRadius: Option<nat>,
    visibility: Option<Visibility>,
    customCSS: Option<string>)

  const EmptyPartial := PartialConfig(None, None, None, None, None, None, None, None, None)

  /** The nine fields, to speak of "every field" in one statement. */
  datatype Field =
    ThumbColorField | TrackColorField | HoverColorField | WidthField | HeightField
    | ThumbRadiusField | TrackRadiusField | VisibilityField | CustomCssField

  datatype FieldValue = Text(s: string) | Pixels(n: nat) | Mode(v: Visibility) | Css(css: Option<string>)

  function Get(c: ScrollbarConfig, f: Field): FieldValue {
    match f
    case ThumbColorField => Text(c.thumbColor)
    case TrackColorField => Text(c.trackColor)
    case HoverColorField => Text(c.hoverColor)
    case WidthField => Pixels(c.width)
    case HeightField => Pixels(c.height)
    case ThumbRadiusField => Pixels(c.thumbRadius)
    case TrackRadiusField => Pixels(c.trackRadius)
    case VisibilityField => Mode(c.visibility)
    case CustomCssField => Css(c.customCSS)
  }

  /** The value `p` gives field `f`, or None when `p` leaves `f` out. */
  function PartialGet(p: PartialConfig, f: Field): Option<FieldValue> {
    match f
    case ThumbColorField => if p.thumbColor.Some? then Some(Text(p.thumbColor.value)) else None
    case TrackColorField => if p.trackColor.Some? then Some(Text(p.trackColor.value)) else None
    case HoverColorField => if p.hoverColor.Some? then Some(Text(p.hoverColor.value)) else None
    case WidthField => if p.width.Some? then Some(Pixels(p.width.value)) else None
    case HeightField => if p.height.Some? then Some(Pixels(p.height.value)) else None
    case ThumbRadiusField => if p.thumbRadius.Some? then Some(Pixels(p.thumbRadius.value)) else None
    case TrackRadiusField => if p.trackRadius.Some? then Some(Pixels(p.trackRadius.value)) else None
    case VisibilityField => if p.visibility.Some? then Some(Mode(p.visibility.value)) else None
    case CustomCssField => if p.customCSS.Some? then Some(Css(p.customCSS)) else None
  }

  /** Two configurations that agree on every field are the same configuration. */
  lemma ConfigExtensionality(a: ScrollbarConfig, b: ScrollbarConfig)
    requires forall f :: Get(a, f) == Get(b, f)
    ensures a == b
  {
    assert Get(a, ThumbColorField) == Get(b, ThumbColorField);
    assert Get(a, TrackColorField) == Get(b, TrackColorField);
    assert Get(a, HoverColorField) == Get(b, HoverColorField);
    assert Get(a, WidthField) == Get(b, WidthField);
    assert Get(a, HeightField) == Get(b, HeightField);
    assert Get(a, ThumbRadiusField) == Get(b, ThumbRadiusField);
    assert Get(a, TrackRadiusField) == Get(b, TrackRadiusField);
    assert Get(a, VisibilityField) == Get(b, VisibilityField);
    assert Get(a, CustomCssField) == Get(b, CustomCssField);
  }

  /** `{ ...current, ...update }`: the object spread of a partial update over the current configuration. */
  function Merge(current: ScrollbarConfig, update: PartialConfig): (r: ScrollbarConfig)
    ensures forall f :: Get(r, f) == PartialGet(update, f).GetOr(Get(current, f))
  {
    ScrollbarConfig(
      update.thumbColor.GetOr(current.thumbColor),
      update.trackColor.GetOr(current.trackColor),
      update.hoverColor.GetOr(current.hoverColor),
      update.width.GetOr(current.width),
      update.height.GetOr(current.height),
      update.thumbRadius.GetOr(current.thumbRadius),
      update.trackRadius.GetOr(current.trackRadius),
      update.visibility.GetOr(current.visibility),
      if update.customCSS.Some? then update.customCSS else current.customCSS)
  }

  lemma MergeEmpty(c: ScrollbarConfig)
    ensures Merge(c, EmptyPartial) == c
  {
    ConfigExtensionality(Merge(c, EmptyPartial), c);
  }

  lemma MergeIdempotent(c: ScrollbarConfig, p: PartialConfig)
    ensures Merge(Merge(c, p), p) == Merge(c, p)
  {
    ConfigExtensionality(Merge(Merge(c, p), p), Merge(c, p));
  }

  datatype ThemeMode = Light | Dark

  /** `prev === 'light' ? 'dark' : 'light'`. */
  function Toggled(t: ThemeMode): (r: ThemeMode)
    ensures r != t
  {
    if t == Light then Dark else Light
  }

  lemma ToggleTwice(t: ThemeMode)
    ensures Toggled(Toggled(t)) == t
  {
  }
}
