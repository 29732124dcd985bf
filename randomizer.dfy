/**
 * `randomizeConfig`: a configuration drawn at random. The calls to
 * `Math.random` become an explicit sequence of draws in [0, 1), consumed in
 * the order the object literal evaluates them: thumb colour, the coin for the
 * track, the track's palette colour (only when the coin shows 0.5 or less),
 * hover colour, width, height, thumb radius, track radius, and the coin for
 * visibility.
 */
module Randomizer {
  import opened Wrappers
  import opened Config
  import opened Text
  import opened ScrollbarRules

  /** The seventeen colours a random configuration picks from. */
  const Palette: seq<string> := [
    "#ef4444", "#f97316", "#f59e0b", "#eab308", "#84cc16", "#22c55e",
    "#10b981", "#14b8a6", "#06b6d4", "#0ea5e9", "#3b82f6", "#6366f1",
    "#8b5cf6", "#a855f7", "#d946ef", "#ec4899", "#f43f5e"]

  /** The suffix that turns a palette colour into its faint track variant (alpha 0x20). */
  const TrackAlpha := "20"

  predicate ValidDraw(r: real) {
    0.0 <= r < 1.0
  }

  predicate ValidDraws(draws: seq<real>) {
    forall i :: 0 <= i < |draws| ==> ValidDraw(draws[i])
  }

  /** Enough draws for any run: eight, or nine when the track gets a palette colour. */
  const MaxDraws := 9

  lemma FloorBounds(r: real, n: nat)
    requires ValidDraw(r) && n > 0
    ensures 0 <= (r * n as real).Floor < n
  {
    assert 0.0 <= r * n as real < n as real;
  }

  /** `Math.floor(r * n)`: an index below `n`. */
  function RandomIndex(r: real, n: nat): (k: nat)
    requires ValidDraw(r) && n > 0
    ensures k < n
  {
    FloorBounds(r, n);
    (r * n as real).Floor
  }

  /** `getRandomColor()`. */
  function RandomColor(r: real): (color: string)
    requires ValidDraw(r)
    ensures color in Palette
  {
    Palette[RandomIndex(r, |Palette|)]
  }

  /** `getRandomSize(min, max)`: `Math.floor(r * (max - min + 1)) + min`. */
  function RandomSize(r: real, min: nat, max: nat): (size: nat)
    requires ValidDraw(r) && min <= max
    ensures min <= size <= max
  {
    RandomIndex(r, max - min + 1) + min
  }

  /** A track colour the randomizer can give: `transparent`, or a palette colour with alpha `20`. */
  predicate IsTrackChoice(t: string) {
    t == "transparent" || (|t| >= 2 && t[|t| - 2..] == TrackAlpha && t[..|t| - 2] in Palette)
  }

  /** Everything `randomizeConfig` promises about its result. */
  predicate IsRandomShape(c: ScrollbarConfig) {
    && c.thumbColor in Palette && c.hoverColor in Palette && IsTrackChoice(c.trackColor)
    && 6 <= c.width <= 20 && 6 <= c.height <= 20
    && c.thumbRadius <= 10 && c.trackRadius <= 10
    && c.visibility != Visible && c.customCSS.None?
  }

  /** Every palette colour is a single line of text. */
  lemma PaletteOnOneLine()
    ensures forall color :: color in Palette ==> NoNewline(color)
  {
    forall color | color in Palette
      ensures NoNewline(color)
    {
    }
  }

  /** A configuration of the random shape has no line break in its colours. */
  lemma RandomShapeOnOneLine(c: ScrollbarConfig)
    requires IsRandomShape(c)
    ensures ColorsOnOneLine(c)
  {
    PaletteOnOneLine();
    var t := c.trackColor;
    if t != "transparent" {
      assert t == t[..|t| - 2] + TrackAlpha;
      NoNewlineConcat(t[..|t| - 2], TrackAlpha);
    }
  }

  function Randomize(draws: seq<real>): (c: ScrollbarConfig)
    requires |draws| >= MaxDraws && ValidDraws(draws)
    ensures c.thumbColor in Palette && c.hoverColor in Palette
    ensures c.trackColor == "transparent" || (|c.trackColor| == 9 && c.trackColor[..7] in Palette && c.trackColor[7..] == "20")
    ensures 6 <= c.width <= 20 && 6 <= c.height <= 20
    ensures c.thumbRadius <= 10 && c.trackRadius <= 10
    ensures c.visibility != Visible && c.customCSS.None?
  {
    var thumb := RandomColor(draws[0]);
    var next := if draws[1] > 0.5 then 2 else 3;
    var track := if draws[1] > 0.5 then "transparent" else RandomColor(draws[2]) + TrackAlpha;
    ScrollbarConfig(
      thumb,
      track,
      RandomColor(draws[next]),
      RandomSize(draws[next + 1], 6, 20),
      RandomSize(draws[next + 2], 6, 20),
      RandomSize(draws[next + 3], 0, 10),
      RandomSize(draws[next + 4], 0, 10),
      if draws[next + 5] > 0.8 then Hidden else Auto,
      None)
  }

  lemma RandomizeIsRandomShape(draws: seq<real>)
    requires |draws| >= MaxDraws && ValidDraws(draws)
    ensures IsRandomShape(Randomize(draws))
  {
    var c := Randomize(draws);
    if c.trackColor != "transparent" {
      assert c.trackColor[|c.trackColor| - 2..] == c.trackColor[7..];
    }
  }

  /** The position of `x` in `s`. */
  function IndexOf(s: seq<string>, x: string): (k: nat)
    requires x in s
    ensures k < |s| && s[k] == x
  {
    if s[0] == x then 0 else 1 + IndexOf(s[1..], x)
  }

  /** A draw that lands on index `k` out of `n`: the middle of the k-th slot. */
  function DrawFor(k: nat, n: nat): real
    requires k < n
  {
    (k as real + 0.5) / n as real
  }

  lemma QuotientBelowOne(a: real, b: real)
    requires 0.0 <= a < b
    ensures 0.0 <= a / b < 1.0 && (a / b) * b == a
  {
    var q := a / b;
    assert q * b == a;
    assert (1.0 - q) * b == b - a;
  }

  lemma RandomIndexOfDraw(k: nat, n: nat)
    requires k < n
    ensures ValidDraw(DrawFor(k, n)) && RandomIndex(DrawFor(k, n), n) == k
  {
    var kr, nr := k as real, n as real;
    QuotientBelowOne(kr + 0.5, nr);
    assert DrawFor(k, n) * nr == kr + 0.5;
    assert (kr + 0.5).Floor == k;
  }

  /** A draw that makes `getRandomColor()` pick `color`. */
  function ColorDraw(color: string): (r: real)
    requires color in Palette
    ensures ValidDraw(r) && RandomColor(r) == color
  {
    RandomIndexOfDraw(IndexOf(Palette, color), |Palette|);
    DrawFor(IndexOf(Palette, color), |Palette|)
  }

  /** A draw that makes `getRandomSize(min, max)` give `size`. */
  function SizeDraw(size: nat, min: nat, max: nat): (r: real)
    requires min <= size <= max
    ensures ValidDraw(r) && RandomSize(r, min, max) == size
  {
    RandomIndexOfDraw(size - min, max - min + 1);
    DrawFor(size - min, max - min + 1)
  }

  /** Draws whose coin (0.75) gives a transparent track; the ninth is never read. */
  function TransparentTrackDraws(thumb: real, hover: real, w: real, h: real, tr: real, kr: real, vis: real): seq<real> {
    [thumb, 0.75, hover, w, h, tr, kr, vis, 0.0]
  }

  /** Draws whose coin (0.25) gives the track the palette colour picked by `track`. */
  function PaletteTrackDraws(thumb: real, track: real, hover: real, w: real, h: real, tr: real, kr: real, vis: real): seq<real> {
    [thumb, 0.25, track, hover, w, h, tr, kr, vis]
  }

  /** What the randomizer makes of draws whose coin gives a transparent track. */
  lemma RandomizeTransparentTrack(thumb: real, hover: real, w: real, h: real, tr: real, kr: real, vis: real)
    requires ValidDraw(thumb) && ValidDraw(hover) && ValidDraw(w) && ValidDraw(h)
    requires ValidDraw(tr) && ValidDraw(kr) && ValidDraw(vis)
    ensures ValidDraws(TransparentTrackDraws(thumb, hover, w, h, tr, kr, vis))
    ensures Randomize(TransparentTrackDraws(thumb, hover, w, h, tr, kr, vis)) ==
      ScrollbarConfig(RandomColor(thumb), "transparent", RandomColor(hover),
        RandomSize(w, 6, 20), RandomSize(h, 6, 20), RandomSize(tr, 0, 10), RandomSize(kr, 0, 10),
        if vis > 0.8 then Hidden else Auto, None)
  {
    var draws := TransparentTrackDraws(thumb, hover, w, h, tr, kr, vis);
    assert ValidDraws(draws) by {
      forall i | 0 <= i < |draws|
        ensures ValidDraw(draws[i])
      {
      }
    }
  }

  /** What the randomizer makes of draws whose coin gives the track a palette colour. */
  lemma RandomizePaletteTrack(thumb: real, track: real, hover: real, w: real, h: real, tr: real, kr: real, vis: real)
    requires ValidDraw(thumb) && ValidDraw(track) && ValidDraw(hover) && ValidDraw(w) && ValidDraw(h)
    requires ValidDraw(tr) && ValidDraw(kr) && ValidDraw(vis)
    ensures ValidDraws(PaletteTrackDraws(thumb, track, hover, w, h, tr, kr, vis))
    ensures Randomize(PaletteTrackDraws(thumb, track, hover, w, h, tr, kr, vis)) ==
      ScrollbarConfig(RandomColor(thumb), RandomColor(track) + TrackAlpha, RandomColor(hover),
        RandomSize(w, 6, 20), RandomSize(h, 6, 20), RandomSize(tr, 0, 10), RandomSize(kr, 0, 10),
        if vis > 0.8 then Hidden else Auto, None)
  {
    var draws := PaletteTrackDraws(thumb, track, hover, w, h, tr, kr, vis);
    assert ValidDraws(draws) by {
      forall i | 0 <= i < |draws|
        ensures ValidDraw(draws[i])
      {
      }
    }
  }

  /** The draw for the visibility coin: above 0.8 exactly for a hidden scrollbar. */
  function VisibilityDraw(v: Visibility): (r: real)
    requires v != Visible
    ensures ValidDraw(r)
    ensures r > 0.8 <==> v == Hidden
  {
    if v == Hidden then 0.9 else 0.0
  }

  /** Some draws make the randomizer produce `c`. */
  ghost predicate Reachable(c: ScrollbarConfig) {
    exists draws :: |draws| >= MaxDraws && ValidDraws(draws) && Randomize(draws) == c
  }

  lemma ReachesTransparentTrack(c: ScrollbarConfig)
    requires IsRandomShape(c) && c.trackColor == "transparent"
    ensures Reachable(c)
  {
    var thumb, hover := ColorDraw(c.thumbColor), ColorDraw(c.hoverColor);
    var w, h := SizeDraw(c.width, 6, 20), SizeDraw(c.height, 6, 20);
    var tr, kr := SizeDraw(c.thumbRadius, 0, 10), SizeDraw(c.trackRadius, 0, 10);
    var vis := VisibilityDraw(c.visibility);
    RandomizeTransparentTrack(thumb, hover, w, h, tr, kr, vis);
    var draws := TransparentTrackDraws(thumb, hover, w, h, tr, kr, vis);
    assert |draws| >= MaxDraws && Randomize(draws) == c;
  }

  lemma ReachesPaletteTrack(c: ScrollbarConfig)
    requires IsRandomShape(c) && c.trackColor != "transparent"
    ensures Reachable(c)
  {
    var base := c.trackColor[..|c.trackColor| - 2];
    assert base + TrackAlpha == c.trackColor;
    var thumb, track, hover := ColorDraw(c.thumbColor), ColorDraw(base), ColorDraw(c.hoverColor);
    var w, h := SizeDraw(c.width, 6, 20), SizeDraw(c.height, 6, 20);
    var tr, kr := SizeDraw(c.thumbRadius, 0, 10), SizeDraw(c.trackRadius, 0, 10);
    var vis := VisibilityDraw(c.visibility);
    RandomizePaletteTrack(thumb, track, hover, w, h, tr, kr, vis);
    var draws := PaletteTrackDraws(thumb, track, hover, w, h, tr, kr, vis);
    assert |draws| >= MaxDraws && Randomize(draws) == c;
  }

  /**
   * The converse of `RandomizeIsRandomShape`: every configuration of the
   * random shape is the result of some draws, so the shape describes the
   * randomizer's outcomes exactly.
   */
  lemma RandomizeReachesEveryShape(c: ScrollbarConfig)
    requires IsRandomShape(c)
    ensures Reachable(c)
  {
    if c.trackColor == "transparent" {
      ReachesTransparentTrack(c);
    } else {
      ReachesPaletteTrack(c);
    }
  }
}
