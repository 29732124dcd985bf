/**
 * `hexToRgba`: a six-digit hex colour, with or without a leading `#` and in
 * either case, becomes an `rgba(...)` colour with the given alpha; any other
 * input comes back unchanged. The alpha is a number in the source and is
 * written out as given, so the model takes it as its already-rendered text.
 */
module HexColor {
  import opened Wrappers
  import opened Text

  /** The alpha used when the caller gives none. */
  const DefaultAlpha := "1"

  /** `[a-f\d]` under the `i` flag. */
  predicate IsHexDigit(ch: char) {
    ('0' <= ch <= '9') || ('a' <= ch <= 'f') || ('A' <= ch <= 'F')
  }

  function HexDigitValue(ch: char): (d: nat)
    requires IsHexDigit(ch)
    ensures d < 16
  {
    if '0' <= ch <= '9' then ch as int - '0' as int
    else if 'a' <= ch <= 'f' then ch as int - 'a' as int + 10
    else ch as int - 'A' as int + 10
  }

  predicate AllHexDigits(s: string) {
    forall i :: 0 <= i < |s| ==> IsHexDigit(s[i])
  }

  /** `parseInt(pair, 16)` for a pair of hex digits. */
  function ParseChannel(pair: string): (v: nat)
    requires |pair| == 2 && AllHexDigits(pair)
    ensures v <= 255
  {
    HexDigitValue(pair[0]) * 16 + HexDigitValue(pair[1])
  }

  /** The six digits the pattern `^#?([a-f\d]{2}){3}$` captures, if it matches. */
  function HexDigitsOf(hex: string): (digits: Option<string>)
    ensures digits.Some? ==> |digits.value| == 6 && AllHexDigits(digits.value)
  {
    if |hex| == 7 && hex[0] == '#' && AllHexDigits(hex[1..]) then Some(hex[1..])
    else if |hex| == 6 && AllHexDigits(hex) then Some(hex)
    else None
  }

  /** The pattern matches exactly six hex digits after an optional `#`, and captures those six digits. */
  lemma HexDigitsOfMatches(hex: string)
    ensures HexDigitsOf(hex).Some? <==>
      (|hex| == 7 && hex[0] == '#' && AllHexDigits(hex[1..])) || (|hex| == 6 && AllHexDigits(hex))
    ensures HexDigitsOf(hex).Some? ==> HexDigitsOf(hex).value == hex[|hex| - 6..]
  {
  }

  /** The `#` is optional: six hex digits parse the same with or without it. */
  lemma HashOptional(digits: string)
    requires |digits| == 6 && AllHexDigits(digits)
    ensures ParseHex(digits).Some?
    ensures ParseHex("#" + digits) == ParseHex(digits)
  {
    assert ("#" + digits)[1..] == digits;
    assert HexDigitsOf("#" + digits) == Some(digits) == HexDigitsOf(digits);
  }

  /** The three channels of a matching colour. */
  function ParseHex(hex: string): (rgb: Option<(nat, nat, nat)>)
    ensures rgb.Some? <==> HexDigitsOf(hex).Some?
    ensures rgb.Some? ==> rgb.value.0 <= 255 && rgb.value.1 <= 255 && rgb.value.2 <= 255
  {
    match HexDigitsOf(hex)
    case None => None
    case Some(d) => Some((ParseChannel(d[0..2]), ParseChannel(d[2..4]), ParseChannel(d[4..6])))
  }

  function Rgba(r: nat, g: nat, b: nat, alpha: string): string {
    "rgba(" + NatToString(r) + ", " + NatToString(g) + ", " + NatToString(b) + ", " + alpha + ")"
  }

  /** `hexToRgba(hex, alpha)`. */
  function HexToRgba(hex: string, alpha: string): (out: string)
    ensures ParseHex(hex).None? ==> out == hex
    ensures ParseHex(hex).Some? ==>
      out == Rgba(ParseHex(hex).value.0, ParseHex(hex).value.1, ParseHex(hex).value.2, alpha)
  {
    match ParseHex(hex)
    case None => hex
    case Some((r, g, b)) => Rgba(r, g, b, alpha)
  }

  /**
   * The input comes back unchanged exactly when it is not a six-digit hex
   * colour: a matching input starts with `#` or a hex digit, never with the
   * `r` of `rgba(`.
   */
  lemma HexToRgbaUnchangedIff(hex: string, alpha: string)
    ensures HexToRgba(hex, alpha) == hex <==> ParseHex(hex).None?
  {
    if ParseHex(hex).Some? {
      var out := HexToRgba(hex, alpha);
      assert out[0] == 'r';
      assert hex[0] == '#' || IsHexDigit(hex[0]);
    }
  }

  /** `#fff`, the three-digit shorthand, is not converted. */
  lemma ShortHexUnchanged()
    ensures HexToRgba("#fff", DefaultAlpha) == "#fff"
  {
    assert HexDigitsOf("#fff").None?;
  }

  function LowerChar(ch: char): char {
    if 'A' <= ch <= 'Z' then (ch as int - 'A' as int + 'a' as int) as char else ch
  }

  function LowerCase(s: string): (t: string)
    ensures |t| == |s| && forall i :: 0 <= i < |s| ==> t[i] == LowerChar(s[i])
  {
    if s == [] then [] else [LowerChar(s[0])] + LowerCase(s[1..])
  }

  lemma LowerHexDigit(ch: char)
    ensures IsHexDigit(LowerChar(ch)) <==> IsHexDigit(ch)
    ensures IsHexDigit(ch) ==> HexDigitValue(LowerChar(ch)) == HexDigitValue(ch)
  {
  }

  lemma LowerChannel(pair: string)
    requires |pair| == 2 && AllHexDigits(pair)
    ensures AllHexDigits(LowerCase(pair)) && ParseChannel(LowerCase(pair)) == ParseChannel(pair)
  {
    LowerHexDigit(pair[0]);
    LowerHexDigit(pair[1]);
  }

  lemma LowerAllHexDigits(s: string)
    ensures AllHexDigits(LowerCase(s)) <==> AllHexDigits(s)
  {
    forall i | 0 <= i < |s| {
      LowerHexDigit(s[i]);
    }
  }

  /** The pattern is case-insensitive: lower-casing the input changes neither whether it matches nor its channels. */
  lemma ParseHexIgnoresCase(hex: string)
    ensures ParseHex(LowerCase(hex)) == ParseHex(hex)
  {
    var low := LowerCase(hex);
    LowerAllHexDigits(hex);
    if |hex| > 0 {
      assert low[1..] == LowerCase(hex[1..]);
      LowerAllHexDigits(hex[1..]);
    }
    if HexDigitsOf(hex).Some? {
      var d := HexDigitsOf(hex).value;
      var e := HexDigitsOf(low).value;
      assert e == LowerCase(d);
      assert e[0..2] == LowerCase(d[0..2]);
      assert e[2..4] == LowerCase(d[2..4]);
      assert e[4..6] == LowerCase(d[4..6]);
      LowerChannel(d[0..2]);
      LowerChannel(d[2..4]);
      LowerChannel(d[4..6]);
    }
  }

  /** Upper- and lower-case spellings of a colour convert to the same text. */
  lemma HexToRgbaIgnoresCase(hex: string, alpha: string)
    requires ParseHex(hex).Some?
    ensures HexToRgba(LowerCase(hex), alpha) == HexToRgba(hex, alpha)
  {
    ParseHexIgnoresCase(hex);
  }

  /** The lower-case hex digit for `d`. */
  function HexChar(d: nat): (ch: char)
    requires d < 16
    ensures IsHexDigit(ch) && HexDigitValue(ch) == d
  {
    if d < 10 then ('0' as int + d) as char else ('a' as int + d - 10) as char
  }

  /** Two lower-case hex digits for a channel. */
  function HexPair(v: nat): (pair: string)
    requires v <= 255
    ensures |pair| == 2 && AllHexDigits(pair)
  {
    [HexChar(v / 16), HexChar(v % 16)]
  }

  lemma ParseHexPair(v: nat)
    requires v <= 255
    ensures ParseChannel(HexPair(v)) == v
  {
  }

  /** `#rrggbb` for three channels. */
  function ToHex(r: nat, g: nat, b: nat): (hex: string)
    requires r <= 255 && g <= 255 && b <= 255
    ensures |hex| == 7
  {
    "#" + HexPair(r) + HexPair(g) + HexPair(b)
  }

  /** Parsing a written-out colour gives back its channels. */
  lemma ParseToHex(r: nat, g: nat, b: nat)
    requires r <= 255 && g <= 255 && b <= 255
    ensures ParseHex(ToHex(r, g, b)) == Some((r, g, b))
  {
    var hex := ToHex(r, g, b);
    var d := hex[1..];
    assert d == HexPair(r) + HexPair(g) + HexPair(b);
    assert d[0..2] == HexPair(r) && d[2..4] == HexPair(g) && d[4..6] == HexPair(b);
    ParseHexPair(r);
    ParseHexPair(g);
    ParseHexPair(b);
  }

  /** Every colour `rgba(r, g, b, alpha)` with channels in 0..255 is the conversion of some hex colour. */
  lemma HexToRgbaOfToHex(r: nat, g: nat, b: nat, alpha: string)
    requires r <= 255 && g <= 255 && b <= 255
    ensures HexToRgba(ToHex(r, g, b), alpha) == Rgba(r, g, b, alpha)
  {
    ParseToHex(r, g, b);
  }
}
