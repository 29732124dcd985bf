/**
 * The text form of a configuration, as stored under the storage key, compared
 * when a preset is tested against the live configuration, and embedded in the
 * exported script. The source uses `JSON.stringify` and `JSON.parse`; all the
 * program relies on is that equal texts come from equal configurations and
 * that parsing gives back what was written, so this model uses a simpler
 * length-prefixed encoding with a decoder proved to invert it.
 *
 *   string:      <length>:<characters>
 *   number:      <digits>;
 *   visibility:  a | v | h
 *   customCSS:   -  (absent)  or  + string
 */
module Codec {
  import opened Wrappers
  import opened Text
  import opened Config

  function EncodeString(s: string): string {
    NatToString(|s|) + ":" + s
  }

  function EncodeNat(n: nat): string {
    NatToString(n) + ";"
  }

  function EncodeVisibility(v: Visibility): string {
    match v
    case Auto => "a"
    case Visible => "v"
    case Hidden => "h"
  }

  function EncodeCustomCss(css: Option<string>): string {
    match css
    case None => "-"
    case Some(s) => "+" + EncodeString(s)
  }

  function Encode(c: ScrollbarConfig): (text: string)
    ensures |text| > 0
  {
    EncodeString(c.thumbColor) + (EncodeString(c.trackColor) + (EncodeString(c.hoverColor) +
    (EncodeNat(c.width) + (EncodeNat(c.height) + (EncodeNat(c.thumbRadius) + (EncodeNat(c.trackRadius) +
    (EncodeVisibility(c.visibility) + EncodeCustomCss(c.customCSS))))))))
  }

  /** The number of leading decimal digits of `s`. */
  function DigitSpan(s: string): (k: nat)
    ensures k <= |s|
    ensures forall i :: 0 <= i < k ==> IsDigit(s[i])
    ensures k < |s| ==> !IsDigit(s[k])
  {
    if s == [] || !IsDigit(s[0]) then 0 else 1 + DigitSpan(s[1..])
  }

  /** A numeral ended by `stop`, and the text after `stop`. */
  function ReadNat(s: string, stop: char): Option<(nat, string)> {
    var k := DigitSpan(s);
    if 0 < k < |s| && s[k] == stop then Some((DecimalValue(s[..k]), s[k + 1..])) else None
  }

  function ReadString(s: string): Option<(string, string)> {
    var (n, rest) :- ReadNat(s, ':');
    if n <= |rest| then Some((rest[..n], rest[n..])) else None
  }

  function ReadVisibility(s: string): Option<(Visibility, string)> {
    if s == [] then None
    else if s[0] == 'a' then Some((Auto, s[1..]))
    else if s[0] == 'v' then Some((Visible, s[1..]))
    else if s[0] == 'h' then Some((Hidden, s[1..]))
    else None
  }

  function ReadCustomCss(s: string): Option<(Option<string>, string)> {
    if s == [] then None
    else if s[0] == '-' then Some((None, s[1..]))
    else if s[0] == '+' then
      var (css, rest) :- ReadString(s[1..]);
      Some((Some(css), rest))
    else None
  }

  /** The three colours, then the rest of the text. */
  function ReadColors(s: string): Option<(string, string, string, string)> {
    var (thumb, r1) :- ReadString(s);
    var (track, r2) :- ReadString(r1);
    var (hover, r3) :- ReadString(r2);
    Some((thumb, track, hover, r3))
  }

  /** The four sizes, then the rest of the text. */
  function ReadSizes(s: string): Option<(nat, nat, nat, nat, string)> {
    var (width, r1) :- ReadNat(s, ';');
    var (height, r2) :- ReadNat(r1, ';');
    var (thumbRadius, r3) :- ReadNat(r2, ';');
    var (trackRadius, r4) :- ReadNat(r3, ';');
    Some((width, height, thumbRadius, trackRadius, r4))
  }

  /** Parses a whole text; None stands for the exception `JSON.parse` throws. */
  function Decode(text: string): Option<ScrollbarConfig> {
    var (thumb, track, hover, r1) :- ReadColors(text);
    var (width, height, thumbRadius, trackRadius, r2) :- ReadSizes(r1);
    var (visibility, r3) :- ReadVisibility(r2);
    var (css, r4) :- ReadCustomCss(r3);
    if r4 == [] then Some(ScrollbarConfig(thumb, track, hover, width, height, thumbRadius, trackRadius, visibility, css))
    else None
  }

  lemma ReadNatOf(n: nat, stop: char, rest: string)
    requires !IsDigit(stop)
    ensures ReadNat(NatToString(n) + [stop] + rest, stop) == Some((n, rest))
  {
    var d := NatToString(n);
    var s := d + [stop] + rest;
    assert s[|d|] == stop;
    assert forall i :: 0 <= i < |d| ==> s[i] == d[i];
    assert DigitSpan(s) == |d|;
    assert s[..|d|] == d;
    assert s[|d| + 1..] == rest;
    NatToStringRoundTrip(n);
  }

  lemma ReadStringOf(s: string, rest: string)
    ensures ReadString(EncodeString(s) + rest) == Some((s, rest))
  {
    assert EncodeString(s) + rest == NatToString(|s|) + [':'] + (s + rest);
    ReadNatOf(|s|, ':', s + rest);
    assert (s + rest)[..|s|] == s;
    assert (s + rest)[|s|..] == rest;
  }

  lemma ReadEncodedNat(n: nat, rest: string)
    ensures ReadNat(EncodeNat(n) + rest, ';') == Some((n, rest))
  {
    assert EncodeNat(n) + rest == NatToString(n) + [';'] + rest;
    ReadNatOf(n, ';', rest);
  }

  lemma ReadVisibilityOf(v: Visibility, rest: string)
    ensures ReadVisibility(EncodeVisibility(v) + rest) == Some((v, rest))
  {
    var s := EncodeVisibility(v) + rest;
    assert s[1..] == rest;
    match v
    case Auto => assert s[0] == 'a';
    case Visible => assert s[0] == 'v';
    case Hidden => assert s[0] == 'h';
  }

  lemma ReadCustomCssOf(css: Option<string>, rest: string)
    ensures ReadCustomCss(EncodeCustomCss(css) + rest) == Some((css, rest))
  {
    var s := EncodeCustomCss(css) + rest;
    match css
    case None =>
      assert s == "-" + rest;
      assert s[0] == '-' && s[1..] == rest;
    case Some(t) =>
      assert s == "+" + (EncodeString(t) + rest);
      assert s[0] == '+' && s[1..] == EncodeString(t) + rest;
      ReadStringOf(t, rest);
      assert ReadString(s[1..]) == Some((t, rest));
  }

  lemma ReadColorsOf(c: ScrollbarConfig, rest: string)
    ensures ReadColors(EncodeString(c.thumbColor) + (EncodeString(c.trackColor) + (EncodeString(c.hoverColor) + rest)))
            == Some((c.thumbColor, c.trackColor, c.hoverColor, rest))
  {
    ReadStringOf(c.thumbColor, EncodeString(c.trackColor) + (EncodeString(c.hoverColor) + rest));
    ReadStringOf(c.trackColor, EncodeString(c.hoverColor) + rest);
    ReadStringOf(c.hoverColor, rest);
  }

  lemma ReadSizesOf(c: ScrollbarConfig, rest: string)
    ensures ReadSizes(EncodeNat(c.width) + (EncodeNat(c.height) + (EncodeNat(c.thumbRadius) + (EncodeNat(c.trackRadius) + rest))))
            == Some((c.width, c.height, c.thumbRadius, c.trackRadius, rest))
  {
    ReadEncodedNat(c.width, EncodeNat(c.height) + (EncodeNat(c.thumbRadius) + (EncodeNat(c.trackRadius) + rest)));
    ReadEncodedNat(c.height, EncodeNat(c.thumbRadius) + (EncodeNat(c.trackRadius) + rest));
    ReadEncodedNat(c.thumbRadius, EncodeNat(c.trackRadius) + rest);
    ReadEncodedNat(c.trackRadius, rest);
  }

  /** Parsing the stored text gives back the configuration that was written. */
  lemma DecodeEncode(c: ScrollbarConfig)
    ensures Decode(Encode(c)) == Some(c)
  {
    var r3 := EncodeCustomCss(c.customCSS);
    var r2 := EncodeVisibility(c.visibility) + r3;
    var r1 := EncodeNat(c.width) + (EncodeNat(c.height) + (EncodeNat(c.thumbRadius) + (EncodeNat(c.trackRadius) + r2)));
    assert Encode(c) == EncodeString(c.thumbColor) + (EncodeString(c.trackColor) + (EncodeString(c.hoverColor) + r1));
    ReadColorsOf(c, r1);
    ReadSizesOf(c, r2);
    ReadVisibilityOf(c.visibility, r3);
    assert ReadCustomCss(r3) == Some((c.customCSS, [])) by {
      ReadCustomCssOf(c.customCSS, []);
      assert r3 + [] == r3;
    }
  }

  /** Equal texts come only from equal configurations. */
  lemma EncodeInjective(a: ScrollbarConfig, b: ScrollbarConfig)
    ensures Encode(a) == Encode(b) <==> a == b
  {
    DecodeEncode(a);
    DecodeEncode(b);
  }
}
