/** Hex colour parsing and printing, and the theme palette derived from one
    primary colour (backend/color_utils.py). */
module Color {
  import opened Wrappers
  import opened Strings
  import opened Modes

  datatype Rgb = Rgb(r: int, g: int, b: int)

  predicate IsHexDigit(c: char) {
    IsDigit(c) || 'a' <= c <= 'f' || 'A' <= c <= 'F'
  }

  predicate AllHexDigits(s: string) {
    forall i :: 0 <= i < |s| ==> IsHexDigit(s[i])
  }

  function HexDigitValue(c: char): (v: nat)
    requires IsHexDigit(c)
    ensures v < 16
  {
    if IsDigit(c) then c as int - '0' as int
    else if 'a' <= c <= 'f' then c as int - 'a' as int + 10
    else c as int - 'A' as int + 10
  }

  /** The lower-case digit for a value below 16, as `{:x}` prints it. */
  function HexChar(d: nat): (c: char)
    requires d < 16
    ensures IsHexDigit(c) && !IsUpper(c)
    ensures HexDigitValue(c) == d
  {
    if d < 10 then ('0' as int + d) as char else ('a' as int + d - 10) as char
  }

  lemma HexCharOfValue(c: char)
    requires IsHexDigit(c)
    ensures HexChar(HexDigitValue(c)) == LowerChar(c)
  {
  }

  /** Big-endian value of a string of hex digits. */
  function HexValue(s: string): nat
    requires AllHexDigits(s)
  {
    if |s| == 0 then 0 else 16 * HexValue(s[..|s| - 1]) + HexDigitValue(s[|s| - 1])
  }

  /** Python's `int(t, 16)`, None standing for its ValueError: surrounding
      whitespace is ignored and one sign is allowed before the digits.
      Python also accepts a `0x` prefix and underscores between digits, but
      neither leaves a digit within the two characters `hex_to_rgb` passes.
      Python further reads any Unicode decimal digit (Arabic-Indic, fullwidth
      and so on) as its value; this model knows only the ASCII digits and
      reports such a pair as None. */
  function ParseHex(t: string): (r: Option<int>)
    ensures |t| > 0 && AllHexDigits(t) ==> r == Some(HexValue(t))
    ensures |t| <= 2 && r.Some? ==> -15 <= r.value <= 255
  {
    StripDigits(t);
    ParseStripped(Strip(t))
  }

  /** Hex digits carry no surrounding whitespace to strip. */
  lemma StripDigits(t: string)
    ensures |t| > 0 && AllHexDigits(t) ==> Strip(t) == t
  {
    if |t| > 0 && AllHexDigits(t) {
      StripNoop(t);
    }
  }

  /** `int(u, 16)` once the surrounding whitespace is gone. */
  function ParseStripped(u: string): (r: Option<int>)
    ensures |u| > 0 && AllHexDigits(u) ==> r == Some(HexValue(u))
    ensures |u| <= 2 && r.Some? ==> -15 <= r.value <= 255
  {
    if |u| > 0 && (u[0] == '+' || u[0] == '-') then
      var digits := u[1..];
      if |digits| > 0 && AllHexDigits(digits) then
        HexValueBound(digits);
        var v: int := HexValue(digits);
        Some(if u[0] == '-' then -v else v)
      else None
    else if |u| > 0 && AllHexDigits(u) then
      HexValueBound(u);
      Some(HexValue(u))
    else None
  }

  /** One hex digit is below 16 and two are below 256. */
  lemma HexValueBound(s: string)
    requires AllHexDigits(s)
    ensures |s| == 1 ==> HexValue(s) < 16
    ensures |s| == 2 ==> HexValue(s) < 256
  {
    if |s| == 2 {
      assert s[..1][..0] == [];
    }
  }

  /** Python slicing `s[lo:hi]` for non-negative bounds: out-of-range bounds
      are cut back to the length. */
  function Slice(s: string, lo: nat, hi: nat): (r: string)
    requires lo <= hi
    ensures |r| <= hi - lo
    ensures hi <= |s| ==> r == s[lo..hi]
  {
    var l := if lo <= |s| then lo else |s|;
    var h := if hi <= |s| then hi else |s|;
    s[l..h]
  }

  /** `"".join(c * 2 for c in h)` */
  function Doubled(h: string): (r: string)
    ensures |r| == 2 * |h|
    ensures forall i :: 0 <= i < |r| ==> r[i] == h[i / 2]
  {
    if |h| == 0 then "" else [h[0], h[0]] + Doubled(h[1..])
  }

  /** The digits `hex_to_rgb` reads: leading '#' removed, three digits
      doubled to six. */
  function Expanded(s: string): string {
    var h := TrimStartChar(s, '#');
    if |h| == 3 then Doubled(h) else h
  }

  /** hex_to_rgb; None stands for the ValueError `int()` raises on a bad or
      missing pair of digits. Characters past the sixth are ignored, and a
      sign is read as part of a pair, so a component may be negative. */
  function HexToRgb(s: string): (c: Option<Rgb>)
    ensures c.Some? ==> -15 <= c.value.r <= 255 && -15 <= c.value.g <= 255 && -15 <= c.value.b <= 255
  {
    Components(Expanded(s))
  }

  /** The three `int(x[i:i+2], 16)` calls, in order. */
  function Components(x: string): (c: Option<Rgb>)
    ensures c.Some? ==> -15 <= c.value.r <= 255 && -15 <= c.value.g <= 255 && -15 <= c.value.b <= 255
  {
    var r :- ParseHex(Slice(x, 0, 2));
    var g :- ParseHex(Slice(x, 2, 4));
    var b :- ParseHex(Slice(x, 4, 6));
    Some(Rgb(r, g, b))
  }

  function Clamp(v: int): (c: int)
    ensures 0 <= c <= 255
    ensures 0 <= v <= 255 ==> c == v
    ensures v < 0 ==> c == 0
    ensures v > 255 ==> c == 255
  {
    if v < 0 then 0 else if v > 255 then 255 else v
  }

  /** `{:02x}` of a value in 0..255. */
  function Hex2(v: nat): (s: string)
    requires v < 256
    ensures |s| == 2 && AllHexDigits(s) && HexValue(s) == v
    ensures !IsUpper(s[0]) && !IsUpper(s[1])
  {
    var s := [HexChar(v / 16), HexChar(v % 16)];
    assert s[..1] == [s[0]] && s[..1][..0] == [];
    assert HexValue(s[..1]) == v / 16;
    s
  }

  /** rgb_to_hex: clamp each component to 0..255 and print `#rrggbb` in
      lower case. */
  function RgbToHex(r: int, g: int, b: int): (s: string)
    ensures |s| == 7 && s[0] == '#'
    ensures AllHexDigits(s[1..])
    ensures forall i :: 1 <= i < 7 ==> !IsUpper(s[i])
  {
    "#" + Hex2(Clamp(r)) + Hex2(Clamp(g)) + Hex2(Clamp(b))
  }

  /** A pair of hex digits parses to its value. */
  lemma ParseHexPair(t: string)
    requires |t| == 2 && AllHexDigits(t)
    ensures ParseHex(t) == Some(PairValue(t, 0))
  {
    StripNoop(t);
    assert t[..1] == [t[0]] && t[..1][..0] == [];
    assert HexValue(t[..1]) == HexDigitValue(t[0]);
  }

  /** Six hex digits give three components, pair by pair. */
  lemma SixDigits(x: string)
    requires |x| == 6 && AllHexDigits(x)
    ensures Components(x) == Some(Rgb(PairValue(x, 0), PairValue(x, 2), PairValue(x, 4)))
  {
    assert IsHexDigit(x[0]) && IsHexDigit(x[1]) && IsHexDigit(x[2]) && IsHexDigit(x[3]) && IsHexDigit(x[4]) && IsHexDigit(x[5]);
    var r, g, b := PairValue(x, 0), PairValue(x, 2), PairValue(x, 4);
    PairAt(x, 0);
    PairAt(x, 2);
    PairAt(x, 4);
  }

  lemma PairAt(x: string, i: nat)
    requires i + 1 < |x| && AllHexDigits(x)
    ensures ParseHex(Slice(x, i, i + 2)) == Some(PairValue(x, i))
  {
    var a, b := x[i], x[i + 1];
    assert IsHexDigit(a) && IsHexDigit(b);
    var t := [a, b];
    assert Slice(x, i, i + 2) == t;
    assert AllHexDigits(t) by {
      forall j | 0 <= j < 2
        ensures IsHexDigit(t[j])
      {
      }
    }
    ParseHexPair(t);
  }

  /** The component a pair of hex digits at `i` denotes. */
  function PairValue(d: string, i: nat): (v: nat)
    requires i + 1 < |d| && IsHexDigit(d[i]) && IsHexDigit(d[i + 1])
    ensures v < 256
  {
    16 * HexDigitValue(d[i]) + HexDigitValue(d[i + 1])
  }

  /** `count` leading '#' characters. */
  function Hashes(count: nat): (s: string)
    ensures |s| == count && forall i :: 0 <= i < count ==> s[i] == '#'
  {
    seq(count, _ => '#')
  }

  lemma {:induction false} TrimHashes(count: nat, d: string)
    requires |d| > 0 && d[0] != '#'
    ensures TrimStartChar(Hashes(count) + d, '#') == d
  {
    if count > 0 {
      assert (Hashes(count) + d)[1..] == Hashes(count - 1) + d;
      TrimHashes(count - 1, d);
    }
  }

  /** Printing then parsing gives back the clamped components: the identity
      on 0..255. */
  lemma RgbRoundTrip(r: int, g: int, b: int)
    ensures HexToRgb(RgbToHex(r, g, b)) == Some(Rgb(Clamp(r), Clamp(g), Clamp(b)))
  {
    var p, q, t := Hex2(Clamp(r)), Hex2(Clamp(g)), Hex2(Clamp(b));
    var x := p + q + t;
    assert RgbToHex(r, g, b) == Hashes(1) + x;
    ThreePairs(p, q, t);
    HexToRgbDigits(1, x);
    HexPairValue(Clamp(r));
    HexPairValue(Clamp(g));
    HexPairValue(Clamp(b));
  }

  /** Three digit pairs side by side keep their values. */
  lemma ThreePairs(p: string, q: string, t: string)
    requires |p| == 2 && |q| == 2 && |t| == 2
    requires AllHexDigits(p) && AllHexDigits(q) && AllHexDigits(t)
    ensures |p + q + t| == 6 && AllHexDigits(p + q + t)
    ensures PairValue(p + q + t, 0) == PairValue(p, 0)
    ensures PairValue(p + q + t, 2) == PairValue(q, 0)
    ensures PairValue(p + q + t, 4) == PairValue(t, 0)
  {
    var x := p + q + t;
    assert x[0] == p[0] && x[1] == p[1];
    assert x[2] == q[0] && x[3] == q[1];
    assert x[4] == t[0] && x[5] == t[1];
  }

  lemma HexPairValue(v: nat)
    requires v < 256
    ensures PairValue(Hex2(v), 0) == v
  {
  }

  /** The six digits `hex_to_rgb` reads from a string of '#'s and three or six
      digits. */
  lemma ExpandedDigits(count: nat, d: string)
    requires (|d| == 6 || |d| == 3) && AllHexDigits(d)
    ensures Expanded(Hashes(count) + d) == (if |d| == 3 then Doubled(d) else d)
  {
    TrimHashes(count, d);
  }

  /** A doubled digit pair denotes 17 times the digit. */
  lemma DoubledPairs(d: string)
    requires |d| == 3 && AllHexDigits(d)
    ensures AllHexDigits(Doubled(d))
    ensures PairValue(Doubled(d), 0) == 17 * HexDigitValue(d[0])
    ensures PairValue(Doubled(d), 2) == 17 * HexDigitValue(d[1])
    ensures PairValue(Doubled(d), 4) == 17 * HexDigitValue(d[2])
  {
    var x := Doubled(d);
    assert x[0] == d[0] && x[1] == d[0] && x[2] == d[1] && x[3] == d[1] && x[4] == d[2] && x[5] == d[2];
  }

  /** Digits after any number of '#': six digits parse pair by pair, three
      digits are each doubled first, so every component is in 0..255. */
  lemma HexToRgbDigits(count: nat, d: string)
    requires (|d| == 6 || |d| == 3) && AllHexDigits(d)
    ensures |d| == 6 ==>
      HexToRgb(Hashes(count) + d) == Some(Rgb(PairValue(d, 0), PairValue(d, 2), PairValue(d, 4)))
    ensures |d| == 3 ==>
      HexToRgb(Hashes(count) + d)
      == Some(Rgb(17 * HexDigitValue(d[0]), 17 * HexDigitValue(d[1]), 17 * HexDigitValue(d[2])))
    ensures HexToRgb(Hashes(count) + d).Some?
    ensures var c := HexToRgb(Hashes(count) + d).value;
      0 <= c.r <= 255 && 0 <= c.g <= 255 && 0 <= c.b <= 255
  {
    ExpandedDigits(count, d);
    if |d| == 3 {
      DoubledPairs(d);
      SixDigits(Doubled(d));
    } else {
      SixDigits(d);
    }
  }

  /** Parsing then printing gives '#' and the lower-cased, expanded digits. */
  lemma HexRoundTrip(count: nat, d: string)
    requires (|d| == 6 || |d| == 3) && AllHexDigits(d)
    ensures HexToRgb(Hashes(count) + d).Some?
    ensures var c := HexToRgb(Hashes(count) + d).value;
      RgbToHex(c.r, c.g, c.b) == "#" + Lower(if |d| == 3 then Doubled(d) else d)
  {
    var x := if |d| == 3 then Doubled(d) else d;
    ExpandedDigits(count, d);
    if |d| == 3 { DoubledPairs(d); }
    SixDigits(x);
    PrintComponents(x);
  }

  /** Six digits printed back after parsing come out lower-cased. */
  lemma PrintComponents(x: string)
    requires |x| == 6 && AllHexDigits(x)
    ensures RgbToHex(PairValue(x, 0), PairValue(x, 2), PairValue(x, 4)) == "#" + Lower(x)
  {
    var a, b, e := PairValue(x, 0), PairValue(x, 2), PairValue(x, 4);
    PrintPair(x, 0);
    PrintPair(x, 2);
    PrintPair(x, 4);
    assert RgbToHex(a, b, e) == "#" + Hex2(a) + Hex2(b) + Hex2(e);
    SixLower(x, Hex2(a), Hex2(b), Hex2(e));
  }

  lemma SixLower(x: string, p: string, q: string, r: string)
    requires |x| == 6
    requires p == [LowerChar(x[0]), LowerChar(x[1])] && q == [LowerChar(x[2]), LowerChar(x[3])]
    requires r == [LowerChar(x[4]), LowerChar(x[5])]
    ensures "#" + p + q + r == "#" + Lower(x)
  {
    assert p + q + r == Lower(x);
  }

  /** Printing a parsed digit pair lower-cases it. */
  lemma PrintPair(x: string, i: nat)
    requires i + 1 < |x| && IsHexDigit(x[i]) && IsHexDigit(x[i + 1])
    ensures Hex2(PairValue(x, i)) == [LowerChar(x[i]), LowerChar(x[i + 1])]
  {
    var hi, lo := HexDigitValue(x[i]), HexDigitValue(x[i + 1]);
    DigitsOfPair(hi, lo);
    HexCharOfValue(x[i]);
    HexCharOfValue(x[i + 1]);
  }

  /** The two digits of `16 * hi + lo`. */
  lemma DigitsOfPair(hi: nat, lo: nat)
    requires hi < 16 && lo < 16
    ensures (16 * hi + lo) / 16 == hi && (16 * hi + lo) % 16 == lo
  {
  }

  /** "#1E88E5" is (30, 136, 229). */
  lemma HexExampleLong(s: string)
    requires s == "#1E88E5"
    ensures HexToRgb(s) == Some(Rgb(30, 136, 229))
  {
    var d := s[1..];
    assert s == Hashes(1) + d;
    HexToRgbDigits(1, d);
  }

  /** "#ABC" is read as "#AABBCC", that is (170, 187, 204). */
  lemma HexExampleShort(s: string)
    requires s == "#ABC"
    ensures HexToRgb(s) == Some(Rgb(170, 187, 204))
  {
    var d := s[1..];
    assert s == Hashes(1) + d;
    HexToRgbDigits(1, d);
  }

  lemma HexExamplePrint()
    ensures RgbToHex(30, 136, 229) == "#1e88e5"
  {
  }

  /** The primary is light when the HLS lightness (max + min) / 2 / 255
      exceeds one half, i.e. when max + min exceeds 255. */
  predicate IsLight(c: Rgb) {
    Max(c) + Min(c) > 255
  }

  function Max(c: Rgb): (m: int)
    ensures m >= c.r && m >= c.g && m >= c.b && (m == c.r || m == c.g || m == c.b)
  {
    if c.r >= c.g && c.r >= c.b then c.r else if c.g >= c.b then c.g else c.b
  }

  function Min(c: Rgb): (m: int)
    ensures m <= c.r && m <= c.g && m <= c.b && (m == c.r || m == c.g || m == c.b)
  {
    if c.r <= c.g && c.r <= c.b then c.r else if c.g <= c.b then c.g else c.b
  }

  /** `colorsys.rgb_to_hls` raises ZeroDivisionError for a colour that is
      not grey when the saturation's divisor vanishes: max + min at
      lightness up to one half, 2 - max - min (scaled to 0..1) above it.
      Components parsed with a sign make the first reachable, as in
      (-1, 1, -1); the second needs max = min = 255, a grey. */
  predicate HlsDividesByZero(c: Rgb) {
    Max(c) != Min(c) && (Max(c) + Min(c) == 0 || Max(c) + Min(c) == 2 * 255)
  }

  const LightBackground := "#f8fafc"
  const LightSurface := "#ffffff"
  const LightText := "#0f172a"
  const DarkBackground := "#1e293b"
  const DarkSurface := "#334155"
  const DarkText := "#f8fafc"
  const TextMuted := "#64748b"

  /** The `primary` entry: lower-cased, with '#' put in front when missing. */
  function NormalizePrimary(hex: string): (p: string)
    ensures |p| > 0 && p[0] == '#'
    ensures StartsWith(hex, "#") ==> p == Lower(hex)
    ensures !StartsWith(hex, "#") ==> p == "#" + Lower(hex)
  {
    if StartsWith(hex, "#") then Lower(hex) else Lower("#" + hex)
  }

  /** derive_theme_palette; None when `hex_to_rgb` or `rgb_to_hls` raises.
      The secondary colour is the HLS complement, which this model takes as
      a function of the primary's components, printed with `rgb_to_hex`. */
  function DeriveThemePalette(primaryHex: string, complement: Rgb -> Rgb): (t: Option<ModeTheme>)
    ensures t.Some? <==> HexToRgb(primaryHex).Some? && !HlsDividesByZero(HexToRgb(primaryHex).value)
    ensures t.Some? ==> t.value.primary == NormalizePrimary(primaryHex)
    ensures t.Some? ==> t.value.textMuted == TextMuted
    ensures t.Some? ==>
      (var c := complement(HexToRgb(primaryHex).value);
       t.value.secondary == RgbToHex(c.r, c.g, c.b))
    ensures t.Some? ==>
      (if IsLight(HexToRgb(primaryHex).value)
       then t.value.background == LightBackground && t.value.surface == LightSurface && t.value.text == LightText
       else t.value.background == DarkBackground && t.value.surface == DarkSurface && t.value.text == DarkText)
  {
    var rgb :- HexToRgb(primaryHex);
    if HlsDividesByZero(rgb) then None else
    var comp := complement(rgb);
    var light := IsLight(rgb);
    Some(ModeTheme(
      NormalizePrimary(primaryHex),
      RgbToHex(comp.r, comp.g, comp.b),
      if light then LightBackground else DarkBackground,
      if light then LightSurface else DarkSurface,
      if light then LightText else DarkText,
      TextMuted))
  }

  /** The three scheme colours always come from one scheme, never a mix. */
  lemma PaletteSchemeConsistent(primaryHex: string, complement: Rgb -> Rgb)
    ensures var t := DeriveThemePalette(primaryHex, complement);
      t.Some? ==>
        (t.value.background == LightBackground <==> t.value.surface == LightSurface)
        && (t.value.surface == LightSurface <==> t.value.text == LightText)
        && (t.value.background == DarkBackground <==> t.value.text == DarkText)
  {
  }

  /** A signed digit, as `int(_, 16)` reads it. */
  lemma SignedPair()
    ensures ParseHex("-1") == Some(-1)
  {
    var t := "-1";
    StripNoop(t);
    assert t[1..] == "1";
    assert "1"[..0] == [];
    assert HexValue("1") == 1;
    assert ParseStripped(t) == Some(-1);
  }

  /** A zero-padded digit, as `int(_, 16)` reads it. */
  lemma PaddedPair()
    ensures ParseHex("01") == Some(1)
  {
    var t := "01";
    assert AllHexDigits(t);
    assert t[..1] == "0" && "0"[..0] == [];
    assert HexValue(t) == 1;
  }

  /** Signed pairs parse: "#-101-1" is (-1, 1, -1), whose lightness is zero
      while its saturation is not, so no palette is derived from it. */
  lemma SignedPrimaryHasNoPalette(complement: Rgb -> Rgb)
    ensures HexToRgb("#-101-1") == Some(Rgb(-1, 1, -1))
    ensures DeriveThemePalette("#-101-1", complement).None?
  {
    var x := "-101-1";
    assert "#-101-1" == Hashes(1) + x;
    TrimHashes(1, x);
    assert Expanded("#-101-1") == x;
    assert Slice(x, 0, 2) == "-1" && Slice(x, 2, 4) == "01" && Slice(x, 4, 6) == "-1";
    SignedPair();
    PaddedPair();
    assert Components(x) == Some(Rgb(-1, 1, -1));
    assert HlsDividesByZero(Rgb(-1, 1, -1));
  }
}
