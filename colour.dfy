/** Colours as the colour control holds them: a `#` and six hexadecimal
    digits, and their conversion to the hue/saturation/lightness triple the
    tree is drawn in. Arithmetic is over `real`, that is, exact. */
module Colour {

  const DEFAULT_ROOT_COLOUR: string := "#ff81e6"

  predicate IsHexDigit(c: char)
  {
    ('0' <= c <= '9') || ('a' <= c <= 'f') || ('A' <= c <= 'F')
  }

  /** The control's validity test: `#` followed by exactly six hex digits,
      either case, and nothing else. */
  predicate IsValidColour(s: string)
  {
    |s| == 7 && s[0] == '#' && forall i :: 1 <= i < 7 ==> IsHexDigit(s[i])
  }

  function DigitValue(c: char): (v: nat)
    requires IsHexDigit(c)
    ensures v < 16
  {
    if '0' <= c <= '9' then c as int - '0' as int
    else if 'a' <= c <= 'f' then c as int - 'a' as int + 10
    else c as int - 'A' as int + 10
  }

  /** The lower-case digit for `v`, the inverse of `DigitValue`. */
  function HexDigit(v: nat): (c: char)
    requires v < 16
    ensures IsHexDigit(c) && DigitValue(c) == v
  {
    if v < 10 then ('0' as int + v) as char else ('a' as int + v - 10) as char
  }

  /** Two hex digits starting at `i`, read as one channel value. */
  function ParsePair(s: string, i: nat): (n: nat)
    requires i + 1 < |s| && IsHexDigit(s[i]) && IsHexDigit(s[i + 1])
    ensures n < 256
  {
    16 * DigitValue(s[i]) + DigitValue(s[i + 1])
  }

  function FormatPair(n: nat): (s: string)
    requires n < 256
  {
    [HexDigit(n / 16), HexDigit(n % 16)]
  }

  /** Reading back a formatted channel gives the channel. */
  lemma PairRoundTrip(n: nat)
    requires n < 256
    ensures |FormatPair(n)| == 2 && IsHexDigit(FormatPair(n)[0]) && IsHexDigit(FormatPair(n)[1])
    ensures ParsePair(FormatPair(n), 0) == n
  {
    var s := FormatPair(n);
    assert DigitValue(s[0]) == n / 16;
    assert DigitValue(s[1]) == n % 16;
  }

  /** Channel values as fractions of full intensity. */
  datatype Rgb = Rgb(red: real, green: real, blue: real)

  predicate InUnit(c: Rgb)
  {
    0.0 <= c.red <= 1.0 && 0.0 <= c.green <= 1.0 && 0.0 <= c.blue <= 1.0
  }

  /** Hue in degrees, saturation and lightness in percent. */
  datatype Hsl = Hsl(hue: real, saturation: real, lightness: real)

  /** The three channels of a valid colour, each parsed from its pair of
      digits (a value 0..255) and divided by 255. */
  function Channels(hex: string): (c: Rgb)
    requires IsValidColour(hex)
    ensures InUnit(c)
    ensures c.red * 255.0 == ParsePair(hex, 1) as real
    ensures c.green * 255.0 == ParsePair(hex, 3) as real
    ensures c.blue * 255.0 == ParsePair(hex, 5) as real
  {
    Rgb(ParsePair(hex, 1) as real / 255.0, ParsePair(hex, 3) as real / 255.0, ParsePair(hex, 5) as real / 255.0)
  }

  function FormatColour(red: nat, green: nat, blue: nat): (s: string)
    requires red < 256 && green < 256 && blue < 256
  {
    "#" + FormatPair(red) + FormatPair(green) + FormatPair(blue)
  }

  /** Any three channel values written as `#rrggbb` form a valid colour whose
      channels read back as those values. */
  lemma ColourRoundTrip(red: nat, green: nat, blue: nat)
    requires red < 256 && green < 256 && blue < 256
    ensures IsValidColour(FormatColour(red, green, blue))
    ensures Channels(FormatColour(red, green, blue)) ==
            Rgb(red as real / 255.0, green as real / 255.0, blue as real / 255.0)
  {
    PairRoundTrip(red);
    PairRoundTrip(green);
    PairRoundTrip(blue);
    var s := FormatColour(red, green, blue);
    assert s[1..3] == FormatPair(red);
    assert s[3..5] == FormatPair(green);
    assert s[5..7] == FormatPair(blue);
    assert ParsePair(s, 1) == red;
    assert ParsePair(s, 3) == green;
    assert ParsePair(s, 5) == blue;
  }

  function Max3(a: real, b: real, c: real): (m: real)
    ensures m == a || m == b || m == c
    ensures a <= m && b <= m && c <= m
  {
    if a >= b && a >= c then a else if b >= c then b else c
  }

  function Min3(a: real, b: real, c: real): (m: real)
    ensures m == a || m == b || m == c
    ensures m <= a && m <= b && m <= c
  {
    if a <= b && a <= c then a else if b <= c then b else c
  }

  function RealAbs(x: real): real
  {
    if x < 0.0 then -x else x
  }

  /** The max/min conversion to HSL. The first channel equal to the maximum
      picks the hue sector: red, then green, then blue. */
  function RgbToHsl(c: Rgb): Hsl
    requires InUnit(c)
  {
    var r, g, b := c.red, c.green, c.blue;
    var max := Max3(r, g, b);
    var min := Min3(r, g, b);
    var l := (max + min) / 2.0;
    if max == min then
      Hsl(0.0, 0.0, l * 100.0)
    else
      var d := max - min;
      var s := if l > 0.5 then d / (2.0 - max - min) else d / (max + min);
      var h := HueSector(r, g, b, max, d);
      Hsl(h / 6.0 * 360.0, s * 100.0, l * 100.0)
  }

  /** The hue in sixths of a turn, from whichever channel is largest; red is
      tried first, then green, then blue. */
  function HueSector(r: real, g: real, b: real, max: real, d: real): real
    requires d != 0.0
  {
    if max == r then (g - b) / d + (if g < b then 6.0 else 0.0)
    else if max == g then (b - r) / d + 2.0
    else (r - g) / d + 4.0
  }

  /** Conversion of a valid `#rrggbb` colour to hue, saturation, lightness:
      a hue in degrees within one turn and two percentages. */
  function HexToHsl(hex: string): (hsl: Hsl)
    requires IsValidColour(hex)
    ensures 0.0 <= hsl.hue < 360.0
    ensures 0.0 <= hsl.saturation <= 100.0 && 0.0 <= hsl.lightness <= 100.0
  {
    RgbToHslRanges(Channels(hex));
    RgbToHsl(Channels(hex))
  }

  /** The channels for a hue sector position `sector` in [0, 6): the sector
      decides which channel is the largest (m + chroma), which the smallest
      (m), and where the third lies between them. */
  function FromSector(sector: real, chroma: real, m: real): Rgb
  {
    if sector < 1.0 then Rgb(chroma + m, chroma * sector + m, m)
    else if sector < 2.0 then Rgb(chroma * (2.0 - sector) + m, chroma + m, m)
    else if sector < 3.0 then Rgb(m, chroma + m, chroma * (sector - 2.0) + m)
    else if sector < 4.0 then Rgb(m, chroma * (4.0 - sector) + m, chroma + m)
    else if sector < 5.0 then Rgb(chroma * (sector - 4.0) + m, m, chroma + m)
    else Rgb(chroma + m, m, chroma * (6.0 - sector) + m)
  }

  /** The standard conversion back from HSL: chroma from saturation and
      lightness, then the channels from the hue's sector. */
  function HslToRgb(c: Hsl): Rgb
  {
    var l := c.lightness / 100.0;
    var s := c.saturation / 100.0;
    var chroma := (1.0 - RealAbs(2.0 * l - 1.0)) * s;
    FromSector(c.hue / 60.0, chroma, l - chroma / 2.0)
  }

  lemma MulDivCancel(x: real, d: real)
    requires d != 0.0
    ensures d * (x / d) == x
  {
  }

  /** A difference no larger than the spread, divided by the spread. */
  lemma {:induction false} RatioBounds(x: real, d: real)
    requires d > 0.0 && -d <= x <= d
    ensures -1.0 <= x / d <= 1.0
    ensures x / d < 1.0 <==> x < d
    ensures x / d >= 0.0 <==> x >= 0.0
    ensures x / d > -1.0 <==> x > -d
  {
    var q := x / d;
    MulDivCancel(x, d);
    assert q * d == x;
    if q >= 1.0 {
      assert q * d >= 1.0 * d;
    } else {
      assert q * d < 1.0 * d;
    }
    if q < 0.0 {
      assert q * d < 0.0;
    } else {
      assert q * d >= 0.0;
    }
    if q <= -1.0 {
      assert q * d <= -1.0 * d;
    } else {
      assert q * d > -1.0 * d;
    }
  }

  /** The saturation times the lightness-dependent factor of the inverse is
      the spread between the largest and smallest channel. */
  lemma {:induction false} ChromaIsSpread(max: real, min: real)
    requires 0.0 <= min < max <= 1.0
    ensures
      var d := max - min;
      var l := (max + min) / 2.0;
      var s := if l > 0.5 then d / (2.0 - max - min) else d / (max + min);
      && 0.0 < s <= 1.0
      && (1.0 - RealAbs(2.0 * l - 1.0)) * s == d
  {
    var d := max - min;
    var l := (max + min) / 2.0;
    if l > 0.5 {
      var e := 2.0 - max - min;
      assert 1.0 - RealAbs(2.0 * l - 1.0) == e;
      MulDivCancel(d, e);
      RatioBounds(d, e);
    } else {
      var e := max + min;
      assert 1.0 - RealAbs(2.0 * l - 1.0) == e;
      MulDivCancel(d, e);
      RatioBounds(d, e);
    }
  }

  /** What the conversion promises: hue in [0, 360), saturation and lightness
      in [0, 100], lightness the mean of the largest and smallest channel,
      and saturation zero exactly for a grey, whose hue is 0 as well. */
  lemma {:induction false} RgbToHslRanges(c: Rgb)
    requires InUnit(c)
    ensures
      var hsl := RgbToHsl(c);
      var max := Max3(c.red, c.green, c.blue);
      var min := Min3(c.red, c.green, c.blue);
      && 0.0 <= hsl.hue < 360.0
      && 0.0 <= hsl.saturation <= 100.0
      && 0.0 <= hsl.lightness <= 100.0
      && hsl.lightness == (max + min) / 2.0 * 100.0
      && (hsl.saturation == 0.0 <==> max == min)
      && (max == min ==> hsl.hue == 0.0)
  {
    var r, g, b := c.red, c.green, c.blue;
    var max := Max3(r, g, b);
    var min := Min3(r, g, b);
    if max != min {
      var d := max - min;
      ChromaIsSpread(max, min);
      if max == r {
        RatioBounds(g - b, d);
      } else if max == g {
        RatioBounds(b - r, d);
      } else {
        RatioBounds(r - g, d);
      }
    }
  }

  /** Red is largest: the sector is (g - b)/d, moved up by 6 when blue
      exceeds green. */
  lemma SectorRed(r: real, g: real, b: real, d: real)
    requires d > 0.0 && r == Max3(r, g, b) && r - d == Min3(r, g, b)
    ensures FromSector((g - b) / d + (if g < b then 6.0 else 0.0), d, r - d) == Rgb(r, g, b)
  {
    var q := (g - b) / d;
    RatioBounds(g - b, d);
    MulDivCancel(g - b, d);
    if g < b {
      assert d * (6.0 - (q + 6.0)) == b - g;
    }
  }

  lemma SectorGreen(r: real, g: real, b: real, d: real)
    requires d > 0.0 && g == Max3(r, g, b) && g != r && g - d == Min3(r, g, b)
    ensures FromSector((b - r) / d + 2.0, d, g - d) == Rgb(r, g, b)
  {
    var q := (b - r) / d;
    RatioBounds(b - r, d);
    MulDivCancel(b - r, d);
    if b < r {
      assert d * (2.0 - (q + 2.0)) == r - b;
    } else if q < 1.0 {
      assert d * ((q + 2.0) - 2.0) == b - r;
    }
  }

  lemma SectorBlue(r: real, g: real, b: real, d: real)
    requires d > 0.0 && b == Max3(r, g, b) && b != r && b != g && b - d == Min3(r, g, b)
    ensures FromSector((r - g) / d + 4.0, d, b - d) == Rgb(r, g, b)
  {
    var q := (r - g) / d;
    RatioBounds(r - g, d);
    MulDivCancel(r - g, d);
    if r < g {
      assert d * (4.0 - (q + 4.0)) == g - r;
    } else {
      assert d * ((q + 4.0) - 4.0) == r - g;
    }
  }

  /** Undoing the scaling to degrees and percent, when the saturation times
      the lightness factor is the spread `d`. */
  lemma InverseOfChromatic(h: real, s: real, l: real, d: real)
    requires (1.0 - RealAbs(2.0 * l - 1.0)) * s == d
    ensures HslToRgb(Hsl(h / 6.0 * 360.0, s * 100.0, l * 100.0)) == FromSector(h, d, l - d / 2.0)
  {
    var hsl := Hsl(h / 6.0 * 360.0, s * 100.0, l * 100.0);
    assert hsl.lightness / 100.0 == l;
    assert hsl.saturation / 100.0 == s;
    assert hsl.hue / 60.0 == h;
  }

  lemma ChromaticInverse(c: Rgb)
    requires InUnit(c) && Max3(c.red, c.green, c.blue) != Min3(c.red, c.green, c.blue)
    ensures
      var max := Max3(c.red, c.green, c.blue);
      var min := Min3(c.red, c.green, c.blue);
      HslToRgb(RgbToHsl(c)) == FromSector(HueSector(c.red, c.green, c.blue, max, max - min), max - min, min)
  {
    var max := Max3(c.red, c.green, c.blue);
    var min := Min3(c.red, c.green, c.blue);
    var l := (max + min) / 2.0;
    var d := max - min;
    var s := if l > 0.5 then d / (2.0 - max - min) else d / (max + min);
    var h := HueSector(c.red, c.green, c.blue, max, d);
    ChromaIsSpread(max, min);
    assert RgbToHsl(c) == Hsl(h / 6.0 * 360.0, s * 100.0, l * 100.0);
    InverseOfChromatic(h, s, l, d);
  }

  /** Converting to HSL and back gives the channels one started from. */
  lemma RgbToHslRoundTrip(c: Rgb)
    requires InUnit(c)
    ensures HslToRgb(RgbToHsl(c)) == c
  {
    var r, g, b := c.red, c.green, c.blue;
    var max := Max3(r, g, b);
    var min := Min3(r, g, b);
    if max != min {
      ChromaticInverse(c);
      if max == r {
        SectorRed(r, g, b, max - min);
      } else if max == g {
        SectorGreen(r, g, b, max - min);
      } else {
        SectorBlue(r, g, b, max - min);
      }
    }
  }

  /** Every valid colour converts to an HSL triple in range that converts
      back to its channels. */
  lemma HexToHslRoundTrip(hex: string)
    requires IsValidColour(hex)
    ensures HslToRgb(HexToHsl(hex)) == Channels(hex)
  {
    RgbToHslRoundTrip(Channels(hex));
  }

  lemma PureRed()
    ensures IsValidColour("#FF0000") && HexToHsl("#FF0000") == Hsl(0.0, 100.0, 50.0)
  {
    assert ParsePair("#FF0000", 1) == 255;
    assert ParsePair("#FF0000", 3) == 0;
    assert ParsePair("#FF0000", 5) == 0;
  }

  lemma White()
    ensures IsValidColour("#FFFFFF") && HexToHsl("#FFFFFF") == Hsl(0.0, 0.0, 100.0)
  {
    assert ParsePair("#FFFFFF", 1) == 255;
    assert ParsePair("#FFFFFF", 3) == 255;
    assert ParsePair("#FFFFFF", 5) == 255;
  }

  lemma Black()
    ensures IsValidColour("#000000") && HexToHsl("#000000") == Hsl(0.0, 0.0, 0.0)
  {
    assert ParsePair("#000000", 1) == 0;
    assert ParsePair("#000000", 3) == 0;
    assert ParsePair("#000000", 5) == 0;
  }

  lemma DefaultColourValid()
    ensures IsValidColour(DEFAULT_ROOT_COLOUR)
  {
  }
}
