/** The colour codec of klim_gl_tools/utils.py (and the identical `useHex`
    of klim_gl_tools.py): hex strings to channel triples and back, and the
    per-channel linear blend used by the gradient ramp. */
module Colors {
  import opened Results
  import opened Chars

  /** `'#000000'`, the default colour of every shape, stroke and mask. */
  const Black := "#000000"

  /** A colour as three channel intensities; `useHex` produces k/255 values. */
  datatype Rgb = Rgb(r: real, g: real, b: real)

  predicate AllHex(s: string) {
    forall j :: 0 <= j < |s| ==> IsHexDigit(s[j])
  }

  /** The value of a run of hexadecimal digits, most significant first. */
  function HexNumber(s: string): nat
    requires AllHex(s)
    decreases |s|
  {
    if s == [] then 0 else 16 * HexNumber(s[..|s| - 1]) + HexValue(s[|s| - 1])
  }

  /** `int(s, 16)` on text without a `0x` prefix or `_` separators:
      surrounding whitespace is ignored, then an optional sign and one or more
      hex digits. */
  function IntBase16(s: string): (v: Option<int>)
    ensures Strip(s) == [] ==> v == None
  {
    var t := Strip(s);
    if t == [] then None
    else if t[0] == '+' || t[0] == '-' then
      var digits := t[1..];
      if digits != [] && AllHex(digits) then
        Some(if t[0] == '-' then -(HexNumber(digits) as int) else HexNumber(digits))
      else None
    else if AllHex(t) then Some(HexNumber(t))
    else None
  }

  /** `int(g, 16)` for one colour group of at most two characters, case by
      case: a prefix or a separator needs at least three characters, so the
      forms are two digits, one digit, or one digit after a sign or beside a
      whitespace character. */
  function ParseHexGroup(g: string): (v: Option<int>)
    requires |g| <= 2
  {
    if |g| == 0 then None
    else if |g| == 1 then
      if IsHexDigit(g[0]) then Some(HexValue(g[0])) else None
    else if IsHexDigit(g[0]) && IsHexDigit(g[1]) then Some(16 * HexValue(g[0]) + HexValue(g[1]))
    else if g[0] == '-' && IsHexDigit(g[1]) then Some(-(HexValue(g[1]) as int))
    else if (g[0] == '+' || IsSpace(g[0])) && IsHexDigit(g[1]) then Some(HexValue(g[1]))
    else if IsHexDigit(g[0]) && IsSpace(g[1]) then Some(HexValue(g[0]))
    else None
  }

  /** The case-by-case reading of a short group is exactly `int(g, 16)`. */
  lemma {:induction false} ParseHexGroupIsInt(g: string)
    requires |g| <= 2
    ensures ParseHexGroup(g) == IntBase16(g)
  {
    if |g| == 1 {
      OneDigitValue(g);
    } else if |g| == 2 {
      var a, b := g[0], g[1];
      if IsSpace(a) {
        assert Strip(g) == Strip([b]) by { assert g[1..] == [b]; }
        OneDigitValue([b]);
      } else if IsSpace(b) {
        assert Strip(g) == [a] by { assert g[..1] == [a]; }
        OneDigitValue([a]);
      } else {
        assert Strip(g) == g;
        if a == '+' || a == '-' {
          assert g[1..] == [b];
          OneDigitValue([b]);
        } else if AllHex(g) {
          TwoDigitValue(g);
        }
      }
    }
  }

  lemma {:induction false} OneDigitValue(s: string)
    requires |s| == 1
    ensures Strip(s) == (if IsSpace(s[0]) then [] else s)
    ensures AllHex(s) <==> IsHexDigit(s[0])
    ensures AllHex(s) ==> HexNumber(s) == HexValue(s[0])
  {
    assert s[..0] == [] && s[1..] == [];
  }

  /** One channel: the group `t[i:i+2]` divided by 255. */
  function Channel(t: string, i: nat): Result<real> {
    match ParseHexGroup(Slice(t, i, i + 2))
    case None => Err(ValueError)
    case Some(v) => Ok(v as real / 255.0)
  }

  /** `useHex`: strip every leading '#', then read the groups at 0, 2 and 4. */
  function UseHex(hex: string): Result<Rgb> {
    var t := LStrip(hex, '#');
    var r :- Channel(t, 0);
    var g :- Channel(t, 2);
    var b :- Channel(t, 4);
    Ok(Rgb(r, g, b))
  }

  /** Python's `round` on a number: the nearest integer, ties to the even one. */
  function RoundHalfEven(x: real): (n: int)
    ensures x - 0.5 <= n as real <= x + 0.5
    ensures (n as real - x == 0.5 || x - n as real == 0.5) ==> n % 2 == 0
  {
    var f := x.Floor;
    var d := x - f as real;
    if d < 0.5 || (d == 0.5 && f % 2 == 0) then f else f + 1
  }

  /** The shortest lowercase hexadecimal numeral of `n`. */
  function HexDigits(n: nat): (s: string)
    ensures |s| >= 1 && forall j :: 0 <= j < |s| ==> IsLowerHexDigit(s[j])
    ensures AllHex(s) && HexNumber(s) == n
    ensures n < 16 <==> |s| == 1
    decreases n
  {
    if n < 16 then [HexChar(n)]
    else
      var s := HexDigits(n / 16) + [HexChar(n % 16)];
      assert s[..|s| - 1] == HexDigits(n / 16);
      s
  }

  /** `f'{n:02x}'`: lowercase hexadecimal padded with zeros to width two;
      a negative number keeps its minus sign and a number above 255 takes
      more than two digits (nothing is clamped). */
  function Format02x(n: int): (s: string)
    ensures 0 <= n < 256 ==> |s| == 2 && AllHex(s) && IsLowerHexDigit(s[0]) && IsLowerHexDigit(s[1])
                             && HexNumber(s) == n
    ensures n < 0 ==> |s| >= 2 && s[0] == '-'
    ensures n >= 256 ==> |s| > 2
  {
    if n < 0 then "-" + HexDigits(-n)
    else
      var d := HexDigits(n);
      if |d| < 2 then
        var s := "0" + d;
        assert s[..1] == "0";
        s
      else d
  }

  /** One channel as `useRgb` writes it: `f'{int(round(c * 255)):02x}'`. */
  function ChannelText(v: real): string {
    Format02x(RoundHalfEven(v * 255.0))
  }

  /** `useRgb`: '#' and the three channels in two-digit hex. */
  function UseRgb(c: Rgb): string {
    "#" + ChannelText(c.r) + ChannelText(c.g) + ChannelText(c.b)
  }

  /** `v` lies between `a` and `b`, whichever order they come in. */
  predicate Between(v: real, a: real, b: real) {
    (a <= v <= b) || (b <= v <= a)
  }

  function Lerp(a: real, b: real, t: real): (v: real)
    ensures t == 0.0 ==> v == a
    ensures t == 1.0 ==> v == b
    ensures 0.0 <= t <= 1.0 ==> Between(v, a, b)
  {
    if 0.0 <= t <= 1.0 then
      ScaledWithin(b - a, t);
      a + (b - a) * t
    else a + (b - a) * t
  }

  /** Scaling by a fraction in [0,1] keeps a difference between 0 and itself. */
  lemma {:induction false} ScaledWithin(d: real, t: real)
    requires 0.0 <= t <= 1.0
    ensures d >= 0.0 ==> 0.0 <= d * t <= d
    ensures d <= 0.0 ==> d <= d * t <= 0.0
  {
    if d >= 0.0 {
      ProductNonnegative(d, t);
      ProductNonnegative(d, 1.0 - t);
    } else {
      ProductNonnegative(-d, t);
      ProductNonnegative(-d, 1.0 - t);
    }
  }

  lemma {:induction false} ProductNonnegative(x: real, y: real)
    requires x >= 0.0 && y >= 0.0
    ensures x * y >= 0.0
  {
  }

  /** `interpolate_color`: the per-channel blend `c1 + (c2 - c1) * t`. */
  function Interpolate(c1: Rgb, c2: Rgb, t: real): (c: Rgb)
    ensures t == 0.0 ==> c == c1
    ensures t == 1.0 ==> c == c2
    ensures 0.0 <= t <= 1.0 ==> Between(c.r, c1.r, c2.r) && Between(c.g, c1.g, c2.g) && Between(c.b, c1.b, c2.b)
  {
    Rgb(Lerp(c1.r, c2.r, t), Lerp(c1.g, c2.g, t), Lerp(c1.b, c2.b, t))
  }

  // ----- Properties of the codec -----

  /** Every channel lies in [0,1]. */
  predicate InUnitRange(c: Rgb) {
    0.0 <= c.r <= 1.0 && 0.0 <= c.g <= 1.0 && 0.0 <= c.b <= 1.0
  }

  /** The colour whose channels are the 8-bit values `r`, `g`, `b` over 255. */
  function Quantized(r: nat, g: nat, b: nat): Rgb {
    Rgb(r as real / 255.0, g as real / 255.0, b as real / 255.0)
  }

  /** `h.lower()` for a run of hexadecimal digits. */
  function LowerAll(h: string): (l: string)
    requires AllHex(h)
    ensures |l| == |h| && forall j :: 0 <= j < |h| ==> l[j] == LowerHex(h[j])
  {
    seq(|h|, j requires 0 <= j < |h| => LowerHex(h[j]))
  }

  lemma {:induction false} TwoDigitValue(s: string)
    requires |s| == 2 && AllHex(s)
    ensures HexNumber(s) == 16 * HexValue(s[0]) + HexValue(s[1]) < 256
  {
    assert s[..|s| - 1] == s[..1];
    assert s[..1][..0] == [];
    assert HexNumber(s[..1]) == HexValue(s[0]);
  }

  /** The channel level of the byte written as the two hex digits `hi lo`. */
  function ByteLevel(hi: char, lo: char): (v: real)
    requires IsHexDigit(hi) && IsHexDigit(lo)
    ensures 0.0 <= v <= 1.0
  {
    (16 * HexValue(hi) + HexValue(lo)) as real / 255.0
  }

  /** A group of two hex digits at `i` decodes to its value over 255. */
  lemma {:induction false} ChannelOfDigits(t: string, i: nat)
    requires i + 2 <= |t| && IsHexDigit(t[i]) && IsHexDigit(t[i + 1])
    ensures Channel(t, i) == Ok(ByteLevel(t[i], t[i + 1]))
  {
    assert Slice(t, i, i + 2) == [t[i], t[i + 1]];
  }

  /** A lowercase hexadecimal digit is determined by its value. */
  lemma {:induction false} LowerHexDigitUnique(a: char, b: char)
    requires IsLowerHexDigit(a) && IsLowerHexDigit(b) && HexValue(a) == HexValue(b)
    ensures a == b
  {
  }

  lemma {:induction false} RoundInteger(k: int)
    ensures RoundHalfEven(k as real) == k
  {
  }

  /** Two-digit `format(k, '02x')` for a byte spells out the digits of `k`. */
  lemma {:induction false} FormatByteDigits(k: nat, hi: char, lo: char)
    requires k < 256 && IsHexDigit(hi) && IsHexDigit(lo) && k == 16 * HexValue(hi) + HexValue(lo)
    ensures Format02x(k) == [LowerHex(hi), LowerHex(lo)]
  {
    var s := Format02x(k);
    TwoDigitValue(s);
    LowerHexDigitUnique(s[0], LowerHex(hi));
    LowerHexDigitUnique(s[1], LowerHex(lo));
  }

  /** Leading '#' characters are skipped: text starting with a hex digit is kept whole. */
  lemma {:induction false} LStripHexText(t: string)
    requires t != [] && IsHexDigit(t[0])
    ensures LStrip(t, '#') == t && LStrip("#" + t, '#') == t
  {
    assert LStrip(t, '#') == t;
    assert ("#" + t)[1..] == t;
    assert LStrip("#" + t, '#') == LStrip(("#" + t)[1..], '#');
  }

  lemma {:induction false} UseHexOfChannels(hex: string, t: string, r: real, g: real, b: real)
    requires t == LStrip(hex, '#') && Channel(t, 0) == Ok(r) && Channel(t, 2) == Ok(g) && Channel(t, 4) == Ok(b)
    ensures UseHex(hex) == Ok(Rgb(r, g, b))
  {
  }

  /** `useHex` reads three two-digit groups after the '#' characters; each
      channel is the group's value over 255 and so lies in [0,1]. Characters
      after the sixth are ignored. */
  lemma {:induction false} UseHexChannels(hex: string, t: string)
    requires t == LStrip(hex, '#') && |t| >= 6 && forall j :: 0 <= j < 6 ==> IsHexDigit(t[j])
    ensures UseHex(hex) == Ok(Rgb(ByteLevel(t[0], t[1]), ByteLevel(t[2], t[3]), ByteLevel(t[4], t[5])))
  {
    ChannelOfDigits(t, 0);
    ChannelOfDigits(t, 2);
    ChannelOfDigits(t, 4);
    UseHexOfChannels(hex, t, ByteLevel(t[0], t[1]), ByteLevel(t[2], t[3]), ByteLevel(t[4], t[5]));
  }

  /** Text that is too short for three groups raises ValueError. */
  lemma {:induction false} UseHexShortRaises(hex: string)
    requires |LStrip(hex, '#')| <= 4
    ensures UseHex(hex) == Err(ValueError)
  {
    var t := LStrip(hex, '#');
    assert Slice(t, 4, 6) == [];
  }

  /** Six hex digits after the '#' characters decode to a colour inside [0,1]. */
  lemma {:induction false} UseHexInUnitRange(hex: string, t: string)
    requires t == LStrip(hex, '#') && |t| >= 6 && forall j :: 0 <= j < 6 ==> IsHexDigit(t[j])
    ensures UseHex(hex).Ok? && InUnitRange(UseHex(hex).value)
  {
    UseHexChannels(hex, t);
  }

  /** `int(.., 16)` accepts a sign: a group "+d" or "-d" decodes to plus or
      minus the digit's value over 255. */
  lemma {:induction false} SignedGroup(t: string, i: nat)
    requires i + 2 <= |t| && (t[i] == '-' || t[i] == '+') && IsHexDigit(t[i + 1])
    ensures Channel(t, i) == Ok((if t[i] == '-' then -(HexValue(t[i + 1]) as int) else HexValue(t[i + 1])) as real / 255.0)
  {
    assert Slice(t, i, i + 2) == [t[i], t[i + 1]];
  }

  /** So the [0,1] range only holds for plain digits: text whose first group
      is a minus sign and a non-zero digit decodes to a negative red channel. */
  lemma {:induction false} UseHexAcceptsSign(hex: string, t: string)
    requires t == LStrip(hex, '#') && |t| >= 6 && t[0] == '-' && forall j :: 1 <= j < 6 ==> IsHexDigit(t[j])
    ensures UseHex(hex) == Ok(Rgb(-(HexValue(t[1]) as int) as real / 255.0, ByteLevel(t[2], t[3]), ByteLevel(t[4], t[5])))
    ensures HexValue(t[1]) > 0 ==> UseHex(hex).value.r < 0.0
  {
    SignedGroup(t, 0);
    ChannelOfDigits(t, 2);
    ChannelOfDigits(t, 4);
    UseHexOfChannels(hex, t, -(HexValue(t[1]) as int) as real / 255.0, ByteLevel(t[2], t[3]), ByteLevel(t[4], t[5]));
  }

  /** Re-encoding the level of the byte `hi lo` writes `hi lo` in lowercase. */
  lemma {:induction false} ByteLevelText(hi: char, lo: char)
    requires IsHexDigit(hi) && IsHexDigit(lo)
    ensures ChannelText(ByteLevel(hi, lo)) == [LowerHex(hi), LowerHex(lo)]
  {
    var k := 16 * HexValue(hi) + HexValue(lo);
    assert ByteLevel(hi, lo) * 255.0 == k as real;
    RoundInteger(k);
    FormatByteDigits(k, hi, lo);
  }

  lemma {:induction false} QuantizedText(k: nat)
    ensures ChannelText(k as real / 255.0) == Format02x(k)
  {
    assert (k as real / 255.0) * 255.0 == k as real;
    RoundInteger(k);
  }

  /** Decoding the two digits written for byte `k` gives back its level. */
  lemma {:induction false} FormatByteLevel(k: nat)
    requires k < 256
    ensures |Format02x(k)| == 2 && IsHexDigit(Format02x(k)[0]) && IsHexDigit(Format02x(k)[1])
    ensures ByteLevel(Format02x(k)[0], Format02x(k)[1]) == k as real / 255.0
  {
    TwoDigitValue(Format02x(k));
  }

  lemma {:induction false} DecodeSixDigits(h: string)
    requires |h| == 6 && AllHex(h)
    ensures UseHex(h) == Ok(Rgb(ByteLevel(h[0], h[1]), ByteLevel(h[2], h[3]), ByteLevel(h[4], h[5])))
    ensures UseHex("#" + h) == UseHex(h)
  {
    LStripHexText(h);
    UseHexChannels(h, h);
    UseHexChannels("#" + h, h);
  }

  lemma {:induction false} EncodeByteLevels(h: string)
    requires |h| == 6 && AllHex(h)
    ensures UseRgb(Rgb(ByteLevel(h[0], h[1]), ByteLevel(h[2], h[3]), ByteLevel(h[4], h[5]))) == "#" + LowerAll(h)
  {
    ByteLevelText(h[0], h[1]);
    ByteLevelText(h[2], h[3]);
    ByteLevelText(h[4], h[5]);
    LowerAllSix(h);
  }

  lemma {:induction false} LowerAllSix(h: string)
    requires |h| == 6 && AllHex(h)
    ensures LowerAll(h) == [LowerHex(h[0]), LowerHex(h[1])] + [LowerHex(h[2]), LowerHex(h[3])]
                           + [LowerHex(h[4]), LowerHex(h[5])]
  {
  }

  /** Hex text to colour and back: for six hex digits, with or without a
      leading '#', `useRgb(useHex(h))` is '#' and the digits in lowercase. */
  lemma {:induction false} HexRoundTrip(h: string)
    requires |h| == 6 && AllHex(h)
    ensures UseHex("#" + h) == UseHex(h)
    ensures UseHex(h).Ok? && UseRgb(UseHex(h).value) == "#" + LowerAll(h)
  {
    DecodeSixDigits(h);
    EncodeByteLevels(h);
  }

  lemma {:induction false} EncodeQuantized(r: nat, g: nat, b: nat)
    ensures UseRgb(Quantized(r, g, b)) == "#" + Format02x(r) + Format02x(g) + Format02x(b)
  {
    QuantizedText(r);
    QuantizedText(g);
    QuantizedText(b);
  }

  lemma {:induction false} DecodeFormatted(r: nat, g: nat, b: nat, text: string)
    requires r < 256 && g < 256 && b < 256
    requires text == "#" + Format02x(r) + Format02x(g) + Format02x(b)
    ensures UseHex(text) == Ok(Quantized(r, g, b))
  {
    var x, y, z := Format02x(r), Format02x(g), Format02x(b);
    FormatByteLevel(r);
    FormatByteLevel(g);
    FormatByteLevel(b);
    DecodeGroups(x, y, z, text, Quantized(r, g, b));
  }

  /** Three two-digit groups after one '#' decode to their byte levels `c`. */
  lemma {:induction false} DecodeGroups(x: string, y: string, z: string, text: string, c: Rgb)
    requires |x| == 2 && |y| == 2 && |z| == 2 && AllHex(x) && AllHex(y) && AllHex(z)
    requires text == "#" + x + y + z
    requires c == Rgb(ByteLevel(x[0], x[1]), ByteLevel(y[0], y[1]), ByteLevel(z[0], z[1]))
    ensures UseHex(text) == Ok(c)
  {
    var t := text[1..];
    assert text == "#" + t;
    assert t[0] == x[0] && t[1] == x[1] && t[2] == y[0] && t[3] == y[1] && t[4] == z[0] && t[5] == z[1];
    LStripHexText(t);
    UseHexChannels(text, t);
  }

  /** Colour to hex text and back: a colour with 8-bit channels survives
      `useHex(useRgb(c))` exactly. */
  lemma {:induction false} RgbRoundTrip(r: nat, g: nat, b: nat)
    requires r < 256 && g < 256 && b < 256
    ensures UseHex(UseRgb(Quantized(r, g, b))) == Ok(Quantized(r, g, b))
  {
    EncodeQuantized(r, g, b);
    DecodeFormatted(r, g, b, UseRgb(Quantized(r, g, b)));
  }

  /** `useRgb` does not clamp: channels that round into 0..255 give '#' and
      six lowercase hex digits, a channel that rounds above 255 lengthens the
      text, and one that rounds below 0 puts a minus sign into it. */
  lemma {:induction false} UseRgbShape(c: Rgb, x: int, y: int, z: int)
    requires x == RoundHalfEven(c.r * 255.0) && y == RoundHalfEven(c.g * 255.0) && z == RoundHalfEven(c.b * 255.0)
    ensures 0 <= x < 256 && 0 <= y < 256 && 0 <= z < 256 ==>
      |UseRgb(c)| == 7 && UseRgb(c)[0] == '#' && forall j :: 1 <= j < 7 ==> IsLowerHexDigit(UseRgb(c)[j])
    ensures x >= 256 || y >= 256 || z >= 256 ==> |UseRgb(c)| > 7
    ensures x < 0 ==> UseRgb(c)[1] == '-'
  {
    UseRgbText(c, x, y, z);
    if 0 <= x < 256 && 0 <= y < 256 && 0 <= z < 256 {
      FormattedBytes(UseRgb(c), x, y, z);
    }
    if x >= 256 || y >= 256 || z >= 256 {
      FormattedLong(UseRgb(c), x, y, z);
    }
    if x < 0 {
      FormattedMinus(UseRgb(c), x, y, z);
    }
  }

  /** `useRgb` writes each channel scaled by 255 and rounded. */
  lemma {:induction false} UseRgbText(c: Rgb, x: int, y: int, z: int)
    requires x == RoundHalfEven(c.r * 255.0) && y == RoundHalfEven(c.g * 255.0) && z == RoundHalfEven(c.b * 255.0)
    ensures UseRgb(c) == "#" + Format02x(x) + Format02x(y) + Format02x(z)
  {
    ChannelTextOf(c.r, x);
    ChannelTextOf(c.g, y);
    ChannelTextOf(c.b, z);
  }

  lemma {:induction false} ChannelTextOf(v: real, n: int)
    requires n == RoundHalfEven(v * 255.0)
    ensures ChannelText(v) == Format02x(n)
  {
  }

  lemma {:induction false} FormattedBytes(text: string, x: int, y: int, z: int)
    requires text == "#" + Format02x(x) + Format02x(y) + Format02x(z)
    requires 0 <= x < 256 && 0 <= y < 256 && 0 <= z < 256
    ensures |text| == 7 && text[0] == '#' && forall j :: 1 <= j < 7 ==> IsLowerHexDigit(text[j])
  {
    var fx, fy, fz := Format02x(x), Format02x(y), Format02x(z);
    assert text == "#" + [fx[0], fx[1]] + [fy[0], fy[1]] + [fz[0], fz[1]];
  }

  lemma {:induction false} FormattedLong(text: string, x: int, y: int, z: int)
    requires text == "#" + Format02x(x) + Format02x(y) + Format02x(z)
    requires x >= 256 || y >= 256 || z >= 256
    ensures |text| > 7
  {
  }

  lemma {:induction false} FormattedMinus(text: string, x: int, y: int, z: int)
    requires text == "#" + Format02x(x) + Format02x(y) + Format02x(z)
    requires x < 0
    ensures text[1] == '-'
  {
    assert text[1] == Format02x(x)[0];
  }
}
