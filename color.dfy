/** Colour parsing and interpolation of the rendering service
    (`QrCodeService::parseColor`, `interpolateColor` and the ratio of the
    linear gradient). */
module Color {
  import opened Values

  /** An RGB triple as `parseColor` returns it: plain integers, not clamped. */
  datatype Rgb = Rgb(r: int, g: int, b: int)

  /** An interpolated colour; PHP computes it with floats, modelled exactly. */
  datatype RgbReal = RgbReal(r: real, g: real, b: real)

  const InvalidColorFormat: string := "Invalid color format"

  /** PHP_INT_MAX on a 64-bit build: `(int)` of a larger digit string saturates here. */
  const PhpIntMax: int := 0x7FFF_FFFF_FFFF_FFFF

  /** 2^1024 - 2^970, fifty-four one bits above 970 zero bits: the least
      value that rounds to an infinite double (it lies halfway between the
      largest double and 2^1024, and the tie goes to the even neighbour). */
  const DoubleOverflow: nat := 0xFFFFFFFFFFFFFC00_0000000000000000_0000000000000000_0000000000000000_0000000000000000_0000000000000000_0000000000000000_0000000000000000_0000000000000000_0000000000000000_0000000000000000_0000000000000000_0000000000000000_0000000000000000_0000000000000000_0000000000000000

  // ---------------------------------------------------------------------
  // Character classes of the two patterns

  predicate IsHexDigit(c: char)
  {
    '0' <= c <= '9' || 'a' <= c <= 'f' || 'A' <= c <= 'F'
  }

  /** PCRE `\d` (no Unicode mode): an ASCII digit. */
  predicate IsDigit(c: char)
  {
    '0' <= c <= '9'
  }

  /** PCRE `\s`: space, tab, line feed, vertical tab, form feed, carriage return. */
  predicate IsSpace(c: char)
  {
    c == ' ' || c == '\t' || c == '\n' || c == '\U{B}' || c == '\U{C}' || c == '\r'
  }

  predicate AllDigits(s: string)
  {
    forall i :: 0 <= i < |s| ==> IsDigit(s[i])
  }

  predicate AllSpace(s: string)
  {
    forall i :: 0 <= i < |s| ==> IsSpace(s[i])
  }

  function HexDigitValue(c: char): (v: nat)
    requires IsHexDigit(c)
    ensures v < 16
  {
    if '0' <= c <= '9' then (c - '0') as nat
    else if 'a' <= c <= 'f' then (c - 'a') as nat + 10
    else (c - 'A') as nat + 10
  }

  /** Lower-case form of a character (ASCII letters only). */
  function ToLower(c: char): char
  {
    if 'A' <= c <= 'Z' then (c - 'A' + 'a') as char else c
  }

  /** `hexdec` of a two-digit string. */
  function HexByte(hi: char, lo: char): (v: nat)
    requires IsHexDigit(hi) && IsHexDigit(lo)
    ensures v <= 255
  {
    16 * HexDigitValue(hi) + HexDigitValue(lo)
  }

  /** Value of a decimal digit string, leading zeros allowed. */
  function DecimalValue(d: string): nat
    requires AllDigits(d)
  {
    if d == [] then 0 else 10 * DecimalValue(d[..|d| - 1]) + (d[|d| - 1] - '0') as nat
  }

  /** PHP's `(int)` of a digit string. A value that fits is kept. A larger
      one is read as a double and capped at PHP_INT_MAX, unless the double is
      infinite, which casts to 0. */
  function IntCast(d: string): (v: int)
    requires AllDigits(d)
    ensures 0 <= v <= PhpIntMax
    ensures DecimalValue(d) <= PhpIntMax ==> v == DecimalValue(d)
    ensures PhpIntMax < DecimalValue(d) < DoubleOverflow ==> v == PhpIntMax
    ensures DecimalValue(d) >= DoubleOverflow ==> v == 0
  {
    if DecimalValue(d) >= DoubleOverflow then 0
    else if DecimalValue(d) > PhpIntMax then PhpIntMax
    else DecimalValue(d)
  }

  // ---------------------------------------------------------------------
  // The two accepted forms

  /** A PCRE `$` without the D modifier also matches just before a final line
      feed, and neither colour pattern can itself end in a line feed; so a
      subject matches `^...$` iff it matches in full once one final line feed
      is removed. */
  function Subject(s: string): (t: string)
    ensures |s| - 1 <= |t| <= |s| && t == s[..|t|]
    ensures |t| < |s| <==> (|s| > 0 && s[|s| - 1] == '\n')
  {
    if |s| > 0 && s[|s| - 1] == '\n' then s[..|s| - 1] else s
  }

  /** `#RRGGBB`, digits in either case. */
  predicate IsHexColor(t: string)
  {
    |t| == 7 && t[0] == '#' && forall i :: 1 <= i < 7 ==> IsHexDigit(t[i])
  }

  /** The five variable parts of `rgb(D1,W1D2,W2D3)`. */
  datatype RgbPieces = RgbPieces(d1: string, w1: string, d2: string, w2: string, d3: string)

  /** The pieces that `rgb\((\d+),\s*(\d+),\s*(\d+)\)` can match. */
  predicate WellFormed(p: RgbPieces)
  {
    && |p.d1| > 0 && AllDigits(p.d1)
    && |p.d2| > 0 && AllDigits(p.d2)
    && |p.d3| > 0 && AllDigits(p.d3)
    && AllSpace(p.w1) && AllSpace(p.w2)
  }

  /** The text between the parentheses that the pieces stand for. */
  function FieldsText(p: RgbPieces): string
  {
    p.d1 + "," + (p.w1 + (p.d2 + "," + (p.w2 + p.d3)))
  }

  /** The whole text the pieces stand for. */
  function RgbText(p: RgbPieces): string
  {
    "rgb(" + FieldsText(p) + ")"
  }

  /** Length of the longest run of digits at the start of `s`. */
  function DigitRun(s: string): (n: nat)
    ensures n <= |s| && AllDigits(s[..n])
    ensures n < |s| ==> !IsDigit(s[n])
  {
    if s != [] && IsDigit(s[0]) then 1 + DigitRun(s[1..]) else 0
  }

  /** Length of the longest run of `\s` characters at the start of `s`. */
  function SpaceRun(s: string): (n: nat)
    ensures n <= |s| && AllSpace(s[..n])
    ensures n < |s| ==> !IsSpace(s[n])
  {
    if s != [] && IsSpace(s[0]) then 1 + SpaceRun(s[1..]) else 0
  }

  /** `(\d+),` at the start of `u`: the digits and what follows the comma. */
  function TakeField(u: string): Option<(string, string)>
  {
    var n := DigitRun(u);
    if n == 0 || n == |u| || u[n] != ',' then None else Some((u[..n], u[n + 1..]))
  }

  /** `\s*` at the start of `u`: the spaces and what follows them. */
  function TakeSpace(u: string): (string, string)
  {
    var n := SpaceRun(u);
    (u[..n], u[n..])
  }

  /** Splits the text between `rgb(` and the final `)`. Digits, spaces and
      commas are disjoint classes, so the greedy split below is the only way
      the pattern can match. */
  function SplitFields(u: string): Option<RgbPieces>
  {
    match TakeField(u)
    case None => None
    case Some((d1, u2)) =>
      var (w1, u3) := TakeSpace(u2);
      match TakeField(u3)
      case None => None
      case Some((d2, u4)) =>
        var (w2, d3) := TakeSpace(u4);
        if d3 == [] || DigitRun(d3) != |d3| then None
        else Some(RgbPieces(d1, w1, d2, w2, d3))
  }

  /** Matches the whole of `t` against `rgb\((\d+),\s*(\d+),\s*(\d+)\)`. */
  function SplitRgb(t: string): Option<RgbPieces>
  {
    if |t| < 5 || t[..4] != "rgb(" || t[|t| - 1] != ')' then None
    else SplitFields(t[4..|t| - 1])
  }

  /** `parseColor`: the hex form is tried first, then the rgb form, else it throws. */
  function ParseColor(s: string): (r: Result<Rgb, Thrown>)
    ensures r.Err? ==> r.error == Exception(InvalidColorFormat)
    ensures r.Ok? <==> IsHexColor(Subject(s)) || SplitRgb(Subject(s)).Some?
  {
    var t := Subject(s);
    if IsHexColor(t) then
      Ok(Rgb(HexByte(t[1], t[2]), HexByte(t[3], t[4]), HexByte(t[5], t[6])))
    else
      match SplitRgb(t)
      case Some(p) =>
        SplitRgbSound(t);
        Ok(Rgb(IntCast(p.d1), IntCast(p.d2), IntCast(p.d3)))
      case None => Err(Exception(InvalidColorFormat))
  }

  // ---------------------------------------------------------------------
  // Properties of the parser

  /** A digit run followed by a non-digit is measured exactly. */
  lemma DigitRunOf(d: string, rest: string)
    requires AllDigits(d)
    requires rest == [] || !IsDigit(rest[0])
    ensures DigitRun(d + rest) == |d|
  {
    var s := d + rest;
    assert s[..|d|] == d;
    if |rest| > 0 {
      assert s[|d|] == rest[0];
    }
  }

  /** A space run followed by a non-space is measured exactly. */
  lemma SpaceRunOf(w: string, rest: string)
    requires AllSpace(w)
    requires rest == [] || !IsSpace(rest[0])
    ensures SpaceRun(w + rest) == |w|
  {
    var s := w + rest;
    assert s[..|w|] == w;
    if |rest| > 0 {
      assert s[|w|] == rest[0];
    }
  }

  lemma TakeFieldSound(u: string)
    ensures TakeField(u).Some? ==>
      var (d, r) := TakeField(u).value; |d| > 0 && AllDigits(d) && u == d + "," + r
  {
    if TakeField(u).Some? {
      var n := DigitRun(u);
      assert u == u[..n] + [u[n]] + u[n + 1..];
    }
  }

  lemma TakeFieldOf(d: string, rest: string)
    requires |d| > 0 && AllDigits(d)
    ensures TakeField(d + "," + rest) == Some((d, rest))
  {
    var u := d + "," + rest;
    assert u == d + ("," + rest);
    DigitRunOf(d, "," + rest);
    assert u[..|d|] == d && u[|d|] == ',' && u[|d| + 1..] == rest;
  }

  lemma TakeSpaceSound(u: string)
    ensures var (w, r) := TakeSpace(u); AllSpace(w) && u == w + r && (r == [] || !IsSpace(r[0]))
  {
    var n := SpaceRun(u);
    assert u == u[..n] + u[n..];
  }

  lemma TakeSpaceOf(w: string, rest: string)
    requires AllSpace(w)
    requires rest == [] || !IsSpace(rest[0])
    ensures TakeSpace(w + rest) == (w, rest)
  {
    SpaceRunOf(w, rest);
    var u := w + rest;
    assert u[..|w|] == w && u[|w|..] == rest;
  }

  lemma AllDigitsOfRun(d: string)
    requires DigitRun(d) == |d|
    ensures AllDigits(d)
  {
    assert d[..DigitRun(d)] == d;
  }

  lemma SplitFieldsSound(u: string)
    ensures SplitFields(u).Some? ==> WellFormed(SplitFields(u).value) && u == FieldsText(SplitFields(u).value)
  {
    if SplitFields(u).Some? {
      var p := SplitFields(u).value;
      TakeFieldSound(u);
      var u2 := TakeField(u).value.1;
      TakeSpaceSound(u2);
      var u3 := TakeSpace(u2).1;
      TakeFieldSound(u3);
      var u4 := TakeField(u3).value.1;
      TakeSpaceSound(u4);
      assert p.d1 == TakeField(u).value.0 && p.w1 == TakeSpace(u2).0;
      assert p.d2 == TakeField(u3).value.0 && p.w2 == TakeSpace(u4).0;
      assert p.d3 == TakeSpace(u4).1;
      AllDigitsOfRun(p.d3);
    }
  }

  lemma SplitFieldsComplete(p: RgbPieces)
    requires WellFormed(p)
    ensures SplitFields(FieldsText(p)) == Some(p)
  {
    var u4 := p.w2 + p.d3;
    var u3 := p.d2 + "," + u4;
    var u2 := p.w1 + u3;
    TakeFieldOf(p.d1, u2);
    TakeSpaceOf(p.w1, u3);
    TakeFieldOf(p.d2, u4);
    TakeSpaceOf(p.w2, p.d3);
    DigitRunOf(p.d3, []);
    assert p.d3 + [] == p.d3;
  }

  lemma RgbTextOf(t: string, p: RgbPieces)
    requires |t| >= 5 && t[..4] == "rgb(" && t[|t| - 1] == ')' && t[4..|t| - 1] == FieldsText(p)
    ensures t == RgbText(p)
  {
    assert t == t[..4] + t[4..|t| - 1] + [t[|t| - 1]];
  }

  /** Whatever the rgb matcher accepts is the text of well-formed pieces. */
  lemma SplitRgbSound(t: string)
    ensures SplitRgb(t).Some? ==> WellFormed(SplitRgb(t).value) && t == RgbText(SplitRgb(t).value)
  {
    if SplitRgb(t).Some? {
      var u := t[4..|t| - 1];
      assert SplitRgb(t) == SplitFields(u);
      SplitFieldsSound(u);
      RgbTextOf(t, SplitFields(u).value);
    }
  }

  /** The slices `SplitRgb` takes of a parenthesised text. */
  lemma WrappedSlices(u: string)
    ensures var t := "rgb(" + u + ")";
      |t| >= 5 && t[..4] == "rgb(" && t[|t| - 1] == ')' && t[4..|t| - 1] == u
  {
    var t := "rgb(" + u + ")";
    assert t[..4] == "rgb(";
    assert t[4..|t| - 1] == u;
  }

  /** Every well-formed rgb text is accepted and split back into its pieces. */
  lemma SplitRgbComplete(p: RgbPieces)
    requires WellFormed(p)
    ensures SplitRgb(RgbText(p)) == Some(p)
  {
    WrappedSlices(FieldsText(p));
    SplitFieldsComplete(p);
  }

  /** The rgb form yields the decimal values exactly as written: no clamping
      to 255 (only PHP's own integer limit applies). */
  lemma {:induction false} RgbExact(p: RgbPieces)
    requires WellFormed(p)
    requires DecimalValue(p.d1) <= PhpIntMax && DecimalValue(p.d2) <= PhpIntMax && DecimalValue(p.d3) <= PhpIntMax
    ensures ParseColor(RgbText(p)) == Ok(Rgb(DecimalValue(p.d1), DecimalValue(p.d2), DecimalValue(p.d3)))
  {
    var t := RgbText(p);
    assert t[0] == 'r';
    assert !IsHexColor(t);
    assert t[|t| - 1] == ')';
    assert Subject(t) == t;
    SplitRgbComplete(p);
  }

  /** `rgb(300, 0, 0)` parses to a red channel of 300. */
  lemma RgbNotClamped()
    ensures ParseColor("rgb(300, 0, 0)") == Ok(Rgb(300, 0, 0))
  {
    var p := RgbPieces("300", " ", "0", " ", "0");
    assert RgbText(p) == "rgb(300, 0, 0)";
    assert DecimalValue("300") == 300 by {
      assert "300"[..2] == "30" && "30"[..1] == "3" && "3"[..0] == "";
    }
    assert DecimalValue("0") == 0 by { assert "0"[..0] == ""; }
    RgbExact(p);
  }

  /** The hex form yields three values in [0, 255]. */
  lemma HexChannelsAreBytes(s: string)
    requires IsHexColor(Subject(s))
    ensures ParseColor(s).Ok?
    ensures 0 <= ParseColor(s).value.r <= 255
    ensures 0 <= ParseColor(s).value.g <= 255
    ensures 0 <= ParseColor(s).value.b <= 255
  {
  }

  /** A hex colour is its own subject and parses channel by channel. */
  lemma ParseHex(s: string)
    requires IsHexColor(s)
    ensures ParseColor(s) == Ok(Rgb(HexByte(s[1], s[2]), HexByte(s[3], s[4]), HexByte(s[5], s[6])))
  {
    assert IsHexDigit(s[6]);
    assert Subject(s) == s;
  }

  /** Hex digits that agree up to case have the same value. */
  lemma SameDigitValue(c: char, c': char)
    requires IsHexDigit(c) && ToLower(c) == ToLower(c')
    ensures IsHexDigit(c') && HexDigitValue(c') == HexDigitValue(c)
  {
  }

  /** Two hex colours that differ only in the case of their letters parse alike. */
  lemma HexCaseInsensitive(s: string, s': string)
    requires IsHexColor(s) && |s'| == |s|
    requires forall i :: 0 <= i < |s| ==> ToLower(s[i]) == ToLower(s'[i])
    ensures ParseColor(s') == ParseColor(s)
  {
    assert s'[0] == '#' by { assert ToLower(s'[0]) == '#'; }
    forall i | 1 <= i < 7
      ensures IsHexDigit(s'[i]) && HexDigitValue(s'[i]) == HexDigitValue(s[i])
    {
      SameDigitValue(s[i], s'[i]);
    }
    ParseHex(s);
    ParseHex(s');
  }

  /** The lower-case hex digit of a value below 16. */
  function HexChar(n: nat): (c: char)
    requires n < 16
    ensures IsHexDigit(c) && HexDigitValue(c) == n
  {
    if n < 10 then ('0' as int + n) as char else ('a' as int + n - 10) as char
  }

  /** `#rrggbb` of a colour whose channels are bytes. */
  function HexText(c: Rgb): (t: string)
    requires 0 <= c.r <= 255 && 0 <= c.g <= 255 && 0 <= c.b <= 255
    ensures IsHexColor(t)
  {
    ['#', HexChar(c.r / 16), HexChar(c.r % 16), HexChar(c.g / 16), HexChar(c.g % 16),
     HexChar(c.b / 16), HexChar(c.b % 16)]
  }

  /** Round trip: every byte triple printed as `#rrggbb` parses back to itself. */
  lemma HexRoundTrip(c: Rgb)
    requires 0 <= c.r <= 255 && 0 <= c.g <= 255 && 0 <= c.b <= 255
    ensures ParseColor(HexText(c)) == Ok(c)
  {
    var t := HexText(c);
    assert Subject(t) == t;
    assert HexByte(t[1], t[2]) == c.r;
    assert HexByte(t[3], t[4]) == c.g;
    assert HexByte(t[5], t[6]) == c.b;
  }

  /** One final line feed is tolerated, because of how PCRE's `$` matches. */
  lemma FinalNewlineTolerated(s: string)
    requires s == [] || s[|s| - 1] != '\n'
    ensures ParseColor(s + "\n") == ParseColor(s)
  {
    var s' := s + "\n";
    assert s'[..|s'| - 1] == s;
  }

  /** Strings of neither form throw 'Invalid color format'. */
  lemma RejectedExamples()
    ensures ParseColor("notacolor") == Err(Exception(InvalidColorFormat))
    ensures ParseColor("#fff") == Err(Exception(InvalidColorFormat))
    ensures ParseColor("ffffff") == Err(Exception(InvalidColorFormat))
    ensures ParseColor("rgb(1,2)") == Err(Exception(InvalidColorFormat))
  {
    assert "notacolor"[..4] != "rgb(" by { assert "notacolor"[0] == 'n'; }
    assert "rgb(1,2)"[4..7] == "1,2";
    assert DigitRun("2") == 1;
  }

  // ---------------------------------------------------------------------
  // Interpolation

  /** One channel of `interpolateColor`: `a + (b - a) * t`. */
  function Lerp(a: int, b: int, t: real): real
  {
    a as real + (b - a) as real * t
  }

  function ToReal(c: Rgb): RgbReal
  {
    RgbReal(c.r as real, c.g as real, c.b as real)
  }

  /** `interpolateColor`: each channel interpolated linearly by `ratio`; for
      a ratio in [0, 1] every channel lies between the two colours' channels. */
  function Interpolate(c1: Rgb, c2: Rgb, ratio: real): (c: RgbReal)
    ensures 0.0 <= ratio <= 1.0 ==>
      Between(c.r, c1.r, c2.r) && Between(c.g, c1.g, c2.g) && Between(c.b, c1.b, c2.b)
  {
    LerpBetween(c1.r, c2.r, ratio);
    LerpBetween(c1.g, c2.g, ratio);
    LerpBetween(c1.b, c2.b, ratio);
    RgbReal(Lerp(c1.r, c2.r, ratio), Lerp(c1.g, c2.g, ratio), Lerp(c1.b, c2.b, ratio))
  }

  /** Ratio 0 gives the first colour and ratio 1 the second. */
  lemma InterpolateEndpoints(c1: Rgb, c2: Rgb)
    ensures Interpolate(c1, c2, 0.0) == ToReal(c1)
    ensures Interpolate(c1, c2, 1.0) == ToReal(c2)
  {
  }

  /** Equal endpoints give that colour for every ratio. */
  lemma InterpolateSame(c: Rgb, ratio: real)
    ensures Interpolate(c, c, ratio) == ToReal(c)
  {
  }

  /** For a ratio in [0, 1] a channel lies between its two endpoints. */
  lemma LerpBetween(a: int, b: int, t: real)
    ensures 0.0 <= t <= 1.0 && a <= b ==> a as real <= Lerp(a, b, t) <= b as real
    ensures 0.0 <= t <= 1.0 && b <= a ==> b as real <= Lerp(a, b, t) <= a as real
  {
    var d := (b - a) as real;
    if t < 0.0 || t > 1.0 {
    } else if d >= 0.0 {
      assert 0.0 <= d * t <= d * 1.0;
    } else {
      assert d * 1.0 <= d * t <= 0.0;
    }
  }

  predicate Between(x: real, a: int, b: int)
  {
    (a as real <= x <= b as real) || (b as real <= x <= a as real)
  }

  /** A channel reaches its second endpoint only at ratio 1 (unless the endpoints agree). */
  lemma LerpReachesEndOnlyAtOne(a: int, b: int, t: real)
    requires a != b
    ensures Lerp(a, b, t) == b as real <==> t == 1.0
  {
    var d := (b - a) as real;
    assert Lerp(a, b, t) - b as real == d * (t - 1.0);
    if t != 1.0 {
      ProductNonZero(d, t - 1.0);
    }
  }

  lemma ProductNonZero(x: real, y: real)
    requires x != 0.0 && y != 0.0
    ensures x * y != 0.0
  {
    if x > 0.0 {
      if y > 0.0 { assert x * y > 0.0; } else { assert x * y < 0.0; }
    } else {
      if y > 0.0 { assert x * y < 0.0; } else { assert x * y > 0.0; }
    }
  }

  // ---------------------------------------------------------------------
  // The linear gradient's ratio

  /** `$x / $width` for a column of the canvas: it lies in [0, 1). */
  function LinearRatio(x: nat, width: nat): (t: real)
    requires x < width
    ensures 0.0 <= t < 1.0
  {
    x as real / width as real
  }

  /** The ratio strictly increases from column to column. */
  lemma LinearRatioIncreasing(x: nat, x': nat, width: nat)
    requires x < x' < width
    ensures LinearRatio(x, width) < LinearRatio(x', width)
  {
    var w := width as real;
    assert LinearRatio(x, width) * w == x as real;
    assert LinearRatio(x', width) * w == x' as real;
  }

  /** Because the ratio stays below 1, no column, not even the last, takes the
      second colour in a channel where the two colours differ. */
  lemma LinearNeverReachesColor2(c1: Rgb, c2: Rgb, x: nat, width: nat)
    requires x < width && c1.r != c2.r
    ensures Interpolate(c1, c2, LinearRatio(x, width)).r != c2.r as real
  {
    LerpReachesEndOnlyAtOne(c1.r, c2.r, LinearRatio(x, width));
  }
}
