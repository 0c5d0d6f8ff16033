/** Conversions between the RGB and the HSL model of section 7 of CSS Color Module Level 4,
    as the framework computes them, over exact reals. */
module Color {
  import opened Basics

  datatype Rgba = Rgba(r: real, g: real, b: real, a: real)

  datatype Hsla = Hsla(h: real, s: real, l: real, a: real)

  function Abs(x: real): real { if x < 0.0 then -x else x }

  function Clamp01(x: real): real { if x < 0.0 then 0.0 else if x > 1.0 then 1.0 else x }

  function Trunc(x: real): int { if x >= 0.0 then x.Floor else -((-x).Floor) }

  /** The remainder of dividing by two, with the sign of the dividend. */
  function Rem2(x: real): real { x - 2.0 * Trunc(x / 2.0) as real }

  /** The non-negative remainder of dividing by six. */
  function RemEuclid6(x: real): real { x - 6.0 * (x / 6.0).Floor as real }

  /** Chroma, the second largest component above the smallest, and the smallest. */
  function Chroma(l: real, s: real): real { Width(l) * s }

  /** The largest chroma at a lightness. */
  function Width(l: real): real { 1.0 - Abs(2.0 * l - 1.0) }

  function Second(c: real, h6: real): real { c * (1.0 - Abs(Rem2(h6) - 1.0)) }

  function Sector(h6: real, cm: real, xm: real, m: real): (real, real, real) {
    var k := h6.Floor;
    if k == 0 || k == 6 then (cm, xm, m)
    else if k == 1 then (xm, cm, m)
    else if k == 2 then (m, cm, xm)
    else if k == 3 then (m, xm, cm)
    else if k == 4 then (xm, m, cm)
    else (cm, m, xm)
  }

  function ToRgb(color: Hsla): Rgba {
    var c := Chroma(color.l, color.s);
    var x := Second(c, color.h * 6.0);
    var m := color.l - c / 2.0;
    var (r, g, b) := Sector(color.h * 6.0, c + m, x + m, m);
    Rgba(Clamp01(r), Clamp01(g), Clamp01(b), color.a)
  }

  function Saturation(delta: real, l: real): real {
    if l == 0.0 || l == 1.0 then 0.0
    else if l < 0.5 then delta / (2.0 * l)
    else delta / (2.0 - 2.0 * l)
  }

  /** Six times the hue. */
  function Hue6(r: real, g: real, b: real, max: real, delta: real): real {
    if delta == 0.0 then 0.0
    else if max == r then RemEuclid6((g - b) / delta)
    else if max == g then (b - r) / delta + 2.0
    else (r - g) / delta + 4.0
  }

  function ToHsl(color: Rgba): Hsla {
    var max := MaxR(color.r, MaxR(color.g, color.b));
    var min := MinR(color.r, MinR(color.g, color.b));
    var delta := max - min;
    var l := (max + min) / 2.0;
    Hsla(Hue6(color.r, color.g, color.b, max, delta) / 6.0, Saturation(delta, l), l, color.a)
  }

  predicate InUnit(x: real) { 0.0 <= x <= 1.0 }

  // ---- Remainders ----

  lemma FloorIs(x: real, k: int)
    requires k as real <= x < k as real + 1.0
    ensures x.Floor == k
  {
  }

  lemma Rem2Is(x: real, k: nat)
    requires 2.0 * k as real <= x < 2.0 * k as real + 2.0
    ensures Rem2(x) == x - 2.0 * k as real
  {
    FloorIs(x / 2.0, k);
  }

  lemma RemEuclid6Is(x: real)
    ensures 0.0 <= x < 6.0 ==> RemEuclid6(x) == x
    ensures -6.0 <= x < 0.0 ==> RemEuclid6(x) == x + 6.0
  {
  }

  /** The triangle wave of the hue within its pair of sectors. */
  lemma SecondIs(c: real, h6: real, k: nat)
    requires 2.0 * k as real <= h6 < 2.0 * k as real + 2.0
    ensures var f := h6 - 2.0 * k as real;
            Second(c, h6) == if f <= 1.0 then c * f else c * (2.0 - f)
  {
    Rem2Is(h6, k);
  }

  lemma Quotient(n: real, d: real)
    requires d > 0.0
    ensures (n / d) * d == n
    ensures 0.0 <= n <= d ==> 0.0 <= n / d <= 1.0
    ensures -d <= n <= 0.0 ==> -1.0 <= n / d <= 0.0
    ensures n < d ==> n / d < 1.0
    ensures -d < n ==> -1.0 < n / d
    ensures n < 0.0 ==> n / d < 0.0
    ensures 0.0 <= n ==> 0.0 <= n / d
  {
  }

  // ---- RGB to HSL and back ----

  /** Chroma undoes saturation. */
  lemma ChromaOfSaturation(max: real, min: real)
    requires 0.0 <= min <= max <= 1.0
    ensures var l := (max + min) / 2.0;
            Chroma(l, Saturation(max - min, l)) == max - min && InUnit(Saturation(max - min, l))
  {
    var l, d := (max + min) / 2.0, max - min;
    if l != 0.0 && l != 1.0 {
      assert 0.0 <= d <= Width(l) && 0.0 < Width(l);
      SaturationByWidth(d, l);
      hide Width, Saturation;
      Quotient(d, Width(l));
      Commutes(Width(l), d / Width(l));
    }
  }

  lemma SaturationByWidth(d: real, l: real)
    requires 0.0 < l < 1.0
    ensures Width(l) > 0.0 && Saturation(d, l) == d / Width(l)
  {
    assert Width(l) == if l < 0.5 then 2.0 * l else 2.0 - 2.0 * l;
    hide Width;
  }

  /** The hue leads back to the sector and the second component it came from. */
  lemma SectorOfHue(r: real, g: real, b: real)
    ensures var max, min := MaxR(r, MaxR(g, b)), MinR(r, MinR(g, b));
            var d := max - min;
            d > 0.0 ==>
              var h6 := Hue6(r, g, b, max, d);
              0.0 <= h6 < 6.0 && Sector(h6, max, Second(d, h6) + min, min) == (r, g, b)
  {
    var max, min := MaxR(r, MaxR(g, b)), MinR(r, MinR(g, b));
    var d := max - min;
    if d > 0.0 {
      if max == r {
        RedHue(r, g, b, min);
      } else if max == g {
        GreenHue(r, g, b, min);
      } else {
        BlueHue(r, g, b, min);
      }
    }
  }

  /** The second component of the hue `n / d`, in the sectors next to `2 * k`. */
  lemma SecondOfQuotient(n: real, d: real, k: nat) returns (t: real)
    requires 0.0 < d && -d <= n <= d
    ensures t == n / d && -1.0 <= t <= 1.0 && (t < 0.0 <==> n < 0.0)
    ensures n < d ==> t < 1.0
    ensures -d < n ==> -1.0 < t
    ensures n >= 0.0 ==> Second(d, t + 2.0 * k as real) == n
    ensures n < 0.0 ==> Second(d, t + 2.0 * k as real + 2.0) == -n
  {
    t := n / d;
    Quotient(n, d);
    if n >= 0.0 {
      SecondRises(d, t, k);
      Commutes(d, t);
    } else {
      SecondFalls(d, t, k);
      Commutes(d, t);
    }
  }

  lemma Commutes(x: real, y: real)
    ensures x * y == y * x
    ensures x * -y == -(y * x)
  {
  }

  lemma SecondRises(d: real, t: real, k: nat)
    requires 0.0 <= t <= 1.0
    ensures Second(d, t + 2.0 * k as real) == d * t
  {
    SecondIs(d, t + 2.0 * k as real, k);
  }

  lemma SecondFalls(d: real, t: real, k: nat)
    requires -1.0 <= t < 0.0
    ensures Second(d, t + 2.0 * k as real + 2.0) == d * -t
  {
    SecondIs(d, t + 2.0 * k as real + 2.0, k);
    hide Second;
    var f := t + 2.0 * k as real + 2.0 - 2.0 * k as real;
    assert f == t + 2.0;
    assert f <= 1.0 ==> t == -1.0;
  }

  lemma RedHue(r: real, g: real, b: real, min: real)
    requires min < r && min <= g <= r && min <= b <= r && (g == min || b == min)
    ensures var h6 := RemEuclid6((g - b) / (r - min));
            0.0 <= h6 < 6.0 && Sector(h6, r, Second(r - min, h6) + min, min) == (r, g, b)
  {
    var t := SecondOfQuotient(g - b, r - min, if g < b then 2 else 0);
    RemEuclid6Is(t);
    hide RemEuclid6, Sector, Second;
    RedSector(r, g, b, min, t);
  }

  lemma RedSector(r: real, g: real, b: real, min: real, t: real)
    requires min < r && min <= g <= r && min <= b <= r && (g == min || b == min)
    requires -1.0 <= t <= 1.0 && (t < 0.0 <==> g < b) && (t == 1.0 ==> g == r)
    ensures t < 0.0 ==> Sector(t + 6.0, r, b - g + min, min) == (r, g, b)
    ensures t >= 0.0 ==> Sector(t, r, g - b + min, min) == (r, g, b)
  {
    if t < 0.0 {
      FloorIs(t + 6.0, 5);
    } else if t < 1.0 {
      FloorIs(t, 0);
    } else {
      FloorIs(t, 1);
    }
  }

  lemma GreenHue(r: real, g: real, b: real, min: real)
    requires min < g && min <= r < g && min <= b <= g && (r == min || b == min)
    ensures var h6 := (b - r) / (g - min) + 2.0;
            0.0 <= h6 < 6.0 && Sector(h6, g, Second(g - min, h6) + min, min) == (r, g, b)
  {
    var t := SecondOfQuotient(b - r, g - min, if b < r then 0 else 1);
    hide Sector, Second;
    GreenSector(r, g, b, min, t);
  }

  lemma GreenSector(r: real, g: real, b: real, min: real, t: real)
    requires min < g && min <= r < g && min <= b <= g && (r == min || b == min)
    requires -1.0 < t <= 1.0 && (t < 0.0 <==> b < r) && (t == 1.0 ==> b == g)
    ensures Sector(t + 2.0, g, (if b < r then r - b else b - r) + min, min) == (r, g, b)
  {
    if t < 0.0 {
      FloorIs(t + 2.0, 1);
    } else if t < 1.0 {
      FloorIs(t + 2.0, 2);
    } else {
      FloorIs(t + 2.0, 3);
    }
  }

  lemma BlueHue(r: real, g: real, b: real, min: real)
    requires min < b && min <= r < b && min <= g < b && (r == min || g == min)
    ensures var h6 := (r - g) / (b - min) + 4.0;
            0.0 <= h6 < 6.0 && Sector(h6, b, Second(b - min, h6) + min, min) == (r, g, b)
  {
    var t := SecondOfQuotient(r - g, b - min, if r < g then 1 else 2);
    hide Sector, Second;
    BlueSector(r, g, b, min, t);
  }

  lemma BlueSector(r: real, g: real, b: real, min: real, t: real)
    requires min < b && min <= r < b && min <= g < b && (r == min || g == min)
    requires -1.0 < t < 1.0 && (t < 0.0 <==> r < g)
    ensures Sector(t + 4.0, b, (if r < g then g - r else r - g) + min, min) == (r, g, b)
  {
    if t < 0.0 {
      FloorIs(t + 4.0, 3);
    } else {
      FloorIs(t + 4.0, 4);
    }
  }

  /** On all of the unit cube, going to HSL and back is the identity. */
  lemma RgbRoundTrip(color: Rgba)
    requires InUnit(color.r) && InUnit(color.g) && InUnit(color.b)
    ensures ToRgb(ToHsl(color)) == color
    ensures var hsl := ToHsl(color); 0.0 <= hsl.h < 1.0 && InUnit(hsl.s) && InUnit(hsl.l)
  {
    hide Hue6, Second, Sector, Saturation, Chroma;
    var Rgba(r, g, b, a) := color;
    var max, min := MaxR(r, MaxR(g, b)), MinR(r, MinR(g, b));
    var d, l := max - min, (max + min) / 2.0;
    var h6 := Hue6(r, g, b, max, d);
    ChromaOfSaturation(max, min);
    assert l - d / 2.0 == min;
    assert h6 / 6.0 * 6.0 == h6;
    if d == 0.0 {
      GreyHue(r, g, b, l);
    } else {
      SectorOfHue(r, g, b);
    }
  }

  lemma GreyHue(r: real, g: real, b: real, l: real)
    requires r == g == b == l
    ensures Hue6(r, g, b, r, 0.0) == 0.0 && Sector(0.0, 0.0 + l, Second(0.0, 0.0) + l, l) == (r, g, b)
  {
  }

  // ---- HSL to RGB and back ----

  /** Saturation undoes chroma. */
  lemma SaturationOfChroma(l: real, s: real)
    requires 0.0 < l < 1.0 && 0.0 < s <= 1.0
    ensures var c := Chroma(l, s);
            var m := l - c / 2.0;
            0.0 < c && 0.0 <= m && c + m <= 1.0 && Saturation(c, l) == s
  {
    assert Width(l) == (if l < 0.5 then 2.0 * l else 2.0 - 2.0 * l);
    var c := ChromaByWidth(l, s);
    hide Chroma, Width;
  }

  lemma ChromaByWidth(l: real, s: real) returns (c: real)
    requires 0.0 < s <= 1.0 && Width(l) > 0.0
    ensures c == Chroma(l, s) && 0.0 < c <= Width(l) && c / Width(l) == s
  {
    Part(Width(l), s, Chroma(l, s));
    hide Width, Chroma;
    c := Chroma(l, s);
  }

  lemma SecondInRange(c: real, h6: real)
    requires 0.0 < c && 0.0 <= h6 < 6.0
    ensures 0.0 <= Second(c, h6) <= c
  {
    var k: nat := if h6 < 2.0 then 0 else if h6 < 4.0 then 1 else 2;
    var x := SecondByQuotient(c, h6, k);
  }

  lemma Scaled(c: real, f: real)
    requires c > 0.0
    ensures 0.0 <= f <= 1.0 ==> 0.0 <= c * f <= c
    ensures (c * f) / c == f
    ensures f < 1.0 ==> c * f < c
    ensures f > 0.0 ==> c * f > 0.0
  {
  }

  lemma HueEven(c: real, f: real, x: real, m: real)
    requires 0.0 < c && 0.0 <= f < 1.0 && 0.0 <= x < c && x / c == f
    ensures Hue6(c + m, x + m, m, c + m, c) == f
    ensures Hue6(m, c + m, x + m, c + m, c) == f + 2.0
    ensures Hue6(x + m, m, c + m, c + m, c) == f + 4.0
  {
  }

  lemma HueOdd(c: real, f: real, x: real, m: real)
    requires 0.0 < c && 1.0 <= f < 2.0 && 0.0 < x <= c && x / c == 2.0 - f && (x == c ==> f == 1.0)
    ensures Hue6(x + m, c + m, m, c + m, c) == f
    ensures Hue6(m, x + m, c + m, c + m, c) == f + 2.0
    ensures Hue6(c + m, m, x + m, c + m, c) == f + 4.0
  {
  }

  /** The sector and the second component lead back to the hue. */
  lemma HueOfSector(c: real, h6: real, m: real)
    requires 0.0 < c && 0.0 <= h6 < 6.0
    ensures var (r, g, b) := Sector(h6, c + m, Second(c, h6) + m, m);
            && MaxR(r, MaxR(g, b)) == c + m && MinR(r, MinR(g, b)) == m
            && Hue6(r, g, b, c + m, c) == h6
  {
    var k: nat := if h6 < 2.0 then 0 else if h6 < 4.0 then 1 else 2;
    var f := h6 - 2.0 * k as real;
    var x := SecondByQuotient(c, h6, k);
    FloorIs(h6, if f < 1.0 then 2 * k else 2 * k + 1);
    hide Hue6, Second, Hue6, RemEuclid6, Rem2;
    if f < 1.0 {
      HueEven(c, f, x, m);
    } else {
      HueOdd(c, f, x, m);
    }
  }

  lemma SecondByQuotient(c: real, h6: real, k: nat) returns (x: real)
    requires 0.0 < c && 2.0 * k as real <= h6 < 2.0 * k as real + 2.0
    ensures var f := h6 - 2.0 * k as real;
            && x == Second(c, h6) && 0.0 <= x <= c
            && x / c == (if f <= 1.0 then f else 2.0 - f)
            && (f < 1.0 ==> x < c) && (f >= 1.0 ==> 0.0 < x && (x == c ==> f == 1.0))
  {
    hide Second;
    var f := h6 - 2.0 * k as real;
    x := Second(c, h6);
    if f <= 1.0 {
      SecondRises(c, f, k);
      Part(c, f, x);
    } else {
      SecondFalls(c, f - 2.0, k);
      Part(c, 2.0 - f, x);
    }
  }

  lemma Part(c: real, f: real, x: real)
    requires 0.0 < c && 0.0 <= f <= 1.0 && x == c * f
    ensures 0.0 <= x <= c && x / c == f && (f < 1.0 ==> x < c) && (0.0 < f ==> 0.0 < x)
  {
    Scaled(c, f);
  }

  lemma ProperRoundTrip(color: Hsla)
    requires 0.0 <= color.h < 1.0 && 0.0 < color.s <= 1.0 && 0.0 < color.l < 1.0
    ensures ToHsl(ToRgb(color)) == color
  {
    hide Hue6, Second, Sector, Saturation, Chroma;
    var Hsla(h, s, l, a) := color;
    var c := Chroma(l, s);
    var m := l - c / 2.0;
    SaturationOfChroma(l, s);
    HueOfSector(c, h * 6.0, m);
    assert (c + m + m) / 2.0 == l;
    SectorInUnit(c, h * 6.0, m);
  }

  /** Going to RGB and back is the identity for proper colours; and over the whole HSL cube it
      is so exactly for those and for greys that already have no hue and no saturation. */
  lemma HslRoundTrip(color: Hsla)
    requires 0.0 <= color.h < 1.0 && InUnit(color.s) && InUnit(color.l)
    ensures ToHsl(ToRgb(color)) == color <==>
            (0.0 < color.s && 0.0 < color.l < 1.0) || (color.s == 0.0 && color.h == 0.0)
  {
    hide ToHsl, ToRgb;
    if 0.0 < color.s && 0.0 < color.l < 1.0 {
      ProperRoundTrip(color);
    } else {
      GreyRoundTrip(color);
    }
  }

  /** Without saturation, or at black and white, only the lightness survives. */
  lemma GreyRoundTrip(color: Hsla)
    requires 0.0 <= color.h < 1.0 && InUnit(color.s) && InUnit(color.l)
    requires color.s == 0.0 || color.l == 0.0 || color.l == 1.0
    ensures ToHsl(ToRgb(color)) == Hsla(0.0, 0.0, color.l, color.a)
  {
    hide Second, Chroma, Sector, ToHsl, Hue6, Saturation;
    var l, h6 := color.l, color.h * 6.0;
    NoChroma(l, color.s);
    NoSecond(h6);
    FlatSector(h6, l);
    assert ToRgb(color) == Rgba(l, l, l, color.a);
    GreyToHsl(l, color.a);
  }

  lemma NoChroma(l: real, s: real)
    requires s == 0.0 || l == 0.0 || l == 1.0
    ensures Chroma(l, s) == 0.0
  {
    assert l == 0.0 || l == 1.0 ==> Width(l) == 0.0;
  }

  lemma NoSecond(h6: real)
    ensures Second(0.0, h6) == 0.0
  {
    hide Rem2;
  }

  lemma FlatSector(h6: real, l: real)
    ensures Sector(h6, 0.0 + (l - 0.0 / 2.0), 0.0 + (l - 0.0 / 2.0), l - 0.0 / 2.0) == (l, l, l)
  {
  }

  lemma GreyToHsl(l: real, a: real)
    ensures ToHsl(Rgba(l, l, l, a)) == Hsla(0.0, 0.0, l, a)
  {
  }

  lemma SectorInUnit(c: real, h6: real, m: real)
    requires 0.0 < c && 0.0 <= h6 < 6.0 && 0.0 <= m && c + m <= 1.0
    ensures var (r, g, b) := Sector(h6, c + m, Second(c, h6) + m, m);
            InUnit(r) && InUnit(g) && InUnit(b)
  {
    hide Second;
    SecondInRange(c, h6);
  }

  // ---- The algorithm of the standard ----

  function Mod12(x: real): real { x - 12.0 * (x / 12.0).Floor as real }

  function Wave(k: real): real { MaxR(-1.0, MinR(k - 3.0, MinR(9.0 - k, 1.0))) }

  /** One component as the sample code in section 7.1 of CSS Color Module Level 4 computes it from
      hue, saturation and lightness; `n` is 0 for red, 8 for green and 4 for blue. */
  function CssComponent(color: Hsla, n: real): real {
    var a := color.s * MinR(color.l, 1.0 - color.l);
    color.l - a * Wave(Mod12(n + color.h * 12.0))
  }

  /** Where within its pair of sectors the hue is: 0 at the ends and 1 in the middle. */
  function Triangle(h6: real): real { 1.0 - Abs(Rem2(h6) - 1.0) }

  lemma Mod12Is(x: real, k: nat)
    requires 12.0 * k as real <= x < 12.0 * k as real + 12.0
    ensures Mod12(x) == x - 12.0 * k as real
  {
    FloorIs(x / 12.0, k);
  }

  /** The waves of the three components, sector by sector. */
  lemma CssWaves(h6: real)
    requires 0.0 <= h6 < 6.0
    ensures (Wave(Mod12(0.0 + 2.0 * h6)), Wave(Mod12(8.0 + 2.0 * h6)), Wave(Mod12(4.0 + 2.0 * h6))) ==
            Sector(h6, -1.0, 1.0 - 2.0 * Triangle(h6), 1.0)
  {
    Rem2Is(h6, if h6 < 2.0 then 0 else if h6 < 4.0 then 1 else 2);
    Mod12Is(0.0 + 2.0 * h6, 0);
    Mod12Is(8.0 + 2.0 * h6, if h6 < 2.0 then 0 else 1);
    Mod12Is(4.0 + 2.0 * h6, if h6 < 4.0 then 0 else 1);
    hide Mod12, Rem2;
    if h6 < 1.0 { FloorIs(h6, 0); }
    else if h6 < 2.0 { FloorIs(h6, 1); }
    else if h6 < 3.0 { FloorIs(h6, 2); }
    else if h6 < 4.0 { FloorIs(h6, 3); }
    else if h6 < 5.0 { FloorIs(h6, 4); }
    else { FloorIs(h6, 5); }
  }

  /** The three levels of a colour, in terms of its half chroma. */
  lemma CssLevels(l: real, s: real, h6: real)
    requires 0.0 <= l <= 1.0 && 0.0 <= s <= 1.0 && 0.0 <= h6 < 6.0
    ensures var a, c := s * MinR(l, 1.0 - l), Chroma(l, s);
            && c == 2.0 * a && 0.0 <= a <= l && l + a <= 1.0
            && Second(c, h6) == a + a * (2.0 * Triangle(h6) - 1.0) && 0.0 <= Second(c, h6) <= c
  {
    var a := s * MinR(l, 1.0 - l);
    HalfChroma(l, s, a);
    SecondBySplit(a, h6);
  }

  lemma HalfChroma(l: real, s: real, a: real)
    requires 0.0 <= l <= 1.0 && 0.0 <= s <= 1.0 && a == s * MinR(l, 1.0 - l)
    ensures Chroma(l, s) == 2.0 * a && 0.0 <= a <= l && l + a <= 1.0
  {
    HalfWidth(l);
    HalfOf(Width(l), MinR(l, 1.0 - l), s, a);
    hide Width, MinR;
  }

  lemma HalfOf(width: real, w: real, s: real, a: real)
    requires 0.0 <= w && 0.0 <= s <= 1.0 && width == 2.0 * w && a == s * w
    ensures width * s == 2.0 * a && 0.0 <= a <= w
  {
    PartOf(w, s);
    TwiceProduct(w, s);
  }

  lemma HalfWidth(l: real)
    requires 0.0 <= l <= 1.0
    ensures var w := MinR(l, 1.0 - l); Width(l) == 2.0 * w && 0.0 <= w <= l && w <= 1.0 - l
  {
  }

  lemma TwiceProduct(w: real, s: real)
    ensures (2.0 * w) * s == 2.0 * (s * w)
  {
  }

  lemma PartOf(w: real, s: real)
    requires 0.0 <= w && 0.0 <= s <= 1.0
    ensures 0.0 <= s * w <= w
  {
  }

  lemma SecondBySplit(a: real, h6: real)
    requires 0.0 <= a && 0.0 <= h6 < 6.0
    ensures Second(2.0 * a, h6) == a + a * (2.0 * Triangle(h6) - 1.0) && 0.0 <= Second(2.0 * a, h6) <= 2.0 * a
  {
    var t := Triangle(h6);
    Rem2Is(h6, if h6 < 2.0 then 0 else if h6 < 4.0 then 1 else 2);
    assert Second(2.0 * a, h6) == (2.0 * a) * t && 0.0 <= t <= 1.0;
    hide Second, Triangle, Rem2;
    TwiceProduct(a, t);
    PartOf(a, t);
    SplitProduct(a, t);
  }

  lemma SplitProduct(a: real, t: real)
    ensures a * (2.0 * t - 1.0) == 2.0 * (t * a) - a
  {
  }

  function Level(l: real, a: real, w: real): real { l - a * w }

  lemma OuterLevels(l: real, a: real)
    ensures Level(l, a, -1.0) == l + a && Level(l, a, 1.0) == l - a
  {
  }

  /** A sector of levels is the levels of the sector of waves. */
  lemma SectorOfLevels(h6: real, l: real, a: real, y: real)
    ensures var (r, g, b) := Sector(h6, -1.0, y, 1.0);
            Sector(h6, l + a, Level(l, a, y), l - a) == (Level(l, a, r), Level(l, a, g), Level(l, a, b))
  {
    OuterLevels(l, a);
    hide Level;
  }

  lemma NegatedProduct(x: real, y: real)
    ensures x * -y == -(x * y)
  {
  }

  lemma Negated(a: real, t: real)
    ensures a * (1.0 - 2.0 * t) == -(a * (2.0 * t - 1.0))
  {
    var y := 2.0 * t - 1.0;
    NegatedProduct(a, y);
    assert 1.0 - 2.0 * t == -y;
  }

  lemma CssComponents(color: Hsla, h6: real, a: real)
    requires h6 == color.h * 6.0 && a == color.s * MinR(color.l, 1.0 - color.l)
    ensures CssComponent(color, 0.0) == Level(color.l, a, Wave(Mod12(0.0 + 2.0 * h6)))
    ensures CssComponent(color, 8.0) == Level(color.l, a, Wave(Mod12(8.0 + 2.0 * h6)))
    ensures CssComponent(color, 4.0) == Level(color.l, a, Wave(Mod12(4.0 + 2.0 * h6)))
  {
    hide Wave, Mod12, MinR;
    assert color.h * 12.0 == 2.0 * h6;
  }

  /** The conversion, in terms of its three levels. */
  lemma ToRgbByLevels(color: Hsla, h6: real, cm: real, xm: real, m: real)
    requires h6 == color.h * 6.0 && m == color.l - Chroma(color.l, color.s) / 2.0
    requires cm == Chroma(color.l, color.s) + m && xm == Second(Chroma(color.l, color.s), h6) + m
    requires InUnit(cm) && InUnit(xm) && InUnit(m)
    ensures var (r, g, b) := Sector(h6, cm, xm, m); ToRgb(color) == Rgba(r, g, b, color.a)
  {
    hide Chroma, Second, Sector;
    LevelsInUnit(h6, cm, xm, m);
  }

  /** The conversion computes exactly what the standard's algorithm does. */
  lemma ToRgbIsCss(color: Hsla)
    requires 0.0 <= color.h < 1.0 && InUnit(color.s) && InUnit(color.l)
    ensures ToRgb(color) ==
            Rgba(CssComponent(color, 0.0), CssComponent(color, 8.0), CssComponent(color, 4.0), color.a)
  {
    hide ToRgb, CssComponent, Chroma, Second, Triangle, Wave, Mod12, Sector, MinR;
    var h6, l := color.h * 6.0, color.l;
    var a, y := color.s * MinR(l, 1.0 - l), 1.0 - 2.0 * Triangle(h6);
    CssLevels(l, color.s, h6);
    Negated(a, Triangle(h6));
    ToRgbByLevels(color, h6, l + a, Level(l, a, y), l - a);
    CssWaves(h6);
    SectorOfLevels(h6, l, a, y);
    CssComponents(color, h6, a);
  }

  lemma LevelsInUnit(h6: real, cm: real, xm: real, m: real)
    requires InUnit(cm) && InUnit(xm) && InUnit(m)
    ensures var (r, g, b) := Sector(h6, cm, xm, m); Clamp01(r) == r && Clamp01(g) == g && Clamp01(b) == b
  {
  }
}
