/** Colour arithmetic of the marble renderer: a colour `#rrggbb` is read as a 24-bit
    number, each 8-bit channel is shifted by an amount and clamped to [0, 255], and the
    result is written back as `#` and six lower-case hex digits. The amount is the
    integer `Math.round(2.55 * amount * 100)` computes. */
module MarbleColors {

  /** The amount `draw` lightens by: `Math.round(2.55 * 0.4 * 100)`. */
  const HighlightAmount: int := 102
  /** The amount `draw` darkens by: `Math.round(2.55 * 0.2 * 100)`. */
  const OutlineAmount: int := 51

  predicate IsHexDigit(c: char) {
    ('0' <= c <= '9') || ('a' <= c <= 'f') || ('A' <= c <= 'F')
  }

  function DigitValue(c: char): (v: nat)
    requires IsHexDigit(c)
    ensures v < 16
  {
    if '0' <= c <= '9' then (c - '0') as nat
    else if 'a' <= c <= 'f' then (c - 'a') as nat + 10
    else (c - 'A') as nat + 10
  }

  /** The lower-case digit `Number.prototype.toString(16)` writes for `d`. */
  function Digit(d: nat): (c: char)
    requires d < 16
    ensures IsHexDigit(c) && DigitValue(c) == d
  {
    if d < 10 then ('0' as int + d) as char else ('a' as int + d - 10) as char
  }

  predicate IsHex(s: string) {
    forall i :: 0 <= i < |s| ==> IsHexDigit(s[i])
  }

  /** `#` followed by exactly six hex digits. */
  predicate IsHexColor(s: string) {
    |s| == 7 && s[0] == '#' && IsHex(s[1..])
  }

  /** `parseInt(s, 16)` for a string made only of hex digits. */
  function ParseHex(s: string): (r: nat)
    requires IsHex(s)
    ensures r < Pow16(|s|)
  {
    if s == [] then 0 else ParseHex(s[..|s| - 1]) * 16 + DigitValue(s[|s| - 1])
  }

  /** `n.toString(16)`: hex digits without leading zeros, "0" for zero. */
  function ToHex(n: nat): (s: string)
    ensures |s| >= 1 && IsHex(s)
  {
    if n < 16 then [Digit(n)] else ToHex(n / 16) + [Digit(n % 16)]
  }

  function Pow16(k: nat): (p: nat)
    ensures p >= 1
  {
    if k == 0 then 1 else 16 * Pow16(k - 1)
  }

  /** Reading back what `ToHex` writes gives the number again. */
  lemma {:induction false} ParseToHex(n: nat)
    ensures ParseHex(ToHex(n)) == n
  {
    if n >= 16 {
      ParseToHex(n / 16);
      var s := ToHex(n);
      assert s[..|s| - 1] == ToHex(n / 16);
    }
  }

  /** The leading hex digit of `n`. */
  function Lead(n: nat): (d: nat)
    ensures d < 16
  {
    if n < 16 then n else Lead(n / 16)
  }

  /** `ToHex` writes the leading digit first. */
  lemma {:induction false} ToHexFirst(n: nat)
    ensures ToHex(n)[0] == Digit(Lead(n))
  {
    if n >= 16 {
      ToHexFirst(n / 16);
    }
  }

  /** A number of `k + 1` hex digits is written with exactly `k + 1` digits. */
  lemma {:induction false} ToHexLength(n: nat, k: nat)
    requires Pow16(k) <= n < Pow16(k + 1)
    ensures |ToHex(n)| == k + 1
  {
    if k > 0 {
      ToHexLength(n / 16, k - 1);
    }
  }

  /** A `k + 1`-digit number below twice 16^k has leading digit 1. */
  lemma {:induction false} LeadOne(n: nat, k: nat)
    requires Pow16(k) <= n < 2 * Pow16(k)
    ensures Lead(n) == 1
  {
    if k > 0 {
      LeadOne(n / 16, k - 1);
    }
  }

  /** The value of a hex string is its first digit's value scaled by its place, plus
      the value of the rest. */
  lemma {:induction false} ParseHexFirst(s: string)
    requires |s| >= 1 && IsHex(s)
    ensures ParseHex(s) == DigitValue(s[0]) * Pow16(|s| - 1) + ParseHex(s[1..])
    decreases |s|
  {
    if |s| > 1 {
      var t := s[..|s| - 1];
      var last := DigitValue(s[|s| - 1]);
      ParseHexFirst(t);
      assert t[0] == s[0];
      assert s[1..][..|s[1..]| - 1] == t[1..];
      assert ParseHex(s) == ParseHex(t) * 16 + last;
      assert ParseHex(s[1..]) == ParseHex(t[1..]) * 16 + last;
      Shift(DigitValue(s[0]), ParseHex(t[1..]), last, Pow16(|t| - 1));
    }
  }

  /** One more digit on the right multiplies the leading place value by 16. */
  lemma Shift(d: int, rest: int, last: int, p: int)
    ensures (d * p + rest) * 16 + last == d * (16 * p) + (rest * 16 + last)
  {
  }

  // ---------------------------------------------------------------------------------
  // Channels

  /** The red, green and blue channels of a 24-bit colour: `num >> 16`,
      `num >> 8 & 0xFF` and `num & 0xFF`. */
  function Red(num: nat): (r: nat)
    ensures num < 0x1000000 ==> r < 0x100
  {
    num / 0x10000
  }

  function Green(num: nat): (r: nat)
    ensures r < 0x100
  {
    num / 0x100 % 0x100
  }

  function Blue(num: nat): (r: nat)
    ensures r < 0x100
  {
    num % 0x100
  }

  /** The three channels of a colour below 0x1000000 put back together give the colour. */
  lemma ChannelsRecompose(num: nat)
    requires num < 0x1000000
    ensures Red(num) * 0x10000 + Green(num) * 0x100 + Blue(num) == num
  {
    var q := num / 0x100;
    assert num == q * 0x100 + Blue(num);
    assert q == Red(num) * 0x100 + Green(num);
  }

  /** The clamp `lightenColor` writes: `c < 255 ? (c < 1 ? 0 : c) : 255`. */
  function LightClamp(c: int): (r: nat)
    ensures r <= 255
    ensures 0 <= c <= 255 ==> r == c
    ensures c < 0 ==> r == 0
    ensures c > 255 ==> r == 255
  {
    if c < 255 then (if c < 1 then 0 else c) else 255
  }

  /** The clamp `darkenColor` writes: `c > 255 ? 255 : (c < 0 ? 0 : c)`. */
  function DarkClamp(c: int): (r: nat)
    ensures r <= 255
    ensures 0 <= c <= 255 ==> r == c
    ensures c < 0 ==> r == 0
    ensures c > 255 ==> r == 255
  {
    if c > 255 then 255 else if c < 0 then 0 else c
  }

  /** `"#" + (0x1000000 + r * 0x10000 + g * 0x100 + b).toString(16).slice(1)`: a
      well-formed colour whose channels read back as `r`, `g` and `b`. */
  function Encode(r: nat, g: nat, b: nat): (s: string)
    requires r <= 255 && g <= 255 && b <= 255
    ensures IsHexColor(s)
    ensures Red(ParseHex(s[1..])) == r && Green(ParseHex(s[1..])) == g && Blue(ParseHex(s[1..])) == b
  {
    Channels(r, g, b);
    SliceDropsLeadingOne(r * 0x10000 + g * 0x100 + b);
    "#" + ToHex(0x1000000 + r * 0x10000 + g * 0x100 + b)[1..]
  }

  /** The channels of `r * 0x10000 + g * 0x100 + b` are `r`, `g` and `b`. */
  lemma Channels(r: nat, g: nat, b: nat)
    requires r <= 255 && g <= 255 && b <= 255
    ensures var v := r * 0x10000 + g * 0x100 + b;
      v < 0x1000000 && Red(v) == r && Green(v) == g && Blue(v) == b
  {
    var v := r * 0x10000 + g * 0x100 + b;
    assert v / 0x100 == r * 0x100 + g;
  }

  /** Adding `0x1000000` to a 24-bit number makes its hex form exactly seven digits
      long with a leading `1`, so dropping that first digit leaves six hex digits
      worth the number itself. */
  lemma SliceDropsLeadingOne(v: nat)
    requires v < 0x1000000
    ensures var t := ToHex(0x1000000 + v);
      |t| == 7 && ParseHex(t[1..]) == v
  {
    var n := 0x1000000 + v;
    assert Pow16(6) == 0x1000000 && Pow16(7) == 0x10000000;
    ToHexLength(n, 6);
    LeadOne(n, 6);
    var t := ToHex(n);
    ToHexFirst(n);
    ParseToHex(n);
    ParseHexFirst(t);
    assert DigitValue(t[0]) == 1;
  }

  /** `lightenColor(color, amount)` with `amt` the rounded amount. */
  function LightenColor(color: string, amt: int): (s: string)
    requires IsHexColor(color)
    ensures IsHexColor(s)
  {
    Lighten(ParseHex(color[1..]), amt)
  }

  /** Lightening the colour numbered `num`: every channel is shifted up by `amt` and
      clamped to [0, 255]. */
  function Lighten(num: nat, amt: int): (s: string)
    ensures IsHexColor(s)
    ensures var out := ParseHex(s[1..]);
      && Red(out) == LightClamp(Red(num) + amt)
      && Green(out) == LightClamp(Green(num) + amt)
      && Blue(out) == LightClamp(Blue(num) + amt)
  {
    Encode(LightClamp(Red(num) + amt), LightClamp(Green(num) + amt), LightClamp(Blue(num) + amt))
  }

  /** `darkenColor(color, amount)` with `amt` the rounded amount. */
  function DarkenColor(color: string, amt: int): (s: string)
    requires IsHexColor(color)
    ensures IsHexColor(s)
  {
    Darken(ParseHex(color[1..]), amt)
  }

  /** Darkening the colour numbered `num`: every channel is shifted down by `amt` and
      clamped to [0, 255]. */
  function Darken(num: nat, amt: int): (s: string)
    ensures IsHexColor(s)
    ensures var out := ParseHex(s[1..]);
      && Red(out) == DarkClamp(Red(num) - amt)
      && Green(out) == DarkClamp(Green(num) - amt)
      && Blue(out) == DarkClamp(Blue(num) - amt)
  {
    Encode(DarkClamp(Red(num) - amt), DarkClamp(Green(num) - amt), DarkClamp(Blue(num) - amt))
  }

  /** The channels of a well-formed colour are each at most 255. */
  lemma ChannelsInRange(color: string)
    requires IsHexColor(color)
    ensures var num := ParseHex(color[1..]);
      num < 0x1000000 && Red(num) <= 255
  {
    assert Pow16(6) == 0x1000000;
  }

  /** With a non-negative amount, lightening a colour makes no channel darker. */
  lemma LightenNeverDarker(color: string, amt: int)
    requires IsHexColor(color) && amt >= 0
    ensures var num := ParseHex(color[1..]);
      var out := ParseHex(LightenColor(color, amt)[1..]);
      Red(out) >= Red(num) && Green(out) >= Green(num) && Blue(out) >= Blue(num)
  {
    var num := ParseHex(color[1..]);
    ChannelsInRange(color);
    assert LightenColor(color, amt) == Lighten(num, amt);
  }

  /** With a non-negative amount, darkening a colour makes no channel lighter. */
  lemma DarkenNeverLighter(color: string, amt: int)
    requires IsHexColor(color) && amt >= 0
    ensures var num := ParseHex(color[1..]);
      var out := ParseHex(DarkenColor(color, amt)[1..]);
      Red(out) <= Red(num) && Green(out) <= Green(num) && Blue(out) <= Blue(num)
  {
    var num := ParseHex(color[1..]);
    assert DarkenColor(color, amt) == Darken(num, amt);
  }

  /** The two clamps, written differently, agree on every input. */
  lemma ClampsAgree(c: int)
    ensures LightClamp(c) == DarkClamp(c)
  {
  }
}
