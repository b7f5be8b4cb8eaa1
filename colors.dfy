/** Colours as the interface passes them around: a red/green/blue triple, the
    text of three entry boxes, and the `#rrggbb` strings Tk understands
    (`rgb_tk`, `hex_to_rgb` and the acceptance test of the hex entry box). */
module Colors {
  import opened Common
  import opened Strings
  import Numbers

  datatype Channel = R | G | B

  /** The channel keys in the order every colour dictionary lists them. */
  const Channels: seq<Channel> := [R, G, B]

  /** Every channel is one of the three keys, so a loop over `Channels` covers them all. */
  lemma ChannelsComplete(c: Channel)
    ensures c == Channels[0] || c == Channels[1] || c == Channels[2]
  {
  }

  datatype RGB = RGB(r: int, g: int, b: int) {
    function Get(c: Channel): int {
      match c
      case R => r
      case G => g
      case B => b
    }

    function Set(c: Channel, v: int): (t: RGB)
      ensures t.Get(c) == v
      ensures forall e :: e != c ==> t.Get(e) == Get(e)
    {
      match c
      case R => this.(r := v)
      case G => this.(g := v)
      case B => this.(b := v)
    }

    predicate InByteRange() {
      0 <= r < 256 && 0 <= g < 256 && 0 <= b < 256
    }
  }

  /** Two triples that agree on every channel are equal. */
  lemma RGBExt(x: RGB, y: RGB)
    requires forall c :: x.Get(c) == y.Get(c)
    ensures x == y
  {
    assert x.Get(R) == y.Get(R) && x.Get(G) == y.Get(G) && x.Get(B) == y.Get(B);
  }

  /** The text held by the three `StringVar`s of one colour. */
  datatype ColorText = ColorText(r: string, g: string, b: string) {
    function Get(c: Channel): string {
      match c
      case R => r
      case G => g
      case B => b
    }

    function Set(c: Channel, s: string): (t: ColorText)
      ensures t.Get(c) == s
      ensures forall e :: e != c ==> t.Get(e) == Get(e)
    {
      match c
      case R => this.(r := s)
      case G => this.(g := s)
      case B => this.(b := s)
    }
  }

  predicate IsHexDigit(c: char) {
    '0' <= c <= '9' || 'a' <= c <= 'f' || 'A' <= c <= 'F'
  }

  predicate IsLowerHexDigit(c: char) {
    '0' <= c <= '9' || 'a' <= c <= 'f'
  }

  predicate AllHex(s: string) {
    forall i :: 0 <= i < |s| ==> IsHexDigit(s[i])
  }

  function HexValue(c: char): (v: nat)
    requires IsHexDigit(c)
    ensures v < 16
  {
    if '0' <= c <= '9' then (c as int) - ('0' as int)
    else if 'a' <= c <= 'f' then (c as int) - ('a' as int) + 10
    else (c as int) - ('A' as int) + 10
  }

  /** The lower-case digit `%x` prints for `d`. */
  function HexDigit(d: nat): (c: char)
    requires d < 16
    ensures IsLowerHexDigit(c) && IsHexDigit(c) && HexValue(c) == d
  {
    if d < 10 then ('0' as int + d) as char else ('a' as int + d - 10) as char
  }

  /** The value of a run of hex digits. */
  function HexDigitsValue(s: string): nat
    requires AllHex(s)
  {
    if s == [] then 0 else 16 * HexDigitsValue(s[..|s| - 1]) + HexValue(s[|s| - 1])
  }

  /** `'%x' % n` for a natural number. */
  function HexString(n: nat): (s: string)
    ensures s != [] && AllHex(s) && HexDigitsValue(s) == n
    ensures forall i :: 0 <= i < |s| ==> IsLowerHexDigit(s[i])
  {
    if n < 16 then [HexDigit(n)]
    else
      var init := HexString(n / 16);
      var s := init + [HexDigit(n % 16)];
      assert s[..|s| - 1] == init;
      s
  }

  /** `'%02x' % n`: at least two characters, zero-padded; a negative number
      keeps its sign (`'%02x' % -1 == '-1'`). */
  function Format02x(n: int): string {
    if n < 0 then "-" + HexString(-n)
    else
      var h := HexString(n);
      if |h| < 2 then "0" + h else h
  }

  /** `rgb_tk`: the Tk colour string `"#%02x%02x%02x"` of an integer triple. */
  function RgbTk(c: RGB): string {
    "#" + Format02x(c.r) + Format02x(c.g) + Format02x(c.b)
  }

  /** `rgb_tk` on the text of three boxes: each is read with `float()` and
      rounded before it is printed; text that is not a number raises
      `ValueError`. */
  function RgbTkOfText(t: ColorText): (r: Result<string>)
    ensures r.Err? <==> (Numbers.ParseFloat(t.r).None? || Numbers.ParseFloat(t.g).None?
                         || Numbers.ParseFloat(t.b).None?)
    ensures r.Err? ==> r.error == ValueError
  {
    match (Numbers.ParseFloat(t.r), Numbers.ParseFloat(t.g), Numbers.ParseFloat(t.b))
    case (Some(x), Some(y), Some(z)) =>
      Ok(RgbTk(RGB(Numbers.Round(x), Numbers.Round(y), Numbers.Round(z))))
    case _ => Err(ValueError)
  }

  /** Boxes holding the decimal text of integers print as those integers. */
  lemma RgbTkOfIntText(c: RGB)
    ensures RgbTkOfText(ColorText(Numbers.IntToString(c.r), Numbers.IntToString(c.g),
                                  Numbers.IntToString(c.b))) == Ok(RgbTk(c))
  {
    Numbers.ParseFloatIntToString(c.r);
    Numbers.ParseFloatIntToString(c.g);
    Numbers.ParseFloatIntToString(c.b);
  }

  /** The colour `RgbTkOfText` prints decodes back to the three rounded box
      values, when they are bytes. */
  lemma RgbTkOfTextHex(t: ColorText)
    requires RgbTkOfText(t).Ok?
    requires RGB(Numbers.Round(Numbers.ParseFloat(t.r).value), Numbers.Round(Numbers.ParseFloat(t.g).value),
                 Numbers.Round(Numbers.ParseFloat(t.b).value)).InByteRange()
    ensures HexToRgb(RgbTkOfText(t).value)
         == Ok([Numbers.Round(Numbers.ParseFloat(t.r).value), Numbers.Round(Numbers.ParseFloat(t.g).value),
                Numbers.Round(Numbers.ParseFloat(t.b).value)])
  {
    var c := RGB(Numbers.Round(Numbers.ParseFloat(t.r).value), Numbers.Round(Numbers.ParseFloat(t.g).value),
                 Numbers.Round(Numbers.ParseFloat(t.b).value));
    assert RgbTkOfText(t) == Ok(RgbTk(c));
    HexToRgbOfRgbTk(c);
  }

  /** A byte is printed as exactly two lower-case digits, high nibble first. */
  lemma Format02xByte(n: int)
    requires 0 <= n < 256
    ensures Format02x(n) == [HexDigit(n / 16), HexDigit(n % 16)]
  {
    if n >= 16 {
      assert HexString(n / 16) == [HexDigit(n / 16)];
    }
  }

  /** For channels in 0..255, `rgb_tk` gives `#` and six lower-case hex digits,
      two per channel in the order red, green, blue. */
  lemma RgbTkShape(c: RGB)
    requires c.InByteRange()
    ensures |RgbTk(c)| == 7 && RgbTk(c)[0] == '#'
    ensures forall i :: 1 <= i < 7 ==> IsLowerHexDigit(RgbTk(c)[i])
    ensures RgbTk(c)[1..] == [HexDigit(c.r / 16), HexDigit(c.r % 16),
                              HexDigit(c.g / 16), HexDigit(c.g % 16),
                              HexDigit(c.b / 16), HexDigit(c.b % 16)]
  {
    Format02xByte(c.r);
    Format02xByte(c.g);
    Format02xByte(c.b);
  }

  /** `s.strip('#')`: every leading and trailing `#` removed. */
  function StripHash(s: string): (t: string)
    ensures |t| <= |s|
    decreases |s|
  {
    if s == [] then s
    else if s[0] == '#' then StripHash(s[1..])
    else if s[|s| - 1] == '#' then StripHash(s[..|s| - 1])
    else s
  }

  /** `int(s, 16)` on a run of hex digits; `None` is the `ValueError` case. */
  function ParseHex(s: string): Option<nat> {
    if s != [] && AllHex(s) then Some(HexDigitsValue(s)) else None
  }

  /** The chunks `h[i:i+step]` for `i` in `range(0, len(h), step)`, each parsed
      with `int(chunk, 16)`; the last chunk may be shorter. */
  function HexChunks(h: string, step: nat): Result<seq<int>>
    requires step > 0
    decreases |h|
  {
    if h == [] then Ok([])
    else
      var k := if step < |h| then step else |h|;
      match ParseHex(h[..k])
      case None => Err(ValueError)
      case Some(v) =>
        match HexChunks(h[k..], step)
        case Err(e) => Err(e)
        case Ok(rest) => Ok([v] + rest)
  }

  /** `hex_to_rgb`: strip the `#`s, cut the rest into chunks a third of its length
      long and parse each one. A string of fewer than three characters makes the
      step of `range` zero, which raises `ValueError`. */
  function HexToRgb(hexstr: string): Result<seq<int>> {
    var h := StripHash(hexstr);
    var step := |h| / 3;
    if step == 0 then Err(ValueError) else HexChunks(h, step)
  }

  /** One full chunk followed by exactly `rest` chunks. */
  lemma HexChunksStep(h: string, step: nat, v: nat, rest: seq<int>)
    requires 0 < step <= |h| && ParseHex(h[..step]) == Some(v)
    requires HexChunks(h[step..], step) == Ok(rest)
    ensures HexChunks(h, step) == Ok([v] + rest)
  {
  }

  lemma StripHashLeading(s: string)
    requires s != [] && s[0] != '#' && s[|s| - 1] != '#'
    ensures StripHash("#" + s) == s
  {
    assert ("#" + s)[1..] == s;
  }

  /** The two digits `rgb_tk` prints for a byte parse back to it. */
  lemma ParseHexByte(n: int)
    requires 0 <= n < 256
    ensures ParseHex([HexDigit(n / 16), HexDigit(n % 16)]) == Some(n)
  {
    var s := [HexDigit(n / 16), HexDigit(n % 16)];
    assert s[..1] == [HexDigit(n / 16)];
    assert s[..1][..0] == [];
    assert HexDigitsValue(s[..1]) == n / 16;
    assert HexDigitsValue(s) == 16 * (n / 16) + n % 16;
  }

  /** `hex_to_rgb` inverts `rgb_tk` on every triple of bytes. */
  lemma HexToRgbOfRgbTk(c: RGB)
    requires c.InByteRange()
    ensures HexToRgb(RgbTk(c)) == Ok([c.r, c.g, c.b])
  {
    RgbTkShape(c);
    var digits := RgbTk(c)[1..];
    assert RgbTk(c) == "#" + digits;
    StripHashLeading(digits);
    ParseHexByte(c.r);
    ParseHexByte(c.g);
    ParseHexByte(c.b);
    var d1, d2, d3 := digits, digits[2..], digits[4..];
    assert d1[..2] == [HexDigit(c.r / 16), HexDigit(c.r % 16)];
    assert d2[..2] == [HexDigit(c.g / 16), HexDigit(c.g % 16)];
    assert d3[..2] == [HexDigit(c.b / 16), HexDigit(c.b % 16)];
    assert d1[2..] == d2 && d2[2..] == d3 && d3[2..] == [];
    assert HexChunks(d3[2..], 2) == Ok([]);
    HexChunksStep(d3, 2, c.b, []);
    assert [c.b] + [] == [c.b];
    HexChunksStep(d2, 2, c.g, [c.b]);
    assert [c.g] + [c.b] == [c.g, c.b];
    HexChunksStep(d1, 2, c.r, [c.g, c.b]);
    assert [c.r] + [c.g, c.b] == [c.r, c.g, c.b];
  }

  /** On the short form `#abc`, `hex_to_rgb` parses each digit on its own: the
      channels lie in 0..15 and the digits are not doubled. */
  lemma HexToRgbShortForm(s: string)
    requires |s| == 4 && s[0] == '#' && AllHex(s[1..])
    ensures HexToRgb(s) == Ok([HexValue(s[1]), HexValue(s[2]), HexValue(s[3])])
    ensures forall v :: v in HexToRgb(s).value ==> 0 <= v < 16
  {
    var d := s[1..];
    assert s == "#" + d;
    assert d[0] != '#' && d[2] != '#';
    StripHashLeading(d);
    var d1, d2, d3 := d, d[1..], d[2..];
    assert d1[..1] == [s[1]] && d2[..1] == [s[2]] && d3[..1] == [s[3]];
    assert d1[1..] == d2 && d2[1..] == d3 && d3[1..] == [];
    assert forall t: string :: |t| == 1 && AllHex(t) ==> HexDigitsValue(t) == HexValue(t[0]) by {
      forall t: string | |t| == 1 && AllHex(t) ensures HexDigitsValue(t) == HexValue(t[0]) {
        assert t[..0] == [];
      }
    }
    assert HexChunks(d3[1..], 1) == Ok([]);
    var v1, v2, v3 := HexValue(s[1]), HexValue(s[2]), HexValue(s[3]);
    HexChunksStep(d3, 1, v3, []);
    assert [v3] + [] == [v3];
    HexChunksStep(d2, 1, v2, [v3]);
    assert [v2] + [v3] == [v2, v3];
    HexChunksStep(d1, 1, v1, [v2, v3]);
    assert [v1] + [v2, v3] == [v1, v2, v3];
  }

  /** `re.search('^#([A-Fa-f0-9]{6}|[A-Fa-f0-9]{3})$', s) is not None`. Python's
      `$` also matches just before a final newline. */
  predicate HexPatternMatches(s: string) {
    |s| >= 1 && s[0] == '#' && (HexRun(s[1..], 6) || HexRun(s[1..], 3))
  }

  /** `k` hex digits followed by the end of the string, or by a final newline. */
  predicate HexRun(t: string, k: nat) {
    |t| >= k && AllHex(t[..k]) && (|t| == k || (|t| == k + 1 && t[k] == '\n'))
  }

  /** The acceptance test of `set_from_hex`: a `#` somewhere, length 7 or 4, and
      the pattern above. */
  predicate HexAccepted(s: string) {
    '#' in s && (|s| == 7 || |s| == 4) && HexPatternMatches(s)
  }

  /** The length test rules out the newline that `$` lets through, so the entry
      box accepts exactly `#` followed by six or three hex digits. */
  lemma HexAcceptedIff(s: string)
    ensures HexAccepted(s) <==> (|s| == 7 || |s| == 4) && s[0] == '#' && AllHex(s[1..])
  {
    if (|s| == 7 || |s| == 4) && s[0] == '#' && AllHex(s[1..]) {
      assert s[1..][..|s| - 1] == s[1..];
      assert HexRun(s[1..], |s| - 1);
    }
    if HexAccepted(s) {
      if HexRun(s[1..], 6) {
        assert |s| == 7 && s[1..][..6] == s[1..];
      } else {
        assert HexRun(s[1..], 3);
        assert |s| == 4 && s[1..][..3] == s[1..];
      }
    }
  }
}
