/** The colour-scheme tab: the colour dictionary of gradient stops, the stop and
    total-colour sliders, and the operations that rotate, reverse, edit, save and
    load the dictionary. Widgets are reduced to the values they hold. */
module ColorSchemeTab {
  import opened Common
  import opened Colors
  import Numbers

  /** The colour dictionary: three channel lists, indexed by stop. */
  datatype ColorDict = ColorDict(r: seq<int>, g: seq<int>, b: seq<int>) {
    function Get(c: Channel): seq<int> {
      match c
      case R => r
      case G => g
      case B => b
    }

    function Set(c: Channel, s: seq<int>): (d: ColorDict)
      ensures d.Get(c) == s
      ensures forall e :: e != c ==> d.Get(e) == Get(e)
    {
      match c
      case R => this.(r := s)
      case G => this.(g := s)
      case B => this.(b := s)
    }

    predicate EqualLengths() {
      |r| == |g| == |b|
    }

    /** The number of stops every channel has. */
    function MinLength(): (n: nat)
      ensures forall c :: n <= |Get(c)|
      ensures n == |r| || n == |g| || n == |b|
    {
      if |r| <= |g| && |r| <= |b| then |r|
      else if |g| <= |b| then |g|
      else |b|
    }
  }

  /** Two dictionaries that agree on every channel are equal. */
  lemma ColorDictExt(d: ColorDict, e: ColorDict)
    requires forall c :: d.Get(c) == e.Get(c)
    ensures d == e
  {
    assert d.Get(R) == e.Get(R) && d.Get(G) == e.Get(G) && d.Get(B) == e.Get(B);
  }

  /** The rainbow palette the tab starts with and resets to. */
  function DefaultColors(): (d: ColorDict)
    ensures d.EqualLengths() && |d.r| == 11
    ensures forall c, i :: 0 <= i < 11 ==> 0 <= d.Get(c)[i] < 256
  {
    ColorDict([255, 255, 255, 220, 75, 3, 3, 30, 125, 220, 255],
              [0, 150, 255, 255, 255, 255, 145, 3, 3, 3, 0],
              [0, 0, 0, 3, 3, 240, 255, 255, 255, 255, 0])
  }

  /** The saved form of a colour scheme. */
  datatype ColorRecord = ColorRecord(
    background: ColorText,
    totalcolors: int,
    nstops: int,
    colordict: ColorDict,
    id: Option<string>)

  // ----- Rotation -----------------------------------------------------------

  /** `s` rotated by `interval` places: entry `i` is the entry that stood at
      `(i - interval) mod n` (Python's `%`, which is never negative here). */
  function Rotated(s: seq<int>, interval: int): (t: seq<int>)
    ensures |t| == |s|
  {
    seq(|s|, i requires 0 <= i < |s| => s[(i - interval) % |s|])
  }

  function RotatedDict(d: ColorDict, interval: int): ColorDict {
    ColorDict(Rotated(d.r, interval), Rotated(d.g, interval), Rotated(d.b, interval))
  }

  lemma RotatedDictGet(d: ColorDict, interval: int, c: Channel)
    ensures RotatedDict(d, interval).Get(c) == Rotated(d.Get(c), interval)
  {
  }

  /** The direction of one step of the position slider: back when its value went
      down, forward otherwise. */
  function ShiftInterval(amt: int, prev: int): (interval: int)
    ensures interval == -1 || interval == 1
    ensures interval == -1 <==> amt < prev
  {
    if amt < prev then -1 else 1
  }

  /** An index already inside the channel is its own remainder. */
  lemma ModInRange(x: int, n: int)
    requires 0 <= x < n
    ensures x % n == x
  {
  }

  /** The two indices one step outside the channel wrap to its other end. */
  lemma ModWrap(x: int, n: int)
    requires 0 < n
    ensures x == -1 ==> x % n == n - 1
    ensures x == n ==> x % n == 0
  {
  }

  /** A step forward moves the last stop to the front; a step back moves the
      first stop to the end. */
  lemma RotatedOneStep(s: seq<int>)
    requires s != []
    ensures Rotated(s, 1) == [s[|s| - 1]] + s[..|s| - 1]
    ensures Rotated(s, -1) == s[1..] + [s[0]]
  {
    var n := |s|;
    var fwd := [s[n - 1]] + s[..n - 1];
    var back := s[1..] + [s[0]];
    forall i | 0 <= i < n ensures Rotated(s, 1)[i] == fwd[i] {
      if i == 0 { ModWrap(i - 1, n); } else { ModInRange(i - 1, n); }
    }
    forall i | 0 <= i < n ensures Rotated(s, -1)[i] == back[i] {
      if i == n - 1 { ModWrap(i + 1, n); } else { ModInRange(i + 1, n); }
    }
  }

  /** A one-step rotation is a permutation of the stops. */
  lemma RotatedIsPermutation(s: seq<int>, interval: int)
    requires interval == 1 || interval == -1
    ensures multiset(Rotated(s, interval)) == multiset(s)
  {
    if s != [] {
      RotatedOneStep(s);
      assert s == s[..|s| - 1] + [s[|s| - 1]];
      assert s == [s[0]] + s[1..];
    }
  }

  /** A step back undoes a step forward and the other way round. */
  lemma RotatedInverse(s: seq<int>, interval: int)
    requires interval == 1 || interval == -1
    ensures Rotated(Rotated(s, interval), -interval) == s
  {
    var n := |s|;
    var t := Rotated(s, interval);
    forall i | 0 <= i < n ensures Rotated(t, -interval)[i] == s[i] {
      var j := (i + interval) % n;
      assert Rotated(t, -interval)[i] == t[j];
      assert (j - interval) % n == i by {
        if interval == 1 {
          if i == n - 1 { ModWrap(i + 1, n); ModWrap(-1, n); } else { ModInRange(i + 1, n); ModInRange(i, n); }
        } else {
          if i == 0 { ModWrap(-1, n); ModWrap(n, n); } else { ModInRange(i - 1, n); ModInRange(i, n); }
        }
      }
    }
  }

  /** Moving the position slider up and then down again restores the dictionary. */
  lemma {:induction false} ShiftThereAndBack(d: ColorDict, prev: int, up: int, down: int)
    requires prev <= up && down < up
    ensures RotatedDict(RotatedDict(d, ShiftInterval(up, prev)), ShiftInterval(down, up)) == d
  {
    RotatedInverse(d.r, 1);
    RotatedInverse(d.g, 1);
    RotatedInverse(d.b, 1);
  }

  /** A shift keeps every channel's stops, only reordered, and so its length. */
  lemma {:induction false} ShiftPermutesChannels(d: ColorDict, amt: int, prev: int, c: Channel)
    ensures multiset(RotatedDict(d, ShiftInterval(amt, prev)).Get(c)) == multiset(d.Get(c))
    ensures |RotatedDict(d, ShiftInterval(amt, prev)).Get(c)| == |d.Get(c)|
  {
    RotatedIsPermutation(d.Get(c), ShiftInterval(amt, prev));
  }

  /** The inner loop of `shift_color` for one channel: every entry of the copy
      `dst` is overwritten from the unmodified list `src`. */
  method RotationPass(src: seq<int>, dst: seq<int>, interval: int) returns (out: seq<int>)
    requires |dst| == |src|
    ensures out == Rotated(src, interval)
  {
    out := dst;
    for i := 0 to |out|
      invariant |out| == |src|
      invariant forall j :: 0 <= j < i ==> out[j] == src[(j - interval) % |src|]
    {
      var ind := (i - interval) % |out|;
      out := out[i := src[ind]];
    }
  }

  /** The dictionary after a loop over the channel keys has dealt with the first
      `k` of them: those channels come from `done`, the others from `rest`. */
  function FirstChannels(done: ColorDict, rest: ColorDict, k: nat): ColorDict {
    ColorDict(if k > 0 then done.r else rest.r, if k > 1 then done.g else rest.g,
              if k > 2 then done.b else rest.b)
  }

  /** The loop over the channel keys inside one pass of `shift_color`. */
  method RotateChannels(src: ColorDict, dst: ColorDict, interval: int) returns (out: ColorDict)
    requires forall c :: |dst.Get(c)| == |src.Get(c)|
    ensures out == RotatedDict(src, interval)
  {
    out := dst;
    for k := 0 to |Channels|
      invariant out == FirstChannels(RotatedDict(src, interval), dst, k)
    {
      var c := Channels[k];
      var s := RotationPass(src.Get(c), out.Get(c), interval);
      out := out.Set(c, s);
    }
  }

  // ----- Reversal -----------------------------------------------------------

  /** `s` in reverse order: entry `i` is `s[-i - 1]`, that is `s[n - 1 - i]`. */
  function Reversed(s: seq<int>): (t: seq<int>)
    ensures |t| == |s|
  {
    seq(|s|, i requires 0 <= i < |s| => s[|s| - 1 - i])
  }

  function ReversedDict(d: ColorDict): ColorDict {
    ColorDict(Reversed(d.r), Reversed(d.g), Reversed(d.b))
  }

  /** Reversing twice restores every channel, so the dictionary. */
  lemma ReversedDictInvolution(d: ColorDict)
    ensures ReversedDict(ReversedDict(d)) == d
  {
    forall c ensures Reversed(Reversed(d.Get(c))) == d.Get(c) {
      var s := d.Get(c);
      assert forall i :: 0 <= i < |s| ==> Reversed(Reversed(s))[i] == s[i];
    }
    assert Reversed(Reversed(d.r)) == d.r;
    assert Reversed(Reversed(d.g)) == d.g;
    assert Reversed(Reversed(d.b)) == d.b;
  }

  /** Reversal is a permutation of the stops. */
  lemma {:induction false} ReversedIsPermutation(s: seq<int>)
    ensures multiset(Reversed(s)) == multiset(s)
  {
    if s != [] {
      ReversedIsPermutation(s[1..]);
      assert Reversed(s) == Reversed(s[1..]) + [s[0]];
      assert s == [s[0]] + s[1..];
    }
  }

  /** A reversal keeps every channel's stops, only reordered. */
  lemma {:induction false} ReversePermutesChannels(d: ColorDict, c: Channel)
    ensures multiset(ReversedDict(d).Get(c)) == multiset(d.Get(c))
  {
    ReversedIsPermutation(d.Get(c));
  }

  /** The inner loop of `reverse_color_order` for one channel. */
  method ReversalPass(src: seq<int>, dst: seq<int>) returns (out: seq<int>)
    requires |dst| == |src|
    ensures out == Reversed(src)
  {
    out := dst;
    for i := 0 to |out|
      invariant |out| == |src|
      invariant forall j :: 0 <= j < i ==> out[j] == src[|src| - 1 - j]
    {
      out := out[i := src[|src| - 1 - i]];
    }
  }

  /** The loop over the channel keys of `reverse_color_order`. */
  method ReverseChannels(src: ColorDict, dst: ColorDict) returns (out: ColorDict)
    requires forall c :: |dst.Get(c)| == |src.Get(c)|
    ensures out == ReversedDict(src)
  {
    out := dst;
    for k := 0 to |Channels|
      invariant out == FirstChannels(ReversedDict(src), dst, k)
    {
      var c := Channels[k];
      var s := ReversalPass(src.Get(c), out.Get(c));
      out := out.Set(c, s);
    }
  }

  // ----- Truncation and comparison ------------------------------------------

  /** `t` is the first entries of `s`, as many as Python's `s[:n]` keeps. */
  predicate IsPythonPrefix(t: seq<int>, s: seq<int>, n: int) {
    |t| <= |s| && t == s[..|t|]
    && (0 <= n ==> |t| == (if n < |s| then n else |s|))
    && (n < 0 ==> |t| == (if |s| + n < 0 then 0 else |s| + n))
  }

  /** Python's `s[:n]`: the first `n` entries, all of them when `n` is too large,
      and all but the last `-n` when `n` is negative. */
  function SliceTo(s: seq<int>, n: int): (t: seq<int>)
    ensures IsPythonPrefix(t, s, n)
  {
    if n >= |s| then s
    else if n >= 0 then s[..n]
    else if |s| + n < 0 then []
    else s[..|s| + n]
  }

  /** `all(s.count(x) == ref.count(x) for x in s)`. */
  predicate CountsMatch(s: seq<int>, ref: seq<int>) {
    forall i :: 0 <= i < |s| ==> multiset(s)[s[i]] == multiset(ref)[s[i]]
  }

  /** Every stop a matching channel holds occurs in the reference list. */
  lemma CountsMatchMembers(s: seq<int>, ref: seq<int>)
    requires CountsMatch(s, ref)
    ensures forall i :: 0 <= i < |s| ==> s[i] in ref
  {
    forall i | 0 <= i < |s| ensures s[i] in ref {
      assert s[i] in multiset(s);
    }
  }

  /** A reordering of the reference list matches it. */
  lemma CountsMatchSame(s: seq<int>, ref: seq<int>)
    ensures multiset(s) == multiset(ref) ==> CountsMatch(s, ref)
  {
  }

  /** Every stop of each channel of `d` occurs in that channel of `ref`. */
  predicate ChannelsWithin(d: ColorDict, ref: ColorDict) {
    (forall i :: 0 <= i < |d.r| ==> d.r[i] in ref.r)
    && (forall i :: 0 <= i < |d.g| ==> d.g[i] in ref.g)
    && (forall i :: 0 <= i < |d.b| ==> d.b[i] in ref.b)
  }

  /** Each channel of `d` matches the same channel of `ref` in its counts. */
  function ChannelsMatch(d: ColorDict, ref: ColorDict): (b: bool)
    ensures (multiset(d.r) == multiset(ref.r) && multiset(d.g) == multiset(ref.g)
             && multiset(d.b) == multiset(ref.b)) ==> b
    ensures b ==> ChannelsWithin(d, ref)
  {
    CountsMatchSame(d.r, ref.r);
    CountsMatchSame(d.g, ref.g);
    CountsMatchSame(d.b, ref.b);
    var b := CountsMatch(d.r, ref.r) && CountsMatch(d.g, ref.g) && CountsMatch(d.b, ref.b);
    if b then
      CountsMatchMembers(d.r, ref.r);
      CountsMatchMembers(d.g, ref.g);
      CountsMatchMembers(d.b, ref.b);
      b
    else b
  }

  /** `is_default_colors` as written: both sides of every comparison are bound to
      the tab's own channel, so the test cannot fail. */
  function IsDefaultColorsAsWritten(d: ColorDict): (b: bool)
    ensures b
  {
    CountsMatch(d.r, d.r) && CountsMatch(d.g, d.g) && CountsMatch(d.b, d.b)
  }

  /** The test the names `def_r`, `def_g`, `def_b` call for: each channel
      compared with the default palette. A palette equal to the default up to the
      order of its stops passes. */
  function IsDefaultColorsIntended(d: ColorDict): (b: bool)
    ensures (multiset(d.r) == multiset(DefaultColors().r) && multiset(d.g) == multiset(DefaultColors().g)
             && multiset(d.b) == multiset(DefaultColors().b)) ==> b
    ensures b ==> ChannelsWithin(d, DefaultColors())
  {
    ChannelsMatch(d, DefaultColors())
  }

  /** The discrepancy: an all-black single stop is reported as the default palette
      by the code as written, and not by the intended test. */
  lemma IsDefaultColorsDiscrepancy()
    ensures IsDefaultColorsAsWritten(ColorDict([0], [0], [0]))
    ensures !IsDefaultColorsIntended(ColorDict([0], [0], [0]))
  {
    var d := ColorDict([0], [0], [0]);
    assert multiset(DefaultColors().r)[0] == 0 by {
      assert 0 !in DefaultColors().r;
    }
    assert d.r[0] == 0;
  }

  /** What refreshing the boxes or swatches of the first `nboxes` stops raises:
      `IndexError` exactly when some channel has fewer stops than that. */
  function BoxesOutcome(d: ColorDict, nboxes: nat): (o: Outcome)
    ensures o == Done <==> forall c :: nboxes <= |d.Get(c)|
    ensures o == Done || o == Raised(IndexError)
  {
    if d.MinLength() < nboxes then
      assert d.MinLength() == |d.Get(R)| || d.MinLength() == |d.Get(G)| || d.MinLength() == |d.Get(B)|;
      Raised(IndexError)
    else Done
  }

  // ----- The tab ------------------------------------------------------------

  class ColorSchemeTab {
    var colordict: ColorDict
    var totalcolors: int     // the "Total Colors" slider
    var colorstops: int      // the "Number of Stops" slider
    var colorShift: int      // the "Shift Position" slider
    var previousshift: int
    var hueShift: int        // the "Shift Hue" slider
    var previoushue: int
    var background: ColorText
    var name: Option<string>
    var nboxes: nat          // the stops that currently have entry boxes

    /** The state `__init__` leaves: the default palette, 100 colours, 11 stops, a
        black background and no name. The boxes rendered later by the stop
        slider's command are not counted here. */
    constructor ()
      ensures colordict == DefaultColors() && totalcolors == 100 && colorstops == 11
      ensures colorShift == 0 && previousshift == 0 && hueShift == 0 && previoushue == 0
      ensures background == ColorText("0", "0", "0") && name == None && nboxes == 0
    {
      colordict := DefaultColors();
      totalcolors := 100;
      colorstops := 11;
      colorShift := 0;
      previousshift := 0;
      hueShift := 0;
      previoushue := 0;
      background := ColorText("0", "0", "0");
      name := None;
      nboxes := 0;
    }

    /** `currentcolors`: every channel cut to its first `colorstops` stops. The
        stored dictionary is only read. */
    function CurrentColors(): (c: ColorDict)
      reads this
      ensures forall ch :: IsPythonPrefix(c.Get(ch), colordict.Get(ch), colorstops)
    {
      ColorDict(SliceTo(colordict.r, colorstops), SliceTo(colordict.g, colorstops),
                SliceTo(colordict.b, colorstops))
    }

    /** `is_default_colors`, comparing with the default palette as its names
        intend (see `IsDefaultColorsAsWritten` for the code as it stands): a
        reordering of the palette passes, and a stop the palette lacks fails. */
    function IsDefaultColors(): (b: bool)
      reads this
      ensures (multiset(colordict.r) == multiset(DefaultColors().r)
               && multiset(colordict.g) == multiset(DefaultColors().g)
               && multiset(colordict.b) == multiset(DefaultColors().b)) ==> b
      ensures b ==> ChannelsWithin(colordict, DefaultColors())
    {
      IsDefaultColorsIntended(colordict)
    }

    /** `check_ratio_tot`, the command of the total-colour slider: the stop count
        comes down to the new total when it exceeds it. */
    method CheckRatioTot(tot: int)
      modifies this`colorstops
      ensures colorstops == (if tot < old(colorstops) then tot else old(colorstops))
      ensures totalcolors == tot ==> colorstops <= totalcolors
    {
      if tot < colorstops {
        colorstops := tot;
      }
    }

    /** `check_ratio_stops`, run when the stop slider moves: the total goes up to
        the new stop count when it is below it. */
    method CheckRatioStops(stops: int)
      modifies this`totalcolors
      ensures totalcolors == (if stops > old(totalcolors) then stops else old(totalcolors))
      ensures colorstops == stops ==> colorstops <= totalcolors
    {
      if stops > totalcolors {
        totalcolors := stops;
      }
    }

    /** `make_color_boxes`: one box per stop, reading each channel's entry; a
        channel shorter than the stop count raises `IndexError` after the boxes
        before it were made. */
    method MakeColorBoxes() returns (outcome: Outcome)
      modifies this`nboxes
      ensures nboxes == (if colorstops < 0 then 0
                         else if colorstops <= colordict.MinLength() then colorstops
                         else colordict.MinLength())
      ensures outcome == BoxesOutcome(colordict, if colorstops < 0 then 0 else colorstops)
    {
      nboxes := 0;
      var i := 0;
      while i < colorstops
        invariant 0 <= i == nboxes
        invariant i <= colordict.MinLength()
        invariant colorstops >= 0 ==> i <= colorstops
        invariant colorstops < 0 ==> i == 0
      {
        for k := 0 to |Channels|
          invariant forall m :: 0 <= m < k ==> i < |colordict.Get(Channels[m])|
        {
          if i >= |colordict.Get(Channels[k])| {
            assert colordict.MinLength() <= |colordict.Get(Channels[k])|;
            return Raised(IndexError);
          }
        }
        forall c ensures i < |colordict.Get(c)| {
          ChannelsComplete(c);
        }
        assert i < |colordict.Get(R)| && i < |colordict.Get(G)| && i < |colordict.Get(B)|;
        nboxes := i + 1;
        i := i + 1;
      }
      outcome := Done;
    }

    /** `update_color_dict`, the trace of one entry box: the box `index` of channel
        `key` now reads `text`. */
    method UpdateColorDict(index: nat, key: Channel, text: string) returns (outcome: Outcome)
      modifies this`colordict
      // no box at that index: the dictionary is replaced by an equal copy
      ensures index >= nboxes ==>
        outcome == BoxesOutcome(colordict, nboxes) && colordict == old(colordict)
      // `(index - 1) % 0` on an empty channel
      ensures index < nboxes && |old(colordict).Get(key)| == 0 ==>
        outcome == Raised(ZeroDivisionError) && colordict == old(colordict)
      // an empty box changes nothing
      ensures index < nboxes && |old(colordict).Get(key)| > 0 && text == "" ==>
        outcome == BoxesOutcome(colordict, nboxes) && colordict == old(colordict)
      // text that is not a number
      ensures (index < nboxes && |old(colordict).Get(key)| > 0 && text != ""
               && Numbers.ParseFloat(text).None?) ==>
        outcome == Raised(ValueError) && colordict == old(colordict)
      // a number: the net effect is the one cell at `index`
      ensures (index < nboxes && index < |old(colordict).Get(key)| && text != ""
               && Numbers.ParseFloat(text).Some?) ==>
        outcome == BoxesOutcome(colordict, nboxes) && colordict == old(colordict).Set(key,
          old(colordict).Get(key)[index := Numbers.Round(Numbers.ParseFloat(text).value)])
      // a number for a stop the channel lacks: the write at `(index - 1) % n`
      // stays and `newcols[key][index]` raises
      ensures (index < nboxes && 0 < |old(colordict).Get(key)| <= index && text != ""
               && Numbers.ParseFloat(text).Some?) ==>
        outcome == Raised(IndexError) && colordict == old(colordict).Set(key,
          old(colordict).Get(key)[(index - 1) % |old(colordict).Get(key)|
            := Numbers.Round(Numbers.ParseFloat(text).value)])
    {
      var newcols := colordict;
      if index < nboxes {
        var n := |colordict.Get(key)|;
        if n == 0 {
          return Raised(ZeroDivisionError);
        }
        var ind := (index - 1) % n;
        if text != "" {
          var parsed := Numbers.ParseFloat(text);
          if parsed.None? {
            return Raised(ValueError);
          }
          var val := Numbers.Round(parsed.value);
          // written into the list the tab is about to drop
          colordict := colordict.Set(key, colordict.Get(key)[ind := val]);
          if index >= |newcols.Get(key)| {
            return Raised(IndexError);
          }
          newcols := newcols.Set(key, newcols.Get(key)[index := val]);
        }
      }
      colordict := newcols;
      // `update_swatches` reads every box's stop in every channel
      outcome := BoxesOutcome(colordict, nboxes);
    }

    /** Setting box `i` of channel `c` to its own stop value: the trace writes
        the value it reads back, so the dictionary is unchanged. Whatever the
        trace raises is reported by Tk and does not reach the caller. */
    method RefreshBox(i: nat, c: Channel)
      requires i < |colordict.Get(c)|
      modifies this`colordict
      ensures colordict == old(colordict)
    {
      var val := colordict.Get(c)[i];
      Numbers.ParseFloatIntToString(val);
      var _ := UpdateColorDict(i, c, Numbers.IntToString(val));
      assert old(colordict).Get(c)[i := val] == old(colordict).Get(c);
      ColorDictExt(colordict, old(colordict));
    }

    /** `update_color_boxes`: every box is set to its stop's value; each write
        fires `update_color_dict` on the decimal text of that value, which writes
        the same value back. A channel shorter than the boxes raises `IndexError`. */
    method UpdateColorBoxes() returns (outcome: Outcome)
      modifies this`colordict
      ensures colordict == old(colordict)
      ensures outcome == BoxesOutcome(colordict, nboxes)
    {
      var i := 0;
      while i < nboxes
        invariant 0 <= i <= nboxes
        invariant colordict == old(colordict)
        invariant i <= colordict.MinLength()
      {
        for k := 0 to |Channels|
          invariant colordict == old(colordict)
          invariant forall m :: 0 <= m < k ==> i < |colordict.Get(Channels[m])|
        {
          var c := Channels[k];
          if i >= |colordict.Get(c)| {
            assert colordict.MinLength() <= |colordict.Get(c)|;
            return Raised(IndexError);
          }
          RefreshBox(i, c);
        }
        forall c ensures i < |colordict.Get(c)| {
          ChannelsComplete(c);
        }
        i := i + 1;
      }
      outcome := Done;
    }

    /** `shift_color`, the command of the position slider with its new value
        `amt`: one step in the direction the slider moved, however far it moved,
        because every pass reads the unmodified dictionary. */
    method ShiftColor(amt: int) returns (outcome: Outcome)
      modifies this`colordict, this`colorShift, this`previousshift
      ensures colordict == RotatedDict(old(colordict), ShiftInterval(amt, old(previousshift)))
      ensures previousshift == amt && colorShift == amt
      ensures outcome == BoxesOutcome(colordict, nboxes)
    {
      colorShift := amt;
      var local := colordict;
      var prev := previousshift;
      previousshift := amt;
      var interval := if amt < prev then -1 else 1;
      var passes := if amt == 0 then 1 else if amt < 0 then -amt else amt;
      for j := 0 to passes
        invariant colordict == old(colordict) && previousshift == amt && colorShift == amt
        invariant j == 0 ==> local == colordict
        invariant j > 0 ==> local == RotatedDict(colordict, interval)
      {
        local := RotateChannels(colordict, local, interval);
      }
      colordict := local;
      outcome := UpdateColorBoxes();
    }

    /** `reverse_color_order`. */
    method ReverseColorOrder() returns (outcome: Outcome)
      modifies this`colordict
      ensures colordict == ReversedDict(old(colordict))
      ensures outcome == BoxesOutcome(colordict, nboxes)
    {
      var local := ReverseChannels(colordict, colordict);
      colordict := local;
      outcome := UpdateColorBoxes();
    }

    /** `save`: the name changes only when saving in the `colors` mode; the record
        carries the tab's current name as its `id`. */
    method Save(mode: string, newName: string) returns (id: Option<string>, record: ColorRecord)
      modifies this`name
      ensures name == (if mode == "colors" then Some(newName) else old(name))
      ensures id == name
      ensures record == ColorRecord(background, totalcolors, colorstops, colordict, name)
    {
      if mode == "colors" {
        name := Some(newName);
      }
      record := ColorRecord(background, totalcolors, colorstops, colordict, name);
      id := name;
    }

    /** `load`: the boxes are rebuilt for the current stops, the shift and hue
        sliders and their previous values go to 0, and the record's background,
        counts and dictionary are installed; the name is set last, so an
        `IndexError` while refreshing the boxes leaves it as it was. */
    method Load(newName: string, data: ColorRecord) returns (outcome: Outcome)
      modifies this
      ensures old(colorstops) > old(colordict).MinLength() ==>
        outcome == Raised(IndexError) && nboxes == old(colordict).MinLength()
        && colordict == old(colordict) && colorstops == old(colorstops)
        && totalcolors == old(totalcolors) && background == old(background)
        && colorShift == old(colorShift) && previousshift == old(previousshift)
        && hueShift == old(hueShift) && previoushue == old(previoushue) && name == old(name)
      ensures old(colorstops) <= old(colordict).MinLength() ==>
        nboxes == (if old(colorstops) < 0 then 0 else old(colorstops))
        && colordict == data.colordict && colorstops == data.nstops
        && totalcolors == data.totalcolors && background == data.background
        && colorShift == 0 && previousshift == 0 && hueShift == 0 && previoushue == 0
        && outcome == BoxesOutcome(data.colordict, nboxes)
        && name == (if outcome == Done then Some(newName) else old(name))
    {
      outcome := MakeColorBoxes();
      if outcome.Raised? {
        return;
      }
      hueShift := 0;
      previoushue := 0;
      previousshift := 0;
      colorShift := 0;
      background := data.background;
      totalcolors := data.totalcolors;
      colorstops := data.nstops;
      colordict := data.colordict;
      outcome := UpdateColorBoxes();
      if outcome.Raised? {
        return;
      }
      name := Some(newName);
    }
  }

}
