/** The dialogs' data rules: the lightness-shift range gate, the save dialog's
    name fill, the listing of saved names, and the colour editor's sliders.
    The hex codec and acceptance test they use are in module `Colors`. */
module Dialogs {
  import opened Common
  import opened Strings
  import opened Colors
  import Numbers
  import ColorSchemeTab

  // ----- ShiftLightnessDialog -----------------------------------------------

  /** What `apply` does with the text of the amount box: `ValueError` when it is
      not a number, a call of `func` with the rounded amount when that lies in
      -255..255, and no call otherwise. */
  function LightnessGate(amount: string): (r: Result<Option<int>>)
    ensures r.Err? <==> Numbers.ParseFloat(amount).None?
    ensures r.Err? ==> r.error == ValueError
    ensures r.Ok? && r.value.Some? ==> -255 <= r.value.value <= 255
    ensures r.Ok? ==> (r.value.Some? <==> -255 <= Numbers.Round(Numbers.ParseFloat(amount).value) <= 255)
    ensures r.Ok? && r.value.Some? ==> r.value.value == Numbers.Round(Numbers.ParseFloat(amount).value)
  {
    match Numbers.ParseFloat(amount)
    case None => Err(ValueError)
    case Some(x) =>
      var amt := Numbers.Round(x);
      if -255 <= amt <= 255 then Ok(Some(amt)) else Ok(None)
  }

  /** An integer typed into the box reaches `func` unchanged exactly when it is
      within range. */
  lemma {:induction false} LightnessGateOfInt(n: int)
    ensures LightnessGate(Numbers.IntToString(n)) == (if -255 <= n <= 255 then Ok(Some(n)) else Ok(None))
  {
    Numbers.ParseFloatIntToString(n);
  }

  class ShiftLightnessDialog {
    var amount: string    // the text of the amount box
    var calls: seq<int>   // the arguments `func` has been called with
    var open: bool        // the dialog window still exists

    /** The box starts at `0`. */
    constructor ()
      ensures amount == "0" && calls == [] && open
    {
      amount := "0";
      calls := [];
      open := true;
    }

    /** `apply`: `func` runs at most once, and the window closes exactly when it
        ran; a non-numeric amount re-raises the `ValueError`. */
    method Apply() returns (outcome: Outcome)
      modifies this`calls, this`open
      ensures LightnessGate(amount).Err? ==>
        outcome == Raised(ValueError) && calls == old(calls) && open == old(open)
      ensures LightnessGate(amount) == Ok(None) ==>
        outcome == Done && calls == old(calls) && open == old(open)
      ensures LightnessGate(amount).Ok? && LightnessGate(amount).value.Some? ==>
        outcome == Done && calls == old(calls) + [LightnessGate(amount).value.value] && !open
    {
      var parsed := Numbers.ParseFloat(amount);
      if parsed.None? {
        return Raised(ValueError);
      }
      var amt := Numbers.Round(parsed.value);
      if -255 <= amt <= 255 {
        calls := calls + [amt];
        open := false;
      }
      outcome := Done;
    }
  }

  // ----- SaveDialog ---------------------------------------------------------

  /** Python truthiness of a stored name: present and not empty. */
  predicate Truthy(name: Option<string>) {
    name.Some? && name.value != ""
  }

  /** `fill_current_name`: the new text of the name box. */
  function FillCurrentName(currentNames: map<string, Option<string>>, mode: string, nameVar: string)
    : (r: Result<string>)
    ensures r.Err? <==> mode !in currentNames
    ensures r.Err? ==> r.error == KeyError
    ensures r.Ok? && Truthy(currentNames[mode]) ==> r.value == currentNames[mode].value
    ensures r.Ok? && !Truthy(currentNames[mode]) ==> r.value == nameVar
  {
    if mode !in currentNames then Err(KeyError)
    else if Truthy(currentNames[mode]) then Ok(currentNames[mode].value)
    else Ok(nameVar)
  }

  /** Filling twice is filling once, since whatever the first fill left is what
      the second one keeps or replaces by the same stored name. */
  lemma FillCurrentNameIdempotent(currentNames: map<string, Option<string>>, mode: string, nameVar: string)
    requires mode in currentNames
    ensures FillCurrentName(currentNames, mode, FillCurrentName(currentNames, mode, nameVar).value)
         == FillCurrentName(currentNames, mode, nameVar)
  {
  }

  /** After a fill the box holds the stored name, unless there is none, in which
      case it holds what the user had typed. */
  lemma FillCurrentNameNeverBlanks(currentNames: map<string, Option<string>>, mode: string, nameVar: string)
    requires mode in currentNames && nameVar != ""
    ensures FillCurrentName(currentNames, mode, nameVar).value != ""
  {
  }

  // ----- ListAvailableDialog ------------------------------------------------

  /** A file name with `.json` removed wherever it occurs. */
  function StripJson(file: string): string {
    RemoveAll(file, ".json")
  }

  /** The generated names of sessions saved from another tab. */
  predicate IsSessionName(name: string) {
    Contains(name, "from") && Contains(name, "session")
  }

  /** The names listed first, in listing order: not session names, not all
      digits (the empty name counts as all digits). */
  function Listed(files: seq<string>): (names: seq<string>)
    ensures |names| <= |files|
  {
    if files == [] then []
    else
      var name := StripJson(files[|files| - 1]);
      Listed(files[..|files| - 1]) + (if IsSessionName(name) || AllDigits(name) then [] else [name])
  }

  /** The session names, in listing order, appended at the end. */
  function SessionNames(files: seq<string>): (names: seq<string>)
    ensures |names| <= |files|
  {
    if files == [] then []
    else
      var name := StripJson(files[|files| - 1]);
      SessionNames(files[..|files| - 1]) + (if IsSessionName(name) then [name] else [])
  }

  /** The list box contents the dialog builds. */
  function AvailableNames(files: seq<string>): seq<string> {
    Listed(files) + SessionNames(files)
  }

  /** `Listbox.insert(index, x)`: an index at or past the end appends. */
  function ListboxInsert(items: seq<string>, index: nat, x: string): (r: seq<string>)
    ensures |r| == |items| + 1 && r[if index < |items| then index else |items|] == x
    ensures multiset(r) == multiset(items) + multiset{x}
  {
    if index >= |items| then items + [x]
    else
      assert items == items[..index] + items[index..];
      items[..index] + [x] + items[index..]
  }

  lemma ListingStep(files: seq<string>, i: nat)
    requires i < |files|
    ensures Listed(files[..i + 1]) == Listed(files[..i])
      + (if IsSessionName(StripJson(files[i])) || AllDigits(StripJson(files[i])) then [] else [StripJson(files[i])])
    ensures SessionNames(files[..i + 1]) == SessionNames(files[..i])
      + (if IsSessionName(StripJson(files[i])) then [StripJson(files[i])] else [])
  {
    assert files[..i + 1][..i] == files[..i];
  }

  /** The body of `ListAvailableDialog.__init__` after the directory is read:
      every insertion lands at the end, because the index passed is never less
      than the number of names already in the box. */
  method ListAvailable(files: seq<string>) returns (lbox: seq<string>)
    ensures lbox == AvailableNames(files)
  {
    lbox := [];
    var endfiles: seq<string> := [];
    for i := 0 to |files|
      invariant lbox == Listed(files[..i]) && endfiles == SessionNames(files[..i])
    {
      ListingStep(files, i);
      var name := StripJson(files[i]);
      if IsSessionName(name) {
        endfiles := endfiles + [name];
      } else if !AllDigits(name) {
        lbox := ListboxInsert(lbox, i, name);
      }
    }
    assert files[..|files|] == files;
    ghost var listed := lbox;
    for i := 0 to |endfiles|
      invariant lbox == listed + endfiles[..i]
    {
      assert endfiles[..i + 1] == endfiles[..i] + [endfiles[i]];
      lbox := ListboxInsert(lbox, i + |files|, endfiles[i]);
    }
    assert endfiles[..|endfiles|] == endfiles;
  }

  /** The listing with `.json` removed from every name. */
  function Stripped(files: seq<string>): (names: seq<string>)
    ensures |names| == |files|
  {
    seq(|files|, i requires 0 <= i < |files| => StripJson(files[i]))
  }

  /** A session name always holds letters, so it is never all digits. */
  lemma SessionNameNotDigits(name: string)
    requires IsSessionName(name)
    ensures !AllDigits(name)
  {
    var k := Find(name, "from");
    assert name[k] == name[k..k + 4][0] == 'f';
  }

  /** The names the dialog keeps, in listing order: all but the all-digit ones. */
  function KeptNames(files: seq<string>): (names: seq<string>)
    ensures |names| <= |files|
  {
    if files == [] then []
    else
      var name := StripJson(files[|files| - 1]);
      KeptNames(files[..|files| - 1]) + (if AllDigits(name) then [] else [name])
  }

  /** A name is kept exactly when it is the stripped form of some file and is not
      all digits. */
  lemma {:induction false} KeptNamesMembers(files: seq<string>)
    ensures forall x :: x in KeptNames(files) <==> x in Stripped(files) && !AllDigits(x)
  {
    if files != [] {
      var init := files[..|files| - 1];
      KeptNamesMembers(init);
      assert Stripped(files) == Stripped(init) + [StripJson(files[|files| - 1])];
    }
  }

  /** The list box holds the kept names, each as often as in the directory,
      only reordered. */
  lemma {:induction false} AvailableNamesReorder(files: seq<string>)
    ensures multiset(AvailableNames(files)) == multiset(KeptNames(files))
  {
    if files != [] {
      var init := files[..|files| - 1];
      var name := StripJson(files[|files| - 1]);
      AvailableNamesReorder(init);
      if IsSessionName(name) {
        SessionNameNotDigits(name);
      }
      assert AvailableNames(files)
          == Listed(init) + (if IsSessionName(name) || AllDigits(name) then [] else [name])
             + (SessionNames(init) + (if IsSessionName(name) then [name] else []));
    }
  }

  /** So a name is listed exactly when some file strips to it and it is not all
      digits. */
  lemma AvailableNamesMembers(files: seq<string>, x: string)
    ensures x in AvailableNames(files) <==> x in Stripped(files) && !AllDigits(x)
  {
    AvailableNamesReorder(files);
    KeptNamesMembers(files);
    assert x in AvailableNames(files) <==> x in multiset(AvailableNames(files));
    assert x in KeptNames(files) <==> x in multiset(KeptNames(files));
  }

  /** Session names all come after the other names. */
  lemma {:induction false} SessionNamesLast(files: seq<string>)
    ensures forall x :: x in Listed(files) ==> !IsSessionName(x)
    ensures forall x :: x in SessionNames(files) ==> IsSessionName(x)
  {
    if files != [] {
      SessionNamesLast(files[..|files| - 1]);
    }
  }

  /** A setting saved as `name.json` is listed as `name`. */
  lemma StripJsonOfSaved(name: string)
    requires !Contains(name, ".json")
    ensures StripJson(name + ".json") == name
  {
    RemoveAllSuffix(name, ".json");
  }

  // ----- ColorSwatchDialog --------------------------------------------------

  /** The slider start for one channel's text: its rounded value, or 0 when it is
      not a number. */
  function SliderStart(text: string): (v: int)
    ensures Numbers.ParseFloat(text).None? ==> v == 0
    ensures Numbers.ParseFloat(text).Some? ==> v == Numbers.Round(Numbers.ParseFloat(text).value)
  {
    match Numbers.ParseFloat(text)
    case None => 0
    case Some(x) => Numbers.Round(x)
  }

  /** A channel holding an integer's decimal text starts its slider there. */
  lemma SliderStartOfInt(n: int)
    ensures SliderStart(Numbers.IntToString(n)) == n
  {
    Numbers.ParseFloatIntToString(n);
  }

  /** `d` has at least `n` stops in every channel. */
  predicate Covers(d: ColorSchemeTab.ColorDict, n: nat) {
    n <= |d.r| && n <= |d.g| && n <= |d.b|
  }

  /** The colour of stop `i`, as its swatch shows it. */
  function StopColor(d: ColorSchemeTab.ColorDict, i: nat): RGB
    requires Covers(d, i + 1)
  {
    RGB(d.r[i], d.g[i], d.b[i])
  }

  function Min(x: nat, y: nat): nat {
    if x <= y then x else y
  }

  /** How many stops `setup_swatch_selection` can read before an index runs
      past a channel, the red channel of the current colours aside (it sets the
      number of rows). */
  function ReadableStops(current: ColorSchemeTab.ColorDict, defaults: ColorSchemeTab.ColorDict): (m: nat)
    ensures m <= |current.g| && m <= |current.b| && Covers(defaults, m)
    ensures m == |current.g| || m == |current.b| || m == |defaults.r| || m == |defaults.g| || m == |defaults.b|
  {
    Min(Min(|current.g|, |current.b|), Min(Min(|defaults.r|, |defaults.g|), |defaults.b|))
  }

  /** The swatch colours of the editor after `n` rows, in the order they are
      made: black and white, then for each stop its current colour and its
      default colour. */
  function SwatchesOf(current: ColorSchemeTab.ColorDict, defaults: ColorSchemeTab.ColorDict, n: nat): seq<RGB>
    requires Covers(current, n) && Covers(defaults, n)
  {
    if n == 0 then [RGB(0, 0, 0), RGB(255, 255, 255)]
    else SwatchesOf(current, defaults, n - 1) + [StopColor(current, n - 1), StopColor(defaults, n - 1)]
  }

  /** `setup_swatch_selection`: one row per stop of the current red channel. A
      channel shorter than that raises `IndexError`, after the swatches read
      before it were made. */
  method SetupSwatchSelection(current: ColorSchemeTab.ColorDict, defaults: ColorSchemeTab.ColorDict)
    returns (swatches: seq<RGB>, outcome: Outcome)
    ensures outcome == Done <==> |current.r| <= ReadableStops(current, defaults)
    ensures outcome == Done || outcome == Raised(IndexError)
    ensures outcome == Done ==> swatches == SwatchesOf(current, defaults, |current.r|)
    ensures outcome.Raised? ==>
      var k := ReadableStops(current, defaults);
      k < |current.r| &&
      swatches == SwatchesOf(current, defaults, k)
                  + (if k < |current.g| && k < |current.b| then [StopColor(current, k)] else [])
  {
    swatches := [RGB(0, 0, 0), RGB(255, 255, 255)];
    var i := 0;
    while i < |current.r|
      invariant i <= |current.r| && Covers(current, i) && Covers(defaults, i)
      invariant i <= ReadableStops(current, defaults)
      invariant swatches == SwatchesOf(current, defaults, i)
    {
      if i >= |current.g| || i >= |current.b| {
        return swatches, Raised(IndexError);
      }
      swatches := swatches + [StopColor(current, i)];
      if i >= |defaults.r| || i >= |defaults.g| || i >= |defaults.b| {
        return swatches, Raised(IndexError);
      }
      swatches := swatches + [StopColor(defaults, i)];
      i := i + 1;
    }
    outcome := Done;
  }

  /** Opened from the colour-scheme tab, whose defaults are the 11-stop palette,
      the editor shows every swatch of a dictionary with equal channels exactly
      when it has at most 11 stops; more raise `IndexError`. */
  lemma {:induction false} SwatchesOfPalette(current: ColorSchemeTab.ColorDict)
    requires current.EqualLengths()
    ensures |current.r| <= ReadableStops(current, ColorSchemeTab.DefaultColors()) <==> |current.r| <= 11
  {
    var pal := ColorSchemeTab.DefaultColors();
    assert |pal.r| == 11 && |pal.g| == 11 && |pal.b| == 11;
  }

  class ColorSwatchDialog {
    var sliders: RGB          // the values of the three channel sliders
    var swatches: seq<RGB>    // the colours of the selectable swatches, in the order made
    var raised: Outcome       // what `__init__` raised; Tk reports it to the caller's callback

    /** `__init__`: every slider starts from the target swatch's text for its
        channel, then the selectable swatches are made from the current and
        default colours. */
    constructor (targets: ColorText, current: ColorSchemeTab.ColorDict, defaults: ColorSchemeTab.ColorDict)
      ensures forall c :: sliders.Get(c) == SliderStart(targets.Get(c))
      ensures raised == Done <==> |current.r| <= ReadableStops(current, defaults)
      ensures raised == Done || raised == Raised(IndexError)
      ensures raised == Done ==> swatches == SwatchesOf(current, defaults, |current.r|)
      ensures raised.Raised? ==>
        var k := ReadableStops(current, defaults);
        k < |current.r| &&
        swatches == SwatchesOf(current, defaults, k)
                    + (if k < |current.g| && k < |current.b| then [StopColor(current, k)] else [])
    {
      var start := RGB(0, 0, 0);
      for k := 0 to |Channels|
        invariant forall m :: 0 <= m < k ==> start.Get(Channels[m]) == SliderStart(targets.Get(Channels[m]))
      {
        start := start.Set(Channels[k], SliderStart(targets.Get(Channels[k])));
      }
      sliders := start;
      var made, outcome := SetupSwatchSelection(current, defaults);
      swatches, raised := made, outcome;
      new;
      forall c ensures sliders.Get(c) == SliderStart(targets.Get(c)) {
        ChannelsComplete(c);
      }
    }

    /** `grab_swatch_color`: positions 0, 1, 2 of the clicked swatch's colour go
        to the red, green and blue sliders; a colour with fewer than three
        entries raises `IndexError` before any slider moves. */
    method GrabSwatchColor(color: seq<int>) returns (outcome: Outcome)
      modifies this`sliders
      ensures |color| < 3 ==> outcome == Raised(IndexError) && sliders == old(sliders)
      ensures |color| >= 3 ==> outcome == Done && sliders == RGB(color[0], color[1], color[2])
    {
      if |color| < 3 {
        return Raised(IndexError);
      }
      var picked := RGB(color[0], color[1], color[2]);
      for k := 0 to |Channels|
        invariant forall m :: 0 <= m < k ==> sliders.Get(Channels[m]) == picked.Get(Channels[m])
      {
        sliders := sliders.Set(Channels[k], picked.Get(Channels[k]));
      }
      forall c ensures sliders.Get(c) == picked.Get(c) {
        ChannelsComplete(c);
      }
      RGBExt(sliders, picked);
      outcome := Done;
    }

    /** `set_from_hex`, the trace of the hex box: the sliders take `converted`,
        the colour the text names, only when the text passes the acceptance
        test. */
    method SetFromHex(hex: string, converted: RGB)
      modifies this`sliders
      ensures sliders == (if HexAccepted(hex) then converted else old(sliders))
    {
      if '#' in hex && (|hex| == 7 || |hex| == 4) {
        if HexPatternMatches(hex) {
          for k := 0 to |Channels|
            invariant forall m :: 0 <= m < k ==> sliders.Get(Channels[m]) == converted.Get(Channels[m])
          {
            sliders := sliders.Set(Channels[k], converted.Get(Channels[k]));
          }
          forall c ensures sliders.Get(c) == converted.Get(c) {
            ChannelsComplete(c);
          }
          RGBExt(sliders, converted);
        }
      }
    }
  }

  /** The sliders move only for a 7- or 4-character `#` followed by hex digits. */
  lemma SetFromHexAccepts(hex: string)
    ensures HexAccepted(hex) <==> (|hex| == 7 || |hex| == 4) && hex[0] == '#' && AllHex(hex[1..])
  {
    HexAcceptedIff(hex);
  }
}
