# SpiroGen interface: colour scheme, dialogs and pattern parameters

A Dafny model of the data rules inside three tkinter modules of SpiroGen:

- `ColorSchemeTab.py`. The colour dictionary of gradient stops: three channel lists `r`, `g`, `b`. Around it sit:
  - the stop-count and total-colour sliders and their coupling;
  - the position slider that rotates the stops;
  - reversal;
  - the edit trace of every entry box;
  - the refresh of the boxes and swatches;
  - `save` and `load` of a colour record.
- `Dialogs.py`:
  - the lightness-shift range gate;
  - the save dialog's name fill;
  - the listing of saved names;
  - the colour editor's sliders: their start from the swatch's text, picking a swatch colour, and the hex entry box;
  - the `#rrggbb` codec (`rgb_tk`, `hex_to_rgb`).
- `PatternTab.py`:
  - the dispatch on the chosen pattern and the default parameters of each pattern;
  - the angle and curve boxes of the radial-angular pattern: how their texts become the `angles` parameter, and how they carry over when the number of angles changes;
  - `save` and the key-by-key merge of `load`.

## How the model is organised

Widgets are reduced to the values they hold. The tabs and dialogs whose fields the code updates are classes:
- `ColorSchemeTab.ColorSchemeTab`
- `PatternTab.PatternTab`
- `Dialogs.ShiftLightnessDialog`
- `Dialogs.ColorSwatchDialog`

Every callback that changes them is a method. Each method's postcondition gives the new state in terms of specification functions, for example `RotatedDict`, `ReversedDict`, `CarriedBoxes`, `RenderedParameters` and `Merge`. Lemmas then prove what the code promises about those functions.

Exceptions a callback raises are part of the model, as an `Outcome` or a `Result`. Tk reports such an exception and carries on, so the state a method leaves when it raises is the state at that point.

Python and Tk behaviour the model states explicitly:
- `float()` on decimal text, in `Numbers.ParseFloat`.
- `round()`, ties to even, in `Numbers.Round`.
- `str(int)`.
- `%02x`, including the sign it prints for negatives.
- `int(s, 16)`.
- `str.replace` and `in`.
- `isdigit`.
- Python's slice `s[:n]` for negative and oversized `n`.
- Python's `%`, which agrees with Dafny's for the positive moduli used here.
- `Listbox.insert` at an index at or past the end appends.
- A `StringVar` trace fires synchronously inside `set`.

The code does not enforce the colour dictionary's invariants of equal channel lengths and values in 0..255. `load` installs whatever record it is given. The model therefore does not assume those invariants either. A short channel makes the code raise `IndexError` in three modelled places, and the contracts state each one:
- the box refresh of the tab (`BoxesOutcome`);
- the edit trace (`ColorSchemeTab.ColorSchemeTab.UpdateColorDict`);
- the colour editor's swatches (`Dialogs.SetupSwatchSelection`), which also raise it when the dictionary has more stops than the 11-stop default palette.

One consequence of a stop outside 0..255 is not modelled: the error Tk raises for the colour text such a stop prints as (see `Dialogs.SetupSwatchSelection` under "## Left out").

The dictionary itself is a record with exactly the fields `r`, `g` and `b`, each a list of integers; see "## Left out" for what that does not capture.

Some definitions are plain computations whose contracts only describe the shape of their result. The lemmas listed under "## Definitions" state what they mean.

## Model

| member | source | states |
|---|---|---|
| ColorSchemeTab.DefaultColors | spirogen/interface/ColorSchemeTab.py:31-35 | the default palette has 11 stops in every channel, all in 0..255 |
| ColorSchemeTab.ColorSchemeTab.constructor | spirogen/interface/ColorSchemeTab.py:27-109 | a new tab holds the default palette, 100 total colours, 11 stops, zero shifts, a black background and no name |
| ColorSchemeTab.ColorSchemeTab.CurrentColors | spirogen/interface/ColorSchemeTab.py:139-144 | every channel of the result is the prefix of the stored channel that Python's `[:colorstops]` keeps, including negative and oversized counts; the stored dictionary is only read |
| ColorSchemeTab.SliceTo | spirogen/interface/ColorSchemeTab.py:143 | `s[:n]` is the first min(n, len) entries for n ≥ 0, and all but the last -n entries for negative n |
| ColorSchemeTab.ColorSchemeTab.CheckRatioTot | spirogen/interface/ColorSchemeTab.py:304-307 | the stop count drops to the new total when it exceeds it and is otherwise unchanged; afterwards stops ≤ total, and nothing else changes |
| ColorSchemeTab.ColorSchemeTab.CheckRatioStops | spirogen/interface/ColorSchemeTab.py:309-312 | the total rises to the new stop count when it is below it and is otherwise unchanged; afterwards stops ≤ total, and nothing else changes |
| ColorSchemeTab.RotationPass | spirogen/interface/ColorSchemeTab.py:274-276 | the index loop over one channel yields entry i = old[(i - interval) mod n] for every i |
| ColorSchemeTab.RotateChannels | spirogen/interface/ColorSchemeTab.py:273-276 | the loop over the channel keys rotates all three channels of the source dictionary |
| ColorSchemeTab.RotatedOneStep | spirogen/interface/ColorSchemeTab.py:274-276 | a step forward moves the last stop to the front, and a step back moves the first stop to the end |
| ColorSchemeTab.RotatedIsPermutation | spirogen/interface/ColorSchemeTab.py:272-276 | a one-step rotation is a permutation of the channel |
| ColorSchemeTab.RotatedInverse | spirogen/interface/ColorSchemeTab.py:272-276 | a step back undoes a step forward, and the other way round |
| ColorSchemeTab.ShiftPermutesChannels | spirogen/interface/ColorSchemeTab.py:261-277 | a shift keeps every channel's multiset of stops and its length |
| ColorSchemeTab.ShiftThereAndBack | spirogen/interface/ColorSchemeTab.py:261-277 | moving the position slider up and then down again restores the dictionary |
| ColorSchemeTab.ColorSchemeTab.ShiftColor | spirogen/interface/ColorSchemeTab.py:261-278 | the result is one rotation step in the slider's direction, whatever the value of `amt`, because every pass reads the unmodified dictionary; the previous shift becomes the raw slider value (0 stays 0); the box refresh raises `IndexError` exactly when a channel is shorter than the boxes |
| ColorSchemeTab.ReversalPass | spirogen/interface/ColorSchemeTab.py:283-284 | the index loop over one channel gives entry i = old[n-1-i] |
| ColorSchemeTab.ReverseChannels | spirogen/interface/ColorSchemeTab.py:282-284 | every channel of the source is reversed |
| ColorSchemeTab.ReversedDictInvolution | spirogen/interface/ColorSchemeTab.py:280-286 | reversing twice restores the dictionary |
| ColorSchemeTab.ReversedIsPermutation | spirogen/interface/ColorSchemeTab.py:282-284 | reversal is a permutation of the channel |
| ColorSchemeTab.ReversePermutesChannels | spirogen/interface/ColorSchemeTab.py:280-286 | reversal keeps every channel's multiset of stops |
| ColorSchemeTab.ColorSchemeTab.ReverseColorOrder | spirogen/interface/ColorSchemeTab.py:280-286 | the new dictionary is the reversal of the old one; the refresh outcome is as for a shift |
| ColorSchemeTab.IsDefaultColorsAsWritten | spirogen/interface/ColorSchemeTab.py:288-302 | as written, the test returns True for every dictionary |
| ColorSchemeTab.IsDefaultColorsIntended | spirogen/interface/ColorSchemeTab.py:288-302 | comparing with the default palette: any reordering of the palette passes, and a passing dictionary holds only stops that the palette's channel holds |
| ColorSchemeTab.IsDefaultColorsDiscrepancy | spirogen/interface/ColorSchemeTab.py:288-302 | a single black stop passes the test as written and fails the intended test |
| ColorSchemeTab.ColorSchemeTab.IsDefaultColors | spirogen/interface/ColorSchemeTab.py:288-302 | the tab's test, in its intended form: a reordering of the palette passes, and a stop the palette lacks fails |
| ColorSchemeTab.BoxesOutcome | spirogen/interface/ColorSchemeTab.py:439-447 | refreshing the swatches of the first n boxes succeeds exactly when every channel has at least n stops, and otherwise raises `IndexError` |
| ColorSchemeTab.ColorSchemeTab.MakeColorBoxes | spirogen/interface/ColorSchemeTab.py:339-407 | one box is made per stop up to the stop count, stopping at the shortest channel, where `IndexError` is raised; a negative count makes no boxes |
| ColorSchemeTab.ColorSchemeTab.UpdateColorDict | spirogen/interface/ColorSchemeTab.py:409-426 | with a box at `index` and a number typed, the net effect is the one cell `colordict[key][index]` := round(value): the write at `(index-1) mod n` is discarded. Empty text, or no box at that index, changes nothing. There are three error cases. Non-numeric text raises `ValueError`. An empty channel raises `ZeroDivisionError`. A channel without that stop raises `IndexError`, and then the stale write persists |
| ColorSchemeTab.ColorSchemeTab.RefreshBox | spirogen/interface/ColorSchemeTab.py:432-435 | writing a stop's own value into its box fires the edit trace, which leaves the dictionary unchanged |
| ColorSchemeTab.ColorSchemeTab.UpdateColorBoxes | spirogen/interface/ColorSchemeTab.py:428-437 | refreshing every box leaves the dictionary as it was, and raises `IndexError` exactly when a channel is shorter than the boxes |
| ColorSchemeTab.ColorSchemeTab.Save | spirogen/interface/ColorSchemeTab.py:467-478 | the name changes only in `colors` mode; the returned id is the tab's name; the record carries the background, counts, dictionary and that id |
| ColorSchemeTab.ColorSchemeTab.Load | spirogen/interface/ColorSchemeTab.py:480-492 | when the boxes can be rebuilt, the record's background, counts and dictionary are installed and both shifts and their previous values are reset to 0; the name is set only if the refresh raises nothing. When the current stop count exceeds a channel, `IndexError` is raised before anything is changed |
| Colors.RgbTkShape | spirogen/interface/Dialogs.py:414-417 | for channels in 0..255 the output is `#` followed by two lower-case hex digits per channel, high nibble first, 7 characters in all |
| Colors.Format02xByte | spirogen/interface/Dialogs.py:416 | `%02x` prints a byte as exactly two lower-case digits |
| Colors.RgbTkOfTextHex | spirogen/interface/ColorSchemeTab.py:315-318 | the colour printed from three box texts decodes with `hex_to_rgb` to the three rounded values, when they are bytes |
| Colors.RgbTkOfIntText | spirogen/interface/ColorSchemeTab.py:315-318 | boxes holding the decimal text of integers print as the `#rrggbb` of those integers |
| Colors.ParseHexByte | spirogen/interface/Dialogs.py:411 | `int(.., 16)` of the two digits printed for a byte gives the byte back |
| Colors.HexToRgbOfRgbTk | spirogen/interface/Dialogs.py:408-417 | `hex_to_rgb(rgb_tk(c)) == c` for every triple of bytes |
| Colors.HexToRgbShortForm | spirogen/interface/Dialogs.py:408-411 | on `#abc` each digit is parsed on its own, so the channels lie in 0..15 and the digits are not doubled |
| Colors.HexAcceptedIff | spirogen/interface/Dialogs.py:398-400 | the length test rules out the final newline that the regex `$` allows, so the accepted strings are exactly `#` followed by 6 or 3 hex digits |
| Numbers.Round | spirogen/interface/Dialogs.py:49 | `round()` gives an integer within 1/2 of x, and the even one on a tie |
| Numbers.ParseFloatIntToString | spirogen/interface/ColorSchemeTab.py:420-422 | an integer written into a box reads back through `float()` and `round()` as itself |
| Dialogs.LightnessGateOfInt | spirogen/interface/Dialogs.py:47-54 | a typed integer reaches `func` unchanged exactly when it is in -255..255 |
| Dialogs.ShiftLightnessDialog.constructor | spirogen/interface/Dialogs.py:31-45 | the amount box starts at `0` and the dialog is open |
| Dialogs.ShiftLightnessDialog.Apply | spirogen/interface/Dialogs.py:47-57 | `func` runs once with the rounded amount and the window closes, both only when the gate passes; an out-of-range amount changes nothing; non-numeric text re-raises `ValueError` |
| Dialogs.FillCurrentNameIdempotent | spirogen/interface/Dialogs.py:158-159 | filling again, as the mode trace does, changes nothing more |
| Dialogs.FillCurrentNameNeverBlanks | spirogen/interface/Dialogs.py:175-177 | a fill never empties a non-empty name box |
| Dialogs.ListboxInsert | spirogen/interface/Dialogs.py:272 | an insertion adds exactly the one name, at the index or at the end when the index is past it |
| Dialogs.ListAvailable | spirogen/interface/Dialogs.py:265-275 | the list box holds the non-session, non-digit names in listing order, followed by the session names in listing order |
| Dialogs.SessionNameNotDigits | spirogen/interface/Dialogs.py:269-273 | a session name is never dropped as all digits |
| Dialogs.KeptNamesMembers | spirogen/interface/Dialogs.py:266-273 | a name is kept exactly when some file strips to it and it is not all digits |
| Dialogs.AvailableNamesReorder | spirogen/interface/Dialogs.py:265-275 | the list box is a reordering of the kept names, each as often as it appears in the directory |
| Dialogs.AvailableNamesMembers | spirogen/interface/Dialogs.py:265-275 | a name is listed exactly when some file strips to it and it is not all digits, the empty name included |
| Dialogs.SessionNamesLast | spirogen/interface/Dialogs.py:265-275 | every session name comes after every other name |
| Dialogs.StripJsonOfSaved | spirogen/interface/Dialogs.py:267 | a setting saved as `name.json` is listed as `name` |
| Dialogs.SliderStartOfInt | spirogen/interface/Dialogs.py:323-329 | integer text starts the slider at that integer |
| Dialogs.ColorSwatchDialog.constructor | spirogen/interface/Dialogs.py:295-343 | every channel slider starts from the target swatch's text for that channel; the swatches are then made, with the outcome that `SetupSwatchSelection` states |
| Dialogs.SetupSwatchSelection | spirogen/interface/Dialogs.py:362-389 | black and white come first, then per stop of the red channel its current and its default colour. `IndexError` is raised exactly when a current green or blue channel, or a default channel, is shorter than the red channel; the swatches made before the failing read are kept |
| Dialogs.SwatchesOfPalette | spirogen/interface/ColorSchemeTab.py:449-453 | opened from the tab, whose defaults are the 11-stop palette, an editor over a dictionary with equal channels shows every swatch exactly when there are at most 11 stops |
| Dialogs.ColorSwatchDialog.GrabSwatchColor | spirogen/interface/Dialogs.py:391-394 | colour positions 0, 1, 2 go to the r, g, b sliders; fewer than three entries raise `IndexError` before any slider moves; only the sliders can change |
| Dialogs.ColorSwatchDialog.SetFromHex | spirogen/interface/Dialogs.py:396-404 | the sliders take the named colour when the text passes the acceptance test, and are otherwise unchanged; only the sliders can change |
| Dialogs.SetFromHexAccepts | spirogen/interface/Dialogs.py:396-400 | the sliders move only for `#` followed by 6 or 3 hex digits |
| PatternTab.Dispatch | spirogen/interface/PatternTab.py:26-38 | exactly the four menu names select a pattern, and each selects the pattern of that name |
| PatternTab.DispatchKindName | spirogen/interface/PatternTab.py:26-38 | every pattern's menu name selects that pattern |
| PatternTab.SetupParameters | spirogen/interface/PatternTab.py:40-268 | each pattern's setup installs only controls (sliders and variables) |
| PatternTab.FreshRadialParameters | spirogen/interface/PatternTab.py:63-88 | a fresh radial-angular pattern holds exactly `size`, `pensize` and `angles`, with `angles` = [[125.0, 5.0]] |
| PatternTab.ParseAngles | spirogen/interface/PatternTab.py:153-168 | the in-place conversion loop followed by the filter computes `AnglesOf` of the boxes |
| PatternTab.KeepNonZeroMembers | spirogen/interface/PatternTab.py:168 | the filter keeps exactly the pairs whose angle is not zero |
| PatternTab.KeepNonZeroAppend | spirogen/interface/PatternTab.py:168 | the filter preserves order: filtering a concatenation filters each part |
| PatternTab.EmptyAngleDropped | spirogen/interface/PatternTab.py:163-168 | an empty angle box reads as 0 and its pair is dropped |
| PatternTab.CarriedBoxesSameCount | spirogen/interface/PatternTab.py:92-130 | re-rendering the same number of boxes loses no setting |
| PatternTab.CarriedBoxesShrink | spirogen/interface/PatternTab.py:92-130 | settings beyond a smaller count are forgotten: growing and then shrinking gives what shrinking alone gives |
| PatternTab.BoxTextReadsBack | spirogen/interface/PatternTab.py:160-166 | a number written into a box reads back through `float()` as that number: an integer through its decimal text, a float as itself |
| PatternTab.AnglesReload | spirogen/interface/PatternTab.py:153-168 | loaded angle pairs of floats with non-zero angles fill the boxes without error, and the boxes then give back exactly those pairs as `angles` |
| PatternTab.ParseBoxOfInt | spirogen/interface/PatternTab.py:124-130 | a box set from an integer reads back as that number |
| PatternTab.FreshBoxesAngles | spirogen/interface/PatternTab.py:111-151 | with no previous boxes, any number n ≥ 1 of boxes gives the one angle [125.0, 5.0] |
| PatternTab.PatternTab.constructor | spirogen/interface/PatternTab.py:11-23 | the tab starts on layered flowers with that pattern's parameters and no angle boxes |
| PatternTab.PatternTab.SetAngles | spirogen/interface/PatternTab.py:153-168 | `angles` becomes the filtered pairs of the current boxes, and no other parameter changes |
| PatternTab.PatternTab.MakeAngleBoxes | spirogen/interface/PatternTab.py:90-151 | the boxes are carried over or defaulted as `CarriedBoxes` says; `turncycle` and `jank` are recreated at 0 and shown exactly when n ≥ 2; `angles` is recomputed when n ≥ 1 |
| PatternTab.PatternTab.SelectPattern | spirogen/interface/PatternTab.py:26-38 | the chosen pattern's parameters are installed; a radial-angular pattern gets one default box; an unknown name keeps the old parameters |
| PatternTab.PatternTab.Save | spirogen/interface/PatternTab.py:289-302 | the record is the selected pattern type and `SavedParameters` of the parameters |
| PatternTab.MergeFrame | spirogen/interface/PatternTab.py:327-332 | keys not in the data are left untouched |
| PatternTab.MergeSucceeds | spirogen/interface/PatternTab.py:327-332 | with distinct keys the merge succeeds exactly when no key of the data names a plain non-list entry; otherwise it raises `AttributeError` |
| PatternTab.MergeValues | spirogen/interface/PatternTab.py:327-332 | after a successful merge, an absent key holds the data's value, a control holds it, and a list is left alone |
| PatternTab.MergeKeepsLists | spirogen/interface/PatternTab.py:329-330 | a list entry is never overwritten by the merge |
| PatternTab.MergeSavedIsIdentity | spirogen/interface/PatternTab.py:289-332 | merging what `save` wrote back into the same parameters changes nothing |
| PatternTab.Lookup | spirogen/interface/PatternTab.py:319 | a key is found exactly when the data holds it, with that key's value |
| PatternTab.FillBoxesPairs | spirogen/interface/PatternTab.py:321-326 | when every loaded pair can be read, the box loop fills every box with its pair's texts |
| PatternTab.PatternTab.Load | spirogen/interface/PatternTab.py:304-332 | the pattern is selected. For a radial-angular pattern, a missing `angles` key raises `KeyError`, as many boxes as angles are rendered, and the boxes are filled, stopping at the first unreadable value; the turn controls are shown exactly for two angles or more, and on the `KeyError` and `TypeError` paths the single default box stays. Then the parameters are merged as `Merge` says. For any other pattern the boxes and the angle count are kept and the turn controls are hidden |
| PatternTab.PatternTab.LoadRadial | spirogen/interface/PatternTab.py:318-326 | over a fresh radial-angular tab: a missing `angles` key raises `KeyError` and a value without a length raises its error, both leaving the one default box; otherwise the boxes are rendered and filled as `LoadAngles` says |
| PatternTab.PatternTab.LoadAngles | spirogen/interface/PatternTab.py:320-326 | the boxes are rendered over the one default box and then filled as `FillBoxes` says; the turn controls are shown exactly for two angles or more |
| PatternTab.PatternTab.FillAllBoxes | spirogen/interface/PatternTab.py:321-326 | the box loop leaves the boxes and the outcome that `FillBoxes` gives, and the parameters are the rendering of the boxes it leaves |
| PatternTab.PatternTab.FillBox | spirogen/interface/PatternTab.py:322-326 | one pair: the angle box is set and then the curve box, each write recomputing `angles`; an unreadable value stops the loop with the writes before it kept |
| PatternTab.KeepNonZeroAll | spirogen/interface/PatternTab.py:168 | when no angle is zero, the filter keeps every pair |
| PatternTab.PatternTab.MergeInto | spirogen/interface/PatternTab.py:327-332 | the merge loop computes `Merge` of the old parameters and the data |

## Left out

- Widget creation, grid layout, labels, colours of the widgets and `grid_forget`. Only the values widgets hold are modelled, and whether the turn controls are shown.
- Drawing: `PatternTab.run`, `ColorScheme`, `LVL2`, `RadialAngularPattern`, `DrawPath` and `wait()` are external to these modules.
- Hue shift, lightness shift and ramp (`shift_hue`, `hsv_colordict`, `colordict_from_hsv`, `shift_lightness`, `ramp_lightness`). They use floating-point HSV conversion or the external `ColorScheme`.
- Other operations the core does not name, and the reason for each:
  - `RampLightnessDialog`: a layout around an external call.
  - `reset_colors_to_default`, `update_colorstops`, `make_bg_color`, `setup_background_color_area`, `open_editor`, `update_color`, `get_value` and `LoadDialog`: these forward to modelled operations or to widgets. `open_editor` passes the tab's dictionary and the default palette to the colour editor; `Dialogs.SwatchesOfPalette` covers that call.
  - `clear`: only removes widgets.
- ColorSchemeTab.ColorSchemeTab.CheckRatioTot: "afterwards stops ≤ total" holds only because a `set` is not clamped. The stop slider's range is 2..11 and the total slider's is 1..300 (ColorSchemeTab.py:69-78). With a total of 1, Tk would clamp the stop count up to 2, leaving 2 stops over 1 total; the model does not capture that case.
- The `Parameter` slider class is not part of this model. A `set` on a slider is taken to store the value, without clamping to the slider's range or rounding to its resolution. The slider commands that a programmatic `set` can fire are not run: for example, `check_ratio_stops` on `load`'s stop count.
- `os.listdir`: the directory listing is the input `files` of `Dialogs.ListAvailable`.
- matplotlib's `hex2color` and `rgb2hex`:
  - `Dialogs.ColorSwatchDialog.SetFromHex`: the converted colour is the parameter `converted`; only the acceptance test is modelled.
  - `Dialogs.ColorSwatchDialog.constructor`: the initial hex text is not modelled.
- Dialogs.SetupSwatchSelection and Dialogs.ColorSwatchDialog.constructor: each swatch is a Tk `Frame` whose background is `rgb_tk` of its colour (Dialogs.py:426-430). A stop outside 0..255 prints as text such as `#1000000` (for 256) or `#-10000` (for -1), which Tk rejects with `TclError`. The editor's `__init__` then stops after the swatches made before it. Such a stop can arise because the edit trace stores any typed number. The model does not capture this: Tk's colour syntax is not part of it, and some non-byte triples print as text Tk accepts (three stops of 256 give the 9-digit `#100100100`). On a dictionary whose stops are all in 0..255 the contracts are exact; beyond that they state only the `IndexError` cases.
- Numbers.ParseFloat: accepts decimal text with a sign, an optional point and surrounding ASCII whitespace. Exponents, `inf`, `nan`, underscores and non-ASCII digits are not modelled. Floats are exact reals.
- Dialogs.LightnessGate, Dialogs.SliderStart, PatternTab.ParseBox, Colors.RgbTkOfText and ColorSchemeTab.ColorSchemeTab.UpdateColorDict read box text with `Numbers.ParseFloat`, so they treat text such as `1e2`, `inf` or `nan` as not a number. Python accepts `1e2` as 100.0 (and `round` then raises on `inf` and `nan`). Their contracts hold only for text without an exponent and other than `inf` and `nan`.
- Colors.ParseHex: `int(s, 16)` is modelled on runs of hex digits only. A sign, whitespace, a `0x` prefix and underscores are not.
- Strings.IsDigit: ASCII digits only. `str.isdigit` also accepts other Unicode digits.
- PatternTab.BoxTextOf: a box set from a float is represented by the float itself (`Number`), not by Tcl's printed form of it. A box set from a boolean, a list or an unset control yields `Unmodelled`.
- PatternTab.Items: the length of a slider that was never set (`Unset`) yields `Unmodelled`.
- PatternTab.PatternTab.Load: the data's `patterntype` and `parameters` are fields of a record, so their absence (a `KeyError`) is not modelled.
- PatternTab.PatternTab.LoadAngles: the intermediate `set_angles` calls fired by traces while the boxes are rendered are modelled, but only their final effect is stated.
- PatternTab.PatternTab.Save: the map has no order, so the key order of the saved dictionary is not modelled.
- ColorSchemeTab.ColorSchemeTab.constructor: the boxes that the stop slider's command draws during `__init__` are not counted (`nboxes` starts at 0).
- ColorSchemeTab.ColorSchemeTab.Save: the record holds the dictionary by value. Python returns the tab's own dictionary object (ColorSchemeTab.py:152-154, 475), so the record and the tab share it, and later edits show up in a saved record. That aliasing is not modelled.
- ColorSchemeTab.ColorSchemeTab.UpdateColorDict: the stale write at `(index-1) mod n` (ColorSchemeTab.py:423) goes into the dictionary object the tab held before the call, which is then replaced by the copy. The model drops that write except on the `IndexError` path. It does not capture that this old object may still be in use elsewhere:
  - the record passed to `load`, which `load` installs by reference (ColorSchemeTab.py:490);
  - a record returned by `save`;
  - a colour editor's `curcolors` (ColorSchemeTab.py:451).
- ColorSchemeTab.ColorSchemeTab.Load: the model does not change the record it is given. In Python, `load` installs `data["colordict"]` itself, and the refresh at line 491 fires the edit trace of every box. The first trace's stale write then sets `data["colordict"]["r"][n-1]` to the first red stop. So after `load`, the caller's record can differ from what was saved.
- ColorSchemeTab.ColorDict: a record with exactly the fields `r`, `g`, `b`, each a list of integers. A loaded dictionary that lacks one of those keys raises `KeyError` in Python (for example in the refresh at ColorSchemeTab.py:435); the model does not capture this. Float stops, which Python would re-round on their way through the boxes, are not modelled either.
- ColorSchemeTab.ColorSchemeTab.Load: the background's three texts are installed whole, and `int()` of the counts is taken as already done (the record holds integers).
- Dialogs.SaveDialog: `__init__` and the mode trace only call `fill_current_name`, so they are represented by `Dialogs.FillCurrentName` and its lemmas.
- Printing to the console and closing windows other than the lightness dialog's.

## Definitions

These functions compute what the code computes. Their own contracts give only the shape of the result; the lemmas named here state its meaning.

| definition | source | meaning stated by |
|---|---|---|
| ColorSchemeTab.ShiftInterval | spirogen/interface/ColorSchemeTab.py:264-269 | ColorSchemeTab.ShiftThereAndBack, ColorSchemeTab.ShiftPermutesChannels, ColorSchemeTab.ColorSchemeTab.ShiftColor |
| Colors.Format02x, Colors.RgbTk | spirogen/interface/Dialogs.py:414-417 | Colors.Format02xByte, Colors.RgbTkShape, Colors.HexToRgbOfRgbTk |
| Colors.RgbTkOfText | spirogen/interface/ColorSchemeTab.py:315-318 | Colors.RgbTkOfIntText, Colors.RgbTkOfTextHex |
| Colors.StripHash, Colors.HexChunks, Colors.HexToRgb | spirogen/interface/Dialogs.py:408-411 | Colors.StripHashLeading, Colors.HexChunksStep, Colors.HexToRgbOfRgbTk, Colors.HexToRgbShortForm |
| Colors.HexAccepted | spirogen/interface/Dialogs.py:398-400 | Colors.HexAcceptedIff, Dialogs.SetFromHexAccepts |
| Numbers.ParseFloat | spirogen/interface/Dialogs.py:49 | Numbers.ParseFloatIntToString |
| Dialogs.LightnessGate | spirogen/interface/Dialogs.py:47-57 | Dialogs.LightnessGateOfInt, Dialogs.ShiftLightnessDialog.Apply |
| Dialogs.FillCurrentName | spirogen/interface/Dialogs.py:175-177 | Dialogs.FillCurrentNameIdempotent, Dialogs.FillCurrentNameNeverBlanks |
| Dialogs.StripJson, Dialogs.SessionNames, Dialogs.AvailableNames | spirogen/interface/Dialogs.py:265-275 | Dialogs.StripJsonOfSaved, Dialogs.KeptNamesMembers, Dialogs.AvailableNamesMembers, Dialogs.AvailableNamesReorder, Dialogs.SessionNamesLast, Dialogs.ListAvailable |
| Dialogs.SliderStart | spirogen/interface/Dialogs.py:323-329 | Dialogs.SliderStartOfInt, Dialogs.ColorSwatchDialog.constructor |
| Dialogs.SwatchesOf, Dialogs.ReadableStops | spirogen/interface/Dialogs.py:362-389 | Dialogs.SetupSwatchSelection, Dialogs.SwatchesOfPalette |
| PatternTab.ParseBox | spirogen/interface/PatternTab.py:160-166 | PatternTab.EmptyAngleDropped, PatternTab.ParseBoxOfInt, PatternTab.BoxTextReadsBack |
| PatternTab.KeepNonZero, PatternTab.AnglesOf | spirogen/interface/PatternTab.py:160-168 | PatternTab.KeepNonZeroMembers, PatternTab.KeepNonZeroAppend, PatternTab.ParseAngles, PatternTab.AnglesReload |
| PatternTab.CarriedBoxes | spirogen/interface/PatternTab.py:111-130 | PatternTab.CarriedBoxesSameCount, PatternTab.CarriedBoxesShrink, PatternTab.FreshBoxesAngles |
| PatternTab.SavedParameters | spirogen/interface/PatternTab.py:292-296 | PatternTab.PatternTab.Save, PatternTab.MergeSavedIsIdentity |
| PatternTab.Items, PatternTab.Subscript, PatternTab.BoxTextOf, PatternTab.FillBoxes | spirogen/interface/PatternTab.py:320-326 | PatternTab.FillBoxesPairs, PatternTab.BoxTextReadsBack, PatternTab.AnglesReload, PatternTab.PatternTab.Load |
| PatternTab.Merge | spirogen/interface/PatternTab.py:327-332 | PatternTab.MergeFrame, PatternTab.MergeSucceeds, PatternTab.MergeValues, PatternTab.MergeKeepsLists, PatternTab.MergeSavedIsIdentity |

## Findings

| source | as written | input that shows it | evidently intended | confidence | as-written member | corrected member |
|---|---|---|---|---|---|---|
| spirogen/interface/ColorSchemeTab.py:288-302 | `def_r`, `def_g` and `def_b` are bound to the tab's own channels, so each list is compared with itself and the function always returns True | the colour dictionary `r = g = b = [0]` | compare each channel with the default palette `_default` | not executed | ColorSchemeTab.IsDefaultColorsAsWritten, with ColorSchemeTab.IsDefaultColorsDiscrepancy | ColorSchemeTab.IsDefaultColorsIntended, used by ColorSchemeTab.ColorSchemeTab.IsDefaultColors |
