/** The pattern tab's parameter bookkeeping: the dispatch on the chosen pattern,
    the default parameter sets, the angle boxes of the radial-angular pattern,
    and the save and load of a pattern. Sliders and Tk variables are reduced to
    the value they hold. */
module PatternTab {
  import opened Common
  import opened Strings
  import Numbers

  /** A parameter value as it is saved and loaded. `Unset` is the value of a
      slider the tab never set; what it reads as is not part of this model. */
  datatype Value = Int(i: int) | Float(x: real) | Str(s: string) | Flag(b: bool)
                 | List(items: seq<Value>) | Unset

  /** An entry of the parameter dictionary: a control (slider, scale or Tk
      variable) that is read by `get` and written by `set`, or a plain value. */
  datatype Entry = Control(v: Value) | Plain(v: Value)

  // ----- Dispatch -----------------------------------------------------------

  datatype PatternKind = LayeredFlowers | RadialAngular | SineSpiral | Spirals

  /** The menu name of each pattern. */
  function KindName(k: PatternKind): string {
    match k
    case LayeredFlowers => "layeredflowers"
    case RadialAngular => "radialangular"
    case SineSpiral => "sinespiral"
    case Spirals => "spirals"
  }

  /** `_setpattern`'s comparison chain: exactly the four menu names select a
      pattern; any other name only clears the tab. */
  function Dispatch(name: string): (k: Option<PatternKind>)
    ensures k.Some? <==> name in {"layeredflowers", "radialangular", "sinespiral", "spirals"}
    ensures k.Some? ==> KindName(k.value) == name
  {
    if name == "layeredflowers" then Some(LayeredFlowers)
    else if name == "radialangular" then Some(RadialAngular)
    else if name == "sinespiral" then Some(SineSpiral)
    else if name == "spirals" then Some(Spirals)
    else None
  }

  /** Each pattern's menu name selects that pattern. */
  lemma DispatchKindName(k: PatternKind)
    ensures Dispatch(KindName(k)) == Some(k)
  {
  }

  /** The parameters the setup of each pattern installs (before any angle box of
      the radial-angular pattern exists). */
  function SetupParameters(k: PatternKind): (p: map<string, Entry>)
    ensures forall key :: key in p ==> p[key].Control?
  {
    match k
    case LayeredFlowers =>
      map["layers" := Control(Int(100)), "npetals" := Control(Int(2)),
          "innerdepth" := Control(Int(1)), "rotate" := Control(Unset),
          "sizefactor" := Control(Unset), "pensize" := Control(Unset)]
    case RadialAngular =>
      map["size" := Control(Int(500)), "pensize" := Control(Unset)]
    case SineSpiral =>
      map["strands" := Control(Int(100)), "xshift" := Control(Int(1)),
          "yshift" := Control(Unset), "rotate" := Control(Unset),
          "rotaterate" := Control(Int(1)), "wavelength" := Control(Int(50)),
          "amplitude" := Control(Int(100)), "wlshift" := Control(Unset),
          "ampshift" := Control(Unset), "length" := Control(Int(30)),
          "pensize" := Control(Unset), "cosine" := Control(Flag(false))]
    case Spirals =>
      map["reps" := Control(Int(60)), "rotation" := Control(Int(5)),
          "curve" := Control(Int(10)), "diameter" := Control(Int(10)),
          "scale" := Control(Int(20)), "poly" := Control(Int(400)),
          "centerdist" := Control(Int(0))]
  }

  // ----- Angle boxes --------------------------------------------------------

  /** The text of an angle or curve box: typed (or set from a string or an
      integer), or set from a float, whose Tcl text reads back as that float. */
  datatype BoxText = Typed(s: string) | Number(x: real)

  /** The angle box and the curve box of one angle. */
  datatype AngleBox = AngleBox(angle: BoxText, curve: BoxText)

  /** `float(val)`, or `len(val)` when the text is not a number. */
  function ParseBox(t: BoxText): (v: Value)
    ensures v.Int? || v.Float?
    ensures t.Number? ==> v == Float(t.x)
    ensures t.Typed? && Numbers.ParseFloat(t.s).Some? ==> v == Float(Numbers.ParseFloat(t.s).value)
    ensures t.Typed? && Numbers.ParseFloat(t.s).None? ==> v == Int(|t.s|)
  {
    match t
    case Number(x) => Float(x)
    case Typed(s) =>
      match Numbers.ParseFloat(s)
      case Some(x) => Float(x)
      case None => Int(|s|)
  }

  /** `i[0] != 0` fails: the angle is the number zero. */
  predicate ZeroAngle(row: seq<Value>) {
    |row| > 0 && (row[0] == Int(0) || row[0] == Float(0.0))
  }

  /** `[i for i in angles if i[0] != 0]` */
  function KeepNonZero(rows: seq<seq<Value>>): (kept: seq<seq<Value>>)
    ensures |kept| <= |rows|
  {
    if rows == [] then []
    else KeepNonZero(rows[..|rows| - 1]) + (if ZeroAngle(rows[|rows| - 1]) then [] else [rows[|rows| - 1]])
  }

  /** The parsed `[angle, curve]` pair of every box. */
  function ParsedRows(boxes: seq<AngleBox>): (rows: seq<seq<Value>>)
    ensures |rows| == |boxes|
  {
    seq(|boxes|, i requires 0 <= i < |boxes| => [ParseBox(boxes[i].angle), ParseBox(boxes[i].curve)])
  }

  /** The value `set_angles` stores under `angles`. */
  function AnglesOf(boxes: seq<AngleBox>): seq<seq<Value>> {
    KeepNonZero(ParsedRows(boxes))
  }

  /** `set_angles` after the box texts are read: each text is converted in
      place, then the pairs with a zero angle are dropped. */
  method ParseAngles(boxes: seq<AngleBox>) returns (angles: seq<seq<Value>>)
    ensures angles == AnglesOf(boxes)
  {
    var rows: seq<seq<Value>> := [];
    for i := 0 to |boxes|
      invariant rows == ParsedRows(boxes)[..i]
    {
      var texts := [boxes[i].angle, boxes[i].curve];
      var row: seq<Value> := [];
      for j := 0 to |texts|
        invariant row == seq(j, m requires 0 <= m < j => ParseBox(texts[m]))
      {
        row := row + [ParseBox(texts[j])];
      }
      assert row == ParsedRows(boxes)[i];
      assert ParsedRows(boxes)[..i + 1] == ParsedRows(boxes)[..i] + [ParsedRows(boxes)[i]];
      rows := rows + [row];
    }
    assert rows == ParsedRows(boxes);
    angles := [];
    for i := 0 to |rows|
      invariant angles == KeepNonZero(rows[..i])
    {
      assert rows[..i + 1][..i] == rows[..i];
      if !ZeroAngle(rows[i]) {
        angles := angles + [rows[i]];
      }
    }
    assert rows[..|rows|] == rows;
  }

  /** The filter keeps exactly the rows with a non-zero angle ... */
  lemma {:induction false} KeepNonZeroMembers(rows: seq<seq<Value>>)
    ensures forall r :: r in KeepNonZero(rows) <==> r in rows && !ZeroAngle(r)
  {
    if rows != [] {
      KeepNonZeroMembers(rows[..|rows| - 1]);
      assert rows == rows[..|rows| - 1] + [rows[|rows| - 1]];
    }
  }

  /** ... in their order: filtering a concatenation filters each part. */
  lemma {:induction false} KeepNonZeroAppend(a: seq<seq<Value>>, b: seq<seq<Value>>)
    ensures KeepNonZero(a + b) == KeepNonZero(a) + KeepNonZero(b)
  {
    if b == [] {
      assert a + b == a;
    } else {
      var last := b[|b| - 1];
      assert (a + b)[..|a + b| - 1] == a + b[..|b| - 1];
      assert (a + b)[|a + b| - 1] == last;
      KeepNonZeroAppend(a, b[..|b| - 1]);
    }
  }

  /** An empty box reads as angle 0 (`len('')`), so its pair is dropped. */
  lemma EmptyAngleDropped(curve: BoxText)
    ensures AnglesOf([AngleBox(Typed(""), curve)]) == []
  {
    assert Numbers.ParseFloat("").None?;
    assert ParsedRows([AngleBox(Typed(""), curve)]) == [[Int(0), ParseBox(curve)]];
  }

  /** The box `_make_angle_boxes` gives position `i` when no previous box
      exists there. */
  function DefaultBox(i: nat): AngleBox {
    if i == 0 then AngleBox(Typed(Numbers.IntToString(125)), Typed(Numbers.IntToString(5)))
    else AngleBox(Typed(Numbers.IntToString(0)), Typed(Numbers.IntToString(0)))
  }

  /** The boxes after rendering `n` of them: earlier settings are carried over
      position by position, the rest take the defaults. */
  function CarriedBoxes(prev: seq<AngleBox>, n: int): (boxes: seq<AngleBox>)
    ensures |boxes| == if n < 0 then 0 else n
    ensures forall i :: 0 <= i < |boxes| ==> boxes[i] == (if i < |prev| then prev[i] else DefaultBox(i))
  {
    seq(if n < 0 then 0 else n, i requires i >= 0 => if i < |prev| then prev[i] else DefaultBox(i))
  }

  /** Rendering one more box appends that box. */
  lemma CarriedBoxesStep(prev: seq<AngleBox>, i: nat)
    ensures CarriedBoxes(prev, i + 1) == CarriedBoxes(prev, i) + [if i < |prev| then prev[i] else DefaultBox(i)]
  {
  }

  /** Re-rendering the same number of boxes loses no setting. */
  lemma CarriedBoxesSameCount(prev: seq<AngleBox>)
    ensures CarriedBoxes(prev, |prev|) == prev
  {
  }

  /** Growing the number of boxes and shrinking it again gives what shrinking
      alone gives: settings beyond the smaller count are not remembered. */
  lemma CarriedBoxesShrink(prev: seq<AngleBox>, m: int, n: int)
    requires n <= m
    ensures CarriedBoxes(CarriedBoxes(prev, m), n) == CarriedBoxes(prev, n)
  {
  }

  /** The text of a box set from an integer reads back as that number. */
  lemma ParseBoxOfInt(n: int)
    ensures ParseBox(Typed(Numbers.IntToString(n))) == Float(n as real)
  {
    Numbers.ParseFloatIntToString(n);
  }

  /** Rows whose angles are all zero are all dropped. */
  lemma {:induction false} AllZeroDropped(rows: seq<seq<Value>>)
    requires forall i :: 0 <= i < |rows| ==> ZeroAngle(rows[i])
    ensures KeepNonZero(rows) == []
  {
    if rows != [] {
      AllZeroDropped(rows[..|rows| - 1]);
    }
  }

  /** A fresh radial-angular pattern draws one angle, 125 with curve 5, however
      many boxes are shown: the later default boxes hold angle 0. */
  lemma {:induction false} FreshBoxesAngles(n: int)
    requires n >= 1
    ensures AnglesOf(CarriedBoxes([], n)) == [[Float(125.0), Float(5.0)]]
  {
    var rows := ParsedRows(CarriedBoxes([], n));
    ParseBoxOfInt(125);
    ParseBoxOfInt(5);
    ParseBoxOfInt(0);
    assert rows[0] == [Float(125.0), Float(5.0)];
    assert rows == [rows[0]] + rows[1..];
    assert forall i :: 0 <= i < |rows[1..]| ==> rows[1..][i] == [Float(0.0), Float(0.0)];
    AllZeroDropped(rows[1..]);
    KeepNonZeroAppend([rows[0]], rows[1..]);
    assert KeepNonZero([rows[0]]) == [rows[0]] by {
      assert [rows[0]][..0] == [];
    }
  }

  // ----- Load merge ---------------------------------------------------------

  /** How far a merge got: the parameters and what it raised. */
  datatype MergeResult = MergeResult(params: map<string, Entry>, outcome: Outcome)

  /** The key-by-key merge at the end of `load`: a key holding a list is left
      alone, a control is set, a key that is absent is added as a plain value,
      and a plain non-list value has no `set`, which raises `AttributeError` and
      stops the merge with the keys before it merged. */
  function Merge(p: map<string, Entry>, data: seq<(string, Value)>): MergeResult
    decreases |data|
  {
    if data == [] then MergeResult(p, Done)
    else
      var k := data[0].0;
      var v := data[0].1;
      if k !in p then Merge(p[k := Plain(v)], data[1..])
      else if p[k].Plain? && p[k].v.List? then Merge(p, data[1..])
      else if p[k].Control? then Merge(p[k := Control(v)], data[1..])
      else MergeResult(p, Raised(AttributeError))
  }

  predicate DistinctKeys(data: seq<(string, Value)>) {
    forall i, j :: 0 <= i < j < |data| ==> data[i].0 != data[j].0
  }

  /** `p[k]` has no `set`. */
  predicate Blocks(p: map<string, Entry>, k: string) {
    k in p && p[k].Plain? && !p[k].v.List?
  }

  /** What merging one key does to the entry already there. */
  function MergedEntry(p: map<string, Entry>, k: string, v: Value): Entry
    requires !Blocks(p, k)
  {
    if k !in p then Plain(v) else if p[k].Plain? then p[k] else Control(v)
  }

  /** Only the keys of the data can change, and a merge fails only on a key
      whose entry has no `set`. */
  lemma {:induction false} MergeFrame(p: map<string, Entry>, data: seq<(string, Value)>, k: string)
    requires forall i :: 0 <= i < |data| ==> data[i].0 != k
    ensures (k in Merge(p, data).params <==> k in p)
    ensures k in p ==> Merge(p, data).params[k] == p[k]
    decreases |data|
  {
    if data != [] {
      var d := data[0].0;
      var v := data[0].1;
      assert d != k;
      if d !in p {
        MergeFrame(p[d := Plain(v)], data[1..], k);
      } else if p[d].Plain? && p[d].v.List? {
        MergeFrame(p, data[1..], k);
      } else if p[d].Control? {
        MergeFrame(p[d := Control(v)], data[1..], k);
      }
    }
  }

  /** Merging a key that does not block leaves the rest of the merge to work on
      the updated parameters, in which the remaining keys find what they found
      before. */
  lemma MergeHead(p: map<string, Entry>, data: seq<(string, Value)>)
    requires DistinctKeys(data) && data != [] && !Blocks(p, data[0].0)
    ensures var q := p[data[0].0 := MergedEntry(p, data[0].0, data[0].1)];
      Merge(p, data) == Merge(q, data[1..]) && DistinctKeys(data[1..])
      && (forall i :: 0 <= i < |data| - 1 ==> data[1..][i] == data[i + 1] && data[1..][i].0 != data[0].0)
      && (forall k :: k != data[0].0 ==> (k in q <==> k in p) && (k in p ==> q[k] == p[k]))
  {
    var k := data[0].0;
    if k in p && p[k].Plain? {
      assert p[k := MergedEntry(p, k, data[0].1)] == p;
    }
  }

  /** With distinct keys, the merge succeeds exactly when no key of the data
      names a plain non-list entry, and otherwise raises `AttributeError`. */
  lemma {:induction false} MergeSucceeds(p: map<string, Entry>, data: seq<(string, Value)>)
    requires DistinctKeys(data)
    ensures Merge(p, data).outcome == Done <==> forall i :: 0 <= i < |data| ==> !Blocks(p, data[i].0)
    ensures Merge(p, data).outcome == Done || Merge(p, data).outcome == Raised(AttributeError)
    decreases |data|
  {
    if data != [] && !Blocks(p, data[0].0) {
      var q := p[data[0].0 := MergedEntry(p, data[0].0, data[0].1)];
      MergeHead(p, data);
      MergeSucceeds(q, data[1..]);
      assert forall i :: 0 <= i < |data| - 1 ==> (Blocks(q, data[1..][i].0) <==> Blocks(p, data[i + 1].0));
      assert forall i :: 1 <= i < |data| ==> data[i] == data[1..][i - 1];
    }
  }

  /** After a successful merge with distinct keys, every key of the data holds
      its merged entry. */
  lemma {:induction false} MergeValues(p: map<string, Entry>, data: seq<(string, Value)>)
    requires DistinctKeys(data) && Merge(p, data).outcome == Done
    ensures forall i :: 0 <= i < |data| ==>
      (!Blocks(p, data[i].0) && data[i].0 in Merge(p, data).params &&
       Merge(p, data).params[data[i].0] == MergedEntry(p, data[i].0, data[i].1))
    decreases |data|
  {
    if data != [] {
      MergeSucceeds(p, data);
      var k := data[0].0;
      var q := p[k := MergedEntry(p, k, data[0].1)];
      MergeHead(p, data);
      MergeValues(q, data[1..]);
      MergeFrame(q, data[1..], k);
      assert forall i :: 0 <= i < |data| - 1 ==>
        MergedEntry(q, data[1..][i].0, data[1..][i].1) == MergedEntry(p, data[i + 1].0, data[i + 1].1);
      assert forall i :: 1 <= i < |data| ==> data[i] == data[1..][i - 1];
    }
  }

  /** The value `save` writes for an entry: `get()` of a control, the plain
      value itself. */
  function SavedValue(e: Entry): Value {
    e.v
  }

  /** The `parameters` map of a saved pattern. */
  function SavedParameters(p: map<string, Entry>): (s: map<string, Value>)
    ensures s.Keys == p.Keys
    ensures forall k :: k in p ==> s[k] == SavedValue(p[k])
  {
    map k | k in p :: SavedValue(p[k])
  }

  /** Loading what was just saved back into the same parameters changes nothing,
      provided every entry can take it back (none is a plain non-list value). */
  lemma {:induction false} MergeSavedIsIdentity(p: map<string, Entry>, data: seq<(string, Value)>)
    requires forall i :: 0 <= i < |data| ==> data[i].0 in p && data[i].1 == SavedParameters(p)[data[i].0]
    requires forall k :: !Blocks(p, k)
    ensures Merge(p, data) == MergeResult(p, Done)
    decreases |data|
  {
    if data != [] {
      var k := data[0].0;
      assert k in p && data[0].1 == p[k].v;
      MergeSavedIsIdentity(p, data[1..]);
      if p[k].Control? {
        assert p[k := Control(data[0].1)] == p;
      } else {
        assert !Blocks(p, k);
      }
      assert Merge(p, data) == Merge(p, data[1..]);
    }
  }

  /** A list stays as it is whatever the data holds for its key. */
  lemma {:induction false} MergeKeepsLists(p: map<string, Entry>, data: seq<(string, Value)>, k: string)
    requires k in p && p[k].Plain? && p[k].v.List?
    ensures k in Merge(p, data).params && Merge(p, data).params[k] == p[k]
    decreases |data|
  {
    if data != [] {
      var d := data[0].0;
      var v := data[0].1;
      if d !in p {
        MergeKeepsLists(p[d := Plain(v)], data[1..], k);
      } else if p[d].Plain? && p[d].v.List? {
        MergeKeepsLists(p, data[1..], k);
      } else if p[d].Control? {
        MergeKeepsLists(p[d := Control(v)], data[1..], k);
      }
    }
  }

  // ----- Values read from a loaded pattern ---------------------------------

  /** `data['parameters'][k]` on the loaded key/value pairs. */
  function Lookup(data: seq<(string, Value)>, k: string): (r: Option<Value>)
    ensures r.Some? <==> exists i :: 0 <= i < |data| && data[i].0 == k
    ensures r.Some? ==> exists i :: 0 <= i < |data| && data[i] == (k, r.value)
  {
    if data == [] then None
    else if data[0].0 == k then Some(data[0].1)
    else
      var r := Lookup(data[1..], k);
      assert forall i :: 1 <= i < |data| ==> data[i] == data[1..][i - 1];
      assert forall i :: 0 <= i < |data[1..]| ==> data[1..][i] == data[i + 1];
      r
  }

  /** The elements `len` and indexing see: a list's items, a string's
      one-character strings; numbers and booleans have no length. */
  function Items(v: Value): (r: Result<seq<Value>>)
    ensures v.List? ==> r == Ok(v.items)
    ensures v.Str? ==> r.Ok? && |r.value| == |v.s|
    ensures (v.Int? || v.Float? || v.Flag?) ==> r == Err(TypeError)
  {
    match v
    case List(xs) => Ok(xs)
    case Str(s) => Ok(seq(|s|, i requires 0 <= i < |s| => Str([s[i]])))
    case Unset => Err(Unmodelled)
    case _ => Err(TypeError)
  }

  /** `v[j]` */
  function Subscript(v: Value, j: nat): (r: Result<Value>)
    ensures Items(v).Ok? && j < |Items(v).value| ==> r == Ok(Items(v).value[j])
    ensures Items(v).Ok? && j >= |Items(v).value| ==> r == Err(IndexError)
    ensures Items(v).Err? ==> r == Err(Items(v).error)
  {
    match Items(v)
    case Err(e) => Err(e)
    case Ok(xs) => if j < |xs| then Ok(xs[j]) else Err(IndexError)
  }

  /** The text a box shows after `StringVar.set(v)`. */
  function BoxTextOf(v: Value): (r: Result<BoxText>)
    ensures v.Int? ==> r == Ok(Typed(Numbers.IntToString(v.i)))
    ensures v.Float? ==> r == Ok(Number(v.x))
    ensures v.Str? ==> r == Ok(Typed(v.s))
  {
    match v
    case Int(n) => Ok(Typed(Numbers.IntToString(n)))
    case Float(x) => Ok(Number(x))
    case Str(s) => Ok(Typed(s))
    case _ => Err(Unmodelled)
  }

  /** `angles[i][j]` as box text. */
  function TextAt(item: Value, j: nat): Result<BoxText> {
    match Subscript(item, j)
    case Err(e) => Err(e)
    case Ok(v) => BoxTextOf(v)
  }

  /** The boxes as `load` fills them from the loaded angle pairs, from pair `i`
      on: the angle box, then the curve box, stopping at the first value that
      cannot be read, with the writes before it kept. */
  function FillBoxes(boxes: seq<AngleBox>, items: seq<Value>, i: nat): (r: (seq<AngleBox>, Outcome))
    requires |boxes| == |items| && i <= |items|
    ensures |r.0| == |boxes|
    decreases |items| - i
  {
    if i == |items| then (boxes, Done)
    else match TextAt(items[i], 0)
      case Err(e) => (boxes, Raised(e))
      case Ok(a) =>
        var b1 := boxes[i := boxes[i].(angle := a)];
        match TextAt(items[i], 1)
        case Err(e) => (b1, Raised(e))
        case Ok(c) => FillBoxes(b1[i := b1[i].(curve := c)], items, i + 1)
  }

  /** A number written into a box reads back as that number: an integer as
      its decimal text, a float as itself. */
  lemma BoxTextReadsBack(v: Value)
    requires v.Int? || v.Float?
    ensures BoxTextOf(v).Ok?
    ensures v.Int? ==> ParseBox(BoxTextOf(v).value) == Float(v.i as real)
    ensures v.Float? ==> ParseBox(BoxTextOf(v).value) == Float(v.x)
  {
    if v.Int? {
      ParseBoxOfInt(v.i);
    }
  }

  /** One pair whose two values can be read fills its box. */
  lemma FillBoxesUnfold(boxes: seq<AngleBox>, items: seq<Value>, i: nat)
    requires |boxes| == |items| && i < |items|
    requires TextAt(items[i], 0).Ok? && TextAt(items[i], 1).Ok?
    ensures FillBoxes(boxes, items, i)
         == FillBoxes(boxes[i := AngleBox(TextAt(items[i], 0).value, TextAt(items[i], 1).value)], items, i + 1)
  {
    var a := TextAt(items[i], 0).value;
    var b1 := boxes[i := boxes[i].(angle := a)];
    assert b1[i := b1[i].(curve := TextAt(items[i], 1).value)]
        == boxes[i := AngleBox(a, TextAt(items[i], 1).value)];
  }

  /** Loaded pairs whose values can all be read fill every box with their texts. */
  lemma {:induction false} FillBoxesPairs(boxes: seq<AngleBox>, items: seq<Value>, i: nat)
    requires |boxes| == |items| && i <= |items|
    requires forall m :: i <= m < |items| ==> TextAt(items[m], 0).Ok? && TextAt(items[m], 1).Ok?
    ensures FillBoxes(boxes, items, i).1 == Done
    ensures forall m :: 0 <= m < |items| ==>
      (FillBoxes(boxes, items, i).0[m]
       == if m < i then boxes[m] else AngleBox(TextAt(items[m], 0).value, TextAt(items[m], 1).value))
    decreases |items| - i
  {
    if i < |items| {
      var next := boxes[i := AngleBox(TextAt(items[i], 0).value, TextAt(items[i], 1).value)];
      FillBoxesUnfold(boxes, items, i);
      FillBoxesPairs(next, items, i + 1);
    }
  }

  /** A saved `[angle, curve]` pair of floats with a non-zero angle. */
  predicate FloatPair(v: Value) {
    v.List? && |v.items| == 2 && v.items[0].Float? && v.items[1].Float? && v.items[0].x != 0.0
  }

  /** The rows of a saved `angles` list; an item that is not a list has none. */
  function SavedRows(items: seq<Value>): (rows: seq<seq<Value>>)
    ensures |rows| == |items|
  {
    seq(|items|, m requires 0 <= m < |items| => if items[m].List? then items[m].items else [])
  }

  /** The filter keeps every row when no angle is zero. */
  lemma {:induction false} KeepNonZeroAll(rows: seq<seq<Value>>)
    requires forall i :: 0 <= i < |rows| ==> !ZeroAngle(rows[i])
    ensures KeepNonZero(rows) == rows
  {
    if rows != [] {
      KeepNonZeroAll(rows[..|rows| - 1]);
      assert rows == rows[..|rows| - 1] + [rows[|rows| - 1]];
    }
  }

  /** Angles saved as float pairs with non-zero angles load into boxes that
      recompute exactly those angles. */
  lemma AnglesReload(boxes: seq<AngleBox>, items: seq<Value>)
    requires |boxes| == |items|
    requires forall m :: 0 <= m < |items| ==> FloatPair(items[m])
    ensures FillBoxes(boxes, items, 0).1 == Done
    ensures AnglesOf(FillBoxes(boxes, items, 0).0) == SavedRows(items)
  {
    FillBoxesPairs(boxes, items, 0);
    var filled := FillBoxes(boxes, items, 0).0;
    var rows := SavedRows(items);
    forall m | 0 <= m < |items|
      ensures ParsedRows(filled)[m] == rows[m]
    {
      assert filled[m] == AngleBox(Number(items[m].items[0].x), Number(items[m].items[1].x));
      assert rows[m] == [items[m].items[0], items[m].items[1]];
    }
    assert ParsedRows(filled) == rows;
    KeepNonZeroAll(rows);
  }

  /** The parameters after `n` angle boxes are rendered over `p`: the turn-cycle
      and jank scales are (re)created at 0 when there are two boxes or more, and
      `angles` is recomputed when there is at least one. */
  function RenderedParameters(p: map<string, Entry>, n: int, boxes: seq<AngleBox>): map<string, Entry> {
    var q := if n >= 2 then p["turncycle" := Control(Int(0))]["jank" := Control(Int(0))] else p;
    if n >= 1 then q["angles" := Plain(AnglesValue(AnglesOf(boxes)))] else q
  }

  /** One iteration of the rendering loop: the scales are added at the second
      box, then `angles` is recomputed over the boxes so far. */
  lemma RenderedStep(p: map<string, Entry>, i: nat, boxes: seq<AngleBox>, box: AngleBox)
    ensures (var q := RenderedParameters(p, i, boxes);
             var q1 := if i == 1 then q["turncycle" := Control(Int(0))]["jank" := Control(Int(0))] else q;
             q1["angles" := Plain(AnglesValue(AnglesOf(boxes + [box])))])
         == RenderedParameters(p, i + 1, boxes + [box])
  {
  }

  /** Recomputing `angles` after a box changed gives the rendering of the new
      boxes. */
  lemma RenderedRecompute(p: map<string, Entry>, n: int, before: seq<AngleBox>, after: seq<AngleBox>)
    requires n >= 1
    ensures RenderedParameters(p, n, before)["angles" := Plain(AnglesValue(AnglesOf(after)))]
         == RenderedParameters(p, n, after)
  {
  }

  /** The angles as saved: a list of `[angle, curve]` lists. */
  function AnglesValue(rows: seq<seq<Value>>): Value {
    List(seq(|rows|, i requires 0 <= i < |rows| => List(rows[i])))
  }

  /** The parameters of a freshly selected radial-angular pattern: one box. */
  function FreshRadial(): map<string, Entry> {
    RenderedParameters(SetupParameters(RadialAngular), 1, [DefaultBox(0)])
  }

  /** A fresh radial-angular pattern holds its size, pen size and the single
      default angle. */
  lemma FreshRadialParameters()
    ensures FreshRadial().Keys == {"size", "pensize", "angles"}
    ensures FreshRadial()["angles"] == Plain(List([List([Float(125.0), Float(5.0)])]))
  {
    FreshBoxesAngles(1);
    assert CarriedBoxes([], 1) == [DefaultBox(0)];
    assert AnglesValue([[Float(125.0), Float(5.0)]]) == List([List([Float(125.0), Float(5.0)])]);
  }

  /** The parameters `_setpattern` leaves: the chosen pattern's setup, or the old
      ones for an unknown name. */
  function SelectedParameters(p: map<string, Entry>, name: string): map<string, Entry> {
    match Dispatch(name)
    case None => p
    case Some(RadialAngular) => FreshRadial()
    case Some(k) => SetupParameters(k)
  }

  /** The saved form of a pattern. */
  datatype PatternRecord = PatternRecord(patterntype: string, parameters: map<string, Value>)

  /** A loaded pattern: its type and its parameters in file order. */
  datatype PatternData = PatternData(patterntype: string, parameters: seq<(string, Value)>)

  // ----- The tab ------------------------------------------------------------

  class PatternTab {
    var patternType: string              // the pattern menu's selection
    var parameters: map<string, Entry>
    var angleBoxes: seq<AngleBox>        // the angle and curve texts of each box
    var nAngles: int                     // the "Number of Angles" menu; 0 before one exists
    var turnControlsShown: bool          // the turn-cycle and jank scales are on the grid

    /** `__init__`: the menu starts on the layered-flowers pattern. */
    constructor ()
      ensures patternType == "layeredflowers" && parameters == SetupParameters(LayeredFlowers)
      ensures angleBoxes == [] && nAngles == 0 && !turnControlsShown
    {
      patternType := "";
      parameters := map[];
      angleBoxes := [];
      nAngles := 0;
      turnControlsShown := false;
      new;
      SelectPattern("layeredflowers");
    }

    /** `set_angles`: `angles` is recomputed from the boxes. */
    method SetAngles()
      modifies this`parameters
      ensures parameters == old(parameters)["angles" := Plain(AnglesValue(AnglesOf(angleBoxes)))]
    {
      var angles := ParseAngles(angleBoxes);
      parameters := parameters["angles" := Plain(AnglesValue(angles))];
    }

    /** `_make_angle_boxes`, run when the number of angles changes: box `i` keeps
        the previous box `i`'s texts or takes the defaults, and the turn-cycle and
        jank scales are taken off the grid and recreated only for two boxes or
        more. */
    method MakeAngleBoxes()
      modifies this`parameters, this`angleBoxes, this`turnControlsShown
      ensures angleBoxes == CarriedBoxes(old(angleBoxes), nAngles)
      ensures parameters == RenderedParameters(old(parameters), nAngles, angleBoxes)
      ensures turnControlsShown == (nAngles >= 2)
    {
      var prev := angleBoxes;
      var n := if nAngles < 0 then 0 else nAngles;
      angleBoxes := [];
      turnControlsShown := false;
      for i := 0 to n
        invariant angleBoxes == CarriedBoxes(prev, i)
        invariant parameters == RenderedParameters(old(parameters), i, angleBoxes)
        invariant turnControlsShown == (i >= 2)
      {
        var box := if i < |prev| then prev[i] else DefaultBox(i);
        CarriedBoxesStep(prev, i);
        AddAngleBox(old(parameters), i, box);
      }
    }

    /** One iteration of `_make_angle_boxes`' loop: box `i` is added (with the
        scales at the second box) and `angles` recomputed. */
    method AddAngleBox(ghost base: map<string, Entry>, i: nat, box: AngleBox)
      requires parameters == RenderedParameters(base, i, angleBoxes)
      modifies this`parameters, this`angleBoxes, this`turnControlsShown
      ensures angleBoxes == old(angleBoxes) + [box]
      ensures parameters == RenderedParameters(base, i + 1, angleBoxes)
      ensures turnControlsShown == (if i == 1 then true else old(turnControlsShown))
    {
      if i == 1 {
        parameters := parameters["turncycle" := Control(Int(0))]["jank" := Control(Int(0))];
        turnControlsShown := true;
      }
      RenderedStep(base, i, angleBoxes, box);
      angleBoxes := angleBoxes + [box];
      SetAngles();
    }

    /** `_setpattern`: the tab is cleared and the chosen pattern set up; a
        radial-angular pattern starts with one default angle box. */
    method SelectPattern(name: string)
      modifies this
      ensures patternType == name && !turnControlsShown
      ensures parameters == SelectedParameters(old(parameters), name)
      ensures Dispatch(name) == Some(RadialAngular) ==> angleBoxes == [DefaultBox(0)] && nAngles == 1
      ensures Dispatch(name) != Some(RadialAngular) ==>
        angleBoxes == old(angleBoxes) && nAngles == old(nAngles)
      ensures name == "radialangular" ==> parameters == FreshRadial()
      ensures name != "radialangular" ==> angleBoxes == old(angleBoxes) && nAngles == old(nAngles)
    {
      patternType := name;
      turnControlsShown := false;
      var kind := Dispatch(name);
      if kind == Some(RadialAngular) {
        parameters := SetupParameters(RadialAngular);
        angleBoxes := [];
        nAngles := 1;
        MakeAngleBoxes();
        assert CarriedBoxes([], 1) == [DefaultBox(0)];
      } else if kind.Some? {
        parameters := SetupParameters(kind.value);
      }
    }

    /** `save`: the pattern type and every parameter's value. */
    method Save() returns (record: PatternRecord)
      ensures record == PatternRecord(patternType, SavedParameters(parameters))
    {
      var params: map<string, Value> := map[];
      var keys := parameters.Keys;
      while keys != {}
        invariant keys <= parameters.Keys
        invariant params.Keys == parameters.Keys - keys
        invariant forall k :: k in params ==> params[k] == SavedValue(parameters[k])
        decreases |keys|
      {
        var k :| k in keys;
        match parameters[k] {
          case Control(v) => params := params[k := v];
          case Plain(v) => params := params[k := v];
        }
        keys := keys - {k};
      }
      record := PatternRecord(patternType, params);
    }

    /** `load`: the pattern is selected, a radial-angular pattern's boxes are
        rebuilt and filled from the saved angles, and the parameters are merged
        key by key. */
    method Load(data: PatternData) returns (outcome: Outcome)
      modifies this
      ensures patternType == data.patterntype
      ensures data.patterntype != "radialangular" ==>
        MergeResult(parameters, outcome) == Merge(SelectedParameters(old(parameters), data.patterntype), data.parameters)
      ensures data.patterntype != "radialangular" ==>
        angleBoxes == old(angleBoxes) && nAngles == old(nAngles) && !turnControlsShown
      ensures data.patterntype == "radialangular" ==>
        var look := Lookup(data.parameters, "angles");
        if look.None? then
          outcome == Raised(KeyError) && parameters == FreshRadial()
          && angleBoxes == [DefaultBox(0)] && nAngles == 1 && !turnControlsShown
        else if Items(look.value).Err? then
          outcome == Raised(Items(look.value).error) && parameters == FreshRadial()
          && angleBoxes == [DefaultBox(0)] && nAngles == 1 && !turnControlsShown
        else
          var items := Items(look.value).value;
          var fill := FillBoxes(CarriedBoxes([DefaultBox(0)], |items|), items, 0);
          angleBoxes == fill.0 && nAngles == |items| && turnControlsShown == (|items| >= 2)
          && (fill.1.Raised? ==> outcome == fill.1 && parameters == RenderedParameters(FreshRadial(), |items|, fill.0))
          && (fill.1 == Done ==>
                MergeResult(parameters, outcome) == Merge(RenderedParameters(FreshRadial(), |items|, fill.0), data.parameters))
    {
      SelectPattern(data.patterntype);
      if data.patterntype != "radialangular" {
        outcome := MergeInto(data.parameters);
        return;
      }
      outcome := LoadRadial(data.parameters);
      if outcome == Done {
        outcome := MergeInto(data.parameters);
      }
    }

    /** The radial-angular branch of `load`, before the merge: the saved
        `angles` are looked up, and their pairs fill as many boxes. */
    method LoadRadial(saved: seq<(string, Value)>) returns (outcome: Outcome)
      requires parameters == FreshRadial() && angleBoxes == [DefaultBox(0)] && nAngles == 1 && !turnControlsShown
      modifies this`parameters, this`angleBoxes, this`turnControlsShown, this`nAngles
      ensures
        var look := Lookup(saved, "angles");
        if look.None? then
          outcome == Raised(KeyError) && parameters == FreshRadial()
          && angleBoxes == [DefaultBox(0)] && nAngles == 1 && !turnControlsShown
        else if Items(look.value).Err? then
          outcome == Raised(Items(look.value).error) && parameters == FreshRadial()
          && angleBoxes == [DefaultBox(0)] && nAngles == 1 && !turnControlsShown
        else
          var items := Items(look.value).value;
          var fill := FillBoxes(CarriedBoxes([DefaultBox(0)], |items|), items, 0);
          angleBoxes == fill.0 && nAngles == |items| && turnControlsShown == (|items| >= 2)
          && outcome == fill.1 && parameters == RenderedParameters(FreshRadial(), |items|, fill.0)
    {
      var look := Lookup(saved, "angles");
      if look.None? {
        return Raised(KeyError);
      }
      var items := Items(look.value);
      if items.Err? {
        return Raised(items.error);
      }
      outcome := LoadAngles(items.value);
    }

    /** The radial-angular part of `load`: as many boxes as saved angles are
        rendered over the one default box, then each box's angle and curve are
        set, each write recomputing `angles`. */
    method LoadAngles(items: seq<Value>) returns (outcome: Outcome)
      requires parameters == FreshRadial() && angleBoxes == [DefaultBox(0)]
      modifies this`parameters, this`angleBoxes, this`turnControlsShown, this`nAngles
      ensures angleBoxes == FillBoxes(CarriedBoxes([DefaultBox(0)], |items|), items, 0).0
      ensures outcome == FillBoxes(CarriedBoxes([DefaultBox(0)], |items|), items, 0).1
      ensures nAngles == |items| && turnControlsShown == (|items| >= 2)
      ensures parameters == RenderedParameters(FreshRadial(), |items|, angleBoxes)
    {
      nAngles := |items|;
      MakeAngleBoxes();
      outcome := FillAllBoxes(FreshRadial(), items);
    }

    /** `load`'s box loop over the rendered boxes, stopping at the first value
        that cannot be read. */
    method FillAllBoxes(ghost base: map<string, Entry>, items: seq<Value>) returns (outcome: Outcome)
      requires |angleBoxes| == |items|
      requires parameters == RenderedParameters(base, |items|, angleBoxes)
      modifies this`parameters, this`angleBoxes
      ensures (angleBoxes, outcome) == FillBoxes(old(angleBoxes), items, 0)
      ensures parameters == RenderedParameters(base, |items|, angleBoxes)
    {
      ghost var fill := FillBoxes(angleBoxes, items, 0);
      for i := 0 to |items|
        invariant |angleBoxes| == |items|
        invariant fill == FillBoxes(angleBoxes, items, i)
        invariant parameters == RenderedParameters(base, |items|, angleBoxes)
      {
        outcome := FillBox(base, items, i);
        if outcome.Raised? {
          return;
        }
      }
      assert FillBoxes(angleBoxes, items, |items|) == (angleBoxes, Done);
      outcome := Done;
    }

    /** One pair of `load`'s box loop: the angle box is set, then the curve box,
        and each write recomputes `angles`. */
    method FillBox(ghost base: map<string, Entry>, items: seq<Value>, i: nat) returns (outcome: Outcome)
      requires i < |angleBoxes| == |items|
      requires parameters == RenderedParameters(base, |items|, angleBoxes)
      modifies this`parameters, this`angleBoxes
      ensures |angleBoxes| == |items|
      ensures parameters == RenderedParameters(base, |items|, angleBoxes)
      ensures outcome.Raised? ==> FillBoxes(old(angleBoxes), items, i) == (angleBoxes, outcome)
      ensures outcome == Done ==> FillBoxes(old(angleBoxes), items, i) == FillBoxes(angleBoxes, items, i + 1)
    {
      var a := TextAt(items[i], 0);
      if a.Err? {
        return Raised(a.error);
      }
      angleBoxes := angleBoxes[i := angleBoxes[i].(angle := a.value)];
      SetAngles();
      RenderedRecompute(base, |items|, old(angleBoxes), angleBoxes);
      var c := TextAt(items[i], 1);
      if c.Err? {
        return Raised(c.error);
      }
      ghost var mid := angleBoxes;
      angleBoxes := angleBoxes[i := angleBoxes[i].(curve := c.value)];
      SetAngles();
      RenderedRecompute(base, |items|, mid, angleBoxes);
      outcome := Done;
    }

    /** The merge loop at the end of `load`. */
    method MergeInto(data: seq<(string, Value)>) returns (outcome: Outcome)
      modifies this`parameters
      ensures MergeResult(parameters, outcome) == Merge(old(parameters), data)
    {
      var i := 0;
      while i < |data|
        invariant 0 <= i <= |data|
        invariant Merge(old(parameters), data) == Merge(parameters, data[i..])
      {
        var k := data[i].0;
        var v := data[i].1;
        assert data[i..][1..] == data[i + 1..];
        if k in parameters {
          if !(parameters[k].Plain? && parameters[k].v.List?) {
            if parameters[k].Control? {
              parameters := parameters[k := Control(v)];
            } else {
              return Raised(AttributeError);
            }
          }
        } else {
          parameters := parameters[k := Plain(v)];
        }
        i := i + 1;
      }
      assert data[i..] == [];
      outcome := Done;
    }
  }
}
