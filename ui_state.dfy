/**
 * The small pieces of interface state the app keeps between callbacks: the
 * molecule selections a click on a Sankey node extends, the UMAP zoom box
 * passed between the scatter plot and the filter, and the slider values read
 * back from the filter panel's component tree.
 */
module UiState {
  import opened Wrappers
  import Seqs
  import Text
  import opened Frames
  import Sankey

  // ---- update_filter_value ----

  /** A dropdown's current value: a list of picked names, or anything else (`None`). */
  datatype Picked = Listed(items: seq<string>) | Unlisted

  /**
   * `list(set(current + [name]))` when `current` is a list, else `[name]`.
   * Python's set order is unspecified; the model lists the names in order of first
   * occurrence.
   */
  function UpdateFilterValue(current: Picked, name: string): (r: seq<string>)
    ensures name in r && Seqs.NoDup(r)
    ensures current.Listed? ==> forall x :: x in r <==> x in current.items || x == name
    ensures current.Unlisted? ==> r == [name]
  {
    if current.Listed? then Seqs.Dedup(current.items + [name]) else [name]
  }

  /** Adding a name already picked, to a list without repeats, changes nothing but the order. */
  lemma UpdateFilterValueIdempotent(current: Picked, name: string)
    ensures var once := UpdateFilterValue(current, name);
      forall x :: x in UpdateFilterValue(Listed(once), name) <==> x in once
  {
  }

  // ---- update_filters_click_node ----

  /** One clicked point; `customdata` is `None` when the point has no such key. */
  datatype Point = Point(customdata: Option<Cell>)

  /**
   * A truthy `clickData` dictionary; `points` is `None` when it has no such key.
   * A falsy `clickData` (`None` or `{}`) is `None` in the model.
   */
  datatype ClickData = ClickData(points: Option<seq<Point>>)

  /** The four stage selections the click callback reads and writes. */
  datatype Selections = Selections(ligand: Picked, receptor: Picked, em: Picked, target: Picked)

  /** `click_data_a or click_data_b`. */
  function Clicked(a: Option<ClickData>, b: Option<ClickData>): Option<ClickData>
  {
    if a.Some? then a else b
  }

  /** `click_data["points"][0]["customdata"]`, which must be text for `split`. */
  function CustomData(click: ClickData): (r: Result<string>)
    ensures r.Ok? <==> (click.points.Some? && |click.points.value| > 0
      && click.points.value[0].customdata.Some? && click.points.value[0].customdata.value.Str?)
    ensures r.Ok? ==> r.value == click.points.value[0].customdata.value.s
  {
    match click.points
    case None => Err(KeyError("points"))
    case Some(points) =>
      if |points| == 0 then Err(IndexError)
      else
        match points[0].customdata
        case None => Err(KeyError("customdata"))
        case Some(cell) => if cell.Str? then Ok(cell.s) else Err(AttributeError)
  }

  /** The selections after a click on the node `label_stage`. */
  function AddToStage(sel: Selections, name: string, stage: string): Selections
  {
    if stage == Sankey.Lowercase.ligand then sel.(ligand := Listed(UpdateFilterValue(sel.ligand, name)))
    else if stage == Sankey.Lowercase.receptor then sel.(receptor := Listed(UpdateFilterValue(sel.receptor, name)))
    else if stage == Sankey.Lowercase.em then sel.(em := Listed(UpdateFilterValue(sel.em, name)))
    else if stage == Sankey.Lowercase.target then sel.(target := Listed(UpdateFilterValue(sel.target, name)))
    else sel
  }

  /**
   * `update_filters_click_node`: the label before the first `"_"` of the clicked
   * node's custom data joins the selection of the stage after it. Every exception
   * on the way is caught and leaves the selections as they were.
   */
  function ClickNode(a: Option<ClickData>, b: Option<ClickData>, sel: Selections): Selections
  {
    match Clicked(a, b)
    case None => sel
    case Some(click) =>
      match CustomData(click)
      case Err(_) => sel
      case Ok(id) =>
        match Text.Part(id, '_', 1)
        case None => sel
        case Some(stage) => AddToStage(sel, Text.BeforeFirst(id, '_'), stage)
  }

  /** The selection of one stage: `None` for a name that is not a stage. */
  function StageSelection(sel: Selections, stage: string): Option<Picked>
  {
    if stage == Sankey.Lowercase.ligand then Some(sel.ligand)
    else if stage == Sankey.Lowercase.receptor then Some(sel.receptor)
    else if stage == Sankey.Lowercase.em then Some(sel.em)
    else if stage == Sankey.Lowercase.target then Some(sel.target)
    else None
  }

  predicate IsStage(stage: string)
  {
    stage in [Sankey.Lowercase.ligand, Sankey.Lowercase.receptor, Sankey.Lowercase.em, Sankey.Lowercase.target]
  }

  /** Malformed click data leaves every selection unchanged. */
  lemma MalformedClickKeepsSelections(a: Option<ClickData>, b: Option<ClickData>, sel: Selections)
    requires Clicked(a, b).None? || CustomData(Clicked(a, b).value).Err?
      || Text.Part(CustomData(Clicked(a, b).value).value, '_', 1).None?
      || !IsStage(Text.Part(CustomData(Clicked(a, b).value).value, '_', 1).value)
    ensures ClickNode(a, b, sel) == sel
  {
  }

  /**
   * A click on custom data naming a stage after its first `"_"` adds the text
   * before it to that stage's selection as a set, and changes no other stage.
   */
  lemma ClickAddsLabel(a: Option<ClickData>, b: Option<ClickData>, sel: Selections, stage: string)
    requires Clicked(a, b).Some? && CustomData(Clicked(a, b).value).Ok?
    requires Text.Part(CustomData(Clicked(a, b).value).value, '_', 1) == Some(stage) && IsStage(stage)
    ensures var id := CustomData(Clicked(a, b).value).value;
      var r := ClickNode(a, b, sel);
      var picked := Text.BeforeFirst(id, '_');
      var after := StageSelection(r, stage).value;
      after.Listed? && picked in after.items && Seqs.NoDup(after.items)
      && (forall x :: x in after.items <==> x == picked || (StageSelection(sel, stage).value.Listed? && x in StageSelection(sel, stage).value.items))
      && forall other :: IsStage(other) && other != stage ==> StageSelection(r, other) == StageSelection(sel, other)
  {
  }

  /**
   * Clicking the packaged diagram's node `x + "_" + stage` (one of the four
   * lower-case stages, with no `"_"` in `x`) adds `x` to that stage's selection.
   */
  lemma ClickOnSankeyNode(x: string, stage: string, rest: seq<Point>, sel: Selections)
    requires '_' !in x && IsStage(stage)
    ensures var r := ClickNode(Some(ClickData(Some([Point(Some(Str(x + "_" + stage)))] + rest))), None, sel);
      var after := StageSelection(r, stage).value;
      after.Listed? && x in after.items
      && forall other :: IsStage(other) && other != stage ==> StageSelection(r, other) == StageSelection(sel, other)
  {
    var a := Some(ClickData(Some([Point(Some(Str(x + "_" + stage)))] + rest)));
    assert CustomData(a.value) == Ok(x + "_" + stage);
    NodeIdParts(x, stage);
    ClickAddsLabel(a, None, sel, stage);
  }

  lemma NodeIdParts(x: string, stage: string)
    requires '_' !in x && IsStage(stage)
    ensures Text.Part(x + "_" + stage, '_', 1) == Some(stage)
    ensures Text.BeforeFirst(x + "_" + stage, '_') == x
  {
    assert '_' !in stage;
    Sankey.SplitId(x, stage);
    Text.SplitHeadIsBeforeFirst(x + "_" + stage, '_');
  }

  // ---- the UMAP zoom box ----

  const XRange0 := "xaxis.range[0]"

  /** Python truthiness of a decoded JSON value. */
  predicate CellTruthy(c: Cell)
  {
    match c
    case Str(s) => |s| > 0
    case Num(x) => x != 0.0
    case NA => false
  }

  /**
   * `_umap_callback`: the relayout event is stored only when it carries an x-range.
   * The stored JSON text is modelled by the dictionary it encodes.
   */
  function UmapCallback(relayout: Option<map<string, Cell>>): (r: Option<map<string, Cell>>)
    ensures r.Some? <==> relayout.Some? && XRange0 in relayout.value
  {
    if relayout.Some? && XRange0 in relayout.value then relayout else None
  }

  /**
   * `parse_umap_filter_data`: the decoded box when the stored text is truthy and
   * its `"xaxis.range[0]"` is truthy, else `{}`.
   */
  function ParseUmapFilterData(stored: Option<map<string, Cell>>): (r: map<string, Cell>)
    ensures r != map[] ==> stored.Some? && r == stored.value
    ensures r != map[] ==> XRange0 in r && CellTruthy(r[XRange0])
  {
    if stored.Some? && XRange0 in stored.value && CellTruthy(stored.value[XRange0]) then stored.value else map[]
  }

  /**
   * What the filter receives for a relayout event: the event itself when its
   * x-range starts at a truthy value, and the empty box otherwise (no zoom, a
   * reset, or a range starting at exactly 0).
   */
  lemma UmapRoundTrip(relayout: Option<map<string, Cell>>)
    ensures var box := ParseUmapFilterData(UmapCallback(relayout));
      (relayout.Some? && XRange0 in relayout.value && CellTruthy(relayout.value[XRange0]) ==> box == relayout.value)
      && (relayout.None? || XRange0 !in relayout.value || !CellTruthy(relayout.value[XRange0]) ==> box == map[])
  {
  }

  /** A zoom whose x-range starts at exactly 0 is stored but read back as no box. */
  lemma UmapZeroStartDropped(relayout: map<string, Cell>)
    requires XRange0 in relayout && relayout[XRange0] == Num(0.0)
    ensures UmapCallback(Some(relayout)) == Some(relayout)
    ensures ParseUmapFilterData(UmapCallback(Some(relayout))) == map[]
  {
  }

  // ---- parse_slider_values_from_tree ----

  /** A slider's `id` prop: absent, or a dictionary with or without an `"index"`. */
  datatype SliderId = NoId | IdDict(index: Option<string>)

  datatype Slider = Slider(id: SliderId, value: Cell)

  /** One child of the filter panel; `columns[k]` is the children of its `k`-th child. */
  datatype Panel = Panel(columns: seq<seq<Slider>>)

  /** `s["props"].get("id", {}).get("index", "")`. */
  function IndexOf(s: Slider): string
  {
    match s.id
    case NoId => ""
    case IdDict(index) => if index.Some? then index.value else ""
  }

  /** The sliders of the first two columns of every panel, `IndexError` when a panel has fewer. */
  function Gathered(children: seq<Panel>): (r: Result<seq<Slider>>)
    ensures r.Ok? <==> forall i :: 0 <= i < |children| ==> |children[i].columns| >= 2
    ensures r.Err? ==> r.error == IndexError
  {
    if |children| == 0 then Ok([])
    else
      var n := |children| - 1;
      var c := children[n];
      assert forall i :: 0 <= i < n ==> children[..n][i] == children[i];
      match Gathered(children[..n])
      case Err(e) => Err(e)
      case Ok(sliders) =>
        if |c.columns| < 2 then Err(IndexError) else Ok(sliders + c.columns[0] + c.columns[1])
  }

  /** `_get_slider_value`: the value of the first slider with this index, `None` for `StopIteration`. */
  function FirstValue(sliders: seq<Slider>, index: string): (r: Option<Cell>)
    ensures r.None? <==> forall j :: 0 <= j < |sliders| ==> IndexOf(sliders[j]) != index
    ensures r.Some? ==> exists j :: (0 <= j < |sliders| && IndexOf(sliders[j]) == index
      && r.value == sliders[j].value && forall k :: 0 <= k < j ==> IndexOf(sliders[k]) != index)
  {
    if |sliders| == 0 then None
    else if IndexOf(sliders[0]) == index then Some(sliders[0].value)
    else
      var r := FirstValue(sliders[1..], index);
      if r.Some? then
        var j :| 0 <= j < |sliders[1..]| && IndexOf(sliders[1..][j]) == index
          && r.value == sliders[1..][j].value && forall k :: 0 <= k < j ==> IndexOf(sliders[1..][k]) != index;
        assert forall k :: 0 <= k < j + 1 ==> IndexOf(sliders[k]) != index by {
          forall k | 0 <= k < j + 1 ensures IndexOf(sliders[k]) != index {
            if k > 0 {
              assert sliders[k] == sliders[1..][k - 1];
            }
          }
        }
        r
      else
        assert forall j :: 0 < j < |sliders| ==> sliders[j] == sliders[1..][j - 1];
        r
  }

  const SliderIds := ["sigprob", "tprs", "prs", "p-value"]

  /** Each slider id with the value of its first slider. */
  function SliderMap(sliders: seq<Slider>): map<string, Option<Cell>>
  {
    map id | id in SliderIds :: FirstValue(sliders, id)
  }

  /** The value of every slider id, `None` when the tree has no slider with it. */
  function SliderValues(children: seq<Panel>): Result<map<string, Option<Cell>>>
  {
    var g := Gathered(children);
    if g.Err? then Err(g.error) else Ok(SliderMap(g.value))
  }

  /**
   * Scans `sliders` for the first with this index, the search `next` does over the
   * generator.
   */
  method FindSlider(sliders: seq<Slider>, index: string) returns (r: Option<Cell>)
    ensures r == FirstValue(sliders, index)
  {
    var j := 0;
    while j < |sliders|
      invariant 0 <= j <= |sliders|
      invariant forall k :: 0 <= k < j ==> IndexOf(sliders[k]) != index
    {
      if IndexOf(sliders[j]) == index {
        r := Some(sliders[j].value);
        FirstValueAt(sliders, index, j);
        return;
      }
      j := j + 1;
    }
    r := None;
  }

  lemma FirstValueAt(sliders: seq<Slider>, index: string, j: nat)
    requires j < |sliders| && IndexOf(sliders[j]) == index
    requires forall k :: 0 <= k < j ==> IndexOf(sliders[k]) != index
    ensures FirstValue(sliders, index) == Some(sliders[j].value)
  {
    var r := FirstValue(sliders, index);
    var m :| 0 <= m < |sliders| && IndexOf(sliders[m]) == index
      && r.value == sliders[m].value && forall k :: 0 <= k < m ==> IndexOf(sliders[k]) != index;
    assert m == j;
  }

  lemma {:induction false} GatheredErrPersists(children: seq<Panel>, n: nat)
    requires n <= |children| && Gathered(children[..n]).Err?
    ensures Gathered(children).Err?
  {
    var i :| 0 <= i < n && |children[..n][i].columns| < 2;
    assert children[i] == children[..n][i];
  }

  /** The first loop of `parse_slider_values_from_tree`: `sliders.extend` over the panels. */
  method GatherSliders(children: seq<Panel>) returns (r: Result<seq<Slider>>)
    ensures r == Gathered(children)
  {
    var sliders: seq<Slider> := [];
    var i := 0;
    while i < |children|
      invariant 0 <= i <= |children|
      invariant Gathered(children[..i]) == Ok(sliders)
    {
      var c := children[i];
      assert children[..i + 1][..i] == children[..i];
      if |c.columns| < 2 {
        GatheredErrPersists(children, i + 1);
        return Err(IndexError);
      }
      sliders := sliders + c.columns[0];
      sliders := sliders + c.columns[1];
      i := i + 1;
    }
    assert children[..i] == children;
    r := Ok(sliders);
  }

  /** The second loop: `out[id] = _get_slider_value(sliders, id)` for each id, `None` on `StopIteration`. */
  method LookUpSliders(sliders: seq<Slider>) returns (out: map<string, Option<Cell>>)
    ensures out == SliderMap(sliders)
  {
    out := map id | id in SliderIds :: None;
    var k := 0;
    SliderIdsDistinct();
    while k < |SliderIds|
      invariant 0 <= k <= |SliderIds|
      invariant out.Keys == set id | id in SliderIds
      invariant forall m :: 0 <= m < k ==> out[SliderIds[m]] == FirstValue(sliders, SliderIds[m])
    {
      var v := FindSlider(sliders, SliderIds[k]);
      out := out[SliderIds[k] := v];
      k := k + 1;
    }
    forall id | id in SliderIds ensures out[id] == FirstValue(sliders, id) {
      var m :| 0 <= m < |SliderIds| && SliderIds[m] == id;
    }
  }

  lemma SliderIdsDistinct()
    ensures forall a, b :: 0 <= a < b < |SliderIds| ==> SliderIds[a] != SliderIds[b]
  {
    assert "sigprob"[0] == 's' && "tprs"[0] == 't' && "prs"[0] == 'p' && "p-value"[0] == 'p';
    assert "prs"[1] == 'r' && "p-value"[1] == '-';
  }

  /**
   * `parse_slider_values_from_tree`: gathers the sliders of the panel's first two
   * columns, then looks up each slider id, leaving `None` where none matches.
   */
  method ParseSliderValuesFromTree(children: seq<Panel>) returns (r: Result<map<string, Option<Cell>>>)
    ensures r == SliderValues(children)
  {
    var gathered := GatherSliders(children);
    if gathered.Err? {
      return Err(gathered.error);
    }
    var out := LookUpSliders(gathered.value);
    r := Ok(out);
  }

  /** A slider is gathered exactly when it is in one of the first two columns of some panel. */
  lemma {:induction false} GatheredMembers(children: seq<Panel>, s: Slider)
    requires Gathered(children).Ok?
    ensures s in Gathered(children).value <==>
      exists i, k :: 0 <= i < |children| && 0 <= k < 2 && s in children[i].columns[k]
  {
    if |children| > 0 {
      var n := |children| - 1;
      GatheredMembers(children[..n], s);
      assert forall i :: 0 <= i < n ==> children[..n][i] == children[i];
    }
  }

  /**
   * The slider values: an `IndexError` exactly when a panel has fewer than two
   * columns; otherwise one entry per slider id, holding the value of the first
   * gathered slider with that index, or `None` when no slider has it.
   */
  lemma SliderValuesCharacterised(children: seq<Panel>)
    ensures SliderValues(children).Ok? <==> forall i :: 0 <= i < |children| ==> |children[i].columns| >= 2
    ensures SliderValues(children).Err? ==> SliderValues(children).error == IndexError
    ensures SliderValues(children).Ok? ==>
      SliderValues(children).value.Keys == {"sigprob", "tprs", "prs", "p-value"}
      && forall id :: id in SliderIds ==> SliderValues(children).value[id] == FirstValue(Gathered(children).value, id)
  {
    if SliderValues(children).Ok? {
      assert forall id :: id in SliderIds <==> id in {"sigprob", "tprs", "prs", "p-value"};
    }
  }

  /** A slider id with no slider anywhere in the panels' first two columns maps to `None`. */
  lemma MissingSliderIsNone(children: seq<Panel>, id: string)
    requires Gathered(children).Ok? && id in SliderIds
    requires forall i, k, j :: 0 <= i < |children| && 0 <= k < 2 && 0 <= j < |children[i].columns[k]| ==>
      IndexOf(children[i].columns[k][j]) != id
    ensures SliderValues(children).value[id] == None
  {
    var sliders := Gathered(children).value;
    forall j | 0 <= j < |sliders| ensures IndexOf(sliders[j]) != id {
      GatheredMembers(children, sliders[j]);
    }
  }
}
