/**
 * The Sankey ("river") builder shared, with small differences, by the
 * packaged app, the two callback modules, `data.py` and `sankey.py`: three
 * stage pairs (ligand to receptor, receptor to EM, EM to target) are counted
 * with `groupby(...).value_counts()`, every node id is a value with its stage
 * column appended, and links point to their ends by position in the id list.
 * The target stage is dropped when it has too many distinct targets.
 */
module Sankey {
  import opened Wrappers
  import Seqs
  import Text
  import opened Frames
  import Network

  /** The four stage column names. */
  datatype Stages = Stages(ligand: string, receptor: string, em: string, target: string)

  /** The lower-case stage columns of the packaged app, `callbacks.py` and `data.py`. */
  const Lowercase := Stages("ligand", "receptor", "em", "target")

  /** The capitalised stage columns of `sankey.py`. */
  const Capitalised := Stages("Ligand", "Receptor", "EM", "Target")

  /**
   * How links are coloured: not at all (`data.py`, `sankey.py`), all "lightgrey",
   * or by the colour of the sender or receiver cluster the row belongs to.
   */
  datatype Coloring = Uncoloured | Grey | ByGroup(column: string, palette: seq<(Cell, Cell)>)

  /** `sankey_color_flow in ["sender", "receiver"]` picks colouring by that column; anything else is grey. */
  function FlowColoring(flow: Option<string>, palette: seq<(Cell, Cell)>): (c: Coloring)
    ensures c.ByGroup? <==> flow == Some("sender") || flow == Some("receiver")
    ensures c.ByGroup? ==> c.column == flow.value && c.palette == palette
    ensures !c.ByGroup? ==> c == Grey
  {
    if flow == Some("sender") || flow == Some("receiver") then ByGroup(flow.value, palette) else Grey
  }

  /** `.astype(str).str.lower()` on a group name; a non-text group is not modelled and matches nothing. */
  function GroupKey(group: Cell): Cell
  {
    if group.Str? then Str(Text.Lower(group.s)) else NA
  }

  /** `.map(dict(zip(index, colors)))`: the last entry for a key wins, an absent key maps to `NaN`. */
  function PaletteColor(palette: seq<(Cell, Cell)>, key: Cell): Cell
  {
    if |palette| == 0 then NA
    else
      var n := |palette| - 1;
      if palette[n].0 == key then palette[n].1 else PaletteColor(palette[..n], key)
  }

  /** A key absent from the palette maps to `NaN`. */
  lemma {:induction false} PaletteColorAbsent(palette: seq<(Cell, Cell)>, key: Cell)
    requires forall i :: 0 <= i < |palette| ==> palette[i].0 != key
    ensures PaletteColor(palette, key) == NA
  {
    if |palette| > 0 {
      var n := |palette| - 1;
      assert forall i :: 0 <= i < n ==> palette[..n][i] == palette[i];
      PaletteColorAbsent(palette[..n], key);
    }
  }

  /** A key present in the palette maps to the colour of its last entry. */
  lemma {:induction false} PaletteColorLast(palette: seq<(Cell, Cell)>, key: Cell) returns (j: nat)
    requires exists i :: 0 <= i < |palette| && palette[i].0 == key
    ensures j < |palette| && palette[j] == (key, PaletteColor(palette, key))
    ensures forall k :: j < k < |palette| ==> palette[k].0 != key
  {
    var n := |palette| - 1;
    if palette[n].0 == key {
      j := n;
    } else {
      var i :| 0 <= i < |palette| && palette[i].0 == key;
      assert palette[..n][i].0 == key;
      j := PaletteColorLast(palette[..n], key);
      assert palette[j] == palette[..n][j];
    }
  }

  /** One row of `_get_values`' output. `group` is missing when links are not coloured by group. */
  datatype Link = Link(source: Cell, group: Cell, target: Cell, value: nat, color: Cell, sourceId: Cell, targetId: Cell)

  /** The columns a stage pair's `groupby(...)[t].value_counts()` reads. */
  function KeyColumns(s: string, t: string, c: Coloring): seq<string>
  {
    if c.ByGroup? then [s, c.column, t] else [s, t]
  }

  /** The rows `groupby(...).value_counts()` counts: those with no key column missing. */
  function Complete(rows: seq<Row>, cols: seq<string>): (r: seq<Row>)
    ensures |r| <= |rows|
    ensures forall i :: 0 <= i < |r| ==> r[i] in rows && !HasNA(r[i], cols)
    ensures forall i :: 0 <= i < |rows| && !HasNA(rows[i], cols) ==> rows[i] in r
  {
    if |rows| == 0 then []
    else
      assert forall i :: 1 <= i < |rows| ==> rows[i] == rows[1..][i - 1];
      if HasNA(rows[0], cols) then Complete(rows[1..], cols) else [rows[0]] + Complete(rows[1..], cols)
  }

  function KeyOf(row: Row, s: string, t: string, c: Coloring): (Cell, Cell, Cell)
  {
    (Lookup(row, s), if c.ByGroup? then Lookup(row, c.column) else NA, Lookup(row, t))
  }

  /** The key of every counted row, in order. */
  function StageKeys(rows: seq<Row>, s: string, t: string, c: Coloring): (r: seq<(Cell, Cell, Cell)>)
    ensures var cs := Complete(rows, KeyColumns(s, t, c));
      |r| == |cs| && forall i :: 0 <= i < |cs| ==> r[i] == KeyOf(cs[i], s, t, c)
  {
    var cs := Complete(rows, KeyColumns(s, t, c));
    seq(|cs|, i requires 0 <= i < |cs| => KeyOf(cs[i], s, t, c))
  }

  function LinkColor(c: Coloring, group: Cell): Cell
  {
    match c
    case Uncoloured => NA
    case Grey => Str("lightgrey")
    case ByGroup(_, palette) => PaletteColor(palette, GroupKey(group))
  }

  /** One counted key as a link: ids are the value, `"_"` and the stage column (`out["source"] + "_" + s`). */
  function LinkOf(entry: ((Cell, Cell, Cell), nat), s: string, t: string, c: Coloring): Link
  {
    var key := entry.0;
    Link(key.0, key.1, key.2, entry.1, LinkColor(c, key.1), CatCell(key.0, Str(s), "_"), CatCell(key.2, Str(t), "_"))
  }

  /** `_get_values(df, s, t)`: one link per distinct key, valued by its number of rows. */
  function Values(rows: seq<Row>, s: string, t: string, c: Coloring): (r: seq<Link>)
    ensures var tally := Seqs.Tally(StageKeys(rows, s, t, c));
      |r| == |tally| && forall i :: 0 <= i < |tally| ==> r[i] == LinkOf(tally[i], s, t, c)
  {
    var tally := Seqs.Tally(StageKeys(rows, s, t, c));
    seq(|tally|, i requires 0 <= i < |tally| => LinkOf(tally[i], s, t, c))
  }

  function Targets(links: seq<Link>): (r: seq<Cell>)
    ensures |r| == |links| && forall i :: 0 <= i < |links| ==> r[i] == links[i].target
  {
    seq(|links|, i requires 0 <= i < |links| => links[i].target)
  }

  /** `_should_display_targets`: forced, or at most `ceiling` distinct targets. */
  predicate ShowTargets(emT: seq<Link>, ceiling: nat, always: bool)
  {
    always || DistinctCount(Targets(emT)) <= ceiling
  }

  /** `len(s.unique())`: each value counted once. */
  function DistinctCount(s: seq<Cell>): nat
  {
    if |s| == 0 then 0
    else DistinctCount(s[..|s| - 1]) + (if s[|s| - 1] in s[..|s| - 1] then 0 else 1)
  }

  /** `pd.concat(included_links)`. */
  function Links(rows: seq<Row>, st: Stages, c: Coloring, ceiling: nat, always: bool): seq<Link>
  {
    var emT := Values(rows, st.em, st.target, c);
    Values(rows, st.ligand, st.receptor, c) + Values(rows, st.receptor, st.em, c)
    + (if ShowTargets(emT, ceiling, always) then emT else [])
  }

  function SourceIds(links: seq<Link>): (r: seq<Cell>)
    ensures |r| == |links| && forall i :: 0 <= i < |links| ==> r[i] == links[i].sourceId
  {
    seq(|links|, i requires 0 <= i < |links| => links[i].sourceId)
  }

  function TargetIds(links: seq<Link>): (r: seq<Cell>)
    ensures |r| == |links| && forall i :: 0 <= i < |links| ==> r[i] == links[i].targetId
  {
    seq(|links|, i requires 0 <= i < |links| => links[i].targetId)
  }

  /**
   * `list(set(source_ids + target_ids))`. Python's set order is unspecified; the
   * model takes first-occurrence order, and nothing below depends on it.
   */
  function Ids(links: seq<Link>): (r: seq<Cell>)
    ensures Seqs.NoDup(r)
    ensures forall x :: x in r <==> x in SourceIds(links) || x in TargetIds(links)
  {
    var all := SourceIds(links) + TargetIds(links);
    var r := Seqs.Dedup(all);
    assert forall x :: x in r <==> x in all by {
      forall x ensures x in r <==> x in all {
        if x in r {
          var i :| 0 <= i < |r| && r[i] == x;
        }
        if x in all {
          var i :| 0 <= i < |all| && all[i] == x;
        }
      }
    }
    r
  }

  /** `x.split("_")[0]`. */
  function Label(id: Cell): Cell
  {
    if id.Str? then Str(Text.BeforeFirst(id.s, '_')) else NA
  }

  /** `next(i for i, e in enumerate(ids) if e == x)`. */
  function Position(ids: seq<Cell>, x: Cell): (r: nat)
    requires x in ids
    ensures r < |ids| && ids[r] == x && forall j :: 0 <= j < r ==> ids[j] != x
  {
    if ids[0] == x then 0
    else
      assert x in ids[1..];
      assert forall j :: 1 <= j < |ids| ==> ids[j] == ids[1..][j - 1];
      1 + Position(ids[1..], x)
  }

  /** The tuple `pathways_df_to_sankey` returns. */
  datatype Diagram = Diagram(ids: seq<Cell>, labels: seq<Cell>, source: seq<nat>, target: seq<nat>, value: seq<nat>, color: seq<Cell>)

  /**
   * The node and link lists of the diagram: ids without repeats, each link's
   * source and target index the position holding exactly its id.
   */
  function DiagramOf(links: seq<Link>): (d: Diagram)
    ensures Seqs.NoDup(d.ids) && |d.labels| == |d.ids|
    ensures forall i :: 0 <= i < |d.ids| ==> d.labels[i] == Label(d.ids[i])
    ensures forall x :: x in d.ids <==> x in SourceIds(links) || x in TargetIds(links)
    ensures |d.source| == |links| && |d.target| == |links| && |d.value| == |links| && |d.color| == |links|
    ensures forall k :: 0 <= k < |links| ==>
      (d.source[k] < |d.ids| && d.ids[d.source[k]] == links[k].sourceId
       && d.target[k] < |d.ids| && d.ids[d.target[k]] == links[k].targetId
       && d.value[k] == links[k].value && d.color[k] == links[k].color)
  {
    var ids := Ids(links);
    assert forall k :: 0 <= k < |links| ==> links[k].sourceId in ids && links[k].targetId in ids by {
      forall k | 0 <= k < |links| ensures links[k].sourceId in ids && links[k].targetId in ids {
        assert SourceIds(links)[k] == links[k].sourceId;
        assert TargetIds(links)[k] == links[k].targetId;
      }
    }
    Diagram(
      ids,
      seq(|ids|, i requires 0 <= i < |ids| => Label(ids[i])),
      seq(|links|, k requires 0 <= k < |links| => Position(ids, links[k].sourceId)),
      seq(|links|, k requires 0 <= k < |links| => Position(ids, links[k].targetId)),
      seq(|links|, k requires 0 <= k < |links| => links[k].value),
      seq(|links|, k requires 0 <= k < |links| => links[k].color))
  }

  /** The columns the three `groupby` calls read, in the order they read them. */
  function Needed(st: Stages, c: Coloring): seq<string>
  {
    [st.ligand] + (if c.ByGroup? then [c.column] else []) + [st.receptor, st.em, st.target]
  }

  /** `pathways_df_to_sankey` with a stage naming, a colouring and a target ceiling. */
  function SankeyOf(df: Table, st: Stages, c: Coloring, ceiling: nat, always: bool): (r: Result<Diagram>)
    ensures r.Ok? <==> forall i :: 0 <= i < |Needed(st, c)| ==> Needed(st, c)[i] in df.columns
    ensures r.Err? ==> r.error.KeyError? && r.error.key in Needed(st, c) && r.error.key !in df.columns
    ensures r.Ok? ==> r.value == DiagramOf(Links(df.rows, st, c, ceiling, always))
  {
    match FirstMissing(df.columns, Needed(st, c))
    case Some(k) => Err(KeyError(k))
    case None => Ok(DiagramOf(Links(df.rows, st, c, ceiling, always)))
  }

  /** The packaged app and its callbacks: lower-case stages, colour flow, at most 200 targets. */
  function PackagedSankey(df: Table, flow: Option<string>, palette: seq<(Cell, Cell)>): Result<Diagram>
  {
    SankeyOf(df, Lowercase, FlowColoring(flow, palette), 200, false)
  }

  /** `callbacks.py`: as the packaged app, with at most 75 targets. */
  function CallbacksSankey(df: Table, flow: Option<string>, palette: seq<(Cell, Cell)>): Result<Diagram>
  {
    SankeyOf(df, Lowercase, FlowColoring(flow, palette), 75, false)
  }

  /** `data.py`: no colours, at most 75 targets unless targets are always included. */
  function DataSankey(df: Table, always: bool): Result<Diagram>
  {
    SankeyOf(df, Lowercase, Uncoloured, 75, always)
  }

  // ---- sankey.py: prep_sankey_data ----

  function MaxNum(cells: seq<Cell>): (r: Option<real>)
    ensures r.None? <==> forall i :: 0 <= i < |cells| ==> !cells[i].Num?
    ensures r.Some? ==> Num(r.value) in cells && forall i :: 0 <= i < |cells| && cells[i].Num? ==> cells[i].x <= r.value
  {
    if |cells| == 0 then None
    else
      var rest := MaxNum(cells[1..]);
      assert forall i :: 1 <= i < |cells| ==> cells[i] == cells[1..][i - 1];
      if !cells[0].Num? then rest
      else if rest.None? || cells[0].x >= rest.value then Some(cells[0].x)
      else rest
  }

  /**
   * The minimum and maximum `final_score`, missing scores skipped, or `(0, 0)`
   * when no score is a number (an empty table included).
   */
  function ScoreRange(rows: seq<Row>): (r: (real, real))
    ensures (forall i :: 0 <= i < |rows| ==> !Lookup(rows[i], "final_score").Num?) ==> r == (0.0, 0.0)
    ensures (exists i :: 0 <= i < |rows| && Lookup(rows[i], "final_score").Num?) ==>
      Num(r.0) in Column(rows, "final_score") && Num(r.1) in Column(rows, "final_score")
      && forall i :: 0 <= i < |rows| && Lookup(rows[i], "final_score").Num? ==>
           r.0 <= Lookup(rows[i], "final_score").x <= r.1
  {
    var scores := Column(rows, "final_score");
    var lo := Network.MinNum(scores);
    var hi := MaxNum(scores);
    if lo.None? && hi.None? then (0.0, 0.0)
    else if lo.Some? && hi.Some? then (lo.value, hi.value)
    else
      assert false;
      (0.0, 0.0)
  }

  /** `prep_sankey_data`: capitalised stages, no colours, at most 50 targets unless forced, and the score range. */
  function PrepSankey(df: Table, always: bool): (r: Result<(Diagram, (real, real))>)
    ensures "final_score" !in df.columns ==> r == Err(KeyError("final_score"))
  {
    if "final_score" !in df.columns then Err(KeyError("final_score"))
    else
      var d :- SankeyOf(df, Capitalised, Uncoloured, 50, always);
      Ok((d, ScoreRange(df.rows)))
  }

  // ---- get_node_colors ----

  /** The colour dictionary of `get_node_colors`, keyed by the stage names. */
  function StageColor(segment: string, st: Stages): (r: Result<string>)
    ensures r.Ok? <==> segment in [st.ligand, st.receptor, st.em, st.target]
    ensures r.Err? ==> r == Err(KeyError(segment))
  {
    if segment == st.ligand then Ok("red")
    else if segment == st.receptor then Ok("blue")
    else if segment == st.em then Ok("green")
    else if segment == st.target then Ok("purple")
    else Err(KeyError(segment))
  }

  /** `colors[x.split("_")[1]]`: `IndexError` for an id without `"_"`, `KeyError` for an unknown stage. */
  function NodeColor(id: Cell, st: Stages): Result<string>
  {
    if !id.Str? then Err(AttributeError)
    else
      match Text.Part(id.s, '_', 1)
      case None => Err(IndexError)
      case Some(segment) => StageColor(segment, st)
  }

  /** `get_node_colors(ids)`: the list comprehension raises at the first id that fails. */
  function NodeColors(ids: seq<Cell>, st: Stages): (r: Result<seq<string>>)
    ensures r.Ok? <==> forall i :: 0 <= i < |ids| ==> NodeColor(ids[i], st).Ok?
    ensures r.Ok? ==> |r.value| == |ids| && forall i :: 0 <= i < |ids| ==> NodeColor(ids[i], st) == Ok(r.value[i])
  {
    if |ids| == 0 then Ok([])
    else
      var n := |ids| - 1;
      var init := NodeColors(ids[..n], st);
      assert forall i :: 0 <= i < n ==> ids[..n][i] == ids[i];
      match init
      case Err(e) => Err(e)
      case Ok(cs) =>
        match NodeColor(ids[n], st)
        case Err(e) => Err(e)
        case Ok(x) => Ok(cs + [x])
  }

  // ---- the packaged app's warning ----

  /** `ids and not any(x.endswith("target") for x in ids)`. */
  predicate Warn(ids: seq<Cell>)
  {
    |ids| > 0 && forall i :: 0 <= i < |ids| ==> !(ids[i].Str? && Text.EndsWith(ids[i].s, "target"))
  }

  // ---- what the builder promises ----

  /** The values of the links added up. */
  function TotalValue(links: seq<Link>): nat
  {
    if |links| == 0 then 0 else TotalValue(links[..|links| - 1]) + links[|links| - 1].value
  }

  lemma {:induction false} TotalValueOfTally(links: seq<Link>, tally: seq<((Cell, Cell, Cell), nat)>)
    requires |links| == |tally| && forall i :: 0 <= i < |tally| ==> links[i].value == tally[i].1
    ensures TotalValue(links) == Seqs.SumCounts(tally)
  {
    if |links| > 0 {
      var n := |links| - 1;
      TotalValueOfTally(links[..n], tally[..n]);
    }
  }

  /** Every counted row is counted once: a stage pair's link values add up to its number of rows. */
  lemma StageValuesSum(rows: seq<Row>, s: string, t: string, c: Coloring)
    ensures TotalValue(Values(rows, s, t, c)) == |Complete(rows, KeyColumns(s, t, c))|
  {
    var keys := StageKeys(rows, s, t, c);
    TotalValueOfTally(Values(rows, s, t, c), Seqs.Tally(keys));
    Seqs.TallyTotal(keys);
  }

  /**
   * Link `i` of a stage pair is a key some counted row holds, with no missing
   * part, valued by the number of counted rows holding it.
   */
  lemma LinkAt(rows: seq<Row>, s: string, t: string, c: Coloring, i: nat)
    requires i < |Values(rows, s, t, c)|
    ensures var link := Values(rows, s, t, c)[i];
      var cs := Complete(rows, KeyColumns(s, t, c));
      var key := (link.source, link.group, link.target);
      link.value == Seqs.Count(StageKeys(rows, s, t, c), key) && link.value >= 1
      && link.sourceId == CatCell(link.source, Str(s), "_") && link.targetId == CatCell(link.target, Str(t), "_")
      && link.color == LinkColor(c, link.group)
      && exists j :: (0 <= j < |cs| && cs[j] in rows && KeyOf(cs[j], s, t, c) == key
           && link.source == Lookup(cs[j], s) && link.source != NA
           && link.target == Lookup(cs[j], t) && link.target != NA
           && (c.ByGroup? ==> link.group == Lookup(cs[j], c.column) && link.group != NA))
  {
    var keys := StageKeys(rows, s, t, c);
    var tally := Seqs.Tally(keys);
    var key := tally[i].0;
    assert Values(rows, s, t, c)[i] == LinkOf(tally[i], s, t, c);
    assert key == Seqs.Dedup(keys)[i];
    Seqs.CountPositive(keys, key);
    var j :| 0 <= j < |keys| && keys[j] == key;
    KeyOfComplete(rows, s, t, c, j);
  }

  /** A counted row has every key column. */
  lemma KeyOfComplete(rows: seq<Row>, s: string, t: string, c: Coloring, j: nat)
    requires j < |Complete(rows, KeyColumns(s, t, c))|
    ensures var row := Complete(rows, KeyColumns(s, t, c))[j];
      row in rows && Lookup(row, s) != NA && Lookup(row, t) != NA
      && (c.ByGroup? ==> Lookup(row, c.column) != NA)
  {
    var row := Complete(rows, KeyColumns(s, t, c))[j];
    assert !HasNA(row, KeyColumns(s, t, c));
    if c.ByGroup? {
      assert KeyColumns(s, t, c)[0] == s && KeyColumns(s, t, c)[1] == c.column && KeyColumns(s, t, c)[2] == t;
    } else {
      assert KeyColumns(s, t, c)[0] == s && KeyColumns(s, t, c)[1] == t;
    }
  }

  /** No two links of a stage pair share a key. */
  lemma LinksDistinct(rows: seq<Row>, s: string, t: string, c: Coloring, i: nat, k: nat)
    requires i < |Values(rows, s, t, c)| && k < |Values(rows, s, t, c)| && i != k
    ensures var a := Values(rows, s, t, c)[i];
      var b := Values(rows, s, t, c)[k];
      (a.source, a.group, a.target) != (b.source, b.group, b.target)
  {
    var keys := StageKeys(rows, s, t, c);
    var tally := Seqs.Tally(keys);
    assert Values(rows, s, t, c)[i] == LinkOf(tally[i], s, t, c);
    assert Values(rows, s, t, c)[k] == LinkOf(tally[k], s, t, c);
    assert tally[i].0 == Seqs.Dedup(keys)[i];
    assert tally[k].0 == Seqs.Dedup(keys)[k];
  }

  /** Every counted row has the link of its key. */
  lemma RowHasLink(rows: seq<Row>, s: string, t: string, c: Coloring, j: nat)
    requires j < |rows| && !HasNA(rows[j], KeyColumns(s, t, c))
    ensures exists i :: (0 <= i < |Values(rows, s, t, c)|
      && (Values(rows, s, t, c)[i].source, Values(rows, s, t, c)[i].group, Values(rows, s, t, c)[i].target)
         == KeyOf(rows[j], s, t, c))
  {
    var keys := StageKeys(rows, s, t, c);
    var cs := Complete(rows, KeyColumns(s, t, c));
    var m :| 0 <= m < |cs| && cs[m] == rows[j];
    assert keys[m] == KeyOf(rows[j], s, t, c);
    assert keys[m] in Seqs.Dedup(keys);
    var i :| 0 <= i < |Seqs.Dedup(keys)| && Seqs.Dedup(keys)[i] == keys[m];
    assert Values(rows, s, t, c)[i] == LinkOf(Seqs.Tally(keys)[i], s, t, c);
  }

  /** A higher target ceiling keeps every link a lower one keeps, and forcing targets keeps them all. */
  lemma HigherCeiling(rows: seq<Row>, st: Stages, c: Coloring, low: nat, high: nat, always: bool)
    requires low <= high
    ensures Links(rows, st, c, low, always) <= Links(rows, st, c, high, always)
    ensures Links(rows, st, c, low, always) <= Links(rows, st, c, low, true)
    ensures Links(rows, st, c, low, true)
      == Values(rows, st.ligand, st.receptor, c) + Values(rows, st.receptor, st.em, c) + Values(rows, st.em, st.target, c)
  {
  }

  /** With more than 75 and at most 200 distinct targets only the packaged app draws the target stage. */
  lemma PackagedDrawsMore(df: Table, flow: Option<string>, palette: seq<(Cell, Cell)>)
    ensures PackagedSankey(df, flow, palette).Ok? <==> CallbacksSankey(df, flow, palette).Ok?
    ensures var c := FlowColoring(flow, palette);
      Links(df.rows, Lowercase, c, 75, false) <= Links(df.rows, Lowercase, c, 200, false)
  {
    HigherCeiling(df.rows, Lowercase, FlowColoring(flow, palette), 75, 200, false);
  }

  /** Position `k` of `a + b + (e if shown)` falls in one of the three parts. */
  lemma ConcatIndex(a: seq<Link>, b: seq<Link>, e: seq<Link>, show: bool, k: nat) returns (i: nat, p: nat)
    requires k < |a + b + (if show then e else [])|
    ensures p < 3
    ensures p == 0 ==> i < |a| && (a + b + (if show then e else []))[k] == a[i]
    ensures p == 1 ==> i < |b| && (a + b + (if show then e else []))[k] == b[i]
    ensures p == 2 ==> show && i < |e| && (a + b + (if show then e else []))[k] == e[i]
  {
    if k < |a| {
      i, p := k, 0;
    } else if k < |a| + |b| {
      i, p := k - |a|, 1;
    } else {
      i, p := k - |a| - |b|, 2;
    }
  }

  /** Which stage pair link `k` of the concatenation comes from, and the stage columns its ids carry. */
  lemma LinkStage(rows: seq<Row>, st: Stages, c: Coloring, ceiling: nat, always: bool, k: nat)
    returns (s: string, t: string, i: nat, p: nat)
    requires k < |Links(rows, st, c, ceiling, always)|
    ensures p < 3 && i < |Values(rows, s, t, c)| && Links(rows, st, c, ceiling, always)[k] == Values(rows, s, t, c)[i]
    ensures p == 0 ==> (s, t) == (st.ligand, st.receptor)
    ensures p == 1 ==> (s, t) == (st.receptor, st.em)
    ensures p == 2 ==> (s, t) == (st.em, st.target) && ShowTargets(Values(rows, st.em, st.target, c), ceiling, always)
  {
    var lr := Values(rows, st.ligand, st.receptor, c);
    var rem := Values(rows, st.receptor, st.em, c);
    var emT := Values(rows, st.em, st.target, c);
    var show := ShowTargets(emT, ceiling, always);
    assert Links(rows, st, c, ceiling, always) == lr + rem + (if show then emT else []);
    i, p := ConcatIndex(lr, rem, emT, show, k);
    if p == 0 {
      s, t := st.ligand, st.receptor;
    } else if p == 1 {
      s, t := st.receptor, st.em;
    } else {
      s, t := st.em, st.target;
    }
  }

  lemma InTail(a: seq<Link>, b: seq<Link>, e: seq<Link>, i: nat)
    requires i < |e|
    ensures e[i] in a + b + e
  {
    assert (a + b + e)[|a| + |b| + i] == e[i];
  }

  /** With the target stage drawn, every target-stage link is among the links. */
  lemma TargetLinksIncluded(rows: seq<Row>, st: Stages, c: Coloring, ceiling: nat, always: bool, i: nat)
    requires ShowTargets(Values(rows, st.em, st.target, c), ceiling, always) && i < |Values(rows, st.em, st.target, c)|
    ensures Values(rows, st.em, st.target, c)[i] in Links(rows, st, c, ceiling, always)
  {
    var lr := Values(rows, st.ligand, st.receptor, c);
    var rem := Values(rows, st.receptor, st.em, c);
    var emT := Values(rows, st.em, st.target, c);
    assert Links(rows, st, c, ceiling, always) == lr + rem + emT;
    InTail(lr, rem, emT, i);
  }

  /** `x.split("_")` of an id `x + "_" + stage` is `[x, stage]` when neither holds `"_"`. */
  lemma SplitId(x: string, col: string)
    requires '_' !in x && '_' !in col
    ensures Text.Split(x + "_" + col, '_') == [x, col]
  {
    assert Text.Join([x, col], '_') == x + "_" + col by {
      assert [x, col][1..] == [col];
    }
    Text.SplitJoin([x, col], '_');
  }

  /**
   * Ids keep stages apart: the same name at two stages gives two nodes, and an
   * id determines both its name and its stage. The label is the name.
   */
  lemma IdsSeparateStages(x: string, a: string, y: string, b: string)
    requires '_' !in x && '_' !in a && '_' !in y && '_' !in b
    ensures CatCell(Str(x), Str(a), "_") == CatCell(Str(y), Str(b), "_") <==> x == y && a == b
    ensures Label(CatCell(Str(x), Str(a), "_")) == Str(x)
  {
    SplitId(x, a);
    SplitId(y, b);
    Text.SplitHeadIsBeforeFirst(x + "_" + a, '_');
  }

  /** The stage columns link `k` carries in its ids, and which stage pair it comes from. */
  lemma LinkIds(rows: seq<Row>, st: Stages, c: Coloring, ceiling: nat, always: bool, k: nat)
    returns (s: string, t: string, p: nat)
    requires k < |Links(rows, st, c, ceiling, always)|
    ensures var l := Links(rows, st, c, ceiling, always)[k];
      l.sourceId == CatCell(l.source, Str(s), "_") && l.targetId == CatCell(l.target, Str(t), "_")
      && l.source != NA && l.target != NA
    ensures p < 3 && (p == 0 ==> (s, t) == (st.ligand, st.receptor)) && (p == 1 ==> (s, t) == (st.receptor, st.em))
    ensures p == 2 ==> ((s, t) == (st.em, st.target)
      && ShowTargets(Values(rows, st.em, st.target, c), ceiling, always)
      && Links(rows, st, c, ceiling, always)[k] in Values(rows, st.em, st.target, c))
  {
    var i;
    s, t, i, p := LinkStage(rows, st, c, ceiling, always, k);
    LinkAt(rows, s, t, c, i);
  }

  /** Each link's source and target label is its name, when names and stage columns hold no `"_"`. */
  lemma LinkLabels(df: Table, st: Stages, c: Coloring, ceiling: nat, always: bool, k: nat)
    requires SankeyOf(df, st, c, ceiling, always).Ok? && k < |Links(df.rows, st, c, ceiling, always)|
    requires '_' !in st.ligand && '_' !in st.receptor && '_' !in st.em && '_' !in st.target
    requires var l := Links(df.rows, st, c, ceiling, always)[k];
      l.source.Str? && '_' !in l.source.s && l.target.Str? && '_' !in l.target.s
    ensures var d := SankeyOf(df, st, c, ceiling, always).value;
      var l := Links(df.rows, st, c, ceiling, always)[k];
      d.labels[d.source[k]] == l.source && d.labels[d.target[k]] == l.target
  {
    var s, t, _ := LinkIds(df.rows, st, c, ceiling, always, k);
    var l := Links(df.rows, st, c, ceiling, always)[k];
    IdsSeparateStages(l.source.s, s, l.source.s, s);
    IdsSeparateStages(l.target.s, t, l.target.s, t);
  }

  /** `get_node_colors` on an id `x + "_" + stage`: the colour of the stage. */
  lemma NodeColorOfId(x: string, col: string, st: Stages)
    requires '_' !in x && '_' !in col
    ensures NodeColor(Str(x + "_" + col), st) == StageColor(col, st)
  {
    SplitId(x, col);
  }

  /** The names of the stage columns of every row are text without `"_"` (or missing). */
  predicate PlainNames(rows: seq<Row>, st: Stages)
  {
    forall j, col :: 0 <= j < |rows| && col in [st.ligand, st.receptor, st.em, st.target] ==>
      Lookup(rows[j], col) == NA || (Lookup(rows[j], col).Str? && '_' !in Lookup(rows[j], col).s)
  }

  /** On such names, both ends of every link are plain names. */
  lemma LinkEndsPlain(rows: seq<Row>, s: string, t: string, c: Coloring, st: Stages, i: nat)
    requires PlainNames(rows, st) && s in [st.ligand, st.receptor, st.em, st.target] && t in [st.ligand, st.receptor, st.em, st.target]
    requires i < |Values(rows, s, t, c)|
    ensures var l := Values(rows, s, t, c)[i];
      l.source.Str? && '_' !in l.source.s && l.target.Str? && '_' !in l.target.s
  {
    LinkAt(rows, s, t, c, i);
    var l := Values(rows, s, t, c)[i];
    var cs := Complete(rows, KeyColumns(s, t, c));
    var j :| 0 <= j < |cs| && cs[j] in rows && l.source == Lookup(cs[j], s) && l.source != NA
      && l.target == Lookup(cs[j], t) && l.target != NA;
    var r :| 0 <= r < |rows| && rows[r] == cs[j];
  }

  /** The id at position `i` is the source or target id of some link. */
  lemma IdOrigin(links: seq<Link>, i: nat) returns (k: nat)
    requires i < |DiagramOf(links).ids|
    ensures k < |links| && (DiagramOf(links).ids[i] == links[k].sourceId || DiagramOf(links).ids[i] == links[k].targetId)
  {
    var d := DiagramOf(links);
    var x := d.ids[i];
    assert x in d.ids;
    k := LinkOfId(links, x);
  }

  /** Every id drawn comes from some link's source or target. */
  lemma LinkOfId(links: seq<Link>, x: Cell) returns (k: nat)
    requires x in SourceIds(links) || x in TargetIds(links)
    ensures k < |links| && (x == links[k].sourceId || x == links[k].targetId)
  {
    var src := SourceIds(links);
    var tgt := TargetIds(links);
    if x in src {
      var m :| 0 <= m < |src| && src[m] == x;
      k := m;
    } else {
      var m :| 0 <= m < |tgt| && tgt[m] == x;
      k := m;
    }
  }

  /** `id` is the node of a name at one of the stages, and takes that stage's colour. */
  ghost predicate StageNode(id: Cell, st: Stages)
  {
    exists x, col :: (col in [st.ligand, st.receptor, st.em, st.target]
      && id == Str(x + "_" + col) && StageColor(col, st).Ok? && NodeColor(id, st) == StageColor(col, st))
  }

  /** On plain names, the id at position `i` of the diagram is a stage node. */
  lemma IdColor(df: Table, st: Stages, c: Coloring, ceiling: nat, always: bool, i: nat)
    requires SankeyOf(df, st, c, ceiling, always).Ok? && i < |SankeyOf(df, st, c, ceiling, always).value.ids|
    requires '_' !in st.ligand && '_' !in st.receptor && '_' !in st.em && '_' !in st.target
    requires PlainNames(df.rows, st)
    ensures StageNode(SankeyOf(df, st, c, ceiling, always).value.ids[i], st)
  {
    var links := Links(df.rows, st, c, ceiling, always);
    var id := SankeyOf(df, st, c, ceiling, always).value.ids[i];
    var k := IdOrigin(links, i);
    var s, t, m, _ := LinkStage(df.rows, st, c, ceiling, always, k);
    LinkAt(df.rows, s, t, c, m);
    LinkEndsPlain(df.rows, s, t, c, st, m);
    if id == links[k].sourceId {
      NodeColorOfId(links[k].source.s, s, st);
      assert id == Str(links[k].source.s + "_" + s);
    } else {
      NodeColorOfId(links[k].target.s, t, st);
      assert id == Str(links[k].target.s + "_" + t);
    }
  }

  /**
   * On such names `get_node_colors` raises nothing on the diagram's ids and
   * gives each node the colour of its stage.
   */
  lemma DiagramColors(df: Table, st: Stages, c: Coloring, ceiling: nat, always: bool)
    requires SankeyOf(df, st, c, ceiling, always).Ok?
    requires '_' !in st.ligand && '_' !in st.receptor && '_' !in st.em && '_' !in st.target
    requires PlainNames(df.rows, st)
    ensures var ids := SankeyOf(df, st, c, ceiling, always).value.ids;
      NodeColors(ids, st).Ok? && forall i :: 0 <= i < |ids| ==> StageNode(ids[i], st)
  {
    var ids := SankeyOf(df, st, c, ceiling, always).value.ids;
    forall i | 0 <= i < |ids| ensures StageNode(ids[i], st) {
      IdColor(df, st, c, ceiling, always, i);
    }
    StageNodeColors(ids, st);
  }

  lemma StageNodeColors(ids: seq<Cell>, st: Stages)
    requires forall i :: 0 <= i < |ids| ==> StageNode(ids[i], st)
    ensures NodeColors(ids, st).Ok?
  {
  }

  /** The target stage is drawn with at least one link whose target is a name. */
  predicate TargetsDrawn(rows: seq<Row>, c: Coloring, ceiling: nat, always: bool)
  {
    var emT := Values(rows, Lowercase.em, Lowercase.target, c);
    ShowTargets(emT, ceiling, always) && exists i :: 0 <= i < |emT| && emT[i].target.Str?
  }

  lemma LastOfSuffix(s: string, p: string)
    ensures Text.EndsWith(s, p) && |p| > 0 ==> s[|s| - 1] == p[|p| - 1]
  {
    if Text.EndsWith(s, p) && |p| > 0 {
      assert s[|s| - |p|..][|p| - 1] == s[|s| - 1];
    }
  }

  /** An id for a name at a non-target stage never ends in "target". */
  lemma NotTargetId(x: string, col: string)
    requires col in [Lowercase.ligand, Lowercase.receptor, Lowercase.em]
    ensures !Text.EndsWith(x + "_" + col, "target")
  {
    var id := x + "_" + col;
    LastOfSuffix(id, "target");
    assert id[|id| - 1] == col[|col| - 1];
  }

  /** An id for a name at the target stage ends in "target". */
  lemma TargetIdEnds(x: string)
    ensures Text.EndsWith(x + "_" + Lowercase.target, "target")
  {
    var id := x + "_" + Lowercase.target;
    assert id[|id| - 6..] == "target";
  }

  /** The id a link gives a name at a stage other than the target never ends in "target". */
  lemma NotTargetCell(x: Cell, col: string)
    requires col in [Lowercase.ligand, Lowercase.receptor, Lowercase.em]
    ensures CatCell(x, Str(col), "_").Str? ==> !Text.EndsWith(CatCell(x, Str(col), "_").s, "target")
  {
    if x.Str? {
      NotTargetId(x.s, col);
    }
  }

  /** With the target stage drawn with a named target, some id ends in "target". */
  lemma DrawnTargetHasId(df: Table, c: Coloring)
    requires SankeyOf(df, Lowercase, c, 200, false).Ok? && TargetsDrawn(df.rows, c, 200, false)
    ensures var ids := SankeyOf(df, Lowercase, c, 200, false).value.ids;
      exists n :: 0 <= n < |ids| && ids[n].Str? && Text.EndsWith(ids[n].s, "target")
  {
    var links := Links(df.rows, Lowercase, c, 200, false);
    var d := SankeyOf(df, Lowercase, c, 200, false).value;
    var k := DrawnTargetLink(df.rows, c);
    assert d.ids[d.target[k]] == links[k].targetId;
  }

  /** With the target stage drawn with a named target, some link's target id ends in "target". */
  lemma DrawnTargetLink(rows: seq<Row>, c: Coloring) returns (k: nat)
    requires TargetsDrawn(rows, c, 200, false)
    ensures var links := Links(rows, Lowercase, c, 200, false);
      k < |links| && links[k].targetId.Str? && Text.EndsWith(links[k].targetId.s, "target")
  {
    var links := Links(rows, Lowercase, c, 200, false);
    var emT := Values(rows, Lowercase.em, Lowercase.target, c);
    var i :| 0 <= i < |emT| && emT[i].target.Str?;
    LinkAt(rows, Lowercase.em, Lowercase.target, c, i);
    TargetLinksIncluded(rows, Lowercase, c, 200, false, i);
    k :| 0 <= k < |links| && links[k] == emT[i];
    assert links[k].targetId == Str(emT[i].target.s + "_" + Lowercase.target);
    TargetIdEnds(emT[i].target.s);
  }

  /** An id that ends in "target" comes from a drawn target stage with a named target. */
  lemma TargetIdIsDrawn(df: Table, c: Coloring, n: nat)
    requires SankeyOf(df, Lowercase, c, 200, false).Ok? && n < |SankeyOf(df, Lowercase, c, 200, false).value.ids|
    ensures var id := SankeyOf(df, Lowercase, c, 200, false).value.ids[n];
      id.Str? && Text.EndsWith(id.s, "target") ==> TargetsDrawn(df.rows, c, 200, false)
  {
    var links := Links(df.rows, Lowercase, c, 200, false);
    var emT := Values(df.rows, Lowercase.em, Lowercase.target, c);
    var k := IdOrigin(links, n);
    var s, t, p := LinkIds(df.rows, Lowercase, c, 200, false, k);
    NotTargetCell(links[k].source, s);
    if p < 2 {
      NotTargetCell(links[k].target, t);
    } else {
      var m :| 0 <= m < |emT| && emT[m] == links[k];
      assert links[k].targetId.Str? ==> emT[m].target.Str?;
    }
  }

  /** Some id ends in "target" exactly when the target stage is drawn with a named target. */
  lemma TargetIdPresent(df: Table, c: Coloring)
    requires SankeyOf(df, Lowercase, c, 200, false).Ok?
    ensures var ids := SankeyOf(df, Lowercase, c, 200, false).value.ids;
      (exists n :: 0 <= n < |ids| && ids[n].Str? && Text.EndsWith(ids[n].s, "target"))
      <==> TargetsDrawn(df.rows, c, 200, false)
  {
    var ids := SankeyOf(df, Lowercase, c, 200, false).value.ids;
    if TargetsDrawn(df.rows, c, 200, false) {
      DrawnTargetHasId(df, c);
    }
    forall n | 0 <= n < |ids|
      ensures ids[n].Str? && Text.EndsWith(ids[n].s, "target") ==> TargetsDrawn(df.rows, c, 200, false)
    {
      TargetIdIsDrawn(df, c, n);
    }
  }

  /**
   * The packaged app warns exactly when the diagram has nodes but the target
   * stage is not drawn: hidden by the ceiling, or with no target names.
   */
  lemma WarnIffTargetsHidden(df: Table, flow: Option<string>, palette: seq<(Cell, Cell)>)
    requires PackagedSankey(df, flow, palette).Ok?
    ensures var c := FlowColoring(flow, palette);
      Warn(PackagedSankey(df, flow, palette).value.ids) <==>
        |Links(df.rows, Lowercase, c, 200, false)| > 0 && !TargetsDrawn(df.rows, c, 200, false)
  {
    var c := FlowColoring(flow, palette);
    var links := Links(df.rows, Lowercase, c, 200, false);
    var ids := PackagedSankey(df, flow, palette).value.ids;
    if |links| > 0 {
      assert SourceIds(links)[0] in ids;
    }
    TargetIdPresent(df, c);
  }

  /** `prep_sankey_data` raises only for a missing score or stage column, and returns the score range. */
  lemma PrepSankeyResult(df: Table, always: bool)
    ensures PrepSankey(df, always).Ok? <==>
      "final_score" in df.columns && SankeyOf(df, Capitalised, Uncoloured, 50, always).Ok?
    ensures PrepSankey(df, always).Ok? ==>
      PrepSankey(df, always).value == (SankeyOf(df, Capitalised, Uncoloured, 50, always).value, ScoreRange(df.rows))
      && ScoreRange(df.rows).0 <= ScoreRange(df.rows).1
  {
    var rows := df.rows;
    if exists i :: 0 <= i < |rows| && Lookup(rows[i], "final_score").Num? {
      var i :| 0 <= i < |rows| && Lookup(rows[i], "final_score").Num?;
      assert ScoreRange(rows).0 <= Lookup(rows[i], "final_score").x <= ScoreRange(rows).1;
    }
  }
}
