/**
 * Cell-type population tables: `get_clusters` of `src/incytr_viz/app.py`,
 * `load_clusters` of `src/incytr_viz/i_o.py` (the same steps), and
 * `load_cell_clusters` of `i_o.py`, which reads one file per group.
 */
module ClustersLoading {
  import opened Wrappers
  import Seqs
  import Text
  import opened Frames
  import PathwayLoading

  const ClusterColumns: seq<string> := ["type", "condition", "population"]

  /** `fillna(0)`. */
  function FillZero(c: Cell): Cell
  {
    if c == NA then Num(0.0) else c
  }

  /** The positive populations, as numbers. */
  function Positives(pops: seq<Cell>): (r: seq<real>)
    ensures forall i :: 0 <= i < |r| ==> r[i] > 0.0 && Num(r[i]) in pops
    ensures forall i :: 0 <= i < |pops| && pops[i].Num? && pops[i].x > 0.0 ==> pops[i].x in r
  {
    if |pops| == 0 then []
    else (if pops[0].Num? && pops[0].x > 0.0 then [pops[0].x] else []) + Positives(pops[1..])
  }

  function Min(xs: seq<real>): (m: real)
    requires |xs| > 0
    ensures m in xs && forall i :: 0 <= i < |xs| ==> m <= xs[i]
  {
    if |xs| == 1 then xs[0] else var m := Min(xs[1..]); if xs[0] <= m then xs[0] else m
  }

  /** `df[df["population"] > 0]["population"].min()`, `None` standing for `NaN` when no population is positive. */
  function MinPositive(pops: seq<Cell>): (r: Option<real>)
    ensures r.None? <==> forall i :: 0 <= i < |pops| ==> !(pops[i].Num? && pops[i].x > 0.0)
    ensures r.Some? ==> (r.value > 0.0 && Num(r.value) in pops
      && forall i :: 0 <= i < |pops| && pops[i].Num? && pops[i].x > 0.0 ==> r.value <= pops[i].x)
  {
    var ps := Positives(pops);
    if |ps| == 0 then None
    else
      var m := Min(ps);
      assert forall i :: 0 <= i < |pops| && pops[i].Num? && pops[i].x > 0.0 ==> m <= pops[i].x by {
        forall i | 0 <= i < |pops| && pops[i].Num? && pops[i].x > 0.0 ensures m <= pops[i].x {
          var k :| 0 <= k < |ps| && ps[k] == pops[i].x;
        }
      }
      Some(m)
  }

  /** `population / min_positive`: missing when there is no positive population or the population is not a number. */
  function Ratio(pop: Cell, minPos: Option<real>): Cell
  {
    if pop.Num? && minPos.Some? && minPos.value != 0.0 then Num(pop.x / minPos.value) else NA
  }

  /** Type and group stripped and lowercased, population filled; the condition column is dropped. */
  function NormalizeCluster(row: Row): Row
  {
    (map k | k in row && k != "condition" :: row[k])
      ["type" := LowerCell(StripCell(Lookup(row, "type")))]
      ["group" := LowerCell(StripCell(Lookup(row, "condition")))]
      ["population" := FillZero(Lookup(row, "population"))]
  }

  function WithRatioAndColor(row: Row, minPos: Option<real>, palette: Cell -> string): Row
  {
    row["pop_min_ratio" := Ratio(Lookup(row, "population"), minPos)]
       ["color" := Str(palette(Lookup(row, "type")))]
  }

  /** The cluster rows `get_clusters` builds, once its columns are known to be present. */
  function ClusterRows(raw: Table, palette: Cell -> string): (rows: seq<Row>)
    ensures |rows| == |raw.rows|
  {
    var cols := PathwayLoading.StripLowerAll(raw.columns);
    var picked := RenameRows(RenameRows(raw.rows, raw.columns, cols), ClusterColumns, ClusterColumns);
    var normed := MapRows(picked, NormalizeCluster);
    var minPos := MinPositive(Column(normed, "population"));
    MapRows(normed, (row: Row) => WithRatioAndColor(row, minPos, palette))
  }

  /**
   * What `get_clusters` returns: the cluster table and its distinct groups.
   * Colours come from `palette`, a stand-in for the colour map.
   */
  function ClustersOf(raw: Table, palette: Cell -> string): Result<(Table, seq<Cell>)>
  {
    var cols := PathwayLoading.StripLowerAll(raw.columns);
    if !(forall i :: 0 <= i < 3 ==> ClusterColumns[i] in cols) then
      Err(ValueError("Invalid cell populations file"))
    else
      var rows := ClusterRows(raw, palette);
      var groups := Unique(rows, "group");
      if |groups| != 2 then Err(ValueError("Expected exactly 2 groups in cluster populations file"))
      else Ok((Table(["type", "population", "group", "pop_min_ratio", "color"], rows), groups))
  }

  /** Which cell each column of a cluster row holds. */
  lemma ClusterRowLookup(row: Row, minPos: Option<real>, palette: Cell -> string)
    ensures var out := WithRatioAndColor(NormalizeCluster(row), minPos, palette);
      Lookup(out, "type") == LowerCell(StripCell(Lookup(row, "type")))
      && Lookup(out, "group") == LowerCell(StripCell(Lookup(row, "condition")))
      && Lookup(out, "population") == FillZero(Lookup(row, "population"))
      && Lookup(out, "pop_min_ratio") == Ratio(FillZero(Lookup(row, "population")), minPos)
      && "condition" !in out
  {
    var n := NormalizeCluster(row);
    assert Lookup(n, "population") == FillZero(Lookup(row, "population"));
    assert Lookup(n, "type") == LowerCell(StripCell(Lookup(row, "type")));
  }

  /** A cell of the raw table, read under its stripped, lowercased column name. */
  function RawCell(raw: Table, i: nat, name: string): Cell
    requires i < |raw.rows|
  {
    Lookup(RenameRow(raw.rows[i], raw.columns, PathwayLoading.StripLowerAll(raw.columns)), name)
  }

  /** One cluster row per input row, with its type and group normalised and its population filled. */
  lemma ClusterRowsFromRaw(raw: Table, palette: Cell -> string, i: nat)
    requires i < |raw.rows|
    ensures var row := ClusterRows(raw, palette)[i];
      Lookup(row, "type") == LowerCell(StripCell(RawCell(raw, i, "type")))
      && Lookup(row, "group") == LowerCell(StripCell(RawCell(raw, i, "condition")))
      && Lookup(row, "population") == FillZero(RawCell(raw, i, "population"))
      && Lookup(row, "population") != NA
  {
    var cols := PathwayLoading.StripLowerAll(raw.columns);
    var projected := RenameRows(raw.rows, raw.columns, cols);
    var picked := RenameRows(projected, ClusterColumns, ClusterColumns);
    var normed := MapRows(picked, NormalizeCluster);
    var minPos := MinPositive(Column(normed, "population"));
    ClusterRowLookup(picked[i], minPos, palette);
    PickedCells(projected[i]);
  }

  /** Picking the three cluster columns keeps their cells. */
  lemma PickedCells(row: Row)
    ensures var p := RenameRow(row, ClusterColumns, ClusterColumns);
      Lookup(p, "type") == Lookup(row, "type") && Lookup(p, "condition") == Lookup(row, "condition")
      && Lookup(p, "population") == Lookup(row, "population")
  {
    RenameRowAt(row, ClusterColumns, ClusterColumns, 0);
    assert ClusterColumns[..1] == ["type"];
    RenameRowAt(row, ClusterColumns, ClusterColumns, 1);
    assert ClusterColumns[..2] == ["type", "condition"];
    RenameRowAt(row, ClusterColumns, ClusterColumns, 2);
  }

  /** A successful load has exactly two distinct groups, and every row's group is one of them. */
  lemma ClustersResult(raw: Table, palette: Cell -> string)
    ensures !(forall i :: 0 <= i < 3 ==> ClusterColumns[i] in PathwayLoading.StripLowerAll(raw.columns))
      ==> ClustersOf(raw, palette).Err?
    ensures ClustersOf(raw, palette).Ok? ==>
      var groups := ClustersOf(raw, palette).value.1;
      var rows := ClustersOf(raw, palette).value.0.rows;
      |groups| == 2 && Seqs.NoDup(groups) && rows == ClusterRows(raw, palette)
      && (forall i :: 0 <= i < |rows| ==> Lookup(rows[i], "group") in groups)
  {
    if ClustersOf(raw, palette).Ok? {
      var rows := ClusterRows(raw, palette);
      var groups := Unique(rows, "group");
      forall i | 0 <= i < |rows| ensures Lookup(rows[i], "group") in groups {
        assert Column(rows, "group")[i] == Lookup(rows[i], "group");
      }
    }
  }

  lemma DivAtLeastOne(p: real, m: real)
    requires 0.0 < m <= p
    ensures p / m >= 1.0 && (p / m == 1.0 <==> p == m)
  {
    var q := p / m;
    assert q * m == p;
    if q == 1.0 { assert p == m; }
  }

  /** Every positive population's ratio to the smallest positive one is at least 1, and exactly 1 at the smallest. */
  lemma RatioAtLeastOne(pops: seq<Cell>, i: nat)
    requires i < |pops| && pops[i].Num? && pops[i].x > 0.0
    ensures var r := Ratio(pops[i], MinPositive(pops));
      r.Num? && r.x >= 1.0 && (r.x == 1.0 <==> forall j :: 0 <= j < |pops| && pops[j].Num? && pops[j].x > 0.0 ==> pops[i].x <= pops[j].x)
  {
    var m := MinPositive(pops).value;
    assert m <= pops[i].x;
    DivAtLeastOne(pops[i].x, m);
    var k :| 0 <= k < |pops| && pops[k] == Num(m);
  }

  // ---- i_o.py: load_cell_clusters ----

  /** `p.split("/")[-1].split("_")[0].lower()`: the group a populations file belongs to. */
  function GroupNameFromPath(p: string): (g: string)
    ensures '_' !in g
  {
    var parts := Text.Split(p, '/');
    var base := parts[|parts| - 1];
    var g := Text.Lower(Text.BeforeFirst(base, '_'));
    assert '_' !in g by {
      var b := Text.BeforeFirst(base, '_');
      forall k | 0 <= k < |g| ensures g[k] != '_' { assert g[k] == Text.LowerChar(b[k]); }
    }
    g
  }

  /** The group is the lowercased text before the first `_` of the file's base name. */
  lemma GroupNameOfFile(dir: string, group: string, rest: string)
    requires '/' !in group && '/' !in rest && '_' !in group
    ensures GroupNameFromPath(dir + "/" + group + "_" + rest) == Text.Lower(group)
  {
    var base := group + "_" + rest;
    assert '/' !in base;
    assert dir + "/" + group + "_" + rest == dir + ['/'] + base;
    Text.SplitLastPart(dir, base, '/');
    BeforeFirstOf(group, rest, '_');
  }

  lemma {:induction false} BeforeFirstOf(a: string, b: string, c: char)
    requires c !in a
    ensures Text.BeforeFirst(a + [c] + b, c) == a
  {
    if |a| > 0 {
      BeforeFirstOf(a[1..], b, c);
      assert (a + [c] + b)[1..] == a[1..] + [c] + b;
    }
  }

  /** The rows one populations file contributes: type stripped (not lowercased), population filled, group set. */
  function FileRow(row: Row, group: string): Row
  {
    (map k | k in row :: row[k])
      ["type" := StripCell(Lookup(row, "type"))]
      ["population" := FillZero(Lookup(row, "population"))]
      ["group" := Str(group)]
  }

  const CellColumns: seq<string> := ["type", "population"]

  /** One file, read as `(path, table)`, or the `ValueError` for a missing column. */
  function FileClusters(path: string, raw: Table): Result<seq<Row>>
  {
    var cols := PathwayLoading.StripLowerAll(raw.columns);
    if !("type" in cols && "population" in cols) then Err(ValueError("Invalid cell populations file"))
    else
      var picked := RenameRows(RenameRows(raw.rows, raw.columns, cols), CellColumns, CellColumns);
      Ok(MapRows(picked, (row: Row) => FileRow(row, GroupNameFromPath(path))))
  }

  /** The rows of all files, concatenated in file order; the first bad file raises. */
  function AllClusters(files: seq<(string, Table)>): Result<seq<Row>>
  {
    if |files| == 0 then Ok([])
    else
      var init :- AllClusters(files[..|files| - 1]);
      var last :- FileClusters(files[|files| - 1].0, files[|files| - 1].1);
      Ok(init + last)
  }

  /** The `concat` loop of `load_cell_clusters`, then the colour column. */
  method LoadCellClusters(files: seq<(string, Table)>, palette: Cell -> string) returns (r: Result<seq<Row>>)
    ensures AllClusters(files).Err? ==> r == AllClusters(files)
    ensures AllClusters(files).Ok? ==>
      r == Ok(MapRows(AllClusters(files).value, (row: Row) => row["color" := Str(palette(Lookup(row, "type")))]))
  {
    var out: seq<Row> := [];
    var i := 0;
    while i < |files|
      invariant 0 <= i <= |files|
      invariant AllClusters(files[..i]) == Ok(out)
    {
      assert files[..i + 1][..i] == files[..i];
      var df := FileClusters(files[i].0, files[i].1);
      if df.Err? {
        AllClustersPrefixFails(files, i + 1);
        return Err(df.error);
      }
      out := out + df.value;
      i := i + 1;
    }
    assert files[..i] == files;
    r := Ok(MapRows(out, (row: Row) => row["color" := Str(palette(Lookup(row, "type")))]));
  }

  /** A failing prefix makes the whole load fail with the same error. */
  lemma {:induction false} AllClustersPrefixFails(files: seq<(string, Table)>, n: nat)
    requires n <= |files| && AllClusters(files[..n]).Err?
    ensures AllClusters(files) == AllClusters(files[..n])
    decreases |files| - n
  {
    if n < |files| {
      assert files[..n + 1][..n] == files[..n];
      AllClustersPrefixFails(files, n + 1);
    } else {
      assert files[..n] == files;
    }
  }

  /** Each row of one file carries that file's group and a filled population. */
  lemma FileClustersRow(path: string, raw: Table, k: nat)
    requires FileClusters(path, raw).Ok? && k < |FileClusters(path, raw).value|
    ensures Lookup(FileClusters(path, raw).value[k], "group") == Str(GroupNameFromPath(path))
    ensures Lookup(FileClusters(path, raw).value[k], "population") != NA
  {
    var cols := PathwayLoading.StripLowerAll(raw.columns);
    var picked := RenameRows(RenameRows(raw.rows, raw.columns, cols), CellColumns, CellColumns);
    var row := FileRow(picked[k], GroupNameFromPath(path));
    assert FileClusters(path, raw).value[k] == row;
    assert Lookup(row, "group") == Str(GroupNameFromPath(path));
  }

  /** Every loaded row carries the group named by its file, and a filled population. */
  lemma {:induction false} AllClustersGroups(files: seq<(string, Table)>, i: nat)
    requires AllClusters(files).Ok? && i < |AllClusters(files).value|
    ensures exists f :: 0 <= f < |files| && Lookup(AllClusters(files).value[i], "group") == Str(GroupNameFromPath(files[f].0))
    ensures Lookup(AllClusters(files).value[i], "population") != NA
  {
    var n := |files| - 1;
    var init := AllClusters(files[..n]).value;
    var last := FileClusters(files[n].0, files[n].1).value;
    assert AllClusters(files).value == init + last;
    if i < |init| {
      AllClustersGroups(files[..n], i);
      var f :| 0 <= f < n && Lookup(init[i], "group") == Str(GroupNameFromPath(files[..n][f].0));
      assert files[..n][f] == files[f];
    } else {
      FileClustersRow(files[n].0, files[n].1, i - |init|);
    }
  }
}
