/**
 * The cell-type network: `load_nodes` and `load_edges` of `src/incytr_viz/app.py`
 * and `src/incytr_viz/callbacks.py`, their variants in the root `callbacks.py`
 * and `data.py`, `edge_width_map` of both `util.py` files, and the largest
 * per-pair pathway count `update_figure_and_histogram` takes over both groups.
 */
module Network {
  import opened Wrappers
  import Seqs
  import Text
  import opened Frames
  import opened Chains
  import ClustersLoading
  import LegacyLoading

  /**
   * The floating-point functions the builders call (`np.log`, `np.sqrt`, `**`),
   * given as parameters with only the laws the proofs use.
   */
  datatype Math = Math(log: real -> real, sqrt: real -> real, pow: (real, real) -> real)

  /** `np.pi`. */
  const Pi: real := 3.141592653589793

  ghost predicate Lawful(m: Math)
  {
    m.log(1.0) == 0.0
    && (forall x: real, y: real :: 0.0 < x < y ==> m.log(x) < m.log(y))
    && (forall x: real, y: real :: 0.0 <= x <= y ==> m.sqrt(x) <= m.sqrt(y))
    && (forall b: real, c: real, k: real :: 0.0 < b <= c && 0.0 < k ==> m.pow(b, k) <= m.pow(c, k))
  }

  /** The laws can be met, so lemmas that assume them are not vacuous. */
  lemma LawsCanHold()
    ensures Lawful(Math(x => x - 1.0, x => x, (b, k) => b))
  {
  }

  lemma LogMonotone(m: Math, x: real, y: real)
    requires Lawful(m) && 0.0 < x <= y
    ensures m.log(x) <= m.log(y)
  {
    if x < y {
      assert m.log(x) < m.log(y);
    }
  }

  // ---- nodes ----

  datatype Node = Node(id: Cell, caption: Cell, size: real, width: Cell, height: Cell, color: Cell)

  /** `_add_node` emits a node unless `(not population) or np.isnan(population)`. */
  predicate Shown(pop: Cell)
  {
    pop.Num? && pop.x != 0.0
  }

  /** The node `_add_node` builds from a row whose population is shown; the type is the row's index. */
  function NodeOf(row: Row, pop: string, diameter: string, color: string): Node
    requires Shown(Lookup(row, pop))
  {
    Node(Lookup(row, "type"), Lookup(row, "type"), Lookup(row, pop).x,
         Lookup(row, diameter), Lookup(row, diameter), Lookup(row, color))
  }

  /** `list(clusters.apply(_add_node, axis=1).dropna())`. */
  function NodesOf(rows: seq<Row>, pop: string, diameter: string, color: string): (nodes: seq<Node>)
    ensures |nodes| <= |rows|
    ensures forall j :: 0 <= j < |rows| && Shown(Lookup(rows[j], pop)) ==> NodeOf(rows[j], pop, diameter, color) in nodes
  {
    if |rows| == 0 then []
    else
      var rest := NodesOf(rows[1..], pop, diameter, color);
      assert forall j :: 1 <= j < |rows| ==> rows[j] == rows[1..][j - 1];
      if Shown(Lookup(rows[0], pop)) then [NodeOf(rows[0], pop, diameter, color)] + rest else rest
  }

  /** The row a node comes from. */
  lemma {:induction false} NodeSource(rows: seq<Row>, pop: string, diameter: string, color: string, i: nat) returns (j: nat)
    requires i < |NodesOf(rows, pop, diameter, color)|
    ensures j < |rows| && Shown(Lookup(rows[j], pop))
      && NodesOf(rows, pop, diameter, color)[i] == NodeOf(rows[j], pop, diameter, color)
  {
    var rest := NodesOf(rows[1..], pop, diameter, color);
    if Shown(Lookup(rows[0], pop)) {
      assert NodesOf(rows, pop, diameter, color) == [NodeOf(rows[0], pop, diameter, color)] + rest;
      if i == 0 {
        j := 0;
      } else {
        var k := NodeSource(rows[1..], pop, diameter, color, i - 1);
        assert rows[1..][k] == rows[k + 1];
        j := k + 1;
      }
    } else {
      assert NodesOf(rows, pop, diameter, color) == rest;
      var k := NodeSource(rows[1..], pop, diameter, color, i);
      assert rows[1..][k] == rows[k + 1];
      j := k + 1;
    }
  }

  /** `(clusters["population"] <= 0).all()`; a missing population compares false. */
  predicate NonePositive(pops: seq<Cell>)
  {
    forall i :: 0 <= i < |pops| ==> pops[i].Num? && pops[i].x <= 0.0
  }

  /**
   * `400 * log_base(ratio * scale, scale)` and the diameter of a circle of that
   * area; missing where the source's width string would read `nanpx` (numpy's `NaN`) or
   * hold an infinity.
   */
  // Products and quotients that feed the floating-point functions are kept
  // behind these two names, which keeps the solver's arithmetic linear where
  // the functions are applied.
  function Mul(a: real, b: real): real { a * b }

  function Quot(a: real, b: real): real
    requires b != 0.0
  {
    a / b
  }

  /** `400 * log_base(x, scale)`. */
  function Area(x: real, scale: real, m: Math): real
    requires m.log(scale) != 0.0
  {
    400.0 * Quot(m.log(x), m.log(scale))
  }

  /** The diameter of a circle whose area is `400 * log_base(x, scale)`. */
  function AreaDiameter(x: real, scale: real, m: Math): Cell
  {
    if x > 0.0 && m.log(scale) != 0.0 && Area(x, scale, m) >= 0.0 then Num(m.sqrt(4.0 * Area(x, scale, m) / Pi))
    else NA
  }

  function Diameter(pop: Cell, minPos: Option<real>, scale: real, m: Math): Cell
  {
    match ClustersLoading.Ratio(pop, minPos)
    case Num(r) => AreaDiameter(Mul(r, scale), scale, m)
    case _ => NA
  }

  /** The `node_diameter` of a row with population `pop`, given all populations. */
  function DiameterAmong(pop: Cell, pops: seq<Cell>, scale: real, m: Math): Cell
  {
    if NonePositive(pops) then Num(0.0) else Diameter(pop, ClustersLoading.MinPositive(pops), scale, m)
  }

  /** `calculate_node_diameters`: the copy with its `node_diameter` column. */
  function WithDiameters(rows: seq<Row>, scale: real, m: Math): (r: seq<Row>)
    ensures |r| == |rows|
  {
    var pops := Column(rows, "population");
    MapRows(rows, (row: Row) => row["node_diameter" := DiameterAmong(Lookup(row, "population"), pops, scale, m)])
  }

  /** The diameter a row gets. */
  lemma WithDiametersAt(rows: seq<Row>, scale: real, m: Math, j: nat)
    requires j < |rows|
    ensures Lookup(WithDiameters(rows, scale, m)[j], "node_diameter")
      == DiameterAmong(Column(rows, "population")[j], Column(rows, "population"), scale, m)
  {
  }

  /** Adding the diameter column keeps every other cell of the row. */
  lemma WithDiametersKeeps(rows: seq<Row>, scale: real, m: Math, j: nat, k: string)
    requires j < |rows| && k != "node_diameter"
    ensures Lookup(WithDiameters(rows, scale, m)[j], k) == Lookup(rows[j], k)
  {
  }

  /** `load_nodes(clusters, node_scale_factor)` of `src/incytr_viz/app.py` and `src/incytr_viz/callbacks.py`. */
  function LoadNodes(clusters: seq<Row>, scale: real, m: Math): seq<Node>
  {
    NodesOf(WithDiameters(clusters, scale, m), "population", "node_diameter", "color")
  }

  /** Every node `load_nodes` emits comes from a cluster row with a nonzero, non-missing population. */
  lemma LoadNodesFromShown(clusters: seq<Row>, scale: real, m: Math, i: nat)
    requires i < |LoadNodes(clusters, scale, m)|
    ensures var n := LoadNodes(clusters, scale, m)[i];
      exists j :: (0 <= j < |clusters| && Shown(Lookup(clusters[j], "population"))
        && n.id == n.caption == Lookup(clusters[j], "type")
        && n.size == Lookup(clusters[j], "population").x)
  {
    var rows := WithDiameters(clusters, scale, m);
    var j := NodeSource(rows, "population", "node_diameter", "color", i);
    WithDiametersKeeps(clusters, scale, m, j, "population");
    WithDiametersKeeps(clusters, scale, m, j, "type");
  }

  /** Every cluster row with a nonzero, non-missing population gets a node of its type and diameter. */
  lemma LoadNodesOfShown(clusters: seq<Row>, scale: real, m: Math, j: nat)
    requires j < |clusters| && Shown(Lookup(clusters[j], "population"))
    ensures var nodes := LoadNodes(clusters, scale, m);
      exists i :: (0 <= i < |nodes| && nodes[i].id == nodes[i].caption == Lookup(clusters[j], "type")
        && nodes[i].size == Lookup(clusters[j], "population").x
        && nodes[i].width == nodes[i].height == Lookup(WithDiameters(clusters, scale, m)[j], "node_diameter"))
  {
    var rows := WithDiameters(clusters, scale, m);
    var nodes := LoadNodes(clusters, scale, m);
    WithDiametersKeeps(clusters, scale, m, j, "population");
    WithDiametersKeeps(clusters, scale, m, j, "type");
    var n := NodeOf(rows[j], "population", "node_diameter", "color");
    assert n in nodes;
    var i :| 0 <= i < |nodes| && nodes[i] == n;
  }

  /** With no positive population every diameter is 0. */
  lemma NonePositiveZeroDiameters(clusters: seq<Row>, scale: real, m: Math, j: nat)
    requires NonePositive(Column(clusters, "population")) && j < |clusters|
    ensures Lookup(WithDiameters(clusters, scale, m)[j], "node_diameter") == Num(0.0)
  {
    WithDiametersAt(clusters, scale, m, j);
  }

  /** The smallest positive population gets area 400, whatever the scale factor. */
  lemma SmallestDiameterAmong(pops: seq<Cell>, scale: real, m: Math, j: nat)
    requires Lawful(m) && scale > 1.0 && j < |pops| && pops[j].Num? && pops[j].x > 0.0
    requires forall l :: 0 <= l < |pops| && pops[l].Num? && pops[l].x > 0.0 ==> pops[j].x <= pops[l].x
    ensures DiameterAmong(pops[j], pops, scale, m) == Num(m.sqrt(4.0 * 400.0 / Pi))
  {
    ClustersLoading.RatioAtLeastOne(pops, j);
    var r := ClustersLoading.Ratio(pops[j], ClustersLoading.MinPositive(pops));
    assert r.x == 1.0;
    assert m.log(scale) > 0.0 by { assert m.log(1.0) < m.log(scale); }
    assert Mul(r.x, scale) == scale;
    assert Quot(m.log(scale), m.log(scale)) == 1.0;
  }

  /**
   * The smallest positive population gets area 400 and so a diameter that does
   * not depend on the scale factor.
   */
  lemma SmallestDiameter(clusters: seq<Row>, scale: real, m: Math, j: nat)
    requires Lawful(m) && scale > 1.0 && j < |clusters|
    requires Lookup(clusters[j], "population").Num? && Lookup(clusters[j], "population").x > 0.0
    requires forall l :: 0 <= l < |clusters| && Lookup(clusters[l], "population").Num? && Lookup(clusters[l], "population").x > 0.0 ==>
      Lookup(clusters[j], "population").x <= Lookup(clusters[l], "population").x
    ensures Lookup(WithDiameters(clusters, scale, m)[j], "node_diameter") == Num(m.sqrt(4.0 * 400.0 / Pi))
  {
    var pops := Column(clusters, "population");
    WithDiametersAt(clusters, scale, m, j);
    SmallestDiameterAmong(pops, scale, m, j);
  }

  /** Arithmetic steps for `DiameterMonotone`. */
  lemma RatioMonotone(p: real, q: real, mp: real, scale: real)
    requires 0.0 < mp <= p <= q && scale > 1.0
    ensures scale <= Mul(p / mp, scale) <= Mul(q / mp, scale)
  {
    ClustersLoading.DivAtLeastOne(p, mp);
    assert p / mp <= q / mp by {
      assert p / mp * mp == p && q / mp * mp == q;
    }
  }

  lemma MulMonotone(c: real, a: real, b: real)
    requires c > 0.0 && 0.0 <= a <= b
    ensures 0.0 <= Mul(c, a) <= Mul(c, b)
  {
  }

  lemma QuotMonotone(a: real, b: real, c: real)
    requires a <= b && c > 0.0
    ensures Quot(a, c) <= Quot(b, c)
  {
    DivMonotone(a, b, c);
  }

  lemma DivMonotone(a: real, b: real, c: real)
    requires a <= b && c > 0.0
    ensures a / c <= b / c
  {
    assert a / c * c == a && b / c * c == b;
  }

  /** Above the scale factor the area is positive and grows with its argument. */
  lemma AreaGrows(x: real, y: real, scale: real, m: Math)
    requires Lawful(m) && scale > 1.0 && scale <= x <= y
    ensures 0.0 <= Area(x, scale, m) <= Area(y, scale, m)
  {
    assert m.log(scale) > 0.0 by { assert m.log(1.0) < m.log(scale); }
    LogMonotone(m, scale, x);
    LogMonotone(m, x, y);
    QuotMonotone(m.log(x), m.log(y), m.log(scale));
    QuotMonotone(0.0, m.log(x), m.log(scale));
  }

  /** A circle of larger area has a larger diameter. */
  lemma DiameterGrows(a: real, b: real, m: Math)
    requires Lawful(m) && 0.0 <= a <= b
    ensures m.sqrt(4.0 * a / Pi) <= m.sqrt(4.0 * b / Pi)
  {
    var u := 4.0 * a / Pi;
    var v := 4.0 * b / Pi;
    DivMonotone(0.0, 4.0 * a, Pi);
    DivMonotone(4.0 * a, 4.0 * b, Pi);
    assert 0.0 <= u <= v;
  }

  /** The diameter of a population measured from a positive smallest population. */
  lemma DiameterOfRatio(p: real, mp: real, scale: real, m: Math)
    requires mp > 0.0
    ensures Diameter(Num(p), Some(mp), scale, m) == AreaDiameter(Mul(p / mp, scale), scale, m)
  {
  }

  /** Above the scale factor the diameter is a number and grows with its argument. */
  lemma AreaDiameterGrows(x: real, y: real, scale: real, m: Math)
    requires Lawful(m) && scale > 1.0 && scale <= x <= y
    ensures AreaDiameter(x, scale, m).Num? && AreaDiameter(y, scale, m).Num?
    ensures AreaDiameter(x, scale, m).x <= AreaDiameter(y, scale, m).x
  {
    assert m.log(scale) > 0.0 by { assert m.log(1.0) < m.log(scale); }
    AreaGrows(x, y, scale, m);
    DiameterGrows(Area(x, scale, m), Area(y, scale, m), m);
  }

  /** Measured from the same smallest positive population, a larger population gets no smaller diameter. */
  lemma DiameterMonotoneRatio(p: real, q: real, mp: real, scale: real, m: Math)
    requires Lawful(m) && scale > 1.0 && 0.0 < mp <= p <= q
    ensures var dp := Diameter(Num(p), Some(mp), scale, m);
      var dq := Diameter(Num(q), Some(mp), scale, m);
      dp.Num? && dq.Num? && dp.x <= dq.x
  {
    RatioMonotone(p, q, mp, scale);
    DiameterOfRatio(p, mp, scale, m);
    DiameterOfRatio(q, mp, scale, m);
    AreaDiameterGrows(Mul(p / mp, scale), Mul(q / mp, scale), scale, m);
  }

  lemma DiameterMonotoneAmong(pops: seq<Cell>, scale: real, m: Math, j: nat, l: nat)
    requires Lawful(m) && scale > 1.0 && j < |pops| && l < |pops| && pops[j].Num? && pops[l].Num?
    requires 0.0 < pops[j].x <= pops[l].x
    ensures var dj := DiameterAmong(pops[j], pops, scale, m);
      var dl := DiameterAmong(pops[l], pops, scale, m);
      dj.Num? && dl.Num? && dj.x <= dl.x
  {
    assert !NonePositive(pops);
    var mpo := ClustersLoading.MinPositive(pops);
    assert mpo.value <= pops[j].x;
    DiameterMonotoneRatio(pops[j].x, pops[l].x, mpo.value, scale, m);
  }

  /** For a scale factor above 1, a larger positive population never gets a smaller diameter. */
  lemma DiameterMonotone(clusters: seq<Row>, scale: real, m: Math, j: nat, l: nat)
    requires Lawful(m) && scale > 1.0 && j < |clusters| && l < |clusters|
    requires Lookup(clusters[j], "population").Num? && Lookup(clusters[l], "population").Num?
    requires 0.0 < Lookup(clusters[j], "population").x <= Lookup(clusters[l], "population").x
    ensures var dj := Lookup(WithDiameters(clusters, scale, m)[j], "node_diameter");
      var dl := Lookup(WithDiameters(clusters, scale, m)[l], "node_diameter");
      dj.Num? && dl.Num? && dj.x <= dl.x
  {
    WithDiametersAt(clusters, scale, m, j);
    WithDiametersAt(clusters, scale, m, l);
    DiameterMonotoneAmong(Column(clusters, "population"), scale, m, j, l);
  }

  // ---- the root callbacks.py and data.py load_nodes: a log2 area ----

  function Log2(x: real, m: Math): real
  {
    if m.log(2.0) != 0.0 then Quot(m.log(x), m.log(2.0)) else 0.0
  }

  /**
   * `_node_size_mapping(population, min_pop, scaling_factor)`: the diameter of an
   * area `scaling * (1 + log2(p + 1) - log2(min + 1))`; missing where the source's
   * size string would read `nanpx`.
   */
  function Log2Diameter(pop: Cell, minPop: Option<real>, scaling: real, m: Math): Cell
  {
    if pop.Num? && minPop.Some? && pop.x + 1.0 > 0.0 && minPop.value + 1.0 > 0.0 then
      var area := Mul(scaling, 1.0 + (Log2(pop.x + 1.0, m) - Log2(minPop.value + 1.0, m)));
      if area >= 0.0 then Num(m.sqrt(4.0 * area / Pi)) else NA
    else NA
  }

  /** The smallest number among the cells, skipping missing ones (`Series.min()`); `None` stands for `NaN`. */
  function MinNum(cells: seq<Cell>): (r: Option<real>)
    ensures r.None? <==> forall i :: 0 <= i < |cells| ==> !cells[i].Num?
    ensures r.Some? ==> Num(r.value) in cells && forall i :: 0 <= i < |cells| && cells[i].Num? ==> r.value <= cells[i].x
  {
    if |cells| == 0 then None
    else
      var rest := MinNum(cells[1..]);
      assert forall i :: 1 <= i < |cells| ==> cells[i] == cells[1..][i - 1];
      if !cells[0].Num? then rest
      else if rest.None? || cells[0].x <= rest.value then Some(cells[0].x)
      else rest
  }

  /** `series.replace(0, np.nan)`. */
  function ZeroToNA(c: Cell): Cell
  {
    if c == Num(0.0) then NA else c
  }

  /** `clusters["population"].min() or 1`: a zero minimum becomes 1; `NaN` is truthy and stays. */
  function Baseline(pops: seq<Cell>): Option<real>
  {
    var mn := MinNum(pops);
    if mn == Some(0.0) then Some(1.0) else mn
  }

  /** The rows as the root `callbacks.py` `load_nodes` leaves them: zero populations missing, a diameter column. */
  function Log2Rows(rows: seq<Row>, m: Math): (r: seq<Row>)
    ensures |r| == |rows|
  {
    var base := Baseline(Column(rows, "population"));
    MapRows(rows, (row: Row) => Log2Row(row, base, m))
  }

  /** One row of `Log2Rows`: a zero population made missing, then its diameter. */
  function Log2Row(row: Row, base: Option<real>, m: Math): Row
  {
    var p := ZeroToNA(Lookup(row, "population"));
    row["population" := p]["diameter" := Log2Diameter(p, base, 2000.0, m)]
  }

  /**
   * The root `callbacks.py` `load_nodes`, which rewrites the `population` and
   * `diameter` columns of the frame it is given.
   */
  method LoadNodesLog2(clusters: Frame, m: Math) returns (nodes: seq<Node>)
    modifies clusters
    ensures clusters.columns == AddColumns(old(clusters.columns), ["population", "diameter"])
    ensures clusters.rows == Log2Rows(old(clusters.rows), m)
    ensures nodes == NodesOf(clusters.rows, "population", "diameter", "color")
  {
    var base := Baseline(Column(clusters.rows, "population"));
    clusters.columns := AddColumns(clusters.columns, ["population"]);
    clusters.rows := MapRows(clusters.rows, (row: Row) => row["population" := ZeroToNA(Lookup(row, "population"))]);
    clusters.columns := AddColumns(clusters.columns, ["diameter"]);
    clusters.rows := MapRows(clusters.rows, (row: Row) => row["diameter" := Log2Diameter(Lookup(row, "population"), base, 2000.0, m)]);
    nodes := NodesOf(clusters.rows, "population", "diameter", "color");
    assert AddColumns(AddColumns(old(clusters.columns), ["population"]), ["diameter"])
      == AddColumns(old(clusters.columns), ["population", "diameter"]) by {
      assert ["population", "diameter"][..1] == ["population"];
    }
  }

  /**
   * In the log2 variant a node is emitted exactly for a nonzero, non-missing
   * population, and a population equal to the baseline gets the area 2000.
   */
  lemma Log2RowsFacts(rows: seq<Row>, m: Math, j: nat)
    requires j < |rows|
    ensures var r := Log2Rows(rows, m)[j]; var p := Lookup(rows[j], "population");
      (Shown(Lookup(r, "population")) <==> Shown(p))
      && (Shown(p) && Baseline(Column(rows, "population")) == Some(p.x) && p.x + 1.0 > 0.0 ==>
            Lookup(r, "diameter") == Num(m.sqrt(4.0 * 2000.0 / Pi)))
  {
    var base := Baseline(Column(rows, "population"));
    var p := ZeroToNA(Lookup(rows[j], "population"));
    Log2RowAt(rows, m, j);
    if Shown(p) && base == Some(p.x) && p.x + 1.0 > 0.0 {
      var l := Log2(p.x + 1.0, m);
      assert Mul(2000.0, 1.0 + (l - l)) == 2000.0;
    }
  }

  /** The two cells `load_nodes` writes into row `j`. */
  lemma Log2RowAt(rows: seq<Row>, m: Math, j: nat)
    requires j < |rows|
    ensures var r := Log2Rows(rows, m)[j]; var p := ZeroToNA(Lookup(rows[j], "population"));
      Lookup(r, "population") == p
      && Lookup(r, "diameter") == Log2Diameter(p, Baseline(Column(rows, "population")), 2000.0, m)
  {
    var base := Baseline(Column(rows, "population"));
    assert Log2Rows(rows, m)[j] == Log2Row(rows[j], base, m);
    Log2RowLookup(rows[j], base, m);
  }

  lemma Log2RowLookup(row: Row, base: Option<real>, m: Math)
    ensures var p := ZeroToNA(Lookup(row, "population"));
      Lookup(Log2Row(row, base, m), "population") == p
      && Lookup(Log2Row(row, base, m), "diameter") == Log2Diameter(p, base, 2000.0, m)
  {
    assert "population"[0] != "diameter"[0];
  }

  /** The baseline is the smallest population, or 1 when that is 0; it is missing only when no population is a number. */
  lemma BaselineIsMin(pops: seq<Cell>)
    ensures Baseline(pops).None? <==> forall i :: 0 <= i < |pops| ==> !pops[i].Num?
    ensures Baseline(pops).Some? && Baseline(pops).value != 1.0 ==>
      Num(Baseline(pops).value) in pops && forall i :: 0 <= i < |pops| && pops[i].Num? ==> Baseline(pops).value <= pops[i].x
  {
  }

  /** In the log2 variant a larger population never gets a smaller diameter. */
  lemma Log2DiameterMonotone(p: real, q: real, base: real, scaling: real, m: Math)
    requires Lawful(m) && scaling > 0.0 && base + 1.0 > 0.0 && base <= p <= q
    ensures var dp := Log2Diameter(Num(p), Some(base), scaling, m); var dq := Log2Diameter(Num(q), Some(base), scaling, m);
      dp.Num? && dq.Num? && dp.x <= dq.x
  {
    assert m.log(2.0) > 0.0 by { assert m.log(1.0) < m.log(2.0); }
    LogMonotone(m, base + 1.0, p + 1.0);
    LogMonotone(m, p + 1.0, q + 1.0);
    var l2 := m.log(2.0);
    var lb := Quot(m.log(base + 1.0), l2);
    var lp := Quot(m.log(p + 1.0), l2);
    var lq := Quot(m.log(q + 1.0), l2);
    QuotMonotone(m.log(base + 1.0), m.log(p + 1.0), l2);
    QuotMonotone(m.log(p + 1.0), m.log(q + 1.0), l2);
    var ap := Mul(scaling, 1.0 + (lp - lb));
    var aq := Mul(scaling, 1.0 + (lq - lb));
    MulMonotone(scaling, 1.0 + (lp - lb), 1.0 + (lq - lb));
    DivMonotone(4.0 * ap, 4.0 * aq, Pi);
  }

  // ---- data.py load_nodes: one baseline for both groups ----

  /** `"population_" + group`. */
  function PopColumn(g: LegacyLoading.Group): string
  {
    if g.A? then "population_a" else "population_b"
  }

  /** `"diameter_" + group`. */
  function DiameterColumn(g: LegacyLoading.Group): string
  {
    if g.A? then "diameter_a" else "diameter_b"
  }

  /** Both population columns with zeros made missing. */
  function ZeroedRow(row: Row): Row
  {
    row["population_a" := ZeroToNA(Lookup(row, "population_a"))]["population_b" := ZeroToNA(Lookup(row, "population_b"))]
  }

  /**
   * The palette colour of each row, chosen by its position among all rows
   * (`cmap(np.linspace(0, 1, n))`), and both population columns with zeros made missing.
   */
  function Zeroed(rows: seq<Row>, palette: (nat, nat) -> Cell): (r: seq<Row>)
    ensures |r| == |rows|
    ensures forall i :: 0 <= i < |rows| ==> r[i] == ZeroedRow(rows[i]["rgb_colors" := palette(i, |rows|)])
  {
    seq(|rows|, i requires 0 <= i < |rows| => ZeroedRow(rows[i]["rgb_colors" := palette(i, |rows|)]))
  }

  /** `np.min(pd.concat([population_a, population_b]))`, skipping missing values. */
  function JointMin(rows: seq<Row>): Option<real>
  {
    MinNum(Column(rows, "population_a") + Column(rows, "population_b"))
  }

  function DiameterRow(row: Row, base: Option<real>, m: Math): Row
  {
    row["diameter_a" := Log2Diameter(Lookup(row, "population_a"), base, 300.0, m)]
       ["diameter_b" := Log2Diameter(Lookup(row, "population_b"), base, 300.0, m)]
  }

  /** The rows as `data.py` `load_nodes` leaves them. */
  function TwoGroupRows(rows: seq<Row>, palette: (nat, nat) -> Cell, m: Math): (r: seq<Row>)
    ensures |r| == |rows|
  {
    var zeroed := Zeroed(rows, palette);
    MapRows(zeroed, (row: Row) => DiameterRow(row, JointMin(zeroed), m))
  }

  const TwoGroupColumns: seq<string> := ["rgb_colors", "population_a", "population_b", "diameter_a", "diameter_b"]

  /**
   * `data.py` `load_nodes(clusters, group)`: colours, zero-free populations and
   * diameters for both groups are written into the frame it is given; the
   * nodes are those of the requested group.
   */
  method LoadNodesTwoGroups(clusters: Frame, g: LegacyLoading.Group, palette: (nat, nat) -> Cell, m: Math)
    returns (nodes: seq<Node>)
    modifies clusters
    ensures clusters.columns == AddColumns(old(clusters.columns), TwoGroupColumns)
    ensures clusters.rows == TwoGroupRows(old(clusters.rows), palette, m)
    ensures nodes == NodesOf(clusters.rows, PopColumn(g), DiameterColumn(g), "rgb_colors")
  {
    clusters.columns := AddColumns(clusters.columns, TwoGroupColumns);
    clusters.rows := Zeroed(clusters.rows, palette);
    var base := JointMin(clusters.rows);
    clusters.rows := MapRows(clusters.rows, (row: Row) => DiameterRow(row, base, m));
    nodes := NodesOf(clusters.rows, PopColumn(g), DiameterColumn(g), "rgb_colors");
  }

  /** No population is negative; they are cell counts. */
  predicate Counts(rows: seq<Row>)
  {
    forall i :: 0 <= i < |rows| ==>
      (Lookup(rows[i], "population_a").Num? ==> Lookup(rows[i], "population_a").x >= 0.0)
      && (Lookup(rows[i], "population_b").Num? ==> Lookup(rows[i], "population_b").x >= 0.0)
  }

  lemma ZeroedRowAt(row: Row, c: Cell, g: LegacyLoading.Group)
    ensures Lookup(ZeroedRow(row["rgb_colors" := c]), PopColumn(g)) == ZeroToNA(Lookup(row, PopColumn(g)))
  {
  }

  lemma DiameterRowAt(row: Row, base: Option<real>, m: Math, g: LegacyLoading.Group)
    ensures Lookup(DiameterRow(row, base, m), PopColumn(g)) == Lookup(row, PopColumn(g))
    ensures Lookup(DiameterRow(row, base, m), DiameterColumn(g)) == Log2Diameter(Lookup(row, PopColumn(g)), base, 300.0, m)
  {
  }

  /** The population and diameter of a row in a group after `load_nodes`. */
  lemma TwoGroupRowAt(rows: seq<Row>, palette: (nat, nat) -> Cell, m: Math, j: nat, g: LegacyLoading.Group)
    requires j < |rows|
    ensures var r := TwoGroupRows(rows, palette, m)[j];
      var zeroed := Zeroed(rows, palette);
      Lookup(r, PopColumn(g)) == ZeroToNA(Lookup(rows[j], PopColumn(g)))
      && Lookup(zeroed[j], PopColumn(g)) == Lookup(r, PopColumn(g))
      && Lookup(r, DiameterColumn(g)) == Log2Diameter(Lookup(r, PopColumn(g)), JointMin(zeroed), 300.0, m)
  {
    var zeroed := Zeroed(rows, palette);
    ZeroedRowAt(rows[j], palette(j, |rows|), g);
    DiameterRowAt(zeroed[j], JointMin(zeroed), m, g);
  }

  /** A shown population is one of the numbers the joint baseline is taken over, so it is at least the baseline. */
  lemma JointMinBelow(zeroed: seq<Row>, j: nat, g: LegacyLoading.Group)
    requires j < |zeroed| && Lookup(zeroed[j], PopColumn(g)).Num?
    ensures JointMin(zeroed).Some? && JointMin(zeroed).value <= Lookup(zeroed[j], PopColumn(g)).x
  {
    var ca := Column(zeroed, "population_a");
    var cb := Column(zeroed, "population_b");
    var all := ca + cb;
    if g.A? {
      assert all[j] == ca[j];
    } else {
      assert all[|ca| + j] == cb[j];
    }
  }

  /** With no negative population the joint baseline is not negative. */
  lemma JointMinNonNegative(rows: seq<Row>, palette: (nat, nat) -> Cell)
    requires Counts(rows) && JointMin(Zeroed(rows, palette)).Some?
    ensures JointMin(Zeroed(rows, palette)).value >= 0.0
  {
    var zeroed := Zeroed(rows, palette);
    ZeroedNonNegative(rows, palette, LegacyLoading.A);
    ZeroedNonNegative(rows, palette, LegacyLoading.B);
    var ca := Column(zeroed, "population_a");
    var cb := Column(zeroed, "population_b");
    NonNegativeConcat(ca, cb);
    MinOfNonNegative(ca + cb);
  }

  /** No cell is a negative number. */
  predicate NonNegative(cells: seq<Cell>)
  {
    forall i :: 0 <= i < |cells| && cells[i].Num? ==> cells[i].x >= 0.0
  }

  lemma NonNegativeConcat(a: seq<Cell>, b: seq<Cell>)
    requires NonNegative(a) && NonNegative(b)
    ensures NonNegative(a + b)
  {
    forall i | 0 <= i < |a + b| && (a + b)[i].Num? ensures (a + b)[i].x >= 0.0 {
      if i < |a| {
        assert (a + b)[i] == a[i];
      } else {
        assert (a + b)[i] == b[i - |a|];
      }
    }
  }

  lemma MinOfNonNegative(cells: seq<Cell>)
    requires NonNegative(cells) && MinNum(cells).Some?
    ensures MinNum(cells).value >= 0.0
  {
    var k :| 0 <= k < |cells| && cells[k] == Num(MinNum(cells).value);
  }

  lemma ZeroedNonNegative(rows: seq<Row>, palette: (nat, nat) -> Cell, g: LegacyLoading.Group)
    requires Counts(rows)
    ensures NonNegative(Column(Zeroed(rows, palette), PopColumn(g)))
  {
    var col := Column(Zeroed(rows, palette), PopColumn(g));
    forall i | 0 <= i < |col| && col[i].Num? ensures col[i].x >= 0.0 {
      ZeroedRowAt(rows[i], palette(i, |rows|), g);
    }
  }

  /**
   * Both groups' diameters are measured from the one baseline, so they can be
   * compared across groups: a larger shown population, in either group, never
   * gets a smaller diameter.
   */
  lemma TwoGroupsComparable(rows: seq<Row>, palette: (nat, nat) -> Cell, m: Math,
                            j: nat, gj: LegacyLoading.Group, l: nat, gl: LegacyLoading.Group)
    requires Lawful(m) && Counts(rows) && j < |rows| && l < |rows|
    requires Shown(Lookup(rows[j], PopColumn(gj))) && Shown(Lookup(rows[l], PopColumn(gl)))
    requires Lookup(rows[j], PopColumn(gj)).x <= Lookup(rows[l], PopColumn(gl)).x
    ensures var out := TwoGroupRows(rows, palette, m);
      var dj := Lookup(out[j], DiameterColumn(gj));
      var dl := Lookup(out[l], DiameterColumn(gl));
      dj.Num? && dl.Num? && dj.x <= dl.x
  {
    var zeroed := Zeroed(rows, palette);
    TwoGroupRowAt(rows, palette, m, j, gj);
    TwoGroupRowAt(rows, palette, m, l, gl);
    JointMinBelow(zeroed, j, gj);
    JointMinNonNegative(rows, palette);
    Log2DiameterMonotone(Lookup(rows[j], PopColumn(gj)).x, Lookup(rows[l], PopColumn(gl)).x,
      JointMin(zeroed).value, 300.0, m);
  }

  // ---- edges ----

  /** An edge's width: not yet set, a number of pixels, or an infinity (a division by a zero maximum). */
  datatype Width = Unset | Px(px: real) | Unbounded

  datatype Edge = Edge(id: Cell, source: Cell, target: Cell, weight: nat, caption: string, color: Cell, width: Width)

  /**
   * `edge_width_map`: the root `util.py` one is the clamped ratio; the
   * `src/incytr_viz/util.py` one raises it to `edge_scale_factor`.
   */
  datatype WidthRule = Plain | Scaled(exponent: real)

  /** `max(pathways / global_max_paths * 10, 2)`. */
  function Base(w: nat, g: nat): (b: real)
    requires g > 0
    ensures b >= 2.0
  {
    var ratio := w as real / g as real * 10.0;
    if ratio >= 2.0 then ratio else 2.0
  }

  function WidthOf(w: nat, g: nat, rule: WidthRule, m: Math): Width
  {
    if g == 0 then
      match rule
      case Plain => Unbounded
      case Scaled(k) => if k > 0.0 then Unbounded else if k == 0.0 then Px(1.0) else Px(0.0)
    else
      match rule
      case Plain => Px(Base(w, g))
      case Scaled(k) => Px(m.pow(Base(w, g), k))
  }

  /** The base of the width lies between the floor 2 and the maximum 10 for any weight up to the global maximum. */
  lemma BaseBounds(w: nat, g: nat)
    requires 0 < g && w <= g
    ensures 2.0 <= Base(w, g) <= 10.0
    ensures w == g ==> Base(w, g) == 10.0
  {
    assert w as real / g as real <= 1.0 by {
      assert w as real / g as real * g as real == w as real;
    }
    if w == g {
      assert w as real / g as real == 1.0;
    }
  }

  /** A heavier edge is never drawn thinner. */
  lemma WidthMonotone(v: nat, w: nat, g: nat, rule: WidthRule, m: Math)
    requires 0 < g && v <= w && Lawful(m) && (rule.Scaled? ==> rule.exponent > 0.0)
    ensures WidthOf(v, g, rule, m).Px? && WidthOf(w, g, rule, m).Px?
    ensures WidthOf(v, g, rule, m).px <= WidthOf(w, g, rule, m).px
  {
    DivMonotone(v as real, w as real, g as real);
    assert Base(v, g) <= Base(w, g);
  }

  function Labels(nodes: seq<Node>): (r: seq<Cell>)
    ensures |r| == |nodes| && forall i :: 0 <= i < |nodes| ==> r[i] == nodes[i].caption
  {
    seq(|nodes|, i requires 0 <= i < |nodes| => nodes[i].caption)
  }

  /** The masks that keep the pathways whose sender and receiver are both drawn as nodes. */
  function LinkStages(nodes: seq<Node>): seq<Stage>
  {
    [Apply(OneOf("sender", Labels(nodes))), Apply(OneOf("receiver", Labels(nodes)))]
  }

  /** The (sender, receiver) keys `groupby` sees; a row with a missing key is dropped. */
  function PairKeys(rows: seq<Row>): (r: seq<(Cell, Cell)>)
    ensures |r| <= |rows|
    ensures forall k :: 0 <= k < |r| ==>
      (r[k].0 != NA && r[k].1 != NA
       && exists j :: 0 <= j < |rows| && r[k] == (Lookup(rows[j], "sender"), Lookup(rows[j], "receiver")))
    ensures forall j :: 0 <= j < |rows| && Lookup(rows[j], "sender") != NA && Lookup(rows[j], "receiver") != NA ==>
      (Lookup(rows[j], "sender"), Lookup(rows[j], "receiver")) in r
  {
    if |rows| == 0 then []
    else
      var rest := PairKeys(rows[1..]);
      assert forall j :: 1 <= j < |rows| ==> rows[j] == rows[1..][j - 1];
      var key := (Lookup(rows[0], "sender"), Lookup(rows[0], "receiver"));
      if key.0 != NA && key.1 != NA then [key] + rest else rest
  }

  /** The colour of the first node carrying the label (`next(...)`); `None` where `next` raises. */
  function FirstColor(nodes: seq<Node>, name: Cell): (r: Option<Cell>)
    ensures r.None? <==> name !in Labels(nodes)
    ensures r.Some? ==>
      exists i :: (0 <= i < |nodes| && nodes[i].caption == name && r.value == nodes[i].color
        && forall j :: 0 <= j < i ==> nodes[j].caption != name)
  {
    if |nodes| == 0 then None
    else if nodes[0].caption == name then Some(nodes[0].color)
    else
      var r := FirstColor(nodes[1..], name);
      if r.Some? then
        var i :| 0 <= i < |nodes[1..]| && nodes[1..][i].caption == name && r.value == nodes[1..][i].color
          && forall j :: 0 <= j < i ==> nodes[1..][j].caption != name;
        assert forall j :: 0 <= j < i + 1 ==> nodes[j].caption != name by {
          forall j | 0 <= j < i + 1 ensures nodes[j].caption != name {
            if j > 0 {
              assert nodes[j] == nodes[1..][j - 1];
            }
          }
        }
        assert Labels(nodes)[i + 1] == name;
        r
      else
        assert name !in Labels(nodes) by {
          forall j | 0 <= j < |nodes| ensures Labels(nodes)[j] != name {
            if j > 0 {
              assert nodes[j] == nodes[1..][j - 1];
              assert Labels(nodes[1..])[j - 1] == nodes[j].caption;
            }
          }
        }
        r
  }

  /** One edge of the loop over `sr_pairs`, its width not yet set. */
  function Draft(nodes: seq<Node>, pair: ((Cell, Cell), nat)): Result<Edge>
  {
    match FirstColor(nodes, pair.0.0)
    case None => Err(StopIteration)
    case Some(color) =>
      Ok(Edge(CatCell(pair.0.0, pair.0.1, ""), pair.0.0, pair.0.1, pair.1, Text.NatToString(pair.1), color, Unset))
  }

  /** The loop over the pairs, in order; the first pair whose sender has no node raises. */
  function Drafts(nodes: seq<Node>, pairs: seq<((Cell, Cell), nat)>): (r: Result<seq<Edge>>)
    ensures r.Ok? <==> forall i :: 0 <= i < |pairs| ==> Draft(nodes, pairs[i]).Ok?
    ensures r.Ok? ==> |r.value| == |pairs| && forall i :: 0 <= i < |pairs| ==> Draft(nodes, pairs[i]) == Ok(r.value[i])
  {
    if |pairs| == 0 then Ok([])
    else
      var n := |pairs| - 1;
      var init := Drafts(nodes, pairs[..n]);
      assert forall i :: 0 <= i < n ==> pairs[..n][i] == pairs[i];
      match init
      case Err(e) => Err(e)
      case Ok(es) =>
        match Draft(nodes, pairs[n])
        case Err(e) => Err(e)
        case Ok(d) => Ok(es + [d])
  }

  /** Once a prefix of the pairs raises, the whole loop raises the same error. */
  lemma {:induction false} DraftsPrefixFails(nodes: seq<Node>, pairs: seq<((Cell, Cell), nat)>, k: nat)
    requires k <= |pairs| && Drafts(nodes, pairs[..k]).Err?
    ensures Drafts(nodes, pairs) == Drafts(nodes, pairs[..k])
    decreases |pairs| - k
  {
    if k < |pairs| {
      assert pairs[..k + 1][..k] == pairs[..k];
      DraftsPrefixFails(nodes, pairs, k + 1);
    } else {
      assert pairs[..k] == pairs;
    }
  }

  function WithWidth(e: Edge, g: nat, rule: WidthRule, m: Math): Edge
  {
    e.(width := WidthOf(e.weight, g, rule, m))
  }

  /** The second loop, which sets every edge's width. */
  function WithWidths(edges: seq<Edge>, g: nat, rule: WidthRule, m: Math): (r: seq<Edge>)
    ensures |r| == |edges| && forall i :: 0 <= i < |edges| ==> r[i] == WithWidth(edges[i], g, rule, m)
  {
    seq(|edges|, i requires 0 <= i < |edges| => WithWidth(edges[i], g, rule, m))
  }

  /** The pathways `load_edges` keeps: both ends drawn as nodes. `KeyError` if a column is missing. */
  function Linked(nodes: seq<Node>, pathways: Table): Result<Table>
  {
    Run(pathways, LinkStages(nodes))
  }

  /** One (sender, receiver) pair per group of linked pathways, with its number of pathways. */
  function Pairs(rows: seq<Row>): seq<((Cell, Cell), nat)>
  {
    Seqs.Tally(PairKeys(rows))
  }

  /** What `load_edges` returns or raises. */
  function EdgesOf(nodes: seq<Node>, pathways: Table, g: nat, rule: WidthRule, m: Math): Result<seq<Edge>>
  {
    var linked :- Linked(nodes, pathways);
    if |linked.rows| == 0 then Ok([])
    else
      var drafts :- Drafts(nodes, Pairs(linked.rows));
      Ok(WithWidths(drafts, g, rule, m))
  }

  /** The loop over `sr_pairs.items()`, appending one edge per pair. */
  method DraftEdges(nodes: seq<Node>, pairs: seq<((Cell, Cell), nat)>) returns (r: Result<seq<Edge>>)
    ensures r == Drafts(nodes, pairs)
  {
    var edges: seq<Edge> := [];
    var i := 0;
    while i < |pairs|
      invariant 0 <= i <= |pairs|
      invariant Drafts(nodes, pairs[..i]) == Ok(edges)
    {
      var d := Draft(nodes, pairs[i]);
      assert pairs[..i + 1][..i] == pairs[..i];
      if d.Err? {
        DraftsPrefixFails(nodes, pairs, i + 1);
        return Err(d.error);
      }
      edges := edges + [d.value];
      i := i + 1;
    }
    assert pairs[..i] == pairs;
    r := Ok(edges);
  }

  /** The loop that sets `width` on every edge in place. */
  method SetWidths(edges: seq<Edge>, g: nat, rule: WidthRule, m: Math) returns (r: seq<Edge>)
    ensures r == WithWidths(edges, g, rule, m)
  {
    r := edges;
    var j := 0;
    while j < |r|
      invariant 0 <= j <= |r| == |edges|
      invariant forall k :: 0 <= k < j ==> r[k] == WithWidth(edges[k], g, rule, m)
      invariant forall k :: j <= k < |r| ==> r[k] == edges[k]
    {
      r := r[j := r[j].(width := WidthOf(r[j].weight, g, rule, m))];
      j := j + 1;
    }
  }

  /**
   * `load_edges(nodes, pathways, global_max_paths[, edge_scale_factor])`: the
   * pathways between drawn nodes are grouped by (sender, receiver), one edge is
   * appended per group, and then every edge's width is set.
   */
  method LoadEdges(nodes: seq<Node>, pathways: Table, g: nat, rule: WidthRule, m: Math) returns (r: Result<seq<Edge>>)
    ensures r == EdgesOf(nodes, pathways, g, rule, m)
  {
    var linked := Linked(nodes, pathways);
    if linked.Err? {
      return Err(linked.error);
    }
    if |linked.value.rows| == 0 {
      return Ok([]);
    }
    var drafts := DraftEdges(nodes, Pairs(linked.value.rows));
    if drafts.Err? {
      return Err(drafts.error);
    }
    var edges := SetWidths(drafts.value, g, rule, m);
    r := Ok(edges);
  }

  // ---- what `load_edges` promises ----

  /** The linked pathways are the input rows whose sender and receiver are both node labels, in order. */
  lemma LinkedRows(nodes: seq<Node>, pathways: Table)
    ensures Linked(nodes, pathways).Ok? <==> "sender" in pathways.columns && "receiver" in pathways.columns
    ensures Linked(nodes, pathways).Ok? ==>
      Linked(nodes, pathways).value.rows == SelectAll(pathways.rows, Tests(LinkStages(nodes)))
    ensures Linked(nodes, pathways).Ok? ==> forall j :: 0 <= j < |Linked(nodes, pathways).value.rows| ==>
      (Lookup(Linked(nodes, pathways).value.rows[j], "sender") in Labels(nodes)
       && Lookup(Linked(nodes, pathways).value.rows[j], "receiver") in Labels(nodes)
       && Linked(nodes, pathways).value.rows[j] in pathways.rows)
  {
    var st := LinkStages(nodes);
    RunCharacterised(pathways, st);
    assert Runs(pathways.columns, st) <==> "sender" in pathways.columns && "receiver" in pathways.columns by {
      assert TestColumns(st[0].test) == ["sender"];
      assert TestColumns(st[1].test) == ["receiver"];
    }
    if Linked(nodes, pathways).Ok? {
      var rows := Linked(nodes, pathways).value.rows;
      forall j | 0 <= j < |rows|
        ensures Lookup(rows[j], "sender") in Labels(nodes) && Lookup(rows[j], "receiver") in Labels(nodes)
          && rows[j] in pathways.rows
      {
        PassesStage(pathways, st, OneOf("sender", Labels(nodes)), j);
        PassesStage(pathways, st, OneOf("receiver", Labels(nodes)), j);
      }
    }
  }

  /** Every pair's sender has a node, so the `next(...)` colour lookup never raises. */
  lemma PairsFindColors(nodes: seq<Node>, pathways: Table)
    requires Linked(nodes, pathways).Ok?
    ensures var pairs := Pairs(Linked(nodes, pathways).value.rows);
      forall i :: 0 <= i < |pairs| ==> pairs[i].0.0 in Labels(nodes) && pairs[i].0.1 in Labels(nodes)
  {
    LinkedRows(nodes, pathways);
    var rows := Linked(nodes, pathways).value.rows;
    var keys := PairKeys(rows);
    var pairs := Pairs(rows);
    forall i | 0 <= i < |pairs|
      ensures pairs[i].0.0 in Labels(nodes) && pairs[i].0.1 in Labels(nodes)
    {
      assert pairs[i].0 in keys;
      var k :| 0 <= k < |keys| && keys[k] == pairs[i].0;
      var j :| 0 <= j < |rows| && keys[k] == (Lookup(rows[j], "sender"), Lookup(rows[j], "receiver"));
    }
  }

  /** Drafting raises nothing when every sender has a node. */
  lemma DraftsSucceed(nodes: seq<Node>, pairs: seq<((Cell, Cell), nat)>)
    requires forall i :: 0 <= i < |pairs| ==> pairs[i].0.0 in Labels(nodes)
    ensures Drafts(nodes, pairs).Ok?
  {
    forall i | 0 <= i < |pairs| ensures Draft(nodes, pairs[i]).Ok? {
      assert FirstColor(nodes, pairs[i].0.0).Some?;
    }
  }

  /** `load_edges` raises only the `KeyError` of a pathways table without a sender or receiver column. */
  lemma EdgesRaiseOnlyKeyError(nodes: seq<Node>, pathways: Table, g: nat, rule: WidthRule, m: Math)
    ensures EdgesOf(nodes, pathways, g, rule, m).Err? <==> !("sender" in pathways.columns && "receiver" in pathways.columns)
    ensures EdgesOf(nodes, pathways, g, rule, m).Err? ==> EdgesOf(nodes, pathways, g, rule, m).error.KeyError?
  {
    LinkedRows(nodes, pathways);
    var linked := Linked(nodes, pathways);
    if linked.Ok? && |linked.value.rows| > 0 {
      PairsFindColors(nodes, pathways);
      DraftsSucceed(nodes, Pairs(linked.value.rows));
    } else if linked.Err? {
      var st := LinkStages(nodes);
      var k := RunError(pathways, st);
    }
  }

  /** Edge `i` is the draft of pair `i` with its width set. */
  lemma EdgeAt(nodes: seq<Node>, pathways: Table, g: nat, rule: WidthRule, m: Math, i: nat)
    requires EdgesOf(nodes, pathways, g, rule, m).Ok? && i < |EdgesOf(nodes, pathways, g, rule, m).value|
    ensures Linked(nodes, pathways).Ok?
    ensures var pairs := Pairs(Linked(nodes, pathways).value.rows);
      |EdgesOf(nodes, pathways, g, rule, m).value| == |pairs| && Draft(nodes, pairs[i]).Ok?
      && EdgesOf(nodes, pathways, g, rule, m).value[i] == WithWidth(Draft(nodes, pairs[i]).value, g, rule, m)
  {
    var rows := Linked(nodes, pathways).value.rows;
    var pairs := Pairs(rows);
    var drafts := Drafts(nodes, pairs).value;
    assert Draft(nodes, pairs[i]) == Ok(drafts[i]);
  }

  /** Pair `i` is a key some row holds, with that key's number of rows. */
  lemma PairAt(rows: seq<Row>, i: nat)
    requires i < |Pairs(rows)|
    ensures var p := Pairs(rows)[i];
      p.0 in PairKeys(rows) && p.1 == Seqs.Count(PairKeys(rows), p.0) && p.1 >= 1
      && p.0.0 != NA && p.0.1 != NA
      && exists j :: 0 <= j < |rows| && (Lookup(rows[j], "sender"), Lookup(rows[j], "receiver")) == p.0
  {
    var keys := PairKeys(rows);
    var p := Pairs(rows)[i];
    assert p.0 == Seqs.Dedup(keys)[i];
    Seqs.CountPositive(keys, p.0);
    var k :| 0 <= k < |keys| && keys[k] == p.0;
  }

  /**
   * Each edge joins two drawn nodes by a (sender, receiver) pair that some
   * linked pathway holds, and weighs the number of linked pathways with that pair.
   */
  lemma EdgeEnds(nodes: seq<Node>, pathways: Table, g: nat, rule: WidthRule, m: Math, i: nat)
    requires EdgesOf(nodes, pathways, g, rule, m).Ok? && i < |EdgesOf(nodes, pathways, g, rule, m).value|
    ensures Linked(nodes, pathways).Ok?
    ensures var e := EdgesOf(nodes, pathways, g, rule, m).value[i];
      var rows := Linked(nodes, pathways).value.rows;
      e.source in Labels(nodes) && e.target in Labels(nodes) && e.source != NA && e.target != NA
      && e.id == CatCell(e.source, e.target, "")
      && e.weight == Seqs.Count(PairKeys(rows), (e.source, e.target)) && e.weight >= 1
      && exists j :: 0 <= j < |rows| && (Lookup(rows[j], "sender"), Lookup(rows[j], "receiver")) == (e.source, e.target)
  {
    EdgeAt(nodes, pathways, g, rule, m, i);
    PairAt(Linked(nodes, pathways).value.rows, i);
    PairsFindColors(nodes, pathways);
  }

  /**
   * Each edge's label is its weight written in decimal, its colour that of the
   * first node labelled as its source, and its width the rule applied to its weight.
   */
  lemma EdgeLooks(nodes: seq<Node>, pathways: Table, g: nat, rule: WidthRule, m: Math, i: nat)
    requires EdgesOf(nodes, pathways, g, rule, m).Ok? && i < |EdgesOf(nodes, pathways, g, rule, m).value|
    ensures var e := EdgesOf(nodes, pathways, g, rule, m).value[i];
      Text.ParseDigits(e.caption) == e.weight
      && FirstColor(nodes, e.source) == Some(e.color)
      && e.width == WidthOf(e.weight, g, rule, m)
  {
    EdgeAt(nodes, pathways, g, rule, m, i);
    var pairs := Pairs(Linked(nodes, pathways).value.rows);
    Text.ParseNatToString(pairs[i].1);
  }

  /** One edge per (sender, receiver) pair: no two edges join the same two nodes in the same direction. */
  lemma EdgesDistinct(nodes: seq<Node>, pathways: Table, g: nat, rule: WidthRule, m: Math, i: nat, j: nat)
    requires EdgesOf(nodes, pathways, g, rule, m).Ok?
    requires i < j < |EdgesOf(nodes, pathways, g, rule, m).value|
    ensures var es := EdgesOf(nodes, pathways, g, rule, m).value;
      (es[i].source, es[i].target) != (es[j].source, es[j].target)
  {
    var pairs, drafts := EdgesValue(nodes, pathways, g, rule, m);
    var keys := PairKeys(Linked(nodes, pathways).value.rows);
    assert pairs == Seqs.Tally(keys);
    TallyKeysApart(keys, i, j);
    assert Draft(nodes, pairs[i]) == Ok(drafts[i]);
    assert Draft(nodes, pairs[j]) == Ok(drafts[j]);
  }

  /** The keys of a tally are distinct. */
  lemma TallyKeysApart(keys: seq<(Cell, Cell)>, i: nat, j: nat)
    requires i < j < |Seqs.Tally(keys)|
    ensures Seqs.Tally(keys)[i].0 != Seqs.Tally(keys)[j].0
  {
    var t := Seqs.Tally(keys);
    Seqs.TallyKeysDistinct(keys);
    assert Seqs.Keys(t)[i] == t[i].0 && Seqs.Keys(t)[j] == t[j].0;
  }

  /** Every linked pathway is drawn: some edge joins its sender to its receiver. */
  lemma LinkedPathwayHasEdge(nodes: seq<Node>, pathways: Table, g: nat, rule: WidthRule, m: Math, j: nat)
    requires EdgesOf(nodes, pathways, g, rule, m).Ok? && Linked(nodes, pathways).Ok?
    requires j < |Linked(nodes, pathways).value.rows|
    requires Lookup(Linked(nodes, pathways).value.rows[j], "sender") != NA
    requires Lookup(Linked(nodes, pathways).value.rows[j], "receiver") != NA
    ensures var es := EdgesOf(nodes, pathways, g, rule, m).value;
      var row := Linked(nodes, pathways).value.rows[j];
      exists i :: 0 <= i < |es| && (es[i].source, es[i].target) == (Lookup(row, "sender"), Lookup(row, "receiver"))
  {
    var rows := Linked(nodes, pathways).value.rows;
    var key := (Lookup(rows[j], "sender"), Lookup(rows[j], "receiver"));
    var i := PairOfKey(rows, j);
    EdgeOfPair(nodes, pathways, g, rule, m, i);
  }

  /** Each pathway with both ends named is counted under some pair. */
  lemma PairOfKey(rows: seq<Row>, j: nat) returns (i: nat)
    requires j < |rows| && Lookup(rows[j], "sender") != NA && Lookup(rows[j], "receiver") != NA
    ensures i < |Pairs(rows)| && Pairs(rows)[i].0 == (Lookup(rows[j], "sender"), Lookup(rows[j], "receiver"))
  {
    var keys := PairKeys(rows);
    var key := (Lookup(rows[j], "sender"), Lookup(rows[j], "receiver"));
    assert key in keys;
    assert key in Seqs.Dedup(keys);
    i :| 0 <= i < |Seqs.Dedup(keys)| && Seqs.Dedup(keys)[i] == key;
  }

  /** The `i`-th edge joins the ends of the `i`-th pair. */
  lemma EdgeOfPair(nodes: seq<Node>, pathways: Table, g: nat, rule: WidthRule, m: Math, i: nat)
    requires EdgesOf(nodes, pathways, g, rule, m).Ok? && Linked(nodes, pathways).Ok?
    requires i < |Pairs(Linked(nodes, pathways).value.rows)|
    ensures var es := EdgesOf(nodes, pathways, g, rule, m).value;
      i < |es| && (es[i].source, es[i].target) == Pairs(Linked(nodes, pathways).value.rows)[i].0
  {
    var rows := Linked(nodes, pathways).value.rows;
    var pairs := Pairs(rows);
    assert |PairKeys(rows)| > 0;
    var drafts := Drafts(nodes, pairs).value;
    assert Draft(nodes, pairs[i]) == Ok(drafts[i]);
  }

  /** The total weight of a list of edges. */
  function TotalWeight(edges: seq<Edge>): nat
  {
    if |edges| == 0 then 0 else TotalWeight(edges[..|edges| - 1]) + edges[|edges| - 1].weight
  }

  lemma {:induction false} TotalWeightOfDrafts(edges: seq<Edge>, pairs: seq<((Cell, Cell), nat)>)
    requires |edges| == |pairs| && forall i :: 0 <= i < |pairs| ==> edges[i].weight == pairs[i].1
    ensures TotalWeight(edges) == Seqs.SumCounts(pairs)
  {
    if |edges| > 0 {
      var n := |edges| - 1;
      TotalWeightOfDrafts(edges[..n], pairs[..n]);
    }
  }

  /** Every linked pathway with both ends present is counted in exactly one edge. */
  lemma TotalWeightIsPathways(nodes: seq<Node>, pathways: Table, g: nat, rule: WidthRule, m: Math)
    requires EdgesOf(nodes, pathways, g, rule, m).Ok?
    ensures TotalWeight(EdgesOf(nodes, pathways, g, rule, m).value) == |PairKeys(Linked(nodes, pathways).value.rows)|
  {
    var keys := PairKeys(Linked(nodes, pathways).value.rows);
    var es := EdgesOf(nodes, pathways, g, rule, m).value;
    EdgeWeights(nodes, pathways, g, rule, m);
    Seqs.TallyTotal(keys);
    TotalWeightOfDrafts(es, Seqs.Tally(keys));
  }

  /** One edge per pair, weighted by the pair's number of pathways. */
  lemma EdgeWeights(nodes: seq<Node>, pathways: Table, g: nat, rule: WidthRule, m: Math)
    requires EdgesOf(nodes, pathways, g, rule, m).Ok?
    ensures Linked(nodes, pathways).Ok?
    ensures var pairs := Pairs(Linked(nodes, pathways).value.rows);
      var es := EdgesOf(nodes, pathways, g, rule, m).value;
      |es| == |pairs| && forall i :: 0 <= i < |es| ==> es[i].weight == pairs[i].1
  {
    var pairs, drafts := EdgesValue(nodes, pathways, g, rule, m);
    forall i | 0 <= i < |drafts| ensures drafts[i].weight == pairs[i].1 {
      assert Draft(nodes, pairs[i]) == Ok(drafts[i]);
    }
  }

  /** The edges `load_edges` returns are the drafted pairs with their widths set. */
  lemma EdgesValue(nodes: seq<Node>, pathways: Table, g: nat, rule: WidthRule, m: Math)
    returns (pairs: seq<((Cell, Cell), nat)>, drafts: seq<Edge>)
    requires EdgesOf(nodes, pathways, g, rule, m).Ok?
    ensures Linked(nodes, pathways).Ok? && pairs == Pairs(Linked(nodes, pathways).value.rows)
    ensures Drafts(nodes, pairs) == Ok(drafts)
    ensures EdgesOf(nodes, pathways, g, rule, m).value == WithWidths(drafts, g, rule, m)
  {
    var rows := Linked(nodes, pathways).value.rows;
    pairs := Pairs(rows);
    if |rows| > 0 {
      drafts := Drafts(nodes, pairs).value;
    } else {
      assert |PairKeys(rows)| == 0;
      drafts := [];
    }
  }

  // ---- the largest pair count over both groups ----

  /** The largest count of a tally; 0 for an empty one (the `NaN` the caller replaces by 0). */
  function MaxCount<K>(t: seq<(K, nat)>): (r: nat)
    ensures forall i :: 0 <= i < |t| ==> t[i].1 <= r
    ensures |t| == 0 ==> r == 0
    ensures |t| > 0 ==> exists i :: 0 <= i < |t| && t[i].1 == r
  {
    if |t| == 0 then 0
    else
      var rest := MaxCount(t[..|t| - 1]);
      assert forall i :: 0 <= i < |t| - 1 ==> t[..|t| - 1][i] == t[i];
      if t[|t| - 1].1 >= rest then t[|t| - 1].1 else rest
  }

  /** `np.max(pathways.groupby(["sender", "receiver"]).size())`, 0 when there is no pathway. */
  function MostPaths(pathways: Table): nat
  {
    MaxCount(Pairs(pathways.rows))
  }

  /** `global_max_paths = max(a_max_paths, b_max_paths)`. */
  function GlobalMaxPaths(a: Table, b: Table): (r: nat)
    ensures r >= MostPaths(a) && r >= MostPaths(b)
    ensures r == MostPaths(a) || r == MostPaths(b)
  {
    if MostPaths(a) >= MostPaths(b) then MostPaths(a) else MostPaths(b)
  }

  /** The key one row contributes: its pair when both ends are named, else nothing. */
  function RowKey(row: Row): seq<(Cell, Cell)>
  {
    var key := (Lookup(row, "sender"), Lookup(row, "receiver"));
    if key.0 != NA && key.1 != NA then [key] else []
  }

  lemma PairKeysUncons(rows: seq<Row>)
    requires |rows| > 0
    ensures PairKeys(rows) == RowKey(rows[0]) + PairKeys(rows[1..])
  {
  }

  lemma PairKeysCons(row: Row, rest: seq<Row>)
    ensures PairKeys([row] + rest) == RowKey(row) + PairKeys(rest)
  {
    assert ([row] + rest)[1..] == rest;
  }

  /** Selecting rows never raises the count of a key. */
  lemma {:induction false} CountSelectAll(rows: seq<Row>, tests: seq<Test>, key: (Cell, Cell))
    ensures Seqs.Count(PairKeys(SelectAll(rows, tests)), key) <= Seqs.Count(PairKeys(rows), key)
  {
    if |rows| > 0 {
      var rest := rows[1..];
      CountSelectAll(rest, tests, key);
      var head := RowKey(rows[0]);
      PairKeysUncons(rows);
      Seqs.CountAppend(head, PairKeys(rest), key);
      var selRest := SelectAll(rest, tests);
      if HoldsAll(tests, rows[0]) {
        assert SelectAll(rows, tests) == [rows[0]] + selRest;
        PairKeysCons(rows[0], selRest);
        Seqs.CountAppend(head, PairKeys(selRest), key);
      } else {
        assert SelectAll(rows, tests) == selRest;
      }
    }
  }

  /** The count of any key is at most the largest count of the tally. */
  lemma CountAtMostMax(keys: seq<(Cell, Cell)>, key: (Cell, Cell))
    ensures Seqs.Count(keys, key) <= MaxCount(Seqs.Tally(keys))
  {
    Seqs.CountPositive(keys, key);
    if key in keys {
      assert key in Seqs.Dedup(keys);
      var i :| 0 <= i < |Seqs.Dedup(keys)| && Seqs.Dedup(keys)[i] == key;
      assert Seqs.Tally(keys)[i].1 == Seqs.Count(keys, key);
    }
  }

  /**
   * With the global maximum taken over both groups' pathways, no edge of
   * either group is heavier than it, so under the plain rule every width lies
   * between the floor of 2 and the maximum of 10 pixels.
   */
  lemma WeightWithinGlobalMax(nodes: seq<Node>, a: Table, b: Table, rule: WidthRule, m: Math, i: nat)
    requires EdgesOf(nodes, a, GlobalMaxPaths(a, b), rule, m).Ok?
    requires i < |EdgesOf(nodes, a, GlobalMaxPaths(a, b), rule, m).value|
    ensures var e := EdgesOf(nodes, a, GlobalMaxPaths(a, b), rule, m).value[i];
      1 <= e.weight <= GlobalMaxPaths(a, b)
      && (rule.Plain? ==> e.width.Px? && 2.0 <= e.width.px <= 10.0)
  {
    var g := GlobalMaxPaths(a, b);
    var e := EdgesOf(nodes, a, g, rule, m).value[i];
    EdgeEnds(nodes, a, g, rule, m, i);
    EdgeLooks(nodes, a, g, rule, m, i);
    LinkedRows(nodes, a);
    var key := (e.source, e.target);
    CountSelectAll(a.rows, Tests(LinkStages(nodes)), key);
    CountAtMostMax(PairKeys(a.rows), key);
    BaseBounds(e.weight, g);
  }
}
