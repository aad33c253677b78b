/**
 * The cell-cluster graph of the older standalone pages (`clusters.py` and
 * `clusters_graph.py`): one node per cluster sized by its share of all cells,
 * and one edge per (sender group, receiver group) pair of the pathways kept by
 * a strict direction and threshold filter, its width relative to the heaviest
 * edge. The two files share this logic; `clusters_graph.py` reads its tables
 * from files first, which is not part of this model.
 */
module LegacyNetwork {
  import opened Wrappers
  import Seqs
  import opened Frames
  import opened Chains
  import FilterPolicies

  // ---- nodes ----

  /** One row of the clusters table: its `Type` and its integer `Population`. */
  datatype Cluster = Cluster(kind: Cell, population: int)

  /** One cytoscape node: its data (`id`, `label`, `cluster_size`) and its `width`/`height` style. */
  datatype ClusterNode = ClusterNode(id: Cell, caption: Cell, clusterSize: int, width: Cell, height: Cell)

  /** `clusters_df["Population"].sum()`. */
  function Total(clusters: seq<Cluster>): int
  {
    if |clusters| == 0 then 0 else Total(clusters[..|clusters| - 1]) + clusters[|clusters| - 1].population
  }

  /**
   * `node_size_map` as written: `(count / total) / 0.5` percent of the graph width.
   * A zero total gives numpy's `inf` or `nan`, modelled as missing.
   */
  function NodeSizeAsWritten(count: int, total: int): (r: Cell)
    ensures r.Num? <==> total != 0
  {
    if total == 0 then NA else Num((count as real / total as real) / 0.5 * 100.0)
  }

  /** `node_size_map` as its documentation states it: all sizes together make 50% of the width. */
  function NodeSize(count: int, total: int): (r: Cell)
    ensures r.Num? <==> total != 0
  {
    if total == 0 then NA else Num((count as real / total as real) * 0.5 * 100.0)
  }

  /** The sizes of the clusters' nodes added up, each read as a number (a missing size as 0). */
  function SizeSum(clusters: seq<Cluster>, total: int, size: (int, int) -> Cell): real
  {
    if |clusters| == 0 then 0.0
    else
      var c := size(clusters[|clusters| - 1].population, total);
      SizeSum(clusters[..|clusters| - 1], total, size) + (if c.Num? then c.x else 0.0)
  }

  lemma {:induction false} SizeSumAsWritten(clusters: seq<Cluster>, total: int)
    requires total != 0
    ensures SizeSum(clusters, total, NodeSizeAsWritten) == 200.0 * (Total(clusters) as real) / (total as real)
  {
    if |clusters| > 0 {
      var n := |clusters| - 1;
      SizeSumAsWritten(clusters[..n], total);
      var p := clusters[n].population as real;
      var t := total as real;
      assert (p / t) / 0.5 * 100.0 == 200.0 * p / t;
      assert 200.0 * (Total(clusters[..n]) as real) / t + 200.0 * p / t == 200.0 * (Total(clusters[..n]) as real + p) / t;
    }
  }

  lemma {:induction false} SizeSumIntended(clusters: seq<Cluster>, total: int)
    requires total != 0
    ensures SizeSum(clusters, total, NodeSize) == 50.0 * (Total(clusters) as real) / (total as real)
  {
    if |clusters| > 0 {
      var n := |clusters| - 1;
      SizeSumIntended(clusters[..n], total);
      var p := clusters[n].population as real;
      var t := total as real;
      assert (p / t) * 0.5 * 100.0 == 50.0 * p / t;
      assert 50.0 * (Total(clusters[..n]) as real) / t + 50.0 * p / t == 50.0 * (Total(clusters[..n]) as real + p) / t;
    }
  }

  /** As written, the node sizes of a graph with any cells add up to 200% of its width, not 50%. */
  lemma SizesAddTo200(clusters: seq<Cluster>)
    requires Total(clusters) != 0
    ensures SizeSum(clusters, Total(clusters), NodeSizeAsWritten) == 200.0
  {
    SizeSumAsWritten(clusters, Total(clusters));
    var t := Total(clusters) as real;
    assert 200.0 * t / t == 200.0;
  }

  /** With the documented mapping the node sizes add up to 50% of the width. */
  lemma SizesAddTo50(clusters: seq<Cluster>)
    requires Total(clusters) != 0
    ensures SizeSum(clusters, Total(clusters), NodeSize) == 50.0
  {
    SizeSumIntended(clusters, Total(clusters));
    var t := Total(clusters) as real;
    assert 50.0 * t / t == 50.0;
  }

  /** A larger cluster gets a larger node, and a cluster of no cells a node of size 0, under either mapping. */
  lemma NodeSizeMonotone(a: int, b: int, total: int)
    requires total > 0 && a <= b
    ensures NodeSizeAsWritten(a, total).x <= NodeSizeAsWritten(b, total).x
    ensures NodeSizeAsWritten(0, total).x == 0.0
    ensures NodeSize(a, total).x <= NodeSize(b, total).x
    ensures NodeSize(0, total).x == 0.0
  {
    var t := total as real;
    assert (a as real) / t <= (b as real) / t;
  }

  /**
   * The node `load_nodes` appends for one cluster, sized by the mapping `size`
   * (`NodeSizeAsWritten` in `clusters.py`); its colour is random and left out.
   */
  function NodeOf(c: Cluster, total: int, size: (int, int) -> Cell): ClusterNode
  {
    ClusterNode(c.kind, c.kind, c.population, size(c.population, total), size(c.population, total))
  }

  /**
   * `load_nodes`: one node per cluster row, in order. `clusters.py` calls it with
   * `node_size_map` as written; `NodeSize` gives the load its documentation describes.
   */
  method LoadNodes(clusters: seq<Cluster>, size: (int, int) -> Cell) returns (nodes: seq<ClusterNode>)
    ensures |nodes| == |clusters|
    ensures forall i :: 0 <= i < |clusters| ==> nodes[i] == NodeOf(clusters[i], Total(clusters), size)
  {
    var total := Total(clusters);
    nodes := [];
    var i := 0;
    while i < |clusters|
      invariant 0 <= i <= |clusters|
      invariant |nodes| == i
      invariant forall j :: 0 <= j < i ==> nodes[j] == NodeOf(clusters[j], total, size)
    {
      var s := clusters[i];
      var w := size(s.population, total);
      nodes := nodes + [ClusterNode(s.kind, s.kind, s.population, w, w)];
      i := i + 1;
    }
  }

  /** The nodes' widths added up. */
  function WidthSum(nodes: seq<ClusterNode>): real
  {
    if |nodes| == 0 then 0.0
    else WidthSum(nodes[..|nodes| - 1]) + (if nodes[|nodes| - 1].width.Num? then nodes[|nodes| - 1].width.x else 0.0)
  }

  lemma {:induction false} WidthSumOfNodes(clusters: seq<Cluster>, nodes: seq<ClusterNode>, total: int, size: (int, int) -> Cell)
    requires |nodes| == |clusters| && forall i :: 0 <= i < |clusters| ==> nodes[i] == NodeOf(clusters[i], total, size)
    ensures WidthSum(nodes) == SizeSum(clusters, total, size)
  {
    if |nodes| > 0 {
      var n := |nodes| - 1;
      WidthSumOfNodes(clusters[..n], nodes[..n], total, size);
    }
  }

  /**
   * The nodes `load_nodes` returns as written are labelled by their cluster type,
   * are square, and their widths share out 200% of the graph width in proportion
   * to population.
   */
  lemma LoadedNodes(clusters: seq<Cluster>, nodes: seq<ClusterNode>)
    requires |nodes| == |clusters|
    requires forall i :: 0 <= i < |clusters| ==> nodes[i] == NodeOf(clusters[i], Total(clusters), NodeSizeAsWritten)
    ensures forall i :: 0 <= i < |nodes| ==>
      nodes[i].id == clusters[i].kind && nodes[i].caption == clusters[i].kind
      && nodes[i].clusterSize == clusters[i].population && nodes[i].width == nodes[i].height
    ensures Total(clusters) != 0 ==> WidthSum(nodes) == 200.0
    ensures Total(clusters) == 0 ==> forall i :: 0 <= i < |nodes| ==> nodes[i].width == NA
  {
    WidthSumOfNodes(clusters, nodes, Total(clusters), NodeSizeAsWritten);
    if Total(clusters) != 0 {
      SizesAddTo200(clusters);
    }
  }

  /** Loaded with the documented mapping, the same nodes share out 50% of the width. */
  lemma CorrectedLoadedNodes(clusters: seq<Cluster>, nodes: seq<ClusterNode>)
    requires |nodes| == |clusters|
    requires forall i :: 0 <= i < |clusters| ==> nodes[i] == NodeOf(clusters[i], Total(clusters), NodeSize)
    ensures Total(clusters) != 0 ==> WidthSum(nodes) == 50.0
  {
    WidthSumOfNodes(clusters, nodes, Total(clusters), NodeSize);
    if Total(clusters) != 0 {
      SizesAddTo50(clusters);
    }
  }

  // ---- edges ----

  /** One cytoscape edge: its data and the `width` its style gets in the second loop. */
  datatype GroupEdge = GroupEdge(id: Cell, source: Cell, target: Cell, weight: nat, width: Option<real>)

  /** The (Sender.group, Receiver.group) keys `groupby` sees; a row with a missing key is dropped. */
  function GroupKeys(rows: seq<Row>): (r: seq<(Cell, Cell)>)
    ensures |r| <= |rows|
    ensures forall k :: 0 <= k < |r| ==>
      (r[k].0 != NA && r[k].1 != NA
       && exists j :: 0 <= j < |rows| && r[k] == (Lookup(rows[j], "Sender.group"), Lookup(rows[j], "Receiver.group")))
    ensures forall j :: 0 <= j < |rows| && Lookup(rows[j], "Sender.group") != NA && Lookup(rows[j], "Receiver.group") != NA ==>
      (Lookup(rows[j], "Sender.group"), Lookup(rows[j], "Receiver.group")) in r
  {
    if |rows| == 0 then []
    else
      var rest := GroupKeys(rows[1..]);
      assert forall j :: 1 <= j < |rows| ==> rows[j] == rows[1..][j - 1];
      var key := (Lookup(rows[0], "Sender.group"), Lookup(rows[0], "Receiver.group"));
      if key.0 != NA && key.1 != NA then [key] + rest else rest
  }

  /** `df.groupby(["Sender.group", "Receiver.group"]).size().to_dict()`, raising `KeyError` for an absent column. */
  function GroupPairs(t: Table): (r: Result<seq<((Cell, Cell), nat)>>)
    ensures r.Ok? <==> "Sender.group" in t.columns && "Receiver.group" in t.columns
    ensures r.Ok? ==> r.value == Seqs.Tally(GroupKeys(t.rows))
    ensures r.Err? ==> r.error.KeyError?
  {
    if "Sender.group" !in t.columns then Err(KeyError("Sender.group"))
    else if "Receiver.group" !in t.columns then Err(KeyError("Receiver.group"))
    else Ok(Seqs.Tally(GroupKeys(t.rows)))
  }

  /** The edge the `except StopIteration` branch appends for a pair not seen before. */
  function Fresh(pair: ((Cell, Cell), nat)): GroupEdge
  {
    GroupEdge(CatCell(pair.0.0, pair.0.1, ""), pair.0.0, pair.0.1, pair.1, None)
  }

  /** The index `next(...)` finds: the first edge from `key.0` to `key.1`, or none (`StopIteration`). */
  function Find(edges: seq<GroupEdge>, key: (Cell, Cell)): (r: Option<nat>)
    ensures r.None? <==> forall j :: 0 <= j < |edges| ==> (edges[j].source, edges[j].target) != key
    ensures r.Some? ==> (r.value < |edges| && (edges[r.value].source, edges[r.value].target) == key
      && forall j :: 0 <= j < r.value ==> (edges[j].source, edges[j].target) != key)
  {
    if |edges| == 0 then None
    else if (edges[0].source, edges[0].target) == key then Some(0)
    else
      var r := Find(edges[1..], key);
      assert forall j :: 1 <= j < |edges| ==> edges[j] == edges[1..][j - 1];
      if r.Some? then Some(r.value + 1) else None
  }

  /** One step of the loop over the pairs: add to the edge found, or append a fresh one. */
  function Merge(edges: seq<GroupEdge>, pair: ((Cell, Cell), nat)): seq<GroupEdge>
  {
    match Find(edges, pair.0)
    case Some(i) => edges[i := edges[i].(weight := edges[i].weight + pair.1)]
    case None => edges + [Fresh(pair)]
  }

  /** The whole loop over the pairs, as written. */
  function MergeAll(pairs: seq<((Cell, Cell), nat)>): seq<GroupEdge>
  {
    if |pairs| == 0 then [] else Merge(MergeAll(pairs[..|pairs| - 1]), pairs[|pairs| - 1])
  }

  /** One fresh edge per pair, in order. */
  function Aggregated(pairs: seq<((Cell, Cell), nat)>): (r: seq<GroupEdge>)
    ensures |r| == |pairs| && forall i :: 0 <= i < |pairs| ==> r[i] == Fresh(pairs[i])
  {
    seq(|pairs|, i requires 0 <= i < |pairs| => Fresh(pairs[i]))
  }

  /**
   * Over pairs with distinct keys, as a dictionary's items are, the accumulating
   * `weight +=` branch never runs: every pair appends its own edge.
   */
  lemma {:induction false} AccumulateNeverFires(pairs: seq<((Cell, Cell), nat)>)
    requires Seqs.NoDup(Seqs.Keys(pairs))
    ensures MergeAll(pairs) == Aggregated(pairs)
  {
    if |pairs| > 0 {
      var n := |pairs| - 1;
      var init := pairs[..n];
      assert Seqs.Keys(init) == Seqs.Keys(pairs)[..n];
      AccumulateNeverFires(init);
      var prev := MergeAll(init);
      forall j | 0 <= j < |prev| ensures (prev[j].source, prev[j].target) != pairs[n].0 {
        assert Seqs.Keys(pairs)[j] == pairs[j].0;
        assert Seqs.Keys(pairs)[n] == pairs[n].0;
      }
      assert Find(prev, pairs[n].0).None?;
      assert MergeAll(pairs) == prev + [Fresh(pairs[n])];
      AggregatedSnoc(pairs);
    }
  }

  lemma AggregatedSnoc(pairs: seq<((Cell, Cell), nat)>)
    requires |pairs| > 0
    ensures Aggregated(pairs) == Aggregated(pairs[..|pairs| - 1]) + [Fresh(pairs[|pairs| - 1])]
  {
  }

  /** `max(...)` over the weights; `max` of no weights raises `ValueError`. */
  function MaxWeight(edges: seq<GroupEdge>): (r: nat)
    requires |edges| > 0
    ensures forall i :: 0 <= i < |edges| ==> edges[i].weight <= r
    ensures exists i :: 0 <= i < |edges| && edges[i].weight == r
  {
    if |edges| == 1 then edges[0].weight
    else
      var rest := MaxWeight(edges[..|edges| - 1]);
      assert forall i :: 0 <= i < |edges| - 1 ==> edges[..|edges| - 1][i] == edges[i];
      if edges[|edges| - 1].weight >= rest then edges[|edges| - 1].weight else rest
  }

  /** `edge_width_map(weight, max_paths)` with its default maximum of 5 px. */
  function EdgeWidth(weight: nat, maxPaths: nat): real
    requires maxPaths > 0
  {
    weight as real / maxPaths as real * 5.0
  }

  function Widened(edges: seq<GroupEdge>, maxPaths: nat): (r: seq<GroupEdge>)
    requires maxPaths > 0
    ensures |r| == |edges| && forall i :: 0 <= i < |edges| ==> r[i] == edges[i].(width := Some(EdgeWidth(edges[i].weight, maxPaths)))
  {
    seq(|edges|, i requires 0 <= i < |edges| => edges[i].(width := Some(EdgeWidth(edges[i].weight, maxPaths))))
  }

  /** The pathways `load_edges` keeps, grouped into edges; every way it can raise. */
  function GroupEdgesOf(t: Table, d: FilterPolicies.Direction, threshold: Option<real>): Result<seq<GroupEdge>>
  {
    var df :- FilterPolicies.StrictFiltered(t, d, threshold);
    var pairs :- GroupPairs(df);
    if |pairs| == 0 then Err(ValueError("max() arg is an empty sequence"))
    else
      var edges := Aggregated(pairs);
      Ok(Widened(edges, MaxWeight(edges)))
  }

  /** The `next(...)` search over the edges built so far. */
  method FindEdge(edges: seq<GroupEdge>, key: (Cell, Cell)) returns (r: Option<nat>)
    ensures r == Find(edges, key)
  {
    var i := 0;
    while i < |edges|
      invariant 0 <= i <= |edges|
      invariant forall j :: 0 <= j < i ==> (edges[j].source, edges[j].target) != key
    {
      if edges[i].source == key.0 && edges[i].target == key.1 {
        return Some(i);
      }
      i := i + 1;
    }
    return None;
  }

  /** The loop over `sr_pairs.items()`. */
  method Accumulate(pairs: seq<((Cell, Cell), nat)>) returns (edges: seq<GroupEdge>)
    ensures edges == MergeAll(pairs)
  {
    edges := [];
    var i := 0;
    while i < |pairs|
      invariant 0 <= i <= |pairs|
      invariant edges == MergeAll(pairs[..i])
    {
      assert pairs[..i + 1][..i] == pairs[..i];
      var pair := pairs[i];
      ghost var next := Merge(edges, pair);
      assert next == MergeAll(pairs[..i + 1]);
      var found := FindEdge(edges, pair.0);
      match found {
        case Some(k) =>
          edges := edges[k := edges[k].(weight := edges[k].weight + pair.1)];
        case None =>
          edges := edges + [GroupEdge(CatCell(pair.0.0, pair.0.1, ""), pair.0.0, pair.0.1, pair.1, None)];
      }
      assert edges == next;
      i := i + 1;
    }
    assert pairs[..i] == pairs;
  }

  /** The second loop, which writes each edge's `style["width"]` in place. */
  method SetWidths(edges: seq<GroupEdge>, maxPaths: nat) returns (r: seq<GroupEdge>)
    requires maxPaths > 0
    ensures r == Widened(edges, maxPaths)
  {
    r := edges;
    var i := 0;
    while i < |r|
      invariant 0 <= i <= |r| && |r| == |edges|
      invariant forall j :: 0 <= j < i ==> r[j] == edges[j].(width := Some(EdgeWidth(edges[j].weight, maxPaths)))
      invariant forall j :: i <= j < |r| ==> r[j] == edges[j]
    {
      r := r[i := r[i].(width := Some(r[i].weight as real / maxPaths as real * 5.0))];
      i := i + 1;
    }
  }

  /** `load_edges` after the pathways are in hand. */
  method LoadEdges(t: Table, d: FilterPolicies.Direction, threshold: Option<real>) returns (r: Result<seq<GroupEdge>>)
    ensures r == GroupEdgesOf(t, d, threshold)
    ensures r.Ok? ==> WidthsScaled(r.value)
  {
    var df := FilterPolicies.StrictFiltered(t, d, threshold);
    if df.Err? {
      return Err(df.error);
    }
    var pairs := GroupPairs(df.value);
    if pairs.Err? {
      return Err(pairs.error);
    }
    Seqs.TallyKeysDistinct(GroupKeys(df.value.rows));
    Seqs.TallyPositive(GroupKeys(df.value.rows));
    r := EdgesOfPairs(pairs.value);
  }

  /** The two loops of `load_edges` over the group pairs, and the `max` between them. */
  method EdgesOfPairs(pairs: seq<((Cell, Cell), nat)>) returns (r: Result<seq<GroupEdge>>)
    requires Seqs.NoDup(Seqs.Keys(pairs)) && forall i :: 0 <= i < |pairs| ==> pairs[i].1 > 0
    ensures r == if |pairs| == 0 then Err(ValueError("max() arg is an empty sequence"))
      else Ok(Widened(Aggregated(pairs), MaxWeight(Aggregated(pairs))))
    ensures r.Ok? ==> WidthsScaled(r.value)
  {
    var edges := Accumulate(pairs);
    AccumulateNeverFires(pairs);
    if |edges| == 0 {
      return Err(ValueError("max() arg is an empty sequence"));
    }
    var maxPaths := MaxWeight(edges);
    edges := SetWidths(edges, maxPaths);
    r := Ok(edges);
    AggregatedPositive(pairs);
    ScaledWidths(edges, Aggregated(pairs));
  }

  // ---- what `load_edges` promises ----

  /** The pathways the strict filter keeps, when it raises nothing. */
  function Kept(t: Table, d: FilterPolicies.Direction, threshold: Option<real>): seq<Row>
    requires FilterPolicies.StrictFiltered(t, d, threshold).Ok?
  {
    FilterPolicies.StrictFiltered(t, d, threshold).value.rows
  }

  /**
   * `load_edges` raises `KeyError` for a missing score or group column and
   * `ValueError` when no kept pathway has both groups, and otherwise succeeds.
   */
  lemma GroupEdgesRaise(t: Table, d: FilterPolicies.Direction, threshold: Option<real>)
    ensures GroupEdgesOf(t, d, threshold).Err? <==>
      FilterPolicies.StrictFiltered(t, d, threshold).Err?
      || "Sender.group" !in t.columns || "Receiver.group" !in t.columns
      || |GroupKeys(Kept(t, d, threshold))| == 0
    ensures FilterPolicies.StrictFiltered(t, d, threshold).Err? ==>
      GroupEdgesOf(t, d, threshold).Err? && GroupEdgesOf(t, d, threshold).error.KeyError?
    ensures FilterPolicies.StrictFiltered(t, d, threshold).Ok? && GroupEdgesOf(t, d, threshold).Err? ==>
      (GroupEdgesOf(t, d, threshold).error.KeyError? <==> "Sender.group" !in t.columns || "Receiver.group" !in t.columns)
  {
    var st := FilterPolicies.StrictStages(d, threshold);
    RunCharacterised(t, st);
    if FilterPolicies.StrictFiltered(t, d, threshold).Err? {
      var k := RunError(t, st);
    } else {
      var keys := GroupKeys(Kept(t, d, threshold));
      if |keys| > 0 {
        assert keys[0] in Seqs.Dedup(keys);
      }
    }
  }

  /** Edge `i` is the fresh edge of pair `i`, its width relative to the heaviest pair. */
  lemma GroupEdgeAt(t: Table, d: FilterPolicies.Direction, threshold: Option<real>, i: nat)
    requires GroupEdgesOf(t, d, threshold).Ok? && i < |GroupEdgesOf(t, d, threshold).value|
    ensures FilterPolicies.StrictFiltered(t, d, threshold).Ok?
    ensures var pairs := Seqs.Tally(GroupKeys(Kept(t, d, threshold)));
      var es := GroupEdgesOf(t, d, threshold).value;
      |es| == |pairs| && |pairs| > 0
      && es[i] == Fresh(pairs[i]).(width := Some(EdgeWidth(pairs[i].1, MaxWeight(Aggregated(pairs)))))
  {
  }

  /**
   * Every edge joins a distinct pair of groups that some kept pathway has, and
   * its weight is the number of kept pathways with exactly that pair.
   */
  lemma GroupEdgeEnds(t: Table, d: FilterPolicies.Direction, threshold: Option<real>, i: nat)
    requires GroupEdgesOf(t, d, threshold).Ok? && i < |GroupEdgesOf(t, d, threshold).value|
    ensures FilterPolicies.StrictFiltered(t, d, threshold).Ok?
    ensures var e := GroupEdgesOf(t, d, threshold).value[i];
      var keys := GroupKeys(Kept(t, d, threshold));
      e.source != NA && e.target != NA
      && e.id == CatCell(e.source, e.target, "")
      && e.weight == Seqs.Count(keys, (e.source, e.target)) && e.weight >= 1
      && exists j :: 0 <= j < |Kept(t, d, threshold)|
           && Lookup(Kept(t, d, threshold)[j], "Sender.group") == e.source
           && Lookup(Kept(t, d, threshold)[j], "Receiver.group") == e.target
    ensures forall j :: 0 <= j < |GroupEdgesOf(t, d, threshold).value| && j != i ==>
      (GroupEdgesOf(t, d, threshold).value[j].source, GroupEdgesOf(t, d, threshold).value[j].target)
      != (GroupEdgesOf(t, d, threshold).value[i].source, GroupEdgesOf(t, d, threshold).value[i].target)
  {
    GroupEdgeAt(t, d, threshold, i);
    var rows := Kept(t, d, threshold);
    var keys := GroupKeys(rows);
    var pairs := Seqs.Tally(keys);
    var es := GroupEdgesOf(t, d, threshold).value;
    var p := pairs[i];
    assert p.0 == Seqs.Dedup(keys)[i];
    Seqs.CountPositive(keys, p.0);
    var k :| 0 <= k < |keys| && keys[k] == p.0;
    forall j | 0 <= j < |es| && j != i ensures (es[j].source, es[j].target) != (es[i].source, es[i].target) {
      GroupEdgeAt(t, d, threshold, j);
      assert pairs[j].0 == Seqs.Dedup(keys)[j];
    }
  }

  /** Every kept pathway with both groups is counted in the edge of its pair. */
  lemma KeptPathwayHasEdge(t: Table, d: FilterPolicies.Direction, threshold: Option<real>, j: nat)
    requires GroupEdgesOf(t, d, threshold).Ok?
    requires FilterPolicies.StrictFiltered(t, d, threshold).Ok? && j < |Kept(t, d, threshold)|
    requires Lookup(Kept(t, d, threshold)[j], "Sender.group") != NA && Lookup(Kept(t, d, threshold)[j], "Receiver.group") != NA
    ensures exists i :: (0 <= i < |GroupEdgesOf(t, d, threshold).value|
      && GroupEdgesOf(t, d, threshold).value[i].source == Lookup(Kept(t, d, threshold)[j], "Sender.group")
      && GroupEdgesOf(t, d, threshold).value[i].target == Lookup(Kept(t, d, threshold)[j], "Receiver.group"))
  {
    var rows := Kept(t, d, threshold);
    var keys := GroupKeys(rows);
    var key := (Lookup(rows[j], "Sender.group"), Lookup(rows[j], "Receiver.group"));
    assert key in Seqs.Dedup(keys);
    var i :| 0 <= i < |Seqs.Dedup(keys)| && Seqs.Dedup(keys)[i] == key;
    GroupEdgeAt(t, d, threshold, i);
  }

  /**
   * Widths lie in (0, 5] px, the heaviest edge gets exactly 5 px, and a heavier
   * edge is never thinner.
   */
  predicate WidthsScaled(es: seq<GroupEdge>)
  {
    (forall i :: 0 <= i < |es| ==> es[i].width.Some? && 0.0 < es[i].width.value <= 5.0)
    && (exists i :: 0 <= i < |es| && es[i].width == Some(5.0))
    && (forall i, j :: 0 <= i < |es| && 0 <= j < |es| && es[i].weight <= es[j].weight ==>
          es[i].width.value <= es[j].width.value)
  }

  lemma ScaledWidths(es: seq<GroupEdge>, edges: seq<GroupEdge>)
    requires |edges| > 0 && (forall i :: 0 <= i < |edges| ==> edges[i].weight >= 1)
    requires MaxWeight(edges) > 0 && es == Widened(edges, MaxWeight(edges))
    ensures WidthsScaled(es)
  {
    WidenedWidths(edges);
  }

  lemma AggregatedPositive(pairs: seq<((Cell, Cell), nat)>)
    requires forall i :: 0 <= i < |pairs| ==> pairs[i].1 > 0
    ensures forall i :: 0 <= i < |Aggregated(pairs)| ==> Aggregated(pairs)[i].weight >= 1
  {
  }

  lemma WidenedWidths(edges: seq<GroupEdge>)
    requires |edges| > 0 && forall i :: 0 <= i < |edges| ==> edges[i].weight >= 1
    ensures WidthsScaled(Widened(edges, MaxWeight(edges)))
  {
    var mx := MaxWeight(edges);
    var es := Widened(edges, mx);
    forall i | 0 <= i < |es| ensures 0.0 < es[i].width.value <= 5.0 {
      WidthBounds(edges[i].weight, mx);
    }
    var k :| 0 <= k < |edges| && edges[k].weight == mx;
    WidthBounds(mx, mx);
    assert es[k].width == Some(5.0);
    forall i, j | 0 <= i < |es| && 0 <= j < |es| && es[i].weight <= es[j].weight
      ensures es[i].width.value <= es[j].width.value
    {
      WidthMonotone(es[i].weight, es[j].weight, mx);
    }
  }

  lemma WidthBounds(w: nat, mx: nat)
    requires 1 <= w <= mx
    ensures 0.0 < EdgeWidth(w, mx) <= 5.0
    ensures w == mx ==> EdgeWidth(w, mx) == 5.0
  {
    assert w as real / mx as real <= 1.0;
  }

  lemma WidthMonotone(a: nat, b: nat, mx: nat)
    requires a <= b && mx > 0
    ensures EdgeWidth(a, mx) <= EdgeWidth(b, mx)
  {
    assert a as real / mx as real <= b as real / mx as real;
  }

  /**
   * Every pathway counted in an edge passed the strict filter: its score has the
   * chosen sign and lies beyond a truthy threshold, and it comes from the input.
   */
  lemma CountedPathwaysPassFilter(t: Table, d: FilterPolicies.Direction, threshold: Option<real>, j: nat)
    requires FilterPolicies.StrictFiltered(t, d, threshold).Ok? && j < |Kept(t, d, threshold)|
    ensures var row := Kept(t, d, threshold)[j]; var v := Lookup(row, "final_score");
      row in t.rows
      && (d.Up? ==> v.Num? && v.x > 0.0)
      && (d.Down? ==> v.Num? && v.x < 0.0)
      && (threshold.Some? && threshold.value != 0.0 ==> v.Num? && Abs(v.x) > threshold.value)
  {
    FilterPolicies.StrictKept(t, d, threshold, j);
  }

  /** The edges' weights add up to the number of kept pathways with both groups. */
  function TotalWeight(edges: seq<GroupEdge>): nat
  {
    if |edges| == 0 then 0 else TotalWeight(edges[..|edges| - 1]) + edges[|edges| - 1].weight
  }

  lemma {:induction false} TotalWeightOfAggregated(es: seq<GroupEdge>, pairs: seq<((Cell, Cell), nat)>)
    requires |es| == |pairs| && forall i :: 0 <= i < |pairs| ==> es[i].weight == pairs[i].1
    ensures TotalWeight(es) == Seqs.SumCounts(pairs)
  {
    if |es| > 0 {
      var n := |es| - 1;
      TotalWeightOfAggregated(es[..n], pairs[..n]);
    }
  }

  lemma GroupEdgesCountEveryPathway(t: Table, d: FilterPolicies.Direction, threshold: Option<real>)
    requires GroupEdgesOf(t, d, threshold).Ok?
    ensures FilterPolicies.StrictFiltered(t, d, threshold).Ok?
    ensures TotalWeight(GroupEdgesOf(t, d, threshold).value) == |GroupKeys(Kept(t, d, threshold))|
  {
    var keys := GroupKeys(Kept(t, d, threshold));
    var pairs := Seqs.Tally(keys);
    var es := GroupEdgesOf(t, d, threshold).value;
    forall i | 0 <= i < |es| ensures es[i].weight == pairs[i].1 {
      GroupEdgeAt(t, d, threshold, i);
    }
    TotalWeightOfAggregated(es, pairs);
    Seqs.TallyTotal(keys);
  }
}
