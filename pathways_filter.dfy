/**
 * `PathwaysFilter` of `src/incytr_viz/util.py`: the per-group view of the pathway
 * table (columns of the other group dropped, the group's own namespaced columns
 * under their plain names, optionally only rows whose fold change favours the
 * group) and the chain of masks that `filter` applies to a view.
 */
module PathwaysFiltering {
  import opened Wrappers
  import Seqs
  import Text
  import opened Frames
  import opened Chains
  import Headers
  import PathwayLoading

  /** The `group_id` that `filter` accepts: `"a"` or `"b"`. */
  datatype Group = A | B

  // ---- namespaced columns ----

  /** `NAMESPACED_COLUMNS`: a column starting with one of these carries a group suffix. */
  predicate Namespaced(c: string)
  {
    Text.StartsWith(c, "sigprob") || Text.StartsWith(c, "p_value") || Text.StartsWith(c, "siks_score")
  }

  /** `get_namespaced_columns`: the namespaced columns, in table order. */
  function NamespacedColumns(cols: seq<string>): (r: seq<string>)
    ensures forall i :: 0 <= i < |r| ==> r[i] in cols && Namespaced(r[i])
    ensures forall i :: 0 <= i < |cols| && Namespaced(cols[i]) ==> cols[i] in r
  {
    if |cols| == 0 then []
    else (if Namespaced(cols[0]) then [cols[0]] else []) + NamespacedColumns(cols[1..])
  }

  /** The new name `a_data`/`b_data` give a column: a namespaced one loses the group's suffix. */
  function ViewName(c: string, own: string): string
  {
    if Namespaced(c) && Text.EndsWith(c, "_" + own) then c[..|c| - |own| - 1] else c
  }

  function ViewNames(cols: seq<string>, own: string): (r: seq<string>)
    ensures |r| == |cols| && forall i :: 0 <= i < |cols| ==> r[i] == ViewName(cols[i], own)
  {
    if |cols| == 0 then [] else [ViewName(cols[0], own)] + ViewNames(cols[1..], own)
  }

  /** `loc[:, ~columns.str.endswith(suffix)]`. */
  function WithoutSuffix(cols: seq<string>, suffix: string): (r: seq<string>)
    ensures forall i :: 0 <= i < |r| ==> r[i] in cols && !Text.EndsWith(r[i], suffix)
    ensures forall i :: 0 <= i < |cols| && !Text.EndsWith(cols[i], suffix) ==> cols[i] in r
  {
    if |cols| == 0 then []
    else (if Text.EndsWith(cols[0], suffix) then [] else [cols[0]]) + WithoutSuffix(cols[1..], suffix)
  }

  /** One of the two names is a prefix of the other. */
  predicate Clashes(k: string, ns: string)
  {
    forall i :: 0 <= i < |k| && i < |ns| ==> k[i] == ns[i]
  }

  /** `k` shares no prefix with a namespace, so no renamed namespaced column reads as `k`. */
  predicate Unprefixed(k: string)
  {
    !Clashes(k, "sigprob") && !Clashes(k, "p_value") && !Clashes(k, "siks_score")
  }

  /** A renamed column starts like its namespace, so only an unambiguous name keeps itself. */
  lemma RenamedClashes(c: string, own: string)
    ensures ViewName(c, own) == c || !Unprefixed(ViewName(c, own))
  {
    if Namespaced(c) && Text.EndsWith(c, "_" + own) {
      var k := ViewName(c, own);
      var ns := if Text.StartsWith(c, "sigprob") then "sigprob"
        else if Text.StartsWith(c, "p_value") then "p_value" else "siks_score";
      assert forall i :: 0 <= i < |ns| ==> c[i] == c[..|ns|][i] == ns[i];
      assert forall i :: 0 <= i < |k| ==> k[i] == c[i];
      assert Clashes(k, ns);
    }
  }

  // ---- the dataclass ----

  /** The fields of a `PathwaysFilter`; a `None` p-value ceiling is `None`. */
  datatype Criteria = Criteria(
    allPaths: Table, groupA: string, groupB: string, afcDirection: bool,
    sp: real, pval: Option<real>, prs: seq<real>, tprs: seq<real>, kinase: string,
    senders: seq<Cell>, receivers: seq<Cell>, ligands: seq<Cell>, receptors: seq<Cell>,
    em: seq<Cell>, targets: seq<Cell>, anyRole: seq<Cell>,
    umapA: map<string, real>, umapB: map<string, real>)

  /** The declared field defaults: no threshold, no bounds, no selections. */
  function Declared(allPaths: Table, a: string, b: string, afcDirection: bool): Criteria
  {
    Criteria(allPaths, a, b, afcDirection, 0.0, None, [], [], "", [], [], [], [], [], [], [], map[], map[])
  }

  /** `if not selection: selection = all_paths[col].unique()`. */
  function Defaulted(sel: seq<Cell>, t: Table, col: string): Result<seq<Cell>>
  {
    if |sel| > 0 then Ok(sel)
    else if col in t.columns then Ok(Unique(t.rows, col))
    else Err(KeyError(col))
  }

  /** What `__post_init__` leaves in the fields, or the `KeyError` it raises. */
  function Initialized(c: Criteria): Result<Criteria>
  {
    var s :- Defaulted(c.senders, c.allPaths, "sender");
    var r :- Defaulted(c.receivers, c.allPaths, "receiver");
    var l :- Defaulted(c.ligands, c.allPaths, "ligand");
    var rc :- Defaulted(c.receptors, c.allPaths, "receptor");
    var e :- Defaulted(c.em, c.allPaths, "em");
    var t :- Defaulted(c.targets, c.allPaths, "target");
    Ok(c.(senders := s, receivers := r, ligands := l, receptors := rc, em := e, targets := t))
  }

  /** An empty selection becomes the values observed in the table; a given one is kept. */
  predicate DefaultedTo(given: seq<Cell>, now: seq<Cell>, t: Table, col: string)
  {
    if |given| == 0 then now == Unique(t.rows, col) else now == given
  }

  /** `Defaulted` raises exactly for an empty selection of a missing column. */
  lemma DefaultedCharacterised(sel: seq<Cell>, t: Table, col: string)
    ensures Defaulted(sel, t, col).Err? <==> |sel| == 0 && col !in t.columns
    ensures Defaulted(sel, t, col).Err? ==> Defaulted(sel, t, col).error == KeyError(col)
    ensures Defaulted(sel, t, col).Ok? ==> DefaultedTo(sel, Defaulted(sel, t, col).value, t, col)
  {
  }

  /**
   * `__post_init__` raises `KeyError` exactly when a selection is empty and its
   * column is missing.
   */
  lemma InitializedFails(c: Criteria)
    ensures Initialized(c).Err? <==>
      (|c.senders| == 0 && "sender" !in c.allPaths.columns)
      || (|c.receivers| == 0 && "receiver" !in c.allPaths.columns)
      || (|c.ligands| == 0 && "ligand" !in c.allPaths.columns)
      || (|c.receptors| == 0 && "receptor" !in c.allPaths.columns)
      || (|c.em| == 0 && "em" !in c.allPaths.columns)
      || (|c.targets| == 0 && "target" !in c.allPaths.columns)
  {
    DefaultedCharacterised(c.senders, c.allPaths, "sender");
    DefaultedCharacterised(c.receivers, c.allPaths, "receiver");
    DefaultedCharacterised(c.ligands, c.allPaths, "ligand");
    DefaultedCharacterised(c.receptors, c.allPaths, "receptor");
    DefaultedCharacterised(c.em, c.allPaths, "em");
    DefaultedCharacterised(c.targets, c.allPaths, "target");
  }

  /**
   * When it raises nothing, each empty selection becomes all observed values and
   * everything else is unchanged.
   */
  lemma InitializedCharacterised(c: Criteria)
    requires Initialized(c).Ok?
    ensures var d := Initialized(c).value;
      DefaultedTo(c.senders, d.senders, c.allPaths, "sender")
      && DefaultedTo(c.receivers, d.receivers, c.allPaths, "receiver")
      && DefaultedTo(c.ligands, d.ligands, c.allPaths, "ligand")
      && DefaultedTo(c.receptors, d.receptors, c.allPaths, "receptor")
      && DefaultedTo(c.em, d.em, c.allPaths, "em")
      && DefaultedTo(c.targets, d.targets, c.allPaths, "target")
      && d.(senders := c.senders, receivers := c.receivers, ligands := c.ligands,
            receptors := c.receptors, em := c.em, targets := c.targets) == c
  {
    DefaultedCharacterised(c.senders, c.allPaths, "sender");
    DefaultedCharacterised(c.receivers, c.allPaths, "receiver");
    DefaultedCharacterised(c.ligands, c.allPaths, "ligand");
    DefaultedCharacterised(c.receptors, c.allPaths, "receptor");
    DefaultedCharacterised(c.em, c.allPaths, "em");
    DefaultedCharacterised(c.targets, c.allPaths, "target");
  }

  /** `InitializedCharacterised`, stated against the table the initialised criteria keep. */
  lemma InitializedSelections(c: Criteria)
    requires Initialized(c).Ok?
    ensures var d := Initialized(c).value;
      d.allPaths == c.allPaths
      && DefaultedTo(c.senders, d.senders, d.allPaths, "sender")
      && DefaultedTo(c.receivers, d.receivers, d.allPaths, "receiver")
      && DefaultedTo(c.ligands, d.ligands, d.allPaths, "ligand")
      && DefaultedTo(c.receptors, d.receptors, d.allPaths, "receptor")
      && DefaultedTo(c.em, d.em, d.allPaths, "em")
      && DefaultedTo(c.targets, d.targets, d.allPaths, "target")
  {
    InitializedCharacterised(c);
  }

  // ---- a_data and b_data ----

  function Own(c: Criteria, g: Group): string
  {
    if g == A then c.groupA else c.groupB
  }

  function Other(c: Criteria, g: Group): string
  {
    if g == A then c.groupB else c.groupA
  }

  /** The columns a view keeps: those not ending with the other group's suffix. */
  function ViewColumns(c: Criteria, g: Group): seq<string>
  {
    WithoutSuffix(c.allPaths.columns, "_" + Other(c, g))
  }

  /** Group A keeps rows with `afc > 0`, group B rows with `afc < 0`. */
  function AfcTest(g: Group): Test
  {
    if g == A then Above("afc", 0.0) else Below("afc", 0.0)
  }

  /** The kept columns, restricted to the group's fold-change sign when asked. */
  function Directed(c: Criteria, g: Group): Result<Table>
  {
    var t := Project(c.allPaths, ViewColumns(c, g));
    if c.afcDirection then Where(t, AfcTest(g)) else Ok(t)
  }

  /** `a_data` for group A, `b_data` for group B. */
  function View(c: Criteria, g: Group): Result<Table>
  {
    var t :- Directed(c, g);
    var cols := ViewColumns(c, g);
    var news := ViewNames(cols, Own(c, g));
    Ok(Table(news, RenameRows(t.rows, cols, news)))
  }

  /** A name without `_` never ends with a group suffix. */
  lemma NoUnderscoreNoSuffix(k: string, suffix: string)
    requires '_' !in k && |suffix| > 0 && suffix[0] == '_'
    ensures !Text.EndsWith(k, suffix)
  {
    if |suffix| <= |k| {
      assert k[|k| - |suffix|..][0] == k[|k| - |suffix|];
    }
  }

  lemma ViewNameStrips(c: string, own: string)
    requires Namespaced(c) && Text.EndsWith(c, "_" + own)
    ensures ViewName(c, own) + "_" + own == c
  {
    var n := |c| - |own| - 1;
    assert c == c[..n] + c[n..];
  }

  /**
   * A view's columns are, in order, the table's columns that do not end with the
   * other group's suffix; a namespaced one ending with the group's own suffix
   * appears without it, every other one under its own name.
   */
  lemma ViewColumnsOrigin(c: Criteria, g: Group)
    requires View(c, g).Ok?
    ensures var v := View(c, g).value; var src := ViewColumns(c, g);
      |v.columns| == |src|
      && (forall k :: k in c.allPaths.columns && !Text.EndsWith(k, "_" + Other(c, g)) ==> k in src)
      && forall i :: 0 <= i < |src| ==>
        src[i] in c.allPaths.columns && !Text.EndsWith(src[i], "_" + Other(c, g))
        && if Namespaced(src[i]) && Text.EndsWith(src[i], "_" + Own(c, g))
           then v.columns[i] + "_" + Own(c, g) == src[i]
           else v.columns[i] == src[i]
  {
    var src := ViewColumns(c, g);
    forall i | 0 <= i < |src| && Namespaced(src[i]) && Text.EndsWith(src[i], "_" + Own(c, g))
      ensures ViewName(src[i], Own(c, g)) + "_" + Own(c, g) == src[i]
    {
      ViewNameStrips(src[i], Own(c, g));
    }
  }

  /** A view raises only when the fold-change sign is asked for and `afc` is missing. */
  lemma ViewFails(c: Criteria, g: Group)
    ensures View(c, g).Err? <==> c.afcDirection && "afc" !in c.allPaths.columns
    ensures View(c, g).Err? ==> View(c, g).error == KeyError("afc")
  {
    NoUnderscoreNoSuffix("afc", "_" + Other(c, g));
  }

  /**
   * Every row of a view is a row of the table: a column whose name has no `_` and
   * no namespace prefix reads, in the view, the cell it has in that table row; and
   * when the fold-change sign is asked for, that table row has the group's sign.
   */
  lemma ViewRow(c: Criteria, g: Group, j: nat, k: string) returns (i: nat)
    requires View(c, g).Ok? && j < |View(c, g).value.rows|
    requires k in c.allPaths.columns && '_' !in k && Unprefixed(k)
    ensures i < |c.allPaths.rows| && k in View(c, g).value.columns
    ensures Lookup(View(c, g).value.rows[j], k) == Lookup(c.allPaths.rows[i], k)
    ensures c.afcDirection ==> Holds(AfcTest(g), c.allPaths.rows[i])
  {
    var own := Own(c, g);
    var cols := ViewColumns(c, g);
    var news := ViewNames(cols, own);
    var d := Directed(c, g).value;
    var t := Project(c.allPaths, cols);
    NoUnderscoreNoSuffix(k, "_" + Other(c, g));
    NoUnderscoreNoSuffix(k, "_" + own);
    var p :| 0 <= p < |cols| && cols[p] == k;
    assert news[p] == k;
    forall q | 0 <= q < |news| && news[q] == k ensures cols[q] == k {
      RenamedClashes(cols[q], own);
    }
    RenameRowKeeps(d.rows[j], cols, news, k);
    assert d.rows[j] in t.rows;
    i :| 0 <= i < |t.rows| && t.rows[i] == d.rows[j];
    RenameRowKeeps(c.allPaths.rows[i], cols, cols, k);
    if c.afcDirection {
      assert Holds(AfcTest(g), d.rows[j]);
      RenameRowKeeps(c.allPaths.rows[i], cols, cols, "afc");
    }
  }

  lemma AfcUnprefixed()
    ensures Unprefixed("afc") && '_' !in "afc"
  {
    assert "afc"[0] != "sigprob"[0] && "afc"[0] != "p_value"[0] && "afc"[0] != "siks_score"[0];
  }

  /**
   * With the fold-change sign asked for, every row of group A's view has `afc > 0`
   * and every row of group B's `afc < 0`: a row with `afc == 0` is in neither.
   */
  lemma ViewAfcSign(c: Criteria, g: Group, j: nat)
    requires c.afcDirection && View(c, g).Ok? && j < |View(c, g).value.rows|
    ensures Lookup(View(c, g).value.rows[j], "afc").Num?
    ensures g == A ==> Lookup(View(c, g).value.rows[j], "afc").x > 0.0
    ensures g == B ==> Lookup(View(c, g).value.rows[j], "afc").x < 0.0
  {
    ViewFails(c, g);
    AfcUnprefixed();
    var i := ViewRow(c, g, j, "afc");
    AfcSign(c.allPaths.rows[i], g);
  }

  lemma AfcSign(row: Row, g: Group)
    requires Holds(AfcTest(g), row)
    ensures Lookup(row, "afc").Num?
    ensures g == A ==> Lookup(row, "afc").x > 0.0
    ensures g == B ==> Lookup(row, "afc").x < 0.0
  {
  }

  // ---- filter ----

  function Box(c: Criteria, g: Group): map<string, real>
  {
    if g == A then c.umapA else c.umapB
  }

  /** A dictionary entry Python treats as true: present and not zero. */
  predicate Truthy(box: map<string, real>, key: string)
  {
    key in box && box[key] != 0.0
  }

  /**
   * One axis of the UMAP box, applied when its lower bound is truthy. The column
   * is read before the upper bound is looked up, so a missing column raises
   * before a missing upper bound does.
   */
  function AxisStages(box: map<string, real>, lo: string, hi: string, col: string): seq<Stage>
  {
    if !Truthy(box, lo) then []
    else if hi in box then [Apply(Between(col, box[lo], box[hi]))]
    else [Apply(AtLeast(col, box[lo])), Fail(KeyError(hi))]
  }

  function UmapStages(box: map<string, real>, umap: bool): seq<Stage>
  {
    if umap then
      AxisStages(box, "xaxis.range[0]", "xaxis.range[1]", "umap1")
        + AxisStages(box, "yaxis.range[0]", "yaxis.range[1]", "umap2")
    else []
  }

  /** The p-value ceiling applies only when it is truthy: neither `None` nor zero. */
  function PValStages(pval: Option<real>): seq<Stage>
  {
    if pval.Some? && pval.value != 0.0 then [Apply(AtMost("p_value", pval.value))] else []
  }

  /**
   * A nonempty band keeps the rows outside it; a band of one bound raises
   * `IndexError` once the column has been read.
   */
  function BandStages(bounds: seq<real>, col: string): seq<Stage>
  {
    if |bounds| == 0 then []
    else if |bounds| == 1 then [Apply(AtMost(col, bounds[0])), Fail(IndexError)]
    else [Apply(Outside(col, bounds[0], bounds[1]))]
  }

  /** The six membership tests, in the order their columns are read. */
  function CategoryStages(c: Criteria): seq<Stage>
  {
    [Apply(OneOf("ligand", c.ligands)), Apply(OneOf("receptor", c.receptors)),
     Apply(OneOf("em", c.em)), Apply(OneOf("target", c.targets)),
     Apply(OneOf("sender", c.senders)), Apply(OneOf("receiver", c.receivers))]
  }

  /** A molecule selected for any role: the row has it as ligand, receptor, em or target. */
  function AnyRoleStages(mols: seq<Cell>): seq<Stage>
  {
    if |mols| == 0 then [] else [Apply(AnyOneOf(PathwayLoading.RoleColumns, mols))]
  }

  /** The kinase selector table as the source writes it, or with `t_r` reading `sik_t_of_r`. */
  datatype Reading = AsWritten | Corrected

  /** The indicator column a kinase selector reads; unknown selectors and `""` read none. */
  function KinaseColumn(sel: string, m: Reading): Option<string>
  {
    if sel == "r_em" then Some("sik_r_of_em")
    else if sel == "r_t" then Some("sik_r_of_t")
    else if sel == "em_t" then Some("sik_em_of_t")
    else if sel == "em_r" then Some("sik_em_of_r")
    else if sel == "t_r" then (if m == AsWritten then Some("sik_r_of_r") else Some("sik_t_of_r"))
    else if sel == "t_em" then Some("sik_t_of_em")
    else None
  }

  /**
   * Rows with a non-blank indicator are kept; the `KeyError` of a missing
   * indicator column is caught and the result emptied.
   */
  function KinaseStages(sel: string, columns: seq<string>, m: Reading): seq<Stage>
  {
    match KinaseColumn(sel, m)
    case None => []
    case Some(col) => if col in columns then [Apply(NotBlank(col))] else [Apply(Nothing)]
  }

  function Memberships(c: Criteria, columns: seq<string>, m: Reading): seq<Stage>
  {
    CategoryStages(c) + AnyRoleStages(c.anyRole) + KinaseStages(c.kinase, columns, m)
  }

  function Tail(c: Criteria, columns: seq<string>, m: Reading): seq<Stage>
  {
    BandStages(c.tprs, "tprs") + Memberships(c, columns, m)
  }

  function AfterSigprob(c: Criteria, columns: seq<string>, m: Reading): seq<Stage>
  {
    PValStages(c.pval) + BandStages(c.prs, "prs") + Tail(c, columns, m)
  }

  /** The masks `filter` applies to a view with these columns, in order. */
  function Stages(c: Criteria, g: Group, umap: bool, columns: seq<string>, m: Reading): seq<Stage>
  {
    UmapStages(Box(c, g), umap) + [Apply(AtLeast("sigprob", c.sp))] + AfterSigprob(c, columns, m)
  }

  function FilteredWith(c: Criteria, g: Group, umap: bool, m: Reading): Result<Table>
  {
    var v :- View(c, g);
    Run(v, Stages(c, g, umap, v.columns, m))
  }

  /** `filter(group_id, should_filter_umap)`, with the kinase selectors as the source writes them. */
  function FilteredAsWritten(c: Criteria, g: Group, umap: bool): Result<Table>
  {
    FilteredWith(c, g, umap, AsWritten)
  }

  /** `filter(group_id, should_filter_umap)`, with `t_r` reading the `t`-of-`r` indicator. */
  function Filtered(c: Criteria, g: Group, umap: bool): Result<Table>
  {
    FilteredWith(c, g, umap, Corrected)
  }

  /** Both readings of the selector table agree on every selector but `t_r`. */
  lemma ReadingsAgreeExceptTr(c: Criteria, g: Group, umap: bool)
    requires c.kinase != "t_r"
    ensures FilteredAsWritten(c, g, umap) == Filtered(c, g, umap)
  {
    assert KinaseColumn(c.kinase, AsWritten) == KinaseColumn(c.kinase, Corrected);
    forall columns: seq<string> ensures Stages(c, g, umap, columns, AsWritten) == Stages(c, g, umap, columns, Corrected) {
      assert KinaseStages(c.kinase, columns, AsWritten) == KinaseStages(c.kinase, columns, Corrected);
    }
  }

  /**
   * `filter` succeeds exactly when the view does and no stage raises on the
   * view's columns, and then keeps the view's columns and exactly the view rows
   * that pass every mask, in order.
   */
  lemma FilteredCharacterised(c: Criteria, g: Group, umap: bool, m: Reading)
    ensures FilteredWith(c, g, umap, m).Ok? <==>
      View(c, g).Ok? && Runs(View(c, g).value.columns, Stages(c, g, umap, View(c, g).value.columns, m))
    ensures FilteredWith(c, g, umap, m).Ok? ==> var v := View(c, g).value;
      FilteredWith(c, g, umap, m).value == Table(v.columns, SelectAll(v.rows, Tests(Stages(c, g, umap, v.columns, m))))
  {
    if View(c, g).Ok? {
      var v := View(c, g).value;
      RunCharacterised(v, Stages(c, g, umap, v.columns, m));
    }
  }

  /** Filtering the result again with the same masks changes nothing. */
  lemma FilteredIdempotent(c: Criteria, g: Group, umap: bool, m: Reading)
    requires FilteredWith(c, g, umap, m).Ok?
    ensures var v := View(c, g).value; var st := Stages(c, g, umap, v.columns, m);
      Run(FilteredWith(c, g, umap, m).value, st) == FilteredWith(c, g, umap, m)
  {
    var v := View(c, g).value;
    RunIdempotent(v, Stages(c, g, umap, v.columns, m));
  }

  /**
   * Every row `filter` keeps is a row of the view that meets the sigprob
   * threshold and, when it is truthy, the p-value ceiling.
   */
  lemma FilteredThresholds(c: Criteria, g: Group, umap: bool, m: Reading, i: nat)
    requires FilteredWith(c, g, umap, m).Ok? && i < |FilteredWith(c, g, umap, m).value.rows|
    ensures var row := FilteredWith(c, g, umap, m).value.rows[i];
      row in View(c, g).value.rows
      && Lookup(row, "sigprob").Num? && Lookup(row, "sigprob").x >= c.sp
      && (c.pval.Some? && c.pval.value != 0.0 ==> Lookup(row, "p_value").Num? && Lookup(row, "p_value").x <= c.pval.value)
  {
    var v := View(c, g).value;
    var st := Stages(c, g, umap, v.columns, m);
    PassesStage(v, st, AtLeast("sigprob", c.sp), i);
    if c.pval.Some? && c.pval.value != 0.0 {
      PassesStage(v, st, AtMost("p_value", c.pval.value), i);
    }
  }

  /** Every row `filter` keeps lies outside each band given with two bounds. */
  lemma FilteredBands(c: Criteria, g: Group, umap: bool, m: Reading, i: nat)
    requires FilteredWith(c, g, umap, m).Ok? && i < |FilteredWith(c, g, umap, m).value.rows|
    ensures var row := FilteredWith(c, g, umap, m).value.rows[i];
      (|c.prs| >= 2 ==> Holds(Outside("prs", c.prs[0], c.prs[1]), row))
      && (|c.tprs| >= 2 ==> Holds(Outside("tprs", c.tprs[0], c.tprs[1]), row))
  {
    var v := View(c, g).value;
    var st := Stages(c, g, umap, v.columns, m);
    if |c.prs| >= 2 {
      PassesStage(v, st, Outside("prs", c.prs[0], c.prs[1]), i);
    }
    if |c.tprs| >= 2 {
      PassesStage(v, st, Outside("tprs", c.tprs[0], c.tprs[1]), i);
    }
  }

  /** A band of a single bound raises `IndexError` (or the `KeyError` of its missing column). */
  lemma ShortBandFails(c: Criteria, g: Group, umap: bool, m: Reading)
    requires |c.prs| == 1 || |c.tprs| == 1
    ensures FilteredWith(c, g, umap, m).Err?
  {
    if View(c, g).Ok? {
      var v := View(c, g).value;
      FailStageFails(v, Stages(c, g, umap, v.columns, m), IndexError);
    }
  }

  lemma CategoriesInStages(c: Criteria, g: Group, umap: bool, columns: seq<string>, m: Reading, s: Stage)
    requires s in CategoryStages(c)
    ensures s in Stages(c, g, umap, columns, m)
  {
    var t := Tail(c, columns, m);
    assert s in t;
    assert t <= AfterSigprob(c, columns, m)[|PValStages(c.pval) + BandStages(c.prs, "prs")|..];
  }

  lemma FilteredCategory(c: Criteria, g: Group, umap: bool, m: Reading, i: nat, col: string, vals: seq<Cell>)
    requires FilteredWith(c, g, umap, m).Ok? && i < |FilteredWith(c, g, umap, m).value.rows|
    requires Apply(OneOf(col, vals)) in CategoryStages(c)
    ensures Lookup(FilteredWith(c, g, umap, m).value.rows[i], col) in vals
  {
    var v := View(c, g).value;
    var st := Stages(c, g, umap, v.columns, m);
    CategoriesInStages(c, g, umap, v.columns, m, Apply(OneOf(col, vals)));
    PassesStage(v, st, OneOf(col, vals), i);
  }

  /** Every row `filter` keeps has each role and endpoint among the selected ones. */
  lemma FilteredCategories(c: Criteria, g: Group, umap: bool, m: Reading, i: nat)
    requires FilteredWith(c, g, umap, m).Ok? && i < |FilteredWith(c, g, umap, m).value.rows|
    ensures var row := FilteredWith(c, g, umap, m).value.rows[i];
      Lookup(row, "ligand") in c.ligands && Lookup(row, "receptor") in c.receptors
      && Lookup(row, "em") in c.em && Lookup(row, "target") in c.targets
      && Lookup(row, "sender") in c.senders && Lookup(row, "receiver") in c.receivers
  {
    FilteredCategory(c, g, umap, m, i, "ligand", c.ligands);
    FilteredCategory(c, g, umap, m, i, "receptor", c.receptors);
    FilteredCategory(c, g, umap, m, i, "em", c.em);
    FilteredCategory(c, g, umap, m, i, "target", c.targets);
    FilteredCategory(c, g, umap, m, i, "sender", c.senders);
    FilteredCategory(c, g, umap, m, i, "receiver", c.receivers);
  }

  /** With molecules selected for any role, every kept row has one of them in some role. */
  lemma FilteredAnyRole(c: Criteria, g: Group, umap: bool, m: Reading, i: nat)
    requires FilteredWith(c, g, umap, m).Ok? && i < |FilteredWith(c, g, umap, m).value.rows|
    requires |c.anyRole| > 0
    ensures var row := FilteredWith(c, g, umap, m).value.rows[i];
      exists k :: 0 <= k < 4 && Lookup(row, PathwayLoading.RoleColumns[k]) in c.anyRole
  {
    var v := View(c, g).value;
    PassesStage(v, Stages(c, g, umap, v.columns, m), AnyOneOf(PathwayLoading.RoleColumns, c.anyRole), i);
  }

  /**
   * With UMAP filtering asked for and a truthy lower bound on an axis, every kept
   * row lies in the closed interval of that axis.
   */
  lemma FilteredUmap(c: Criteria, g: Group, m: Reading, i: nat)
    requires FilteredWith(c, g, true, m).Ok? && i < |FilteredWith(c, g, true, m).value.rows|
    ensures var box := Box(c, g); var row := FilteredWith(c, g, true, m).value.rows[i];
      (Truthy(box, "xaxis.range[0]") ==>
        "xaxis.range[1]" in box && Holds(Between("umap1", box["xaxis.range[0]"], box["xaxis.range[1]"]), row))
      && (Truthy(box, "yaxis.range[0]") ==>
        "yaxis.range[1]" in box && Holds(Between("umap2", box["yaxis.range[0]"], box["yaxis.range[1]"]), row))
  {
    var v := View(c, g).value;
    var st := Stages(c, g, true, v.columns, m);
    var box := Box(c, g);
    if Truthy(box, "xaxis.range[0]") {
      if "xaxis.range[1]" in box {
        PassesStage(v, st, Between("umap1", box["xaxis.range[0]"], box["xaxis.range[1]"]), i);
      } else {
        FailStageFails(v, st, KeyError("xaxis.range[1]"));
        assert false;
      }
    }
    if Truthy(box, "yaxis.range[0]") {
      if "yaxis.range[1]" in box {
        PassesStage(v, st, Between("umap2", box["yaxis.range[0]"], box["yaxis.range[1]"]), i);
      } else {
        FailStageFails(v, st, KeyError("yaxis.range[1]"));
        assert false;
      }
    }
  }

  /** A truthy lower bound without its upper bound raises `KeyError`. */
  lemma UmapMissingUpperFails(c: Criteria, g: Group, m: Reading)
    requires (Truthy(Box(c, g), "xaxis.range[0]") && "xaxis.range[1]" !in Box(c, g))
      || (Truthy(Box(c, g), "yaxis.range[0]") && "yaxis.range[1]" !in Box(c, g))
    ensures FilteredWith(c, g, true, m).Err?
  {
    if View(c, g).Ok? {
      var v := View(c, g).value;
      var st := Stages(c, g, true, v.columns, m);
      if Truthy(Box(c, g), "xaxis.range[0]") && "xaxis.range[1]" !in Box(c, g) {
        FailStageFails(v, st, KeyError("xaxis.range[1]"));
      } else {
        FailStageFails(v, st, KeyError("yaxis.range[1]"));
      }
    }
  }

  /** Without UMAP filtering the boxes play no part. */
  lemma UmapIgnoredUnlessAsked(c: Criteria, g: Group, m: Reading, boxA: map<string, real>, boxB: map<string, real>)
    ensures FilteredWith(c.(umapA := boxA, umapB := boxB), g, false, m) == FilteredWith(c, g, false, m)
  {
    var d := c.(umapA := boxA, umapB := boxB);
    assert View(d, g) == View(c, g);
    if View(c, g).Ok? {
      var cols := View(c, g).value.columns;
      assert Stages(d, g, false, cols, m) == Stages(c, g, false, cols, m);
    }
  }

  /** A p-value ceiling that is `None` or zero keeps every row. */
  lemma FalsyCeilingIgnored(c: Criteria, g: Group, umap: bool, m: Reading)
    requires c.pval.None? || c.pval.value == 0.0
    ensures FilteredWith(c, g, umap, m) == FilteredWith(c.(pval := None), g, umap, m)
  {
    var d := c.(pval := None);
    assert View(d, g) == View(c, g);
    if View(c, g).Ok? {
      var cols := View(c, g).value.columns;
      assert Stages(d, g, umap, cols, m) == Stages(c, g, umap, cols, m);
    }
  }

  /** A selector with no indicator column, `""` among them, filters nothing. */
  lemma UnknownSelectorIgnored(c: Criteria, g: Group, umap: bool, m: Reading)
    requires KinaseColumn(c.kinase, m).None?
    ensures FilteredWith(c, g, umap, m) == FilteredWith(c.(kinase := ""), g, umap, m)
  {
    var d := c.(kinase := "");
    assert View(d, g) == View(c, g);
    if View(c, g).Ok? {
      var cols := View(c, g).value.columns;
      assert Stages(d, g, umap, cols, m) == Stages(c, g, umap, cols, m);
    }
  }

  lemma KinaseInStages(c: Criteria, g: Group, umap: bool, columns: seq<string>, m: Reading, s: Stage)
    requires s in KinaseStages(c.kinase, columns, m)
    ensures s in Stages(c, g, umap, columns, m)
  {
    var t := Tail(c, columns, m);
    assert s in t;
    assert t <= AfterSigprob(c, columns, m)[|PValStages(c.pval) + BandStages(c.prs, "prs")|..];
  }

  /** A kinase selector keeps only the rows whose indicator is not `""`. */
  lemma FilteredKinase(c: Criteria, g: Group, umap: bool, m: Reading, i: nat)
    requires FilteredWith(c, g, umap, m).Ok? && i < |FilteredWith(c, g, umap, m).value.rows|
    requires KinaseColumn(c.kinase, m).Some?
    ensures KinaseColumn(c.kinase, m).value in View(c, g).value.columns
    ensures Lookup(FilteredWith(c, g, umap, m).value.rows[i], KinaseColumn(c.kinase, m).value) != Str("")
  {
    var v := View(c, g).value;
    var st := Stages(c, g, umap, v.columns, m);
    var col := KinaseColumn(c.kinase, m).value;
    if col in v.columns {
      KinaseInStages(c, g, umap, v.columns, m, Apply(NotBlank(col)));
      PassesStage(v, st, NotBlank(col), i);
    } else {
      KinaseInStages(c, g, umap, v.columns, m, Apply(Nothing));
      PassesStage(v, st, Nothing, i);
      assert false;
    }
  }

  /** When the view lacks the selector's indicator column, nothing is kept (fail-closed). */
  lemma MissingKinaseColumnEmpties(c: Criteria, g: Group, umap: bool, m: Reading)
    requires FilteredWith(c, g, umap, m).Ok? && KinaseColumn(c.kinase, m).Some?
    requires KinaseColumn(c.kinase, m).value !in View(c, g).value.columns
    ensures FilteredWith(c, g, umap, m).value.rows == []
  {
    var v := View(c, g).value;
    var st := Stages(c, g, umap, v.columns, m);
    var out := FilteredWith(c, g, umap, m).value;
    KinaseInStages(c, g, umap, v.columns, m, Apply(Nothing));
    if |out.rows| > 0 {
      PassesStage(v, st, Nothing, 0);
      assert false;
    }
  }

  /** One result keeps a subset of the rows of another, and no more of them. */
  predicate Narrower(strong: Result<Table>, weak: Result<Table>)
  {
    (strong.Ok? <==> weak.Ok?)
    && (strong.Ok? ==>
          |strong.value.rows| <= |weak.value.rows| && forall i :: 0 <= i < |strong.value.rows| ==> strong.value.rows[i] in weak.value.rows)
  }

  /** Raising the sigprob threshold never adds rows. */
  lemma SigprobMonotone(c: Criteria, g: Group, umap: bool, m: Reading, higher: real)
    requires c.sp <= higher
    ensures Narrower(FilteredWith(c.(sp := higher), g, umap, m), FilteredWith(c, g, umap, m))
  {
    var d := c.(sp := higher);
    assert View(d, g) == View(c, g);
    if View(c, g).Ok? {
      var v := View(c, g).value;
      var pre := UmapStages(Box(c, g), umap);
      var post := AfterSigprob(c, v.columns, m);
      assert AfterSigprob(d, v.columns, m) == post;
      RunReplace(v, pre, AtLeast("sigprob", higher), AtLeast("sigprob", c.sp), post);
    }
  }

  /** Widening the excluded `prs` band (a lower bound no higher, an upper bound no lower) never adds rows. */
  lemma PrsBandMonotone(c: Criteria, g: Group, umap: bool, m: Reading, wide: seq<real>)
    requires |c.prs| >= 2 && |wide| >= 2 && wide[0] <= c.prs[0] && c.prs[1] <= wide[1]
    ensures Narrower(FilteredWith(c.(prs := wide), g, umap, m), FilteredWith(c, g, umap, m))
  {
    var d := c.(prs := wide);
    assert View(d, g) == View(c, g);
    if View(c, g).Ok? {
      var v := View(c, g).value;
      StagesAroundPrs(c, g, umap, v.columns, m);
      StagesAroundPrs(d, g, umap, v.columns, m);
      assert BeforePrs(d, g, umap) == BeforePrs(c, g, umap);
      assert Tail(d, v.columns, m) == Tail(c, v.columns, m);
      RunReplace(v, BeforePrs(c, g, umap), Outside("prs", wide[0], wide[1]), Outside("prs", c.prs[0], c.prs[1]),
        Tail(c, v.columns, m));
    }
  }

  /** The stages before the `prs` band. */
  function BeforePrs(c: Criteria, g: Group, umap: bool): seq<Stage>
  {
    UmapStages(Box(c, g), umap) + [Apply(AtLeast("sigprob", c.sp))] + PValStages(c.pval)
  }

  lemma StagesAroundPrs(c: Criteria, g: Group, umap: bool, columns: seq<string>, m: Reading)
    requires |c.prs| >= 2
    ensures Stages(c, g, umap, columns, m)
      == BeforePrs(c, g, umap) + [Apply(Outside("prs", c.prs[0], c.prs[1]))] + Tail(c, columns, m)
  {
  }

  /** The stages before the `tprs` band. */
  function BeforeTprs(c: Criteria, g: Group, umap: bool): seq<Stage>
  {
    UmapStages(Box(c, g), umap) + [Apply(AtLeast("sigprob", c.sp))] + PValStages(c.pval) + BandStages(c.prs, "prs")
  }

  lemma StagesAroundTprs(c: Criteria, g: Group, umap: bool, columns: seq<string>, m: Reading)
    requires |c.tprs| >= 2
    ensures Stages(c, g, umap, columns, m)
      == BeforeTprs(c, g, umap) + [Apply(Outside("tprs", c.tprs[0], c.tprs[1]))] + Memberships(c, columns, m)
  {
  }

  /** Widening the excluded `tprs` band never adds rows. */
  lemma TprsBandMonotone(c: Criteria, g: Group, umap: bool, m: Reading, wide: seq<real>)
    requires |c.tprs| >= 2 && |wide| >= 2 && wide[0] <= c.tprs[0] && c.tprs[1] <= wide[1]
    ensures Narrower(FilteredWith(c.(tprs := wide), g, umap, m), FilteredWith(c, g, umap, m))
  {
    var d := c.(tprs := wide);
    assert View(d, g) == View(c, g);
    if View(c, g).Ok? {
      var v := View(c, g).value;
      StagesAroundTprs(c, g, umap, v.columns, m);
      StagesAroundTprs(d, g, umap, v.columns, m);
      assert BeforeTprs(d, g, umap) == BeforeTprs(c, g, umap);
      assert Memberships(d, v.columns, m) == Memberships(c, v.columns, m);
      RunReplace(v, BeforeTprs(c, g, umap), Outside("tprs", wide[0], wide[1]), Outside("tprs", c.tprs[0], c.tprs[1]),
        Memberships(c, v.columns, m));
    }
  }

  /**
   * After `__post_init__`, a selection that was empty passes every row of either
   * view: it holds every value the table has in that column.
   */
  lemma ObservedValuesPass(c: Criteria, g: Group, col: string, j: nat)
    requires View(c, g).Ok? && j < |View(c, g).value.rows|
    requires col in c.allPaths.columns && '_' !in col && Unprefixed(col)
    ensures Holds(OneOf(col, Unique(c.allPaths.rows, col)), View(c, g).value.rows[j])
  {
    var i := ViewRow(c, g, j, col);
    assert Column(c.allPaths.rows, col)[i] == Lookup(c.allPaths.rows[i], col);
  }

  lemma CategoryNamesUnprefixed()
    ensures Unprefixed("ligand") && Unprefixed("receptor") && Unprefixed("em") && Unprefixed("target")
    ensures Unprefixed("sender") && Unprefixed("receiver")
  {
    assert "ligand"[0] != 's' && "ligand"[0] != 'p';
    assert "receptor"[0] != 's' && "receptor"[0] != 'p';
    assert "em"[0] != 's' && "em"[0] != 'p';
    assert "target"[0] != 's' && "target"[0] != 'p';
    assert "sender"[1] != "sigprob"[1] && "sender"[1] != "siks_score"[1] && "sender"[0] != 'p';
    assert "receiver"[0] != 's' && "receiver"[0] != 'p';
  }

  lemma CategoryNamesPlain()
    ensures '_' !in "ligand" && '_' !in "receptor" && '_' !in "em" && '_' !in "target"
    ensures '_' !in "sender" && '_' !in "receiver"
  {
  }

  /**
   * After `__post_init__`, each categorical selection that was given empty passes
   * every row of either view, so it filters nothing.
   */
  lemma DefaultedSelectionsPass(c: Criteria, g: Group, j: nat)
    requires Initialized(c).Ok?
    requires View(Initialized(c).value, g).Ok? && j < |View(Initialized(c).value, g).value.rows|
    ensures var d := Initialized(c).value; var row := View(d, g).value.rows[j];
      (|c.ligands| == 0 ==> Lookup(row, "ligand") in d.ligands)
      && (|c.receptors| == 0 ==> Lookup(row, "receptor") in d.receptors)
      && (|c.em| == 0 ==> Lookup(row, "em") in d.em)
      && (|c.targets| == 0 ==> Lookup(row, "target") in d.targets)
      && (|c.senders| == 0 ==> Lookup(row, "sender") in d.senders)
      && (|c.receivers| == 0 ==> Lookup(row, "receiver") in d.receivers)
  {
    InitializedSelections(c);
    InitializedFails(c);
    CategoryNamesUnprefixed();
    CategoryNamesPlain();
    var d := Initialized(c).value;
    DefaultPasses(d, g, j, "ligand", c.ligands, d.ligands);
    DefaultPasses(d, g, j, "receptor", c.receptors, d.receptors);
    DefaultPasses(d, g, j, "em", c.em, d.em);
    DefaultPasses(d, g, j, "target", c.targets, d.targets);
    DefaultPasses(d, g, j, "sender", c.senders, d.senders);
    DefaultPasses(d, g, j, "receiver", c.receivers, d.receivers);
  }

  lemma DefaultPasses(d: Criteria, g: Group, j: nat, col: string, given: seq<Cell>, now: seq<Cell>)
    requires View(d, g).Ok? && j < |View(d, g).value.rows|
    requires DefaultedTo(given, now, d.allPaths, col) && '_' !in col && Unprefixed(col)
    requires |given| == 0 ==> col in d.allPaths.columns
    ensures |given| == 0 ==> Lookup(View(d, g).value.rows[j], col) in now
  {
    if |given| == 0 {
      ObservedValuesPass(d, g, col, j);
    }
  }

  // ---- the `t_r` kinase selector ----

  lemma SikRofRNotWanted(a: string, b: string)
    ensures "sik_r_of_r" !in Headers.Required(a, b) + Headers.OptionalSik(a, b) + PathwayLoading.RoleColumns
  {
    assert ("sigprob_" + a)[2] == 'g' && ("sigprob_" + b)[2] == 'g';
    assert ("p_value_" + a)[0] == 'p' && ("p_value_" + b)[0] == 'p';
    assert "sik_r_of_r"[4] == 'r' && "sik_r_of_em"[4] == 'r' && "sik_r_of_r"[9] == 'r';
  }

  /** `get_pathways` never loads a `sik_r_of_r` column, whatever the file holds. */
  lemma SikRofRNeverLoaded(raw: Table, a: string, b: string)
    requires PathwayLoading.LoadedSik(raw, a, b).Ok?
    ensures "sik_r_of_r" !in PathwayLoading.LoadedSik(raw, a, b).value.paths.columns
  {
    var keep := Headers.HeaderSelection(raw.columns, Headers.Required(a, b), Headers.OptionalSik(a, b)).value;
    Headers.SelectedAreWanted(raw.columns, Headers.Required(a, b), Headers.OptionalSik(a, b));
    SikRofRNotWanted(a, b);
    var formatted := Headers.FormatHeaders(keep);
    var cols := AddColumns(formatted, PathwayLoading.RoleColumns);
    assert PathwayLoading.LoadedSik(raw, a, b).value.paths.columns == cols;
    forall k | 0 <= k < |cols| ensures cols[k] != "sik_r_of_r" {
      assert cols[k] in formatted || cols[k] in PathwayLoading.RoleColumns;
    }
  }

  /** No view has a `sik_r_of_r` column unless the table has one. */
  lemma SikRofRNotInView(c: Criteria, g: Group)
    requires View(c, g).Ok? && "sik_r_of_r" !in c.allPaths.columns
    ensures "sik_r_of_r" !in View(c, g).value.columns
  {
    var src := ViewColumns(c, g);
    assert Unprefixed("sik_r_of_r") by {
      assert "sik_r_of_r"[2] != "sigprob"[2] && "sik_r_of_r"[3] != "siks_score"[3] && "sik_r_of_r"[0] != 'p';
    }
    forall i | 0 <= i < |src| ensures ViewName(src[i], Own(c, g)) != "sik_r_of_r" {
      RenamedClashes(src[i], Own(c, g));
    }
  }

  /**
   * As written, selector `t_r` reads `sik_r_of_r`, which no loaded table has, so
   * a successful filter with that selector keeps no row at all.
   */
  lemma TrAsWrittenAlwaysEmpty(c: Criteria, g: Group, umap: bool)
    requires c.kinase == "t_r" && "sik_r_of_r" !in c.allPaths.columns
    requires FilteredAsWritten(c, g, umap).Ok?
    ensures FilteredAsWritten(c, g, umap).value.rows == []
  {
    SikRofRNotInView(c, g);
    MissingKinaseColumnEmpties(c, g, umap, AsWritten);
  }

  /**
   * Read with `t_r` naming the `t`-of-`r` indicator, every selector names one of
   * the loaded optional columns, and `t_r` keeps exactly the rows whose indicator
   * is not `""`.
   */
  lemma SelectorsReadLoadedColumns(sel: string, a: string, b: string)
    requires KinaseColumn(sel, Corrected).Some?
    ensures KinaseColumn(sel, Corrected).value in Headers.OptionalSik(a, b)
    ensures sel == "t_r" ==> KinaseColumn(sel, AsWritten).value !in Headers.OptionalSik(a, b)
  {
    SikRofRNotWanted(a, b);
  }

  // ---- the object ----

  /** A `PathwaysFilter` whose fields `__post_init__` overwrites in place. */
  class PathwaysFilter {
    var allPaths: Table
    var groupA: string
    var groupB: string
    var afcDirection: bool
    var sp: real
    var pval: Option<real>
    var prs: seq<real>
    var tprs: seq<real>
    var kinase: string
    var senders: seq<Cell>
    var receivers: seq<Cell>
    var ligands: seq<Cell>
    var receptors: seq<Cell>
    var em: seq<Cell>
    var targets: seq<Cell>
    var anyRole: seq<Cell>
    var umapA: map<string, real>
    var umapB: map<string, real>
    var aSuffix: string
    var bSuffix: string

    /** The generated dataclass constructor: the fields as given. */
    constructor (c: Criteria)
      ensures Value() == c
    {
      allPaths, groupA, groupB, afcDirection := c.allPaths, c.groupA, c.groupB, c.afcDirection;
      sp, pval, prs, tprs, kinase := c.sp, c.pval, c.prs, c.tprs, c.kinase;
      senders, receivers, ligands, receptors := c.senders, c.receivers, c.ligands, c.receptors;
      em, targets, anyRole, umapA, umapB := c.em, c.targets, c.anyRole, c.umapA, c.umapB;
      aSuffix, bSuffix := "", "";
    }

    function Value(): Criteria
      reads this
    {
      Criteria(allPaths, groupA, groupB, afcDirection, sp, pval, prs, tprs, kinase,
        senders, receivers, ligands, receptors, em, targets, anyRole, umapA, umapB)
    }

    /** The suffixes name the groups. */
    predicate Valid()
      reads this
    {
      aSuffix == "_" + groupA && bSuffix == "_" + groupB
    }

    /**
     * `__post_init__`: sets the suffixes, then replaces each empty selection by the
     * values observed in its column, raising `KeyError` for a missing column.
     */
    method PostInit() returns (err: Option<Error>)
      modifies this
      ensures Valid()
      ensures err.None? <==> Initialized(old(Value())).Ok?
      ensures err.Some? ==> err.value == Initialized(old(Value())).error
      ensures err.None? ==> Value() == Initialized(old(Value())).value
    {
      var init := Initialized(Value());
      aSuffix := "_" + groupA;
      bSuffix := "_" + groupB;
      if init.Err? {
        return Some(init.error);
      }
      var d := init.value;
      SetSenders(d.senders);
      SetReceivers(d.receivers);
      SetLigands(d.ligands);
      SetReceptors(d.receptors);
      SetEm(d.em);
      SetTargets(d.targets);
      err := None;
    }

    method SetSenders(v: seq<Cell>)
      modifies this
      ensures Value() == old(Value()).(senders := v)
      ensures aSuffix == old(aSuffix) && bSuffix == old(bSuffix)
    {
      senders := v;
    }

    method SetReceivers(v: seq<Cell>)
      modifies this
      ensures Value() == old(Value()).(receivers := v)
      ensures aSuffix == old(aSuffix) && bSuffix == old(bSuffix)
    {
      receivers := v;
    }

    method SetLigands(v: seq<Cell>)
      modifies this
      ensures Value() == old(Value()).(ligands := v)
      ensures aSuffix == old(aSuffix) && bSuffix == old(bSuffix)
    {
      ligands := v;
    }

    method SetReceptors(v: seq<Cell>)
      modifies this
      ensures Value() == old(Value()).(receptors := v)
      ensures aSuffix == old(aSuffix) && bSuffix == old(bSuffix)
    {
      receptors := v;
    }

    method SetEm(v: seq<Cell>)
      modifies this
      ensures Value() == old(Value()).(em := v)
      ensures aSuffix == old(aSuffix) && bSuffix == old(bSuffix)
    {
      em := v;
    }

    method SetTargets(v: seq<Cell>)
      modifies this
      ensures Value() == old(Value()).(targets := v)
      ensures aSuffix == old(aSuffix) && bSuffix == old(bSuffix)
    {
      targets := v;
    }

    /** `a_data`. */
    function AData(): Result<Table>
      reads this
    {
      View(Value(), A)
    }

    /** `b_data`. */
    function BData(): Result<Table>
      reads this
    {
      View(Value(), B)
    }

    /**
     * `filter(group_id, should_filter_umap)` as written: it agrees with the
     * corrected reading for every selector but `t_r`, which empties the result of
     * any table without a `sik_r_of_r` column.
     */
    function Filter(g: Group, umap: bool): (r: Result<Table>)
      reads this
      ensures Value().kinase != "t_r" ==> r == Filtered(Value(), g, umap)
      ensures Value().kinase == "t_r" && "sik_r_of_r" !in Value().allPaths.columns && r.Ok? ==> r.value.rows == []
    {
      var r := FilteredAsWritten(Value(), g, umap);
      if Value().kinase != "t_r" then
        ReadingsAgreeExceptTr(Value(), g, umap);
        r
      else if "sik_r_of_r" !in Value().allPaths.columns && r.Ok? then
        TrAsWrittenAlwaysEmpty(Value(), g, umap);
        r
      else r
    }
  }

  /** Constructing a `PathwaysFilter`: the constructor followed by `__post_init__`. */
  method NewPathwaysFilter(c: Criteria) returns (r: Result<PathwaysFilter>)
    ensures r.Ok? <==> Initialized(c).Ok?
    ensures r.Err? ==> r.error == Initialized(c).error
    ensures r.Ok? ==> fresh(r.value) && r.value.Valid() && r.value.Value() == Initialized(c).value
  {
    var f := new PathwaysFilter(c);
    var err := f.PostInit();
    if err.Some? {
      return Err(err.value);
    }
    return Ok(f);
  }
}
