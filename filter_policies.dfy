/**
 * The older pathway filters, each with its own policy:
 *  - `filter_pathways` of the root `callbacks.py` and of `data.py`: an inclusive
 *    band on `final_score` and `rna_score`, a sigweight threshold, a truthy-only
 *    p-value ceiling, categorical selections that default to every observed
 *    value, and an any-role test (`callbacks.py` adds a UMAP box);
 *  - `filter_pathways_df` of `sankey.py`: an up/down direction that keeps a zero
 *    score either way, and a threshold on `|final_score|`;
 *  - the filtering at the head of `load_edges` in `clusters.py` and
 *    `clusters_graph.py`: the same with strict inequalities.
 */
module FilterPolicies {
  import opened Wrappers
  import opened Frames
  import opened Chains
  import Text
  import PathwayLoading
  import LegacyLoading
  import PathwaysFiltering

  // ---- the inclusive-band policy (callbacks.py, data.py) ----

  /** The arguments of `filter_pathways`; a `None` p-value ceiling is `None`. */
  datatype Request = Request(
    sw: real, pval: Option<real>, fs: seq<real>, rnas: seq<real>,
    senders: seq<Cell>, receivers: seq<Cell>, ligands: seq<Cell>, receptors: seq<Cell>,
    em: seq<Cell>, targets: seq<Cell>, anyRole: seq<Cell>)

  /** The six `if not selection: selection = all_pathways[col].unique()` statements, in order. */
  function Defaults(q: Request, t: Table): Result<Request>
  {
    var s :- PathwaysFiltering.Defaulted(q.senders, t, "sender");
    var r :- PathwaysFiltering.Defaulted(q.receivers, t, "receiver");
    var l :- PathwaysFiltering.Defaulted(q.ligands, t, "ligand");
    var rc :- PathwaysFiltering.Defaulted(q.receptors, t, "receptor");
    var e :- PathwaysFiltering.Defaulted(q.em, t, "em");
    var tg :- PathwaysFiltering.Defaulted(q.targets, t, "target");
    Ok(q.(senders := s, receivers := r, ligands := l, receptors := rc, em := e, targets := tg))
  }

  /** The request with the categorical selections put back as given. */
  function AsGiven(d: Request, q: Request): Request
  {
    d.(senders := q.senders, receivers := q.receivers, ligands := q.ligands,
       receptors := q.receptors, em := q.em, targets := q.targets)
  }

  /**
   * The defaults raise `KeyError` exactly when a selection is empty and the table
   * lacks its column; otherwise each empty selection becomes the observed values
   * and the rest of the request is unchanged.
   */
  lemma DefaultsCharacterised(q: Request, t: Table)
    ensures Defaults(q, t).Err? <==>
      (|q.senders| == 0 && "sender" !in t.columns)
      || (|q.receivers| == 0 && "receiver" !in t.columns)
      || (|q.ligands| == 0 && "ligand" !in t.columns)
      || (|q.receptors| == 0 && "receptor" !in t.columns)
      || (|q.em| == 0 && "em" !in t.columns)
      || (|q.targets| == 0 && "target" !in t.columns)
    ensures Defaults(q, t).Ok? ==> var d := Defaults(q, t).value;
      PathwaysFiltering.DefaultedTo(q.senders, d.senders, t, "sender")
      && PathwaysFiltering.DefaultedTo(q.receivers, d.receivers, t, "receiver")
      && PathwaysFiltering.DefaultedTo(q.ligands, d.ligands, t, "ligand")
      && PathwaysFiltering.DefaultedTo(q.receptors, d.receptors, t, "receptor")
      && PathwaysFiltering.DefaultedTo(q.em, d.em, t, "em")
      && PathwaysFiltering.DefaultedTo(q.targets, d.targets, t, "target")
      && AsGiven(d, q) == q
  {
  }

  /** Changing a score argument changes nothing the defaults compute. */
  lemma DefaultsIgnoreScores(q: Request, t: Table, q2: Request)
    requires AsGiven(q2, q) == q2 && q2.anyRole == q.anyRole
    requires q2.senders == q.senders && q2.receivers == q.receivers && q2.ligands == q.ligands
    requires q2.receptors == q.receptors && q2.em == q.em && q2.targets == q.targets
    ensures Defaults(q2, t).Ok? <==> Defaults(q, t).Ok?
    ensures Defaults(q, t).Ok? ==>
      Defaults(q2, t).value == Defaults(q, t).value.(sw := q2.sw, pval := q2.pval, fs := q2.fs, rnas := q2.rnas)
  {
  }

  /** Each cell of a column is among that column's distinct values. */
  lemma ObservedIn(t: Table, col: string, j: nat)
    requires j < |t.rows|
    ensures Lookup(t.rows[j], col) in Unique(t.rows, col)
  {
    assert Column(t.rows, col)[j] == Lookup(t.rows[j], col);
  }

  /** A defaulted selection holds the value of every row of the table. */
  lemma DefaultPassesRow(t: Table, col: string, given: seq<Cell>, now: seq<Cell>, j: nat)
    requires PathwaysFiltering.DefaultedTo(given, now, t, col) && j < |t.rows|
    ensures |given| == 0 ==> Lookup(t.rows[j], col) in now
  {
    if |given| == 0 {
      ObservedIn(t, col, j);
    }
  }

  /** Every categorical selection given empty lets every row of the table through. */
  lemma DefaultsPassAll(q: Request, t: Table, j: nat)
    requires Defaults(q, t).Ok? && j < |t.rows|
    ensures var d := Defaults(q, t).value; var row := t.rows[j];
      (|q.ligands| == 0 ==> Lookup(row, "ligand") in d.ligands)
      && (|q.receptors| == 0 ==> Lookup(row, "receptor") in d.receptors)
      && (|q.em| == 0 ==> Lookup(row, "em") in d.em)
      && (|q.targets| == 0 ==> Lookup(row, "target") in d.targets)
      && (|q.senders| == 0 ==> Lookup(row, "sender") in d.senders)
      && (|q.receivers| == 0 ==> Lookup(row, "receiver") in d.receivers)
  {
    DefaultsCharacterised(q, t);
    var d := Defaults(q, t).value;
    DefaultPassesRow(t, "ligand", q.ligands, d.ligands, j);
    DefaultPassesRow(t, "receptor", q.receptors, d.receptors, j);
    DefaultPassesRow(t, "em", q.em, d.em, j);
    DefaultPassesRow(t, "target", q.targets, d.targets, j);
    DefaultPassesRow(t, "sender", q.senders, d.senders, j);
    DefaultPassesRow(t, "receiver", q.receivers, d.receivers, j);
  }

  /** `if pval_threshold: df = df[df[col] <= pval_threshold]`. */
  function CeilingStages(pval: Option<real>, col: string): seq<Stage>
  {
    if pval.Some? && pval.value != 0.0 then [Apply(AtMost(col, pval.value))] else []
  }

  /**
   * `if bounds: df = df[(df[col] >= bounds[0]) & (df[col] <= bounds[1])]`; a list
   * of one bound raises `IndexError` once the column has been read.
   */
  function InclusiveBand(bounds: seq<real>, col: string): seq<Stage>
  {
    if |bounds| == 0 then []
    else if |bounds| == 1 then [Apply(AtLeast(col, bounds[0])), Fail(IndexError)]
    else [Apply(Between(col, bounds[0], bounds[1]))]
  }

  /** The threshold, the ceiling and the two bands, in order. */
  function Scores(q: Request, sw: string, pv: string): seq<Stage>
  {
    [Apply(AtLeast(sw, q.sw))] + CeilingStages(q.pval, pv)
      + InclusiveBand(q.fs, "final_score") + InclusiveBand(q.rnas, "rna_score")
  }

  /** The six membership tests in the order the combined mask reads them, then the any-role test. */
  function Picks(q: Request): seq<Stage>
  {
    [Apply(OneOf("ligand", q.ligands)), Apply(OneOf("receptor", q.receptors)),
     Apply(OneOf("em", q.em)), Apply(OneOf("target", q.targets)),
     Apply(OneOf("sender", q.senders)), Apply(OneOf("receiver", q.receivers))]
      + PathwaysFiltering.AnyRoleStages(q.anyRole)
  }

  function InclusiveStages(q: Request, sw: string, pv: string): seq<Stage>
  {
    Scores(q, sw, pv) + Picks(q)
  }

  /**
   * Every row kept by a chain ending in the inclusive-band stages meets the
   * threshold, the truthy ceiling and each band given with two bounds, inclusively.
   */
  lemma InclusiveScoresKept(t: Table, pre: seq<Stage>, q: Request, sw: string, pv: string, i: nat)
    requires Run(t, pre + InclusiveStages(q, sw, pv)).Ok? && i < |Run(t, pre + InclusiveStages(q, sw, pv)).value.rows|
    ensures var row := Run(t, pre + InclusiveStages(q, sw, pv)).value.rows[i];
      row in t.rows
      && Lookup(row, sw).Num? && Lookup(row, sw).x >= q.sw
      && (q.pval.Some? && q.pval.value != 0.0 ==> Lookup(row, pv).Num? && Lookup(row, pv).x <= q.pval.value)
      && (|q.fs| >= 2 ==> Lookup(row, "final_score").Num? && q.fs[0] <= Lookup(row, "final_score").x <= q.fs[1])
      && (|q.rnas| >= 2 ==> Lookup(row, "rna_score").Num? && q.rnas[0] <= Lookup(row, "rna_score").x <= q.rnas[1])
  {
    var st := pre + InclusiveStages(q, sw, pv);
    assert Scores(q, sw, pv) <= st[|pre|..];
    PassesStage(t, st, AtLeast(sw, q.sw), i);
    if q.pval.Some? && q.pval.value != 0.0 {
      PassesStage(t, st, AtMost(pv, q.pval.value), i);
    }
    if |q.fs| >= 2 {
      PassesStage(t, st, Between("final_score", q.fs[0], q.fs[1]), i);
    }
    if |q.rnas| >= 2 {
      PassesStage(t, st, Between("rna_score", q.rnas[0], q.rnas[1]), i);
    }
  }

  lemma PickKept(t: Table, pre: seq<Stage>, q: Request, sw: string, pv: string, i: nat, test: Test)
    requires Run(t, pre + InclusiveStages(q, sw, pv)).Ok? && i < |Run(t, pre + InclusiveStages(q, sw, pv)).value.rows|
    requires Apply(test) in Picks(q)
    ensures Holds(test, Run(t, pre + InclusiveStages(q, sw, pv)).value.rows[i])
  {
    var st := pre + InclusiveStages(q, sw, pv);
    assert Picks(q) <= st[|pre| + |Scores(q, sw, pv)|..];
    PassesStage(t, st, test, i);
  }

  /**
   * Every row kept by a chain ending in the inclusive-band stages has each role
   * and endpoint among the selected ones and, when molecules are selected for
   * any role, one of them in some role.
   */
  lemma InclusivePicksKept(t: Table, pre: seq<Stage>, q: Request, sw: string, pv: string, i: nat)
    requires Run(t, pre + InclusiveStages(q, sw, pv)).Ok? && i < |Run(t, pre + InclusiveStages(q, sw, pv)).value.rows|
    ensures var row := Run(t, pre + InclusiveStages(q, sw, pv)).value.rows[i];
      Lookup(row, "ligand") in q.ligands && Lookup(row, "receptor") in q.receptors
      && Lookup(row, "em") in q.em && Lookup(row, "target") in q.targets
      && Lookup(row, "sender") in q.senders && Lookup(row, "receiver") in q.receivers
      && (|q.anyRole| > 0 ==> exists k :: 0 <= k < 4 && Lookup(row, PathwayLoading.RoleColumns[k]) in q.anyRole)
  {
    PickKept(t, pre, q, sw, pv, i, OneOf("ligand", q.ligands));
    PickKept(t, pre, q, sw, pv, i, OneOf("receptor", q.receptors));
    PickKept(t, pre, q, sw, pv, i, OneOf("em", q.em));
    PickKept(t, pre, q, sw, pv, i, OneOf("target", q.targets));
    PickKept(t, pre, q, sw, pv, i, OneOf("sender", q.senders));
    PickKept(t, pre, q, sw, pv, i, OneOf("receiver", q.receivers));
    if |q.anyRole| > 0 {
      PickKept(t, pre, q, sw, pv, i, AnyOneOf(PathwayLoading.RoleColumns, q.anyRole));
    }
  }

  /** Narrowing the kept `final_score` band never adds rows: the opposite of the outside band. */
  lemma InclusiveFsMonotone(t: Table, pre: seq<Stage>, q: Request, sw: string, pv: string, narrow: seq<real>)
    requires |q.fs| >= 2 && |narrow| >= 2 && q.fs[0] <= narrow[0] && narrow[1] <= q.fs[1]
    ensures PathwaysFiltering.Narrower(Run(t, pre + InclusiveStages(q.(fs := narrow), sw, pv)),
                                       Run(t, pre + InclusiveStages(q, sw, pv)))
  {
    var n := q.(fs := narrow);
    var before := pre + [Apply(AtLeast(sw, q.sw))] + CeilingStages(q.pval, pv);
    var after := InclusiveBand(q.rnas, "rna_score") + Picks(q);
    var strong := Between("final_score", narrow[0], narrow[1]);
    var weak := Between("final_score", q.fs[0], q.fs[1]);
    assert pre + InclusiveStages(n, sw, pv) == before + [Apply(strong)] + after;
    assert pre + InclusiveStages(q, sw, pv) == before + [Apply(weak)] + after;
    RunReplace(t, before, strong, weak, after);
  }

  /** Raising the sigweight threshold never adds rows. */
  lemma InclusiveSwMonotone(t: Table, pre: seq<Stage>, q: Request, sw: string, pv: string, higher: real)
    requires q.sw <= higher
    ensures PathwaysFiltering.Narrower(Run(t, pre + InclusiveStages(q.(sw := higher), sw, pv)),
                                       Run(t, pre + InclusiveStages(q, sw, pv)))
  {
    var after := CeilingStages(q.pval, pv) + InclusiveBand(q.fs, "final_score")
      + InclusiveBand(q.rnas, "rna_score") + Picks(q);
    assert pre + InclusiveStages(q.(sw := higher), sw, pv) == pre + [Apply(AtLeast(sw, higher))] + after;
    assert pre + InclusiveStages(q, sw, pv) == pre + [Apply(AtLeast(sw, q.sw))] + after;
    RunReplace(t, pre, AtLeast(sw, higher), AtLeast(sw, q.sw), after);
  }

  /** A band of one bound raises, whatever the rows. */
  lemma ShortInclusiveBandFails(t: Table, pre: seq<Stage>, q: Request, sw: string, pv: string)
    requires |q.fs| == 1 || |q.rnas| == 1
    ensures Run(t, pre + InclusiveStages(q, sw, pv)).Err?
  {
    var st := pre + InclusiveStages(q, sw, pv);
    assert Scores(q, sw, pv) <= st[|pre|..];
    FailStageFails(t, st, IndexError);
  }

  // ---- callbacks.py: filter_pathways ----

  /**
   * The error the UMAP mask raises, in the order it reads its operands: each
   * column before the bound it is compared with.
   */
  function BoxError(box: map<string, real>, columns: seq<string>): Option<Error>
  {
    if "umap1" !in columns then Some(KeyError("umap1"))
    else if "xaxis.range[0]" !in box then Some(KeyError("xaxis.range[0]"))
    else if "xaxis.range[1]" !in box then Some(KeyError("xaxis.range[1]"))
    else if "umap2" !in columns then Some(KeyError("umap2"))
    else if "yaxis.range[0]" !in box then Some(KeyError("yaxis.range[0]"))
    else if "yaxis.range[1]" !in box then Some(KeyError("yaxis.range[1]"))
    else None
  }

  /** `if filter_umap: df = df[...]`: a nonempty dictionary constrains both axes inclusively. */
  function BoxStages(box: map<string, real>, columns: seq<string>): seq<Stage>
  {
    if |box| == 0 then []
    else match BoxError(box, columns)
      case Some(e) => [Fail(e)]
      case None =>
        [Apply(Between("umap1", box["xaxis.range[0]"], box["xaxis.range[1]"])),
         Apply(Between("umap2", box["yaxis.range[0]"], box["yaxis.range[1]"]))]
  }

  /** The root `callbacks.py` `filter_pathways`, for a group name and a UMAP dictionary. */
  function CallbacksFiltered(t: Table, group: string, q: Request, box: map<string, real>): Result<Table>
  {
    var d :- Defaults(q, t);
    Run(t, BoxStages(box, t.columns) + InclusiveStages(d, "sigweight_" + group, "p_value_" + group))
  }

  /**
   * Every row the root `callbacks.py` filter keeps is a row of the table with
   * `sigweight_<group>` at least the threshold, `p_value_<group>` at most a truthy
   * ceiling, and each score inside its band, endpoints included.
   */
  lemma CallbacksScoresKept(t: Table, group: string, q: Request, box: map<string, real>, i: nat)
    requires CallbacksFiltered(t, group, q, box).Ok? && i < |CallbacksFiltered(t, group, q, box).value.rows|
    ensures var row := CallbacksFiltered(t, group, q, box).value.rows[i];
      row in t.rows
      && Lookup(row, "sigweight_" + group).Num? && Lookup(row, "sigweight_" + group).x >= q.sw
      && (q.pval.Some? && q.pval.value != 0.0 ==>
            Lookup(row, "p_value_" + group).Num? && Lookup(row, "p_value_" + group).x <= q.pval.value)
      && (|q.fs| >= 2 ==> Lookup(row, "final_score").Num? && q.fs[0] <= Lookup(row, "final_score").x <= q.fs[1])
      && (|q.rnas| >= 2 ==> Lookup(row, "rna_score").Num? && q.rnas[0] <= Lookup(row, "rna_score").x <= q.rnas[1])
  {
    DefaultsCharacterised(q, t);
    var d := Defaults(q, t).value;
    InclusiveScoresKept(t, BoxStages(box, t.columns), d, "sigweight_" + group, "p_value_" + group, i);
  }

  /**
   * With a nonempty UMAP dictionary, a kept row lies in the closed box, and the
   * dictionary held all four bounds.
   */
  lemma CallbacksBoxKept(t: Table, group: string, q: Request, box: map<string, real>, i: nat)
    requires CallbacksFiltered(t, group, q, box).Ok? && i < |CallbacksFiltered(t, group, q, box).value.rows|
    requires |box| > 0
    ensures "xaxis.range[0]" in box && "xaxis.range[1]" in box && "yaxis.range[0]" in box && "yaxis.range[1]" in box
    ensures var row := CallbacksFiltered(t, group, q, box).value.rows[i];
      Lookup(row, "umap1").Num? && box["xaxis.range[0]"] <= Lookup(row, "umap1").x <= box["xaxis.range[1]"]
      && Lookup(row, "umap2").Num? && box["yaxis.range[0]"] <= Lookup(row, "umap2").x <= box["yaxis.range[1]"]
  {
    var d := Defaults(q, t).value;
    var st := BoxStages(box, t.columns) + InclusiveStages(d, "sigweight_" + group, "p_value_" + group);
    var e := BoxError(box, t.columns);
    if e.Some? {
      FailStageFails(t, st, e.value);
      assert false;
    }
    PassesStage(t, st, Between("umap1", box["xaxis.range[0]"], box["xaxis.range[1]"]), i);
    PassesStage(t, st, Between("umap2", box["yaxis.range[0]"], box["yaxis.range[1]"]), i);
  }

  /** A nonempty UMAP dictionary missing one of the four bounds makes the filter raise. */
  lemma CallbacksBoxNeedsAllBounds(t: Table, group: string, q: Request, box: map<string, real>)
    requires |box| > 0 && Defaults(q, t).Ok?
    requires !("xaxis.range[0]" in box && "xaxis.range[1]" in box && "yaxis.range[0]" in box && "yaxis.range[1]" in box)
    ensures CallbacksFiltered(t, group, q, box).Err?
  {
    var d := Defaults(q, t).value;
    var st := BoxStages(box, t.columns) + InclusiveStages(d, "sigweight_" + group, "p_value_" + group);
    var e := BoxError(box, t.columns);
    FailStageFails(t, st, e.value);
  }

  /** The categorical and any-role selections the root `callbacks.py` filter enforces. */
  lemma CallbacksPicksKept(t: Table, group: string, q: Request, box: map<string, real>, i: nat)
    requires CallbacksFiltered(t, group, q, box).Ok? && i < |CallbacksFiltered(t, group, q, box).value.rows|
    ensures var d := Defaults(q, t).value; var row := CallbacksFiltered(t, group, q, box).value.rows[i];
      Lookup(row, "ligand") in d.ligands && Lookup(row, "receptor") in d.receptors
      && Lookup(row, "em") in d.em && Lookup(row, "target") in d.targets
      && Lookup(row, "sender") in d.senders && Lookup(row, "receiver") in d.receivers
      && (|q.anyRole| > 0 ==> exists k :: 0 <= k < 4 && Lookup(row, PathwayLoading.RoleColumns[k]) in q.anyRole)
  {
    DefaultsCharacterised(q, t);
    var d := Defaults(q, t).value;
    InclusivePicksKept(t, BoxStages(box, t.columns), d, "sigweight_" + group, "p_value_" + group, i);
  }

  /** In the root `callbacks.py` filter, narrowing the `final_score` band never adds rows. */
  lemma CallbacksFsMonotone(t: Table, group: string, q: Request, box: map<string, real>, narrow: seq<real>)
    requires |q.fs| >= 2 && |narrow| >= 2 && q.fs[0] <= narrow[0] && narrow[1] <= q.fs[1]
    ensures PathwaysFiltering.Narrower(CallbacksFiltered(t, group, q.(fs := narrow), box), CallbacksFiltered(t, group, q, box))
  {
    DefaultsIgnoreScores(q, t, q.(fs := narrow));
    if Defaults(q, t).Ok? {
      var d := Defaults(q, t).value;
      assert Defaults(q.(fs := narrow), t).value == d.(fs := narrow);
      InclusiveFsMonotone(t, BoxStages(box, t.columns), d, "sigweight_" + group, "p_value_" + group, narrow);
    }
  }

  // ---- data.py: filter_pathways ----

  /**
   * The `data.py` `filter_pathways`: the same policy without a UMAP box, reading
   * the metric columns named after the group's sigweight suffix.
   */
  function DataFiltered(t: Table, g: LegacyLoading.Group, q: Request): Result<Table>
  {
    var d :- Defaults(q, t);
    var s :- LegacyLoading.GroupSuffix(t.columns, g);
    Run(t, InclusiveStages(d, "sigweight_" + s, "p_value_" + s))
  }

  /**
   * Every row the `data.py` filter keeps meets the group's sigweight threshold,
   * the truthy p-value ceiling and the inclusive score bands.
   */
  lemma DataScoresKept(t: Table, g: LegacyLoading.Group, q: Request, i: nat)
    requires DataFiltered(t, g, q).Ok? && i < |DataFiltered(t, g, q).value.rows|
    ensures LegacyLoading.GroupSuffix(t.columns, g).Ok?
    ensures var s := LegacyLoading.GroupSuffix(t.columns, g).value; var row := DataFiltered(t, g, q).value.rows[i];
      row in t.rows
      && Lookup(row, "sigweight_" + s).Num? && Lookup(row, "sigweight_" + s).x >= q.sw
      && (q.pval.Some? && q.pval.value != 0.0 ==>
            Lookup(row, "p_value_" + s).Num? && Lookup(row, "p_value_" + s).x <= q.pval.value)
      && (|q.fs| >= 2 ==> Lookup(row, "final_score").Num? && q.fs[0] <= Lookup(row, "final_score").x <= q.fs[1])
      && (|q.rnas| >= 2 ==> Lookup(row, "rna_score").Num? && q.rnas[0] <= Lookup(row, "rna_score").x <= q.rnas[1])
  {
    DefaultsCharacterised(q, t);
    var d := Defaults(q, t).value;
    var s := LegacyLoading.GroupSuffix(t.columns, g).value;
    assert [] + InclusiveStages(d, "sigweight_" + s, "p_value_" + s) == InclusiveStages(d, "sigweight_" + s, "p_value_" + s);
    InclusiveScoresKept(t, [], d, "sigweight_" + s, "p_value_" + s, i);
  }

  /** The categorical and any-role selections the `data.py` filter enforces. */
  lemma DataPicksKept(t: Table, g: LegacyLoading.Group, q: Request, i: nat)
    requires DataFiltered(t, g, q).Ok? && i < |DataFiltered(t, g, q).value.rows|
    ensures var d := Defaults(q, t).value; var row := DataFiltered(t, g, q).value.rows[i];
      Lookup(row, "ligand") in d.ligands && Lookup(row, "receptor") in d.receptors
      && Lookup(row, "em") in d.em && Lookup(row, "target") in d.targets
      && Lookup(row, "sender") in d.senders && Lookup(row, "receiver") in d.receivers
      && (|q.anyRole| > 0 ==> exists k :: 0 <= k < 4 && Lookup(row, PathwayLoading.RoleColumns[k]) in q.anyRole)
  {
    DefaultsCharacterised(q, t);
    var d := Defaults(q, t).value;
    var s := LegacyLoading.GroupSuffix(t.columns, g).value;
    assert [] + InclusiveStages(d, "sigweight_" + s, "p_value_" + s) == InclusiveStages(d, "sigweight_" + s, "p_value_" + s);
    InclusivePicksKept(t, [], d, "sigweight_" + s, "p_value_" + s, i);
  }

  /** Without any sigweight column the `StopIteration` of the suffix lookup escapes the `data.py` filter. */
  lemma DataNeedsSigweight(t: Table, g: LegacyLoading.Group, q: Request)
    requires Defaults(q, t).Ok?
    requires forall i :: 0 <= i < |t.columns| ==> !Text.Contains(t.columns[i], "sigweight")
    ensures DataFiltered(t, g, q) == Err(StopIteration)
  {
    LegacyLoading.GroupSuffixSources(t.columns, g);
  }

  /** In the `data.py` filter, raising the sigweight threshold never adds rows. */
  lemma DataSwMonotone(t: Table, g: LegacyLoading.Group, q: Request, higher: real)
    requires q.sw <= higher
    ensures PathwaysFiltering.Narrower(DataFiltered(t, g, q.(sw := higher)), DataFiltered(t, g, q))
  {
    DefaultsIgnoreScores(q, t, q.(sw := higher));
    if Defaults(q, t).Ok? && LegacyLoading.GroupSuffix(t.columns, g).Ok? {
      var d := Defaults(q, t).value;
      var s := LegacyLoading.GroupSuffix(t.columns, g).value;
      assert Defaults(q.(sw := higher), t).value == d.(sw := higher);
      InclusiveSwMonotone(t, [], d, "sigweight_" + s, "p_value_" + s, higher);
      assert [] + InclusiveStages(d, "sigweight_" + s, "p_value_" + s) == InclusiveStages(d, "sigweight_" + s, "p_value_" + s);
      assert [] + InclusiveStages(d.(sw := higher), "sigweight_" + s, "p_value_" + s)
        == InclusiveStages(d.(sw := higher), "sigweight_" + s, "p_value_" + s);
    }
  }

  // ---- sankey.py: filter_pathways_df ----

  /** The direction values the Sankey page offers; `None` behaves as `All`. */
  datatype Direction = Up | Down | All

  /** The arguments of `filter_pathways_df`; `None` and empty selections are both empty. */
  datatype SankeyRequest = SankeyRequest(
    threshold: Option<real>, direction: Direction,
    senders: seq<Cell>, receivers: seq<Cell>, ligands: seq<Cell>, receptors: seq<Cell>,
    em: seq<Cell>, targets: seq<Cell>)

  /** A selection filters only when it is nonempty. */
  function PickIfAny(col: string, vals: seq<Cell>): seq<Stage>
  {
    if |vals| == 0 then [] else [Apply(OneOf(col, vals))]
  }

  function UpDown(d: Direction): seq<Stage>
  {
    match d
    case Down => [Apply(AtMost("final_score", 0.0))]
    case Up => [Apply(AtLeast("final_score", 0.0))]
    case All => []
  }

  function AbsThreshold(threshold: Option<real>): seq<Stage>
  {
    if threshold.Some? && threshold.value != 0.0 then [Apply(AbsAtLeast("final_score", threshold.value))] else []
  }

  function SankeyPicks(q: SankeyRequest): seq<Stage>
  {
    PickIfAny("Sender.group", q.senders) + PickIfAny("Receiver.group", q.receivers)
      + PickIfAny("Ligand", q.ligands) + PickIfAny("Receptor", q.receptors)
      + PickIfAny("EM", q.em) + PickIfAny("Target", q.targets)
  }

  function SankeyStages(q: SankeyRequest): seq<Stage>
  {
    UpDown(q.direction) + AbsThreshold(q.threshold) + SankeyPicks(q)
  }

  /** `filter_pathways_df(raw, ...)`. */
  function SankeyFiltered(t: Table, q: SankeyRequest): Result<Table>
  {
    Run(t, SankeyStages(q))
  }

  /**
   * Every row `filter_pathways_df` keeps has a score of the chosen sign, zero
   * allowed either way, and an absolute value at least a truthy threshold.
   */
  lemma SankeyScoreKept(t: Table, q: SankeyRequest, i: nat)
    requires SankeyFiltered(t, q).Ok? && i < |SankeyFiltered(t, q).value.rows|
    ensures var row := SankeyFiltered(t, q).value.rows[i]; var v := Lookup(row, "final_score");
      row in t.rows
      && (q.direction == Up ==> v.Num? && v.x >= 0.0)
      && (q.direction == Down ==> v.Num? && v.x <= 0.0)
      && (q.threshold.Some? && q.threshold.value != 0.0 ==> v.Num? && Abs(v.x) >= q.threshold.value)
  {
    var st := SankeyStages(q);
    RunCharacterised(t, st);
    if q.direction == Up {
      PassesStage(t, st, AtLeast("final_score", 0.0), i);
    } else if q.direction == Down {
      PassesStage(t, st, AtMost("final_score", 0.0), i);
    }
    if q.threshold.Some? && q.threshold.value != 0.0 {
      PassesStage(t, st, AbsAtLeast("final_score", q.threshold.value), i);
    }
  }

  lemma SankeyPickKept(t: Table, q: SankeyRequest, i: nat, col: string, vals: seq<Cell>)
    requires SankeyFiltered(t, q).Ok? && i < |SankeyFiltered(t, q).value.rows|
    requires |vals| > 0 && Apply(OneOf(col, vals)) in SankeyPicks(q)
    ensures Lookup(SankeyFiltered(t, q).value.rows[i], col) in vals
  {
    var st := SankeyStages(q);
    assert SankeyPicks(q) <= st[|UpDown(q.direction) + AbsThreshold(q.threshold)|..];
    PassesStage(t, st, OneOf(col, vals), i);
  }

  /** Every nonempty selection of `filter_pathways_df` holds the kept row's value. */
  lemma SankeyPicksKept(t: Table, q: SankeyRequest, i: nat)
    requires SankeyFiltered(t, q).Ok? && i < |SankeyFiltered(t, q).value.rows|
    ensures var row := SankeyFiltered(t, q).value.rows[i];
      (|q.senders| > 0 ==> Lookup(row, "Sender.group") in q.senders)
      && (|q.receivers| > 0 ==> Lookup(row, "Receiver.group") in q.receivers)
      && (|q.ligands| > 0 ==> Lookup(row, "Ligand") in q.ligands)
      && (|q.receptors| > 0 ==> Lookup(row, "Receptor") in q.receptors)
      && (|q.em| > 0 ==> Lookup(row, "EM") in q.em)
      && (|q.targets| > 0 ==> Lookup(row, "Target") in q.targets)
  {
    if |q.senders| > 0 { SankeyPickKept(t, q, i, "Sender.group", q.senders); }
    if |q.receivers| > 0 { SankeyPickKept(t, q, i, "Receiver.group", q.receivers); }
    if |q.ligands| > 0 { SankeyPickKept(t, q, i, "Ligand", q.ligands); }
    if |q.receptors| > 0 { SankeyPickKept(t, q, i, "Receptor", q.receptors); }
    if |q.em| > 0 { SankeyPickKept(t, q, i, "EM", q.em); }
    if |q.targets| > 0 { SankeyPickKept(t, q, i, "Target", q.targets); }
  }

  /** With no direction, no truthy threshold and no selection, `filter_pathways_df` returns its input. */
  lemma SankeyUnfilteredKeepsAll(t: Table, q: SankeyRequest)
    requires q.direction == All && (q.threshold.None? || q.threshold.value == 0.0)
    requires q.senders == q.receivers == q.ligands == q.receptors == q.em == q.targets == []
    ensures SankeyFiltered(t, q) == Ok(t)
  {
    assert SankeyStages(q) == [];
  }

  /**
   * A row scoring exactly zero is kept by the `up` filter exactly when it is kept
   * by the `down` filter.
   */
  lemma SankeyZeroBothWays(t: Table, q: SankeyRequest, row: Row)
    requires Lookup(row, "final_score") == Num(0.0) && row in t.rows
    requires SankeyFiltered(t, q.(direction := Up)).Ok?
    ensures SankeyFiltered(t, q.(direction := Down)).Ok?
    ensures row in SankeyFiltered(t, q.(direction := Up)).value.rows
      <==> row in SankeyFiltered(t, q.(direction := Down)).value.rows
  {
    var rest := AbsThreshold(q.threshold) + SankeyPicks(q);
    SankeyDirectionSplit(q, Up);
    SankeyDirectionSplit(q, Down);
    RunReplaceFirst(t, AtLeast("final_score", 0.0), AtMost("final_score", 0.0), rest, row);
  }

  lemma SankeyDirectionSplit(q: SankeyRequest, d: Direction)
    ensures SankeyStages(q.(direction := d)) == UpDown(d) + (AbsThreshold(q.threshold) + SankeyPicks(q))
  {
    assert SankeyPicks(q.(direction := d)) == SankeyPicks(q);
  }

  /** A row of the rows lies in the selection exactly when it passes every mask. */
  lemma InSelectAll(rows: seq<Row>, tests: seq<Test>, row: Row)
    requires row in rows
    ensures row in SelectAll(rows, tests) <==> HoldsAll(tests, row)
  {
  }

  /**
   * Two chains that differ only in a first mask that reads the same columns
   * raise in the same cases, and a row passing both first masks is kept by both
   * or by neither.
   */
  lemma RunReplaceFirst(t: Table, s1: Test, s2: Test, rest: seq<Stage>, row: Row)
    requires TestColumns(s1) == TestColumns(s2) && Holds(s1, row) && Holds(s2, row) && row in t.rows
    requires Run(t, [Apply(s1)] + rest).Ok?
    ensures Run(t, [Apply(s2)] + rest).Ok?
    ensures row in Run(t, [Apply(s1)] + rest).value.rows <==> row in Run(t, [Apply(s2)] + rest).value.rows
  {
    var a := [Apply(s1)] + rest;
    var b := [Apply(s2)] + rest;
    assert a[0] == Apply(s1) && a[1..] == rest;
    assert b[0] == Apply(s2) && b[1..] == rest;
    var w1 := Where(t, s1).value;
    var w2 := Where(t, s2).value;
    assert Run(t, a) == Run(w1, rest);
    assert Run(t, b) == Run(w2, rest);
    RunCharacterised(w1, rest);
    RunCharacterised(w2, rest);
    InSelectAll(w1.rows, Tests(rest), row);
    InSelectAll(w2.rows, Tests(rest), row);
  }

  // ---- clusters.py and clusters_graph.py: the head of load_edges ----

  /** `if direction == "up": ... > 0 elif direction == "down": ... < 0`, then a strict `|score|` threshold. */
  function StrictStages(d: Direction, threshold: Option<real>): seq<Stage>
  {
    (match d
     case Up => [Apply(Above("final_score", 0.0))]
     case Down => [Apply(Below("final_score", 0.0))]
     case All => [])
    + (if threshold.Some? && threshold.value != 0.0 then [Apply(AbsAbove("final_score", threshold.value))] else [])
  }

  function StrictFiltered(t: Table, d: Direction, threshold: Option<real>): Result<Table>
  {
    Run(t, StrictStages(d, threshold))
  }

  /**
   * Every row the strict filter keeps has a score of the chosen sign, never zero,
   * and an absolute value above a truthy threshold.
   */
  lemma StrictKept(t: Table, d: Direction, threshold: Option<real>, i: nat)
    requires StrictFiltered(t, d, threshold).Ok? && i < |StrictFiltered(t, d, threshold).value.rows|
    ensures var row := StrictFiltered(t, d, threshold).value.rows[i]; var v := Lookup(row, "final_score");
      row in t.rows
      && (d == Up ==> v.Num? && v.x > 0.0)
      && (d == Down ==> v.Num? && v.x < 0.0)
      && (threshold.Some? && threshold.value != 0.0 ==> v.Num? && Abs(v.x) > threshold.value)
  {
    var st := StrictStages(d, threshold);
    RunCharacterised(t, st);
    if d == Up {
      PassesStage(t, st, Above("final_score", 0.0), i);
    } else if d == Down {
      PassesStage(t, st, Below("final_score", 0.0), i);
    }
    if threshold.Some? && threshold.value != 0.0 {
      PassesStage(t, st, AbsAbove("final_score", threshold.value), i);
    }
  }

  /**
   * The strict filter keeps a subset of what `filter_pathways_df` keeps for the
   * same direction and threshold and no selection.
   */
  lemma StrictWithinSankey(t: Table, d: Direction, threshold: Option<real>)
    requires StrictFiltered(t, d, threshold).Ok?
    ensures var q := SankeyRequest(threshold, d, [], [], [], [], [], []);
      SankeyFiltered(t, q).Ok?
      && forall i :: 0 <= i < |StrictFiltered(t, d, threshold).value.rows| ==>
           StrictFiltered(t, d, threshold).value.rows[i] in SankeyFiltered(t, q).value.rows
  {
    var q := SankeyRequest(threshold, d, [], [], [], [], [], []);
    assert SankeyPicks(q) == [];
    assert SankeyStages(q) == UpDown(d) + AbsThreshold(threshold);
    StrictStronger(d, threshold);
    RunWeaker(t, StrictStages(d, threshold), SankeyStages(q));
  }

  /** Stage by stage, a strict mask (`>`, `<`) implies the inclusive one (`>=`, `<=`) on the same column. */
  lemma StrictStronger(d: Direction, threshold: Option<real>)
    ensures Chains.Stronger(StrictStages(d, threshold), UpDown(d) + AbsThreshold(threshold))
  {
    var strong, weak := StrictStages(d, threshold), UpDown(d) + AbsThreshold(threshold);
    forall r: Row ensures
      (Holds(Above("final_score", 0.0), r) ==> Holds(AtLeast("final_score", 0.0), r))
      && (Holds(Below("final_score", 0.0), r) ==> Holds(AtMost("final_score", 0.0), r))
      && (threshold.Some? ==> Holds(AbsAbove("final_score", threshold.value), r) ==> Holds(AbsAtLeast("final_score", threshold.value), r))
    {
    }
    assert |strong| == |weak|;
    forall i, r: Row | 0 <= i < |strong| && Holds(strong[i].test, r) ensures Holds(weak[i].test, r) {
      var n := |UpDown(d)|;
      if i < n {
        assert strong[i] == StrictStages(d, threshold)[i];
      }
    }
  }
}
