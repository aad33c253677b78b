/**
 * The older loaders at the repository root: the column-name helpers of `CN` in
 * `util.py`, `load_pathways` of `i_o.py` and `load_pathways_input` of `data.py`.
 */
module LegacyLoading {
  import opened Wrappers
  import Seqs
  import Text
  import opened Frames
  import PathwayLoading

  /** The two groups a legacy table compares; the code passes only `"a"` or `"b"`. */
  datatype Group = A | B

  /** The position of the first name containing `sub`. */
  function FirstIndexContaining(cols: seq<string>, sub: string): (r: Option<nat>)
    ensures r.None? <==> forall i :: 0 <= i < |cols| ==> !Text.Contains(cols[i], sub)
    ensures r.Some? ==> (r.value < |cols| && Text.Contains(cols[r.value], sub)
      && forall j :: 0 <= j < r.value ==> !Text.Contains(cols[j], sub))
  {
    if |cols| == 0 then None
    else if Text.Contains(cols[0], sub) then Some(0)
    else
      var r := FirstIndexContaining(cols[1..], sub);
      if r.Some? then
        assert forall j :: 1 <= j < r.value + 1 ==> cols[j] == cols[1..][j - 1];
        Some(r.value + 1)
      else
        assert forall j :: 1 <= j < |cols| ==> cols[j] == cols[1..][j - 1];
        None
  }

  /** `next(c for c in cols if sub in c)`, raising `StopIteration` when none does. */
  function FirstContaining(cols: seq<string>, sub: string): Result<string>
  {
    match FirstIndexContaining(cols, sub)
    case Some(i) => Ok(cols[i])
    case None => Err(StopIteration)
  }

  function Reverse<T>(s: seq<T>): (r: seq<T>)
    ensures |r| == |s| && forall i :: 0 <= i < |s| ==> r[i] == s[|s| - 1 - i]
  {
    if |s| == 0 then [] else Reverse(s[1..]) + [s[0]]
  }

  /** `split("_")[1]`, raising `IndexError` for a name without `_`. */
  function SecondPart(c: string): (r: Result<string>)
    ensures r.Ok? <==> '_' in c
    ensures r.Ok? ==> |Text.Split(c, '_')| > 1 && r.value == Text.Split(c, '_')[1]
    ensures r.Err? ==> r.error == IndexError
  {
    Text.SplitLength(c, '_');
    Seqs.CountPositive(c, '_');
    match Text.Part(c, '_', 1)
    case Some(p) => Ok(p)
    case None => Err(IndexError)
  }

  /**
   * `CN.group_suffix`: the text after the first `_` of the first column naming a
   * sigweight for group A, of the last one for group B.
   */
  function GroupSuffix(cols: seq<string>, g: Group): Result<string>
  {
    var c :- FirstContaining(if g == A then cols else Reverse(cols), "sigweight");
    SecondPart(c)
  }

  /** `CN.SIGWEIGHT`: the `StopIteration` of a table without sigweight columns escapes. */
  function SigWeight(cols: seq<string>, g: Group): Result<string>
  {
    var s :- GroupSuffix(cols, g);
    Ok("sigweight_" + s)
  }

  /** `CN.PVAL` given the column index. */
  function PVal(cols: seq<string>, g: Group): Result<string>
  {
    var s :- GroupSuffix(cols, g);
    Ok("p_value_" + s)
  }

  /** Group A's suffix comes from the first sigweight column, group B's from the last one. */
  lemma GroupSuffixSources(cols: seq<string>, g: Group)
    ensures (GroupSuffix(cols, g).Err? && GroupSuffix(cols, g).error == StopIteration)
      <==> forall i :: 0 <= i < |cols| ==> !Text.Contains(cols[i], "sigweight")
    ensures GroupSuffix(cols, g).Ok? ==> exists i :: (0 <= i < |cols| && Text.Contains(cols[i], "sigweight")
      && |Text.Split(cols[i], '_')| > 1 && Text.Split(cols[i], '_')[1] == GroupSuffix(cols, g).value
      && (g == A ==> forall j :: 0 <= j < i ==> !Text.Contains(cols[j], "sigweight"))
      && (g == B ==> forall j :: i < j < |cols| ==> !Text.Contains(cols[j], "sigweight")))
  {
    var src := if g == A then cols else Reverse(cols);
    var f := FirstIndexContaining(src, "sigweight");
    assert GroupSuffix(cols, g) == if f.None? then Err(StopIteration) else SecondPart(src[f.value]);
    if f.Some? {
      var k := f.value;
      var i := if g == A then k else |cols| - 1 - k;
      assert cols[i] == src[k];
      if g == B {
        forall j | i < j < |cols| ensures !Text.Contains(cols[j], "sigweight") {
          assert cols[j] == src[|cols| - 1 - j];
        }
      }
    } else if g == B {
      assert forall i :: 0 <= i < |cols| ==> cols[i] == src[|cols| - 1 - i];
    }
  }

  /**
   * `CN.SIGWEIGHT` and `CN.PVAL` fail together, with the `StopIteration` of a
   * table naming no sigweight column, and otherwise carry the same group suffix.
   */
  lemma NamesShareSuffix(cols: seq<string>, g: Group)
    ensures SigWeight(cols, g).Ok? <==> PVal(cols, g).Ok?
    ensures SigWeight(cols, g) == Err(StopIteration) <==> forall i :: 0 <= i < |cols| ==> !Text.Contains(cols[i], "sigweight")
    ensures SigWeight(cols, g).Ok? ==>
      |SigWeight(cols, g).value| >= 10 && SigWeight(cols, g).value[..10] == "sigweight_"
      && PVal(cols, g).value == "p_value_" + SigWeight(cols, g).value[10..]
  {
    GroupSuffixSources(cols, g);
    if SigWeight(cols, g).Ok? {
      assert SigWeight(cols, g).value == "sigweight_" + GroupSuffix(cols, g).value;
      assert SigWeight(cols, g).value[10..] == GroupSuffix(cols, g).value;
    }
  }

  /** `p_value_available` holds exactly when some column name contains `"p_value_"`. */
  lemma PValueAvailableIff(cols: seq<string>)
    ensures PValueAvailable(cols) <==> |Containing(cols, "p_value_")| > 0
  {
    if PValueAvailable(cols) {
      var i :| 0 <= i < |cols| && Text.Contains(cols[i], "p_value_");
      assert cols[i] in Containing(cols, "p_value_");
    }
  }

  /** `CN.p_value_available`. */
  predicate PValueAvailable(cols: seq<string>)
  {
    exists i :: 0 <= i < |cols| && Text.Contains(cols[i], "p_value_")
  }

  /** `CN.umap_available`. */
  predicate UmapAvailable(cols: seq<string>)
  {
    "umap1" in cols && "umap2" in cols
  }

  /** `[c for c in cols if sub in c]`. */
  function Containing(cols: seq<string>, sub: string): (r: seq<string>)
    ensures forall i :: 0 <= i < |r| ==> r[i] in cols && Text.Contains(r[i], sub)
    ensures forall i :: 0 <= i < |cols| && Text.Contains(cols[i], sub) ==> cols[i] in r
  {
    if |cols| == 0 then []
    else (if Text.Contains(cols[0], sub) then [cols[0]] else []) + Containing(cols[1..], sub)
  }

  // ---- i_o.py: load_pathways ----

  datatype LegacyPathways = LegacyPathways(
    paths: Table, hasRna: bool, hasFinal: bool, hasPValue: bool, hasUmap: bool,
    groupA: string, groupB: string)

  const LegacyKept: seq<string> := ["path", "ligand", "receptor", "em", "target", "sender", "receiver", "umap1", "umap2"]

  /** The columns after renaming and the role assignments. */
  function LegacyColumns(raw: Table): seq<string>
  {
    AddColumns(PathwayLoading.StripLowerAll(raw.columns), PathwayLoading.RoleColumns)
  }

  /** The renamed rows with their role columns and extended path. */
  function LegacyDerived(raw: Table): Table
  {
    var cols := PathwayLoading.StripLowerAll(raw.columns);
    var rows := RenameRows(raw.rows, raw.columns, cols);
    Table(LegacyColumns(raw), MapRows(MapRows(rows, PathwayLoading.AddRoles), PathwayLoading.ExtendPath))
  }

  /** `[c for c in TO_KEEP if c in paths.columns]`. */
  function LegacyKeep(columns: seq<string>): seq<string>
  {
    Present(LegacyKept + LegacyMetrics(columns), columns)
  }

  /** The metric columns `load_pathways` keeps: its sigweight, p-value, RNA and final score columns. */
  function LegacyMetrics(columns: seq<string>): seq<string>
  {
    Containing(columns, "sigweight") + Containing(columns, "p_value")
      + Containing(columns, "rna_score") + Containing(columns, "final_score")
  }

  /** The kept columns of the derived table, without duplicated rows or rows missing a kept value. */
  function LegacyTable(raw: Table): Table
  {
    var keep := LegacyKeep(LegacyColumns(raw));
    Table(keep, DropInvalid(Project(LegacyDerived(raw), keep).rows, keep))
  }

  /**
   * The checks `load_pathways` makes before it builds its table, giving the two
   * group names on success.
   */
  function LegacyGroups(raw: Table): Result<(string, string)>
  {
    var cols := PathwayLoading.StripLowerAll(raw.columns);
    if "path" !in cols then Err(KeyError("path"))
    else if "sender" !in cols then Err(KeyError("sender"))
    else if "receiver" !in cols then Err(KeyError("receiver"))
    else
      var columns := LegacyColumns(raw);
      var sw := Containing(columns, "sigweight");
      var pv := Containing(columns, "p_value");
      if |sw| != 2 || (|pv| != 0 && |pv| != 2) then
        Err(ValueError("Ambiguous input. Are there exactly 2 SigWeight/P-Value columns?"))
      else
        var ga :- SecondPart(sw[0]);
        var gb :- SecondPart(sw[1]);
        Ok((ga, gb))
  }

  /** What `load_pathways` returns for a raw table. */
  function LoadLegacy(raw: Table): Result<LegacyPathways>
  {
    var groups :- LegacyGroups(raw);
    var columns := LegacyColumns(raw);
    Ok(LegacyPathways(LegacyTable(raw),
      "rna_score" in columns, "final_score" in columns, PValueAvailable(columns), UmapAvailable(columns),
      groups.0, groups.1))
  }

  /** The role column `target` is only text when the path had at least four parts. */
  lemma TargetNeedsFourParts(row: Row)
    requires Lookup(PathwayLoading.ExtendPath(PathwayLoading.AddRoles(row)), "target").Str?
    ensures Lookup(row, "path").Str? && |Text.Split(Lookup(row, "path").s, '*')| >= 4
  {
    var e := PathwayLoading.ExtendPath(PathwayLoading.AddRoles(row));
    assert Lookup(e, "target") == Lookup(PathwayLoading.AddRoles(row), "target");
  }

  /**
   * A load fails exactly when a key column is missing, the sigweight or p-value
   * columns are ambiguous, or a sigweight column has no `_` to take a group from.
   */
  lemma LoadLegacyFails(raw: Table)
    ensures var cols := PathwayLoading.StripLowerAll(raw.columns);
      var sw := Containing(LegacyColumns(raw), "sigweight");
      var pv := Containing(LegacyColumns(raw), "p_value");
      LoadLegacy(raw).Err? <==>
        "path" !in cols || "sender" !in cols || "receiver" !in cols
        || |sw| != 2 || (|pv| != 0 && |pv| != 2) || '_' !in sw[0] || '_' !in sw[1]
  {
    var cols := PathwayLoading.StripLowerAll(raw.columns);
    var sw := Containing(LegacyColumns(raw), "sigweight");
    var pv := Containing(LegacyColumns(raw), "p_value");
    if "path" in cols && "sender" in cols && "receiver" in cols && |sw| == 2 && (|pv| == 0 || |pv| == 2) {
      assert LegacyGroups(raw).Err? <==> SecondPart(sw[0]).Err? || SecondPart(sw[1]).Err?;
    }
  }

  lemma LegacyColumnsHaveTarget(raw: Table)
    ensures "target" in LegacyColumns(raw)
  {
    assert PathwayLoading.RoleColumns[3] == "target";
  }

  lemma LegacyKeepHasTarget(columns: seq<string>)
    requires "target" in columns
    ensures "target" in LegacyKeep(columns)
  {
    var wanted := LegacyKept + LegacyMetrics(columns);
    assert wanted[4] == LegacyKept[4] == "target";
  }

  /**
   * A successful load keeps only distinct rows with every kept value present,
   * the `target` role among them, so every kept row had a path of at least four parts.
   */
  lemma LoadLegacyClean(raw: Table)
    requires LoadLegacy(raw).Ok?
    ensures var t := LoadLegacy(raw).value.paths;
      Seqs.NoDup(t.rows) && "target" in t.columns
      && forall i :: 0 <= i < |t.rows| ==> !HasNA(t.rows[i], t.columns)
  {
    LegacyColumnsHaveTarget(raw);
    LegacyKeepHasTarget(LegacyColumns(raw));
  }
}
