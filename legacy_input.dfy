/**
 * `load_pathways_input` of the root-level `data.py`: it renames the columns of the
 * frame it is given in place, adds the four role columns, and returns the columns
 * it knows that are present.
 */
module LegacyInput {
  import opened Wrappers
  import Seqs
  import Text
  import opened Frames
  import PathwayLoading
  import opened LegacyLoading

  /** `path.str.split("*").str[i]`: the part itself, not stripped; missing when too short. */
  function RawPart(path: Cell, i: nat): (r: Cell)
    ensures r.Str? <==> path.Str? && i < |Text.Split(path.s, '*')|
    ensures r.Str? ==> r.s == Text.Split(path.s, '*')[i]
  {
    if path.Str? then
      match Text.Part(path.s, '*', i)
      case Some(p) => Str(p)
      case None => NA
    else NA
  }

  /** The four role assignments of one row. */
  function AddRawRoles(row: Row): Row
  {
    var p := Lookup(row, "path");
    row["ligand" := RawPart(p, 0)]["receptor" := RawPart(p, 1)]["em" := RawPart(p, 2)]["target" := RawPart(p, 3)]
  }

  /** Each role column holds its raw part of the path; the other columns are untouched. */
  lemma RawRolesLookup(row: Row, i: nat, k: string)
    requires i < 4
    ensures Lookup(AddRawRoles(row), PathwayLoading.RoleColumns[i]) == RawPart(Lookup(row, "path"), i)
    ensures k !in PathwayLoading.RoleColumns ==> Lookup(AddRawRoles(row), k) == Lookup(row, k)
  {
    assert PathwayLoading.RoleColumns == ["ligand", "receptor", "em", "target"];
  }

  /** The named columns that precede the group metrics in `TO_KEEP`. */
  const InputColumns: seq<string> :=
    ["path", "ligand", "receptor", "em", "target", "final_score", "rna_score", "sender", "receiver", "adjlog2fc"]

  /** `df[::-1]`: a frame with its rows reversed and its columns as they were. */
  function ReverseRows(t: Table): (r: Table)
    ensures r.columns == t.columns
  {
    Table(t.columns, Reverse(t.rows))
  }

  /**
   * `CN.PVAL(full_pathways, group)` as `load_pathways_input` calls it: with a frame
   * where `group_suffix` expects a column list. Iterating a frame yields its column
   * names, but `cols[::-1]` on a frame reverses its rows, so group B scans the
   * columns in their own order too.
   */
  function PValOfFrame(t: Table, g: Group): Result<string>
  {
    var scanned := if g == A then t.columns else ReverseRows(t).columns;
    var c :- FirstContaining(scanned, "sigweight");
    var s :- SecondPart(c);
    Ok("p_value_" + s)
  }

  /** Both groups get the p-value column of the first sigweight column. */
  lemma PValOfFrameIgnoresGroup(t: Table)
    ensures PValOfFrame(t, B) == PValOfFrame(t, A)
  {
  }

  /**
   * `TO_KEEP` before the presence filter. The two p-value names are appended
   * unconditionally: they are non-empty strings, so the `if` that guards them is
   * always true once `SIGWEIGHT` has succeeded.
   */
  function WantedAsWritten(t: Table): Result<seq<string>>
  {
    var swa :- SigWeight(t.columns, A);
    var swb :- SigWeight(t.columns, B);
    var pva :- PValOfFrame(t, A);
    var pvb :- PValOfFrame(t, B);
    Ok(InputColumns + [swa, swb, pva, pvb])
  }

  /** `TO_KEEP` with `CN.PVAL` given the column list, as `SIGWEIGHT` is. */
  function Wanted(t: Table): Result<seq<string>>
  {
    var swa :- SigWeight(t.columns, A);
    var swb :- SigWeight(t.columns, B);
    var pva :- PVal(t.columns, A);
    var pvb :- PVal(t.columns, B);
    Ok(InputColumns + [swa, swb, pva, pvb])
  }

  /** The frame after the in-place renaming, or `KeyError` without a `path` column. */
  function Prepared(raw: Table): Result<Table>
  {
    var cols := PathwayLoading.StripLowerAll(raw.columns);
    if "path" !in cols then Err(KeyError("path"))
    else
      var rows := RenameRows(raw.rows, raw.columns, cols);
      Ok(Table(AddColumns(cols, PathwayLoading.RoleColumns), MapRows(rows, AddRawRoles)))
  }

  /** The present `TO_KEEP` names of a prepared frame, as written. */
  function KeptAsWritten(t: Table): Result<seq<string>>
  {
    var wanted :- WantedAsWritten(t);
    Ok(Present(wanted, t.columns))
  }

  /** The present `TO_KEEP` names of a prepared frame, p-value names taken from the column list. */
  function Kept(t: Table): Result<seq<string>>
  {
    var wanted :- Wanted(t);
    Ok(Present(wanted, t.columns))
  }

  /** What `load_pathways_input` returns, as written. */
  function LoadedInputAsWritten(raw: Table): Result<Table>
  {
    var t :- Prepared(raw);
    var keep :- KeptAsWritten(t);
    Ok(Project(t, keep))
  }

  /** What `load_pathways_input` returns with the p-value names taken from the column list. */
  function LoadedInput(raw: Table): Result<Table>
  {
    var t :- Prepared(raw);
    var keep :- Kept(t);
    Ok(Project(t, keep))
  }

  /** `load_pathways_input` on a frame, with the p-value names taken from the column list. */
  method LoadPathwaysInput(f: Frame) returns (r: Result<Table>)
    modifies f
    ensures Prepared(old(f.Value())).Ok? ==> f.Value() == Prepared(old(f.Value())).value
    ensures Prepared(old(f.Value())).Err? ==> f.columns == PathwayLoading.StripLowerAll(old(f.columns))
    ensures r == LoadedInput(old(f.Value()))
  {
    var cols := PathwayLoading.StripLowerAll(f.columns);
    f.rows := RenameRows(f.rows, f.columns, cols);
    f.columns := cols;
    if "path" !in f.columns {
      return Err(KeyError("path"));
    }
    f.rows := MapRows(f.rows, AddRawRoles);
    f.columns := AddColumns(f.columns, PathwayLoading.RoleColumns);
    var keep := Kept(f.Value());
    if keep.Err? {
      return Err(keep.error);
    }
    r := Ok(Project(f.Value(), keep.value));
  }

  /**
   * As written, whenever the first and last sigweight columns name different
   * groups `x` and `y`, no `p_value_y` column is kept, and `p_value_x`, when
   * present, is kept twice.
   */
  lemma AsWrittenLosesGroupB(t: Table, x: string, y: string)
    requires x != y
    requires GroupSuffix(t.columns, A) == Ok(x)
    requires GroupSuffix(t.columns, B) == Ok(y)
    ensures KeptAsWritten(t).Ok?
    ensures var cols := KeptAsWritten(t).value;
      "p_value_" + y !in cols
      && ("p_value_" + x in t.columns ==> |cols| >= 2 && cols[|cols| - 2] == cols[|cols| - 1] == "p_value_" + x)
  {
    FirstSuffixDecides(t);
    var w := WantedAsWritten(t).value;
    assert w == InputColumns + ["sigweight_" + x, "sigweight_" + y, "p_value_" + x, "p_value_" + x];
    OtherPValueNotWanted(x, y);
    if "p_value_" + x in t.columns {
      PresentEndsWith(w, t.columns, 2);
    }
  }

  /** `p_value_y` is none of the names wanted when both p-value names use `x`. */
  lemma OtherPValueNotWanted(x: string, y: string)
    requires x != y
    ensures "p_value_" + y !in InputColumns + ["sigweight_" + x, "sigweight_" + y, "p_value_" + x, "p_value_" + x]
  {
    NotAnInputColumn(y);
    assert ("p_value_" + y)[0] != ("sigweight_" + x)[0];
    assert ("p_value_" + y)[0] != ("sigweight_" + y)[0];
    assert ("p_value_" + y)[8..] != ("p_value_" + x)[8..];
  }

  /** As written, both groups' p-value names come from group A's suffix. */
  lemma FirstSuffixDecides(t: Table)
    requires GroupSuffix(t.columns, A).Ok?
    ensures PValOfFrame(t, A) == PValOfFrame(t, B) == Ok("p_value_" + GroupSuffix(t.columns, A).value)
  {
  }

  /** No fixed column of `TO_KEEP` starts with `p_value_`. */
  lemma NotAnInputColumn(y: string)
    ensures "p_value_" + y !in InputColumns
  {
    var p := "p_value_" + y;
    assert p[1] == '_';
    forall i | 0 <= i < |InputColumns| ensures InputColumns[i] != p {
      assert |InputColumns[i]| < 2 || InputColumns[i][1] != '_';
    }
  }

  /** When the last `n` wanted names are present, they end the presence filter's result. */
  lemma {:induction false} PresentEndsWith(wanted: seq<string>, columns: seq<string>, n: nat)
    requires n <= |wanted| && forall i :: |wanted| - n <= i < |wanted| ==> wanted[i] in columns
    ensures var r := Present(wanted, columns);
      |r| >= n && r[|r| - n..] == wanted[|wanted| - n..]
  {
    if |wanted| > n {
      var rest := Present(wanted[1..], columns);
      PresentEndsWith(wanted[1..], columns, n);
      var h: seq<string> := if wanted[0] in columns then [wanted[0]] else [];
      assert Present(wanted, columns) == h + rest;
      assert (h + rest)[|h + rest| - n..] == rest[|rest| - n..];
      assert wanted[1..][|wanted| - 1 - n..] == wanted[|wanted| - n..];
    } else {
      PresentAll(wanted, columns);
    }
  }

  lemma {:induction false} PresentAll(wanted: seq<string>, columns: seq<string>)
    requires forall i :: 0 <= i < |wanted| ==> wanted[i] in columns
    ensures Present(wanted, columns) == wanted
  {
    if |wanted| > 0 {
      PresentAll(wanted[1..], columns);
    }
  }

  /** Corrected, each group's p-value column is kept whenever the frame has it. */
  lemma CorrectedKeepsPValues(t: Table, g: Group)
    requires Kept(t).Ok?
    ensures PVal(t.columns, g).Ok? && (PVal(t.columns, g).value in t.columns ==> PVal(t.columns, g).value in Kept(t).value)
  {
    var w := Wanted(t).value;
    assert w[12] == PVal(t.columns, A).value && w[13] == PVal(t.columns, B).value;
  }

  /** Every kept column is a present `TO_KEEP` name, and the role columns of a prepared frame are kept. */
  lemma KeptColumns(t: Table)
    requires Kept(t).Ok?
    requires forall i :: 0 <= i < 4 ==> PathwayLoading.RoleColumns[i] in t.columns
    ensures var cols := Kept(t).value;
      (forall i :: 0 <= i < |cols| ==> cols[i] in Wanted(t).value && cols[i] in t.columns)
      && forall i :: 0 <= i < 4 ==> PathwayLoading.RoleColumns[i] in cols
  {
    var w := Wanted(t).value;
    var cols := Kept(t).value;
    assert cols == Present(w, t.columns);
    WantedRoles(t);
    forall i | 0 <= i < 4 ensures PathwayLoading.RoleColumns[i] in cols {
      assert w[i + 1] == PathwayLoading.RoleColumns[i];
    }
  }

  lemma WantedRoles(t: Table)
    requires Wanted(t).Ok?
    ensures |Wanted(t).value| > 4 && forall i :: 0 <= i < 4 ==> Wanted(t).value[i + 1] == PathwayLoading.RoleColumns[i]
  {
    var w := Wanted(t).value;
    assert w[..|InputColumns|] == InputColumns;
    forall i | 0 <= i < 4 ensures w[i + 1] == PathwayLoading.RoleColumns[i] {
      assert w[i + 1] == InputColumns[i + 1];
    }
  }

  /** A prepared frame has the four role columns, each holding its raw part of the path. */
  lemma PreparedRoles(raw: Table, j: nat, i: nat)
    requires Prepared(raw).Ok? && i < 4
    requires j < |Prepared(raw).value.rows|
    ensures var t := Prepared(raw).value;
      PathwayLoading.RoleColumns[i] in t.columns
      && Lookup(t.rows[j], PathwayLoading.RoleColumns[i]) == RawPart(Lookup(RenameRow(raw.rows[j], raw.columns, PathwayLoading.StripLowerAll(raw.columns)), "path"), i)
  {
    RawRolesLookup(RenameRow(raw.rows[j], raw.columns, PathwayLoading.StripLowerAll(raw.columns)), i, "");
  }

  // ---- a frame that shows the discrepancy ----

  /**
   * The columns of a frame comparing groups `x` and `y` when `TO_KEEP` is built:
   * a file with columns `path`, `sigweight_x`, `sigweight_y`, `p_value_x` and
   * `p_value_y`, after the four role columns are assigned.
   */
  const TwoGroupsColumns: seq<string> :=
    ["path", "sigweight_x", "sigweight_y", "p_value_x", "p_value_y", "ligand", "receptor", "em", "target"]

  lemma {:induction false} ShortNoContains(s: string, sub: string)
    requires |s| < |sub|
    ensures !Text.Contains(s, sub)
  {
    if |s| > 0 {
      ShortNoContains(s[1..], sub);
    }
  }

  lemma SplitTwo(a: string, b: string, c: char)
    requires c !in a && c !in b
    ensures Text.Split(a + [c] + b, c) == [a, b]
  {
    assert Text.Join([a, b], c) == a + [c] + b by {
      assert [a, b][1..] == [b];
    }
    Text.SplitJoin([a, b], c);
  }

  lemma SigweightOf(g: string)
    requires '_' !in g
    ensures Text.Contains("sigweight_" + g, "sigweight")
    ensures SecondPart("sigweight_" + g) == Ok(g)
  {
    var s := "sigweight_" + g;
    assert s[..9] == "sigweight";
    assert s == "sigweight" + ['_'] + g;
    assert '_' !in "sigweight";
    SplitTwo("sigweight", g, '_');
  }

  lemma NotSigweight(s: string)
    requires |s| < 9 || (|s| == 9 && s[0] != 's')
    ensures !Text.Contains(s, "sigweight")
  {
    if |s| == 9 {
      assert s[..9] != "sigweight" by { assert s[..9][0] != "sigweight"[0]; }
      ShortNoContains(s[1..], "sigweight");
    } else {
      ShortNoContains(s, "sigweight");
    }
  }

  lemma FirstIndexAt(cols: seq<string>, sub: string, k: nat)
    requires k < |cols| && Text.Contains(cols[k], sub)
    requires forall j :: 0 <= j < k ==> !Text.Contains(cols[j], sub)
    ensures FirstIndexContaining(cols, sub) == Some(k)
  {
  }

  lemma FirstSigweightX(cs: seq<string>)
    requires cs == TwoGroupsColumns
    ensures GroupSuffix(cs, A) == SecondPart(cs[1])
  {
    SigweightAtOne(cs);
    FirstIndexAt(cs, "sigweight", 1);
    FirstSuffixAt(cs, 1);
  }

  lemma SigweightAtOne(cs: seq<string>)
    requires cs == TwoGroupsColumns
    ensures |cs| > 1 && Text.Contains(cs[1], "sigweight") && !Text.Contains(cs[0], "sigweight")
  {
    assert cs[1] == "sigweight_" + "x";
    SigweightOf("x");
    NotSigweight(cs[0]);
  }

  lemma FirstSuffixAt(cols: seq<string>, k: nat)
    requires FirstIndexContaining(cols, "sigweight") == Some(k)
    ensures GroupSuffix(cols, A) == SecondPart(cols[k])
  {
  }

  /** Scanned from the end, the first sigweight name is at position `k` from the start. */
  lemma LastIndexAt(cols: seq<string>, sub: string, k: nat)
    requires k < |cols| && Text.Contains(cols[k], sub)
    requires forall j :: k < j < |cols| ==> !Text.Contains(cols[j], sub)
    ensures FirstIndexContaining(Reverse(cols), sub) == Some(|cols| - 1 - k)
    ensures FirstContaining(Reverse(cols), sub) == Ok(cols[k])
  {
    var rev := Reverse(cols);
    forall j | 0 <= j < |cols| - 1 - k ensures !Text.Contains(rev[j], sub) {
      assert rev[j] == cols[|cols| - 1 - j];
    }
    FirstIndexAt(rev, sub, |cols| - 1 - k);
  }

  lemma NoSigweightAfterY(cs: seq<string>)
    requires cs == TwoGroupsColumns
    ensures Text.Contains(cs[2], "sigweight")
    ensures forall j :: 2 < j < |cs| ==> !Text.Contains(cs[j], "sigweight")
  {
    assert cs[2] == "sigweight_" + "y";
    SigweightOf("y");
    forall j | 2 < j < |cs| ensures !Text.Contains(cs[j], "sigweight") {
      assert j in {3, 4, 5, 6, 7, 8};
      NotSigweight(cs[j]);
    }
  }

  lemma LastSigweightY(cs: seq<string>)
    requires cs == TwoGroupsColumns
    ensures GroupSuffix(cs, B) == SecondPart(cs[2])
  {
    NoSigweightAfterY(cs);
    LastIndexAt(cs, "sigweight", 2);
  }

  lemma TwoGroupsSuffixes(cs: seq<string>)
    requires cs == TwoGroupsColumns
    ensures GroupSuffix(cs, A) == Ok("x") && GroupSuffix(cs, B) == Ok("y")
  {
    FirstSigweightX(cs);
    LastSigweightY(cs);
    SecondParts(cs);
  }

  lemma SecondParts(cs: seq<string>)
    requires cs == TwoGroupsColumns
    ensures SecondPart(cs[1]) == Ok("x") && SecondPart(cs[2]) == Ok("y")
  {
    assert cs[1] == "sigweight_" + "x" && cs[2] == "sigweight_" + "y";
    SigweightOf("x");
    SigweightOf("y");
  }

  /** A lowercase name without whitespace is its own stripped, lowercased form. */
  lemma PlainName(s: string)
    requires forall i :: 0 <= i < |s| ==> 'a' <= s[i] <= 'z' || s[i] == '_'
    ensures PathwayLoading.StripLower(s) == s
  {
    Text.StripNoSpace(s);
    Text.LowerFixed(s);
  }

  /** Distinct new names are appended in order. */
  lemma {:induction false} AddColumnsFresh(columns: seq<string>, added: seq<string>)
    requires Seqs.NoDup(added) && forall i :: 0 <= i < |added| ==> added[i] !in columns
    ensures AddColumns(columns, added) == columns + added
  {
    if |added| > 0 {
      var n := |added| - 1;
      var init := added[..n];
      assert Seqs.NoDup(init);
      AddColumnsFresh(columns, init);
      var c := AddColumns(columns, init);
      assert added[n] !in init;
      assert added[n] !in c;
      assert AddColumns(columns, added) == c + [added[n]];
      assert added == init + [added[n]];
    }
  }

  /**
   * The file's own columns, which stripping and lowercasing leave as they are,
   * named one by one.
   */
  predicate TwoGroupsFile(cs: seq<string>)
  {
    |cs| == 5 && cs[0] == "path" && cs[1] == "sigweight_x" && cs[2] == "sigweight_y"
    && cs[3] == "p_value_x" && cs[4] == "p_value_y"
  }

  lemma FileName(cs: seq<string>, i: nat)
    requires TwoGroupsFile(cs) && i < 5
    ensures PathwayLoading.StripLower(cs[i]) == cs[i]
  {
    PlainName(cs[i]);
  }

  lemma TwoGroupsFileNames(cs: seq<string>)
    requires TwoGroupsFile(cs)
    ensures PathwayLoading.StripLowerAll(cs) == cs
  {
    FileName(cs, 0);
    FileName(cs, 1);
    FileName(cs, 2);
    FileName(cs, 3);
    FileName(cs, 4);
    var r := PathwayLoading.StripLowerAll(cs);
    forall i | 0 <= i < |cs| ensures r[i] == cs[i] {
      assert i in {0, 1, 2, 3, 4};
    }
  }

  lemma RolesAreFresh(cs: seq<string>)
    requires TwoGroupsFile(cs)
    ensures Seqs.NoDup(PathwayLoading.RoleColumns)
    ensures forall i :: 0 <= i < 4 ==> PathwayLoading.RoleColumns[i] !in cs
  {
    var r := PathwayLoading.RoleColumns;
    forall i, j | 0 <= i < j < 4 ensures r[i] != r[j] {
      assert |r[i]| != |r[j]| || r[i][0] != r[j][0];
    }
    forall i | 0 <= i < 4 ensures r[i] !in cs {
      forall k | 0 <= k < |cs| ensures r[i] != cs[k] {
        assert k in {0, 1, 2, 3, 4};
        assert |r[i]| != |cs[k]|;
      }
    }
  }

  /** A file with these columns reaches `TO_KEEP` with the columns of the counterexample. */
  lemma TwoGroupsPrepared(raw: Table) returns (t: Table)
    requires TwoGroupsFile(raw.columns)
    ensures Prepared(raw) == Ok(t) && t.columns == TwoGroupsColumns
  {
    TwoGroupsFacts(raw.columns);
    t := PreparedNormal(raw, TwoGroupsColumns);
  }

  /** Already normalised names, with `path` and none of the (distinct) role columns. */
  predicate NormalWithPath(cs: seq<string>)
  {
    && PathwayLoading.StripLowerAll(cs) == cs && "path" in cs
    && Seqs.NoDup(PathwayLoading.RoleColumns)
    && forall i :: 0 <= i < |PathwayLoading.RoleColumns| ==> PathwayLoading.RoleColumns[i] !in cs
  }

  /** What preparing needs to know of the file's columns. */
  lemma TwoGroupsFacts(cs: seq<string>)
    requires TwoGroupsFile(cs)
    ensures NormalWithPath(cs) && cs + PathwayLoading.RoleColumns == TwoGroupsColumns
  {
    TwoGroupsFileNames(cs);
    WithRoles(cs);
    RolesAreFresh(cs);
  }

  /** A frame whose names are already normalised, with `path` and no role column, gains the four role columns. */
  lemma PreparedNormal(raw: Table, want: seq<string>) returns (t: Table)
    requires NormalWithPath(raw.columns) && raw.columns + PathwayLoading.RoleColumns == want
    ensures Prepared(raw) == Ok(t) && t.columns == want
  {
    AddColumnsFresh(raw.columns, PathwayLoading.RoleColumns);
    t := Prepared(raw).value;
  }

  lemma WithRoles(cs: seq<string>)
    requires TwoGroupsFile(cs)
    ensures "path" in cs && cs + PathwayLoading.RoleColumns == TwoGroupsColumns
  {
    var r := cs + PathwayLoading.RoleColumns;
    forall i | 0 <= i < 9 ensures r[i] == TwoGroupsColumns[i] {
      assert i in {0, 1, 2, 3, 4, 5, 6, 7, 8};
    }
  }

  /** The counterexample: as written, `p_value_y` is lost although the frame has it. */
  lemma TwoGroupsLosesPValueY(t: Table)
    requires t.columns == TwoGroupsColumns
    ensures KeptAsWritten(t).Ok? && "p_value_y" in t.columns
    ensures "p_value_y" !in KeptAsWritten(t).value
  {
    var p := "p_value_" + "y";
    assert p == "p_value_y";
    assert t.columns[4] == p;
    TwoGroupsSuffixes(t.columns);
    AsWrittenLosesGroupB(t, "x", "y");
  }

  /** Corrected, the same frame keeps both `p_value_x` and `p_value_y`. */
  lemma TwoGroupsKeepsBothPValues(t: Table)
    requires t.columns == TwoGroupsColumns
    ensures Kept(t).Ok? && "p_value_x" in Kept(t).value && "p_value_y" in Kept(t).value
  {
    var px, py := "p_value_" + "x", "p_value_" + "y";
    assert px == "p_value_x" && py == "p_value_y";
    assert t.columns[3] == px && t.columns[4] == py;
    TwoGroupsSuffixes(t.columns);
    CorrectedKeepsPValues(t, A);
    CorrectedKeepsPValues(t, B);
  }
  /**
   * End to end: a file with the columns `path`, `sigweight_x`, `sigweight_y`,
   * `p_value_x` and `p_value_y` loads without `p_value_y` as written, and with
   * both p-value columns once corrected.
   */
  lemma TwoGroupsFileLoads(raw: Table)
    requires TwoGroupsFile(raw.columns)
    ensures LoadedInputAsWritten(raw).Ok? && "p_value_y" !in LoadedInputAsWritten(raw).value.columns
    ensures LoadedInput(raw).Ok? && "p_value_x" in LoadedInput(raw).value.columns
      && "p_value_y" in LoadedInput(raw).value.columns
  {
    var t := TwoGroupsPrepared(raw);
    TwoGroupsLosesPValueY(t);
    TwoGroupsKeepsBothPValues(t);
  }
}
