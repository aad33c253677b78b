/**
 * Loading the pathway table: the header scan, the `L*R*EM*T` check, derived role
 * columns, normalised endpoints and the removal of duplicate or incomplete rows
 * (`get_pathways` in `src/incytr_viz/app.py` and `src/incytr_viz/util.py`,
 * `validate_pathways` and `load_pathways` in `src/incytr_viz/i_o.py`).
 */
module PathwayLoading {
  import opened Wrappers
  import Seqs
  import Text
  import opened Frames
  import Headers

  const RoleColumns: seq<string> := ["ligand", "receptor", "em", "target"]

  /** Rows whose stripped `path` does not split into four `*` parts are dropped. */
  const FourParts: Test := SplitsInto("path", '*', 4)

  /** `paths["path"].str.split("*").str[i].str.strip()` for one row. */
  function RoleCell(path: Cell, i: nat): Cell
  {
    if path.Str? then
      match Text.Part(path.s, '*', i)
      case Some(p) => Str(Text.Strip(p))
      case None => NA
    else NA
  }

  /** Assigns the `ligand`, `receptor`, `em` and `target` columns. */
  function AddRoles(row: Row): Row
  {
    var p := Lookup(row, "path");
    row["ligand" := RoleCell(p, 0)]["receptor" := RoleCell(p, 1)]["em" := RoleCell(p, 2)]["target" := RoleCell(p, 3)]
  }

  /** `sender` and `receiver` are stripped and lowercased. */
  function NormalizeEnds(row: Row): Row
  {
    row["sender" := LowerCell(StripCell(Lookup(row, "sender")))]
       ["receiver" := LowerCell(StripCell(Lookup(row, "receiver")))]
  }

  /** `path` becomes `path*sender*receiver`; missing if either endpoint is missing. */
  function ExtendPath(row: Row): Row
  {
    row["path" := CatCell(CatCell(Lookup(row, "path"), Lookup(row, "sender"), "*"), Lookup(row, "receiver"), "*")]
  }

  function NormalizeRow(row: Row): Row
  {
    ExtendPath(NormalizeEnds(AddRoles(row)))
  }

  /** What the row steps of the loaders produce from a table, before any typing. */
  function Normalized(t: Table, naCols: seq<string>): Table
  {
    var kept := Select(t.rows, FourParts);
    Table(AddColumns(t.columns, RoleColumns), DropInvalid(MapRows(kept, NormalizeRow), naCols))
  }

  /** The row steps, one statement of the loaders after another, on a frame. */
  method NormalizeInPlace(f: Frame, naCols: seq<string>)
    modifies f
    ensures f.Value() == Normalized(old(f.Value()), naCols)
  {
    ghost var kept := Select(f.rows, FourParts);
    f.rows := Select(f.rows, FourParts);
    f.rows := MapRows(f.rows, AddRoles);
    f.columns := AddColumns(f.columns, RoleColumns);
    f.rows := MapRows(f.rows, NormalizeEnds);
    f.rows := MapRows(f.rows, ExtendPath);
    assert f.rows == MapRows(kept, NormalizeRow);
    f.rows := DropInvalid(f.rows, naCols);
  }

  /** The role cell of a path whose stripped form has four parts. */
  lemma RoleCellOfFourParts(p: string, i: nat)
    requires |Text.Split(Text.Strip(p), '*')| == 4 && i < 4
    ensures |Text.Split(p, '*')| == 4
    ensures var c := RoleCell(Str(p), i);
      c.Str? && '*' !in c.s && c.s == Text.Strip(Text.Split(p, '*')[i])
      && (|c.s| > 0 ==> !Text.IsSpace(c.s[0]) && !Text.IsSpace(c.s[|c.s| - 1]))
  {
    Text.StripKeepsSplitLength(p, '*');
    var parts := Text.Split(p, '*');
    assert Text.Part(p, '*', i) == Some(parts[i]);
    var part := parts[i];
    assert RoleCell(Str(p), i) == Str(Text.Strip(part));
    StripKeepsAbsent(part, '*');
    var _, _ := Text.StripSlice(part);
  }

  lemma StripKeepsAbsent(s: string, c: char)
    requires c !in s
    ensures c !in Text.Strip(s)
  {
    var a, b := Text.StripSlice(s);
    assert forall k :: 0 <= k < b - a ==> Text.Strip(s)[k] == s[a + k];
  }

  /** The derived columns differ from one another and from the source columns. */
  lemma ColumnNamesDistinct()
    ensures forall i :: 0 <= i < 4 ==> RoleColumns[i] != "path" && RoleColumns[i] != "sender" && RoleColumns[i] != "receiver"
    ensures "path" != "sender" && "path" != "receiver" && "sender" != "receiver"
  {
    assert "path"[0] == 'p' && "sender"[0] == 's' && "receiver"[0] == 'r';
    assert "ligand"[0] == 'l' && "receptor"[1] == 'e' && "em"[0] == 'e' && "target"[0] == 't';
    assert "receptor"[4] == 'p' && "receiver"[4] == 'i';
  }

  lemma AddRolesLookup(row: Row, k: string)
    ensures forall i :: 0 <= i < 4 ==> Lookup(AddRoles(row), RoleColumns[i]) == RoleCell(Lookup(row, "path"), i)
    ensures k !in RoleColumns ==> Lookup(AddRoles(row), k) == Lookup(row, k)
  {
  }

  lemma NormalizeEndsLookup(row: Row, k: string)
    ensures Lookup(NormalizeEnds(row), "sender") == LowerCell(StripCell(Lookup(row, "sender")))
    ensures Lookup(NormalizeEnds(row), "receiver") == LowerCell(StripCell(Lookup(row, "receiver")))
    ensures k != "sender" && k != "receiver" ==> Lookup(NormalizeEnds(row), k) == Lookup(row, k)
  {
    ColumnNamesDistinct();
  }

  lemma ExtendPathLookup(row: Row, k: string)
    ensures Lookup(ExtendPath(row), "path")
      == CatCell(CatCell(Lookup(row, "path"), Lookup(row, "sender"), "*"), Lookup(row, "receiver"), "*")
    ensures k != "path" ==> Lookup(ExtendPath(row), k) == Lookup(row, k)
  {
  }

  /** Which cell each column of a normalised row holds. */
  lemma NormalizeRowLookup(row: Row)
    ensures forall i :: 0 <= i < 4 ==> Lookup(NormalizeRow(row), RoleColumns[i]) == RoleCell(Lookup(row, "path"), i)
    ensures Lookup(NormalizeRow(row), "sender") == LowerCell(StripCell(Lookup(row, "sender")))
    ensures Lookup(NormalizeRow(row), "receiver") == LowerCell(StripCell(Lookup(row, "receiver")))
    ensures Lookup(NormalizeRow(row), "path")
      == CatCell(CatCell(Lookup(row, "path"), LowerCell(StripCell(Lookup(row, "sender"))), "*"),
                 LowerCell(StripCell(Lookup(row, "receiver"))), "*")
  {
    var r1 := AddRoles(row);
    var r2 := NormalizeEnds(r1);
    ColumnNamesDistinct();
    AddRolesLookup(row, "path");
    AddRolesLookup(row, "sender");
    AddRolesLookup(row, "receiver");
    NormalizeEndsLookup(r1, "path");
    ExtendPathLookup(r2, "sender");
    ExtendPathLookup(r2, "receiver");
    forall i | 0 <= i < 4
      ensures Lookup(NormalizeRow(row), RoleColumns[i]) == RoleCell(Lookup(row, "path"), i)
    {
      NormalizeEndsLookup(r1, RoleColumns[i]);
      ExtendPathLookup(r2, RoleColumns[i]);
    }
  }

  /** A four-part path gives every role a text cell, free of `*` and of surrounding whitespace. */
  lemma RolesOfFourPartPath(row: Row, i: nat)
    requires Holds(FourParts, row) && i < 4
    ensures |Text.Split(Lookup(row, "path").s, '*')| == 4
    ensures var c := Lookup(NormalizeRow(row), RoleColumns[i]);
      c.Str? && '*' !in c.s && c.s == Text.Strip(Text.Split(Lookup(row, "path").s, '*')[i])
      && (|c.s| > 0 ==> !Text.IsSpace(c.s[0]) && !Text.IsSpace(c.s[|c.s| - 1]))
  {
    NormalizeRowLookup(row);
    RoleCellOfFourParts(Lookup(row, "path").s, i);
  }

  /** The path is extended with the normalised endpoints. */
  lemma NormalizedPath(row: Row)
    ensures var s := Lookup(NormalizeRow(row), "sender");
      var r := Lookup(NormalizeRow(row), "receiver");
      var p := Lookup(row, "path");
      Lookup(NormalizeRow(row), "path") == (if p.Str? && s.Str? && r.Str? then Str(p.s + "*" + s.s + "*" + r.s) else NA)
  {
    NormalizeRowLookup(row);
  }

  /** Every column other than the path, the endpoints and the roles is kept. */
  lemma NormalizedKeepsOthers(row: Row, k: string)
    requires k in row && k != "path" && k != "sender" && k != "receiver" && k !in RoleColumns
    ensures k in NormalizeRow(row) && NormalizeRow(row)[k] == row[k]
  {
    assert k != "ligand" && k != "receptor" && k != "em" && k != "target";
    var r1 := AddRoles(row);
    assert r1[k] == row[k];
    var r2 := NormalizeEnds(r1);
    assert r2[k] == row[k];
  }

  /** Every loaded row is the normalisation of a four-part input row. */
  lemma NormalizedSound(t: Table, naCols: seq<string>, i: nat)
    requires i < |Normalized(t, naCols).rows|
    ensures exists j :: (0 <= j < |t.rows| && Holds(FourParts, t.rows[j])
      && Normalized(t, naCols).rows[i] == NormalizeRow(t.rows[j]))
  {
    var kept := Select(t.rows, FourParts);
    var mapped := MapRows(kept, NormalizeRow);
    var out := Normalized(t, naCols).rows[i];
    assert out in mapped;
    var m :| 0 <= m < |mapped| && mapped[m] == out;
    assert kept[m] in t.rows;
  }

  /** Every four-part input row whose normalisation has the required values is loaded. */
  lemma NormalizedComplete(t: Table, naCols: seq<string>, j: nat)
    requires j < |t.rows| && Holds(FourParts, t.rows[j]) && !HasNA(NormalizeRow(t.rows[j]), naCols)
    ensures NormalizeRow(t.rows[j]) in Normalized(t, naCols).rows
  {
    var kept := Select(t.rows, FourParts);
    var mapped := MapRows(kept, NormalizeRow);
    var k :| 0 <= k < |kept| && kept[k] == t.rows[j];
    assert mapped[k] == NormalizeRow(t.rows[j]);
  }

  /** No two loaded rows are equal, none misses a required value, and each has its four roles. */
  lemma NormalizedClean(t: Table, naCols: seq<string>)
    ensures Seqs.NoDup(Normalized(t, naCols).rows)
    ensures forall i :: 0 <= i < |Normalized(t, naCols).rows| ==> !HasNA(Normalized(t, naCols).rows[i], naCols)
    ensures forall i, k :: 0 <= i < |Normalized(t, naCols).rows| && 0 <= k < 4 ==>
      Lookup(Normalized(t, naCols).rows[i], RoleColumns[k]).Str?
  {
    forall i, k | 0 <= i < |Normalized(t, naCols).rows| && 0 <= k < 4
      ensures Lookup(Normalized(t, naCols).rows[i], RoleColumns[k]).Str?
    {
      NormalizedSound(t, naCols, i);
      var j :| 0 <= j < |t.rows| && Holds(FourParts, t.rows[j]) && Normalized(t, naCols).rows[i] == NormalizeRow(t.rows[j]);
      RolesOfFourPartPath(t.rows[j], k);
    }
  }

  // ---- src/incytr_viz/app.py and src/incytr_viz/util.py: get_pathways ----

  datatype PathwayInput = PathwayInput(groupA: string, groupB: string, paths: Table)

  /** The columns whose missing values make a row invalid in `get_pathways`. */
  function MetricColumns(a: string, b: string): seq<string>
  {
    ["afc", "sigprob_" + a, "sigprob_" + b]
  }

  /** `read_csv(usecols=keep)` followed by `paths.columns = format_headers(paths.columns)`. */
  function ReadFormatted(raw: Table, keep: seq<string>): Table
  {
    var names := Headers.FormatHeaders(keep);
    Table(names, RenameRows(raw.rows, keep, names))
  }

  /** `get_pathways` of `src/incytr_viz/app.py`, on the file's header row and rows. */
  function LoadedApp(raw: Table, a: string, b: string): Result<PathwayInput>
  {
    var keep :- Headers.HeaderSelection(raw.columns, Headers.Required(a, b), Headers.OptionalKinase(a, b));
    Ok(PathwayInput(a, b, Normalized(ReadFormatted(raw, keep), MetricColumns(a, b))))
  }

  method GetPathwaysApp(raw: Table, a: string, b: string) returns (r: Result<PathwayInput>)
    ensures r == LoadedApp(raw, a, b)
  {
    var keep := Headers.ParsePathwayHeaders(raw.columns, Headers.Required(a, b), Headers.OptionalKinase(a, b));
    if keep.Err? {
      return Err(keep.error);
    }
    var f := new Frame(ReadFormatted(raw, keep.value));
    NormalizeInPlace(f, MetricColumns(a, b));
    r := Ok(PathwayInput(a, b, f.Value()));
  }

  /** A successful load has every required column, and only loaded rows that are clean. */
  lemma LoadedAppClean(raw: Table, a: string, b: string)
    requires LoadedApp(raw, a, b).Ok?
    ensures Headers.AllIn(Headers.Required(a, b), LoadedApp(raw, a, b).value.paths.columns)
    ensures Headers.AllIn(RoleColumns, LoadedApp(raw, a, b).value.paths.columns)
    ensures var rows := LoadedApp(raw, a, b).value.paths.rows;
      Seqs.NoDup(rows) && forall i :: 0 <= i < |rows| ==> !HasNA(rows[i], MetricColumns(a, b))
  {
    var keep := Headers.HeaderSelection(raw.columns, Headers.Required(a, b), Headers.OptionalKinase(a, b)).value;
    Headers.SelectedCoverRequired(raw.columns, Headers.Required(a, b), Headers.OptionalKinase(a, b));
    NormalizedClean(ReadFormatted(raw, keep), MetricColumns(a, b));
  }

  /** The kinase indicator columns of `src/incytr_viz/util.py`. */
  const SikColumns: seq<string> :=
    ["sik_r_of_em", "sik_r_of_t", "sik_em_of_t", "sik_em_of_r", "sik_t_of_r", "sik_t_of_em"]

  /** `replace([0, "NA", "nan", False], "")` on one cell (`False == 0` in Python). */
  function ClearIndicator(c: Cell): Cell
  {
    if c == Num(0.0) || c == Str("NA") || c == Str("nan") then Str("") else c
  }

  predicate Cleared(c: Cell)
  {
    c != Num(0.0) && c != Str("NA") && c != Str("nan")
  }

  function ClearInRow(row: Row, col: string): Row
  {
    if col in row then row[col := ClearIndicator(row[col])] else row
  }

  function ClearColumn(rows: seq<Row>, col: string): (r: seq<Row>)
    ensures |r| == |rows| && forall i :: 0 <= i < |rows| ==> r[i] == ClearInRow(rows[i], col)
  {
    MapRows(rows, (row: Row) => ClearInRow(row, col))
  }

  function ClearColumns(rows: seq<Row>, cols: seq<string>): (r: seq<Row>)
    ensures |r| == |rows|
    decreases |cols|
  {
    if |cols| == 0 then rows else ClearColumns(ClearColumn(rows, cols[0]), cols[1..])
  }

  /** The kinase replace loop of `get_pathways`: every present indicator column is cleared. */
  method ReplaceKinaseValues(f: Frame)
    modifies f
    ensures f.columns == old(f.columns)
    ensures f.rows == ClearColumns(old(f.rows), Present(SikColumns, old(f.columns)))
  {
    var i := 0;
    while i < |SikColumns|
      invariant 0 <= i <= |SikColumns| && f.columns == old(f.columns)
      invariant ClearColumns(f.rows, Present(SikColumns[i..], f.columns))
        == ClearColumns(old(f.rows), Present(SikColumns, f.columns))
    {
      var col := SikColumns[i];
      ClearStep(f.rows, SikColumns[i..], f.columns);
      assert SikColumns[i..][1..] == SikColumns[i + 1..];
      if col in f.columns {
        f.rows := ClearColumn(f.rows, col);
      }
      i := i + 1;
    }
  }

  /** One turn of the replace loop. */
  lemma ClearStep(rows: seq<Row>, wanted: seq<string>, columns: seq<string>)
    requires |wanted| > 0
    ensures ClearColumns(rows, Present(wanted, columns))
      == ClearColumns(if wanted[0] in columns then ClearColumn(rows, wanted[0]) else rows, Present(wanted[1..], columns))
  {
    if wanted[0] in columns {
      var rest := Present(wanted[1..], columns);
      assert Present(wanted, columns) == [wanted[0]] + rest;
      assert ([wanted[0]] + rest)[1..] == rest;
    } else {
      assert Present(wanted, columns) == Present(wanted[1..], columns);
    }
  }

  /** Once cleared, an indicator stays cleared: no 0, `"NA"` or `"nan"` is left in the cleared columns. */
  lemma {:induction false} ClearColumnsClears(rows: seq<Row>, cols: seq<string>, i: nat, c: nat)
    requires i < |rows| && c < |cols| && cols[c] in rows[i]
    ensures cols[c] in ClearColumns(rows, cols)[i] && Cleared(ClearColumns(rows, cols)[i][cols[c]])
    decreases |cols|
  {
    var once := ClearColumn(rows, cols[0]);
    if c == 0 {
      StaysCleared(once, cols[1..], i, cols[0]);
    } else {
      ClearColumnsClears(once, cols[1..], i, c - 1);
    }
  }

  lemma {:induction false} StaysCleared(rows: seq<Row>, cols: seq<string>, i: nat, col: string)
    requires i < |rows| && col in rows[i] && Cleared(rows[i][col])
    ensures col in ClearColumns(rows, cols)[i] && Cleared(ClearColumns(rows, cols)[i][col])
    decreases |cols|
  {
    if |cols| > 0 {
      StaysCleared(ClearColumn(rows, cols[0]), cols[1..], i, col);
    }
  }

  /** `get_pathways` of `src/incytr_viz/util.py`: the same load with `sik_*` columns, then the replace loop. */
  function LoadedSik(raw: Table, a: string, b: string): Result<PathwayInput>
  {
    var keep :- Headers.HeaderSelection(raw.columns, Headers.Required(a, b), Headers.OptionalSik(a, b));
    var t := Normalized(ReadFormatted(raw, keep), MetricColumns(a, b));
    Ok(PathwayInput(a, b, Table(t.columns, ClearColumns(t.rows, Present(SikColumns, t.columns)))))
  }

  method GetPathwaysSik(raw: Table, a: string, b: string) returns (r: Result<PathwayInput>)
    ensures r == LoadedSik(raw, a, b)
  {
    var keep := Headers.ParsePathwayHeaders(raw.columns, Headers.Required(a, b), Headers.OptionalSik(a, b));
    if keep.Err? {
      return Err(keep.error);
    }
    var f := new Frame(ReadFormatted(raw, keep.value));
    NormalizeInPlace(f, MetricColumns(a, b));
    ReplaceKinaseValues(f);
    r := Ok(PathwayInput(a, b, f.Value()));
  }

  // ---- src/incytr_viz/i_o.py: validate_pathways, load_pathways ----

  function StripLower(s: string): string
  {
    Text.Lower(Text.Strip(s))
  }

  function StripLowerAll(cols: seq<string>): (r: seq<string>)
    ensures |r| == |cols|
    ensures forall i :: 0 <= i < |cols| ==> r[i] == StripLower(cols[i])
  {
    if |cols| == 0 then [] else [StripLower(cols[0])] + StripLowerAll(cols[1..])
  }

  /** What `validate_pathways` returns for a raw table, before its columns are renamed. */
  function Validated(raw: Table, a: string, b: string): Result<Table>
  {
    var cols := StripLowerAll(raw.columns);
    var t := Table(cols, RenameRows(raw.rows, raw.columns, cols));
    var required := Headers.Required(a, b);
    if !Headers.AllIn(required, cols) then Err(ValueError("Required columns not found in pathways file"))
    else Ok(Normalized(Project(t, Present(required + Headers.OptionalKinase(a, b), cols)), required))
  }

  /**
   * `validate_pathways`: renames `raw`'s columns in place, checks the required
   * columns, projects onto the known columns and runs the row steps.
   */
  method ValidatePathways(raw: Frame, a: string, b: string) returns (r: Result<Table>)
    modifies raw
    ensures raw.columns == StripLowerAll(old(raw.columns))
    ensures raw.rows == RenameRows(old(raw.rows), old(raw.columns), raw.columns)
    ensures r == Validated(old(raw.Value()), a, b)
  {
    var cols := StripLowerAll(raw.columns);
    raw.rows := RenameRows(raw.rows, raw.columns, cols);
    raw.columns := cols;
    var required := Headers.Required(a, b);
    var optional := Headers.OptionalKinase(a, b);
    var ok := Headers.RequiredFound(raw.columns, required, optional);
    if !ok {
      return Err(ValueError("Required columns not found in pathways file"));
    }
    var paths := new Frame(Project(raw.Value(), Present(required + optional, raw.columns)));
    NormalizeInPlace(paths, required);
    r := Ok(paths.Value());
  }

  /** `ValueError` exactly when a required column is missing after strip and lowercase. */
  lemma ValidatedFails(raw: Table, a: string, b: string)
    ensures Validated(raw, a, b).Err?
      <==> exists i :: 0 <= i < 6 && Headers.Required(a, b)[i] !in StripLowerAll(raw.columns)
  {
  }

  /** The result's columns are the present known columns in list order, then the role columns. */
  lemma ValidatedColumns(raw: Table, a: string, b: string)
    requires Validated(raw, a, b).Ok?
    ensures var known := Present(Headers.Required(a, b) + Headers.OptionalKinase(a, b), StripLowerAll(raw.columns));
      var cols := Validated(raw, a, b).value.columns;
      |cols| >= |known| && cols[..|known|] == known && Headers.AllIn(Headers.Required(a, b), known)
  {
    var required := Headers.Required(a, b);
    var known := Present(required + Headers.OptionalKinase(a, b), StripLowerAll(raw.columns));
    forall i | 0 <= i < |required| ensures required[i] in known {
      assert (required + Headers.OptionalKinase(a, b))[i] == required[i];
    }
  }

  /** Rows of a successful validation are distinct and hold all six required values. */
  lemma ValidatedClean(raw: Table, a: string, b: string)
    requires Validated(raw, a, b).Ok?
    ensures var rows := Validated(raw, a, b).value.rows;
      Seqs.NoDup(rows) && forall i :: 0 <= i < |rows| ==> !HasNA(rows[i], Headers.Required(a, b))
  {
    var cols := StripLowerAll(raw.columns);
    var t := Table(cols, RenameRows(raw.rows, raw.columns, cols));
    var required := Headers.Required(a, b);
    NormalizedClean(Project(t, Present(required + Headers.OptionalKinase(a, b), cols)), required);
  }

  datatype Input = Input(groupA: string, groupB: string, paths: Table,
                         hasTprs: bool, hasPrs: bool, hasPValue: bool, hasUmap: bool)

  /** `PathwayInput.__init__` of `src/incytr_viz/i_o.py`: the validated table and its feature flags. */
  function MakeInput(a: string, b: string, paths: Table): Input
  {
    Input(a, b, paths, "tprs" in paths.columns, "prs" in paths.columns,
          "p_value_" + a in paths.columns && "p_value_" + b in paths.columns,
          "umap1" in paths.columns && "umap2" in paths.columns)
  }

  /** `load_pathways`: the group names are lowercased before validation. */
  method LoadPathways(raw: Frame, groups: seq<string>) returns (r: Result<Input>)
    modifies raw
    ensures |groups| < 2 ==> r == Err(IndexError)
    ensures |groups| >= 2 ==> r.Ok? == Validated(old(raw.Value()), Text.Lower(groups[0]), Text.Lower(groups[1])).Ok?
    ensures r.Ok? ==> r.value.groupA == Text.Lower(groups[0]) && r.value.groupB == Text.Lower(groups[1])
    ensures r.Ok? ==> r.value == MakeInput(Text.Lower(groups[0]), Text.Lower(groups[1]),
                                           Validated(old(raw.Value()), Text.Lower(groups[0]), Text.Lower(groups[1])).value)
    ensures r.Err? && |groups| >= 2 ==> r.error == Validated(old(raw.Value()), Text.Lower(groups[0]), Text.Lower(groups[1])).error
    ensures |groups| < 2 ==> raw.columns == old(raw.columns) && raw.rows == old(raw.rows)
    ensures |groups| >= 2 ==> raw.columns == StripLowerAll(old(raw.columns))
    ensures |groups| >= 2 ==> raw.rows == RenameRows(old(raw.rows), old(raw.columns), raw.columns)
  {
    if |groups| < 2 {
      return Err(IndexError);
    }
    var a, b := Text.Lower(groups[0]), Text.Lower(groups[1]);
    var paths := ValidatePathways(raw, a, b);
    if paths.Err? {
      return Err(paths.error);
    }
    r := Ok(MakeInput(a, b, paths.value));
  }
}
