/**
 * A pandas DataFrame as the modelled code uses it: named columns, rows that map a
 * column name to a cell, and boolean-mask selection `df[mask]`.
 */
module Frames {
  import opened Wrappers
  import Seqs
  import Text

  /** A cell: text, a number, or missing (`NaN`/`None`). */
  datatype Cell = Str(s: string) | Num(x: real) | NA

  type Row = map<string, Cell>

  datatype Table = Table(columns: seq<string>, rows: seq<Row>)

  /** Every row holds exactly the table's columns, and no column name repeats. */
  predicate WellFormed(t: Table)
  {
    Seqs.NoDup(t.columns)
    && forall i :: 0 <= i < |t.rows| ==> t.rows[i].Keys == set c | c in t.columns
  }

  function Lookup(row: Row, c: string): Cell
  {
    if c in row then row[c] else NA
  }

  /** `df[c]` as a list of cells. */
  function Column(rows: seq<Row>, c: string): (r: seq<Cell>)
    ensures |r| == |rows|
    ensures forall i :: 0 <= i < |rows| ==> r[i] == Lookup(rows[i], c)
  {
    if |rows| == 0 then [] else [Lookup(rows[0], c)] + Column(rows[1..], c)
  }

  /** `df[c].unique()`: the distinct values of a column, missing values included. */
  function Unique(rows: seq<Row>, c: string): seq<Cell>
  {
    Seqs.Dedup(Column(rows, c))
  }

  // ---- element-wise string accessors (`.str.strip()`, `.str.lower()`, `.str.cat`) ----

  /** `.str.strip()` on one cell; a non-text cell becomes missing. */
  function StripCell(c: Cell): Cell
  {
    if c.Str? then Str(Text.Strip(c.s)) else NA
  }

  function LowerCell(c: Cell): Cell
  {
    if c.Str? then Str(Text.Lower(c.s)) else NA
  }

  /** `a.str.cat(b, sep=sep)`: missing if either side is missing. */
  function CatCell(a: Cell, b: Cell, sep: string): (r: Cell)
    ensures r.Str? <==> a.Str? && b.Str?
    ensures r.Str? ==> r.s == a.s + sep + b.s
  {
    if a.Str? && b.Str? then Str(a.s + sep + b.s) else NA
  }

  // ---- row predicates: the masks the modelled code builds ----

  /**
   * One boolean mask over a row. A comparison of a missing or text cell is
   * false, as pandas' comparison of `NaN` is; `isin` finds missing values
   * among missing values, as pandas does.
   */
  datatype Test =
    | AtLeast(col: string, bound: real)                       // v >= bound
    | AtMost(col: string, bound: real)                        // v <= bound
    | Above(col: string, bound: real)                         // v > bound
    | Below(col: string, bound: real)                         // v < bound
    | Between(col: string, lo: real, hi: real)                // lo <= v <= hi
    | Outside(col: string, lo: real, hi: real)                // v <= lo | v >= hi
    | AbsAtLeast(col: string, bound: real)                    // abs(v) >= bound
    | AbsAbove(col: string, bound: real)                      // abs(v) > bound
    | OneOf(col: string, vals: seq<Cell>)                     // v.isin(vals)
    | AnyOneOf(cols: seq<string>, vals: seq<Cell>)           // OR of isin over cols
    | NotBlank(col: string)                                   // v != ""
    | SplitsInto(col: string, sep: char, n: nat)              // v.str.strip().str.split(sep).str.len() == n
    | Nothing                                                 // iloc[0:0]

  function Abs(x: real): real { if x < 0.0 then -x else x }

  predicate Holds(t: Test, row: Row)
  {
    match t
    case AtLeast(c, b) => Lookup(row, c).Num? && Lookup(row, c).x >= b
    case AtMost(c, b) => Lookup(row, c).Num? && Lookup(row, c).x <= b
    case Above(c, b) => Lookup(row, c).Num? && Lookup(row, c).x > b
    case Below(c, b) => Lookup(row, c).Num? && Lookup(row, c).x < b
    case Between(c, lo, hi) => Lookup(row, c).Num? && lo <= Lookup(row, c).x <= hi
    case Outside(c, lo, hi) => Lookup(row, c).Num? && (Lookup(row, c).x <= lo || Lookup(row, c).x >= hi)
    case AbsAtLeast(c, b) => Lookup(row, c).Num? && Abs(Lookup(row, c).x) >= b
    case AbsAbove(c, b) => Lookup(row, c).Num? && Abs(Lookup(row, c).x) > b
    case OneOf(c, vals) => Lookup(row, c) in vals
    case AnyOneOf(cs, vals) => exists i :: 0 <= i < |cs| && Lookup(row, cs[i]) in vals
    case NotBlank(c) => Lookup(row, c) != Str("")
    case SplitsInto(c, sep, n) => Lookup(row, c).Str? && |Text.Split(Text.Strip(Lookup(row, c).s), sep)| == n
    case Nothing => false
  }

  /** The columns a mask reads; pandas raises `KeyError` when one is absent. */
  function TestColumns(t: Test): seq<string>
  {
    match t
    case AnyOneOf(cs, _) => cs
    case Nothing => []
    case _ => [t.col]
  }

  /** `df[mask]`: the rows that satisfy the mask, in order. */
  function Select(rows: seq<Row>, t: Test): (r: seq<Row>)
    ensures |r| <= |rows|
    ensures forall i :: 0 <= i < |r| ==> r[i] in rows && Holds(t, r[i])
    ensures forall i :: 0 <= i < |rows| && Holds(t, rows[i]) ==> rows[i] in r
  {
    if |rows| == 0 then []
    else if Holds(t, rows[0]) then [rows[0]] + Select(rows[1..], t)
    else Select(rows[1..], t)
  }

  /** The first column in `cols` that the table lacks, if any. */
  function FirstMissing(columns: seq<string>, cols: seq<string>): (r: Option<string>)
    ensures r.None? <==> forall i :: 0 <= i < |cols| ==> cols[i] in columns
    ensures r.Some? ==> r.value in cols && r.value !in columns
  {
    if |cols| == 0 then None
    else if cols[0] !in columns then Some(cols[0])
    else FirstMissing(columns, cols[1..])
  }

  /** `df = df[mask]`, raising `KeyError` when the mask reads an absent column. */
  function Where(t: Table, test: Test): (r: Result<Table>)
    ensures r.Ok? <==> forall i :: 0 <= i < |TestColumns(test)| ==> TestColumns(test)[i] in t.columns
    ensures r.Ok? ==> r.value.columns == t.columns && r.value.rows == Select(t.rows, test)
    ensures r.Err? ==> r.error.KeyError? && r.error.key in TestColumns(test) && r.error.key !in t.columns
  {
    match FirstMissing(t.columns, TestColumns(test))
    case Some(c) => Err(KeyError(c))
    case None => Ok(Table(t.columns, Select(t.rows, test)))
  }

  predicate HoldsAll(tests: seq<Test>, row: Row)
  {
    forall i :: 0 <= i < |tests| ==> Holds(tests[i], row)
  }

  /** One mask that is the conjunction of several. */
  function SelectAll(rows: seq<Row>, tests: seq<Test>): (r: seq<Row>)
    ensures forall i :: 0 <= i < |r| ==> r[i] in rows && HoldsAll(tests, r[i])
    ensures forall i :: 0 <= i < |rows| && HoldsAll(tests, rows[i]) ==> rows[i] in r
  {
    if |rows| == 0 then []
    else if HoldsAll(tests, rows[0]) then [rows[0]] + SelectAll(rows[1..], tests)
    else SelectAll(rows[1..], tests)
  }

  /** `df = df[m1]; df = df[m2]; ...`: masks applied one after another. */
  function Chain(rows: seq<Row>, tests: seq<Test>): seq<Row>
    decreases |tests|
  {
    if |tests| == 0 then rows else Chain(Select(rows, tests[0]), tests[1..])
  }

  lemma {:induction false} SelectAllSplit(rows: seq<Row>, t: Test, rest: seq<Test>)
    ensures SelectAll(Select(rows, t), rest) == SelectAll(rows, [t] + rest)
  {
    if |rows| > 0 {
      SelectAllSplit(rows[1..], t, rest);
      assert HoldsAll([t] + rest, rows[0]) <==> Holds(t, rows[0]) && HoldsAll(rest, rows[0]) by {
        assert forall i :: 0 <= i < |rest| ==> ([t] + rest)[i + 1] == rest[i];
        assert ([t] + rest)[0] == t;
      }
    }
  }

  lemma {:induction false} SelectAllNone(rows: seq<Row>)
    ensures SelectAll(rows, []) == rows
  {
    if |rows| > 0 { SelectAllNone(rows[1..]); }
  }

  /** A chain of reassignments keeps exactly the rows that pass every mask, in order. */
  lemma {:induction false} ChainIsConjunction(rows: seq<Row>, tests: seq<Test>)
    ensures Chain(rows, tests) == SelectAll(rows, tests)
    decreases |tests|
  {
    if |tests| == 0 {
      SelectAllNone(rows);
    } else {
      ChainIsConjunction(Select(rows, tests[0]), tests[1..]);
      SelectAllSplit(rows, tests[0], tests[1..]);
      assert [tests[0]] + tests[1..] == tests;
    }
  }

  /** Applying the same mask twice changes nothing the second time. */
  lemma {:induction false} SelectIdempotent(rows: seq<Row>, t: Test)
    ensures Select(Select(rows, t), t) == Select(rows, t)
  {
    if |rows| > 0 { SelectIdempotent(rows[1..], t); }
  }

  /** A mask every row passes keeps the rows as they are. */
  lemma {:induction false} SelectAllPass(rows: seq<Row>, t: Test)
    requires forall i :: 0 <= i < |rows| ==> Holds(t, rows[i])
    ensures Select(rows, t) == rows
  {
    if |rows| > 0 { SelectAllPass(rows[1..], t); }
  }

  /** A weaker mask keeps at least the rows a stronger one keeps. */
  lemma {:induction false} SelectMonotone(rows: seq<Row>, strong: Test, weak: Test)
    requires forall r: Row :: Holds(strong, r) ==> Holds(weak, r)
    ensures |Select(rows, strong)| <= |Select(rows, weak)|
    ensures forall i :: 0 <= i < |Select(rows, strong)| ==> Select(rows, strong)[i] in Select(rows, weak)
  {
    if |rows| > 0 { SelectMonotone(rows[1..], strong, weak); }
  }

  /** `df[c] = f(df)` row by row. */
  function MapRows(rows: seq<Row>, f: Row -> Row): (r: seq<Row>)
    ensures |r| == |rows|
    ensures forall i :: 0 <= i < |rows| ==> r[i] == f(rows[i])
  {
    if |rows| == 0 then [] else [f(rows[0])] + MapRows(rows[1..], f)
  }

  /** A new column goes to the end; assigning an existing one keeps its place. */
  function AddColumns(columns: seq<string>, added: seq<string>): (r: seq<string>)
    ensures |r| >= |columns| && r[..|columns|] == columns
    ensures forall i :: 0 <= i < |added| ==> added[i] in r
    ensures forall i :: 0 <= i < |r| ==> r[i] in columns || r[i] in added
    ensures Seqs.NoDup(columns) ==> Seqs.NoDup(r)
  {
    if |added| == 0 then columns
    else
      var n := |added| - 1;
      var c := AddColumns(columns, added[..n]);
      assert forall i :: 0 <= i < n ==> added[i] == added[..n][i];
      if added[n] in c then c else c + [added[n]]
  }

  /**
   * Reading the columns `olds` of a row under the new names `news`
   * (`usecols` followed by `df.columns = ...`). Of two equal new names the
   * first one is read.
   */
  function RenameRow(row: Row, olds: seq<string>, news: seq<string>): (r: Row)
    requires |olds| == |news|
    ensures forall k :: k in r <==> k in news
  {
    if |olds| == 0 then map[]
    else
      var r0 := RenameRow(row, olds[1..], news[1..]);
      r0[news[0] := Lookup(row, olds[0])]
  }

  /** Each new name holds the cell of the old column at its first position. */
  lemma {:induction false} RenameRowAt(row: Row, olds: seq<string>, news: seq<string>, i: nat)
    requires |olds| == |news| && i < |news| && news[i] !in news[..i]
    ensures RenameRow(row, olds, news)[news[i]] == Lookup(row, olds[i])
  {
    if i > 0 {
      assert news[0] != news[i] by { assert news[..i][0] == news[0]; }
      assert news[1..][..i - 1] == news[1..i];
      assert news[..i] == [news[0]] + news[1..i];
      RenameRowAt(row, olds[1..], news[1..], i - 1);
    }
  }

  /** A name that only ever renames itself reads the same cell after the renaming. */
  lemma {:induction false} RenameRowKeeps(row: Row, olds: seq<string>, news: seq<string>, k: string)
    requires |olds| == |news|
    requires forall i :: 0 <= i < |news| && news[i] == k ==> olds[i] == k
    ensures Lookup(RenameRow(row, olds, news), k) == if k in news then Lookup(row, k) else NA
  {
    if |olds| > 0 {
      assert forall i :: 0 <= i < |news| - 1 ==> news[1..][i] == news[i + 1] && olds[1..][i] == olds[i + 1];
      RenameRowKeeps(row, olds[1..], news[1..], k);
      assert news == [news[0]] + news[1..];
    }
  }

  function RenameRows(rows: seq<Row>, olds: seq<string>, news: seq<string>): (r: seq<Row>)
    requires |olds| == |news|
    ensures |r| == |rows|
    ensures forall i :: 0 <= i < |rows| ==> r[i] == RenameRow(rows[i], olds, news)
  {
    if |rows| == 0 then [] else [RenameRow(rows[0], olds, news)] + RenameRows(rows[1..], olds, news)
  }

  /** `df[cols]`: the listed columns, in that order. */
  function Project(t: Table, cols: seq<string>): Table
  {
    Table(cols, RenameRows(t.rows, cols, cols))
  }

  /** A DataFrame object that is updated in place. */
  class Frame {
    var columns: seq<string>
    var rows: seq<Row>

    constructor (t: Table)
      ensures columns == t.columns && rows == t.rows
    {
      columns := t.columns;
      rows := t.rows;
    }

    function Value(): Table
      reads this
    {
      Table(columns, rows)
    }
  }

  /** The wanted names that the table has, in the order wanted. */
  function Present(wanted: seq<string>, columns: seq<string>): (r: seq<string>)
    ensures forall i :: 0 <= i < |r| ==> r[i] in wanted && r[i] in columns
    ensures forall i :: 0 <= i < |wanted| && wanted[i] in columns ==> wanted[i] in r
  {
    if |wanted| == 0 then []
    else (if wanted[0] in columns then [wanted[0]] else []) + Present(wanted[1..], columns)
  }

  // ---- invalid-row removal (`df[~(df.duplicated() | df[cols].isna().any(axis=1))]`) ----

  predicate HasNA(row: Row, cols: seq<string>)
  {
    exists i :: 0 <= i < |cols| && Lookup(row, cols[i]) == NA
  }

  /**
   * Removes every row equal to an earlier row over all columns (`duplicated()`,
   * first occurrence kept, missing values equal to each other) and every row with
   * a missing value in one of `cols`.
   */
  function DropInvalid(rows: seq<Row>, cols: seq<string>): (r: seq<Row>)
    ensures Seqs.NoDup(r)
    ensures forall i :: 0 <= i < |r| ==> r[i] in rows && !HasNA(r[i], cols)
    ensures forall i :: 0 <= i < |rows| && !HasNA(rows[i], cols) ==> rows[i] in r
  {
    if |rows| == 0 then []
    else
      var n := |rows| - 1;
      var init := DropInvalid(rows[..n], cols);
      var x := rows[n];
      if x in rows[..n] || HasNA(x, cols) then init else init + [x]
  }
}
