/**
 * A chain of `df = df[mask]` reassignments in which a step can also raise: a mask
 * that reads an absent column raises `KeyError`, and a step that indexes a list
 * or a dictionary it was given can raise before any mask is built.
 */
module Chains {
  import opened Wrappers
  import opened Frames

  datatype Stage = Apply(test: Test) | Fail(error: Error)

  /** Runs the stages one after another; the first error ends the chain. */
  function Run(t: Table, stages: seq<Stage>): Result<Table>
    decreases |stages|
  {
    if |stages| == 0 then Ok(t)
    else match stages[0]
      case Fail(e) => Err(e)
      case Apply(test) =>
        var t1 :- Where(t, test);
        Run(t1, stages[1..])
  }

  /** The masks of the stages, in order. */
  function Tests(stages: seq<Stage>): (r: seq<Test>)
    ensures |r| <= |stages|
  {
    if |stages| == 0 then []
    else if stages[0].Apply? then [stages[0].test] + Tests(stages[1..])
    else Tests(stages[1..])
  }

  /** The chain raises nothing on a table with these columns. */
  predicate Runs(columns: seq<string>, stages: seq<Stage>)
  {
    forall i :: 0 <= i < |stages| ==>
      stages[i].Apply? && forall k :: 0 <= k < |TestColumns(stages[i].test)| ==> TestColumns(stages[i].test)[k] in columns
  }

  /**
   * The chain succeeds exactly when no stage fails and every mask finds its
   * columns, and then keeps the columns and exactly the rows that pass every mask.
   */
  lemma {:induction false} RunCharacterised(t: Table, stages: seq<Stage>)
    ensures Run(t, stages).Ok? <==> Runs(t.columns, stages)
    ensures Run(t, stages).Ok? ==> Run(t, stages).value == Table(t.columns, SelectAll(t.rows, Tests(stages)))
    decreases |stages|
  {
    if |stages| == 0 {
      SelectAllNone(t.rows);
    } else {
      RunsCons(t.columns, stages);
      if stages[0].Apply? {
        var test := stages[0].test;
        var w := Where(t, test);
        if w.Ok? {
          RunCharacterised(w.value, stages[1..]);
          SelectAllSplit(t.rows, test, Tests(stages[1..]));
          assert Tests(stages) == [test] + Tests(stages[1..]);
        }
      }
    }
  }

  /** A chain runs when its first stage is a mask that finds its columns and the rest runs. */
  lemma RunsCons(columns: seq<string>, stages: seq<Stage>)
    requires |stages| > 0
    ensures Runs(columns, stages) <==> (stages[0].Apply?
      && (forall k :: 0 <= k < |TestColumns(stages[0].test)| ==> TestColumns(stages[0].test)[k] in columns)
      && Runs(columns, stages[1..]))
  {
    assert forall i :: 0 < i < |stages| ==> stages[i] == stages[1..][i - 1];
  }

  /** `e` is what this stage raises on a table with these columns. */
  predicate RaisedBy(e: Error, stage: Stage, columns: seq<string>)
  {
    stage == Fail(e)
    || (stage.Apply? && e.KeyError? && e.key in TestColumns(stage.test) && e.key !in columns)
  }

  /** The error a failing chain raises comes from one of its stages. */
  lemma {:induction false} RunError(t: Table, stages: seq<Stage>) returns (i: nat)
    requires Run(t, stages).Err?
    ensures i < |stages| && RaisedBy(Run(t, stages).error, stages[i], t.columns)
    ensures forall j :: 0 <= j < i ==> stages[j].Apply?
    decreases |stages|
  {
    if stages[0].Apply? {
      var w := Where(t, stages[0].test);
      if w.Ok? {
        var k := RunError(w.value, stages[1..]);
        i := k + 1;
        assert stages[i] == stages[1..][k];
        assert forall j :: 1 <= j < i ==> stages[j] == stages[1..][j - 1];
      } else {
        i := 0;
      }
    } else {
      i := 0;
    }
  }

  /** Rows that pass every mask of a list also pass every mask of a weaker list. */
  lemma {:induction false} SelectAllMonotone(rows: seq<Row>, strong: seq<Test>, weak: seq<Test>)
    requires forall r: Row :: HoldsAll(strong, r) ==> HoldsAll(weak, r)
    ensures |SelectAll(rows, strong)| <= |SelectAll(rows, weak)|
    ensures forall i :: 0 <= i < |SelectAll(rows, strong)| ==> SelectAll(rows, strong)[i] in SelectAll(rows, weak)
  {
    if |rows| > 0 {
      SelectAllMonotone(rows[1..], strong, weak);
    }
  }

  /** Running the masks a second time over the result changes nothing. */
  lemma {:induction false} SelectAllIdempotent(rows: seq<Row>, tests: seq<Test>)
    ensures SelectAll(SelectAll(rows, tests), tests) == SelectAll(rows, tests)
  {
    if |rows| > 0 {
      SelectAllIdempotent(rows[1..], tests);
    }
  }

  lemma {:induction false} TestsAppend(s: seq<Stage>, t: seq<Stage>)
    ensures Tests(s + t) == Tests(s) + Tests(t)
  {
    if |s| > 0 {
      assert (s + t)[1..] == s[1..] + t;
      TestsAppend(s[1..], t);
    } else {
      assert s + t == t;
    }
  }

  lemma {:induction false} TestsContain(stages: seq<Stage>, test: Test)
    requires Apply(test) in stages
    ensures test in Tests(stages)
  {
    if stages[0] != Apply(test) {
      TestsContain(stages[1..], test);
    }
  }

  /** Every row a chain keeps comes from its input and passes each of its masks. */
  lemma PassesStage(t: Table, stages: seq<Stage>, test: Test, i: nat)
    requires Run(t, stages).Ok? && Apply(test) in stages && i < |Run(t, stages).value.rows|
    ensures Holds(test, Run(t, stages).value.rows[i]) && Run(t, stages).value.rows[i] in t.rows
  {
    RunCharacterised(t, stages);
    TestsContain(stages, test);
    var k :| 0 <= k < |Tests(stages)| && Tests(stages)[k] == test;
  }

  /** A stage that raises makes the whole chain raise, whatever comes before it. */
  lemma FailStageFails(t: Table, stages: seq<Stage>, e: Error)
    requires Fail(e) in stages
    ensures Run(t, stages).Err?
  {
    RunCharacterised(t, stages);
    var k :| 0 <= k < |stages| && stages[k] == Fail(e);
  }

  /**
   * Replacing one mask by a weaker one that reads the same columns raises in the
   * same cases and keeps at least the rows kept before.
   */
  lemma RunReplace(t: Table, pre: seq<Stage>, strong: Test, weak: Test, post: seq<Stage>)
    requires TestColumns(strong) == TestColumns(weak)
    requires forall r: Row :: Holds(strong, r) ==> Holds(weak, r)
    ensures Run(t, pre + [Apply(strong)] + post).Ok? <==> Run(t, pre + [Apply(weak)] + post).Ok?
    ensures Run(t, pre + [Apply(strong)] + post).Ok? ==>
      var s := Run(t, pre + [Apply(strong)] + post).value.rows;
      var w := Run(t, pre + [Apply(weak)] + post).value.rows;
      |s| <= |w| && forall i :: 0 <= i < |s| ==> s[i] in w
  {
    var ss := pre + [Apply(strong)] + post;
    var ws := pre + [Apply(weak)] + post;
    RunCharacterised(t, ss);
    RunCharacterised(t, ws);
    assert Runs(t.columns, ss) <==> Runs(t.columns, ws) by {
      assert forall i :: 0 <= i < |ss| && i != |pre| ==> ss[i] == ws[i];
      assert ss[|pre|] == Apply(strong) && ws[|pre|] == Apply(weak);
    }
    TestsAppend(pre + [Apply(strong)], post);
    TestsAppend(pre, [Apply(strong)]);
    TestsAppend(pre + [Apply(weak)], post);
    TestsAppend(pre, [Apply(weak)]);
    assert Tests([Apply(strong)]) == [strong];
    assert Tests([Apply(weak)]) == [weak];
    var ts := Tests(ss);
    var tw := Tests(ws);
    var n := |Tests(pre)|;
    assert ts == Tests(pre) + [strong] + Tests(post);
    assert tw == Tests(pre) + [weak] + Tests(post);
    forall r: Row | HoldsAll(ts, r) ensures HoldsAll(tw, r) {
      forall k | 0 <= k < |tw| ensures Holds(tw[k], r) {
        if k == n {
          assert Holds(ts[k], r);
        } else {
          assert tw[k] == ts[k];
        }
      }
    }
    SelectAllMonotone(t.rows, ts, tw);
  }

  /** Running a chain again over its own result changes nothing. */
  lemma RunIdempotent(t: Table, stages: seq<Stage>)
    requires Run(t, stages).Ok?
    ensures Run(Run(t, stages).value, stages) == Run(t, stages)
  {
    RunCharacterised(t, stages);
    RunCharacterised(Run(t, stages).value, stages);
    SelectAllIdempotent(t.rows, Tests(stages));
  }

  /** When every stage applies a mask, the masks are the stages' own, one for one. */
  lemma {:induction false} TestsAllApply(stages: seq<Stage>)
    requires forall i :: 0 <= i < |stages| ==> stages[i].Apply?
    ensures |Tests(stages)| == |stages| && forall i :: 0 <= i < |stages| ==> Tests(stages)[i] == stages[i].test
  {
    if |stages| > 0 {
      TestsAllApply(stages[1..]);
    }
  }

  /** Two chains of masks, stage by stage reading the same columns, the first mask stronger. */
  ghost predicate Stronger(strong: seq<Stage>, weak: seq<Stage>)
  {
    |strong| == |weak|
    && (forall i :: 0 <= i < |strong| ==>
          strong[i].Apply? && weak[i].Apply? && TestColumns(strong[i].test) == TestColumns(weak[i].test))
    && forall i, r: Row :: 0 <= i < |strong| && Holds(strong[i].test, r) ==> Holds(weak[i].test, r)
  }

  /**
   * A chain of stronger masks raises in the same cases as the weaker one and
   * keeps a subset of its rows.
   */
  lemma RunWeaker(t: Table, strong: seq<Stage>, weak: seq<Stage>)
    requires Stronger(strong, weak)
    ensures Run(t, strong).Ok? <==> Run(t, weak).Ok?
    ensures Run(t, strong).Ok? ==>
      var s := Run(t, strong).value.rows;
      var w := Run(t, weak).value.rows;
      |s| <= |w| && forall i :: 0 <= i < |s| ==> s[i] in w
  {
    RunCharacterised(t, strong);
    RunCharacterised(t, weak);
    TestsAllApply(strong);
    TestsAllApply(weak);
    var ts := Tests(strong);
    var tw := Tests(weak);
    forall r: Row | HoldsAll(ts, r) ensures HoldsAll(tw, r) {
      forall k | 0 <= k < |tw| ensures Holds(tw[k], r) {
        assert Holds(ts[k], r);
      }
    }
    SelectAllMonotone(t.rows, ts, tw);
  }
}
