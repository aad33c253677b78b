/** Sequence helpers: first-occurrence de-duplication, counting and tallies. */
module Seqs {

  predicate NoDup<T(==)>(s: seq<T>)
  {
    forall i, j :: 0 <= i < j < |s| ==> s[i] != s[j]
  }

  /** The elements of `s` in order of first occurrence, each once (pandas `unique`). */
  function Dedup<T(==)>(s: seq<T>): (r: seq<T>)
    ensures NoDup(r)
    ensures forall i :: 0 <= i < |r| ==> r[i] in s
    ensures forall i :: 0 <= i < |s| ==> s[i] in r
    ensures |r| <= |s|
  {
    if |s| == 0 then []
    else
      var d := Dedup(s[..|s| - 1]);
      var x := s[|s| - 1];
      if x in d then d else d + [x]
  }

  /** Number of occurrences of `x` in `s`. */
  function Count<T(==)>(s: seq<T>, x: T): nat
  {
    if |s| == 0 then 0
    else Count(s[..|s| - 1], x) + (if s[|s| - 1] == x then 1 else 0)
  }

  lemma {:induction false} CountPositive<T>(s: seq<T>, x: T)
    ensures Count(s, x) > 0 <==> x in s
  {
    if |s| > 0 {
      CountPositive(s[..|s| - 1], x);
      assert s == s[..|s| - 1] + [s[|s| - 1]];
    }
  }

  lemma {:induction false} CountAppend<T>(s: seq<T>, t: seq<T>, x: T)
    ensures Count(s + t, x) == Count(s, x) + Count(t, x)
  {
    if |t| > 0 {
      assert (s + t)[..|s + t| - 1] == s + t[..|t| - 1];
      CountAppend(s, t[..|t| - 1], x);
    } else {
      assert s + t == s;
    }
  }

  /** Sum of the counts in a tally. */
  function SumCounts<K(==)>(t: seq<(K, nat)>): nat
  {
    if |t| == 0 then 0 else SumCounts(t[..|t| - 1]) + t[|t| - 1].1
  }

  /** Pair each key of `ks` with its number of occurrences in `s`. */
  function CountsOf<K(==)>(ks: seq<K>, s: seq<K>): (t: seq<(K, nat)>)
    ensures |t| == |ks|
    ensures forall i :: 0 <= i < |ks| ==> t[i] == (ks[i], Count(s, ks[i]))
  {
    if |ks| == 0 then [] else CountsOf(ks[..|ks| - 1], s) + [(ks[|ks| - 1], Count(s, ks[|ks| - 1]))]
  }

  /**
   * pandas `groupby(key).size()`: each distinct key once, with the number of rows
   * holding it. pandas sorts the keys; the model keeps first-occurrence order.
   */
  function Tally<K(==)>(keys: seq<K>): (t: seq<(K, nat)>)
    ensures |t| == |Dedup(keys)|
    ensures forall i :: 0 <= i < |t| ==> t[i].0 == Dedup(keys)[i] && t[i].1 == Count(keys, t[i].0)
  {
    CountsOf(Dedup(keys), keys)
  }

  /** The keys of a tally, in order. */
  function Keys<K(==)>(t: seq<(K, nat)>): (ks: seq<K>)
    ensures |ks| == |t|
    ensures forall i :: 0 <= i < |t| ==> ks[i] == t[i].0
  {
    if |t| == 0 then [] else Keys(t[..|t| - 1]) + [t[|t| - 1].0]
  }

  /** Summing the counts of a duplicate-free key list against `s + [x]`. */
  lemma {:induction false} SumCountsSnoc<K>(ks: seq<K>, s: seq<K>, x: K)
    requires NoDup(ks)
    ensures SumCounts(CountsOf(ks, s + [x])) == SumCounts(CountsOf(ks, s)) + (if x in ks then 1 else 0)
  {
    if |ks| > 0 {
      var init := ks[..|ks| - 1];
      assert NoDup(init);
      SumCountsSnoc(init, s, x);
      assert CountsOf(ks, s + [x])[..|ks| - 1] == CountsOf(init, s + [x]);
      assert CountsOf(ks, s)[..|ks| - 1] == CountsOf(init, s);
      assert (s + [x])[..|s + [x]| - 1] == s;
      assert x in ks <==> x in init || x == ks[|ks| - 1];
      assert ks[|ks| - 1] == x ==> x !in init;
    }
  }

  lemma {:induction false} SumCountsUnseen<K>(ks: seq<K>, s: seq<K>)
    requires forall k :: k in ks ==> k !in s
    ensures SumCounts(CountsOf(ks, s)) == 0
  {
    if |ks| > 0 {
      SumCountsUnseen(ks[..|ks| - 1], s);
      assert CountsOf(ks, s)[..|ks| - 1] == CountsOf(ks[..|ks| - 1], s);
      CountPositive(s, ks[|ks| - 1]);
    }
  }

  /** The keys of a tally have no duplicates. */
  lemma TallyKeysDistinct<K>(keys: seq<K>)
    ensures Keys(Tally(keys)) == Dedup(keys) && NoDup(Keys(Tally(keys)))
  {
    assert Keys(Tally(keys)) == Dedup(keys);
  }

  /** Every key of a tally occurs at least once. */
  lemma TallyPositive<K>(keys: seq<K>)
    ensures forall i :: 0 <= i < |Tally(keys)| ==> Tally(keys)[i].1 > 0
  {
    forall i | 0 <= i < |Tally(keys)| ensures Tally(keys)[i].1 > 0 {
      CountPositive(keys, Tally(keys)[i].0);
    }
  }

  /** Every row is counted exactly once: the tally's counts add up to the number of keys. */
  lemma {:induction false} TallyTotal<K>(keys: seq<K>)
    ensures SumCounts(Tally(keys)) == |keys|
  {
    if |keys| > 0 {
      var init := keys[..|keys| - 1];
      var x := keys[|keys| - 1];
      assert keys == init + [x];
      TallyTotal(init);
      var d := Dedup(init);
      SumCountsSnoc(d, init, x);
      if x in d {
        assert Dedup(keys) == d;
      } else {
        assert Dedup(keys) == d + [x];
        var ks := d + [x];
        assert CountsOf(ks, keys)[..|d|] == CountsOf(d, keys);
        assert CountsOf(ks, keys)[|d|] == (x, Count(keys, x));
        CountAppend(init, [x], x);
        assert Count([x], x) == 1 by {
          assert [x][..0] == [];
        }
        assert x !in init;
        CountPositive(init, x);
      }
    }
  }
}
