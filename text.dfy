/** Python `str` operations used by the modelled code, on `seq<char>`. */
module Text {
  import Seqs
  import Wrappers

  /** Python's `str.isspace`, the set `str.strip()` removes. */
  predicate IsSpace(c: char)
  {
    var n := c as int;
    (9 <= n <= 13) || (28 <= n <= 32) || n == 0x85 || n == 0xA0 || n == 0x1680
    || (0x2000 <= n <= 0x200A) || n == 0x2028 || n == 0x2029 || n == 0x202F
    || n == 0x205F || n == 0x3000
  }

  /** `s.lstrip()`: the longest suffix of `s` that does not start with whitespace. */
  function TrimLeft(s: string): (r: string)
    ensures |r| <= |s| && r == s[|s| - |r|..]
    ensures forall i :: 0 <= i < |s| - |r| ==> IsSpace(s[i])
    ensures |r| > 0 ==> !IsSpace(r[0])
  {
    if |s| > 0 && IsSpace(s[0]) then TrimLeft(s[1..]) else s
  }

  /** `s.rstrip()`: the longest prefix of `s` that does not end with whitespace. */
  function TrimRight(s: string): (r: string)
    ensures |r| <= |s| && r == s[..|r|]
    ensures forall i :: |r| <= i < |s| ==> IsSpace(s[i])
    ensures |r| > 0 ==> !IsSpace(r[|r| - 1])
  {
    if |s| > 0 && IsSpace(s[|s| - 1]) then TrimRight(s[..|s| - 1]) else s
  }

  /** `s.strip()`. */
  function Strip(s: string): string
  {
    TrimRight(TrimLeft(s))
  }

  /** `Strip` keeps a contiguous piece of `s` and removes only whitespace around it. */
  lemma StripSlice(s: string) returns (i: nat, j: nat)
    ensures i <= j <= |s| && Strip(s) == s[i..j]
    ensures forall k :: 0 <= k < i ==> IsSpace(s[k])
    ensures forall k :: j <= k < |s| ==> IsSpace(s[k])
    ensures |Strip(s)| > 0 ==> !IsSpace(Strip(s)[0]) && !IsSpace(Strip(s)[|Strip(s)| - 1])
  {
    var l := TrimLeft(s);
    i := |s| - |l|;
    j := i + |TrimRight(l)|;
    assert Strip(s) == l[..j - i] == s[i..j];
    forall k | j <= k < |s| ensures IsSpace(s[k]) {
      assert s[k] == l[k - i];
    }
  }

  lemma StripIdempotent(s: string)
    ensures Strip(Strip(s)) == Strip(s)
  {
    var t := Strip(s);
    var _, _ := StripSlice(s);
    if |t| > 0 {
      assert TrimLeft(t) == t;
      assert TrimRight(t) == t;
    }
  }

  /** A string with no whitespace at all is its own strip. */
  lemma StripNoSpace(s: string)
    requires forall i :: 0 <= i < |s| ==> !IsSpace(s[i])
    ensures Strip(s) == s
  {
    if |s| > 0 {
      assert !IsSpace(s[0]);
      assert TrimLeft(s) == s;
      assert !IsSpace(s[|s| - 1]);
    }
  }

  /** Python `str.lower` on ASCII letters; other characters are kept. */
  function LowerChar(c: char): char
  {
    if 'A' <= c <= 'Z' then (c as int + 32) as char else c
  }

  function Lower(s: string): (r: string)
    ensures |r| == |s|
    ensures forall i :: 0 <= i < |s| ==> r[i] == LowerChar(s[i])
  {
    if |s| == 0 then [] else [LowerChar(s[0])] + Lower(s[1..])
  }

  lemma LowerFixed(s: string)
    requires forall i :: 0 <= i < |s| ==> LowerChar(s[i]) == s[i]
    ensures Lower(s) == s
  {
  }

  lemma LowerIdempotent(s: string)
    ensures Lower(Lower(s)) == Lower(s)
  {
  }

  predicate StartsWith(s: string, p: string)
  {
    |p| <= |s| && s[..|p|] == p
  }

  predicate EndsWith(s: string, p: string)
  {
    |p| <= |s| && s[|s| - |p|..] == p
  }

  /** Python `sub in s`. */
  predicate Contains(s: string, sub: string)
    decreases |s|
  {
    StartsWith(s, sub) || (|s| > 0 && Contains(s[1..], sub))
  }

  /**
   * Python `s.replace(pat, rep)`: every non-overlapping occurrence of `pat`,
   * scanned left to right, is replaced by `rep`.
   */
  function ReplaceAll(s: string, pat: string, rep: string): (r: string)
    requires |pat| > 0
    decreases |s|
  {
    if |s| < |pat| then s
    else if s[..|pat|] == pat then rep + ReplaceAll(s[|pat|..], pat, rep)
    else [s[0]] + ReplaceAll(s[1..], pat, rep)
  }

  /** A string without any occurrence of the pattern is left alone. */
  lemma {:induction false} ReplaceAbsent(s: string, pat: string, rep: string)
    requires |pat| > 0 && !Contains(s, pat)
    ensures ReplaceAll(s, pat, rep) == s
    decreases |s|
  {
    if |s| >= |pat| {
      ReplaceAbsent(s[1..], pat, rep);
    }
  }

  /** Replacing a character by text without it removes every occurrence of it. */
  lemma {:induction false} ReplaceCharRemoves(s: string, c: char, rep: string)
    requires c !in rep
    ensures c !in ReplaceAll(s, [c], rep)
    decreases |s|
  {
    if |s| >= 1 {
      ReplaceCharRemoves(s[1..], c, rep);
      if s[..1] != [c] {
        assert s[0] != c by { assert s[..1] == [s[0]]; }
      }
    }
  }

  /** Python `s.split(c)` for a one-character separator. */
  function Split(s: string, c: char): (r: seq<string>)
    ensures |r| >= 1
    ensures forall i :: 0 <= i < |r| ==> c !in r[i]
  {
    if |s| == 0 then [""]
    else
      var rest := Split(s[1..], c);
      if s[0] == c then [""] + rest
      else [[s[0]] + rest[0]] + rest[1..]
  }

  /** Python `c.join(parts)`. */
  function Join(parts: seq<string>, c: char): string
  {
    if |parts| == 0 then ""
    else if |parts| == 1 then parts[0]
    else parts[0] + [c] + Join(parts[1..], c)
  }

  lemma {:induction false} JoinSplit(s: string, c: char)
    ensures Join(Split(s, c), c) == s
  {
    if |s| > 0 {
      JoinSplit(s[1..], c);
      var rest := Split(s[1..], c);
      if s[0] != c {
        if |rest| == 1 {
          assert Split(s, c) == [[s[0]] + rest[0]];
        } else {
          assert Split(s, c)[1..] == rest[1..];
        }
      } else {
        assert ([""] + rest)[1..] == rest;
      }
    }
  }

  lemma {:induction false} SplitJoin(parts: seq<string>, c: char)
    requires |parts| >= 1
    requires forall i :: 0 <= i < |parts| ==> c !in parts[i]
    ensures Split(Join(parts, c), c) == parts
    decreases |parts|, |parts[0]|
  {
    if |parts[0]| > 0 {
      var p := parts[0];
      var tail := [p[1..]] + parts[1..];
      assert Join(parts, c) == [p[0]] + Join(tail, c) by {
        if |parts| > 1 {
          assert Join(tail, c) == p[1..] + [c] + Join(parts[1..], c) by { assert tail[1..] == parts[1..]; }
        }
      }
      assert c !in p[1..] by { assert forall k :: 0 <= k < |p| - 1 ==> p[1..][k] == p[k + 1]; }
      SplitJoin(tail, c);
      assert p[0] != c by { assert p[0] in p; }
      assert ([p[0]] + Join(tail, c))[1..] == Join(tail, c);
      assert [p[0]] + tail[0] == p;
      assert tail[1..] == parts[1..];
      assert [[p[0]] + tail[0]] + tail[1..] == parts;
    } else if |parts| > 1 {
      SplitJoin(parts[1..], c);
      assert Join(parts, c) == [c] + Join(parts[1..], c);
      assert ([c] + Join(parts[1..], c))[1..] == Join(parts[1..], c);
      assert [""] + parts[1..] == parts;
    }
  }

  /** Joining one more part adds a separator and that part. */
  lemma {:induction false} JoinSnoc(parts: seq<string>, last: string, c: char)
    requires |parts| >= 1
    ensures Join(parts + [last], c) == Join(parts, c) + [c] + last
  {
    if |parts| > 1 {
      assert (parts + [last])[1..] == parts[1..] + [last];
      JoinSnoc(parts[1..], last, c);
    } else {
      assert (parts + [last])[1..] == [last];
    }
  }

  /** The last part of `d + c + n` split on `c` is `n`, when `n` holds no `c`. */
  lemma SplitLastPart(d: string, n: string, c: char)
    requires c !in n
    ensures var parts := Split(d + [c] + n, c); parts[|parts| - 1] == n
  {
    var ps := Split(d, c) + [n];
    JoinSplit(d, c);
    JoinSnoc(Split(d, c), n, c);
    SplitJoin(ps, c);
  }

  /** `len(s.split(c))` is one more than the number of separators. */
  lemma {:induction false} SplitLength(s: string, c: char)
    ensures |Split(s, c)| == Seqs.Count(s, c) + 1
  {
    if |s| > 0 {
      SplitLength(s[1..], c);
      assert s == [s[0]] + s[1..];
      Seqs.CountAppend([s[0]], s[1..], c);
      assert [s[0]][..0] == [];
    }
  }

  /** Stripping whitespace never changes how many parts a non-whitespace separator gives. */
  lemma StripKeepsSplitLength(s: string, c: char)
    requires !IsSpace(c)
    ensures |Split(Strip(s), c)| == |Split(s, c)|
  {
    var i, j := StripSlice(s);
    CountBetweenSpaces(s, i, j, c);
    SplitLength(s, c);
    SplitLength(Strip(s), c);
  }

  /** Whitespace around `s[i..j]` adds no occurrence of a non-whitespace character. */
  lemma CountBetweenSpaces(s: string, i: nat, j: nat, c: char)
    requires !IsSpace(c) && i <= j <= |s|
    requires forall k :: 0 <= k < i ==> IsSpace(s[k])
    requires forall k :: j <= k < |s| ==> IsSpace(s[k])
    ensures Seqs.Count(s, c) == Seqs.Count(s[i..j], c)
  {
    var pre, mid, post := s[..i], s[i..j], s[j..];
    assert s == pre + mid + post;
    assert forall k :: 0 <= k < |pre| ==> pre[k] == s[k];
    SpacesHoldNoSeparator(pre, c);
    assert forall k :: 0 <= k < |post| ==> post[k] == s[j + k];
    SpacesHoldNoSeparator(post, c);
    Seqs.CountAppend(pre + mid, post, c);
    Seqs.CountAppend(pre, mid, c);
  }

  /** Whitespace holds no occurrence of a non-whitespace character. */
  lemma SpacesHoldNoSeparator(t: string, c: char)
    requires !IsSpace(c)
    requires forall k :: 0 <= k < |t| ==> IsSpace(t[k])
    ensures Seqs.Count(t, c) == 0
  {
    Seqs.CountPositive(t, c);
  }

  /** `s.split(c)[0]`, the text before the first separator. */
  function BeforeFirst(s: string, c: char): (r: string)
    ensures c !in r && StartsWith(s, r)
    ensures |r| < |s| ==> s[|r|] == c
  {
    if |s| == 0 || s[0] == c then "" else [s[0]] + BeforeFirst(s[1..], c)
  }

  /** The first part of a split is the text before the first separator. */
  lemma {:induction false} SplitHeadIsBeforeFirst(s: string, c: char)
    ensures Split(s, c)[0] == BeforeFirst(s, c)
  {
    if |s| > 0 && s[0] != c {
      SplitHeadIsBeforeFirst(s[1..], c);
    }
  }

  /** Python `s.split(c)[i]`, with the `IndexError` as `None`. */
  function Part(s: string, c: char, i: nat): (r: Wrappers.Option<string>)
    ensures r.Some? <==> i < |Split(s, c)|
  {
    var parts := Split(s, c);
    if i < |parts| then Wrappers.Some(parts[i]) else Wrappers.None
  }

  function DigitChar(d: nat): char
    requires d < 10
  {
    ('0' as int + d) as char
  }

  /** Python `str(n)` for a non-negative integer. */
  function NatToString(n: nat): (r: string)
    ensures |r| >= 1
    ensures forall i :: 0 <= i < |r| ==> '0' <= r[i] <= '9'
  {
    if n < 10 then [DigitChar(n)] else NatToString(n / 10) + [DigitChar(n % 10)]
  }

  /** Python `int(s)` for a string of decimal digits. */
  function ParseDigits(s: string): nat
    requires forall i :: 0 <= i < |s| ==> '0' <= s[i] <= '9'
  {
    if |s| == 0 then 0 else ParseDigits(s[..|s| - 1]) * 10 + (s[|s| - 1] as int - '0' as int)
  }

  lemma {:induction false} ParseNatToString(n: nat)
    ensures ParseDigits(NatToString(n)) == n
  {
    if n >= 10 {
      ParseNatToString(n / 10);
      var r := NatToString(n);
      assert r[..|r| - 1] == NatToString(n / 10);
    } else {
      assert NatToString(n)[..0] == [];
    }
  }
}
