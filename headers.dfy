/**
 * Pathway-file header handling: normalising column names and choosing which
 * columns of the file to read (`format_headers`, `parse_pathway_headers`).
 */
module Headers {
  import opened Wrappers
  import Text

  /**
   * `format_headers` for one name: strip, lowercase, spaces to `_`, then
   * `sender.group` to `sender` and `receiver.group` to `receiver`.
   */
  function FormatHeader(h: string): string
  {
    var t := Text.ReplaceAll(Text.Lower(Text.Strip(h)), " ", "_");
    Text.ReplaceAll(Text.ReplaceAll(t, "sender.group", "sender"), "receiver.group", "receiver")
  }

  function FormatHeaders(hs: seq<string>): (r: seq<string>)
    ensures |r| == |hs|
    ensures forall i :: 0 <= i < |hs| ==> r[i] == FormatHeader(hs[i])
  {
    if |hs| == 0 then [] else [FormatHeader(hs[0])] + FormatHeaders(hs[1..])
  }

  lemma {:induction false} ReplaceKeepsAbsent(s: string, pat: string, rep: string, c: char)
    requires |pat| > 0 && c !in s && c !in rep
    ensures c !in Text.ReplaceAll(s, pat, rep)
    decreases |s|
  {
    if |s| >= |pat| {
      if s[..|pat|] == pat {
        ReplaceKeepsAbsent(s[|pat|..], pat, rep, c);
      } else {
        ReplaceKeepsAbsent(s[1..], pat, rep, c);
      }
    }
  }

  /** A formatted header never holds a space. */
  lemma FormattedHasNoSpace(h: string)
    ensures ' ' !in FormatHeader(h)
  {
    var t := Text.ReplaceAll(Text.Lower(Text.Strip(h)), " ", "_");
    Text.ReplaceCharRemoves(Text.Lower(Text.Strip(h)), ' ', "_");
    ReplaceKeepsAbsent(t, "sender.group", "sender", ' ');
    ReplaceKeepsAbsent(Text.ReplaceAll(t, "sender.group", "sender"), "receiver.group", "receiver", ' ');
  }

  /** A lowercase name without whitespace or the `.group` spellings is already formatted. */
  lemma FormatCanonical(h: string)
    requires forall i :: 0 <= i < |h| ==> !Text.IsSpace(h[i]) && Text.LowerChar(h[i]) == h[i]
    requires !Text.Contains(h, "sender.group") && !Text.Contains(h, "receiver.group")
    ensures FormatHeader(h) == h
  {
    Text.StripNoSpace(h);
    var s1 := Text.Strip(h);
    Text.LowerFixed(h);
    var s2 := Text.Lower(s1);
    assert s2 == h;
    NoSpaceChar(h);
    var s3 := Text.ReplaceAll(s2, " ", "_");
    assert s3 == h;
    Text.ReplaceAbsent(h, "sender.group", "sender");
    var s4 := Text.ReplaceAll(s3, "sender.group", "sender");
    assert s4 == h;
    Text.ReplaceAbsent(h, "receiver.group", "receiver");
  }

  lemma NoSpaceChar(h: string)
    requires forall i :: 0 <= i < |h| ==> !Text.IsSpace(h[i])
    ensures Text.ReplaceAll(h, " ", "_") == h
  {
    assert ' ' !in h by {
      forall i | 0 <= i < |h| ensures h[i] != ' ' { assert !Text.IsSpace(h[i]); }
    }
    NoCharNoContains(h, ' ');
    Text.ReplaceAbsent(h, " ", "_");
  }

  lemma {:induction false} NoCharNoContains(s: string, c: char)
    requires c !in s
    ensures !Text.Contains(s, [c])
  {
    if |s| > 0 {
      NoCharNoContains(s[1..], c);
      assert s[..1] == [s[0]];
    }
  }

  // ---- required and optional columns ----

  /** The columns every pathway file must have, for groups `a` and `b`. */
  function Required(a: string, b: string): seq<string>
  {
    ["path", "sender", "receiver", "afc", "sigprob_" + a, "sigprob_" + b]
  }

  /** Optional columns of the `src/incytr_viz/util.py` loader (kinase columns `sik_*`). */
  function OptionalSik(a: string, b: string): seq<string>
  {
    ["p_value_" + a, "p_value_" + b, "tprs", "prs",
     "sik_r_of_em", "sik_r_of_t", "sik_em_of_t", "sik_em_of_r", "sik_t_of_r", "sik_t_of_em",
     "umap1", "umap2"]
  }

  /** Optional columns of the `src/incytr_viz/app.py` and `i_o.py` loaders (`kinase_*`). */
  function OptionalKinase(a: string, b: string): seq<string>
  {
    ["p_value_" + a, "p_value_" + b, "tprs", "prs",
     "kinase_r_of_em", "kinase_r_of_t", "kinase_em_of_t", "umap1", "umap2"]
  }

  predicate AllIn(wanted: seq<string>, present: seq<string>)
  {
    forall i :: 0 <= i < |wanted| ==> wanted[i] in present
  }

  /** The headers whose name, formatted by `fmt`, is wanted, in file order. */
  function KeptBy(headers: seq<string>, fmt: string -> string, wanted: seq<string>): seq<string>
  {
    if |headers| == 0 then []
    else
      var n := |headers| - 1;
      var init := KeptBy(headers[..n], fmt, wanted);
      if fmt(headers[n]) in wanted then init + [headers[n]] else init
  }

  /** The headers whose formatted name is wanted, in file order. */
  function KeptHeaders(headers: seq<string>, wanted: seq<string>): seq<string>
  {
    KeptBy(headers, FormatHeader, wanted)
  }

  /** Every kept header is one of the headers, and its formatted name is wanted. */
  lemma {:induction false} KeptBySound(headers: seq<string>, fmt: string -> string, wanted: seq<string>)
    ensures forall x :: x in KeptBy(headers, fmt, wanted) ==> x in headers && fmt(x) in wanted
  {
    if |headers| > 0 {
      var n := |headers| - 1;
      var init := KeptBy(headers[..n], fmt, wanted);
      KeptBySound(headers[..n], fmt, wanted);
      forall x | x in init ensures x in headers {
        var j :| 0 <= j < n && headers[..n][j] == x;
        assert headers[j] == x;
      }
    }
  }

  /** Every header whose formatted name is wanted is kept. */
  lemma {:induction false} KeptByComplete(headers: seq<string>, fmt: string -> string, wanted: seq<string>)
    ensures forall i :: 0 <= i < |headers| && fmt(headers[i]) in wanted ==> headers[i] in KeptBy(headers, fmt, wanted)
  {
    if |headers| > 0 {
      var n := |headers| - 1;
      var init := KeptBy(headers[..n], fmt, wanted);
      KeptByComplete(headers[..n], fmt, wanted);
      forall i | 0 <= i < n && fmt(headers[i]) in wanted ensures headers[i] in init {
        assert headers[..n][i] == headers[i];
      }
    }
  }

  /**
   * What `parse_pathway_headers` returns: `ValueError` when a required column is
   * missing after formatting, otherwise the original headers to read.
   */
  function HeaderSelection(headers: seq<string>, required: seq<string>, optional: seq<string>): Result<seq<string>>
  {
    if AllIn(required, FormatHeaders(headers))
    then Ok(KeptHeaders(headers, required + optional))
    else Err(ValueError("Required columns not found in pathways file"))
  }

  /** `found[i]` records whether `wanted[i]` is among the formatted headers. */
  method ScanColumns(wanted: seq<string>, formatted: seq<string>) returns (found: seq<bool>)
    ensures |found| == |wanted|
    ensures forall i :: 0 <= i < |wanted| ==> found[i] == (wanted[i] in formatted)
  {
    found := [];
    var i := 0;
    while i < |wanted|
      invariant 0 <= i <= |wanted| && |found| == i
      invariant forall k :: 0 <= k < i ==> found[k] == (wanted[k] in formatted)
    {
      found := found + [wanted[i] in formatted];
      i := i + 1;
    }
  }

  /** The scan-then-decide procedure of `parse_pathway_headers`. */
  method ParsePathwayHeaders(headers: seq<string>, required: seq<string>, optional: seq<string>)
    returns (r: Result<seq<string>>)
    ensures r == HeaderSelection(headers, required, optional)
  {
    var formatted := FormatHeaders(headers);
    var ok := RequiredFound(formatted, required, optional);
    if !ok {
      return Err(ValueError("Required columns not found in pathways file"));
    }
    var kept := KeepFormatted(headers, formatted, required + optional);
    r := Ok(kept);
  }

  /** Scans all wanted columns, then reports whether no required one is unfound. */
  method RequiredFound(formatted: seq<string>, required: seq<string>, optional: seq<string>)
    returns (ok: bool)
    ensures ok == AllIn(required, formatted)
  {
    var wanted := required + optional;
    var found := ScanColumns(wanted, formatted);
    var i := 0;
    while i < |required|
      invariant 0 <= i <= |required|
      invariant AllIn(required[..i], formatted)
    {
      if !found[i] {
        assert wanted[i] == required[i];
        return false;
      }
      assert required[..i + 1] == required[..i] + [required[i]];
      i := i + 1;
    }
    assert required[..i] == required;
    return true;
  }

  /** The list comprehension over `zip(headers, formatted)` that keeps the found names. */
  method KeepFormatted(headers: seq<string>, formatted: seq<string>, wanted: seq<string>)
    returns (kept: seq<string>)
    requires formatted == FormatHeaders(headers)
    ensures kept == KeptHeaders(headers, wanted)
  {
    kept := [];
    var j := 0;
    while j < |headers|
      invariant 0 <= j <= |headers|
      invariant kept == KeptBy(headers[..j], FormatHeader, wanted)
    {
      assert headers[..j + 1][..j] == headers[..j];
      if formatted[j] in wanted {
        kept := kept + [headers[j]];
      }
      j := j + 1;
    }
    assert headers[..j] == headers;
  }

  /** The error is raised exactly when some required column is missing. */
  lemma HeaderSelectionFails(headers: seq<string>, required: seq<string>, optional: seq<string>)
    ensures HeaderSelection(headers, required, optional).Err?
        <==> exists i :: 0 <= i < |required| && required[i] !in FormatHeaders(headers)
  {
  }

  /** After a successful selection, the columns read (formatted) include every required one. */
  lemma SelectedCoverRequired(headers: seq<string>, required: seq<string>, optional: seq<string>)
    requires HeaderSelection(headers, required, optional).Ok?
    ensures AllIn(required, FormatHeaders(HeaderSelection(headers, required, optional).value))
  {
    var kept := KeptHeaders(headers, required + optional);
    var f := FormatHeaders(headers);
    var g := FormatHeaders(kept);
    forall i | 0 <= i < |required| ensures required[i] in g {
      var k :| 0 <= k < |f| && f[k] == required[i];
      var m := KeptByCovers(headers, FormatHeader, required + optional, k);
      assert g[m] == f[k];
    }
  }

  /** A header whose formatted name is wanted has a place among the kept headers. */
  lemma KeptByCovers(headers: seq<string>, fmt: string -> string, wanted: seq<string>, k: nat) returns (m: nat)
    requires k < |headers| && fmt(headers[k]) in wanted
    ensures m < |KeptBy(headers, fmt, wanted)| && KeptBy(headers, fmt, wanted)[m] == headers[k]
  {
    var kept := KeptBy(headers, fmt, wanted);
    KeptByComplete(headers, fmt, wanted);
    m :| 0 <= m < |kept| && kept[m] == headers[k];
  }

  /** Every selected column, formatted, is a required or optional one. */
  lemma SelectedAreWanted(headers: seq<string>, required: seq<string>, optional: seq<string>)
    requires HeaderSelection(headers, required, optional).Ok?
    ensures forall i :: 0 <= i < |FormatHeaders(HeaderSelection(headers, required, optional).value)| ==>
      FormatHeaders(HeaderSelection(headers, required, optional).value)[i] in required + optional
  {
    KeptBySound(headers, FormatHeader, required + optional);
  }
}
