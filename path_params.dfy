/** The path-parameter pattern `\{[^}]+\}` of the migration scripts: an
    opening brace, one or more characters other than `}`, and the first
    closing brace after them. Matches are found left to right without
    overlap, as `re.sub` and `re.findall` find them. */
module PathParams {
  import opened Wrappers

  /** No `}` among the first `n` characters of `t`. */
  predicate NoCloseBefore(t: string, n: nat)
    requires n <= |t|
  {
    forall i :: 0 <= i < n ==> t[i] != '}'
  }

  /** The index of the first `}` in `t`. */
  function FirstClose(t: string): (r: Option<nat>)
    ensures r.Some? ==> r.value < |t| && t[r.value] == '}'
  {
    if t == [] then None
    else if t[0] == '}' then Some(0)
    else match FirstClose(t[1..])
      case None => None
      case Some(j) => Some(j + 1)
  }

  /** The first `}` is at `n` when `t[n]` is one and none comes before. */
  lemma {:induction false} FirstCloseAt(t: string, n: nat)
    requires n < |t| && t[n] == '}' && NoCloseBefore(t, n)
    ensures FirstClose(t) == Some(n)
  {
    if n > 0 {
      FirstCloseAt(t[1..], n - 1);
    }
  }

  lemma {:induction false} FirstCloseMeaning(t: string)
    ensures FirstClose(t).None? ==> NoCloseBefore(t, |t|)
    ensures FirstClose(t).Some? ==> NoCloseBefore(t, FirstClose(t).value)
  {
    if t != [] && t[0] != '}' {
      FirstCloseMeaning(t[1..]);
    }
  }

  /** Where the match that starts at `s[0]` ends (the index of its `}`),
      if one starts there. */
  function MatchEnd(s: string): (r: Option<nat>)
    ensures r.Some? ==> 2 <= r.value < |s| && s[0] == '{' && s[r.value] == '}'
  {
    if s != [] && s[0] == '{' then
      match FirstClose(s[1..])
      case Some(j) => if j >= 1 then Some(j + 1) else None
      case None => None
    else None
  }

  /** A match is `{`, a name without `}`, and the first `}` after it; where
      no match starts, the text does not start with `{`, or holds no later
      `}`, or starts with `{}`. */
  lemma MatchEndMeaning(s: string)
    ensures MatchEnd(s).Some? ==> forall i :: 1 <= i < MatchEnd(s).value ==> s[i] != '}'
    ensures MatchEnd(s).None? ==> s == [] || s[0] != '{' || NoCloseBefore(s, |s|) || s[1] == '}'
  {
    if s != [] && s[0] == '{' {
      FirstCloseMeaning(s[1..]);
      if FirstClose(s[1..]).Some? {
        var j := FirstClose(s[1..]).value;
        assert forall i :: 1 <= i < j + 1 ==> s[i] == s[1..][i - 1];
      } else {
        assert forall i :: 1 <= i < |s| ==> s[i] == s[1..][i - 1];
      }
    }
  }

  /** `normalize_path`: every match becomes `{param}`. */
  function NormalizePath(s: string): string
    decreases |s|
  {
    if s == [] then []
    else match MatchEnd(s)
      case Some(k) => "{param}" + NormalizePath(s[k + 1..])
      case None => [s[0]] + NormalizePath(s[1..])
  }

  /** `extract_path_params`: the text between the braces of every match, in
      order. Each match spans at least three characters. */
  function ExtractPathParams(s: string): (names: seq<string>)
    ensures 3 * |names| <= |s|
    decreases |s|
  {
    if s == [] then []
    else match MatchEnd(s)
      case Some(k) => [s[1..k]] + ExtractPathParams(s[k + 1..])
      case None => ExtractPathParams(s[1..])
  }

  /** Every extracted name is non-empty and holds no `}`. */
  lemma {:induction false} ExtractedNames(s: string)
    ensures forall i :: 0 <= i < |ExtractPathParams(s)| ==>
      var name := ExtractPathParams(s)[i]; name != [] && NoCloseBefore(name, |name|)
    decreases |s|
  {
    if s != [] {
      MatchEndMeaning(s);
      match MatchEnd(s)
      case Some(k) =>
        ExtractedNames(s[k + 1..]);
      case None =>
        ExtractedNames(s[1..]);
    }
  }

  /** The inverse of normalisation: the `i`-th match of `t` is replaced by
      the `i`-th name between braces (a match left without a name stays). */
  function Fill(t: string, names: seq<string>): string
    decreases |t|
  {
    if t == [] then []
    else match MatchEnd(t)
      case Some(k) =>
        if names == [] then t[..k + 1] + Fill(t[k + 1..], [])
        else "{" + names[0] + "}" + Fill(t[k + 1..], names[1..])
      case None => [t[0]] + Fill(t[1..], names)
  }

  // ---------------------------------------------------------------------
  // How the scanner treats the shapes normalisation produces
  // ---------------------------------------------------------------------

  lemma ParamMatches(t: string)
    ensures MatchEnd("{param}" + t) == Some(6)
    ensures ("{param}" + t)[7..] == t
  {
    var s := "{param}" + t;
    var x := s[1..];
    assert x[5] == '}';
    FirstCloseAt(x, 5);
  }

  lemma {:induction false} NoCloseFixed(t: string)
    requires NoCloseBefore(t, |t|)
    ensures NormalizePath(t) == t
    ensures ExtractPathParams(t) == []
    decreases |t|
  {
    if t != [] {
      assert NoCloseBefore(t[1..], |t| - 1);
      NoCloseFixed(t[1..]);
    }
  }

  lemma {:induction false} NoCloseFill(t: string, names: seq<string>)
    requires NoCloseBefore(t, |t|)
    ensures Fill(t, names) == t
    decreases |t|
  {
    if t != [] {
      assert NoCloseBefore(t[1..], |t| - 1);
      NoCloseFill(t[1..], names);
    }
  }

  /** A path without parameters is left as it is. */
  lemma {:induction false} NoParamsFixed(s: string)
    requires ExtractPathParams(s) == []
    ensures NormalizePath(s) == s
    decreases |s|
  {
    if s != [] {
      assert MatchEnd(s).None?;
      NoParamsFixed(s[1..]);
    }
  }

  /** Where no match starts, the scanner passes one character through. */
  lemma NoMatchNormalize(s: string)
    requires s != [] && MatchEnd(s).None?
    ensures NormalizePath(s) == [s[0]] + NormalizePath(s[1..])
  {
  }

  lemma NoMatchExtract(s: string)
    requires s != [] && MatchEnd(s).None?
    ensures ExtractPathParams(s) == ExtractPathParams(s[1..])
  {
  }

  lemma NoMatchFill(s: string, names: seq<string>)
    requires s != [] && MatchEnd(s).None?
    ensures Fill(s, names) == [s[0]] + Fill(s[1..], names)
  {
  }

  lemma MatchNormalize(s: string, k: nat)
    requires MatchEnd(s) == Some(k)
    ensures NormalizePath(s) == "{param}" + NormalizePath(s[k + 1..])
  {
  }

  lemma MatchExtract(s: string, k: nat)
    requires MatchEnd(s) == Some(k)
    ensures ExtractPathParams(s) == [s[1..k]] + ExtractPathParams(s[k + 1..])
  {
  }

  /** `{}` is not a match: both braces pass through. */
  lemma EmptyBracesNoMatch(s: string)
    requires |s| >= 2 && s[0] == '{' && s[1] == '}'
    ensures MatchEnd(s).None? && MatchEnd(s[1..]).None?
    ensures s[1..][1..] == s[2..]
  {
    assert FirstClose(s[1..]) == Some(0);
  }

  lemma EmptyBracesNormalize(s: string)
    requires |s| >= 2 && s[0] == '{' && s[1] == '}'
    ensures NormalizePath(s) == s[..2] + NormalizePath(s[2..])
  {
    EmptyBracesNoMatch(s);
    var x := NormalizePath(s[2..]);
    assert NormalizePath(s[1..]) == [s[1]] + x by {
      NoMatchNormalize(s[1..]);
    }
    assert NormalizePath(s) == [s[0]] + ([s[1]] + x) by {
      NoMatchNormalize(s);
    }
    assert [s[0]] + ([s[1]] + x) == s[..2] + x;
  }

  lemma EmptyBracesFill(s: string, names: seq<string>)
    requires |s| >= 2 && s[0] == '{' && s[1] == '}'
    ensures Fill(s, names) == s[..2] + Fill(s[2..], names)
  {
    EmptyBracesNoMatch(s);
    var x := Fill(s[2..], names);
    assert Fill(s[1..], names) == [s[1]] + x by {
      NoMatchFill(s[1..], names);
    }
    assert Fill(s, names) == [s[0]] + ([s[1]] + x) by {
      NoMatchFill(s, names);
    }
    assert [s[0]] + ([s[1]] + x) == s[..2] + x;
  }

  lemma EmptyBracesExtract(s: string)
    requires |s| >= 2 && s[0] == '{' && s[1] == '}'
    ensures ExtractPathParams(s) == ExtractPathParams(s[2..])
  {
    EmptyBracesNoMatch(s);
    NoMatchExtract(s);
    NoMatchExtract(s[1..]);
  }

  lemma FillParam(t: string, name: string, names: seq<string>)
    ensures Fill("{param}" + t, [name] + names) == "{" + name + "}" + Fill(t, names)
  {
    ParamMatches(t);
    assert ([name] + names)[1..] == names;
  }

  // ---------------------------------------------------------------------
  // Properties
  // ---------------------------------------------------------------------

  /** Normalising twice is the same as normalising once. */
  lemma {:induction false} NormalizeIdempotent(s: string)
    ensures NormalizePath(NormalizePath(s)) == NormalizePath(s)
    decreases |s|, 1
  {
    if s != [] {
      MatchEndMeaning(s);
      match MatchEnd(s)
      case Some(k) =>
        NormalizeIdempotentMatch(s, k);
      case None =>
        if s[0] != '{' {
          NormalizeIdempotentOther(s);
        } else if NoCloseBefore(s, |s|) {
          NoCloseFixed(s);
        } else {
          NormalizeIdempotentEmptyBraces(s);
        }
    }
  }

  lemma NormalizeIdempotentMatch(s: string, k: nat)
    requires MatchEnd(s) == Some(k)
    ensures NormalizePath(NormalizePath(s)) == NormalizePath(s)
    decreases |s|, 0
  {
    var rest := NormalizePath(s[k + 1..]);
    NormalizeIdempotent(s[k + 1..]);
    assert NormalizePath(s) == "{param}" + rest by {
      MatchNormalize(s, k);
    }
    assert NormalizePath("{param}" + rest) == "{param}" + NormalizePath(rest) by {
      ParamMatches(rest);
      MatchNormalize("{param}" + rest, 6);
    }
  }

  lemma NormalizeIdempotentOther(s: string)
    requires s != [] && MatchEnd(s).None? && s[0] != '{'
    ensures NormalizePath(NormalizePath(s)) == NormalizePath(s)
    decreases |s|, 0
  {
    var rest := NormalizePath(s[1..]);
    NormalizeIdempotent(s[1..]);
    assert NormalizePath(s) == [s[0]] + rest by {
      NoMatchNormalize(s);
    }
    var t := [s[0]] + rest;
    assert MatchEnd(t).None?;
    assert t[1..] == rest;
    NoMatchNormalize(t);
  }

  lemma NormalizeIdempotentEmptyBraces(s: string)
    requires |s| >= 2 && s[0] == '{' && s[1] == '}'
    ensures NormalizePath(NormalizePath(s)) == NormalizePath(s)
    decreases |s|, 0
  {
    var rest := NormalizePath(s[2..]);
    NormalizeIdempotent(s[2..]);
    assert NormalizePath(s) == s[..2] + rest by {
      EmptyBracesNormalize(s);
    }
    var t := s[..2] + rest;
    assert t[0] == '{' && t[1] == '}' && t[2..] == rest && t[..2] == s[..2];
    EmptyBracesNormalize(t);
  }

  lemma {:induction false} FillNormalize(s: string)
    ensures Fill(NormalizePath(s), ExtractPathParams(s)) == s
    decreases |s|
  {
    if s != [] {
      MatchEndMeaning(s);
      match MatchEnd(s)
      case Some(k) =>
        FillNormalize(s[k + 1..]);
        FillNormalizeMatch(s, k);
      case None =>
        if s[0] != '{' {
          FillNormalize(s[1..]);
          FillNormalizeOther(s);
        } else if NoCloseBefore(s, |s|) {
          NoCloseFixed(s);
          NoCloseFill(s, []);
        } else {
          FillNormalize(s[2..]);
          FillNormalizeEmptyBraces(s);
        }
    }
  }

  lemma SplitAtMatch(s: string, k: nat)
    requires MatchEnd(s) == Some(k)
    ensures s == "{" + s[1..k] + "}" + s[k + 1..]
  {
    assert s == s[..1] + s[1..k] + s[k..k + 1] + s[k + 1..];
    assert s[..1] == "{" && s[k..k + 1] == "}";
  }

  lemma FillNormalizeMatch(s: string, k: nat)
    requires MatchEnd(s) == Some(k)
    requires Fill(NormalizePath(s[k + 1..]), ExtractPathParams(s[k + 1..])) == s[k + 1..]
    ensures Fill(NormalizePath(s), ExtractPathParams(s)) == s
  {
    var rest := s[k + 1..];
    var name := s[1..k];
    var t := NormalizePath(rest);
    var names := ExtractPathParams(rest);
    assert NormalizePath(s) == "{param}" + t by {
      MatchNormalize(s, k);
    }
    assert ExtractPathParams(s) == [name] + names by {
      MatchExtract(s, k);
    }
    FillParam(t, name, names);
    assert Fill(NormalizePath(s), ExtractPathParams(s)) == "{" + name + "}" + rest;
    SplitAtMatch(s, k);
  }

  lemma FillNormalizeOther(s: string)
    requires s != [] && s[0] != '{'
    requires Fill(NormalizePath(s[1..]), ExtractPathParams(s[1..])) == s[1..]
    ensures Fill(NormalizePath(s), ExtractPathParams(s)) == s
  {
    var names := ExtractPathParams(s[1..]);
    NoMatchNormalize(s);
    NoMatchExtract(s);
    var t := NormalizePath(s);
    assert t[1..] == NormalizePath(s[1..]);
    NoMatchFill(t, names);
    assert s == [s[0]] + s[1..];
  }

  lemma FillNormalizeEmptyBraces(s: string)
    requires |s| >= 2 && s[0] == '{' && s[1] == '}'
    requires Fill(NormalizePath(s[2..]), ExtractPathParams(s[2..])) == s[2..]
    ensures Fill(NormalizePath(s), ExtractPathParams(s)) == s
  {
    var names := ExtractPathParams(s[2..]);
    EmptyBracesNormalize(s);
    EmptyBracesExtract(s);
    var t := NormalizePath(s);
    assert t[..2] == s[..2] && t[2..] == NormalizePath(s[2..]);
    EmptyBracesFill(t, names);
    assert s == s[..2] + s[2..];
  }
}
