/** The migration-path analysis of the detailed API comparison: which v3
    endpoints have a path shaped like a given v2 path, and how hard the
    move from that v2 endpoint looks. */
module ApiDetailed {
  import opened Wrappers
  import opened Data
  import opened Text
  import opened PathParams
  import ApiDiff

  // ---- find_path_mapping ----

  /** A path segment that is neither empty nor a parameter. */
  predicate IsStatic(part: string) {
    part != [] && part[0] != '{'
  }

  /** The static segments among `parts`, in order. */
  function StaticOf(parts: seq<string>): (r: seq<string>)
    ensures |r| <= |parts|
  {
    if parts == [] then []
    else (if IsStatic(parts[0]) then [parts[0]] else []) + StaticOf(parts[1..])
  }

  /** `p for p in path.split("/") if p and not p.startswith("{")`. */
  function StaticParts(path: string): seq<string> {
    StaticOf(Split(path, '/'))
  }

  lemma {:induction false} StaticOfMeaning(parts: seq<string>)
    ensures forall p :: p in StaticOf(parts) <==> p in parts && IsStatic(p)
  {
    if parts != [] {
      StaticOfMeaning(parts[1..]);
      assert forall p :: p in parts <==> p == parts[0] || p in parts[1..];
    }
  }

  /** The static segments are exactly the non-empty, non-parameter pieces
      between slashes. */
  lemma StaticPartsMeaning(path: string)
    ensures forall p :: p in StaticParts(path) <==> p in Split(path, '/') && IsStatic(p)
    ensures forall p :: p in StaticParts(path) ==> '/' !in p && p != [] && p[0] != '{'
  {
    StaticOfMeaning(Split(path, '/'));
  }

  function Elements(xs: seq<string>): set<string> {
    set x | x in xs
  }

  function Min(a: nat, b: nat): nat {
    if a <= b then a else b
  }

  /** The structural test: the same number of path parameters, and the
      static segments the two paths share (counted as a set) number at least
      half of the smaller static-segment count. Doubling the shared count
      keeps the half exact. */
  predicate SimilarPaths(v2Path: string, v3Path: string) {
    var a := StaticParts(v2Path);
    var b := StaticParts(v3Path);
    && |ExtractPathParams(v2Path)| == |ExtractPathParams(v3Path)|
    && 2 * |Elements(a) * Elements(b)| >= Min(|a|, |b|)
  }

  /** Similarity does not depend on which path is the old one. */
  lemma SimilarSymmetric(p: string, q: string)
    ensures SimilarPaths(p, q) <==> SimilarPaths(q, p)
  {
    assert Elements(StaticParts(p)) * Elements(StaticParts(q)) == Elements(StaticParts(q)) * Elements(StaticParts(p));
  }

  /** With no static segment on either side only the parameter count matters. */
  lemma NoStaticSimilar(p: string, q: string)
    requires StaticParts(p) == [] || StaticParts(q) == []
    ensures SimilarPaths(p, q) <==> |ExtractPathParams(p)| == |ExtractPathParams(q)|
  {
    assert Min(|StaticParts(p)|, |StaticParts(q)|) == 0;
  }

  /** Repeating a static segment shrinks the shared set but not the count it
      is compared with, so a path can fail to be similar to itself. */
  lemma RepeatedSegmentNotSelfSimilar()
    ensures !SimilarPaths("/a/a/a", "/a/a/a")
  {
    RepeatedSegmentParts();
    assert Elements(["a", "a", "a"]) == {"a"};
  }

  lemma RepeatedSegmentParts()
    ensures StaticParts("/a/a/a") == ["a", "a", "a"]
  {
    SplitNoSep("a", '/');
    SplitAppend("a", '/', "a");
    assert "a" + ['/'] + "a" == "a/a";
    SplitAppend("a", '/', "a/a");
    assert "a" + ['/'] + "a/a" == "a/a/a";
    SplitAppend("", '/', "a/a/a");
    assert "" + ['/'] + "a/a/a" == "/a/a/a";
    assert StaticOf(["", "a", "a", "a"]) == ["a", "a", "a"];
  }

  /** A path whose static segments are pairwise different is similar to itself. */
  lemma SelfSimilar(p: string)
    requires forall i, j :: 0 <= i < j < |StaticParts(p)| ==> StaticParts(p)[i] != StaticParts(p)[j]
    ensures SimilarPaths(p, p)
  {
    var a := StaticParts(p);
    DistinctCard(a);
    assert Elements(a) * Elements(a) == Elements(a);
  }

  lemma {:induction false} DistinctCard(xs: seq<string>)
    requires forall i, j :: 0 <= i < j < |xs| ==> xs[i] != xs[j]
    ensures |Elements(xs)| == |xs|
  {
    if xs != [] {
      DistinctCard(xs[1..]);
      assert Elements(xs) == {xs[0]} + Elements(xs[1..]);
      assert xs[0] !in Elements(xs[1..]);
    }
  }

  /** An endpoint record whose `path` member is text. */
  predicate HasPath(v: Value) {
    v.VDict? && Get(v.members, "path").Some? && Get(v.members, "path").value.VStr?
  }

  predicate PathsRecorded(endpoints: seq<Member>) {
    forall i :: 0 <= i < |endpoints| ==> HasPath(endpoints[i].value)
  }

  /** `v3_data["path"]`. */
  function PathOf(v: Value): string
    requires HasPath(v)
  {
    Get(v.members, "path").value.s
  }

  /** The keys of the endpoints, in order, whose path is similar to `v2Path`. */
  function Candidates(v2Path: string, endpoints: seq<Member>): seq<string>
    requires PathsRecorded(endpoints)
    decreases |endpoints|
  {
    if endpoints == [] then []
    else
      var n := |endpoints| - 1;
      Candidates(v2Path, endpoints[..n])
        + (if SimilarPaths(v2Path, PathOf(endpoints[n].value)) then [endpoints[n].key] else [])
  }

  /** Every candidate is the key of an endpoint with a similar path. */
  lemma {:induction false} CandidatesSound(v2Path: string, endpoints: seq<Member>, k: string)
    requires PathsRecorded(endpoints)
    requires k in Candidates(v2Path, endpoints)
    ensures exists i :: 0 <= i < |endpoints| && endpoints[i].key == k && SimilarPaths(v2Path, PathOf(endpoints[i].value))
    decreases |endpoints|
  {
    var n := |endpoints| - 1;
    var before := endpoints[..n];
    if k in Candidates(v2Path, before) {
      CandidatesSound(v2Path, before, k);
      var i :| 0 <= i < |before| && before[i].key == k && SimilarPaths(v2Path, PathOf(before[i].value));
      assert endpoints[i] == before[i];
    } else {
      assert endpoints[n].key == k && SimilarPaths(v2Path, PathOf(endpoints[n].value));
    }
  }

  /** Candidates found among the earlier endpoints stay candidates. */
  lemma CandidatesPrefix(v2Path: string, endpoints: seq<Member>, k: string)
    requires PathsRecorded(endpoints) && endpoints != []
    requires k in Candidates(v2Path, endpoints[..|endpoints| - 1])
    ensures k in Candidates(v2Path, endpoints)
  {
  }

  /** The last endpoint is a candidate when its path is similar. */
  lemma CandidatesLast(v2Path: string, endpoints: seq<Member>)
    requires PathsRecorded(endpoints) && endpoints != []
    requires SimilarPaths(v2Path, PathOf(endpoints[|endpoints| - 1].value))
    ensures endpoints[|endpoints| - 1].key in Candidates(v2Path, endpoints)
  {
  }

  /** The key of every endpoint with a similar path is a candidate. */
  lemma {:induction false} CandidatesComplete(v2Path: string, endpoints: seq<Member>, i: nat)
    requires PathsRecorded(endpoints)
    requires i < |endpoints| && SimilarPaths(v2Path, PathOf(endpoints[i].value))
    ensures endpoints[i].key in Candidates(v2Path, endpoints)
    decreases |endpoints|
  {
    var n := |endpoints| - 1;
    if i < n {
      var before := endpoints[..n];
      assert before[i] == endpoints[i];
      CandidatesComplete(v2Path, before, i);
      CandidatesPrefix(v2Path, endpoints, endpoints[i].key);
    } else {
      CandidatesLast(v2Path, endpoints);
    }
  }

  lemma {:induction false} CandidatesLength(v2Path: string, endpoints: seq<Member>)
    requires PathsRecorded(endpoints)
    ensures |Candidates(v2Path, endpoints)| <= |endpoints|
    decreases |endpoints|
  {
    if endpoints != [] {
      CandidatesLength(v2Path, endpoints[..|endpoints| - 1]);
    }
  }

  /** A key is a candidate exactly when some endpoint carrying it has a
      similar path; there are never more candidates than endpoints. */
  lemma CandidatesMeaning(v2Path: string, endpoints: seq<Member>)
    requires PathsRecorded(endpoints)
    ensures |Candidates(v2Path, endpoints)| <= |endpoints|
    ensures forall k :: k in Candidates(v2Path, endpoints) <==>
      exists i :: 0 <= i < |endpoints| && endpoints[i].key == k && SimilarPaths(v2Path, PathOf(endpoints[i].value))
  {
    CandidatesLength(v2Path, endpoints);
    forall k ensures k in Candidates(v2Path, endpoints) ==>
      exists i :: 0 <= i < |endpoints| && endpoints[i].key == k && SimilarPaths(v2Path, PathOf(endpoints[i].value))
    {
      if k in Candidates(v2Path, endpoints) {
        CandidatesSound(v2Path, endpoints, k);
      }
    }
    forall i | 0 <= i < |endpoints| && SimilarPaths(v2Path, PathOf(endpoints[i].value))
      ensures endpoints[i].key in Candidates(v2Path, endpoints)
    {
      CandidatesComplete(v2Path, endpoints, i);
    }
  }

  /** `find_path_mapping`: one pass over the v3 endpoints, appending the key
      of each one whose path is similar to `v2Path`. */
  method FindPathMapping(v2Path: string, v3Endpoints: seq<Member>) returns (candidates: seq<string>)
    requires PathsRecorded(v3Endpoints)
    ensures candidates == Candidates(v2Path, v3Endpoints)
  {
    var v2Params := ExtractPathParams(v2Path);
    var v2Parts := StaticParts(v2Path);
    candidates := [];
    for i := 0 to |v3Endpoints|
      invariant candidates == Candidates(v2Path, v3Endpoints[..i])
    {
      assert v3Endpoints[..i + 1][..i] == v3Endpoints[..i];
      var v3Path := PathOf(v3Endpoints[i].value);
      var v3Params := ExtractPathParams(v3Path);
      var v3Parts := StaticParts(v3Path);
      if |v2Params| == |v3Params| {
        var common := Elements(v2Parts) * Elements(v3Parts);
        if 2 * |common| >= Min(|v2Parts|, |v3Parts|) {
          candidates := candidates + [v3Endpoints[i].key];
        }
      }
    }
    assert v3Endpoints[..|v3Endpoints|] == v3Endpoints;
  }

  // ---- analyze_migration_path ----

  datatype Migration = Migration(
    v2Endpoint: string,
    v2Summary: Value,
    v3Candidates: seq<string>,
    complexity: string,
    recommendations: seq<string>)

  const NoEquivalent := "No direct v3 equivalent found. May require restructured approach."
  const DirectMapping := "Direct 1:1 mapping available with path changes."
  const SeveralMappings := "Multiple potential mappings. Requires careful analysis."

  /** Unpacking `candidate.split(" ", 1)` into two names fails on a key
      without a space. */
  const UnpackError := "ValueError: not enough values to unpack"

  /** The candidates whose method (the text before the first space) is
      `verb`, in order; the first candidate without a space stops the scan. */
  function KeepMethod(verb: string, cands: seq<string>): Result<seq<string>, string>
    decreases |cands|
  {
    if cands == [] then Ok([])
    else
      var n := |cands| - 1;
      var before := KeepMethod(verb, cands[..n]);
      if before.Err? then before
      else if ' ' !in cands[n] then Err(UnpackError)
      else if SplitOnce(cands[n], ' ').0 == verb then Ok(before.value + [cands[n]])
      else before
  }

  /** The scan succeeds exactly when every candidate has a space, and then
      keeps exactly the candidates with the method asked for. */
  lemma {:induction false} KeepMethodMeaning(verb: string, cands: seq<string>)
    ensures KeepMethod(verb, cands).Ok? <==> forall c :: c in cands ==> ' ' in c
    ensures KeepMethod(verb, cands).Err? ==> KeepMethod(verb, cands).error == UnpackError
    ensures KeepMethod(verb, cands).Ok? ==>
      && |KeepMethod(verb, cands).value| <= |cands|
      && forall c :: c in KeepMethod(verb, cands).value <==> c in cands && SplitOnce(c, ' ').0 == verb
    decreases |cands|
  {
    if cands != [] {
      var n := |cands| - 1;
      KeepMethodMeaning(verb, cands[..n]);
      assert cands == cands[..n] + [cands[n]];
      assert forall c :: c in cands <==> c in cands[..n] || c == cands[n];
    }
  }

  /** The complexity rating for a number of same-method candidates. */
  function Complexity(count: nat): string {
    if count == 0 then "high" else if count == 1 then "low" else "medium"
  }

  function Recommendation(count: nat): string {
    if count == 0 then NoEquivalent else if count == 1 then DirectMapping else SeveralMappings
  }

  /** What `analyze_migration_path` returns for a `"METHOD path"` endpoint. */
  function MigrationOf(v2Endpoint: string, v2Data: seq<Member>, v3Endpoints: seq<Member>): Result<Migration, string>
    requires ' ' in v2Endpoint && PathsRecorded(v3Endpoints)
  {
    var (verb, path) := SplitOnce(v2Endpoint, ' ');
    match KeepMethod(verb, Candidates(path, v3Endpoints))
    case Err(e) => Err(e)
    case Ok(kept) =>
      Ok(Migration(v2Endpoint, GetOr(v2Data, "summary", VStr("")), kept,
                   Complexity(|kept|), [Recommendation(|kept|)]))
  }

  /** `analyze_migration_path`: the record starts as "unknown" with no
      candidates or recommendations, the loop appends the candidates with
      the v2 method, and the count decides the rating and its one
      recommendation. */
  method AnalyzeMigrationPath(v2Endpoint: string, v2Data: seq<Member>, v3Endpoints: seq<Member>)
    returns (r: Result<Migration, string>)
    requires ' ' in v2Endpoint && PathsRecorded(v3Endpoints)
    ensures r == MigrationOf(v2Endpoint, v2Data, v3Endpoints)
  {
    var (verb, path) := SplitOnce(v2Endpoint, ' ');
    var v3Candidates := FindPathMapping(path, v3Endpoints);
    var kept: seq<string> := [];
    var complexity := "unknown";
    var recommendations: seq<string> := [];
    for i := 0 to |v3Candidates|
      invariant KeepMethod(verb, v3Candidates[..i]) == Ok(kept)
    {
      assert v3Candidates[..i + 1][..i] == v3Candidates[..i];
      var candidate := v3Candidates[i];
      if ' ' !in candidate {
        KeepMethodMeaning(verb, v3Candidates);
        return Err(UnpackError);
      }
      var (candMethod, candPath) := SplitOnce(candidate, ' ');
      if candMethod == verb {
        kept := kept + [candidate];
      }
    }
    assert v3Candidates[..|v3Candidates|] == v3Candidates;
    assert KeepMethod(verb, Candidates(path, v3Endpoints)) == Ok(kept);
    if |kept| == 0 {
      complexity := "high";
      recommendations := recommendations + [NoEquivalent];
    } else if |kept| == 1 {
      complexity := "low";
      recommendations := recommendations + [DirectMapping];
    } else {
      complexity := "medium";
      recommendations := recommendations + [SeveralMappings];
    }
    assert complexity == Complexity(|kept|) && recommendations == [Recommendation(|kept|)];
    r := Ok(Migration(v2Endpoint, GetOr(v2Data, "summary", VStr("")), kept, complexity, recommendations));
  }

  /** The rating is never left at "unknown", there is exactly one
      recommendation, and "high"/"low" mean no/exactly one candidate. The
      kept candidates are exactly the v3 keys with the v2 method whose path
      is similar to the v2 path; the analysis fails only on a candidate key
      without a space. */
  lemma MigrationMeaning(v2Endpoint: string, v2Data: seq<Member>, v3Endpoints: seq<Member>)
    requires ' ' in v2Endpoint && PathsRecorded(v3Endpoints)
    ensures var r := MigrationOf(v2Endpoint, v2Data, v3Endpoints);
      var cands := Candidates(SplitOnce(v2Endpoint, ' ').1, v3Endpoints);
      r.Err? <==> exists c :: c in cands && ' ' !in c
    ensures var r := MigrationOf(v2Endpoint, v2Data, v3Endpoints);
      r.Ok? ==>
        && r.value.complexity in {"high", "low", "medium"}
        && r.value.complexity != "unknown"
        && |r.value.recommendations| == 1
        && (r.value.complexity == "high" <==> r.value.v3Candidates == [])
        && (r.value.complexity == "low" <==> |r.value.v3Candidates| == 1)
        && r.value.v2Summary == GetOr(v2Data, "summary", VStr(""))
    ensures var r := MigrationOf(v2Endpoint, v2Data, v3Endpoints);
      var (verb, path) := SplitOnce(v2Endpoint, ' ');
      r.Ok? ==> forall k :: k in r.value.v3Candidates <==>
        && ' ' in k && SplitOnce(k, ' ').0 == verb
        && exists i :: 0 <= i < |v3Endpoints| && v3Endpoints[i].key == k && SimilarPaths(path, PathOf(v3Endpoints[i].value))
  {
    var (verb, path) := SplitOnce(v2Endpoint, ' ');
    CandidatesMeaning(path, v3Endpoints);
    KeepMethodMeaning(verb, Candidates(path, v3Endpoints));
  }

  /** Records built by `get_endpoints` carry their path and a spaced key, so
      analysing a v2 endpoint against them never fails. */
  lemma EndpointsFeedMigration(v2Endpoint: string, v2Data: seq<Member>, openapi: seq<Member>)
    requires ApiDiff.OpenApiShaped(openapi) && ' ' in v2Endpoint
    ensures PathsRecorded(ApiDiff.Endpoints(openapi))
    ensures MigrationOf(v2Endpoint, v2Data, ApiDiff.Endpoints(openapi)).Ok?
  {
    var endpoints := ApiDiff.Endpoints(openapi);
    ApiDiff.EndpointsMeaning(openapi);
    forall i | 0 <= i < |endpoints|
      ensures HasPath(endpoints[i].value) && ' ' in endpoints[i].key
    {
      var e := endpoints[i];
      assert ApiDiff.RecordMatchesKey(e);
      assert e.key[|e.value.members[1].value.s|] == ' ';
    }
    MigrationMeaning(v2Endpoint, v2Data, endpoints);
    CandidatesMeaning(SplitOnce(v2Endpoint, ' ').1, endpoints);
  }
}
