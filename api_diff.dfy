/** The migration script that compares two OpenAPI documents of the NocoDB
    API: collecting the endpoints of a document, matching the endpoints of two
    versions by key and by path shape, and sorting the breaking changes into
    functional categories. */
module ApiDiff {
  import opened Wrappers
  import opened Data
  import opened Text
  import PathParams

  // ---- get_endpoints ----

  /** The HTTP methods an OpenAPI path item may declare operations for. */
  const HttpMethods: seq<string> := ["get", "post", "put", "patch", "delete", "head", "options"]

  predicate IsHttpMethod(verb: string) {
    Lower(verb) in HttpMethods
  }

  /** The endpoint key, e.g. `GET /api/v2/tables`. */
  function EndpointKey(verb: string, path: string): string {
    Upper(verb) + " " + path
  }

  /** The record kept for one operation: its path, its upper-cased method,
      the operation object and the fields read from it. */
  function EndpointInfo(path: string, verb: string, spec: seq<Member>): Value {
    VDict([Member("path", VStr(path)), Member("method", VStr(Upper(verb)))] + OperationFields(spec))
  }

  /** The operation object and the fields read from it, missing ones taking
      their defaults (empty text, empty list or empty object). */
  function OperationFields(spec: seq<Member>): seq<Member> {
    [
      Member("spec", VDict(spec)),
      Member("summary", GetOr(spec, "summary", VStr(""))),
      Member("description", GetOr(spec, "description", VStr(""))),
      Member("operationId", GetOr(spec, "operationId", VStr(""))),
      Member("tags", GetOr(spec, "tags", VList([]))),
      Member("parameters", GetOr(spec, "parameters", VList([]))),
      Member("requestBody", GetOr(spec, "requestBody", VDict([]))),
      Member("responses", GetOr(spec, "responses", VDict([]))),
      Member("security", GetOr(spec, "security", VList([])))
    ]
  }

  /** A path item: every HTTP-method member holds an operation object (other
      members, such as shared `parameters`, are skipped and may be anything). */
  predicate MethodsShaped(methods: seq<Member>) {
    forall j :: 0 <= j < |methods| && IsHttpMethod(methods[j].key) ==> methods[j].value.VDict?
  }

  predicate PathShaped(item: Member) {
    item.value.VDict? && MethodsShaped(item.value.members)
  }

  /** The `paths` object: every path maps to a path item. */
  predicate PathsShaped(paths: seq<Member>) {
    forall i :: 0 <= i < |paths| ==> PathShaped(paths[i])
  }

  function PathsOf(openapi: seq<Member>): Value {
    GetOr(openapi, "paths", VDict([]))
  }

  /** What the script needs of a document: a `paths` object (or none) of path
      items. Anything else makes it fail on `.items()` or `.get`. */
  predicate OpenApiShaped(openapi: seq<Member>) {
    PathsOf(openapi).VDict? && PathsShaped(PathsOf(openapi).members)
  }

  /** The endpoints after visiting the members of one path item, in order. */
  function AddOperations(acc: seq<Member>, path: string, methods: seq<Member>): seq<Member>
    requires MethodsShaped(methods)
    decreases |methods|
  {
    if methods == [] then acc
    else
      var last := methods[|methods| - 1];
      var before := AddOperations(acc, path, methods[..|methods| - 1]);
      if IsHttpMethod(last.key) then
        Put(before, EndpointKey(last.key, path), EndpointInfo(path, last.key, last.value.members))
      else before
  }

  /** The endpoints after visiting the given path items, in order. */
  function CollectEndpoints(paths: seq<Member>): seq<Member>
    requires PathsShaped(paths)
    decreases |paths|
  {
    if paths == [] then []
    else
      var last := paths[|paths| - 1];
      AddOperations(CollectEndpoints(paths[..|paths| - 1]), last.key, last.value.members)
  }

  /** The endpoints of a document. */
  function Endpoints(openapi: seq<Member>): seq<Member>
    requires OpenApiShaped(openapi)
  {
    CollectEndpoints(PathsOf(openapi).members)
  }

  /** Extracts all endpoints of an OpenAPI document, keyed `METHOD path`. */
  method GetEndpoints(openapi: seq<Member>) returns (endpoints: seq<Member>)
    requires OpenApiShaped(openapi)
    ensures endpoints == Endpoints(openapi)
  {
    endpoints := [];
    var paths := PathsOf(openapi).members;
    for i := 0 to |paths|
      invariant endpoints == CollectEndpoints(paths[..i])
    {
      var path := paths[i].key;
      var methods := paths[i].value.members;
      assert paths[..i + 1][..i] == paths[..i];
      for j := 0 to |methods|
        invariant endpoints == AddOperations(CollectEndpoints(paths[..i]), path, methods[..j])
      {
        var m := methods[j];
        assert methods[..j + 1][..j] == methods[..j];
        if Lower(m.key) in HttpMethods {
          endpoints := Put(endpoints, EndpointKey(m.key, path), EndpointInfo(path, m.key, m.value.members));
        }
      }
      assert methods[..|methods|] == methods;
    }
    assert paths[..|paths|] == paths;
  }

  /** The path item member `m` of `path` is an operation keyed `key`. */
  predicate OperationKeyed(m: Member, path: string, key: string) {
    IsHttpMethod(m.key) && key == EndpointKey(m.key, path)
  }

  /** `path` declares an operation whose endpoint key is `key`. */
  predicate OperationFor(methods: seq<Member>, path: string, key: string) {
    exists j :: 0 <= j < |methods| && OperationKeyed(methods[j], path, key)
  }

  predicate DeclaresKey(item: Member, key: string) {
    item.value.VDict? && OperationFor(item.value.members, item.key, key)
  }

  /** Some path item of the document declares an operation keyed `key`. */
  predicate Declared(paths: seq<Member>, key: string) {
    exists i :: 0 <= i < |paths| && DeclaresKey(paths[i], key)
  }

  /** One more member of a path item adds its operation, if it is one. */
  lemma OperationForSnoc(methods: seq<Member>, path: string, key: string)
    requires methods != []
    ensures var n := |methods| - 1;
      OperationFor(methods, path, key) <==> OperationFor(methods[..n], path, key) || OperationKeyed(methods[n], path, key)
  {
    var n := |methods| - 1;
    if OperationFor(methods, path, key) {
      OperationSplit(methods, path, key);
    }
    if OperationFor(methods[..n], path, key) {
      OperationPrefix(methods, path, key);
    }
    if OperationKeyed(methods[n], path, key) {
      assert 0 <= n < |methods| && OperationKeyed(methods[n], path, key);
    }
  }

  lemma OperationSplit(methods: seq<Member>, path: string, key: string)
    requires methods != [] && OperationFor(methods, path, key)
    ensures OperationFor(methods[..|methods| - 1], path, key) || OperationKeyed(methods[|methods| - 1], path, key)
  {
    var j :| 0 <= j < |methods| && OperationKeyed(methods[j], path, key);
    if j < |methods| - 1 {
      assert methods[..|methods| - 1][j] == methods[j];
    }
  }

  lemma OperationPrefix(methods: seq<Member>, path: string, key: string)
    requires methods != [] && OperationFor(methods[..|methods| - 1], path, key)
    ensures OperationFor(methods, path, key)
  {
    var pre := methods[..|methods| - 1];
    var j :| 0 <= j < |pre| && OperationKeyed(pre[j], path, key);
    assert methods[j] == pre[j];
  }

  lemma {:induction false} AddOperationsKeys(acc: seq<Member>, path: string, methods: seq<Member>, key: string)
    requires MethodsShaped(methods)
    ensures HasKey(AddOperations(acc, path, methods), key) <==> HasKey(acc, key) || OperationFor(methods, path, key)
    decreases |methods|
  {
    if methods != [] {
      var n := |methods| - 1;
      var last := methods[n];
      var before := AddOperations(acc, path, methods[..n]);
      AddOperationsKeys(acc, path, methods[..n], key);
      OperationForSnoc(methods, path, key);
      if IsHttpMethod(last.key) {
        var info := EndpointInfo(path, last.key, last.value.members);
        assert AddOperations(acc, path, methods) == Put(before, EndpointKey(last.key, path), info);
        HasKeyPut(before, EndpointKey(last.key, path), info, key);
      } else {
        assert AddOperations(acc, path, methods) == before;
      }
    }
  }

  /** One more path item adds the operations it declares. */
  lemma DeclaredSnoc(paths: seq<Member>, key: string)
    requires paths != []
    ensures var n := |paths| - 1;
      Declared(paths, key) <==> Declared(paths[..n], key) || DeclaresKey(paths[n], key)
  {
    var n := |paths| - 1;
    if Declared(paths, key) {
      DeclaredSplit(paths, key);
    }
    if Declared(paths[..n], key) {
      DeclaredPrefix(paths, key);
    }
    if DeclaresKey(paths[n], key) {
      assert 0 <= n < |paths| && DeclaresKey(paths[n], key);
    }
  }

  lemma DeclaredSplit(paths: seq<Member>, key: string)
    requires paths != [] && Declared(paths, key)
    ensures Declared(paths[..|paths| - 1], key) || DeclaresKey(paths[|paths| - 1], key)
  {
    var i :| 0 <= i < |paths| && DeclaresKey(paths[i], key);
    if i < |paths| - 1 {
      assert paths[..|paths| - 1][i] == paths[i];
    }
  }

  lemma DeclaredPrefix(paths: seq<Member>, key: string)
    requires paths != [] && Declared(paths[..|paths| - 1], key)
    ensures Declared(paths, key)
  {
    var pre := paths[..|paths| - 1];
    var i :| 0 <= i < |pre| && DeclaresKey(pre[i], key);
    assert paths[i] == pre[i];
  }

  lemma {:induction false} CollectKeys(paths: seq<Member>, key: string)
    requires PathsShaped(paths)
    ensures HasKey(CollectEndpoints(paths), key) <==> Declared(paths, key)
    decreases |paths|
  {
    if paths != [] {
      var n := |paths| - 1;
      var before := CollectEndpoints(paths[..n]);
      assert PathShaped(paths[n]);
      CollectKeys(paths[..n], key);
      assert CollectEndpoints(paths) == AddOperations(before, paths[n].key, paths[n].value.members);
      AddOperationsKeys(before, paths[n].key, paths[n].value.members, key);
      DeclaredSnoc(paths, key);
    }
  }

  /** An endpoint's key is its record's method, a space and its record's path. */
  predicate RecordMatchesKey(e: Member) {
    && e.value.VDict?
    && |e.value.members| >= 2
    && e.value.members[0].key == "path" && e.value.members[0].value.VStr?
    && e.value.members[1].value.VStr?
    && e.key == e.value.members[1].value.s + " " + e.value.members[0].value.s
  }

  /** A record built for an operation spells its own key. */
  lemma InfoMatchesKey(path: string, verb: string, spec: seq<Member>)
    ensures RecordMatchesKey(Member(EndpointKey(verb, path), EndpointInfo(path, verb, spec)))
  {
  }

  /** Storing a record that spells its key keeps every record spelling its key. */
  lemma PutRecord(before: seq<Member>, k: string, v: Value)
    requires DistinctKeys(before) && forall e :: e in before ==> RecordMatchesKey(e)
    requires RecordMatchesKey(Member(k, v))
    ensures DistinctKeys(Put(before, k, v)) && forall e :: e in Put(before, k, v) ==> RecordMatchesKey(e)
  {
    PutDistinct(before, k, v);
    PutMembers(before, k, v);
  }

  lemma {:induction false} AddOperationsRecords(acc: seq<Member>, path: string, methods: seq<Member>)
    requires MethodsShaped(methods)
    requires DistinctKeys(acc) && forall e :: e in acc ==> RecordMatchesKey(e)
    ensures var r := AddOperations(acc, path, methods);
      DistinctKeys(r) && forall e :: e in r ==> RecordMatchesKey(e)
    decreases |methods|
  {
    if methods != [] {
      var n := |methods| - 1;
      var last := methods[n];
      var before := AddOperations(acc, path, methods[..n]);
      AddOperationsRecords(acc, path, methods[..n]);
      if IsHttpMethod(last.key) {
        var k := EndpointKey(last.key, path);
        var v := EndpointInfo(path, last.key, last.value.members);
        assert AddOperations(acc, path, methods) == Put(before, k, v);
        InfoMatchesKey(path, last.key, last.value.members);
        PutRecord(before, k, v);
      } else {
        assert AddOperations(acc, path, methods) == before;
      }
    }
  }

  lemma {:induction false} CollectRecords(paths: seq<Member>)
    requires PathsShaped(paths)
    ensures var r := CollectEndpoints(paths);
      DistinctKeys(r) && forall e :: e in r ==> RecordMatchesKey(e)
    decreases |paths|
  {
    if paths != [] {
      var n := |paths| - 1;
      CollectRecords(paths[..n]);
      AddOperationsRecords(CollectEndpoints(paths[..n]), paths[n].key, paths[n].value.members);
    }
  }

  /** The endpoints of a document are exactly its declared operations, each
      under one key, and every record's method and path spell its key. */
  lemma EndpointsMeaning(openapi: seq<Member>)
    requires OpenApiShaped(openapi)
    ensures forall key :: HasKey(Endpoints(openapi), key) <==> Declared(PathsOf(openapi).members, key)
    ensures DistinctKeys(Endpoints(openapi))
    ensures forall e :: e in Endpoints(openapi) ==> RecordMatchesKey(e)
  {
    forall key ensures HasKey(Endpoints(openapi), key) <==> Declared(PathsOf(openapi).members, key) {
      CollectKeys(PathsOf(openapi).members, key);
    }
    CollectRecords(PathsOf(openapi).members);
  }

  // ---- compare_endpoints ----

  predicate Distinct(xs: seq<string>) {
    forall i, j :: 0 <= i < j < |xs| ==> xs[i] != xs[j]
  }

  function Elements(xs: seq<string>): set<string> {
    set x | x in xs
  }

  datatype Comparison = Comparison(
    exactMatches: set<string>,
    removed: set<string>,
    added: set<string>,
    potentiallyRenamed: seq<(string, string)>)

  /** `{normalize_path(ep): ep for ep in keys}`: one entry per path shape, the
      shape keeping the position of its first endpoint and the value of its
      last. */
  function ShapeIndex(keys: seq<string>): seq<Member>
    decreases |keys|
  {
    if keys == [] then []
    else
      var last := keys[|keys| - 1];
      Put(ShapeIndex(keys[..|keys| - 1]), PathParams.NormalizePath(last), VStr(last))
  }

  /** Each entry of a shape index maps a shape to an endpoint of that shape. */
  predicate ShapesFit(index: seq<Member>, keys: seq<string>) {
    forall e :: e in index ==> e.value.VStr? && e.value.s in keys && PathParams.NormalizePath(e.value.s) == e.key
  }

  lemma {:induction false} ShapeIndexFacts(keys: seq<string>)
    ensures DistinctKeys(ShapeIndex(keys)) && ShapesFit(ShapeIndex(keys), keys)
    decreases |keys|
  {
    if keys != [] {
      var n := |keys| - 1;
      var before := ShapeIndex(keys[..n]);
      ShapeIndexFacts(keys[..n]);
      PutDistinct(before, PathParams.NormalizePath(keys[n]), VStr(keys[n]));
      PutMembers(before, PathParams.NormalizePath(keys[n]), VStr(keys[n]));
    }
  }

  /** The renaming candidates found while visiting the v2 shape index in order. */
  function RenamedPairs(items: seq<Member>, v3Index: seq<Member>, removed: set<string>, added: set<string>): seq<(string, string)>
    decreases |items|
  {
    if items == [] then []
    else
      var before := RenamedPairs(items[..|items| - 1], v3Index, removed, added);
      var item := items[|items| - 1];
      match (item.value, Get(v3Index, item.key))
      case (VStr(v2Ep), Some(VStr(v3Ep))) =>
        if v2Ep in removed && v3Ep in added then before + [(v2Ep, v3Ep)] else before
      case _ => before
  }

  /** A renaming pairs a removed endpoint with a new one of the same shape. */
  predicate PairFits(p: (string, string), removed: set<string>, added: set<string>) {
    p.0 in removed && p.1 in added && PathParams.NormalizePath(p.0) == PathParams.NormalizePath(p.1)
  }

  /** The last item of the index adds at most one pair, of its own shape. */
  lemma RenamedPairsStep(items: seq<Member>, v3Index: seq<Member>, v3Keys: seq<string>, removed: set<string>, added: set<string>)
    requires items != []
    requires forall e :: e in items ==> e.value.VStr? && PathParams.NormalizePath(e.value.s) == e.key
    requires ShapesFit(v3Index, v3Keys)
    ensures var n := |items| - 1;
      var before := RenamedPairs(items[..n], v3Index, removed, added);
      var r := RenamedPairs(items, v3Index, removed, added);
      r == before || (r == before + [r[|before|]] && PairFits(r[|before|], removed, added)
        && PathParams.NormalizePath(r[|before|].0) == items[n].key)
  {
    var item := items[|items| - 1];
    assert item in items;
    var found := Get(v3Index, item.key);
    if found.Some? {
      assert Member(item.key, found.value) in v3Index;
    }
  }

  lemma {:induction false} RenamedPairsFacts(items: seq<Member>, v3Index: seq<Member>, v3Keys: seq<string>, removed: set<string>, added: set<string>)
    requires DistinctKeys(items)
    requires forall e :: e in items ==> e.value.VStr? && PathParams.NormalizePath(e.value.s) == e.key
    requires ShapesFit(v3Index, v3Keys)
    ensures var r := RenamedPairs(items, v3Index, removed, added);
      && (forall k :: 0 <= k < |r| ==> PairFits(r[k], removed, added) && HasKey(items, PathParams.NormalizePath(r[k].0)))
      && (forall k, l :: 0 <= k < l < |r| ==> PathParams.NormalizePath(r[k].0) != PathParams.NormalizePath(r[l].0))
    decreases |items|
  {
    if items != [] {
      var n := |items| - 1;
      var pre := items[..n];
      assert forall e :: e in pre ==> e in items;
      var before := RenamedPairs(pre, v3Index, removed, added);
      RenamedPairsFacts(pre, v3Index, v3Keys, removed, added);
      RenamedPairsStep(items, v3Index, v3Keys, removed, added);
      var r := RenamedPairs(items, v3Index, removed, added);
      forall k | 0 <= k < |before|
        ensures HasKey(items, PathParams.NormalizePath(before[k].0))
        ensures PathParams.NormalizePath(before[k].0) != items[n].key
      {
        assert HasKey(pre, PathParams.NormalizePath(before[k].0));
        var i :| 0 <= i < |pre| && pre[i].key == PathParams.NormalizePath(before[k].0);
        assert items[i] == pre[i];
      }
      if r != before {
        assert HasKey(items, items[n].key);
      }
    }
  }

  /** Every removed endpoint of the old index whose shape leads, in the new
      index, to an added endpoint yields that pair. */
  lemma {:induction false} RenamedPairsComplete(items: seq<Member>, v3Index: seq<Member>, removed: set<string>,
                                                added: set<string>, i: nat, v2Ep: string, v3Ep: string)
    requires i < |items| && items[i].value == VStr(v2Ep) && v2Ep in removed
    requires Get(v3Index, items[i].key) == Some(VStr(v3Ep)) && v3Ep in added
    ensures (v2Ep, v3Ep) in RenamedPairs(items, v3Index, removed, added)
    decreases |items|
  {
    var n := |items| - 1;
    var before := RenamedPairs(items[..n], v3Index, removed, added);
    var r := RenamedPairs(items, v3Index, removed, added);
    if i == n {
      assert r == before + [(v2Ep, v3Ep)];
    } else {
      assert items[..n][i] == items[i];
      RenamedPairsComplete(items[..n], v3Index, removed, added, i, v2Ep, v3Ep);
      assert r == before || r == before + [r[|r| - 1]];
    }
  }

  /** The loop over the old index that pairs each removed endpoint with the
      added endpoint of the same shape. */
  method PairRenamed(v2Index: seq<Member>, v3Index: seq<Member>, removed: set<string>, added: set<string>)
    returns (renamed: seq<(string, string)>)
    ensures renamed == RenamedPairs(v2Index, v3Index, removed, added)
  {
    renamed := [];
    for i := 0 to |v2Index|
      invariant renamed == RenamedPairs(v2Index[..i], v3Index, removed, added)
    {
      var item := v2Index[i];
      assert v2Index[..i + 1][..i] == v2Index[..i];
      var found := Get(v3Index, item.key);
      match (item.value, found)
      case (VStr(v2Ep), Some(VStr(v3Ep))) =>
        if v2Ep in removed && v3Ep in added {
          renamed := renamed + [(v2Ep, v3Ep)];
        }
      case _ =>
    }
    assert v2Index[..|v2Index|] == v2Index;
  }

  /** Compares the endpoint keys of two API versions. Python enumerates the
      key sets in hash order; `v2Keys` and `v3Keys` are those enumerations. */
  method CompareEndpoints(v2Keys: seq<string>, v3Keys: seq<string>) returns (c: Comparison)
    requires Distinct(v2Keys) && Distinct(v3Keys)
    ensures c.exactMatches == Elements(v2Keys) * Elements(v3Keys)
    ensures c.removed == Elements(v2Keys) - Elements(v3Keys)
    ensures c.added == Elements(v3Keys) - Elements(v2Keys)
    ensures c.potentiallyRenamed == RenamedPairs(ShapeIndex(v2Keys), ShapeIndex(v3Keys), c.removed, c.added)
    ensures forall k :: 0 <= k < |c.potentiallyRenamed| ==> PairFits(c.potentiallyRenamed[k], c.removed, c.added)
    ensures forall k, l :: 0 <= k < l < |c.potentiallyRenamed| ==>
      c.potentiallyRenamed[k].0 != c.potentiallyRenamed[l].0 && c.potentiallyRenamed[k].1 != c.potentiallyRenamed[l].1
  {
    var v2 := Elements(v2Keys);
    var v3 := Elements(v3Keys);
    var removed := v2 - v3;
    var added := v3 - v2;
    var v2Index := ShapeIndex(v2Keys);
    var v3Index := ShapeIndex(v3Keys);
    var renamed := PairRenamed(v2Index, v3Index, removed, added);
    ShapeIndexFacts(v2Keys);
    ShapeIndexFacts(v3Keys);
    RenamedPairsFacts(v2Index, v3Index, v3Keys, removed, added);
    c := Comparison(v2 * v3, removed, added, renamed);
  }

  // ---- categorize_endpoint ----

  datatype Category =
    | TableOperations
    | RecordOperations
    | ColumnFieldOperations
    | ViewOperations
    | LinkRelationOperations
    | FileOperations
    | WebhookOperations
    | MetaOperations
    | Authentication
    | BaseProjectOperations
    | DataSourceOperations
    | Other

  function CategoryName(c: Category): string {
    match c
    case TableOperations => "Table Operations"
    case RecordOperations => "Record Operations"
    case ColumnFieldOperations => "Column/Field Operations"
    case ViewOperations => "View Operations"
    case LinkRelationOperations => "Link/Relation Operations"
    case FileOperations => "File Operations"
    case WebhookOperations => "Webhook Operations"
    case MetaOperations => "Meta Operations"
    case Authentication => "Authentication"
    case BaseProjectOperations => "Base/Project Operations"
    case DataSourceOperations => "Data Source Operations"
    case Other => "Other"
  }

  /** Different categories have different names, so grouping by category is
      grouping by name. */
  lemma CategoryNameInjective(c: Category, d: Category)
    requires CategoryName(c) == CategoryName(d)
    ensures c == d
  {
    var n, m := CategoryName(c), CategoryName(d);
    assert |n| == |m| && n[0] == m[0] && n[1] == m[1];
  }

  /** The categories in the order they are tried. */
  const RuleOrder: seq<Category> := [
    TableOperations, RecordOperations, ColumnFieldOperations, ViewOperations,
    LinkRelationOperations, FileOperations, WebhookOperations, MetaOperations,
    Authentication, BaseProjectOperations, DataSourceOperations
  ]

  /** The path fragments that select a category. */
  function Fragments(c: Category): seq<string> {
    match c
    case TableOperations => ["/tables", "/table/"]
    case RecordOperations => ["/records", "/record/", "/data/"]
    case ColumnFieldOperations => ["/columns", "/column/", "/fields"]
    case ViewOperations => ["/views", "/view/"]
    case LinkRelationOperations => ["/links", "/link/", "/relations"]
    case FileOperations => ["/upload", "/download", "/files"]
    case WebhookOperations => ["/hooks", "/webhook"]
    case MetaOperations => ["/meta", "/schema"]
    case Authentication => ["/auth", "/signin", "/signup"]
    case BaseProjectOperations => ["/bases", "/base/", "/projects"]
    case DataSourceOperations => ["/sources", "/source/"]
    case Other => []
  }

  /** `f1 in path or f2 in path or ...`. */
  predicate AnyFragment(path: string, fragments: seq<string>) {
    fragments != [] && (Contains(path, fragments[0]) || AnyFragment(path, fragments[1..]))
  }

  /** The `i`-th rule selects the path. */
  predicate RuleMatches(path: string, i: nat)
    requires i < |RuleOrder|
  {
    AnyFragment(path, Fragments(RuleOrder[i]))
  }

  /** The position of the first rule at or after `i` that selects the path,
      or the number of rules when none does. */
  function FirstMatch(path: string, i: nat): (r: nat)
    requires i <= |RuleOrder|
    ensures i <= r <= |RuleOrder|
    ensures r < |RuleOrder| ==> RuleMatches(path, r)
    ensures forall l :: i <= l < r ==> !RuleMatches(path, l)
    decreases |RuleOrder| - i
  {
    if i == |RuleOrder| || RuleMatches(path, i) then i else FirstMatch(path, i + 1)
  }

  /** The category of a lower-cased path: the first rule's, or `Other`. */
  function CategorizePath(path: string): Category {
    var r := FirstMatch(path, 0);
    if r < |RuleOrder| then RuleOrder[r] else Other
  }

  /** The category of an endpoint key: its path after the first space,
      lower-cased. A key without a space makes the script fail. */
  function CategorizeEndpoint(endpoint: string): Category
    requires ' ' in endpoint
  {
    CategorizePath(Lower(SplitOnce(endpoint, ' ').1))
  }

  lemma RulesNotOther()
    ensures forall i :: 0 <= i < |RuleOrder| ==> RuleOrder[i] != Other
  {
  }

  /** The category is that of the first rule whose fragments occur in the
      path, and "Other" exactly when no rule matches. */
  lemma CategorizeMeaning(path: string)
    ensures CategorizePath(path) == Other <==> forall j :: 0 <= j < |RuleOrder| ==> !RuleMatches(path, j)
    ensures CategorizePath(path) != Other ==>
      exists j :: 0 <= j < |RuleOrder| && RuleOrder[j] == CategorizePath(path) && RuleMatches(path, j)
        && forall l :: 0 <= l < j ==> !RuleMatches(path, l)
  {
    RulesNotOther();
    var r := FirstMatch(path, 0);
    if r < |RuleOrder| {
      assert RuleOrder[r] == CategorizePath(path) && RuleMatches(path, r);
    }
  }

  /** Rules are tried in order: a records path under a table is a table
      operation. */
  lemma TableRuleFirst(path: string)
    requires Contains(path, "/tables")
    ensures CategorizePath(path) == TableOperations
  {
    assert RuleMatches(path, 0);
  }

  lemma NoSpaceInMethods(w: string)
    requires w in HttpMethods
    ensures forall i :: 0 <= i < |w| ==> w[i] != ' '
  {
    assert w == "get" || w == "post" || w == "put" || w == "patch" || w == "delete" || w == "head" || w == "options";
  }

  /** An HTTP method name holds no space. */
  lemma MethodHasNoSpace(verb: string)
    requires IsHttpMethod(verb)
    ensures ' ' !in Upper(verb)
  {
    var w := Lower(verb);
    NoSpaceInMethods(w);
    forall i | 0 <= i < |verb| ensures Upper(verb)[i] != ' ' {
      assert w[i] == LowerChar(verb[i]) != ' ';
    }
  }

  /** Categorizing an endpoint key looks at the lower-cased path alone. */
  lemma CategorizeKey(verb: string, path: string)
    requires IsHttpMethod(verb)
    ensures ' ' in EndpointKey(verb, path)
    ensures CategorizeEndpoint(EndpointKey(verb, path)) == CategorizePath(Lower(path))
  {
    MethodHasNoSpace(verb);
    assert EndpointKey(verb, path) == Upper(verb) + [' '] + path;
    SplitOnceUnique(Upper(verb), ' ', path);
  }

  // ---- categorize_breaking_changes ----

  /** One `defaultdict(list)` entry: a category name and its messages. */
  datatype Group = Group(category: Category, entries: seq<string>)

  predicate DistinctCategories(groups: seq<Group>) {
    forall i, j :: 0 <= i < j < |groups| ==> groups[i].category != groups[j].category
  }

  /** The messages filed under `category` (the empty list when there are none). */
  function EntriesOf(groups: seq<Group>, category: Category): seq<string> {
    if groups == [] then []
    else if groups[0].category == category then groups[0].entries
    else EntriesOf(groups[1..], category)
  }

  function TotalEntries(groups: seq<Group>): nat {
    if groups == [] then 0 else |groups[0].entries| + TotalEntries(groups[1..])
  }

  /** `breaking[category].append(entry)`. */
  function Append(groups: seq<Group>, category: Category, entry: string): (r: seq<Group>)
    ensures TotalEntries(r) == TotalEntries(groups) + 1
  {
    if groups == [] then [Group(category, [entry])]
    else if groups[0].category == category then
      [Group(category, groups[0].entries + [entry])] + groups[1..]
    else [groups[0]] + Append(groups[1..], category, entry)
  }

  /** Appending files the message under its category, after the ones already
      there, and leaves the other categories and the distinctness of the
      categories as they were. */
  lemma AppendMeaning(groups: seq<Group>, category: Category, entry: string, other: Category)
    requires DistinctCategories(groups)
    ensures DistinctCategories(Append(groups, category, entry))
    ensures EntriesOf(Append(groups, category, entry), category) == EntriesOf(groups, category) + [entry]
    ensures other != category ==> EntriesOf(Append(groups, category, entry), other) == EntriesOf(groups, other)
  {
    AppendDistinct(groups, category, entry);
    AppendEntries(groups, category, entry, other);
  }

  lemma {:induction false} AppendEntries(groups: seq<Group>, category: Category, entry: string, other: Category)
    ensures EntriesOf(Append(groups, category, entry), category) == EntriesOf(groups, category) + [entry]
    ensures other != category ==> EntriesOf(Append(groups, category, entry), other) == EntriesOf(groups, other)
  {
    if groups != [] && groups[0].category != category {
      AppendEntries(groups[1..], category, entry, other);
    }
  }

  lemma {:induction false} AppendDistinct(groups: seq<Group>, category: Category, entry: string)
    requires DistinctCategories(groups)
    ensures DistinctCategories(Append(groups, category, entry))
  {
    if groups != [] && groups[0].category != category {
      var rest := Append(groups[1..], category, entry);
      AppendDistinct(groups[1..], category, entry);
      AppendCategories(groups[1..], category, entry);
      var r := Append(groups, category, entry);
      assert r == [groups[0]] + rest;
      forall j | 1 <= j < |r| ensures r[j].category != groups[0].category {
        assert r[j] == rest[j - 1] && r[j] in rest;
      }
    }
  }

  /** Every category after appending was already there, or is the new one. */
  lemma {:induction false} AppendCategories(groups: seq<Group>, category: Category, entry: string)
    ensures forall g :: g in Append(groups, category, entry) ==> g.category == category || exists h :: h in groups && h.category == g.category
  {
    if groups != [] && groups[0].category != category {
      AppendCategories(groups[1..], category, entry);
    }
  }

  function RemovedEntry(endpoint: string): string {
    "**Removed:** `" + endpoint + "`"
  }

  function RenamedEntry(v2Ep: string, v3Ep: string): string {
    "**Path Changed:** `" + v2Ep + "` \U{2192} `" + v3Ep + "`"
  }

  /** The (category, message) item filed for a removed endpoint. */
  function RemovedItem(endpoint: string): (Category, string)
    requires ' ' in endpoint
  {
    (CategorizeEndpoint(endpoint), RemovedEntry(endpoint))
  }

  /** The (category, message) item filed for a renaming; the category is the
      old endpoint's. */
  function RenamedItem(pair: (string, string)): (Category, string)
    requires ' ' in pair.0
  {
    (CategorizeEndpoint(pair.0), RenamedEntry(pair.0, pair.1))
  }

  predicate AllHaveSpace(eps: seq<string>) {
    forall i :: 0 <= i < |eps| ==> ' ' in eps[i]
  }

  predicate AllOldHaveSpace(pairs: seq<(string, string)>) {
    forall k :: 0 <= k < |pairs| ==> ' ' in pairs[k].0
  }

  function RemovedItems(eps: seq<string>): seq<(Category, string)>
    requires AllHaveSpace(eps)
  {
    seq(|eps|, i requires 0 <= i < |eps| => RemovedItem(eps[i]))
  }

  function RenamedItems(pairs: seq<(string, string)>): seq<(Category, string)>
    requires AllOldHaveSpace(pairs)
  {
    seq(|pairs|, k requires 0 <= k < |pairs| => RenamedItem(pairs[k]))
  }

  /** The groups after filing the items, in order, into `groups`. */
  function FileInto(groups: seq<Group>, items: seq<(Category, string)>): seq<Group>
    decreases |items|
  {
    if items == [] then groups
    else Append(FileInto(groups, items[..|items| - 1]), items[|items| - 1].0, items[|items| - 1].1)
  }

  /** The result of the script: the removed endpoints in sorted order, then
      the renamings as listed, filed into an empty `defaultdict(list)`. */
  function BreakingGroups(removed: set<string>, renamed: seq<(string, string)>): seq<Group>
    requires forall ep :: ep in removed ==> ' ' in ep
    requires AllOldHaveSpace(renamed)
  {
    FileInto(FileInto([], RemovedItems(SortStrings(removed))), RenamedItems(renamed))
  }

  /** Filing loses nothing: every item's message sits under its category,
      every message already filed stays, the categories stay distinct and the
      messages grow by the number of items. */
  lemma {:induction false} FileIntoMeaning(groups: seq<Group>, items: seq<(Category, string)>)
    requires DistinctCategories(groups)
    ensures DistinctCategories(FileInto(groups, items))
    ensures TotalEntries(FileInto(groups, items)) == TotalEntries(groups) + |items|
    ensures forall k :: 0 <= k < |items| ==> items[k].1 in EntriesOf(FileInto(groups, items), items[k].0)
    ensures forall c, x :: x in EntriesOf(groups, c) ==> x in EntriesOf(FileInto(groups, items), c)
    decreases |items|
  {
    if items != [] {
      var n := |items| - 1;
      var pre := items[..n];
      var before := FileInto(groups, pre);
      FileIntoMeaning(groups, pre);
      forall k | 0 <= k < |items| ensures items[k].1 in EntriesOf(FileInto(groups, items), items[k].0) {
        AppendMeaning(before, items[n].0, items[n].1, items[k].0);
        if k < n {
          assert pre[k] == items[k];
        }
      }
      forall c, x | x in EntriesOf(groups, c) ensures x in EntriesOf(FileInto(groups, items), c) {
        AppendMeaning(before, items[n].0, items[n].1, c);
      }
      AppendMeaning(before, items[n].0, items[n].1, items[n].0);
    }
  }

  /** Filing one more item appends it to its category. */
  lemma FileIntoStep(groups: seq<Group>, items: seq<(Category, string)>, i: nat)
    requires i < |items|
    ensures FileInto(groups, items[..i + 1]) == Append(FileInto(groups, items[..i]), items[i].0, items[i].1)
  {
    assert items[..i + 1][..i] == items[..i];
  }

  /** The first loop: files the removed endpoints, in sorted order. */
  method FileRemoved(sorted: seq<string>) returns (breaking: seq<Group>)
    requires AllHaveSpace(sorted)
    ensures breaking == FileInto([], RemovedItems(sorted))
  {
    ghost var items := RemovedItems(sorted);
    breaking := [];
    for i := 0 to |sorted|
      invariant breaking == FileInto([], items[..i])
    {
      var endpoint := sorted[i];
      var category := CategorizeEndpoint(endpoint);
      assert items[i] == (category, RemovedEntry(endpoint));
      FileIntoStep([], items, i);
      breaking := Append(breaking, category, RemovedEntry(endpoint));
    }
    assert items[..|sorted|] == items;
  }

  /** The second loop: files the renamings into the groups built so far. */
  method FileRenamed(start: seq<Group>, renamed: seq<(string, string)>) returns (breaking: seq<Group>)
    requires AllOldHaveSpace(renamed)
    ensures breaking == FileInto(start, RenamedItems(renamed))
  {
    ghost var items := RenamedItems(renamed);
    breaking := start;
    for k := 0 to |renamed|
      invariant breaking == FileInto(start, items[..k])
    {
      var v2Ep, v3Ep := renamed[k].0, renamed[k].1;
      var category := CategorizeEndpoint(v2Ep);
      assert items[k] == (category, RenamedEntry(v2Ep, v3Ep));
      FileIntoStep(start, items, k);
      breaking := Append(breaking, category, RenamedEntry(v2Ep, v3Ep));
    }
    assert items[..|renamed|] == items;
  }

  /** Groups the breaking changes (removed and renamed endpoints) by category. */
  method CategorizeBreakingChanges(removed: set<string>, renamed: seq<(string, string)>) returns (breaking: seq<Group>)
    requires forall ep :: ep in removed ==> ' ' in ep
    requires AllOldHaveSpace(renamed)
    ensures breaking == BreakingGroups(removed, renamed)
  {
    var sorted := SortStrings(removed);
    assert AllHaveSpace(sorted);
    breaking := FileRemoved(sorted);
    breaking := FileRenamed(breaking, renamed);
  }

  /** Every removed endpoint and every renaming is reported under its
      category, the categories are distinct, and nothing else is reported. */
  lemma BreakingChangesComplete(removed: set<string>, renamed: seq<(string, string)>)
    requires forall ep :: ep in removed ==> ' ' in ep
    requires AllOldHaveSpace(renamed)
    ensures var groups := BreakingGroups(removed, renamed);
      && DistinctCategories(groups)
      && TotalEntries(groups) == |removed| + |renamed|
      && (forall ep :: ep in removed ==> RemovedEntry(ep) in EntriesOf(groups, CategorizeEndpoint(ep)))
      && (forall k :: 0 <= k < |renamed| ==>
            RenamedEntry(renamed[k].0, renamed[k].1) in EntriesOf(groups, CategorizeEndpoint(renamed[k].0)))
  {
    var sorted := SortStrings(removed);
    assert AllHaveSpace(sorted);
    var first := RemovedItems(sorted);
    var second := RenamedItems(renamed);
    FileIntoMeaning([], first);
    FileIntoMeaning(FileInto([], first), second);
    forall ep | ep in removed
      ensures RemovedEntry(ep) in EntriesOf(FileInto([], first), CategorizeEndpoint(ep))
    {
      var i :| 0 <= i < |sorted| && sorted[i] == ep;
      assert first[i] == RemovedItem(ep);
    }
    forall k | 0 <= k < |renamed|
      ensures RenamedEntry(renamed[k].0, renamed[k].1) in EntriesOf(BreakingGroups(removed, renamed), CategorizeEndpoint(renamed[k].0))
    {
      assert second[k] == RenamedItem(renamed[k]);
    }
  }
}
