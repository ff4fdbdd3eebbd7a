/** The read side of the project configuration helper: lookups in the
    already-parsed `pyproject.toml` table (a dict of TOML values). Reading
    the file is not modelled; the parsed table is a parameter. */
module ProjectConfig {
  import opened Wrappers
  import opened Data
  import opened Text

  const DefaultPythonVersion := "3.8"
  const DefaultProjectVersion := "0.4.0"

  // ---- get_python_version ----

  /** `get_python_version`: `config["project"]["requires-python"]` with every
      `>=` and then every `>` deleted, stripped. A missing key gives "3.8";
      indexing a non-table and `.replace` on a non-string are errors the
      method does not catch. */
  function GetPythonVersion(config: seq<Member>): Result<string, string> {
    match Get(config, "project")
    case None => Ok(DefaultPythonVersion)
    case Some(project) =>
      if !project.VDict? then Err("TypeError")
      else match Get(project.members, "requires-python")
        case None => Ok(DefaultPythonVersion)
        case Some(VStr(spec)) => Ok(Strip(ReplaceAll(ReplaceAll(spec, ">=", ""), ">", "")))
        case Some(_) => Err("AttributeError")
  }

  /** Every character of a stripped text comes from the text. */
  lemma StripKeeps(s: string)
    ensures forall c :: c in Strip(s) ==> c in s
  {
    var t := TrimStart(s);
    var r := TrimEnd(t);
    assert Strip(s) == r;
    forall i | 0 <= i < |r| ensures r[i] in s {
      assert r[i] == t[i];
      assert t[i] == s[|s| - |t| + i];
    }
  }

  /** A text without `>` has no `>=` to delete. */
  lemma {:induction false} NoGreaterUnchanged(s: string, p: string)
    requires '>' !in s && p != [] && p[0] == '>'
    ensures ReplaceAll(s, p, "") == s
  {
    if s != [] {
      assert s[0] != p[0];
      assert !StartsWith(s, p) by {
        assert |p| <= |s| ==> s[..|p|][0] == s[0];
      }
      NoGreaterUnchanged(s[1..], p);
      assert [s[0]] + s[1..] == s;
    }
  }

  /** The version never holds a `>`, and a requirement without `>` (such as
      "==3.8" or "<4") is only stripped. */
  lemma PythonVersionMeaning(config: seq<Member>, spec: string)
    requires Get(config, "project").Some? && Get(config, "project").value.VDict?
    requires Get(Get(config, "project").value.members, "requires-python") == Some(VStr(spec))
    ensures GetPythonVersion(config).Ok?
    ensures '>' !in GetPythonVersion(config).value
    ensures '>' !in spec ==> GetPythonVersion(config) == Ok(Strip(spec))
  {
    var version := Strip(ReplaceAll(ReplaceAll(spec, ">=", ""), ">", ""));
    VersionTextMeaning(spec);
    assert GetPythonVersion(config) == Ok(version);
  }

  lemma VersionTextMeaning(spec: string)
    ensures '>' !in Strip(ReplaceAll(ReplaceAll(spec, ">=", ""), ">", ""))
    ensures '>' !in spec ==> Strip(ReplaceAll(ReplaceAll(spec, ">=", ""), ">", "")) == Strip(spec)
  {
    var once := ReplaceAll(spec, ">=", "");
    DeleteChar(once, '>');
    StripKeeps(Without(once, '>'));
    if '>' !in spec {
      NoGreaterUnchanged(spec, ">=");
      NoGreaterUnchanged(spec, ">");
    }
  }

  // ---- get_project_version ----

  const Quotes: set<char> := {'"', '\''}

  /** The version on the first line starting with `__version__`: the text
      between the first and second `=`, stripped of whitespace and then of
      quotes. A first such line without `=` fails the index, which the
      method catches, giving the default. */
  function VersionOfLines(lines: seq<string>): string
    decreases |lines|
  {
    if lines == [] then DefaultProjectVersion
    else if StartsWith(lines[0], "__version__") then
      var parts := Split(lines[0], '=');
      if |parts| >= 2 then StripChars(Strip(parts[1]), Quotes) else DefaultProjectVersion
    else VersionOfLines(lines[1..])
  }

  /** The loop over the lines of the version file, returning at the first
      `__version__` line. */
  method FindVersion(content: string) returns (version: string)
    ensures version == VersionOfLines(Split(content, '\n'))
  {
    var lines := Split(content, '\n');
    for i := 0 to |lines|
      invariant VersionOfLines(lines[i..]) == VersionOfLines(lines)
    {
      assert lines[i..][0] == lines[i] && lines[i..][1..] == lines[i + 1..];
      var line := lines[i];
      if StartsWith(line, "__version__") {
        var parts := Split(line, '=');
        if |parts| >= 2 {
          return StripChars(Strip(parts[1]), Quotes);
        }
        return DefaultProjectVersion;
      }
    }
    assert lines[|lines|..] == [];
    version := DefaultProjectVersion;
  }

  /** `config[k1][k2]...` where any missing key or non-table fails. */
  function Walk(v: Value, keys: seq<string>): (r: Option<Value>)
    decreases |keys|
  {
    if keys == [] then Some(v)
    else if v.VDict? && HasKey(v.members, keys[0]) then Walk(Get(v.members, keys[0]).value, keys[1..])
    else None
  }

  /** `get_project_version`: `project.version` when present; otherwise the
      `__version__` line of the file named by `tool.hatch.version.path`,
      read through `readFile` (None when the file does not exist); any
      failure on that fallback path gives "0.4.0". Indexing a non-table
      `project` is an error the method does not catch. */
  function GetProjectVersion(config: seq<Member>, readFile: string -> Option<string>): Result<Value, string> {
    match Get(config, "project")
    case Some(project) =>
      if !project.VDict? then Err("TypeError")
      else if HasKey(project.members, "version") then Ok(Get(project.members, "version").value)
      else Ok(VStr(VersionFallback(config, readFile)))
    case None => Ok(VStr(VersionFallback(config, readFile)))
  }

  function VersionFallback(config: seq<Member>, readFile: string -> Option<string>): string {
    match Walk(VDict(config), ["tool", "hatch", "version", "path"])
    case Some(VStr(path)) =>
      (match readFile(path)
       case Some(content) => VersionOfLines(Split(content, '\n'))
       case None => DefaultProjectVersion)
    case _ => DefaultProjectVersion
  }

  /** The text `__version__ = "v"`. */
  function VersionLine(v: string): string {
    "__version__ " + "=" + Quoted(v)
  }

  function Quoted(v: string): string {
    " \"" + v + "\""
  }

  lemma QuotedHasNo(v: string, c: char)
    requires c !in v && c != ' ' && c != '"'
    ensures c !in Quoted(v)
  {
    var q := Quoted(v);
    forall i | 0 <= i < |q| ensures q[i] != c {
      if 2 <= i < |q| - 1 {
        assert q[i] == v[i - 2];
      }
    }
  }

  /** `line.split("=")[1]` of the version line is the quoted version. */
  lemma VersionLineSplit(v: string)
    requires '=' !in v
    ensures |Split(VersionLine(v), '=')| >= 2 && Split(VersionLine(v), '=')[1] == Quoted(v)
  {
    QuotedHasNo(v, '=');
    SplitAppend("__version__ ", '=', Quoted(v));
    SplitNoSep(Quoted(v), '=');
  }

  /** Stripping the quoted version removes the one leading space. */
  lemma QuotedStrip(v: string)
    ensures Strip(Quoted(v)) == "\"" + v + "\""
  {
    var inner := "\"" + v + "\"";
    assert Quoted(v) == [' '] + inner;
    assert Quoted(v)[1..] == inner;
    TrimStartFixed(inner);
    TrimEndFixed(inner);
  }

  lemma VersionLineFacts(v: string)
    requires '\n' !in v
    ensures StartsWith(VersionLine(v), "__version__")
    ensures '\n' !in VersionLine(v)
  {
    QuotedHasNo(v, '\n');
  }

  /** A file whose first line is `__version__ = "v"` yields `v`, for a
      version without `=` or line breaks that does not start or end with a
      quote. */
  lemma VersionRoundTrip(v: string, rest: string)
    requires '=' !in v && '\n' !in v
    requires v == [] || (v[0] !in Quotes && v[|v| - 1] !in Quotes)
    ensures VersionOfLines(Split(VersionLine(v) + "\n" + rest, '\n')) == v
  {
    VersionLineFacts(v);
    SplitAppend(VersionLine(v), '\n', rest);
    VersionLineSplit(v);
    QuotedStrip(v);
    StripQuoted(v);
  }

  lemma StripQuoted(v: string)
    requires v == [] || (v[0] !in Quotes && v[|v| - 1] !in Quotes)
    ensures StripChars("\"" + v + "\"", Quotes) == v
  {
    var s := "\"" + v + "\"";
    var t := v + "\"";
    assert s[0] == '"' && '"' in Quotes && s[1..] == t;
    assert StripChars(s, Quotes) == StripChars(t, Quotes);
    assert t[|t| - 1] == '"';
    if v == [] {
      assert t[1..] == [];
    } else {
      assert t[0] == v[0] && t[..|t| - 1] == v;
      assert StripChars(t, Quotes) == StripChars(v, Quotes);
    }
  }

  /** Without a `__version__` line the default version is used. */
  lemma {:induction false} NoVersionLine(lines: seq<string>)
    requires forall i :: 0 <= i < |lines| ==> !StartsWith(lines[i], "__version__")
    ensures VersionOfLines(lines) == DefaultProjectVersion
  {
    if lines != [] {
      NoVersionLine(lines[1..]);
    }
  }

  // ---- has_tool_config / get_tool_config ----

  /** `self.config.get("tool", {})`. */
  function ToolsOf(config: seq<Member>): Value {
    GetOr(config, "tool", VDict([]))
  }

  /** What `has_tool_config` answers. A dotted name must lead through nested
      tables key by key; a plain name is tested with `in` against the tool
      table, whose `TypeError` on a number or boolean is caught as False. */
  predicate ToolDeclared(config: seq<Member>, tool: string) {
    if '.' in tool then Walk(ToolsOf(config), Split(tool, '.')).Some?
    else PyIn(tool, ToolsOf(config)) == Ok(true)
  }

  /** `has_tool_config`: walks the parts of a dotted name, giving up at the
      first part that is missing or sits under a non-table. */
  method HasToolConfig(config: seq<Member>, tool: string) returns (has: bool)
    ensures has == ToolDeclared(config, tool)
  {
    var tools := ToolsOf(config);
    if '.' in tool {
      var parts := Split(tool, '.');
      var current := tools;
      for i := 0 to |parts|
        invariant Walk(tools, parts) == Walk(current, parts[i..])
      {
        assert parts[i..][0] == parts[i] && parts[i..][1..] == parts[i + 1..];
        if current.VDict? && HasKey(current.members, parts[i]) {
          current := Get(current.members, parts[i]).value;
        } else {
          return false;
        }
      }
      assert parts[|parts|..] == [];
      return true;
    } else {
      var found := PyIn(tool, tools);
      return found.Ok? && found.value;
    }
  }

  /** `get_tool_config`: `config["tool"][tool]` with the name used as one
      literal key; a missing key gives `{}`, indexing a non-table is an
      error the method does not catch. */
  function GetToolConfig(config: seq<Member>, tool: string): Result<Value, string> {
    match Get(config, "tool")
    case None => Ok(VDict([]))
    case Some(tools) =>
      if tools.VDict? then Ok(GetOr(tools.members, tool, VDict([]))) else Err("TypeError")
  }

  /** The literal lookup finds a table exactly when the tool table holds
      that very key. */
  lemma GetToolConfigMeaning(config: seq<Member>, tool: string)
    requires ToolsOf(config).VDict?
    ensures GetToolConfig(config, tool).Ok?
    ensures HasKey(ToolsOf(config).members, tool) ==>
      Member(tool, GetToolConfig(config, tool).value) in ToolsOf(config).members
    ensures !HasKey(ToolsOf(config).members, tool) ==> GetToolConfig(config, tool) == Ok(VDict([]))
  {
  }

  /** `get_test_config` as written: the literal key "pytest.ini_options". */
  function GetTestConfigAsWritten(config: seq<Member>): Result<Value, string> {
    GetToolConfig(config, PytestOptions)
  }

  /** The name "pytest.ini_options", spelled as its two parts. */
  const PytestOptions := "pytest" + "." + "ini_options"

  /** `get_coverage_config` as written: the literal key "coverage.run". */
  function GetCoverageConfigAsWritten(config: seq<Member>): Result<Value, string> {
    GetToolConfig(config, CoverageRun)
  }

  /** The name "coverage.run", spelled as its two parts. */
  const CoverageRun := "coverage" + "." + "run"


  /** The tool lookup `get_test_config` and `get_coverage_config` evidently
      mean: a dotted name walks the nested tables, exactly as
      `has_tool_config` does, and a missing table gives `{}`. */
  function GetToolConfigNested(config: seq<Member>, tool: string): Result<Value, string> {
    if '.' in tool then
      match Get(config, "tool")
      case None => Ok(VDict([]))
      case Some(tools) => Ok(Walk(tools, Split(tool, '.')).GetOr(VDict([])))
    else GetToolConfig(config, tool)
  }

  function GetTestConfig(config: seq<Member>): Result<Value, string> {
    GetToolConfigNested(config, PytestOptions)
  }

  function GetCoverageConfig(config: seq<Member>): Result<Value, string> {
    GetToolConfigNested(config, CoverageRun)
  }

  /** The nested lookup returns a table exactly where `has_tool_config`
      says one is, and agrees with the literal lookup on undotted names. */
  lemma NestedLookupAgrees(config: seq<Member>, tool: string)
    ensures '.' in tool && ToolDeclared(config, tool) ==>
      GetToolConfigNested(config, tool) == Ok(Walk(ToolsOf(config), Split(tool, '.')).value)
    ensures '.' in tool && !ToolDeclared(config, tool) ==> GetToolConfigNested(config, tool) == Ok(VDict([]))
    ensures '.' !in tool ==> GetToolConfigNested(config, tool) == GetToolConfig(config, tool)
  {
    if '.' in tool && Get(config, "tool").None? {
      DigEmptyWalk(Split(tool, '.'));
    }
  }

  lemma DigEmptyWalk(keys: seq<string>)
    requires keys != []
    ensures Walk(VDict([]), keys) == None
  {
  }

  lemma TestConfigName()
    ensures '.' in PytestOptions
    ensures Split(PytestOptions, '.') == ["pytest", "ini_options"]
  {
    assert PytestOptions[6] == '.';
    SplitNoSep("ini_options", '.');
    SplitAppend("pytest", '.', "ini_options");
  }

  /** The table `[tool.pytest.ini_options]` parses to `ini_options` nested
      in `pytest`. */
  function PytestConfig(options: Value): seq<Member> {
    [Member("tool", VDict([Member("pytest", VDict([Member("ini_options", options)]))]))]
  }

  /** As written, a project with a `[tool.pytest.ini_options]` table is told
      that the table exists, yet gets `{}` as its test configuration. */
  lemma TestConfigLostAsWritten(options: Value)
    ensures ToolDeclared(PytestConfig(options), PytestOptions)
    ensures GetTestConfigAsWritten(PytestConfig(options)) == Ok(VDict([]))
  {
    TestConfigName();
    WalkNested("pytest", "ini_options", options);
  }

  /** Walking two names through two nested one-entry tables. */
  lemma WalkNested(a: string, b: string, x: Value)
    ensures Walk(VDict([Member(a, VDict([Member(b, x)]))]), [a, b]) == Some(x)
  {
    var inner := VDict([Member(b, x)]);
    assert inner.members[0].key == b;
    assert HasKey(inner.members, b) && Get(inner.members, b) == Some(x);
    assert Walk(inner, [b]) == Some(x) by {
      assert [b][1..] == [];
    }
    var outer := VDict([Member(a, inner)]);
    assert outer.members[0].key == a;
    assert HasKey(outer.members, a) && Get(outer.members, a) == Some(inner);
    assert [a, b][1..] == [b];
  }

  /** The nested lookup returns that table. */
  lemma TestConfigFound(options: Value)
    ensures GetTestConfig(PytestConfig(options)) == Ok(options)
  {
    TestConfigName();
    var config := PytestConfig(options);
    var tools := VDict([Member("pytest", VDict([Member("ini_options", options)]))]);
    assert config[0].key == "tool";
    assert Get(config, "tool") == Some(tools);
    WalkNested("pytest", "ini_options", options);
  }

  lemma CoverageConfigName()
    ensures '.' in CoverageRun
    ensures Split(CoverageRun, '.') == ["coverage", "run"]
  {
    assert CoverageRun[8] == '.';
    SplitNoSep("run", '.');
    SplitAppend("coverage", '.', "run");
  }

  /** The table `[tool.coverage.run]` parses to `run` nested in `coverage`. */
  function CoverageConfigTable(options: Value): seq<Member> {
    [Member("tool", VDict([Member("coverage", VDict([Member("run", options)]))]))]
  }

  /** As written, a project with a `[tool.coverage.run]` table is told that
      the table exists, yet gets `{}` as its coverage configuration. */
  lemma CoverageConfigLostAsWritten(options: Value)
    ensures ToolDeclared(CoverageConfigTable(options), CoverageRun)
    ensures GetCoverageConfigAsWritten(CoverageConfigTable(options)) == Ok(VDict([]))
  {
    CoverageConfigName();
    WalkNested("coverage", "run", options);
  }

  /** The nested lookup returns that table. */
  lemma CoverageConfigFound(options: Value)
    ensures GetCoverageConfig(CoverageConfigTable(options)) == Ok(options)
  {
    CoverageConfigName();
    var config := CoverageConfigTable(options);
    var tools := VDict([Member("coverage", VDict([Member("run", options)]))]);
    assert config[0].key == "tool";
    assert Get(config, "tool") == Some(tools);
    WalkNested("coverage", "run", options);
  }

  // ---- _flatten_keys ----

  /** `f"{parent_key}.{k}" if parent_key else k`. */
  function NewKey(parent: string, k: string): string {
    if parent != "" then parent + "." + k else k
  }

  /** `dict(items)`: later pairs overwrite earlier ones in the earlier
      position. */
  function DictOf(items: seq<Member>): seq<Member>
    decreases |items|
  {
    if items == [] then []
    else
      var n := |items| - 1;
      Put(DictOf(items[..n]), items[n].key, items[n].value)
  }

  /** The pairs `_flatten_keys` has collected after the first `n` members
      of `d`: a leaf gives one pair, a nested table its own flattening. */
  function FlatItems(d: Value, parent: string, n: nat): seq<Member>
    requires d.VDict? && n <= |d.members|
    decreases d, n
  {
    if n == 0 then []
    else
      var m := d.members[n - 1];
      assert m in d.members;
      FlatItems(d, parent, n - 1)
        + (if m.value.VDict? then Flatten(m.value, NewKey(parent, m.key)) else [Member(NewKey(parent, m.key), m.value)])
  }

  /** What `_flatten_keys(d, parent)` returns. */
  function Flatten(d: Value, parent: string): seq<Member>
    requires d.VDict?
    decreases d, |d.members| + 1
  {
    DictOf(FlatItems(d, parent, |d.members|))
  }

  /** `_flatten_keys`: the loop over the members, recursing into nested
      tables and collecting pairs, then building a dict from them. */
  method FlattenKeys(d: Value, parent: string) returns (r: seq<Member>)
    requires d.VDict?
    ensures r == Flatten(d, parent)
    decreases d
  {
    var items: seq<Member> := [];
    for i := 0 to |d.members|
      invariant items == FlatItems(d, parent, i)
    {
      var m := d.members[i];
      var newKey := NewKey(parent, m.key);
      assert m in d.members;
      if m.value.VDict? {
        var nested := FlattenKeys(m.value, newKey);
        items := items + nested;
      } else {
        items := items + [Member(newKey, m.value)];
      }
    }
    r := DictOf(items);
  }

  /** Building a dict keeps exactly the keys of the pairs, once each, and
      takes every member from the pairs. */
  lemma DictOfMeaning(items: seq<Member>)
    ensures DistinctKeys(DictOf(items))
    ensures forall k :: HasKey(DictOf(items), k) <==> HasKey(items, k)
    ensures forall m :: m in DictOf(items) ==> m in items
  {
    DictOfDistinct(items);
    forall k ensures HasKey(DictOf(items), k) <==> HasKey(items, k) {
      DictOfKeys(items, k);
    }
    DictOfMembers(items);
  }

  lemma {:induction false} DictOfDistinct(items: seq<Member>)
    ensures DistinctKeys(DictOf(items))
    decreases |items|
  {
    if items != [] {
      var n := |items| - 1;
      DictOfDistinct(items[..n]);
      PutDistinct(DictOf(items[..n]), items[n].key, items[n].value);
    }
  }

  lemma {:induction false} DictOfKeys(items: seq<Member>, k: string)
    ensures HasKey(DictOf(items), k) <==> HasKey(items, k)
    decreases |items|
  {
    if items != [] {
      var n := |items| - 1;
      DictOfKeys(items[..n], k);
      HasKeyPut(DictOf(items[..n]), items[n].key, items[n].value, k);
      assert items == items[..n] + [items[n]];
      HasKeySnoc(items[..n], items[n], k);
    }
  }

  lemma {:induction false} DictOfMembers(items: seq<Member>)
    ensures forall m :: m in DictOf(items) ==> m in items
    decreases |items|
  {
    if items != [] {
      var n := |items| - 1;
      DictOfMembers(items[..n]);
      PutMembers(DictOf(items[..n]), items[n].key, items[n].value);
      assert forall m :: m in items[..n] ==> m in items;
    }
  }

  lemma HasKeySnoc(items: seq<Member>, last: Member, k: string)
    ensures HasKey(items + [last], k) <==> HasKey(items, k) || last.key == k
  {
    if HasKey(items, k) {
      var i :| 0 <= i < |items| && items[i].key == k;
      assert (items + [last])[i] == items[i];
    }
    if HasKey(items + [last], k) && last.key != k {
      var i :| 0 <= i < |items + [last]| && (items + [last])[i].key == k;
      assert items[i] == (items + [last])[i];
    }
    if last.key == k {
      assert (items + [last])[|items|] == last;
    }
  }

  /** Every value in a flattening is a leaf: lists stay as they are and no
      table survives. */
  lemma {:induction false} FlattenLeaves(d: Value, parent: string)
    requires d.VDict?
    ensures forall m :: m in Flatten(d, parent) ==> !m.value.VDict?
    decreases d, |d.members| + 1
  {
    FlatItemsLeaves(d, parent, |d.members|);
    DictOfMeaning(FlatItems(d, parent, |d.members|));
  }

  lemma {:induction false} FlatItemsLeaves(d: Value, parent: string, n: nat)
    requires d.VDict? && n <= |d.members|
    ensures forall m :: m in FlatItems(d, parent, n) ==> !m.value.VDict?
    decreases d, n
  {
    if n > 0 {
      var m := d.members[n - 1];
      assert m in d.members;
      FlatItemsLeaves(d, parent, n - 1);
      if m.value.VDict? {
        FlattenLeaves(m.value, NewKey(parent, m.key));
      }
    }
  }

  /** The keys member `i` of `d` contributes: its own path for a leaf, the
      keys of its flattening for a table (none for an empty table). */
  predicate Contributes(d: Value, parent: string, i: nat, k: string)
    requires d.VDict? && i < |d.members|
  {
    var m := d.members[i];
    assert m in d.members;
    if m.value.VDict? then HasKey(Flatten(m.value, NewKey(parent, m.key)), k)
    else k == NewKey(parent, m.key)
  }

  /** Some member before index `n` contributes `k`. */
  predicate AnyContributes(d: Value, parent: string, n: nat, k: string)
    requires d.VDict? && n <= |d.members|
  {
    n > 0 && (AnyContributes(d, parent, n - 1, k) || Contributes(d, parent, n - 1, k))
  }

  lemma {:induction false} AnyContributesExists(d: Value, parent: string, n: nat, k: string)
    requires d.VDict? && n <= |d.members|
    ensures AnyContributes(d, parent, n, k) <==> exists i :: 0 <= i < n && Contributes(d, parent, i, k)
  {
    if n > 0 {
      AnyContributesExists(d, parent, n - 1, k);
      if AnyContributes(d, parent, n, k) {
        if AnyContributes(d, parent, n - 1, k) {
          var i :| 0 <= i < n - 1 && Contributes(d, parent, i, k);
          assert 0 <= i < n && Contributes(d, parent, i, k);
        } else {
          assert 0 <= n - 1 < n && Contributes(d, parent, n - 1, k);
        }
      }
      if exists i :: 0 <= i < n && Contributes(d, parent, i, k) {
        var i :| 0 <= i < n && Contributes(d, parent, i, k);
        if i < n - 1 {
          assert AnyContributes(d, parent, n - 1, k);
        }
      }
    }
  }

  lemma {:induction false} FlatItemsKeys(d: Value, parent: string, n: nat, k: string)
    requires d.VDict? && n <= |d.members|
    ensures HasKey(FlatItems(d, parent, n), k) <==> AnyContributes(d, parent, n, k)
    decreases n
  {
    if n > 0 {
      var m := d.members[n - 1];
      var before := FlatItems(d, parent, n - 1);
      var added := if m.value.VDict? then Flatten(m.value, NewKey(parent, m.key)) else [Member(NewKey(parent, m.key), m.value)];
      FlatItemsKeys(d, parent, n - 1, k);
      assert FlatItems(d, parent, n) == before + added;
      HasKeyAppend(before, added, k);
      AddedKeys(d, parent, n - 1, k);
    }
  }

  /** The pairs one member adds carry exactly the keys it contributes. */
  lemma AddedKeys(d: Value, parent: string, i: nat, k: string)
    requires d.VDict? && i < |d.members|
    ensures var m := d.members[i];
      var added := if m.value.VDict? then Flatten(m.value, NewKey(parent, m.key)) else [Member(NewKey(parent, m.key), m.value)];
      HasKey(added, k) <==> Contributes(d, parent, i, k)
  {
    var m := d.members[i];
    if !m.value.VDict? {
      var added := [Member(NewKey(parent, m.key), m.value)];
      assert added[0].key == NewKey(parent, m.key);
    }
  }

  lemma HasKeyAppend(a: seq<Member>, b: seq<Member>, k: string)
    ensures HasKey(a + b, k) <==> HasKey(a, k) || HasKey(b, k)
  {
    if HasKey(a, k) {
      var i :| 0 <= i < |a| && a[i].key == k;
      assert (a + b)[i] == a[i];
    }
    if HasKey(b, k) {
      var i :| 0 <= i < |b| && b[i].key == k;
      assert (a + b)[|a| + i] == b[i];
    }
    if HasKey(a + b, k) {
      var i :| 0 <= i < |a + b| && (a + b)[i].key == k;
      if i < |a| {
        assert a[i] == (a + b)[i];
      } else {
        assert b[i - |a|] == (a + b)[i];
      }
    }
  }

  /** A key of the flattening is exactly the dotted path of a leaf: either
      a leaf member's own path or a key of a nested table's flattening. The
      keys are distinct. */
  lemma FlattenKeysMeaning(d: Value, parent: string, k: string)
    requires d.VDict?
    ensures DistinctKeys(Flatten(d, parent))
    ensures HasKey(Flatten(d, parent), k) <==> exists i :: 0 <= i < |d.members| && Contributes(d, parent, i, k)
  {
    DictOfMeaning(FlatItems(d, parent, |d.members|));
    FlatItemsKeys(d, parent, |d.members|, k);
    AnyContributesExists(d, parent, |d.members|, k);
  }
}
