/** The schema analysis of the API comparison: an operation's parameters
    sorted by where they travel, its request and response body schemas, and
    the text outline of a schema. */
module Schemas {
  import opened Wrappers
  import opened Data
  import opened Text

  // ---- extract_parameters ----

  /** One extracted parameter: its name, whether it is required, the type
      of its schema and its description, each as found in the document. */
  datatype Param = Param(name: Value, required: Value, typ: Value, description: Value)

  datatype Buckets = Buckets(query: seq<Param>, path: seq<Param>, header: seq<Param>)

  /** `param.get("in", "")`. */
  function Location(param: seq<Member>): Value {
    GetOr(param, "in", VStr(""))
  }

  /** The locations `extract_parameters` has a bucket for. */
  const Locations: set<string> := {"query", "path", "header"}

  /** `param_type in params`: the parameter goes into one of the buckets. */
  predicate Bucketed(p: Value) {
    p.VDict? && Location(p.members).VStr? && Location(p.members).s in Locations
  }

  /** A parameter object the loop can read: a dict whose location can be
      looked up in a dict (lists and dicts are unhashable) and, when the
      parameter is bucketed, whose `schema`, if present, is a dict. The
      schema of a parameter at any other location is never looked at. */
  predicate ParamShaped(p: Value) {
    && p.VDict?
    && !Location(p.members).VList? && !Location(p.members).VDict?
    && (Bucketed(p) ==> GetOr(p.members, "schema", VDict([])).VDict?)
  }

  /** `endpoint_spec.get("parameters", [])`. */
  function ParametersOf(spec: seq<Member>): Value {
    GetOr(spec, "parameters", VList([]))
  }

  /** What `for param in ...` visits without failing: a list of parameter
      objects, or an empty dict or text (nothing to visit). */
  predicate ParametersShaped(spec: seq<Member>) {
    var v := ParametersOf(spec);
    || (v.VList? && forall i :: 0 <= i < |v.items| ==> ParamShaped(v.items[i]))
    || v == VDict([])
    || v == VStr("")
  }

  function ParamList(spec: seq<Member>): (ps: seq<Value>)
    requires ParametersShaped(spec)
    ensures forall i :: 0 <= i < |ps| ==> ParamShaped(ps[i])
  {
    if ParametersOf(spec).VList? then ParametersOf(spec).items else []
  }

  /** The record built for a bucketed parameter; `required` defaults to
      False and the description to empty text. Its schema is a dict, as
      `ParamShaped` demands of bucketed parameters. */
  function Extracted(p: Value): (r: Param)
    requires ParamShaped(p) && Bucketed(p)
    ensures !HasKey(p.members, "required") ==> r.required == VBool(false)
    ensures !HasKey(p.members, "description") ==> r.description == VStr("")
    ensures !HasKey(p.members, "name") ==> r.name == VNone
  {
    var m := p.members;
    Param(GetOr(m, "name", VNone), GetOr(m, "required", VBool(false)),
          GetOr(GetOr(m, "schema", VDict([])).members, "type", VNone),
          GetOr(m, "description", VStr("")))
  }

  /** The records of the parameters located at `loc`, in order. */
  function ParamsIn(ps: seq<Value>, loc: string): seq<Param>
    requires loc in Locations
    requires forall i :: 0 <= i < |ps| ==> ParamShaped(ps[i])
    decreases |ps|
  {
    if ps == [] then []
    else
      var n := |ps| - 1;
      assert ParamShaped(ps[n]);
      ParamsIn(ps[..n], loc)
        + (if Location(ps[n].members) == VStr(loc) then [Extracted(ps[n])] else [])
  }

  /** `extract_parameters`: one pass over the parameters, appending each to
      the bucket named by its location and dropping the others. */
  method ExtractParameters(spec: seq<Member>) returns (b: Buckets)
    requires ParametersShaped(spec)
    ensures b == Buckets(ParamsIn(ParamList(spec), "query"), ParamsIn(ParamList(spec), "path"),
                         ParamsIn(ParamList(spec), "header"))
  {
    var ps := ParamList(spec);
    b := Buckets([], [], []);
    for i := 0 to |ps|
      invariant b == Buckets(ParamsIn(ps[..i], "query"), ParamsIn(ps[..i], "path"), ParamsIn(ps[..i], "header"))
    {
      assert ps[..i + 1][..i] == ps[..i];
      var param := ps[i];
      var paramType := Location(param.members);
      if paramType == VStr("query") {
        b := b.(query := b.query + [Extracted(param)]);
      } else if paramType == VStr("path") {
        b := b.(path := b.path + [Extracted(param)]);
      } else if paramType == VStr("header") {
        b := b.(header := b.header + [Extracted(param)]);
      }
    }
    assert ps[..|ps|] == ps;
  }

  /** Bucketing a concatenation buckets each part and keeps their order. */
  lemma {:induction false} ParamsInAppend(a: seq<Value>, c: seq<Value>, loc: string)
    requires loc in Locations
    requires forall i :: 0 <= i < |a| ==> ParamShaped(a[i])
    requires forall i :: 0 <= i < |c| ==> ParamShaped(c[i])
    ensures forall i :: 0 <= i < |a + c| ==> ParamShaped((a + c)[i])
    ensures ParamsIn(a + c, loc) == ParamsIn(a, loc) + ParamsIn(c, loc)
    decreases |c|
  {
    if c != [] {
      var n := |c| - 1;
      ParamsInAppend(a, c[..n], loc);
      var tail := if Location(c[n].members) == VStr(loc) then [Extracted(c[n])] else [];
      assert ParamsIn(c, loc) == ParamsIn(c[..n], loc) + tail;
      assert (a + c)[..|a + c| - 1] == a + c[..n];
      assert (a + c)[|a + c| - 1] == c[n];
      assert ParamsIn(a + c, loc) == ParamsIn(a + c[..n], loc) + tail;
    } else {
      assert a + c == a;
    }
  }

  /** Every record in a bucket comes from a parameter at that location. */
  lemma {:induction false} ParamsInSound(ps: seq<Value>, loc: string, x: Param)
    requires loc in Locations
    requires forall i :: 0 <= i < |ps| ==> ParamShaped(ps[i])
    requires x in ParamsIn(ps, loc)
    ensures exists i :: 0 <= i < |ps| && ps[i].VDict? && Location(ps[i].members) == VStr(loc) && Extracted(ps[i]) == x
    decreases |ps|
  {
    var n := |ps| - 1;
    if x in ParamsIn(ps[..n], loc) {
      ParamsInSound(ps[..n], loc, x);
      var i :| 0 <= i < n && ps[..n][i].VDict? && Location(ps[..n][i].members) == VStr(loc) && Extracted(ps[..n][i]) == x;
      assert ps[..n][i] == ps[i];
    }
  }

  /** Every parameter at a location has its record in that bucket. */
  lemma {:induction false} ParamsInComplete(ps: seq<Value>, loc: string, i: nat)
    requires loc in Locations
    requires forall j :: 0 <= j < |ps| ==> ParamShaped(ps[j])
    requires i < |ps| && ps[i].VDict? && Location(ps[i].members) == VStr(loc)
    ensures Extracted(ps[i]) in ParamsIn(ps, loc)
    decreases |ps|
  {
    var n := |ps| - 1;
    var tail := if Location(ps[n].members) == VStr(loc) then [Extracted(ps[n])] else [];
    assert ParamsIn(ps, loc) == ParamsIn(ps[..n], loc) + tail;
    if i < n {
      assert ps[..n][i] == ps[i];
      ParamsInComplete(ps[..n], loc, i);
    } else {
      assert i == n;
    }
  }

  /** The number of parameters at some other location. */
  function Dropped(ps: seq<Value>): nat
    requires forall i :: 0 <= i < |ps| ==> ParamShaped(ps[i])
    decreases |ps|
  {
    if ps == [] then 0
    else Dropped(ps[..|ps| - 1]) + (if Bucketed(ps[|ps| - 1]) then 0 else 1)
  }

  /** The three buckets and the dropped parameters account for every
      parameter exactly once. */
  lemma {:induction false} BucketsAccount(ps: seq<Value>)
    requires forall i :: 0 <= i < |ps| ==> ParamShaped(ps[i])
    ensures |ParamsIn(ps, "query")| + |ParamsIn(ps, "path")| + |ParamsIn(ps, "header")| + Dropped(ps) == |ps|
    decreases |ps|
  {
    if ps != [] {
      BucketsAccount(ps[..|ps| - 1]);
    }
  }

  /** Nothing is dropped exactly when every parameter is at a query, path or
      header location. */
  lemma {:induction false} NothingDropped(ps: seq<Value>)
    requires forall i :: 0 <= i < |ps| ==> ParamShaped(ps[i])
    ensures Dropped(ps) == 0 <==> forall i :: 0 <= i < |ps| ==> Bucketed(ps[i])
    decreases |ps|
  {
    if ps != [] {
      var n := |ps| - 1;
      NothingDropped(ps[..n]);
      assert forall i :: 0 <= i < n ==> ps[..n][i] == ps[i];
    }
  }

  /** A parameter at a location without a bucket is skipped without its
      schema being read, so it may carry a schema of any kind, such as
      the boolean schema `true`. */
  lemma SkippedSchemaUnread(schema: Value)
    ensures ParametersShaped([Member("parameters", VList([VDict([Member("in", VStr("cookie")), Member("schema", schema)])]))])
    ensures var ps := ParamList([Member("parameters", VList([VDict([Member("in", VStr("cookie")), Member("schema", schema)])]))]);
      && ParamsIn(ps, "query") == [] && ParamsIn(ps, "path") == [] && ParamsIn(ps, "header") == []
      && Dropped(ps) == 1
  {
  }

  // ---- extract_request_schema / extract_response_schema ----

  /** Following `.get(key, {})` down a chain of keys. Calling `.get` on
      anything but a dict is an `AttributeError`. */
  function Dig(v: Value, keys: seq<string>): (r: Result<Value, string>)
    decreases |keys|
  {
    if keys == [] then Ok(v)
    else if !v.VDict? then Err("AttributeError")
    else Dig(GetOr(v.members, keys[0], VDict([])), keys[1..])
  }

  const RequestPath: seq<string> := ["requestBody", "content", "application/json", "schema"]

  function ResponsePath(status: string): seq<string> {
    ["responses", status, "content", "application/json", "schema"]
  }

  /** `extract_request_schema`. */
  function RequestSchema(spec: seq<Member>): Result<Value, string> {
    Dig(VDict(spec), RequestPath)
  }

  /** `extract_response_schema`, whose status defaults to "200". */
  function ResponseSchema(spec: seq<Member>, status: string := "200"): Result<Value, string> {
    Dig(VDict(spec), ResponsePath(status))
  }

  /** Looking further into an empty dict finds an empty dict. */
  lemma {:induction false} DigEmpty(keys: seq<string>)
    ensures Dig(VDict([]), keys) == Ok(VDict([]))
    decreases |keys|
  {
    if keys != [] {
      DigEmpty(keys[1..]);
    }
  }

  /** A chain of keys is followed one piece after another. */
  lemma {:induction false} DigAppend(v: Value, a: seq<string>, b: seq<string>)
    ensures Dig(v, a + b) == (match Dig(v, a) case Ok(w) => Dig(w, b) case Err(e) => Err(e))
    decreases |a|
  {
    if a != [] {
      assert (a + b)[1..] == a[1..] + b;
      if v.VDict? {
        DigAppend(GetOr(v.members, a[0], VDict([])), a[1..], b);
      }
    } else {
      assert a + b == b;
    }
  }

  /** Once a level lacks the next key, the lookup ends in an empty dict,
      whatever the remaining keys are. */
  lemma DigMissingAt(v: Value, keys: seq<string>, i: nat)
    requires i < |keys|
    requires Dig(v, keys[..i]).Ok? && Dig(v, keys[..i]).value.VDict?
    requires !HasKey(Dig(v, keys[..i]).value.members, keys[i])
    ensures Dig(v, keys) == Ok(VDict([]))
  {
    var d := Dig(v, keys[..i]).value;
    assert keys == keys[..i] + keys[i..];
    DigAppend(v, keys[..i], keys[i..]);
    DigEmpty(keys[i + 1..]);
    assert keys[i..][1..] == keys[i + 1..];
  }

  /** A missing nesting level anywhere on the request path gives `{}`. */
  lemma RequestSchemaMissing(spec: seq<Member>, i: nat)
    requires i < |RequestPath|
    requires Dig(VDict(spec), RequestPath[..i]).Ok? && Dig(VDict(spec), RequestPath[..i]).value.VDict?
    requires !HasKey(Dig(VDict(spec), RequestPath[..i]).value.members, RequestPath[i])
    ensures RequestSchema(spec) == Ok(VDict([]))
  {
    DigMissingAt(VDict(spec), RequestPath, i);
  }

  /** A missing nesting level anywhere on the response path gives `{}`. */
  lemma ResponseSchemaMissing(spec: seq<Member>, status: string, i: nat)
    requires i < |ResponsePath(status)|
    requires Dig(VDict(spec), ResponsePath(status)[..i]).Ok? && Dig(VDict(spec), ResponsePath(status)[..i]).value.VDict?
    requires !HasKey(Dig(VDict(spec), ResponsePath(status)[..i]).value.members, ResponsePath(status)[i])
    ensures ResponseSchema(spec, status) == Ok(VDict([]))
  {
    DigMissingAt(VDict(spec), ResponsePath(status), i);
  }

  /** An operation without a request body has the empty schema, and one
      without responses has the empty response schema for every status. */
  lemma NoBodyNoSchema(spec: seq<Member>, status: string)
    ensures !HasKey(spec, "requestBody") ==> RequestSchema(spec) == Ok(VDict([]))
    ensures !HasKey(spec, "responses") ==> ResponseSchema(spec, status) == Ok(VDict([]))
  {
    assert RequestPath[..0] == [];
    assert ResponsePath(status)[..0] == [];
    if !HasKey(spec, "requestBody") {
      RequestSchemaMissing(spec, 0);
    }
    if !HasKey(spec, "responses") {
      ResponseSchemaMissing(spec, status, 0);
    }
  }

  /** When every level is a dict holding the next key, the request schema
      is the value stored at the end of the chain. */
  lemma RequestSchemaFound(spec: seq<Member>, body: seq<Member>, content: seq<Member>, json: seq<Member>, schema: Value)
    requires Get(spec, "requestBody") == Some(VDict(body))
    requires Get(body, "content") == Some(VDict(content))
    requires Get(content, "application/json") == Some(VDict(json))
    requires Get(json, "schema") == Some(schema)
    ensures RequestSchema(spec) == Ok(schema)
  {
  }

  /** When every level is a dict holding the next key, the response schema
      of that status is the value stored at the end of the chain. */
  lemma ResponseSchemaFound(spec: seq<Member>, status: string, responses: seq<Member>, response: seq<Member>,
                            content: seq<Member>, json: seq<Member>, schema: Value)
    requires Get(spec, "responses") == Some(VDict(responses))
    requires Get(responses, status) == Some(VDict(response))
    requires Get(response, "content") == Some(VDict(content))
    requires Get(content, "application/json") == Some(VDict(json))
    requires Get(json, "schema") == Some(schema)
    ensures ResponseSchema(spec, status) == Ok(schema)
  {
    var path := ResponsePath(status);
    assert path[1..][1..][1..][1..][1..] == [];
    assert Dig(VDict(json), path[1..][1..][1..][1..]) == Ok(schema);
    assert Dig(VDict(content), path[1..][1..][1..]) == Ok(schema);
    assert Dig(VDict(response), path[1..][1..]) == Ok(schema);
    assert Dig(VDict(responses), path[1..]) == Ok(schema);
  }

  // ---- format_schema ----

  /** `"  " * indent`. */
  function Indent(n: nat): (r: string)
    ensures |r| == 2 * n
  {
    if n == 0 then "" else Indent(n - 1) + "  "
  }

  /** `schema.get("type", "unknown")`. */
  function TypeOf(members: seq<Member>): Value {
    GetOr(members, "type", VStr("unknown"))
  }

  /** `schema.get("required", [])`. */
  function RequiredOf(members: seq<Member>): Value {
    GetOr(members, "required", VList([]))
  }

  /** `schema.get("properties", {})`. */
  function PropertiesOf(members: seq<Member>): Value {
    GetOr(members, "properties", VDict([]))
  }

  /** A property the loop can read: its schema is a dict, its name can be
      tested against `required`, and an array property's `items` is a dict. */
  predicate PropertyShaped(required: Value, p: Member) {
    && p.value.VDict?
    && PyIn(p.key, required).Ok?
    && (TypeOf(p.value.members) == VStr("array") ==> GetOr(p.value.members, "items", VDict([])).VDict?)
  }

  predicate PropertiesShaped(required: Value, props: seq<Member>) {
    forall i :: 0 <= i < |props| ==> PropertyShaped(required, props[i])
  }

  /** The schemas `format_schema` formats without failing: falsy values, and
      dicts whose properties (for an object) or items (for an array) are
      themselves formattable. */
  predicate Formattable(schema: Value)
    decreases schema
  {
    if !Truthy(schema) then true
    else if !schema.VDict? then false
    else
      var members := schema.members;
      if TypeOf(members) == VStr("object") then
        && PropertiesOf(members).VDict?
        && PropertiesShaped(RequiredOf(members), PropertiesOf(members).members)
      else if TypeOf(members) == VStr("array") then
        match Get(members, "items")
        case None => true
        case Some(items) =>
          assert Member("items", items) in members;
          Formattable(items)
      else true
  }

  /** The lines for one property: the name with its type (an array shows its
      item type), the required marker, then its description if it has one. */
  function PropertyLines(prefix: string, required: Value, p: Member): (r: seq<string>)
    requires PropertyShaped(required, p)
    ensures 1 <= |r| <= 2
    ensures r[0] == prefix + "- " + p.key + ": " + TypeText(p.value.members) + RequiredMarker(required, p.key)
    ensures |r| == 2 <==> Truthy(GetOr(p.value.members, "description", VStr("")))
  {
    var ps := p.value.members;
    var description := GetOr(ps, "description", VStr(""));
    [prefix + "- " + p.key + ": " + TypeText(ps) + RequiredMarker(required, p.key)]
      + (if Truthy(description) then [prefix + "  // " + PyStr(description)] else [])
  }

  function RequiredMarker(required: Value, name: string): string
    requires PyIn(name, required).Ok?
  {
    if PyIn(name, required).value then " (required)" else ""
  }

  /** `type`, or `type<itemsType>` for an array. */
  function TypeText(ps: seq<Member>): string
    requires TypeOf(ps) == VStr("array") ==> GetOr(ps, "items", VDict([])).VDict?
  {
    var propType := TypeOf(ps);
    if propType == VStr("array") then
      PyStr(propType) + "<" + PyStr(TypeOf(GetOr(ps, "items", VDict([])).members)) + ">"
    else PyStr(propType)
  }

  /** The lines of the properties, in order. */
  function ObjectLines(prefix: string, required: Value, props: seq<Member>): seq<string>
    requires PropertiesShaped(required, props)
    decreases |props|
  {
    if props == [] then []
    else
      var n := |props| - 1;
      ObjectLines(prefix, required, props[..n]) + PropertyLines(prefix, required, props[n])
  }

  /** What `format_schema(schema, indent)` returns. */
  function FormatLines(schema: Value, indent: nat): seq<string>
    requires Formattable(schema)
    decreases schema
  {
    var prefix := Indent(indent);
    if !Truthy(schema) then [prefix + "(No schema)"]
    else
      var members := schema.members;
      var schemaType := TypeOf(members);
      if schemaType == VStr("object") then
        ObjectLines(prefix, RequiredOf(members), PropertiesOf(members).members)
      else if schemaType == VStr("array") then
        [prefix + "Array of:"] +
          match Get(members, "items")
          case None => [Indent(indent + 1) + "(No schema)"]
          case Some(items) =>
            assert Member("items", items) in members;
            FormatLines(items, indent + 1)
      else if HasKey(members, "$ref") then
        [prefix + "$ref: " + PyStr(Get(members, "$ref").value)]
      else [prefix + "Type: " + PyStr(schemaType)]
  }

  /** `format_schema`: appends the lines of each property in a loop, and
      formats an array's items one level deeper. */
  method FormatSchema(schema: Value, indent: nat) returns (lines: seq<string>)
    requires Formattable(schema)
    ensures lines == FormatLines(schema, indent)
    decreases schema, 1
  {
    var prefix := Indent(indent);
    if !Truthy(schema) {
      return [prefix + "(No schema)"];
    }
    lines := [];
    var members := schema.members;
    var schemaType := TypeOf(members);
    if schemaType == VStr("object") {
      lines := PropertyLoop(prefix, RequiredOf(members), PropertiesOf(members).members);
    } else if schemaType == VStr("array") {
      var inner := FormatItems(schema, indent);
      lines := [prefix + "Array of:"] + inner;
    } else if HasKey(members, "$ref") {
      lines := lines + [prefix + "$ref: " + PyStr(Get(members, "$ref").value)];
    } else {
      lines := lines + [prefix + "Type: " + PyStr(schemaType)];
    }
  }

  /** The lines under "Array of:": the items formatted one level deeper. */
  method FormatItems(schema: Value, indent: nat) returns (lines: seq<string>)
    requires Formattable(schema) && Truthy(schema) && schema.VDict?
    requires TypeOf(schema.members) == VStr("array")
    ensures [Indent(indent) + "Array of:"] + lines == FormatLines(schema, indent)
    decreases schema, 0
  {
    match Get(schema.members, "items")
    case None =>
      lines := [Indent(indent + 1) + "(No schema)"];
    case Some(items) =>
      assert Member("items", items) in schema.members;
      lines := FormatSchema(items, indent + 1);
  }

  /** The loop of `format_schema` over an object's properties. */
  method PropertyLoop(prefix: string, required: Value, props: seq<Member>) returns (lines: seq<string>)
    requires PropertiesShaped(required, props)
    ensures lines == ObjectLines(prefix, required, props)
  {
    lines := [];
    for i := 0 to |props|
      invariant lines == ObjectLines(prefix, required, props[..i])
    {
      ghost var next := props[..i + 1];
      assert next[..i] == props[..i] && next[i] == props[i];
      assert ObjectLines(prefix, required, next) == lines + PropertyLines(prefix, required, props[i]);
      lines := lines + PropertyLines(prefix, required, props[i]);
    }
    assert props[..|props|] == props;
  }

  lemma IndentExtends(n: nat)
    ensures Indent(n + 1) == Indent(n) + "  "
  {
  }

  lemma PropertyLinesIndented(prefix: string, required: Value, p: Member)
    requires PropertyShaped(required, p)
    ensures forall k :: 0 <= k < |PropertyLines(prefix, required, p)| ==>
      StartsWith(PropertyLines(prefix, required, p)[k], prefix)
  {
    var r := PropertyLines(prefix, required, p);
    assert StartsWith(r[0], prefix);
    if |r| == 2 {
      var description := GetOr(p.value.members, "description", VStr(""));
      assert r[1] == prefix + "  // " + PyStr(description);
    }
  }

  /** The lines of the properties each start with the prefix. */
  lemma {:induction false} ObjectLinesIndented(prefix: string, required: Value, props: seq<Member>)
    requires PropertiesShaped(required, props)
    ensures forall k :: 0 <= k < |ObjectLines(prefix, required, props)| ==>
      StartsWith(ObjectLines(prefix, required, props)[k], prefix)
    decreases |props|
  {
    if props != [] {
      var n := |props| - 1;
      ObjectLinesIndented(prefix, required, props[..n]);
      PropertyLinesIndented(prefix, required, props[n]);
      var before := ObjectLines(prefix, required, props[..n]);
      var last := PropertyLines(prefix, required, props[n]);
      assert ObjectLines(prefix, required, props) == before + last;
      AllStartAppend(before, last, prefix);
    }
  }

  lemma AllStartAppend(a: seq<string>, b: seq<string>, prefix: string)
    requires forall k :: 0 <= k < |a| ==> StartsWith(a[k], prefix)
    requires forall k :: 0 <= k < |b| ==> StartsWith(b[k], prefix)
    ensures forall k :: 0 <= k < |a + b| ==> StartsWith((a + b)[k], prefix)
  {
    forall k | 0 <= k < |a + b| ensures StartsWith((a + b)[k], prefix) {
      if k < |a| {
        assert (a + b)[k] == a[k];
      } else {
        assert (a + b)[k] == b[k - |a|];
      }
    }
  }

  /** Every line of a schema outline at depth `indent` starts with two
      spaces per level: nested items sit deeper than their "Array of:". */
  lemma {:induction false} FormatIndented(schema: Value, indent: nat)
    requires Formattable(schema)
    ensures forall k :: 0 <= k < |FormatLines(schema, indent)| ==>
      StartsWith(FormatLines(schema, indent)[k], Indent(indent))
    decreases schema, 1
  {
    if Truthy(schema) {
      var members := schema.members;
      if TypeOf(members) == VStr("object") {
        ObjectLinesIndented(Indent(indent), RequiredOf(members), PropertiesOf(members).members);
      } else if TypeOf(members) == VStr("array") {
        ArrayIndented(schema, indent);
      }
    }
  }

  lemma {:induction false} ArrayIndented(schema: Value, indent: nat)
    requires Formattable(schema) && Truthy(schema) && schema.VDict?
    requires TypeOf(schema.members) == VStr("array")
    ensures forall k :: 0 <= k < |FormatLines(schema, indent)| ==>
      StartsWith(FormatLines(schema, indent)[k], Indent(indent))
    decreases schema, 0
  {
    var prefix := Indent(indent);
    var members := schema.members;
    IndentExtends(indent);
    var inner := match Get(members, "items")
      case None => [Indent(indent + 1) + "(No schema)"]
      case Some(items) => FormatLines(items, indent + 1);
    assert FormatLines(schema, indent) == [prefix + "Array of:"] + inner;
    match Get(members, "items")
    case None =>
    case Some(items) =>
      assert Member("items", items) in members;
      FormatIndented(items, indent + 1);
    forall k | 0 <= k < |inner| ensures StartsWith(inner[k], prefix) {
      assert StartsWith(inner[k], prefix + "  ");
    }
  }

  /** An object outline has one line per property plus one per non-empty
      description, so it is empty exactly when there are no properties. */
  lemma {:induction false} ObjectLineCount(prefix: string, required: Value, props: seq<Member>)
    requires PropertiesShaped(required, props)
    ensures |props| <= |ObjectLines(prefix, required, props)| <= 2 * |props|
    ensures |ObjectLines(prefix, required, props)| == |props| + Described(props)
    decreases |props|
  {
    if props != [] {
      ObjectLineCount(prefix, required, props[..|props| - 1]);
    }
  }

  /** The number of properties whose description is non-empty. */
  function Described(props: seq<Member>): nat
    decreases |props|
  {
    if props == [] then 0
    else
      var p := props[|props| - 1];
      Described(props[..|props| - 1])
        + (if p.value.VDict? && Truthy(GetOr(p.value.members, "description", VStr(""))) then 1 else 0)
  }

  /** Only an object schema without properties has an empty outline. */
  lemma FormatNonEmpty(schema: Value, indent: nat)
    requires Formattable(schema)
    ensures FormatLines(schema, indent) == [] <==>
      schema.VDict? && schema.members != [] && TypeOf(schema.members) == VStr("object")
        && PropertiesOf(schema.members).members == []
  {
    if Truthy(schema) && TypeOf(schema.members) == VStr("object") {
      ObjectLineCount(Indent(indent), RequiredOf(schema.members), PropertiesOf(schema.members).members);
    }
  }

  /** A dict with no `type` and no `$ref` is shown as of type "unknown". */
  lemma UnknownType(members: seq<Member>, indent: nat)
    requires members != [] && !HasKey(members, "type") && !HasKey(members, "$ref")
    ensures Formattable(VDict(members))
    ensures FormatLines(VDict(members), indent) == [Indent(indent) + "Type: unknown"]
  {
    assert Get(members, "type") == None && Get(members, "$ref") == None;
    assert TypeOf(members) == VStr("unknown");
    assert PyStr(VStr("unknown")) == "unknown";
    assert Indent(indent) + "Type: " + "unknown" == Indent(indent) + "Type: unknown";
  }

  /** `$ref` is read only for a schema that is neither an object nor an
      array: adding one to those changes nothing. */
  lemma RefIgnored(members: seq<Member>, ref: Value, indent: nat)
    requires !HasKey(members, "$ref")
    requires TypeOf(members) in {VStr("object"), VStr("array")}
    requires Formattable(VDict(members))
    ensures Formattable(VDict(members + [Member("$ref", ref)]))
    ensures FormatLines(VDict(members + [Member("$ref", ref)]), indent) == FormatLines(VDict(members), indent)
  {
    var more := members + [Member("$ref", ref)];
    GetAppendOther(members, Member("$ref", ref), "type");
    GetAppendOther(members, Member("$ref", ref), "required");
    GetAppendOther(members, Member("$ref", ref), "properties");
    GetAppendOther(members, Member("$ref", ref), "items");
    FormatSameLookups(members, more, indent);
  }

  /** The outline of an object or array schema depends only on its type,
      `required`, `properties` and `items`. */
  lemma FormatSameLookups(a: seq<Member>, b: seq<Member>, indent: nat)
    requires a != [] && b != []
    requires TypeOf(a) == TypeOf(b) && TypeOf(a) in {VStr("object"), VStr("array")}
    requires RequiredOf(a) == RequiredOf(b) && PropertiesOf(a) == PropertiesOf(b)
    requires Get(a, "items") == Get(b, "items")
    ensures Formattable(VDict(a)) == Formattable(VDict(b))
    ensures Formattable(VDict(a)) ==> FormatLines(VDict(a), indent) == FormatLines(VDict(b), indent)
  {
    if TypeOf(a) == VStr("array") {
      ArraySameItems(a, b, indent);
    } else {
      ObjectSameProperties(a, b, indent);
    }
  }

  lemma ObjectSameProperties(a: seq<Member>, b: seq<Member>, indent: nat)
    requires a != [] && b != []
    requires TypeOf(a) == VStr("object") && TypeOf(b) == VStr("object")
    requires RequiredOf(a) == RequiredOf(b) && PropertiesOf(a) == PropertiesOf(b)
    ensures Formattable(VDict(a)) == Formattable(VDict(b))
    ensures Formattable(VDict(a)) ==> FormatLines(VDict(a), indent) == FormatLines(VDict(b), indent)
  {
    var required, props := RequiredOf(a), PropertiesOf(a);
    assert Formattable(VDict(a)) == (props.VDict? && PropertiesShaped(required, props.members));
    assert Formattable(VDict(b)) == (props.VDict? && PropertiesShaped(required, props.members));
    if Formattable(VDict(a)) {
      assert FormatLines(VDict(a), indent) == ObjectLines(Indent(indent), required, props.members);
      assert FormatLines(VDict(b), indent) == ObjectLines(Indent(indent), required, props.members);
    }
  }

  lemma ArraySameItems(a: seq<Member>, b: seq<Member>, indent: nat)
    requires a != [] && b != []
    requires TypeOf(a) == VStr("array") && TypeOf(b) == VStr("array")
    requires Get(a, "items") == Get(b, "items")
    ensures Formattable(VDict(a)) == Formattable(VDict(b))
    ensures Formattable(VDict(a)) ==> FormatLines(VDict(a), indent) == FormatLines(VDict(b), indent)
  {
    match Get(a, "items")
    case None =>
    case Some(items) =>
      assert Member("items", items) in a && Member("items", items) in b;
  }

  /** Appending a member under another key leaves a lookup unchanged. */
  lemma {:induction false} GetAppendOther(members: seq<Member>, m: Member, key: string)
    requires m.key != key
    ensures Get(members + [m], key) == Get(members, key)
  {
    if members != [] {
      assert (members + [m])[1..] == members[1..] + [m];
      GetAppendOther(members[1..], m, key);
    }
  }
}
