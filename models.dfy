/** The validators of the client's data models: record and table ids,
    query parameters, upload file names, response status codes and the
    connection settings. Each validator either rejects its input with the
    `ValueError` message, or returns the (possibly normalised) value. */
module Models {
  import opened Wrappers
  import opened Data
  import opened Text
  import Filters

  // ---------------------------------------------------------------------
  // Substrings of slices
  // ---------------------------------------------------------------------

  lemma {:induction false} ContainsSuffix(s: string, i: nat, p: string)
    requires i <= |s|
    requires Contains(s[i..], p)
    ensures Contains(s, p)
  {
    if i > 0 {
      assert s[1..][i - 1..] == s[i..];
      ContainsSuffix(s[1..], i - 1, p);
    }
  }

  lemma {:induction false} ContainsPrefix(s: string, j: nat, p: string)
    requires j <= |s|
    requires Contains(s[..j], p)
    ensures Contains(s, p)
    decreases |s|
  {
    if StartsWith(s[..j], p) {
      assert s[..|p|] == s[..j][..|p|];
    } else {
      assert s[..j][1..] == s[1..][..j - 1];
      ContainsPrefix(s[1..], j - 1, p);
    }
  }

  /** `s.strip()` is a slice of `s`. */
  lemma StripSlice(s: string) returns (a: nat, b: nat)
    ensures a <= b <= |s|
    ensures Strip(s) == s[a..b]
  {
    var t := TrimStart(s);
    a := |s| - |t|;
    b := a + |TrimEnd(t)|;
    assert t[..|TrimEnd(t)|] == s[a..b];
  }

  lemma StripKeepsAbsent(s: string, p: string)
    requires !Contains(s, p)
    ensures !Contains(Strip(s), p)
  {
    var a, b := StripSlice(s);
    if Contains(Strip(s), p) {
      ContainsSlice(s, a, b, p);
    }
  }

  lemma ContainsSlice(s: string, a: nat, b: nat, p: string)
    requires a <= b <= |s| && Contains(s[a..b], p)
    ensures Contains(s, p)
  {
    assert s[a..b] == s[a..][..b - a];
    ContainsPrefix(s[a..], b - a, p);
    ContainsSuffix(s, a, p);
  }

  /** Stripping a non-blank string gives a non-blank string. */
  lemma StripNotBlank(s: string)
    requires !IsBlank(s)
    ensures !IsBlank(Strip(s))
  {
    var r := Strip(s);
    assert !IsSpace(r[0]);
  }

  // ---------------------------------------------------------------------
  // NocoDBRecord
  // ---------------------------------------------------------------------

  datatype RecordId = IntId(i: int) | StrId(s: string)

  /** `NocoDBRecord.validate_id`: a blank string id or a non-positive
      integer id is rejected; any other id passes unchanged. */
  function ValidateRecordId(id: RecordId): (r: Result<RecordId, string>)
    ensures r.Ok? <==> (id.StrId? && !IsBlank(id.s)) || (id.IntId? && id.i > 0)
    ensures r.Ok? ==> r.value == id
    ensures id.StrId? && IsBlank(id.s) ==> r == Err("Record ID cannot be empty string")
    ensures id.IntId? && id.i <= 0 ==> r == Err("Record ID must be positive integer")
  {
    match id
    case StrId(s) => if Strip(s) == [] then Err("Record ID cannot be empty string") else Ok(id)
    case IntId(i) => if i <= 0 then Err("Record ID must be positive integer") else Ok(id)
  }

  function IdValue(id: RecordId): Value {
    match id
    case IntId(i) => VInt(i)
    case StrId(s) => VStr(s)
  }

  /** `d.update(data)`: every member of `data` written in turn. */
  function Update(base: seq<Member>, data: seq<Member>): seq<Member>
    decreases |data|
  {
    if data == [] then base else Update(Put(base, data[0].key, data[0].value), data[1..])
  }

  /** After `base.update(data)` (with `data` a dict), a key reads as in `data`
      when `data` has it, and as in `base` otherwise. */
  lemma {:induction false} UpdateGet(base: seq<Member>, data: seq<Member>, key: string)
    requires DistinctKeys(data)
    ensures Get(Update(base, data), key) == if HasKey(data, key) then Get(data, key) else Get(base, key)
    decreases |data|
  {
    if data != [] {
      var m := data[0];
      var next := Put(base, m.key, m.value);
      assert DistinctKeys(data[1..]);
      UpdateGet(next, data[1..], key);
      HasKeyTail(data, key);
      GetPut(base, m.key, m.value, key);
      if m.key == key {
        assert !HasKey(data[1..], key);
      }
    }
  }

  /** Updating keeps the base's keys in their places. */
  lemma {:induction false} UpdateKeepsKeys(base: seq<Member>, data: seq<Member>)
    ensures |Update(base, data)| >= |base|
    ensures forall i :: 0 <= i < |base| ==> Update(base, data)[i].key == base[i].key
    decreases |data|
  {
    if data != [] {
      var next := Put(base, data[0].key, data[0].value);
      PutKeepsOthers(base, data[0].key, data[0].value);
      UpdateKeepsKeys(next, data[1..]);
    }
  }

  /** `NocoDBRecord.to_api_format`: `{"Id": id}` updated with the record
      data. */
  function ToApiFormat(id: RecordId, data: seq<Member>): seq<Member> {
    Update([Member("Id", IdValue(id))], data)
  }

  /** `Id` comes first; every data field comes through, and an `Id` inside
      the data overrides the record's id. */
  lemma ToApiFormatContents(id: RecordId, data: seq<Member>, key: string)
    requires DistinctKeys(data)
    ensures var r := ToApiFormat(id, data);
      && |r| >= 1 && r[0].key == "Id"
      && (HasKey(data, key) ==> Get(r, key) == Get(data, key))
      && (key == "Id" && !HasKey(data, "Id") ==> Get(r, "Id") == Some(IdValue(id)))
      && (key != "Id" && !HasKey(data, key) ==> Get(r, key) == None)
  {
    UpdateKeepsKeys([Member("Id", IdValue(id))], data);
    UpdateGet([Member("Id", IdValue(id))], data, key);
  }

  // ---------------------------------------------------------------------
  // QueryParams
  // ---------------------------------------------------------------------

  /** A sort item after `strip()` and the removal of one leading `-`. */
  function SortItemField(item: string): string {
    var f := Strip(item);
    if StartsWith(f, "-") then f[1..] else f
  }

  /** The field names a sort string's items carry, in order. */
  function SortFields(s: string): (fs: seq<string>)
    ensures |fs| == |Split(s, ',')|
  {
    var items := Split(s, ',');
    seq(|items|, i requires 0 <= i < |items| => SortItemField(items[i]))
  }

  /** A field name is acceptable: alphanumeric once `_` and `-` are deleted. */
  predicate SortFieldOk(f: string) {
    IsAlnumString(ReplaceAll(ReplaceAll(f, "_", ""), "-", ""))
  }

  predicate AllSortFieldsOk(fs: seq<string>) {
    forall i :: 0 <= i < |fs| ==> SortFieldOk(fs[i])
  }

  /** The first unacceptable field name, if any. */
  function FirstBadSortField(fs: seq<string>): (r: Option<nat>)
    ensures r.None? <==> AllSortFieldsOk(fs)
    ensures r.Some? ==> r.value < |fs| && !SortFieldOk(fs[r.value]) && AllSortFieldsOk(fs[..r.value])
  {
    if fs == [] then None
    else if !SortFieldOk(fs[0]) then
      assert fs[..0] == [];
      Some(0)
    else
      var rest := FirstBadSortField(fs[1..]);
      AllSortFieldsOkCons(fs);
      if rest.None? then None
      else
        assert fs[..rest.value + 1] == [fs[0]] + fs[1..][..rest.value];
        AllSortFieldsOkCons(fs[..rest.value + 1]);
        Some(rest.value + 1)
  }

  lemma AllSortFieldsOkCons(fs: seq<string>)
    requires fs != []
    ensures AllSortFieldsOk(fs) <==> SortFieldOk(fs[0]) && AllSortFieldsOk(fs[1..])
  {
    if SortFieldOk(fs[0]) && AllSortFieldsOk(fs[1..]) {
      forall i | 0 <= i < |fs| ensures SortFieldOk(fs[i]) {
        if i > 0 {
          assert fs[i] == fs[1..][i - 1];
        }
      }
    }
  }

  /** `QueryParams.validate_sort`: the field named by every comma-separated
      item must be acceptable; the first bad one is reported, and an
      accepted string is returned unchanged. */
  function ValidateSort(v: Option<string>): (r: Result<Option<string>, string>)
    ensures v.None? ==> r == Ok(None)
    ensures v.Some? ==> (r.Ok? <==> AllSortFieldsOk(SortFields(v.value)))
    ensures r.Ok? ==> r.value == v
    ensures r.Err? ==> v.Some? && (exists i ::
                                     && 0 <= i < |SortFields(v.value)|
                                     && !SortFieldOk(SortFields(v.value)[i])
                                     && AllSortFieldsOk(SortFields(v.value)[..i])
                                     && r.error == "Invalid sort field: " + SortFields(v.value)[i])
  {
    match v
    case None => Ok(None)
    case Some(s) =>
      var fs := SortFields(s);
      var bad := FirstBadSortField(fs);
      if bad.Some? then Err("Invalid sort field: " + fs[bad.value]) else Ok(v)
  }

  /** A field name is acceptable exactly when, with `_` and `-` deleted, it
      is non-empty and made of ASCII letters and digits. */
  lemma SortFieldOkMeaning(f: string)
    ensures SortFieldOk(f) <==>
      var w := Without(Without(f, '_'), '-');
      w != [] && forall c :: c in w ==> IsAlnum(c)
  {
    DeleteChar(f, '_');
    DeleteChar(Without(f, '_'), '-');
    var w := Without(Without(f, '_'), '-');
    if w != [] && forall c :: c in w ==> IsAlnum(c) {
      assert forall i :: 0 <= i < |w| ==> w[i] in w;
    }
  }

  /** A sort string built by `SortBuilder` from alphanumeric field names
      carries exactly those names, and passes sort validation. */
  lemma BuiltSortValid(fields: seq<Filters.SortField>)
    requires fields != []
    requires forall k :: 0 <= k < |fields| ==> IsAlnumString(fields[k].field)
    ensures SortFields(Filters.RenderSort(fields)) == seq(|fields|, k requires 0 <= k < |fields| => fields[k].field)
    ensures ValidateSort(Some(Filters.RenderSort(fields))) == Ok(Some(Filters.RenderSort(fields)))
  {
    var texts := seq(|fields|, k requires 0 <= k < |fields| => Filters.SortText(fields[k]));
    forall k | 0 <= k < |texts| ensures ',' !in texts[k] {
      assert forall i :: 0 <= i < |fields[k].field| ==> IsAlnum(fields[k].field[i]);
    }
    var s := Filters.RenderSort(fields);
    assert s == Text.Join([','], texts);
    SplitJoin(texts, ',');
    var names := seq(|fields|, k requires 0 <= k < |fields| => fields[k].field);
    forall k | 0 <= k < |texts| ensures SortItemField(texts[k]) == names[k] && SortFieldOk(names[k]) {
      AlnumItemOk(fields[k]);
    }
    assert SortFields(s) == names;
    assert AllSortFieldsOk(names);
  }

  lemma AlnumItemOk(f: Filters.SortField)
    requires IsAlnumString(f.field)
    ensures SortItemField(Filters.SortText(f)) == f.field
    ensures SortFieldOk(f.field)
  {
    SortTextStripped(f);
    var t := Filters.SortText(f);
    if f.direction == Filters.Descending {
      assert t[..1] == "-";
      assert t[1..] == f.field;
    } else {
      assert !StartsWith(t, "-");
    }
    AlnumFieldOk(f.field);
  }

  lemma SortTextStripped(f: Filters.SortField)
    requires IsAlnumString(f.field)
    ensures Strip(Filters.SortText(f)) == Filters.SortText(f)
  {
    var t := Filters.SortText(f);
    assert t[|t| - 1] == f.field[|f.field| - 1];
    TrimStartFixed(t);
    TrimEndFixed(t);
  }

  lemma AlnumFieldOk(field: string)
    requires IsAlnumString(field)
    ensures SortFieldOk(field)
  {
    NoCharNoChange(field, '_');
    NoCharNoChange(field, '-');
  }

  lemma {:induction false} NoCharNoChange(s: string, c: char)
    requires forall i :: 0 <= i < |s| ==> s[i] != c
    ensures ReplaceAll(s, [c], "") == s
  {
    if s != [] {
      NoCharNoChange(s[1..], c);
      assert [s[0]] + s[1..] == s;
    }
  }

  /** An empty sort string is rejected: its one item names no field. */
  lemma EmptySortRejected()
    ensures ValidateSort(Some("")).Err?
  {
    assert SortFields("")[0] == "";
    assert !SortFieldOk("");
  }

  /** A sort string with an empty item (two commas in a row) is rejected. */
  lemma EmptySortItemRejected(a: string, b: string)
    requires ',' !in a
    ensures ValidateSort(Some(a + [',', ','] + b)).Err?
  {
    var s := a + [',', ','] + b;
    assert s == a + [','] + ([] + [','] + b);
    SplitAppend(a, ',', [] + [','] + b);
    SplitAppend([], ',', b);
    var items := Split(s, ',');
    assert items[1] == "";
    assert SortFields(s)[1] == SortItemField("");
    assert !SortFieldOk(SortFields(s)[1]);
  }

  /** `QueryParams.validate_where`: `None` passes, a blank clause is
      rejected, anything else is returned stripped. */
  function ValidateWhere(v: Option<string>): (r: Result<Option<string>, string>)
    ensures v.None? ==> r == Ok(None)
    ensures v.Some? && IsBlank(v.value) ==> r == Err("Where clause cannot be empty")
    ensures v.Some? && !IsBlank(v.value) ==> r == Ok(Some(Strip(v.value)))
  {
    match v
    case None => Ok(None)
    case Some(s) => if Strip(s) == [] then Err("Where clause cannot be empty") else Ok(Some(Strip(s)))
  }

  /** Validation is a normalisation: a validated clause validates to itself. */
  lemma ValidateWhereIdempotent(v: Option<string>)
    requires ValidateWhere(v).Ok?
    ensures ValidateWhere(ValidateWhere(v).value) == ValidateWhere(v)
  {
    if v.Some? {
      StripNotBlank(v.value);
      StripIdempotent(v.value);
    }
  }

  predicate FieldNameOk(v: Value) {
    v.VStr? && !IsBlank(v.s)
  }

  /** `QueryParams.validate_fields`: `None` passes, an empty list is
      rejected, so is any name that is not a non-blank string; otherwise the
      names come back stripped, in order. */
  function ValidateFields(v: Option<seq<Value>>): (r: Result<Option<seq<string>>, string>)
    ensures v.None? ==> r == Ok(None)
    ensures v == Some([]) ==> r == Err("Fields list cannot be empty")
    ensures v.Some? && v.value != [] ==>
      (r.Ok? <==> forall i :: 0 <= i < |v.value| ==> FieldNameOk(v.value[i]))
    ensures v.Some? && v.value != [] && r.Err? ==> r.error == "All field names must be non-empty strings"
    ensures v.Some? && r.Ok? ==> r.value.Some? && |r.value.value| == |v.value|
    ensures v.Some? && r.Ok? ==> forall i :: 0 <= i < |v.value| ==> r.value.value[i] == Strip(v.value[i].s)
  {
    match v
    case None => Ok(None)
    case Some(names) =>
      if names == [] then Err("Fields list cannot be empty")
      else if exists i :: 0 <= i < |names| && !FieldNameOk(names[i]) then
        Err("All field names must be non-empty strings")
      else
        Ok(Some(seq(|names|, i requires 0 <= i < |names| => Strip(names[i].s))))
  }

  /** Validated field names validate to themselves. */
  lemma ValidateFieldsIdempotent(v: Option<seq<Value>>)
    requires ValidateFields(v).Ok? && ValidateFields(v).value.Some?
    ensures var names := ValidateFields(v).value.value;
      ValidateFields(Some(seq(|names|, i requires 0 <= i < |names| => VStr(names[i])))) == Ok(Some(names))
  {
    var names := ValidateFields(v).value.value;
    var again := seq(|names|, i requires 0 <= i < |names| => VStr(names[i]));
    assert again != [];
    forall i | 0 <= i < |names| ensures FieldNameOk(again[i]) && Strip(again[i].s) == names[i] {
      StripNotBlank(v.value[i].s);
      StripIdempotent(v.value[i].s);
    }
    assert seq(|again|, i requires 0 <= i < |again| => Strip(again[i].s)) == names;
  }

  datatype FieldError = FieldError(field: string, message: string)

  datatype QueryParams = QueryParams(
    sort: Option<string>, where: Option<string>, fields: Option<seq<string>>, limit: int, offset: int)

  /** The `QueryParams` model: each field is checked in declaration order
      and every failing field contributes one error. `limit` must lie in
      1..10000 and `offset` must not be negative. */
  function MakeQueryParams(sort: Option<string>, where: Option<string>, fields: Option<seq<Value>>,
                           limit: int, offset: int): (r: Result<QueryParams, seq<FieldError>>)
    ensures r.Ok? <==>
      ValidateSort(sort).Ok? && ValidateWhere(where).Ok? && ValidateFields(fields).Ok? &&
      0 < limit <= 10000 && offset >= 0
    ensures r.Ok? ==> r.value == QueryParams(sort, ValidateWhere(where).value,
      ValidateFields(fields).value, limit, offset)
    ensures r.Err? ==> |r.error| <= 5 && r.error != []
  {
    var s := ValidateSort(sort);
    var w := ValidateWhere(where);
    var f := ValidateFields(fields);
    var errors :=
      (if s.Err? then [FieldError("sort", s.error)] else []) +
      (if w.Err? then [FieldError("where", w.error)] else []) +
      (if f.Err? then [FieldError("fields", f.error)] else []) +
      (if 0 < limit <= 10000 then [] else [FieldError("limit", "out of range 1..10000")]) +
      (if offset >= 0 then [] else [FieldError("offset", "must be at least 0")]);
    if errors == [] then Ok(QueryParams(s.value, w.value, f.value, limit, offset))
    else Err(errors)
  }

  // ---------------------------------------------------------------------
  // FileUploadInfo, ApiResponse, TableInfo
  // ---------------------------------------------------------------------

  const DangerousParts: seq<string> := ["..", "/", "\\", "<", ">", "|", ":", "*", "?", "\""]

  predicate HasDangerousPart(name: string) {
    exists i :: 0 <= i < |DangerousParts| && Contains(name, DangerousParts[i])
  }

  /** `FileUploadInfo.validate_filename`: a blank name, or one containing
      any dangerous part, is rejected; otherwise it comes back stripped. */
  function ValidateFilename(name: string): (r: Result<string, string>)
    ensures IsBlank(name) ==> r == Err("Filename cannot be empty")
    ensures !IsBlank(name) && HasDangerousPart(name) ==> r == Err("Filename contains dangerous characters")
    ensures !IsBlank(name) && !HasDangerousPart(name) ==> r == Ok(Strip(name))
  {
    if Strip(name) == [] then Err("Filename cannot be empty")
    else if exists i :: 0 <= i < |DangerousParts| && Contains(name, DangerousParts[i]) then
      Err("Filename contains dangerous characters")
    else Ok(Strip(name))
  }

  /** An accepted file name is non-blank, holds no dangerous part and is
      accepted again unchanged. */
  lemma ValidateFilenameIdempotent(name: string)
    requires ValidateFilename(name).Ok?
    ensures var n := ValidateFilename(name).value;
      !IsBlank(n) && !HasDangerousPart(n) && ValidateFilename(n) == Ok(n)
  {
    var n := Strip(name);
    StripNotBlank(name);
    forall i | 0 <= i < |DangerousParts| ensures !Contains(n, DangerousParts[i]) {
      StripKeepsAbsent(name, DangerousParts[i]);
    }
    StripIdempotent(name);
  }

  /** `ApiResponse.validate_status_code`: absent, or within 100..599. */
  function ValidateStatusCode(v: Option<int>): (r: Result<Option<int>, string>)
    ensures r.Ok? <==> v.None? || 100 <= v.value <= 599
    ensures r.Ok? ==> r.value == v
    ensures r.Err? ==> r.error == "Invalid HTTP status code"
  {
    if v.Some? && !(100 <= v.value <= 599) then Err("Invalid HTTP status code") else Ok(v)
  }

  /** `TableInfo.validate_id`: non-blank, returned stripped. */
  function ValidateTableId(id: string): (r: Result<string, string>)
    ensures IsBlank(id) <==> r == Err("Table ID cannot be empty")
    ensures !IsBlank(id) ==> r == Ok(Strip(id))
  {
    if Strip(id) == [] then Err("Table ID cannot be empty") else Ok(Strip(id))
  }

  lemma ValidateTableIdIdempotent(id: string)
    requires ValidateTableId(id).Ok?
    ensures ValidateTableId(ValidateTableId(id).value) == ValidateTableId(id)
  {
    StripNotBlank(id);
    StripIdempotent(id);
  }

  // ---------------------------------------------------------------------
  // ConnectionConfig
  // ---------------------------------------------------------------------

  /** `ConnectionConfig.validate_base_url`: strip, then drop trailing `/`,
      and require an `http://` or `https://` scheme. */
  function ValidateBaseUrl(v: string): (r: Result<string, string>)
    ensures IsBlank(v) ==> r == Err("Base URL cannot be empty")
    ensures r.Ok? ==> !IsBlank(v) && r.value == RStripChar(Strip(v), '/')
    ensures r.Ok? ==> StartsWith(r.value, "http://") || StartsWith(r.value, "https://")
    ensures r.Ok? ==> r.value[|r.value| - 1] != '/'
    ensures !IsBlank(v) && r.Err? ==> r.error == "Base URL must start with http:// or https://"
    ensures !IsBlank(v) ==>
      var url := RStripChar(Strip(v), '/');
      (r.Ok? <==> StartsWith(url, "http://") || StartsWith(url, "https://"))
  {
    if Strip(v) == [] then Err("Base URL cannot be empty")
    else
      var url := RStripChar(Strip(v), '/');
      if !StartsWith(url, "http://") && !StartsWith(url, "https://") then
        Err("Base URL must start with http:// or https://")
      else Ok(url)
  }

  lemma StartsWithHead(s: string, p: string)
    requires StartsWith(s, p) && p != []
    ensures s[0] == p[0]
  {
    assert s[..|p|][0] == s[0];
  }

  /** An accepted URL that does not end in whitespace validates to itself. */
  lemma ValidateBaseUrlIdempotent(v: string)
    requires ValidateBaseUrl(v).Ok?
    requires var u := ValidateBaseUrl(v).value; !IsSpace(u[|u| - 1])
    ensures ValidateBaseUrl(ValidateBaseUrl(v).value) == ValidateBaseUrl(v)
  {
    var u := ValidateBaseUrl(v).value;
    if StartsWith(u, "http://") {
      StartsWithHead(u, "http://");
    } else {
      StartsWithHead(u, "https://");
    }
    TrimStartFixed(u);
    TrimEndFixed(u);
    assert Strip(u) == u;
  }

  /** `ConnectionConfig.validate_api_token`: non-blank and at least 10
      characters once stripped, and returned stripped. */
  function ValidateApiToken(v: string): (r: Result<string, string>)
    ensures IsBlank(v) ==> r == Err("API token cannot be empty")
    ensures !IsBlank(v) && |Strip(v)| < 10 ==> r == Err("API token must be at least 10 characters")
    ensures r.Ok? <==> |Strip(v)| >= 10
    ensures r.Ok? ==> r.value == Strip(v)
  {
    if Strip(v) == [] then Err("API token cannot be empty")
    else if |Strip(v)| < 10 then Err("API token must be at least 10 characters")
    else Ok(Strip(v))
  }

  lemma ValidateApiTokenIdempotent(v: string)
    requires ValidateApiToken(v).Ok?
    ensures ValidateApiToken(ValidateApiToken(v).value) == ValidateApiToken(v)
  {
    StripNotBlank(v);
    StripIdempotent(v);
  }
}
