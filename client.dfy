/** The request-shaping part of `NocoDBClient`: classification of error
    responses, query-parameter assembly, the pagination loop of
    `get_records`, and `update_record`'s write of `Id` into the caller's dict.
    The HTTP transport is a function parameter: it receives the endpoint path
    and the query parameters and returns the decoded JSON body, or the
    exception `_check_for_error` raised for the response. */
module Client {
  import opened Wrappers
  import opened Data
  import Text

  /** NocoDB's ceiling on rows per request. */
  const MaxPageSize: nat := 100

  function Min(a: int, b: int): int {
    if a <= b then a else b
  }

  // ---------------------------------------------------------------------
  // _check_for_error
  // ---------------------------------------------------------------------

  /** An HTTP response body: not JSON at all, or decoded JSON. */
  datatype Body = NotJson | Json(value: Value)

  /** What `_check_for_error` does with a response. */
  datatype Raised =
    | NoError
    | RecordNotFound(error: Value, message: Value)   // RecordNotFoundException
    | ApiError(error: Value, message: Value)         // NocoDBException
    | HttpError(status: int)                         // requests.HTTPError
    | InternalTypeError                              // an uncaught TypeError
    | InternalAttributeError                         // `.get` on a body that is not a dict

  /** `requests.Response.raise_for_status`: client and server errors only. */
  function RaiseForStatus(status: int): (r: Raised)
    ensures r == NoError || r == HttpError(status)
    ensures r.HttpError? <==> 400 <= status < 600
  {
    if 400 <= status && status < 600 then HttpError(status) else NoError
  }

  /** `error_info["error"]` and `error_info["message"]` of a body that has both. */
  function ErrorFields(members: seq<Member>): (Value, Value)
    requires HasKey(members, "error") && HasKey(members, "message")
  {
    (Get(members, "error").value, Get(members, "message").value)
  }

  function ApiException(members: seq<Member>): Raised
    requires HasKey(members, "error") && HasKey(members, "message")
  {
    var (e, m) := ErrorFields(members);
    if e == VStr("RECORD_NOT_FOUND") then RecordNotFound(e, m) else ApiError(e, m)
  }

  /** `_check_for_error` as written: the `in` tests and the indexing run on
      whatever JSON value the body decodes to, and only `ValueError` (a body
      that is not JSON) is caught. */
  function CheckForErrorAsWritten(status: int, body: Body): Raised {
    if status < 400 then NoError
    else
      match body
      case NotJson => RaiseForStatus(status)
      case Json(v) =>
        match PyIn("error", v)
        case Err(_) => InternalTypeError
        case Ok(hasError) =>
          if !hasError then RaiseForStatus(status)
          else if !PyIn("message", v).value then RaiseForStatus(status)
          else if v.VDict? then ApiException(v.members)
          else InternalTypeError  // indexing a list or a string with "error"
  }

  /** A JSON body whose top level is not an object, with a 5xx status, ends in
      a `TypeError` instead of the HTTP error. */
  lemma NonObjectBodyRaisesTypeError()
    ensures CheckForErrorAsWritten(502, Json(VNone)) == InternalTypeError
    ensures CheckForErrorAsWritten(500, Json(VList([VStr("error"), VStr("message")]))) == InternalTypeError
    ensures CheckForError(502, Json(VNone)) == HttpError(502)
  {
  }

  /** `_check_for_error` as evidently intended: only a JSON object can carry
      the `error`/`message` pair; any other body falls through to
      `raise_for_status`. */
  function CheckForError(status: int, body: Body): (r: Raised)
    ensures status < 400 ==> r == NoError
    ensures r.RecordNotFound? <==>
      status >= 400 && body.Json? && body.value.VDict? &&
      HasKey(body.value.members, "error") && HasKey(body.value.members, "message") &&
      Get(body.value.members, "error") == Some(VStr("RECORD_NOT_FOUND"))
    ensures r.ApiError? <==>
      status >= 400 && body.Json? && body.value.VDict? &&
      HasKey(body.value.members, "error") && HasKey(body.value.members, "message") &&
      Get(body.value.members, "error") != Some(VStr("RECORD_NOT_FOUND"))
    ensures r.RecordNotFound? || r.ApiError? ==>
      body.Json? && body.value.VDict? &&
      HasKey(body.value.members, "error") && HasKey(body.value.members, "message") &&
      (r.error, r.message) == ErrorFields(body.value.members)
    ensures r.NoError? <==>
      status < 400 ||
      (status >= 600 &&
       !(body.Json? && body.value.VDict? &&
         HasKey(body.value.members, "error") && HasKey(body.value.members, "message")))
    ensures r.HttpError? <==>
      (400 <= status < 600 &&
       !(body.Json? && body.value.VDict? &&
         HasKey(body.value.members, "error") && HasKey(body.value.members, "message")))
    ensures !r.InternalTypeError? && !r.InternalAttributeError?
  {
    if status < 400 then NoError
    else if body.Json? && body.value.VDict? &&
      HasKey(body.value.members, "error") && HasKey(body.value.members, "message")
    then ApiException(body.value.members)
    else RaiseForStatus(status)
  }

  /** On a missing body or an object body the two versions agree. */
  lemma CheckForErrorAgreesOnObjects(status: int, body: Body)
    requires body.NotJson? || body.value.VDict?
    ensures CheckForErrorAsWritten(status, body) == CheckForError(status, body)
  {
  }

  // ---------------------------------------------------------------------
  // Query parameters
  // ---------------------------------------------------------------------

  datatype ParamValue = PStr(s: string) | PInt(i: int)

  type Params = map<string, ParamValue>

  /** The optional arguments of `get_records` that become query parameters. */
  datatype Query = Query(sort: Option<string>, where: Option<string>, fields: Option<seq<string>>)

  /** The `params` dict of one page request: `sort`, `where`, `limit` and
      `offset`, plus the comma-joined `fields` when the list is non-empty;
      an argument that is `None` leaves no entry. */
  function RecordsParams(q: Query, limit: int, offset: int): Params
  {
    var p := map["limit" := PInt(limit), "offset" := PInt(offset)];
    var p := if q.sort.Some? then p["sort" := PStr(q.sort.value)] else p;
    var p := if q.where.Some? then p["where" := PStr(q.where.value)] else p;
    if q.fields.Some? && q.fields.value != [] then p["fields" := PStr(Text.Join(",", q.fields.value))] else p
  }

  /** The page request carries `limit` and `offset`; `sort` and `where`
      exactly when given; `fields`, comma-joined in order, exactly when the
      list is non-empty; and nothing else. */
  lemma RecordsParamsContents(q: Query, limit: int, offset: int)
    ensures var p := RecordsParams(q, limit, offset);
      && "limit" in p && p["limit"] == PInt(limit)
      && "offset" in p && p["offset"] == PInt(offset)
      && ("sort" in p <==> q.sort.Some?)
      && ("sort" in p ==> p["sort"] == PStr(q.sort.value))
      && ("where" in p <==> q.where.Some?)
      && ("where" in p ==> p["where"] == PStr(q.where.value))
      && ("fields" in p <==> q.fields.Some? && q.fields.value != [])
      && ("fields" in p ==> p["fields"] == PStr(Text.Join(",", q.fields.value)))
      && p.Keys <= {"sort", "where", "limit", "offset", "fields"}
  {
  }

  /** `get_record`'s params: only `fields`, and only for a non-empty list. */
  function RecordParams(fields: Option<seq<string>>): (p: Params)
    ensures p.Keys <= {"fields"}
    ensures "fields" in p <==> fields.Some? && fields.value != []
    ensures "fields" in p ==> p["fields"] == PStr(Text.Join(",", fields.value))
  {
    if fields.Some? && fields.value != [] then map["fields" := PStr(Text.Join(",", fields.value))]
    else map[]
  }

  /** `count_records`' params: `where` only when it is a non-empty string. */
  function CountParams(where: Option<string>): (p: Params)
    ensures p.Keys <= {"where"}
    ensures "where" in p <==> where.Some? && where.value != ""
    ensures "where" in p ==> p["where"] == PStr(where.value)
  {
    if where.Some? && where.value != "" then map["where" := PStr(where.value)] else map[]
  }

  function RecordsPath(tableId: string): string {
    "api/v2/tables/" + tableId + "/records"
  }

  function RecordPath(tableId: string, recordId: Value): string {
    "api/v2/tables/" + tableId + "/records/" + PyStr(recordId)
  }

  function CountPath(tableId: string): string {
    "api/v2/tables/" + tableId + "/records/count"
  }

  /** The transport: the decoded JSON body of the response, or the exception
      raised for it. */
  type Transport = (string, Params) -> Result<Value, Raised>

  /** `get_record`: one request for the record's path. */
  function GetRecord(get: Transport, tableId: string, recordId: Value,
                     fields: Option<seq<string>>): (r: Result<Value, Raised>)
    ensures r == get(RecordPath(tableId, recordId), RecordParams(fields))
  {
    get(RecordPath(tableId, recordId), RecordParams(fields))
  }

  /** Different string ids address different records. */
  lemma RecordPathInjective(tableId: string, a: string, b: string)
    requires RecordPath(tableId, VStr(a)) == RecordPath(tableId, VStr(b))
    ensures a == b
  {
    var prefix := "api/v2/tables/" + tableId + "/records/";
    assert RecordPath(tableId, VStr(a)) == prefix + a;
    assert RecordPath(tableId, VStr(b)) == prefix + b;
    assert a == (prefix + a)[|prefix|..];
  }

  /** `count_records`: the body's `count`, 0 when the body has none; a body
      that is not an object has no `.get`. */
  function CountRecords(get: Transport, tableId: string, where: Option<string>): (r: Result<Value, Raised>)
    ensures var response := get(CountPath(tableId), CountParams(where));
      && (response.Err? ==> r == Err(response.error))
      && (response.Ok? && !response.value.VDict? ==> r == Err(InternalAttributeError))
      && (response.Ok? && response.value.VDict? && HasKey(response.value.members, "count") ==>
            r.Ok? && Member("count", r.value) in response.value.members &&
            r == Ok(Get(response.value.members, "count").value))
      && (response.Ok? && response.value.VDict? && !HasKey(response.value.members, "count") ==> r == Ok(VInt(0)))
  {
    var response :- get(CountPath(tableId), CountParams(where));
    if response.VDict? then Ok(GetOr(response.members, "count", VInt(0))) else Err(InternalAttributeError)
  }

  // ---------------------------------------------------------------------
  // Pagination (get_records)
  // ---------------------------------------------------------------------

  datatype PageInfo = PageInfo(isLastPage: Option<Value>)

  /** A decoded page body: its `list` and its `pageInfo`, each possibly absent. */
  datatype Page = Page(list: Option<seq<Value>>, pageInfo: Option<PageInfo>)

  /** `response.get("list", [])`. */
  function Rows(p: Page): seq<Value> {
    p.list.GetOr([])
  }

  /** `response.get("pageInfo", {}).get("isLastPage", True)`, read for truth. */
  predicate IsLastPage(p: Page) {
    p.pageInfo.None? || p.pageInfo.value.isLastPage.None? || Truthy(p.pageInfo.value.isLastPage.value)
  }

  /** The loop goes on after a page only when it is not flagged last and is not empty. */
  predicate Continues(p: Page) {
    !IsLastPage(p) && |Rows(p)| > 0
  }

  /** One page request of `get_records`; on the wire it is a GET of
      `RecordsPath(tableId)` with `RecordsParams(query, limit, offset)`. */
  datatype PageRequest = PageRequest(tableId: string, query: Query, limit: int, offset: int)

  /** The transport for page requests: `_get` on the request's path and
      parameters, returning the decoded body or the exception raised. */
  type Fetch = PageRequest -> Result<Page, Raised>

  /** The page request for `batch` rows from `offset`. */
  function Request(fetch: Fetch, tableId: string, q: Query, offset: int, batch: int): Result<Page, Raised> {
    fetch(PageRequest(tableId, q, batch, offset))
  }

  /** One request of a pagination run: the offset and row count it asked for
      and the page it got back. */
  datatype Step = Step(offset: int, batch: int, page: Page)

  /** The requests of a run and, when a request failed, its exception. */
  datatype Run = Run(steps: seq<Step>, failure: Option<Raised>)

  /** The sequence of page requests the loop of `get_records` makes from the
      given `offset` while `remaining` rows are still wanted. */
  function Pages(fetch: Fetch, tableId: string, q: Query, offset: int, remaining: int): Run
    decreases remaining
  {
    if remaining <= 0 then Run([], None)
    else
      var batch := Min(remaining, MaxPageSize);
      var response := Request(fetch, tableId, q, offset, batch);
      if response.Err? then Run([], Some(response.error))
      else
        var step := Step(offset, batch, response.value);
        if !Continues(response.value) then Run([step], None)
        else
          var n := |Rows(response.value)|;
          var rest := Pages(fetch, tableId, q, offset + n, remaining - n);
          Run([step] + rest.steps, rest.failure)
  }

  /** One unfolding of `Pages` after a successful request. */
  lemma PagesUnfold(fetch: Fetch, tableId: string, q: Query, offset: int, remaining: int, page: Page)
    requires remaining > 0
    requires Request(fetch, tableId, q, offset, Min(remaining, MaxPageSize)) == Ok(page)
    ensures var step := Step(offset, Min(remaining, MaxPageSize), page);
      var n := |Rows(page)|;
      var run := Pages(fetch, tableId, q, offset, remaining);
      var rest := Pages(fetch, tableId, q, offset + n, remaining - n);
      && (!Continues(page) ==> run == Run([step], None))
      && (Continues(page) ==> run == Run([step] + rest.steps, rest.failure))
  {
  }

  /** All rows received over the given requests, in order. */
  function Received(steps: seq<Step>): seq<Value> {
    if steps == [] then [] else Rows(steps[0].page) + Received(steps[1..])
  }

  lemma {:induction false} ReceivedAppend(a: seq<Step>, b: seq<Step>)
    ensures Received(a + b) == Received(a) + Received(b)
  {
    if a == [] {
      assert a + b == b;
    } else {
      assert (a + b)[1..] == a[1..] + b;
      ReceivedAppend(a[1..], b);
    }
  }

  lemma ReceivedCons(s: Step, rest: seq<Step>)
    ensures Received([s] + rest) == Rows(s.page) + Received(rest)
  {
    assert ([s] + rest)[1..] == rest;
  }

  lemma ReceivedOne(s: Step)
    ensures Received([s]) == Rows(s.page)
  {
    assert [s][1..] == [];
  }

  /** Python's `records[:stop]`. */
  function PrefixSlice(s: seq<Value>, stop: int): (r: seq<Value>)
    ensures stop >= 0 ==> r == s[..Min(stop, |s|)]
  {
    if stop >= 0 then s[..Min(stop, |s|)]
    else if |s| + stop >= 0 then s[..|s| + stop]
    else []
  }

  /** What `get_records` returns: the rows of all pages, truncated to `limit`,
      or the exception of the request that failed. */
  function GetRecordsSpec(fetch: Fetch, tableId: string, q: Query, limit: int): Result<seq<Value>, Raised> {
    var run := Pages(fetch, tableId, q, 0, limit);
    if run.failure.Some? then Err(run.failure.value)
    else Ok(PrefixSlice(Received(run.steps), limit))
  }

  /** The loop state of `get_records` after the requests `done`: the whole
      run from offset 0 is `done` followed by the run that resumes at
      `offset` with `remaining` rows wanted. */
  ghost predicate Resumes(fetch: Fetch, tableId: string, q: Query, limit: int,
                             done: seq<Step>, offset: int, remaining: int)
  {
    var total := Pages(fetch, tableId, q, 0, limit);
    var rest := Pages(fetch, tableId, q, offset, remaining);
    total.steps == done + rest.steps && total.failure == rest.failure
  }

  /** One successful request moves the loop state forward by one step, or
      ends the run. */
  lemma ResumesAdvance(fetch: Fetch, tableId: string, q: Query, limit: int,
                          done: seq<Step>, offset: int, remaining: int, page: Page)
    requires Resumes(fetch, tableId, q, limit, done, offset, remaining)
    requires remaining > 0
    requires Request(fetch, tableId, q, offset, Min(remaining, MaxPageSize)) == Ok(page)
    ensures var step := Step(offset, Min(remaining, MaxPageSize), page);
      var n := |Rows(page)|;
      && Received(done + [step]) == Received(done) + Rows(page)
      && (Continues(page) ==> Resumes(fetch, tableId, q, limit, done + [step], offset + n, remaining - n))
      && (!Continues(page) ==> Pages(fetch, tableId, q, 0, limit) == Run(done + [step], None))
      && (!Continues(page) ==> GetRecordsSpec(fetch, tableId, q, limit) == Ok(PrefixSlice(Received(done + [step]), limit)))
  {
    var step := Step(offset, Min(remaining, MaxPageSize), page);
    ReceivedAppend(done, [step]);
    ReceivedOne(step);
    PagesUnfold(fetch, tableId, q, offset, remaining, page);
  }

  /** A failed request ends the run with that request's exception. */
  lemma ResumesFail(fetch: Fetch, tableId: string, q: Query, limit: int,
                       done: seq<Step>, offset: int, remaining: int)
    requires Resumes(fetch, tableId, q, limit, done, offset, remaining)
    requires remaining > 0
    requires Request(fetch, tableId, q, offset, Min(remaining, MaxPageSize)).Err?
    ensures Pages(fetch, tableId, q, 0, limit).failure
      == Some(Request(fetch, tableId, q, offset, Min(remaining, MaxPageSize)).error)
    ensures GetRecordsSpec(fetch, tableId, q, limit)
      == Err(Request(fetch, tableId, q, offset, Min(remaining, MaxPageSize)).error)
  {
  }

  /** Nothing left to fetch: the run is exactly the requests made so far. */
  lemma ResumesDone(fetch: Fetch, tableId: string, q: Query, limit: int,
                       done: seq<Step>, offset: int, remaining: int)
    requires Resumes(fetch, tableId, q, limit, done, offset, remaining)
    requires remaining <= 0
    ensures Pages(fetch, tableId, q, 0, limit) == Run(done, None)
    ensures GetRecordsSpec(fetch, tableId, q, limit) == Ok(PrefixSlice(Received(done), limit))
  {
    assert done + [] == done;
  }

  /** `get_records`. */
  method GetRecords(fetch: Fetch, tableId: string, sort: Option<string>, where: Option<string>,
                       fields: Option<seq<string>>, limit: int := 25)
    returns (r: Result<seq<Value>, Raised>)
    ensures r == GetRecordsSpec(fetch, tableId, Query(sort, where, fields), limit)
  {
    var q := Query(sort, where, fields);
    var records: seq<Value> := [];
    var offset := 0;
    var remainingLimit := limit;
    ghost var done: seq<Step> := [];
    while remainingLimit > 0
      invariant records == Received(done)
      invariant offset == |records| && remainingLimit == limit - |records|
      invariant Resumes(fetch, tableId, q, limit, done, offset, remainingLimit)
      decreases remainingLimit
    {
      var batchLimit := Min(remainingLimit, MaxPageSize);
      var response := fetch(PageRequest(tableId, q, batchLimit, offset));
      if response.Err? {
        ResumesFail(fetch, tableId, q, limit, done, offset, remainingLimit);
        return Err(response.error);
      }
      var page := response.value;
      var batchRecords := Rows(page);
      ghost var step := Step(offset, batchLimit, page);
      ResumesAdvance(fetch, tableId, q, limit, done, offset, remainingLimit, page);
      records := records + batchRecords;
      done := done + [step];
      offset := offset + |batchRecords|;
      remainingLimit := remainingLimit - |batchRecords|;
      if IsLastPage(page) || |batchRecords| == 0 {
        return Ok(PrefixSlice(records, limit));
      }
    }
    ResumesDone(fetch, tableId, q, limit, done, offset, remainingLimit);
    return Ok(PrefixSlice(records, limit));
  }

  /** Every request asks for between 1 and `MaxPageSize` rows, namely the
      smaller of the ceiling and the number of rows still wanted, starts at
      the number of rows received before it, and got its page from `fetch`. */
  lemma {:induction false} PagesRequestShape(fetch: Fetch, tableId: string, q: Query,
                                               offset: int, remaining: int, i: nat)
    requires i < |Pages(fetch, tableId, q, offset, remaining).steps|
    ensures var steps := Pages(fetch, tableId, q, offset, remaining).steps;
      var before := |Received(steps[..i])|;
      && steps[i].offset == offset + before
      && remaining - before > 0
      && steps[i].batch == Min(remaining - before, MaxPageSize)
      && 1 <= steps[i].batch <= MaxPageSize
      && Request(fetch, tableId, q, steps[i].offset, steps[i].batch) == Ok(steps[i].page)
    decreases remaining
  {
    var steps := Pages(fetch, tableId, q, offset, remaining).steps;
    var batch := Min(remaining, MaxPageSize);
    var page := Request(fetch, tableId, q, offset, batch).value;
    if i == 0 {
      assert steps[..0] == [];
    } else {
      var n := |Rows(page)|;
      var rest := Pages(fetch, tableId, q, offset + n, remaining - n).steps;
      assert steps == [Step(offset, batch, page)] + rest;
      PagesRequestShape(fetch, tableId, q, offset + n, remaining - n, i - 1);
      assert steps[..i] == [steps[0]] + rest[..i - 1];
      ReceivedCons(steps[0], rest[..i - 1]);
    }
  }

  /** The loop goes on only after a non-empty page that is not flagged last. */
  lemma {:induction false} PagesContinueOnlyOnFullPages(fetch: Fetch, tableId: string, q: Query,
                                                         offset: int, remaining: int, i: nat)
    requires i + 1 < |Pages(fetch, tableId, q, offset, remaining).steps|
    ensures Continues(Pages(fetch, tableId, q, offset, remaining).steps[i].page)
    decreases remaining
  {
    var batch := Min(remaining, MaxPageSize);
    var page := Request(fetch, tableId, q, offset, batch).value;
    if i > 0 {
      var n := |Rows(page)|;
      PagesContinueOnlyOnFullPages(fetch, tableId, q, offset + n, remaining - n, i - 1);
    }
  }

  /** A run makes no request exactly when nothing is wanted; a run that did
      not fail ends on a page flagged last, on an empty page, or once
      `remaining` rows have arrived. */
  lemma {:induction false} PagesStop(fetch: Fetch, tableId: string, q: Query, offset: int, remaining: int)
    ensures var run := Pages(fetch, tableId, q, offset, remaining);
      (remaining <= 0 <==> run.steps == [] && run.failure.None?) &&
      (run.failure.None? && run.steps != [] ==>
        var last := run.steps[|run.steps| - 1].page;
        IsLastPage(last) || Rows(last) == [] || |Received(run.steps)| >= remaining)
    decreases remaining
  {
    if remaining > 0 {
      var batch := Min(remaining, MaxPageSize);
      var response := Request(fetch, tableId, q, offset, batch);
      if response.Ok? {
        var step := Step(offset, batch, response.value);
        if Continues(response.value) {
          var n := |Rows(response.value)|;
          var rest := Pages(fetch, tableId, q, offset + n, remaining - n);
          PagesStop(fetch, tableId, q, offset + n, remaining - n);
          ReceivedCons(step, rest.steps);
          if rest.steps != [] {
            assert ([step] + rest.steps)[|rest.steps|] == rest.steps[|rest.steps| - 1];
          }
        } else {
          ReceivedCons(step, []);
        }
      }
    }
  }

  /** `get_records` returns at most `max(limit, 0)` rows, the first ones
      received, in order; with `limit <= 0` it makes no request and returns
      nothing. */
  lemma GetRecordsBounds(fetch: Fetch, tableId: string, q: Query, limit: int)
    ensures var r := GetRecordsSpec(fetch, tableId, q, limit);
      var run := Pages(fetch, tableId, q, 0, limit);
      && (r.Ok? ==> |r.value| <= if limit > 0 then limit else 0)
      && (r.Ok? ==> r.value <= Received(run.steps))
      && (limit <= 0 ==> run.steps == [] && r == Ok([]))
  {
    PagesStop(fetch, tableId, q, 0, limit);
  }

  // ---- the paginated table used by the batch-retrieval benchmark ----

  function IntParam(p: Params, key: string, default: int): int {
    if key in p && p[key].PInt? then p[key].i else default
  }

  /** A table of `data` served page by page: rows `offset` up to
      `offset + limit`, flagged last once that reaches the end of the table. */
  function ServePage(data: seq<Value>, offset: int, limit: int): (p: Page)
    ensures 0 <= offset <= |data| && limit >= 0 ==>
      Rows(p) == data[offset..Min(offset + limit, |data|)]
    ensures IsLastPage(p) <==> offset + limit >= |data|
  {
    var lo := if offset < 0 then 0 else Min(offset, |data|);
    var hi := if offset + limit < lo then lo else Min(offset + limit, |data|);
    Page(Some(data[lo..hi]), Some(PageInfo(Some(VBool(offset + limit >= |data|)))))
  }

  /** A server that reads `offset` (default 0) and `limit` (default 25)
      from the query parameters and serves that page of `data`. */
  function TableServer(data: seq<Value>): Fetch {
    (r: PageRequest) =>
      var p := RecordsParams(r.query, r.limit, r.offset);
      Ok(ServePage(data, IntParam(p, "offset", 0), IntParam(p, "limit", 25)))
  }

  lemma TableServerRequest(data: seq<Value>, tableId: string, q: Query, offset: int, batch: int)
    ensures Request(TableServer(data), tableId, q, offset, batch) == Ok(ServePage(data, offset, batch))
  {
    var p := RecordsParams(q, batch, offset);
    assert IntParam(p, "offset", 0) == offset && IntParam(p, "limit", 25) == batch;
  }

  /** Number of requests needed for `n` available rows: one even when there
      are none, and `ceil(n / 100)` otherwise. */
  function RequestsFor(n: nat): nat {
    if n == 0 then 1 else (n + MaxPageSize - 1) / MaxPageSize
  }

  /** `fetch` answers every page request of the run like a table holding `data`. */
  ghost predicate ServesTable(fetch: Fetch, tableId: string, q: Query, data: seq<Value>) {
    forall offset: int, batch: int {:trigger ServePage(data, offset, batch)} ::
      0 <= offset <= |data| && 1 <= batch <= MaxPageSize ==>
      Request(fetch, tableId, q, offset, batch) == Ok(ServePage(data, offset, batch))
  }

  /** What one page of the table gives, and how many requests remain. */
  lemma ServeStep(data: seq<Value>, offset: nat, remaining: int)
    requires offset <= |data|
    requires remaining > 0
    ensures var batch := Min(remaining, MaxPageSize);
      var page := ServePage(data, offset, batch);
      var n := Min(remaining, |data| - offset);
      && (!Continues(page) ==> Rows(page) == data[offset..offset + n] && RequestsFor(n) == 1)
      && (Continues(page) ==>
            && Rows(page) == data[offset..offset + batch]
            && offset + batch < |data|
            && (remaining - batch <= 0 ==> n == batch && RequestsFor(n) == 1)
            && (remaining - batch > 0 ==>
                  && Min(remaining - batch, |data| - (offset + batch)) == n - batch
                  && RequestsFor(n) == 1 + RequestsFor(n - batch)))
  {
  }

  /** A table server hands over its rows `offset` up to `offset + n`, in
      order, and never fails. */
  lemma {:induction false} TableServerRows(fetch: Fetch, data: seq<Value>, tableId: string, q: Query,
                                             offset: nat, remaining: int)
    requires ServesTable(fetch, tableId, q, data)
    requires offset <= |data|
    requires remaining > 0
    ensures var run := Pages(fetch, tableId, q, offset, remaining);
      run.failure.None? && Received(run.steps) == data[offset..offset + Min(remaining, |data| - offset)]
    decreases remaining
  {
    var batch := Min(remaining, MaxPageSize);
    var page := ServePage(data, offset, batch);
    var step := Step(offset, batch, page);
    var n := Min(remaining, |data| - offset);
    var run := Pages(fetch, tableId, q, offset, remaining);
    if !Continues(page) {
      assert run.failure.None? && Received(run.steps) == data[offset..offset + n] by {
        PagesUnfold(fetch, tableId, q, offset, remaining, page);
        ServeStep(data, offset, remaining);
        ReceivedOne(step);
      }
    } else if remaining - batch <= 0 {
      assert run.failure.None? && Received(run.steps) == data[offset..offset + n] by {
        PagesUnfold(fetch, tableId, q, offset, remaining, page);
        ServeStep(data, offset, remaining);
        assert |Rows(page)| == batch;
        assert run == Run([step], None);
        ReceivedOne(step);
      }
    } else {
      var rest := Pages(fetch, tableId, q, offset + batch, remaining - batch);
      var tail := data[offset + batch..offset + n];
      assert run == Run([step] + rest.steps, rest.failure) && Rows(page) == data[offset..offset + batch]
        && rest.failure.None? && Received(rest.steps) == tail
      by {
        PagesUnfold(fetch, tableId, q, offset, remaining, page);
        ServeStep(data, offset, remaining);
        assert |Rows(page)| == batch;
        TableServerRows(fetch, data, tableId, q, offset + batch, remaining - batch);
      }
      ReceivedCons(step, rest.steps);
      assert data[offset..offset + batch] + tail == data[offset..offset + n];
    }
  }

  /** A table server answers `n` wanted rows in `RequestsFor(n)` requests. */
  lemma {:induction false} TableServerRequests(fetch: Fetch, data: seq<Value>, tableId: string, q: Query,
                                                 offset: nat, remaining: int)
    requires ServesTable(fetch, tableId, q, data)
    requires offset <= |data|
    requires remaining > 0
    ensures |Pages(fetch, tableId, q, offset, remaining).steps| == RequestsFor(Min(remaining, |data| - offset))
    decreases remaining
  {
    var batch := Min(remaining, MaxPageSize);
    var page := ServePage(data, offset, batch);
    var step := Step(offset, batch, page);
    PagesUnfold(fetch, tableId, q, offset, remaining, page);
    ServeStep(data, offset, remaining);
    if Continues(page) {
      assert |Rows(page)| == batch;
      if remaining - batch > 0 {
        TableServerRequests(fetch, data, tableId, q, offset + batch, remaining - batch);
      } else {
        assert Pages(fetch, tableId, q, offset + batch, remaining - batch) == Run([], None);
      }
    }
  }

  /** Against a table that serves every page in full until its data runs out,
      `get_records(limit)` with `limit` at most the table size returns the
      first `limit` rows in `ceil(limit / 100)` requests. */
  lemma FullPagesReturnLimitRows(data: seq<Value>, tableId: string, q: Query, limit: nat)
    requires 0 < limit <= |data|
    ensures GetRecordsSpec(TableServer(data), tableId, q, limit) == Ok(data[..limit])
    ensures |Pages(TableServer(data), tableId, q, 0, limit).steps| == (limit + MaxPageSize - 1) / MaxPageSize
  {
    var fetch := TableServer(data);
    forall offset: int, batch: int | 0 <= offset <= |data| && 1 <= batch <= MaxPageSize
      ensures Request(fetch, tableId, q, offset, batch) == Ok(ServePage(data, offset, batch))
    {
      TableServerRequest(data, tableId, q, offset, batch);
    }
    TableServerRows(fetch, data, tableId, q, 0, limit);
    TableServerRequests(fetch, data, tableId, q, 0, limit);
    var received := Received(Pages(fetch, tableId, q, 0, limit).steps);
    assert received == data[..limit];
    assert PrefixSlice(received, limit) == received[..limit] == received;
  }

  // ---------------------------------------------------------------------
  // update_record
  // ---------------------------------------------------------------------

  /** The transport for calls that send a JSON object body: the decoded
      response body, or the exception raised for it. */
  type Sender = (string, seq<Member>) -> Result<Value, Raised>

  /** A Python dict that the caller owns and `update_record` writes into. */
  class RecordDict {
    var members: seq<Member>

    constructor (members: seq<Member>)
      ensures this.members == members
    {
      this.members := members;
    }
  }

  /** `update_record`: unless `record_id` is `None` (the default), stores it
      under `"Id"` in the caller's dict (overwriting or appending), sends the
      dict, and returns the response's `Id` (`None` when the response has
      none). A response body that is not an object has no `.get`. */
  method UpdateRecord(patch: Sender, tableId: string, record: RecordDict, recordId: Value := VNone)
    returns (r: Result<Option<Value>, Raised>)
    modifies record
    ensures !recordId.VNone? ==> record.members == Put(old(record.members), "Id", recordId)
    ensures recordId.VNone? ==> record.members == old(record.members)
    ensures !recordId.VNone? ==> Get(record.members, "Id") == Some(recordId)
    ensures forall k :: k != "Id" ==> Get(record.members, k) == Get(old(record.members), k)
    ensures var sent := patch(RecordsPath(tableId), record.members);
      r == if sent.Err? then Err(sent.error)
           else if sent.value.VDict? then Ok(Get(sent.value.members, "Id"))
           else Err(InternalAttributeError)
  {
    if !recordId.VNone? {
      GetPut(record.members, "Id", recordId, "Id");
      forall k | k != "Id" ensures Get(Put(record.members, "Id", recordId), k) == Get(record.members, k) {
        GetPut(record.members, "Id", recordId, k);
      }
      record.members := Put(record.members, "Id", recordId);
    }
    var response := patch(RecordsPath(tableId), record.members);
    if response.Err? {
      return Err(response.error);
    }
    if !response.value.VDict? {
      return Err(InternalAttributeError);
    }
    return Ok(Get(response.value.members, "Id"));
  }
}
