# NocoDB Simple Client — a Dafny model of its core

This project models the core of the NocoDB Simple Client in Dafny and proves
properties of the model. The client is a Python library for the NocoDB REST
API. The model covers:

- **Request shaping** in `NocoDBClient`:
  - the pagination loop of `get_records`, which splits one logical read of
    `limit` rows into page requests of at most 100 rows;
  - the classification of error responses (`_check_for_error`);
  - the assembly of query parameters;
  - `update_record` writing `Id` into the caller's record dict.
- **The filter and sort builders** (`FilterBuilder`, `SortBuilder`). They
  render the service's `where` and `sort` query strings from an ordered list
  of tokens.
- **The in-memory TTL cache** (`MemoryCache`). Its dict is kept in insertion
  order, with expiry cleanup and oldest-first eviction. Also modelled are
  the `CacheManager` ttl default, the read-through rule of `cached_method`,
  the backend choice of `create_cache_manager` and the `CacheStats`
  counters.
- **The validators of the data models** (`NocoDBRecord`, `QueryParams`,
  `FileUploadInfo`, `ApiResponse`, `TableInfo`, `ConnectionConfig`) and
  `NocoDBRecord.to_api_format`.
- **The developer scripts:**
  - endpoint extraction, path normalisation, endpoint comparison and
    categorisation (`analyze_api_diff.py`);
  - path-parameter extraction, candidate mapping and migration complexity
    (`analyze_api_detailed.py`);
  - parameter bucketing, schema lookup and schema formatting
    (`analyze_schemas.py`);
  - tool-configuration lookup, key flattening, Python-version and
    project-version parsing over the loaded `pyproject.toml`
    (`project_config.py`).

Python's decoded JSON and TOML values are one datatype, `Data.Value`:
`None`, bools, ints, strings, lists and dicts. A dict is an ordered sequence
of members, so iteration order is explicit. Python's `str.strip`,
`str.isalnum`, `str.lower` and `str.upper` are modelled over ASCII: an
explicit whitespace set, the ASCII letters and digits, and the ASCII case
map (`Text`).

Outside effects become parameters:
- the HTTP transport is a function from endpoint path and query parameters
  to the decoded body or the raised exception;
- the clock is an integer argument;
- the iteration order of Python sets is a sequence argument with distinct
  elements.

Files, one module each:

| file | module | source |
|---|---|---|
| wrappers.dfy | Wrappers | `Option` and `Result` |
| text.dfy | Text | Python string builtins |
| data.dfy | Data | Python dict, list and `in` |
| client.dfy | Client | src/nocodb_simple_client/client.py |
| filters.dfy | Filters | tests/test_filter_builder.py |
| cache.dfy | Cache | src/nocodb_simple_client/cache.py |
| models.dfy | Models | src/nocodb_simple_client/models.py |
| path_params.dfy | PathParams | the `\{[^}]+\}` pattern of both migration scripts |
| api_diff.dfy | ApiDiff | scripts/migration/analyze_api_diff.py |
| api_detailed.dfy | ApiDetailed | scripts/migration/analyze_api_detailed.py |
| schemas.dfy | Schemas | scripts/migration/analyze_schemas.py |
| project_config.dfy | ProjectConfig | scripts/project_config.py |

The implementation file of the builders,
src/nocodb_simple_client/filter_builder.py, is not part of this model. The
builders are modelled from the behaviour their tests assert, and the rows
below cite those tests.

## Model

| member | source | states |
|---|---|---|
| Text.Strip | src/nocodb_simple_client/models.py:143 | `str.strip()`: the result has no whitespace at either end, is no longer than the input, and is empty iff the input is blank |
| Text.StripMeaning | src/nocodb_simple_client/models.py:143 | the result of `strip()` is a slice of the input with only whitespace cut from either end |
| Text.StripIdempotent | src/nocodb_simple_client/models.py:143 | stripping twice equals stripping once |
| Text.RStripChar | src/nocodb_simple_client/models.py:247 | `rstrip("/")`: a prefix of the input that no longer ends in the character; everything removed was that character |
| Text.StripChars | scripts/project_config.py:92 | `strip("\"'")`: the result is a slice of the input with only characters of the set cut from either end, and neither of its ends is in the set |
| Text.Split | scripts/project_config.py:90 | `str.split(sep)`: at least one piece, and no piece contains the separator |
| Text.JoinSplit | scripts/project_config.py:90 | joining the pieces of a split with the separator gives back the input |
| Text.SplitJoin | src/nocodb_simple_client/client.py:188-189 | splitting a join of separator-free pieces gives back the pieces |
| Text.SplitOnce | scripts/migration/analyze_api_detailed.py:68 | `split(" ", 1)`: the input is the head, the separator and the tail, and the head has no separator |
| Text.SplitOnceUnique | scripts/migration/analyze_api_detailed.py:82 | a head without the separator is recovered exactly |
| Text.SortStrings | scripts/migration/analyze_api_diff.py:347 | `sorted(set)`: the same elements, strictly increasing, as many as the set has |
| Text.StrLessTotal | scripts/migration/analyze_api_diff.py:347 | the string order used by `sorted` is total on distinct strings |
| Text.Lower | scripts/migration/analyze_api_diff.py:127 | `str.lower()` on ASCII: each character mapped by the ASCII case map, so the length is kept |
| Text.Upper | scripts/migration/analyze_api_diff.py:24 | `str.upper()` on ASCII: each character mapped by the ASCII case map, so the length is kept |
| Text.IntToStringRoundTrip | tests/test_filter_builder.py:466-483 | `str(int)` is a well-formed decimal, optionally signed, that parses back to the integer |
| Text.IntToStringInjective | tests/test_filter_builder.py:466-483 | different integers render differently |
| Data.Get | src/nocodb_simple_client/models.py:100 | `dict.get`: a value iff the key is present, and then the member with that key is in the dict |
| Data.Put | src/nocodb_simple_client/client.py:268 | `d[k] = v`: the length is kept when the key exists; otherwise the member is appended at the end |
| Data.GetPut | src/nocodb_simple_client/client.py:268 | after `d[k] = v`, `d[k]` is `v` and every other key reads as before |
| Data.PutKeepsOthers | src/nocodb_simple_client/client.py:268 | assignment keeps the order of existing keys and every member with another key |
| Data.PutDistinct | src/nocodb_simple_client/client.py:268 | assignment keeps the keys distinct |
| Data.PyIn | scripts/project_config.py:106 | `x in container`: key membership for a dict, element membership for a list, a `TypeError` for None, bools and ints |
| Client.RaiseForStatus | src/nocodb_simple_client/client.py:152 | `raise_for_status`: an HTTP error exactly for statuses 400 to 599 |
| Client.CheckForError | src/nocodb_simple_client/client.py:140-152 | below 400 there is no error; `RecordNotFoundException` iff the JSON object has `error` and `message` and `error == "RECORD_NOT_FOUND"`; `NocoDBException` iff it has both and any other `error`; either exception carries the body's `error` and `message`; otherwise an HTTP error exactly for 400..599, and no error exactly below 400 or, without such an object, from 600 on; never a `TypeError` |
| Client.CheckForErrorAgreesOnObjects | src/nocodb_simple_client/client.py:143-151 | on non-JSON bodies and JSON objects, the corrected classification equals the code as written |
| Client.NonObjectBodyRaisesTypeError | src/nocodb_simple_client/client.py:142-152 | the code as written raises `TypeError` for a JSON `null` or a JSON list body on an error status; the corrected version reports the HTTP error |
| Client.RecordsParamsContents | src/nocodb_simple_client/client.py:184-189 | the `get_records` params hold `limit` and `offset`; `sort` and `where` iff given; `fields` iff a non-empty list, then as the comma-join; no other key |
| Client.RecordParams | src/nocodb_simple_client/client.py:225-227 | `get_record` sends only `fields`, exactly for a non-empty list, as the comma-join |
| Client.CountParams | src/nocodb_simple_client/client.py:303-305 | `count_records` sends only `where`, exactly when it is a non-empty string |
| Client.CountRecords | src/nocodb_simple_client/client.py:303-308 | an exception of the request propagates; a body that is not a JSON object raises `AttributeError`; otherwise the result is the body's `count` member when it has one, and 0 when it has none |
| Client.GetRecord | src/nocodb_simple_client/client.py:225-229 | the result is the transport's outcome, any decoded JSON body or the exception, for the record's path with `RecordParams` |
| Client.RecordPathInjective | src/nocodb_simple_client/client.py:229 | different string ids give different record paths |
| Client.GetRecords | src/nocodb_simple_client/client.py:157-203 | the imperative loop returns exactly the specification of the page sequence: all received rows in order, truncated to `limit` (25 when omitted), or the first request's error |
| Client.PagesUnfold | src/nocodb_simple_client/client.py:182-201 | one page step: a page that does not continue ends the run; otherwise the run continues from the advanced offset and remaining count |
| Client.ResumesAdvance | src/nocodb_simple_client/client.py:182-201 | the loop invariant: after each page the received rows grow by exactly that page's rows, and either the rest of the loop is the rest of the specified run or (last or empty page) the run is over and the result is the first `limit` rows received |
| Client.ResumesFail | src/nocodb_simple_client/client.py:182-191 | a request that raises ends the whole run with that request's exception |
| Client.ResumesDone | src/nocodb_simple_client/client.py:182-203 | once the remaining limit reaches zero the run is exactly the requests made so far and the result is the first `limit` rows received |
| Client.PagesRequestShape | src/nocodb_simple_client/client.py:179-198 | the i-th request's offset equals the rows received before it; it asks for `min(remaining, 100)` rows, between 1 and 100, and is made only while rows remain |
| Client.PagesContinueOnlyOnFullPages | src/nocodb_simple_client/client.py:200-201 | every page but the last was non-empty and not flagged last |
| Client.PagesStop | src/nocodb_simple_client/client.py:182-201 | no request iff `limit <= 0`; a finished run ends on a last page, an empty page or with `limit` rows received |
| Client.GetRecordsBounds | src/nocodb_simple_client/client.py:178-203 | the result has at most `max(limit, 0)` rows, is a prefix of the received rows, and is empty with no request when `limit <= 0` |
| Client.PrefixSlice | src/nocodb_simple_client/client.py:203 | `records[:limit]` for `limit >= 0` |
| Client.ServePage | tests/test_performance.py:348-368 | the mock server returns the rows from `offset` on, at most `limit`, flagged last iff they reach the end |
| Client.TableServerRequest | tests/test_performance.py:348-368 | a request to the mock server returns its page |
| Client.TableServerRows | tests/test_performance.py:343-388 | against a server holding a table, the run receives exactly the table's rows from the offset, up to the remaining count |
| Client.TableServerRequests | tests/test_performance.py:343-388 | against such a server, the run makes ⌈n/100⌉ requests for n available rows |
| Client.FullPagesReturnLimitRows | tests/test_performance.py:343-388 | with at least `limit` rows on the server, `get_records` returns the first `limit` rows in ⌈limit/100⌉ requests |
| Client.RecordDict.constructor | src/nocodb_simple_client/client.py:267 | the caller's dict holds the given members |
| Client.UpdateRecord | src/nocodb_simple_client/client.py:247-271 | with a record id other than `None` (the default), `Id` is overwritten or added in the caller's dict and every other key is unchanged; with `None` the dict is untouched; the result is the `Id` of an object response, `AttributeError` for any other body, or the request's error |
| Filters.ParseOperator | tests/test_filter_builder.py:224-228 | an operator name is recognised iff it names one of the eighteen operators, and it names that one |
| Filters.ParseOperatorName | tests/test_filter_builder.py:136-152 | every operator's name parses back to it |
| Filters.Render | tests/test_filter_builder.py:57-70 | the rendering of the token list, with no contract of its own; RenderAppend and RenderLevel state its properties |
| Filters.RenderAppend | tests/test_filter_builder.py:57-70 | rendering concatenates in token order |
| Filters.FilterBuilder.constructor | tests/test_filter_builder.py:244-250 | a new builder has no tokens and no open group |
| Filters.FilterBuilder.AddCondition | tests/test_filter_builder.py:21-55 | a known operator appends one condition with the connector; an unknown one is rejected with "Unsupported operator" and nothing changes |
| Filters.FilterBuilder.Where | tests/test_filter_builder.py:21-27 | `where` appends a condition with no connector, or rejects an unknown operator |
| Filters.FilterBuilder.And | tests/test_filter_builder.py:29-35 | `and_` appends a `~and` condition, or rejects an unknown operator |
| Filters.FilterBuilder.Or | tests/test_filter_builder.py:37-45 | `or_` appends a `~or` condition, or rejects an unknown operator |
| Filters.FilterBuilder.Not | tests/test_filter_builder.py:47-55 | `not_` appends a `~not` condition, or rejects an unknown operator |
| Filters.FilterBuilder.GroupStart | tests/test_filter_builder.py:177-207 | appends `(` and opens one more group |
| Filters.FilterBuilder.GroupEnd | tests/test_filter_builder.py:209-213 | with no open group, fails with "No group to close" and changes nothing; otherwise appends `)` and closes one group |
| Filters.FilterBuilder.Build | tests/test_filter_builder.py:215-222 | succeeds iff no group is open, fails with "Unclosed groups" otherwise, and builds `""` with no tokens |
| Filters.FilterBuilder.Reset | tests/test_filter_builder.py:230-242 | no tokens and no open group afterwards |
| Filters.RenderLevel | tests/test_filter_builder.py:166-207 | for conditions free of parentheses, the rendered text's parenthesis balance equals the open-group count and never drops below zero |
| Filters.BuiltFilterBalanced | tests/test_filter_builder.py:193-222 | a build that succeeds renders balanced parentheses |
| Filters.UnaryIgnoresValue | tests/test_filter_builder.py:72-94 | a unary operator renders the same whatever value is passed, `None` included |
| Filters.ListValueSplit | tests/test_filter_builder.py:96-126 | a list value renders as the comma-join of its elements' `str()`, and splitting it at commas gives them back |
| Filters.InjectedCondition | tests/test_filter_builder.py:455-464 | values are not escaped: one condition whose value contains `)~or(` renders the same text as two different conditions |
| Filters.UnbalancedValue | tests/test_filter_builder.py:455-464 | a value with a `)` makes the rendered filter unbalanced |
| Filters.ParseDirection | tests/test_filter_builder.py:309-325 | a direction is ascending iff it lowercases to `asc` and descending iff it lowercases to `desc` |
| Filters.SortBuilder.constructor | tests/test_filter_builder.py:341-347 | a new sort builder has no fields |
| Filters.SortBuilder.Add | tests/test_filter_builder.py:261-325 | a valid direction appends the field; any other direction fails with the direction error and changes nothing |
| Filters.SortBuilder.Asc | tests/test_filter_builder.py:285-291 | appends an ascending field |
| Filters.SortBuilder.Desc | tests/test_filter_builder.py:293-299 | appends a descending field |
| Filters.SortBuilder.Build | tests/test_filter_builder.py:341-347 | an empty builder builds `""` |
| Filters.SortBuilder.Reset | tests/test_filter_builder.py:327-339 | no fields afterwards |
| Filters.SortRoundTrip | tests/test_filter_builder.py:261-307 | the rendered sort string (`f` or `-f`, comma-joined in order) parses back to the same field list |
| Cache.Lookup | src/nocodb_simple_client/cache.py:84-85 | an entry iff the key is present, and it is that key's entry |
| Cache.Store | src/nocodb_simple_client/cache.py:99 | `cache[key] = ...` adds the key and keeps every other key |
| Cache.Remove | src/nocodb_simple_client/cache.py:101-103 | removes exactly that key |
| Cache.RemoveAbsent | src/nocodb_simple_client/cache.py:101-103 | deleting an absent key changes nothing |
| Cache.LookupStore | src/nocodb_simple_client/cache.py:99 | the stored key reads the new entry; other keys read as before |
| Cache.LookupRemove | src/nocodb_simple_client/cache.py:101-103 | other keys read as before a delete |
| Cache.ExpiryFor | src/nocodb_simple_client/cache.py:98 | no expiry iff the ttl is `None` or 0; otherwise the expiry is now plus the ttl |
| Cache.Cleanup | src/nocodb_simple_client/cache.py:62-70 | every kept entry is in the dict and has not expired; keys stay distinct |
| Cache.CleanupKeeps | src/nocodb_simple_client/cache.py:62-70 | every entry that has not expired is kept |
| Cache.CleanupAppend | src/nocodb_simple_client/cache.py:62-70 | cleanup works entry by entry, so the kept entries stay in the dict's order |
| Cache.ExpiredKeys | src/nocodb_simple_client/cache.py:65-68 | a key is collected iff some entry with that key has expired |
| Cache.RemoveExpiredKeys | src/nocodb_simple_client/cache.py:62-70 | deleting the collected expired keys one by one leaves exactly the unexpired entries |
| Cache.LookupCleanup | src/nocodb_simple_client/cache.py:62-70 | after cleanup a key reads its entry iff the entry is present and not expired |
| Cache.Evicted | src/nocodb_simple_client/cache.py:72-78 | when full, removes the oldest `len - max_size + 1` entries and keeps the newest `max_size - 1` in order; below the limit nothing changes |
| Cache.RemoveKeyPrefix | src/nocodb_simple_client/cache.py:75-78 | deleting the first n keys leaves the entries after them |
| Cache.GetState | src/nocodb_simple_client/cache.py:80-91 | the state after `get` keeps keys distinct |
| Cache.SetState | src/nocodb_simple_client/cache.py:93-99 | the state after `set` keeps keys distinct and holds the key |
| Cache.GetMeaning | src/nocodb_simple_client/cache.py:80-91 | `get` returns the value iff the key is present and its expiry is absent or later than now; otherwise `None` |
| Cache.GetDropsEntryExpiringNow | src/nocodb_simple_client/cache.py:67-89 | an entry expiring exactly now survives cleanup but is read as `None` and deleted by `get` |
| Cache.SetSizeBound | src/nocodb_simple_client/cache.py:72-99 | after `set` the cache holds at most `max_size` entries when `max_size >= 1` |
| Cache.SetThenGet | src/nocodb_simple_client/cache.py:80-99 | after `set(k, v, ttl)`, a later `get(k)` returns `v` if the ttl is `None` or 0 or has not run out, and `None` otherwise |
| Cache.SetThenGetNow | src/nocodb_simple_client/cache.py:93-99 | `get` right after `set` returns the value, since eviction runs before insertion |
| Cache.SetKeepsOthers | src/nocodb_simple_client/cache.py:93-99 | other keys read as after cleanup and eviction |
| Cache.SetKeepsPlace | src/nocodb_simple_client/cache.py:74-99 | re-setting a surviving key keeps its position and the size |
| Cache.MemoryCache.constructor | src/nocodb_simple_client/cache.py:58-60 | an empty cache with the given `max_size`, 1000 when omitted |
| Cache.MemoryCache.CleanupExpired | src/nocodb_simple_client/cache.py:62-70 | the loop leaves exactly the unexpired entries |
| Cache.MemoryCache.EvictIfNeeded | src/nocodb_simple_client/cache.py:72-78 | the loop leaves exactly the eviction result |
| Cache.MemoryCache.Get | src/nocodb_simple_client/cache.py:80-91 | returns the specified result and leaves the specified state |
| Cache.MemoryCache.Set | src/nocodb_simple_client/cache.py:93-99 | leaves the specified state |
| Cache.MemoryCache.Delete | src/nocodb_simple_client/cache.py:101-103 | removes exactly the key |
| Cache.MemoryCache.Clear | src/nocodb_simple_client/cache.py:105-107 | the cache is empty and `max_size` is unchanged |
| Cache.MemoryCache.Exists | src/nocodb_simple_client/cache.py:109-111 | true iff `get` returns something other than `None`, with `get`'s effect on the state |
| Cache.ManagerTtl | src/nocodb_simple_client/cache.py:303-306 | through the manager, ttl 0 never expires, and an omitted ttl takes the default of 300 |
| Cache.CacheManager.constructor | src/nocodb_simple_client/cache.py:227-229 | holds the backend and the default ttl |
| Cache.CacheManager.Get | src/nocodb_simple_client/cache.py:299-301 | delegates to the backend's `get` |
| Cache.CacheManager.Set | src/nocodb_simple_client/cache.py:303-306 | stores with the given ttl, or the default when it is `None` |
| Cache.CacheManager.Delete | src/nocodb_simple_client/cache.py:308-310 | delegates to the backend's `delete` |
| Cache.CacheManager.Clear | src/nocodb_simple_client/cache.py:312-321 | empties the backend; `invalidate_table_cache` does the same |
| Cache.CachedCall | src/nocodb_simple_client/cache.py:341-352 | the method runs iff the cached result is `None`; the result is the cached one or the computed one, and only a computed result is stored |
| Cache.CachedCallThenHit | src/nocodb_simple_client/cache.py:341-352 | once a non-`None` result is computed and stored, the next call at the same instant is a hit |
| Cache.ParseBackendType | src/nocodb_simple_client/cache.py:371-378 | `memory`, `disk` and `redis` select their backend; any other name fails with "Unknown backend type" |
| Cache.ParseBackendTypeName | src/nocodb_simple_client/cache.py:371-378 | every backend's name selects it |
| Cache.CreateMemoryCacheManager | src/nocodb_simple_client/cache.py:358-380 | a fresh empty memory cache behind a manager whose default ttl is 300 |
| Cache.CacheStats.constructor | src/nocodb_simple_client/cache.py:386-390 | all four counters start at 0 |
| Cache.CacheStats.HitRate | src/nocodb_simple_client/cache.py:392-396 | 0 with no requests, otherwise `hits / (hits + misses)`, and always between 0 and 1 |
| Cache.CacheStats.RecordHit | src/nocodb_simple_client/cache.py:398-400 | increments `hits` only |
| Cache.CacheStats.RecordMiss | src/nocodb_simple_client/cache.py:402-404 | increments `misses` only |
| Cache.CacheStats.RecordSet | src/nocodb_simple_client/cache.py:406-408 | increments `sets` only |
| Cache.CacheStats.RecordDelete | src/nocodb_simple_client/cache.py:410-412 | increments `deletes` only |
| Cache.CacheStats.Reset | src/nocodb_simple_client/cache.py:414-416 | zeroes all four counters |
| Cache.CacheStats.ToDict | src/nocodb_simple_client/cache.py:418-427 | reports the four counters, `total_requests = hits + misses`, and a hit rate of 0 with no requests |
| Models.ValidateRecordId | src/nocodb_simple_client/models.py:81-88 | accepts iff the id is a non-blank string or an integer above 0, returns it unchanged, and otherwise fails with the matching message |
| Models.ToApiFormatContents | src/nocodb_simple_client/models.py:106-110 | `Id` comes first; a key of `data` reads its data value, so an `Id` inside `data` overrides the record id; otherwise `Id` reads the record id |
| Models.UpdateGet | src/nocodb_simple_client/models.py:109 | after `dict.update`, a key reads its new value if given and its old one otherwise |
| Models.UpdateKeepsKeys | src/nocodb_simple_client/models.py:109 | `dict.update` keeps the order of existing keys |
| Models.SortFields | src/nocodb_simple_client/models.py:127 | one item per comma-separated piece |
| Models.FirstBadSortField | src/nocodb_simple_client/models.py:127-132 | the first rejected item, with every item before it accepted, or none iff all are accepted |
| Models.ValidateSort | src/nocodb_simple_client/models.py:121-133 | `None` passes; otherwise accepts iff every item is valid and returns the input unchanged; a rejection names the first rejected item, every item before it being valid |
| Models.SortFieldOkMeaning | src/nocodb_simple_client/models.py:128-131 | an item is valid iff, with `_` and `-` deleted, it is non-empty and alphanumeric |
| Models.EmptySortRejected | src/nocodb_simple_client/models.py:127-132 | the empty sort string is rejected |
| Models.EmptySortItemRejected | src/nocodb_simple_client/models.py:127-132 | a sort string with an empty item such as `a,,b` is rejected |
| Models.BuiltSortValid | src/nocodb_simple_client/models.py:121-133 | a sort string built from alphanumeric field names splits into those names and passes validation |
| Models.ValidateWhere | src/nocodb_simple_client/models.py:135-143 | `None` passes, blank is rejected, anything else is returned stripped |
| Models.ValidateWhereIdempotent | src/nocodb_simple_client/models.py:135-143 | validating an accepted clause again changes nothing |
| Models.ValidateFields | src/nocodb_simple_client/models.py:145-155 | `None` passes, `[]` is rejected, any blank or non-string name is rejected, and otherwise the stripped names come back in order |
| Models.ValidateFieldsIdempotent | src/nocodb_simple_client/models.py:145-155 | validating the accepted names again returns them unchanged |
| Models.MakeQueryParams | src/nocodb_simple_client/models.py:113-155 | the parameters are accepted iff every validator accepts and `0 < limit <= 10000` and `offset >= 0`; then they hold the normalised values; otherwise one to five field errors are reported |
| Models.ValidateFilename | src/nocodb_simple_client/models.py:166-175 | blank is rejected; a name containing `..`, `/`, `\`, `<`, `>`, `\|`, `:`, `*`, `?` or `"` is rejected; otherwise the name is returned stripped |
| Models.ValidateFilenameIdempotent | src/nocodb_simple_client/models.py:166-175 | an accepted name is non-blank, safe and accepted again unchanged |
| Models.ValidateStatusCode | src/nocodb_simple_client/models.py:206-211 | accepts iff `None` or within 100..599, unchanged |
| Models.ValidateTableId | src/nocodb_simple_client/models.py:222-227 | rejects iff blank, and otherwise returns the id stripped |
| Models.ValidateTableIdIdempotent | src/nocodb_simple_client/models.py:222-227 | an accepted id is accepted again unchanged |
| Models.ValidateBaseUrl | src/nocodb_simple_client/models.py:242-250 | blank is rejected; the URL is stripped and loses its trailing `/`; it is accepted iff it then starts with `http://` or `https://`, and never ends in `/` |
| Models.ValidateBaseUrlIdempotent | src/nocodb_simple_client/models.py:242-250 | an accepted URL that does not end in whitespace is accepted again unchanged |
| Models.ValidateApiToken | src/nocodb_simple_client/models.py:252-259 | accepted iff at least 10 characters after stripping, returned stripped; blank and short tokens fail with their messages |
| Models.ValidateApiTokenIdempotent | src/nocodb_simple_client/models.py:252-259 | an accepted token is accepted again unchanged |
| Models.StripKeepsAbsent | src/nocodb_simple_client/models.py:173-175 | stripping cannot create a dangerous substring |
| PathParams.MatchEnd | scripts/migration/analyze_api_diff.py:46 | a match of `\{[^}]+\}` at the start ends at a `}` at index 2 or later |
| PathParams.MatchEndMeaning | scripts/migration/analyze_api_diff.py:46 | the match ends at the first `}`; no match iff no `{` to start, no `}` at all, or an empty name |
| PathParams.ExtractedNames | scripts/migration/analyze_api_detailed.py:41-43 | every extracted name is non-empty and contains no `}` |
| PathParams.ExtractPathParams | scripts/migration/analyze_api_detailed.py:41-43 | every name comes from a match of at least three characters, so there are at most a third as many names as characters |
| PathParams.MatchExtract | scripts/migration/analyze_api_detailed.py:41-43 | a match at the start contributes its name first, then the rest is scanned |
| PathParams.NoCloseFixed | scripts/migration/analyze_api_diff.py:41-46 | text without `}` is left unchanged and has no parameters |
| PathParams.NormalizePath | scripts/migration/analyze_api_diff.py:41-46 | the specification of `normalize_path`, with no contract of its own: the left-to-right scan that replaces every match by `{param}`; FillNormalize, NormalizeIdempotent and NoParamsFixed state its meaning |
| PathParams.NoParamsFixed | scripts/migration/analyze_api_diff.py:41-46 | a path from which no parameter is extracted normalises to itself |
| PathParams.NormalizeIdempotent | scripts/migration/analyze_api_diff.py:41-46 | normalising twice equals normalising once |
| PathParams.FillNormalize | scripts/migration/analyze_api_diff.py:41-46 | putting the extracted names back into the `{param}` holes of the normalised path gives back the path, so normalisation changes nothing but the names |
| ApiDiff.GetEndpoints | scripts/migration/analyze_api_diff.py:17-38 | the loop builds exactly the specified endpoint dict |
| ApiDiff.Endpoints | scripts/migration/analyze_api_diff.py:17-38 | the specification of `get_endpoints`, with no contract of its own: the dict built by visiting paths and their methods in order; EndpointsMeaning states what it holds |
| ApiDiff.EndpointsMeaning | scripts/migration/analyze_api_diff.py:17-38 | a key is present iff some path declares that HTTP method (case-insensitively) under it; keys are distinct; each record's key is the uppercased method, a space and its path |
| ApiDiff.CollectKeys | scripts/migration/analyze_api_diff.py:21-37 | the nested loops collect exactly the declared keys |
| ApiDiff.CompareEndpoints | scripts/migration/analyze_api_diff.py:49-75 | exact matches, removed and new are the intersection and the two differences; each renamed pair is a removed and a new endpoint with the same normal form, and no endpoint is in two pairs |
| ApiDiff.RenamedPairsFacts | scripts/migration/analyze_api_diff.py:60-68 | every pair fits, and the pairs have distinct normal forms |
| ApiDiff.RenamedPairsComplete | scripts/migration/analyze_api_diff.py:63-67 | every removed endpoint of the old index whose shape leads in the new index to an added endpoint yields that pair |
| ApiDiff.PairRenamed | scripts/migration/analyze_api_diff.py:63-68 | the loop builds exactly the specified pair list |
| ApiDiff.FirstMatch | scripts/migration/analyze_api_diff.py:129-152 | the index of the first matching rule, with no rule before it matching |
| ApiDiff.CategorizeEndpoint | scripts/migration/analyze_api_diff.py:125-152 | the specification of `categorize_endpoint`, with no contract of its own: the rule chain applied to the lowercased path; CategorizeMeaning and CategorizeKey state its result |
| ApiDiff.CategorizeMeaning | scripts/migration/analyze_api_diff.py:125-152 | "Other" iff no rule matches; otherwise the category of the first matching rule |
| ApiDiff.TableRuleFirst | scripts/migration/analyze_api_diff.py:129-130 | any path containing `/tables` is "Table Operations" |
| ApiDiff.CategorizeKey | scripts/migration/analyze_api_diff.py:125-128 | an endpoint key is categorised by its lowercased path |
| ApiDiff.CategoryNameInjective | scripts/migration/analyze_api_diff.py:125-152 | distinct categories have distinct names |
| ApiDiff.AppendMeaning | scripts/migration/analyze_api_diff.py:348-354 | appending an entry extends only that category's list, keeping categories distinct |
| ApiDiff.FileIntoMeaning | scripts/migration/analyze_api_diff.py:347-354 | filing items adds exactly one entry per item under its category and keeps earlier entries |
| ApiDiff.FileRemoved | scripts/migration/analyze_api_diff.py:347-350 | the loop over sorted removed endpoints builds the specified groups |
| ApiDiff.FileRenamed | scripts/migration/analyze_api_diff.py:352-354 | the loop over renamed pairs builds the specified groups |
| ApiDiff.CategorizeBreakingChanges | scripts/migration/analyze_api_diff.py:340-356 | builds exactly the specified breaking-change groups |
| ApiDiff.BreakingChangesComplete | scripts/migration/analyze_api_diff.py:340-356 | exactly one entry per removed endpoint and per renamed pair, each under its old endpoint's category |
| ApiDetailed.StaticParts | scripts/migration/analyze_api_detailed.py:49 | the comprehension over the `/`-pieces, with no contract of its own; StaticPartsMeaning states which pieces it keeps |
| ApiDetailed.StaticPartsMeaning | scripts/migration/analyze_api_detailed.py:49 | the static parts are exactly the non-empty `/`-pieces not starting with `{` |
| ApiDetailed.SimilarPaths | scripts/migration/analyze_api_detailed.py:57-61 | the similarity test, with no contract of its own: equal parameter counts and at least half of the smaller static part set in common; SimilarSymmetric, NoStaticSimilar and SelfSimilar state its properties |
| ApiDetailed.SimilarSymmetric | scripts/migration/analyze_api_detailed.py:58-61 | path similarity is symmetric |
| ApiDetailed.NoStaticSimilar | scripts/migration/analyze_api_detailed.py:58-61 | when either path has no static part, similarity is just equal parameter counts |
| ApiDetailed.SelfSimilar | scripts/migration/analyze_api_detailed.py:58-61 | a path with distinct static parts is similar to itself |
| ApiDetailed.RepeatedSegmentNotSelfSimilar | scripts/migration/analyze_api_detailed.py:58-61 | because parts are counted as a set, `/a/a/a` is not similar to itself |
| ApiDetailed.Candidates | scripts/migration/analyze_api_detailed.py:46-63 | the specification of `find_path_mapping`, with no contract of its own; CandidatesMeaning states which keys it holds |
| ApiDetailed.CandidatesMeaning | scripts/migration/analyze_api_detailed.py:46-63 | a key is a candidate iff some endpoint with that key has a similar path; there are no more candidates than endpoints |
| ApiDetailed.FindPathMapping | scripts/migration/analyze_api_detailed.py:46-63 | the loop builds exactly the specified candidate list |
| ApiDetailed.KeepMethod | scripts/migration/analyze_api_detailed.py:81-84 | the method filter, with no contract of its own; KeepMethodMeaning states what it keeps and when it fails |
| ApiDetailed.KeepMethodMeaning | scripts/migration/analyze_api_detailed.py:81-84 | the filter keeps, in order, exactly the candidates with the v2 method; a candidate without a space fails the unpacking |
| ApiDetailed.AnalyzeMigrationPath | scripts/migration/analyze_api_detailed.py:66-100 | the method builds exactly the specified migration record |
| ApiDetailed.MigrationOf | scripts/migration/analyze_api_detailed.py:66-100 | the specification of `analyze_migration_path`, with no contract of its own; MigrationMeaning states its result |
| ApiDetailed.MigrationMeaning | scripts/migration/analyze_api_detailed.py:66-100 | the result fails iff a candidate has no space; otherwise complexity is "high" iff no candidate, "low" iff one, "medium" otherwise, never "unknown", with one recommendation, and the kept candidates are the similar ones with the same method |
| ApiDetailed.EndpointsFeedMigration | scripts/migration/analyze_api_detailed.py:17-100 | on endpoints built by `get_endpoints`, the analysis never fails |
| Schemas.Extracted | scripts/migration/analyze_schemas.py:22-29 | for a parameter in a bucket, `required` defaults to False and `description` to `""` |
| Schemas.ExtractParameters | scripts/migration/analyze_schemas.py:15-31 | the loop builds the query, path and header buckets, each the parameters of that location in order |
| Schemas.ParamsIn | scripts/migration/analyze_schemas.py:19-29 | the bucket of one location, with no contract of its own; ParamsInSound, ParamsInComplete and BucketsAccount state what it holds |
| Schemas.ParamsInSound | scripts/migration/analyze_schemas.py:19-29 | every bucketed parameter comes from a parameter of that location |
| Schemas.ParamsInComplete | scripts/migration/analyze_schemas.py:19-29 | every parameter of a location is in its bucket |
| Schemas.BucketsAccount | scripts/migration/analyze_schemas.py:19-29 | bucket sizes plus dropped parameters equal the number of parameters |
| Schemas.NothingDropped | scripts/migration/analyze_schemas.py:21 | nothing is dropped iff every parameter is in query, path or header |
| Schemas.SkippedSchemaUnread | scripts/migration/analyze_schemas.py:19-29 | a `cookie` parameter is skipped whatever its schema is, even a non-dict one such as `true` |
| Schemas.RequestSchema | scripts/migration/analyze_schemas.py:34-39 | the four-level lookup, with no contract of its own; RequestSchemaMissing, RequestSchemaFound and NoBodyNoSchema state its result |
| Schemas.RequestSchemaMissing | scripts/migration/analyze_schemas.py:34-39 | a missing level anywhere gives `{}` |
| Schemas.ResponseSchema | scripts/migration/analyze_schemas.py:42-48 | the five-level lookup with status `200` by default, with no contract of its own; ResponseSchemaMissing, ResponseSchemaFound and NoBodyNoSchema state its result |
| Schemas.ResponseSchemaMissing | scripts/migration/analyze_schemas.py:42-48 | a missing level anywhere gives `{}` |
| Schemas.ResponseSchemaFound | scripts/migration/analyze_schemas.py:42-48 | when every level is present for the status, that schema is returned |
| Schemas.NoBodyNoSchema | scripts/migration/analyze_schemas.py:34-48 | no request body or no responses gives `{}` |
| Schemas.RequestSchemaFound | scripts/migration/analyze_schemas.py:34-39 | when every level is present, the schema is returned |
| Schemas.Indent | scripts/migration/analyze_schemas.py:53 | two spaces per level |
| Schemas.PropertyLines | scripts/migration/analyze_schemas.py:65-78 | a property gives its `- name: type` line, with the marker iff required, and a second line iff its description is non-empty |
| Schemas.FormatLines | scripts/migration/analyze_schemas.py:51-92 | the specification of `format_schema`, with no contract of its own; FormatSchema, FormatIndented, ObjectLineCount, FormatNonEmpty and the other Schemas lemmas state its properties |
| Schemas.FormatSchema | scripts/migration/analyze_schemas.py:51-92 | the recursive method returns exactly the specified lines |
| Schemas.FormatItems | scripts/migration/analyze_schemas.py:80-83 | an array gives `Array of:` followed by its items one level deeper |
| Schemas.PropertyLoop | scripts/migration/analyze_schemas.py:65-78 | the property loop returns exactly the specified lines |
| Schemas.FormatIndented | scripts/migration/analyze_schemas.py:51-92 | every formatted line starts with its level's indentation |
| Schemas.ObjectLineCount | scripts/migration/analyze_schemas.py:65-78 | an object gives one line per property plus one per described property |
| Schemas.FormatNonEmpty | scripts/migration/analyze_schemas.py:51-92 | the output is empty iff the schema is an object without properties |
| Schemas.UnknownType | scripts/migration/analyze_schemas.py:59-90 | a schema without `type` and `$ref` gives `Type: unknown` |
| Schemas.ObjectSameProperties | scripts/migration/analyze_schemas.py:59-85 | an object's output depends only on `required` and `properties`; `$ref` is ignored |
| Schemas.ArraySameItems | scripts/migration/analyze_schemas.py:80-85 | an array's output depends only on `items`; `$ref` is ignored |
| ProjectConfig.GetPythonVersion | scripts/project_config.py:63-70 | the specification of `get_python_version`, with no contract of its own; PythonVersionMeaning states its result |
| ProjectConfig.PythonVersionMeaning | scripts/project_config.py:63-70 | the result contains no `>`, and is the stripped requirement when it had none |
| ProjectConfig.VersionTextMeaning | scripts/project_config.py:68 | deleting `>=` and `>` and stripping leaves no `>` |
| ProjectConfig.VersionOfLines | scripts/project_config.py:90-94 | the version of the first `__version__` line, with no contract of its own; FindVersion, VersionRoundTrip and NoVersionLine state its result |
| ProjectConfig.GetProjectVersion | scripts/project_config.py:79-96 | `project.version`, else the version file's, else `0.4.0`, with no contract of its own; FindVersion states the fallback |
| ProjectConfig.FindVersion | scripts/project_config.py:86-95 | the line loop returns the version of the first `__version__` line, or `0.4.0` |
| ProjectConfig.VersionRoundTrip | scripts/project_config.py:86-92 | a written `__version__ = "v"` line reads back as `v` |
| ProjectConfig.NoVersionLine | scripts/project_config.py:90-95 | with no `__version__` line the default `0.4.0` is returned |
| ProjectConfig.ToolDeclared | scripts/project_config.py:97-114 | the specification of `has_tool_config`, with no contract of its own; HasToolConfig is proved to compute it |
| ProjectConfig.HasToolConfig | scripts/project_config.py:97-114 | the loop answers whether the segments exist in successively nested tables, or plain membership without a dot |
| ProjectConfig.GetToolConfig | scripts/project_config.py:116-121 | the specification of `get_tool_config`, with no contract of its own; GetToolConfigMeaning states its result |
| ProjectConfig.GetToolConfigMeaning | scripts/project_config.py:116-121 | returns the `tool` table's entry for the literal key, or `{}` when absent |
| ProjectConfig.NestedLookupAgrees | scripts/project_config.py:97-121 | the corrected lookup walks the same segments `has_tool_config` checks, and is the literal lookup without a dot |
| ProjectConfig.TestConfigLostAsWritten | scripts/project_config.py:134-136 | with a nested `[tool.pytest.ini_options]` table, `has_tool_config` is true but `get_test_config` as written returns `{}` |
| ProjectConfig.TestConfigFound | scripts/project_config.py:134-136 | the corrected `get_test_config` returns the nested options table |
| ProjectConfig.GetCoverageConfig | scripts/project_config.py:138-140 | the corrected `get_coverage_config`, walking `coverage` then `run`, with no contract of its own; CoverageConfigFound states its result |
| ProjectConfig.CoverageConfigLostAsWritten | scripts/project_config.py:138-140 | with a nested `[tool.coverage.run]` table, `has_tool_config` is true but `get_coverage_config` as written returns `{}` |
| ProjectConfig.CoverageConfigFound | scripts/project_config.py:138-140 | the corrected `get_coverage_config` returns the nested `run` table |
| ProjectConfig.FlattenKeys | scripts/project_config.py:123-132 | the recursive method returns exactly the specified flattening |
| ProjectConfig.FlattenLeaves | scripts/project_config.py:128-131 | no flattened value is a dict |
| ProjectConfig.FlatItemsKeys | scripts/project_config.py:126-131 | a key is flattened iff some member contributes it |
| ProjectConfig.FlattenKeysMeaning | scripts/project_config.py:123-132 | the result has distinct keys, and a key is present iff some member contributes it: a leaf gives its dotted path, a nested dict gives its own keys |
| ProjectConfig.DictOfMeaning | scripts/project_config.py:132 | `dict(items)` has distinct keys, the same key set, and only members of the items |

## Left out

- HTTP transport, sessions, multipart upload, downloads and file I/O. The
  transport, the `patch` call and file contents are parameters.
- Text.Lower: maps only `A`-`Z` to `a`-`z`. Python's `str.lower()` also
  maps other cased Unicode letters, and can change the length (`'İ'` gives
  two characters). So a key with a non-ASCII letter may be categorised
  differently: `GET /lin\u212As` (a Kelvin sign) lowers to `/links` in
  Python, giving "Link/Relation Operations"; the model gives "Other".
- Text.Upper: maps only `a`-`z` to `A`-`Z`. Python's `str.upper()` also
  maps other cased Unicode letters, and can change the length (`'ß'` gives
  `"SS"`).
- Client.GetRecords: a page body is assumed well typed: `list` is a list or
  absent, and `pageInfo` is a dict or absent. A `"list": null` body (a
  `TypeError` in `records.extend`) and a `null` or non-dict `pageInfo` (an
  `AttributeError` in `.get`) are not modelled.
- Floats: a float filter value, `QueryParams.timeout` and the float type of
  `hit_rate`. `hit_rate` is computed as a real.
- TOML dates and other TOML types with no JSON counterpart.
- The iteration order of Python sets in `compare_endpoints` and
  `categorize_breaking_changes`. It is a distinct-sequence argument.
- `DiskCache`, `RedisCache`, the MD5 key of `CacheManager._make_cache_key`
  and the default key hash of `cached_method`. Keys are given strings.
- Cache.MemoryCache.Get: reads the clock once per call, while `get` reads
  `time.time()` for cleanup and again for the expiry test.
- Everything in `filter_builder.py` that the tests do not assert: operator
  arity checks, float rendering and the factory functions.
- The QueryBuilder, columns, views, webhooks, file operations, async client,
  meta client, table, CLI and exception modules. Their implementations are
  not part of this model.
- ApiDetailed.StaticPartsMeaning: states membership, not the order of the
  parts; the order does not affect the set comparison.
- The Markdown report generators, `load_openapi` and `main` of the migration
  scripts: fixed-string output and file I/O.
- `validate_file_path` and `validate_file_size` (filesystem), the pydantic
  machinery, and `NocoDBRecord.get_field`/`set_field`.
- Schemas.Indent: the indent level is a natural number.
- ApiDiff.OpenApiShaped: a document whose `paths`, a path item or an
  operation is not a dict is excluded by this precondition. The script
  raises `AttributeError` there, from `.items()` or `.get`; that exception
  is not modelled.
- Schemas.ParametersShaped: a `parameters` value that is not iterable, a
  parameter that is not a dict, or a parameter whose `in` is a list or a
  dict is excluded. The script raises `TypeError` or `AttributeError`
  there; those exceptions are not modelled.
- Schemas.Formattable: a truthy schema that is not a dict, an object whose
  `properties` is not a dict, or an array whose `items` is a truthy
  non-dict is excluded. The script raises `AttributeError` there; that
  exception is not modelled.
- Schemas.PropertyShaped: a property schema that is not a dict, an array
  property whose `items` is not a dict, or a `required` that `in` cannot
  search is excluded. The script raises `AttributeError` or `TypeError`
  there; those exceptions are not modelled.
- ApiDetailed.MigrationOf: requires a space in the endpoint key. A key
  without one raises `ValueError` when `split(" ", 1)` is unpacked into
  two names; that exception is not modelled.
- ApiDiff.CategorizeEndpoint: requires a space in the endpoint key. A key
  without one raises `IndexError` at `split(" ", 1)[1]`; that exception is
  not modelled. Every key that `get_endpoints` builds has a space.
- Text.Strip: removes only ASCII whitespace. Python's `str.strip()` also
  removes Unicode spaces, so `"\u00a0"` (a no-break space) stays in the
  model where Python strips it to `""`.
- Text.IsAlnumString: accepts only ASCII letters and digits. Python's
  `str.isalnum()` also accepts other Unicode letters and digits, so
  `Models.ValidateSort` rejects `"Größe"`, which the source accepts.
- Data.Repr: shows strings between single quotes without escaping. Python
  escapes quotes and backslashes, and switches to double quotes for a
  string holding a single quote, so such strings render differently.

## Findings

| source | as written | input that shows it | evidently intended | confidence | as-written member | corrected member |
|---|---|---|---|---|---|---|
| src/nocodb_simple_client/client.py:142-152 | `"error" in error_info` is tested on any decoded JSON body | an error status with body `null` raises `TypeError`; with body `["error", "message"]`, indexing a list by a string raises `TypeError` | only a JSON object is inspected; any other body falls through to `raise_for_status` | not executed | Client.NonObjectBodyRaisesTypeError | Client.CheckForError |
| scripts/project_config.py:134-136 | `get_test_config` looks up `"pytest.ini_options"` as one literal key of `tool` | a `[tool.pytest.ini_options]` table: `has_tool_config("pytest.ini_options")` is true, `get_test_config()` returns `{}` | walk the dotted segments, as `has_tool_config` does | not executed | ProjectConfig.TestConfigLostAsWritten | ProjectConfig.TestConfigFound |
| scripts/project_config.py:138-140 | `get_coverage_config` looks up `"coverage.run"` as one literal key of `tool` | a `[tool.coverage.run]` table: `has_tool_config("coverage.run")` is true, `get_coverage_config()` returns `{}` | walk the dotted segments, as `has_tool_config` does | not executed | ProjectConfig.CoverageConfigLostAsWritten | ProjectConfig.CoverageConfigFound |
