# meili_dog search gateway — a Dafny model of the query translator

meili_dog is an HTTP gateway in front of one Meilisearch index. For each
search it clamps the page number, derives the offset, turns the client's
field-to-value filter map into Meilisearch filter expressions, copies the
configured crop/highlight/retrieve/search-on settings into the engine
request, and reshapes the engine's answer into a paginated envelope. On the
settings side it appends `:weight` to weighted searchable attributes and
assembles a settings snapshot from eight separately read categories: each
list or map category that is read as nil becomes an empty container, and
the typo-tolerance read is passed through as it is, nil included.

This project models that translation layer of `handlers/search.go` as pure
functions over immutable datatypes and proves what it promises:

- `wrappers.dfy` (`Wrappers`): `Option` and `Result`.
- `decimal.dfy` (`Decimal`): `strconv.Itoa` and a parser that inverts it.
- `strings.dfy` (`Strings`): `joinStrings` and the standard join it implements.
- `values.dfy` (`Values`): the dynamic `interface{}` value and `toString`.
- `sequences.dfy` (`Sequences`): the "append what qualifies" loop that
  `buildFilterStrings` and `convertHits` share. It is written once, as a
  generic `FilterMap`, with its lemmas.
- `filters.dfy` (`Filters`): `buildArrayFilter`, `buildFilterStrings`, and how
  a condition can be read back.
- `pagination.dfy` (`Pagination`): the page clamp, the offset and the total
  page count. Go's truncating division is written out.
- `requests.dfy` (`Requests`): the engine request, `applyOptimizationParams`,
  `applyFilters` and the sort attachment.
- `hits.dfy` (`Hits`): `convertHits`.
- `search.dfy` (`Search`): the `Search` handler. The engine call is a
  function parameter.
- `settings.dfy` (`Settings`): `applyWeightsToAttributes`, the payload
  `UpdateSearchableAttributes` sends, `derefStringSlice`, `derefStringMap`
  and the `GetSettings` snapshot.

A Go `map[string]interface{}` of filters is modelled as the sequence of its
entries, in the order the map iteration happened to produce them. Go leaves
that order unspecified. The lemmas show that only the order of the filter
list depends on it: `BuildFilterStringsOrderIndependent` proves that any two
enumerations of the same entries give the same expressions as a multiset.

Three behaviours of the code that a reader might not expect:

- The retrieve list is left out of the request whenever its *first* element
  is `*` (handlers/search.go:116), not only when the list is exactly `["*"]`
  (`RestrictsRetrieval`).
- A filter entry does not always become an expression. An empty list and a
  value of an unsupported type give none (handlers/search.go:142-153).
- The page count divides by the limit without a guard. With a zero limit
  and at least one hit, Go raises a run-time panic, and the framework's
  recovery middleware (`gin.Default`, main.go:39) answers it with a bare
  500. The model returns this as `SearchError.DivisionByZero`; it is not a
  precondition.

## Model

| member | source | states |
|---|---|---|
| `Decimal.Itoa` | handlers/search.go:187-192 | The decimal text has a leading `-` exactly for negative numbers, then only digits, and a leading `0` only for zero, which is written `0`. |
| `Decimal.ItoaRoundTrip` | handlers/search.go:187-192 | Parsing the rendered integer gives the integer back, so distinct integers render differently. |
| `Strings.AppendEach` | handlers/search.go:211-214 | The accumulating loop yields the accumulator followed by `sep + s` for every remaining element, in order. |
| `Strings.JoinStrings` | handlers/search.go:204-216 | Returns "" for no elements and the element itself for one. Otherwise it returns the standard join: the first element, then `sep + s` for each later element. |
| `Strings.JoinAppend` | handlers/search.go:204-216 | Joining two non-empty lists equals joining each one and putting exactly one separator between them. |
| `Strings.JoinLength` | handlers/search.go:204-216 | The join is as long as all the elements plus exactly `len-1` separators. |
| `Strings.JoinAround` | handlers/search.go:204-216 | Around element i > 0 the join reads: the join of the earlier elements, one separator, element i verbatim, then each later element after a separator. |
| `Values.FormatBool` | handlers/search.go:197-198 | Renders `true` exactly for true and `false` exactly for false. |
| `Values.ToString` | handlers/search.go:185-202 | Integers render as their canonical decimal text (`Itoa`), which parses back to the integer. Booleans render as `true`/`false`. A float gives its own text. Strings, lists, maps and other types give "". |
| `Filters.Condition` | handlers/search.go:163-168 | A condition starts with the field and ` = `. For a string, integer or boolean the rest decodes back to the value; strings are single-quoted. An integer is followed by its canonical decimal text and a float by its own text. For unsupported element types it is just `field = `. |
| `Filters.LiteralRoundTrip` | handlers/search.go:163-168 | The written form of a string, integer or boolean reads back as the same value, so these three kinds never render alike. |
| `Filters.Conditions` | handlers/search.go:161-169 | Exactly one condition per list element, in input order. |
| `Filters.BuildArrayFilter` | handlers/search.go:160-171 | The group starts with `(` and ends with `)`. Its inside is the ` OR `-join of the element conditions. |
| `Filters.ArrayFilterSingle` | handlers/search.go:160-171 | A one-element list gives its single condition in parentheses, with no ` OR `. |
| `Filters.EntryExpression` | handlers/search.go:142-153 | An entry yields an expression exactly for a string, number or boolean, or a non-empty list. A scalar entry is written the same way as that value inside an OR-group. A non-empty list gives exactly `buildArrayFilter` of its field and elements. |
| `Filters.BuildFilterStrings` | handlers/search.go:138-157 | At most one expression per map entry. |
| `Filters.BuildFilterStringsEntries` | handlers/search.go:138-157 | Every contributing entry's expression is in the output. Every output expression comes from some entry. The output is empty exactly when no entry contributes. |
| `Filters.BuildFilterStringsInOrder` | handlers/search.go:138-157 | The output has exactly one expression per contributing entry, counted with multiplicity: the k-th expression is that of the k-th contributing entry, in iteration order, and every contributing entry is among them. |
| `Filters.BuildFilterStringsOrderIndependent` | handlers/search.go:141-154 | Two iteration orders of the same map give the same expressions up to order (equal multisets). |
| `Filters.QuoteInjectsCondition` | handlers/search.go:144 | String values are not escaped. The value `x' OR genre = 'y` yields the text `genre = 'x' OR genre = 'y'`. |
| `Filters.QuotesCollide` | handlers/search.go:144 | Without escaping, the entries (`a = 'b`, `c`) and (`a`, `b = 'c`) render the same expression. |
| `Pagination.GoDiv` | handlers/search.go:95 | Go's truncating division: the remainder `a - q*b` is smaller in magnitude than `b` and is zero or has the sign of `a`. |
| `Pagination.NormalizePage` | handlers/search.go:50-52 | The effective page is at least 1. A page below 1 becomes exactly 1, and any other page is unchanged. |
| `Pagination.Offset` | handlers/search.go:53 | For a page of at least 1 and a non-negative limit, the offset is non-negative. |
| `Pagination.PagesTile` | handlers/search.go:53 | The offsets of consecutive pages differ by exactly the limit. |
| `Pagination.OffsetRecoversPage` | handlers/search.go:53 | With a positive limit the offset is a multiple of the limit, and the page is `offset / limit + 1`. |
| `Pagination.TotalPages` | handlers/search.go:94-96 | No hits give 0 (left out of the JSON). With hits and a positive limit the count p satisfies `(p-1)*limit < hits <= p*limit`, that is, the ceiling. The division happens only when there are hits. |
| `Pagination.TotalPagesIsLeast` | handlers/search.go:94-96 | The page count is the least p with `p*limit >= hits`. |
| `Pagination.LastPageHoldsLastHit` | handlers/search.go:94-96 | The last page's offset is below the hit count, and the next page's offset is not. |
| `Requests.NewRequest` | handlers/search.go:56-60 | A fresh request carries the query, limit and offset, and zero values in every other field. |
| `Requests.ApplyOptimizationParams` | handlers/search.go:102-123 | Crop list and crop length are set only for a non-empty crop list. Highlight list and tags only for a non-empty highlight list. The retrieve list only when non-empty and its first element is not `*`. The search-on list only when non-empty. Query, limit, offset, filter and sort are unchanged. |
| `Requests.ApplyOptimizationParamsIdempotent` | handlers/search.go:102-123 | Applying the configuration twice gives the same request as applying it once. |
| `Requests.WildcardRetrievesEverything` | handlers/search.go:116-118 | A retrieve list starting with `*` leaves a fresh request with no retrieval restriction. |
| `Requests.ApplyFilters` | handlers/search.go:126-135 | The filter is set to the built expressions only when at least one exists. No other field changes. |
| `Requests.ApplyFiltersUnset` | handlers/search.go:126-135 | An unset filter stays unset exactly when no map entry contributes an expression. This includes the empty map. |
| `Requests.ApplySort` | handlers/search.go:69-71 | The sort list is attached only when non-empty. No other field changes. |
| `Requests.StepsCommute` | handlers/search.go:62-71 | The optimization, filter and sort steps touch disjoint fields, so their order does not matter. |
| `Hits.ConvertHits` | handlers/search.go:174-182 | The output is never longer than the input. |
| `Hits.ConvertHitsKeepsObjectsInOrder` | handlers/search.go:174-182 | The output is the order-preserving subsequence of the map-shaped hits. The k-th document is the k-th map hit. Every map hit is kept and every other hit is dropped. |
| `Hits.ConvertHitsAllObjects` | handlers/search.go:174-182 | Nothing is dropped exactly when every hit is a map, and then the output equals the input. |
| `Search.EngineRequestFor` | handlers/search.go:49-71 | The request carries the query and the limit. Its offset is `(page-1)*limit` for the clamped page. Its filter is set only when expressions exist. It carries the client's sort list. Its retrieve, crop, highlight and search-on settings follow the configuration rules: the highlight tags are sent only with a non-empty highlight list. |
| `Search.ErrorStatus` | handlers/search.go:44-79 | Every failed search is answered with status 500. |
| `Search.ErrorMessage` | handlers/search.go:44-79 | A missing index reads `索引未配置`. An engine failure reads `搜索失败: ` followed by the engine's error verbatim. The recovered panic has no body. |
| `Search.EngineFailureMessageInjective` | handlers/search.go:77 | Two engine failures give the same message exactly when their causes are equal, so the cause is passed on unaltered. |
| `Search.Respond` | handlers/search.go:81-96 | The response echoes the query and limit, along with the clamped page and its offset. It keeps the map hits, the estimated total and the processing time, and carries the ceiling page count when there are hits. A zero limit with hits is the division-by-zero failure. |
| `Search.Search` | handlers/search.go:36-99 | An unconfigured index fails before the engine is called. An engine error is reported with its cause. Otherwise the result is the response to the engine's answer for exactly the built request. |
| `Search.FortySevenHitsMakeThreePages` | handlers/search.go:94-96 | 47 hits at 20 per page make 3 pages. |
| `Search.SecondPageOfShoes` | handlers/search.go:49-96 | `query=shoes&page=2&limit=10` with 25 hits answers offset 10, page 2 and 3 pages. |
| `Settings.ApplyWeightsToAttributes` | handlers/search.go:512-524 | Same length and order as the input. Element i is `attr:weight` when `attr` has a weight and `attr` unchanged otherwise. |
| `Settings.WeightRoundTrip` | handlers/search.go:516-519 | A weighted attribute splits back at its last colon into the attribute and its weight. An unweighted attribute without a colon reads as carrying no weight. |
| `Settings.SearchableAttributesToSend` | handlers/search.go:346-349 | The payload equals the weighted list. With an empty weight map it is the client's list untouched. The guard changes nothing only because the model identifies nil and empty lists. |
| `Settings.TitleWeightedTen` | handlers/search.go:346-349 | Attributes `["title","body"]` with weights `{"title":10}` send `["title:10","body"]`. |
| `Settings.DerefStringSlice` | handlers/search.go:527-532 | A non-nil pointer gives its pointee. The result is empty exactly for nil or an empty pointee. |
| `Settings.DerefStringMap` | handlers/search.go:535-540 | A non-nil pointer gives its pointee. The result is empty exactly for nil or an empty pointee. |
| `Settings.SettingsErrorStatus` | handlers/search.go:258-259 | The settings endpoints refuse a missing index with status 400. |
| `Settings.SettingsErrorMessage` | handlers/search.go:259-261 | The refusal's error text is `索引未配置`. |
| `Settings.MissingIndexStatuses` | handlers/search.go:44-46 | The search endpoint (handlers/search.go:44-46) and the settings endpoints (`GetSettings`, handlers/search.go:258-261) report a missing index with the same text, but with status 500 and 400 respectively. |
| `Settings.GetSettings` | handlers/search.go:257-322 | An unconfigured index is refused. Otherwise each of the seven list and map categories is its own read, dereferenced, and typo tolerance is passed through as read, nil included. |
| `Settings.FailedSynonymsReadIsIsolated` | handlers/search.go:299-317 | A failed synonyms read gives `synonyms: {}` and leaves the other seven categories as they are. |

## Left out

- HTTP binding (`ShouldBindQuery`, `ShouldBindJSON`) is not modelled: its validation, its error messages, and the defaults page=1 and limit=20 from the binding tags (models/search.go:40-41). The model starts from the bound `SearchQuery` and `SettingRequest`.
- JSON response writing and the gin context are not modelled. The status and the `error` text of each failure are modelled (`ErrorStatus`, `ErrorMessage`, `SettingsErrorStatus`, `SettingsErrorMessage`); the JSON bodies themselves are not built.
- The Meilisearch client is not modelled: it is a remote library. `Search` takes the engine as a function parameter. `GetSettings` takes the pointers the eight reads returned. A read error is only logged, so it does not enter the model.
- `HealthCheck`, `GetIndexInfo`, `ResetSettings` and the response plumbing of the four `Update*` handlers are not modelled. They only forward remote calls and relay the task id or the error. For the updates, only the payload sent by `UpdateSearchableAttributes` is modelled.
- Values.ToString: a `Float` carries the text `strconv.FormatFloat` would give. Floating-point formatting is not modelled. The filter map is bound from the query string (handlers/search.go:38, models/search.go:43); how that binding types a number is not part of this model. A decoder that yields every number as `float64`, as JSON decoding does, lands in the `Float` case, so `Condition` pins that case to the float's text as well as the `Int` case to `Itoa`.
- Values.ToString: Go integer kinds other than `int`, `int32` and `int64` (such as `uint` and `int8`) fall under `Other`, since the type switch treats them as unsupported.
- Pagination.Offset: uses unbounded integers, so the overflow of `(page-1)*limit` in Go's `int` and the `int64`/`int` conversions are not modelled.
- Pagination.TotalPages: the ceiling property is stated only for a positive limit. With a negative limit it follows Go's truncating division with no further claim.
- Pagination.TotalPages: uses unbounded integers, so the `int64` wrap-around of `EstimatedTotalHits + int64(req.Limit) - 1` (handlers/search.go:95) is not modelled. The client's limit has no upper bound. When the limit exceeds `MaxInt64 - hits + 1` the sum wraps and Go answers 0 (omitted from the JSON) or a negative page count, while the model gives the ceiling. For example, 1000 hits with `limit=9223372036854775308` give `-1` in Go, and 5 hits with `limit=9223372036854775807` give 0.
- Search.Respond: inherits the `TotalPages` gap above, so its ceiling clause does not hold for Go when the limit is large enough to wrap the `int64` sum.
- Go's distinction between a nil slice and an empty slice is not modelled. JSON renders these as `null` and `[]`; the model uses the empty sequence for both. For example, `applyWeightsToAttributes` returns nil for no attributes, so an explicit `[]` sent through it would reach the engine as `null`. The guard at handlers/search.go:347 avoids that only when the weight map is empty.
- Logging is not modelled.
- main.go is not modelled: routing, CORS, port and config-path handling are glue.
- config/loader.go is not modelled: it wraps a TOML decoder.
- models/search.go is not modelled as code: it only declares types, which shaped the datatypes here.
