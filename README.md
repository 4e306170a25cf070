# esphinx2 query compiler and batch executor

This project models the core of esphinx2, a PHP wrapper around the Sphinx
search client.

- `ApiConnection` turns a `Query` into an ordered sequence of calls on the
  stateful Sphinx client.
  - `resetClient` first puts the client back to fixed defaults.
  - `applyCriteria` then issues the criteria's modes, shape, weights,
    filters, query time and flags.
  - `applyQuery` ends with `AddQuery`.
- `executeQuery` and `executeQueries` repeat that once per query and then
  make a single `RunQueries` round trip.
- `execute` checks the reply fail-fast and maps each response entry to a
  result.
- `Query` is the immutable value that carries text, indexes and criteria.

## Files

| file | module | content |
|---|---|---|
| `common.dfy` | `Common` | Option, Result, `Join`, PHP truthiness of strings |
| `enums.dfy` | `Enums` | match, rank, sort and group-function codes |
| `criteria.dfy` | `SearchCriteria` | the criteria record (`Criteria`), the `(int)` cast, range promotion |
| `client.dfy` | `Client` | the Sphinx client: calls (`Op`), configuration, session, the class `SphinxClient` |
| `query.dfy` | `Queries` | `Query` and its constructor and getters |
| `compiler.dfy` | `Compiler` | the calls each step issues, as functions, and the configuration they leave |
| `order.dfy` | `TraceOrder` | the order of the issued calls, and which calls are issued |
| `batch.dfy` | `Batches` | `executeQueries` over a batch: what is enqueued, and when it stops |
| `connection.dfy` | `Connection` | the class `ApiConnection`, its methods proved against `Compiler` and `Batches`, and reply parsing |
| `findings.dfy` | `Findings` | the three findings below, as written and corrected |

### The client

The Sphinx client is a class with three fields that its methods update:
- the current configuration;
- the queue of enqueued queries, each a snapshot of the configuration;
- the trace of every call it has received.

`Client.ApplyOp` and `Client.Step` say what one call does, following the
Sphinx PHP API (sphinxapi.php):
- `AddQuery` snapshots the configuration into the queue.
- `RunQueries` empties the queue when the daemon answers, and keeps it
  when the round trip fails.
- `SetLimits` stores offset and limit, and stores max matches and cut-off
  only when they are positive.
- `SetFilter` ignores an empty value list.
- Every other call changes one group of configuration fields.

So a reset does not restore everything: max matches, cut-off, the query
time and, below version 0x11D, the query flags survive it. `Batches`
carries those values from each query to the next.

The round trip is the `daemon` constant of the client. It is an arbitrary
function from the queue to a reply: the responses (or none when the reply
is not an array) and the client's last error and warning.

### Specification functions and methods

Each `ApiConnection` method is proved against a function of `Compiler` or
`Batches`. The method's contract says both of these:
- the trace grew by exactly that function's calls;
- the client's state is `Run` of those calls on the old state.

The lemmas of `Compiler`, `TraceOrder` and `Batches` then state what those
calls mean:
- the configuration each enqueued query sees;
- the order of the calls;
- which calls are issued;
- the error that stops compilation.

## Model

| member | source | states |
|---|---|---|
| Queries.NewQuery | src/sphinx-yii2/Query.php:37-54 | The text is kept as given. A single index name is kept as given, and a one-element list gives that name. A criteria object is kept, an array gives the criteria built from it, and any other value gives the default criteria. |
| Queries.IndexesRoundTrip | src/sphinx-yii2/Query.php:49-53 | An index list of space-free names, once joined with single spaces, splits back into the same list. |
| Queries.JoinSplit | src/sphinx-yii2/Query.php:50 | Splitting the space-joined names gives back the names. |
| Queries.QueryDefaults | src/sphinx-yii2/Query.php:37-84 | With the defaults, `getText` is the text, `getIndexes` is `"*"` (or `"index"`, or `"a b"` for a two-name list), and `getCriteria` is the default criteria. |
| SearchCriteria.IntCast | src/esphinx2/ApiConnection.php:406-422 | The `(int)` cast of a weight leaves an integer unchanged and truncates a float toward zero: the result is at most one unit closer to zero than the float. |
| SearchCriteria.PromoteRange | src/sphinx-yii2/tests/tests/CriteriaTest.php:106-127 | A range entry is float exactly when either bound is a float, and then both bounds are stored as floats of the same value. Attribute and exclude are kept, and an empty attribute is rejected. |
| SearchCriteria.PromotionExamples | src/sphinx-yii2/tests/tests/CriteriaTest.php:106-127 | The entries the criteria tests expect for integer, mixed and float bounds. |
| Enums.EnumSizes | src/esphinx2/tests/tests/EnumTest.php:34-62 | There are 7 match codes, 9 rank codes, 6 sort codes and 5 group functions, and `RANK_TOTAL` is not a valid rank code. |
| Compiler.ResetEffect | src/esphinx2/ApiConnection.php:458-476 | The reset calls leave the fixed default configuration and do not touch the queue. The query time survives. Max matches and cut-off survive too, because `SetLimits(0, 20)` passes no positive value for them. The flags survive below version 0x11D. |
| Compiler.CompiledConfig | src/esphinx2/ApiConnection.php:300-362 | Reset then a successful compile leaves exactly the expected configuration of that criteria, field by field. The query time is the criteria's own, else the connection's. Max matches and cut-off are the criteria's when its limit is non-zero and they are positive, else those from before. The flags are those the criteria sets (version 0x11D and up), else the flags from before. The queue is untouched. |
| Compiler.ModeValidation | src/esphinx2/ApiConnection.php:424-454 | An invalid match code fails with no call issued. A non-zero invalid rank code fails after `SetMatchMode` only. An invalid sort code fails before `SetSortMode`. Compilation succeeds exactly when all three codes are acceptable. |
| Compiler.ZeroRankKeepsReset | src/esphinx2/ApiConnection.php:443-446 | A zero ranking mode issues no `SetRankingMode`, so the query runs with the reset ranker `RANK_NONE`. |
| Compiler.SortSource | src/esphinx2/ApiConnection.php:305-318 | In EXTENDED mode the sort string is the orders joined, whatever `sortBy` is. In any other mode it is `sortBy`, whatever the orders are. |
| Compiler.SortStringExamples | src/sphinx-yii2/tests/tests/ApiSearchTest.php:172-175 | The orders `user_id ASC`, `id DESC` give `"user_id ASC, id DESC"`, and no orders give `""`. |
| Compiler.WeightRun | src/esphinx2/ApiConnection.php:351-352 | The two weight calls store the cast field and index weights. |
| Compiler.FilterRun | src/esphinx2/ApiConnection.php:399-404 | The filter calls append one value filter per entry with a non-empty value list, in order, and nothing else changes. |
| Compiler.RangeRun | src/esphinx2/ApiConnection.php:388-397 | The range calls append one range filter per entry, in order: float when the entry's flag is set, else integer, with the bounds unchanged. |
| Compiler.FiltersStored | src/esphinx2/ApiConnection.php:399-404 | Filters whose value lists are non-empty are each stored by `SetFilter`, in order, one entry per filter. |
| Compiler.ValidCriteriaKept | src/sphinx-yii2/tests/tests/CriteriaTest.php:219-240 | For a criteria its setters built (integer weights, non-empty filters), no filter is dropped and the `(int)` cast changes no weight. |
| Compiler.FlagRun | src/esphinx2/ApiConnection.php:365-386 | The option calls add to the client's flags exactly those the criteria sets (overriding same-named ones), with `reverse_scan` as 1 or 0. |
| Compiler.OptionsOnlyFlags | src/esphinx2/ApiConnection.php:365-386 | Every call of `applyOptions` is a `SetQueryFlag`. |
| TraceOrder.CompileOrder | src/esphinx2/ApiConnection.php:294-362 | The calls of a successful compile, followed by `AddQuery`, come in this order: match, rank, sort, select, limits, group, distinct, id range, field weights, index weights, filters, ranges, query time, flags, `AddQuery`. |
| TraceOrder.OptionalCalls | src/esphinx2/ApiConnection.php:300-362 | Match mode, sort mode, both weight calls and the query time are always issued. Each optional call is issued exactly when its guard holds (rank non-zero, select non-empty, limit non-zero, group set, distinct set, id range set, filters non-empty, ranges non-empty, version 0x11D and some option). No `AddQuery`, `RunQueries` or reset call is issued. |
| Batches.QueryRun | src/esphinx2/ApiConnection.php:294-298 | Reset, compile and `AddQuery` enqueue exactly one query. It carries the query's text, indexes and comment and the expected configuration of its criteria, given the configuration before the reset. The client ends with that configuration. |
| Batches.QueryAfter | src/esphinx2/ApiConnection.php:286-289 | A compiling query run after earlier calls leaves the earlier queue plus its own entry, built from the configuration those calls left. |
| Batches.QueuedForCarried | src/esphinx2/ApiConnection.php:458-476 | A queued entry depends on the configuration before its reset only through max matches, cut-off and, below version 0x11D, the flags. |
| Batches.BatchRun | src/esphinx2/ApiConnection.php:284-292 | A batch that compiles appends one queued query per input, in input order. Each carries its own criteria's configuration, plus the max matches, cut-off and (below version 0x11D) flags left by the queries before it. The client ends with the last query's configuration. |
| Batches.BatchSucceedsIff | src/esphinx2/ApiConnection.php:284-292 | A batch compiles exactly when every query's criteria does. |
| Batches.BatchFirstError | src/esphinx2/ApiConnection.php:284-292 | A failing batch stops at its first failing query: the calls are the clean prefix's, then that query's, and the error is that query's. |
| Batches.BatchErrorSticks | src/esphinx2/ApiConnection.php:286-289 | Once a prefix fails, the queries after it add nothing. |
| Batches.BatchNoRunQueries | src/esphinx2/ApiConnection.php:284-292 | The loop's calls never include `RunQueries`. |
| Batches.SingleBatch | src/esphinx2/ApiConnection.php:260-266 | A one-query batch issues exactly the calls of `executeQuery`. |
| Connection.WrapSuccess | src/esphinx2/ApiConnection.php:493-499 | The entries convert exactly when none carries an error. Then there is one result per entry, at the same position. |
| Connection.WrapFirstError | src/esphinx2/ApiConnection.php:493-497 | A failed conversion reports the error of the first entry that has one. |
| Connection.ParseReplySuccess | src/esphinx2/ApiConnection.php:478-500 | The reply succeeds exactly when there is no last error, no last warning, an array, and no failing entry. Then there is one result per entry, in order. |
| Connection.ApiConnection.constructor | src/esphinx2/ApiConnection.php:27-35 | A fresh client that has received only `SetArrayResult(true)`, with an empty queue. The default query time (`_queryTimeout`) is 0 and the `queryTimeout` property is unset. |
| Connection.ApiConnection.SetQueryTimeout | src/esphinx2/ApiConnection.php:158-161 | Corrected: sets the timeout that `applyCriteria` reads. |
| Connection.ApiConnection.SetQueryTimeoutAsWritten | src/esphinx2/ApiConnection.php:158-161 | As written: sets a separate property and leaves the timeout `applyCriteria` reads unchanged. |
| Connection.ApiConnection.ResetState | src/esphinx2/ApiConnection.php:461-466 | The first six reset calls, in order, and their effect. |
| Connection.ApiConnection.ResetModes | src/esphinx2/ApiConnection.php:467-472 | The next six reset calls, in order, and their effect. |
| Connection.ApiConnection.ResetClient | src/esphinx2/ApiConnection.php:459-476 | The trace grows by the reset calls (`ResetQueryFlag` from version 0x11D on). The state is the reset configuration, with the queue unchanged. |
| Connection.ApiConnection.Execute | src/esphinx2/ApiConnection.php:478-500 | One `RunQueries`, which empties the queue when the daemon answers with an array and keeps it otherwise. The configuration is unchanged. The result is the reply parsed fail-fast: last error, last warning, not an array, first failing entry, else one result per entry. |
| Connection.ApiConnection.WrapResults | src/esphinx2/ApiConnection.php:493-499 | The loop over the entries computes the conversion of the whole reply. |
| Connection.ApiConnection.ApplyMatchMode | src/esphinx2/ApiConnection.php:434-441 | An invalid code fails and issues nothing. A valid code issues `SetMatchMode`. |
| Connection.ApiConnection.ApplyRankMode | src/esphinx2/ApiConnection.php:443-454 | Zero issues nothing. A non-zero invalid code fails and issues nothing. A valid code issues `SetRankingMode(mode, expression)`. |
| Connection.ApiConnection.ApplySortMode | src/esphinx2/ApiConnection.php:424-432 | An invalid code fails and issues nothing. A valid code issues `SetSortMode(mode, sortBy)`. |
| Connection.ApiConnection.RenderOrders | src/esphinx2/ApiConnection.php:306-315 | The orders rendered as `attr DIR`, in order, and joined by `", "`. |
| Connection.ApiConnection.CastAll | src/esphinx2/ApiConnection.php:408-410 | The same keys, each value cast by `(int)`. |
| Connection.ApiConnection.ApplyFieldWeights | src/esphinx2/ApiConnection.php:415-422 | Exactly one `SetFieldWeights` call, with the cast weights. |
| Connection.ApiConnection.ApplyIndexWeights | src/esphinx2/ApiConnection.php:406-413 | Exactly one `SetIndexWeights` call, with the cast weights. |
| Connection.ApiConnection.ApplyFilters | src/esphinx2/ApiConnection.php:399-404 | One `SetFilter` per filter, in order. |
| Connection.ApiConnection.ApplyRanges | src/esphinx2/ApiConnection.php:388-397 | One range call per entry, in order: `SetFilterFloatRange` when the entry is float, else `SetFilterRange`. |
| Connection.ApiConnection.ApplyOptions | src/esphinx2/ApiConnection.php:365-386 | One `SetQueryFlag` per option that is set, in the fixed order. |
| Connection.ApiConnection.ApplyModes | src/esphinx2/ApiConnection.php:302-318 | The mode calls and the error of the mode stage. |
| Connection.ApiConnection.ApplyShape | src/esphinx2/ApiConnection.php:321-348 | Select, limits, group, distinct and id range, each only when set. |
| Connection.ApiConnection.ApplyPaging | src/esphinx2/ApiConnection.php:321-334 | `SetSelect` only for a non-empty select, then `SetLimits` with offset, limit, max matches and cut-off only for a non-zero limit: the calls and the new state. |
| Connection.ApiConnection.ApplyGrouping | src/esphinx2/ApiConnection.php:336-348 | `SetGroupBy` only for a truthy group-by, `SetGroupDistinct` only for a truthy distinct, `SetIDRange` only when an id range is set: the calls and the new state. |
| Connection.ApiConnection.ApplyContent | src/esphinx2/ApiConnection.php:350-361 | Weights, filters, ranges and the query time, then the flags from version 0x11D on. |
| Connection.ApiConnection.ApplyCriteria | src/esphinx2/ApiConnection.php:300-362 | The error is the compile error of the criteria. The trace grows by exactly the compiled calls, and the state is their effect. |
| Connection.ApiConnection.ApplyQuery | src/esphinx2/ApiConnection.php:294-298 | The compiled calls, then `AddQuery(text, indexes, comment)` when the criteria compiles. |
| Connection.ApiConnection.QueryOnce | src/esphinx2/ApiConnection.php:287-288 | One pass of the loop: the reset calls, then the query's calls, with its error. |
| Connection.ApiConnection.ExecuteQueries | src/esphinx2/ApiConnection.php:284-292 | On a compile error the batch stops with that error, its calls issued and no round trip. Otherwise there is one `RunQueries`. The daemon receives the old queue plus one expected entry per query. The client keeps the batch's final configuration, and its queue is empty when the daemon answered. |
| Connection.ApiConnection.ExecuteQuery | src/esphinx2/ApiConnection.php:260-266 | On a compile error it fails with no round trip. Otherwise the daemon receives the old queue plus this query's entry. The result is element 0 of the parsed reply (none when the reply has no entries). The client keeps the query's configuration, and its queue is empty when the daemon answered. |
| Findings.SentTimeoutAsWritten | src/esphinx2/ApiConnection.php:158-161 | As written: after `setQueryTimeout(t)`, a criteria without its own timeout sends `SetMaxQueryTime(0)`. |
| Findings.SentTimeout | src/esphinx2/ApiConnection.php:357 | Corrected: the same sequence sends `SetMaxQueryTime(t)`. |
| Findings.FailedQueryKeeps | src/esphinx2/ApiConnection.php:286-289 | A query that fails to compile adds nothing to the queue. It keeps max matches, cut-off and, below version 0x11D, the flags. |
| Findings.FailedQueryOps | src/esphinx2/ApiConnection.php:286-289 | A query that fails to compile sends the reset calls and then only match and ranking mode calls. |
| Findings.StaleQueue | src/esphinx2/ApiConnection.php:284-292 | As written: when the second query of a batch fails, the first query stays in the client's queue. The client keeps what that query carries over to the next. |
| Findings.FailedBatch | src/esphinx2/ApiConnection.php:284-290 | As written: `executeQueries([good, bad])` fails and leaves `good` queued. The client keeps what `good` carries over to the next query. |
| Findings.StaleResultAsWritten | src/esphinx2/ApiConnection.php:260-292 | As written: after the failed batch `[good, bad]`, `executeQuery(next)` sends `good` and `next` together and returns the first result, which answers `good`. `next` is sent with what `good` carried over. |
| Findings.FirstInvalid | src/esphinx2/ApiConnection.php:284-292 | Finds the error of the first query whose criteria does not compile, which is the batch's error. |
| Findings.ExecuteQueriesChecked | src/esphinx2/ApiConnection.php:284-292 | Corrected: a batch that fails leaves the client as it was, with the same error. A batch that compiles behaves exactly as `executeQueries`. |
| Findings.StaleResultCorrected | src/esphinx2/ApiConnection.php:260-292 | Corrected: after the failed batch, `executeQuery(next)` sends only `next`. |
| Findings.MaxMatchesLeak | src/esphinx2/ApiConnection.php:464 | As written: when the first query of a batch sets max matches and the second does not, the second is queued with the first one's max matches. |
| Findings.CorrectedResetClient | src/esphinx2/ApiConnection.php:458-476 | Corrected reset: the reset calls, then `SetLimits(0, 20, 1000)`, which leaves max matches at the library default and the queue unchanged. |
| Findings.CorrectedMaxMatches | src/esphinx2/ApiConnection.php:464 | Corrected: after the corrected reset, a compiled query's configuration is the expected one as if max matches had been the default. Its max matches is its own or 1000, whatever came before. |

## Left out

- Transport and lifecycle are left out: `setServer`, `openConnection`, `closeConnection`, `setConnectionTimeout` and the network part of `RunQueries`. They are network I/O. The round trip is the client's `daemon` function.
- The forwarding wrappers are left out: `createExcerts`, `createKeywords`, `escape` and `update`. They only pass their arguments to the Sphinx client.
- The Sphinx client library is not part of this model. Its calls are modelled by what they store in the client's configuration (`Client.ApplyOp`).
  - `ResetOverrides` changes nothing modelled.
  - `SetLimits` stores max matches and cut-off only when positive, `SetFilter` skips an empty value list, and `RunQueries` keeps the queue when the round trip fails. These follow the Sphinx PHP API 2.0.9; sphinxapi.php is not part of this model.
  - The library's own argument checks are not modelled.
  - The query flags are a map from flag name to value, not the library's packed bit field.
- `SearchCriteria`, `Result` and the enum classes are not part of this model.
  - The criteria is a record holding exactly the fields `applyCriteria` reads.
  - Its setters' guarantees are stated as `SearchCriteria.Valid` (integer weights, filters with a non-empty value list, well-formed ranges, distinct orders; the criteria tests show the first and wrap a scalar filter value into a one-element list, and the non-empty list is assumed) and `SearchCriteria.PromoteRange`, from the criteria tests. `Compiler.ValidCriteriaKept` relies on `Valid`.
  - SearchCriteria.DefaultCriteria: the defaults of a new criteria (EXTENDED2, RELEVANCE, DAY, empty select, no limit, no filters) are assumed, because SearchCriteria.php is not part of this model.
  - A result wraps its response entry unchanged.
  - The enum tables are sets of codes, using the Sphinx API's values.
- PHP coercions are explicit. Truthiness applies to strings: empty and `"0"` are false. Integer guards are `!= 0`. `(int)` on a weight is `SearchCriteria.IntCast`. A weight given as a numeric string is not modelled.
- Connection.ApiConnection.ExecuteQuery: element 0 of an empty result array is PHP's `null` with a notice. The model returns `None` instead.
- Queries.NewQuery: a criteria object is stored by reference in PHP, so later changes to that object are visible through the query. The model stores the criteria value, so that aliasing is not captured.
- Queries.NewQuery: the `(string)` cast of a non-string text or index value is not modelled. Text and a single index are strings here.
- Connection.ApiConnection.CastAll: PHP rewrites the weight array in place. The model builds the cast map key by key, under the same keys.
- Findings.CorrectedMaxMatches: the corrected reset restores max matches only. The library has no call that sets the cut-off back to 0, so the cut-off still carries over from one query to the next.
- `execute` does not compare the number of response entries with the number of queued queries, and neither does the model.

## Findings

| source | as written | input that shows it | evidently intended | confidence | as-written member | corrected member |
|---|---|---|---|---|---|---|
| src/esphinx2/ApiConnection.php:158-161 | `setQueryTimeout` assigns `$this->queryTimeout`. `applyCriteria` reads `$this->_queryTimeout` (:357), which is initialised to 0 (:27) and never written. | `setQueryTimeout(5)`, then `executeQuery` of a criteria with no `queryTimeout`: the client receives `SetMaxQueryTime(0)`. | `SetMaxQueryTime(5)`: the setter writes `_queryTimeout`. | medium, not executed: the base class `Connection` is not part of this model and might route the `queryTimeout` property elsewhere | Findings.SentTimeoutAsWritten | Findings.SentTimeout |
| src/esphinx2/ApiConnection.php:284-292 | When a query in `executeQueries` throws, the queries already passed to `AddQuery` stay in the client's queue. `resetClient` does not clear the queue. | `executeQueries([good, bad])` where `bad` has an invalid match mode, then `executeQuery(next)`: the round trip carries `good` and `next`, and the result returned is `good`'s. | A failed batch leaves nothing queued, so `executeQuery(next)` answers `next`. | high, not executed | Findings.StaleResultAsWritten | Findings.StaleResultCorrected |
| src/esphinx2/ApiConnection.php:464 | `resetClient` calls `SetLimits(0, 20)`. The Sphinx PHP API stores max matches and cut-off only when they are positive, so the reset leaves both as the previous query set them. | `executeQueries([a, b])` where `a` has limit 10 and max matches 5000, and `b` has limit 10 and no max matches: `b` is sent with max matches 5000, not the library default 1000. | Each query is sent with its own criteria's settings only: the reset restores max matches (and cut-off). | medium, not executed: sphinxapi.php is not part of this model | Findings.MaxMatchesLeak | Findings.CorrectedMaxMatches |

The rest of the model keeps `setQueryTimeout`, `executeQueries` and
`resetClient` as written; the corrected members sit beside them.
