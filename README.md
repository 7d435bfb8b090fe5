# youtube-ar, modelled in Dafny

youtube-ar archives YouTube videos. A user submits a video or playlist URL; the
backend stores a row for it, queues a job on Redis, and a worker downloads the
media with youtube-dl (through tor on a retry after a geographic block), uploads
it to S3 and records the outcome. A React frontend lists the URLs and polls one
URL's status.

The repository holds two backend generations, and both are modelled:

- the current one under `api/`: the SQL query builder (`api/store/querybuilder`),
  the store with its transactions and soft delete, the JSON resources with
  cursor paging, the Redis broker with its `:tmp` and `:failed` lists, the
  manager (server side and worker side), the event processor, the retrier and
  playlist loader services, the HTTP mux, handlers and logging middleware,
  logfmt, the oEmbed client and the S3 content-type choice;
- the legacy one at the top level: `store/`, `broker/`, `manager/`, `service/`,
  `server/`, `query/`, the HTML server (`server.go`, `common.go`) and the
  standalone worker (`worker.go`);
- the two stateful React components `Video` and `VideoList`.

Every stateful object of the source (the builder, the statements, the stores,
Redis, the brokers, managers, workers, the response-writer wrappers, the
oEmbed client and the React components) is a class whose methods are proved
against a specification function of the old state. The store and Redis
carry a fault table (statements or commands that fail, with their error), so
every error path of the source is reachable in the model. Pure parts of the
source (predicates, routing, parsing, `ago`, the DFS over an HTML tree) are
functions with lemmas.

The logging middleware of the legacy server (`server/server.go:17-50`) is the
same code as `api/server/middleware/log.go`; the `StatusRecorder` module models
both, and its rows cite the current generation.

## Model

| member | source | states |
|---|---|---|
| QbBuilder.Builder.constructor | api/store/querybuilder/builder.go:8-11 | a new builder holds no text and no parameters, so placeholder agreement holds |
| QbBuilder.Builder.Bind | api/store/querybuilder/builder.go:13-16 | appends exactly one parameter and writes the placeholder `$n`, n being the new parameter count; placeholder `$i` keeps referring to `params[i-1]` |
| QbBuilder.Builder.Write | api/store/querybuilder/builder.go:18-20 | appends the text verbatim and leaves the parameters unchanged; agreement is kept |
| QbBuilder.NumberedConcat | api/store/querybuilder/builder.go:13-16 | two fragments numbered consecutively make one consecutively numbered fragment, which is why bind order is placeholder order |
| QbExpr.NewArray | api/store/querybuilder/expr.go:50-61 | a `[]string` becomes one value per string, in order; any other operand panics (a precondition) |
| QbExpr.In | api/store/querybuilder/expr.go:20-23 | `In` builds `identifier IN array-of-the-strings` |
| QbExpr.BindList | api/store/querybuilder/expr.go:67-72 | binds each value in order, writing ", " between two of them |
| QbExpr.BuildArray | api/store/querybuilder/expr.go:65-74 | writes "(", the bound list and ")", binding exactly the array's values |
| QbExpr.BuildExpr | api/store/querybuilder/expr.go:82-112 | every expression appends exactly its tokens and binds exactly its parameters in left-to-right order; an identifier binds nothing, a value exactly one |
| QbExpr.BuildInfix | api/store/querybuilder/expr.go:82-88 | writes left, " op ", right; the right operand's placeholders continue after the left's |
| QbExpr.WriteOp | api/store/querybuilder/expr.go:84-86 | the operator is written with one space on each side and binds nothing |
| QbExpr.ExprNumbered | api/store/querybuilder/expr.go:65-112 | an expression's placeholders are numbered consecutively after the parameters already bound, one per parameter it binds |
| QbExpr.AppendKeepsNumbering | api/store/querybuilder/expr.go:82-112 | building an expression into a well-numbered builder leaves it well numbered |
| QbExpr.ListText | api/store/querybuilder/expr.go:65-74 | the list renders as `$n+1, ..., $n+k` |
| QbExpr.ComparisonText | api/store/querybuilder/expr.go:82-100 | `name op value` renders as `name op $n+1` and binds the one value |
| QbExpr.EqualAndLessThanText | api/store/querybuilder/expr.go:25-33 | `Equal` and `LessThan` render `x = $k` and `x < $k` and bind their value |
| QbExpr.AndText | api/store/querybuilder/expr.go:45-48 | `And` renders left, " AND ", right, with the right operand numbered after the left |
| QbExpr.InText | api/store/querybuilder/expr.go:20-23 | `In` binds every string and renders `x IN ($n+1, ...)`; an empty slice renders `x IN ()` |
| QbExpr.IsNullText | api/store/querybuilder/select_test.go:40 | `x IS NULL` renders that text and binds nothing |
| QbInsert.WriteNames | api/store/querybuilder/insert.go:32-37 | writes the names raw, separated by ", ", binding nothing |
| QbInsert.BuildValues | api/store/querybuilder/insert.go:57-66 | writes "VALUES(" and binds each value in order, then ")" |
| QbInsert.BuildReturning | api/store/querybuilder/insert.go:72-81 | writes "RETURNING " and the names raw, binding nothing |
| QbInsert.BuildOptionalReturning | api/store/querybuilder/insert.go:45-48 | a RETURNING clause, when set, is preceded by one space |
| QbInsert.InsertStmt.constructor | api/store/querybuilder/insert.go:4-6 | a new statement has its table and columns and no VALUES or RETURNING clause |
| QbInsert.InsertStmt.Values | api/store/querybuilder/insert.go:17-20 | sets the VALUES clause, replacing any earlier one, and nothing else |
| QbInsert.InsertStmt.Returning | api/store/querybuilder/insert.go:23-26 | sets the RETURNING clause, replacing any earlier one, and nothing else |
| QbInsert.InsertStmt.Build | api/store/querybuilder/insert.go:29-51 | returns the rendered statement and the VALUES as parameters, placeholders numbered `$1..$k` for the k values |
| QbInsert.NamesText | api/store/querybuilder/insert.go:32-37 | the column list renders as the names joined by ", " with no placeholder |
| QbInsert.ValuesText | api/store/querybuilder/insert.go:57-66 | VALUES renders `VALUES($n+1, ..., $n+k)` with consecutive numbering |
| QbInsert.ReturningText | api/store/querybuilder/insert.go:72-81 | RETURNING renders the names joined by ", " and binds nothing |
| QbInsert.InsertNumbered | api/store/querybuilder/insert.go:29-51 | an INSERT's placeholders are `$1..$k` for its k values |
| QbInsert.InsertText | api/store/querybuilder/insert.go:29-51 | the statement text is `INSERT INTO t(c1, c2)`, then ` VALUES(...)` when set, then ` RETURNING ...` when set |
| QbSelect.NewColumns | api/store/querybuilder/select.go:82-92 | an `Expr` column is kept as it is and any other column becomes a bound value, one per column, in order |
| QbSelect.BuildColumns | api/store/querybuilder/select.go:96-103 | writes the columns separated by ", ", binding each column's parameters in order |
| QbSelect.BuildColumn | api/store/querybuilder/select.go:97-102 | one column: the separator after the first, then the expression numbered after the parameters already bound |
| QbSelect.BuildRawClause | api/store/querybuilder/select.go:105-133 | FROM and ORDER BY are written raw after one space and bind nothing |
| QbSelect.BuildBoundClause | api/store/querybuilder/select.go:135-153 | LIMIT and OFFSET write their keyword and bind their number |
| QbSelect.BuildWhere | api/store/querybuilder/select.go:115-123 | WHERE writes its keyword and builds its expression |
| QbSelect.Select.constructor | api/store/querybuilder/select.go:3-6 | a new SELECT has its columns (as `newColumns` makes them) and no other clause |
| QbSelect.Select.From | api/store/querybuilder/select.go:19-22 | sets the FROM clause, replacing any earlier one, nothing else |
| QbSelect.Select.Where | api/store/querybuilder/select.go:25-28 | sets the WHERE clause, replacing any earlier one, nothing else |
| QbSelect.Select.OrderBy | api/store/querybuilder/select.go:31-34 | sets the ORDER BY clause, replacing any earlier one, nothing else |
| QbSelect.Select.Limit | api/store/querybuilder/select.go:37-40 | sets the LIMIT, replacing any earlier one, nothing else |
| QbSelect.Select.Offset | api/store/querybuilder/select.go:43-46 | sets the OFFSET, replacing any earlier one, nothing else |
| QbSelect.Select.Build | api/store/querybuilder/select.go:49-80 | returns the rendered statement and its parameters, with placeholder `$i` referring to the i-th parameter |
| QbSelect.ColumnsNumbered | api/store/querybuilder/select.go:96-103 | the column list's placeholders continue the numbering, one per bound column parameter |
| QbSelect.WhereNumbered | api/store/querybuilder/select.go:119-123 | the WHERE clause's placeholders continue the numbering |
| QbSelect.SelectNumbered | api/store/querybuilder/select.go:49-80 | a SELECT's placeholders are `$1..$n`, one per parameter, in binding order |
| QbSelect.SelectText | api/store/querybuilder/select.go:49-80 | the text is "SELECT " and the columns, then FROM, WHERE, ORDER BY, LIMIT and OFFSET when set, each after one space; LIMIT and OFFSET are numbered after the columns and the WHERE |
| QbSelect.ValueColumnsText | api/store/querybuilder/select.go:82-92 | columns passed as plain strings are each bound, so the column list renders as placeholders |
| QbUpdate.NewSet | api/store/querybuilder/update.go:56-66 | the SET map keeps its keys; an `Expr` value is kept and any other value becomes a bound value |
| QbUpdate.BuildSet | api/store/querybuilder/update.go:70-83 | writes "SET " and each key of the map exactly once, in the order the map is ranged over, as `k = expr` with ", " between entries, binding each entry's parameters in that order |
| QbUpdate.BuildNextEntry | api/store/querybuilder/update.go:73-82 | one iteration: the comma only after the first entry, then the entry numbered after what is already bound |
| QbUpdate.BuildEntry | api/store/querybuilder/update.go:74-79 | one entry writes `k = ` and builds its expression |
| QbUpdate.Update.constructor | api/store/querybuilder/update.go:4-6 | a new UPDATE has its table and no clause |
| QbUpdate.Update.Set | api/store/querybuilder/update.go:39-42 | sets the SET entries (as `newSet` makes them), replacing any earlier ones, nothing else |
| QbUpdate.Update.Where | api/store/querybuilder/update.go:45-48 | sets the WHERE clause, replacing any earlier one, nothing else |
| QbUpdate.Update.Returning | api/store/querybuilder/update.go:51-54 | sets the RETURNING clause, replacing any earlier one, nothing else |
| QbUpdate.Update.Build | api/store/querybuilder/update.go:17-36 | for some order of the map's keys, each once: the rendered statement and its parameters with `$1..$n` numbered in binding order; a missing SET clause dereferences nil (a precondition) |
| QbUpdate.EntriesNumbered | api/store/querybuilder/update.go:70-83 | the SET entries' placeholders are numbered consecutively in the order written |
| QbUpdate.StatementNumbered | api/store/querybuilder/update.go:17-36 | an UPDATE's placeholders are `$1..$n`: first the SET entries in the order written, then the WHERE clause |
| QbUpdate.EntriesText | api/store/querybuilder/update.go:70-83 | the SET entries render as their `k = expr` texts joined by ", " |
| QbUpdate.StatementText | api/store/querybuilder/update.go:17-36 | the text is "UPDATE table SET ...", then " WHERE ..." and " RETURNING ..." when set, in that order |
| QbUpdate.SingleKeyOrder | api/store/querybuilder/update.go:73 | a map with one key is ranged over in the only possible order |
| QbUpdate.DistinctBound | api/store/querybuilder/update.go:73 | the keys ranged over, each once, are no more than the map's keys |
| QbUpdate.SingleValueUpdate | api/store/querybuilder/update_test.go:15-17 | a one-entry SET of a plain value renders `UPDATE table SET foo = $1` with the value as the only parameter, whatever the map order |
| UrlModel.ShouldRetry | api/model/model.go:26-37 | a url is retried exactly when its error text is "exit status 1" and one of the patterns matches its log lines joined by "\n" |
| UrlModel.NullErrorNotRetried | api/model/model.go:27-29 | a NULL error (empty string) is never retried |
| UrlModel.EachPatternRetryable | api/model/model.go:31-43 | each of the three patterns on its own makes an "exit status 1" failure retryable |
| UrlTables.Find | api/store/store.go:78-83 | the row a QueryRow scans is the first row satisfying the WHERE condition, or none when no row does |
| UrlTables.FoundIsOnly | api/store/store.go:69-84 | with serial ids, the row found by id is the only row with that id |
| UrlTables.InsertUrlFound | api/store/store.go:24-30 | the inserted url is pending with the given url and retries, a fresh id above every existing one and no logs, GetURL finds it, and no other row changes |
| UrlTables.InsertUrl | api/store/store.go:24-30 | the INSERT of CreateURL; by InsertUrlFound, a pending row with the given url and retries, a fresh id above every existing one and no logs, that GetURL finds, and no other row changed |
| UrlTables.Lock | api/store/store.go:33-43 | the UPDATE succeeds exactly when a row with the id is pending, setting only its status; otherwise ErrNoRows |
| UrlTables.Unlock | api/store/store.go:46-56 | the UPDATE succeeds exactly when a row with the id is processing, setting its status, file and error; otherwise ErrNoRows |
| UrlTables.FinalStatusKept | api/store/store.go:33-56 | a row that is neither pending nor processing keeps its status under LockURL and UnlockURL |
| UrlTables.LockExclusive | api/store/store.go:36-39 | once locked, a second LockURL of the same id gets ErrNoRows, whatever status it asks for |
| UrlTables.Lifecycle | api/store/store.go:33-56 | pending, locked as processing, then unlocked as success or failure: the row ends with that status and can be neither locked nor unlocked again |
| UrlTables.StatusKept | api/store/store.go:33-56 | an UPDATE that leaves a row and every id alone leaves that row's status |
| UrlTables.TablesIdsKept | api/store/store.go:33-95 | an UPDATE that keeps every id keeps the ids ascending and unique |
| UrlTables.AppendLogAppends | api/store/store.go:59-66 | AppendLog puts the line at the end of that row's logs; every other row and every other column is unchanged; a missing id changes nothing and is no error |
| UrlTables.DeleteHides | api/store/store.go:87-95 | DeleteURL removes no row and sets only deleted_at, after which GetURL no longer finds the row |
| UrlTables.UpdateById | api/store/store.go:59-95 | an UPDATE ... WHERE id = $ of AppendLog and DeleteURL; by AppendLogAppends and DeleteHides, it rewrites only the row with that id, and a missing id changes nothing and is no error |
| UrlTables.GetUrl | api/store/store.go:69-84 | GetURL finds the row with the id only when it is not deleted, else ErrNoRows |
| UrlTables.ListLogs | api/store/store.go:140-164 | the log lines after the first `cursor`; a negative offset is an error; an unknown id gives no lines; a deleted row's lines are still listed |
| UrlTables.LogsResume | api/store/store.go:140-164 | resuming at `cursor + len(page)` after one AppendLog yields exactly the appended line |
| UrlTables.FindVideo | api/store/store.go:177-190 | the video found is one with that youtube id; none when no video has it |
| UrlTables.InsertVideo | api/store/store.go:167-174 | inserting a youtube id already present fails (unique column); otherwise the new video is appended and nothing else changes |
| UrlTables.GetVideo | api/store/store.go:177-190 | finds the video with the youtube id, else ErrNoRows |
| UrlTables.InsertVideoFound | api/store/store.go:167-190 | a created video is then found by its youtube id |
| UrlListing.NewestListed | api/store/store.go:119-137 | the rows the list query selects, scanned from the newest, never more than the table holds |
| UrlListing.NewestListedMembers | api/store/store.go:124-134 | every listed url is the url of a row that passes the filter |
| UrlListing.NewestListedDecreasing | api/store/store.go:136 | listed urls come out in strictly decreasing id order (ORDER BY id desc) |
| UrlListing.NewestListedIds | api/store/store.go:119-137 | the listed ids lie in any range that holds every id of the table |
| UrlListing.NewestListedAgree | api/store/store.go:124-134 | two filters that agree on every row list the same urls |
| UrlListing.CursorAtLast | api/store/store.go:130-134 | with the newest listed row's id as cursor, the listing is that of the older rows |
| UrlListing.CursorBelowLast | api/store/store.go:130-134 | a non-zero cursor at or below the newest row's id excludes that row |
| UrlListing.NextPageContinues | api/store/store.go:130-136 | keyset pagination: with the id of the k-th listed url as cursor the listing continues at the (k+1)-th; nothing is skipped or repeated |
| UrlListing.ListUrlsPage | api/store/store.go:98-117 | a page holds at most `limit` listed urls of the table in decreasing id order, and a short page is the whole remaining listing |
| UrlListing.ListUrlsNextPage | api/store/store.go:98-137 | the page asked for with the last id of a full page as cursor continues the listing |
| UrlListing.ListUrls | api/store/store.go:98-139 | the rows the listing statement answers; by ListUrlsPage and ListUrlsNextPage, at most `limit` filtered urls in decreasing id order, a short page being the whole remainder, and the next cursor continuing the listing; a negative limit and an empty status slice are the database's errors |
| UrlListing.BuildListUrls | api/store/store.go:119-137 | buildListURLs returns the rendered list statement and its parameters, placeholders numbered `$1..$n` in binding order |
| UrlListing.StatusWhereText | api/store/store.go:124-129 | `deleted_at IS NULL`, joined by ` AND status IN (...)` only for a non-nil Status |
| UrlListing.ListWhereText | api/store/store.go:124-134 | the WHERE text: `deleted_at IS NULL`, then the status filter when Status is not nil, then `id < $k` when the cursor is not 0; the parameters follow that order |
| UrlListing.ColumnsPart | api/store/store.go:120-122 | the 8 column names, passed as plain strings, are bound as `$1..$8` |
| UrlListing.ListSelectText | api/store/store.go:119-137 | the whole list statement: the bound column names, FROM urls, the WHERE above, ORDER BY id desc and LIMIT bound last |
| UrlListing.ListParamsOrder | api/store/store.go:119-137 | the parameters: the column names, the statuses, the cursor when not 0, the limit last |
| UrlStore.CommitErrorSwallowed | api/store/transaction.go:25-32 | as written, a body that succeeds followed by a failed commit and a successful rollback returns nil, although nothing was kept |
| UrlStore.NilIffCommitted | api/store/transaction.go:17-32 | with the commit's error kept, the transaction returns nil exactly when its changes were kept, and a body error is returned unless the rollback fails |
| UrlStore.Store.constructor | api/store/store.go:14-16 | a new store over empty tables, outside any transaction |
| UrlStore.Store.CreateURL | api/store/store.go:24-30 | inserts a new pending row and returns the url with id, timestamps and status filled in; a failing statement returns its error and changes nothing |
| UrlStore.Store.LockURL | api/store/store.go:33-43 | the row is locked as described by `UrlTables.Lock`; a missing or non-pending row is ErrNoRows; a failing statement changes nothing |
| UrlStore.Store.UnlockURL | api/store/store.go:46-56 | the row is unlocked as described by `UrlTables.Unlock`; a missing or non-processing row is ErrNoRows |
| UrlStore.Store.AppendLog | api/store/store.go:59-66 | appends the line to the row's logs; an Exec, so a missing url is no error |
| UrlStore.Store.DeleteURL | api/store/store.go:87-95 | sets deleted_at only; a missing url is no error |
| UrlStore.Store.SetOEmbed | api/manager/worker.go:92 | stores the oEmbed document on the row with the id, nothing else |
| UrlStore.Store.GetURL | api/store/store.go:69-84 | returns what `UrlTables.GetUrl` finds, or the statement's error |
| UrlStore.Store.ListURLs | api/store/store.go:98-117 | the scan loop collects exactly the page `UrlListing.ListUrls` describes, or the statement's error |
| UrlStore.Store.ListLogs | api/store/store.go:140-164 | the scan loop collects exactly the lines `UrlTables.ListLogs` describes |
| UrlStore.Store.CreateYoutubeVideo | api/store/store.go:167-174 | inserts the video (a duplicate youtube id fails) and returns it with its id |
| UrlStore.Store.GetYoutubeVideoByYoutubeID | api/store/store.go:177-190 | returns the video with that youtube id, or ErrNoRows |
| UrlStore.Store.BeginTx | api/store/transaction.go:12-15 | opens a transaction remembering the tables, or returns the error and opens nothing |
| UrlStore.Store.Rollback | api/store/transaction.go:18-21 | discards the transaction's changes (serial sequences excepted), also when the statement reports an error |
| UrlStore.Store.Commit | api/store/transaction.go:25 | keeps the changes, or fails and the server discards them |
| UrlStore.Store.EndTransactionAsWritten | api/store/transaction.go:17-32 | as written: a body error rolls back and is returned unless the rollback fails; a failed commit rolls back and only a rollback error is returned |
| UrlStore.Store.EndTransaction | api/store/transaction.go:17-32 | the same, with a failed commit's error returned when the rollback after it succeeds |
| LegacyStore.ListUrlsStatement | store/store.go:64-76 | without a cursor only the limit is bound; with one the cursor is `$1` and the limit `$2`; the text selects the url columns and ends with the ordering and the limit's placeholder |
| LegacyStore.BelowCursor | store/store.go:70-76 | every row, newest first, when the cursor is 0, else the rows with an id below the cursor |
| LegacyStore.ListPage | store/store.go:64-95 | a negative limit is refused; otherwise at most `limit` urls |
| LegacyStore.BelowCursorIsListed | store/store.go:70-76 | on a table with no soft-deleted row the legacy selection is the api generation's listing with no status filter |
| LegacyStore.SameAsApiListing | store/store.go:64-95 | on such a table both generations return the same page, so the keyset pagination lemmas carry over |
| LegacyStore.WindowIsSlice | store/store.go:98-101 | binding `cursor + 1` and `cursor + limit` as 1-based inclusive bounds yields the `limit` lines after the first `cursor`, cut at the end of the array |
| LegacyStore.WindowsTile | store/store.go:98-101 | reading `l1` lines and then `l2` more from where the first page ended reads exactly one page of `l1 + l2` |
| LegacyStore.LogsPage | store/store.go:98-119 | the window of the row with that id, at most `limit` lines; an unknown id gives no lines |
| LegacyStore.GetAnyUrl | store/store.go:49-61 | GetURL finds the row with the id whether or not it is deleted, else ErrNoRows |
| LegacyStore.GetUrlAgrees | store/store.go:49-61 | a live row reads the same in both generations |
| LegacyStore.InsertVideoOnConflict | store/store.go:122-126 | a known youtube id inserts nothing and returns no row, which the scan reports as ErrNoRows; otherwise the video is inserted |
| LegacyStore.Store.constructor | store/store.go:11-13 | a new store over empty tables |
| LegacyStore.Store.CreateURL | store/store.go:21-25 | inserts a new pending row and fills in id, timestamps and status |
| LegacyStore.Store.LockURL | store/store.go:28-32 | only a pending row is locked; otherwise ErrNoRows and nothing changes |
| LegacyStore.Store.UnlockURL | store/store.go:35-39 | only a processing row is unlocked; otherwise ErrNoRows and nothing changes |
| LegacyStore.Store.CreateLog | store/store.go:42-46 | the line is appended, yet the statement returns no row, so the call reports ErrNoRows even then |
| LegacyStore.Store.GetURL | store/store.go:49-61 | returns `GetAnyUrl`'s row, or the statement's error |
| LegacyStore.Store.ListURLs | store/store.go:64-95 | the scan loop collects exactly `ListPage`, or the statement's error |
| LegacyStore.Store.ListLogs | store/store.go:98-119 | the scan loop collects exactly the window `LogsPage` describes |
| LegacyStore.Store.CreateYoutubeVideo | store/store.go:122-126 | inserts the video, or reports ErrNoRows and changes nothing for a known youtube id |
| Resource.NewURL | api/resource/resource.go:32-47 | id, url, timestamps and status are copied unchanged; `error` is the model's error only when it is valid, else ""; `file` is the media URL followed by the file name only when it is valid, else "" |
| Resource.NewURLs | api/resource/resource.go:56-67 | one resource per url, in order; no urls gives a nil list and next cursor 0; otherwise the next cursor is the last url's id |
| Resource.NewLogs | api/resource/resource.go:87-95 | the lines in order, nil for none, and next cursor `cursor + len(logs)` |
| Resource.NextCursorContinues | api/resource/resource.go:62-65 | asking again with the next cursor of a non-empty page lists from the row after the page's last one |
| Resource.NextLogCursorResumes | api/resource/resource.go:93 | following the logs' next cursor returns nothing new until a line is appended, then exactly that line |
| RedisLists.RemoveFirst | api/broker/broker.go:50 | `LREM key 1 value` removes one occurrence of the value when there is one and leaves the list alone otherwise |
| RedisLists.QueueNamesDistinct | api/broker/broker.go:39-71 | a queue, its `:tmp` list and its `:failed` list are three different keys |
| RedisLists.Redis.LPush | api/broker/broker.go:19 | LPUSH puts the value at the head of the list and changes no other key; a failing command changes nothing |
| RedisLists.Redis.BRPopLPush | api/broker/broker.go:20 | the tail of the source moves to the head of the destination; an empty source answers nil and changes nothing |
| RedisLists.Redis.LRem | api/broker/broker.go:21 | removes the first occurrence from the head |
| RedisLists.Redis.RPop | api/broker/broker.go:22 | takes the tail, or answers nil for an empty list |
| RedisLists.PushPopFifo | api/broker/broker.go:33-40 | LPUSH with a tail pop is first in, first out: a value pushed now comes out after everything already queued, which keeps its order |
| RedisLists.PushThenRemove | api/broker/broker.go:40-53 | the head push of BRPOPLPUSH is undone by `LREM 1` of the same value |
| ApiBroker.HandlerError | api/broker/broker.go:59-63 | a handler panic becomes an error carrying the panic's text; a return keeps the handler's error |
| ApiBroker.ReceiveEffect | api/broker/broker.go:37-79 | after a receive, the payload has left the queue's tail, is back out of `:tmp` unless that LREM failed, and is at the head of `:failed` exactly when pushed there; no other list changes |
| ApiBroker.AfterReceive | api/broker/broker.go:37-79 | the lists after a receive that took a payload; by ReceiveEffect, the payload leaves the tail of the queue, passes through `:tmp` and reaches the head of `:failed` exactly when pushed there, and no other list changes |
| ApiBroker.UnfailedUndoesFailure | api/service/retrier.go:82 | removing a payload that a failed receive has just pushed onto `:failed` gives that list and `:tmp` back as they were before the receive |
| ApiBroker.Broker.Send | api/broker/broker.go:32-34 | LPUSHes the payload onto the queue's head |
| ApiBroker.Broker.Receive | api/broker/broker.go:37-79 | an empty pop returns nil without calling the handler; a pop error is returned; otherwise nil, with the payload moved through `:tmp`, removed from it once, and pushed once to `:failed` exactly when the handler fails or panics and that push succeeds |
| ApiBroker.Broker.PopNextFailed | api/broker/broker.go:85-87 | takes the tail of `:failed`, so the oldest failure comes first |
| ApiBroker.Broker.RemFailed | api/service/retrier.go:24 | LREM of one occurrence of the payload from the queue's failed list; a failed command changes nothing and is returned |
| ApiBroker.Broker.constructor | api/broker/broker.go:13-15 | a broker over the given Redis client |
| LegacyBroker.Broker.constructor | broker/broker.go:22-24 | a broker over the given Redis client |
| LegacyBroker.Broker.Send | broker/broker.go:31-33 | LPUSHes the payload onto the queue's head |
| LegacyBroker.Broker.Receive | broker/broker.go:35-67 | an empty pop returns nil; otherwise the payload moves through `:tmp` and is removed from it on every way out, a handler panic included; a handler error pushes it to `:failed` and returns that push's error; a panic is not recovered and pushes nothing |
| LegacyBroker.Broker.PopLastFailed | broker/broker.go:69-71 | takes the tail of `:failed`, or answers nil |
| ManagerServer.RetriesColumn | api/manager/server.go:42-45 | the retries column is non-NULL exactly when the payload asks for a non-zero count |
| ManagerServer.RetriesRoundTrip | api/manager/server.go:42-45 | reading the column back gives the payload's retry count again |
| ManagerServer.Server.constructor | api/manager/server.go:36-38 | a manager over the given broker and store |
| ManagerServer.Server.CreateURL | api/manager/server.go:41-62 | a failed insert is returned and nothing is sent; otherwise the new row's event is LPUSHed to download-url then get-oembed, a failed send is ignored and the row is returned |
| ManagerServer.Server.GetURL | api/manager/server.go:65-67 | the store's answer, or its error |
| ManagerServer.Server.DeleteURL | api/manager/server.go:70-72 | the store's deletion, or its error with the tables unchanged |
| ManagerServer.Server.ListURLs | api/manager/server.go:75-77 | the store's page of urls, or its error |
| ManagerServer.Server.ListLogs | api/manager/server.go:80-82 | the store's page of log lines, or its error |
| ManagerServer.CreatedIsAnnounced | api/manager/server.go:41-61 | the announced id names a row GetURL finds, pending, with the payload's url and retries |
| ManagerWorker.DownloadError | api/manager/worker.go:54-58 | perr is nil exactly when the download returned a file; a panic becomes an error |
| ManagerWorker.Finished | api/manager/worker.go:59-65 | the unlocked row: success with the file when the download worked, failure with the error otherwise |
| ManagerWorker.DownloadCompletion | api/manager/worker.go:76-82 | DownloadURL panics again exactly when the download panicked, and otherwise returns the download's error |
| ManagerWorker.Worker.constructor | api/manager/worker.go:39-41 | a worker over the given store |
| ManagerWorker.Worker.DownloadURL | api/manager/worker.go:44-83 | a failed lock is returned and nothing else happens; once locked, the row is unlocked with its outcome whatever the download did, an unlock error is ignored, and the download's completion is the result |
| ManagerWorker.Worker.GetOEmbed | api/manager/worker.go:86-93 | a failed fetch is returned and nothing is stored; otherwise the oembed data is stored and SetOEmbed's error returned |
| ManagerWorker.DownloadSettles | api/manager/worker.go:44-83 | a pending url that is taken ends as success or failure as the download went, panic included, and can never be locked again |
| ManagerWorker.OutcomeSettles | api/manager/worker.go:54-79 | for any one outcome of the download, the deferred unlock leaves the row success or failure accordingly |
| ManagerWorker.NotPendingNotTaken | api/manager/worker.go:45-48 | a url that is not pending is not locked: the lock answers ErrNoRows |
| DownloadEvents.LogLines | api/processor/processor.go:46-51 | the stored lines are the stream's log lines, no more of them than events |
| DownloadEvents.FoldErrorNone | api/processor/processor.go:46-57 | the loop ends without an error exactly when no failure event was streamed |
| DownloadEvents.FoldErrorIsLastFailure | api/processor/processor.go:52-53 | the error is that of the last failure event |
| DownloadEvents.FoldPathEmpty | api/processor/processor.go:41-44 | without a success event the path stays empty |
| DownloadEvents.FoldPathIsLastSuccess | api/processor/processor.go:54-55 | the path is that of the last success event |
| DownloadEvents.LogLinesAppend | api/processor/processor.go:46-51 | log lines of a stream split in two are the lines of each part, in order |
| Processor.AppendAllAppends | api/processor/processor.go:49 | appending lines one by one adds them all, in order, to that url's logs and changes no other row |
| Processor.AppendAllSnoc | api/processor/processor.go:49 | one more line is one more AppendLog on the tables reached so far |
| Processor.Outcome | api/processor/processor.go:59-67 | a streamed error is returned unsaved; otherwise Save's error, or the base name of the saved file |
| Processor.Processor.constructor | api/processor/processor.go:35-37 | a processor over the given store |
| Processor.Processor.Process | api/processor/processor.go:40-68 | the stream is drained; every log line is appended in order (failed appends ignored); the result is the Outcome of the folded stream |
| Processor.FailureNotSaved | api/processor/processor.go:52-61 | any failure in the stream makes Process return the last failure's error |
| Processor.SuccessSaved | api/processor/processor.go:54-67 | a stream without failure saves the last success's path and returns Save's error or the base name |
| LegacyWorker.ProcessedOf | manager/worker.go:69-97 | processURL panics exactly when the downloader panics; otherwise it ends with the streamed error, Upload's error or the uploaded base name |
| LegacyWorker.AsDownload | manager/worker.go:54-66 | the row ends as success exactly when processURL returned a file |
| LegacyWorker.Worker.constructor | manager/worker.go:39-41 | a worker over the given store |
| LegacyWorker.Worker.ProcessDownload | manager/worker.go:69-97 | the stream's log lines are stored in order (a CreateLog error ignored) and the result is ProcessedOf the stream |
| LegacyWorker.Worker.ProcessURLAsWritten | manager/worker.go:44-67 | a failed lock is returned with nothing changed; once locked, a failure is unlocked as failure with its text and returned, a success unlocked as success and UnlockURL's error returned, and a downloader panic escapes with the row left processing |
| LegacyWorker.Worker.ProcessURL | manager/worker.go:44-67 | as above, except that a panic is recorded as a failure carrying its text, the row unlocked, and the panic raised again |
| LegacyWorker.PanicStrandsUrl | manager/worker.go:47-54 | as written, a pending url whose download panics stays processing and no lock takes it again |
| LegacyWorker.PanicSettles | manager/worker.go:54-61 | with the recover, the same url ends as a failure carrying the panic's text |
| Retrier.RetryPayload | api/service/retrier.go:94-98 | the retry asks for the failed url's address with one more retry |
| Retrier.Decide | api/service/retrier.go:52-69 | the decision on a popped event; by RetriedOnlyIfRetryable, RetryableIsRetried and CapStopsRetries, the url the event names is retried exactly when its lookup succeeds, its failure is worth retrying and its count is below 5 |
| Retrier.Retrier.constructor | api/service/retrier.go:38-40 | a retrier over the given broker, manager and store |
| Retrier.Retrier.RetryURL | api/service/retrier.go:94-100 | the manager's CreateURL on RetryPayload: a failed insert changes nothing, otherwise a new row is inserted and announced on both queues |
| Retrier.Retrier.RetryNextDownloadURL | api/service/retrier.go:43-71 | an empty failed list is not an error and a failed RPOP is returned; the popped event is lost whatever happens next; an undecodable event or failed lookup is returned, a url not worth retrying or at the cap is skipped, otherwise it is created again |
| Retrier.Retrier.RetryDownloadURL | api/service/retrier.go:74-92 | the event naming the url is removed from `download-url:failed` first; a removal error other than redis.Nil is returned with nothing else changed; otherwise the url is looked up and created again whatever its failure and count, the removal having taken effect |
| Retrier.RetriedOnlyIfRetryable | api/service/retrier.go:52-69 | a retried url is the one the event names, its failure is worth retrying and its count is below 5, so the new count is at most 5 |
| Retrier.RetryableIsRetried | api/service/retrier.go:56-69 | conversely, such a url is retried once the lookup succeeds |
| Retrier.CapStopsRetries | api/service/retrier.go:65-67 | a url retried 5 times is not retried again |
| Retrier.RetryCountsOneMore | api/service/retrier.go:94-99 | the retry is a new pending row for the same address, with a non-NULL count one higher, that GetURL reads back |
| LegacyManager.RetryUrl | manager/manager.go:172-175 | the retried url keeps the last url's address, with a valid count one higher |
| LegacyManager.Manager.constructor | manager/manager.go:33-41 | a manager over the given broker and store |
| LegacyManager.Manager.CreateAndSend | manager/manager.go:57-68 | a store error is returned before anything is sent; otherwise the new row's id is LPUSHed to url-created and the push's error returned |
| LegacyManager.Manager.CreateURL | manager/manager.go:51-55 | createURL on a url holding only the payload's address; the url is returned with the error |
| LegacyManager.Manager.CreateURLsFromYoutube | manager/manager.go:70-92 | a failed playlist fetch is returned untouched; otherwise the videos are imported in order, a known video is skipped, the first other error stops the loop |
| LegacyManager.Manager.RetryLastFailed | manager/manager.go:147-177 | an empty failed list is not an error; the popped event is lost whatever the decision; a url retried 5 times is left; otherwise it is created again with one more retry, whatever its status |
| LegacyManager.Manager.ListURLs | manager/manager.go:179-181 | the store's page of urls, or its error |
| LegacyManager.Manager.ListLogs | manager/manager.go:183-185 | the store's page of log lines, or its error |
| LegacyManager.CreatedThenSent | manager/manager.go:57-68 | the event names a stored pending row for the same address; the send succeeds exactly when the LPUSH does, and then the id heads url-created |
| LegacyManager.StoreErrorSendsNothing | manager/manager.go:58-60 | a store error changes neither the tables nor the lists |
| LegacyManager.ImportKeepsVideos | manager/manager.go:76-89 | the import only adds videos: the known ones stay, in order |
| LegacyManager.ImportRecordsAll | manager/manager.go:76-91 | without store or queue failures the import succeeds and every video of the playlist is recorded |
| LegacyManager.KnownVideosSkipped | manager/manager.go:79-80 | a playlist whose videos are all known changes nothing and succeeds, so a second import creates no url |
| LegacyManager.ImportFrom | manager/manager.go:76-91 | the import loop; by ImportKeepsVideos, ImportRecordsAll and KnownVideosSkipped, it only adds videos, records every video of the playlist when nothing fails, and re-importing is a no-op |
| LegacyManager.RetryCapped | manager/manager.go:160-176 | a retried url had fewer than 5 retries and its retry counts one more (so at most 5); once found, it is retried exactly when under the cap |
| LegacyManager.Decide | manager/manager.go:147-176 | the decision on a popped event; by RetryCapped, a url is retried exactly when found with fewer than 5 retries, whatever its status |
| LegacyRetrier.Retrier.constructor | service/retrier.go:36-38 | a retrier over the given broker, manager and store |
| LegacyRetrier.Retrier.RetryNext | service/retrier.go:41-74 | an empty failed list is not an error and a failed pop is returned; the popped event is lost whatever follows; a url retried 5 times is left; otherwise the manager creates its address again and its error is returned |
| LegacyRetrier.RetryCountLost | service/retrier.go:66-70 | the manager keeps only the address, so the recreated url has a NULL count and is retried again as if fresh: the cap of 5 never ends the chain |
| PlaylistLoader.Loader.constructor | api/service/playlist-loader.go:38-40 | a loader over the given manager and store |
| PlaylistLoader.Loader.GetOrCreateYoutubeVideo | api/service/playlist-loader.go:60-83 | a known video is returned; a lookup error other than ErrNoRows is returned; otherwise the video row and its watch-page url are created in one transaction, rolled back on any error |
| PlaylistLoader.Loader.CreateURLsFromYoutube | api/service/playlist-loader.go:43-58 | a failed playlist fetch is returned untouched; otherwise the videos are got or created in playlist order and the first error stops the loop |
| PlaylistLoader.KnownVideoReturned | api/service/playlist-loader.go:61-63 | a known video is returned as it is and nothing changes |
| PlaylistLoader.BodyEffect | api/service/playlist-loader.go:69-78 | the transaction's body adds the video and one pending url for its watch page, or fails; the tables stay valid |
| PlaylistLoader.RollBackValid | api/store/transaction.go:17-22 | a rollback restores the rows and videos of BEGIN, which stay valid |
| PlaylistLoader.BothOrNeither | api/service/playlist-loader.go:60-83 | the video row and its watch-page url are created together or not at all; an error leaves both tables as they were |
| PlaylistLoader.GetOrCreateKeepsVideos | api/service/playlist-loader.go:60-83 | the tables stay valid, known videos stay in order, and a success leaves the id recorded |
| PlaylistLoader.EventOutlivesRollback | api/service/playlist-loader.go:69-81 | redis is outside the transaction: after a failed commit the url's row is gone but its event stays on download-url, naming an id no row has |
| PlaylistLoader.LoadKeepsVideos | api/service/playlist-loader.go:49-55 | the loader only adds videos: those already known stay, in order |
| PlaylistLoader.LoadRecordsAll | api/service/playlist-loader.go:49-57 | a load that returns nil has recorded every video of the playlist |
| PlaylistLoader.SwallowedCommitLosesVideo | api/service/playlist-loader.go:69-82 | over the transaction helper as written, a new video whose COMMIT fails and whose ROLLBACK succeeds is returned with no error, yet GetYoutubeVideoByYoutubeID no longer finds it |
| StatusRecorder.Recorder.constructor | api/server/middleware/log.go:13 | the wrapper starts with no code recorded |
| StatusRecorder.Recorder.WriteHeader | api/server/middleware/log.go:40-46 | the call is always forwarded; only the first status is recorded, and a recorder in step with the response stays in step |
| StatusRecorder.Recorder.Write | api/server/middleware/log.go:33-38 | a write with no status recorded first records 200; the data is forwarded |
| StatusRecorder.Recorder.SetHeader | api/server/middleware/log.go:28-31 | header calls reach the wrapped writer unchanged |
| StatusRecorder.Log | api/server/middleware/log.go:11-26 | the handler's operations reach the client as written and the entry is "METHOD path" with the first status sent |
| StatusRecorder.LoggedIsSent | api/server/middleware/log.go:17 | the logged code is the status the client received, and 0 exactly when the handler sent nothing |
| StatusRecorder.LaterHeaderIgnored | api/server/middleware/log.go:42-44 | a later WriteHeader changes neither the recorded code nor the response's status |
| StatusRecorder.NextCode | api/server/middleware/log.go:33-46 | the recorded code after one call; by LoggedIsSent and LaterHeaderIgnored, the first status sent is kept and is the status the client received |
| Handler.HttpErrorText | api/server/handler/handler.go:38-43 | an httpError reads as its wrapped error's text, or else as the status text |
| Handler.ServeHTTP | api/server/handler/handler.go:7-24 | a response is written as JSON with its code and body; an httpError with its own code; any other error as 500 with its text |
| Handler.Served | api/server/handler/handler.go:7-24 | the client receives the outcome's status and body, and the handler sets a Content-Type, application/json, exactly for a response |
| Handler.ServeOps | api/server/handler/handler.go:7-24 | the calls serveHTTP makes on the writer; by Served, the client receives the outcome's status and body, and the handler sets the JSON Content-Type exactly for a response |
| Handler.ListURLs | api/server/handler/urls.go:36-58 | by ListURLsStatus, 400 exactly for an invalid query, 200 exactly when the manager and the encoder succeed, 500 otherwise |
| Handler.CreateURL | api/server/handler/urls.go:72-100 | by CreateRejectsBeforeManager and CreatedAnswers201, an undecodable or invalid payload is 400 before the manager is asked, and a created url is 201 with its encoded resource |
| Handler.DetailURL | api/server/handler/urls.go:114-136 | by DetailStatus and MissingUrlIsNotFound, 404 exactly for an id that is not an integer or a url the store does not find, 200 exactly when lookup and encoding succeed |
| Handler.DeleteURL | api/server/handler/urls.go:150-164 | by DeleteStatus, 204 with an empty body exactly when the deletion succeeds, 404 exactly for a non-integer id |
| Handler.RetryURL | api/server/handler/urls.go:178-199 | by RetryStatus, 201 exactly when the retrier and the encoder succeed, 404 exactly for a non-integer id |
| Handler.ListLogs | api/server/handler/logs.go:33-61 | by ListLogsHandsOffCursor, the id is checked before the query, and a page served from cursor c names c plus the lines served as the next cursor |
| Handler.ListURLsStatus | api/server/handler/urls.go:36-58 | 400 exactly for an invalid query, 200 exactly when the manager and the encoder succeed, 500 otherwise |
| Handler.CreateRejectsBeforeManager | api/server/handler/urls.go:72-86 | an undecodable or invalid payload is 400 whatever the manager would answer: it is never asked |
| Handler.CreatedAnswers201 | api/server/handler/urls.go:88-98 | a created url is answered 201 with the encoded resource of the url the manager returned |
| Handler.DetailStatus | api/server/handler/urls.go:114-136 | 404 exactly for an id that is not an integer or a url the store does not find; 200 exactly when lookup and encoding succeed |
| Handler.DeleteStatus | api/server/handler/urls.go:150-164 | 204 with an empty body exactly when the deletion succeeds; 404 exactly for a non-integer id |
| Handler.RetryStatus | api/server/handler/urls.go:178-199 | 201 exactly when the retrier and the encoder succeed; 404 exactly for a non-integer id |
| Handler.ListLogsHandsOffCursor | api/server/handler/logs.go:33-61 | the id is checked before the query (404, then 400); a page served from cursor c names c plus the lines served as the next cursor |
| Handler.MissingUrlIsNotFound | api/server/handler/urls.go:123-125 | the detail of a url the store does not hold, never created or soft-deleted, is 404 |
| Mux.ContextMatch | api/server/mux.go:69-72 | the stored submatches, or nil when none were stored |
| Mux.Mux.constructor | api/server/mux.go:15 | a router with no routes |
| Mux.Mux.HandleFunc | api/server/mux.go:24-29 | the route is appended after the others; a duplicate is not refused |
| Mux.Mux.ServeHTTP | api/server/mux.go:31-64 | the dispatch is Select on the routes in order; a rejection writes http.Error with the status text and a dispatched request writes nothing here |
| Mux.FirstServingRouteWins | api/server/mux.go:37-48 | a request goes to the first route whose pattern matches and whose method is the request's, with that route's submatches |
| Mux.UnservedIsRejected | api/server/mux.go:50-56 | a request no route serves is 405 when some pattern matched its path and 404 when none did |
| Mux.HandledOnlyByServingRoute | api/server/mux.go:37-48 | a dispatched handler belongs to a route that serves the request, and no earlier route serves it |
| Mux.LaterRouteShadowed | api/server/mux.go:24-29 | a route added after one that serves the request never runs |
| Mux.Select | api/server/mux.go:37-56 | the routing loop; by FirstServingRouteWins, UnservedIsRejected and HandledOnlyByServingRoute, the first route whose pattern and method match gets the request with its submatches, and otherwise 405 when some pattern matched and 404 when none did |
| LegacyApi.Get | server/api.go:160 | url.Values.Get: the first value, and "" for a missing key |
| LegacyApi.ParseQueryIsParsePage | server/api.go:158-183 | parseQuery is query.ParsePage with each error turned into a 400 httpError |
| LegacyApi.DefaultPage | query/query.go:11-30 | a query without limit and cursor, or with them empty, asks for 10 urls from cursor 0 |
| LegacyApi.ParsedPage | query/query.go:11-30 | a page is parsed exactly when every non-empty value parses, and then carries those values; the limit's error is reported first |
| LegacyApi.ParsePage | query/query.go:11-30 | by DefaultPage and ParsedPage, a page is parsed exactly when every non-empty value parses, defaulting to 10 urls from cursor 0; the limit's error comes first |
| LegacyApi.ParseQuery | server/api.go:158-183 | by ParseQueryIsParsePage, ParsePage with each error made a 400 httpError |
| LegacyApi.LogsRoute | server/api.go:72-83 | GET of /api/urls{...}/{id}/logs reaches listLogs with the id; another method is 405; an id that does not parse is 404 whatever the method; only the prefix /api/urls is checked |
| LegacyApi.UrlsRoute | server/api.go:56-70 | only the exact path /api/urls lists (GET) and creates (POST), other methods on it are 405, and a path outside the prefix is 404 |
| LegacyApi.Route | server/api.go:56-84 | the path router; by UrlsRoute and LogsRoute, only the exact /api/urls lists (GET) and creates (POST), a logs path needs an integer id (else 404) and GET (else 405), and anything outside the prefix is 404 |
| LegacyApi.BadQueryIs400 | server/api.go:86-94 | a bad query makes both list handlers answer 400 with the parse error, before the manager is asked |
| LegacyApi.ServeApi | server/api.go:56-84 | route, then handler; by BadQueryIs400 and RefusedAnswer, a bad query is 400 before the manager is asked and a refused request is answered with its status |
| LegacyApi.RefusedAnswer | server/api.go:20-54 | a refused request is answered with the refusal's status and its status text |
| Logfmt.Insert | api/log/logfmt/logfmt.go:15 | one step of the sort: the result starts with the new key or with the old head |
| Logfmt.InsertAscending | api/log/logfmt/logfmt.go:15 | inserting a new key into an ascending list keeps it ascending and adds exactly that key |
| Logfmt.OrderedUnique | api/log/logfmt/logfmt.go:11-15 | two ascending listings of the same keys are equal, so the map's iteration order does not reach the output |
| Logfmt.OrderedOnce | api/log/logfmt/logfmt.go:11-17 | an ascending listing of the keys names each key exactly once |
| Logfmt.Fields | api/log/logfmt/logfmt.go:16-24 | one field per key, in the keys' order, each `key=value` with the value quoted when needed |
| Logfmt.CollectKeys | api/log/logfmt/logfmt.go:11-14 | the range loop collects each key of the map exactly once |
| Logfmt.SortStrings | api/log/logfmt/logfmt.go:15 | sort.Strings: the same keys in ascending byte order |
| Logfmt.Marshal | api/log/logfmt/logfmt.go:10-26 | the error is always nil and the output is the fields of the keys in ascending order joined by spaces |
| Logfmt.EmptyMapIsEmpty | api/log/logfmt/logfmt.go:16-25 | the output is empty exactly for an empty map |
| Logfmt.NonEmptyJoin | api/log/logfmt/logfmt.go:25 | joining keeps a non-empty field's text, so the output is not empty |
| Logfmt.SingleEntry | api/log/logfmt/logfmt.go:10-26 | a map with one entry encodes to that entry's field alone |
| Logfmt.QuotedIffSpace | api/log/logfmt/logfmt.go:18-22 | a value is quoted with %q exactly when it contains a space |
| Ago.WordingLargest | common.go:62-88 | the if-chain names the largest unit whose count is at least one, as "1 unit ago" or "N units ago" |
| Ago.WordingJustNow | common.go:86-87 | the wording is "just now" exactly when seconds, minutes and hours are all below one |
| Ago.CountsNest | common.go:55-60 | a larger unit never counts more than a smaller one |
| Ago.CountPositive | common.go:55-60 | each count is at least one exactly when the duration reaches one of its unit |
| Ago.LargestUnit | server.go:137-174 | the text of a duration of a second or more names the largest unit it reaches, with that unit's count |
| Ago.JustNowUnderOneSecond | server.go:171-172 | "just now" is said exactly for durations under one second, negative ones included |
| Ago.Wording | common.go:62-88 | the if-chain over the counts; by WordingLargest and WordingJustNow, it names the largest unit counted at least once, and says "just now" exactly when seconds, minutes and hours are all below one |
| Ago.AgoText | common.go:52-88 | ago of a duration in nanoseconds; by LargestUnit and JustNowUnderOneSecond, the largest unit reached with its count, and "just now" exactly under one second |
| Storage.SaveInput | api/storage/storage.go:36-49 | Save's object key is the path unchanged, in the configured bucket |
| Storage.UploadInput | worker.go:215-228 | uploadToS3's key is the file's base name, in the configured bucket |
| Storage.ContentTypeBySuffix | api/storage/storage.go:42-49 | audio/mpeg, video/mp4 and video/webm are each chosen exactly for .mp3, .mp4 and .webm, and no type for any other name |
| Storage.ContentType | api/storage/storage.go:42-49 | by ContentTypeBySuffix, audio/mpeg, video/mp4 and video/webm exactly for .mp3, .mp4 and .webm, and no type otherwise |
| WebWorker.Args | worker.go:242-246 | the argv is -v, then --proxy socks5://addr only when tor runs, and the url last |
| WebWorker.Crlf | worker.go:250 | the rewritten output is never shorter than the raw one |
| WebWorker.CrlfRoundTrip | worker.go:250 | the rewrite loses nothing: undoing it gives the raw output back |
| WebWorker.CrlfTerminated | worker.go:250 | after the rewrite every carriage return is followed by a newline |
| WebWorker.YoutubeDL | worker.go:241-257 | the output is the command's output rewritten, and it fails exactly when the command does |
| WebWorker.GeoErrorWhenBlocked | worker.go:251-277 | a failure is a geoError exactly when the output matches one of the two block messages, and it keeps the error's text |
| WebWorker.UploadsInOrder | worker.go:202-213 | files are uploaded in listing order; the run stops at the first error and returns it, and succeeds only when every upload did |
| WebWorker.Worker.constructor | worker.go:96-105 | no job running and nothing done |
| WebWorker.Worker.RunStmt | worker.go:117 | a running job's statement is run in its transaction and its error returned |
| WebWorker.Worker.UploadAll | worker.go:202-213 | a listing error is returned with nothing uploaded; otherwise the upload run of the listing |
| WebWorker.Worker.Body | worker.go:115-187 | the work between registration and commit: a failed temporary directory records its error and stops; otherwise the tor or plain download follows |
| WebWorker.Worker.WithTor | worker.go:125-146 | a retry starts tor; a failed start records its error and stops; otherwise the GeoIP is stored and the download runs through tor |
| WebWorker.Worker.ThroughTor | worker.go:137-148 | the GeoIP is stored, a storage error stops the job, then the download runs through the tor proxy |
| WebWorker.Worker.Download | worker.go:148-187 | youtube-dl runs; a failure goes to RecordFailure, a success to Store |
| WebWorker.Worker.RecordFailure | worker.go:149-171 | output and error are stored (with tor's log when tor ran), a storage error stops the job, and only a geoError inserts a retry row with one more retry |
| WebWorker.Worker.Store | worker.go:174-187 | the output is stored, the files are uploaded, and either the upload error or the upload time is recorded |
| WebWorker.Worker.DoWork | worker.go:96-188 | the job is running for the whole of its work and no longer afterwards, and the transaction is committed on every path |
| WebWorker.TorOnlyOnRetry | worker.go:124-148 | tor is started exactly for a retry with a temporary directory, and youtube-dl always runs through the job's tor, if any |
| WebWorker.CommitsOnce | worker.go:108-113 | every job ends with the commit and commits once |
| WebWorker.RetryOnlyOnGeoError | worker.go:161-170 | a retry row is inserted only after a download failed with a geoError; it carries the same url and one more retry |
| OEmbed.SchemeEntriesShape | api/oembed/providers.go:37-42 | one entry per scheme of the endpoint, in order, each with the endpoint's parsed url and discovery flag |
| OEmbed.EndpointEntriesCount | api/oembed/providers.go:31-43 | a provider contributes one entry per scheme of its endpoints |
| OEmbed.FlattenCount | api/oembed/providers.go:30-44 | the flattened table has one entry per scheme of the whole table; an endpoint without schemes contributes none |
| OEmbed.EndpointEntriesOrigin | api/oembed/providers.go:31-43 | each entry of a provider is a scheme of one of its endpoints, with that endpoint's url and flag |
| OEmbed.FlattenOrigin | api/oembed/providers.go:30-44 | each entry of the table is a scheme of some endpoint of some provider, with that endpoint's url and flag |
| OEmbed.Flatten | api/oembed/providers.go:30-44 | the flattened provider table; by FlattenCount and FlattenOrigin, one entry per scheme of the whole table, each a scheme of some endpoint with that endpoint's url and flag |
| OEmbed.OEmbedUrl | api/oembed/oembed.go:73-75 | the endpoint's url with its query replaced by url=<the escaped url> |
| OEmbed.FirstMatchDecides | api/oembed/oembed.go:63-76 | the first entry whose pattern matches decides: its endpoint with the url as query, or discovery when its endpoint asks for it |
| OEmbed.NoMatchDiscovers | api/oembed/oembed.go:63-79 | with no entry matching and no pattern error the page is searched |
| OEmbed.LookupIn | api/oembed/oembed.go:63-79 | the table scan; by FirstMatchDecides and NoMatchDiscovers, the first matching entry decides, and with none matching and no pattern error the page is searched |
| OEmbed.FirstHref | api/oembed/oembed.go:128-133 | the value of the first href attribute, "" when there is none |
| OEmbed.FindHref | api/oembed/oembed.go:113-134 | the href of a link element with a type ending in +oembed, "" for any other node |
| OEmbed.FirstHrefInAppend | api/oembed/oembed.go:98-110 | the first href of two node lists in a row is the first list's, else the second's |
| OEmbed.DfsIsFirstInDocumentOrder | api/oembed/oembed.go:98-110 | the recursive search returns the first non-empty href of the document in document order |
| OEmbed.Dfs | api/oembed/oembed.go:98-110 | the recursive search; by DfsIsFirstInDocumentOrder, the first non-empty href of the document in document order |
| OEmbed.DfsListIsFirst | api/oembed/oembed.go:103-107 | the same over a node's children, in sibling order |
| OEmbed.FirstHrefInEmpty | api/oembed/oembed.go:108 | the search finds nothing exactly when no node has an href |
| OEmbed.FirstHrefInFound | api/oembed/oembed.go:100-106 | a found href belongs to a node that every earlier node lacks |
| OEmbed.DiscoveryFindsFirstLink | api/oembed/oembed.go:82-111 | a link found by discovery is the first oEmbed link of the page in document order |
| OEmbed.Client.constructor | api/oembed/oembed.go:17-21 | a client whose providers are not loaded yet |
| OEmbed.Client.LoadProviders | api/oembed/providers.go:24-45 | the table is flattened and appended to the providers |
| OEmbed.Client.AppendEndpoints | api/oembed/providers.go:31-43 | one provider's endpoints are appended, each parsed once |
| OEmbed.Client.AppendSchemes | api/oembed/providers.go:37-42 | one entry per scheme of the endpoint is appended |
| OEmbed.Client.LoadOnce | api/oembed/oembed.go:60 | only the first call loads; later calls leave the providers as they are |
| OEmbed.Client.Find | api/oembed/oembed.go:59-80 | the providers are loaded, then a pattern error is returned, the first matching entry decides, and otherwise the page is searched |
| OEmbed.FindSpec | api/oembed/oembed.go:59-80 | what find answers; Client.Find is proved equal to it, and by DiscoveryFindsFirstLink a url found by discovery is the first oEmbed link |
| OEmbed.Client.Discover | api/oembed/oembed.go:82-111 | the page's fetch or parse error, or its first oEmbed href |
| OEmbed.Client.Get | api/oembed/oembed.go:37-57 | find's error is returned; an empty oEmbed url is the error "couldn't find oembed URL"; otherwise the body of its fetch |
| OEmbed.GetSpec | api/oembed/oembed.go:37-57 | what Get answers; by NoLinkIsError and GetFetchesNonEmpty, no oEmbed url is the error "couldn't find oembed URL" and a success is the fetch of a non-empty url |
| OEmbed.NoLinkIsError | api/oembed/oembed.go:42-44 | a page with no oEmbed link, reached by discovery, makes Get fail with "couldn't find oembed URL" |
| OEmbed.GetFetchesNonEmpty | api/oembed/oembed.go:37-57 | a successful Get is the fetch of a non-empty oEmbed url that find returned |
| Frontend.StatusFetch | frontend/src/components/Video.js:32 | a row's poll is a GET without body of a url ending in the row's id |
| Frontend.Video.constructor | frontend/src/components/Video.js:8-14 | the row starts with the status of its video prop, no timer and no request |
| Frontend.Video.ComponentDidMount | frontend/src/components/Video.js:16-18 | a refresh timer with a period of 1000 ms |
| Frontend.Video.ComponentWillUnmount | frontend/src/components/Video.js:20-22 | the timer is cleared |
| Frontend.Video.Refresh | frontend/src/components/Video.js:24-39 | a status other than pending or processing clears the timer and fetches nothing; otherwise exactly one poll of the row's own url is issued and the timer kept |
| Frontend.Video.Receive | frontend/src/components/Video.js:33-37 | the reply replaces the status and nothing else |
| Frontend.UrlBody | frontend/src/components/VideoList.js:32-34 | the POST body is the JSON object {"url": value} |
| Frontend.VideoList.constructor | frontend/src/components/VideoList.js:6-15 | the list starts empty, with no request |
| Frontend.VideoList.ComponentDidMount | frontend/src/components/VideoList.js:17-23 | one GET of /urls is issued |
| Frontend.VideoList.Loaded | frontend/src/components/VideoList.js:19-21 | the reply replaces the list wholesale |
| Frontend.VideoList.HandleSubmit | frontend/src/components/VideoList.js:25-35 | one POST of /urls with the input's value as it is, empty or not |
| Frontend.VideoList.Created | frontend/src/components/VideoList.js:36-42 | the created record goes in front of the list as it stands, with every earlier record kept in order |
| Web.DetailPathHasId | server.go:98-105 | a path under /detail/ has at least three segments, the second being "detail", so the id segment exists |
| Web.DetailId | server.go:99-105 | the id is the third segment as an integer, and a segment that does not parse is an error |
| Web.ServeHTTP | server.go:40-63 | a non-empty url form value is queued and redirected to / with 302 before the page runs; the page is chosen by the path; unknown paths are 404 and a bad detail id is 400 |
| Web.StatusSticks | server.go:40-63 | once a status is sent, later writes cannot change it |
| Web.RedirectWins | server.go:41-46 | a queued url is always answered 302 Found, whatever the page writes next |
| Web.PlainRequestStatus | server.go:48-62 | without a url, an unknown path is 404 and a detail path is 400 exactly when its id does not parse |
| Web.PageOf | server.go:48-62 | the switch on the path; by PlainRequestStatus, an unknown path is 404 and a detail path is 400 exactly when its id does not parse |

## Left out

- Process and network I/O: youtube-dl and tor subprocesses, temporary directories and their removal, the S3 `PutObject` and upload calls, the YouTube API paging, the HTTP fetches of the oEmbed client. Each is a parameter of the model (a result supplied by the caller) or a fault-table entry.
- Concurrency: the worker's polling loop, mutex, shutdown and channels, errgroup listeners, the tor readiness goroutine, signal handling, context timeouts and cancellation.
- Wiring, flag parsing, connection setup and the reflection-based row scanner.
- Logging: the model covers the request log middleware's entry text and code (`StatusRecorder.Log`), the processor's and workers' log lines stored with a url, and the logfmt encoding (`Logfmt.Marshal`). The brokers' and the other services' log calls, the `duration` field, JSON log output and raven error reports are not modelled; `time.Now` and `time.Since` are parameters.
- Library functions are abstract parameters, not re-implemented: regular expressions, `filepath.Match` and `filepath.Base`, `url.Parse` and `url.QueryEscape`, `strconv` parsing, JSON encoding and decoding, the HTML parser, `yansal/query.Validate`.
- Go map iteration order is an arbitrary order given as a parameter, and results are proved for every order.
- Logfmt.SortStrings: `sort.Strings` sorts a slice in place; the model sorts a sequence value.
- The 3000-line JSON provider table of the oEmbed client is data; the model takes any table. Malformed JSON or an endpoint URL that does not parse makes the source panic; the model requires a table that parses.
- Ago: template rendering, and the float `Seconds()`/`Hours()` conversions: `ago` is modelled over a duration in integer nanoseconds, each unit's count being Go's truncating integer division of it.
- The HTML body that `http.Redirect` writes, and the database queries and templates of the legacy HTML pages (`/`, `/detail/`, `/callback/`, `/oauth2`); only dispatch, status and the id parse are modelled.
- PlaylistLoader: nested transactions (a loader started inside another transaction) are not modelled; the loader requires that no transaction is open.
- PlaylistLoader.Loader.GetOrCreateYoutubeVideo: modelled over `UrlStore.Store.EndTransaction`, the corrected transaction end of the Findings table. As written, a failed COMMIT whose ROLLBACK succeeds returns the video and nil (`PlaylistLoader.SwallowedCommitLosesVideo`); the model returns the commit's error.
- PlaylistLoader.Loader.CreateURLsFromYoutube: over the same corrected transaction end, the loop stops at a failed COMMIT; as written it goes on loading the next video.
- PlaylistLoader.BothOrNeither: its clause that a returned video is stored holds over the corrected transaction end only; as written, a failed COMMIT whose ROLLBACK succeeds returns the video and nil with no row.
- PlaylistLoader.GetOrCreateKeepsVideos: its clause that a success leaves the video recorded holds over the corrected transaction end only, for the same reason.
- PlaylistLoader.EventOutlivesRollback: the stranded event and the missing row are as written, but the answer `Err(commit error)` is the corrected one; as written the loader returns the video and nil.
- PlaylistLoader.LoadRecordsAll: "a load that returns nil has recorded every video" holds over the corrected transaction end only; as written a swallowed commit failure returns nil with that video's row missing.
- Redis sends made inside a transaction are not undone by a rollback, as in the source; Postgres id sequences are not rolled back either.
- URL fragments are not part of the modelled URL string.
- The panic recovery of the brokers and the api worker is modelled as an outcome value (`Panicked`) of the handler parameter rather than as Go's unwinding.
- The net/http `ResponseWriter` is itself modelled (the `Http` module), as a record of the status sent and the body written; headers are a map.
- Handler.Served: `Response.header` holds only the headers the handler set. net/http's content sniffing, which gives an error reply without a Content-Type the type detected from its first body write (`text/plain; charset=utf-8` for an error text), is not modelled; that sniffing never yields application/json.
- RedisLists.Redis.BRPopLPush: the brokers call BRPOPLPUSH with timeout 0, which blocks until the source list has an element; the model does not block, and answers nil on an empty source, which stands for a receive that has not returned yet.
- UrlStore.Store.GetURL: the store answers the row that the statement's intended column selection (`SELECT id, url, ...`) reads. As written, `api/store/querybuilder`'s `NewSelect` binds the column names as parameters (`SELECT $1, ..., $9`), and the scan of those values into the url would fail; the model does not capture that failure.
- UrlStore.Store.ListURLs: the same for the listing's `SELECT $1, ..., $8` (`UrlListing.ListSelectText`): the page is the rows of the intended column selection, not the scan error the bound column names would give.
- UrlStore.Store.GetYoutubeVideoByYoutubeID: the same for `SELECT $1, $2, $3`: the video is the row of the intended column selection.
- Frontend: rendering, routing and `LogDetail`; fetches, timers and promises are modelled as method calls made in the order the callbacks run.
- Worker event JSON decoding (`api/worker/handler`, `worker/handler`) and the `youtube-ar-client` program.

Behaviour of the source that the model keeps as written and that readers may not expect:

- `api/store/querybuilder`'s `NewSelect` binds every non-expression column, so the statement text of `buildListURLs` binds the eight column names as `$1..$8` (the rows the store answers are those of the intended selection; see "## Left out"). `IsNull`, `NewInsert` and the two-argument `NewUpdate` that `api/store/store.go` calls are not defined in `api/store/querybuilder`; their text follows `select_test.go`'s expected output.
- `RetryLastFailed` in the legacy manager compares the status with "failed" but does nothing either way, so a url that did not fail is retried too.
- The legacy retrier re-creates a url through the legacy manager's `CreateURL`, which takes only the url text, so the new row has no retry count and the cap of five never stops the chain (`LegacyRetrier.RetryCountLost`).
- The legacy API router only checks that the path starts with `/api/urls`, so `/api/urlsX/1/logs` reaches the logs handler (`LegacyApi.LogsRoute`).
- A `parseQuery` failure in the legacy API is an `httpError` wrapping another `httpError`; both carry 400.
- A handler that writes nothing is logged with code 0.
- `VideoList` reads `GET /urls` as a bare array, while `api/resource/resource.go:50-53` answers `{urls, next_cursor}`; the frontend has no pagination, filter, delete or retry.

## Findings

| source | as written | input that shows it | evidently intended | confidence | as-written member | corrected member |
|---|---|---|---|---|---|---|
| manager/worker.go:44-67 | there is no recover around the download, so a downloader panic escapes `ProcessURL` with the row left "processing", and no later lock takes it | a pending url whose downloader panics | unlock the url as a failure with the panic's text, then re-panic, as manager/worker_test.go expects | not executed | LegacyWorker.Worker.ProcessURLAsWritten | LegacyWorker.Worker.ProcessURL |
| api/store/transaction.go:25-32 | when `Commit` fails and `Rollback` then succeeds, the transaction returns nil, so the caller believes changes were kept that were not | a body that succeeds with the `COMMIT` statement in the fault table | return the commit's error | not executed | UrlStore.Store.EndTransactionAsWritten | UrlStore.Store.EndTransaction |
