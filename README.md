# CassandraESSync reconciliation, modelled in Dafny

CassandraESSync keeps a Cassandra column family and an Elasticsearch index
type in step. Each configured (column family, type) pair gets one
reconciliation pass, `sync_cf_type`:

1. The pass scans the id and timestamp of every row of the column family. It
   keeps the rows inside the window that runs from the column family's
   watermark to now, or every row when there is no watermark.
2. It searches the index type for the id and timestamp of every document
   whose timestamp lies in the type's window.
3. It merges both summaries into `all_data`, a map from id to the pair
   `[cassandra_ts, es_ts]`.
4. It sorts every id into one of four lists:
   - insert on ES;
   - update on ES;
   - insert on Cassandra;
   - update on Cassandra.
5. It looks up the full rows bound for the index and sends them in one bulk
   request. Each row's data fields are remapped by position onto the type's
   fields.
6. It fetches the documents bound for the column family and writes them in one
   batch of prepared INSERT and UPDATE statements.

At two places the code reads search fields differently from what it
evidently intends (line 117 with line 161, and line 157; see Findings). Each
is modelled as written, with a lemma that shows the failure. The pass itself
(`MergeHit`, `HitParams`, `PullFromEs` and the members that run them) uses the
intended reading; "## Left out" says which members this affects.

`sync_databases` runs one pass per mapping.

The model is split into these modules:

- `Wrappers`: `Option`, `Result`, and the errors that abort a pass. These are
  the Python exceptions the code can raise on malformed data.
- `Values`: JSON values as the clients hand them over, and Python's `str` and
  `int` on integers.
- `Statements`: the CQL text the pass builds, and the placeholder counts of
  the prepared statements.
- `EsQueries`: the three search bodies (match-all, range, ids), and a model of
  which documents a body selects and which fields a hit carries.
- `Reconcile`: the windowed scan, the merge into `all_data` (a map plus the
  dictionary's insertion order), and the classification into the four lists.
  The loops are methods proved against recursive specification functions.
- `Writes`: the positional field remap, the bulk actions, and the batch
  entries. It also holds the code as written at the two places where it reads
  search fields differently from what it evidently intends (see Findings).
- `Sync`: the `Synchronizer` class. It holds the configuration, the two
  watermark maps (`last_synced`), and the log of every call made on the two
  store clients.

The two stores are parameters of the passes:

- The column family's contents are a `seq<CfRow>` per column family.
- The index's documents are a `seq<EsDoc>` per type.
- The clock is one `now: int`.

Each client call is appended to the `requests` log, together with what it
sends.

## Model

| member | source | states |
|---|---|---|
| Values.ParseShowInt | cassandraes_sync.py:220-221 | a timestamp written as text by `str` reads back through `int` as the same integer, negative ones included |
| Values.IntOfShowInt | cassandraes_sync.py:164 | `int(...)` on the text a bulk action stored returns the original timestamp |
| Statements.InsertPlaceholders | cassandraes_sync.py:185-186 | when no name contains `?`, the INSERT text has exactly one `?` per column |
| Statements.UpdatePlaceholders | cassandraes_sync.py:189-190 | the UPDATE text has one `?` per assigned field plus one for the id in its WHERE clause |
| Statements.SplitJoin | cassandraes_sync.py:182 | joining the fields or ids with `,` loses nothing when no part contains a comma: splitting at `,` gives the parts back |
| EsQueries.MatchAll | cassandraes_sync.py:83 | the empty body `{}` selects every document |
| EsQueries.RangeFilter | cassandraes_sync.py:193-203 | the range body selects exactly the documents whose timestamp lies in `[start, end]`, both ends included |
| EsQueries.IdsFilter | cassandraes_sync.py:205-213 | the ids body selects exactly the documents whose `_id` is one of the ids |
| EsQueries.SearchHits | cassandraes_sync.py:92 | every hit is the projection of a document the body matches, and every matched document yields its hit |
| Reconcile.Put | cassandraes_sync.py:108-110 | assigning `all_data[id]` replaces that one key's entry; a new key is appended to the insertion order, and the order stays free of duplicates |
| Reconcile.LoadCassandra | cassandraes_sync.py:105-110 | every key the scan produces is an id string with a Cassandra timestamp and an empty ES slot |
| Reconcile.ScanKeys | cassandraes_sync.py:105-110 | an id is a key of `all_data` after the scan if and only if some row with that id lies inside the window |
| Reconcile.ScanKeepsLast | cassandraes_sync.py:108-110 | when an id appears in several rows inside the window, its timestamp is the one of the last such row |
| Reconcile.WindowedScan | cassandraes_sync.py:107-110 | with a truthy watermark and clock, a row enters `all_data` only if `start <= ts <= end` |
| Reconcile.FullScan | cassandraes_sync.py:107-108 | with no watermark, or a watermark of 0, every scanned row enters `all_data` with its ES slot empty |
| Reconcile.ScanCassandra | cassandraes_sync.py:105-110 | the scan loop produces the windowed `all_data` of the scan specification |
| Reconcile.PutEs | cassandraes_sync.py:119-122 | an ES timestamp for a present id sets only the ES slot and keeps the Cassandra timestamp; for a new id it adds `[None, es_ts]`; other keys are untouched |
| Reconcile.MergeHit | cassandraes_sync.py:113-122 | merging one hit, with a non-`_id` id read as the first value of its field (the intended reading of line 117), keeps `all_data` well formed (insertion order matches the keys, no duplicates) |
| Reconcile.MergeKeepsCassandra | cassandraes_sync.py:119-122 | merging the ES summary never drops a key and never changes a Cassandra timestamp; keys it adds have no Cassandra timestamp |
| Reconcile.MergeAddsHits | cassandraes_sync.py:112-122 | if the merge succeeds, every hit that carries fields has a readable id and timestamp, and its id is a key of `all_data` |
| Reconcile.MergeKeepsLast | cassandraes_sync.py:119-120 | the last hit for an id decides that id's ES timestamp |
| Reconcile.MergeLeavesUnnamed | cassandraes_sync.py:112-122 | a key that no hit with fields names is neither added nor changed by the merge, so a Cassandra-only id keeps `[ts, None]` |
| Reconcile.LoadEsStopsAtError | cassandraes_sync.py:112-122 | a hit that raises ends the merge: later hits change nothing |
| Reconcile.LoadEsSucceeds | cassandraes_sync.py:112-122 | the merge succeeds exactly when every hit either has no fields or has a readable, hashable id and a readable timestamp |
| Reconcile.MergeEs | cassandraes_sync.py:112-122 | the merge loop produces the merge specification's result, including the first error |
| Reconcile.Classify | cassandraes_sync.py:126-136 | with both timestamps truthy, the newer side is updated and equal timestamps call for nothing; a side holding the only truthy timestamp is inserted into the other; each case holds in both directions |
| Reconcile.SelectMembers | cassandraes_sync.py:125-136 | an id is in a list exactly when it is a key of `all_data` whose entry calls for that list's write |
| Reconcile.PlanPartition | cassandraes_sync.py:125-136 | the four lists are pairwise disjoint and free of duplicates, each id in them is a key of `all_data`, and a key calling for no write is in none |
| Reconcile.AgreeingSidesScheduleNothing | cassandraes_sync.py:127-131 | when every key's two timestamps agree, all four lists are empty |
| Reconcile.ClassifyAll | cassandraes_sync.py:125-136 | the classification loop builds the four lists of the classification specification, in dictionary order |
| Writes.RemapUpTo | cassandraes_sync.py:144-146 | the remap succeeds exactly when every Cassandra data column is present on the row and the type has at least as many data fields |
| Writes.RemapPositional | cassandraes_sync.py:145-146 | the `_source` keys are exactly the type fields used, and `type_data_fields[i]` holds the value of `cf_data_fields[i]` (the last position wins when a type field repeats) |
| Writes.SourceFromRow | cassandraes_sync.py:144-146 | the remap loop produces the remap specification's result, including the first error |
| Writes.BulkActionFields | cassandraes_sync.py:215-231 | the action holds exactly `_index`, `_type`, the id field and `_source`; the id is stored as text; `_source` is the data with the timestamp added as text |
| Writes.BulkTimestampReadBack | cassandraes_sync.py:221-223 | a document written by a bulk action reads back its row's timestamp, so the next pass's range search sees it exactly when that timestamp lies in the window |
| Writes.Lookup | cassandraes_sync.py:181-183 | the lookup by id returns exactly the rows whose id is in the IN list |
| Writes.ActionsUpTo | cassandraes_sync.py:143-148 | if building succeeds there is exactly one action per looked-up row |
| Writes.ActionsSucceed | cassandraes_sync.py:143-148 | building the actions succeeds exactly when every looked-up row's data columns can be remapped |
| Writes.ActionsPerRow | cassandraes_sync.py:143-148 | if building succeeds, the `i`-th action is built from the `i`-th looked-up row's id, timestamp and remapped data |
| Writes.BuildActions | cassandraes_sync.py:143-148 | the action loop produces the actions specification's result, including the first error |
| Writes.FetchedHitsCarryTypeFields | cassandraes_sync.py:155-157 | with the fetch by id asking for `type_fields` (line 155) instead of the field list written on line 157, every document the ids body matches comes back as a hit carrying, as a list, each of the type's data, id and timestamp fields that the document has: all that lines 161-167 read |
| Writes.HitValuesUpTo | cassandraes_sync.py:166-167 | if reading succeeds there is one value per type data field: the first element of that field in the hit |
| Writes.HitValuesSucceed | cassandraes_sync.py:166-167 | reading the values succeeds exactly when every mapped field is on the hit and its first element can be taken |
| Writes.HitValues | cassandraes_sync.py:166-167 | the value loop produces the values specification's result, including the first error |
| Writes.HitParams | cassandraes_sync.py:161-167 | a hit's parameter tuple is `[id, timestamp] + values`, with the id and timestamp read from the hit as the merge reads them (a non-`_id` id as the first value of its field, the intended reading of line 161) |
| Writes.BatchUpTo | cassandraes_sync.py:159-175 | if building succeeds there is exactly one batch entry per fetched hit |
| Writes.BatchSucceeds | cassandraes_sync.py:159-175 | building the batch succeeds exactly when every fetched hit's id, timestamp and values can be read |
| Writes.HitEntry | cassandraes_sync.py:161-175 | one fetched hit yields the entry the insert-or-update rule picks for its parameter tuple, or the first error reading it raises |
| Writes.BuildBatch | cassandraes_sync.py:159-175 | the batch loop produces the batch specification's result, including the first error |
| Writes.BatchArity | cassandraes_sync.py:169-175 | when both field lists have the same length, every batch entry binds exactly as many values as its statement has placeholders |
| Writes.BatchInsertOrUpdate | cassandraes_sync.py:172-175 | the `i`-th hit's entry is the INSERT statement with its full tuple when its id is to be inserted, and otherwise the UPDATE statement with that tuple rotated so the id comes last |
| Writes.FieldIdAsWritten | cassandraes_sync.py:117 | as written, a summary hit keyed by a field other than `_id` always aborts the merge; read with `[0]`, the same hit merges under its id |
| Writes.FetchFieldsMissTimestamp | cassandraes_sync.py:157 | as written, when the two timestamp fields have different names, no fetched hit carries the type's timestamp; with `type_fields` every matched document that has one does |
| Sync.SummaryBody | cassandraes_sync.py:83-85 | with a truthy watermark and clock, the summary search selects exactly the documents whose timestamp is in the window; otherwise it selects every document |
| Sync.MergeSummaries | cassandraes_sync.py:95-122 | the scan and the merge together produce the merged summaries of the specification, and a successful merge is well formed |
| Sync.LookupSelectsIds | cassandraes_sync.py:181-183 | when every id bound for the index is a string, the lookup by the ids' text returns exactly the rows whose id is one of those ids |
| Sync.MergedCassandraKeysAreText | cassandraes_sync.py:105-122 | every key with a Cassandra timestamp is the text of a row id |
| Sync.PushedRowsAreStaleOnEs | cassandraes_sync.py:139-148 | every row the pass looks up and indexes has its key classified for an insert or update on the index: its Cassandra timestamp is truthy, and the index's windowed summary has no truthy timestamp for it or an older one |
| Sync.PulledDocsAreStaleOnCassandra | cassandraes_sync.py:152-159 | for a type keyed by `_id`, every document the pass fetches has its key classified for an insert or update on the column family: its ES timestamp is truthy, and the table's windowed scan has no truthy timestamp for it or an older one |
| Sync.PulledEntryFollowsDisposition | cassandraes_sync.py:169-175 | for a type keyed by `_id`, a fetched document's batch entry is the INSERT when its id was classified as an insert, and the UPDATE (id moved last) when it was classified as an update |
| Sync.OutOfWindowRowIsOverwritten | cassandraes_sync.py:105-159 | with both watermarks at 10 and the clock at 20, a row stamped 30 is outside the scan's window, so a document stamped 15 with the same id is classified for an insert on the column family and fetched: the older document overwrites the newer row |
| Sync.InSyncPassSendsNothing | cassandraes_sync.py:124-178 | when both sides agree on every key, a pass makes no call after its two summary requests, and it succeeds |
| Sync.Synchronizer.constructor | cassandraes_sync.py:35-45 | the configuration is stored, and both watermark maps and the call log start empty |
| Sync.Synchronizer.SyncCfType | cassandraes_sync.py:57-178 | an unknown column family or type fails before any call. A failed scan leaves both watermarks unchanged. Once the scan returns, both watermarks become `now` whatever the pass then finds, and the log grows by the scan followed by exactly the calls of the pass specification, which reads search fields as lines 117, 157 and 161 intend |
| Sync.Synchronizer.FinishPass | cassandraes_sync.py:92-178 | the log grows by the summary search, then by the calls of both directions, and the pass ends as the pass specification says, with search fields read as lines 117, 157 and 161 intend |
| Sync.Synchronizer.ExchangeMerged | cassandraes_sync.py:124-178 | a failed merge ends the pass with no further call; otherwise the calls are those of both directions for the classified lists |
| Sync.Synchronizer.Transfer | cassandraes_sync.py:139-178 | the push to the index comes first; the pull from the index follows only if the push succeeded |
| Sync.Synchronizer.PushToEs | cassandraes_sync.py:139-150 | no call when nothing is bound for the index; otherwise the lookup query, then one bulk request unless building an action failed |
| Sync.Synchronizer.PullFromEs | cassandraes_sync.py:152-178 | no call when nothing is bound for the column family; otherwise the fetch by id for `type_fields` (the intended line 157), then one batch unless building an entry failed |
| Sync.Synchronizer.SyncPair | cassandraes_sync.py:52-54 | one iteration leaves exactly the watermarks, the log and the outcome that `Sync.Pass` gives for the state before it |
| Sync.Synchronizer.SyncDatabases | cassandraes_sync.py:51-54 | the watermarks, the log and the outcome are those of `Sync.Run`: the passes of the mappings in order, each starting from the state the previous one left, up to and including the first that fails; when all succeed, every mapped column family and type has `now` as its watermark |
| Sync.PassTouchesOwnWatermarks | cassandraes_sync.py:57-93 | a pass only appends to the log, changes no watermark but its own column family's and type's, and on success has set both to `now` |
| Sync.RunStopsAtFailure | cassandraes_sync.py:51-54 | once the pass of mapping `k - 1` fails, no later mapping is run: the outcome of all mappings is the outcome of the first `k` |
| Sync.RunStampsEveryMapping | cassandraes_sync.py:51-54 | when every pass succeeds, every mapped column family and type has `now` as its watermark |

## Left out

- Client construction and connection (`Cluster().connect`, `Elasticsearch()`, `set_keyspace`, `prepare`). These are foreign network calls. Each call that sends something is a `Request` entry in the log instead.
- Client failures other than the modelled ones (network errors, partial bulk or batch failures). The model's errors are the exceptions the code itself raises on the data it reads: a missing key, an index past the end, `int` or `UUID` on a bad value, and an unhashable dictionary key.
- Elasticsearch's default page size of 10 hits per search. `Search` returns every matching document.
- The index's range search assumes a numeric mapping of the timestamp field: a string value is compared as the number it denotes.
- `calendar.timegm` and `datetime` conversions. Row timestamps are already integers.
- `UUID(...)` parsing. `Writes.Uuid` accepts any string and keeps its text.
- `str` on a Cassandra UUID. Row ids are already strings.
- Python's `int` accepts surrounding whitespace, a `+` sign and `_` separators. `Values.ParseInt` accepts only an optional `-` followed by digits.
- `time.time()` floats, and the four separate reads of the clock. The model uses one integer `now` for the whole pass.
- `start.py`, the configuration file and the polling loop around `sync_databases`.
- `last_synced` is a class attribute in the source, so every `CassandraESSync` instance shares it. The model keeps it per `Synchronizer` object.
- `get_es_bulk_action` writes the timestamp into the caller's `data` dictionary in place. The model returns the new `_source` value instead. The caller never reads `data` again, so the aliasing has no visible effect.
- Sync.Synchronizer.SyncCfType: sets the ES watermark before the summary search is logged. The source sets it right after the search returns. Both happen before any later step can fail, so the final state is the same.
- The two prepared statements are built once per pass (`Sync.Synchronizer.PullFromEs`) instead of once per fetched document (lines 169-170). Their text depends only on the column family and its fields, and `prepare` itself is a client call.
- Reconcile.MergeHit: reads a non-`_id` id as the first value of its field. As written (line 117), the source keeps the whole list and raises TypeError at line 119, so every pass over such a type aborts there; `Writes.FieldIdAsWritten` proves that abort.
- Writes.HitParams: reads a non-`_id` id as the first value of its field. As written (line 161), the source passes the whole list to `UUID(...)`, which raises.
- Sync.Synchronizer.PullFromEs: fetches `type_fields`. As written (line 157), the source fetches the column family's timestamp field, so when the two timestamp names differ line 164 raises KeyError and no batch is sent; `Writes.FetchFieldsMissTimestamp` proves the missing field.
- Sync.Synchronizer.FinishPass: its pass specification (`Sync.Conclude` over `Sync.Merged`) uses the intended readings of lines 117, 157 and 161 above, so where the source as written aborts, it promises the merge, the fetch and the batch instead.
- Sync.Synchronizer.SyncCfType: promises the same intended pass as `FinishPass`, and so does `Sync.Pass`.
- Sync.Synchronizer.SyncPair: equals `Sync.Pass`, so it follows the same intended readings.
- Sync.Synchronizer.SyncDatabases: equals `Sync.Run`, whose passes follow the same intended readings. The members that run a pass's merge or exchange (`Reconcile.MergeEs`, `Sync.MergeSummaries`, `Sync.Synchronizer.ExchangeMerged`, `Sync.Synchronizer.Transfer`) use them as well.
- Sync.Synchronizer.SyncDatabases: one `now` serves every pass of a run (`Sync.Run` takes a single clock value), where the source reads `time.time()` again in each `sync_cf_type` call. Two effects follow. `Sync.RunStampsEveryMapping` finds every mapped column family and type stamped with that one `now`, where the source stamps each with its own pass's clock. And a column family or type named in two mappings gets the window `[now, now]` in its second pass, where the source's window runs from the first pass's stamp to the second pass's clock.
- Sync.PushedRowsAreStaleOnEs and Sync.PulledDocsAreStaleOnCassandra: the classification they state comes from the windowed summaries. A record on the other side outside its window is not seen, so a pushed row or a pulled document can overwrite a newer copy, as the source does (`Sync.OutOfWindowRowIsOverwritten`). Likewise a negative timestamp is truthy and 0 is not, so a row stamped -5 is pushed over a document stamped 0.
- Sync.Texts: maps an id that is not a string to the empty text. `Sync.MergedCassandraKeysAreText` shows that no id bound for the index is anything but a string.
- Python dictionary semantics are kept only as far as the pass uses them. `all_data` keeps its keys in insertion order, with reassignment keeping a key's position. This order is a modelling choice: the source may run on a Python whose dictionaries have no defined order, and no proved property depends on it beyond fixing the order of the four lists.
- Behaviours described for the system that the code does not have:
  - ids are not quoted or escaped before they go into the lookup query (line 182 joins them as they are);
  - there is no configuration check that the two field lists have equal length;
  - there is no separate fetch-error or apply-error taxonomy.

  The model follows the code. A length mismatch surfaces as an `IndexOutOfRange` error while remapping (`Writes.RemapUpTo`), or as a batch entry whose arity differs from its statement's (`Writes.BatchArity` holds only when the lengths agree).

## Findings

| source | as written | input that shows it | evidently intended | confidence | as-written member | corrected member |
|---|---|---|---|---|---|---|
| cassandraes_sync.py:117 | the id of a summary hit is `document['fields'][index_id_column]`, which is the whole list of values; line 161 reads the fetched id the same way | a type whose id field is `uid`, and a document with `uid = "a"`: the hit's field is `["a"]`, and `doc_id in all_data` raises TypeError because a list is unhashable, so the pass aborts | read the first element, `[0]`, as line 115 does for the timestamp; the hit then merges under `"a"` (proved in `Reconcile.MergeAddsHits` and the second half of `Writes.FieldIdAsWritten`) | high (not executed) | Writes.FieldIdAsWritten | Reconcile.MergeHit |
| cassandraes_sync.py:157 | the fetch by id asks for `type_data_fields + [cf_timestamp_column]`, the column family's timestamp name, and `type_fields` computed on line 155 goes unused | a column family with timestamp column `updated` and a type with timestamp field `ts`: no fetched hit carries `ts`, so line 164 raises KeyError for every document to be pulled | ask for `type_fields`, which holds the type's own id and timestamp fields | high (not executed) | Writes.FetchFieldsMissTimestamp | Writes.FetchedHitsCarryTypeFields |
