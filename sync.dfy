/**
 * The synchronizer: its configuration, the watermarks it keeps between
 * passes, the calls it makes on the two store clients, and one
 * reconciliation pass per configured (column family, index type) pair.
 */
module Sync {
  import opened Wrappers
  import opened Values
  import opened EsQueries
  import opened Statements
  import opened Reconcile
  import opened Writes

  /** One side of a mapping: its id field, its timestamp field and its data fields, positionally aligned with the other side's. */
  datatype Schema = Schema(id: string, timestamp: string, columns: seq<string>)

  /** A call on one of the two store clients, with what it sends. */
  datatype Request =
    | CqlQuery(text: string)
    | CqlBatch(entries: seq<BatchEntry>)
    | EsSearch(esType: string, fields: seq<string>, body: Json)
    | EsBulk(actions: seq<Json>)

  /** The calls one pass makes, in order, and the error that ended it, if any. */
  datatype PassResult = PassResult(requests: seq<Request>, error: Option<SyncError>)

  function Get(m: map<string, int>, key: string): Option<int> {
    if key in m then Some(m[key]) else None
  }

  /** The documents of an index type; a type with no documents yields no hits. */
  function DocsOf(indices: map<string, seq<EsDoc>>, esType: string): seq<EsDoc> {
    if esType in indices then indices[esType] else []
  }

  /** Lines 71-79: with a watermark the window runs from it to now; without one there is no window. */
  function WindowOf(watermark: Option<int>, now: int): (Option<int>, Option<int>) {
    if watermark.Some? then (watermark, Some(now)) else (None, None)
  }

  /**
   * Lines 83-85: the body of the summary search. With a truthy watermark and
   * clock the search selects the documents whose timestamp lies between them;
   * otherwise it selects every document.
   */
  function SummaryBody(tsColumn: string, watermark: Option<int>, now: int): (r: Json)
    ensures Truthy(watermark) && now != 0 ==>
      forall doc :: Matches(r, doc) <==> InWindow(doc, tsColumn, watermark.value, now)
    ensures !(Truthy(watermark) && now != 0) ==> forall doc :: Matches(r, doc)
  {
    var (start, end) := WindowOf(watermark, now);
    if Truthy(start) && Truthy(end) then RangeFilter(tsColumn, start.value, end.value) else MatchAll()
  }

  /** The ids as the text `",".join` puts into the lookup query. */
  function Texts(ids: seq<Json>): (r: seq<string>)
    ensures |r| == |ids| && forall i :: 0 <= i < |ids| && ids[i].Str? ==> r[i] == ids[i].s
  {
    seq(|ids|, i requires 0 <= i < |ids| => if ids[i].Str? then ids[i].s else "")
  }

  /** `cf_fields` (line 67): id, timestamp, then the data columns. */
  function CfFields(s: Schema): (r: seq<string>)
    ensures |r| == 2 + |s.columns| && r[0] == s.id && r[1] == s.timestamp && r[2..] == s.columns
  {
    [s.id, s.timestamp] + s.columns
  }

  /** `all_data` once both summaries are merged (lines 95-122). */
  function Merged(cfSchema: Schema, typeSchema: Schema, cassandraWatermark: Option<int>, esWatermark: Option<int>, now: int, rows: seq<CfRow>, docs: seq<EsDoc>): Result<AllData> {
    var (start, end) := WindowOf(cassandraWatermark, now);
    var hits := Search(docs, [typeSchema.id, typeSchema.timestamp], SummaryBody(typeSchema.timestamp, esWatermark, now));
    LoadEs(LoadCassandra(rows, start, end), hits, typeSchema.id, typeSchema.timestamp)
  }

  /** The ids bound for the search index (line 141): inserts first, then updates. */
  function ToEsIds(plan: Plan): seq<Json> {
    plan.insertOnEs + plan.updateOnEs
  }

  /** The ids bound for the column family (line 156): inserts first, then updates. */
  function ToCassandraIds(plan: Plan): seq<Json> {
    plan.insertOnCassandra + plan.updateOnCassandra
  }

  /** The rows the lookup by id returns (line 141). */
  function Pushed(rows: seq<CfRow>, plan: Plan): seq<CfRow> {
    Lookup(rows, Texts(ToEsIds(plan)))
  }

  /** The hits the fetch by id returns (line 157, with the type's own field list). */
  function Fetched(esType: string, typeSchema: Schema, docs: seq<EsDoc>, plan: Plan): seq<Hit> {
    Search(docs, FetchFields(typeSchema.columns, typeSchema.id, typeSchema.timestamp), IdsFilter(esType, ToCassandraIds(plan)))
  }

  /** The calls of the column-family to search-index direction (lines 139-150) and how it ends. */
  function ToEs(index: string, cf: string, esType: string, cfSchema: Schema, typeSchema: Schema, rows: seq<CfRow>, plan: Plan): PassResult {
    if ToEsIds(plan) == [] then PassResult([], None)
    else
      var query := CqlQuery(LookupQuery(cf, CfFields(cfSchema), cfSchema.id, Texts(ToEsIds(plan))));
      var found := Pushed(rows, plan);
      match ActionsUpTo(found, index, esType, cfSchema.columns, typeSchema.columns, typeSchema.id, typeSchema.timestamp, |found|)
      case Err(e) => PassResult([query], Some(e))
      case Ok(actions) => PassResult([query, EsBulk(actions)], None)
  }

  /** The calls of the search-index to column-family direction (lines 152-178) and how it ends. */
  function ToCassandra(cf: string, esType: string, cfSchema: Schema, typeSchema: Schema, docs: seq<EsDoc>, plan: Plan): PassResult {
    if ToCassandraIds(plan) == [] then PassResult([], None)
    else
      var search := EsSearch(esType, FetchFields(typeSchema.columns, typeSchema.id, typeSchema.timestamp), IdsFilter(esType, ToCassandraIds(plan)));
      var hits := Fetched(esType, typeSchema, docs, plan);
      match BatchUpTo(hits, typeSchema.id, typeSchema.timestamp, typeSchema.columns, plan.insertOnCassandra, InsertStatement(cf, CfFields(cfSchema)), UpdateStatement(cf, cfSchema.id, CfFields(cfSchema)[1..]), |hits|)
      case Err(e) => PassResult([search], Some(e))
      case Ok(batch) => PassResult([search, CqlBatch(batch)], None)
  }

  /** Both directions of lines 139-178, the second only when the first succeeds. */
  function Exchange(index: string, cf: string, esType: string, cfSchema: Schema, typeSchema: Schema, rows: seq<CfRow>, docs: seq<EsDoc>, plan: Plan): PassResult {
    var es := ToEs(index, cf, esType, cfSchema, typeSchema, rows, plan);
    var cassandra := ToCassandra(cf, esType, cfSchema, typeSchema, docs, plan);
    if es.error.Some? then es
    else PassResult(es.requests + cassandra.requests, cassandra.error)
  }

  /** What a pass does with the merged summaries (lines 124-178): the calls of both directions and how the pass ends. */
  function Conclude(index: string, cf: string, esType: string, cfSchema: Schema, typeSchema: Schema, rows: seq<CfRow>, docs: seq<EsDoc>, merged: Result<AllData>): PassResult {
    match merged
    case Err(e) => PassResult([], Some(e))
    case Ok(d) => Exchange(index, cf, esType, cfSchema, typeSchema, rows, docs, PlanOf(d))
  }

  /** The summary search of lines 92-93: the id and timestamp of the documents the window selects. */
  function SummarySearch(esType: string, typeSchema: Schema, esWatermark: Option<int>, now: int): Request {
    EsSearch(esType, [typeSchema.id, typeSchema.timestamp], SummaryBody(typeSchema.timestamp, esWatermark, now))
  }

  /** Lines 95-122: scan the table over the window, search the index, and merge both summaries. */
  method MergeSummaries(cfSchema: Schema, typeSchema: Schema, cassandraWatermark: Option<int>, esWatermark: Option<int>, now: int, rows: seq<CfRow>, docs: seq<EsDoc>) returns (r: Result<AllData>)
    ensures r == Merged(cfSchema, typeSchema, cassandraWatermark, esWatermark, now, rows, docs)
    ensures r.Ok? ==> Valid(r.value)
  {
    var (start, end) := WindowOf(cassandraWatermark, now);
    var hits := Search(docs, [typeSchema.id, typeSchema.timestamp], SummaryBody(typeSchema.timestamp, esWatermark, now));
    var scanned := ScanCassandra(rows, start, end);
    r := MergeEs(scanned, hits, typeSchema.id, typeSchema.timestamp);
  }

  /**
   * The log of a pass once its table scan has returned: `before`, then the
   * summary search, then the calls of both directions; `error` is how the
   * pass ends.
   */
  ghost predicate Logged(before: seq<Request>, after: seq<Request>, error: Option<SyncError>, index: string, cf: string, esType: string, cfSchema: Schema, typeSchema: Schema, cassandraWatermark: Option<int>, esWatermark: Option<int>, now: int, rows: seq<CfRow>, docs: seq<EsDoc>) {
    var p := Conclude(index, cf, esType, cfSchema, typeSchema, rows, docs, Merged(cfSchema, typeSchema, cassandraWatermark, esWatermark, now, rows, docs));
    after == before + [SummarySearch(esType, typeSchema, esWatermark, now)] + p.requests && error == p.error
  }

  /** What `sync_databases` reads and changes between passes: both watermark maps and the call log. */
  datatype SyncState = SyncState(cassandraSynced: map<string, int>, esSynced: map<string, int>, requests: seq<Request>)

  /**
   * `sync_cf_type` over a state: an unknown column family or type fails
   * before any call; otherwise the scan is sent, a missing table fails with
   * the watermarks untouched, and a scan that returns sets both watermarks
   * to `now` and appends the calls of the rest of the pass.
   */
  function Pass(index: string, cfs: map<string, Schema>, types: map<string, Schema>, cf: string, esType: string, now: int, tables: map<string, seq<CfRow>>, indices: map<string, seq<EsDoc>>, s: SyncState): (SyncState, Option<SyncError>) {
    if cf !in cfs then (s, Some(UnknownCollection(cf)))
    else if esType !in types then (s, Some(UnknownCollection(esType)))
    else
      var scanned := s.requests + [CqlQuery(ScanQuery(cf, cfs[cf].id, cfs[cf].timestamp))];
      if cf !in tables then (s.(requests := scanned), Some(MissingTable(cf)))
      else
        var cassandraWatermark, esWatermark := Get(s.cassandraSynced, cf), Get(s.esSynced, esType);
        var docs := DocsOf(indices, esType);
        var p := Conclude(index, cf, esType, cfs[cf], types[esType], tables[cf], docs, Merged(cfs[cf], types[esType], cassandraWatermark, esWatermark, now, tables[cf], docs));
        (SyncState(s.cassandraSynced[cf := now], s.esSynced[esType := now], scanned + [SummarySearch(esType, types[esType], esWatermark, now)] + p.requests), p.error)
  }

  /** `sync_databases` over a state: the passes of the mappings in order, up to and including the first that fails. */
  function Run(index: string, cfs: map<string, Schema>, types: map<string, Schema>, mappings: seq<(string, string)>, now: int, tables: map<string, seq<CfRow>>, indices: map<string, seq<EsDoc>>, s: SyncState): (SyncState, Option<SyncError>)
    decreases |mappings|
  {
    if mappings == [] then (s, None)
    else
      var before := Run(index, cfs, types, mappings[..|mappings| - 1], now, tables, indices, s);
      if before.1.Some? then before
      else Pass(index, cfs, types, mappings[|mappings| - 1].0, mappings[|mappings| - 1].1, now, tables, indices, before.0)
  }

  class Synchronizer {
    const index: string
    const mappings: seq<(string, string)>
    const cfs: map<string, Schema>
    const types: map<string, Schema>

    /** `last_synced['cassandra']` and `last_synced['es']`: when each column family and each type was last scanned. */
    var cassandraSynced: map<string, int>
    var esSynced: map<string, int>

    /** Every call made on the two clients so far, in order. */
    var requests: seq<Request>

    function State(): SyncState
      reads this
    {
      SyncState(cassandraSynced, esSynced, requests)
    }

    constructor(index: string, mappings: seq<(string, string)>, cfs: map<string, Schema>, types: map<string, Schema>)
      ensures this.index == index && this.mappings == mappings && this.cfs == cfs && this.types == types
      ensures cassandraSynced == map[] && esSynced == map[] && requests == []
    {
      this.index := index;
      this.mappings := mappings;
      this.cfs := cfs;
      this.types := types;
      cassandraSynced := map[];
      esSynced := map[];
      requests := [];
    }

    /**
     * `sync_cf_type`. An unknown column family or type fails before anything
     * happens; a failed scan leaves both watermarks as they were; once the
     * scan has returned, both watermarks are set to `now`, whatever the rest
     * of the pass finds or however it ends.
     */
    method SyncCfType(cf: string, esType: string, now: int, tables: map<string, seq<CfRow>>, indices: map<string, seq<EsDoc>>) returns (error: Option<SyncError>)
      modifies this
      ensures cf !in cfs ==> error == Some(UnknownCollection(cf)) && unchanged(this)
      ensures cf in cfs && esType !in types ==> error == Some(UnknownCollection(esType)) && unchanged(this)
      ensures error.None? ==> cf in cfs && esType in types && cf in tables
      ensures cf in cfs && esType in types && cf !in tables ==>
        && error == Some(MissingTable(cf))
        && cassandraSynced == old(cassandraSynced) && esSynced == old(esSynced)
        && requests == old(requests) + [CqlQuery(ScanQuery(cf, cfs[cf].id, cfs[cf].timestamp))]
      ensures cf in cfs && esType in types && cf in tables ==>
        && cassandraSynced == old(cassandraSynced)[cf := now]
        && esSynced == old(esSynced)[esType := now]
        && Logged(old(requests) + [CqlQuery(ScanQuery(cf, cfs[cf].id, cfs[cf].timestamp))], requests, error, index, cf, esType, cfs[cf], types[esType], Get(old(cassandraSynced), cf), Get(old(esSynced), esType), now, tables[cf], DocsOf(indices, esType))
    {
      if cf !in cfs {
        return Some(UnknownCollection(cf));
      }
      if esType !in types {
        return Some(UnknownCollection(esType));
      }
      var cfSchema, typeSchema := cfs[cf], types[esType];
      requests := requests + [CqlQuery(ScanQuery(cf, cfSchema.id, cfSchema.timestamp))];
      if cf !in tables {
        return Some(MissingTable(cf));
      }
      var cassandraWatermark, esWatermark := Get(cassandraSynced, cf), Get(esSynced, esType);
      cassandraSynced := cassandraSynced[cf := now];
      esSynced := esSynced[esType := now];
      error := FinishPass(cf, esType, cfSchema, typeSchema, cassandraWatermark, esWatermark, now, tables[cf], DocsOf(indices, esType));
    }

    /** Lines 87-178: search the index, merge, and exchange the differences. */
    method FinishPass(cf: string, esType: string, cfSchema: Schema, typeSchema: Schema, cassandraWatermark: Option<int>, esWatermark: Option<int>, now: int, rows: seq<CfRow>, docs: seq<EsDoc>) returns (error: Option<SyncError>)
      modifies this`requests
      ensures Logged(old(requests), requests, error, index, cf, esType, cfSchema, typeSchema, cassandraWatermark, esWatermark, now, rows, docs)
    {
      var search := SummarySearch(esType, typeSchema, esWatermark, now);
      requests := requests + [search];
      var merged := MergeSummaries(cfSchema, typeSchema, cassandraWatermark, esWatermark, now, rows, docs);
      ghost var mid := requests;
      error := ExchangeMerged(cf, esType, cfSchema, typeSchema, rows, docs, merged);
      ghost var p := Conclude(index, cf, esType, cfSchema, typeSchema, rows, docs, merged);
      assert requests == old(requests) + [search] + p.requests && error == p.error;
    }

    /** Lines 124-178: classify the merged entries and exchange the differences; a failed merge ends the pass. */
    method ExchangeMerged(cf: string, esType: string, cfSchema: Schema, typeSchema: Schema, rows: seq<CfRow>, docs: seq<EsDoc>, merged: Result<AllData>) returns (error: Option<SyncError>)
      requires merged.Ok? ==> Valid(merged.value)
      modifies this`requests
      ensures var p := Conclude(index, cf, esType, cfSchema, typeSchema, rows, docs, merged);
        requests == old(requests) + p.requests && error == p.error
    {
      if merged.Err? {
        return Some(merged.error);
      }
      var plan := ClassifyAll(merged.value);
      error := Transfer(cf, esType, cfSchema, typeSchema, rows, docs, plan);
    }

    /** Lines 139-178: push what the index lacks, then, if that succeeded, pull what the table lacks. */
    method Transfer(cf: string, esType: string, cfSchema: Schema, typeSchema: Schema, rows: seq<CfRow>, docs: seq<EsDoc>, plan: Plan) returns (error: Option<SyncError>)
      modifies this`requests
      ensures var p := Exchange(index, cf, esType, cfSchema, typeSchema, rows, docs, plan);
        requests == old(requests) + p.requests && error == p.error
    {
      error := PushToEs(cf, esType, cfSchema, typeSchema, rows, plan);
      ghost var es := ToEs(index, cf, esType, cfSchema, typeSchema, rows, plan);
      if error.Some? {
        return;
      }
      error := PullFromEs(cf, esType, cfSchema, typeSchema, docs, plan);
      ghost var cassandra := ToCassandra(cf, esType, cfSchema, typeSchema, docs, plan);
      assert requests == old(requests) + (es.requests + cassandra.requests) && error == cassandra.error;
    }

    /** Lines 139-150: fetch the rows the index lacks or holds stale, and bulk-index them. */
    method PushToEs(cf: string, esType: string, cfSchema: Schema, typeSchema: Schema, rows: seq<CfRow>, plan: Plan) returns (error: Option<SyncError>)
      modifies this`requests
      ensures var p := ToEs(index, cf, esType, cfSchema, typeSchema, rows, plan);
        requests == old(requests) + p.requests && error == p.error
    {
      if ToEsIds(plan) == [] {
        return None;
      }
      var ids := Texts(ToEsIds(plan));
      requests := requests + [CqlQuery(LookupQuery(cf, CfFields(cfSchema), cfSchema.id, ids))];
      var found := Lookup(rows, ids);
      var actions := BuildActions(found, index, esType, cfSchema.columns, typeSchema.columns, typeSchema.id, typeSchema.timestamp);
      if actions.Err? {
        return Some(actions.error);
      }
      requests := requests + [EsBulk(actions.value)];
      return None;
    }

    /** Lines 152-178: fetch the documents the table lacks or holds stale, and write them in one batch. */
    method PullFromEs(cf: string, esType: string, cfSchema: Schema, typeSchema: Schema, docs: seq<EsDoc>, plan: Plan) returns (error: Option<SyncError>)
      modifies this`requests
      ensures var p := ToCassandra(cf, esType, cfSchema, typeSchema, docs, plan);
        requests == old(requests) + p.requests && error == p.error
    {
      if ToCassandraIds(plan) == [] {
        return None;
      }
      var fetchFields := FetchFields(typeSchema.columns, typeSchema.id, typeSchema.timestamp);
      var idsFilter := IdsFilter(esType, ToCassandraIds(plan));
      requests := requests + [EsSearch(esType, fetchFields, idsFilter)];
      var fetched := Search(docs, fetchFields, idsFilter);
      var cfFields := CfFields(cfSchema);
      var insert := InsertStatement(cf, cfFields);
      var update := UpdateStatement(cf, cfSchema.id, cfFields[1..]);
      var batch := BuildBatch(fetched, typeSchema.id, typeSchema.timestamp, typeSchema.columns, plan.insertOnCassandra, insert, update);
      if batch.Err? {
        return Some(batch.error);
      }
      requests := requests + [CqlBatch(batch.value)];
      return None;
    }

    /** One iteration of `sync_databases`: the watermarks, the log and the outcome are those of `Pass`. */
    method SyncPair(cf: string, esType: string, now: int, tables: map<string, seq<CfRow>>, indices: map<string, seq<EsDoc>>) returns (error: Option<SyncError>)
      modifies this
      ensures (State(), error) == Pass(index, cfs, types, cf, esType, now, tables, indices, old(State()))
    {
      error := SyncCfType(cf, esType, now, tables, indices);
    }

    /**
     * `sync_databases`: one pass per mapping, in order, stopping at the first
     * pass that fails. When every pass succeeds, every mapped column family
     * and type has `now` as its watermark.
     */
    method SyncDatabases(now: int, tables: map<string, seq<CfRow>>, indices: map<string, seq<EsDoc>>) returns (error: Option<SyncError>)
      modifies this
      ensures (State(), error) == Run(index, cfs, types, mappings, now, tables, indices, old(State()))
      ensures error.None? ==> forall i :: 0 <= i < |mappings| ==>
        && mappings[i].0 in cassandraSynced && cassandraSynced[mappings[i].0] == now
        && mappings[i].1 in esSynced && esSynced[mappings[i].1] == now
    {
      ghost var start := State();
      for i := 0 to |mappings|
        invariant Run(index, cfs, types, mappings[..i], now, tables, indices, start) == (State(), None)
      {
        var (cf, esType) := mappings[i];
        ghost var before := State();
        error := SyncPair(cf, esType, now, tables, indices);
        assert mappings[..i + 1][..i] == mappings[..i];
        assert Run(index, cfs, types, mappings[..i + 1], now, tables, indices, start) == (State(), error);
        if error.Some? {
          RunStopsAtFailure(index, cfs, types, mappings, now, tables, indices, start, i + 1);
          return;
        }
      }
      assert mappings[..|mappings|] == mappings;
      RunStampsEveryMapping(index, cfs, types, mappings, now, tables, indices, start);
      return None;
    }
  }

  /* ---------------------------------------------------------------------- */
  /* Running the mappings                                                   */
  /* ---------------------------------------------------------------------- */

  /**
   * A pass only appends to the log, and changes no watermark but those of
   * its own column family and type; when it succeeds, it has set both to `now`.
   */
  lemma PassTouchesOwnWatermarks(index: string, cfs: map<string, Schema>, types: map<string, Schema>, cf: string, esType: string, now: int, tables: map<string, seq<CfRow>>, indices: map<string, seq<EsDoc>>, s: SyncState)
    ensures var r := Pass(index, cfs, types, cf, esType, now, tables, indices, s).0;
      && s.requests <= r.requests
      && (forall c :: c != cf ==> Get(r.cassandraSynced, c) == Get(s.cassandraSynced, c))
      && (forall t :: t != esType ==> Get(r.esSynced, t) == Get(s.esSynced, t))
    ensures Pass(index, cfs, types, cf, esType, now, tables, indices, s).1.None? ==>
      var r := Pass(index, cfs, types, cf, esType, now, tables, indices, s).0;
      r.cassandraSynced == s.cassandraSynced[cf := now] && r.esSynced == s.esSynced[esType := now]
  {
  }

  /** Once a pass fails, later mappings are never run: the outcome is the one of the prefix that ends at the failure. */
  lemma {:induction false} RunStopsAtFailure(index: string, cfs: map<string, Schema>, types: map<string, Schema>, mappings: seq<(string, string)>, now: int, tables: map<string, seq<CfRow>>, indices: map<string, seq<EsDoc>>, s: SyncState, k: nat)
    requires k <= |mappings|
    requires Run(index, cfs, types, mappings[..k], now, tables, indices, s).1.Some?
    ensures Run(index, cfs, types, mappings, now, tables, indices, s) == Run(index, cfs, types, mappings[..k], now, tables, indices, s)
    decreases |mappings|
  {
    if k < |mappings| {
      var prefix := mappings[..|mappings| - 1];
      assert prefix[..k] == mappings[..k];
      RunStopsAtFailure(index, cfs, types, prefix, now, tables, indices, s, k);
    } else {
      assert mappings[..k] == mappings;
    }
  }

  /** When every pass succeeds, every mapped column family and type carries `now` as its watermark. */
  lemma {:induction false} RunStampsEveryMapping(index: string, cfs: map<string, Schema>, types: map<string, Schema>, mappings: seq<(string, string)>, now: int, tables: map<string, seq<CfRow>>, indices: map<string, seq<EsDoc>>, s: SyncState)
    requires Run(index, cfs, types, mappings, now, tables, indices, s).1.None?
    ensures var r := Run(index, cfs, types, mappings, now, tables, indices, s).0;
      forall i :: 0 <= i < |mappings| ==>
        && mappings[i].0 in r.cassandraSynced && r.cassandraSynced[mappings[i].0] == now
        && mappings[i].1 in r.esSynced && r.esSynced[mappings[i].1] == now
    decreases |mappings|
  {
    if mappings != [] {
      var prefix := mappings[..|mappings| - 1];
      RunStampsEveryMapping(index, cfs, types, prefix, now, tables, indices, s);
      var before := Run(index, cfs, types, prefix, now, tables, indices, s).0;
      var r := Run(index, cfs, types, mappings, now, tables, indices, s).0;
      var cf, esType := mappings[|mappings| - 1].0, mappings[|mappings| - 1].1;
      PassTouchesOwnWatermarks(index, cfs, types, cf, esType, now, tables, indices, before);
      assert r == Pass(index, cfs, types, cf, esType, now, tables, indices, before).0;
      forall i | 0 <= i < |prefix|
        ensures mappings[i] == prefix[i]
      {
      }
      StampedAfterLast(mappings, before, r, now);
    }
  }

  /** The watermark half of `RunStampsEveryMapping`'s step: the last pass stamps its own pair and keeps the earlier stamps. */
  lemma StampedAfterLast(mappings: seq<(string, string)>, before: SyncState, r: SyncState, now: int)
    requires |mappings| > 0
    requires forall i :: 0 <= i < |mappings| - 1 ==>
      && mappings[i].0 in before.cassandraSynced && before.cassandraSynced[mappings[i].0] == now
      && mappings[i].1 in before.esSynced && before.esSynced[mappings[i].1] == now
    requires r.cassandraSynced == before.cassandraSynced[mappings[|mappings| - 1].0 := now]
    requires r.esSynced == before.esSynced[mappings[|mappings| - 1].1 := now]
    ensures forall i :: 0 <= i < |mappings| ==>
      && mappings[i].0 in r.cassandraSynced && r.cassandraSynced[mappings[i].0] == now
      && mappings[i].1 in r.esSynced && r.esSynced[mappings[i].1] == now
  {
  }

  /* ---------------------------------------------------------------------- */
  /* What a pass sends                                                      */
  /* ---------------------------------------------------------------------- */

  /** When every id is a string, the lookup by the ids' text returns exactly the rows whose id is one of them. */
  lemma LookupSelectsIds(rows: seq<CfRow>, ids: seq<Json>)
    requires forall i :: 0 <= i < |ids| ==> ids[i].Str?
    ensures forall row :: row in Lookup(rows, Texts(ids)) <==> row in rows && Str(row.id) in ids
  {
    forall row | row in rows
      ensures row.id in Texts(ids) <==> Str(row.id) in ids
    {
      if row.id in Texts(ids) {
        var i :| 0 <= i < |ids| && Texts(ids)[i] == row.id;
        assert ids[i] == Str(row.id);
      }
      if Str(row.id) in ids {
        var i :| 0 <= i < |ids| && ids[i] == Str(row.id);
        assert Texts(ids)[i] == row.id;
      }
    }
  }

  /** Every key that has a Cassandra timestamp came from the table scan, so it is the text of a row id. */
  lemma MergedCassandraKeysAreText(cfSchema: Schema, typeSchema: Schema, cassandraWatermark: Option<int>, esWatermark: Option<int>, now: int, rows: seq<CfRow>, docs: seq<EsDoc>)
    requires Merged(cfSchema, typeSchema, cassandraWatermark, esWatermark, now, rows, docs).Ok?
    ensures var d := Merged(cfSchema, typeSchema, cassandraWatermark, esWatermark, now, rows, docs).value;
      forall k :: k in d.entries && d.entries[k].cassandra.Some? ==> k.Str?
  {
    var (start, end) := WindowOf(cassandraWatermark, now);
    var hits := Search(docs, [typeSchema.id, typeSchema.timestamp], SummaryBody(typeSchema.timestamp, esWatermark, now));
    MergeKeepsCassandra(LoadCassandra(rows, start, end), hits, typeSchema.id, typeSchema.timestamp);
  }

  /**
   * Every row the pass looks up and indexes has its key scheduled for an
   * insert or an update on the search index: its Cassandra timestamp is
   * truthy, and the index's windowed summary has no truthy timestamp for it
   * or an older one. Both summaries are windowed, so this says nothing of
   * copies outside the windows.
   */
  lemma PushedRowsAreStaleOnEs(cfSchema: Schema, typeSchema: Schema, cassandraWatermark: Option<int>, esWatermark: Option<int>, now: int, rows: seq<CfRow>, docs: seq<EsDoc>, row: CfRow)
    requires Merged(cfSchema, typeSchema, cassandraWatermark, esWatermark, now, rows, docs).Ok?
    requires row in Pushed(rows, PlanOf(Merged(cfSchema, typeSchema, cassandraWatermark, esWatermark, now, rows, docs).value))
    ensures var d := Merged(cfSchema, typeSchema, cassandraWatermark, esWatermark, now, rows, docs).value;
      Str(row.id) in d.entries && Classify(d.entries[Str(row.id)]) in {InsertOnEs, UpdateOnEs}
  {
    MergedCassandraKeysAreText(cfSchema, typeSchema, cassandraWatermark, esWatermark, now, rows, docs);
    PushedKeysAreStale(Merged(cfSchema, typeSchema, cassandraWatermark, esWatermark, now, rows, docs).value, rows, row);
  }

  /** The plan half of `PushedRowsAreStaleOnEs`, for any `all_data` whose Cassandra keys are text. */
  lemma PushedKeysAreStale(d: AllData, rows: seq<CfRow>, row: CfRow)
    requires forall k :: k in d.entries && d.entries[k].cassandra.Some? ==> k.Str?
    requires row in Pushed(rows, PlanOf(d))
    ensures Str(row.id) in d.entries && Classify(d.entries[Str(row.id)]) in {InsertOnEs, UpdateOnEs}
  {
    var ids := ToEsIds(PlanOf(d));
    assert row.id in Texts(ids);
    var i :| 0 <= i < |ids| && Texts(ids)[i] == row.id;
    var k := ids[i];
    SelectMembers(d.order, d.entries, InsertOnEs, k);
    SelectMembers(d.order, d.entries, UpdateOnEs, k);
    assert k in d.entries && Classify(d.entries[k]) in {InsertOnEs, UpdateOnEs};
    assert k == Str(row.id);
  }

  /**
   * When the type is keyed by `_id`, every document the pass fetches has
   * its key scheduled for an insert or an update on the column family: its
   * ES timestamp is truthy, and the table's windowed scan has no truthy
   * timestamp for it or an older one. A row outside the scan's window does
   * not count, so it can be overwritten by an older document.
   */
  lemma PulledDocsAreStaleOnCassandra(esType: string, typeSchema: Schema, docs: seq<EsDoc>, d: AllData, i: nat)
    requires Valid(d) && typeSchema.id == "_id"
    requires i < |Fetched(esType, typeSchema, docs, PlanOf(d))|
    ensures var key := Str(Fetched(esType, typeSchema, docs, PlanOf(d))[i].docId);
      key in d.entries && Classify(d.entries[key]) in {InsertOnCassandra, UpdateOnCassandra}
  {
    var plan := PlanOf(d);
    var fields := FetchFields(typeSchema.columns, typeSchema.id, typeSchema.timestamp);
    var body := IdsFilter(esType, ToCassandraIds(plan));
    var hits := Fetched(esType, typeSchema, docs, plan);
    SearchHits(docs, fields, body);
    assert hits[i] in hits;
    var doc :| doc in docs && Matches(body, doc) && hits[i] == HitOf(doc, fields);
    var key := Str(hits[i].docId);
    assert key in ToCassandraIds(plan);
    SelectMembers(d.order, d.entries, InsertOnCassandra, key);
    SelectMembers(d.order, d.entries, UpdateOnCassandra, key);
  }

  /**
   * A fetched document's batch entry is the insert when its key is scheduled
   * for an insert, and the update, with the id moved last, when it is
   * scheduled for an update.
   */
  lemma PulledEntryFollowsDisposition(cf: string, esType: string, cfSchema: Schema, typeSchema: Schema, docs: seq<EsDoc>, d: AllData, i: nat)
    requires Valid(d) && typeSchema.id == "_id"
    requires var hits := Fetched(esType, typeSchema, docs, PlanOf(d));
      && i < |hits|
      && BatchUpTo(hits, typeSchema.id, typeSchema.timestamp, typeSchema.columns, PlanOf(d).insertOnCassandra,
           InsertStatement(cf, CfFields(cfSchema)), UpdateStatement(cf, cfSchema.id, CfFields(cfSchema)[1..]), |hits|).Ok?
    ensures HitParams(Fetched(esType, typeSchema, docs, PlanOf(d))[i], typeSchema.id, typeSchema.timestamp, typeSchema.columns).Ok?
    ensures var hits := Fetched(esType, typeSchema, docs, PlanOf(d));
      var key := Str(hits[i].docId);
      var insert, update := InsertStatement(cf, CfFields(cfSchema)), UpdateStatement(cf, cfSchema.id, CfFields(cfSchema)[1..]);
      var e := BatchUpTo(hits, typeSchema.id, typeSchema.timestamp, typeSchema.columns, PlanOf(d).insertOnCassandra, insert, update, |hits|).value[i];
      var params := HitParams(hits[i], typeSchema.id, typeSchema.timestamp, typeSchema.columns).value.1;
      && key in d.entries
      && (Classify(d.entries[key]) == InsertOnCassandra ==> e == BatchEntry(insert, params))
      && (Classify(d.entries[key]) == UpdateOnCassandra ==> e == BatchEntry(update, params[1..] + [key]))
  {
    var hits := Fetched(esType, typeSchema, docs, PlanOf(d));
    var key := Str(hits[i].docId);
    var insert, update := InsertStatement(cf, CfFields(cfSchema)), UpdateStatement(cf, cfSchema.id, CfFields(cfSchema)[1..]);
    PulledDocsAreStaleOnCassandra(esType, typeSchema, docs, d, i);
    SelectMembers(d.order, d.entries, InsertOnCassandra, key);
    BatchInsertOrUpdate(hits, typeSchema.id, typeSchema.timestamp, typeSchema.columns, PlanOf(d).insertOnCassandra, insert, update, |hits|, i);
    var r := HitParams(hits[i], typeSchema.id, typeSchema.timestamp, typeSchema.columns);
    assert r.value.0 == key && r.value.1[0] == key;
  }

  /**
   * A row dated after the scan's window is not seen: with both watermarks at
   * 10 and the clock at 20, a row stamped 30 is left out of `all_data`, the
   * document stamped 15 is scheduled for an insert on the column family, and
   * the pass fetches it, so the older document overwrites the newer row.
   */
  lemma OutOfWindowRowIsOverwritten()
    ensures var cfSchema, typeSchema := Schema("id", "ts", []), Schema("_id", "ts", []);
      var rows, docs := [CfRow("a", 30, map[])], [EsDoc("a", map["ts" := Num(15)])];
      var m := Merged(cfSchema, typeSchema, Some(10), Some(10), 20, rows, docs);
      && m.Ok? && Str("a") in m.value.entries
      && m.value.entries[Str("a")] == Entry(None, Some(15))
      && Classify(m.value.entries[Str("a")]) == InsertOnCassandra
      && |Fetched("t", typeSchema, docs, PlanOf(m.value))| == 1
      && Fetched("t", typeSchema, docs, PlanOf(m.value))[0].docId == "a"
  {
    var cfSchema, typeSchema := Schema("id", "ts", []), Schema("_id", "ts", []);
    var rows, docs := [CfRow("a", 30, map[])], [EsDoc("a", map["ts" := Num(15)])];
    var doc := docs[0];
    var scanned := LoadCassandra(rows, Some(10), Some(20));
    assert rows[..0] == [];
    assert scanned == Empty();
    var body := SummaryBody("ts", Some(10), 20);
    assert Matches(body, doc);
    var hits := Search(docs, ["_id", "ts"], body);
    assert hits == [HitOf(doc, ["_id", "ts"])];
    HitOfFields(doc, ["_id", "ts"]);
    var h := hits[0];
    assert h.fields["ts"] == Arr([Num(15)]);
    assert HitTimestamp(h, "ts") == Ok(15);
    var m := Merged(cfSchema, typeSchema, Some(10), Some(10), 20, rows, docs);
    assert hits[..0] == [];
    assert m == Ok(PutEs(scanned, Str("a"), 15));
    var d := m.value;
    assert d.entries[Str("a")] == Entry(None, Some(15));
    SelectMembers(d.order, d.entries, InsertOnCassandra, Str("a"));
    SelectMembers(d.order, d.entries, UpdateOnCassandra, Str("a"));
    var ids := ToCassandraIds(PlanOf(d));
    assert Str("a") in ids;
    var fetchBody := IdsFilter("t", ids);
    assert Matches(fetchBody, doc);
    var fields := FetchFields(typeSchema.columns, typeSchema.id, typeSchema.timestamp);
    assert Search(docs, fields, fetchBody) == [HitOf(doc, fields)];
  }

  /** When both sides agree on every key, the pass sends nothing after its two summary requests and succeeds. */
  lemma InSyncPassSendsNothing(index: string, cf: string, esType: string, cfSchema: Schema, typeSchema: Schema, rows: seq<CfRow>, docs: seq<EsDoc>, d: AllData)
    requires forall k :: k in d.entries ==> d.entries[k].cassandra == d.entries[k].es
    ensures Conclude(index, cf, esType, cfSchema, typeSchema, rows, docs, Ok(d)) == PassResult([], None)
  {
    AgreeingSidesScheduleNothing(d);
  }
}
