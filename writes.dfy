/**
 * The writes one pass builds: the bulk actions for the search index, built
 * from full column-family rows by positional field mapping, and the batch of
 * prepared INSERT and UPDATE statements for the column family, built from
 * search hits.
 */
module Writes {
  import opened Wrappers
  import opened Values
  import opened EsQueries
  import opened Statements
  import opened Reconcile

  /* ---------------------------------------------------------------------- */
  /* Column family -> search index                                          */
  /* ---------------------------------------------------------------------- */

  /** `typeFields[j]` is not reassigned by a later position below `n`. */
  predicate LastAssignment(typeFields: seq<string>, n: nat, i: nat)
    requires i < n <= |typeFields|
  {
    forall j :: i < j < n ==> typeFields[j] != typeFields[i]
  }

  /**
   * Lines 144-146 for the first `n` positions: `data[typeFields[i]] =
   * columns[cfFields[i]]`, failing at the first position whose column is
   * missing or that has no counterpart in `typeFields`.
   */
  function RemapUpTo(columns: map<string, Json>, cfFields: seq<string>, typeFields: seq<string>, n: nat): (r: Result<map<string, Json>>)
    requires n <= |cfFields|
    ensures r.Ok? <==> n <= |typeFields| && forall i :: 0 <= i < n ==> cfFields[i] in columns
  {
    if n == 0 then Ok(map[])
    else match RemapUpTo(columns, cfFields, typeFields, n - 1)
      case Err(e) => Err(e)
      case Ok(data) =>
        if cfFields[n - 1] !in columns then Err(KeyMissing(cfFields[n - 1]))
        else if n - 1 >= |typeFields| then Err(IndexOutOfRange)
        else Ok(data[typeFields[n - 1] := columns[cfFields[n - 1]]])
  }

  /** The `_source` of the document a column-family row becomes. */
  function Remap(columns: map<string, Json>, cfFields: seq<string>, typeFields: seq<string>): Result<map<string, Json>> {
    RemapUpTo(columns, cfFields, typeFields, |cfFields|)
  }

  /**
   * Positional mapping: after the first `n` positions the keys are exactly
   * `typeFields[..n]`, and the key `typeFields[i]` holds the value of
   * `cfFields[i]` (the last such position when a type field is named twice).
   */
  lemma {:induction false} RemapPositional(columns: map<string, Json>, cfFields: seq<string>, typeFields: seq<string>, n: nat)
    requires n <= |cfFields|
    requires RemapUpTo(columns, cfFields, typeFields, n).Ok?
    ensures var data := RemapUpTo(columns, cfFields, typeFields, n).value;
      && data.Keys == (set i | 0 <= i < n :: typeFields[i])
      && forall i :: 0 <= i < n && LastAssignment(typeFields, n, i) ==> data[typeFields[i]] == columns[cfFields[i]]
  {
    if n > 0 {
      RemapPositional(columns, cfFields, typeFields, n - 1);
      var data := RemapUpTo(columns, cfFields, typeFields, n - 1).value;
      var data' := RemapUpTo(columns, cfFields, typeFields, n).value;
      assert data' == data[typeFields[n - 1] := columns[cfFields[n - 1]]];
      assert (set i | 0 <= i < n :: typeFields[i]) == (set i | 0 <= i < n - 1 :: typeFields[i]) + {typeFields[n - 1]};
      forall i | 0 <= i < n && LastAssignment(typeFields, n, i)
        ensures data'[typeFields[i]] == columns[cfFields[i]]
      {
        if i < n - 1 {
          assert LastAssignment(typeFields, n - 1, i);
        }
      }
    }
  }

  /** The loop of lines 144-146. */
  method SourceFromRow(row: CfRow, cfFields: seq<string>, typeFields: seq<string>) returns (r: Result<map<string, Json>>)
    ensures r == Remap(row.columns, cfFields, typeFields)
  {
    var data: map<string, Json> := map[];
    for i := 0 to |cfFields|
      invariant RemapUpTo(row.columns, cfFields, typeFields, i) == Ok(data)
    {
      if cfFields[i] !in row.columns {
        r := Err(KeyMissing(cfFields[i]));
        RemapStopsAtError(row.columns, cfFields, typeFields, i + 1, |cfFields|);
        return;
      }
      if i >= |typeFields| {
        r := Err(IndexOutOfRange);
        RemapStopsAtError(row.columns, cfFields, typeFields, i + 1, |cfFields|);
        return;
      }
      data := data[typeFields[i] := row.columns[cfFields[i]]];
    }
    r := Ok(data);
  }

  lemma {:induction false} RemapStopsAtError(columns: map<string, Json>, cfFields: seq<string>, typeFields: seq<string>, n: nat, m: nat)
    requires n <= m <= |cfFields|
    requires RemapUpTo(columns, cfFields, typeFields, n).Err?
    ensures RemapUpTo(columns, cfFields, typeFields, m) == RemapUpTo(columns, cfFields, typeFields, n)
  {
    if m > n {
      RemapStopsAtError(columns, cfFields, typeFields, n, m - 1);
    }
  }

  /**
   * `get_es_bulk_action`: the timestamp goes into the document as text under
   * the type's timestamp field, and the action names the index, the type, the
   * id (as text, under the type's id field) and the document. Keys are set in
   * that order, so a later one wins where two names coincide.
   */
  function BulkAction(index: string, esType: string, idColumn: string, id: string, tsColumn: string, ts: int, data: map<string, Json>): Json {
    var source := data[tsColumn := Str(ShowInt(ts))];
    Obj(map["_index" := Str(index)]["_type" := Str(esType)][idColumn := Str(id)]["_source" := Obj(source)])
  }

  /**
   * The action holds exactly `_index`, `_type`, the id field and `_source`;
   * the id is stored as text, and `_source` is the data with the timestamp
   * added as text.
   */
  lemma BulkActionFields(index: string, esType: string, idColumn: string, id: string, tsColumn: string, ts: int, data: map<string, Json>)
    ensures var r := BulkAction(index, esType, idColumn, id, tsColumn, ts, data);
      && r.Obj? && r.members.Keys == {"_index", "_type", idColumn, "_source"}
      && r.members["_source"] == Obj(data[tsColumn := Str(ShowInt(ts))])
      && (idColumn != "_source" ==> r.members[idColumn] == Str(id))
      && (idColumn != "_index" ==> r.members["_index"] == Str(index))
      && (idColumn != "_type" ==> r.members["_type"] == Str(esType))
  {
  }

  /**
   * The document a bulk action writes carries the row's timestamp so that a
   * later range search reads it back as the same number: the copy is seen by
   * the next pass's window exactly when the row's timestamp lies in it.
   */
  lemma BulkTimestampReadBack(index: string, esType: string, idColumn: string, id: string, tsColumn: string, ts: int, data: map<string, Json>, docId: string, start: int, end: int)
    ensures var source := BulkAction(index, esType, idColumn, id, tsColumn, ts, data).members["_source"].members;
      && NumberAt(EsDoc(docId, source), tsColumn) == Some(ts)
      && (InWindow(EsDoc(docId, source), tsColumn, start, end) <==> start <= ts <= end)
  {
    BulkActionFields(index, esType, idColumn, id, tsColumn, ts, data);
    ParseShowInt(ts);
  }

  /** The full rows the lookup query returns: those whose key is in the IN list, in table order. */
  function Lookup(rows: seq<CfRow>, ids: seq<string>): (r: seq<CfRow>)
    ensures forall row :: row in r <==> row in rows && row.id in ids
  {
    if rows == [] then []
    else (if rows[0].id in ids then [rows[0]] else []) + Lookup(rows[1..], ids)
  }

  /** The bulk actions for the first `n` looked-up rows (lines 143-148), failing at the first row that cannot be mapped. */
  function ActionsUpTo(rows: seq<CfRow>, index: string, esType: string, cfFields: seq<string>, typeFields: seq<string>, idColumn: string, tsColumn: string, n: nat): (r: Result<seq<Json>>)
    requires n <= |rows|
    ensures r.Ok? ==> |r.value| == n
  {
    if n == 0 then Ok([])
    else match ActionsUpTo(rows, index, esType, cfFields, typeFields, idColumn, tsColumn, n - 1)
      case Err(e) => Err(e)
      case Ok(actions) =>
        match Remap(rows[n - 1].columns, cfFields, typeFields)
        case Err(e) => Err(e)
        case Ok(data) => Ok(actions + [BulkAction(index, esType, idColumn, rows[n - 1].id, tsColumn, rows[n - 1].ts, data)])
  }

  /** If building succeeds, the `i`-th action is built from the `i`-th row's remapped data. */
  lemma {:induction false} ActionsPerRow(rows: seq<CfRow>, index: string, esType: string, cfFields: seq<string>, typeFields: seq<string>, idColumn: string, tsColumn: string, n: nat, i: nat)
    requires i < n <= |rows|
    requires ActionsUpTo(rows, index, esType, cfFields, typeFields, idColumn, tsColumn, n).Ok?
    ensures Remap(rows[i].columns, cfFields, typeFields).Ok?
    ensures ActionsUpTo(rows, index, esType, cfFields, typeFields, idColumn, tsColumn, n).value[i] ==
      BulkAction(index, esType, idColumn, rows[i].id, tsColumn, rows[i].ts, Remap(rows[i].columns, cfFields, typeFields).value)
  {
    var prev := ActionsUpTo(rows, index, esType, cfFields, typeFields, idColumn, tsColumn, n - 1);
    var data := Remap(rows[n - 1].columns, cfFields, typeFields);
    assert prev.Ok? && data.Ok?;
    var actions := ActionsUpTo(rows, index, esType, cfFields, typeFields, idColumn, tsColumn, n).value;
    assert actions == prev.value + [BulkAction(index, esType, idColumn, rows[n - 1].id, tsColumn, rows[n - 1].ts, data.value)];
    if i < n - 1 {
      ActionsPerRow(rows, index, esType, cfFields, typeFields, idColumn, tsColumn, n - 1, i);
      assert actions[i] == prev.value[i];
    }
  }

  lemma {:induction false} ActionsStopAtError(rows: seq<CfRow>, index: string, esType: string, cfFields: seq<string>, typeFields: seq<string>, idColumn: string, tsColumn: string, n: nat, m: nat)
    requires n <= m <= |rows|
    requires ActionsUpTo(rows, index, esType, cfFields, typeFields, idColumn, tsColumn, n).Err?
    ensures ActionsUpTo(rows, index, esType, cfFields, typeFields, idColumn, tsColumn, m) == ActionsUpTo(rows, index, esType, cfFields, typeFields, idColumn, tsColumn, n)
  {
    if m > n {
      ActionsStopAtError(rows, index, esType, cfFields, typeFields, idColumn, tsColumn, n, m - 1);
    }
  }

  /** One step of the actions fold: the next row's action is appended, or its remap error ends the fold. */
  /** Building the actions succeeds exactly when every row's data columns can be remapped. */
  lemma {:induction false} ActionsSucceed(rows: seq<CfRow>, index: string, esType: string, cfFields: seq<string>, typeFields: seq<string>, idColumn: string, tsColumn: string, n: nat)
    requires n <= |rows|
    ensures ActionsUpTo(rows, index, esType, cfFields, typeFields, idColumn, tsColumn, n).Ok? <==>
      forall i :: 0 <= i < n ==> Remap(rows[i].columns, cfFields, typeFields).Ok?
  {
    if n > 0 {
      ActionsSucceed(rows, index, esType, cfFields, typeFields, idColumn, tsColumn, n - 1);
    }
  }

  lemma ActionsStep(rows: seq<CfRow>, index: string, esType: string, cfFields: seq<string>, typeFields: seq<string>, idColumn: string, tsColumn: string, i: nat, actions: seq<Json>)
    requires i < |rows|
    requires ActionsUpTo(rows, index, esType, cfFields, typeFields, idColumn, tsColumn, i) == Ok(actions)
    ensures var data := Remap(rows[i].columns, cfFields, typeFields);
      && (data.Err? ==> ActionsUpTo(rows, index, esType, cfFields, typeFields, idColumn, tsColumn, i + 1) == Err(data.error))
      && (data.Ok? ==>
            ActionsUpTo(rows, index, esType, cfFields, typeFields, idColumn, tsColumn, i + 1) ==
            Ok(actions + [BulkAction(index, esType, idColumn, rows[i].id, tsColumn, rows[i].ts, data.value)]))
  {
  }

  /** The loop of lines 143-148. */
  method BuildActions(rows: seq<CfRow>, index: string, esType: string, cfFields: seq<string>, typeFields: seq<string>, idColumn: string, tsColumn: string) returns (r: Result<seq<Json>>)
    ensures r == ActionsUpTo(rows, index, esType, cfFields, typeFields, idColumn, tsColumn, |rows|)
  {
    var actions: seq<Json> := [];
    for i := 0 to |rows|
      invariant ActionsUpTo(rows, index, esType, cfFields, typeFields, idColumn, tsColumn, i) == Ok(actions)
    {
      var data := SourceFromRow(rows[i], cfFields, typeFields);
      ActionsStep(rows, index, esType, cfFields, typeFields, idColumn, tsColumn, i, actions);
      if data.Err? {
        r := Err(data.error);
        ActionsStopAtError(rows, index, esType, cfFields, typeFields, idColumn, tsColumn, i + 1, |rows|);
        return;
      }
      actions := actions + [BulkAction(index, esType, idColumn, rows[i].id, tsColumn, rows[i].ts, data.value)];
    }
    r := Ok(actions);
  }

  /* ---------------------------------------------------------------------- */
  /* Search index -> column family                                          */
  /* ---------------------------------------------------------------------- */

  /** One statement of the batch with its parameter tuple. */
  datatype BatchEntry = BatchEntry(statement: string, params: seq<Json>)

  /** The fields the fetch by id asks for: `type_fields` of line 155. */
  function FetchFields(typeFields: seq<string>, idColumn: string, tsColumn: string): (r: seq<string>)
    ensures forall f :: f in r <==> f in typeFields || f == idColumn || f == tsColumn
  {
    typeFields + [idColumn, tsColumn]
  }

  /**
   * Every document the fetch by id matches comes back as a hit that carries,
   * as a list, each of the type's data fields, its id field and its timestamp
   * field that the document has: all that reading the hit (lines 161-167) needs.
   */
  lemma FetchedHitsCarryTypeFields(docs: seq<EsDoc>, typeFields: seq<string>, idColumn: string, tsColumn: string, body: Json, doc: EsDoc)
    requires doc in docs && Matches(body, doc)
    ensures var h := HitOf(doc, FetchFields(typeFields, idColumn, tsColumn));
      && h in Search(docs, FetchFields(typeFields, idColumn, tsColumn), body)
      && (forall f :: (f in typeFields || f == idColumn || f == tsColumn) && f in doc.source ==>
            f in h.fields && h.fields[f] == AsList(doc.source[f]))
  {
    var fields := FetchFields(typeFields, idColumn, tsColumn);
    SearchHits(docs, fields, body);
    HitOfFields(doc, fields);
  }

  /** The first value of each of the first `n` mapped fields of a hit (lines 166-167). */
  function HitValuesUpTo(h: Hit, typeFields: seq<string>, n: nat): (r: Result<seq<Json>>)
    requires n <= |typeFields|
    ensures r.Ok? ==> |r.value| == n
    ensures r.Ok? ==> forall i :: 0 <= i < n ==>
      typeFields[i] in h.fields && First(h.fields[typeFields[i]]) == Ok(r.value[i])
  {
    if n == 0 then Ok([])
    else match HitValuesUpTo(h, typeFields, n - 1)
      case Err(e) => Err(e)
      case Ok(values) =>
        var f := typeFields[n - 1];
        if f !in h.fields then Err(KeyMissing(f))
        else match First(h.fields[f])
          case Err(e) => Err(e)
          case Ok(v) => Ok(values + [v])
  }

  lemma {:induction false} HitValuesStopAtError(h: Hit, typeFields: seq<string>, n: nat, m: nat)
    requires n <= m <= |typeFields|
    requires HitValuesUpTo(h, typeFields, n).Err?
    ensures HitValuesUpTo(h, typeFields, m) == HitValuesUpTo(h, typeFields, n)
  {
    if m > n {
      HitValuesStopAtError(h, typeFields, n, m - 1);
    }
  }

  /** The loop of lines 166-167. */
  /** Reading the values succeeds exactly when every mapped field is on the hit and its first element can be taken. */
  lemma {:induction false} HitValuesSucceed(h: Hit, typeFields: seq<string>, n: nat)
    requires n <= |typeFields|
    ensures HitValuesUpTo(h, typeFields, n).Ok? <==>
      forall i :: 0 <= i < n ==> typeFields[i] in h.fields && First(h.fields[typeFields[i]]).Ok?
  {
    if n > 0 {
      HitValuesSucceed(h, typeFields, n - 1);
    }
  }

  method HitValues(h: Hit, typeFields: seq<string>) returns (r: Result<seq<Json>>)
    ensures r == HitValuesUpTo(h, typeFields, |typeFields|)
  {
    var values: seq<Json> := [];
    for i := 0 to |typeFields|
      invariant HitValuesUpTo(h, typeFields, i) == Ok(values)
    {
      var f := typeFields[i];
      if f !in h.fields {
        r := Err(KeyMissing(f));
        HitValuesStopAtError(h, typeFields, i + 1, |typeFields|);
        return;
      }
      var v := First(h.fields[f]);
      if v.Err? {
        r := Err(v.error);
        HitValuesStopAtError(h, typeFields, i + 1, |typeFields|);
        return;
      }
      values := values + [v.value];
    }
    r := Ok(values);
  }

  /** `UUID(id_value)`: the token is kept as its text; anything but a string is refused. */
  function Uuid(id: Json): Result<Json> {
    if id.Str? then Ok(id) else Err(MalformedId)
  }

  /** The id of a fetched hit and its full parameter tuple `[id, timestamp] + values` (lines 161-167). */
  function HitParams(h: Hit, idColumn: string, tsColumn: string, typeFields: seq<string>): (r: Result<(Json, seq<Json>)>)
    ensures r.Ok? ==> r.value.0.Str? && |r.value.1| == 2 + |typeFields| && r.value.1[0] == r.value.0
    ensures r.Ok? ==> HitKey(h, idColumn) == Ok(r.value.0)
    ensures r.Ok? ==> HitTimestamp(h, tsColumn).Ok? && r.value.1[1] == Num(HitTimestamp(h, tsColumn).value)
    ensures r.Ok? ==> HitValuesUpTo(h, typeFields, |typeFields|) == Ok(r.value.1[2..])
  {
    match HitKey(h, idColumn)
    case Err(e) => Err(e)
    case Ok(key) =>
      match Uuid(key)
      case Err(e) => Err(e)
      case Ok(id) =>
        match HitTimestamp(h, tsColumn)
        case Err(e) => Err(e)
        case Ok(ts) =>
          match HitValuesUpTo(h, typeFields, |typeFields|)
          case Err(e) => Err(e)
          case Ok(values) =>
            var params := [id, Num(ts)] + values;
            assert params[2..] == values;
            Ok((key, params))
  }

  /**
   * Lines 172-175: an id to insert gets the INSERT statement with the full
   * tuple; any other id gets the UPDATE statement with the tuple minus its id,
   * followed by the id for the WHERE clause.
   */
  function EntryFor(key: Json, params: seq<Json>, insertIds: seq<Json>, insert: string, update: string): BatchEntry
    requires |params| > 0
  {
    if key in insertIds then BatchEntry(insert, params) else BatchEntry(update, params[1..] + [key])
  }

  /**
   * The batch for the first `n` fetched hits, failing at the first hit that
   * cannot be read. `insert` and `update` are the two prepared statements;
   * they depend only on the column family, so they are built once.
   */
  function BatchUpTo(hits: seq<Hit>, idColumn: string, tsColumn: string, typeFields: seq<string>, insertIds: seq<Json>, insert: string, update: string, n: nat): (r: Result<seq<BatchEntry>>)
    requires n <= |hits|
    ensures r.Ok? ==> |r.value| == n
  {
    if n == 0 then Ok([])
    else match BatchUpTo(hits, idColumn, tsColumn, typeFields, insertIds, insert, update, n - 1)
      case Err(e) => Err(e)
      case Ok(batch) =>
        match HitParams(hits[n - 1], idColumn, tsColumn, typeFields)
        case Err(e) => Err(e)
        case Ok(p) => Ok(batch + [EntryFor(p.0, p.1, insertIds, insert, update)])
  }

  /**
   * Insert or update: if building succeeds, the `i`-th entry uses the INSERT
   * statement with the `i`-th hit's full tuple exactly when its id is one of
   * the ids to insert, and otherwise the UPDATE statement with that tuple
   * rotated so that the id comes last.
   */
  lemma {:induction false} BatchInsertOrUpdate(hits: seq<Hit>, idColumn: string, tsColumn: string, typeFields: seq<string>, insertIds: seq<Json>, insert: string, update: string, n: nat, i: nat)
    requires i < n <= |hits|
    requires BatchUpTo(hits, idColumn, tsColumn, typeFields, insertIds, insert, update, n).Ok?
    ensures HitParams(hits[i], idColumn, tsColumn, typeFields).Ok?
    ensures var e := BatchUpTo(hits, idColumn, tsColumn, typeFields, insertIds, insert, update, n).value[i];
      var (key, params) := HitParams(hits[i], idColumn, tsColumn, typeFields).value;
      && (key in insertIds ==> e == BatchEntry(insert, params))
      && (key !in insertIds ==> e == BatchEntry(update, params[1..] + [params[0]]))
  {
    var prev := BatchUpTo(hits, idColumn, tsColumn, typeFields, insertIds, insert, update, n - 1);
    var p := HitParams(hits[n - 1], idColumn, tsColumn, typeFields);
    assert prev.Ok? && p.Ok?;
    var batch := BatchUpTo(hits, idColumn, tsColumn, typeFields, insertIds, insert, update, n).value;
    assert batch == prev.value + [EntryFor(p.value.0, p.value.1, insertIds, insert, update)];
    if i < n - 1 {
      BatchInsertOrUpdate(hits, idColumn, tsColumn, typeFields, insertIds, insert, update, n - 1, i);
      assert batch[i] == prev.value[i];
    }
  }

  /** One step of the batch fold: the next hit's entry is appended, or its read error ends the fold. */
  lemma BatchStep(hits: seq<Hit>, idColumn: string, tsColumn: string, typeFields: seq<string>, insertIds: seq<Json>, insert: string, update: string, i: nat, batch: seq<BatchEntry>)
    requires i < |hits|
    requires BatchUpTo(hits, idColumn, tsColumn, typeFields, insertIds, insert, update, i) == Ok(batch)
    ensures var p := HitParams(hits[i], idColumn, tsColumn, typeFields);
      && (p.Err? ==> BatchUpTo(hits, idColumn, tsColumn, typeFields, insertIds, insert, update, i + 1) == Err(p.error))
      && (p.Ok? ==>
            BatchUpTo(hits, idColumn, tsColumn, typeFields, insertIds, insert, update, i + 1) ==
            Ok(batch + [EntryFor(p.value.0, p.value.1, insertIds, insert, update)]))
  {
  }

  /** Building the batch succeeds exactly when every fetched hit's parameter tuple can be read. */
  lemma BatchSucceeds(hits: seq<Hit>, idColumn: string, tsColumn: string, typeFields: seq<string>, insertIds: seq<Json>, insert: string, update: string, n: nat)
    requires n <= |hits|
    ensures BatchUpTo(hits, idColumn, tsColumn, typeFields, insertIds, insert, update, n).Ok? <==>
      forall i :: 0 <= i < n ==> HitParams(hits[i], idColumn, tsColumn, typeFields).Ok?
  {
    if forall i :: 0 <= i < n ==> HitParams(hits[i], idColumn, tsColumn, typeFields).Ok? {
      ReadableHitsBatch(hits, idColumn, tsColumn, typeFields, insertIds, insert, update, n);
    } else {
      var i :| 0 <= i < n && !HitParams(hits[i], idColumn, tsColumn, typeFields).Ok?;
      if BatchUpTo(hits, idColumn, tsColumn, typeFields, insertIds, insert, update, n).Ok? {
        BatchInsertOrUpdate(hits, idColumn, tsColumn, typeFields, insertIds, insert, update, n, i);
      }
    }
  }

  /** The half of `BatchSucceeds` by induction: when every hit can be read, so can the batch. */
  lemma {:induction false} ReadableHitsBatch(hits: seq<Hit>, idColumn: string, tsColumn: string, typeFields: seq<string>, insertIds: seq<Json>, insert: string, update: string, n: nat)
    requires n <= |hits|
    requires forall i :: 0 <= i < n ==> HitParams(hits[i], idColumn, tsColumn, typeFields).Ok?
    ensures BatchUpTo(hits, idColumn, tsColumn, typeFields, insertIds, insert, update, n).Ok?
  {
    if n > 0 {
      ReadableHitsBatch(hits, idColumn, tsColumn, typeFields, insertIds, insert, update, n - 1);
      var prefix := BatchUpTo(hits, idColumn, tsColumn, typeFields, insertIds, insert, update, n - 1);
      BatchStep(hits, idColumn, tsColumn, typeFields, insertIds, insert, update, n - 1, prefix.value);
    }
  }

  lemma {:induction false} BatchStopsAtError(hits: seq<Hit>, idColumn: string, tsColumn: string, typeFields: seq<string>, insertIds: seq<Json>, insert: string, update: string, n: nat, m: nat)
    requires n <= m <= |hits|
    requires BatchUpTo(hits, idColumn, tsColumn, typeFields, insertIds, insert, update, n).Err?
    ensures BatchUpTo(hits, idColumn, tsColumn, typeFields, insertIds, insert, update, m) == BatchUpTo(hits, idColumn, tsColumn, typeFields, insertIds, insert, update, n)
  {
    if m > n {
      BatchStopsAtError(hits, idColumn, tsColumn, typeFields, insertIds, insert, update, n, m - 1);
      var prev := BatchUpTo(hits, idColumn, tsColumn, typeFields, insertIds, insert, update, m - 1);
      assert prev.Err?;
      assert BatchUpTo(hits, idColumn, tsColumn, typeFields, insertIds, insert, update, m) == Err(prev.error);
    }
  }

  /** Lines 161-175 for one fetched hit: read its id, timestamp and values, and choose its statement. */
  method HitEntry(h: Hit, idColumn: string, tsColumn: string, typeFields: seq<string>, insertIds: seq<Json>, insert: string, update: string) returns (r: Result<BatchEntry>)
    ensures var p := HitParams(h, idColumn, tsColumn, typeFields);
      && (p.Err? ==> r == Err(p.error))
      && (p.Ok? ==> r == Ok(EntryFor(p.value.0, p.value.1, insertIds, insert, update)))
  {
    var key := HitKey(h, idColumn);
    var id := if key.Ok? then Uuid(key.value) else Err(MalformedId);
    var ts := HitTimestamp(h, tsColumn);
    var values := HitValues(h, typeFields);
    if key.Err? || id.Err? || ts.Err? || values.Err? {
      return if key.Err? then Err(key.error) else if id.Err? then Err(id.error)
             else if ts.Err? then Err(ts.error) else Err(values.error);
    }
    var esData := [id.value, Num(ts.value)] + values.value;
    assert HitParams(h, idColumn, tsColumn, typeFields) == Ok((key.value, esData));
    if key.value in insertIds {
      r := Ok(BatchEntry(insert, esData));
    } else {
      r := Ok(BatchEntry(update, esData[1..] + [id.value]));
    }
  }

  /** The loop of lines 159-175. */
  method BuildBatch(hits: seq<Hit>, idColumn: string, tsColumn: string, typeFields: seq<string>, insertIds: seq<Json>, insert: string, update: string) returns (r: Result<seq<BatchEntry>>)
    ensures r == BatchUpTo(hits, idColumn, tsColumn, typeFields, insertIds, insert, update, |hits|)
  {
    var batch: seq<BatchEntry> := [];
    for i := 0 to |hits|
      invariant BatchUpTo(hits, idColumn, tsColumn, typeFields, insertIds, insert, update, i) == Ok(batch)
    {
      var entry := HitEntry(hits[i], idColumn, tsColumn, typeFields, insertIds, insert, update);
      BatchStep(hits, idColumn, tsColumn, typeFields, insertIds, insert, update, i, batch);
      if entry.Err? {
        r := Err(entry.error);
        BatchStopsAtError(hits, idColumn, tsColumn, typeFields, insertIds, insert, update, i + 1, |hits|);
        return;
      }
      batch := batch + [entry.value];
    }
    r := Ok(batch);
  }

  /**
   * Every batch entry binds as many values as its statement has placeholders
   * when the two field lists have the same length: an insert binds the id,
   * the timestamp and the values, an update binds the timestamp and the values
   * and then the id for its WHERE clause.
   */
  lemma BatchArity(hits: seq<Hit>, cf: string, cfFields: seq<string>, idColumn: string, tsColumn: string, typeFields: seq<string>, insertIds: seq<Json>, i: nat)
    requires |cfFields| == 2 + |typeFields|
    requires '?' !in cf && NoMarks(cfFields)
    requires BatchUpTo(hits, idColumn, tsColumn, typeFields, insertIds, InsertStatement(cf, cfFields), UpdateStatement(cf, cfFields[0], cfFields[1..]), |hits|).Ok?
    requires i < |hits|
    ensures var e := BatchUpTo(hits, idColumn, tsColumn, typeFields, insertIds, InsertStatement(cf, cfFields), UpdateStatement(cf, cfFields[0], cfFields[1..]), |hits|).value[i];
      |e.params| == Count('?', e.statement)
  {
    BatchInsertOrUpdate(hits, idColumn, tsColumn, typeFields, insertIds, InsertStatement(cf, cfFields), UpdateStatement(cf, cfFields[0], cfFields[1..]), |hits|, i);
    InsertPlaceholders(cf, cfFields);
    assert NoMarks(cfFields[1..]) by {
      forall j | 0 <= j < |cfFields[1..]| ensures '?' !in cfFields[1..][j] {
        assert cfFields[1..][j] == cfFields[j + 1];
      }
    }
    assert '?' !in cfFields[0];
    UpdatePlaceholders(cf, cfFields[0], cfFields[1..]);
  }

  /* ---------------------------------------------------------------------- */
  /* The source as written, where it reads ES fields differently            */
  /* ---------------------------------------------------------------------- */

  /** Line 117 as written: the id is the whole field value (a list), not its first element. */
  function HitKeyAsWritten(h: Hit, idColumn: string): Result<Json> {
    if idColumn == "_id" then Ok(Str(h.docId))
    else if idColumn !in h.fields then Err(KeyMissing(idColumn))
    else Ok(h.fields[idColumn])
  }

  /** Lines 113-122 as written, with the id read by `HitKeyAsWritten`. */
  function MergeHitAsWritten(d: AllData, h: Hit, idColumn: string, tsColumn: string): Result<AllData>
    requires Valid(d)
  {
    if |h.fields| == 0 then Ok(d)
    else match HitKeyAsWritten(h, idColumn)
      case Err(e) => Err(e)
      case Ok(key) =>
        match HitTimestamp(h, tsColumn)
        case Err(e) => Err(e)
        case Ok(ts) => if Hashable(key) then Ok(PutEs(d, key, ts)) else Err(Unhashable)
  }

  /**
   * As written, a summary hit found through an id field other than `_id`
   * always aborts the pass: every field of a hit is a list, and a list cannot
   * be a dictionary key. Read with `[0]` the same hit merges under its id.
   */
  lemma FieldIdAsWritten(docs: seq<EsDoc>, tsColumn: string, idColumn: string, d: AllData, body: Json, h: Hit)
    requires Valid(d) && idColumn != "_id"
    requires h in Search(docs, [idColumn, tsColumn], body) && idColumn in h.fields
    ensures MergeHitAsWritten(d, h, idColumn, tsColumn).Err?
    ensures var v := h.fields[idColumn];
      v.Arr? && |v.items| > 0 && Hashable(v.items[0]) && HitTimestamp(h, tsColumn).Ok? ==>
        MergeHit(d, h, idColumn, tsColumn) == Ok(PutEs(d, v.items[0], HitTimestamp(h, tsColumn).value))
  {
    SearchHits(docs, [idColumn, tsColumn], body);
  }

  /** Line 157 as written: the fetch by id asks for the column family's timestamp field, not the type's. */
  function FetchFieldsAsWritten(typeFields: seq<string>, cfTsColumn: string): seq<string> {
    typeFields + [cfTsColumn]
  }

  /**
   * As written, when the two timestamp fields have different names and the
   * type's timestamp is not one of its mapped fields, no fetched hit carries
   * the type's timestamp, so reading it (line 164) fails for every hit; with
   * `type_fields` every document that has a timestamp yields it.
   */
  lemma FetchFieldsMissTimestamp(docs: seq<EsDoc>, typeFields: seq<string>, idColumn: string, tsColumn: string, cfTsColumn: string, body: Json)
    requires tsColumn != cfTsColumn && tsColumn !in typeFields
    ensures forall h :: h in Search(docs, FetchFieldsAsWritten(typeFields, cfTsColumn), body) ==>
      HitTimestamp(h, tsColumn) == Err(KeyMissing(tsColumn))
    ensures forall d :: d in docs && Matches(body, d) && tsColumn in d.source ==>
      tsColumn in HitOf(d, FetchFields(typeFields, idColumn, tsColumn)).fields &&
      HitOf(d, FetchFields(typeFields, idColumn, tsColumn)) in Search(docs, FetchFields(typeFields, idColumn, tsColumn), body)
  {
    HitsLackUnrequested(docs, FetchFieldsAsWritten(typeFields, cfTsColumn), body, tsColumn);
    var fields := FetchFields(typeFields, idColumn, tsColumn);
    SearchHits(docs, fields, body);
    forall d | d in docs && Matches(body, d) && tsColumn in d.source
      ensures tsColumn in HitOf(d, fields).fields
    {
      HitOfFields(d, fields);
    }
  }

  /** A hit never carries a field the search did not ask for. */
  lemma HitsLackUnrequested(docs: seq<EsDoc>, requested: seq<string>, body: Json, f: string)
    requires f !in requested
    ensures forall h :: h in Search(docs, requested, body) ==> f !in h.fields
  {
    SearchHits(docs, requested, body);
    forall h | h in Search(docs, requested, body)
      ensures f !in h.fields
    {
      var d :| d in docs && Matches(body, d) && h == HitOf(d, requested);
      HitOfFields(d, requested);
    }
  }
}
