/**
 * The reconciler of one (column family, index type) pair: the client-side
 * window over the column-family scan, the merge of both summaries into
 * `all_data`, and the classification of every id into the four write lists.
 */
module Reconcile {
  import opened Wrappers
  import opened Values
  import opened EsQueries

  /**
   * A row of the column family: its key as `str` renders it, its timestamp in
   * seconds since the epoch as `calendar.timegm` gives it, and its other columns.
   */
  datatype CfRow = CfRow(id: string, ts: int, columns: map<string, Json>)

  /** The value of `all_data[id]`: `[cassandra_ts, es_ts]`, `None` for a side the id is absent from. */
  datatype Entry = Entry(cassandra: Option<int>, es: Option<int>)

  /** `all_data`: the entries by id, and the ids in the order they were first inserted (the dictionary's iteration order). */
  datatype AllData = AllData(entries: map<Json, Entry>, order: seq<Json>)

  predicate NoDuplicates(s: seq<Json>) {
    forall i, j :: 0 <= i < j < |s| ==> s[i] != s[j]
  }

  /** The order lists every key exactly once. */
  ghost predicate Valid(d: AllData) {
    && (forall k :: k in d.entries <==> k in d.order)
    && NoDuplicates(d.order)
  }

  function Empty(): (d: AllData)
    ensures Valid(d) && d.entries == map[]
  {
    AllData(map[], [])
  }

  /** `all_data[key] = e`: a new key goes to the end of the order, an existing one keeps its place. */
  function Put(d: AllData, key: Json, e: Entry): (r: AllData)
    requires Valid(d)
    ensures Valid(r)
    ensures r.entries == d.entries[key := e]
    ensures key in d.entries ==> r.order == d.order
    ensures key !in d.entries ==> r.order == d.order + [key]
  {
    AllData(d.entries[key := e], if key in d.entries then d.order else d.order + [key])
  }

  /** Python truthiness of a timestamp or watermark: absent and 0 are both false. */
  predicate Truthy(t: Option<int>) {
    t.Some? && t.value != 0
  }

  /**
   * The client-side window: with a truthy start and end every row whose
   * timestamp lies in `[start, end]` is kept; otherwise every row is kept.
   */
  predicate Admits(start: Option<int>, end: Option<int>, ts: int) {
    !(Truthy(start) && Truthy(end)) || (start.value <= ts && ts <= end.value)
  }

  /** `all_data` after the column-family scan, rows taken in scan order. */
  function LoadCassandra(rows: seq<CfRow>, start: Option<int>, end: Option<int>): (d: AllData)
    ensures Valid(d)
    ensures forall k :: k in d.entries ==> k.Str? && d.entries[k].cassandra.Some? && d.entries[k].es.None?
  {
    if rows == [] then Empty()
    else
      var d := LoadCassandra(rows[..|rows| - 1], start, end);
      var row := rows[|rows| - 1];
      if Admits(start, end, row.ts) then Put(d, Str(row.id), Entry(Some(row.ts), None)) else d
  }

  /** Some row of `rows` inside the window has the id `k`. */
  predicate AdmittedId(rows: seq<CfRow>, start: Option<int>, end: Option<int>, k: Json) {
    exists i :: 0 <= i < |rows| && Str(rows[i].id) == k && Admits(start, end, rows[i].ts)
  }

  /** Whether an id is admitted grows by one row at a time. */
  lemma AdmittedIdStep(rows: seq<CfRow>, start: Option<int>, end: Option<int>, k: Json)
    requires rows != []
    ensures AdmittedId(rows, start, end, k) <==>
      AdmittedId(rows[..|rows| - 1], start, end, k) || (Str(rows[|rows| - 1].id) == k && Admits(start, end, rows[|rows| - 1].ts))
  {
    var prefix := rows[..|rows| - 1];
    if AdmittedId(prefix, start, end, k) {
      var i :| 0 <= i < |prefix| && Str(prefix[i].id) == k && Admits(start, end, prefix[i].ts);
      assert rows[i] == prefix[i];
    }
    if AdmittedId(rows, start, end, k) {
      var i :| 0 <= i < |rows| && Str(rows[i].id) == k && Admits(start, end, rows[i].ts);
      if i < |prefix| {
        assert prefix[i] == rows[i];
      }
    }
  }

  /** Exactly the ids of the rows inside the window become keys of `all_data`. */
  lemma {:induction false} ScanKeys(rows: seq<CfRow>, start: Option<int>, end: Option<int>, k: Json)
    ensures k in LoadCassandra(rows, start, end).entries <==> AdmittedId(rows, start, end, k)
  {
    if rows != [] {
      ScanStep(rows, start, end, |rows| - 1);
      assert rows[..|rows|] == rows;
      ScanKeys(rows[..|rows| - 1], start, end, k);
      AdmittedIdStep(rows, start, end, k);
    }
  }

  /** A key's Cassandra timestamp is that of the last row in the window with that id. */
  lemma {:induction false} ScanKeepsLast(rows: seq<CfRow>, start: Option<int>, end: Option<int>, i: nat)
    requires i < |rows| && Admits(start, end, rows[i].ts)
    requires forall j :: i < j < |rows| && rows[j].id == rows[i].id ==> !Admits(start, end, rows[j].ts)
    ensures Str(rows[i].id) in LoadCassandra(rows, start, end).entries
    ensures LoadCassandra(rows, start, end).entries[Str(rows[i].id)] == Entry(Some(rows[i].ts), None)
  {
    var prefix := rows[..|rows| - 1];
    var last := rows[|rows| - 1];
    var d := LoadCassandra(prefix, start, end);
    assert LoadCassandra(rows, start, end) ==
      if Admits(start, end, last.ts) then Put(d, Str(last.id), Entry(Some(last.ts), None)) else d;
    if i < |rows| - 1 {
      assert prefix[i] == rows[i];
      forall j | i < j < |prefix| && prefix[j].id == prefix[i].id
        ensures !Admits(start, end, prefix[j].ts)
      {
        assert prefix[j] == rows[j];
      }
      ScanKeepsLast(prefix, start, end, i);
      assert Admits(start, end, last.ts) ==> last.id != rows[i].id;
    }
  }

  /** With a truthy watermark and clock, a row enters `all_data` only if `start <= ts <= end`. */
  lemma WindowedScan(rows: seq<CfRow>, start: int, end: int, k: Json)
    requires start != 0 && end != 0
    requires k in LoadCassandra(rows, Some(start), Some(end)).entries
    ensures exists i :: 0 <= i < |rows| && Str(rows[i].id) == k && start <= rows[i].ts <= end
  {
    ScanKeys(rows, Some(start), Some(end), k);
  }

  /** With no watermark, or a falsy one, every scanned row enters `all_data` with its ES slot `None`. */
  lemma FullScan(rows: seq<CfRow>, start: Option<int>, end: Option<int>, i: nat)
    requires !Truthy(start) && i < |rows|
    ensures Str(rows[i].id) in LoadCassandra(rows, start, end).entries
    ensures LoadCassandra(rows, start, end).entries[Str(rows[i].id)].es == None
  {
    ScanKeys(rows, start, end, Str(rows[i].id));
  }

  /** One step of the scan: the next row is put into `all_data` when the window admits it. */
  lemma ScanStep(rows: seq<CfRow>, start: Option<int>, end: Option<int>, i: nat)
    requires i < |rows|
    ensures LoadCassandra(rows[..i + 1], start, end) ==
      if Admits(start, end, rows[i].ts) then Put(LoadCassandra(rows[..i], start, end), Str(rows[i].id), Entry(Some(rows[i].ts), None))
      else LoadCassandra(rows[..i], start, end)
  {
    assert rows[..i + 1][..i] == rows[..i];
  }

  /** The scan loop (lines 105-110). */
  method ScanCassandra(rows: seq<CfRow>, start: Option<int>, end: Option<int>) returns (d: AllData)
    ensures d == LoadCassandra(rows, start, end)
  {
    d := Empty();
    var i := 0;
    while i < |rows|
      invariant 0 <= i <= |rows|
      invariant d == LoadCassandra(rows[..i], start, end)
    {
      var row := rows[i];
      ScanStep(rows, start, end, i);
      if !(Truthy(start) && Truthy(end)) {
        d := Put(d, Str(row.id), Entry(Some(row.ts), None));
      } else if row.ts >= start.value && row.ts <= end.value {
        d := Put(d, Str(row.id), Entry(Some(row.ts), None));
      }
      i := i + 1;
    }
    assert rows[..i] == rows;
  }

  /** `x[0]` in Python; a dictionary's keys are strings, so the integer key 0 is never one of them. */
  function First(v: Json): (r: Result<Json>)
    ensures v.Arr? && |v.items| > 0 ==> r == Ok(v.items[0])
    ensures v.Arr? && |v.items| == 0 ==> r.Err?
  {
    match v
    case Arr(items) => if |items| == 0 then Err(IndexOutOfRange) else Ok(items[0])
    case Str(s) => if |s| == 0 then Err(IndexOutOfRange) else Ok(Str([s[0]]))
    case Obj(_) => Err(KeyMissing("0"))
    case _ => Err(NotIndexable)
  }

  /** The id of a search hit: `_id`, or the first value of the id field. */
  function HitKey(h: Hit, idColumn: string): Result<Json> {
    if idColumn == "_id" then Ok(Str(h.docId))
    else if idColumn !in h.fields then Err(KeyMissing(idColumn))
    else First(h.fields[idColumn])
  }

  /** The timestamp of a search hit: `int(fields[column][0])`. */
  function HitTimestamp(h: Hit, tsColumn: string): Result<int> {
    if tsColumn !in h.fields then Err(KeyMissing(tsColumn))
    else match First(h.fields[tsColumn])
      case Err(e) => Err(e)
      case Ok(v) => if IntOf(v).Some? then Ok(IntOf(v).value) else Err(NotAnInteger)
  }

  /** `all_data[key][1] = ts` for a present key, `all_data[key] = [None, ts]` otherwise. */
  function PutEs(d: AllData, key: Json, ts: int): (r: AllData)
    requires Valid(d)
    ensures Valid(r)
    ensures r.entries.Keys == d.entries.Keys + {key}
    ensures key in d.entries ==> r.entries[key] == Entry(d.entries[key].cassandra, Some(ts))
    ensures key !in d.entries ==> r.entries[key] == Entry(None, Some(ts))
    ensures forall k :: k in d.entries && k != key ==> r.entries[k] == d.entries[k]
  {
    if key in d.entries then Put(d, key, d.entries[key].(es := Some(ts)))
    else Put(d, key, Entry(None, Some(ts)))
  }

  /** One hit of the summary search merged into `all_data` (lines 113-122); a hit without fields is skipped. */
  function MergeHit(d: AllData, h: Hit, idColumn: string, tsColumn: string): (r: Result<AllData>)
    requires Valid(d)
    ensures r.Ok? ==> Valid(r.value)
  {
    if |h.fields| == 0 then Ok(d)
    else match HitKey(h, idColumn)
      case Err(e) => Err(e)
      case Ok(key) =>
        match HitTimestamp(h, tsColumn)
        case Err(e) => Err(e)
        case Ok(ts) => if Hashable(key) then Ok(PutEs(d, key, ts)) else Err(Unhashable)
  }

  /** `all_data` after merging the summary hits, in hit order. */
  function LoadEs(d: AllData, hits: seq<Hit>, idColumn: string, tsColumn: string): (r: Result<AllData>)
    requires Valid(d)
    ensures r.Ok? ==> Valid(r.value)
  {
    if hits == [] then Ok(d)
    else match LoadEs(d, hits[..|hits| - 1], idColumn, tsColumn)
      case Err(e) => Err(e)
      case Ok(d1) => MergeHit(d1, hits[|hits| - 1], idColumn, tsColumn)
  }

  /**
   * Merging the search index's summary never drops a key and never changes a
   * Cassandra timestamp; a key it adds has no Cassandra timestamp.
   */
  lemma {:induction false} MergeKeepsCassandra(d: AllData, hits: seq<Hit>, idColumn: string, tsColumn: string)
    requires Valid(d)
    requires LoadEs(d, hits, idColumn, tsColumn).Ok?
    ensures var r := LoadEs(d, hits, idColumn, tsColumn).value;
      && d.entries.Keys <= r.entries.Keys
      && (forall k :: k in d.entries ==> r.entries[k].cassandra == d.entries[k].cassandra)
      && (forall k :: k in r.entries && k !in d.entries ==> r.entries[k].cassandra.None?)
  {
    if hits != [] {
      MergeKeepsCassandra(d, hits[..|hits| - 1], idColumn, tsColumn);
    }
  }

  /** Every hit that carries fields puts its id into `all_data`, with a timestamp read from one such hit. */
  lemma {:induction false} MergeAddsHits(d: AllData, hits: seq<Hit>, idColumn: string, tsColumn: string, i: nat)
    requires Valid(d)
    requires LoadEs(d, hits, idColumn, tsColumn).Ok?
    requires i < |hits| && |hits[i].fields| > 0
    ensures HitKey(hits[i], idColumn).Ok? && HitTimestamp(hits[i], tsColumn).Ok?
    ensures HitKey(hits[i], idColumn).value in LoadEs(d, hits, idColumn, tsColumn).value.entries
  {
    var prefix := hits[..|hits| - 1];
    var d1 := LoadEs(d, prefix, idColumn, tsColumn).value;
    if i < |hits| - 1 {
      assert prefix[i] == hits[i];
      MergeAddsHits(d, prefix, idColumn, tsColumn, i);
    }
  }

  /** The last hit for an id decides that id's ES timestamp. */
  lemma {:induction false} MergeKeepsLast(d: AllData, hits: seq<Hit>, idColumn: string, tsColumn: string, i: nat)
    requires Valid(d)
    requires LoadEs(d, hits, idColumn, tsColumn).Ok?
    requires i < |hits| && |hits[i].fields| > 0
    requires HitKey(hits[i], idColumn).Ok?
    requires forall j :: i < j < |hits| && |hits[j].fields| > 0 ==> HitKey(hits[j], idColumn) != HitKey(hits[i], idColumn)
    ensures HitTimestamp(hits[i], tsColumn).Ok?
    ensures var key := HitKey(hits[i], idColumn).value;
      && key in LoadEs(d, hits, idColumn, tsColumn).value.entries
      && LoadEs(d, hits, idColumn, tsColumn).value.entries[key].es == Some(HitTimestamp(hits[i], tsColumn).value)
  {
    var prefix := hits[..|hits| - 1];
    var last := hits[|hits| - 1];
    var d1 := LoadEs(d, prefix, idColumn, tsColumn).value;
    assert LoadEs(d, hits, idColumn, tsColumn) == MergeHit(d1, last, idColumn, tsColumn);
    if i < |hits| - 1 {
      assert prefix[i] == hits[i];
      forall j | i < j < |prefix| && |prefix[j].fields| > 0
        ensures HitKey(prefix[j], idColumn) != HitKey(prefix[i], idColumn)
      {
        assert prefix[j] == hits[j];
      }
      MergeKeepsLast(d, prefix, idColumn, tsColumn, i);
      MergeHitKeepsOthers(d1, last, idColumn, tsColumn, HitKey(hits[i], idColumn).value);
    } else {
      MergeHitSets(d1, last, idColumn, tsColumn);
    }
  }

  /** Merging one hit with fields sets the ES timestamp of the id it names. */
  lemma MergeHitSets(d: AllData, h: Hit, idColumn: string, tsColumn: string)
    requires Valid(d) && MergeHit(d, h, idColumn, tsColumn).Ok? && |h.fields| > 0
    ensures HitKey(h, idColumn).Ok? && HitTimestamp(h, tsColumn).Ok?
    ensures var r := MergeHit(d, h, idColumn, tsColumn).value;
      HitKey(h, idColumn).value in r.entries && r.entries[HitKey(h, idColumn).value].es == Some(HitTimestamp(h, tsColumn).value)
  {
  }

  /** Merging one hit leaves every key it does not name as it was. */
  lemma MergeHitKeepsOthers(d: AllData, h: Hit, idColumn: string, tsColumn: string, k: Json)
    requires Valid(d) && MergeHit(d, h, idColumn, tsColumn).Ok?
    requires |h.fields| > 0 ==> HitKey(h, idColumn) != Ok(k)
    ensures k in MergeHit(d, h, idColumn, tsColumn).value.entries <==> k in d.entries
    ensures k in d.entries ==> MergeHit(d, h, idColumn, tsColumn).value.entries[k] == d.entries[k]
  {
  }

  /** A failure on a hit ends the merge: later hits are not looked at. */
  lemma {:induction false} LoadEsStopsAtError(d: AllData, hits: seq<Hit>, idColumn: string, tsColumn: string, n: nat)
    requires Valid(d) && n <= |hits|
    requires LoadEs(d, hits[..n], idColumn, tsColumn).Err?
    ensures LoadEs(d, hits, idColumn, tsColumn) == LoadEs(d, hits[..n], idColumn, tsColumn)
  {
    if n < |hits| {
      assert hits[..|hits| - 1][..n] == hits[..n];
      LoadEsStopsAtError(d, hits[..|hits| - 1], idColumn, tsColumn, n);
    } else {
      assert hits[..n] == hits;
    }
  }

  /** A key no hit names is neither added nor changed by the merge. */
  lemma {:induction false} MergeLeavesUnnamed(d: AllData, hits: seq<Hit>, idColumn: string, tsColumn: string, k: Json)
    requires Valid(d) && LoadEs(d, hits, idColumn, tsColumn).Ok?
    requires forall j :: 0 <= j < |hits| && |hits[j].fields| > 0 ==> HitKey(hits[j], idColumn) != Ok(k)
    ensures k in LoadEs(d, hits, idColumn, tsColumn).value.entries <==> k in d.entries
    ensures k in d.entries ==> LoadEs(d, hits, idColumn, tsColumn).value.entries[k] == d.entries[k]
  {
    if hits != [] {
      var prefix := hits[..|hits| - 1];
      forall j | 0 <= j < |prefix|
        ensures prefix[j] == hits[j]
      {
      }
      MergeLeavesUnnamed(d, prefix, idColumn, tsColumn, k);
      var d1 := LoadEs(d, prefix, idColumn, tsColumn).value;
      MergeHitKeepsOthers(d1, hits[|hits| - 1], idColumn, tsColumn, k);
    }
  }

  /** A hit the merge accepts: one without fields, or one with a readable, hashable id and a readable timestamp. */
  predicate Mergeable(h: Hit, idColumn: string, tsColumn: string) {
    |h.fields| == 0 || (HitKey(h, idColumn).Ok? && Hashable(HitKey(h, idColumn).value) && HitTimestamp(h, tsColumn).Ok?)
  }

  /** The merge succeeds exactly when every hit is one it accepts. */
  lemma LoadEsSucceeds(d: AllData, hits: seq<Hit>, idColumn: string, tsColumn: string)
    requires Valid(d)
    ensures LoadEs(d, hits, idColumn, tsColumn).Ok? <==> forall j :: 0 <= j < |hits| ==> Mergeable(hits[j], idColumn, tsColumn)
  {
    if forall j :: 0 <= j < |hits| ==> Mergeable(hits[j], idColumn, tsColumn) {
      MergeableHitsLoad(d, hits, idColumn, tsColumn);
    } else {
      var j :| 0 <= j < |hits| && !Mergeable(hits[j], idColumn, tsColumn);
      if LoadEs(d, hits, idColumn, tsColumn).Ok? {
        LoadedHitMergeable(d, hits, idColumn, tsColumn, j);
      }
    }
  }

  /** The half of `LoadEsSucceeds` by induction: when every hit is accepted, the merge succeeds. */
  lemma {:induction false} MergeableHitsLoad(d: AllData, hits: seq<Hit>, idColumn: string, tsColumn: string)
    requires Valid(d)
    requires forall j :: 0 <= j < |hits| ==> Mergeable(hits[j], idColumn, tsColumn)
    ensures LoadEs(d, hits, idColumn, tsColumn).Ok?
  {
    if hits != [] {
      var prefix := hits[..|hits| - 1];
      forall j | 0 <= j < |prefix|
        ensures Mergeable(prefix[j], idColumn, tsColumn)
      {
        assert prefix[j] == hits[j];
      }
      MergeableHitsLoad(d, prefix, idColumn, tsColumn);
      assert Mergeable(hits[|hits| - 1], idColumn, tsColumn);
    }
  }

  /** The other half of `LoadEsSucceeds`: a successful merge accepted every hit. */
  lemma {:induction false} LoadedHitMergeable(d: AllData, hits: seq<Hit>, idColumn: string, tsColumn: string, i: nat)
    requires Valid(d) && i < |hits|
    requires LoadEs(d, hits, idColumn, tsColumn).Ok?
    ensures Mergeable(hits[i], idColumn, tsColumn)
  {
    var prefix := hits[..|hits| - 1];
    if i < |prefix| {
      assert prefix[i] == hits[i];
      LoadedHitMergeable(d, prefix, idColumn, tsColumn, i);
    }
  }

  /** One step of the merge: the next hit is merged into what the earlier hits produced. */
  lemma MergeStep(d0: AllData, hits: seq<Hit>, idColumn: string, tsColumn: string, i: nat)
    requires Valid(d0) && i < |hits|
    ensures LoadEs(d0, hits[..i], idColumn, tsColumn).Err? ==>
      LoadEs(d0, hits[..i + 1], idColumn, tsColumn) == LoadEs(d0, hits[..i], idColumn, tsColumn)
    ensures LoadEs(d0, hits[..i], idColumn, tsColumn).Ok? ==>
      LoadEs(d0, hits[..i + 1], idColumn, tsColumn) == MergeHit(LoadEs(d0, hits[..i], idColumn, tsColumn).value, hits[i], idColumn, tsColumn)
  {
    assert hits[..i + 1][..i] == hits[..i];
  }

  /** The summary merge loop (lines 112-122). */
  method MergeEs(d0: AllData, hits: seq<Hit>, idColumn: string, tsColumn: string) returns (r: Result<AllData>)
    requires Valid(d0)
    ensures r == LoadEs(d0, hits, idColumn, tsColumn)
  {
    var d := d0;
    var i := 0;
    while i < |hits|
      invariant 0 <= i <= |hits|
      invariant Valid(d)
      invariant LoadEs(d0, hits[..i], idColumn, tsColumn) == Ok(d)
    {
      var h := hits[i];
      MergeStep(d0, hits, idColumn, tsColumn, i);
      if |h.fields| > 0 {
        var key := HitKey(h, idColumn);
        var ts := HitTimestamp(h, tsColumn);
        if key.Err? || ts.Err? || !Hashable(key.value) {
          r := if key.Err? then Err(key.error) else if ts.Err? then Err(ts.error) else Err(Unhashable);
          assert LoadEs(d0, hits[..i + 1], idColumn, tsColumn) == r;
          LoadEsStopsAtError(d0, hits, idColumn, tsColumn, i + 1);
          return;
        }
        assert MergeHit(d, h, idColumn, tsColumn) == Ok(PutEs(d, key.value, ts.value));
        if key.value in d.entries {
          d := Put(d, key.value, d.entries[key.value].(es := Some(ts.value)));
        } else {
          d := Put(d, key.value, Entry(None, Some(ts.value)));
        }
      }
      i := i + 1;
    }
    assert hits[..i] == hits;
    return Ok(d);
  }

  /** The write an id calls for. */
  datatype Disposition = InsertOnEs | UpdateOnEs | InsertOnCassandra | UpdateOnCassandra | NoAction

  /**
   * Lines 126-136: with both timestamps truthy the newer side wins and equal
   * timestamps call for nothing; a side holding the only truthy timestamp is
   * copied to the other.
   */
  function Classify(e: Entry): (r: Disposition)
    ensures r == UpdateOnEs <==> Truthy(e.cassandra) && Truthy(e.es) && e.cassandra.value > e.es.value
    ensures r == UpdateOnCassandra <==> Truthy(e.cassandra) && Truthy(e.es) && e.es.value > e.cassandra.value
    ensures r == InsertOnEs <==> Truthy(e.cassandra) && !Truthy(e.es)
    ensures r == InsertOnCassandra <==> !Truthy(e.cassandra) && Truthy(e.es)
    ensures r == NoAction <==> (Truthy(e.cassandra) == Truthy(e.es)) && (Truthy(e.cassandra) ==> e.cassandra == e.es)
  {
    if Truthy(e.cassandra) && Truthy(e.es) then
      if e.cassandra.value > e.es.value then UpdateOnEs
      else if e.es.value > e.cassandra.value then UpdateOnCassandra
      else NoAction
    else if Truthy(e.cassandra) then InsertOnEs
    else if Truthy(e.es) then InsertOnCassandra
    else NoAction
  }

  /** The ids of `order` whose entry calls for `disposition`, in order. */
  function Select(order: seq<Json>, entries: map<Json, Entry>, disposition: Disposition): seq<Json> {
    if order == [] then []
    else
      var k := order[|order| - 1];
      var rest := Select(order[..|order| - 1], entries, disposition);
      if k in entries && Classify(entries[k]) == disposition then rest + [k] else rest
  }

  /** An id is in a list exactly when it is a key whose entry calls for that list's write. */
  lemma {:induction false} SelectMembers(order: seq<Json>, entries: map<Json, Entry>, disposition: Disposition, k: Json)
    ensures k in Select(order, entries, disposition) <==> k in order && k in entries && Classify(entries[k]) == disposition
  {
    if order != [] {
      var prefix := order[..|order| - 1];
      SelectMembers(prefix, entries, disposition, k);
      assert order == prefix + [order[|order| - 1]];
    }
  }

  lemma {:induction false} SelectNoDuplicates(order: seq<Json>, entries: map<Json, Entry>, disposition: Disposition)
    requires NoDuplicates(order)
    ensures NoDuplicates(Select(order, entries, disposition))
  {
    if order != [] {
      var prefix := order[..|order| - 1];
      var last := order[|order| - 1];
      SelectNoDuplicates(prefix, entries, disposition);
      SelectMembers(prefix, entries, disposition, last);
      assert last !in prefix;
    }
  }

  /** The four write lists of one pass. */
  datatype Plan = Plan(insertOnEs: seq<Json>, updateOnEs: seq<Json>, insertOnCassandra: seq<Json>, updateOnCassandra: seq<Json>)

  function PlanOf(d: AllData): Plan {
    Plan(
      Select(d.order, d.entries, InsertOnEs),
      Select(d.order, d.entries, UpdateOnEs),
      Select(d.order, d.entries, InsertOnCassandra),
      Select(d.order, d.entries, UpdateOnCassandra))
  }

  /** The list a disposition puts an id in. */
  function ListFor(p: Plan, disposition: Disposition): seq<Json> {
    match disposition
    case InsertOnEs => p.insertOnEs
    case UpdateOnEs => p.updateOnEs
    case InsertOnCassandra => p.insertOnCassandra
    case UpdateOnCassandra => p.updateOnCassandra
    case NoAction => []
  }

  /**
   * The four lists partition the keys that call for a write: each such key is
   * in the one list of its disposition and in no other, a key that calls for
   * nothing is in none, no list repeats an id, and every id in them is a key
   * of `all_data`.
   */
  lemma PlanPartition(d: AllData)
    requires Valid(d)
    ensures forall disposition :: NoDuplicates(ListFor(PlanOf(d), disposition))
    ensures forall disposition, k :: k in ListFor(PlanOf(d), disposition) <==>
      disposition != NoAction && k in d.entries && Classify(d.entries[k]) == disposition
  {
    forall disposition
      ensures NoDuplicates(ListFor(PlanOf(d), disposition))
    {
      if disposition != NoAction {
        SelectNoDuplicates(d.order, d.entries, disposition);
      }
    }
    forall disposition, k
      ensures k in ListFor(PlanOf(d), disposition) <==>
        disposition != NoAction && k in d.entries && Classify(d.entries[k]) == disposition
    {
      if disposition != NoAction {
        SelectMembers(d.order, d.entries, disposition, k);
      }
    }
  }

  /** No id of `order` calls for `disposition`, so its list is empty. */
  lemma {:induction false} SelectNone(order: seq<Json>, entries: map<Json, Entry>, disposition: Disposition)
    requires forall k :: k in order && k in entries ==> Classify(entries[k]) != disposition
    ensures Select(order, entries, disposition) == []
  {
    if order != [] {
      assert order[|order| - 1] in order;
      SelectNone(order[..|order| - 1], entries, disposition);
    }
  }

  /** A key whose two timestamps agree calls for no write, so a pass over unchanged data schedules nothing. */
  lemma AgreeingSidesScheduleNothing(d: AllData)
    requires forall k :: k in d.entries ==> d.entries[k].cassandra == d.entries[k].es
    ensures PlanOf(d) == Plan([], [], [], [])
  {
    assert forall k :: k in d.entries ==> Classify(d.entries[k]) == NoAction;
    SelectNone(d.order, d.entries, InsertOnEs);
    SelectNone(d.order, d.entries, UpdateOnEs);
    SelectNone(d.order, d.entries, InsertOnCassandra);
    SelectNone(d.order, d.entries, UpdateOnCassandra);
  }

  /** The classification loop (lines 125-136). */
  method ClassifyAll(d: AllData) returns (p: Plan)
    requires Valid(d)
    ensures p == PlanOf(d)
  {
    var insertOnEs, updateOnEs, insertOnCassandra, updateOnCassandra := [], [], [], [];
    var i := 0;
    while i < |d.order|
      invariant 0 <= i <= |d.order|
      invariant insertOnEs == Select(d.order[..i], d.entries, InsertOnEs)
      invariant updateOnEs == Select(d.order[..i], d.entries, UpdateOnEs)
      invariant insertOnCassandra == Select(d.order[..i], d.entries, InsertOnCassandra)
      invariant updateOnCassandra == Select(d.order[..i], d.entries, UpdateOnCassandra)
    {
      var uid := d.order[i];
      assert uid in d.entries;
      assert d.order[..i + 1][..i] == d.order[..i];
      var cassandraTs, esTs := d.entries[uid].cassandra, d.entries[uid].es;
      if Truthy(cassandraTs) && Truthy(esTs) {
        if cassandraTs.value > esTs.value {
          updateOnEs := updateOnEs + [uid];
        } else if esTs.value > cassandraTs.value {
          updateOnCassandra := updateOnCassandra + [uid];
        }
      } else if Truthy(cassandraTs) {
        insertOnEs := insertOnEs + [uid];
      } else if Truthy(esTs) {
        insertOnCassandra := insertOnCassandra + [uid];
      }
      i := i + 1;
    }
    assert d.order[..i] == d.order;
    p := Plan(insertOnEs, updateOnEs, insertOnCassandra, updateOnCassandra);
  }
}
