/**
 * The search bodies the pass sends to the search index, and what the index
 * does with them: which documents a body selects and which fields a hit
 * carries back.
 */
module EsQueries {
  import opened Wrappers
  import opened Values

  /** A document of one index type: its `_id` and its `_source`. */
  datatype EsDoc = EsDoc(docId: string, source: map<string, Json>)

  /** One search hit: its `_id` and its `fields`, each field value a list. */
  datatype Hit = Hit(docId: string, fields: map<string, Json>)

  /** The number a document holds in `column`, read the way a numeric field mapping reads it. */
  function NumberAt(doc: EsDoc, column: string): Option<int> {
    if column in doc.source then IntOf(doc.source[column]) else None
  }

  predicate InWindow(doc: EsDoc, column: string, start: int, end: int) {
    NumberAt(doc, column).Some? && start <= NumberAt(doc, column).value <= end
  }

  /** Whether the index selects `doc` for a search with this body. A body without a filter selects every document. */
  predicate Matches(body: Json, doc: EsDoc) {
    body.Obj? && ("filter" in body.members ==> FilterMatches(body.members["filter"], doc))
  }

  predicate FilterMatches(filter: Json, doc: EsDoc) {
    filter.Obj? &&
    if "range" in filter.members then RangeMatches(filter.members["range"], doc)
    else if "ids" in filter.members then IdsMatch(filter.members["ids"], doc)
    else false
  }

  predicate RangeMatches(range: Json, doc: EsDoc) {
    range.Obj? &&
    forall column :: column in range.members ==> Bounded(range.members[column], NumberAt(doc, column))
  }

  /** `gte` and `lte` are inclusive bounds. */
  predicate Bounded(bounds: Json, value: Option<int>) {
    && value.Some?
    && bounds.Obj?
    && ("gte" in bounds.members ==> bounds.members["gte"].Num? && bounds.members["gte"].n <= value.value)
    && ("lte" in bounds.members ==> bounds.members["lte"].Num? && value.value <= bounds.members["lte"].n)
  }

  predicate IdsMatch(ids: Json, doc: EsDoc) {
    && ids.Obj?
    && "values" in ids.members
    && ids.members["values"].Arr?
    && Str(doc.docId) in ids.members["values"].items
  }

  /** The body of an unfiltered search (`{}`). */
  function MatchAll(): (r: Json)
    ensures forall doc :: Matches(r, doc)
  {
    Obj(map[])
  }

  /** `get_es_range_filter`: the documents whose `column` lies in `[start, end]`, both ends included. */
  function RangeFilter(column: string, start: int, end: int): (r: Json)
    ensures forall doc :: Matches(r, doc) <==> InWindow(doc, column, start, end)
  {
    var bounds := Obj(map["gte" := Num(start), "lte" := Num(end)]);
    var range := Obj(map[column := bounds]);
    assert forall doc :: RangeMatches(range, doc) <==> Bounded(bounds, NumberAt(doc, column));
    Obj(map["filter" := Obj(map["range" := range])])
  }

  /** `get_es_ids_filter`: the documents whose `_id` is one of `ids`. */
  function IdsFilter(esType: string, ids: seq<Json>): (r: Json)
    ensures forall doc :: Matches(r, doc) <==> Str(doc.docId) in ids
  {
    Obj(map["filter" := Obj(map["ids" := Obj(map["type" := Str(esType), "values" := Arr(ids)])])])
  }

  /** A field as a hit reports it: always a list. */
  function AsList(v: Json): (r: Json)
    ensures r.Arr? && (v.Arr? ==> r == v) && (!v.Arr? ==> r.items == [v])
  {
    if v.Arr? then v else Arr([v])
  }

  /** The hit for `doc` when the search asks for the fields `requested`. */
  function HitOf(doc: EsDoc, requested: seq<string>): Hit {
    Hit(doc.docId, map f | f in requested && f in doc.source :: AsList(doc.source[f]))
  }

  /** A hit carries the requested fields the document has, each as a list, and no others. */
  lemma HitOfFields(doc: EsDoc, requested: seq<string>)
    ensures HitOf(doc, requested).docId == doc.docId
    ensures forall f :: f in HitOf(doc, requested).fields <==> f in requested && f in doc.source
    ensures forall f :: f in HitOf(doc, requested).fields ==> HitOf(doc, requested).fields[f] == AsList(doc.source[f])
  {
  }

  /** A search over the documents of one type, in index order. */
  function Search(docs: seq<EsDoc>, requested: seq<string>, body: Json): (hits: seq<Hit>)
    ensures |hits| <= |docs|
  {
    if docs == [] then []
    else
      var rest := Search(docs[1..], requested, body);
      if Matches(body, docs[0]) then [HitOf(docs[0], requested)] + rest else rest
  }

  /** A search returns exactly the projections of the documents its body matches. */
  lemma {:induction false} SearchHits(docs: seq<EsDoc>, requested: seq<string>, body: Json)
    ensures forall h :: h in Search(docs, requested, body) ==>
      exists d :: d in docs && Matches(body, d) && h == HitOf(d, requested)
    ensures forall d :: d in docs && Matches(body, d) ==> HitOf(d, requested) in Search(docs, requested, body)
  {
    if docs != [] {
      SearchHits(docs[1..], requested, body);
      assert forall d :: d in docs[1..] ==> d in docs;
      assert forall d :: d in docs ==> d == docs[0] || d in docs[1..];
    }
  }
}
