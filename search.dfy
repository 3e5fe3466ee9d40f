/**
 * `Query.search` (api/app.py, lines 83-105) and the records it returns (lines 69-78): build
 * the hybrid query (a k-NN clause on the embedding, a title match with boost 2 and a text
 * match, combined as `bool`/`should`), pass `limit`/`offset` through as `size`/`from`, send
 * it to the search engine, and map each hit to a Document in hit order, with the engine's
 * total.
 *
 * The embedding model and the engine are parameters: `embed` turns the search string into a
 * vector, `engine` answers a query with a response, or None when the call raises.
 */
module Search {
  import opened Wrappers
  import opened Json
  import opened Calls

  /** Number of nearest neighbours the k-NN clause asks for. */
  const KnnNeighbours: int := 12

  /** Weight of a title match relative to a body-text match. */
  const TitleBoost: int := 2

  /** A search hit as returned to the client. */
  datatype Document = Document(id: string, title: string, text: string)

  /** One page of hits and the engine's count of all matches. */
  datatype DocumentPagination = DocumentPagination(listDocument: seq<Document>, total: int)

  datatype SearchError =
    | EngineUnavailable   // the search call raised
    | MalformedResponse   // a key the mapping reads is missing or of the wrong kind

  /** True when `path` leads to a dict whose keys are exactly `keys`. */
  ghost predicate HasKeys<V>(j: Json<V>, path: seq<string>, keys: set<string>)
  {
    var at := Lookup(j, path);
    at.Some? && at.value.JObj? && at.value.fields.Keys == keys
  }

  /** The k-NN clause: the 12 nearest neighbours of `vector` among the documents' `vector` fields. */
  function KnnClause<V>(vector: V): (c: Json<V>)
    ensures HasKeys(c, [], {"knn"}) && HasKeys(c, ["knn"], {"vector"})
    ensures HasKeys(c, ["knn", "vector"], {"vector", "k"})
    ensures Lookup(c, ["knn", "vector", "vector"]) == Some(JVector(vector))
    ensures LookupInt(c, ["knn", "vector", "k"]) == Some(12)
  {
    var options := JObj(map["vector" := JVector(vector), "k" := JInt(KnnNeighbours)]);
    var byField := JObj(map["vector" := options]);
    assert Lookup(options, ["k"]) == Some(JInt(KnnNeighbours));
    assert Lookup(options, ["vector"]) == Some(JVector(vector));
    JObj(map["knn" := byField])
  }

  /** A keyword match of `text` against `field`, weighted by `boost` when one is given. */
  function MatchClause<V>(field: string, text: string, boost: Option<int>): (c: Json<V>)
    ensures HasKeys(c, [], {"match"}) && HasKeys(c, ["match"], {field})
    ensures HasKeys(c, ["match", field], if boost.Some? then {"query", "boost"} else {"query"})
    ensures LookupStr(c, ["match", field, "query"]) == Some(text)
    ensures LookupInt(c, ["match", field, "boost"]) == boost
  {
    var options: map<string, Json<V>> := match boost
      case None => map["query" := JStr(text)]
      case Some(b) => map["query" := JStr(text), "boost" := JInt(b)];
    var byField := JObj(map[field := JObj(options)]);
    assert Lookup(JObj(options), ["query"]) == Some(JStr(text));
    assert Lookup(JObj(options), ["boost"]) == if boost.Some? then Some(JInt(boost.value)) else None;
    assert [field, "query"][1..] == ["query"] && [field, "boost"][1..] == ["boost"];
    assert Lookup(byField, [field]) == Some(JObj(options));
    assert Lookup(byField, [field, "query"]) == Some(JStr(text));
    assert Lookup(byField, [field, "boost"]) == Lookup(JObj(options), ["boost"]);
    assert ["match", field, "query"][1..] == [field, "query"];
    assert ["match", field, "boost"][1..] == [field, "boost"];
    assert ["match", field][1..] == [field];
    JObj(map["match" := byField])
  }

  /**
   * The request body the search sends: exactly the keys `size`, `from` and `query`; `size` is
   * `limit` and `from` is `offset`, unchanged; the query is a `bool` with exactly three `should`
   * clauses, in this order: the k-NN clause on the embedding, a `match` on `title` with boost 2,
   * and a `match` on `text` with no boost, both matches carrying the search string.
   */
  function SearchQuery<V>(searchString: string, vector: V, offset: int, limit: int): (q: Json<V>)
    ensures HasKeys(q, [], {"size", "from", "query"})
    ensures LookupInt(q, ["size"]) == Some(limit) && LookupInt(q, ["from"]) == Some(offset)
    ensures HasKeys(q, ["query"], {"bool"}) && HasKeys(q, ["query", "bool"], {"should"})
    ensures Lookup(q, ["query", "bool", "should"]) == Some(JArr([
      KnnClause(vector),
      MatchClause("title", searchString, Some(2)),
      MatchClause("text", searchString, None)
    ]))
  {
    var should := JArr([
      KnnClause(vector),
      MatchClause("title", searchString, Some(TitleBoost)),
      MatchClause("text", searchString, None)
    ]);
    var boolQuery := JObj(map["should" := should]);
    var query := JObj(map["bool" := boolQuery]);
    var q := JObj(map["size" := JInt(limit), "from" := JInt(offset), "query" := query]);
    assert Lookup(boolQuery, ["should"]) == Some(should);
    assert Lookup(query, ["bool"]) == Some(boolQuery);
    assert Lookup(query, ["bool", "should"]) == Some(should);
    assert q.fields.Keys == {"size", "from", "query"};
    assert query.fields.Keys == {"bool"} && boolQuery.fields.Keys == {"should"};
    assert Lookup(q, ["size"]) == Some(JInt(limit));
    assert Lookup(q, ["from"]) == Some(JInt(offset));
    assert Lookup(q, ["query"]) == Some(query);
    assert Lookup(q, ["query", "bool"]) == Some(boolQuery);
    assert Lookup(q, ["query", "bool", "should"]) == Some(should);
    q
  }

  /** The Document of one hit: its id, and the title and text stored in its source; None if one is missing or not a string. */
  function ParseHit<V>(hit: Json<V>): Option<Document>
  {
    match (LookupStr(hit, ["_id"]), LookupStr(hit, ["_source", "title"]), LookupStr(hit, ["_source", "text"]))
    case (Some(id), Some(title), Some(text)) => Some(Document(id, title, text))
    case _ => None
  }

  /**
   * Maps the engine's response to a page: it succeeds exactly when `hits.hits` is a list whose
   * every hit has a string `_id`, `_source.title` and `_source.text`, and `hits.total.value` is
   * an integer. Then there is one Document per hit, in hit order, with those three fields
   * copied, and the total is `hits.total.value`.
   */
  function ParseResponse<V>(response: Json<V>): (r: Result<DocumentPagination, SearchError>)
    ensures r.Success? <==>
      && Lookup(response, ["hits", "hits"]).Some? && Lookup(response, ["hits", "hits"]).value.JArr?
      && (forall i :: 0 <= i < |Lookup(response, ["hits", "hits"]).value.items| ==>
            ParseHit(Lookup(response, ["hits", "hits"]).value.items[i]).Some?)
      && LookupInt(response, ["hits", "total", "value"]).Some?
    ensures r.Success? ==>
      var hits := Lookup(response, ["hits", "hits"]).value.items;
      && |r.value.listDocument| == |hits|
      && (forall i :: 0 <= i < |hits| ==>
            && LookupStr(hits[i], ["_id"]) == Some(r.value.listDocument[i].id)
            && LookupStr(hits[i], ["_source", "title"]) == Some(r.value.listDocument[i].title)
            && LookupStr(hits[i], ["_source", "text"]) == Some(r.value.listDocument[i].text))
      && LookupInt(response, ["hits", "total", "value"]) == Some(r.value.total)
    ensures r.Failure? ==> r.error == MalformedResponse
  {
    match Lookup(response, ["hits", "hits"])
    case Some(JArr(hits)) =>
      var mapped := RunAll(hits, ParseHit);
      RunAllCompletes(hits, ParseHit);
      if mapped.failed then Failure(MalformedResponse)
      else (
        match LookupInt(response, ["hits", "total", "value"])
        case Some(total) => Success(DocumentPagination(mapped.results, total))
        case None => Failure(MalformedResponse)
      )
    case _ => Failure(MalformedResponse)
  }

  /**
   * The search operation: embed the string, send the query once, map the response. The engine
   * is asked exactly the query built from the string, its embedding, `offset` and `limit`; the
   * search reports the engine unavailable exactly when that call raises, and otherwise
   * returns whatever the mapping of the engine's answer gives.
   */
  function Search<V>(searchString: string, offset: int, limit: int,
                     embed: string -> V, engine: Json<V> -> Option<Json<V>>): (r: Result<DocumentPagination, SearchError>)
    ensures r == Failure(EngineUnavailable) <==>
      engine(SearchQuery(searchString, embed(searchString), offset, limit)).None?
    ensures r.Success? ==>
      && engine(SearchQuery(searchString, embed(searchString), offset, limit)).Some?
      && ParseResponse(engine(SearchQuery(searchString, embed(searchString), offset, limit)).value) == r
    ensures r == Failure(MalformedResponse) ==>
      && engine(SearchQuery(searchString, embed(searchString), offset, limit)).Some?
      && ParseResponse(engine(SearchQuery(searchString, embed(searchString), offset, limit)).value).Failure?
  {
    match engine(SearchQuery(searchString, embed(searchString), offset, limit))
    case None => Failure(EngineUnavailable)
    case Some(response) => ParseResponse(response)
  }

  /** A hit in the engine's response format carrying `doc`. */
  function HitJson<V>(doc: Document): Json<V>
  {
    JObj(map["_id" := JStr(doc.id), "_source" := JObj(map["title" := JStr(doc.title), "text" := JStr(doc.text)])])
  }

  function HitsJson<V>(docs: seq<Document>): seq<Json<V>>
  {
    seq(|docs|, i requires 0 <= i < |docs| => HitJson<V>(docs[i]))
  }

  /** An engine response whose hits carry `page`'s documents in order and whose total is `page.total`. */
  function ResponseJson<V>(page: DocumentPagination): Json<V>
  {
    var hits := HitsJson<V>(page.listDocument);
    JObj(map["hits" := JObj(map["hits" := JArr(hits), "total" := JObj(map["value" := JInt(page.total)])])])
  }

  /** A hit built from a document maps back to that document. */
  lemma ParseHitJson<V>(doc: Document)
    ensures ParseHit(HitJson<V>(doc)) == Some(doc)
  {
    var hit := HitJson<V>(doc);
    var source: Json<V> := JObj(map["title" := JStr(doc.title), "text" := JStr(doc.text)]);
    assert Lookup(source, ["title"]) == Some(JStr(doc.title));
    assert Lookup(source, ["text"]) == Some(JStr(doc.text));
    assert LookupStr(hit, ["_id"]) == Some(doc.id);
    assert LookupStr(hit, ["_source", "title"]) == Some(doc.title);
    assert LookupStr(hit, ["_source", "text"]) == Some(doc.text);
  }

  /** Mapping a response built from a page gives that page back: no document is added, dropped, altered or reordered. */
  lemma ParseResponseJson<V>(page: DocumentPagination)
    ensures ParseResponse(ResponseJson<V>(page)) == Success(page)
  {
    var docs := page.listDocument;
    var hits := HitsJson<V>(docs);
    var total: Json<V> := JObj(map["value" := JInt(page.total)]);
    var inner := JObj(map["hits" := JArr(hits), "total" := total]);
    var response := ResponseJson<V>(page);
    assert response == JObj(map["hits" := inner]);
    assert Lookup(inner, ["hits"]) == Some(JArr(hits));
    assert Lookup(response, ["hits", "hits"]) == Some(JArr(hits));
    assert Lookup(total, ["value"]) == Some(JInt(page.total));
    assert Lookup(inner, ["total", "value"]) == Some(JInt(page.total));
    assert LookupInt(response, ["hits", "total", "value"]) == Some(page.total);
    forall i | 0 <= i < |hits| ensures ParseHit(hits[i]) == Some(docs[i]) {
      ParseHitJson<V>(docs[i]);
    }
    RunUnique(Run(docs, false), RunAll(hits, ParseHit), hits, ParseHit);
  }

  /**
   * The search returns the engine's hits as they come: when the engine answers the query built
   * from the string, its embedding, `offset` and `limit` with the documents of `page`, the
   * result is exactly `page`, with the same order and total.
   */
  lemma SearchReturnsEngineHits<V>(searchString: string, offset: int, limit: int,
                                   embed: string -> V, engine: Json<V> -> Option<Json<V>>,
                                   page: DocumentPagination)
    requires engine(SearchQuery(searchString, embed(searchString), offset, limit)) == Some(ResponseJson(page))
    ensures Search(searchString, offset, limit, embed, engine) == Success(page)
  {
    ParseResponseJson<V>(page);
  }
}
