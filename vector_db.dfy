/**
 * The mapping code of the Pinecone-backed vector store
 * (Services/Implementations/VectorDatabaseService.cs): query matches to
 * retrieved documents, caller metadata to Pinecone metadata, and the result
 * logic of delete and create-index. The Pinecone client is a foreign call,
 * given as an oracle or as the value it returned.
 */
module VectorDb {
  import opened Wrappers
  import opened Clr
  import opened Settings

  /** Models/DTOs/RetrievedDocument.cs. */
  datatype RetrievedDocument = RetrievedDocument(id: string, title: string, url: string, content: string, score: real)

  /**
   * The metadata of a match: a dictionary whose values are shown already
   * rendered by `ToString()`, `None` standing for a null value.
   */
  type MatchMetadata = map<string, Option<string>>

  /** A `ScoredVector`: `metadata` and `score` are nullable. */
  datatype ScoredVector = ScoredVector(id: string, metadata: Option<MatchMetadata>, score: Option<real>)

  /** A `QueryResponse`; `NoResponse` is a null response, `matches == None` a null `Matches`. */
  datatype QueryResponse = NoResponse | Response(matches: Option<seq<ScoredVector>>)

  datatype QueryRequest = QueryRequest(vector: seq<real>, topK: nat, includeMetadata: bool, includeValues: bool)

  const TitleKey: string := "title"
  const UrlKey: string := "url"
  const ContentKey: string := "content"

  /**
   * `match.Metadata?[key]?.ToString() ?? ""`: a null dictionary or a null value
   * gives the empty string; a key the dictionary lacks makes the indexer throw.
   */
  function MetadataText(metadata: Option<MatchMetadata>, key: string): (r: Result<string, Exception>)
    ensures metadata.None? ==> r == Success("")
    ensures metadata.Some? && key !in metadata.value ==> r.Failure? && IsA(r.error, "KeyNotFoundException")
    ensures metadata.Some? && key in metadata.value ==> r == Success(metadata.value[key].GetOr(""))
  {
    match metadata
    case None => Success("")
    case Some(m) =>
      if key in m then Success(m[key].GetOr(""))
      else Failure(SystemError("KeyNotFoundException", "The given key '" + key + "' was not present in the dictionary."))
  }

  /** The object initialiser inside the `foreach` of `SearchAsync`; the fields are read title, url, content. */
  function MapMatch(m: ScoredVector): Result<RetrievedDocument, Exception> {
    match MetadataText(m.metadata, TitleKey)
    case Failure(e) => Failure(e)
    case Success(title) =>
      match MetadataText(m.metadata, UrlKey)
      case Failure(e) => Failure(e)
      case Success(url) =>
        match MetadataText(m.metadata, ContentKey)
        case Failure(e) => Failure(e)
        case Success(content) => Success(RetrievedDocument(m.id, title, url, content, m.score.GetOr(0.0)))
  }

  /** The documents for `matches`, in order, or the first exception a match threw. */
  function MapMatches(matches: seq<ScoredVector>): Result<seq<RetrievedDocument>, Exception> {
    if matches == [] then Success([])
    else match MapMatches(matches[..|matches| - 1])
      case Failure(e) => Failure(e)
      case Success(docs) =>
        match MapMatch(matches[|matches| - 1])
        case Failure(e) => Failure(e)
        case Success(d) => Success(docs + [d])
  }

  /** What `SearchAsync` returns for a response: a null response or null `Matches` give no documents. */
  function SearchResult(response: QueryResponse): Result<seq<RetrievedDocument>, Exception> {
    match response
    case NoResponse => Success([])
    case Response(None) => Success([])
    case Response(Some(ms)) => MapMatches(ms)
  }

  /** The request `SearchAsync` sends: metadata wanted, stored values not. */
  function SearchRequest(vector: seq<real>, topK: nat): (q: QueryRequest)
    ensures q.vector == vector && q.topK == topK
    ensures q.includeMetadata && !q.includeValues
  {
    QueryRequest(vector, topK, true, false)
  }

  /**
   * `SearchAsync`: query the configured index, then map each match in a loop.
   * `query` is the Pinecone index client: the response or the exception it threw,
   * which `SearchAsync` rethrows.
   */
  method Search(
    settings: PineconeSettings, vector: seq<real>, topK: nat,
    query: (string, QueryRequest) -> Result<QueryResponse, Exception>)
    returns (r: Result<seq<RetrievedDocument>, Exception>)
    ensures var reply := query(settings.indexName, SearchRequest(vector, topK));
            r == if reply.Failure? then Failure(reply.error) else SearchResult(reply.value)
  {
    var reply := query(settings.indexName, SearchRequest(vector, topK));
    if reply.Failure? {
      return Failure(reply.error);
    }
    var response := reply.value;
    if response.NoResponse? || response.matches.None? {
      return Success([]);
    }
    var matches := response.matches.value;
    var documents: seq<RetrievedDocument> := [];
    for i := 0 to |matches|
      invariant MapMatches(matches[..i]) == Success(documents)
    {
      assert matches[..i + 1][..i] == matches[..i];
      var doc := MapMatch(matches[i]);
      if doc.Failure? {
        MapMatchesFailurePropagates(matches, i + 1);
        return Failure(doc.error);
      }
      documents := documents + [doc.value];
    }
    assert matches[..|matches|] == matches;
    r := Success(documents);
  }

  /** Once a prefix of the matches fails, the whole mapping fails with the same exception. */
  lemma {:induction false} MapMatchesFailurePropagates(matches: seq<ScoredVector>, k: nat)
    requires k <= |matches| && MapMatches(matches[..k]).Failure?
    ensures MapMatches(matches) == MapMatches(matches[..k])
    decreases |matches| - k
  {
    if k < |matches| {
      assert matches[..k + 1][..k] == matches[..k];
      MapMatchesFailurePropagates(matches, k + 1);
    } else {
      assert matches[..k] == matches;
    }
  }

  /** One document per match, in match order, each built from its own match; ids are copied. */
  lemma {:induction false} MapMatchesPointwise(matches: seq<ScoredVector>)
    requires MapMatches(matches).Success?
    ensures |MapMatches(matches).value| == |matches|
    ensures forall i :: 0 <= i < |matches| ==>
              MapMatch(matches[i]) == Success(MapMatches(matches).value[i])
    ensures forall i :: 0 <= i < |matches| ==> MapMatches(matches).value[i].id == matches[i].id
  {
    if matches != [] {
      var init := matches[..|matches| - 1];
      MapMatchesPointwise(init);
      var docs := MapMatches(matches).value;
      assert docs[..|docs| - 1] == MapMatches(init).value;
      forall i | 0 <= i < |matches|
        ensures MapMatch(matches[i]) == Success(docs[i])
      {
        if i < |matches| - 1 {
          assert matches[i] == init[i];
        }
      }
    }
  }

  /** The mapping fails exactly when some match has metadata that lacks one of the three keys. */
  lemma {:induction false} MapMatchesFailsIff(matches: seq<ScoredVector>)
    ensures MapMatches(matches).Failure? <==>
              exists i :: 0 <= i < |matches| && MissingKey(matches[i])
  {
    if matches != [] {
      var init := matches[..|matches| - 1];
      var last := matches[|matches| - 1];
      MapMatchesFailsIff(init);
      if MapMatches(init).Failure? {
        var i :| 0 <= i < |init| && MissingKey(init[i]);
        assert matches[i] == init[i];
      } else if MissingKey(last) {
        assert MissingKey(matches[|matches| - 1]);
      } else {
        forall i | 0 <= i < |matches|
          ensures !MissingKey(matches[i])
        {
          if i < |matches| - 1 {
            assert matches[i] == init[i];
          }
        }
      }
    }
  }

  /** A match whose metadata dictionary exists but lacks the title, url or content key. */
  predicate MissingKey(m: ScoredVector) {
    m.metadata.Some? && !(TitleKey in m.metadata.value && UrlKey in m.metadata.value && ContentKey in m.metadata.value)
  }

  /** A match without metadata becomes a document with empty texts; a null score becomes 0. */
  lemma MapMatchDefaults(m: ScoredVector)
    requires m.metadata.None?
    ensures MapMatch(m) == Success(RetrievedDocument(m.id, "", "", "", m.score.GetOr(0.0)))
    ensures m.score.None? ==> MapMatch(m).value.score == 0.0
  {
  }

  /** A complete dictionary supplies the three texts, null values becoming "". */
  lemma MapMatchFields(m: ScoredVector)
    requires m.metadata.Some? && !MissingKey(m)
    ensures var md := m.metadata.value;
            MapMatch(m) == Success(RetrievedDocument(m.id, md[TitleKey].GetOr(""), md[UrlKey].GetOr(""),
                                                     md[ContentKey].GetOr(""), m.score.GetOr(0.0)))
  {
  }

  /** A null response or null `Matches` gives the empty list. */
  lemma SearchResultEmpty(response: QueryResponse)
    requires response.NoResponse? || response.matches.None? || response.matches == Some([])
    ensures SearchResult(response) == Success([])
  {
  }

  // ------------------------------------------------------ StoreDocumentAsync

  /** The runtime value behind an `object` in the caller's metadata dictionary. */
  datatype ClrObject =
    | Null
    | BoxedString(s: string)
    | BoxedInt(i: int)
    | BoxedLong(l: int)
    | BoxedFloat(f: real)
    | BoxedDouble(d: real)
    | BoxedBool(b: bool)
    /** Any other object; `text` is what its `ToString()` returned (it may return null). */
    | Other(typeName: string, text: Option<string>)

  /** Pinecone's `MetadataValue`: numbers are held as doubles. */
  datatype MetadataValue = MvString(s: string) | MvNumber(n: real) | MvBool(b: bool)

  /** `ConvertToMetadataValue`: strings, numbers and booleans keep their value; anything else becomes its text. */
  function ConvertToMetadataValue(value: ClrObject): (r: MetadataValue)
    ensures value.BoxedString? ==> r == MvString(value.s)
    ensures value.BoxedInt? ==> r == MvNumber(value.i as real)
    ensures value.BoxedLong? ==> r == MvNumber(value.l as real)
    ensures value.BoxedFloat? ==> r == MvNumber(value.f)
    ensures value.BoxedDouble? ==> r == MvNumber(value.d)
    ensures value.BoxedBool? ==> r == MvBool(value.b)
    ensures value.Null? ==> r == MvString("")
    ensures value.Other? ==> r == MvString(value.text.GetOr(""))
  {
    match value
    case BoxedString(s) => MvString(s)
    case BoxedInt(i) => MvNumber(i as real)
    case BoxedLong(l) => MvNumber(l as real)
    case BoxedFloat(f) => MvNumber(f)
    case BoxedDouble(d) => MvNumber(d)
    case BoxedBool(b) => MvBool(b)
    case Null => MvString("")
    case Other(_, text) => MvString(text.GetOr(""))
  }

  /** The metadata stored with a document: every caller key converted, then "content" set to the content. */
  function EnrichedMetadata(metadata: map<string, ClrObject>, content: string): map<string, MetadataValue> {
    (map k | k in metadata :: ConvertToMetadataValue(metadata[k]))[ContentKey := MvString(content)]
  }

  /** The keys are the caller's plus "content"; the content wins over a caller "content"; the rest are converted. */
  lemma EnrichedMetadataContents(metadata: map<string, ClrObject>, content: string)
    ensures EnrichedMetadata(metadata, content).Keys == metadata.Keys + {ContentKey}
    ensures EnrichedMetadata(metadata, content)[ContentKey] == MvString(content)
    ensures forall k :: k in metadata && k != ContentKey ==>
              EnrichedMetadata(metadata, content)[k] == ConvertToMetadataValue(metadata[k])
  {
  }

  /** The vector `StoreDocumentAsync` upserts. */
  datatype PineconeVector = PineconeVector(id: string, values: seq<real>, metadata: map<string, MetadataValue>)

  /**
   * `StoreDocumentAsync`: the vector it hands to `UpsertAsync`, or `None` when no
   * index client was obtained. The upsert's own outcome is caught and only
   * logged, so it does not reach the caller.
   */
  method StoreDocument(
    indexAvailable: bool, documentId: string, content: string, embedding: seq<real>,
    metadata: map<string, ClrObject>)
    returns (upserted: Option<PineconeVector>)
    ensures upserted == if indexAvailable then Some(PineconeVector(documentId, embedding, EnrichedMetadata(metadata, content)))
                        else None
  {
    if !indexAvailable {
      return None;
    }
    var enriched: map<string, MetadataValue> := map[];
    var remaining := metadata.Keys;
    while |remaining| > 0
      invariant remaining <= metadata.Keys
      invariant enriched == map k | k in metadata.Keys - remaining :: ConvertToMetadataValue(metadata[k])
      decreases |remaining|
    {
      var key :| key in remaining;
      enriched := enriched[key := ConvertToMetadataValue(metadata[key])];
      remaining := remaining - {key};
    }
    assert remaining == {};
    assert metadata.Keys - remaining == metadata.Keys;
    enriched := enriched[ContentKey := MvString(content)];
    upserted := Some(PineconeVector(documentId, embedding, enriched));
  }

  // -------------------------------------------------- DeleteDocumentAsync

  datatype DeleteRequest = DeleteRequest(indexName: string, ids: seq<string>)

  /** `DeleteDocumentAsync`: true when the delete of that one id went through, false on any exception. */
  function DeleteDocument(
    settings: PineconeSettings, documentId: string,
    delete: DeleteRequest -> Outcome<Exception>): (ok: bool)
    ensures ok <==> delete(DeleteRequest(settings.indexName, [documentId])).Pass?
  {
    match delete(DeleteRequest(settings.indexName, [documentId]))
    case Pass => true
    case Fail(_) => false
  }

  // ---------------------------------------------- CreateIndexIfNotExists

  /** The serverless create request: dense vectors, cosine metric, AWS, deletion protection off. */
  datatype CreateIndexRequest = CreateIndexRequest(
    name: string, dimension: int, metric: string, cloud: string, region: Option<string>, deletionProtection: bool)

  /**
   * `CreateIndexIfNotExists`: `listed` is what `ListIndexesAsync` gave, the names
   * of the listed indexes (`Success(None)` a null list or null `Indexes`). The
   * result is the create request issued, if any; every exception is caught.
   */
  function CreateIndexIfNotExists(
    settings: PineconeSettings, indexName: string,
    listed: Result<Option<seq<string>>, Exception>): (request: Option<CreateIndexRequest>)
    ensures request.Some? <==>
              listed.Success? && listed.value.Some? && indexName !in listed.value.value
    ensures request.Some? ==>
              request.value == CreateIndexRequest(indexName, settings.dimension, "cosine", "aws", settings.region, false)
  {
    match listed
    case Failure(_) => None
    case Success(None) => None
    case Success(Some(names)) =>
      if exists i :: 0 <= i < |names| && names[i] == indexName then None
      else Some(CreateIndexRequest(indexName, settings.dimension, "cosine", "aws", settings.region, false))
  }

  /** Once the index is listed, a second call creates nothing. */
  lemma CreateIndexIdempotent(settings: PineconeSettings, indexName: string, names: seq<string>)
    ensures CreateIndexIfNotExists(settings, indexName, Success(Some(names + [indexName]))).None?
  {
    assert (names + [indexName])[|names|] == indexName;
  }
}
