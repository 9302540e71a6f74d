/**
 * The client of the hosted vector database: vector validation, the
 * dimension guard of an upsert, the request payloads, and the shaping of
 * query matches into search results.
 *
 * The HTTP POST is an external call. The client keeps a ghost log of every
 * post it sends; the provider's answer to a post is a parameter (reply),
 * used only when the post is actually made.
 */
module Pinecone {
  import opened Wrappers

  const VectorDimension := 3072
  const DefaultTopK := 7

  /** A JavaScript number: NaN, or Num standing for any number that is not NaN
      (infinities are covered only by this abstraction, as a real cannot hold one). */
  datatype Number = Num(value: real) | NaN

  /** typeof num === 'number' && !isNaN(num) */
  predicate IsValidNumber(x: Number) {
    x.Num?
  }

  datatype MetadataValue = Text(text: string) | Numeric(number: Number) | Flag(flag: bool)

  type Metadata = map<string, MetadataValue>

  /** vector.every(...) over the number check, scanning left to right. */
  function AllValidNumbers(v: seq<Number>): (ok: bool)
    ensures ok <==> forall i | 0 <= i < |v| :: IsValidNumber(v[i])
  {
    if v == [] then true else IsValidNumber(v[0]) && AllValidNumbers(v[1..])
  }

  /** validateVector */
  function ValidateVector(v: seq<Number>): (ok: bool)
    ensures ok <==> |v| == VectorDimension && forall i | 0 <= i < |v| :: v[i].Num?
  {
    |v| == VectorDimension && AllValidNumbers(v)
  }

  /** The upsert guard checks the length only, so it admits vectors that
      validateVector rejects. (Every validated vector passes the guard, by
      ValidateVector's postcondition; this lemma shows the converse fails.) */
  lemma UpsertGuardWeakerThanValidation()
    ensures exists v :: |v| == VectorDimension && !ValidateVector(v)
  {
    var allNaN := seq(VectorDimension, _ => NaN);
    assert !IsValidNumber(allNaN[0]);
    assert |allNaN| == VectorDimension && !ValidateVector(allNaN);
  }

  /** The environment the module reads when it is loaded. */
  datatype Config = Config(baseUrl: string, apiKey: string)

  const MissingEnvironmentMessage := "Missing Pinecone environment variables"

  /** Module initialisation: both variables must be non-empty, or loading throws. */
  function LoadConfig(baseUrl: Option<string>, apiKey: Option<string>): (r: Result<Config, string>)
    ensures r.Success? <==> (baseUrl.Some? && baseUrl.value != "" && apiKey.Some? && apiKey.value != "")
    ensures r.Success? ==> r.value.baseUrl == baseUrl.value && r.value.apiKey == apiKey.value
    ensures r.Failure? ==> r.error == MissingEnvironmentMessage
  {
    match (baseUrl, apiKey)
    case (Some(url), Some(key)) =>
      if url != "" && key != "" then Success(Config(url, key)) else Failure(MissingEnvironmentMessage)
    case _ => Failure(MissingEnvironmentMessage)
  }

  function UpsertEndpoint(config: Config): string {
    config.baseUrl + "/vectors/upsert"
  }

  function QueryEndpoint(config: Config): string {
    config.baseUrl + "/query"
  }

  datatype VectorRecord = VectorRecord(id: string, values: seq<Number>, metadata: Metadata)

  /** A request body; a None filter is a field left undefined, which JSON omits. */
  datatype Payload =
    | UpsertRequest(vectors: seq<VectorRecord>)
    | QueryRequest(vector: seq<Number>, topK: int, includeMetadata: bool, filter: Option<Metadata>)

  /** One HTTP POST: the endpoint, the Api-Key header and the JSON body. */
  datatype Post = Post(endpoint: string, apiKey: string, payload: Payload)

  /** Number(v) applied to a value that is already a number. */
  function ToNumber(x: Number): Number {
    match x
    case Num(r) => Num(r)
    case NaN => NaN
  }

  /** The upsert body: a single vector with the given id, the values converted by Number, and the metadata. */
  function UpsertPayload(id: string, vector: seq<Number>, metadata: Metadata): (p: Payload)
    ensures p.UpsertRequest? && |p.vectors| == 1
    ensures p.vectors[0].id == id && p.vectors[0].metadata == metadata
    ensures p.vectors[0].values == vector
  {
    var values := seq(|vector|, i requires 0 <= i < |vector| => ToNumber(vector[i]));
    UpsertRequest([VectorRecord(id, values, metadata)])
  }

  /** topK = 7 when the caller leaves it undefined. */
  function TopKOrDefault(topK: Option<int>): int {
    match topK
    case None => DefaultTopK
    case Some(k) => k
  }

  /** The searchCandidates body. */
  function SearchPayload(queryVector: seq<Number>, topK: Option<int>, filter: Option<Metadata>): (p: Payload)
    ensures p.QueryRequest? && p.vector == queryVector && p.includeMetadata
    ensures topK.None? ==> p.topK == DefaultTopK
    ensures topK.Some? ==> p.topK == topK.value
    ensures p.filter == filter
  {
    QueryRequest(queryVector, TopKOrDefault(topK), true, filter)
  }

  /** The queryVector body, which has no filter field. */
  function PlainQueryPayload(queryVector: seq<Number>, topK: Option<int>): Payload {
    QueryRequest(queryVector, TopKOrDefault(topK), true, None)
  }

  /** queryVector sends what searchCandidates sends with no filter. */
  lemma PlainQueryIsUnfilteredSearch(queryVector: seq<Number>, topK: Option<int>)
    ensures PlainQueryPayload(queryVector, topK) == SearchPayload(queryVector, topK, None)
  {
  }

  /** What the provider throws: the HTTP status if a response came back, and its data. */
  datatype HttpError = HttpError(status: Option<int>, data: string)

  /** What upsertVector throws. */
  datatype UpsertError = DimensionMismatch(message: string) | Upstream(cause: HttpError)

  const DimensionMessage := "Vector must be an array of 3072 numbers"

  datatype ProviderMatch = ProviderMatch(id: string, score: real, metadata: Metadata)

  /** The part of the provider's query answer the client reads. */
  datatype QueryResponse = QueryResponse(matches: seq<ProviderMatch>)

  datatype SearchHit = SearchHit(score: real, metadata: Metadata)

  /** matches.map(match => ({score, metadata})) */
  function ShapeMatches(matches: seq<ProviderMatch>): (hits: seq<SearchHit>)
    ensures |hits| == |matches|
    ensures forall i | 0 <= i < |hits| ::
      hits[i].score == matches[i].score && hits[i].metadata == matches[i].metadata
  {
    seq(|matches|, i requires 0 <= i < |matches| => SearchHit(matches[i].score, matches[i].metadata))
  }

  ghost predicate MatchesDescending(matches: seq<ProviderMatch>) {
    forall i, j | 0 <= i < j < |matches| :: matches[i].score >= matches[j].score
  }

  ghost predicate HitsDescending(hits: seq<SearchHit>) {
    forall i, j | 0 <= i < j < |hits| :: hits[i].score >= hits[j].score
  }

  /** The client does no re-ranking and drops nothing: a provider ranking in
      descending score within topK stays one. */
  lemma ShapeMatchesKeepsRanking(matches: seq<ProviderMatch>, topK: int)
    ensures MatchesDescending(matches) ==> HitsDescending(ShapeMatches(matches))
    ensures |matches| <= topK ==> |ShapeMatches(matches)| <= topK
  {
  }

  /** The module's functions that talk to the provider, with the posts made so far. */
  class PineconeClient {
    const config: Config
    ghost var posts: seq<Post>

    /** The module's functions exist only once the module has loaded, that is,
        once both environment variables are set and non-empty. */
    constructor (baseUrl: Option<string>, apiKey: Option<string>)
      requires LoadConfig(baseUrl, apiKey).Success?
      ensures config == LoadConfig(baseUrl, apiKey).value && posts == []
      ensures config.baseUrl != "" && config.apiKey != ""
    {
      config := LoadConfig(baseUrl, apiKey).value;
      posts := [];
    }

    /** upsertVector: a vector of the wrong length is refused before any post;
        otherwise one post, and the provider's answer or error is passed on. */
    method UpsertVector<D>(id: string, vector: seq<Number>, metadata: Metadata,
                           reply: Result<D, HttpError>) returns (r: Result<D, UpsertError>)
      modifies this
      ensures |vector| != VectorDimension ==>
        r == Failure(DimensionMismatch(DimensionMessage)) && posts == old(posts)
      ensures |vector| == VectorDimension ==>
        posts == old(posts) + [Post(UpsertEndpoint(config), config.apiKey, UpsertPayload(id, vector, metadata))]
      ensures |vector| == VectorDimension && reply.Success? ==> r == Success(reply.value)
      ensures |vector| == VectorDimension && reply.Failure? ==> r == Failure(Upstream(reply.error))
    {
      if |vector| != VectorDimension {
        return Failure(DimensionMismatch(DimensionMessage));
      }
      var endpoint := UpsertEndpoint(config);
      var payload := UpsertPayload(id, vector, metadata);
      posts := posts + [Post(endpoint, config.apiKey, payload)];
      match reply
      case Success(data) => r := Success(data);
      case Failure(error) => r := Failure(Upstream(error));
    }

    /** searchCandidates: one query post, then each match reduced to its score and metadata. */
    method SearchCandidates(queryVector: seq<Number>, topK: Option<int>, filter: Option<Metadata>,
                            reply: Result<QueryResponse, HttpError>) returns (r: Result<seq<SearchHit>, HttpError>)
      modifies this
      ensures posts == old(posts) + [Post(QueryEndpoint(config), config.apiKey, SearchPayload(queryVector, topK, filter))]
      ensures reply.Success? ==> r == Success(ShapeMatches(reply.value.matches))
      ensures reply.Failure? ==> r == Failure(reply.error)
    {
      var payload := SearchPayload(queryVector, topK, filter);
      posts := posts + [Post(QueryEndpoint(config), config.apiKey, payload)];
      match reply
      case Success(response) => r := Success(ShapeMatches(response.matches));
      case Failure(error) => r := Failure(error);
    }

    /** queryVector: one query post without a filter; the provider's answer is returned as it is. */
    method QueryVector<D>(queryVector: seq<Number>, topK: Option<int>,
                          reply: Result<D, HttpError>) returns (r: Result<D, HttpError>)
      modifies this
      ensures posts == old(posts) + [Post(QueryEndpoint(config), config.apiKey, PlainQueryPayload(queryVector, topK))]
      ensures r == reply
    {
      posts := posts + [Post(QueryEndpoint(config), config.apiKey, PlainQueryPayload(queryVector, topK))];
      r := reply;
    }
  }
}
