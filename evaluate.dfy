/**
 * The candidate-evaluation endpoint: three guards checked in a fixed order
 * (HTTP method, required body fields, API key), one call to the generative
 * model, and the extraction of a JSON object from the model's text with a
 * fallback result when none can be parsed.
 *
 * The model call and JSON.parse are oracles passed in as functions:
 * generate(jobDescription, candidateProfile) is the model's reply to the
 * prompt built from the two inputs (its text or the value it throws), and
 * parse(text) is Some(value) exactly when JSON.parse(text) succeeds. The
 * parsed value's type J is a type parameter, so the handler cannot inspect it.
 */
module EvaluateApi {
  import opened Wrappers

  /** The JSON body fields the handler reads; None when a field is absent. */
  datatype EvaluateBody = EvaluateBody(candidateProfile: Option<string>, jobDescription: Option<string>)

  datatype Request = Request(httpMethod: string, body: EvaluateBody)

  /** What the model call throws: an Error object with its message, or some other value. */
  datatype Thrown = ErrorInstance(message: string) | NonErrorValue

  datatype ResponseBody<J> =
    | ErrorBody(error: string, details: Option<string>)
    | Evaluation(data: J)
    | Fallback(score: int, feedback: string)

  datatype Response<J> = Response(status: int, body: ResponseBody<J>)

  /** JavaScript truthiness of an optional string. */
  predicate Truthy(v: Option<string>) {
    v.Some? && v.value != ""
  }

  const FallbackNotice := "Error parsing results. Raw response: "
  const ExcerptLength := 500

  /** rawText.substring(0, 500) */
  function Excerpt(raw: string): (e: string)
    ensures e <= raw
    ensures |e| == if |raw| < ExcerptLength then |raw| else ExcerptLength
  {
    if |raw| <= ExcerptLength then raw else raw[..ExcerptLength]
  }

  /** The first position at or after from holding c. */
  function FirstIndexOf(s: string, c: char, from: nat): (r: Option<nat>)
    requires from <= |s|
    ensures r.Some? ==> from <= r.value < |s| && s[r.value] == c
    ensures r.Some? ==> forall k | from <= k < r.value :: s[k] != c
    ensures r.None? ==> forall k | from <= k < |s| :: s[k] != c
    decreases |s| - from
  {
    if from == |s| then None
    else if s[from] == c then Some(from)
    else FirstIndexOf(s, c, from + 1)
  }

  /** The last position before upTo holding c. */
  function LastIndexOf(s: string, c: char, upTo: nat): (r: Option<nat>)
    requires upTo <= |s|
    ensures r.Some? ==> r.value < upTo && s[r.value] == c
    ensures r.Some? ==> forall k | r.value < k < upTo :: s[k] != c
    ensures r.None? ==> forall k | 0 <= k < upTo :: s[k] != c
  {
    if upTo == 0 then None
    else if s[upTo - 1] == c then Some(upTo - 1)
    else LastIndexOf(s, c, upTo - 1)
  }

  /** raw[p..q] as a whole matches /\{[\s\S]*\}/: it opens with '{' and closes with '}'. */
  ghost predicate BraceMatch(raw: string, p: nat, q: nat) {
    p + 2 <= q <= |raw| && raw[p] == '{' && raw[q - 1] == '}'
  }

  /** The match String.prototype.match returns for a pattern without the g flag:
      the leftmost start at which a match exists, and there the longest match,
      because [\s\S]* is greedy. */
  ghost predicate FirstMatch(raw: string, p: nat, q: nat) {
    && BraceMatch(raw, p, q)
    && (forall p': nat, q': nat | p' < p :: !BraceMatch(raw, p', q'))
    && (forall q': nat | q < q' :: !BraceMatch(raw, p, q'))
  }

  /** The bounds [p, q) of the JSON span: from the first '{' to the last '}', when that '}' comes later. */
  function JsonSpanBounds(raw: string): (r: Option<(nat, nat)>)
    ensures r.Some? ==> FirstMatch(raw, r.value.0, r.value.1)
    ensures r.None? ==> forall p: nat, q: nat :: !BraceMatch(raw, p, q)
  {
    match FirstIndexOf(raw, '{', 0)
    case None => None
    case Some(open) =>
      match LastIndexOf(raw, '}', |raw|)
      case None => None
      case Some(close) => if open < close then Some((open, close + 1)) else None
  }

  /** rawText.match(/\{[\s\S]*\}/), the matched text when there is one. */
  function JsonSpan(raw: string): Option<string> {
    match JsonSpanBounds(raw)
    case None => None
    case Some((p, q)) => Some(raw[p..q])
  }

  /** A span exists exactly when some '{' has a '}' after it; it then runs from
      the first '{' to the last '}', both included. */
  lemma JsonSpanExtent(raw: string)
    ensures JsonSpan(raw).Some? <==> exists i, j | 0 <= i < j < |raw| :: raw[i] == '{' && raw[j] == '}'
    ensures JsonSpan(raw).Some? ==> exists i, j ::
      && 0 <= i < j < |raw| && JsonSpan(raw).value == raw[i..j + 1]
      && raw[i] == '{' && (forall k | 0 <= k < i :: raw[k] != '{')
      && raw[j] == '}' && (forall k | j < k < |raw| :: raw[k] != '}')
  {
  }

  /** The degraded result: score 0 and a notice followed by the start of the raw text. */
  function FallbackBody<J>(raw: string): ResponseBody<J> {
    Fallback(0, FallbackNotice + Excerpt(raw))
  }

  /** The inner try block: the parsed span when there is one and it parses, else the fallback. */
  function ParseOutcome<J>(raw: string, parse: string -> Option<J>): ResponseBody<J> {
    match JsonSpan(raw)
    case None => FallbackBody(raw)
    case Some(span) =>
      match parse(span)
      case Some(value) => Evaluation(value)
      case None => FallbackBody(raw)
  }

  /** error instanceof Error ? error.message : 'Unknown error' */
  function ThrownDetails(e: Thrown): string {
    match e
    case ErrorInstance(message) => message
    case NonErrorValue => "Unknown error"
  }

  /** All three guards pass, so the model is called. */
  predicate GuardsPass(req: Request, apiKey: Option<string>) {
    && req.httpMethod == "POST"
    && Truthy(req.body.candidateProfile) && Truthy(req.body.jobDescription)
    && Truthy(apiKey)
  }

  /** The request handler; apiKey is the GEMINI_API_KEY environment variable. */
  function Handle<J>(req: Request, apiKey: Option<string>,
                     generate: (string, string) -> Result<string, Thrown>,
                     parse: string -> Option<J>): (res: Response<J>)
    ensures res.status in {200, 400, 405, 500}
    ensures res.status == 200 <==>
      (GuardsPass(req, apiKey) && generate(req.body.jobDescription.value, req.body.candidateProfile.value).Success?)
    ensures res.status == 500 ==>
      (&& req.httpMethod == "POST"
       && Truthy(req.body.candidateProfile) && Truthy(req.body.jobDescription)
       && (!Truthy(apiKey) || generate(req.body.jobDescription.value, req.body.candidateProfile.value).Failure?))
    ensures GuardsPass(req, apiKey) && generate(req.body.jobDescription.value, req.body.candidateProfile.value).Failure? ==>
      res == Response(500, ErrorBody("Failed to evaluate candidate",
        Some(ThrownDetails(generate(req.body.jobDescription.value, req.body.candidateProfile.value).error))))
  {
    if req.httpMethod != "POST" then
      Response(405, ErrorBody("Method not allowed", None))
    else if !Truthy(req.body.candidateProfile) || !Truthy(req.body.jobDescription) then
      Response(400, ErrorBody("Missing required fields",
                              Some("Both candidate profile and job description are required")))
    else if !Truthy(apiKey) then
      Response(500, ErrorBody("API configuration error", Some("Missing API key in server configuration")))
    else
      match generate(req.body.jobDescription.value, req.body.candidateProfile.value)
      case Failure(e) => Response(500, ErrorBody("Failed to evaluate candidate", Some(ThrownDetails(e))))
      case Success(raw) => Response(200, ParseOutcome(raw, parse))
  }

  /** A method other than POST is answered with 405 whatever else the request holds. */
  lemma MethodCheckedFirst<J>(req: Request, apiKey: Option<string>,
                              generate: (string, string) -> Result<string, Thrown>,
                              parse: string -> Option<J>)
    requires req.httpMethod != "POST"
    ensures Handle(req, apiKey, generate, parse) == Response(405, ErrorBody("Method not allowed", None))
  {
  }

  /** A missing field gives 400, and a missing key (once the fields are there) gives 500. */
  lemma FieldsCheckedBeforeKey<J>(req: Request, apiKey: Option<string>,
                                  generate: (string, string) -> Result<string, Thrown>,
                                  parse: string -> Option<J>)
    requires req.httpMethod == "POST"
    ensures !Truthy(req.body.candidateProfile) || !Truthy(req.body.jobDescription) ==>
      Handle(req, apiKey, generate, parse) == Response(400, ErrorBody("Missing required fields",
        Some("Both candidate profile and job description are required")))
    ensures Truthy(req.body.candidateProfile) && Truthy(req.body.jobDescription) && !Truthy(apiKey) ==>
      Handle(req, apiKey, generate, parse) == Response(500, ErrorBody("API configuration error",
        Some("Missing API key in server configuration")))
  {
  }

  /** When a guard fails the model is not consulted: the response is the same for any model and any parser. */
  lemma ModelNotCalledWhenGuardFails<J>(req: Request, apiKey: Option<string>,
                                        generate1: (string, string) -> Result<string, Thrown>,
                                        generate2: (string, string) -> Result<string, Thrown>,
                                        parse1: string -> Option<J>, parse2: string -> Option<J>)
    requires !GuardsPass(req, apiKey)
    ensures Handle(req, apiKey, generate1, parse1) == Handle(req, apiKey, generate2, parse2)
    ensures Handle(req, apiKey, generate1, parse1).body.ErrorBody?
  {
  }

  /** A span that parses is returned with 200 as it is, with no check of its shape. */
  lemma ParsedValueReturned<J>(req: Request, apiKey: Option<string>,
                               generate: (string, string) -> Result<string, Thrown>,
                               parse: string -> Option<J>, raw: string, value: J)
    requires GuardsPass(req, apiKey)
    requires generate(req.body.jobDescription.value, req.body.candidateProfile.value) == Success(raw)
    requires JsonSpan(raw).Some? && parse(JsonSpan(raw).value) == Some(value)
    ensures Handle(req, apiKey, generate, parse) == Response(200, Evaluation(value))
  {
  }

  /** No span, or a span JSON.parse rejects, gives status 200, score 0 and a
      feedback string made of the notice and the first min(500, |raw|)
      characters of the raw text. */
  lemma FallbackWhenUnparsable<J>(req: Request, apiKey: Option<string>,
                                  generate: (string, string) -> Result<string, Thrown>,
                                  parse: string -> Option<J>, raw: string)
    requires GuardsPass(req, apiKey)
    requires generate(req.body.jobDescription.value, req.body.candidateProfile.value) == Success(raw)
    requires JsonSpan(raw).None? || parse(JsonSpan(raw).value).None?
    ensures Handle(req, apiKey, generate, parse).status == 200
    ensures Handle(req, apiKey, generate, parse).body.Fallback?
    ensures Handle(req, apiKey, generate, parse).body.score == 0
    ensures exists e ::
      (&& Handle(req, apiKey, generate, parse).body.feedback == FallbackNotice + e
       && e <= raw && |e| == (if |raw| < 500 then |raw| else 500))
  {
  }

  /** A reply with no '{' ... '}' block cannot be parsed, whatever the parser does. */
  lemma NoBraceBlockFallsBack<J>(raw: string, parse: string -> Option<J>)
    requires forall i, j | 0 <= i < j < |raw| :: !(raw[i] == '{' && raw[j] == '}')
    ensures ParseOutcome(raw, parse) == FallbackBody(raw)
  {
  }
}
