# hiring-bud core, modelled in Dafny

hiring-bud is a small job-candidate matching web application. Candidates apply
through a form. Recruiters search stored candidates by vector similarity, and a
generative model can score a candidate against a job description. Most of the
repository is glue over hosted services. This project models its three
self-contained pieces of logic and proves properties about them:

- **The application form** (`application_form.dfy`, `email_pattern.dfy`). The
  state record has five fields (`FormData`). `ExpectedErrors` gives the
  per-field validation rules. The component class `ApplicationForm` holds the
  `formData` and `errors` state. `HandleChange` and `HandleFileChange` each
  replace one field. `Validate` builds the error map with a chain of `if`s.
  `HandleSubmit` writes `errors` only when validation fails.
  - The e-mail check is the unanchored regular expression `\S+@\S+\.\S+`.
    `PatternOccurs` defines it: some substring matches the pattern whole.
    `EmailTest` is a recursive scanner that decides it. A lemma proves the
    two agree on every string. `IsWhitespace` is JavaScript's `\s` class.
  - `StaleErrorsAfterCorrection` shows a consequence of the code: a failed
    submission, followed by corrections and then a successful submission,
    still leaves the earlier messages in `errors`.
- **The evaluation endpoint** (`evaluate.dfy`). `Handle` is a pure function from
  the request, the API key and two oracles to a `Response`. The oracles are
  `generate` (the model's reply to the prompt built from the two inputs, or
  what it throws) and `parse` (`JSON.parse`, which either succeeds or fails).
  - The parsed value's type is a type parameter, so the handler cannot
    inspect it or check it against a schema.
  - `JsonSpanBounds` extracts the JSON span: from the first `{` to the last
    `}`. It is proved to be the match that `String.prototype.match` returns for
    `/\{[\s\S]*\}/`: the leftmost start, then the longest (greedy) match.
  - `ParseOutcome` returns the parsed value. Otherwise it falls back to score 0
    and a feedback string made of a fixed notice and the first 500 characters
    of the raw text.
- **The vector-store client** (`pinecone.dfy`).
  - `ValidateVector` is the vector predicate.
  - `LoadConfig` is the module-load check of the two environment variables.
  - `UpsertPayload` and `SearchPayload` build the request bodies.
    `ShapeMatches` is the mapping from provider matches to search hits.
  - The class `PineconeClient` keeps a ghost log `posts` of every HTTP POST it
    sends. `UpsertVector` refuses a vector whose length is not 3072 before any
    post is made. `SearchCandidates` and `QueryVector` each post once. The
    provider's answer (`reply`) is a parameter that is used only when the post
    is made. Upstream errors are passed on unchanged.

Modules: `Wrappers` (Option, Result), `EmailPattern`, `CandidateApplicationForm`,
`EvaluateApi`, `Pinecone`.

Two details of the code that are easy to misread:
- The degraded feedback is not a bare prefix of the raw response. It is the
  notice "Error parsing results. Raw response: " followed by a prefix of at
  most 500 characters (pages/api/evaluate.ts:75).
- A dimension mismatch is not a dedicated error type. `upsertVector` throws a
  plain `Error` with the message "Vector must be an array of 3072 numbers"
  (src/lib/pinecone.ts:24-26).

## Model

| member | source | states |
|---|---|---|
| `EmailPattern.IsWhitespace` | src/components/CandidateApplicationForm.tsx:36 | JavaScript's `\s` class (white space and line terminators); `\S` is its complement; used by both readings of the pattern below |
| `EmailPattern.PatternOccurs` | src/components/CandidateApplicationForm.tsx:36 | the reference reading of `/\S+@\S+\.\S+/.test`: some substring matches the pattern as a whole (`MatchesWhole`); its properties are stated by EmailTestMeansPatternOccurs, PatternOccursInContext and EmailRule |
| `EmailPattern.EmailTest` | src/components/CandidateApplicationForm.tsx:36 | the scanner validation calls for the e-mail test; stated equal to PatternOccurs by EmailTestMeansPatternOccurs, unanchored by EmailTestInContext, and bounded below by EmailTestNeeds |
| `EmailPattern.EmailTestMeansPatternOccurs` | src/components/CandidateApplicationForm.tsx:36 | the scanner accepts a string exactly when some substring of it matches `\S+@\S+\.\S+` as a whole |
| `EmailPattern.PatternOccursInContext` | src/components/CandidateApplicationForm.tsx:36 | the pattern is unanchored: if it occurs in t, it occurs in u + t + v for any surrounding text, white space included |
| `EmailPattern.EmailTestInContext` | src/components/CandidateApplicationForm.tsx:36 | the same unanchoring, stated for the scanner that validation uses |
| `EmailPattern.EmailTestNeeds` | src/components/CandidateApplicationForm.tsx:36 | an accepted e-mail has at least five characters and contains an '@' and a '.' |
| `CandidateApplicationForm.TextValue` | src/components/CandidateApplicationForm.tsx:16-22 | the field a text input's `name` attribute selects in `[name]: value`; used by HandleChange's contract, which says only that field changes |
| `CandidateApplicationForm.FieldError` | src/components/CandidateApplicationForm.tsx:33-41 | the rule of one field on its own, with its message; stated per field by NameRule, EmailRule and PresenceRules |
| `CandidateApplicationForm.ExpectedErrors` | src/components/CandidateApplicationForm.tsx:31-43 | the map validate returns, one entry per failing field; Validate is proved equal to it, and NameRule, EmailRule, PresenceRules, NoErrorsIffComplete and AtMostOneErrorPerField state its contents |
| `CandidateApplicationForm.IsComplete` | src/components/CandidateApplicationForm.tsx:31-43 | the condition under which validation passes: the four fields present and the e-mail non-empty with the pattern occurring; tied to ExpectedErrors by NoErrorsIffComplete |
| `CandidateApplicationForm.NameRule` | src/components/CandidateApplicationForm.tsx:33 | the name error is present iff the name is empty, and its message is "Name is required" |
| `CandidateApplicationForm.EmailRule` | src/components/CandidateApplicationForm.tsx:34-38 | an empty e-mail gives "Email is required"; a non-empty one in which the pattern does not occur gives "Email is invalid"; a non-empty one in which it occurs gives no e-mail error; "required" appears exactly for the empty e-mail, so the two messages are exclusive |
| `CandidateApplicationForm.PresenceRules` | src/components/CandidateApplicationForm.tsx:39-41 | the LinkedIn, resume and skills errors are each present iff that field is missing, with their fixed messages |
| `CandidateApplicationForm.NoErrorsIffComplete` | src/components/CandidateApplicationForm.tsx:31-43 | the error map is empty iff name, LinkedIn URL, resume and skills are present and the e-mail is non-empty and matches the pattern |
| `CandidateApplicationForm.Key` | src/components/CandidateApplicationForm.tsx:6-12 | a field's property name is one of the five names of the state record: name, email, linkedInUrl, resume, skillsExperience |
| `CandidateApplicationForm.KeysDistinct` | src/components/CandidateApplicationForm.tsx:6-12 | distinct fields have distinct property names |
| `CandidateApplicationForm.AtMostOneErrorPerField` | src/components/CandidateApplicationForm.tsx:32-42 | errors are recorded only under the five fields, at most one per field, so there are at most five entries; this holds by the Field type, and Key and KeysDistinct tie the fields to the property names |
| `CandidateApplicationForm.ApplicationForm.constructor` | src/components/CandidateApplicationForm.tsx:6-14 | the form starts with empty text fields, no resume and no errors |
| `CandidateApplicationForm.ApplicationForm.HandleChange` | src/components/CandidateApplicationForm.tsx:16-22 | the named input's field takes the new value; every other field and the errors are unchanged |
| `CandidateApplicationForm.ApplicationForm.HandleFileChange` | src/components/CandidateApplicationForm.tsx:24-29 | only resume changes (None when no file is chosen); text fields and errors are unchanged |
| `CandidateApplicationForm.ApplicationForm.Validate` | src/components/CandidateApplicationForm.tsx:31-43 | the chain of field checks yields exactly the per-field rule map, one entry for each failing field |
| `CandidateApplicationForm.ApplicationForm.HandleSubmit` | src/components/CandidateApplicationForm.tsx:45-54 | formData is unchanged; the form is submitted iff there are no errors; errors becomes the new error map when there are errors, and otherwise keeps its previous value (it is not cleared) |
| `CandidateApplicationForm.StaleErrorsAfterCorrection` | src/components/CandidateApplicationForm.tsx:45-54 | a scenario checked from the handlers' contracts: a failed submission records the name error, and a later successful one after correcting every field leaves that message in errors |
| `EvaluateApi.Truthy` | pages/api/evaluate.ts:12-20 | JavaScript truthiness of an optional string (present and non-empty), as the field and key guards test it; used by GuardsPass and FieldsCheckedBeforeKey |
| `EvaluateApi.GuardsPass` | pages/api/evaluate.ts:5-26 | all three guards pass, so the model is called; ModelNotCalledWhenGuardFails states that when it is false the response depends on neither oracle, and Handle's ensures that a 200 needs it |
| `EvaluateApi.Excerpt` | pages/api/evaluate.ts:75 | `substring(0, 500)` is a prefix of the raw text of length min(500, its length) |
| `EvaluateApi.FirstIndexOf` | pages/api/evaluate.ts:62 | the position at or after `from` where the character first occurs, or None when it does not occur there |
| `EvaluateApi.LastIndexOf` | pages/api/evaluate.ts:62 | the last position before `upTo` where the character occurs, or None when there is none |
| `EvaluateApi.FirstMatch` | pages/api/evaluate.ts:62 | the reference semantics of `match` without the g flag for `/\{[\s\S]*\}/` (`BraceMatch`): the leftmost start with a match, and there the longest; JsonSpanBounds is proved to return it |
| `EvaluateApi.JsonSpanBounds` | pages/api/evaluate.ts:62 | the span found is the match of `/\{[\s\S]*\}/` that JavaScript returns: it opens with '{' and closes with '}', no match starts earlier, and none from the same start is longer; when no span is found, no substring matches |
| `EvaluateApi.JsonSpan` | pages/api/evaluate.ts:62 | `jsonMatch[0]`, the matched text or None; its extent is stated by JsonSpanExtent and, through JsonSpanBounds, FirstMatch |
| `EvaluateApi.JsonSpanExtent` | pages/api/evaluate.ts:62 | a span exists iff some '{' has a '}' after it; it is the text from the first '{' to the last '}', both included |
| `EvaluateApi.FallbackBody` | pages/api/evaluate.ts:73-76 | the degraded body: score 0 and the notice followed by Excerpt of the raw text; stated by FallbackWhenUnparsable |
| `EvaluateApi.ParseOutcome` | pages/api/evaluate.ts:60-77 | the inner try block: the parsed span, or the fallback; stated by ParsedValueReturned, FallbackWhenUnparsable and NoBraceBlockFallsBack |
| `EvaluateApi.ThrownDetails` | pages/api/evaluate.ts:82 | the details of the 500 answer: the thrown Error's message, or "Unknown error" for any other thrown value; used in Handle's ensures for a failed model call |
| `EvaluateApi.Handle` | pages/api/evaluate.ts:4-85 | the status is one of 200, 400, 405 and 500; it is 200 iff all guards pass and the model replies; a 500 comes only from a missing API key or a failed model call, never from the JSON handling; a failed model call after the guards gives 500 "Failed to evaluate candidate" with the thrown Error's message, or "Unknown error" when the thrown value is not an Error |
| `EvaluateApi.MethodCheckedFirst` | pages/api/evaluate.ts:5-7 | a method other than POST gets 405 "Method not allowed" whatever the body, the key and the oracles are |
| `EvaluateApi.FieldsCheckedBeforeKey` | pages/api/evaluate.ts:12-26 | on POST, a missing profile or job description gives 400 with its message; with both present, a missing key gives 500 "API configuration error" |
| `EvaluateApi.ModelNotCalledWhenGuardFails` | pages/api/evaluate.ts:5-26 | when a guard fails, the response is an error body that does not depend on the model or the parser, so neither is consulted |
| `EvaluateApi.ParsedValueReturned` | pages/api/evaluate.ts:64-66 | a span that parses is returned with status 200 unchanged |
| `EvaluateApi.FallbackWhenUnparsable` | pages/api/evaluate.ts:67-76 | no span, or a span that fails to parse, gives status 200 with score 0 and feedback = notice + a prefix of the raw text of length min(500, length of the raw text) |
| `EvaluateApi.NoBraceBlockFallsBack` | pages/api/evaluate.ts:62-76 | raw text with no '{' before a '}' always gives the fallback, whatever the parser does |
| `Pinecone.IsValidNumber` | src/lib/pinecone.ts:15 | `typeof num === 'number' && !isNaN(num)` over the abstract Number: true for every number other than NaN; used in AllValidNumbers' contract |
| `Pinecone.AllValidNumbers` | src/lib/pinecone.ts:15 | `every` holds iff each element is a number other than NaN |
| `Pinecone.ValidateVector` | src/lib/pinecone.ts:11-17 | a vector is valid iff it has 3072 elements and every element is a number other than NaN |
| `Pinecone.UpsertGuardWeakerThanValidation` | src/lib/pinecone.ts:11-26 | some vector of 3072 NaNs passes the upsert length guard and fails validation, so the guard is strictly weaker (that every validated vector passes the guard is ValidateVector's postcondition) |
| `Pinecone.LoadConfig` | src/lib/pinecone.ts:3-9 | the module loads iff both the base URL and the API key are non-empty; otherwise it throws "Missing Pinecone environment variables" |
| `Pinecone.UpsertEndpoint` | src/lib/pinecone.ts:28 | the upsert URL `<baseUrl>/vectors/upsert`; UpsertVector's contract logs a post to it exactly when the length guard passes |
| `Pinecone.QueryEndpoint` | src/lib/pinecone.ts:69 | the query URL `<baseUrl>/query`, shared with queryVector (line 99); SearchCandidates' and QueryVector's contracts log one post to it |
| `Pinecone.ToNumber` | src/lib/pinecone.ts:34 | `Number(v)` on a value that is already a number; UpsertPayload's ensures that the converted values equal the input |
| `Pinecone.UpsertPayload` | src/lib/pinecone.ts:31-37 | the upsert body holds exactly one vector entry, with the given id, values equal to the input and the metadata unchanged |
| `Pinecone.TopKOrDefault` | src/lib/pinecone.ts:66 | the default parameter `topK = 7`; SearchPayload's ensures give 7 when topK is omitted and the given value otherwise |
| `Pinecone.SearchPayload` | src/lib/pinecone.ts:66-75 | the query body carries the query vector; topK is 7 when omitted and the given value otherwise; includeMetadata is always true; the filter is passed through as given |
| `Pinecone.PlainQueryPayload` | src/lib/pinecone.ts:100-104 | the queryVector body; PlainQueryIsUnfilteredSearch proves it equal to the search body with no filter |
| `Pinecone.PlainQueryIsUnfilteredSearch` | src/lib/pinecone.ts:95-104 | queryVector's body equals the searchCandidates body with no filter |
| `Pinecone.ShapeMatches` | src/lib/pinecone.ts:84-87 | one hit per provider match, in the same order, each with exactly that match's score and metadata |
| `Pinecone.ShapeMatchesKeepsRanking` | src/lib/pinecone.ts:84-87 | a provider ranking in descending score stays descending, and a count within topK stays within topK |
| `Pinecone.PineconeClient.constructor` | src/lib/pinecone.ts:3-9 | a client exists only for an environment that loads (both variables non-empty); it holds that configuration and starts with no posts sent |
| `Pinecone.PineconeClient.UpsertVector` | src/lib/pinecone.ts:19-61 | a vector whose length is not 3072 throws the dimension message, and no post is made; otherwise exactly one post of the upsert body to `<baseUrl>/vectors/upsert` is logged, and the provider's data or error is passed on unchanged |
| `Pinecone.PineconeClient.SearchCandidates` | src/lib/pinecone.ts:64-92 | exactly one post of the search body to `<baseUrl>/query`; on success the matches are shaped into hits; a provider error is passed on unchanged |
| `Pinecone.PineconeClient.QueryVector` | src/lib/pinecone.ts:95-120 | exactly one post of the unfiltered query body; the provider's data or error is returned as it is |

## Left out

- `pages/api/uploadResume.ts`, `pages/api/summarize.ts`, `pages/api/search.ts`,
  `src/lib/textEmbedding.ts` and `src/lib/searchResult.ts` are not part of this
  model. They are file-upload handling, nondeterministic file names and thin
  wrappers over hosted SDKs. `search.ts` imports `lib/searchUtils`, which is
  not among the files.
- `src/components/VectorSearch.tsx`, `src/components/Footer.tsx`, the page
  components and the form's JSX are rendering; they are not modelled.
- No resume-section extraction code exists in these files, so none is
  modelled.
- Logging (`console.log`, `console.error`) and `e.preventDefault()` have no
  effect on the modelled state and are left out.
- React state updates are asynchronous and batched; the model treats each
  handler as one atomic state change.
- CandidateApplicationForm.ApplicationForm.HandleChange: the input's name is one of the four
  text inputs the form binds to handleChange. A name outside these would add
  an extra property that validation never reads; this is not modelled.
- Errors are keyed by the five-valued `Field` type instead of JavaScript
  property strings. `Key` maps each field to its property name, and
  `KeysDistinct` shows that this mapping is one-to-one.
- EvaluateApi.Handle: body fields are optional strings. JSON values of other
  types (numbers, objects) and a missing request body are not modelled. A
  missing body would make the destructuring throw, and the outer catch would
  answer 500.
- EvaluateApi.Handle: the prompt text is not modelled. `generate` receives
  the job description and the candidate profile that the template embeds.
  Failures of `generateContent`, `result.response` and `response.text()` are
  folded into `generate` failing.
- `JSON.parse` is the `parse` oracle; its internals are not modelled.
- EvaluateApi.Excerpt: JavaScript counts UTF-16 code units; the model counts
  Dafny characters (Unicode scalar values). The two differ only for
  characters outside the Basic Multilingual Plane.
- Pinecone.ValidateVector: numbers are `Num(real)` or `NaN`. `Num` stands
  for any number other than NaN. A real cannot hold an infinity, so
  infinities, which pass `typeof` and `isNaN`, are covered only by this
  abstraction. IEEE-754 detail is not modelled. The vector has the declared type `number[]`, so the
  `Array.isArray` test and non-number elements are not modelled.
- Pinecone.UpsertPayload: `id.toString()` and `Number(v)` are identities on
  a string and on a number, and are modelled as such.
- Pinecone.PineconeClient.UpsertVector: only the Api-Key header is recorded
  in the post log. The Content-Type and Accept headers are constant and are
  left out.
- Pinecone.PineconeClient.SearchCandidates: a provider answer without a
  `matches` array is not modelled. In the source the resulting type error is
  caught and re-thrown.
- The vector database itself (storage, overwrite on a repeated id, similarity
  ranking) is external. `ShapeMatchesKeepsRanking` states only what the
  client preserves.
