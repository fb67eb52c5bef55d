/**
 * The request validation of the vector-search proxy
 * (Pinecone_NodeJS_Server/src/index.js). Each endpoint destructures the JSON
 * body, answers 400 when a required field is JavaScript-falsy, 403 when the
 * password differs from the configured one, and otherwise calls the vector
 * store once: 200 with its result, or 500 with the error's text when it throws.
 * The configured password (`process.env.PASSWORD`) and the store's outcome are
 * parameters.
 */
module SearchServer {
  import opened Wrappers

  /** A value of a parsed JSON body; a field the body lacks reads as `Undefined`. */
  datatype JsValue =
    | Undefined
    | Null
    | Bool(b: bool)
    | Number(n: real)
    | Str(s: string)
    | Array(items: seq<JsValue>)
    | Object(members: seq<(string, JsValue)>)

  type Body = map<string, JsValue>

  /** JavaScript truthiness: `undefined`, `null`, `false`, `0` and `""` are falsy. */
  predicate Truthy(v: JsValue)
  {
    match v
    case Undefined => false
    case Null => false
    case Bool(b) => b
    case Number(n) => n != 0.0
    case Str(s) => s != ""
    case Array(_) => true
    case Object(_) => true
  }

  /** `const { name } = req.body`. */
  function Field(body: Body, name: string): JsValue
  {
    if name in body then body[name] else Undefined
  }

  datatype Response = Response(status: int, body: JsValue)

  /** How the vector-store call ends: a result, or a thrown error and its `toString()`. */
  datatype StoreOutcome = Resolved(result: JsValue) | Threw(message: string)

  /** The vector-store call an endpoint makes, with the arguments it passes. */
  datatype StoreCall =
    | Query(indexName: JsValue, nameSpace: JsValue, query: JsValue)
    | Upsert(indexName: JsValue, nameSpace: JsValue, chunkSize: JsValue, document: JsValue)
    | CreateIndex(indexName: JsValue, dimension: int)

  /** An endpoint's response, and the store call it made, if any. */
  datatype Handled = Handled(call: Option<StoreCall>, response: Response)

  const SearchFields: seq<string> := ["password", "indexName", "query", "nameSpace"]
  const UpsertFields: seq<string> := ["password", "indexName", "document", "nameSpace", "chunkSize"]
  const CreateIndexFields: seq<string> := ["password", "indexName"]

  const SearchFieldsMessage: string := "password, indexName, query, and nameSpace are required fields."
  const UpsertFieldsMessage: string := "password, indexName, question, nameSpace, and chunkSize are required fields."
  const CreateIndexFieldsMessage: string := "password and indexName are required fields."
  const InvalidPasswordMessage: string := "Invalid password."

  /** The vector dimension `/createIndex` always uses. */
  const VectorDimension: int := 1536

  function ErrorBody(message: string): JsValue
  {
    Object([("error", Str(message))])
  }

  predicate AllPresent(body: Body, required: seq<string>)
  {
    forall i :: 0 <= i < |required| ==> Truthy(Field(body, required[i]))
  }

  /** `password !== process.env.PASSWORD`, negated: an unset password matches nothing. */
  predicate PasswordMatches(body: Body, configured: Option<string>)
  {
    configured.Some? && Field(body, "password") == Str(configured.value)
  }

  /**
   * The two early returns every endpoint shares: 400 with the endpoint's
   * message when a required field is falsy, then 403 on a wrong password.
   * `None` lets the request through to the store.
   */
  function Gate(body: Body, required: seq<string>, fieldsMessage: string, configured: Option<string>): (r: Option<Response>)
    ensures r.None? <==> AllPresent(body, required) && PasswordMatches(body, configured)
    ensures (exists i :: 0 <= i < |required| && !Truthy(Field(body, required[i]))) ==>
      r == Some(Response(400, ErrorBody(fieldsMessage)))
    ensures AllPresent(body, required) && !PasswordMatches(body, configured) ==>
      r == Some(Response(403, ErrorBody(InvalidPasswordMessage)))
  {
    if !AllPresent(body, required) then Some(Response(400, ErrorBody(fieldsMessage)))
    else if !PasswordMatches(body, configured) then Some(Response(403, ErrorBody(InvalidPasswordMessage)))
    else None
  }

  /** The `try`/`catch` around the store call; `/createIndex` answers with `res.json`, whose status is 200. */
  function Delegate(call: StoreCall, outcome: StoreOutcome): Handled
  {
    match outcome
    case Resolved(result) => Handled(Some(call), Response(200, result))
    case Threw(message) => Handled(Some(call), Response(500, ErrorBody(message)))
  }

  /** `POST /search`: the store is queried with the body's index, namespace and query, and with nothing else. */
  function HandleSearch(body: Body, configured: Option<string>, outcome: StoreOutcome): (h: Handled)
    ensures h.call.Some? <==> AllPresent(body, SearchFields) && PasswordMatches(body, configured)
    ensures h.call.Some? ==> h.call.value == Query(Field(body, "indexName"), Field(body, "nameSpace"), Field(body, "query"))
  {
    match Gate(body, SearchFields, SearchFieldsMessage, configured)
    case Some(response) => Handled(None, response)
    case None => Delegate(Query(Field(body, "indexName"), Field(body, "nameSpace"), Field(body, "query")), outcome)
  }

  /** `POST /upsert`: the store receives the body's index, namespace, chunk size and document. */
  function HandleUpsert(body: Body, configured: Option<string>, outcome: StoreOutcome): (h: Handled)
    ensures h.call.Some? <==> AllPresent(body, UpsertFields) && PasswordMatches(body, configured)
    ensures h.call.Some? ==>
      h.call.value == Upsert(Field(body, "indexName"), Field(body, "nameSpace"), Field(body, "chunkSize"), Field(body, "document"))
  {
    match Gate(body, UpsertFields, UpsertFieldsMessage, configured)
    case Some(response) => Handled(None, response)
    case None =>
      Delegate(Upsert(Field(body, "indexName"), Field(body, "nameSpace"), Field(body, "chunkSize"), Field(body, "document")), outcome)
  }

  /** `POST /createIndex`: the store is asked for the body's index with the fixed dimension. */
  function HandleCreateIndex(body: Body, configured: Option<string>, outcome: StoreOutcome): (h: Handled)
    ensures h.call.Some? <==> AllPresent(body, CreateIndexFields) && PasswordMatches(body, configured)
    ensures h.call.Some? ==> h.call.value == CreateIndex(Field(body, "indexName"), VectorDimension)
  {
    match Gate(body, CreateIndexFields, CreateIndexFieldsMessage, configured)
    case Some(response) => Handled(None, response)
    case None => Delegate(CreateIndex(Field(body, "indexName"), VectorDimension), outcome)
  }

  /** The three endpoints, by name. */
  datatype Endpoint = SearchEndpoint | UpsertEndpoint | CreateIndexEndpoint

  function Required(e: Endpoint): seq<string>
  {
    match e
    case SearchEndpoint => SearchFields
    case UpsertEndpoint => UpsertFields
    case CreateIndexEndpoint => CreateIndexFields
  }

  function Handle(e: Endpoint, body: Body, configured: Option<string>, outcome: StoreOutcome): Handled
  {
    match e
    case SearchEndpoint => HandleSearch(body, configured, outcome)
    case UpsertEndpoint => HandleUpsert(body, configured, outcome)
    case CreateIndexEndpoint => HandleCreateIndex(body, configured, outcome)
  }

  /**
   * On every endpoint a falsy required field is reported as 400 whatever the
   * password: the field check comes first, and no store call is made.
   */
  lemma MissingFieldBeforePassword(e: Endpoint, body: Body, configured: Option<string>, outcome: StoreOutcome, field: string)
    requires field in Required(e) && !Truthy(Field(body, field))
    ensures Handle(e, body, configured, outcome).response.status == 400
    ensures Handle(e, body, configured, outcome).call.None?
  {
    var required := Required(e);
    var i :| 0 <= i < |required| && required[i] == field;
    assert !Truthy(Field(body, required[i]));
  }

  /** On every endpoint, with all fields present, a wrong password is 403 and nothing reaches the store. */
  lemma WrongPasswordRefused(e: Endpoint, body: Body, configured: Option<string>, outcome: StoreOutcome)
    requires AllPresent(body, Required(e)) && !PasswordMatches(body, configured)
    ensures Handle(e, body, configured, outcome) == Handled(None, Response(403, ErrorBody(InvalidPasswordMessage)))
  {
  }

  /** With no password configured, every request is refused before the store, with 400 or 403. */
  lemma UnsetPasswordRefusesAll(e: Endpoint, body: Body, outcome: StoreOutcome)
    ensures var h := Handle(e, body, None, outcome);
      h.call.None? && (h.response.status == 400 || h.response.status == 403)
  {
  }

  /** A request that gets through makes exactly one store call: 200 with its result, or 500 with its error. */
  lemma AcceptedRequestDelegates(e: Endpoint, body: Body, configured: Option<string>, outcome: StoreOutcome)
    requires AllPresent(body, Required(e)) && PasswordMatches(body, configured)
    ensures var h := Handle(e, body, configured, outcome);
      && h.call.Some?
      && (outcome.Resolved? ==> h.response == Response(200, outcome.result))
      && (outcome.Threw? ==> h.response == Response(500, ErrorBody(outcome.message)))
  {
  }

  /** `/upsert` rejects a chunk size of 0, which is falsy, with 400. */
  lemma ZeroChunkSizeRejected(body: Body, configured: Option<string>, outcome: StoreOutcome)
    requires Field(body, "chunkSize") == Number(0.0)
    ensures HandleUpsert(body, configured, outcome) == Handled(None, Response(400, ErrorBody(UpsertFieldsMessage)))
  {
    assert UpsertFields[4] == "chunkSize";
  }

  /**
   * `/createIndex` needs only a truthy index name and the right, non-empty
   * password: whatever else the body holds, it asks the store for that index
   * with dimension 1536.
   */
  lemma CreateIndexAlwaysFull(body: Body, password: string, outcome: StoreOutcome)
    requires password != "" && Field(body, "password") == Str(password) && Truthy(Field(body, "indexName"))
    ensures HandleCreateIndex(body, Some(password), outcome).call == Some(CreateIndex(Field(body, "indexName"), VectorDimension))
  {
    assert AllPresent(body, CreateIndexFields) by {
      assert CreateIndexFields == ["password", "indexName"];
    }
  }

  /** `/search` never reads `topK`: adding or changing it leaves the response and the store call as they were. */
  lemma TopKIgnored(body: Body, configured: Option<string>, outcome: StoreOutcome, topK: JsValue)
    ensures HandleSearch(body["topK" := topK], configured, outcome) == HandleSearch(body, configured, outcome)
  {
    var b := body["topK" := topK];
    assert forall i :: 0 <= i < |SearchFields| ==> Field(b, SearchFields[i]) == Field(body, SearchFields[i]);
  }
}
