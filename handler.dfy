/**
 * `lambda_handler`: the function-URL entry point. It dispatches on the HTTP
 * method, validates the body, the JSON document and its `message` field in
 * that order, returning early with a fixed status and error on the first
 * failure, then asks the agent and maps its envelope to 200 or 500. An outer
 * catch-all turns any fault raised on the way into a generic 500.
 */
module Handler {
  import opened Wrappers
  import opened Json
  import opened PyStr
  import opened Agent

  /** The CORS header map every response carries. */
  const Headers: map<string, string> := map[
    "Content-Type" := "application/json",
    "Access-Control-Allow-Origin" := "*",
    "Access-Control-Allow-Methods" := "GET, POST, OPTIONS",
    "Access-Control-Allow-Headers" := "Content-Type, Authorization, X-Requested-With, Accept, Origin",
    "Access-Control-Max-Age" := "86400"
  ]

  const BodyRequired: string := "Request body is required"
  const InvalidJson: string := "Invalid JSON in request body"
  const MessageRequired: string := "Message field is required and cannot be empty"
  const InternalServerError: string := "Internal server error"

  /**
   * The parts of the invocation event the handler reads:
   * `requestContext.http.method` and `body`. A `body` that is absent or
   * JSON null is `None`.
   */
  datatype Event = Event(httpMethod: Option<string>, body: Option<string>)

  /**
   * What the handler gets from outside: `json.loads`, whether constructing
   * the SDK client raises, the model call, and the clock.
   */
  datatype Platform = Platform(parse: string -> Parsed, clientFails: bool, invoke: Invoke, now: Timestamp)

  /** The `body` of the response: the empty string, or a serialised envelope. */
  datatype ResponseBody = NoBody | Body(envelope: Envelope)

  datatype HttpResponse = HttpResponse(statusCode: int, headers: map<string, string>, body: ResponseBody)

  /** How the `try` block ends: with a `return`, or by raising. */
  datatype Flow = Return(response: HttpResponse) | Raise

  /** The request method; a missing one reads as POST. */
  function HttpMethod(event: Event): string {
    event.httpMethod.GetOr("POST")
  }

  function NotAllowed(verb: string): string {
    "Method " + verb + " not allowed. Use POST."
  }

  /** A client error: `{success: false, error}` under `status`. */
  function Rejection(status: int, error: string): HttpResponse {
    HttpResponse(status, Headers, Body(Envelope(false, None, Some(error), None, None, None, None)))
  }

  /** The catch-all's answer; it carries nothing of the fault that caused it. */
  function InternalError(now: Timestamp): HttpResponse {
    HttpResponse(500, Headers, Body(Envelope(false, None, Some(InternalServerError), None, Some(now), None, None)))
  }

  /** `body.get('message', '')` on a decoded object. */
  function MessageOf(fields: map<string, Json>): Json {
    if "message" in fields then fields["message"] else JString("")
  }

  /** `body.get('conversation_id')`: a missing key gives `None`, serialised as null. */
  function ConversationIdOf(fields: map<string, Json>): Json {
    if "conversation_id" in fields then fields["conversation_id"] else JNull
  }

  /** The POST path, from the body check to the agent's envelope. */
  function HandlePost(body: Option<string>, env: Platform): Flow {
    if body.None? || body.value == "" then
      Return(Rejection(400, BodyRequired))
    else
      match env.parse(body.value)
      case Invalid => Return(Rejection(400, InvalidJson))
      case Valid(doc) =>
        if !doc.JObject? then
          Raise // `body.get` on a list, string, number, boolean or None
        else if !MessageOf(doc.fields).JString? then
          Raise // `.strip()` on a message that is not a string
        else
          var userMessage := Strip(MessageOf(doc.fields).s);
          if userMessage == "" then
            Return(Rejection(400, MessageRequired))
          else if env.clientFails then
            Raise // `ProductionAIAgent()` raised while building its client
          else
            var result := GenerateResponse(NewAgent(), userMessage, ConversationIdOf(doc.fields), env.invoke, env.now);
            Return(HttpResponse(if result.success then 200 else 500, Headers, Body(result)))
  }

  /** The body of the outer `try`. */
  function TryBlock(event: Event, env: Platform): Flow {
    var verb := HttpMethod(event);
    if verb == "OPTIONS" then
      Return(HttpResponse(200, Headers, NoBody))
    else if verb != "POST" then
      Return(Rejection(405, NotAllowed(verb)))
    else
      HandlePost(event.body, env)
  }

  /**
   * `lambda_handler`. Every response has the fixed header map and one of four
   * status codes; only a preflight has an empty body; every envelope is well
   * formed, and it reports success exactly when the status is 200.
   */
  function Handle(event: Event, env: Platform): (r: HttpResponse)
    ensures r.headers == Headers
    ensures r.statusCode in {200, 400, 405, 500}
    ensures r.body.NoBody? <==> HttpMethod(event) == "OPTIONS"
    ensures r.body.Body? ==> WellFormed(r.body.envelope) && (r.body.envelope.success <==> r.statusCode == 200)
  {
    match TryBlock(event, env)
    case Return(response) => response
    case Raise => InternalError(env.now)
  }

  // ---------------------------------------------------------------------
  // Reference classification of events, stated without the handler's order
  // of checks and without `Strip`.

  predicate IsPost(event: Event) {
    event.httpMethod.None? || event.httpMethod == Some("POST")
  }

  predicate BodyMissing(event: Event) {
    event.body.None? || event.body == Some("")
  }

  /** The body is present, non-empty and decodes to `doc`. */
  predicate Decodes(event: Event, env: Platform, doc: Json) {
    event.body.Some? && event.body.value != "" && env.parse(event.body.value) == Valid(doc)
  }

  predicate BodyInvalid(event: Event, env: Platform) {
    event.body.Some? && event.body.value != "" && env.parse(event.body.value).Invalid?
  }

  /** The document is an object whose `message` is absent or a string of whitespace only. */
  predicate MessageBlank(doc: Json) {
    doc.JObject? && MessageOf(doc.fields).JString? && AllWhitespace(MessageOf(doc.fields).s)
  }

  /** The document is an object whose `message` is a string that is not all whitespace. */
  predicate MessagePresent(doc: Json) {
    doc.JObject? && MessageOf(doc.fields).JString? && !MessageBlank(doc)
  }

  /** The request gets past every check and the agent is asked. */
  predicate ReachesModel(event: Event, env: Platform) {
    IsPost(event) && !BodyMissing(event) && !env.clientFails
    && env.parse(event.body.value).Valid? && MessagePresent(env.parse(event.body.value).doc)
  }

  /** Something raises inside the `try`: the document is not an object, the message not a string, or the client cannot be built. */
  predicate FaultsInside(event: Event, env: Platform) {
    IsPost(event) && !BodyMissing(event) && env.parse(event.body.value).Valid?
    && var doc := env.parse(event.body.value).doc;
       !MessageBlank(doc) && (!MessagePresent(doc) || env.clientFails)
  }

  /** Bridges the declarative notion of a blank message and `Strip`. */
  lemma BlankIffStripsEmpty(doc: Json)
    requires doc.JObject? && MessageOf(doc.fields).JString?
    ensures MessageBlank(doc) <==> Strip(MessageOf(doc.fields).s) == []
    ensures MessagePresent(doc) <==> Strip(MessageOf(doc.fields).s) != []
  {
    StripEmptyIff(MessageOf(doc.fields).s);
  }

  // ---------------------------------------------------------------------
  // The handler's behaviour, branch by branch.

  /** A missing method is handled exactly as POST. */
  lemma MissingMethodIsPost(body: Option<string>, env: Platform)
    ensures Handle(Event(None, body), env) == Handle(Event(Some("POST"), body), env)
  {
  }

  /** With no method and a usable message, the agent is asked about the stripped message. */
  lemma MissingMethodReachesModel(body: string, env: Platform, fields: map<string, Json>, message: string)
    requires body != "" && env.parse(body) == Valid(JObject(fields)) && !env.clientFails
    requires MessageOf(fields) == JString(message) && exists k :: 0 <= k < |message| && !IsWhitespace(message[k])
    ensures Handle(Event(None, Some(body)), env).body
            == Body(GenerateResponse(NewAgent(), Strip(message), ConversationIdOf(fields), env.invoke, env.now))
  {
    BlankIffStripsEmpty(JObject(fields));
  }

  /** A preflight is answered 200 with the headers and no body, whatever else the event holds. */
  lemma OptionsIgnoresBody(event: Event, env: Platform)
    requires event.httpMethod == Some("OPTIONS")
    ensures Handle(event, env) == HttpResponse(200, Headers, NoBody)
  {
  }

  predicate Contains(s: string, part: string) {
    exists i :: 0 <= i <= |s| && part <= s[i..]
  }

  /** Any method but OPTIONS and POST is refused with 405, naming the method. */
  lemma OtherMethodNotAllowed(event: Event, env: Platform)
    requires event.httpMethod.Some? && event.httpMethod.value != "OPTIONS" && event.httpMethod.value != "POST"
    ensures var r := Handle(event, env);
            r.statusCode == 405 && r.body.Body? && !r.body.envelope.success
            && r.body.envelope.error.Some? && Contains(r.body.envelope.error.value, event.httpMethod.value)
  {
    var m := event.httpMethod.value;
    assert m <= NotAllowed(m)[7..];
  }

  /** A POST without a body is refused with 400 before the parser is consulted. */
  lemma MissingBodyRejected(event: Event, env: Platform)
    requires IsPost(event) && BodyMissing(event)
    ensures Handle(event, env) == Rejection(400, BodyRequired)
  {
  }

  /** A body that does not parse is a 400, never a 500. */
  lemma InvalidJsonRejected(event: Event, env: Platform)
    requires IsPost(event) && BodyInvalid(event, env)
    ensures Handle(event, env) == Rejection(400, InvalidJson)
  {
  }

  /**
   * An object whose `message` is absent or only whitespace is a 400; neither
   * the client nor the model is involved.
   */
  lemma BlankMessageRejected(event: Event, env: Platform, doc: Json)
    requires IsPost(event) && Decodes(event, env, doc) && MessageBlank(doc)
    ensures Handle(event, env) == Rejection(400, MessageRequired)
  {
    BlankIffStripsEmpty(doc);
  }

  /** Valid JSON that is not an object reaches the catch-all: 500, not 400. */
  lemma NonObjectIsInternalError(event: Event, env: Platform, doc: Json)
    requires IsPost(event) && Decodes(event, env, doc) && !doc.JObject?
    ensures Handle(event, env) == InternalError(env.now)
  {
  }

  /** A `message` that is null, a number, a list, ... reaches the catch-all: 500. */
  lemma NonStringMessageIsInternalError(event: Event, env: Platform, doc: Json)
    requires IsPost(event) && Decodes(event, env, doc) && doc.JObject? && !MessageOf(doc.fields).JString?
    ensures Handle(event, env) == InternalError(env.now)
  {
  }

  /** A fault while constructing the agent's client reaches the catch-all: 500. */
  lemma ClientFaultIsInternalError(event: Event, env: Platform, doc: Json)
    requires IsPost(event) && Decodes(event, env, doc) && MessagePresent(doc) && env.clientFails
    ensures Handle(event, env) == InternalError(env.now)
  {
    BlankIffStripsEmpty(doc);
  }

  /**
   * Once the agent is asked, the response body is its envelope for the
   * stripped message, and the status is 200 on success and 500 otherwise.
   */
  lemma ModelCallStatus(event: Event, env: Platform)
    requires ReachesModel(event, env)
    ensures var doc := env.parse(event.body.value).doc;
            var r := Handle(event, env);
            r.body == Body(GenerateResponse(NewAgent(), Strip(MessageOf(doc.fields).s),
                                            ConversationIdOf(doc.fields), env.invoke, env.now))
            && (r.statusCode == 200 <==> r.body.envelope.success)
            && (r.statusCode == 500 <==> !r.body.envelope.success)
  {
    BlankIffStripsEmpty(env.parse(event.body.value).doc);
  }

  /**
   * The request sent to the model once the handler gets that far: a single
   * user turn whose content is the submitted `message` with only its
   * surrounding whitespace removed, non-empty and neither starting nor
   * ending with whitespace, under the fixed API version and token limit.
   * Whether the handler answers 200, and with what text, is decided by the
   * model's reply to exactly that request.
   */
  lemma ModelRequest(event: Event, env: Platform)
    requires ReachesModel(event, env)
    ensures var message := MessageOf(env.parse(event.body.value).doc.fields).s;
            var q := RequestFor(Strip(message));
            var content := q.messages[0].content;
            var r := Handle(event, env);
            |q.messages| == 1 && q.messages[0].role == "user"
            && q.anthropicVersion == AnthropicVersion && q.maxTokens == MaxTokens
            && content != [] && !IsWhitespace(content[0]) && !IsWhitespace(content[|content| - 1])
            && (exists i :: 0 <= i <= |message| - |content| && content == message[i..i + |content|]
                            && SpaceBetween(message, 0, i) && SpaceBetween(message, i + |content|, |message|))
            && r.body.Body?
            && (r.statusCode == 200 <==> env.invoke(ModelId, q).Reply?)
            && (r.statusCode == 200 ==> r.body.envelope.response == Some(env.invoke(ModelId, q).text))
  {
    ModelCallStatus(event, env);
    BlankIffStripsEmpty(env.parse(event.body.value).doc);
  }

  /** The handler's outcome in each class of the reference classification. */
  lemma PostCases(event: Event, env: Platform)
    ensures IsPost(event) && BodyMissing(event) ==> Handle(event, env) == Rejection(400, BodyRequired)
    ensures IsPost(event) && BodyInvalid(event, env) ==> Handle(event, env) == Rejection(400, InvalidJson)
    ensures IsPost(event) && !BodyMissing(event) && env.parse(event.body.value).Valid? ==>
              var doc := env.parse(event.body.value).doc;
              if MessageBlank(doc) then Handle(event, env) == Rejection(400, MessageRequired)
              else if !MessagePresent(doc) || env.clientFails then Handle(event, env) == InternalError(env.now)
              else ReachesModel(event, env)
  {
    if IsPost(event) && !BodyMissing(event) && env.parse(event.body.value).Valid? {
      var doc := env.parse(event.body.value).doc;
      if doc.JObject? && MessageOf(doc.fields).JString? {
        BlankIffStripsEmpty(doc);
      }
    }
  }

  // ---------------------------------------------------------------------
  // The status code as a function of the event, both directions.

  lemma Status405Iff(event: Event, env: Platform)
    ensures Handle(event, env).statusCode == 405
            <==> event.httpMethod.Some? && event.httpMethod.value != "OPTIONS" && event.httpMethod.value != "POST"
  {
  }

  lemma Status400Iff(event: Event, env: Platform)
    ensures Handle(event, env).statusCode == 400
            <==> IsPost(event)
                 && (BodyMissing(event) || BodyInvalid(event, env)
                     || (env.parse(event.body.value).Valid? && MessageBlank(env.parse(event.body.value).doc)))
  {
    PostCases(event, env);
  }

  lemma Status200Iff(event: Event, env: Platform)
    ensures Handle(event, env).statusCode == 200
            <==> event.httpMethod == Some("OPTIONS")
                 || (ReachesModel(event, env) && env.invoke(ModelId, RequestFor(Strip(MessageOf(env.parse(event.body.value).doc.fields).s))).Reply?)
  {
    PostCases(event, env);
  }

  /** A 500 is either a fault caught by the catch-all or a model fault reported by the agent. */
  lemma Status500Iff(event: Event, env: Platform)
    ensures Handle(event, env).statusCode == 500
            <==> FaultsInside(event, env)
                 || (ReachesModel(event, env) && env.invoke(ModelId, RequestFor(Strip(MessageOf(env.parse(event.body.value).doc.fields).s))).Fault?)
  {
    PostCases(event, env);
  }
}
