/**
 * `ProductionAIAgent`: builds the single-turn inference request and wraps
 * the hosted model's answer, or the fault it raised, in the chat envelope.
 */
module Agent {
  import opened Wrappers
  import opened Json

  /** The model identifier fixed in the agent's constructor. */
  const ModelId: string := "anthropic.claude-3-sonnet-20240229-v1:0"
  const AnthropicVersion: string := "bedrock-2023-05-31"
  const MaxTokens: nat := 1000
  /** The value of the envelope's `environment` key. */
  const Environment: string := "AWS Lambda"

  /** An ISO-8601 UTC instant supplied by the platform clock; opaque here. */
  datatype Timestamp = Timestamp(iso: string)

  /** One entry of the request's `messages` list. */
  datatype Turn = Turn(role: string, content: string)

  /** The request body sent to the model (the `temperature` float is not modelled). */
  datatype InvokeRequest = InvokeRequest(anthropicVersion: string, maxTokens: nat, messages: seq<Turn>)

  /**
   * What the model call yields: the first text segment of the model's reply,
   * or the string description of whatever it raised (SDK, network or
   * decoding fault alike).
   */
  datatype ModelReply = Reply(text: string) | Fault(description: string)

  /** The model call: model identifier and request in, reply out. */
  type Invoke = (string, InvokeRequest) -> ModelReply

  /**
   * The chat envelope, one field per key the handler may serialise; `None`
   * means the key is absent from the JSON object.
   */
  datatype Envelope = Envelope(
    success: bool,
    response: Option<string>,
    error: Option<string>,
    conversationId: Option<Json>,
    timestamp: Option<Timestamp>,
    environment: Option<string>,
    model: Option<string>)

  /** The keys the envelope's JSON object has. */
  function Keys(e: Envelope): set<string> {
    {"success"}
    + (if e.response.Some? then {"response"} else {})
    + (if e.error.Some? then {"error"} else {})
    + (if e.conversationId.Some? then {"conversation_id"} else {})
    + (if e.timestamp.Some? then {"timestamp"} else {})
    + (if e.environment.Some? then {"environment"} else {})
    + (if e.model.Some? then {"model"} else {})
  }

  /** The envelope invariant: a success carries a response and no error, a failure the reverse. */
  predicate WellFormed(e: Envelope) {
    if e.success then e.response.Some? && e.error.None? else e.error.Some? && e.response.None?
  }

  /** The agent; its SDK client is the `Invoke` oracle passed to each call. */
  datatype ProductionAIAgent = ProductionAIAgent(modelId: string)

  /** `ProductionAIAgent()` once its client has been constructed. */
  function NewAgent(): ProductionAIAgent {
    ProductionAIAgent(ModelId)
  }

  /** The request for `userMessage`: a single user turn, no earlier history. */
  function RequestFor(userMessage: string): InvokeRequest {
    InvokeRequest(AnthropicVersion, MaxTokens, [Turn("user", userMessage)])
  }

  /**
   * `generate_response`: asks the model about `userMessage` alone. On a
   * reply the envelope is a success carrying the text, the conversation id
   * unchanged and the model id; on a fault it is a failure carrying the
   * fault's description and nothing else but the timestamp.
   */
  function GenerateResponse(agent: ProductionAIAgent, userMessage: string, conversationId: Json,
                            invoke: Invoke, now: Timestamp): (e: Envelope)
    ensures WellFormed(e)
    ensures e.timestamp == Some(now)
    ensures e.success <==> invoke(agent.modelId, RequestFor(userMessage)).Reply?
    ensures e.success ==>
              e.response == Some(invoke(agent.modelId, RequestFor(userMessage)).text)
              && e.conversationId == Some(conversationId)
              && e.environment == Some(Environment) && e.model == Some(agent.modelId)
              && Keys(e) == {"success", "response", "conversation_id", "timestamp", "environment", "model"}
    ensures !e.success ==>
              e.error == Some(invoke(agent.modelId, RequestFor(userMessage)).description)
              && Keys(e) == {"success", "error", "timestamp"}
  {
    match invoke(agent.modelId, RequestFor(userMessage))
    case Reply(text) =>
      Envelope(true, Some(text), None, Some(conversationId), Some(now), Some(Environment), Some(agent.modelId))
    case Fault(description) =>
      Envelope(false, None, Some(description), None, Some(now), None, None)
  }

  /**
   * The conversation id is echoed but never sent to the model: whether the
   * call succeeds, and what it answers or reports, does not depend on it.
   */
  lemma ConversationIdNotThreaded(agent: ProductionAIAgent, userMessage: string, c1: Json, c2: Json,
                                  invoke: Invoke, now: Timestamp)
    ensures var e1 := GenerateResponse(agent, userMessage, c1, invoke, now);
            var e2 := GenerateResponse(agent, userMessage, c2, invoke, now);
            e1.success == e2.success && e1.response == e2.response && e1.error == e2.error
  {
  }
}
