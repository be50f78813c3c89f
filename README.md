# Inference handler of the Bedrock chat bridge, modelled in Dafny

The repository's serverless handler (`lambda_handler`) receives one
function-URL invocation, decides what kind of request it is, and answers
with a status code, a fixed CORS header map and a JSON envelope. The
decision is a chain of early returns: a CORS preflight (OPTIONS) is
answered at once; any method other than POST is refused with 405; a POST
without a body, with a body that is not JSON, or whose `message` is missing
or blank is refused with 400; otherwise the message, stripped of
surrounding whitespace, is sent to a hosted model by
`ProductionAIAgent.generate_response`, whose envelope is returned with 200
on success and 500 on a model fault. Anything that raises on the way (a
JSON body that is not an object, a `message` that is not a string, a
failure to build the SDK client) is caught by an outer handler and becomes
a 500 with the fixed error "Internal server error".

The model is pure: datatypes for the event, the decoded JSON, the envelope
and the HTTP response, and functions for each step.

- `wrappers.dfy` (`Wrappers`): `Option`.
- `pystr.dfy` (`PyStr`): Python's `str.strip()` over the characters
  `str.isspace()` accepts, with its characterisation.
- `json.dfy` (`Json`): decoded JSON values and the outcome of `json.loads`.
- `agent.dfy` (`Agent`): the inference request, the model reply, the
  envelope with one optional field per JSON key, and `GenerateResponse`.
- `handler.dfy` (`Handler`): the event, the platform oracles, the response,
  the handler itself (`TryBlock` for the body of the outer `try`, `Handle`
  for the whole with its catch-all), a reference classification of events
  written without the handler's check order, and lemmas tying the two.

What comes from outside is a parameter (`Handler.Platform`): `parse` stands
for `json.loads` (it returns `Invalid` for a decode error or the decoded
value), `clientFails` says whether constructing the SDK client raises,
`invoke` stands for the model call together with the decoding of its reply
(it returns the first text segment or the description of the fault), and
`now` is the clock's timestamp, kept opaque. Because these are parameters,
the lemmas can say which of them a branch does not consult: a preflight
and a missing body give a response that depends on none of them, and an
unparseable body one that depends on nothing but the parser's verdict.

Two edge cases the structure forces, both proved: valid JSON that is not an
object (a list, a number, a string) and a `message` that is null or not a
string do not give 400 but reach the catch-all and give 500, although
both are faults of the client's input; the model follows the code.

## Model

| member | source | states |
|---|---|---|
| `PyStr.SkipSpace` | lambda_function.py:141 | The leading half of `strip()`: the index returned is the first at or after the start that is not whitespace (or the end), and everything skipped is whitespace. |
| `PyStr.SkipSpaceBack` | lambda_function.py:141 | The trailing half of `strip()`: the end index returned has only whitespace after it and, unless it meets the start, a non-whitespace character just before it. |
| `PyStr.Strip` | lambda_function.py:141 | `str.strip()`: the result is a slice of the input obtained by dropping only whitespace from both ends, and when non-empty it neither starts nor ends with whitespace. |
| `PyStr.StripEmptyIff` | lambda_function.py:141-142 | A string strips to the empty string exactly when every character of it is whitespace (both directions). |
| `PyStr.StripIdempotent` | lambda_function.py:141 | Stripping an already stripped message changes nothing. |
| `Agent.GenerateResponse` | lambda_function.py:29-66 | The envelope is well formed and carries the timestamp; it is a success exactly when the model replies; a success holds the reply text, the conversation id unchanged, the environment and the model id and has exactly those six keys; a failure holds the fault's description and has only the keys success, error and timestamp. |
| `Agent.ConversationIdNotThreaded` | lambda_function.py:29-58 | The conversation id is never sent to the model: success, response and error do not depend on it. |
| `Handler.Handle` | lambda_function.py:68-181 | Every response carries the five-entry header map and a status of 200, 400, 405 or 500; the body is empty exactly for OPTIONS; every envelope is well formed and reports success exactly when the status is 200. |
| `Handler.BlankIffStripsEmpty` | lambda_function.py:141-142 | For a string `message`, the handler's test "strips to empty" coincides with "made only of whitespace", and its negation with "has a non-whitespace character". |
| `Handler.MissingMethodIsPost` | lambda_function.py:89 | An event without a method gets the same response as the same event with method POST. |
| `Handler.MissingMethodReachesModel` | lambda_function.py:89-158 | With no method, a non-empty body that decodes to an object with a string `message` containing a non-whitespace character, and a client that can be built, the response body is the agent's envelope for the stripped message and the object's conversation id. |
| `Handler.OptionsIgnoresBody` | lambda_function.py:92-98 | OPTIONS gives 200, the header map and an empty body, whatever the body, parser, model or clock. |
| `Handler.OtherMethodNotAllowed` | lambda_function.py:101-110 | A method other than OPTIONS and POST gives 405 with a failure envelope whose error contains the method's name. |
| `Handler.MissingBodyRejected` | lambda_function.py:113-123 | A POST whose body is absent or empty gives 400 "Request body is required", independently of the parser. |
| `Handler.InvalidJsonRejected` | lambda_function.py:126-138 | A POST whose non-empty body does not decode gives 400 "Invalid JSON in request body". |
| `Handler.BlankMessageRejected` | lambda_function.py:141-151 | A decoded object whose `message` is absent or only whitespace gives 400 "Message field is required and cannot be empty", independently of the client and the model. |
| `Handler.NonObjectIsInternalError` | lambda_function.py:140-181 | Valid JSON that is not an object gives the catch-all's 500 "Internal server error" response. |
| `Handler.NonStringMessageIsInternalError` | lambda_function.py:140-181 | An object whose `message` is present but not a string gives the catch-all's 500 response. |
| `Handler.ClientFaultIsInternalError` | lambda_function.py:156-181 | A usable message with a client that cannot be built gives the catch-all's 500 response. |
| `Handler.ModelCallStatus` | lambda_function.py:156-169 | Once the model is asked, the body is the agent's envelope for the stripped message, and the status is 200 exactly on success and 500 exactly on failure. |
| `Handler.ModelRequest` | lambda_function.py:34-47 | Once the handler reaches the model, the request holds exactly one turn, from role "user", with the fixed API version and 1000-token limit; its content is the submitted `message` with only surrounding whitespace removed, non-empty and neither starting nor ending with whitespace; the status is 200 exactly when the model replies to that request, and the response text is that reply. |
| `Handler.PostCases` | lambda_function.py:112-169 | For a POST, each class of the reference classification (missing body, undecodable body, blank message, fault inside, reaches the model) gets its response. |
| `Handler.Status405Iff` | lambda_function.py:89-110 | The status is 405 exactly when a method is given and it is neither OPTIONS nor POST. |
| `Handler.Status400Iff` | lambda_function.py:89-151 | The status is 400 exactly for a POST with a missing body, an undecodable body, or an object whose `message` is absent or blank. |
| `Handler.Status200Iff` | lambda_function.py:89-169 | The status is 200 exactly for OPTIONS or for a request that reaches the model and gets a reply. |
| `Handler.Status500Iff` | lambda_function.py:89-181 | The status is 500 exactly when something raises inside the `try` or the request reaches the model and the model faults. |

## Left out

- `cors_proxy_server.py`, the local relay: socket handling, forwarding to a fixed URL and static file serving are I/O with no decision logic beyond matching the path `/api/chat`.
- The SDK: building the boto3 client and `invoke_model` are an oracle (`clientFails`, `invoke`); the decoding of the model's reply (`content[0].text`) and every fault it can raise are inside `invoke`, whose fault description stands for `str(e)`.
- `json.loads` and `json.dumps`: decoding is the `parse` oracle and the response body is the envelope datatype, not its serialised text; `ensure_ascii` does not arise.
- `datetime.utcnow().isoformat()`: the timestamp is an opaque value supplied by the platform; one invocation uses one value.
- Logging calls, the `temperature` float of the request, the `__main__` test harness.
- An event whose `requestContext` or `http` is present but not an object, or whose method is not a string: the event is reduced to an optional method string and an optional body string.
- A `body` that is neither absent, null nor a string, and base64-encoded bodies, which the handler does not decode.
- A fault raised by `json.loads` other than a decode error (deep nesting): the parse oracle has only the two outcomes.
