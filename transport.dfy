/** The HTTP exchange the three request handlers share: the request they send,
    the reply they await, and how a reply becomes either the model's text or the
    message the user sees. The network itself is not modelled: a reply is an input. */
module Transport {
  import opened Wrappers
  import opened Text

  const ChatCompletionsUrl := "https://api.openai.com/v1/chat/completions"
  const DevProxyUrl := "/api/openai"

  datatype Header = Header(name: string, value: string)

  /** Where a request is posted: OpenAI's chat-completions endpoint, or the
      path the development server proxies to it. */
  datatype Endpoint = OpenAiChat | DevProxy

  function Url(endpoint: Endpoint): string
  {
    match endpoint
    case OpenAiChat => ChatCompletionsUrl
    case DevProxy => DevProxyUrl
  }

  /** One chat-completion POST: where it goes, the key it carries as a bearer
      token (None: no `Authorization` header), and what its body asks. `prompt`
      holds the values the body's system and user messages are written from;
      each handler has its own prompt type and renders it into its `Messages`,
      as `Url` and `Headers` render the first two fields. */
  datatype ChatRequest<P> = ChatRequest(endpoint: Endpoint, bearer: Option<string>, prompt: P)

  /** One entry of the body's `messages` array. */
  datatype Message = Message(role: string, content: string)

  /** What awaiting `fetch` and the body yields.
      Rejected: `fetch` or `response.json()` threw an Error with this message.
      Response: the HTTP status; `error.message` of the body when it is a string;
      `choices[0].message.content` when it is a string. */
  datatype Reply =
    | Rejected(message: string)
    | Response(status: nat, errorMessage: Option<string>, content: Option<string>)

  const JsonContentType := Header("Content-Type", "application/json")

  /** The request headers: always the JSON content type, and the key as a
      bearer token exactly when there is one to send. */
  function Headers(bearer: Option<string>): (r: seq<Header>)
    ensures 1 <= |r| && r[0] == JsonContentType
    ensures bearer.None? ==> r == [JsonContentType]
    ensures bearer.Some? ==> |r| == 2 && r[1].name == "Authorization" && |r[1].value| == 7 + |bearer.value|
    ensures bearer.Some? ==> r[1].value[..7] == "Bearer " && r[1].value[7..] == bearer.value
    ensures (exists i :: 0 <= i < |r| && r[i].name == "Authorization") <==> bearer.Some?
  {
    if bearer.Some? then [JsonContentType, Header("Authorization", "Bearer " + bearer.value)]
    else [JsonContentType]
  }

  /** `response.ok`. */
  predicate IsOk(status: nat)
  {
    200 <= status <= 299
  }

  /** The fallback message for a failed status, `OpenAI request failed (<status>)`. */
  function StatusFailure(status: nat): string
  {
    "OpenAI request failed (" + NatToString(status) + ")"
  }

  /** Different statuses give different fallback messages: the status can be read back. */
  lemma StatusFailureInjective(a: nat, b: nat)
    requires StatusFailure(a) == StatusFailure(b)
    ensures a == b
  {
    var prefix := "OpenAI request failed (";
    var sa, sb := StatusFailure(a), StatusFailure(b);
    assert sa[|prefix|..|sa| - 1] == NatToString(a);
    assert sb[|prefix|..|sb| - 1] == NatToString(b);
  }

  /** The message a failed status is reported with: the body's non-empty
      `error.message` if there is one, otherwise the status fallback. Never empty. */
  function HttpErrorDetail(status: nat, errorMessage: Option<string>): (r: string)
    ensures r != ""
    ensures errorMessage.Some? && errorMessage.value != "" ==> r == errorMessage.value
    ensures !(errorMessage.Some? && errorMessage.value != "") ==> r == StatusFailure(status)
  {
    if errorMessage.Some? && errorMessage.value != "" then errorMessage.value else StatusFailure(status)
  }

  /** What a `catch` block stores: `error.message || fallback`. */
  function Caught(message: string, fallback: string): (r: string)
    requires fallback != ""
    ensures r != ""
    ensures message != "" ==> r == message
    ensures message == "" ==> r == fallback
  {
    if message != "" then message else fallback
  }

  /** Follows a reply up to the model's text. The error side is the message the
      handler's `catch` stores: `fallback` for a rejection without text,
      `unauthorized` (when given) for HTTP 401, the HTTP detail for other failed
      statuses, `noContent` for an ok reply without content. */
  function ReadContent(reply: Reply, fallback: string, noContent: string, unauthorized: Option<string>): (r: Result<string, string>)
    requires fallback != "" && noContent != ""
    requires unauthorized.Some? ==> unauthorized.value != ""
    ensures r.Err? ==> r.error != ""
    ensures r.Ok? <==> reply.Response? && IsOk(reply.status) && reply.content.Some? && reply.content.value != ""
    ensures r.Ok? ==> r.value == reply.content.value
    ensures reply.Rejected? ==> r == Err(Caught(reply.message, fallback))
    ensures reply.Response? && !IsOk(reply.status) && reply.status == 401 && unauthorized.Some?
            ==> r == Err(unauthorized.value)
    ensures reply.Response? && !IsOk(reply.status) && !(reply.status == 401 && unauthorized.Some?)
            ==> r == Err(HttpErrorDetail(reply.status, reply.errorMessage))
    ensures reply.Response? && IsOk(reply.status) && (reply.content.None? || reply.content.value == "")
            ==> r == Err(noContent)
  {
    match reply
    case Rejected(message) => Err(Caught(message, fallback))
    case Response(status, errorMessage, content) =>
      if !IsOk(status) then
        if status == 401 && unauthorized.Some? then Err(unauthorized.value)
        else Err(Caught(HttpErrorDetail(status, errorMessage), fallback))
      else if content.None? || content.value == "" then Err(noContent)
      else Ok(content.value)
  }
}
