/** The three AI backends of the command processor (src/services/commandProcessor.ts):
    offline canned replies, the cloud chat-completion API and the local inference server.
    A network call is an outcome given as a parameter; a request is a value. */
module Backends {
  import opened Types

  datatype Header = Header(name: string, value: string)
  datatype ChatMessage = ChatMessage(role: string, content: string)

  /** The JSON bodies the backends send. */
  datatype RequestBody =
    | ChatCompletion(messages: seq<ChatMessage>, model: string, maxTokens: nat)
    | Generate(model: string, prompt: string, stream: bool)

  datatype HttpRequest = HttpRequest(url: string, httpMethod: string, headers: seq<Header>, body: RequestBody)

  /** What `fetch` and `response.json()` produce: a transport failure (the promise
      rejects), or a reply with its `ok` flag and its body. The body is `None` when
      parsing fails or the JSON is `null`, so that reading a field of it throws. Any
      other JSON value is `Some`: a number, string or boolean has none of the fields,
      so it reads as `Completion(None)` or `Generation(None)`. */
  datatype HttpOutcome<B> = TransportFailure | Reply(ok: bool, body: Option<B>)

  /** `choices[i].message?.content`: `None` when `message` or `content` is missing. */
  datatype Choice = Choice(content: Option<string>)
  /** A chat-completion reply: `None` when `choices` is missing or `null`. */
  datatype Completion = Completion(choices: Option<seq<Choice>>)
  /** A generate reply: its `response` field, `None` when missing. */
  datatype Generation = Generation(response: Option<string>)

  /** What a backend did: the request it built, if any, and the reply text. */
  datatype BackendReply = BackendReply(request: Option<HttpRequest>, message: string)

  const OFFLINE_REPLIES: seq<string> := [
    "I understand you want me to help with that. In offline mode, I can only execute predefined commands.",
    "I'm running in offline mode. Try commands like 'open WhatsApp' or 'turn on flashlight'.",
    "Offline AI is limited. For advanced features, switch to Cloud or Local AI mode in settings."
  ]

  const CLOUD_URL := "https://api.groq.com/openai/v1/chat/completions"
  const CLOUD_MODEL := "mixtral-8x7b-32768"
  const CLOUD_MAX_TOKENS := 150
  const CLOUD_SYSTEM_PROMPT := "You are BarbraAI, a helpful voice assistant. Parse user commands and respond naturally."
  const CLOUD_KEY_REQUIRED := "Cloud AI requires an API key. Please configure it in settings."
  const CLOUD_UNREACHABLE := "Sorry, I couldn't connect to the cloud AI service. Check your internet connection."
  const CLOUD_NO_RESPONSE := "No response received"

  const LOCAL_URL := "http://localhost:11434/api/generate"
  const LOCAL_MODEL := "llama2"
  const LOCAL_PROMPT_PREFIX := "You are BarbraAI, a helpful voice assistant. Respond to: "
  const LOCAL_UNREACHABLE := "Local AI is not available. Make sure Ollama is running and accessible."
  const LOCAL_NO_RESPONSE := "Local AI response unavailable"

  /** `processOfflineAI`: `responses[Math.floor(Math.random() * responses.length)]`. */
  function OfflineReply(random: UnitInterval): (m: string)
    ensures m in OFFLINE_REPLIES
  {
    OFFLINE_REPLIES[(random * |OFFLINE_REPLIES| as real).Floor]
  }

  /** Every canned reply is reachable: the draw selects the reply at `floor(3 r)`. */
  lemma OfflineReplyCovers(k: nat)
    requires k < |OFFLINE_REPLIES|
    ensures OfflineReply(k as real / 3.0) == OFFLINE_REPLIES[k]
  {
    var r: UnitInterval := k as real / 3.0;
    assert r * 3.0 == k as real;
  }

  /** The chat-completion request for a credential and the raw user text. */
  function CloudRequest(apiKey: string, input: string): (q: HttpRequest)
    ensures q.body.ChatCompletion? && |q.body.messages| == 2
    ensures q.body.messages[0].role == "system" && q.body.messages[1] == ChatMessage("user", input)
    ensures q.body.maxTokens == CLOUD_MAX_TOKENS
    ensures Header("Authorization", "Bearer " + apiKey) in q.headers
  {
    HttpRequest(CLOUD_URL, "POST",
      [Header("Authorization", "Bearer " + apiKey), Header("Content-Type", "application/json")],
      ChatCompletion([ChatMessage("system", CLOUD_SYSTEM_PROMPT), ChatMessage("user", input)],
        CLOUD_MODEL, CLOUD_MAX_TOKENS))
  }

  /** The generate request for the raw user text. */
  function LocalRequest(input: string): (q: HttpRequest)
    ensures q.body.Generate? && !q.body.stream
    ensures |q.body.prompt| == |LOCAL_PROMPT_PREFIX| + |input|
    ensures q.body.prompt[..|LOCAL_PROMPT_PREFIX|] == LOCAL_PROMPT_PREFIX
    ensures q.body.prompt[|LOCAL_PROMPT_PREFIX|..] == input
  {
    HttpRequest(LOCAL_URL, "POST", [Header("Content-Type", "application/json")],
      Generate(LOCAL_MODEL, LOCAL_PROMPT_PREFIX + input, false))
  }

  /** The user text a chat-completion request carries. */
  function CloudUserText(q: HttpRequest): Option<string>
  {
    if q.body.ChatCompletion? && |q.body.messages| == 2 && q.body.messages[1].role == "user"
    then Some(q.body.messages[1].content) else None
  }

  /** The user text a generate request carries, after the fixed prefix. */
  function LocalUserText(q: HttpRequest): Option<string>
  {
    if q.body.Generate? && |q.body.prompt| >= |LOCAL_PROMPT_PREFIX|
       && q.body.prompt[..|LOCAL_PROMPT_PREFIX|] == LOCAL_PROMPT_PREFIX
    then Some(q.body.prompt[|LOCAL_PROMPT_PREFIX|..]) else None
  }

  /** Both requests carry the raw input unchanged, and it can be read back out of them. */
  lemma RequestsCarryInput(apiKey: string, input: string)
    ensures CloudUserText(CloudRequest(apiKey, input)) == Some(input)
    ensures LocalUserText(LocalRequest(input)) == Some(input)
  {
  }

  /** The reply text of the cloud call, from its outcome. */
  function CloudMessage(outcome: HttpOutcome<Completion>): string
  {
    match outcome
    case TransportFailure => CLOUD_UNREACHABLE
    case Reply(ok, body) =>
      if !ok || body.None? || body.value.choices.None? then CLOUD_UNREACHABLE
      else
        var choices := body.value.choices.value;
        if |choices| > 0 && Truthy(choices[0].content) then choices[0].content.value
        else CLOUD_NO_RESPONSE
  }

  /** The reply text of the local call, from its outcome. */
  function LocalMessage(outcome: HttpOutcome<Generation>): string
  {
    match outcome
    case TransportFailure => LOCAL_UNREACHABLE
    case Reply(ok, body) =>
      if !ok || body.None? then LOCAL_UNREACHABLE
      else if Truthy(body.value.response) then body.value.response.value
      else LOCAL_NO_RESPONSE
  }

  /** `processCloudAI`: no request without a truthy key; otherwise one request and
      the reply text mapped from its outcome. */
  function ProcessCloud(apiKey: Option<string>, input: string, outcome: HttpOutcome<Completion>): (r: BackendReply)
    ensures !Truthy(apiKey) <==> r.request.None?
    ensures !Truthy(apiKey) ==> r.message == CLOUD_KEY_REQUIRED
    ensures Truthy(apiKey) ==> r.request == Some(CloudRequest(apiKey.value, input))
    ensures Truthy(apiKey) && (outcome.TransportFailure? || !outcome.ok) ==> r.message == CLOUD_UNREACHABLE
    ensures Truthy(apiKey) ==> r.message == CloudMessage(outcome)
  {
    if !Truthy(apiKey) then BackendReply(None, CLOUD_KEY_REQUIRED)
    else BackendReply(Some(CloudRequest(apiKey.value, input)), CloudMessage(outcome))
  }

  /** `processLocalAI`: always one request; the reply text mapped from its outcome. */
  function ProcessLocal(input: string, outcome: HttpOutcome<Generation>): (r: BackendReply)
    ensures r.request == Some(LocalRequest(input))
    ensures outcome.TransportFailure? || !outcome.ok ==> r.message == LOCAL_UNREACHABLE
    ensures r.message == LocalMessage(outcome)
  {
    BackendReply(Some(LocalRequest(input)), LocalMessage(outcome))
  }

  /** Cloud outcomes: a failed transport, a non-ok status, a body that fails to parse
      or is `null`, or a body without `choices` give the connection apology; an empty
      or missing first content gives the placeholder; otherwise the first completion's
      content is the reply. */
  lemma CloudMessageCases(outcome: HttpOutcome<Completion>)
    ensures outcome.TransportFailure? || !outcome.ok ==> CloudMessage(outcome) == CLOUD_UNREACHABLE
    ensures outcome.Reply? && outcome.ok && (outcome.body.None? || outcome.body.value.choices.None?)
      ==> CloudMessage(outcome) == CLOUD_UNREACHABLE
    ensures outcome.Reply? && outcome.ok && outcome.body.Some? && outcome.body.value.choices.Some?
      ==> var cs := outcome.body.value.choices.value;
          CloudMessage(outcome) == if |cs| > 0 && Truthy(cs[0].content) then cs[0].content.value else CLOUD_NO_RESPONSE
    ensures CloudMessage(outcome) != ""
  {
  }

  /** Local outcomes: a failed transport, a non-ok status or a body that fails to parse
      or is `null` give the "not available" apology; a missing or empty `response`,
      as from a body that is a number, string or boolean, gives the placeholder. */
  lemma LocalMessageCases(outcome: HttpOutcome<Generation>)
    ensures outcome.TransportFailure? || !outcome.ok ==> LocalMessage(outcome) == LOCAL_UNREACHABLE
    ensures outcome.Reply? && outcome.ok && outcome.body.None? ==> LocalMessage(outcome) == LOCAL_UNREACHABLE
    ensures outcome.Reply? && outcome.ok && outcome.body.Some? ==>
      LocalMessage(outcome) == if Truthy(outcome.body.value.response) then outcome.body.value.response.value
                               else LOCAL_NO_RESPONSE
    ensures LocalMessage(outcome) != ""
  {
  }
}
