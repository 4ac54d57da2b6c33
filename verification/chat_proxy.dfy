/**
 * The chat proxy (`backend/server.js`): prompt assembly, the mock-reply fallback, and the
 * five HTTP handlers over the one piece of process state, the current model.
 *
 * The upstream HTTP exchange is a parameter (`Upstream`), `Math.random` is the index `pick`
 * of the mock opener, and `new Date().toISOString()` is the string `now`.
 */
module ChatProxy {
  import opened Wrappers
  import opened Text

  // ---------------------------------------------------------------------------
  // Configuration constants
  // ---------------------------------------------------------------------------

  /** The model registry: symbolic name to provider model identifier. */
  const Models: map<string, string> := map[
    "LLAMA3_70B" := "llama-3.3-70b-versatile",
    "Kimi_K2" := "moonshotai/kimi-k2-instruct",
    "LLAMA3_8B" := "llama-3-8b-8192",
    "MIXTR\U{0627}\U{0644}_8X7B" := "mixtral-8x7b-32768",
    "GEMMA_7B" := "gemma-7b-it"
  ]

  /** The model selected at start-up: the registry's `Kimi_K2` entry. */
  const DefaultModel: string := Models["Kimi_K2"]

  /** The documented placeholder that counts as "no key configured". */
  const KeyPlaceholder: string := "your_groq_api_key_here"

  /** How many of the most recent chat turns go into a prompt. */
  const HistoryWindow: nat := 6

  /** Number of canned mock openers. */
  const MockOpenerCount: nat := 5

  const MockSuffix: string := " (Note: This is a mock response. Please check your Groq API key.)"

  const Temperature: real := 0.7
  const MaxTokens: nat := 1024
  const TopP: real := 0.9

  // ---------------------------------------------------------------------------
  // Data model
  // ---------------------------------------------------------------------------

  datatype Role = System | User | Assistant

  datatype Message = Message(role: Role, content: string)

  /** One completed exchange of the client's history. */
  datatype ChatTurn = ChatTurn(user: string, assistant: string)

  /** The body the proxy would POST to the completion endpoint. */
  datatype CompletionRequest = CompletionRequest(
    model: string, messages: seq<Message>, temperature: real, maxTokens: nat, topP: real, stream: bool)

  /** What the completion endpoint did with that request: the `fetch` or the JSON parse failed,
      or it answered with an HTTP status and (maybe) `choices[0].message.content`. */
  datatype Upstream = NoResponse | Response(status: int, content: Option<string>)

  /** The error `queryGroq` raises internally before falling back to a mock reply. */
  datatype UpstreamFailure = InvalidCredential | RateLimited | ApiError(status: int) | MalformedResponse | Unreachable

  /** The outcome of `queryGroq`: the request it sent, if any, and the text it returned. */
  datatype Query = Query(sent: Option<CompletionRequest>, reply: string)

  /** `req.body` of `POST /api/chat`; an absent `message` is `None`. */
  datatype ChatRequest = ChatRequest(message: Option<string>, chatHistory: seq<ChatTurn>)

  datatype ChatResponse =
    | ChatOk(response: string, timestamp: string, model: string, isMock: bool)
    | ChatError(status: nat, error: string)

  datatype ModelsResponse = ModelsResponse(models: map<string, string>, currentModel: string, hasApiKey: bool)

  datatype SelectResponse =
    | ModelChanged(message: string, currentModel: string, note: string)
    | ModelRejected(status: nat, error: string)

  datatype HealthResponse = HealthResponse(
    status: string, timestamp: string, model: string, hasApiKey: bool, message: string, provider: string)

  datatype ConfigResponse = ConfigResponse(
    hasApiKey: bool, currentModel: string, availableModels: map<string, string>, provider: string, note: string)

  // ---------------------------------------------------------------------------
  // Credentials
  // ---------------------------------------------------------------------------

  /** `!!GROQ_API_KEY && GROQ_API_KEY !== placeholder`: an unset or empty key is falsy. */
  predicate HasApiKey(key: Option<string>)
    ensures HasApiKey(key) ==> KeyStatusMessage(key) == "API key found"
    ensures key == Some(KeyPlaceholder) ==> !HasApiKey(key)
  {
    key.Some? && key.value != "" && key.value != KeyPlaceholder
  }

  /** The `message` field of `/api/health`, which tests only that the key is set. */
  function KeyStatusMessage(key: Option<string>): (r: string)
    ensures r == "API key found" <==> key.Some? && key.value != ""
    ensures r == "API key found" || r == "No API key configured"
  {
    if key.Some? && key.value != "" then "API key found" else "No API key configured"
  }

  /** With the placeholder key the health message says a key was found, yet `hasApiKey` is false. */
  lemma PlaceholderKeyReportedFound()
    ensures KeyStatusMessage(Some(KeyPlaceholder)) == "API key found"
    ensures !HasApiKey(Some(KeyPlaceholder))
  {
  }

  // ---------------------------------------------------------------------------
  // Prompt assembly
  // ---------------------------------------------------------------------------

  function Min(a: int, b: int): int { if a <= b then a else b }

  /** `chatHistory.slice(-6)`: the last min(6, n) turns, oldest first. */
  function RecentTurns(history: seq<ChatTurn>): (r: seq<ChatTurn>)
    ensures |r| == Min(HistoryWindow, |history|)
    ensures r == history[|history| - |r|..]
  {
    if |history| <= HistoryWindow then history else history[|history| - HistoryWindow..]
  }

  /** `turns.flatMap(t => [user, assistant])`: each turn becomes a user message followed by an
      assistant message, in the turns' order. */
  function TurnMessages(turns: seq<ChatTurn>): (r: seq<Message>)
    ensures |r| == 2 * |turns|
    ensures forall i :: 0 <= i < |turns| ==>
      r[2 * i] == Message(User, turns[i].user) && r[2 * i + 1] == Message(Assistant, turns[i].assistant)
  {
    if turns == [] then []
    else [Message(User, turns[0].user), Message(Assistant, turns[0].assistant)] + TurnMessages(turns[1..])
  }

  /** Reads a flattened history back into turns: pairs of consecutive messages (an odd last
      message is dropped). */
  function PairUp(ms: seq<Message>): (r: seq<ChatTurn>)
    ensures |r| == |ms| / 2
    ensures forall i :: 0 <= i < |r| ==> r[i] == ChatTurn(ms[2 * i].content, ms[2 * i + 1].content)
  {
    if |ms| < 2 then [] else [ChatTurn(ms[0].content, ms[1].content)] + PairUp(ms[2..])
  }

  /** Flattening loses nothing: pairing the messages up again gives back the turns. */
  lemma PairUpTurnMessages(turns: seq<ChatTurn>)
    ensures PairUp(TurnMessages(turns)) == turns
  {
  }

  /** The `messages` array of the completion request. */
  function BuildMessages(systemPrompt: string, history: seq<ChatTurn>, userMessage: string): (r: seq<Message>)
    ensures |r| == 2 + 2 * Min(HistoryWindow, |history|)
    ensures r[0] == Message(System, systemPrompt)
    ensures r[|r| - 1] == Message(User, userMessage)
  {
    [Message(System, systemPrompt)] + TurnMessages(RecentTurns(history)) + [Message(User, userMessage)]
  }

  /** Between the system prompt and the new message sit exactly the last min(6, n) turns of the
      history: pairing those messages up again gives back those turns. */
  lemma PromptCarriesRecentHistory(systemPrompt: string, history: seq<ChatTurn>, userMessage: string)
    ensures var r := BuildMessages(systemPrompt, history, userMessage);
      PairUp(r[1..|r| - 1]) == RecentTurns(history)
  {
  }

  /** Turn `i` of the retained window (the history's turn |history| - k + i) becomes messages
      1 + 2i (user) and 2 + 2i (assistant) of the prompt. */
  lemma PromptTurnPositions(systemPrompt: string, history: seq<ChatTurn>, userMessage: string, i: nat)
    requires i < Min(HistoryWindow, |history|)
    ensures var r := BuildMessages(systemPrompt, history, userMessage);
      var turn := history[|history| - Min(HistoryWindow, |history|) + i];
      r[1 + 2 * i] == Message(User, turn.user) && r[2 + 2 * i] == Message(Assistant, turn.assistant)
  {
  }

  // ---------------------------------------------------------------------------
  // Mock replies
  // ---------------------------------------------------------------------------

  /** The first opener quotes the user's message between these two parts. */
  const EchoHead: string := "I understand your question about '"
  const EchoTail: string := "'. Based on my knowledge..."

  /** The other four openers, which do not depend on the message (each is written as its first
      word and the rest, which keeps its first character within easy reach of the verifier). */
  const FixedOpeners: seq<string> := [
    "That's" + " an interesting point! Let me think about that...",
    "Thank" + " you for asking. Here's what I can tell you...",
    "I'd" + " be happy to help with that. Here's some information...",
    "That's" + " a great question! I suggest considering the following approach..."
  ]

  /** The five canned openers of `getMockResponse`; only the first quotes the user's message. */
  function MockOpeners(userMessage: string): (r: seq<string>)
    ensures |r| == MockOpenerCount
  {
    [EchoHead + userMessage + EchoTail] + FixedOpeners
  }

  /** `getMockResponse`: opener number `pick` (the `Math.floor(Math.random() * 5)` draw) and the
      fixed mock notice. */
  function MockResponse(userMessage: string, pick: nat): (r: string)
    requires pick < MockOpenerCount
    ensures StartsWith(r, MockOpeners(userMessage)[pick])
    ensures EndsWith(r, MockSuffix)
    ensures |r| == |MockOpeners(userMessage)[pick]| + |MockSuffix|
  {
    MockOpeners(userMessage)[pick] + MockSuffix
  }

  /** The first opener echoes the user's message. */
  lemma MockEchoesMessage(userMessage: string)
    ensures Contains(MockResponse(userMessage, 0), userMessage)
  {
    var r := MockResponse(userMessage, 0);
    assert r == EchoHead + userMessage + (EchoTail + MockSuffix);
    assert r[|EchoHead|..|EchoHead| + |userMessage|] == userMessage;
    assert MatchesAt(r, userMessage, |EchoHead|);
  }

  /** Every other opener ignores the user's message. */
  lemma MockOthersIgnoreMessage(m1: string, m2: string, pick: nat)
    requires 0 < pick < MockOpenerCount
    ensures MockResponse(m1, pick) == MockResponse(m2, pick)
  {
  }

  /** A mock reply neither starts nor ends with white space, so `trim()` leaves it as it is. */
  lemma MockIsTrimmed(userMessage: string, pick: nat)
    requires pick < MockOpenerCount
    ensures Trim(MockResponse(userMessage, pick)) == MockResponse(userMessage, pick)
  {
    var o := MockOpeners(userMessage)[pick];
    OpenerStartsWithLetter(userMessage, pick);
    SuffixEndsWithParen();
    var r := o + MockSuffix;
    assert r[0] == o[0] && r[|r| - 1] == MockSuffix[|MockSuffix| - 1];
    TrimUnchanged(r);
  }

  lemma OpenerStartsWithLetter(userMessage: string, pick: nat)
    requires pick < MockOpenerCount
    ensures var o := MockOpeners(userMessage)[pick]; o != [] && (o[0] == 'I' || o[0] == 'T')
  {
    if pick == 0 {
      assert EchoHead[0] == 'I';
      assert MockOpeners(userMessage)[0][0] == EchoHead[0];
    } else {
      assert MockOpeners(userMessage)[pick] == FixedOpeners[pick - 1];
    }
  }

  lemma SuffixEndsWithParen()
    ensures |MockSuffix| > 0 && MockSuffix[|MockSuffix| - 1] == ')'
  {
  }

  // ---------------------------------------------------------------------------
  // The upstream call
  // ---------------------------------------------------------------------------

  predicate IsOkStatus(status: int)
    ensures IsOkStatus(status) <==> status / 100 == 2
  {
    200 <= status <= 299
  }

  /** The error `queryGroq` throws for an upstream outcome, or `None` when it returns the
      completion text: a 2xx answer whose `choices[0].message.content` is a non-empty string. */
  function FailureOf(upstream: Upstream): (r: Option<UpstreamFailure>)
    ensures r == None <==>
      upstream.Response? && IsOkStatus(upstream.status) && upstream.content.Some? && upstream.content.value != ""
    ensures upstream.Response? && upstream.status == 401 ==> r == Some(InvalidCredential)
    ensures upstream.Response? && upstream.status == 429 ==> r == Some(RateLimited)
  {
    match upstream
    case NoResponse => Some(Unreachable)
    case Response(status, content) =>
      if !IsOkStatus(status) then
        if status == 401 then Some(InvalidCredential)
        else if status == 429 then Some(RateLimited)
        else Some(ApiError(status))
      else if content.None? || content.value == "" then Some(MalformedResponse)
      else None
  }

  /** `queryGroq(userMessage, chatHistory)` with the current model `model`. */
  function QueryGroq(key: Option<string>, model: string, systemPrompt: string, userMessage: string,
                     history: seq<ChatTurn>, upstream: Upstream, pick: nat): (q: Query)
    requires pick < MockOpenerCount
    // A request goes out exactly when a usable key is configured.
    ensures q.sent.Some? <==> HasApiKey(key)
    ensures q.sent.Some? ==>
      q.sent.value == CompletionRequest(model, BuildMessages(systemPrompt, history, userMessage),
                                        Temperature, MaxTokens, TopP, false)
    // It never fails: it returns the completion text, or a mock reply for every other outcome.
    ensures HasApiKey(key) && FailureOf(upstream) == None ==> q.reply == upstream.content.value
    ensures !HasApiKey(key) || FailureOf(upstream) != None ==> q.reply == MockResponse(userMessage, pick)
  {
    if !HasApiKey(key) then
      Query(None, MockResponse(userMessage, pick))
    else
      var request := CompletionRequest(model, BuildMessages(systemPrompt, history, userMessage),
                                       Temperature, MaxTokens, TopP, false);
      match FailureOf(upstream)
      case None => Query(Some(request), upstream.content.value)
      case Some(_) => Query(Some(request), MockResponse(userMessage, pick))
  }

  /** JavaScript falsiness of the `message` field: absent or the empty string. */
  predicate IsFalsy(message: Option<string>)
    ensures IsFalsy(message) ==> message == None || message == Some("")
    ensures !IsFalsy(message) ==> |message.value| >= 1
  {
    message.None? || message.value == ""
  }

  // ---------------------------------------------------------------------------
  // The service and its handlers
  // ---------------------------------------------------------------------------

  class Server {
    /** `GROQ_API_KEY` as read from the environment at start-up. */
    const apiKey: Option<string>
    /** `SYSTEM_PROMPT`; its text is not part of this model. */
    const systemPrompt: string
    /** The one piece of mutable process state. */
    var currentModel: string

    ghost predicate Valid()
      reads this
    {
      currentModel in Models.Values
    }

    constructor (apiKey: Option<string>, systemPrompt: string)
      ensures Valid()
      ensures this.apiKey == apiKey && this.systemPrompt == systemPrompt
      ensures currentModel == DefaultModel
    {
      this.apiKey := apiKey;
      this.systemPrompt := systemPrompt;
      currentModel := DefaultModel;
    }

    /** `POST /api/chat`, up to the `await`: validates the message and runs `queryGroq`, whose
        request names the model selected at this point. `None` when `queryGroq` is not called. */
    method ChatBegin(request: ChatRequest, upstream: Upstream, pick: nat) returns (query: Option<Query>)
      requires pick < MockOpenerCount
      ensures IsFalsy(request.message) <==> query == None
      ensures !IsFalsy(request.message) ==>
        query == Some(QueryGroq(apiKey, currentModel, systemPrompt, request.message.value,
                                request.chatHistory, upstream, pick))
    {
      if IsFalsy(request.message) {
        return None;
      }
      query := Some(QueryGroq(apiKey, currentModel, systemPrompt, request.message.value,
                              request.chatHistory, upstream, pick));
    }

    /** `POST /api/chat`, after the `await`: the 400 for a missing message, or the trimmed reply
        with the model selected at this later point, which a `POST /api/model` handled while the
        upstream call was pending may have changed. */
    method ChatEnd(request: ChatRequest, query: Option<Query>, now: string) returns (response: ChatResponse)
      requires IsFalsy(request.message) <==> query == None
      ensures IsFalsy(request.message) ==> response == ChatError(400, "Message is required")
      ensures !IsFalsy(request.message) ==>
        response == ChatOk(Trim(query.value.reply), now, currentModel, !HasApiKey(apiKey))
    {
      if IsFalsy(request.message) {
        return ChatError(400, "Message is required");
      }
      response := ChatOk(Trim(query.value.reply), now, currentModel, !HasApiKey(apiKey));
    }

    /** `POST /api/chat` with no other request handled while the upstream call is pending: the
        reply is labelled with the model the request was sent to. Also returns what `queryGroq`
        did, or `None` when it was not called. */
    method Chat(request: ChatRequest, upstream: Upstream, pick: nat, now: string)
      returns (response: ChatResponse, query: Option<Query>)
      requires pick < MockOpenerCount
      ensures IsFalsy(request.message) ==> response == ChatError(400, "Message is required") && query == None
      ensures !IsFalsy(request.message) ==>
        && query == Some(QueryGroq(apiKey, currentModel, systemPrompt, request.message.value,
                                   request.chatHistory, upstream, pick))
        && response == ChatOk(Trim(query.value.reply), now, currentModel, !HasApiKey(apiKey))
    {
      query := ChatBegin(request, upstream, pick);
      response := ChatEnd(request, query, now);
    }

    /** `GET /api/models`. */
    method ListModels() returns (response: ModelsResponse)
      ensures response == ModelsResponse(Models, currentModel, HasApiKey(apiKey))
    {
      response := ModelsResponse(Models, currentModel, HasApiKey(apiKey));
    }

    /** `POST /api/model`: switches to a registered model identifier, rejects anything else. */
    method SelectModel(model: Option<string>) returns (response: SelectResponse)
      requires Valid()
      modifies this
      ensures Valid()
      ensures model.Some? && model.value in Models.Values ==>
        currentModel == model.value
        && response == ModelChanged("Model changed to " + model.value, model.value, "Model changed successfully")
      ensures !(model.Some? && model.value in Models.Values) ==>
        currentModel == old(currentModel) && response == ModelRejected(400, "Invalid model")
    {
      if model.Some? && model.value in Models.Values {
        currentModel := model.value;
        response := ModelChanged("Model changed to " + model.value, currentModel, "Model changed successfully");
      } else {
        response := ModelRejected(400, "Invalid model");
      }
    }

    /** `GET /api/health`. */
    method Health(now: string) returns (response: HealthResponse)
      ensures response == HealthResponse("OK", now, currentModel, HasApiKey(apiKey), KeyStatusMessage(apiKey), "Groq")
    {
      response := HealthResponse("OK", now, currentModel, HasApiKey(apiKey), KeyStatusMessage(apiKey), "Groq");
    }

    /** `GET /api/config`. */
    method Config() returns (response: ConfigResponse)
      ensures response == ConfigResponse(HasApiKey(apiKey), currentModel, Models, "Groq",
                                         "Set GROQ_API_KEY in .env file for real AI responses")
    {
      response := ConfigResponse(HasApiKey(apiKey), currentModel, Models, "Groq",
                                 "Set GROQ_API_KEY in .env file for real AI responses");
    }
  }

  // ---------------------------------------------------------------------------
  // Scenarios
  // ---------------------------------------------------------------------------

  /** With a usable key, an upstream 429 still yields a 200 reply carrying the mock notice, and
      `isMock` is false because it reflects only the key configuration. */
  method RateLimitedScenario(userMessage: string, pick: nat) returns (response: ChatResponse)
    requires userMessage != "" && pick < MockOpenerCount
    ensures response.ChatOk? && !response.isMock
    ensures response.response == MockResponse(userMessage, pick)
  {
    var key := Some("gsk_live");
    assert HasApiKey(key) by { assert key.value[0] != KeyPlaceholder[0]; }
    var server := new Server(key, "prompt");
    var query;
    response, query := server.Chat(ChatRequest(Some(userMessage), []), Response(429, None), pick, "now");
    assert FailureOf(Response(429, None)) == Some(RateLimited);
    assert query.value.reply == MockResponse(userMessage, pick);
    MockIsTrimmed(userMessage, pick);
  }

  /** Without a key, `POST /api/chat {message: "Hello"}` is answered by a mock reply, flagged as
      such, and nothing is sent upstream. */
  method UnconfiguredHelloScenario(upstream: Upstream, pick: nat) returns (response: ChatResponse, query: Option<Query>)
    requires pick < MockOpenerCount
    ensures response.ChatOk? && response.isMock && EndsWith(response.response, MockSuffix)
    ensures query.Some? && query.value.sent == None
  {
    var server := new Server(None, "prompt");
    response, query := server.Chat(ChatRequest(Some("Hello"), []), upstream, pick, "now");
    assert query.value.reply == MockResponse("Hello", pick);
    MockIsTrimmed("Hello", pick);
  }

  /** A model switch handled while a chat's upstream call is pending: the request goes to the
      default model, but the reply is labelled with the newly selected one. */
  method ModelSwitchDuringChatScenario(upstream: Upstream, pick: nat)
    returns (response: ChatResponse, query: Option<Query>)
    requires pick < MockOpenerCount
    ensures query.Some? && query.value.sent.Some? && query.value.sent.value.model == DefaultModel
    ensures response.ChatOk? && response.model == Models["GEMMA_7B"] && response.model != DefaultModel
  {
    var key := Some("gsk_live");
    assert HasApiKey(key) by { assert key.value[0] != KeyPlaceholder[0]; }
    var server := new Server(key, "prompt");
    var request := ChatRequest(Some("Hello"), []);
    query := server.ChatBegin(request, upstream, pick);
    var switched := server.SelectModel(Some(Models["GEMMA_7B"]));
    response := server.ChatEnd(request, query, "now");
  }

  /** An unknown identifier is rejected and leaves the selection where it was. */
  method InvalidModelScenario() returns (response: SelectResponse, model: string)
    ensures response == ModelRejected(400, "Invalid model")
    ensures model == DefaultModel
  {
    var server := new Server(None, "prompt");
    response := server.SelectModel(Some("not-a-real-model"));
    model := server.currentModel;
  }
}
