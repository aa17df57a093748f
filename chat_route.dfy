/**
 * The chat route's POST handler: validate the posted body in a fixed order,
 * build the completion request (one system message, then the last ten
 * turns), and map the completion backend's answer to either the reply text
 * (status 200) or an error message (status 500).
 *
 * The HTTP call to the completion backend is not modelled; its result enters
 * as a `BackendOutcome`.
 */
module ChatRoute {
  import opened Wrappers
  import opened Conversation
  import Js

  const MessagesRequired := "Messages are required and must be a non-empty array"
  const TopicRequired := "Topic is required"
  const ApiKeyNotSet := "OPENAI_API_KEY is not set"
  const BackendErrorPrefix := "OpenAI API error: "
  const NoResponse := "No response received from OpenAI"

  const CompletionModel := "gpt-3.5-turbo"
  /** How many of the most recent turns are forwarded to the backend. */
  const WindowSize := 10

  const StatusOk := 200
  const StatusServerError := 500

  /** The `messages` field of the posted JSON: missing or null, not an array, or an array. */
  datatype MessagesField = Absent | NotArray | Items(items: seq<Message>)

  /**
   * The posted body after `req.json()`: either parsing threw (with that
   * error's message), or the three destructured fields. `topic` is None when
   * missing or null.
   */
  datatype RequestBody =
    | Unparseable(message: string)
    | Body(messages: MessagesField, responseRate: string, topic: Option<string>)

  /**
   * The system message's instruction, kept as the two values it quotes;
   * `Text` is the string actually sent as the system message's content.
   */
  datatype Instruction = Instruction(topic: string, responseRate: string)
  {
    function Text(): (text: string)
      ensures |text| == |PromptLead| + |topic| + |PromptMiddle| + |responseRate| + |PromptTail|
      ensures text[..|PromptLead|] == PromptLead && text[|text| - |PromptTail|..] == PromptTail
    {
      PromptLead + topic + PromptMiddle + responseRate + PromptTail
    }
  }

  /**
   * One entry of the prompt sent to the backend: the message with role
   * `system`, or a forwarded log entry, whole (role, content and timestamp,
   * as the page posted it).
   */
  datatype PromptEntry = SystemEntry(instruction: Instruction) | TurnEntry(turn: Message)

  /** What the route sends: the model, the bearer key and the prompt. */
  datatype CompletionRequest = CompletionRequest(model: string, apiKey: string, prompt: seq<PromptEntry>)

  /**
   * What the backend call produced:
   *  - Completed: status OK, carrying `choices[0].message.content` (None when absent or null);
   *  - Rejected: status not OK, carrying `error.message` of the body (None when absent) and the status text;
   *  - Raised: the call or the parsing of its body threw an error with this message.
   */
  datatype BackendOutcome =
    | Completed(content: Option<string>)
    | Rejected(errorMessage: Option<string>, statusText: string)
    | Raised(message: string)

  datatype ResponseBody = Reply(response: string) | ErrorReply(error: string)

  datatype HttpResponse = HttpResponse(status: int, body: ResponseBody)

  // ---------------------------------------------------------------------------
  // The system prompt

  const PromptLead := "You are an AI moderator in a group chat discussing the topic: \""
  const PromptMiddle := "\". Your role is to facilitate discussion, ensure fair and respectful conversation, and provide guidance when needed. Your response rate is set to "
  const PromptTail := " (low: respond every 5 minutes, high: respond every 1 minute). Adjust your responses accordingly:\n\n1. Reengage participants if the discussion is stalling\n2. Recap important points periodically\n3. Mediate when participants seem frustrated or if the conversation becomes unproductive\n4. Ask thought-provoking questions to deepen the discussion\n5. Ensure all participants have an opportunity to contribute\n6. Keep the conversation focused on the main topic\n\nUse your best judgment to maintain a balanced and productive conversation while adhering to the specified response rate. You may also be manually triggered to respond at any time, so be prepared to provide timely and relevant input regardless of the usual response interval."

  /** The system message quotes the topic right after its fixed lead, and the rate right after the fixed middle. */
  lemma InstructionEmbeds(topic: string, responseRate: string)
    ensures var p, i := Instruction(topic, responseRate).Text(), |PromptLead| + |topic| + |PromptMiddle|;
      && p[..|PromptLead|] == PromptLead
      && p[|PromptLead|..|PromptLead| + |topic|] == topic
      && p[|PromptLead| + |topic|..i] == PromptMiddle
      && p[i..i + |responseRate|] == responseRate
      && p[i + |responseRate|..] == PromptTail
  {
  }

  // ---------------------------------------------------------------------------
  // The window of recent turns and the prompt

  /** `messages.slice(-10)`: the last ten turns, or all of them when there are fewer. */
  function RecentTurns(messages: seq<Message>): (w: seq<Message>)
    ensures |w| == if |messages| < WindowSize then |messages| else WindowSize
    ensures forall i :: 0 <= i < |w| ==> w[i] == messages[|messages| - |w| + i]
  {
    Js.SliceFromNegative(messages, WindowSize);
    Js.SliceFrom(messages, -WindowSize)
  }

  /** A log of at most ten turns is forwarded whole. */
  lemma RecentTurnsOfShortLog(messages: seq<Message>)
    requires |messages| <= WindowSize
    ensures RecentTurns(messages) == messages
  {
  }

  /** Appending one turn shifts the window by one: the new turn enters last, the oldest leaves once it is full. */
  lemma RecentTurnsAfterAppend(messages: seq<Message>, m: Message)
    ensures RecentTurns(messages + [m])
         == (if |messages| < WindowSize then RecentTurns(messages) else RecentTurns(messages)[1..]) + [m]
  {
  }

  /** After fifteen turns, exactly the last ten are sent, in order. */
  lemma RecentTurnsOfFifteen(messages: seq<Message>)
    requires |messages| == 15
    ensures RecentTurns(messages) == messages[5..]
  {
  }

  /** The backend prompt: the system message, then the given turns as they are. */
  function Prompt(instruction: Instruction, turns: seq<Message>): (p: seq<PromptEntry>)
    ensures |p| == |turns| + 1
    ensures p[0] == SystemEntry(instruction)
    ensures forall i :: 0 <= i < |turns| ==> p[i + 1] == TurnEntry(turns[i])
  {
    [SystemEntry(instruction)] + seq(|turns|, i requires 0 <= i < |turns| => TurnEntry(turns[i]))
  }

  // ---------------------------------------------------------------------------
  // Validation and the backend answer

  /**
   * The negation of `!messages || !Array.isArray(messages) || messages.length === 0`:
   * it holds exactly for an array with at least one entry.
   */
  predicate HasMessages(field: MessagesField): (ok: bool)
    ensures ok <==> field.Items? && field.items != []
  {
    !(field.Absent? || !field.Items? || |field.items| == 0)
  }

  /**
   * The checks before the backend call, in their order (messages, then topic,
   * then the API key), and the request sent when all of them pass.
   */
  function Validate(body: RequestBody, apiKey: Option<string>): (r: Result<CompletionRequest, string>)
    ensures body.Unparseable? ==> r == Failure(body.message)
    ensures body.Body? && !HasMessages(body.messages) ==> r == Failure(MessagesRequired)
    ensures body.Body? && HasMessages(body.messages) && !Js.Truthy(body.topic) ==> r == Failure(TopicRequired)
    ensures body.Body? && HasMessages(body.messages) && Js.Truthy(body.topic) && !Js.Truthy(apiKey) ==>
              r == Failure(ApiKeyNotSet)
    ensures r.Success? <==> body.Body? && HasMessages(body.messages) && Js.Truthy(body.topic) && Js.Truthy(apiKey)
    ensures r.Success? ==>
              && r.value.model == CompletionModel
              && r.value.apiKey == apiKey.value
              && r.value.prompt == Prompt(Instruction(body.topic.value, body.responseRate), RecentTurns(body.messages.items))
  {
    if body.Unparseable? then Failure(body.message)
    else if !HasMessages(body.messages) then Failure(MessagesRequired)
    else if !Js.Truthy(body.topic) then Failure(TopicRequired)
    else if !Js.Truthy(apiKey) then Failure(ApiKeyNotSet)
    else
      var instruction := Instruction(body.topic.value, body.responseRate);
      Success(CompletionRequest(CompletionModel, apiKey.value, Prompt(instruction, RecentTurns(body.messages.items))))
  }

  /** The prompt built from a log: the system message, then the last min(10, n) turns in order. */
  lemma WindowedPromptShape(instruction: Instruction, items: seq<Message>)
    ensures var p := Prompt(instruction, RecentTurns(items));
      var n := if |items| < WindowSize then |items| else WindowSize;
      && |p| == n + 1
      && p[0] == SystemEntry(instruction)
      && (forall i :: 1 <= i < |p| ==> p[i] == TurnEntry(items[|items| - n + i - 1]))
  {
    PromptOfSuffix(instruction, items, RecentTurns(items));
  }

  /** Helper: a prompt over a suffix `w` of `items` lists the turns of that suffix after the system entry. */
  lemma PromptOfSuffix(instruction: Instruction, items: seq<Message>, w: seq<Message>)
    requires |w| <= |items|
    requires forall j :: 0 <= j < |w| ==> w[j] == items[|items| - |w| + j]
    ensures forall i :: 1 <= i < |Prompt(instruction, w)| ==>
              Prompt(instruction, w)[i] == TurnEntry(items[|items| - |w| + i - 1])
  {
    var p := Prompt(instruction, w);
    forall i | 1 <= i < |p| ensures p[i] == TurnEntry(items[|items| - |w| + i - 1]) {
      var k := i - 1;
      assert p[k + 1] == TurnEntry(w[k]);
    }
  }

  /** The route's reading of the backend's answer. */
  function Interpret(outcome: BackendOutcome): (r: Result<string, string>)
    ensures r.Success? <==> outcome.Completed? && Js.Truthy(outcome.content)
    ensures r.Success? ==> r.value == outcome.content.value && r.value != ""
    ensures outcome.Completed? && !Js.Truthy(outcome.content) ==> r == Failure(NoResponse)
    ensures outcome.Rejected? ==>
              r == Failure(BackendErrorPrefix + if Js.Truthy(outcome.errorMessage) then outcome.errorMessage.value else outcome.statusText)
    ensures outcome.Raised? ==> r == Failure(outcome.message)
  {
    match outcome
    case Rejected(message, statusText) =>
      Failure(BackendErrorPrefix + if Js.Truthy(message) then message.value else statusText)
    case Raised(message) => Failure(message)
    case Completed(content) =>
      if Js.Truthy(content) then Success(content.value) else Failure(NoResponse)
  }

  /** The route's decision: a validation failure never consults the backend; otherwise the backend's answer decides. */
  function Handle(body: RequestBody, apiKey: Option<string>, outcome: BackendOutcome): (r: Result<string, string>)
    ensures Validate(body, apiKey).Failure? ==> r == Failure(Validate(body, apiKey).error)
    ensures Validate(body, apiKey).Success? ==> r == Interpret(outcome)
  {
    match Validate(body, apiKey)
    case Failure(e) => Failure(e)
    case Success(_) => Interpret(outcome)
  }

  /** A request rejected before the backend call gets the same answer whatever the backend would have said. */
  lemma RejectedRequestIgnoresBackend(body: RequestBody, apiKey: Option<string>, o1: BackendOutcome, o2: BackendOutcome)
    requires Validate(body, apiKey).Failure?
    ensures Handle(body, apiKey, o1) == Handle(body, apiKey, o2)
  {
  }

  /** The HTTP answer: the reply with status 200, or any failure's message with status 500. */
  function ToResponse(r: Result<string, string>): (resp: HttpResponse)
    ensures resp.status == StatusOk <==> r.Success?
    ensures r.Success? ==> resp.body == Reply(r.value)
    ensures r.Failure? ==> resp == HttpResponse(StatusServerError, ErrorReply(r.error))
  {
    match r
    case Success(text) => HttpResponse(StatusOk, Reply(text))
    case Failure(message) => HttpResponse(StatusServerError, ErrorReply(message))
  }

  /** `POST`: a success is a 200 carrying its non-empty reply; every failure is a 500 carrying its message. */
  function Post(body: RequestBody, apiKey: Option<string>, outcome: BackendOutcome): (resp: HttpResponse)
    ensures resp.status == StatusOk || resp.status == StatusServerError
    ensures resp.status == StatusOk <==> resp.body.Reply?
    ensures resp.body.Reply? ==> resp.body.response != ""
    ensures Handle(body, apiKey, outcome).Success? ==>
              resp == HttpResponse(StatusOk, Reply(Handle(body, apiKey, outcome).value))
    ensures Handle(body, apiKey, outcome).Failure? ==>
              resp == HttpResponse(StatusServerError, ErrorReply(Handle(body, apiKey, outcome).error))
  {
    ToResponse(Handle(body, apiKey, outcome))
  }
}
