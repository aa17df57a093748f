/**
 * The page and the route together: the page's request body arrives at the
 * route as its destructured fields, and the route's HTTP answer comes back to
 * the page as a fetch outcome. The lemmas here follow an attempt the page
 * starts all the way to the error or message the page ends up with.
 */
module Integration {
  import opened Wrappers
  import opened Conversation
  import Js
  import ChatRoute
  import ModeratorPage

  /** `JSON.stringify` on the page, `req.json()` and destructuring on the route. */
  function Transmit(req: ChatRequest): (body: ChatRoute.RequestBody)
    ensures body.Body? && body.messages == ChatRoute.Items(req.messages)
    ensures ChatRoute.HasMessages(body.messages) <==> req.messages != []
    ensures Js.Truthy(body.topic) <==> req.topic != ""
    ensures body.topic.Some? && body.topic.value == req.topic && body.responseRate == req.responseRate
  {
    ChatRoute.Body(ChatRoute.Items(req.messages), req.responseRate, Some(req.topic))
  }

  /** `res.ok` */
  predicate IsOk(status: int): (ok: bool)
    ensures status == ChatRoute.StatusOk ==> ok
    ensures status == ChatRoute.StatusServerError ==> !ok
  {
    200 <= status <= 299
  }

  /** How the page reads an answer of the route (`res.ok`, then `data.response` or `data.error`). */
  function Receive(resp: ChatRoute.HttpResponse): (outcome: ModeratorPage.FetchOutcome)
    requires IsOk(resp.status) <==> resp.body.Reply?
    ensures outcome.Succeeded? <==> IsOk(resp.status)
    ensures outcome.Succeeded? ==> outcome.response == resp.body.response
    ensures !outcome.Succeeded? ==> outcome == ModeratorPage.Failed(Some(resp.body.error))
  {
    match resp.body
    case Reply(text) => ModeratorPage.Succeeded(text)
    case ErrorReply(message) => ModeratorPage.Failed(Some(message))
  }

  /**
   * Whatever the route decides reaches the page: its reply as the assistant's
   * text, or its error message as the page's error (the page's default text
   * only when that message is empty).
   */
  lemma RouteAnswerReachesPage(req: ChatRequest, apiKey: Option<string>, backend: ChatRoute.BackendOutcome)
    ensures var r := ChatRoute.Handle(Transmit(req), apiKey, backend);
      var outcome := Receive(ChatRoute.Post(Transmit(req), apiKey, backend));
      && (r.Success? ==> outcome == ModeratorPage.Succeeded(r.value) && r.value != "")
      && (r.Failure? ==> ModeratorPage.ErrorText(outcome) == if r.error != "" then r.error else ModeratorPage.FetchErrorDefault)
  {
  }

  /**
   * An attempt with a non-empty log and a topic (every tick-started and
   * manually started attempt) passes the route's first two checks: its fate
   * is decided by the API key and then by the backend.
   */
  lemma StartedAttemptReachesBackend(req: ChatRequest, apiKey: Option<string>, backend: ChatRoute.BackendOutcome)
    requires |req.messages| > 0 && req.topic != ""
    ensures ChatRoute.Handle(Transmit(req), apiKey, backend)
         == if Js.Truthy(apiKey) then ChatRoute.Interpret(backend) else Failure(ChatRoute.ApiKeyNotSet)
  {
  }

  /**
   * The first-message bootstrap as written posts the log from before the
   * append, which is empty, so the route always rejects it and the page
   * shows the route's "messages are required" error.
   */
  lemma BootstrapAlwaysRejected(req: ChatRequest, apiKey: Option<string>, backend: ChatRoute.BackendOutcome)
    requires req.messages == []
    ensures ChatRoute.Post(Transmit(req), apiKey, backend)
         == ChatRoute.HttpResponse(ChatRoute.StatusServerError, ChatRoute.ErrorReply(ChatRoute.MessagesRequired))
    ensures Receive(ChatRoute.Post(Transmit(req), apiKey, backend)) == ModeratorPage.Failed(Some(ChatRoute.MessagesRequired))
    ensures ModeratorPage.ErrorText(Receive(ChatRoute.Post(Transmit(req), apiKey, backend))) == ChatRoute.MessagesRequired
  {
  }

  /** The bootstrap request as intended carries the new message, so only the API key and the backend decide it. */
  lemma IntendedBootstrapReachesBackend(before: seq<Message>, newMessage: Message, isHighRate: bool, topic: string,
                                        apiKey: Option<string>, backend: ChatRoute.BackendOutcome)
    requires topic != ""
    ensures var req := ModeratorPage.IntendedBootstrapRequest(before, newMessage, isHighRate, topic);
      ChatRoute.Handle(Transmit(req), apiKey, backend)
      == if Js.Truthy(apiKey) then ChatRoute.Interpret(backend) else Failure(ChatRoute.ApiKeyNotSet)
  {
    StartedAttemptReachesBackend(ModeratorPage.IntendedBootstrapRequest(before, newMessage, isHighRate, topic), apiKey, backend);
  }

  /**
   * Topic set, moderator on, empty log, the user sends a first message: the
   * bootstrap starts at once but is rejected, the log keeps only the user's
   * message, and the next tick (the last response time is still 0) starts
   * the attempt that can succeed.
   */
  method FirstMessageScenario(topic: string, text: string, submitTime: int, tickTime: int,
                              apiKey: Option<string>, backend: ChatRoute.BackendOutcome)
    returns (bootstrap: Option<ChatRequest>, errorAfter: Option<string>, logAfter: seq<Message>, retry: Option<ChatRequest>)
    requires ModeratorPage.TopicOk(topic) && !Js.AllWhitespace(text)
    requires tickTime - ModeratorPage.LowRateIntervalMs >= 0
    ensures bootstrap.Some? && bootstrap.value.messages == []
    ensures errorAfter == Some(ChatRoute.MessagesRequired)
    ensures logAfter == [Message(UserRole, text, submitTime)]
    ensures retry.Some? && retry.value.messages == logAfter
    ensures ChatRoute.Handle(Transmit(retry.value), apiKey, backend)
         == if Js.Truthy(apiKey) then ChatRoute.Interpret(backend) else Failure(ChatRoute.ApiKeyNotSet)
  {
    var chat := new ModeratorPage.ModeratorChat();
    chat.TopicSet(topic);
    chat.SetModeratorOn(true);
    chat.SetInput(text);
    bootstrap := chat.Submit(submitTime);
    BootstrapAlwaysRejected(bootstrap.value, apiKey, backend);
    var answer := Receive(ChatRoute.Post(Transmit(bootstrap.value), apiKey, backend));
    chat.CompleteAttempt(answer, submitTime, submitTime);
    errorAfter, logAfter := chat.error, chat.messages;
    retry := chat.Tick(tickTime);
    StartedAttemptReachesBackend(retry.value, apiKey, backend);
  }
}
