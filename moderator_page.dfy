/**
 * The moderator chat page: the message log and the settings the page holds
 * as state, the rule the ten-second timer applies, and the handlers that
 * start a moderator attempt (timer tick, manual trigger, first-message
 * bootstrap), finish one, submit a user message and set the topic.
 *
 * The wall clock enters as integer parameters (milliseconds); the request
 * an attempt posts is returned to the caller, and its answer comes back
 * through `CompleteAttempt`.
 */
module ModeratorPage {
  import opened Wrappers
  import opened Conversation
  import Js

  const HighRateIntervalMs := 60000
  const LowRateIntervalMs := 300000

  const FetchErrorDefault := "An error occurred while fetching the response."
  const UnknownErrorText := "An unknown error occurred"

  /** The minimum time between moderator turns for the current rate. */
  function ResponseInterval(isHighRate: bool): (interval: nat)
    ensures HighRateIntervalMs <= interval <= LowRateIntervalMs
    ensures interval == HighRateIntervalMs <==> isHighRate
    ensures !isHighRate ==> interval == LowRateIntervalMs
  {
    if isHighRate then HighRateIntervalMs else LowRateIntervalMs
  }

  /** The rate as the page posts it. */
  function RateName(isHighRate: bool): (name: string)
    ensures name == "high" || name == "low"
    ensures name == "high" <==> isHighRate
  {
    if isHighRate then "high" else "low"
  }

  /**
   * The timer's rule: enough time has passed since the last moderator turn
   * and the log is not empty. Whatever the rate, it never fires within a
   * minute of the last turn, and always fires once five minutes have passed.
   */
  predicate TickFires(now: int, lastResponseTime: int, isHighRate: bool, logSize: nat): (fires: bool)
    ensures fires ==> logSize > 0 && now - lastResponseTime >= HighRateIntervalMs
    ensures logSize > 0 && now - lastResponseTime >= LowRateIntervalMs ==> fires
  {
    now - lastResponseTime >= ResponseInterval(isHighRate) && logSize > 0
  }

  /** The rule is inclusive at its boundary and closed below it. */
  lemma TickBoundary(lastResponseTime: int, isHighRate: bool, logSize: nat)
    requires logSize > 0
    ensures TickFires(lastResponseTime + ResponseInterval(isHighRate), lastResponseTime, isHighRate, logSize)
    ensures !TickFires(lastResponseTime + ResponseInterval(isHighRate) - 1, lastResponseTime, isHighRate, logSize)
  {
  }

  /** Once the rule fires it keeps firing until the last response time moves; high rate fires whenever low rate does. */
  lemma TickMonotone(now: int, later: int, lastResponseTime: int, isHighRate: bool, logSize: nat)
    requires now <= later && TickFires(now, lastResponseTime, isHighRate, logSize)
    ensures TickFires(later, lastResponseTime, isHighRate, logSize)
    ensures TickFires(now, lastResponseTime, true, logSize)
  {
  }

  /** A topic as the topic dialog hands it over: trimmed and non-empty. */
  predicate TopicOk(topic: string)
  {
    topic != "" && Js.IsTrimmed(topic)
  }

  /** The topic dialog passes `raw.trim()` only when it is non-empty; such a topic is acceptable. */
  lemma DialogTopicOk(raw: string)
    requires Js.Trim(raw) != ""
    ensures TopicOk(Js.Trim(raw))
  {
    Js.TrimIdempotent(raw);
  }

  /** Log entries the page can create: a user message whose text is not all whitespace, or an assistant message. */
  predicate WellFormed(m: Message)
  {
    (m.role == UserRole && !Js.AllWhitespace(m.content)) || m.role == AssistantRole
  }

  predicate AllWellFormed(log: seq<Message>)
  {
    forall i :: 0 <= i < |log| ==> WellFormed(log[i])
  }

  /** Appending an entry the page can create keeps the log well formed. */
  lemma AppendWellFormed(log: seq<Message>, m: Message)
    requires AllWellFormed(log) && WellFormed(m)
    ensures AllWellFormed(log + [m])
  {
  }

  /** Every request the page posts: a topic the dialog accepts and a log of entries the page can create. */
  predicate PageRequest(req: ChatRequest)
  {
    TopicOk(req.topic) && AllWellFormed(req.messages)
  }

  /**
   * What the page's `fetch` of the chat route produced:
   *  - Succeeded: `res.ok`, carrying `data.response`;
   *  - Failed: not `res.ok`, carrying `data.error` (None when absent);
   *  - Thrown: `fetch` or `res.json()` threw; the message of the Error, or None for a non-Error value.
   */
  datatype FetchOutcome =
    | Succeeded(response: string)
    | Failed(serverError: Option<string>)
    | Thrown(message: Option<string>)

  /**
   * The text the page shows for a failed attempt: the text that came with
   * the failure, or one of the two fixed defaults. A failure the route
   * reported always shows something.
   */
  function ErrorText(outcome: FetchOutcome): (text: string)
    requires !outcome.Succeeded?
    ensures || text == FetchErrorDefault
            || text == UnknownErrorText
            || (outcome.Failed? && outcome.serverError == Some(text))
            || (outcome.Thrown? && outcome.message == Some(text))
    ensures outcome.Failed? ==> text != ""
    ensures outcome.Thrown? && outcome.message.None? ==> text == UnknownErrorText
    ensures outcome.Thrown? && outcome.message.Some? ==> text == outcome.message.value
  {
    match outcome
    case Failed(serverError) => if Js.Truthy(serverError) then serverError.value else FetchErrorDefault
    case Thrown(message) => if message.Some? then message.value else UnknownErrorText
  }

  /** A failure reported by the route shows the route's error text, or the default text when that is absent or empty. */
  lemma ErrorTextOfFailure(serverError: Option<string>)
    ensures ErrorText(Failed(serverError)) != ""
    ensures Js.Truthy(serverError) ==> ErrorText(Failed(serverError)) == serverError.value
    ensures !Js.Truthy(serverError) ==> ErrorText(Failed(serverError)) == FetchErrorDefault
  {
  }

  /** The bootstrap request the first-message handler was meant to send: the log including the new message. */
  function IntendedBootstrapRequest(before: seq<Message>, newMessage: Message, isHighRate: bool, topic: string): (req: ChatRequest)
    ensures |req.messages| == |before| + 1 && req.messages[|before|] == newMessage
    ensures req.messages[..|before|] == before
    ensures req.topic == topic && req.responseRate == RateName(isHighRate)
  {
    ChatRequest(before + [newMessage], RateName(isHighRate), topic)
  }

  /** The page's state; the fields mirror its React state and the last-response-time ref. */
  class ModeratorChat {
    var messages: seq<Message>
    var input: string
    var isHighRate: bool
    var isModeratorOn: bool
    var error: Option<string>
    var isLoading: bool
    var topic: Option<string>
    var isTopicModalOpen: bool
    var lastModeratorResponseTime: int

    /** Every log entry is one the page can create, and a set topic is trimmed and non-empty. */
    ghost predicate Valid()
      reads this`messages, this`topic
    {
      && AllWellFormed(messages)
      && (topic.Some? ==> TopicOk(topic.value))
    }

    /** The interval exists only while the moderator is on and a topic is set. */
    predicate TimerActive(): (active: bool)
      reads this
      ensures active ==> isModeratorOn && topic.Some?
      ensures isModeratorOn && Js.Truthy(topic) ==> active
      ensures active && Valid() ==> TopicOk(topic.value)
    {
      isModeratorOn && Js.Truthy(topic)
    }

    constructor ()
      ensures Valid()
      ensures messages == [] && input == "" && error == None && topic == None
      ensures !isHighRate && !isModeratorOn && !isLoading && isTopicModalOpen
      ensures lastModeratorResponseTime == 0
    {
      messages := [];
      input := "";
      isHighRate := false;
      isModeratorOn := false;
      error := None;
      isLoading := false;
      topic := None;
      isTopicModalOpen := true;
      lastModeratorResponseTime := 0;
    }

    /** The text field's change handler. */
    method SetInput(text: string)
      modifies this`input
      ensures input == text
    {
      input := text;
    }

    /** The moderator on/off switch. */
    method SetModeratorOn(on: bool)
      modifies this`isModeratorOn
      ensures isModeratorOn == on
    {
      isModeratorOn := on;
    }

    /** The rate switch; it takes effect at the next tick. */
    method SetHighRate(high: bool)
      modifies this`isHighRate
      ensures isHighRate == high
    {
      isHighRate := high;
    }

    /** `handleTopicSet`: records the topic and closes the dialog. */
    method TopicSet(newTopic: string)
      requires Valid() && TopicOk(newTopic)
      modifies this`topic, this`isTopicModalOpen
      ensures Valid()
      ensures topic == Some(newTopic) && !isTopicModalOpen
    {
      topic := Some(newTopic);
      isTopicModalOpen := false;
    }

    /**
     * The start of `handleModeratorResponse`, posting `snapshot` as the log:
     * nothing happens without a topic; otherwise loading is set, the error
     * cleared and the request returned.
     */
    method BeginAttempt(snapshot: seq<Message>) returns (request: Option<ChatRequest>)
      modifies this`isLoading, this`error
      ensures request.Some? <==> Js.Truthy(topic)
      ensures request.Some? ==>
                && request.value == ChatRequest(snapshot, RateName(isHighRate), topic.value)
                && isLoading && error == None
      ensures request.None? ==> isLoading == old(isLoading) && error == old(error)
    {
      if !Js.Truthy(topic) {
        return None;
      }
      isLoading := true;
      error := None;
      request := Some(ChatRequest(snapshot, RateName(isHighRate), topic.value));
    }

    /**
     * The end of `handleModeratorResponse`. On success one assistant message
     * stamped `stampTime` is appended and the last response time becomes
     * `refTime` (the two clock readings are separate); on failure the log and
     * the last response time stay and the error is set. Loading ends either way.
     */
    method CompleteAttempt(outcome: FetchOutcome, stampTime: int, refTime: int)
      requires Valid()
      modifies this`messages, this`lastModeratorResponseTime, this`error, this`isLoading
      ensures Valid()
      ensures !isLoading
      ensures outcome.Succeeded? ==>
                && messages == old(messages) + [Message(AssistantRole, outcome.response, stampTime)]
                && lastModeratorResponseTime == refTime
                && error == old(error)
      ensures !outcome.Succeeded? ==>
                && messages == old(messages)
                && lastModeratorResponseTime == old(lastModeratorResponseTime)
                && error == Some(ErrorText(outcome))
    {
      if outcome.Succeeded? {
        AppendWellFormed(messages, Message(AssistantRole, outcome.response, stampTime));
        messages := messages + [Message(AssistantRole, outcome.response, stampTime)];
        lastModeratorResponseTime := refTime;
      } else {
        error := Some(ErrorText(outcome));
      }
      isLoading := false;
    }

    /**
     * One firing of the interval. It consults neither `isLoading` nor
     * whether an attempt is in flight: only the timer being active and the
     * timing rule.
     */
    method Tick(now: int) returns (request: Option<ChatRequest>)
      requires Valid()
      modifies this`isLoading, this`error
      ensures Valid()
      ensures request.Some? <==> TimerActive() && TickFires(now, lastModeratorResponseTime, isHighRate, |messages|)
      ensures request.Some? ==>
                && request.value == ChatRequest(messages, RateName(isHighRate), topic.value)
                && PageRequest(request.value)
                && isLoading && error == None
      ensures request.None? ==> isLoading == old(isLoading) && error == old(error)
    {
      request := None;
      if TimerActive() && TickFires(now, lastModeratorResponseTime, isHighRate, |messages|) {
        request := BeginAttempt(messages);
      }
    }

    /** `handleManualTrigger`: starts an attempt unless one is loading, the log is empty or no topic is set. */
    method ManualTrigger() returns (request: Option<ChatRequest>)
      requires Valid()
      modifies this`isLoading, this`error
      ensures Valid()
      ensures request.Some? <==> !old(isLoading) && |messages| > 0 && Js.Truthy(topic)
      ensures request.Some? ==>
                && request.value == ChatRequest(messages, RateName(isHighRate), topic.value)
                && PageRequest(request.value)
                && isLoading && error == None
      ensures request.None? ==> isLoading == old(isLoading) && error == old(error)
    {
      request := None;
      if !isLoading && |messages| > 0 && Js.Truthy(topic) {
        request := BeginAttempt(messages);
      }
    }

    /**
     * `handleSubmit`: blank input (its `trim()` is empty, that is, it is all
     * whitespace) or no topic changes nothing. Otherwise the
     * input (untrimmed) is appended as a user message stamped `now` and
     * cleared; when the moderator is on and the log was empty before, a
     * bootstrap attempt starts, posting the log as it was BEFORE the append.
     */
    method Submit(now: int) returns (bootstrap: Option<ChatRequest>)
      requires Valid()
      modifies this`messages, this`input, this`isLoading, this`error
      ensures Valid()
      ensures Js.AllWhitespace(old(input)) || !Js.Truthy(topic) ==>
                && messages == old(messages) && input == old(input)
                && isLoading == old(isLoading) && error == old(error)
                && bootstrap == None
      ensures !Js.AllWhitespace(old(input)) && Js.Truthy(topic) ==>
                && messages == old(messages) + [Message(UserRole, old(input), now)]
                && input == ""
                && (bootstrap.Some? <==> isModeratorOn && old(messages) == [])
      ensures bootstrap.Some? ==>
                && bootstrap.value == ChatRequest(old(messages), RateName(isHighRate), topic.value)
                && PageRequest(bootstrap.value)
                && isLoading && error == None
      ensures bootstrap.None? ==> isLoading == old(isLoading) && error == old(error)
    {
      bootstrap := None;
      if Js.IsBlank(input) || !Js.Truthy(topic) {
        return;
      }
      var before, message := messages, Message(UserRole, input, now);
      AppendWellFormed(before, message);
      messages := before + [message];
      input := "";
      if isModeratorOn && |before| == 0 {
        bootstrap := BeginAttempt(before);
      }
    }
  }

  /**
   * Two ticks while an attempt is loading both start an attempt (the timer
   * never looks at `isLoading`), while a manual trigger in between is refused.
   */
  method OverlappingTicks(topic: string, text: string, submitTime: int, now: int)
    returns (first: Option<ChatRequest>, manual: Option<ChatRequest>, second: Option<ChatRequest>)
    requires TopicOk(topic) && !Js.AllWhitespace(text)
    requires now - submitTime >= LowRateIntervalMs && submitTime >= 0
    ensures first.Some? && second.Some? && first == second
    ensures manual.None?
  {
    var chat := new ModeratorChat();
    chat.TopicSet(topic);
    chat.SetInput(text);
    var bootstrap := chat.Submit(submitTime);
    chat.SetModeratorOn(true);
    first := chat.Tick(now);
    manual := chat.ManualTrigger();
    second := chat.Tick(now);
  }
}
