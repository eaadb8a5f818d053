/** The farming chat: sending a message appends it with a "Thinking..." placeholder, asks
    the chat model with the recent conversation and a fixed farm context, then replaces
    the placeholder by exactly one reply. */
module ChatBot {
  import opened Outcomes
  import opened Text
  import opened Seqs
  import opened BedrockService

  datatype MessageType = Info | Warning | Success | Tip

  /** A message of the chat; its id and timestamp are left out. */
  datatype Message = Message(role: Role, content: string, kind: Option<MessageType>, isLoading: bool)

  const Greeting := "Hello! I'm AgriAI, powered by Amazon Bedrock's Claude AI. I can help you with crop recommendations, pest identification, weather insights, and farming best practices. What would you like to know?"
  const ThinkingText := "Thinking..."
  const WarningReply := "I apologize, but I'm having trouble connecting to the AI service right now. Please check your AWS configuration and try again."
  const FarmContext := "\n        Current farm status:\n        - Location: Temperate climate zone\n        - Soil type: Loamy soil, pH 6.8\n        - Current crops: Tomatoes (2.5ha), Wheat (5.0ha), Corn (3.2ha)\n        - Season: Summer growing season\n        - Recent weather: 24\U{00C2}\U{00B0}C average, 68% soil moisture\n        - IoT sensors: 12 active sensors monitoring soil and weather\n      "
  const HistoryLength := 5

  /** The guard of the handler: something to send, and no reply pending. */
  predicate CanSend(inputText: string, isTyping: bool) {
    Trim(inputText) != "" && !isTyping
  }

  /** Sending is refused exactly when the input is all whitespace or a reply is pending. */
  lemma CanSendCases(inputText: string, isTyping: bool)
    ensures !CanSend(inputText, isTyping) <==>
              isTyping || forall i :: 0 <= i < |inputText| ==> IsJsWhitespace(inputText[i])
  {
    TrimBlank(inputText);
  }

  /** The history keeps every message but an assistant's placeholder. */
  predicate KeptForContext(m: Message) {
    m.role != Assistant || !m.isLoading
  }

  function AsTurn(m: Message): ChatMessage {
    ChatMessage(m.role, m.content)
  }

  /** The conversation sent to the model: the last five kept messages as turns, then the
      text being sent as a user turn. */
  function ContextWindow(messages: seq<Message>, inputText: string): seq<ChatMessage> {
    Map(AsTurn, TakeLast(Filter(KeptForContext, messages), HistoryLength)) + [ChatMessage(User, inputText)]
  }

  /** The window holds at most six turns and ends with the text being sent; the turns
      before it are the most recent kept messages, at most five, in their order. */
  lemma ContextWindowShape(messages: seq<Message>, inputText: string)
    ensures var w, kept := ContextWindow(messages, inputText), Filter(KeptForContext, messages);
            && |w| == Min(HistoryLength, |kept|) + 1 && |w| <= 6
            && w[|w| - 1] == ChatMessage(User, inputText)
            && forall i :: 0 <= i < |w| - 1 ==> w[i] == AsTurn(kept[|kept| - (|w| - 1) + i])
  {
    var kept := Filter(KeptForContext, messages);
    TakeLastIsSuffix(kept, HistoryLength);
  }

  /** The messages the window draws on are an order-preserving selection of the chat
      without the assistant's placeholders, and every message is drawn on when at most
      five are kept. */
  lemma ContextWindowSource(messages: seq<Message>, inputText: string)
    ensures var kept := Filter(KeptForContext, messages);
            && IsSubsequence(kept, messages)
            && (forall i :: 0 <= i < |kept| ==> KeptForContext(kept[i]))
            && (forall i :: 0 <= i < |messages| && KeptForContext(messages[i]) ==> messages[i] in kept)
            && (|kept| <= HistoryLength ==>
                  ContextWindow(messages, inputText) == Map(AsTurn, kept) + [ChatMessage(User, inputText)])
  {
    FilterIsSubsequence(KeptForContext, messages);
  }

  predicate NotLoading(m: Message) {
    !m.isLoading
  }

  /** The reply that replaces the placeholder. */
  function ReplyFor(outcome: Settled<string>): Message {
    match outcome
    case Fulfilled(response) => Message(Assistant, response, Some(Info), false)
    case Rejected(_) => Message(Assistant, WarningReply, Some(Warning), false)
  }

  /** The list after the call: every placeholder removed, one reply appended. */
  function Settle(messages: seq<Message>, outcome: Settled<string>): seq<Message> {
    Filter(NotLoading, messages) + [ReplyFor(outcome)]
  }

  /** Settling a list that grew by the user's message and a placeholder keeps the older
      messages that were not placeholders, in order, then the user's message, then exactly
      one assistant reply: the answer as `info`, or the fixed warning as `warning`. */
  lemma SettleAfterSend(messages: seq<Message>, user: Message, loading: Message, outcome: Settled<string>)
    requires !user.isLoading && loading.isLoading
    ensures var after := Settle(messages + [user, loading], outcome);
            && after == Filter(NotLoading, messages) + [user, ReplyFor(outcome)]
            && (forall i :: 0 <= i < |after| ==> !after[i].isLoading)
            && IsSubsequence(Filter(NotLoading, messages), messages)
            && after[|after| - 1].role == Assistant
            && (outcome.Fulfilled? ==> after[|after| - 1] == Message(Assistant, outcome.value, Some(Info), false))
            && (outcome.Rejected? ==> after[|after| - 1] == Message(Assistant, WarningReply, Some(Warning), false))
  {
    FilterAppend(NotLoading, messages, [user, loading]);
    assert Filter(NotLoading, [user, loading]) == [user];
    FilterIsSubsequence(NotLoading, messages);
    var after := Settle(messages + [user, loading], outcome);
    forall i | 0 <= i < |after| ensures !after[i].isLoading {
      if i < |after| - 1 {
        assert after[i] in Filter(NotLoading, messages + [user, loading]);
      }
    }
  }

  /** With the real chat wrapper the warning is never shown: a failing model still
      settles as an `info` reply, whose text is the wrapper's own apology. */
  lemma NoWarningWithRealService(history: seq<ChatMessage>, context: Option<string>, model: ClaudeInvoker)
    ensures ReplyFor(Fulfilled(ChatWithClaude(history, context, model))).kind == Some(Info)
    ensures model(ChatRequest(history, context)).Rejected? ==>
              ReplyFor(Fulfilled(ChatWithClaude(history, context, model))).content == ChatApology
  {
  }

  /** What the handler writes and asks, in order. */
  datatype Event =
    | MessagesSet(messages: seq<Message>)
    | InputSet(text: string)
    | TypingSet(value: bool)
    | AskedModel(history: seq<ChatMessage>, context: Option<string>)

  /** The chat's state. */
  class ChatSession {
    var messages: seq<Message>
    var inputText: string
    var isTyping: bool
    /** The writes and calls the handler has made, oldest first. */
    ghost var events: seq<Event>

    constructor()
      ensures messages == [Message(Assistant, Greeting, Some(Info), false)]
      ensures inputText == "" && !isTyping && events == []
    {
      messages := [Message(Assistant, Greeting, Some(Info), false)];
      inputText := "";
      isTyping := false;
      events := [];
    }

    /** `handleSendMessage`. When the guard refuses, nothing changes. Otherwise the
        user's message and then a placeholder are appended, the input is cleared and the
        typing flag raised; the model is asked with the window over the messages as they
        were before those appends (the handler's closure sees the state of its render);
        then the placeholder gives way to the reply, and the flag goes down. `ask` stands
        for the chat wrapper. */
    method HandleSendMessage(ask: (seq<ChatMessage>, Option<string>) -> Settled<string>)
      modifies this
      ensures !CanSend(old(inputText), old(isTyping)) ==>
                messages == old(messages) && inputText == old(inputText)
                && isTyping == old(isTyping) && events == old(events)
      ensures CanSend(old(inputText), old(isTyping)) ==>
                var user := Message(User, old(inputText), None, false);
                var loading := Message(Assistant, ThinkingText, None, true);
                var history := ContextWindow(old(messages), old(inputText));
                && messages == Settle(old(messages) + [user, loading], ask(history, Some(FarmContext)))
                && inputText == "" && !isTyping
                && events == old(events) + [MessagesSet(old(messages) + [user]), InputSet(""), TypingSet(true),
                                            MessagesSet(old(messages) + [user, loading]),
                                            AskedModel(history, Some(FarmContext)),
                                            MessagesSet(messages), TypingSet(false)]
    {
      if Trim(inputText) == "" || isTyping {
        return;
      }
      // the render's values, which the closures below see
      var rendered, submitted := messages, inputText;
      ghost var log := events;

      var userMessage := Message(User, submitted, None, false);
      messages := messages + [userMessage];
      log := log + [MessagesSet(messages)];
      inputText := "";
      log := log + [InputSet("")];
      isTyping := true;
      log := log + [TypingSet(true)];

      var loadingMessage := Message(Assistant, ThinkingText, None, true);
      messages := messages + [loadingMessage];
      assert messages == rendered + [userMessage, loadingMessage];
      log := log + [MessagesSet(messages)];

      var conversationHistory := Map(AsTurn, TakeLast(Filter(KeptForContext, rendered), HistoryLength));
      conversationHistory := conversationHistory + [ChatMessage(User, submitted)];
      assert conversationHistory == ContextWindow(rendered, submitted);
      var response := ask(conversationHistory, Some(FarmContext));
      log := log + [AskedModel(conversationHistory, Some(FarmContext))];

      var filtered := Filter(NotLoading, messages);
      match response {
        case Fulfilled(text) =>
          messages := filtered + [Message(Assistant, text, Some(Info), false)];
          assert messages == Settle(rendered + [userMessage, loadingMessage], response);
        case Rejected(_) =>
          messages := filtered + [Message(Assistant, WarningReply, Some(Warning), false)];
          assert messages == Settle(rendered + [userMessage, loadingMessage], response);
      }
      log := log + [MessagesSet(messages)];
      isTyping := false;
      log := log + [TypingSet(false)];
      events := log;
    }
  }
}
