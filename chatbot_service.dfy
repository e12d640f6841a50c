/** `ChatbotService`: answers a patient's message with the language model's
    reply, streams it as events, and keeps each patient's exchanges in an
    in-memory history. The model itself is a parameter: the reply, or the
    stream of chunks, it gives for the prompt. */
module Service {
  import opened Wrappers
  import opened Text
  import opened Slices
  import opened PromptBuilder
  import opened ResponseAssembler
  import opened StreamAssembler

  /** A point in time, held as its ISO 8601 text (`datetime.isoformat()`). */
  datatype Instant = Instant(iso: string)

  /** One stored exchange: `{"user": ..., "bot": ..., "timestamp": ...}`. */
  datatype Turn = Turn(user: string, bot: string, timestamp: Instant)

  /** An entry of the history the service hands out. */
  datatype ChatHistoryItem = ChatHistoryItem(message: string, response: string, timestamp: Instant, patientId: Option<string>)

  /** The answer to a chat request. */
  datatype ChatResponse = ChatResponse(response: string, patientId: Option<string>, timestamp: Instant, suggestions: Option<seq<string>>)

  /** The history store: each patient's turns, oldest first. */
  type Store = map<string, seq<Turn>>

  const ApiErrorPrefix: string := "Lỗi khi gọi Gemini API: "

  /** The follow-up questions offered after every answer, of which the
      first three are used. */
  const DefaultSuggestions: seq<string> := [
    "Giờ làm việc của bệnh viện là gì?",
    "Tôi cần đặt lịch hẹn khám như thế nào?",
    "Các khoa nào đang hoạt động?",
    "Tôi cần mang theo gì khi đến khám?"
  ]

  /** `if patient_id:`, false for `None` and for the empty string. */
  predicate IsTruthy(patientId: Option<string>)
  {
    patientId.Some? && patientId.value != ""
  }

  /** `conversation_history or []`. */
  function HistoryOrEmpty(history: Option<seq<Record>>): seq<Record>
  {
    match history
    case None => []
    case Some(records) => records
  }

  /** A patient's turns, none when the patient is unknown. */
  function TurnsOf(store: Store, patientId: string): seq<Turn>
  {
    if patientId in store then store[patientId] else []
  }

  /** The store after `turn` is appended to `patientId`'s list, the list
      being created on first use. */
  function AppendTurn(store: Store, patientId: string, turn: Turn): (after: Store)
    ensures after.Keys == store.Keys + {patientId}
    ensures TurnsOf(after, patientId) == TurnsOf(store, patientId) + [turn]
    ensures forall p :: p != patientId ==> TurnsOf(after, p) == TurnsOf(store, p)
  {
    store[patientId := TurnsOf(store, patientId) + [turn]]
  }

  /** The store after an exchange: the turn is kept only for a truthy id. */
  function StoreAfter(store: Store, patientId: Option<string>, turn: Turn): Store
  {
    if IsTruthy(patientId) then AppendTurn(store, patientId.value, turn) else store
  }

  function ToItem(turn: Turn, patientId: string): ChatHistoryItem
  {
    ChatHistoryItem(turn.user, turn.bot, turn.timestamp, Some(patientId))
  }

  /** What `get_chat_history(patient_id, limit)` returns: nothing for an
      unknown patient, otherwise the items for `turns[-limit:]`, which are
      the last turns of the list in their stored order. */
  function ReadHistory(store: Store, patientId: string, limit: int): (items: seq<ChatHistoryItem>)
    ensures patientId !in store ==> items == []
    ensures patientId in store ==>
      var turns := store[patientId];
      && |items| == |SliceFrom(turns, -limit)|
      && forall i :: 0 <= i < |items| ==> items[i] == ToItem(turns[|turns| - |items| + i], patientId)
  {
    if patientId !in store then []
    else
      var turns := SliceFrom(store[patientId], -limit);
      seq(|turns|, i requires 0 <= i < |turns| => ToItem(turns[i], patientId))
  }

  class ChatbotService {
    /** The instructions every prompt opens with. */
    const systemPrompt: string
    /** `chat_history`: patient id to that patient's turns. */
    var chatHistory: Store

    /** The model selection and API configuration are not modelled. */
    constructor ()
      ensures systemPrompt == SystemPrompt() && chatHistory == map[]
    {
      systemPrompt := SystemPrompt();
      chatHistory := map[];
    }

    /** The history update shared by `get_response` and
        `get_stream_response`. */
    method SaveTurn(patientId: Option<string>, userMessage: string, botResponse: string, at: Instant)
      modifies this
      ensures chatHistory == StoreAfter(old(chatHistory), patientId, Turn(userMessage, botResponse, at))
    {
      if patientId.Some? && patientId.value != "" {
        var id := patientId.value;
        if id !in chatHistory {
          chatHistory := chatHistory[id := []];
        }
        chatHistory := chatHistory[id := chatHistory[id] + [Turn(userMessage, botResponse, at)]];
      }
    }

    /** `get_response`: builds the prompt from the caller's history, asks
        the model, normalises its reply, records the turn and adds the
        suggestions; an error from the model is reported with a prefix and
        leaves the history as it was. `savedAt` and `respondedAt` are the
        two readings of the clock. */
    method GetResponse(userMessage: string, patientId: Option<string>, conversationHistory: Option<seq<Record>>,
                       model: string -> Result<Reply, string>, savedAt: Instant, respondedAt: Instant)
      returns (result: Result<ChatResponse, string>)
      modifies this
      ensures match model(Prompt(systemPrompt, userMessage, HistoryOrEmpty(conversationHistory)))
        case Failure(e) =>
          && result == Failure(ApiErrorPrefix + e)
          && chatHistory == old(chatHistory)
        case Success(reply) =>
          && result == Success(ChatResponse(NormalizeReply(reply), patientId, respondedAt,
                                            Some(GenerateSuggestions(userMessage, NormalizeReply(reply)))))
          && chatHistory == StoreAfter(old(chatHistory), patientId, Turn(userMessage, NormalizeReply(reply), savedAt))
    {
      var prompt := FormatConversation(systemPrompt, userMessage, HistoryOrEmpty(conversationHistory));
      var response := model(prompt);
      if response.Failure? {
        return Failure(ApiErrorPrefix + response.error);
      }
      var botResponse := Normalize(response.value);
      SaveTurn(patientId, userMessage, botResponse, savedAt);
      var suggestions := GenerateSuggestions(userMessage, botResponse);
      result := Success(ChatResponse(botResponse, patientId, respondedAt, Some(suggestions)));
    }

    /** `get_stream_response`: sends an event per non-empty chunk; when the
        stream completes, records the turn with the joined chunks and sends
        the completion event; when it fails, sends the error event and
        records nothing. */
    method GetStreamResponse(userMessage: string, patientId: Option<string>, conversationHistory: Option<seq<Record>>,
                             model: string -> Upstream, savedAt: Instant)
      returns (events: seq<Event>)
      modifies this
      ensures var upstream := model(Prompt(systemPrompt, userMessage, HistoryOrEmpty(conversationHistory)));
        && events == StreamEvents(upstream)
        && chatHistory == if upstream.failure.None?
                          then StoreAfter(old(chatHistory), patientId, Turn(userMessage, Concat(upstream.chunks), savedAt))
                          else old(chatHistory)
    {
      var prompt := FormatConversation(systemPrompt, userMessage, HistoryOrEmpty(conversationHistory));
      var upstream := model(prompt);
      var fullResponse;
      events, fullResponse := StreamChunks(upstream.chunks);
      if upstream.failure.Some? {
        events := events + [Error(StreamErrorPrefix + upstream.failure.value)];
        return;
      }
      SaveTurn(patientId, userMessage, fullResponse, savedAt);
      events := events + [Done(fullResponse)];
    }

    /** `_generate_suggestions`: the first three default questions, whatever
        the message and the answer. */
    function GenerateSuggestions(userMessage: string, botResponse: string): (suggestions: seq<string>)
      ensures |suggestions| == 3
      ensures forall i :: 0 <= i < 3 ==> suggestions[i] == DefaultSuggestions[i]
    {
      DefaultSuggestions[..3]
    }

    /** `get_chat_history`, whose limit defaults to 50; it reads the store
        and changes nothing. */
    method GetChatHistory(patientId: string, limit: int := 50) returns (items: seq<ChatHistoryItem>)
      ensures items == ReadHistory(chatHistory, patientId, limit)
    {
      if patientId !in chatHistory {
        return [];
      }
      var history := SliceFrom(chatHistory[patientId], -limit);
      items := seq(|history|, i requires 0 <= i < |history| => ToItem(history[i], patientId));
    }
  }

  /** For a limit of at least one the read gives the last `min(limit, n)`
      turns; a limit of zero gives all of them, and a negative limit drops
      the first `-limit` turns. */
  lemma ReadHistoryLength(store: Store, patientId: string, limit: int)
    requires patientId in store
    ensures var n, items := |store[patientId]|, ReadHistory(store, patientId, limit);
      && (limit >= 1 ==> |items| == Min(limit, n))
      && (limit == 0 ==> |items| == n)
      && (limit < 0 ==> |items| == n - Min(-limit, n))
  {
  }

  /** Appending a turn and reading with a limit of at least one gives the
      new turn last, after what a read with one less would have given
      before; a limit of one gives the new turn alone (a limit of zero would
      give the whole list, so that case is separate). */
  lemma ReadAfterAppend(store: Store, patientId: string, turn: Turn, limit: int)
    requires limit >= 1
    ensures ReadHistory(AppendTurn(store, patientId, turn), patientId, limit)
         == (if limit == 1 then [] else ReadHistory(store, patientId, limit - 1)) + [ToItem(turn, patientId)]
  {
    var after := AppendTurn(store, patientId, turn);
    var turns := TurnsOf(store, patientId);
    var items := ReadHistory(after, patientId, limit);
    var expected := (if limit == 1 then [] else ReadHistory(store, patientId, limit - 1)) + [ToItem(turn, patientId)];
    assert after[patientId] == turns + [turn];
    assert |items| == Min(limit, |turns| + 1);
    if limit > 1 && patientId in store {
      assert |ReadHistory(store, patientId, limit - 1)| == Min(limit - 1, |turns|);
    }
    assert |items| == |expected|;
    forall i | 0 <= i < |items| ensures items[i] == expected[i] {
      var n := |turns| + 1;
      assert items[i] == ToItem((turns + [turn])[n - |items| + i], patientId);
    }
  }

  /** Appending for one patient leaves every other patient's reads as they
      were. */
  lemma AppendLeavesOthers(store: Store, patientId: string, turn: Turn, other: string, limit: int)
    requires other != patientId
    ensures ReadHistory(AppendTurn(store, patientId, turn), other, limit) == ReadHistory(store, other, limit)
  {
    var after := AppendTurn(store, patientId, turn);
    assert other in after <==> other in store;
    if other in store {
      assert TurnsOf(after, other) == TurnsOf(store, other);
    }
  }

  /** A service fed a reply for a first message from patient "p1" answers
      with non-empty text and three suggestions, and then holds exactly that
      one exchange for "p1". */
  method FirstExchangeExample(service: ChatbotService, reply: Reply, savedAt: Instant, respondedAt: Instant)
    requires service.chatHistory == map[]
    modifies service
  {
    var message := "tôi đau đầu, đây là dấu hiệu bệnh gì?";
    var result := service.GetResponse(message, Some("p1"), None, _ => Success(reply), savedAt, respondedAt);
    var answer := NormalizeReply(reply);
    NormalizeNeverEmpty(reply);
    assert result == Success(ChatResponse(answer, Some("p1"), respondedAt, Some(service.GenerateSuggestions(message, answer))));
    assert result.value.response != "";
    assert |result.value.suggestions.value| == 3;
    var turn := Turn(message, answer, savedAt);
    assert service.chatHistory == AppendTurn(map[], "p1", turn);
    ReadAfterAppend(map[], "p1", turn, 50);
    var history := service.GetChatHistory("p1");
    assert history == [ToItem(turn, "p1")];
  }
}
