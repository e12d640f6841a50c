# Hospital chatbot service — a Dafny model

This project models `ChatbotService`, the core of a hospital help-desk
chatbot backed by a Gemini language model. The service:

- builds a Vietnamese prompt from fixed instructions, the last five turns
  of the caller's conversation and the patient's new message;
- adds an extra directive when the message asks about symptoms or
  diseases;
- asks the model, and turns its reply into one plain-text answer (direct
  text, or the first candidate's parts, or a fallback apology);
- streams the answer as chunk events followed by one completion or error
  event;
- keeps each patient's exchanges in an in-memory history that callers read
  with a Python-style `[-limit:]` window;
- offers three fixed follow-up suggestions.

The language model is a parameter of the operations that call it. It is a
function from the prompt to a reply, or to a stream of chunks that may end
in a failure. The two readings of the clock are also parameters.

Files:

- `wrappers.dfy`: `Option` and `Result`.
- `slices.dfy`: Python's `s[start:]`.
- `text.dfy`: the string operations the service relies on. These are
  `''.join`, `str.strip` with Python's whitespace set, `str.lower` for the
  letters of Vietnamese text, and the substring test `in`.
- `prompt_builder.dfy`: `_format_conversation` as the method
  `FormatConversation`, which keeps the source's loop. It is proved equal
  to the specification function `Prompt`, and the prompt's properties are
  proved about `Prompt`.
- `response_assembler.dfy`: the reply normalisation of `get_response` as
  the method `Normalize`, which keeps the parts loop. It is proved equal to
  `NormalizeReply`.
- `stream_assembler.dfy`: the chunk loop of `get_stream_response` and the
  events it sends.
- `chatbot_service.dfy`: the `ChatbotService` class. Its field
  `chatHistory` is a map that the methods reassign. The module also holds
  the pure store functions `AppendTurn` and `ReadHistory` that the methods
  are proved against.

`FirstExchangeExample` in `chatbot_service.dfy` is a worked exchange. The
symptom question "tôi đau đầu, đây là dấu hiệu bệnh gì?" from patient "p1"
gets a non-empty answer with three suggestions. Afterwards, a read of "p1"
with the default limit of 50 returns exactly that exchange.

All paths below are relative to the repository root.

## Model

| member | source | states |
|---|---|---|
| PromptBuilder.FormatConversation | backend/services/chatbot_service.py:74-113 | The prompt built step by step equals `Prompt`: instructions and a blank line, the transcript header, the rendered last five history records, the patient's message line, the symptom directive when it applies, and the "Chatbot: " cue. |
| PromptBuilder.PromptFrame | backend/services/chatbot_service.py:86-111 | Every prompt starts with the instructions and header. It ends with the "Chatbot: " cue. For a symptom question the directive sits right before the cue; otherwise the patient's message and a blank line do. |
| PromptBuilder.PromptUsesOnlyWindow | backend/services/chatbot_service.py:89-91 | The window is the last `min(5, n)` records of the history, kept as a suffix in order, and the prompt built from the window equals the prompt built from the whole history. |
| PromptBuilder.OlderRecordsIgnored | backend/services/chatbot_service.py:90-91 | Records older than the last five have no effect on the prompt, whatever they are. |
| PromptBuilder.NonDictRecordSkipped | backend/services/chatbot_service.py:92-96 | A history record that is not a dict contributes nothing to the transcript; the records around it render as if it were absent. |
| PromptBuilder.TranscriptAppend | backend/services/chatbot_service.py:91-96 | The transcript of two runs of records is the first run's transcript followed by the second's. |
| PromptBuilder.SymptomQuestionIff | backend/services/chatbot_service.py:102-103 | A message is a symptom question exactly when one of the seven keywords occurs at some position of its lower-cased text. |
| PromptBuilder.AnyKeywordInIff | backend/services/chatbot_service.py:103 | The keyword scan succeeds exactly when some keyword of the list is a substring of the text. |
| ResponseAssembler.Normalize | backend/services/chatbot_service.py:154-173 | The normalisation loop over the first candidate's parts computes `NormalizeReply`. |
| ResponseAssembler.NormalizeNeverEmpty | backend/services/chatbot_service.py:172-173 | The answer is never empty. It is the fallback apology exactly when the chosen text is empty or is itself the apology text. |
| ResponseAssembler.DirectTextWins | backend/services/chatbot_service.py:154-155 | A non-empty direct text decides the answer whatever the candidates are: the answer is the text stripped, or the apology when the text is all whitespace. |
| ResponseAssembler.FirstCandidateDecides | backend/services/chatbot_service.py:156-166 | Without a usable direct text, only the first candidate counts. When it has parts, the answer is the joined part texts stripped, or the apology when they are all whitespace. |
| ResponseAssembler.PartTextsJoin | backend/services/chatbot_service.py:162-166 | Skipping the parts with no or empty text does not change the joined text. |
| ResponseAssembler.StrippedAnswerIsTrimmed | backend/services/chatbot_service.py:154-166 | An answer taken from a direct text, or from the first candidate's parts, is the apology or a slice of that text (or of the joined part texts) with only whitespace removed at either end, which neither starts nor ends with whitespace. |
| StreamAssembler.StreamChunks | backend/services/chatbot_service.py:237-244 | The chunk loop emits one event per non-empty chunk, in order, and accumulates the join of all chunks as the full response. |
| StreamAssembler.ChunkEventsAppend | backend/services/chatbot_service.py:238-244 | The events for two runs of chunks are the first run's events followed by the second's. |
| StreamAssembler.ChunkEventsSingle | backend/services/chatbot_service.py:239-244 | An empty chunk sends nothing; any other chunk sends one event carrying its text. |
| StreamAssembler.ChunkEventsAreChunks | backend/services/chatbot_service.py:238-244 | Every event of the chunk loop is a `done: false` event with non-empty text. |
| StreamAssembler.ChunkEventsJoin | backend/services/chatbot_service.py:237-244 | The texts sent as chunk events join to the same text as the full response. |
| StreamAssembler.StreamShape | backend/services/chatbot_service.py:237-268 | A stream has exactly one `done: true` event, and it is the last. On success it is the completion event carrying the join of the chunk texts sent before it. On failure it is the error event with the prefixed message. |
| StreamAssembler.TwoChunkExample | backend/services/chatbot_service.py:237-262 | A reply streamed as "Xin " and "chào" sends two chunk events and a completion event with "Xin chào". |
| Service.AppendTurn | backend/services/chatbot_service.py:176-184 | Appending adds the patient's id to the keys and puts the turn at the end of that patient's list, creating the list on first use. Every other patient's list is unchanged. |
| Service.ReadHistory | backend/services/chatbot_service.py:310-323 | An unknown patient reads as empty. A known one yields as many items as `turns[-limit:]` has, each built from the matching turn of the list's tail, in stored order, with the patient's id. |
| Service.ReadHistoryLength | backend/services/chatbot_service.py:313 | A limit of at least one reads `min(limit, n)` items. A limit of zero reads all `n`. A negative limit reads `n - min(-limit, n)`. |
| Service.ReadAfterAppend | backend/services/chatbot_service.py:310-323 | After an append, a read with limit `k >= 1` ends with the new turn, preceded by what a read with `k - 1` gave before. A limit of one gives the new turn alone. |
| Service.AppendLeavesOthers | backend/services/chatbot_service.py:176-184 | Appending a turn for one patient changes no read for any other patient. |
| Service.ChatbotService.constructor | backend/services/chatbot_service.py:32-72 | A new service holds the fixed instructions and an empty history. |
| Service.ChatbotService.SaveTurn | backend/services/chatbot_service.py:176-184 | The history becomes `StoreAfter` of the old one. The turn is appended only when the patient id is present and non-empty. |
| Service.ChatbotService.GetResponse | backend/services/chatbot_service.py:115-197 | The model is asked with `Prompt` of the message and the history (none counts as empty). A model error yields the prefixed error and leaves the history as it was. Otherwise the result carries the normalised answer, the patient id, the response time and the three suggestions, and the history gains the turn when the id is truthy. |
| Service.ChatbotService.GetStreamResponse | backend/services/chatbot_service.py:199-268 | The events are `StreamEvents` of what the model streams for `Prompt`. The turn, with the joined chunks as the answer, is stored only when the stream completes and the id is truthy; a failed stream leaves the history as it was. |
| Service.ChatbotService.GenerateSuggestions | backend/services/chatbot_service.py:270-293 | Exactly three suggestions: the first three default questions, in order, whatever the message and answer. |
| Service.ChatbotService.GetChatHistory | backend/services/chatbot_service.py:295-323 | Reads the store as `ReadHistory` does, with a limit that defaults to 50, changing nothing. |
| Slices.SliceFrom | backend/services/chatbot_service.py:313 | `s[start:]` is a suffix of `s`. A negative start keeps `min(-start, n)` elements; any other start drops `min(start, n)`. |
| Slices.SliceFromIgnoresOlder | backend/services/chatbot_service.py:91 | `(older + recent)[-k:]` equals `recent[-k:]` when `recent` has at least `k` elements. |
| Text.StripIsTrimmedSlice | backend/services/chatbot_service.py:155 | `s.strip()` is the slice of `s` between its leading and trailing whitespace, and does not itself start or end with whitespace. |
| Text.StripEmptyIff | backend/services/chatbot_service.py:172 | `s.strip()` is empty exactly when `s` is all whitespace. |
| Text.ContainsIff | backend/services/chatbot_service.py:103 | `key in s` holds exactly when `key` occurs at some index of `s`. |
| Text.ConcatAppend | backend/services/chatbot_service.py:166 | Joining two lists of strings gives the first list's join followed by the second's. |
| PromptBuilder.SymptomTestIgnoresCase | backend/services/chatbot_service.py:102-103 | The test ignores case: every keyword is already lower case, and a message is a symptom question exactly when its lower-cased form is. |
| PromptBuilder.UpperCaseQuestionExample | backend/services/chatbot_service.py:102-103 | "ĐÂY LÀ GÌ?", written in capitals, is recognised as a symptom question. |
| Text.LowerIdempotent | backend/services/chatbot_service.py:103 | Lower-casing twice gives the same text as lower-casing once. |

## Left out

- Model selection at construction (`chatbot_service.py:20-30`), with its fallback chain over three model names: configuring the client library is outside the model, so the model is a parameter of each call.
- The generation configuration (temperature, top_p, top_k, max_output_tokens): it only shapes what the external model returns.
- The calls to the external model: `GetResponse` takes the reply as a function of the prompt, and `GetStreamResponse` takes the chunk texts and an optional failure.
- Exceptions raised while reading the reply (for example a `text` accessor that raises) are covered only as the model's `Failure` or the stream's failure.
- `datetime.now`, `isoformat` and `fromisoformat`: an `Instant` is held as its ISO text, and the two clock readings of `get_response` are parameters.
- `str(candidate)` and `str(response)`: they are fields of the reply holding their rendering.
- Non-string values of caller history records: a value is held as its `str()` rendering.
- JSON encoding and the HTTP and SSE framing of the events: the events are a datatype.
- `async`, generators and concurrent requests: each operation runs to completion on its own.
- Text.Lower: covers ASCII, Latin-1 and the letters of Vietnamese (Ă Đ Ĩ Ũ Ơ Ư and U+1EA0..U+1EF9), not the whole Unicode case mapping, because the keywords and the messages are Vietnamese.
- The HTTP endpoints, configuration loading and the pydantic request and response models (`main.py`, `config.py`, `models/`) are not part of this model.
- Behaviour modelled as the code does it, although a reader might expect otherwise:
  - the `str()` renderings are not stripped;
  - the stream stores its joined text even when it is empty, with no fallback apology;
  - a history read with limit 0 returns the whole list, and a negative limit drops the first `-limit` turns, although the docstring at `chatbot_service.py:305` calls `limit` the maximum number of messages;
  - the history fields fall back to the alternate name only when the key is missing, not when its value is empty.
