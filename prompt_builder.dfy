/** The prompt sent to the language model: the hospital's system
    instructions, a transcript of at most the last five caller-supplied
    history records, the new patient message, a directive when the message
    asks about symptoms or diseases, and the cue for the model to answer. */
module PromptBuilder {
  import opened Text
  import opened Slices

  /** One element of the caller-supplied `conversation_history` list: either
      a JSON object, whose values are held here by their `str()` rendering
      (which is what an f-string prints), or any other JSON value. */
  datatype Record = Dict(fields: map<string, string>) | NonDict

  /** The lines of the fixed instructions the service opens every prompt
      with (its `system_prompt` attribute, set once when it is constructed).
      The functions below take the instructions as a parameter, so that
      their proofs need not look inside this long text. */
  const SystemPromptLines: seq<string> := [
    "Bạn là chatbot hỗ trợ bệnh nhân tại bệnh viện. ",
    "",
    "QUY TẮC TRẢ LỜI:",
    "1. TRẢ LỜI TRỰC TIẾP vào câu hỏi trước, không lan man",
    "2. Trả lời NGẮN GỌN (2-4 câu), cụ thể và đúng trọng tâm",
    "3. Nếu không biết, nói thẳng \"Tôi không có thông tin về...\" thay vì giải thích dài",
    "4. Trả lời bằng tiếng Việt, thân thiện nhưng chuyên nghiệp",
    "",
    "THÔNG TIN BỆNH VIỆN MẪU:",
    "- Giờ làm việc: Thứ 2 - Thứ 6: 7h00 - 17h00, Thứ 7 - Chủ nhật: 7h00 - 12h00",
    "- Các khoa chính: Nội khoa, Ngoại khoa, Sản phụ khoa, Nhi khoa, Thần kinh, Tim mạch, Tai mũi họng, Mắt, Da liễu",
    "- Đặt lịch: Gọi hotline 1900-xxxx hoặc đăng ký online qua website",
    "- Quy trình khám: Đăng ký → Lấy số thứ tự → Khám bệnh → Thanh toán → Lấy thuốc (nếu có)",
    "",
    "VỀ TRIỆU CHỨNG VÀ BỆNH:",
    "Khi bệnh nhân hỏi \"triệu chứng này là bệnh gì\" hoặc \"dấu hiệu của bệnh gì\":",
    "1. PHẢI trả lời cụ thể về các khả năng bệnh có thể gây ra triệu chứng đó (2-4 khả năng phổ biến)",
    "2. Giải thích ngắn gọn tại sao các triệu chứng đó có thể liên quan đến các bệnh đó",
    "3. Gợi ý khoa cần khám",
    "4. Nhấn mạnh cần khám bác sĩ để chẩn đoán chính xác",
    "",
    "VÍ DỤ CÁCH TRẢ LỜI ĐÚNG:",
    "Người dùng: \"Tôi đau lưng, mệt mỏi, chán ăn, hay quên - đây là dấu hiệu bệnh gì?\"",
    "Chatbot: \"Các triệu chứng đau lưng, mệt mỏi, chán ăn và hay quên có thể liên quan đến một số khả năng:",
    "- Suy nhược cơ thể do thiếu dinh dưỡng hoặc căng thẳng kéo dài",
    "- Các vấn đề về cột sống (thoái hóa, thoát vị đĩa đệm)",
    "- Rối loạn chuyển hóa hoặc thiếu máu",
    "- Các vấn đề về thần kinh hoặc tuần hoàn máu não",
    "",
    "Bạn nên đến khám tại khoa Nội khoa tổng quát hoặc Thần kinh để được bác sĩ thăm khám, làm xét nghiệm và chẩn đoán chính xác. Bạn có muốn tôi hướng dẫn đặt lịch khám không?\"",
    "",
    "LƯU Ý: KHÔNG chỉ lặp lại triệu chứng, PHẢI giải thích các khả năng bệnh và hướng dẫn cụ thể.",
    "",
    "NHIỆM VỤ:",
    "- Trả lời câu hỏi về dịch vụ, giờ làm việc, quy trình khám bệnh",
    "- Hướng dẫn về các khoa phù hợp với triệu chứng",
    "- Cung cấp thông tin đặt lịch hẹn"
  ]

  /** `"\n".join(lines)`. */
  function JoinLines(lines: seq<string>): string
  {
    if |lines| == 0 then "" else if |lines| == 1 then lines[0] else lines[0] + "\n" + JoinLines(lines[1..])
  }

  /** The instructions as one text. */
  function SystemPrompt(): string
  {
    JoinLines(SystemPromptLines)
  }

  const TranscriptHeader: string := "=== CUỘC TRÒ CHUYỆN ===\n\n"
  const PatientLabel: string := "Bệnh nhân: "
  const BotLabel: string := "Chatbot: "

  /** How many of the most recent history records the prompt shows. */
  const WindowSize: int := 5

  /** Substrings of the lower-cased message that mark a question about
      symptoms or diseases ("bệnh gì" is listed twice in the service). */
  const SymptomKeywords: seq<string> :=
    ["triệu chứng", "dấu hiệu", "bệnh gì", "bệnh gì", "nguy cơ", "có thể", "là gì"]

  /** The extra instructions added for a symptom question. */
  const SymptomDirective: string :=
    "QUAN TRỌNG: Bệnh nhân đang hỏi về triệu chứng/bệnh. Bạn PHẢI:\n" +
    "1. Liệt kê 2-4 khả năng bệnh có thể gây ra các triệu chứng đó\n" +
    "2. Giải thích ngắn gọn tại sao\n" +
    "3. Gợi ý khoa cần khám\n" +
    "4. Nhấn mạnh cần khám bác sĩ\n" +
    "KHÔNG chỉ lặp lại triệu chứng!\n\n"

  /** What every prompt starts with. */
  function Preamble(systemPrompt: string): string
  {
    systemPrompt + "\n\n" + TranscriptHeader
  }

  /** `item.get("user", item.get("message", ""))`: the fallback is taken
      when the key is absent, whatever the value of a present key. */
  function UserText(fields: map<string, string>): string
  {
    if "user" in fields then fields["user"]
    else if "message" in fields then fields["message"]
    else ""
  }

  /** `item.get("bot", item.get("response", ""))`. */
  function BotText(fields: map<string, string>): string
  {
    if "bot" in fields then fields["bot"]
    else if "response" in fields then fields["response"]
    else ""
  }

  /** The two labelled lines a record contributes; a non-object record
      contributes nothing. */
  function RenderRecord(item: Record): string
  {
    match item
    case Dict(fields) => (PatientLabel + UserText(fields) + "\n") + (BotLabel + BotText(fields) + "\n\n")
    case NonDict => ""
  }

  /** The line that asks the new question. */
  function QuestionLine(message: string): string
  {
    PatientLabel + message + "\n\n"
  }

  /** The rendered records, in order. */
  function Transcript(items: seq<Record>): string
  {
    if |items| == 0 then "" else Transcript(items[..|items| - 1]) + RenderRecord(items[|items| - 1])
  }

  /** `history[-5:]`. */
  function Window(history: seq<Record>): seq<Record>
  {
    SliceFrom(history, -WindowSize)
  }

  /** `any(keyword in text for keyword in keywords)`, tried in order. */
  predicate AnyKeywordIn(text: string, keywords: seq<string>)
  {
    |keywords| > 0 && (Contains(text, keywords[0]) || AnyKeywordIn(text, keywords[1..]))
  }

  /** `any(keyword in user_message.lower() for keyword in symptom_keywords)`. */
  predicate IsSymptomQuestion(message: string)
  {
    AnyKeywordIn(Lower(message), SymptomKeywords)
  }

  function DirectiveFor(message: string): string
  {
    if IsSymptomQuestion(message) then SymptomDirective else ""
  }

  /** The prompt for `message` after the caller-supplied `history`. */
  function Prompt(systemPrompt: string, message: string, history: seq<Record>): string
  {
    Preamble(systemPrompt) + Transcript(Window(history)) + QuestionLine(message) + DirectiveFor(message) + BotLabel
  }

  /** `ChatbotService._format_conversation`: builds the prompt by appending
      to a string, one history record at a time. */
  method FormatConversation(systemPrompt: string, userMessage: string, history: seq<Record>)
    returns (conversation: string)
    ensures conversation == Prompt(systemPrompt, userMessage, history)
  {
    conversation := systemPrompt + "\n\n";
    conversation := conversation + TranscriptHeader;
    ghost var preamble := conversation;
    if |history| > 0 {
      var window := SliceFrom(history, -5);
      for i := 0 to |window|
        invariant conversation == preamble + Transcript(window[..i])
      {
        var item := window[i];
        ghost var done := Transcript(window[..i]);
        assert window[..i + 1][..i] == window[..i];
        if item.Dict? {
          var userMsg := UserText(item.fields);
          var botMsg := BotText(item.fields);
          ghost var userLine, botLine := PatientLabel + userMsg + "\n", BotLabel + botMsg + "\n\n";
          conversation := conversation + (PatientLabel + userMsg + "\n");
          conversation := conversation + (BotLabel + botMsg + "\n\n");
          AppendAssoc(preamble + done, userLine, botLine);
          AppendAssoc(preamble, done, userLine + botLine);
        }
      }
      assert window[..|window|] == window;
    }
    assert conversation == Preamble(systemPrompt) + Transcript(Window(history));
    conversation := conversation + (PatientLabel + userMessage + "\n\n");
    if IsSymptomQuestion(userMessage) {
      conversation := conversation + SymptomDirective;
    } else {
      AppendNothing(conversation);
    }
    conversation := conversation + BotLabel;
  }

  lemma AppendNothing(a: string)
    ensures a == a + ""
  {
  }

  lemma AppendAssoc(a: string, b: string, c: string)
    ensures a + b + c == a + (b + c)
  {
  }

  /** Rendering a list of records is rendering each part in turn. */
  lemma {:induction false} TranscriptAppend(a: seq<Record>, b: seq<Record>)
    ensures Transcript(a + b) == Transcript(a) + Transcript(b)
  {
    if |b| == 0 {
      assert a + b == a;
    } else {
      var b', last := b[..|b| - 1], RenderRecord(b[|b| - 1]);
      assert (a + b)[..|a + b| - 1] == a + b';
      assert (a + b)[|a + b| - 1] == b[|b| - 1];
      assert Transcript(a + b) == Transcript(a + b') + last;
      TranscriptAppend(a, b');
      AppendAssoc(Transcript(a), Transcript(b'), last);
    }
  }

  /** A record that is not a JSON object is skipped: removing it from the
      history does not change the transcript. */
  lemma NonDictRecordSkipped(before: seq<Record>, after: seq<Record>)
    ensures Transcript(before + [NonDict] + after) == Transcript(before + after)
  {
    var skipped := Transcript([NonDict]);
    assert [NonDict][..0] == [];
    assert skipped == "";
    TranscriptAppend(before + [NonDict], after);
    TranscriptAppend(before, [NonDict]);
    assert Transcript(before + [NonDict]) == Transcript(before) + skipped;
    assert Transcript(before) + skipped == Transcript(before);
    TranscriptAppend(before, after);
  }

  /** Only the last five records reach the prompt: the prompt for a history
      is the prompt for its window, and records in front of five others
      never change it. */
  lemma PromptUsesOnlyWindow(systemPrompt: string, message: string, history: seq<Record>)
    ensures |Window(history)| == Min(WindowSize, |history|)
    ensures Window(history) == history[|history| - |Window(history)|..]
    ensures Prompt(systemPrompt, message, history) == Prompt(systemPrompt, message, Window(history))
  {
    var w := Window(history);
    if |history| > WindowSize {
      SliceFromIgnoresOlder(history[..|history| - WindowSize], w, WindowSize);
      assert history[..|history| - WindowSize] + w == history;
    }
    assert Window(w) == w;
  }

  lemma OlderRecordsIgnored(systemPrompt: string, message: string, older: seq<Record>, recent: seq<Record>)
    requires |recent| >= WindowSize
    ensures Prompt(systemPrompt, message, older + recent) == Prompt(systemPrompt, message, recent)
  {
    SliceFromIgnoresOlder(older, recent, WindowSize);
  }

  /** The symptom test is a case-insensitive substring match: it holds
      exactly when some keyword occurs somewhere in the lower-cased
      message. */
  lemma SymptomQuestionIff(message: string)
    ensures IsSymptomQuestion(message)
        <==> exists k, i :: k in SymptomKeywords && OccursAt(Lower(message), k, i)
  {
    AnyKeywordInIff(Lower(message), SymptomKeywords);
  }

  /** The symptom test ignores case: the keywords are already lower case,
      and a message matches exactly when its lower-cased form does. */
  lemma SymptomTestIgnoresCase(message: string)
    ensures forall k :: k in SymptomKeywords ==> Lower(k) == k
    ensures IsSymptomQuestion(Lower(message)) == IsSymptomQuestion(message)
  {
    forall k | k in SymptomKeywords ensures Lower(k) == k {
      assert forall i :: 0 <= i < |k| ==> LowerChar(k[i]) == k[i];
    }
    LowerIdempotent(message);
  }

  /** A message written in capitals is still recognised. */
  lemma UpperCaseQuestionExample()
    ensures IsSymptomQuestion("ĐÂY LÀ GÌ?")
  {
    var lowered := Lower("ĐÂY LÀ GÌ?");
    assert lowered == "đây là gì?";
    assert lowered[4..9] == "là gì";
    assert OccursAt(lowered, "là gì", 4);
    assert "là gì" in SymptomKeywords;
    AnyKeywordInIff(lowered, SymptomKeywords);
  }

  lemma {:induction false} AnyKeywordInIff(text: string, keywords: seq<string>)
    ensures AnyKeywordIn(text, keywords) <==> exists k, i :: k in keywords && OccursAt(text, k, i)
  {
    if |keywords| > 0 {
      ContainsIff(text, keywords[0]);
      AnyKeywordInIff(text, keywords[1..]);
      assert forall k :: k in keywords <==> k == keywords[0] || k in keywords[1..];
    }
  }

  /** Every prompt opens with the system instructions and the transcript
      header and ends with the cue for the model; the directive sits right
      before the cue for a symptom question, and otherwise the patient's
      message and a blank line do. */
  lemma PromptFrame(systemPrompt: string, message: string, history: seq<Record>)
    ensures var p := Prompt(systemPrompt, message, history);
      && p[..|Preamble(systemPrompt)|] == Preamble(systemPrompt)
      && EndsWith(p, BotLabel)
      && (IsSymptomQuestion(message) ==> EndsWith(p, SymptomDirective + BotLabel))
      && (!IsSymptomQuestion(message) ==> EndsWith(p, message + "\n\n" + BotLabel))
  {
    var pre, t := Preamble(systemPrompt), Transcript(Window(history));
    var d := DirectiveFor(message);
    assert Prompt(systemPrompt, message, history) == pre + t + (PatientLabel + message + "\n\n") + d + BotLabel;
    Frame(pre, t, PatientLabel, message, "\n\n", d, BotLabel);
  }

  /** The same framing for any five pieces `pre + t + (l + m + nl) + d + c`. */
  lemma Frame(pre: string, t: string, l: string, m: string, nl: string, d: string, c: string)
    ensures var p := pre + t + (l + m + nl) + d + c;
      && p[..|pre|] == pre
      && EndsWith(p, c)
      && EndsWith(p, d + c)
      && (d == "" ==> EndsWith(p, m + nl + c))
  {
    var q := l + m + nl;
    var a := pre + t;
    var b := a + q;
    var e := b + d;
    var p := e + c;
    assert a[..|pre|] == pre;
    PrefixKept(a, q, pre);
    PrefixKept(b, d, pre);
    PrefixKept(e, c, pre);
    EndsWithAppend(e, c);
    AppendAssoc(b, d, c);
    EndsWithAppend(b, d + c);
    if d == "" {
      AppendNothing(b);
      EndsWithAppend(l, m);
      EndsWithExtend(l + m, m, nl);
      EndsWithWithin(a, q, m + nl);
      EndsWithExtend(b, m + nl, c);
    }
  }

  lemma PrefixKept(x: string, y: string, pre: string)
    requires |pre| <= |x| && x[..|pre|] == pre
    ensures (x + y)[..|pre|] == pre
  {
    assert (x + y)[..|pre|] == x[..|pre|];
  }

  lemma EndsWithExtend(x: string, s: string, y: string)
    requires EndsWith(x, s)
    ensures EndsWith(x + y, s + y)
  {
    assert (x + y)[|x + y| - |s + y|..] == x[|x| - |s|..] + y;
  }

  lemma EndsWithWithin(x: string, y: string, s: string)
    requires EndsWith(y, s)
    ensures EndsWith(x + y, s)
  {
    assert (x + y)[|x + y| - |s|..] == y[|y| - |s|..];
  }

  predicate EndsWith(s: string, suffix: string)
  {
    |suffix| <= |s| && s[|s| - |suffix|..] == suffix
  }

  lemma EndsWithAppend(a: string, b: string)
    ensures EndsWith(a + b, b)
  {
    assert (a + b)[|a|..] == b;
  }
}
