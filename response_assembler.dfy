/** Turning the language model's reply into one plain-text answer. */
module ResponseAssembler {
  import opened Wrappers
  import opened Text

  /** A content part of a candidate; `text` is `None` when the part has no
      `text` attribute. */
  datatype Part = Part(text: Option<string>)

  /** One candidate answer: `parts` is `None` when the candidate has no
      `content` or its content has no `parts`; `rendering` is `str(candidate)`. */
  datatype Candidate = Candidate(parts: Option<seq<Part>>, rendering: string)

  /** The reply object: its `text` attribute, its `candidates` attribute
      (each `None` when absent) and `str(response)`. */
  datatype Reply = Reply(text: Option<string>, candidates: Option<seq<Candidate>>, rendering: string)

  /** The answer given when the reply yields no text. */
  const Fallback: string := "Xin lỗi, tôi không thể tạo phản hồi. Vui lòng thử lại."

  /** `hasattr(part, 'text') and part.text`. */
  predicate HasText(part: Part)
  {
    part.text.Some? && part.text.value != ""
  }

  /** The texts of the parts that have one, in order (`parts_text`). */
  function PartTexts(parts: seq<Part>): seq<string>
  {
    if |parts| == 0 then []
    else PartTexts(parts[..|parts| - 1]) + (if HasText(parts[|parts| - 1]) then [parts[|parts| - 1].text.value] else [])
  }

  /** What the priority order picks before the fallback: a non-empty direct
      text, stripped; otherwise the first candidate's joined part texts,
      stripped, or its rendering when it has no parts; otherwise the
      rendering of the whole reply. */
  function ChosenText(reply: Reply): string
  {
    if reply.text.Some? && reply.text.value != "" then
      Strip(reply.text.value)
    else if reply.candidates.Some? && |reply.candidates.value| > 0 then
      var candidate := reply.candidates.value[0];
      if candidate.parts.Some? then Strip(Concat(PartTexts(candidate.parts.value)))
      else candidate.rendering
    else
      reply.rendering
  }

  /** The answer for a reply: the chosen text, or the fallback when it is empty. */
  function NormalizeReply(reply: Reply): string
  {
    var chosen := ChosenText(reply);
    if chosen == "" then Fallback else chosen
  }

  /** The normalisation block of `ChatbotService.get_response`, with its loop
      that collects the texts of the first candidate's parts. */
  method Normalize(response: Reply) returns (botResponse: string)
    ensures botResponse == NormalizeReply(response)
  {
    if response.text.Some? && response.text.value != "" {
      botResponse := Strip(response.text.value);
    } else if response.candidates.Some? && |response.candidates.value| > 0 {
      var candidate := response.candidates.value[0];
      if candidate.parts.Some? {
        var parts := candidate.parts.value;
        var partsText: seq<string> := [];
        for i := 0 to |parts|
          invariant partsText == PartTexts(parts[..i])
        {
          assert parts[..i + 1][..i] == parts[..i];
          var part := parts[i];
          if part.text.Some? && part.text.value != "" {
            partsText := partsText + [part.text.value];
          }
        }
        assert parts[..|parts|] == parts;
        botResponse := Strip(Concat(partsText));
      } else {
        botResponse := candidate.rendering;
      }
    } else {
      botResponse := response.rendering;
    }
    if botResponse == "" {
      botResponse := Fallback;
    }
  }

  /** The text of a part, empty when it has none. */
  function TextOrEmpty(part: Part): string
  {
    if part.text.Some? then part.text.value else ""
  }

  /** Every part's text, empty ones included. */
  function AllTexts(parts: seq<Part>): seq<string>
  {
    seq(|parts|, i requires 0 <= i < |parts| => TextOrEmpty(parts[i]))
  }

  /** Leaving out the parts without text does not change the joined text:
      it is the join of every part's text in order. */
  lemma {:induction false} PartTextsJoin(parts: seq<Part>)
    ensures Concat(PartTexts(parts)) == Concat(AllTexts(parts))
  {
    if |parts| > 0 {
      var init := parts[..|parts| - 1];
      PartTextsJoin(init);
      assert AllTexts(parts) == AllTexts(init) + [TextOrEmpty(parts[|parts| - 1])];
      ConcatAppend(PartTexts(init), if HasText(parts[|parts| - 1]) then [parts[|parts| - 1].text.value] else []);
      ConcatAppend(AllTexts(init), [TextOrEmpty(parts[|parts| - 1])]);
      assert Concat([TextOrEmpty(parts[|parts| - 1])]) == "" + TextOrEmpty(parts[|parts| - 1]);
    }
  }

  /** The answer is never empty, and it is the fallback exactly when the
      chosen text is empty or is itself the fallback text. */
  lemma NormalizeNeverEmpty(reply: Reply)
    ensures NormalizeReply(reply) != ""
    ensures NormalizeReply(reply) == Fallback <==> ChosenText(reply) == "" || ChosenText(reply) == Fallback
  {
  }

  /** A non-empty direct text wins over candidates and rendering: the answer
      is that text stripped of surrounding whitespace, or the fallback
      when the text is all whitespace. */
  lemma DirectTextWins(text: string, candidates: Option<seq<Candidate>>, rendering: string)
    requires text != ""
    ensures var answer := NormalizeReply(Reply(Some(text), candidates, rendering));
      && (AllSpace(text) ==> answer == Fallback)
      && (!AllSpace(text) ==> answer == Strip(text))
  {
    StripEmptyIff(text);
  }

  /** Without a usable direct text, only the first candidate matters; when
      it has parts, the answer is the joined text of all its parts, stripped,
      or the fallback when that is all whitespace. */
  lemma FirstCandidateDecides(text: Option<string>, first: Candidate, rest: seq<Candidate>, rendering: string)
    requires text.None? || text.value == ""
    requires first.parts.Some?
    ensures var answer := NormalizeReply(Reply(text, Some([first] + rest), rendering));
      var joined := Concat(AllTexts(first.parts.value));
      && answer == NormalizeReply(Reply(text, Some([first]), ""))
      && (AllSpace(joined) ==> answer == Fallback)
      && (!AllSpace(joined) ==> answer == Strip(joined))
  {
    PartTextsJoin(first.parts.value);
    StripEmptyIff(Concat(AllTexts(first.parts.value)));
  }

  /** An answer taken from a direct text or from parts carries no
      surrounding whitespace: it is the fallback, or a slice of the direct
      text, or of the joined part texts, with only whitespace cut off on
      either side. */
  lemma StrippedAnswerIsTrimmed(reply: Reply)
    ensures var answer := NormalizeReply(reply);
      && (reply.text.Some? && reply.text.value != "" ==>
            answer == Fallback || IsTrimmedSliceOf(answer, reply.text.value))
      && (!(reply.text.Some? && reply.text.value != "") && reply.candidates.Some?
          && |reply.candidates.value| > 0 && reply.candidates.value[0].parts.Some? ==>
            answer == Fallback || IsTrimmedSliceOf(answer, Concat(PartTexts(reply.candidates.value[0].parts.value))))
  {
    if reply.text.Some? && reply.text.value != "" {
      StripIsTrimmedSlice(reply.text.value);
    } else if reply.candidates.Some? && |reply.candidates.value| > 0 && reply.candidates.value[0].parts.Some? {
      StripIsTrimmedSlice(Concat(PartTexts(reply.candidates.value[0].parts.value)));
    }
  }
}
