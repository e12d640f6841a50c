/** Turning the model's streamed text chunks into the events the streaming
    endpoint sends. */
module StreamAssembler {
  import opened Wrappers
  import opened Text

  /** One event of the stream, before JSON encoding:
      `{"chunk": text, "done": false}`,
      `{"chunk": "", "done": true, "full_response": fullResponse}` or
      `{"error": message, "done": true}`. */
  datatype Event = Chunk(text: string) | Done(fullResponse: string) | Error(message: string)
  {
    /** The event's `done` field. */
    predicate IsDone()
    {
      !Chunk?
    }
  }

  /** What the upstream stream delivers: the `text` of each chunk it yields,
      in order, and, when iterating it raises, the exception's message
      (raised after the chunks listed). */
  datatype Upstream = Upstream(chunks: seq<string>, failure: Option<string>)

  const StreamErrorPrefix: string := "Lỗi khi stream phản hồi: "

  /** One `done: false` event per chunk with non-empty text, in order. */
  function ChunkEvents(chunks: seq<string>): seq<Event>
  {
    if |chunks| == 0 then []
    else ChunkEvents(chunks[..|chunks| - 1])
         + (if chunks[|chunks| - 1] != "" then [Chunk(chunks[|chunks| - 1])] else [])
  }

  /** The event that ends the stream: completion with the whole text, or the
      error. */
  function FinalEvent(fullResponse: string, failure: Option<string>): Event
  {
    match failure
    case None => Done(fullResponse)
    case Some(reason) => Error(StreamErrorPrefix + reason)
  }

  /** Every event the stream sends for `upstream`. */
  function StreamEvents(upstream: Upstream): seq<Event>
  {
    ChunkEvents(upstream.chunks) + [FinalEvent(Concat(upstream.chunks), upstream.failure)]
  }

  /** The chunk loop of `ChatbotService.get_stream_response`: emits an event
      per non-empty chunk and accumulates `full_response`. */
  method StreamChunks(chunks: seq<string>) returns (events: seq<Event>, fullResponse: string)
    ensures events == ChunkEvents(chunks)
    ensures fullResponse == Concat(chunks)
  {
    events, fullResponse := [], "";
    for i := 0 to |chunks|
      invariant events == ChunkEvents(chunks[..i])
      invariant fullResponse == Concat(chunks[..i])
    {
      assert chunks[..i + 1][..i] == chunks[..i];
      var text := chunks[i];
      if text != "" {
        fullResponse := fullResponse + text;
        events := events + [Chunk(text)];
      } else {
        assert fullResponse + text == fullResponse;
      }
    }
    assert chunks[..|chunks|] == chunks;
  }

  /** The texts the chunk events carry, in order. */
  function EventTexts(events: seq<Event>): seq<string>
  {
    seq(|events|, i requires 0 <= i < |events| => if events[i].Chunk? then events[i].text else "")
  }

  /** Events of concatenated chunk lists are the concatenated events, and a
      single chunk gives one event exactly when its text is non-empty:
      together these say the events follow the chunks one for one, in
      order, with the empty ones dropped. */
  lemma {:induction false} ChunkEventsAppend(a: seq<string>, b: seq<string>)
    ensures ChunkEvents(a + b) == ChunkEvents(a) + ChunkEvents(b)
  {
    if |b| == 0 {
      assert a + b == a;
    } else {
      var b' := b[..|b| - 1];
      assert (a + b)[..|a + b| - 1] == a + b';
      ChunkEventsAppend(a, b');
    }
  }

  lemma ChunkEventsSingle(c: string)
    ensures ChunkEvents([c]) == if c == "" then [] else [Chunk(c)]
  {
    assert [c][..0] == [];
  }

  /** The chunk events are all `done: false` and carry non-empty text. */
  lemma {:induction false} ChunkEventsAreChunks(chunks: seq<string>)
    ensures forall e :: e in ChunkEvents(chunks) ==> e.Chunk? && e.text != ""
  {
    if |chunks| > 0 {
      ChunkEventsAreChunks(chunks[..|chunks| - 1]);
    }
  }

  /** Joining the texts of the chunk events gives back the whole reply. */
  lemma {:induction false} ChunkEventsJoin(chunks: seq<string>)
    ensures Concat(EventTexts(ChunkEvents(chunks))) == Concat(chunks)
  {
    if |chunks| > 0 {
      var init, last := chunks[..|chunks| - 1], chunks[|chunks| - 1];
      ChunkEventsJoin(init);
      var tail := if last != "" then [Chunk(last)] else [];
      assert ChunkEvents(chunks) == ChunkEvents(init) + tail;
      assert EventTexts(ChunkEvents(init) + tail) == EventTexts(ChunkEvents(init)) + EventTexts(tail);
      ConcatAppend(EventTexts(ChunkEvents(init)), EventTexts(tail));
      if last != "" {
        assert EventTexts(tail) == [last];
        assert Concat([last]) == "" + last;
      } else {
        assert EventTexts(tail) == [];
      }
    }
  }

  /** The stream ends with exactly one `done: true` event, its last; on
      success it is the completion event whose full response is the join of
      the texts of the chunk events before it, and on failure it is the
      error event. */
  lemma StreamShape(upstream: Upstream)
    ensures var events := StreamEvents(upstream);
      && |events| >= 1
      && events[|events| - 1].IsDone()
      && (forall i :: 0 <= i < |events| - 1 ==> !events[i].IsDone())
      && (upstream.failure.None? ==>
            events[|events| - 1] == Done(Concat(EventTexts(events[..|events| - 1]))))
      && (upstream.failure.Some? ==>
            events[|events| - 1] == Error(StreamErrorPrefix + upstream.failure.value))
  {
    var events := StreamEvents(upstream);
    ChunkEventsAreChunks(upstream.chunks);
    ChunkEventsJoin(upstream.chunks);
    assert events[..|events| - 1] == ChunkEvents(upstream.chunks);
    forall i | 0 <= i < |events| - 1 ensures !events[i].IsDone() {
      assert events[i] in ChunkEvents(upstream.chunks);
    }
  }

  /** The example of a reply streamed as "Xin " and "chào". */
  lemma TwoChunkExample()
    ensures StreamEvents(Upstream(["Xin ", "chào"], None))
         == [Chunk("Xin "), Chunk("chào"), Done("Xin chào")]
  {
    var cs := ["Xin ", "chào"];
    ChunkEventsAppend(["Xin "], ["chào"]);
    assert ["Xin "] + ["chào"] == cs;
    ChunkEventsSingle("Xin ");
    ChunkEventsSingle("chào");
    assert ChunkEvents(cs) == [Chunk("Xin "), Chunk("chào")];
    assert cs[..1] == ["Xin "];
    assert ["Xin "][..0] == [];
    assert Concat(cs) == "Xin chào";
  }
}
