/** From the provider's writer to the client: what a whole stream delivers
    (internal/pipeline/pipeline.go, internal/pipeline/stream_adapter.go). */
module SseDelivery {
  import opened Prelude
  import opened Sse
  import opened SseCodec
  import opened SseRoundTrip
  import opened SseAdapter
  import opened SseLaws
  import opened StreamOutput

  /** What an event stream without its last blank line reads as. */
  lemma {:induction false} DecodeOpenEnd(ps: seq<bytes>, open: bytes)
    requires (forall p :: p in ps ==> Plain(p)) && CR !in open && BlankAt(open) < 0
    ensures CR !in EncodeAll(ps) + open
    ensures var d := Drain(EncodeAll(ps) + open); Payloads(d.frames) == ps && d.rest == open
  {
    if ps == [] {
      assert EncodeAll(ps) + open == open;
    } else {
      DecodeOpenEnd(ps[1..], open);
      DecodeOneMore(ps[0], EncodeAll(ps[1..]) + open);
      FirstWritten(ps, open);
    }
  }

  lemma FirstWritten(ps: seq<bytes>, open: bytes)
    requires ps != []
    ensures EncodeAll(ps) + open == Encode(ps[0]) + (EncodeAll(ps[1..]) + open)
  {
    Regroup(Encode(ps[0]), EncodeAll(ps[1..]), open, []);
  }

  lemma DecodeOneMore(p: bytes, tail: bytes)
    requires Plain(p) && CR !in tail
    ensures CR !in Encode(p) + tail
    ensures var d, later := Drain(Encode(p) + tail), Drain(tail);
            Payloads(d.frames) == [p] + Payloads(later.frames) && d.rest == later.rest
  {
    EncodePlainFree(p);
    DecodeFirst(p, tail);
    FreeAppend(Encode(p), tail);
  }

  /** The event still open at the end of a stream: none, or one without its blank line. */
  function OpenEnd(last: Option<bytes>): bytes {
    match last
    case None => []
    case Some(p) => DATA_FIELD + p
  }

  function WithLast(ps: seq<bytes>, last: Option<bytes>): seq<bytes> {
    match last
    case None => ps
    case Some(p) => ps + [p]
  }

  lemma OpenEndIsFlushed(last: Option<bytes>)
    requires last.Some? ==> Plain(last.value)
    ensures CR !in OpenEnd(last) && BlankAt(OpenEnd(last)) < 0
    ensures AdaptFlush(true, OpenEnd(last)) == WithLast([], last)
  {
    FlushReadsLastFrame(OpenEnd(last));
    if last.Some? {
      var p := last.value;
      FreeAppend(DATA_FIELD, p);
      DataFrameOfLine(p);
      FieldIsOneLine(p);
      NoBlankInLine(DATA_FIELD + p);
      TrimFacts(p);
      assert [p][1..] == [] && [] + [p] == [p];
      assert WrapFrames([p]) == [p];
    } else {
      assert Trim([]) == [];
    }
  }

  /** The adapter takes an event stream apart into the payloads it was written from. */
  lemma EventStreamIsAdapted(ps: seq<bytes>, last: Option<bytes>, chunks: seq<bytes>)
    requires (forall p :: p in ps ==> Plain(p)) && (last.Some? ==> Plain(last.value))
    requires Concat(chunks) == EncodeAll(ps) + OpenEnd(last)
    requires OpensAsEvents([], chunks) && NoBlankChunk(chunks)
    ensures AdaptAll(true, [], chunks) == Adapted(ps, OpenEnd(last))
  {
    OpenEndIsFlushed(last);
    DecodeOpenEnd(ps, OpenEnd(last));
    FreeStreamIsWhole(chunks);
    EventStreamsFollowExactly([], chunks);
    assert chunks[..|chunks|] == chunks;
  }

  /** Plain payloads that a provider writes as events reach the client as they were, cut just
      after the first terminal one, however the text was cut into chunks, as long as no chunk is
      blank and each one after a complete event opens as an event. The last event may lack its
      blank line. */
  lemma EventStreamReachesClient(
      terminal: Terminal, ps: seq<bytes>, last: Option<bytes>, events: seq<Event>, end: Event, after: seq<Input>)
    requires (forall p :: p in ps ==> Plain(p)) && (last.Some? ==> Plain(last.value))
    requires forall e :: e in events ==> KeepsOpen(e)
    requires !end.failed && end.kind.StreamEnd?
    requires Concat(ChunkPayloads(events)) == EncodeAll(ps) + OpenEnd(last)
    requires OpensAsEvents([], ChunkPayloads(events)) && NoBlankChunk(ChunkPayloads(events))
    ensures Expected(true, terminal, [], AsInputs(events) + [Received(end)] + after) ==
            AsChunks(CutAfterTerminal(terminal, WithLast(ps, last)))
  {
    StreamEndDeliversCutOutput(true, terminal, [], events, end, after);
    EventStreamIsAdapted(ps, last, ChunkPayloads(events));
    OpenEndIsFlushed(last);
    assert ps + WithLast([], last) == WithLast(ps, last);
  }

  lemma {:induction false} CutIsPrefix(terminal: Terminal, items: seq<bytes>)
    ensures CutAfterTerminal(terminal, items) <= items
  {
    if items != [] {
      CutIsPrefix(terminal, items[1..]);
    }
  }

  /** Written as events again and cut into any pieces on the way, what was delivered is what the
      client reads: the provider's payloads up to the first terminal one. */
  lemma ClientReadsWhatProviderWrote(terminal: Terminal, ps: seq<bytes>, last: Option<bytes>, pieces: seq<bytes>)
    requires (forall p :: p in ps ==> Plain(p)) && (last.Some? ==> Plain(last.value))
    requires Concat(pieces) == EncodeAll(CutAfterTerminal(terminal, WithLast(ps, last)))
    ensures Payloads(FeedAll([], pieces).frames) == CutAfterTerminal(terminal, WithLast(ps, last))
  {
    CutIsPrefix(terminal, WithLast(ps, last));
    PlainListRoundTrip(CutAfterTerminal(terminal, WithLast(ps, last)), pieces);
  }

  /** A stream of another format reaches the client chunk by chunk. */
  lemma RawStreamReachesClient(terminal: Terminal, events: seq<Event>, end: Event, after: seq<Input>)
    requires forall e :: e in events ==> KeepsOpen(e)
    requires !end.failed && end.kind.StreamEnd?
    ensures Expected(false, terminal, [], AsInputs(events) + [Received(end)] + after) ==
            AsChunks(CutAfterTerminal(terminal, NonEmpty(ChunkPayloads(events))))
  {
    StreamEndDeliversCutOutput(false, terminal, [], events, end, after);
    RawStreamPasses([], ChunkPayloads(events));
    assert NonEmpty(ChunkPayloads(events)) + [] == NonEmpty(ChunkPayloads(events));
  }
}
