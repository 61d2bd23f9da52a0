/** The goroutine of `buildStreamResult`: upstream events in, chunks out
    (internal/pipeline/pipeline.go). The logical-terminal test and the outcome of each
    send are parameters. */
module StreamOutput {
  import opened Prelude
  import opened Sse
  import opened SseCodec

  datatype EventKind = StreamStart | StreamChunk | HttpResp | StreamEnd | ErrorMessage | OtherKind

  datatype Event = Event(kind: EventKind, payload: bytes, failed: bool)

  /** What the goroutine's select can see next; the end of the list is a closed channel. */
  datatype Input = Received(event: Event) | Cancelled | IdleTimeout

  datatype Cause = TransportError | UpstreamError | IdleError

  datatype Chunk = Payload(data: bytes) | Failure(cause: Cause)

  type Terminal = bytes -> bool

  function AsChunks(items: seq<bytes>): (r: seq<Chunk>)
    ensures |r| == |items| && forall c :: c in r ==> c.Payload?
  {
    if items == [] then [] else [Payload(items[0])] + AsChunks(items[1..])
  }

  predicate HasTerminal(terminal: Terminal, items: seq<bytes>) {
    exists i :: 0 <= i < |items| && terminal(items[i])
  }

  /** Everything up to and including the first logically terminal payload. */
  function CutAfterTerminal(terminal: Terminal, items: seq<bytes>): seq<bytes> {
    if items == [] then []
    else if terminal(items[0]) then [items[0]]
    else [items[0]] + CutAfterTerminal(terminal, items[1..])
  }

  /** Closing output: the flush, cut, then the error. */
  function Closing(terminal: Terminal, flush: seq<bytes>, error: Option<Cause>): seq<Chunk> {
    AsChunks(CutAfterTerminal(terminal, flush)) + if error.Some? then [Failure(error.value)] else []
  }

  /** A one-shot response's body, then the flush unless the body held a terminal payload. */
  function ResponseOutput(useSse: bool, terminal: Terminal, buf: bytes, payload: bytes): seq<Chunk> {
    var a := AdaptOne(useSse, buf, payload);
    if HasTerminal(terminal, a.out) then AsChunks(CutAfterTerminal(terminal, a.out))
    else AsChunks(a.out) + Closing(terminal, AdaptFlush(useSse, a.buf), None)
  }

  /** What the client is sent when every send goes through. */
  function Expected(useSse: bool, terminal: Terminal, buf: bytes, inputs: seq<Input>): seq<Chunk>
    decreases |inputs|
  {
    var flush := AdaptFlush(useSse, buf);
    if inputs == [] || inputs[0].Cancelled? then Closing(terminal, flush, None)
    else if inputs[0].IdleTimeout? then Closing(terminal, flush, Some(IdleError))
    else
      var e := inputs[0].event;
      if e.failed then Closing(terminal, flush, Some(TransportError))
      else match e.kind
        case StreamChunk =>
          var a := AdaptOne(useSse, buf, e.payload);
          if HasTerminal(terminal, a.out) then AsChunks(CutAfterTerminal(terminal, a.out))
          else AsChunks(a.out) + Expected(useSse, terminal, a.buf, inputs[1..])
        case HttpResp => ResponseOutput(useSse, terminal, buf, e.payload)
        case StreamEnd => Closing(terminal, flush, None)
        case ErrorMessage => Closing(terminal, flush, Some(UpstreamError))
        case _ => Expected(useSse, terminal, buf, inputs[1..])
  }

  /** At most one error chunk, and nothing after it. */
  predicate FailureIsLast(sent: seq<Chunk>) {
    forall i :: 0 <= i < |sent| - 1 ==> sent[i].Payload?
  }

  /** `sent` is `full` with sends lost from some point on; the closing error may still
      get through. */
  predicate Truncates(sent: seq<Chunk>, full: seq<Chunk>) {
    || sent <= full
    || (full != [] && full[|full| - 1].Failure? && sent != [] && sent[|sent| - 1] == full[|full| - 1] &&
        sent[..|sent| - 1] <= full[..|full| - 1])
  }

  /** Sending `full` took `sent` from `before` to `after`, perhaps losing some of it. */
  predicate Delivers(before: seq<Chunk>, after: seq<Chunk>, full: seq<Chunk>) {
    before <= after && Truncates(after[|before|..], full)
  }

  /** What was sent safely first may be counted in. */
  lemma DeliversBoth(before: seq<Chunk>, part: seq<Chunk>, after: seq<Chunk>, full: seq<Chunk>)
    requires Delivers(before + part, after, full)
    ensures Delivers(before, after, part + full)
    ensures after == before + part + full ==> after == before + (part + full)
  {
    var mid := before + part;
    var x := after[|mid|..];
    assert after[|before|..] == part + x;
    if x <= full {
      assert part + x <= part + full;
    } else {
      assert (part + x)[..|part + x| - 1] == part + x[..|x| - 1];
      assert (part + full)[..|part + full| - 1] == part + full[..|full| - 1];
    }
  }

  // ---- Laws of the specification ----

  lemma {:induction false} ExpectedFailureIsLast(useSse: bool, terminal: Terminal, buf: bytes, inputs: seq<Input>)
    ensures FailureIsLast(Expected(useSse, terminal, buf, inputs))
    decreases |inputs|
  {
    if inputs != [] && inputs[0].Received? {
      var e := inputs[0].event;
      if e.kind.StreamChunk? {
        var a := AdaptOne(useSse, buf, e.payload);
        ExpectedFailureIsLast(useSse, terminal, a.buf, inputs[1..]);
        PayloadsFirst(AsChunks(a.out), Expected(useSse, terminal, a.buf, inputs[1..]));
      } else {
        ExpectedFailureIsLast(useSse, terminal, buf, inputs[1..]);
      }
    }
  }

  lemma PayloadsFirst(a: seq<Chunk>, b: seq<Chunk>)
    requires FailureIsLast(b) && forall c :: c in a ==> c.Payload?
    ensures FailureIsLast(a + b)
  {
  }

  /** In every run, whatever sends are lost, an error chunk comes at most once and last. */
  lemma AnyRunEndsWithItsError(useSse: bool, terminal: Terminal, inputs: seq<Input>, sent: seq<Chunk>)
    requires Truncates(sent, Expected(useSse, terminal, [], inputs))
    ensures FailureIsLast(sent)
  {
    var full := Expected(useSse, terminal, [], inputs);
    ExpectedFailureIsLast(useSse, terminal, [], inputs);
    forall i | 0 <= i < |sent| - 1
      ensures sent[i].Payload?
    {
      if sent <= full {
        assert sent[i] == full[i];
      } else {
        assert sent[..|sent| - 1][i] == full[..|full| - 1][i];
      }
    }
  }

  function ChunkPayloads(events: seq<Event>): seq<bytes> {
    if events == [] then []
    else (if events[0].kind.StreamChunk? then [events[0].payload] else []) + ChunkPayloads(events[1..])
  }

  function AsInputs(events: seq<Event>): (r: seq<Input>)
    ensures |r| == |events|
  {
    seq(|events|, i requires 0 <= i < |events| => Received(events[i]))
  }

  /** Neither an error nor an event that closes the stream. */
  predicate KeepsOpen(e: Event) {
    !e.failed && (e.kind.StreamStart? || e.kind.StreamChunk? || e.kind.OtherKind?)
  }

  lemma {:induction false} CutOfAppend(terminal: Terminal, a: seq<bytes>, b: seq<bytes>)
    ensures CutAfterTerminal(terminal, a + b) ==
            if HasTerminal(terminal, a) then CutAfterTerminal(terminal, a) else a + CutAfterTerminal(terminal, b)
    ensures !HasTerminal(terminal, a) ==> CutAfterTerminal(terminal, a) == a
  {
    if a == [] {
      assert a + b == b;
    } else {
      CutOfAppend(terminal, a[1..], b);
      assert (a + b)[1..] == a[1..] + b;
      assert HasTerminal(terminal, a) <==> terminal(a[0]) || HasTerminal(terminal, a[1..]) by {
        if HasTerminal(terminal, a[1..]) {
          var i :| 0 <= i < |a[1..]| && terminal(a[1..][i]);
          assert terminal(a[i + 1]);
        }
        if i :| 0 <= i < |a| && terminal(a[i]) {
          assert i > 0 ==> terminal(a[1..][i - 1]);
        }
      }
    }
  }

  lemma {:induction false} AsChunksAppend(a: seq<bytes>, b: seq<bytes>)
    ensures AsChunks(a + b) == AsChunks(a) + AsChunks(b)
  {
    if a == [] {
      assert a + b == b;
    } else {
      calc {
        AsChunks(a + b);
        { assert (a + b)[0] == a[0] && (a + b)[1..] == a[1..] + b; }
        [Payload(a[0])] + AsChunks(a[1..] + b);
        { AsChunksAppend(a[1..], b); }
        [Payload(a[0])] + (AsChunks(a[1..]) + AsChunks(b));
        [Payload(a[0])] + AsChunks(a[1..]) + AsChunks(b);
      }
    }
  }

  /** The first event of a list, as the goroutine meets it. */
  lemma FirstEvent(useSse: bool, terminal: Terminal, buf: bytes, events: seq<Event>, rest: seq<Input>)
    requires events != [] && KeepsOpen(events[0])
    ensures var e, later := events[0], AsInputs(events[1..]) + rest;
            var first := AdaptOne(useSse, buf, e.payload);
            Expected(useSse, terminal, buf, AsInputs(events) + rest) ==
            if !e.kind.StreamChunk? then Expected(useSse, terminal, buf, later)
            else if HasTerminal(terminal, first.out) then AsChunks(CutAfterTerminal(terminal, first.out))
            else AsChunks(first.out) + Expected(useSse, terminal, first.buf, later)
  {
    var inputs := AsInputs(events) + rest;
    assert inputs[0] == Received(events[0]);
    assert inputs[1..] == AsInputs(events[1..]) + rest;
  }

  /** What the goroutine makes of `out` adapted so far when `later` is to be sent after it. */
  function CutThen(terminal: Terminal, out: seq<bytes>, later: seq<Chunk>): seq<Chunk> {
    if HasTerminal(terminal, out) then AsChunks(CutAfterTerminal(terminal, out)) else AsChunks(out) + later
  }

  lemma CutThenSplits(terminal: Terminal, first: seq<bytes>, next: seq<bytes>, later: seq<Chunk>)
    ensures CutThen(terminal, first + next, later) == CutThen(terminal, first, CutThen(terminal, next, later))
  {
    CutOfAppend(terminal, first, next);
    AsChunksAppend(first, CutAfterTerminal(terminal, next));
    AsChunksAppend(first, next);
    HasTerminalAppend(terminal, first, next);
    assert AsChunks(first) + AsChunks(next) + later == AsChunks(first) + (AsChunks(next) + later);
  }

  lemma HasTerminalAppend(terminal: Terminal, a: seq<bytes>, b: seq<bytes>)
    ensures HasTerminal(terminal, a + b) <==> HasTerminal(terminal, a) || HasTerminal(terminal, b)
  {
    if i :| 0 <= i < |a| && terminal(a[i]) {
      assert (a + b)[i] == a[i];
    }
    if i :| 0 <= i < |b| && terminal(b[i]) {
      assert (a + b)[|a| + i] == b[i];
    }
    if i :| 0 <= i < |a + b| && terminal((a + b)[i]) {
      assert i < |a| ==> terminal(a[i]);
      assert i >= |a| ==> terminal(b[i - |a|]);
    }
  }

  /** Events that keep the stream open deliver what the adapter makes of them; a logically
      terminal payload among it ends the stream, otherwise what follows is delivered next. */
  lemma {:induction false} OpenEventsDeliver(
      useSse: bool, terminal: Terminal, buf: bytes, events: seq<Event>, rest: seq<Input>)
    requires forall e :: e in events ==> KeepsOpen(e)
    ensures var a := AdaptAll(useSse, buf, ChunkPayloads(events));
            Expected(useSse, terminal, buf, AsInputs(events) + rest) ==
            CutThen(terminal, a.out, Expected(useSse, terminal, a.buf, rest))
    decreases |events|
  {
    if events == [] {
      assert AsInputs(events) + rest == rest;
      assert !HasTerminal(terminal, []) && AsChunks([]) + Expected(useSse, terminal, buf, rest) ==
             Expected(useSse, terminal, buf, rest);
    } else {
      var e, tail := events[0], events[1..];
      assert e in events;
      FirstEvent(useSse, terminal, buf, events, rest);
      if e.kind.StreamChunk? {
        var first := AdaptOne(useSse, buf, e.payload);
        var later := AdaptAll(useSse, first.buf, ChunkPayloads(tail));
        OpenEventsDeliver(useSse, terminal, first.buf, tail, rest);
        assert ChunkPayloads(events) == [e.payload] + ChunkPayloads(tail);
        assert ChunkPayloads(events)[1..] == ChunkPayloads(tail);
        CutThenSplits(terminal, first.out, later.out, Expected(useSse, terminal, later.buf, rest));
      } else {
        OpenEventsDeliver(useSse, terminal, buf, tail, rest);
        assert ChunkPayloads(events) == ChunkPayloads(tail);
      }
    }
  }

  /** If `stream_end` is the first event that closes the stream, whatever comes after it, the
      adapter's whole output is delivered, every chunk adapted and the rest flushed, cut just
      after the first logically terminal payload. */
  lemma StreamEndDeliversCutOutput(
      useSse: bool, terminal: Terminal, buf: bytes, events: seq<Event>, last: Event, after: seq<Input>)
    requires forall e :: e in events ==> KeepsOpen(e)
    requires !last.failed && last.kind.StreamEnd?
    ensures var a := AdaptAll(useSse, buf, ChunkPayloads(events));
            Expected(useSse, terminal, buf, AsInputs(events) + [Received(last)] + after) ==
            AsChunks(CutAfterTerminal(terminal, a.out + AdaptFlush(useSse, a.buf)))
  {
    var a := AdaptAll(useSse, buf, ChunkPayloads(events));
    var flush := AdaptFlush(useSse, a.buf);
    var rest := [Received(last)] + after;
    assert AsInputs(events) + [Received(last)] + after == AsInputs(events) + rest;
    OpenEventsDeliver(useSse, terminal, buf, events, rest);
    StreamEndCloses(useSse, terminal, a.buf, last, after);
    CutThenFlush(terminal, a.out, flush);
  }

  lemma StreamEndCloses(useSse: bool, terminal: Terminal, buf: bytes, last: Event, after: seq<Input>)
    requires !last.failed && last.kind.StreamEnd?
    ensures Expected(useSse, terminal, buf, [Received(last)] + after) ==
            Closing(terminal, AdaptFlush(useSse, buf), None)
  {
    assert ([Received(last)] + after)[0] == Received(last);
  }

  /** If a one-shot response is the first closing event, its body is adapted after the chunks,
      the rest flushed, and the output cut just after the first logically terminal payload. */
  lemma ResponseDeliversCutOutput(
      useSse: bool, terminal: Terminal, buf: bytes, events: seq<Event>, last: Event, after: seq<Input>)
    requires forall e :: e in events ==> KeepsOpen(e)
    requires !last.failed && last.kind.HttpResp?
    ensures var a := AdaptAll(useSse, buf, ChunkPayloads(events));
            var body := AdaptOne(useSse, a.buf, last.payload);
            Expected(useSse, terminal, buf, AsInputs(events) + [Received(last)] + after) ==
            AsChunks(CutAfterTerminal(terminal, a.out + body.out + AdaptFlush(useSse, body.buf)))
  {
    var a := AdaptAll(useSse, buf, ChunkPayloads(events));
    var body := AdaptOne(useSse, a.buf, last.payload);
    var flush := AdaptFlush(useSse, body.buf);
    var rest := [Received(last)] + after;
    assert AsInputs(events) + [Received(last)] + after == AsInputs(events) + rest;
    OpenEventsDeliver(useSse, terminal, buf, events, rest);
    ResponseCloses(useSse, terminal, a.buf, last, after);
    CutThenSplits(terminal, a.out, body.out, Closing(terminal, flush, None));
    CutThenFlush(terminal, a.out + body.out, flush);
  }

  lemma ResponseCloses(useSse: bool, terminal: Terminal, buf: bytes, last: Event, after: seq<Input>)
    requires !last.failed && last.kind.HttpResp?
    ensures var body := AdaptOne(useSse, buf, last.payload);
            Expected(useSse, terminal, buf, [Received(last)] + after) ==
            CutThen(terminal, body.out, Closing(terminal, AdaptFlush(useSse, body.buf), None))
  {
    assert ([Received(last)] + after)[0] == Received(last);
  }

  /** What the goroutine is told when the stream breaks off: the error chunk to come, if any. */
  function BreaksOff(input: Input): Option<Option<Cause>> {
    match input
    case Cancelled => Some(None)
    case IdleTimeout => Some(Some(IdleError))
    case Received(e) =>
      if e.failed then Some(Some(TransportError))
      else if e.kind.ErrorMessage? then Some(Some(UpstreamError))
      else None
  }

  /** If the stream breaks off before a logically terminal payload, everything adapted and the
      flush are delivered, cut as ever, and then the error: a failed event of any kind as a
      transport error, an error message as the upstream's, an idle timeout as such, and a
      cancelled context as none. */
  lemma BrokenStreamDeliversError(
      useSse: bool, terminal: Terminal, buf: bytes, events: seq<Event>, last: Input, after: seq<Input>)
    requires forall e :: e in events ==> KeepsOpen(e)
    requires !HasTerminal(terminal, AdaptAll(useSse, buf, ChunkPayloads(events)).out) && BreaksOff(last).Some?
    ensures var a := AdaptAll(useSse, buf, ChunkPayloads(events));
            Expected(useSse, terminal, buf, AsInputs(events) + [last] + after) ==
            AsChunks(CutAfterTerminal(terminal, a.out + AdaptFlush(useSse, a.buf))) +
            match BreaksOff(last).value case None => [] case Some(cause) => [Failure(cause)]
  {
    var a := AdaptAll(useSse, buf, ChunkPayloads(events));
    var flush := AdaptFlush(useSse, a.buf);
    assert AsInputs(events) + [last] + after == AsInputs(events) + ([last] + after);
    OpenEventsDeliver(useSse, terminal, buf, events, [last] + after);
    assert ([last] + after)[0] == last;
    OpenThenError(terminal, a.out, flush, BreaksOff(last).value);
  }

  /** A closed channel delivers the same without an error. */
  lemma ClosedChannelDeliversAll(useSse: bool, terminal: Terminal, buf: bytes, events: seq<Event>)
    requires forall e :: e in events ==> KeepsOpen(e)
    ensures var a := AdaptAll(useSse, buf, ChunkPayloads(events));
            Expected(useSse, terminal, buf, AsInputs(events)) ==
            AsChunks(CutAfterTerminal(terminal, a.out + AdaptFlush(useSse, a.buf)))
  {
    var a := AdaptAll(useSse, buf, ChunkPayloads(events));
    assert AsInputs(events) + [] == AsInputs(events);
    OpenEventsDeliver(useSse, terminal, buf, events, []);
    CutThenFlush(terminal, a.out, AdaptFlush(useSse, a.buf));
  }

  lemma OpenThenError(terminal: Terminal, out: seq<bytes>, flush: seq<bytes>, error: Option<Cause>)
    requires !HasTerminal(terminal, out)
    ensures CutThen(terminal, out, Closing(terminal, flush, error)) ==
            AsChunks(CutAfterTerminal(terminal, out + flush)) +
            match error case None => [] case Some(cause) => [Failure(cause)]
  {
    CutOfAppend(terminal, out, flush);
    AsChunksAppend(out, CutAfterTerminal(terminal, flush));
  }

  lemma CutThenFlush(terminal: Terminal, out: seq<bytes>, flush: seq<bytes>)
    ensures CutThen(terminal, out, Closing(terminal, flush, None)) == AsChunks(CutAfterTerminal(terminal, out + flush))
  {
    CutOfAppend(terminal, out, flush);
    AsChunksAppend(out, CutAfterTerminal(terminal, flush));
    assert AsChunks(CutAfterTerminal(terminal, flush)) + [] == AsChunks(CutAfterTerminal(terminal, flush));
  }

  /** If a logically terminal payload comes before any closing event, the output is cut just
      after it, whatever comes next: a stream_end, an error, a timeout or nothing. */
  lemma TerminalPayloadEndsOutput(
      useSse: bool, terminal: Terminal, buf: bytes, events: seq<Event>, after: seq<Input>)
    requires forall e :: e in events ==> KeepsOpen(e)
    requires HasTerminal(terminal, AdaptAll(useSse, buf, ChunkPayloads(events)).out)
    ensures Expected(useSse, terminal, buf, AsInputs(events) + after) ==
            AsChunks(CutAfterTerminal(terminal, AdaptAll(useSse, buf, ChunkPayloads(events)).out))
  {
    OpenEventsDeliver(useSse, terminal, buf, events, after);
  }

  lemma {:induction false} WrappedNeverEmpty(frames: seq<bytes>)
    ensures forall x :: x in WrapFrames(frames) ==> x != []
  {
    if frames != [] {
      WrappedNeverEmpty(frames[1..]);
    }
  }

  /** No empty payload reaches the sender, so its skip of empty payloads never applies. */
  lemma AdaptedNeverEmpty(useSse: bool, buf: bytes, payload: bytes)
    ensures forall x :: x in AdaptOne(useSse, buf, payload).out ==> x != []
    ensures forall x :: x in AdaptFlush(useSse, buf) ==> x != []
  {
    var t := Trim(payload);
    WrappedNeverEmpty(Payloads(FeedRaw(buf, payload).frames));
    WrappedNeverEmpty([t]);
    WrappedNeverEmpty(FlushBuffer(buf));
  }

  /** The sender's progress through a list, one payload further. */
  lemma CutAtNext(terminal: Terminal, done: seq<bytes>, next: bytes, rest: seq<bytes>)
    requires !HasTerminal(terminal, done)
    ensures var items := done + [next] + rest;
            var full := AsChunks(CutAfterTerminal(terminal, items));
            && AsChunks(done) <= full
            && AsChunks(done + [next]) == AsChunks(done) + [Payload(next)]
            && (if terminal(next) then full == AsChunks(done + [next]) && HasTerminal(terminal, items)
                else !HasTerminal(terminal, done + [next]))
  {
    var items := done + [next] + rest;
    assert items == done + ([next] + rest);
    CutOfAppend(terminal, done, [next] + rest);
    AsChunksAppend(done, CutAfterTerminal(terminal, [next] + rest));
    AsChunksAppend(done, [next]);
    if terminal(next) {
      assert items[|done|] == next;
    }
  }

  // ---- The goroutine ----

  class StreamPump {
    const terminal: Terminal
    const accepts: nat -> bool
    const adapter: GeminiStreamAdapter
    var attempts: nat
    var sent: seq<Chunk>

    ghost predicate Valid() {
      adapter.Valid()
    }

    ghost predicate NothingLost() {
      forall n :: accepts(n)
    }

    constructor (useSse: bool, terminal: Terminal, accepts: nat -> bool)
      ensures Valid() && adapter.useSse == useSse && adapter.Buffered() == []
      ensures this.terminal == terminal && this.accepts == accepts && sent == []
      ensures adapter.decoder != null ==> fresh(adapter.decoder)
    {
      this.terminal, this.accepts := terminal, accepts;
      adapter := new GeminiStreamAdapter(useSse);
      attempts, sent := 0, [];
    }

    method SendChunk(chunk: Chunk) returns (ok: bool)
      modifies this
      ensures sent == if ok then old(sent) + [chunk] else old(sent)
      ensures NothingLost() ==> ok
    {
      ok := accepts(attempts);
      attempts := attempts + 1;
      if ok {
        sent := sent + [chunk];
      }
    }

    /** `forwardAdapted`: sends in order, stops at a lost send and after a terminal one. */
    method ForwardAdapted(items: seq<bytes>) returns (ok: bool, done: bool)
      modifies this
      ensures old(sent) <= sent && sent[|old(sent)|..] <= AsChunks(CutAfterTerminal(terminal, items))
      ensures ok ==> sent == old(sent) + AsChunks(CutAfterTerminal(terminal, items))
      ensures done <==> ok && HasTerminal(terminal, items)
      ensures NothingLost() ==> ok
    {
      for i := 0 to |items|
        invariant !HasTerminal(terminal, items[..i])
        invariant sent == old(sent) + AsChunks(items[..i])
      {
        CutAtNext(terminal, items[..i], items[i], items[i + 1..]);
        assert items[..i] + [items[i]] + items[i + 1..] == items;
        assert items[..i] + [items[i]] == items[..i + 1];
        ok := SendChunk(Payload(items[i]));
        if !ok {
          return false, false;
        }
        if terminal(items[i]) {
          return true, true;
        }
      }
      assert items[..|items|] == items;
      CutOfAppend(terminal, items, []);
      return true, false;
    }

    /** Flushes the adapter, then sends the closing error if there is one. */
    method Close(error: Option<Cause>)
      requires Valid()
      modifies this, adapter.decoder
      ensures old(sent) <= sent
      ensures var full := Closing(terminal, AdaptFlush(adapter.useSse, old(adapter.Buffered())), error);
              && Delivers(old(sent), sent, full)
              && (NothingLost() ==> sent == old(sent) + full)
    {
      ghost var before := sent;
      var items := adapter.Flush();
      ghost var cut := AsChunks(CutAfterTerminal(terminal, items));
      var ok, done := ForwardAdapted(items);
      CutDelivered(before, sent, cut, if error.Some? then Failure(error.value) else Failure(IdleError));
      assert cut + [] == cut;
      if error.Some? {
        ghost var mid := sent;
        ok := SendChunk(Failure(error.value));
        if NothingLost() {
          assert before + cut + [Failure(error.value)] == before + (cut + [Failure(error.value)]);
        }
      }
    }

    /** `forwardPayload`: adapts one payload and forwards the result. */
    method ForwardPayload(payload: bytes) returns (goOn: bool)
      requires Valid()
      modifies this, adapter.decoder
      ensures old(sent) <= sent
      ensures var a := AdaptOne(adapter.useSse, old(adapter.Buffered()), payload);
              && adapter.Buffered() == a.buf
              && (goOn ==> !HasTerminal(terminal, a.out) && sent == old(sent) + AsChunks(a.out))
              && (!goOn ==> sent[|old(sent)|..] <= AsChunks(CutAfterTerminal(terminal, a.out)))
              && (!goOn && NothingLost() ==>
                    HasTerminal(terminal, a.out) && sent == old(sent) + AsChunks(CutAfterTerminal(terminal, a.out)))
    {
      var items := adapter.Adapt(payload);
      var ok, done := ForwardAdapted(items);
      CutOfAppend(terminal, items, []);
      return ok && !done;
    }

    /** A one-shot response: its body, then the flush unless the body was terminal. */
    method ProcessResponse(payload: bytes)
      requires Valid()
      modifies this, adapter.decoder
      ensures old(sent) <= sent
      ensures var full := ResponseOutput(adapter.useSse, terminal, old(adapter.Buffered()), payload);
              && Delivers(old(sent), sent, full)
              && (NothingLost() ==> sent == old(sent) + full)
    {
      ghost var before := sent;
      ghost var a := AdaptOne(adapter.useSse, adapter.Buffered(), payload);
      ghost var tail := Closing(terminal, AdaptFlush(adapter.useSse, a.buf), None);
      if payload != [] {
        var goOn := ForwardPayload(payload);
        if !goOn {
          LostInChunk(terminal, sent[|before|..], a.out, tail);
          return;
        }
      }
      assert sent == before + AsChunks(a.out);
      Close(None);
      DeliversBoth(before, AsChunks(a.out), sent, tail);
    }

    /** One event; `rest` is what would come after it. */
    method Process(event: Event, ghost rest: seq<Input>) returns (goOn: bool)
      requires Valid()
      modifies this, adapter.decoder
      ensures old(sent) <= sent
      ensures goOn ==>
        Expected(adapter.useSse, terminal, old(adapter.Buffered()), [Received(event)] + rest) ==
        sent[|old(sent)|..] + Expected(adapter.useSse, terminal, adapter.Buffered(), rest)
      ensures !goOn ==>
        var full := Expected(adapter.useSse, terminal, old(adapter.Buffered()), [Received(event)] + rest);
        && Delivers(old(sent), sent, full)
        && (NothingLost() ==> sent == old(sent) + full)
    {
      ghost var before, buf := sent, adapter.Buffered();
      assert ([Received(event)] + rest)[1..] == rest;
      if event.failed {
        Close(Some(TransportError));
        return false;
      }
      match event.kind {
        case StreamChunk =>
          goOn := ForwardPayload(event.payload);
          ghost var a := AdaptOne(adapter.useSse, buf, event.payload);
          if !goOn {
            LostInChunk(terminal, sent[|before|..], a.out, Expected(adapter.useSse, terminal, a.buf, rest));
          }
        case HttpResp =>
          ProcessResponse(event.payload);
          return false;
        case StreamEnd =>
          Close(None);
          return false;
        case ErrorMessage =>
          Close(Some(UpstreamError));
          return false;
        case _ =>
          assert sent[|before|..] == [];
          return true;
      }
    }

    /** The whole goroutine: the bootstrap event, then whatever the select yields. */
    method Run(first: Event, inputs: seq<Input>)
      requires Valid() && sent == [] && adapter.Buffered() == []
      modifies this, adapter.decoder
      ensures var full := Expected(adapter.useSse, terminal, [], [Received(first)] + inputs);
              && Truncates(sent, full)
              && FailureIsLast(sent)
              && (NothingLost() ==> sent == full)
    {
      ghost var full := Expected(adapter.useSse, terminal, [], [Received(first)] + inputs);
      var goOn := Process(first, inputs);
      assert [] + full == full && sent[0..] == sent;
      var k := 0;
      while goOn && k < |inputs| && inputs[k].Received?
        invariant 0 <= k <= |inputs|
        invariant goOn ==> full == sent + Expected(adapter.useSse, terminal, adapter.Buffered(), inputs[k..])
        invariant !goOn ==> Truncates(sent, full) && (NothingLost() ==> sent == full)
        decreases |inputs| - k
      {
        assert inputs[k..] == [Received(inputs[k].event)] + inputs[k + 1..];
        goOn := Step(inputs[k].event, inputs[k + 1..], full);
        k := k + 1;
      }
      if goOn {
        ghost var before, tail := sent, Expected(adapter.useSse, terminal, adapter.Buffered(), inputs[k..]);
        if k < |inputs| && inputs[k].IdleTimeout? {
          Close(Some(IdleError));
        } else {
          Close(None);
        }
        FromStart(before, sent, tail);
      }
      AnyRunEndsWithItsError(adapter.useSse, terminal, [Received(first)] + inputs, sent);
    }

    /** One event in the middle of a run that is to deliver `full` in all. */
    method Step(event: Event, ghost rest: seq<Input>, ghost full: seq<Chunk>) returns (goOn: bool)
      requires Valid()
      requires full == sent + Expected(adapter.useSse, terminal, adapter.Buffered(), [Received(event)] + rest)
      modifies this, adapter.decoder
      ensures goOn ==> full == sent + Expected(adapter.useSse, terminal, adapter.Buffered(), rest)
      ensures !goOn ==> Truncates(sent, full) && (NothingLost() ==> sent == full)
    {
      ghost var before := sent;
      ghost var tail := Expected(adapter.useSse, terminal, adapter.Buffered(), [Received(event)] + rest);
      goOn := Process(event, rest);
      if goOn {
        GoesOn(before, sent, Expected(adapter.useSse, terminal, adapter.Buffered(), rest));
      } else {
        FromStart(before, sent, tail);
      }
    }
  }

  lemma GoesOn(before: seq<Chunk>, after: seq<Chunk>, rest: seq<Chunk>)
    requires before <= after
    ensures before + (after[|before|..] + rest) == after + rest
  {
    assert before + after[|before|..] == after;
  }

  lemma FromStart(before: seq<Chunk>, after: seq<Chunk>, full: seq<Chunk>)
    requires Delivers(before, after, full)
    ensures Truncates(after, before + full)
  {
    assert [] + before == before;
    DeliversBoth([], before, after, full);
    assert after[0..] == after;
  }

  /** A cut flush, sent in whole or in part, with or without the error after it. */
  lemma CutDelivered(before: seq<Chunk>, mid: seq<Chunk>, cut: seq<Chunk>, error: Chunk)
    requires before <= mid && mid[|before|..] <= cut && error.Failure?
    ensures Delivers(before, mid, cut) && Delivers(before, mid, cut + [error])
    ensures Delivers(before, mid + [error], cut + [error])
  {
    var delivered := mid[|before|..];
    assert (mid + [error])[|before|..] == delivered + [error];
    assert (delivered + [error])[..|delivered|] == delivered && (cut + [error])[..|cut|] == cut;
  }

  /** A send lost inside a chunk, or a terminal payload in it, ends the stream there. */
  lemma LostInChunk(terminal: Terminal, x: seq<Chunk>, items: seq<bytes>, tail: seq<Chunk>)
    requires x <= AsChunks(CutAfterTerminal(terminal, items))
    ensures Truncates(x, if HasTerminal(terminal, items) then AsChunks(CutAfterTerminal(terminal, items))
                         else AsChunks(items) + tail)
  {
    CutOfAppend(terminal, items, []);
  }
}
