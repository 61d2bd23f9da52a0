/** Reading and writing event payloads: the frame parser, the incremental decoder, the
    adapter above it and the handler's encoder
    (internal/pipeline/stream_adapter.go, internal/httpapi/gemini/handler.go). */
module SseCodec {
  import opened Prelude
  import opened Sse

  // ---- One frame ----

  /** `bytes.Split(s, "\n")`. */
  function SplitLines(s: bytes): (lines: seq<bytes>)
    ensures |lines| >= 1
  {
    if s == [] then [[]]
    else
      var r := SplitLines(s[1..]);
      if s[0] == LF then [[]] + r else [[s[0]] + r[0]] + r[1..]
  }

  /** `bytes.Join(parts, "\n")`. */
  function JoinLines(parts: seq<bytes>): bytes {
    if parts == [] then []
    else if |parts| == 1 then parts[0]
    else JoinLines(parts[..|parts| - 1]) + [LF] + parts[|parts| - 1]
  }

  /** The loop over the lines of a frame, `data` being the data lines met so far. */
  function ParseLines(lines: seq<bytes>, data: seq<bytes>): Option<bytes>
    decreases |lines|
  {
    if lines == [] then
      if data == [] then None else Some(JoinLines(data))
    else
      var line := Trim(lines[0]);
      if line == [] || COLON <= line || EVENT_PREFIX <= line then
        ParseLines(lines[1..], data)
      else if DATA_PREFIX <= line then
        var part := Trim(line[|DATA_PREFIX|..]);
        if part == [] then ParseLines(lines[1..], data)
        else if part == DONE then None
        else ParseLines(lines[1..], data + [part])
      else if data == [] && (line[0] == OPEN_BRACE || line[0] == OPEN_BRACKET) then
        Some(line)
      else
        ParseLines(lines[1..], data)
  }

  function ParseFrame(frame: bytes): Option<bytes> {
    var t := Trim(frame);
    if t == [] then None
    else if !LooksLikeSse(t) then Some(t)
    else ParseLines(SplitLines(t), [])
  }

  method ParseSseFrame(frame: bytes) returns (payload: Option<bytes>)
    ensures payload == ParseFrame(frame)
  {
    var trimmed := Trim(frame);
    if trimmed == [] {
      return None;
    }
    if !LooksLikeSse(trimmed) {
      return Some(trimmed);
    }
    var lines := SplitLines(trimmed);
    var dataLines: seq<bytes> := [];
    for i := 0 to |lines|
      invariant ParseFrame(frame) == ParseLines(lines[i..], dataLines)
    {
      assert lines[i..][1..] == lines[i + 1..];
      var line := Trim(lines[i]);
      if line == [] || COLON <= line || EVENT_PREFIX <= line {
        continue;
      } else if DATA_PREFIX <= line {
        var part := Trim(line[|DATA_PREFIX|..]);
        if part == [] {
          continue;
        }
        if part == DONE {
          return None;
        }
        dataLines := dataLines + [part];
      } else if dataLines == [] && (line[0] == OPEN_BRACE || line[0] == OPEN_BRACKET) {
        return Some(line);
      }
    }
    return if dataLines == [] then None else Some(JoinLines(dataLines));
  }

  function PayloadOf(frame: bytes): seq<bytes> {
    match ParseFrame(frame)
    case Some(p) => [p]
    case None => []
  }

  /** The payloads of a list of frames. */
  function Payloads(frames: seq<bytes>): seq<bytes> {
    if frames == [] then [] else PayloadOf(frames[0]) + Payloads(frames[1..])
  }

  lemma {:induction false} PayloadsAppend(a: seq<bytes>, b: seq<bytes>)
    ensures Payloads(a + b) == Payloads(a) + Payloads(b)
  {
    if a == [] {
      assert a + b == b;
    } else {
      calc {
        Payloads(a + b);
        { assert (a + b)[0] == a[0] && (a + b)[1..] == a[1..] + b; }
        PayloadOf(a[0]) + Payloads(a[1..] + b);
        { PayloadsAppend(a[1..], b); }
        PayloadOf(a[0]) + (Payloads(a[1..]) + Payloads(b));
        PayloadOf(a[0]) + Payloads(a[1..]) + Payloads(b);
      }
    }
  }

  // ---- What a parsed payload looks like ----

  lemma JoinLinesGrows(data: seq<bytes>, part: bytes)
    ensures JoinLines(data + [part]) == if data == [] then part else JoinLines(data) + [LF] + part
  {
    assert (data + [part])[..|data|] == data;
  }

  /** Data lines are trimmed and not empty, so is their join. */
  lemma {:induction false} ParseLinesIsTrimmed(lines: seq<bytes>, data: seq<bytes>)
    requires data != [] ==> JoinLines(data) != [] && Trimmed(JoinLines(data))
    ensures var r := ParseLines(lines, data); r.Some? ==> r.value != [] && Trimmed(r.value)
    decreases |lines|
  {
    if lines != [] {
      TrimFacts(lines[0]);
      var line := Trim(lines[0]);
      ParseLinesIsTrimmed(lines[1..], data);
      if DATA_PREFIX <= line {
        var part := Trim(line[|DATA_PREFIX|..]);
        TrimFacts(line[|DATA_PREFIX|..]);
        if part != [] {
          DataStaysTrimmed(data, part);
          ParseLinesIsTrimmed(lines[1..], data + [part]);
        }
      }
    }
  }

  lemma DataStaysTrimmed(data: seq<bytes>, part: bytes)
    requires data != [] ==> JoinLines(data) != [] && Trimmed(JoinLines(data))
    requires part != [] && Trimmed(part)
    ensures JoinLines(data + [part]) != [] && Trimmed(JoinLines(data + [part]))
  {
    JoinLinesGrows(data, part);
  }

  lemma ParseFrameIsTrimmed(frame: bytes)
    ensures var r := ParseFrame(frame); r.Some? ==> r.value != [] && Trimmed(r.value)
  {
    TrimFacts(frame);
    ParseLinesIsTrimmed(SplitLines(Trim(frame)), []);
  }

  // ---- The incremental decoder ----

  /** `Flush`: what is left is taken as one last frame. */
  function FlushBuffer(buf: bytes): seq<bytes> {
    var t := Trim(buf);
    if t == [] then []
    else match ParseFrame(t)
      case Some(p) => [p]
      case None => if t[0] == OPEN_BRACE || t[0] == OPEN_BRACKET then [t] else []
  }

  class SseEventDecoder {
    var buf: bytes

    constructor ()
      ensures buf == []
    {
      buf := [];
    }

    predicate HasBuffered()
      reads this
    {
      Trim(buf) != []
    }

    method Feed(chunk: bytes) returns (out: seq<bytes>)
      modifies this
      ensures var d := FeedRaw(old(buf), chunk); buf == d.rest && out == Payloads(d.frames)
    {
      out := [];
      if chunk == [] {
        return;
      }
      buf := NormalizeNewlines(buf + chunk);
      ghost var all, frames := Drain(buf), [];
      while true
        invariant all == Then(Drained(frames, []), Drain(buf)) && out == Payloads(frames)
        decreases |buf|
      {
        var idx := BlankAt(buf);
        if idx < 0 {
          assert frames + [] == frames;
          break;
        }
        var frame := buf[..idx];
        ThenAssociates(Drained(frames, []), Drained([frame], []), Drain(buf[idx + 2..]));
        PayloadsAppend(frames, [frame]);
        frames := frames + [frame];
        buf := buf[idx + 2..];
        var payload := ParseSseFrame(frame);
        if payload.Some? {
          out := out + [payload.value];
        }
      }
    }

    method Flush() returns (out: seq<bytes>)
      modifies this
      ensures buf == [] && out == FlushBuffer(old(buf))
    {
      var trimmed := Trim(buf);
      buf := [];
      if trimmed == [] {
        return [];
      }
      var payload := ParseSseFrame(trimmed);
      if payload.Some? {
        return [payload.value];
      }
      if trimmed[0] == OPEN_BRACE || trimmed[0] == OPEN_BRACKET {
        return [trimmed];
      }
      return [];
    }
  }

  // ---- The adapter ----

  datatype Adapted = Adapted(out: seq<bytes>, buf: bytes)

  /** One frame of `wrapFrames`: trimmed, dropped if blank. */
  function Wrapped(frame: bytes): seq<bytes> {
    if Trim(frame) == [] then [] else [Trim(frame)]
  }

  function WrapFrames(frames: seq<bytes>): seq<bytes> {
    if frames == [] then [] else Wrapped(frames[0]) + WrapFrames(frames[1..])
  }

  lemma {:induction false} WrapAppend(a: seq<bytes>, b: seq<bytes>)
    ensures WrapFrames(a + b) == WrapFrames(a) + WrapFrames(b)
  {
    if a == [] {
      assert a + b == b;
    } else {
      calc {
        WrapFrames(a + b);
        { assert (a + b)[0] == a[0] && (a + b)[1..] == a[1..] + b; }
        Wrapped(a[0]) + WrapFrames(a[1..] + b);
        { WrapAppend(a[1..], b); }
        Wrapped(a[0]) + (WrapFrames(a[1..]) + WrapFrames(b));
        Wrapped(a[0]) + WrapFrames(a[1..]) + WrapFrames(b);
      }
    }
  }

  /** One upstream payload, adapted. */
  function AdaptOne(useSse: bool, buf: bytes, payload: bytes): Adapted {
    if payload == [] then Adapted([], buf)
    else if !useSse then Adapted([payload], buf)
    else
      var t := Trim(payload);
      if t == [] then Adapted([], buf)
      else if Trim(buf) != [] || LooksLikeSse(t) then
        var d := FeedRaw(buf, payload);
        Adapted(WrapFrames(Payloads(d.frames)), d.rest)
      else Adapted(WrapFrames([t]), buf)
  }

  function AdaptFlush(useSse: bool, buf: bytes): seq<bytes> {
    if useSse then WrapFrames(FlushBuffer(buf)) else []
  }

  function AdaptAll(useSse: bool, buf: bytes, payloads: seq<bytes>): Adapted
    decreases |payloads|
  {
    if payloads == [] then Adapted([], buf)
    else
      var first := AdaptOne(useSse, buf, payloads[0]);
      var later := AdaptAll(useSse, first.buf, payloads[1..]);
      Adapted(first.out + later.out, later.buf)
  }

  class GeminiStreamAdapter {
    const useSse: bool
    const decoder: SseEventDecoder?

    ghost predicate Valid() {
      useSse <==> decoder != null
    }

    function Buffered(): bytes
      requires Valid()
      reads decoder
    {
      if decoder == null then [] else decoder.buf
    }

    constructor (useSse: bool)
      ensures Valid() && this.useSse == useSse && Buffered() == []
      ensures fresh(this) && (decoder != null ==> fresh(decoder))
    {
      this.useSse := useSse;
      if useSse {
        var d := new SseEventDecoder();
        decoder := d;
      } else {
        decoder := null;
      }
    }

    method WrapAll(frames: seq<bytes>) returns (out: seq<bytes>)
      ensures out == WrapFrames(frames)
    {
      out := [];
      for i := 0 to |frames|
        invariant out == WrapFrames(frames[..i])
      {
        WrapAppend(frames[..i], [frames[i]]);
        assert frames[..i + 1] == frames[..i] + [frames[i]];
        var trimmed := Trim(frames[i]);
        if trimmed != [] {
          out := out + [trimmed];
        }
      }
      assert frames[..|frames|] == frames;
    }

    method Adapt(payload: bytes) returns (out: seq<bytes>)
      requires Valid()
      modifies decoder
      ensures Adapted(out, Buffered()) == AdaptOne(useSse, old(Buffered()), payload)
    {
      if payload == [] {
        return [];
      }
      if !useSse {
        return [payload];
      }
      var trimmed := Trim(payload);
      if trimmed == [] {
        return [];
      }
      if decoder.HasBuffered() || LooksLikeSse(trimmed) {
        var frames := decoder.Feed(payload);
        out := WrapAll(frames);
      } else {
        out := WrapAll([trimmed]);
      }
    }

    method Flush() returns (out: seq<bytes>)
      requires Valid()
      modifies decoder
      ensures Buffered() == [] && out == AdaptFlush(useSse, old(Buffered()))
    {
      if !useSse || decoder == null {
        return [];
      }
      var frames := decoder.Flush();
      out := WrapAll(frames);
    }
  }

  lemma {:induction false} WrapKeepsPayloads(frames: seq<bytes>)
    ensures WrapFrames(Payloads(frames)) == Payloads(frames)
  {
    if frames != [] {
      WrapKeepsPayloads(frames[1..]);
      ParseFrameIsTrimmed(frames[0]);
      var r := ParseFrame(frames[0]);
      if r.Some? {
        TrimFacts(r.value);
        assert Payloads(frames)[1..] == Payloads(frames[1..]);
      } else {
        assert Payloads(frames) == Payloads(frames[1..]);
      }
    }
  }

  /** No chunk is blank, and a chunk arriving on a blank buffer starts like an event. */
  predicate ArrivesAsSse(buf: bytes, chunks: seq<bytes>)
    decreases |chunks|
  {
    chunks == [] ||
    (Trim(chunks[0]) != [] && (Trim(buf) != [] || LooksLikeSse(Trim(chunks[0]))) &&
     ArrivesAsSse(FeedRaw(buf, chunks[0]).rest, chunks[1..]))
  }

  /** The adapter adds nothing to the decoder on such a stream. */
  lemma {:induction false} AdaptAgreesWithFeed(buf: bytes, chunks: seq<bytes>)
    requires ArrivesAsSse(buf, chunks)
    ensures var d := FeedAll(buf, chunks);
            AdaptAll(true, buf, chunks) == Adapted(Payloads(d.frames), d.rest)
    decreases |chunks|
  {
    if chunks != [] {
      var first := FeedRaw(buf, chunks[0]);
      TrimFacts(chunks[0]);
      WrapKeepsPayloads(first.frames);
      AdaptAgreesWithFeed(first.rest, chunks[1..]);
      PayloadsAppend(first.frames, FeedAll(first.rest, chunks[1..]).frames);
    }
  }

  // ---- The encoder ----

  /** The bytes that complete the blank line after a payload passed through as it is. */
  function MissingBlankLine(payload: bytes): bytes {
    if HasSuffix(payload, BLANK_LINE) || HasSuffix(payload, [CR, LF, CR, LF]) then []
    else if HasSuffix(payload, [CR, LF]) then [CR, LF]
    else if HasSuffix(payload, [LF]) then [LF]
    else BLANK_LINE
  }

  /** What `writeSSEPayload` writes. */
  function Encode(payload: bytes): bytes {
    var t := Trim(payload);
    if payload == [] || t == [] then []
    else if LooksLikeSse(t) then
      payload + MissingBlankLine(payload)
    else DATA_FIELD + payload + BLANK_LINE
  }

  function EncodeAll(payloads: seq<bytes>): bytes {
    if payloads == [] then [] else Encode(payloads[0]) + EncodeAll(payloads[1..])
  }

  class ResponseWriter {
    var body: bytes

    method Write(data: bytes)
      modifies this
      ensures body == old(body) + data
    {
      body := body + data;
    }

    method WriteSsePayload(payload: bytes)
      modifies this
      ensures body == old(body) + Encode(payload)
    {
      if payload == [] {
        return;
      }
      var trimmed := Trim(payload);
      if trimmed == [] {
        return;
      }
      ghost var before := body;
      if LooksLikeSse(trimmed) {
        Write(payload);
        if HasSuffix(payload, BLANK_LINE) || HasSuffix(payload, [CR, LF, CR, LF]) {
          assert payload + [] == payload;
          return;
        }
        if HasSuffix(payload, [CR, LF]) {
          Write([CR, LF]);
        } else if HasSuffix(payload, [LF]) {
          Write([LF]);
        } else {
          Write(BLANK_LINE);
        }
        Regroup(before, payload, MissingBlankLine(payload), []);
        return;
      }
      Write(DATA_FIELD);
      Write(payload);
      Write(BLANK_LINE);
      Regroup(before, DATA_FIELD, payload, BLANK_LINE);
    }
  }

  lemma Regroup(a: bytes, b: bytes, c: bytes, d: bytes)
    ensures a + b + c + d == a + (b + c + d)
    ensures a + b + c == a + (b + c)
  {
  }
}
