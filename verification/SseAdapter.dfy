/** When the stream adapter says what the decoder alone would say
    (internal/pipeline/stream_adapter.go). */
module SseAdapter {
  import opened Prelude
  import opened Sse
  import opened SseCodec
  import opened SseRoundTrip
  import opened SseTail

  /** What the decoder alone makes of a run of chunks. */
  function DecodeAll(buf: bytes, chunks: seq<bytes>): Adapted {
    var d := FeedAll(buf, chunks);
    Adapted(Payloads(d.frames), d.rest)
  }

  /** After every chunk, all the adapter has put out and what it holds back is the decoder's. */
  predicate Follows(buf: bytes, chunks: seq<bytes>) {
    forall n :: 0 <= n <= |chunks| ==> AdaptAll(true, buf, chunks[..n]) == DecodeAll(buf, chunks[..n])
  }

  /** A chunk that arrives on a blank buffer is empty or looks like an event. */
  predicate OpensAsEvents(buf: bytes, chunks: seq<bytes>)
    decreases |chunks|
  {
    chunks == [] ||
    (&& (chunks[0] == [] || Trim(buf) != [] || LooksLikeSse(Trim(chunks[0])))
     && OpensAsEvents(FeedRaw(buf, chunks[0]).rest, chunks[1..]))
  }

  /** No chunk is blank without being empty. */
  predicate NoBlankChunk(chunks: seq<bytes>) {
    forall i :: 0 <= i < |chunks| ==> chunks[i] != [] ==> Trim(chunks[i]) != []
  }

  // ---- Blank text ----

  predicate Blank(s: bytes) {
    forall i :: 0 <= i < |s| ==> IsSpaceByte(s[i])
  }

  lemma {:induction false} TrimOfBlank(s: bytes)
    ensures Trim(s) == [] <==> Blank(s)
    decreases |s|
  {
    if s != [] && IsSpaceByte(s[0]) {
      TrimOfBlank(s[1..]);
      TrimDropsLeadingSpace(s);
      assert forall i :: 0 < i < |s| ==> s[i] == s[1..][i - 1];
    } else if s != [] {
      TrimRightEnds(s, IsSpaceByte);
    }
  }

  lemma {:induction false} BlankNewlines(s: bytes)
    requires Blank(s)
    ensures Blank(ReplaceCrLf(s)) && Blank(ReplaceCr(s)) && (s != [] ==> ReplaceCrLf(s) != [])
    decreases |s|
  {
    if s != [] {
      BlankNewlines(s[1..]);
      if |s| >= 2 {
        BlankNewlines(s[2..]);
      }
    }
  }

  lemma NormalizeBlank(s: bytes)
    requires Blank(s)
    ensures Blank(NormalizeNewlines(s)) && (s != [] ==> NormalizeNewlines(s) != [])
  {
    BlankNewlines(s);
    BlankNewlines(ReplaceCrLf(s));
    ReplaceCrFacts(ReplaceCrLf(s));
  }

  /** A text without a blank line has its first one no earlier than where it ends. */
  lemma {:induction false} BlankAtBeyond(a: bytes, b: bytes)
    requires BlankAt(a) < 0
    ensures BlankAt(a + b) < 0 || BlankAt(a + b) + 1 >= |a|
  {
    if |a| >= 2 {
      BlankAtBeyond(a[1..], b);
      assert (a + b)[1..] == a[1..] + b;
      assert (a + b)[0] == a[0] && (a + b)[1] == a[1];
    }
  }

  /** The decoder never ignores a blank chunk: it grows the buffer, or ends the event in it. */
  lemma BlankChunkMovesBuffer(buf: bytes, chunk: bytes)
    requires CR !in buf && BlankAt(buf) < 0 && Trim(buf) != [] && chunk != [] && Trim(chunk) == []
    ensures FeedRaw(buf, chunk).rest != buf
  {
    var more := NormalizeNewlines(chunk);
    var s := buf + more;
    TrimOfBlank(buf);
    TrimOfBlank(chunk);
    NormalizeBlank(chunk);
    NormalizeFacts(buf);
    NormalizeAppend(buf, chunk);
    BlankAtBeyond(buf, more);
    RestIsSuffix(s);
    var i := BlankAt(s);
    if i >= 0 {
      RestIsSuffix(s[i + 2..]);
      assert Drain(s).rest == Drain(s[i + 2..]).rest;
      assert Blank(Drain(s).rest);
    }
  }

  // ---- A payload of its own ----

  lemma {:induction false} TrimLeftSkips(u: bytes, s: bytes)
    requires Blank(u)
    ensures Trim(u + s) == Trim(s)
  {
    if u == [] {
      assert u + s == s;
    } else {
      TrimLeftSkips(u[1..], s);
      assert (u + s)[1..] == u[1..] + s;
      TrimDropsLeadingSpace(u + s);
    }
  }

  lemma {:induction false} TrimRightSkips(s: bytes, w: bytes)
    requires Blank(w)
    ensures TrimRightBy(s + w, IsSpaceByte) == TrimRightBy(s, IsSpaceByte)
  {
    if w == [] {
      assert s + w == s;
    } else {
      TrimRightSkips(s, w[..|w| - 1]);
      assert (s + w)[..|s + w| - 1] == s + w[..|w| - 1];
    }
  }

  /** Blank text around it does not change what is trimmed. */
  lemma TrimMiddle(u: bytes, s: bytes, w: bytes)
    requires Blank(u) && Blank(w) && s != [] && !IsSpaceByte(s[0])
    ensures Trim(u + s + w) == Trim(s)
  {
    assert u + s + w == u + (s + w);
    TrimLeftSkips(u, s + w);
    TrimRightSkips(s, w);
    assert TrimLeftBy(s + w, IsSpaceByte) == s + w && TrimLeftBy(s, IsSpaceByte) == s;
  }

  lemma BlankFrame(f: bytes)
    requires Blank(f)
    ensures ParseFrame(f) == None
  {
    TrimOfBlank(f);
  }

  lemma {:induction false} BlankPayloads(s: bytes)
    requires Blank(s)
    ensures Payloads(Drain(s).frames) == [] && Blank(Drain(s).rest)
    decreases |s|
  {
    var i := BlankAt(s);
    if i >= 0 {
      BlankPayloads(s[i + 2..]);
      BlankFrame(s[..i]);
      PayloadsAppend([s[..i]], Drain(s[i + 2..]).frames);
      assert [s[..i]][1..] == [];
    }
  }

  lemma TextStays(u: bytes, t: bytes, w: bytes)
    requires t != [] && Trimmed(t) && BlankAt(u + t + w) < 0
    ensures !Blank(Drain(u + t + w).rest)
  {
    assert (u + t + w)[|u|] == t[0];
  }

  /** A blank event in front of a text adds no payload. */
  lemma BlankEventFirst(u: bytes, rest: bytes)
    requires Blank(u) && BlankAt(u) >= 0
    ensures var d := Drain(u[BlankAt(u) + 2..] + rest);
            Payloads(Drain(u + rest).frames) == Payloads(d.frames) && Drain(u + rest).rest == d.rest
  {
    var i := BlankAt(u);
    FirstFrame(u, rest);
    BlankFrame(u[..i]);
    assert [u[..i]][1..] == [];
    PayloadsAppend([u[..i]], Drain(u[i + 2..] + rest).frames);
  }

  /** A payload with blank text around it and no blank line in it is one event, if the blank
      line that ends it has come. */
  lemma {:induction false} OneEvent(u: bytes, t: bytes, w: bytes)
    requires Blank(u) && Blank(w) && t != [] && Trimmed(t) && !LooksLikeSse(t) && BlankAt(t) < 0
    requires Blank(Drain(u + t + w).rest)
    ensures Payloads(Drain(u + t + w).frames) == [t]
    decreases |u|
  {
    var i := BlankAt(u);
    if i >= 0 {
      assert u + t + w == u + (t + w);
      assert u[i + 2..] + (t + w) == u[i + 2..] + t + w;
      BlankEventFirst(u, t + w);
      OneEvent(u[i + 2..], t, w);
    } else {
      FirstEventWhole(u, t, w);
    }
  }

  lemma FirstEventWhole(u: bytes, t: bytes, w: bytes)
    requires Blank(u) && Blank(w) && t != [] && Trimmed(t) && !LooksLikeSse(t) && BlankAt(t) < 0 && BlankAt(u) < 0
    requires Blank(Drain(u + t + w).rest)
    ensures Payloads(Drain(u + t + w).frames) == [t]
  {
    LastOfPieces(u, t);
    BlankAtConcat(u, t);
    BlankAtConcat(u + t, w);
    var j := BlankAt(w);
    if j < 0 {
      TextStays(u, t, w);
      assert false;
    } else {
      EventEnds(u, t, w, j);
    }
  }

  lemma LastOfPieces(u: bytes, t: bytes)
    requires t != []
    ensures (u + t)[|u + t| - 1] == t[|t| - 1]
  {
  }

  lemma EventEnds(u: bytes, t: bytes, w: bytes, j: nat)
    requires Blank(u) && Blank(w) && t != [] && Trimmed(t) && !LooksLikeSse(t)
    requires j + 2 <= |w| && BlankAt(u + t + w) == |u + t| + j
    ensures Payloads(Drain(u + t + w).frames) == [t]
  {
    var s, head, tail := u + t + w, u + t + w[..j], w[j + 2..];
    assert s[..|head|] == head && s[|head| + 2..] == tail;
    DrainStep(s, head, tail);
    TrimMiddle(u, t, w[..j]);
    TrimFacts(t);
    assert ParseFrame(head) == Some(t);
    PayloadsOfOne(head, t);
    BlankPayloads(tail);
    PayloadsAppend([head], Drain(tail).frames);
  }

  lemma {:induction false} FrameIsSlice(s: bytes, f: bytes)
    requires f in Drain(s).frames
    ensures exists i, j :: 0 <= i <= j <= |s| && f == s[i..j]
    decreases |s|
  {
    DrainMember(s, f);
    var k := BlankAt(s);
    if f == s[..k] {
      assert f == s[0..k];
    } else {
      FrameIsSlice(s[k + 2..], f);
      var i, j :| 0 <= i <= j <= |s[k + 2..]| && f == s[k + 2..][i..j];
      SliceOfTail(s, k + 2, i, j);
    }
  }

  lemma SliceOfTail(s: bytes, k: nat, i: nat, j: nat)
    requires k <= |s| && i <= j <= |s[k..]|
    ensures s[k..][i..j] == s[k + i..k + j]
  {
  }

  /** A slice of text with a blank end holds no more than the text. */
  lemma SliceFits(x: bytes, w: bytes, i: nat, j: nat)
    requires Blank(w) && i <= j <= |x + w|
    ensures |Trim((x + w)[i..j])| <= |x|
  {
    var f := (x + w)[i..j];
    if j <= |x| {
      TrimFacts(f);
    } else if i >= |x| {
      assert f == w[i - |x|..j - |x|];
      TrimOfBlank(f);
    } else {
      assert f == x[i..] + w[..j - |x|];
      TrimEndFits(x[i..], w[..j - |x|]);
    }
  }

  lemma {:induction false} TrimEndFits(x: bytes, w: bytes)
    requires Blank(w)
    ensures |Trim(x + w)| <= |x|
    decreases |x|
  {
    if x == [] {
      assert x + w == w;
      TrimOfBlank(w);
    } else if IsSpaceByte(x[0]) {
      assert (x + w)[1..] == x[1..] + w;
      TrimDropsLeadingSpace(x + w);
      TrimEndFits(x[1..], w);
    } else {
      assert [] + x + w == x + w;
      TrimMiddle([], x, w);
      TrimFacts(x);
    }
  }

  /** A payload with a blank line in it is torn apart: no frame holds it whole. */
  lemma {:induction false} NoFrameHolds(u: bytes, t: bytes, w: bytes, f: bytes)
    requires Blank(u) && Blank(w) && t != [] && Trimmed(t) && BlankAt(t) >= 0
    requires f in Drain(u + t + w).frames
    ensures |Trim(f)| < |t|
    decreases |u|
  {
    var i := BlankAt(u);
    if i >= 0 {
      assert u + t + w == u + (t + w);
      FirstFrame(u, t + w);
      assert u[i + 2..] + (t + w) == u[i + 2..] + t + w;
      if f == u[..i] {
        TrimOfBlank(f);
      } else {
        NoFrameHolds(u[i + 2..], t, w, f);
      }
    } else {
      TornFrame(u, t, w, f);
    }
  }

  lemma TornAt(u: bytes, t: bytes, w: bytes, k: nat)
    requires k + 2 <= |t|
    ensures var s, head, tail := u + t + w, u + t[..k], t[k + 2..] + w;
            |head| + 2 <= |s| && s[..|head|] == head && s[|head| + 2..] == tail
  {
  }

  lemma TornFrame(u: bytes, t: bytes, w: bytes, f: bytes)
    requires Blank(u) && Blank(w) && t != [] && Trimmed(t) && BlankAt(t) >= 0 && BlankAt(u) < 0
    requires f in Drain(u + t + w).frames
    ensures |Trim(f)| < |t|
  {
    var k := BlankAt(t);
    BlankAtConcat(u, t);
    BlankAtAppend(u + t, w);
    var s, head, tail := u + t + w, u + t[..k], t[k + 2..] + w;
    TornAt(u, t, w, k);
    DrainStep(s, head, tail);
    if f == head {
      TrimLeftSkips(u, t[..k]);
      TrimFacts(t[..k]);
    } else {
      FrameFits(t[k + 2..], w, f);
    }
  }

  lemma FrameFits(x: bytes, w: bytes, f: bytes)
    requires Blank(w) && f in Drain(x + w).frames
    ensures |Trim(f)| <= |x|
  {
    FrameIsSlice(x + w, f);
    var i, j :| 0 <= i <= j <= |x + w| && f == (x + w)[i..j];
    SliceFits(x, w, i, j);
  }

  /** A chunk on a blank buffer that is a whole event: trimmed it has no CR and no blank line,
      and normalised it ends with whole blank lines followed by the buffer's own text. */
  predicate StandsAlone(buf: bytes, chunk: bytes) {
    CR !in Trim(chunk) && BlankAt(Trim(chunk)) < 0 && EndsInBlankLines(buf + NormalizeNewlines(chunk), buf)
  }

  lemma AroundTrimmed(c: bytes) returns (u: bytes, w: bytes)
    ensures c == u + Trim(c) + w && Blank(u) && Blank(w)
  {
    TrimLeftPieces(c);
    var left := TrimLeftBy(c, IsSpaceByte);
    TrimRightPieces(left);
    u, w := c[..|c| - |left|], left[|Trim(c)|..];
  }

  lemma {:induction false} TrimLeftPieces(s: bytes)
    ensures var r := TrimLeftBy(s, IsSpaceByte); |r| <= |s| && s == s[..|s| - |r|] + r && Blank(s[..|s| - |r|])
  {
    if s != [] && IsSpaceByte(s[0]) {
      TrimLeftPieces(s[1..]);
      var r := TrimLeftBy(s, IsSpaceByte);
      assert s[..|s| - |r|] == [s[0]] + s[1..][..|s[1..]| - |r|];
    }
  }

  lemma {:induction false} TrimRightPieces(s: bytes)
    ensures var r := TrimRightBy(s, IsSpaceByte); |r| <= |s| && s == r + s[|r|..] && Blank(s[|r|..])
  {
    if s != [] && IsSpaceByte(s[|s| - 1]) {
      TrimRightPieces(s[..|s| - 1]);
      var r := TrimRightBy(s, IsSpaceByte);
      assert s[|r|..] == s[..|s| - 1][|r|..] + [s[|s| - 1]];
    }
  }

  /** Normalised, such a chunk is its text between blanks. */
  lemma NormalizedAround(buf: bytes, c: bytes) returns (u: bytes, w: bytes)
    requires CR !in buf && Blank(buf) && Trim(c) != [] && CR !in Trim(c)
    ensures NormalizeNewlines(buf + c) == u + Trim(c) + w && Blank(u) && Blank(w)
  {
    var x, y := AroundTrimmed(c);
    TrimFacts(c);
    NormalizeAppend(buf, c);
    NormalizeFacts(buf);
    NormalizeAround(x, Trim(c), y);
    NormalizeBlank(x);
    NormalizeBlank(y);
    u, w := buf + NormalizeNewlines(x), NormalizeNewlines(y);
    Reassociate(buf, NormalizeNewlines(x), Trim(c), w);
  }

  lemma NormalizeAround(x: bytes, t: bytes, y: bytes)
    requires t != [] && Trimmed(t) && CR !in t
    ensures NormalizeNewlines(x + t + y) == NormalizeNewlines(x) + t + NormalizeNewlines(y)
  {
    assert t[|t| - 1] != CR && t[0] != LF && (x + t)[|x + t| - 1] == t[|t| - 1];
    NormalizeAppend(x + t, y);
    NormalizeAppend(x, t);
    NormalizeFacts(t);
  }

  lemma Reassociate(a: bytes, b: bytes, c: bytes, d: bytes)
    ensures a + (b + c + d) == (a + b) + c + d
  {
  }

  /** The decoder reads a chunk as its one trimmed payload only if it has no CR or blank line. */
  lemma OnePayloadIsWhole(buf: bytes, c: bytes)
    requires CR !in buf && Blank(buf) && Trim(c) != [] && c != []
    requires Payloads(FeedRaw(buf, c).frames) == [Trim(c)]
    ensures CR !in Trim(c) && BlankAt(Trim(c)) < 0
  {
    var s, t := NormalizeNewlines(buf + c), Trim(c);
    NormalizeFacts(buf + c);
    RestIsFree(s);
    assert t in Payloads(Drain(s).frames);
    PayloadHasFrame(Drain(s).frames, t);
    var f :| f in Drain(s).frames && ParseFrame(f) == Some(t);
    FramePayloadFree(f);
    TrimFacts(f);
    TrimFacts(Trim(f));
    PayloadFitsFrame(Trim(f));
    assert ParseFrame(Trim(f)) == ParseFrame(f);
    if BlankAt(t) >= 0 {
      var u, w := NormalizedAround(buf, c);
      TrimFacts(c);
      NoFrameHolds(u, t, w, f);
      assert false;
    }
  }

  // ---- One chunk ----

  /** The chunks the adapter treats as the decoder does. */
  predicate Harmless(buf: bytes, chunk: bytes) {
    || chunk == []
    || (if Trim(buf) != [] then Trim(chunk) != [] else LooksLikeSse(Trim(chunk)) || StandsAlone(buf, chunk))
  }

  predicate SameOn(buf: bytes, chunk: bytes) {
    var d := FeedRaw(buf, chunk);
    AdaptOne(true, buf, chunk) == Adapted(Payloads(d.frames), d.rest)
  }

  /** On a blank buffer, for a chunk that does not look like an event. */
  lemma OwnPayloadFollows(buf: bytes, chunk: bytes)
    requires CR !in buf && Blank(buf) && BlankAt(buf) < 0 && chunk != [] && !LooksLikeSse(Trim(chunk))
    ensures SameOn(buf, chunk) <==> StandsAlone(buf, chunk)
  {
    BufferComesBack(buf, chunk);
    var t, d := Trim(chunk), FeedRaw(buf, chunk);
    TrimFacts(chunk);
    TrimOfBlank(buf);
    assert WrapFrames([t]) == if t == [] then [] else [t] by {
      assert [t][1..] == [];
      TrimFacts(t);
    }
    if t == [] {
      TrimOfBlank(chunk);
      NormalizeBlank(buf + chunk);
      BlankPayloads(NormalizeNewlines(buf + chunk));
    } else {
      if SameOn(buf, chunk) {
        OnePayloadIsWhole(buf, chunk);
      }
      if StandsAlone(buf, chunk) {
        var u, w := NormalizedAround(buf, chunk);
        OneEvent(u, t, w);
      }
    }
  }

  lemma OneChunkFollows(buf: bytes, chunk: bytes)
    requires CR !in buf && BlankAt(buf) < 0
    ensures SameOn(buf, chunk) <==> Harmless(buf, chunk)
  {
    WrapKeepsPayloads(FeedRaw(buf, chunk).frames);
    if chunk != [] {
      if Trim(buf) != [] {
        if Trim(chunk) == [] {
          BlankChunkMovesBuffer(buf, chunk);
        }
      } else if !LooksLikeSse(Trim(chunk)) {
        TrimOfBlank(buf);
        OwnPayloadFollows(buf, chunk);
      }
    }
  }

  lemma BufferStaysOpen(buf: bytes, chunk: bytes)
    requires CR !in buf && BlankAt(buf) < 0
    ensures CR !in FeedRaw(buf, chunk).rest && BlankAt(FeedRaw(buf, chunk).rest) < 0
  {
    if chunk != [] {
      var s := NormalizeNewlines(buf + chunk);
      NormalizeFacts(buf + chunk);
      RestIsFree(s);
      RestIsDrained(s);
    }
  }

  // ---- Streams ----

  /** Both sides, one chunk and then the others. */
  lemma FirstThenRest(buf: bytes, chunks: seq<bytes>, n: nat)
    requires 0 < n <= |chunks|
    ensures var first, d := AdaptOne(true, buf, chunks[0]), FeedRaw(buf, chunks[0]);
            var later := AdaptAll(true, first.buf, chunks[1..][..n - 1]);
            var decoded := DecodeAll(d.rest, chunks[1..][..n - 1]);
            && AdaptAll(true, buf, chunks[..n]) == Adapted(first.out + later.out, later.buf)
            && DecodeAll(buf, chunks[..n]) == Adapted(Payloads(d.frames) + decoded.out, decoded.buf)
  {
    var d := FeedRaw(buf, chunks[0]);
    assert chunks[..n][1..] == chunks[1..][..n - 1] && chunks[..n][0] == chunks[0];
    PayloadsAppend(d.frames, FeedAll(d.rest, chunks[1..][..n - 1]).frames);
  }

  lemma FollowsFirst(buf: bytes, chunks: seq<bytes>)
    requires chunks != []
    ensures var d := FeedRaw(buf, chunks[0]);
            Follows(buf, chunks) <==> SameOn(buf, chunks[0]) && Follows(d.rest, chunks[1..])
  {
    var first, d := AdaptOne(true, buf, chunks[0]), FeedRaw(buf, chunks[0]);
    FirstThenRest(buf, chunks, 1);
    assert chunks[1..][..0] == [];
    assert Payloads(d.frames) + [] == Payloads(d.frames) && first.out + [] == first.out;
    if Follows(buf, chunks) {
      assert AdaptAll(true, buf, chunks[..1]) == DecodeAll(buf, chunks[..1]);
      forall n | 0 <= n <= |chunks[1..]|
        ensures AdaptAll(true, d.rest, chunks[1..][..n]) == DecodeAll(d.rest, chunks[1..][..n])
      {
        FirstThenRest(buf, chunks, n + 1);
        assert AdaptAll(true, buf, chunks[..n + 1]) == DecodeAll(buf, chunks[..n + 1]);
        SameTail(first.out, AdaptAll(true, d.rest, chunks[1..][..n]).out, DecodeAll(d.rest, chunks[1..][..n]).out);
      }
    }
    if first == Adapted(Payloads(d.frames), d.rest) && Follows(d.rest, chunks[1..]) {
      forall n | 0 <= n <= |chunks|
        ensures AdaptAll(true, buf, chunks[..n]) == DecodeAll(buf, chunks[..n])
      {
        if n > 0 {
          FirstThenRest(buf, chunks, n);
        } else {
          assert chunks[..n] == [];
        }
      }
    }
  }

  lemma SameTail(a: seq<bytes>, b: seq<bytes>, c: seq<bytes>)
    requires a + b == a + c
    ensures b == c
  {
    assert b == (a + b)[|a|..] && c == (a + c)[|a|..];
  }

  /** Every chunk is harmless on the buffer the decoder has by then. */
  predicate AllHarmless(buf: bytes, chunks: seq<bytes>)
    decreases |chunks|
  {
    chunks == [] || (Harmless(buf, chunks[0]) && AllHarmless(FeedRaw(buf, chunks[0]).rest, chunks[1..]))
  }

  /** The adapter makes of a stream what the decoder makes, at every point, exactly if every
      chunk is harmless. */
  lemma {:induction false} AdapterIsDecoderExactly(buf: bytes, chunks: seq<bytes>)
    requires CR !in buf && BlankAt(buf) < 0
    ensures Follows(buf, chunks) <==> AllHarmless(buf, chunks)
    decreases |chunks|
  {
    if chunks == [] {
      assert chunks[..0] == [];
    } else {
      BufferStaysOpen(buf, chunks[0]);
      AdapterIsDecoderExactly(FeedRaw(buf, chunks[0]).rest, chunks[1..]);
      OneChunkFollows(buf, chunks[0]);
      FollowsFirst(buf, chunks);
    }
  }

  lemma {:induction false} HarmlessEvents(buf: bytes, chunks: seq<bytes>)
    requires OpensAsEvents(buf, chunks)
    ensures AllHarmless(buf, chunks) <==> NoBlankChunk(chunks)
    decreases |chunks|
  {
    if chunks != [] {
      HarmlessEvents(FeedRaw(buf, chunks[0]).rest, chunks[1..]);
      NoBlankFirst(chunks);
    }
  }

  /** If every chunk on a blank buffer looks like an event, that is: exactly if no chunk is blank. */
  lemma EventStreamsFollowExactly(buf: bytes, chunks: seq<bytes>)
    requires CR !in buf && BlankAt(buf) < 0 && OpensAsEvents(buf, chunks)
    ensures Follows(buf, chunks) <==> NoBlankChunk(chunks)
  {
    AdapterIsDecoderExactly(buf, chunks);
    HarmlessEvents(buf, chunks);
  }

  lemma NoBlankFirst(chunks: seq<bytes>)
    requires chunks != []
    ensures NoBlankChunk(chunks) <==> (chunks[0] != [] ==> Trim(chunks[0]) != []) && NoBlankChunk(chunks[1..])
  {
    assert forall i :: 0 < i < |chunks| ==> chunks[i] == chunks[1..][i - 1];
  }

  // ---- Where the adapter departs from the decoder ----

  /** A chunk that is only the closing blank line is dropped by the adapter: the event
      before it stays open and the next one runs into it. The decoder alone keeps them
      apart. */
  lemma BlankChunkMergesEvents(a: bytes, b: bytes)
    requires Plain(a) && Plain(b)
    ensures var chunks: seq<bytes> := [DATA_FIELD + a + [LF], [LF], DATA_FIELD + b + BLANK_LINE];
            && Payloads(FeedAll([], chunks).frames) == [a, b]
            && AdaptAll(true, [], chunks) == Adapted([a + [LF] + b], [])
  {
    var open, next := DATA_FIELD + a + [LF], DATA_FIELD + b + BLANK_LINE;
    ThreeChunksAreTwoEvents(a, b);
    PlainListRoundTrip([a, b], [open, [LF], next]);
    AdaptOpen(a);
    AdaptNext(a, b);
    AdaptThree([], open, [LF], next);
    assert [] + [] + [a + [LF] + b] == [a + [LF] + b];
  }

  lemma AdaptOpen(a: bytes)
    requires Plain(a)
    ensures var open := DATA_FIELD + a + [LF];
            AdaptOne(true, [], open) == Adapted([], open) && AdaptOne(true, open, [LF]) == Adapted([], open)
  {
    OpenEventStaysBuffered(a);
    var close: bytes := [LF];
    assert close[1..] == [];
    TrimDropsLeadingSpace(close);
    assert Trim(close) == [];
    assert WrapFrames(Payloads([])) == [];
  }

  lemma AdaptNext(a: bytes, b: bytes)
    requires Plain(a) && Plain(b)
    ensures AdaptOne(true, DATA_FIELD + a + [LF], DATA_FIELD + b + BLANK_LINE) == Adapted([a + [LF] + b], [])
  {
    var next := DATA_FIELD + b + BLANK_LINE;
    OpenEventStaysBuffered(a);
    MergedFrame(a, b);
    TrimKeepsPrefix(next, DATA_PREFIX);
  }

  lemma ThreeChunksAreTwoEvents(a: bytes, b: bytes)
    requires Plain(a) && Plain(b)
    ensures Concat([DATA_FIELD + a + [LF], [LF], DATA_FIELD + b + BLANK_LINE]) == EncodeAll([a, b])
  {
    var open, close, next := DATA_FIELD + a + [LF], [LF], DATA_FIELD + b + BLANK_LINE;
    EncodePlain(a);
    EncodePlain(b);
    assert [open, close, next][1..] == [close, next] && [close, next][1..] == [next] && [next][1..] == [];
    assert [a, b][1..] == [b] && [b][1..] == [];
    assert Concat([next]) == next + [] == next;
    assert Concat([close, next]) == close + next;
    assert EncodeAll([b]) == next + [] == next;
    assert open + close == Encode(a);
    assert open + (close + next) == (open + close) + next;
  }

  lemma AdaptCons(buf: bytes, x: bytes, later: seq<bytes>)
    ensures var first := AdaptOne(true, buf, x);
            var all := AdaptAll(true, first.buf, later);
            AdaptAll(true, buf, [x] + later) == Adapted(first.out + all.out, all.buf)
  {
    assert ([x] + later)[1..] == later;
  }

  lemma AdaptThree(buf: bytes, x: bytes, y: bytes, z: bytes)
    ensures var p := AdaptOne(true, buf, x);
            var q := AdaptOne(true, p.buf, y);
            var r := AdaptOne(true, q.buf, z);
            AdaptAll(true, buf, [x, y, z]) == Adapted(p.out + q.out + r.out, r.buf)
  {
    var p := AdaptOne(true, buf, x);
    var q := AdaptOne(true, p.buf, y);
    var r := AdaptOne(true, q.buf, z);
    AdaptCons(buf, x, [y, z]);
    AdaptCons(p.buf, y, [z]);
    AdaptCons(q.buf, z, []);
    assert [x] + [y, z] == [x, y, z] && [y] + [z] == [y, z] && [z] + [] == [z];
    assert p.out + (q.out + (r.out + [])) == p.out + q.out + r.out;
  }

  lemma OpenEventStaysBuffered(a: bytes)
    requires Plain(a)
    ensures var open := DATA_FIELD + a + [LF];
            && Trim(open) == DATA_FIELD + a && LooksLikeSse(DATA_FIELD + a)
            && FeedRaw([], open) == Drained([], open)
  {
    var open, field := DATA_FIELD + a + [LF], DATA_FIELD + a;
    FreeAppend(DATA_FIELD, a);
    FreeAppend(field, [LF]);
    NormalizeFacts(open);
    assert [] + open == open;
    NoBlankInLine(field);
    DataLineReads(a);
    assert open[..|open| - 1] == field;
    assert TrimLeftBy(open, IsSpaceByte) == open;
    assert TrimRightBy(open, IsSpaceByte) == TrimRightBy(field, IsSpaceByte) == field;
  }

  lemma {:induction false} NoBlankInLine(s: bytes)
    requires LF !in s
    ensures BlankAt(s + [LF]) == -1
  {
    if s != [] {
      NoBlankInLine(s[1..]);
      assert (s + [LF])[1..] == s[1..] + [LF];
    }
  }

  lemma {:induction false} TwoLines(x: bytes, y: bytes)
    requires LF !in x && LF !in y && y != []
    ensures SplitLines(x + [LF] + y) == [x, y]
    ensures BlankAt(x + [LF] + y + BLANK_LINE) == |x| + 1 + |y|
  {
    var s := x + [LF] + y;
    if x == [] {
      assert s[1..] == y && (s + BLANK_LINE)[1..] == y + BLANK_LINE + [];
      SplitLinesOfOne(y);
      BlankAfterLine(y, []);
    } else {
      TwoLines(x[1..], y);
      assert s[1..] == x[1..] + [LF] + y;
      assert (s + BLANK_LINE)[1..] == x[1..] + [LF] + y + BLANK_LINE;
      assert x == [x[0]] + x[1..];
    }
  }

  lemma TwoDataLines(a: bytes, b: bytes)
    requires Plain(a) && Plain(b)
    ensures ParseFrame(DATA_FIELD + a + [LF] + (DATA_FIELD + b)) == Some(a + [LF] + b)
  {
    var x, y := DATA_FIELD + a, DATA_FIELD + b;
    var f := x + [LF] + y;
    TwoLines(x, y);
    assert f[|f| - 1] == b[|b| - 1];
    TrimFacts(f);
    assert DATA_PREFIX <= f;
    ParseTwoLines(a, b);
  }

  lemma ParseTwoLines(a: bytes, b: bytes)
    requires Plain(a) && Plain(b)
    ensures ParseLines([DATA_FIELD + a, DATA_FIELD + b], []) == Some(a + [LF] + b)
  {
    var x, y := DATA_FIELD + a, DATA_FIELD + b;
    DataLineReads(a);
    DataLineReads(b);
    assert [x, y][1..] == [y];
    assert [y][1..] == [];
    assert [] + [a] == [a];
    assert JoinLines([a]) == a;
    JoinLinesGrows([a], b);
    assert ParseLines([y], [a]) == ParseLines([], [a] + [b]);
  }

  lemma MergedFrame(a: bytes, b: bytes)
    requires Plain(a) && Plain(b)
    ensures var d := FeedRaw(DATA_FIELD + a + [LF], DATA_FIELD + b + BLANK_LINE);
            WrapFrames(Payloads(d.frames)) == [a + [LF] + b] && d.rest == []
  {
    var x, y := DATA_FIELD + a, DATA_FIELD + b;
    var frame := x + [LF] + y;
    var s := frame + BLANK_LINE;
    assert (x + [LF]) + (y + BLANK_LINE) == s;
    FreeAppend(DATA_FIELD, a);
    FreeAppend(DATA_FIELD, b);
    FreeAppend(x, [LF]);
    FreeAppend(x + [LF], y);
    FreeAppend(frame, BLANK_LINE);
    NormalizeFacts(s);
    TwoLines(x, y);
    assert s[..|frame|] == frame && s[|frame| + 2..] == [];
    DrainStep(s, frame, []);
    TwoDataLines(a, b);
    PayloadsOfOne(frame, a + [LF] + b);
    assert [frame] + [] == [frame];
    WrapKeepsPayloads([frame]);
  }

  const SPACE: bytes := [32]

  /** A blank chunk inside a payload is lost from the text itself: for all such `a` and `b` the
      client is sent `ab` where the provider wrote `a b`. */
  lemma BlankChunkCorruptsText(a: bytes, b: bytes)
    requires Plain(a) && Plain(a + b) && Plain(a + SPACE + b) && b != []
    ensures var chunks: seq<bytes> := [DATA_FIELD + a, SPACE, b + BLANK_LINE];
            && Payloads(FeedAll([], chunks).frames) == [a + SPACE + b]
            && AdaptAll(true, [], chunks) == Adapted([a + b], [])
  {
    var open, next := DATA_FIELD + a, b + BLANK_LINE;
    SplitPayload(a, b);
    PlainListRoundTrip([a + SPACE + b], [open, SPACE, next]);
    AdaptHalf(a);
    AdaptOtherHalf(a, b);
    AdaptThree([], open, SPACE, next);
    assert [] + [] + [a + b] == [a + b];
  }

  lemma SplitPayload(a: bytes, b: bytes)
    requires Plain(a + SPACE + b)
    ensures Concat([DATA_FIELD + a, SPACE, b + BLANK_LINE]) == EncodeAll([a + SPACE + b])
  {
    var open, next, whole := DATA_FIELD + a, b + BLANK_LINE, a + SPACE + b;
    EncodePlain(whole);
    assert [open, SPACE, next][1..] == [SPACE, next] && [SPACE, next][1..] == [next] && [next][1..] == [];
    assert [whole][1..] == [];
    assert Concat([next]) == next + [] == next;
    assert Concat([SPACE, next]) == SPACE + next;
    assert open + (SPACE + next) == DATA_FIELD + whole + BLANK_LINE;
    assert EncodeAll([whole]) == Encode(whole) + [] == Encode(whole);
  }

  lemma HalfStaysBuffered(a: bytes)
    requires Plain(a)
    ensures var open := DATA_FIELD + a;
            && FeedRaw([], open) == Drained([], open) && Trim(open) == open && LooksLikeSse(open)
            && CR !in open && LF !in open
  {
    var open := DATA_FIELD + a;
    FieldIsOneLine(a);
    NormalizeFacts(open);
    assert [] + open == open;
    DataLineReads(a);
    NoLineNoBlank(open);
  }

  lemma FieldIsOneLine(a: bytes)
    requires CR !in a && LF !in a
    ensures CR !in DATA_FIELD + a && LF !in DATA_FIELD + a
  {
  }

  lemma AdaptHalf(a: bytes)
    requires Plain(a)
    ensures var open := DATA_FIELD + a;
            AdaptOne(true, [], open) == Adapted([], open) && AdaptOne(true, open, SPACE) == Adapted([], open)
  {
    HalfStaysBuffered(a);
    assert Blank(SPACE);
    TrimOfBlank(SPACE);
    assert WrapFrames(Payloads([])) == [];
  }

  lemma {:induction false} NoLineNoBlank(s: bytes)
    requires LF !in s
    ensures BlankAt(s) < 0
  {
    if |s| >= 2 {
      NoLineNoBlank(s[1..]);
    }
  }

  lemma AdaptOtherHalf(a: bytes, b: bytes)
    requires Plain(a) && Plain(a + b) && b != []
    ensures AdaptOne(true, DATA_FIELD + a, b + BLANK_LINE) == Adapted([a + b], [])
  {
    var s := (DATA_FIELD + a) + (b + BLANK_LINE);
    HalfStaysBuffered(a);
    EncodePlain(a + b);
    EncodePlainFree(a + b);
    assert s == Encode(a + b) == Encode(a + b) + [];
    NormalizeFacts(s);
    DecodeFirst(a + b, []);
    assert [a + b] + [] == [a + b];
    WrapKeepsPayloads(Drain(s).frames);
    LastByteCounts(a, b);
  }

  lemma LastByteCounts(a: bytes, b: bytes)
    requires Plain(a + b) && b != []
    ensures Trim(b + BLANK_LINE) != [] && b + BLANK_LINE != []
  {
    TrimOfBlank(b + BLANK_LINE);
    assert (b + BLANK_LINE)[|b| - 1] == (a + b)[|a + b| - 1];
  }
}
