/** Byte strings and the framing of server-sent events: newline normalisation, cutting a
    buffer at blank lines, reading one frame and writing one payload
    (internal/pipeline/stream_adapter.go, internal/httpapi/gemini/handler.go). */
module Sse {
  import opened Prelude

  newtype byte = x: int | 0 <= x < 256
  type bytes = seq<byte>

  const LF: byte := 10
  const CR: byte := 13
  const BLANK_LINE: bytes := [10, 10]
  const DATA_PREFIX: bytes := [100, 97, 116, 97, 58]        // data:
  const EVENT_PREFIX: bytes := [101, 118, 101, 110, 116, 58] // event:
  const COLON: bytes := [58]
  const DATA_FIELD: bytes := [100, 97, 116, 97, 58, 32]     // data: and a space
  const DONE: bytes := [91, 68, 79, 78, 69, 93]             // [DONE]
  const OPEN_BRACE: byte := 123
  const OPEN_BRACKET: byte := 91

  predicate IsSpaceByte(b: byte) {
    b in {9, 10, 11, 12, 13, 32}
  }

  function Trim(s: bytes): bytes {
    TrimBy(s, IsSpaceByte)
  }

  predicate Trimmed(s: bytes) {
    IsTrimmed(s, IsSpaceByte)
  }

  lemma TrimFacts(s: bytes)
    ensures Trimmed(Trim(s)) && |Trim(s)| <= |s| && (Trimmed(s) ==> Trim(s) == s)
    ensures forall b :: b in Trim(s) ==> b in s
  {
    TrimIsTrimmed(s, IsSpaceByte);
    if Trimmed(s) {
      TrimOfTrimmed(s, IsSpaceByte);
    }
  }

  predicate HasSuffix(s: bytes, t: bytes) {
    |t| <= |s| && s[|s| - |t|..] == t
  }

  /** `looksLikeSSEPayload`, and the handler's `looksLikeSSEWirePayload`. */
  predicate LooksLikeSse(s: bytes) {
    DATA_PREFIX <= s || EVENT_PREFIX <= s || COLON <= s
  }

  // ---- Newlines ----

  function ReplaceCrLf(s: bytes): bytes {
    if s == [] then []
    else if |s| >= 2 && s[0] == CR && s[1] == LF then [LF] + ReplaceCrLf(s[2..])
    else [s[0]] + ReplaceCrLf(s[1..])
  }

  function ReplaceCr(s: bytes): bytes {
    if s == [] then []
    else [if s[0] == CR then LF else s[0]] + ReplaceCr(s[1..])
  }

  function NormalizeNewlines(s: bytes): bytes {
    ReplaceCr(ReplaceCrLf(s))
  }

  /** The cut between `a` and `b` falls inside a CR LF pair. */
  predicate CutsPair(a: bytes, b: bytes) {
    a != [] && a[|a| - 1] == CR && b != [] && b[0] == LF
  }

  lemma {:induction false} ReplaceCrLfAppend(a: bytes, b: bytes)
    ensures !CutsPair(a, b) ==> ReplaceCrLf(a + b) == ReplaceCrLf(a) + ReplaceCrLf(b)
    ensures CutsPair(a, b) ==> |ReplaceCrLf(a + b)| + 1 == |ReplaceCrLf(a)| + |ReplaceCrLf(b)|
  {
    if a == [] {
      assert a + b == b;
    } else if |a| == 1 {
      ReplaceCrLfAppendOne(a[0], b);
      assert a == [a[0]];
    } else if a[0] == CR && a[1] == LF {
      ReplaceCrLfAppend(a[2..], b);
      assert (a + b)[2..] == a[2..] + b;
      assert [LF] + (ReplaceCrLf(a[2..]) + ReplaceCrLf(b)) == ([LF] + ReplaceCrLf(a[2..])) + ReplaceCrLf(b);
    } else {
      ReplaceCrLfAppend(a[1..], b);
      assert (a + b)[1..] == a[1..] + b;
      assert [a[0]] + (ReplaceCrLf(a[1..]) + ReplaceCrLf(b)) == ([a[0]] + ReplaceCrLf(a[1..])) + ReplaceCrLf(b);
    }
  }

  lemma ReplaceCrLfAppendOne(x: byte, b: bytes)
    ensures ReplaceCrLf([x]) == [x]
    ensures CutsPair([x], b) ==> |ReplaceCrLf([x] + b)| == |ReplaceCrLf(b)|
    ensures !CutsPair([x], b) ==> ReplaceCrLf([x] + b) == [x] + ReplaceCrLf(b)
  {
    assert [x][1..] == [];
    assert ([x] + b)[1..] == b;
    if CutsPair([x], b) {
      assert ([x] + b)[2..] == b[1..];
    }
  }

  lemma {:induction false} ReplaceCrAppend(a: bytes, b: bytes)
    ensures ReplaceCr(a + b) == ReplaceCr(a) + ReplaceCr(b)
  {
    if a == [] {
      assert a + b == b;
    } else {
      ReplaceCrAppend(a[1..], b);
      assert (a + b)[1..] == a[1..] + b;
    }
  }

  lemma {:induction false} ReplaceCrFacts(s: bytes)
    ensures |ReplaceCr(s)| == |s| && CR !in ReplaceCr(s)
    ensures CR !in s ==> ReplaceCr(s) == s && ReplaceCrLf(s) == s
  {
    if s != [] {
      ReplaceCrFacts(s[1..]);
      assert s == [s[0]] + s[1..];
    }
  }

  /** Normalising piecewise is normalising the whole, except that a pair cut in two costs
      one extra line feed. */
  lemma NormalizeAppend(a: bytes, b: bytes)
    ensures !CutsPair(a, b) ==> NormalizeNewlines(a + b) == NormalizeNewlines(a) + NormalizeNewlines(b)
    ensures CutsPair(a, b) ==> |NormalizeNewlines(a + b)| + 1 == |NormalizeNewlines(a)| + |NormalizeNewlines(b)|
  {
    ReplaceCrLfAppend(a, b);
    ReplaceCrAppend(ReplaceCrLf(a), ReplaceCrLf(b));
    ReplaceCrFacts(ReplaceCrLf(a + b));
    ReplaceCrFacts(ReplaceCrLf(a));
    ReplaceCrFacts(ReplaceCrLf(b));
  }

  lemma NormalizeFacts(s: bytes)
    ensures CR !in NormalizeNewlines(s)
    ensures CR !in s ==> NormalizeNewlines(s) == s
  {
    ReplaceCrFacts(s);
    ReplaceCrFacts(ReplaceCrLf(s));
  }

  // ---- Cutting at blank lines ----

  /** `bytes.Index(s, "\n\n")`: the first blank line, -1 if there is none. */
  function BlankAt(s: bytes): (i: int)
    ensures -1 <= i && (i >= 0 ==> i + 2 <= |s| && s[i] == LF && s[i + 1] == LF)
  {
    if |s| < 2 then -1
    else if s[0] == LF && s[1] == LF then 0
    else
      var i := BlankAt(s[1..]);
      if i < 0 then -1 else i + 1
  }

  /** Where the first blank line is does not depend on what follows it. */
  lemma {:induction false} BlankAtAppend(a: bytes, b: bytes)
    requires BlankAt(a) >= 0
    ensures BlankAt(a + b) == BlankAt(a)
  {
    assert (a + b)[0] == a[0] && (a + b)[1] == a[1];
    if a[0] != LF || a[1] != LF {
      BlankAtAppend(a[1..], b);
      assert (a + b)[1..] == a[1..] + b;
    }
  }

  datatype Drained = Drained(frames: seq<bytes>, rest: bytes)

  /** What `next` cuts from the leftover of `first`. */
  function Then(first: Drained, next: Drained): Drained {
    Drained(first.frames + next.frames, next.rest)
  }

  lemma ThenAssociates(a: Drained, b: Drained, c: Drained)
    ensures Then(Then(a, b), c) == Then(a, Then(b, c))
  {
    assert (a.frames + b.frames) + c.frames == a.frames + (b.frames + c.frames);
  }

  /** The complete frames of a buffer and what stays in it. */
  function Drain(s: bytes): Drained
    decreases |s|
  {
    var i := BlankAt(s);
    if i < 0 then Drained([], s)
    else Then(Drained([s[..i]], []), Drain(s[i + 2..]))
  }

  /** Frames rejoined with blank lines, then the leftover. */
  function Rebuild(d: Drained): bytes
    decreases |d.frames|
  {
    if d.frames == [] then d.rest
    else d.frames[0] + BLANK_LINE + Rebuild(Drained(d.frames[1..], d.rest))
  }

  lemma RebuildFirst(frame: bytes, d: Drained)
    ensures Rebuild(Drained([frame] + d.frames, d.rest)) == frame + BLANK_LINE + Rebuild(d)
  {
    assert ([frame] + d.frames)[1..] == d.frames;
  }

  lemma SplitAround(s: bytes, i: nat)
    requires i + 2 <= |s| && s[i..i + 2] == BLANK_LINE
    ensures s[..i] + BLANK_LINE + s[i + 2..] == s
  {
    assert s == s[..i] + s[i..i + 2] + s[i + 2..];
  }

  /** Cutting loses nothing. */
  lemma {:induction false} DrainRebuilds(s: bytes)
    ensures Rebuild(Drain(s)) == s
    decreases |s|
  {
    var i := BlankAt(s);
    if i >= 0 {
      DrainRebuilds(s[i + 2..]);
      var d := Drain(s[i + 2..]);
      RebuildFirst(s[..i], d);
      SplitAround(s, i);
    }
  }

  /** One turn of the loop, by what surrounds the first blank line. */
  lemma DrainStep(s: bytes, head: bytes, tail: bytes)
    requires BlankAt(s) == |head| && |head| + 2 <= |s| && s[..|head|] == head && s[|head| + 2..] == tail
    ensures Drain(s) == Then(Drained([head], []), Drain(tail))
  {
  }

  /** The first frame of `a` is the first frame of any text that begins with `a`. */
  lemma FirstFrame(a: bytes, b: bytes)
    requires BlankAt(a) >= 0
    ensures Drain(a + b) == Then(Drained([a[..BlankAt(a)]], []), Drain(a[BlankAt(a) + 2..] + b))
  {
    var i := BlankAt(a);
    BlankAtAppend(a, b);
    assert (a + b)[..i] == a[..i];
    assert (a + b)[i + 2..] == a[i + 2..] + b;
    DrainStep(a + b, a[..i], a[i + 2..] + b);
  }

  /** Cutting can be resumed: what is left of `a` is all that is needed of it. */
  lemma {:induction false} DrainResumes(a: bytes, b: bytes)
    ensures Drain(a + b) == Then(Drain(a), Drain(Drain(a).rest + b))
    decreases |a|
  {
    var i := BlankAt(a);
    if i >= 0 {
      var tail := a[i + 2..];
      FirstFrame(a, b);
      DrainStep(a, a[..i], tail);
      DrainResumes(tail, b);
      ThenAssociates(Drained([a[..i]], []), Drain(tail), Drain(Drain(tail).rest + b));
    }
  }

  // ---- Feeding chunks ----

  /** One `Feed`: the raw frames it completes and the buffer it leaves. */
  function FeedRaw(buf: bytes, chunk: bytes): Drained {
    if chunk == [] then Drained([], buf) else Drain(NormalizeNewlines(buf + chunk))
  }

  /** A run of `Feed` calls. */
  function FeedAll(buf: bytes, chunks: seq<bytes>): Drained
    decreases |chunks|
  {
    if chunks == [] then Drained([], buf)
    else
      var first := FeedRaw(buf, chunks[0]);
      Then(first, FeedAll(first.rest, chunks[1..]))
  }

  function Concat(chunks: seq<bytes>): bytes {
    if chunks == [] then [] else chunks[0] + Concat(chunks[1..])
  }

  function NormalizeEach(chunks: seq<bytes>): bytes {
    if chunks == [] then [] else NormalizeNewlines(chunks[0]) + NormalizeEach(chunks[1..])
  }

  /** No cut falls inside a CR LF pair: no chunk ends with CR while the rest of the stream
      begins with LF. */
  predicate CleanSplit(chunks: seq<bytes>) {
    chunks == [] || (!CutsPair(chunks[0], Concat(chunks[1..])) && CleanSplit(chunks[1..]))
  }

  /** Each bad cut adds a line feed, so the streams agree only when there is none. */
  lemma {:induction false} CleanSplitIsExact(chunks: seq<bytes>)
    ensures |NormalizeEach(chunks)| >= |NormalizeNewlines(Concat(chunks))|
    ensures CleanSplit(chunks) <==> NormalizeEach(chunks) == NormalizeNewlines(Concat(chunks))
    ensures CleanSplit(chunks) <==> |NormalizeEach(chunks)| == |NormalizeNewlines(Concat(chunks))|
  {
    if chunks != [] {
      CleanSplitIsExact(chunks[1..]);
      NormalizeAppend(chunks[0], Concat(chunks[1..]));
    }
  }

  /** One `Feed` cuts what was left with the normalised chunk appended. */
  lemma FeedContinues(seen: bytes, chunk: bytes)
    requires CR !in seen
    ensures var rest := Drain(seen).rest;
            FeedRaw(rest, chunk) == Drain(rest + NormalizeNewlines(chunk))
  {
    var rest := Drain(seen).rest;
    RestIsFree(seen);
    NormalizeFacts(rest);
    NormalizeAppend(rest, chunk);
    if chunk == [] {
      RestIsDrained(seen);
      assert rest + NormalizeNewlines(chunk) == rest;
    }
  }

  /** One chunk more, seen from the start of the stream. */
  lemma FeedResumes(seen: bytes, chunk: bytes)
    requires CR !in seen
    ensures Drain(seen + NormalizeNewlines(chunk)) == Then(Drain(seen), FeedRaw(Drain(seen).rest, chunk))
    ensures CR !in seen + NormalizeNewlines(chunk)
  {
    FeedContinues(seen, chunk);
    DrainResumes(seen, NormalizeNewlines(chunk));
    NormalizeFacts(chunk);
  }

  lemma EachRegroups(seen: bytes, chunks: seq<bytes>)
    requires chunks != []
    ensures seen + NormalizeEach(chunks) == (seen + NormalizeNewlines(chunks[0])) + NormalizeEach(chunks[1..])
  {
  }

  /** Fed from any point of a stream, the decoder is where cutting the whole stream so far
      would be. */
  lemma {:induction false} FeedAllIsDrain(seen: bytes, chunks: seq<bytes>)
    requires CR !in seen
    ensures Drain(seen + NormalizeEach(chunks)) == Then(Drain(seen), FeedAll(Drain(seen).rest, chunks))
    decreases |chunks|
  {
    if chunks == [] {
      assert seen + NormalizeEach(chunks) == seen;
    } else {
      var first := FeedRaw(Drain(seen).rest, chunks[0]);
      EachRegroups(seen, chunks);
      FeedResumes(seen, chunks[0]);
      FeedAllIsDrain(seen + NormalizeNewlines(chunks[0]), chunks[1..]);
      ThenAssociates(Drain(seen), first, FeedAll(first.rest, chunks[1..]));
    }
  }

  lemma {:induction false} RestIsFree(s: bytes)
    requires CR !in s
    ensures CR !in Drain(s).rest && forall f :: f in Drain(s).frames ==> CR !in f
    decreases |s|
  {
    var i := BlankAt(s);
    if i >= 0 {
      assert CR !in s[i + 2..] && CR !in s[..i];
      RestIsFree(s[i + 2..]);
      DrainStep(s, s[..i], s[i + 2..]);
    }
  }

  lemma {:induction false} RestIsDrained(s: bytes)
    ensures BlankAt(Drain(s).rest) < 0
    decreases |s|
  {
    var i := BlankAt(s);
    if i >= 0 {
      RestIsDrained(s[i + 2..]);
    }
  }

  /** From an empty buffer: feeding chunks is cutting the normalised chunks. */
  lemma FeedFromStart(chunks: seq<bytes>)
    ensures FeedAll([], chunks) == Drain(NormalizeEach(chunks))
  {
    FeedAllIsDrain([], chunks);
    assert [] + NormalizeEach(chunks) == NormalizeEach(chunks);
    assert Drain([]) == Drained([], []);
    var f := FeedAll([], chunks);
    assert [] + f.frames == f.frames;
  }

  /** Chunking is invisible exactly for clean splits, and the frames rejoined with blank
      lines plus the leftover are then the newline-normalised stream. */
  lemma ChunkingIsInvisible(chunks: seq<bytes>)
    ensures CleanSplit(chunks) <==> FeedAll([], chunks) == FeedAll([], [Concat(chunks)])
    ensures CleanSplit(chunks) ==> Rebuild(FeedAll([], chunks)) == NormalizeNewlines(Concat(chunks))
  {
    var whole := Concat(chunks);
    FeedFromStart(chunks);
    FeedFromStart([whole]);
    assert NormalizeEach([whole]) == NormalizeNewlines(whole) + [] == NormalizeNewlines(whole);
    DrainRebuilds(NormalizeEach(chunks));
    DrainRebuilds(NormalizeNewlines(whole));
    CleanSplitIsExact(chunks);
  }
}
