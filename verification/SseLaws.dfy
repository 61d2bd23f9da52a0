/** What one frame says, what is left at the end, and what passes through unread
    (internal/pipeline/stream_adapter.go). */
module SseLaws {
  import opened Prelude
  import opened Sse
  import opened SseCodec

  // ---- Lines ----

  lemma JoinLinesFront(line: bytes, rest: seq<bytes>)
    requires rest != []
    ensures JoinLines([line] + rest) == line + [LF] + JoinLines(rest)
    decreases |rest|
  {
    var all := [line] + rest;
    var last := rest[|rest| - 1];
    var front := rest[..|rest| - 1];
    assert all[..|all| - 1] == [line] + front;
    if front == [] {
      assert rest == [last] && [line] + front == [line];
    } else {
      JoinLinesFront(line, front);
      assert (line + [LF] + JoinLines(front)) + [LF] + last == line + [LF] + (JoinLines(front) + [LF] + last);
    }
  }

  /** Splitting a text into its lines loses nothing. */
  lemma {:induction false} LinesComeBack(s: bytes)
    ensures JoinLines(SplitLines(s)) == s
    ensures forall l :: l in SplitLines(s) ==> LF !in l
  {
    if s != [] {
      LinesComeBack(s[1..]);
      var r := SplitLines(s[1..]);
      if s[0] == LF {
        JoinLinesFront([], r);
      } else {
        HeadIsJoined(s[0], r);
      }
      assert [s[0]] + s[1..] == s;
    }
  }

  lemma HeadIsJoined(b: byte, lines: seq<bytes>)
    requires lines != []
    ensures JoinLines([[b] + lines[0]] + lines[1..]) == [b] + JoinLines(lines)
  {
    var first, rest := lines[0], lines[1..];
    if rest == [] {
      assert [[b] + first] + rest == [[b] + first] && lines == [first];
    } else {
      calc {
        JoinLines([[b] + first] + rest);
        { JoinLinesFront([b] + first, rest); }
        [b] + first + [LF] + JoinLines(rest);
        [b] + (first + [LF] + JoinLines(rest));
        { JoinLinesFront(first, rest); }
        [b] + JoinLines([first] + rest);
        { assert [first] + rest == lines; }
        [b] + JoinLines(lines);
      }
    }
  }

  // ---- What a frame says ----

  predicate IsData(line: bytes) {
    DATA_PREFIX <= Trim(line)
  }

  /** What a data line carries. */
  function Part(line: bytes): bytes
    requires IsData(line)
  {
    Trim(Trim(line)[|DATA_PREFIX|..])
  }

  predicate IsDone(line: bytes) {
    IsData(line) && Part(line) == DONE
  }

  /** A line of JSON without a field name. */
  predicate IsBare(line: bytes) {
    [OPEN_BRACE] <= Trim(line) || [OPEN_BRACKET] <= Trim(line)
  }

  /** What the data lines carry, blank ones dropped. */
  function Parts(lines: seq<bytes>): seq<bytes> {
    if lines == [] then []
    else
      var last := lines[|lines| - 1];
      Parts(lines[..|lines| - 1]) + if IsData(last) && Part(last) != [] then [Part(last)] else []
  }

  /** The line decides what the frame says: [DONE], or JSON before any data. */
  predicate Decides(lines: seq<bytes>, k: nat)
    requires k < |lines|
  {
    IsDone(lines[k]) || (IsBare(lines[k]) && Parts(lines[..k]) == [])
  }

  lemma PartsNext(lines: seq<bytes>, k: nat)
    requires k < |lines|
    ensures Parts(lines[..k + 1]) ==
            Parts(lines[..k]) + if IsData(lines[k]) && Part(lines[k]) != [] then [Part(lines[k])] else []
  {
    var upTo := lines[..k + 1];
    assert upTo[..|upTo| - 1] == lines[..k] && upTo[|upTo| - 1] == lines[k];
  }

  /** Up to a deciding line the parser only gathers data. */
  lemma {:induction false} DataIsGathered(lines: seq<bytes>, k: nat)
    requires k <= |lines| && forall j :: 0 <= j < k ==> !Decides(lines, j)
    ensures ParseLines(lines, []) == ParseLines(lines[k..], Parts(lines[..k]))
    decreases k
  {
    if k == 0 {
      assert lines[0..] == lines && lines[..0] == [];
    } else {
      DataIsGathered(lines, k - 1);
      assert !Decides(lines, k - 1);
      assert lines[k - 1..][1..] == lines[k..] && lines[k - 1..][0] == lines[k - 1];
      PartsNext(lines, k - 1);
      LineIsGathered(lines[k - 1..], Parts(lines[..k - 1]));
    }
  }

  /** A line has one kind, which its first byte tells. */
  lemma FirstByteTells(t: bytes)
    ensures DATA_PREFIX <= t ==> t[0] == 100
    ensures EVENT_PREFIX <= t ==> t[0] == 101
    ensures COLON <= t ==> t[0] == 58
    ensures [OPEN_BRACE] <= t ==> t[0] == 123
    ensures [OPEN_BRACKET] <= t ==> t[0] == 91
    ensures t != [] && (t[0] == OPEN_BRACE || t[0] == OPEN_BRACKET) ==> [OPEN_BRACE] <= t || [OPEN_BRACKET] <= t
  {
  }

  lemma LineIsGathered(lines: seq<bytes>, data: seq<bytes>)
    requires lines != [] && !IsDone(lines[0]) && !(IsBare(lines[0]) && data == [])
    ensures ParseLines(lines, data) ==
            ParseLines(lines[1..], data + if IsData(lines[0]) && Part(lines[0]) != [] then [Part(lines[0])] else [])
  {
    FirstByteTells(Trim(lines[0]));
    assert data + [] == data;
  }

  lemma LineDecides(lines: seq<bytes>, data: seq<bytes>)
    requires lines != []
    ensures IsDone(lines[0]) ==> ParseLines(lines, data) == None
    ensures IsBare(lines[0]) && data == [] ==> ParseLines(lines, data) == Some(Trim(lines[0]))
  {
    FirstByteTells(Trim(lines[0]));
  }

  /** A frame that looks like an event says what its data lines carry, joined by line feeds, or
      nothing without any. A [DONE] before that makes it say nothing, and JSON that stands on a
      line of its own before any data is all it says. */
  lemma FrameSays(frame: bytes, k: nat)
    requires LooksLikeSse(Trim(frame)) && k <= |SplitLines(Trim(frame))|
    requires forall j :: 0 <= j < k ==> !Decides(SplitLines(Trim(frame)), j)
    ensures var lines := SplitLines(Trim(frame));
            if k == |lines| then
              ParseFrame(frame) == if Parts(lines) == [] then None else Some(JoinLines(Parts(lines)))
            else
              && (IsDone(lines[k]) ==> ParseFrame(frame) == None)
              && (IsBare(lines[k]) && Parts(lines[..k]) == [] ==> ParseFrame(frame) == Some(Trim(lines[k])))
  {
    var lines := SplitLines(Trim(frame));
    DataIsGathered(lines, k);
    if k == |lines| {
      assert lines[..k] == lines && lines[k..] == [];
    } else {
      LineDecides(lines[k..], Parts(lines[..k]));
    }
  }

  // ---- The end of a stream ----

  /** What is left in the buffer is read as one last frame, neither more nor less: the decoder's
      second try at JSON never applies, since a frame that begins so has been read as such. */
  lemma FlushReadsLastFrame(buf: bytes)
    ensures FlushBuffer(buf) == PayloadOf(buf)
  {
    var t := Trim(buf);
    TrimFacts(buf);
    if t != [] && ParseFrame(t) == None {
      assert LooksLikeSse(t);
    }
  }

  // ---- Without events ----

  function NonEmpty(payloads: seq<bytes>): seq<bytes> {
    if payloads == [] then []
    else NonEmpty(payloads[..|payloads| - 1]) +
         var last := payloads[|payloads| - 1];
         if last == [] then [] else [last]
  }

  lemma {:induction false} NonEmptyFront(first: bytes, rest: seq<bytes>)
    ensures NonEmpty([first] + rest) == (if first == [] then [] else [first]) + NonEmpty(rest)
    decreases |rest|
  {
    var all := [first] + rest;
    if rest == [] {
      assert all == [first] && all[..0] == [];
    } else {
      NonEmptyFront(first, rest[..|rest| - 1]);
      assert all[..|all| - 1] == [first] + rest[..|rest| - 1];
    }
  }

  /** A stream of another format passes unchanged but for empty chunks, nothing is held back. */
  lemma {:induction false} RawStreamPasses(buf: bytes, chunks: seq<bytes>)
    ensures AdaptAll(false, buf, chunks) == Adapted(NonEmpty(chunks), buf)
    ensures AdaptFlush(false, buf) == []
    decreases |chunks|
  {
    if chunks != [] {
      RawStreamPasses(buf, chunks[1..]);
      NonEmptyFront(chunks[0], chunks[1..]);
      assert [chunks[0]] + chunks[1..] == chunks;
    }
  }

  /** Chunks that are whole JSON texts instead of events pass one by one. */
  lemma {:induction false} JsonChunksPass(chunks: seq<bytes>)
    requires forall c :: c in chunks ==> c != [] && Trimmed(c) && !LooksLikeSse(c)
    ensures AdaptAll(true, [], chunks) == Adapted(chunks, [])
    ensures AdaptFlush(true, []) == []
    decreases |chunks|
  {
    if chunks != [] {
      forall x | x in chunks[1..]
        ensures x in chunks
      {
      }
      JsonChunksPass(chunks[1..]);
      var c := chunks[0];
      assert c in chunks;
      TrimFacts(c);
      assert [c][1..] == [] && WrapFrames([c]) == [c];
      assert [c] + chunks[1..] == chunks;
    }
  }

  // ---- What the handler writes ----

  lemma FeedEndsNormalized(a: bytes)
    requires a != [] && a[|a| - 1] == LF
    ensures var n := NormalizeNewlines(a); n != [] && n[|n| - 1] == LF
  {
    var b := a[..|a| - 1];
    assert b + [LF] == a;
    if CutsPair(b, [LF]) {
      var c := b[..|b| - 1];
      assert c + [CR, LF] == a;
      NormalizeAppend(c, [CR, LF]);
      PairIsOneFeed();
    } else {
      NormalizeAppend(b, [LF]);
      NormalizeFacts([LF]);
    }
  }

  lemma PairIsOneFeed()
    ensures NormalizeNewlines([CR, LF]) == [LF]
  {
    assert [CR, LF][2..] == [];
    assert ReplaceCrLf([CR, LF]) == [LF] + ReplaceCrLf([]);
    ReplaceCrFacts([LF]);
  }

  /** A text that ends in two line ends of one kind ends in a blank line once normalised. */
  lemma BlankLineEndsNormalized(a: bytes, feed: bytes)
    requires feed in {[LF], [CR, LF]} && a != [] && a[|a| - 1] == LF
    ensures HasSuffix(NormalizeNewlines(a + feed), BLANK_LINE)
  {
    NormalizeAppend(a, feed);
    FeedEndsNormalized(a);
    FeedIsOne(feed);
    TwoFeedsAreBlank(NormalizeNewlines(a));
  }

  lemma FeedIsOne(feed: bytes)
    requires feed in {[LF], [CR, LF]}
    ensures NormalizeNewlines(feed) == [LF]
  {
    PairIsOneFeed();
    NormalizeFacts([LF]);
  }

  lemma TwoFeedsAreBlank(n: bytes)
    requires n != [] && n[|n| - 1] == LF
    ensures HasSuffix(n + [LF], BLANK_LINE)
  {
    assert (n + [LF])[|n| - 1..] == [LF, LF];
  }

  lemma EndsInTwoFeeds(wire: bytes, text: bytes, feed: bytes)
    requires feed in {[LF], [CR, LF]} && wire == text + feed + feed
    ensures HasSuffix(NormalizeNewlines(wire), BLANK_LINE)
  {
    BlankLineEndsNormalized(text + feed, feed);
  }

  lemma EndsInSuffix(s: bytes, t: bytes)
    requires HasSuffix(s, t)
    ensures s == s[..|s| - |t|] + t
  {
  }

  /** Whatever is not blank is written whole, as it is if it looks like an event and as the data
      of one if not, and followed by a blank line; one that is there already is not repeated. */
  lemma WrittenIsWholeEvent(p: bytes)
    ensures Trim(p) == [] ==> Encode(p) == []
    ensures Trim(p) != [] ==> HasSuffix(NormalizeNewlines(Encode(p)), BLANK_LINE)
    ensures Trim(p) != [] ==> (if LooksLikeSse(Trim(p)) then p else DATA_FIELD + p) <= Encode(p)
    ensures LooksLikeSse(Trim(p)) && (HasSuffix(p, BLANK_LINE) || HasSuffix(p, [CR, LF, CR, LF])) ==> Encode(p) == p
    ensures |Encode(p)| <= |p| + if LooksLikeSse(Trim(p)) then 2 else 8
  {
    var wire := Encode(p);
    if Trim(p) == [] {
    } else if !LooksLikeSse(Trim(p)) {
      EndsInTwoFeeds(wire, DATA_FIELD + p, [LF]);
    } else if HasSuffix(p, BLANK_LINE) {
      EndsInSuffix(p, BLANK_LINE);
      EndsInTwoFeeds(wire, p[..|p| - 2], [LF]);
    } else if HasSuffix(p, [CR, LF, CR, LF]) {
      EndsInSuffix(p, [CR, LF, CR, LF]);
      EndsInTwoFeeds(wire, p[..|p| - 4], [CR, LF]);
    } else if HasSuffix(p, [CR, LF]) {
      EndsInSuffix(p, [CR, LF]);
      EndsInTwoFeeds(wire, p[..|p| - 2], [CR, LF]);
    } else if HasSuffix(p, [LF]) {
      EndsInSuffix(p, [LF]);
      EndsInTwoFeeds(wire, p[..|p| - 1], [LF]);
    } else {
      EndsInTwoFeeds(wire, p, [LF]);
    }
  }
}
