/** Encoder and decoder undo each other, and exactly for which payloads
    (internal/httpapi/gemini/handler.go, internal/pipeline/stream_adapter.go). */
module SseRoundTrip {
  import opened Prelude
  import opened Sse
  import opened SseCodec

  /** One line of text that does not itself read as an event. */
  predicate Plain(p: bytes) {
    p != [] && Trimmed(p) && LF !in p && CR !in p && p != DONE && !LooksLikeSse(p)
  }

  /** What a client reads from a whole stream. */
  function Decode(wire: bytes): seq<bytes> {
    Payloads(Drain(NormalizeNewlines(wire)).frames)
  }

  // ---- Small facts ----

  lemma {:induction false} TrimRightKeepsPrefix(s: bytes, p: bytes)
    requires p <= s && p != [] && !IsSpaceByte(p[|p| - 1])
    ensures p <= TrimRightBy(s, IsSpaceByte)
  {
    if |s| > |p| && IsSpaceByte(s[|s| - 1]) {
      TrimRightKeepsPrefix(s[..|s| - 1], p);
    }
  }

  lemma TrimKeepsPrefix(s: bytes, p: bytes)
    requires p <= s && p != [] && !IsSpaceByte(p[0]) && !IsSpaceByte(p[|p| - 1])
    ensures p <= Trim(s)
  {
    TrimRightKeepsPrefix(s, p);
  }

  lemma TrimDropsLeadingSpace(s: bytes)
    requires s != [] && IsSpaceByte(s[0])
    ensures Trim(s) == Trim(s[1..])
  {
  }

  lemma {:induction false} SplitLinesOfOne(s: bytes)
    requires LF !in s
    ensures SplitLines(s) == [s]
  {
    if s != [] {
      SplitLinesOfOne(s[1..]);
      assert s[0] in s && s == [s[0]] + s[1..];
    }
  }

  function Total(lines: seq<bytes>): nat {
    if lines == [] then 0 else |lines[0]| + 1 + Total(lines[1..])
  }

  /** The lines of a text: how long they are together, and how the first begins. */
  lemma {:induction false} SplitLinesFacts(s: bytes, p: bytes)
    ensures Total(SplitLines(s)) == |s| + 1
    ensures LF in s ==> |SplitLines(s)| >= 2
    ensures p <= s && LF !in p ==> p <= SplitLines(s)[0]
  {
    if s != [] {
      SplitLinesFacts(s[1..], if p == [] then [] else p[1..]);
      var r := SplitLines(s[1..]);
      assert SplitLines(s)[1..] == if s[0] == LF then r else r[1..];
      assert s == [s[0]] + s[1..];
      assert p <= s && p != [] ==> p[1..] <= s[1..] && p == [p[0]] + p[1..];
    }
  }

  // ---- A payload is never longer than its frame ----

  lemma {:induction false} LaterLinesAreShorter(lines: seq<bytes>, data: seq<bytes>)
    requires data != []
    ensures var r := ParseLines(lines, data);
            r.Some? ==> |r.value| <= |JoinLines(data)| + Total(lines) &&
                        (lines != [] ==> |r.value| < |JoinLines(data)| + Total(lines))
    decreases |lines|
  {
    if lines != [] {
      TrimFacts(lines[0]);
      var line := Trim(lines[0]);
      LaterLinesAreShorter(lines[1..], data);
      if DATA_PREFIX <= line {
        TrimFacts(line[|DATA_PREFIX|..]);
        var part := Trim(line[|DATA_PREFIX|..]);
        JoinLinesGrows(data, part);
        LaterLinesAreShorter(lines[1..], data + [part]);
      }
    }
  }

  lemma {:induction false} LinesAreShorter(lines: seq<bytes>)
    ensures var r := ParseLines(lines, []); r.Some? ==> |r.value| < Total(lines)
    decreases |lines|
  {
    if lines != [] {
      TrimFacts(lines[0]);
      var line := Trim(lines[0]);
      LinesAreShorter(lines[1..]);
      if DATA_PREFIX <= line {
        TrimFacts(line[|DATA_PREFIX|..]);
        var part := Trim(line[|DATA_PREFIX|..]);
        assert [] + [part] == [part] && JoinLines([part]) == part;
        LaterLinesAreShorter(lines[1..], [part]);
      }
    }
  }

  /** An event frame is strictly longer than its payload. */
  lemma EventLinesAreShorter(lines: seq<bytes>)
    requires lines != [] && LooksLikeSse(Trim(lines[0]))
    ensures var r := ParseLines(lines, []); r.Some? ==> |r.value| + 1 < Total(lines)
  {
    TrimFacts(lines[0]);
    var line := Trim(lines[0]);
    LinesAreShorter(lines[1..]);
    if DATA_PREFIX <= line {
      TrimFacts(line[|DATA_PREFIX|..]);
      var part := Trim(line[|DATA_PREFIX|..]);
      assert [] + [part] == [part] && JoinLines([part]) == part;
      LaterLinesAreShorter(lines[1..], [part]);
    }
  }

  lemma EventPrefixSurvives(t: bytes)
    requires LooksLikeSse(t)
    ensures LooksLikeSse(Trim(SplitLines(t)[0]))
  {
    var p := if DATA_PREFIX <= t then DATA_PREFIX else if EVENT_PREFIX <= t then EVENT_PREFIX else COLON;
    SplitLinesFacts(t, p);
    TrimKeepsPrefix(SplitLines(t)[0], p);
  }

  lemma PayloadFitsFrame(frame: bytes)
    ensures var r := ParseFrame(frame);
            r.Some? ==> |r.value| <= |frame| && (LooksLikeSse(Trim(frame)) ==> |r.value| < |frame|)
  {
    TrimFacts(frame);
    var t := Trim(frame);
    if LooksLikeSse(t) {
      SplitLinesFacts(t, []);
      EventPrefixSurvives(t);
      EventLinesAreShorter(SplitLines(t));
    }
  }

  /** After the colon of a data frame comes the space the encoder wrote. */
  lemma FieldSpaceSurvives(f: bytes)
    requires DATA_FIELD <= f
    ensures DATA_PREFIX <= Trim(SplitLines(Trim(f))[0])
    ensures var tail := Trim(SplitLines(Trim(f))[0])[|DATA_PREFIX|..]; tail != [] ==> IsSpaceByte(tail[0])
  {
    assert DATA_PREFIX <= f;
    TrimKeepsPrefix(f, DATA_PREFIX);
    var t := Trim(f);
    TrimLeftFront(f, IsSpaceByte);
    TrimRightIsPrefix(f);
    SplitLinesFacts(t, DATA_PREFIX);
    var first := SplitLines(t)[0];
    TrimKeepsPrefix(first, DATA_PREFIX);
    FirstLineIsPrefix(t);
    TrimRightIsPrefix(first);
    var line := Trim(first);
    assert line <= first <= t <= f;
    if |line| > 5 {
      assert line[5] == f[5] == DATA_FIELD[5];
    }
  }

  lemma {:induction false} TrimRightIsPrefix(s: bytes)
    ensures TrimRightBy(s, IsSpaceByte) <= s
    ensures s != [] && !IsSpaceByte(s[0]) ==> Trim(s) <= s
  {
    if s != [] && IsSpaceByte(s[|s| - 1]) {
      TrimRightIsPrefix(s[..|s| - 1]);
    }
  }

  lemma {:induction false} FirstLineIsPrefix(s: bytes)
    ensures SplitLines(s)[0] <= s
  {
    if s != [] {
      FirstLineIsPrefix(s[1..]);
      assert s == [s[0]] + s[1..];
    }
  }

  /** Lines whose first is a data field: the field itself is not part of the payload. */
  lemma DataLinesFit(lines: seq<bytes>)
    requires lines != [] && DATA_PREFIX <= Trim(lines[0])
    requires var tail := Trim(lines[0])[|DATA_PREFIX|..]; tail != [] ==> IsSpaceByte(tail[0])
    ensures var r := ParseLines(lines, []);
            r.Some? ==> |r.value| + |DATA_FIELD| < Total(lines) &&
                        (|lines| >= 2 && |lines[0]| >= |DATA_FIELD| ==> |r.value| + |DATA_FIELD| + 1 < Total(lines))
  {
    var line := Trim(lines[0]);
    var tail := line[|DATA_PREFIX|..];
    var part := Trim(tail);
    TrimFacts(lines[0]);
    TrimFacts(tail);
    if part == [] {
      LinesAreShorter(lines[1..]);
    } else {
      TrimDropsLeadingSpace(tail);
      TrimFacts(tail[1..]);
      assert [] + [part] == [part] && JoinLines([part]) == part;
      LaterLinesAreShorter(lines[1..], [part]);
    }
  }

  /** A data frame around `a` carries at most `a`, and less if `a` has line breaks. */
  lemma DataFrameFits(a: bytes)
    ensures var r := ParseFrame(DATA_FIELD + a);
            r.Some? ==> |r.value| <= |a| && (Trimmed(a) && LF in a ==> |r.value| < |a|)
  {
    var f := DATA_FIELD + a;
    var t := Trim(f);
    TrimFacts(f);
    assert DATA_PREFIX <= f;
    TrimKeepsPrefix(f, DATA_PREFIX);
    FieldSpaceSurvives(f);
    SplitLinesFacts(t, DATA_FIELD);
    DataLinesFit(SplitLines(t));
    if Trimmed(a) && LF in a {
      assert f[|f| - 1] == a[|a| - 1];
      assert t == f;
      var k :| 0 <= k < |a| && a[k] == LF;
      assert f[k + 6] == LF;
    }
  }

  /** How the parser sees one encoded line. */
  lemma DataLineReads(p: bytes)
    requires p != [] && Trimmed(p)
    ensures var f := DATA_FIELD + p;
            && Trim(f) == f && DATA_PREFIX <= f && !(COLON <= f) && !(EVENT_PREFIX <= f)
            && Trim(f[|DATA_PREFIX|..]) == p
  {
    var f := DATA_FIELD + p;
    assert f[|f| - 1] == p[|p| - 1];
    TrimFacts(f);
    var tail := f[|DATA_PREFIX|..];
    assert tail[1..] == p;
    TrimDropsLeadingSpace(tail);
    TrimFacts(p);
  }

  /** A data frame around one trimmed line reads back as that line. */
  lemma DataFrameOfLine(p: bytes)
    requires p != [] && Trimmed(p) && LF !in p
    ensures ParseFrame(DATA_FIELD + p) == if p == DONE then None else Some(p)
  {
    var f := DATA_FIELD + p;
    DataLineReads(p);
    SplitLinesOfOne(f);
    assert [f][1..] == [];
    assert [] + [p] == [p] && JoinLines([p]) == p;
    assert ParseLines([f], []) == if p == DONE then None else ParseLines([], [p]);
  }

  // ---- Lists of plain payloads ----

  lemma EncodePlain(p: bytes)
    requires p != [] && Trimmed(p) && !LooksLikeSse(p)
    ensures Encode(p) == DATA_FIELD + p + BLANK_LINE
  {
    TrimFacts(p);
  }

  lemma {:induction false} BlankAfterLine(head: bytes, tail: bytes)
    requires LF !in head
    ensures BlankAt(head + BLANK_LINE + tail) == |head|
  {
    var s := head + BLANK_LINE + tail;
    if head != [] {
      BlankAfterLine(head[1..], tail);
      assert s[0] == head[0];
      assert s[1..] == head[1..] + BLANK_LINE + tail;
    }
  }

  /** The first event of a stream, decoded. */
  lemma DecodeFirst(p: bytes, tail: bytes)
    requires Plain(p)
    ensures var d := Drain(Encode(p) + tail);
            Payloads(d.frames) == [p] + Payloads(Drain(tail).frames) && d.rest == Drain(tail).rest
  {
    var head := DATA_FIELD + p;
    var s := head + BLANK_LINE + tail;
    EncodePlain(p);
    BlankAfterLine(head, tail);
    assert s[..|head|] == head;
    assert s[|head| + 2..] == tail;
    DrainStep(s, head, tail);
    DataFrameOfLine(p);
    PayloadsOfOne(head, p);
    PayloadsAppend([head], Drain(tail).frames);
  }

  lemma PayloadsOfOne(frame: bytes, p: bytes)
    requires ParseFrame(frame) == Some(p)
    ensures Payloads([frame]) == [p]
  {
    assert [frame][1..] == [];
  }

  lemma FreeAppend(a: bytes, b: bytes)
    requires CR !in a && CR !in b
    ensures CR !in a + b
  {
  }

  lemma EncodePlainFree(p: bytes)
    requires Plain(p)
    ensures CR !in Encode(p)
  {
    EncodePlain(p);
    FreeAppend(DATA_FIELD, p);
    FreeAppend(DATA_FIELD + p, BLANK_LINE);
  }

  lemma {:induction false} DecodePlainList(ps: seq<bytes>)
    requires forall p :: p in ps ==> Plain(p)
    ensures CR !in EncodeAll(ps)
    ensures var d := Drain(EncodeAll(ps)); Payloads(d.frames) == ps && d.rest == []
  {
    if ps != [] {
      DecodePlainList(ps[1..]);
      EncodePlainFree(ps[0]);
      DecodeFirst(ps[0], EncodeAll(ps[1..]));
      FreeAppend(Encode(ps[0]), EncodeAll(ps[1..]));
    }
  }

  /** Plain payloads written one after another, cut into any chunks and fed to the
      decoder, come back as they were, with nothing left in the buffer. */
  lemma PlainListRoundTrip(ps: seq<bytes>, chunks: seq<bytes>)
    requires forall p :: p in ps ==> Plain(p)
    requires Concat(chunks) == EncodeAll(ps)
    ensures var d := FeedAll([], chunks); Payloads(d.frames) == ps && d.rest == []
  {
    DecodePlainList(ps);
    FreeStreamIsWhole(chunks);
  }

  lemma {:induction false} NoCrIsClean(chunks: seq<bytes>)
    requires CR !in Concat(chunks)
    ensures CleanSplit(chunks)
  {
    if chunks != [] {
      var c, tail := chunks[0], Concat(chunks[1..]);
      assert forall b :: b in c || b in tail ==> b in c + tail;
      NoCrIsClean(chunks[1..]);
    }
  }

  // ---- Exactly which payloads survive ----

  lemma {:induction false} PayloadHasFrame(frames: seq<bytes>, q: bytes)
    requires q in Payloads(frames)
    ensures exists f :: f in frames && ParseFrame(f) == Some(q)
  {
    var r := ParseFrame(frames[0]);
    if r == Some(q) {
      assert frames[0] in frames;
    } else {
      assert q in Payloads(frames[1..]);
      PayloadHasFrame(frames[1..], q);
      var f :| f in frames[1..] && ParseFrame(f) == Some(q);
      assert f in frames;
    }
  }

  lemma {:induction false} SplitLinesFree(s: bytes)
    requires CR !in s
    ensures forall l :: l in SplitLines(s) ==> CR !in l
  {
    if s != [] {
      SplitLinesFree(s[1..]);
      var r := SplitLines(s[1..]);
      assert forall l :: l in r[1..] ==> l in r;
    }
  }

  lemma {:induction false} ParseLinesFree(lines: seq<bytes>, data: seq<bytes>)
    requires CR !in JoinLines(data) && forall l :: l in lines ==> CR !in l
    ensures var r := ParseLines(lines, data); r.Some? ==> CR !in r.value
    decreases |lines|
  {
    if lines != [] {
      TrimFacts(lines[0]);
      assert lines[0] in lines;
      var line := Trim(lines[0]);
      ParseLinesFree(lines[1..], data);
      if DATA_PREFIX <= line {
        var tail := line[|DATA_PREFIX|..];
        TrimFacts(tail);
        var part := Trim(tail);
        assert CR !in part;
        JoinLinesGrows(data, part);
        ParseLinesFree(lines[1..], data + [part]);
      }
    }
  }

  lemma FramePayloadFree(f: bytes)
    requires CR !in f
    ensures ParseFrame(f).Some? ==> CR !in ParseFrame(f).value
  {
    TrimFacts(f);
    SplitLinesFree(Trim(f));
    ParseLinesFree(SplitLines(Trim(f)), []);
  }

  /** Trimmed, not empty and without a carriage return. */
  predicate Clean(p: bytes) {
    p != [] && Trimmed(p) && CR !in p
  }

  lemma PayloadIsClean(s: bytes, q: bytes)
    requires CR !in s && q in Payloads(Drain(s).frames)
    ensures Clean(q)
  {
    RestIsFree(s);
    PayloadHasFrame(Drain(s).frames, q);
    var f :| f in Drain(s).frames && ParseFrame(f) == Some(q);
    ParseFrameIsTrimmed(f);
    FramePayloadFree(f);
  }

  /** A payload read back contains no carriage return, is trimmed and not empty. */
  lemma DecodedIsClean(wire: bytes, q: bytes)
    requires q in Decode(wire)
    ensures q != [] && Trimmed(q) && CR !in q
  {
    NormalizeFacts(wire);
    PayloadIsClean(NormalizeNewlines(wire), q);
  }

  // ---- Counting bytes ----

  function Length(ps: seq<bytes>): nat {
    if ps == [] then 0 else |ps[0]| + Length(ps[1..])
  }

  lemma {:induction false} LengthAppend(a: seq<bytes>, b: seq<bytes>)
    ensures Length(a + b) == Length(a) + Length(b)
  {
    if a == [] {
      assert a + b == b;
    } else {
      LengthAppend(a[1..], b);
      assert (a + b)[1..] == a[1..] + b;
    }
  }

  lemma {:induction false} PayloadsFit(frames: seq<bytes>)
    ensures Length(Payloads(frames)) <= Length(frames)
  {
    if frames != [] {
      PayloadsFit(frames[1..]);
      PayloadFitsFrame(frames[0]);
      LengthAppend(PayloadOf(frames[0]), Payloads(frames[1..]));
    }
  }

  lemma {:induction false} DrainLength(s: bytes)
    ensures var d := Drain(s); Length(d.frames) + 2 * |d.frames| + |d.rest| == |s|
    decreases |s|
  {
    var i := BlankAt(s);
    if i >= 0 {
      DrainLength(s[i + 2..]);
      LengthAppend([s[..i]], Drain(s[i + 2..]).frames);
    }
  }

  lemma {:induction false} BlankAtConcat(a: bytes, b: bytes)
    requires BlankAt(a) < 0 && (a == [] || b == [] || a[|a| - 1] != LF || b[0] != LF)
    ensures BlankAt(a + b) == if BlankAt(b) < 0 then -1 else |a| + BlankAt(b)
  {
    if a == [] {
      assert a + b == b;
    } else {
      BlankAtConcat(a[1..], b);
      assert (a + b)[1..] == a[1..] + b;
      assert |a + b| >= 2 ==> (a + b)[1] == if |a| > 1 then a[1] else b[0];
    }
  }

  lemma OneBlankLine(x: bytes)
    requires x != [] && x[|x| - 1] != LF && BlankAt(x) < 0
    ensures Drain(x + BLANK_LINE) == Drained([x], [])
  {
    var s := x + BLANK_LINE;
    BlankAtConcat(x, BLANK_LINE);
    assert s[..|x|] == x && s[|x| + 2..] == [];
    DrainStep(s, x, []);
  }

  /** Text that ends in one blank line leaves nothing in the buffer. */
  lemma {:induction false} EndsInBlankLine(x: bytes)
    requires x != [] && x[|x| - 1] != LF
    ensures Drain(x + BLANK_LINE).rest == [] && Drain(x + BLANK_LINE).frames != []
    decreases |x|
  {
    var i := BlankAt(x);
    if i >= 0 {
      FirstFrame(x, BLANK_LINE);
      assert x[i + 1] == x[i..i + 2][1] == LF;
      EndsInBlankLine(x[i + 2..]);
    } else {
      OneBlankLine(x);
    }
  }

  /** The first frame and the rest of them, by length. */
  lemma FirstFrameCounts(s: bytes, lost: nat)
    requires Drain(s).frames != []
    requires var r := ParseFrame(Drain(s).frames[0]); |Drain(s).frames[0]| >= lost
    requires var r := ParseFrame(Drain(s).frames[0]); r.Some? ==> |r.value| + lost <= |Drain(s).frames[0]|
    ensures Length(Payloads(Drain(s).frames)) + lost + 2 * |Drain(s).frames| + |Drain(s).rest| <= |s|
  {
    var frames := Drain(s).frames;
    DrainLength(s);
    PayloadsFit(frames[1..]);
    LengthAppend(PayloadOf(frames[0]), Payloads(frames[1..]));
  }

  lemma FirstFrameIs(s: bytes)
    requires BlankAt(s) >= 0
    ensures Drain(s).frames != [] && Drain(s).frames[0] == s[..BlankAt(s)] && s[BlankAt(s)] == LF
  {
    assert s[BlankAt(s)..BlankAt(s) + 2][0] == LF;
  }

  lemma EncodeEvent(p: bytes)
    requires Clean(p) && LooksLikeSse(p)
    ensures Encode(p) == p + BLANK_LINE
  {
    TrimFacts(p);
  }

  /** The first frame of an event still looks like one. */
  lemma EventFrameSurvives(p: bytes, i: nat)
    requires LooksLikeSse(p) && i <= |p| && (p + BLANK_LINE)[i] == LF
    ensures LooksLikeSse(Trim((p + BLANK_LINE)[..i]))
  {
    var f := (p + BLANK_LINE)[..i];
    var q := if DATA_PREFIX <= p then DATA_PREFIX else if EVENT_PREFIX <= p then EVENT_PREFIX else COLON;
    assert forall j :: 0 <= j < |q| ==> (p + BLANK_LINE)[j] == q[j] != LF;
    assert q <= f;
    TrimKeepsPrefix(f, q);
  }

  /** A payload that reads as an event is passed through, and less comes back. */
  lemma EventPayloadShrinks(p: bytes)
    requires Clean(p) && LooksLikeSse(p)
    ensures Drain(p + BLANK_LINE).rest == [] && Length(Payloads(Drain(p + BLANK_LINE).frames)) < |p|
  {
    var s := p + BLANK_LINE;
    EndsInBlankLine(p);
    FirstFrameIs(s);
    EventFrameSurvives(p, BlankAt(s));
    PayloadFitsFrame(s[..BlankAt(s)]);
    FirstFrameCounts(s, 1);
  }

  /** Text before a line feed in an encoded payload is the data field and part of it. */
  lemma EncodedHead(p: bytes, s: bytes, i: nat)
    requires s == DATA_FIELD + p + BLANK_LINE && i + 2 <= |s| && s[i] == LF
    ensures |DATA_FIELD| <= i && s[..i] == DATA_FIELD + p[..i - |DATA_FIELD|]
  {
  }

  /** The first frame of a wrapped payload carries no more than its part of the payload. */
  lemma WrappedFrameFits(p: bytes, i: nat)
    requires i <= |DATA_FIELD + p| && (DATA_FIELD + p + BLANK_LINE)[i] == LF
    ensures |DATA_FIELD| <= i
    ensures var r := ParseFrame((DATA_FIELD + p + BLANK_LINE)[..i]); r.Some? ==> |r.value| + |DATA_FIELD| <= i
  {
    EncodedHead(p, DATA_FIELD + p + BLANK_LINE, i);
    DataFrameFits(p[..i - |DATA_FIELD|]);
  }

  /** Any other payload comes back no longer, and in full length only if it is plain. */
  lemma DataPayloadFits(p: bytes)
    requires Clean(p) && !LooksLikeSse(p)
    ensures var d := Drain(DATA_FIELD + p + BLANK_LINE);
            && d.rest == [] && Length(Payloads(d.frames)) <= |p|
            && (Length(Payloads(d.frames)) == |p| ==> Plain(p))
  {
    var s := DATA_FIELD + p + BLANK_LINE;
    EndsInBlankLine(DATA_FIELD + p);
    FirstFrameIs(s);
    WrappedFrameFits(p, BlankAt(s));
    FirstFrameCounts(s, |DATA_FIELD|);
    if Length(Payloads(Drain(s).frames)) == |p| {
      OnlyFrame(p, s);
    }
  }

  lemma OnlyFrame(p: bytes, s: bytes)
    requires Clean(p) && !LooksLikeSse(p) && s == DATA_FIELD + p + BLANK_LINE
    requires |Drain(s).frames| == 1 && Drain(s).rest == [] && Length(Payloads(Drain(s).frames)) == |p|
    ensures Plain(p)
  {
    DrainLength(s);
    FirstFrameIs(s);
    var f := Drain(s).frames[0];
    assert Drain(s).frames == [f] && [f][1..] == [];
    assert |f| == |s| - 2 && f == DATA_FIELD + p;
    DataFrameFits(p);
    if LF !in p {
      DataFrameOfLine(p);
    }
  }

  // ---- Exactly which lists survive ----

  lemma CleanPieceFits(p: bytes)
    requires Clean(p)
    ensures CR !in Encode(p) && Drain(Encode(p)).rest == []
    ensures var n := Length(Payloads(Drain(Encode(p)).frames)); n <= |p| && (n == |p| ==> Plain(p))
  {
    if LooksLikeSse(p) {
      EncodeEvent(p);
      EventPayloadShrinks(p);
      FreeAppend(p, BLANK_LINE);
    } else {
      EncodePlain(p);
      DataPayloadFits(p);
      FreeAppend(DATA_FIELD, p);
      FreeAppend(DATA_FIELD + p, BLANK_LINE);
    }
  }

  /** Of a list of clean payloads no more comes back, and as much only if all are plain. */
  lemma {:induction false} CleanListFits(ps: seq<bytes>)
    requires forall p :: p in ps ==> Clean(p)
    ensures CR !in EncodeAll(ps)
    ensures var n := Length(Payloads(Drain(EncodeAll(ps)).frames));
            n <= Length(ps) && (n == Length(ps) ==> forall p :: p in ps ==> Plain(p))
  {
    if ps != [] {
      var first, later := Encode(ps[0]), EncodeAll(ps[1..]);
      CleanListFits(ps[1..]);
      CleanPieceFits(ps[0]);
      FreeAppend(first, later);
      DrainResumes(first, later);
      assert [] + later == later;
      PayloadsAppend(Drain(first).frames, Drain(later).frames);
      LengthAppend(Payloads(Drain(first).frames), Payloads(Drain(later).frames));
    }
  }

  /** Without carriage returns any chunking reads as the whole. */
  lemma FreeStreamIsWhole(chunks: seq<bytes>)
    requires CR !in Concat(chunks)
    ensures FeedAll([], chunks) == Drain(Concat(chunks))
  {
    NoCrIsClean(chunks);
    ChunkingIsInvisible(chunks);
    OneChunkStream(Concat(chunks));
    NormalizeFacts(Concat(chunks));
  }

  lemma {:induction false} EachIsFree(chunks: seq<bytes>)
    ensures CR !in NormalizeEach(chunks)
  {
    if chunks != [] {
      EachIsFree(chunks[1..]);
      NormalizeFacts(chunks[0]);
      FreeAppend(NormalizeNewlines(chunks[0]), NormalizeEach(chunks[1..]));
    }
  }

  /** A list of payloads, written one after another, cut into any chunks and fed to the decoder,
      comes back as that list exactly when every payload is plain. */
  lemma ListRoundTripExactly(ps: seq<bytes>, chunks: seq<bytes>)
    requires Concat(chunks) == EncodeAll(ps)
    ensures Payloads(FeedAll([], chunks).frames) == ps <==> forall p :: p in ps ==> Plain(p)
  {
    if forall p :: p in ps ==> Plain(p) {
      PlainListRoundTrip(ps, chunks);
    }
    if Payloads(FeedAll([], chunks).frames) == ps {
      FeedFromStart(chunks);
      EachIsFree(chunks);
      forall p | p in ps
        ensures Clean(p)
      {
        PayloadIsClean(NormalizeEach(chunks), p);
      }
      CleanListFits(ps);
      FreeStreamIsWhole(chunks);
    }
  }

  /** One payload survives the round trip exactly when it is plain. */
  lemma RoundTripExactlyPlain(p: bytes)
    ensures Decode(Encode(p)) == [p] <==> Plain(p)
  {
    var wire := Encode(p);
    OneChunkStream(wire);
    OnePayloadStream(p);
    ListRoundTripExactly([p], [wire]);
    assert p in [p];
  }

  lemma OnePayloadStream(p: bytes)
    ensures EncodeAll([p]) == Encode(p)
  {
    assert [p][1..] == [];
    assert Encode(p) + [] == Encode(p);
  }

  lemma OneChunkStream(wire: bytes)
    ensures Concat([wire]) == wire && FeedAll([], [wire]) == Drain(NormalizeNewlines(wire))
  {
    assert [wire][1..] == [];
    assert wire + [] == wire && NormalizeNewlines(wire) + [] == NormalizeNewlines(wire);
    FeedFromStart([wire]);
  }

  lemma DrainMember(s: bytes, f: bytes)
    requires f in Drain(s).frames
    ensures var i := BlankAt(s); i >= 0 && s[i] == LF && (f == s[..i] || f in Drain(s[i + 2..]).frames)
  {
    var i := BlankAt(s);
    if i >= 0 {
      var found := s[i..i + 2];
      assert found[0] == BLANK_LINE[0] && found[0] == s[i];
      assert Drain(s).frames == [s[..i]] + Drain(s[i + 2..]).frames;
    }
  }
}
