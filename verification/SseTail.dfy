/** What cutting a text at its blank lines leaves of it, read off its end
    (internal/pipeline/stream_adapter.go). */
module SseTail {
  import opened Sse

  /** What stays in the buffer is the end of the text. */
  lemma {:induction false} RestIsSuffix(s: bytes)
    ensures |Drain(s).rest| <= |s| && Drain(s).rest == s[|s| - |Drain(s).rest|..]
    decreases |s|
  {
    var i := BlankAt(s);
    if i >= 0 {
      var tail := s[i + 2..];
      RestIsSuffix(tail);
      var n := |Drain(tail).rest|;
      assert Drain(s).rest == Drain(tail).rest;
      assert tail[|tail| - n..] == s[|s| - n..];
    }
  }

  /** How many line feeds `s` ends with. */
  function TrailingFeeds(s: bytes): nat {
    if s != [] && s[|s| - 1] == LF then TrailingFeeds(s[..|s| - 1]) + 1 else 0
  }

  predicate EndsEvenly(s: bytes) {
    TrailingFeeds(s) >= 2 && TrailingFeeds(s) % 2 == 0
  }

  /** `text` ends with whole blank lines, at least one, and then `buf`. */
  predicate EndsInBlankLines(text: bytes, buf: bytes) {
    HasSuffix(text, buf) && EndsEvenly(text[..|text| - |buf|])
  }

  lemma {:induction false} FeedsAppend(a: bytes, b: bytes)
    ensures TrailingFeeds(b) <= |b|
    ensures TrailingFeeds(a + b) == if TrailingFeeds(b) == |b| then TrailingFeeds(a) + |b| else TrailingFeeds(b)
    decreases |b|
  {
    if b == [] {
      assert a + b == a;
    } else {
      FeedsAppend(a, b[..|b| - 1]);
      assert (a + b)[..|a + b| - 1] == a + b[..|b| - 1];
    }
  }

  lemma {:induction false} PairIsBlank(s: bytes, i: nat)
    requires i + 1 < |s| && s[i] == LF && s[i + 1] == LF
    ensures 0 <= BlankAt(s) <= i
  {
    if i > 0 && !(s[0] == LF && s[1] == LF) {
      PairIsBlank(s[1..], i - 1);
    }
  }

  lemma FeedsOfBlank()
    ensures TrailingFeeds([LF, LF]) == 2
  {
    assert [LF, LF][..1] == [LF] && [LF][..0] == [];
    assert TrailingFeeds([LF]) == 1;
  }

  /** The feeds of a text around its first blank line. */
  lemma FeedsAroundBlank(p: bytes)
    requires BlankAt(p) >= 0
    ensures var tail := p[BlankAt(p) + 2..];
            TrailingFeeds(p) == if TrailingFeeds(tail) == |tail| then |tail| + 2 else TrailingFeeds(tail)
  {
    var i := BlankAt(p);
    var head, tail := p[..i], p[i + 2..];
    assert p == head + ([LF, LF] + tail);
    FeedsAppend(head, [LF, LF] + tail);
    FeedsAppend([LF, LF], tail);
    FeedsOfBlank();
    if i > 0 && p[i - 1] == LF {
      PairIsBlank(p, i - 1);
    }
    assert TrailingFeeds(head) == 0;
  }

  lemma EvenAroundBlank(p: bytes)
    requires BlankAt(p) >= 0
    ensures var tail := p[BlankAt(p) + 2..];
            EndsEvenly(p) <==> tail == [] || EndsEvenly(tail)
  {
    FeedsAroundBlank(p);
  }

  /** Cutting a text leaves exactly `r` of it when what comes before `r` is nothing or ends with
      whole blank lines. */
  lemma {:induction false} RestComesBack(p: bytes, r: bytes)
    requires BlankAt(r) < 0
    ensures Drain(p + r).rest == r <==> p == [] || EndsEvenly(p)
    decreases |p|
  {
    if BlankAt(p) >= 0 {
      var tail := p[BlankAt(p) + 2..];
      FirstFrame(p, r);
      EvenAroundBlank(p);
      RestComesBack(tail, r);
    } else {
      FewFeeds(p);
      NoBlankBefore(p, r);
    }
  }

  lemma FewFeeds(p: bytes)
    requires BlankAt(p) < 0
    ensures TrailingFeeds(p) < 2
  {
    if |p| >= 2 && p[|p| - 1] == LF {
      if p[|p| - 2] == LF {
        PairIsBlank(p, |p| - 2);
      }
      assert p[..|p| - 1][|p| - 2] == p[|p| - 2];
    }
  }

  /** A blank line that only the two together have lies across both. */
  lemma NoBlankBefore(p: bytes, r: bytes)
    requires BlankAt(p) < 0 && BlankAt(r) < 0
    ensures Drain(p + r).rest == r <==> p == []
  {
    var i := BlankAt(p + r);
    if p == [] {
      assert p + r == r;
    } else if i >= 0 {
      if i + 2 <= |p| {
        PairIsBlank(p, i);
      } else if i >= |p| {
        PairIsBlank(r, i - |p|);
      }
      RestIsSuffix((p + r)[i + 2..]);
      DrainStep(p + r, (p + r)[..i], (p + r)[i + 2..]);
    }
  }

  lemma NormalizedBehind(buf: bytes, chunk: bytes)
    requires CR !in buf && chunk != []
    ensures FeedRaw(buf, chunk) == Drain(buf + NormalizeNewlines(chunk))
  {
    NormalizeFacts(buf);
    NormalizeAppend(buf, chunk);
  }

  /** A chunk leaves the buffer as it was exactly if the two end with whole blank lines followed
      by the buffer's own text. */
  lemma BufferComesBack(buf: bytes, chunk: bytes)
    requires CR !in buf && BlankAt(buf) < 0 && chunk != []
    ensures FeedRaw(buf, chunk).rest == buf <==> EndsInBlankLines(buf + NormalizeNewlines(chunk), buf)
  {
    var more := NormalizeNewlines(chunk);
    var text := buf + more;
    NormalizedBehind(buf, chunk);
    RestIsSuffix(text);
    if HasSuffix(text, buf) {
      var p := text[..|text| - |buf|];
      assert text == p + buf && |p| == |more|;
      RestComesBack(p, buf);
      NormalizedNotEmpty(chunk);
    }
  }

  lemma NormalizedNotEmpty(chunk: bytes)
    requires chunk != []
    ensures NormalizeNewlines(chunk) != []
  {
    ReplaceCrFacts(ReplaceCrLf(chunk));
  }
}
