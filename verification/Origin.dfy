/** Origin allow-list with `*` wildcards (internal/wsrelay/origin.go). */
module Origin {
  import opened Prelude

  /** White space and one trailing slash removed, letters lowered. Not idempotent: each
      call removes one more slash. */
  function NormalizeOrigin(origin: string): string {
    var t := TrimSpace(origin);
    ToLower(if t != [] && t[|t| - 1] == '/' then t[..|t| - 1] else t)
  }

  /** Two origins are the same to the allow-list when they differ in blanks around them, in the
      case of their letters and in one slash at the end, and in nothing else. */
  lemma SameOrigin(origin: string, other: string)
    requires TrimSpace(origin) == origin != "" && origin[|origin| - 1] != '/'
    ensures NormalizeOrigin(other) == NormalizeOrigin(origin) <==>
            EqualFold(TrimSpace(other), origin) || EqualFold(TrimSpace(other), origin + "/")
  {
    var t := TrimSpace(other);
    assert ToLower(origin + "/") == ToLower(origin) + "/";
    if t != "" && t[|t| - 1] == '/' {
      assert t == t[..|t| - 1] + "/";
      assert ToLower(t) == ToLower(t[..|t| - 1]) + "/";
      assert ToLower(t)[..|t| - 1] == ToLower(t[..|t| - 1]);
      assert (ToLower(origin) + "/")[..|origin|] == ToLower(origin);
      assert ToLower(origin)[|origin| - 1] != '/';
    } else if t != "" {
      assert ToLower(t)[|t| - 1] != '/' && (ToLower(origin) + "/")[|origin|] == '/';
    }
  }

  /** The pattern, with each `*` standing for any string, is the whole of `s`. */
  ghost predicate Matches(p: string, s: string)
    decreases |p|
  {
    if p == [] then
      s == []
    else if p[0] == '*' then
      exists k :: 0 <= k <= |s| && Matches(p[1..], s[k..])
    else
      s != [] && s[0] == p[0] && Matches(p[1..], s[1..])
  }

  /** A leading star can absorb any prefix. */
  lemma StarAbsorbs(p: string, s: string, j: nat)
    requires p != [] && p[0] == '*' && j <= |s| && Matches(p, s[j..])
    ensures Matches(p, s)
  {
    var k :| 0 <= k <= |s[j..]| && Matches(p[1..], s[j..][k..]);
    assert s[j..][k..] == s[j + k..];
  }

  /** Star-free text at the head of a pattern stands for itself only. */
  lemma {:induction false} LiteralHead(lit: string, rest: string, s: string)
    requires '*' !in lit
    ensures Matches(lit + rest, s) <==> lit <= s && Matches(rest, s[|lit|..])
  {
    if lit == [] {
      assert lit + rest == rest && s[0..] == s;
    } else {
      assert (lit + rest)[0] == lit[0] && (lit + rest)[1..] == lit[1..] + rest;
      if s != [] && s[0] == lit[0] {
        LiteralHead(lit[1..], rest, s[1..]);
        assert lit == [lit[0]] + lit[1..] && s == [s[0]] + s[1..];
        assert lit <= s <==> lit[1..] <= s[1..];
        if lit <= s {
          assert s[1..][|lit[1..]|..] == s[|lit|..];
        }
      }
    }
  }

  lemma SliceSplits(s: string, from: nat, to: nat)
    requires from <= to <= |s|
    ensures s[from..] == s[from..to] + s[to..] && s[from..][to - from..] == s[to..]
  {
  }

  /** Only stars match the empty string. */
  lemma {:induction false} MatchesEmpty(p: string)
    ensures Matches(p, "") <==> forall i :: 0 <= i < |p| ==> p[i] == '*'
  {
    if p != [] {
      MatchesEmpty(p[1..]);
      assert ""[0..] == "";
      assert p == [p[0]] + p[1..];
    }
  }

  /** Once the text after a star is in place, a further star may take over: the earlier
      star need not be moved again. */
  lemma NextStarTakesOver(p: string, star: nat, pi: nat, s: string, m: nat)
    requires star < pi < |p| && p[star] == '*' && p[pi] == '*' && '*' !in p[star + 1..pi]
    requires m + (pi - star - 1) <= |s| && p[star + 1..pi] == s[m..m + (pi - star - 1)]
    ensures Matches(p[star..], s[m..]) <==> Matches(p[pi..], s[m + (pi - star - 1)..])
  {
    var lit := p[star + 1..pi];
    var tail := p[star..][1..];
    SliceSplits(p, star, star + 1);
    SliceSplits(p, star + 1, pi);
    var at := m + |lit|;
    if Matches(p[star..], s[m..]) {
      var k :| 0 <= k <= |s[m..]| && Matches(tail, s[m..][k..]);
      LiteralHead(lit, p[pi..], s[m..][k..]);
      assert s[m..][k..][|lit|..] == s[at..][k..];
      StarAbsorbs(p[pi..], s[at..], k);
    }
    if Matches(p[pi..], s[at..]) {
      assert lit <= s[m..] && s[m..][|lit|..] == s[at..];
      LiteralHead(lit, p[pi..], s[m..]);
      assert s[m..][0..] == s[m..];
    }
  }

  /** A failed attempt at `m` moves the star on by one. */
  lemma StarMovesOn(p: string, star: nat, s: string, m: nat)
    requires star < |p| && p[star] == '*' && m < |s|
    requires !Matches(p[star + 1..], s[m..])
    ensures Matches(p[star..], s[m..]) <==> Matches(p[star..], s[m + 1..])
  {
    var tail := p[star..][1..];
    assert tail == p[star + 1..];
    if Matches(p[star..], s[m..]) {
      var k :| 0 <= k <= |s[m..]| && Matches(tail, s[m..][k..]);
      assert s[m..][0..] == s[m..];
      assert s[m..][k..] == s[m + 1..][k - 1..];
    }
    if Matches(p[star..], s[m + 1..]) {
      assert s[m..][1..] == s[m + 1..];
      StarAbsorbs(p[star..], s[m..], 1);
    }
  }

  /** No placement of the star works once the text ran out before the pattern did. */
  lemma StarRunsOut(p: string, star: nat, pi: nat, s: string, m: nat)
    requires star < pi <= |p| && p[star] == '*' && '*' !in p[star + 1..pi]
    requires m + (pi - star - 1) == |s| && p[star + 1..pi] == s[m..]
    ensures Matches(p[star..], s[m..]) <==> Matches(p[pi..], "")
  {
    var lit := p[star + 1..pi];
    var tail := p[star..][1..];
    SliceSplits(p, star, star + 1);
    SliceSplits(p, star + 1, pi);
    if Matches(p[star..], s[m..]) {
      var k :| 0 <= k <= |s[m..]| && Matches(tail, s[m..][k..]);
      LiteralHead(lit, p[pi..], s[m..][k..]);
      assert s[m..][k..][|lit|..] == "";
    }
    if Matches(p[pi..], "") {
      assert s[m..][|lit|..] == "" && s[m..][0..] == s[m..];
      LiteralHead(lit, p[pi..], s[m..]);
    }
  }

  /** One literal character consumed: the match only gets narrower, and for a character
      other than `*` not at all. */
  lemma ConsumeOne(p: string, pi: nat, s: string, oi: nat)
    requires pi < |p| && oi < |s| && p[pi] == s[oi]
    ensures Matches(p[pi + 1..], s[oi + 1..]) ==> Matches(p[pi..], s[oi..])
    ensures p[pi] != '*' ==> (Matches(p[pi..], s[oi..]) <==> Matches(p[pi + 1..], s[oi + 1..]))
  {
    assert p[pi..][1..] == p[pi + 1..] && s[oi..][1..] == s[oi + 1..];
  }

  predicate AllStars(p: string) {
    forall i :: 0 <= i < |p| ==> p[i] == '*'
  }

  /** The matching loop of `matchOriginPattern`, one turn a call. `star` is the last star
      seen (-1 for none) and `m` where in the origin its text currently ends. */
  predicate Greedy(p: string, s: string, pi: nat, oi: nat, star: int, m: nat)
    requires pi <= |p| && m <= oi <= |s| && (star == -1 || 0 <= star < pi)
    decreases |p| - star, |s| - m, |s| - oi
  {
    if oi == |s| then AllStars(p[pi..])
    else if pi < |p| && p[pi] == s[oi] then Greedy(p, s, pi + 1, oi + 1, star, m)
    else if pi < |p| && p[pi] == '*' then Greedy(p, s, pi + 1, oi, pi, oi)
    else if star != -1 then Greedy(p, s, star + 1, m + 1, star, m + 1)
    else false
  }

  /** Whatever the origin, the loop accepts only what the pattern means. */
  lemma {:induction false} GreedyIsSound(p: string, s: string, pi: nat, oi: nat, star: int, m: nat)
    requires pi <= |p| && m <= oi <= |s| && (star == -1 || (0 <= star < pi && p[star] == '*'))
    requires Greedy(p, s, pi, oi, star, m)
    ensures Matches(p[pi..], s[oi..]) || (star >= 0 && Matches(p[star..], s[m..]))
    decreases |p| - star, |s| - m, |s| - oi
  {
    if oi == |s| {
      MatchesEmpty(p[pi..]);
    } else if pi < |p| && p[pi] == s[oi] {
      GreedyIsSound(p, s, pi + 1, oi + 1, star, m);
      ConsumeOne(p, pi, s, oi);
    } else if pi < |p| && p[pi] == '*' {
      GreedyIsSound(p, s, pi + 1, oi, pi, oi);
      assert p[pi..][1..] == p[pi + 1..] && s[oi..][0..] == s[oi..];
    } else {
      GreedyIsSound(p, s, star + 1, m + 1, star, m + 1);
      assert p[star..][1..] == p[star + 1..] && s[m + 1..][0..] == s[m + 1..] && s[m..][1..] == s[m + 1..];
      StarAbsorbs(p[star..], s[m..], 1);
    }
  }

  /** Since the last star, pattern and origin agree character by character. */
  ghost predicate Aligned(p: string, s: string, pi: nat, oi: nat, star: int, m: nat) {
    && pi <= |p| && m <= oi <= |s|
    && (star == -1 ||
        (0 <= star < pi && p[star] == '*' && '*' !in p[star + 1..pi] &&
         oi - m == pi - star - 1 && p[star + 1..pi] == s[m..oi]))
  }

  /** What is left to decide in that state. */
  ghost predicate Aim(p: string, s: string, pi: nat, oi: nat, star: int, m: nat)
    requires Aligned(p, s, pi, oi, star, m)
  {
    if star == -1 then Matches(p[pi..], s[oi..]) else Matches(p[star..], s[m..])
  }

  lemma EqualKeepsAim(p: string, s: string, pi: nat, oi: nat, star: int, m: nat)
    requires Aligned(p, s, pi, oi, star, m) && pi < |p| && oi < |s| && p[pi] == s[oi] != '*'
    ensures Aligned(p, s, pi + 1, oi + 1, star, m)
    ensures Aim(p, s, pi, oi, star, m) == Aim(p, s, pi + 1, oi + 1, star, m)
  {
    if star >= 0 {
      assert p[star + 1..pi + 1] == p[star + 1..pi] + [p[pi]] && s[m..oi + 1] == s[m..oi] + [s[oi]];
    } else {
      ConsumeOne(p, pi, s, oi);
    }
  }

  lemma StarKeepsAim(p: string, s: string, pi: nat, oi: nat, star: int, m: nat)
    requires Aligned(p, s, pi, oi, star, m) && pi < |p| && p[pi] == '*'
    ensures Aligned(p, s, pi + 1, oi, pi, oi)
    ensures Aim(p, s, pi, oi, star, m) == Aim(p, s, pi + 1, oi, pi, oi)
  {
    if star >= 0 {
      NextStarTakesOver(p, star, pi, s, m);
    }
  }

  lemma BackKeepsAim(p: string, s: string, pi: nat, oi: nat, star: int, m: nat)
    requires Aligned(p, s, pi, oi, star, m) && star != -1 && oi < |s|
    requires pi == |p| || (p[pi] != '*' && p[pi] != s[oi])
    ensures Aligned(p, s, star + 1, m + 1, star, m + 1)
    ensures Aim(p, s, pi, oi, star, m) == Aim(p, s, star + 1, m + 1, star, m + 1)
  {
    SliceSplits(p, star + 1, pi);
    SliceSplits(s, m, oi);
    LiteralHead(p[star + 1..pi], p[pi..], s[m..]);
    StarMovesOn(p, star, s, m);
  }

  lemma EndDecidesAim(p: string, s: string, pi: nat, star: int, m: nat)
    requires Aligned(p, s, pi, |s|, star, m)
    ensures Aim(p, s, pi, |s|, star, m) == AllStars(p[pi..])
  {
    MatchesEmpty(p[pi..]);
    if star >= 0 {
      assert s[m..|s|] == s[m..];
      StarRunsOut(p, star, pi, s, m);
    }
  }

  /** No `*` before the last character. */
  predicate StarAtEndOnly(s: string) {
    forall i :: 0 <= i < |s| - 1 ==> s[i] != '*'
  }

  /** A pattern has no literal star, so only stars match one. */
  lemma {:induction false} OnlyStarsMatchStar(p: string)
    requires Matches(p, "*")
    ensures AllStars(p)
  {
    if p[0] == '*' {
      var k :| 0 <= k <= 1 && Matches(p[1..], "*"[k..]);
      assert "*"[0..] == "*" && "*"[1..] == "";
      if k == 0 {
        OnlyStarsMatchStar(p[1..]);
      } else {
        MatchesEmpty(p[1..]);
      }
      assert p == [p[0]] + p[1..];
    }
  }

  lemma AllStarsTail(p: string)
    requires p != "" && AllStars(p)
    ensures AllStars(p[1..])
  {
  }

  /** A star of the pattern taken for the origin's last character decides the match. */
  lemma LastStarDecidesAim(p: string, s: string, pi: nat, star: int, m: nat)
    requires s != "" && Aligned(p, s, pi, |s| - 1, star, m) && pi < |p| && p[pi] == s[|s| - 1] == '*'
    ensures Aim(p, s, pi, |s| - 1, star, m) == AllStars(p[pi + 1..])
  {
    var last := |s| - 1;
    StarKeepsAim(p, s, pi, last, star, m);
    assert s[last..] == "*" && p[pi..][1..] == p[pi + 1..] && "*"[1..] == "";
    MatchesEmpty(p[pi + 1..]);
    if Matches(p[pi..], "*") {
      OnlyStarsMatchStar(p[pi..]);
      AllStarsTail(p[pi..]);
    }
  }

  /** For an origin with no `*` before its end the loop is exact from every state it can be in. */
  lemma {:induction false} GreedyIsExact(p: string, s: string, pi: nat, oi: nat, star: int, m: nat)
    requires Aligned(p, s, pi, oi, star, m) && StarAtEndOnly(s)
    ensures Greedy(p, s, pi, oi, star, m) == Aim(p, s, pi, oi, star, m)
    decreases |p| - star, |s| - m, |s| - oi
  {
    if oi == |s| {
      EndDecidesAim(p, s, pi, star, m);
    } else if pi < |p| && p[pi] == s[oi] == '*' {
      assert oi == |s| - 1;
      LastStarDecidesAim(p, s, pi, star, m);
      assert Greedy(p, s, pi + 1, |s|, star, m) == AllStars(p[pi + 1..]);
    } else if pi < |p| && p[pi] == s[oi] {
      EqualKeepsAim(p, s, pi, oi, star, m);
      GreedyIsExact(p, s, pi + 1, oi + 1, star, m);
    } else if pi < |p| && p[pi] == '*' {
      StarKeepsAim(p, s, pi, oi, star, m);
      GreedyIsExact(p, s, pi + 1, oi, pi, oi);
    } else if star != -1 {
      BackKeepsAim(p, s, pi, oi, star, m);
      GreedyIsExact(p, s, star + 1, m + 1, star, m + 1);
    }
  }

  /** The two halves for a whole pattern and a whole origin. */
  lemma GreedyDecidesMatches(p: string, s: string)
    ensures Greedy(p, s, 0, 0, -1, 0) ==> Matches(p, s)
    ensures StarAtEndOnly(s) ==> (Greedy(p, s, 0, 0, -1, 0) <==> Matches(p, s))
  {
    assert p[0..] == p && s[0..] == s;
    if Greedy(p, s, 0, 0, -1, 0) {
      GreedyIsSound(p, s, 0, 0, -1, 0);
    }
    if StarAtEndOnly(s) {
      GreedyIsExact(p, s, 0, 0, -1, 0);
    }
  }

  /** Equal text is consumed without a choice. */
  lemma {:induction false} GreedyConsumes(p: string, s: string, n: nat, k: nat)
    requires k <= n <= |p| && n <= |s| && p[..n] == s[..n]
    ensures Greedy(p, s, k, k, -1, 0) == Greedy(p, s, n, n, -1, 0)
    decreases n - k
  {
    if k < n {
      assert p[..n][k] == p[k] && s[..n][k] == s[k];
      GreedyConsumes(p, s, n, k + 1);
    }
  }

  /** Prefixing pattern and origin with the same text keeps a match. */
  lemma {:induction false} MatchesAfterPrefix(u: string, p: string, s: string)
    requires Matches(p, s)
    ensures Matches(u + p, u + s)
  {
    if u == "" {
      assert u + p == p && u + s == s;
    } else {
      MatchesAfterPrefix(u[1..], p, s);
      assert (u + p)[1..] == u[1..] + p && (u + s)[1..] == u[1..] + s;
      if u[0] == '*' {
        assert Matches((u + p)[1..], (u + s)[1..]);
      }
    }
  }

  /** Why no `*` may stand inside an origin: the loop pairs a star of the pattern with a star
      of the origin as ordinary characters and cannot come back to it. Every origin with a
      star strictly inside it defeats some pattern that does match it. */
  lemma StarInsideOriginDefeatsLoop(u: string, v: string)
    requires v != ""
    ensures Matches(u + "*", u + "*" + v)
    ensures !Greedy(u + "*", u + "*" + v, 0, 0, -1, 0)
  {
    var p, s := u + "*", u + "*" + v;
    GreedyConsumes(p, s, |p|, 0);
    var tail := "*" + v;
    assert tail[|tail|..] == "" && "*"[1..] == "";
    MatchesAfterPrefix(u, "*", tail);
    assert u + tail == s;
  }

  /** The origins on which the loop agrees with every pattern's meaning are exactly those with
      no `*` before their last character; in particular all without `*`. */
  lemma OriginsDecidedByLoop(s: string)
    ensures (forall p: string :: Greedy(p, s, 0, 0, -1, 0) <==> Matches(p, s)) <==> StarAtEndOnly(s)
  {
    if StarAtEndOnly(s) {
      forall p: string
        ensures Greedy(p, s, 0, 0, -1, 0) <==> Matches(p, s)
      {
        GreedyDecidesMatches(p, s);
      }
    } else {
      var i :| 0 <= i < |s| - 1 && s[i] == '*';
      var u, v := s[..i], s[i + 1..];
      assert s == u + "*" + v;
      StarInsideOriginDefeatsLoop(u, v);
    }
  }

  /** The loop itself. */
  method MatchGreedy(p: string, s: string) returns (ok: bool)
    ensures ok == Greedy(p, s, 0, 0, -1, 0)
  {
    var pi, oi := 0, 0;
    var starIdx := -1;
    var matchIdx := 0;
    while oi < |s|
      invariant 0 <= pi <= |p| && 0 <= matchIdx <= oi <= |s| && (starIdx == -1 || 0 <= starIdx < pi)
      invariant Greedy(p, s, 0, 0, -1, 0) == Greedy(p, s, pi, oi, starIdx, matchIdx)
      decreases |p| - starIdx, |s| - matchIdx, |s| - oi
    {
      if pi < |p| && p[pi] == s[oi] {
        pi, oi := pi + 1, oi + 1;
        continue;
      }
      if pi < |p| && p[pi] == '*' {
        starIdx, matchIdx, pi := pi, oi, pi + 1;
        continue;
      }
      if starIdx != -1 {
        pi, matchIdx := starIdx + 1, matchIdx + 1;
        oi := matchIdx;
        continue;
      }
      return false;
    }
    ghost var rest, from := p[pi..], pi;
    while pi < |p| && p[pi] == '*'
      invariant from <= pi <= |p| && forall i :: 0 <= i < pi - from ==> rest[i] == '*'
    {
      pi := pi + 1;
    }
    assert pi < |p| ==> rest[pi - from] != '*';
    return pi == |p|;
  }

  /** `matchOriginPattern` normalises both sides again before matching. */
  ghost predicate PatternAllows(pattern: string, origin: string) {
    var p, s := NormalizeOrigin(pattern), NormalizeOrigin(origin);
    p != "" && s != "" && Matches(p, s)
  }

  method MatchOriginPattern(pattern: string, origin: string) returns (ok: bool)
    ensures ok ==> PatternAllows(pattern, origin)
    ensures StarAtEndOnly(NormalizeOrigin(origin)) ==> (ok <==> PatternAllows(pattern, origin))
  {
    var p, s := NormalizeOrigin(pattern), NormalizeOrigin(origin);
    if p == "" || s == "" {
      return false;
    }
    if p == "*" {
      assert s[|s|..] == "" && p[1..] == "";
      return true;
    }
    GreedyDecidesMatches(p, s);
    ok := MatchGreedy(p, s);
  }

  lemma NormalizeKeepsStarAtEnd(s: string)
    requires StarAtEndOnly(s)
    ensures StarAtEndOnly(NormalizeOrigin(s))
  {
    TrimIsTrimmed(s, IsSpace);
    assert forall c: char :: c != '*' ==> LowerChar(c) != '*';
  }

  /** What one allow-list entry lets through. */
  ghost predicate EntryAllows(item: string, origin: string) {
    var i := NormalizeOrigin(item);
    i == "*" || (i != "" && if '*' in i then PatternAllows(i, origin) else i == origin)
  }

  /** The policy the validator promises, over the configured list itself. */
  ghost predicate PolicyAllows(mode: string, items: seq<string>, header: string) {
    var origin := NormalizeOrigin(header);
    || mode == "any"
    || AnyEntry(items)
    || (if origin == "" then mode != "strict" else exists item :: item in items && EntryAllows(item, origin))
  }

  ghost function ExactEntries(items: seq<string>): set<string> {
    set item | item in items && NormalizeOrigin(item) != "" && '*' !in NormalizeOrigin(item) :: NormalizeOrigin(item)
  }

  ghost function PatternEntries(items: seq<string>): set<string> {
    set item | item in items && NormalizeOrigin(item) != "*" && '*' in NormalizeOrigin(item) :: NormalizeOrigin(item)
  }

  ghost predicate AnyEntry(items: seq<string>) {
    exists item :: item in items && NormalizeOrigin(item) == "*"
  }

  function Elements(s: seq<string>): set<string> {
    set q | q in s
  }

  lemma ElementsOfAppend(s: seq<string>, item: string)
    ensures Elements(s + [item]) == Elements(s) + {item}
  {
  }

  /** How one more entry extends the three tables. */
  lemma EntriesOfAppend(items: seq<string>, item: string)
    ensures var o := NormalizeOrigin(item);
      && (AnyEntry(items + [item]) <==> AnyEntry(items) || o == "*")
      && ExactEntries(items + [item]) == ExactEntries(items) + (if o != "" && '*' !in o then {o} else {})
      && PatternEntries(items + [item]) == PatternEntries(items) + (if o != "*" && '*' in o then {o} else {})
  {
    var longer := items + [item];
    assert forall x :: x in longer <==> x in items || x == item;
    if AnyEntry(items) {
      var w :| w in items && NormalizeOrigin(w) == "*";
      assert w in longer;
    }
    assert item in longer;
  }

  class OriginValidator {
    const mode: string
    ghost const items: seq<string>
    var exactAllowed: set<string>
    var patternAllowed: seq<string>
    var allowAny: bool

    /** The three tables hold exactly the configured entries. */
    ghost predicate Valid()
      reads this
    {
      Holds(items)
    }

    ghost predicate Holds(done: seq<string>)
      reads this
    {
      && allowAny == AnyEntry(done)
      && exactAllowed == ExactEntries(done)
      && Elements(patternAllowed) == PatternEntries(done)
    }

    constructor (rawMode: string, allowedOrigins: seq<string>)
      ensures Valid() && items == allowedOrigins
      ensures mode == (var m := Canonical(rawMode); if m == "" then "allow-missing" else m)
    {
      var m := Canonical(rawMode);
      mode := if m == "" then "allow-missing" else m;
      items := allowedOrigins;
      exactAllowed, patternAllowed, allowAny := {}, [], false;
      new;
      for n := 0 to |allowedOrigins|
        invariant items == allowedOrigins && Holds(items[..n])
      {
        AddEntry(items[..n], allowedOrigins[n]);
        assert items[..n + 1] == items[..n] + [allowedOrigins[n]];
      }
      assert items[..|items|] == items;
    }

    /** One turn of the constructor's loop. */
    method AddEntry(ghost done: seq<string>, raw: string)
      requires Holds(done)
      modifies this
      ensures Holds(done + [raw])
    {
      EntriesOfAppend(done, raw);
      var item := NormalizeOrigin(raw);
      ElementsOfAppend(patternAllowed, item);
      if item == "" {
      } else if item == "*" {
        allowAny := true;
      } else if '*' in item {
        patternAllowed := patternAllowed + [item];
      } else {
        exactAllowed := exactAllowed + {item};
      }
    }

    /** `isOriginAllowed`: the exact table first, then each pattern in turn. */
    method IsOriginAllowed(origin: string) returns (ok: bool)
      requires Valid()
      ensures ok ==>
                origin != "" && (origin in exactAllowed || exists q :: q in patternAllowed && PatternAllows(q, origin))
      ensures StarAtEndOnly(origin) && origin != "" && origin in exactAllowed ==> ok
      ensures StarAtEndOnly(origin) && origin != "" && (exists q :: q in patternAllowed && PatternAllows(q, origin))
              ==> ok
    {
      if origin == "" {
        return false;
      }
      if origin in exactAllowed {
        return true;
      }
      if StarAtEndOnly(origin) {
        NormalizeKeepsStarAtEnd(origin);
      }
      for i := 0 to |patternAllowed|
        invariant StarAtEndOnly(origin) ==> forall q :: q in patternAllowed[..i] ==> !PatternAllows(q, origin)
      {
        var hit := MatchOriginPattern(patternAllowed[i], origin);
        if hit {
          return true;
        }
      }
      return false;
    }

    /** The handshake check; `None` is a missing request. Nothing outside the policy is
        let in, and for an origin with no `*` before its end nothing inside it is turned away. */
    method Check(header: Option<string>) returns (ok: bool)
      requires Valid()
      ensures header.None? ==> (ok <==> allowAny || mode != "strict")
      ensures header.Some? && ok ==> PolicyAllows(mode, items, header.value)
      ensures header.Some? && StarAtEndOnly(NormalizeOrigin(header.value)) && PolicyAllows(mode, items, header.value)
              ==> ok
    {
      if allowAny || mode == "any" {
        return true;
      }
      if header.None? {
        return mode != "strict";
      }
      var origin := NormalizeOrigin(header.value);
      if origin == "" {
        return mode != "strict";
      }
      ok := IsOriginAllowed(origin);
      TablesMeanEntries(items, origin);
      assert forall q :: q in patternAllowed <==> q in PatternEntries(items) by {
        assert forall q :: q in patternAllowed <==> q in Elements(patternAllowed);
      }
    }
  }

  /** Looking an origin up in the tables is asking the entries one by one. */
  lemma TablesMeanEntries(items: seq<string>, origin: string)
    requires !AnyEntry(items)
    ensures (exists item :: item in items && EntryAllows(item, origin)) <==>
            || (origin in ExactEntries(items))
            || (exists q :: q in PatternEntries(items) && PatternAllows(q, origin))
  {
    if item :| item in items && EntryAllows(item, origin) {
      assert NormalizeOrigin(item) != "*";
    }
    if origin in ExactEntries(items) {
      var item :| item in items && NormalizeOrigin(item) == origin && origin != "" && '*' !in origin;
      assert EntryAllows(item, origin);
    }
    if q :| q in PatternEntries(items) && PatternAllows(q, origin) {
      var item :| item in items && NormalizeOrigin(item) == q && q != "*" && '*' in q;
      assert EntryAllows(item, origin);
    }
  }
}
