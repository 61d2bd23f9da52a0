/** Collecting, ordering and refusing providers (internal/provider/selector/helpers.go). */
module Selector {
  import opened Prelude
  import opened Providers

  // ---- The order of candidates ----

  /** Higher priority first, then the older connection, then the ID. */
  predicate Before(a: Provider, b: Provider) {
    if a.priority != b.priority then a.priority > b.priority
    else if a.connectedAt != b.connectedAt then a.connectedAt < b.connectedAt
    else LexLess(ToLower(a.id), ToLower(b.id))
  }

  predicate Tied(a: Provider, b: Provider) {
    a.priority == b.priority && a.connectedAt == b.connectedAt && ToLower(a.id) == ToLower(b.id)
  }

  lemma BeforeIsStrictOrder(a: Provider, b: Provider, c: Provider)
    ensures Before(a, b) || Before(b, a) || Tied(a, b)
    ensures !(Before(a, b) && Before(b, a)) && (Tied(a, b) ==> !Before(a, b))
    ensures Before(a, b) && Before(b, c) ==> Before(a, c)
    ensures !Before(b, a) && !Before(c, b) ==> !Before(c, a)
  {
    LexLessIsOrder(ToLower(a.id), ToLower(b.id), ToLower(c.id));
  }

  // ---- `sort.SliceStable` ----

  predicate Sorted(s: seq<Provider>) {
    forall i, j :: 0 <= i < j < |s| ==> !Before(s[j], s[i])
  }

  function InsertStable(s: seq<Provider>, x: Provider): seq<Provider> {
    if s == [] || !Before(x, s[|s| - 1]) then s + [x]
    else InsertStable(s[..|s| - 1], x) + [s[|s| - 1]]
  }

  function StableSort(s: seq<Provider>): seq<Provider> {
    if s == [] then [] else InsertStable(StableSort(s[..|s| - 1]), s[|s| - 1])
  }

  /** The elements of `s` that tie with `y`, in order. */
  function TiesWith(s: seq<Provider>, y: Provider): seq<Provider> {
    if s == [] then []
    else TiesWith(s[..|s| - 1], y) + if Tied(s[|s| - 1], y) then [s[|s| - 1]] else []
  }

  lemma {:induction false} InsertFacts(s: seq<Provider>, x: Provider)
    requires Sorted(s)
    ensures var r := InsertStable(s, x);
            Sorted(r) && multiset(r) == multiset(s) + multiset{x} && forall e :: e in r <==> e in s || e == x
  {
    if s != [] {
      var last := s[|s| - 1];
      assert s == s[..|s| - 1] + [last];
      if Before(x, last) {
        InsertFacts(s[..|s| - 1], x);
        var r := InsertStable(s[..|s| - 1], x);
        forall e | e in r
          ensures !Before(last, e)
        {
          BeforeIsStrictOrder(x, last, last);
        }
      } else {
        forall e | e in s
          ensures !Before(x, e)
        {
          BeforeIsStrictOrder(e, last, x);
        }
      }
    }
  }

  lemma {:induction false} InsertIsStable(s: seq<Provider>, x: Provider, y: Provider)
    ensures TiesWith(InsertStable(s, x), y) == TiesWith(s + [x], y)
  {
    assert (s + [x])[..|s|] == s;
    if s != [] && Before(x, s[|s| - 1]) {
      var init, last := s[..|s| - 1], s[|s| - 1];
      InsertIsStable(init, x, y);
      var r := InsertStable(init, x);
      assert (r + [last])[..|r|] == r;
      assert (init + [x])[..|init|] == init;
      BeforeIsStrictOrder(x, last, last);
    }
  }

  /** Sorted, and the same elements as often. */
  lemma {:induction false} StableSortSorts(s: seq<Provider>)
    ensures Sorted(StableSort(s)) && multiset(StableSort(s)) == multiset(s)
  {
    if s != [] {
      StableSortSorts(s[..|s| - 1]);
      InsertFacts(StableSort(s[..|s| - 1]), s[|s| - 1]);
      assert s == s[..|s| - 1] + [s[|s| - 1]];
    }
  }

  /** Ties keep their order. */
  lemma {:induction false} StableSortKeepsTies(s: seq<Provider>, y: Provider)
    ensures TiesWith(StableSort(s), y) == TiesWith(s, y)
  {
    if s != [] {
      var init, last := s[..|s| - 1], s[|s| - 1];
      var p := StableSort(init);
      StableSortKeepsTies(init, y);
      InsertIsStable(p, last, y);
      assert (p + [last])[..|p|] == p;
    }
  }

  lemma {:induction false} SortedIsFixed(s: seq<Provider>)
    requires Sorted(s)
    ensures StableSort(s) == s
  {
    if s != [] {
      SortedIsFixed(s[..|s| - 1]);
      assert s == s[..|s| - 1] + [s[|s| - 1]];
    }
  }

  // ---- Collecting the ready providers ----

  function NormalizeTried(tried: set<string>): set<string> {
    set k | k in tried && MapKey(k) != "" :: MapKey(k)
  }

  predicate IsTried(tried: set<string>, id: string) {
    MapKey(id) in NormalizeTried(tried)
  }

  /** Not tried yet and active as far as a selector can tell. */
  predicate IsCandidate(p: Provider, tried: set<string>, now: Time) {
    !IsTried(tried, p.id) && EffectiveState(p, now).Ready?
  }

  function Candidates(ps: seq<Provider>, tried: set<string>, now: Time): seq<Provider> {
    if ps == [] then []
    else
      var p := ps[|ps| - 1];
      Candidates(ps[..|ps| - 1], tried, now) + if IsCandidate(p, tried, now) then [p] else []
  }

  function WithPriority(s: seq<Provider>, priority: int): seq<Provider> {
    if s == [] then []
    else
      var p := s[|s| - 1];
      WithPriority(s[..|s| - 1], priority) + if p.priority == priority then [p] else []
  }

  function TopTier(s: seq<Provider>): seq<Provider> {
    if s == [] then [] else WithPriority(s, s[0].priority)
  }

  /** The ready list: candidates in order, only the best priority. */
  function Collect(ps: seq<Provider>, tried: set<string>, now: Time): seq<Provider> {
    TopTier(StableSort(Candidates(ps, tried, now)))
  }

  /** What the collector remembers for its error. */
  datatype Summary = Summary(total: nat, cooling: nat, earliest: Time)

  function Count(s: Summary, p: Provider, tried: set<string>, now: Time): Summary {
    if IsTried(tried, p.id) then s
    else match EffectiveState(p, now)
      case CoolingUntil(until) =>
        Summary(s.total + 1, s.cooling + 1,
                if until != ZERO_TIME && (s.earliest == ZERO_TIME || until < s.earliest) then until else s.earliest)
      case _ => s.(total := s.total + 1)
  }

  function Summarize(ps: seq<Provider>, tried: set<string>, now: Time): Summary {
    if ps == [] then Summary(0, 0, ZERO_TIME)
    else Count(Summarize(ps[..|ps| - 1], tried, now), ps[|ps| - 1], tried, now)
  }

  datatype SelectError = CooldownError(retryAfter: nat) | UnavailableError(eligible: nat, cooling: nat)

  function SelectionError(s: Summary, now: Time): SelectError {
    if s.total > 0 && s.cooling == s.total && s.earliest != ZERO_TIME then
      CooldownError(if s.earliest < now then 0 else s.earliest - now)
    else
      UnavailableError(s.total, s.cooling)
  }

  /** `collectReadyProviders`: one pass, a sort, then the slice compacted in place. */
  method CollectReadyProviders(providers: seq<Provider>, tried: set<string>, now: Time)
    returns (ready: seq<Provider>, summary: Summary)
    ensures ready == Collect(providers, tried, now)
    ensures summary == Summarize(providers, tried, now)
  {
    summary := Summary(0, 0, ZERO_TIME);
    ready := [];
    for i := 0 to |providers|
      invariant ready == Candidates(providers[..i], tried, now)
      invariant summary == Summarize(providers[..i], tried, now)
    {
      var item := providers[i];
      assert providers[..i + 1][..i] == providers[..i];
      if IsTried(tried, item.id) {
        continue;
      }
      summary := summary.(total := summary.total + 1);
      match EffectiveState(item, now) {
        case Ready =>
          ready := ready + [item];
        case CoolingUntil(until) =>
          summary := summary.(cooling := summary.cooling + 1);
          if until != ZERO_TIME && (summary.earliest == ZERO_TIME || until < summary.earliest) {
            summary := summary.(earliest := until);
          }
        case Unavailable =>
      }
    }
    assert providers[..|providers|] == providers;
    if |ready| == 0 {
      return [], summary;
    }
    ready := SortAndCompact(ready);
  }

  method SortAndCompact(ready: seq<Provider>) returns (filtered: seq<Provider>)
    requires ready != []
    ensures filtered == TopTier(StableSort(ready))
  {
    var sorted := StableSort(ready);
    StableSortSorts(ready);
    assert |sorted| == |multiset(sorted)| == |multiset(ready)| == |ready|;
    var slice := new Provider[|sorted|](i requires 0 <= i < |sorted| => sorted[i]);
    assert slice[..] == sorted;
    var kept := CompactTopTier(slice);
    filtered := slice[..kept];
  }

  /** `filtered := ready[:0]`: keeps the top tier at the front of the same array. The write
      index never passes the read index. */
  method CompactTopTier(slice: array<Provider>) returns (kept: nat)
    requires slice.Length > 0
    modifies slice
    ensures kept <= slice.Length && slice[..kept] == TopTier(old(slice[..]))
  {
    var best := slice[0].priority;
    ghost var was := slice[..];
    kept := 0;
    for i := 0 to slice.Length
      invariant kept <= i && slice[..kept] == WithPriority(was[..i], best)
      invariant forall j :: i <= j < slice.Length ==> slice[j] == was[j]
    {
      var item := slice[i];
      assert was[..i + 1][..i] == was[..i] && was[..i + 1][i] == item;
      if item.priority == best {
        slice[kept] := item;
        kept := kept + 1;
        assert slice[..kept] == slice[..kept - 1] + [item];
      }
    }
    assert was[..slice.Length] == was;
  }

  // ---- The ready list is canonical ----

  lemma {:induction false} CandidatesAre(ps: seq<Provider>, tried: set<string>, now: Time, p: Provider)
    ensures multiset(Candidates(ps, tried, now))[p] == if IsCandidate(p, tried, now) then multiset(ps)[p] else 0
  {
    if ps != [] {
      var init, last := ps[..|ps| - 1], ps[|ps| - 1];
      CandidatesAre(init, tried, now, p);
      assert ps == init + [last];
    }
  }

  lemma {:induction false} WithPriorityIs(s: seq<Provider>, priority: int, p: Provider)
    requires Sorted(s)
    ensures p in WithPriority(s, priority) <==> p in s && p.priority == priority
    ensures Sorted(WithPriority(s, priority))
  {
    if s != [] {
      var init, last := s[..|s| - 1], s[|s| - 1];
      WithPriorityIs(init, priority, p);
      assert s == init + [last];
      forall e | e in WithPriority(init, priority)
        ensures !Before(last, e)
      {
        WithPriorityIs(init, priority, e);
      }
    }
  }

  lemma SortedPutsBestFirst(s: seq<Provider>, p: Provider)
    requires Sorted(s) && p in s
    ensures p.priority <= s[0].priority
  {
    var i :| 0 <= i < |s| && s[i] == p;
    assert i > 0 ==> !Before(s[i], s[0]);
  }

  /** Exactly the untried active providers no other one outranks, in order. */
  lemma CollectIsTopTier(ps: seq<Provider>, tried: set<string>, now: Time, p: Provider)
    ensures p in Collect(ps, tried, now) <==>
            p in ps && IsCandidate(p, tried, now) &&
            forall q :: q in ps && IsCandidate(q, tried, now) ==> q.priority <= p.priority
    ensures Sorted(Collect(ps, tried, now))
    ensures Collect(ps, tried, now) == [] <==> forall q :: q in ps ==> !IsCandidate(q, tried, now)
  {
    var c := Candidates(ps, tried, now);
    var s := StableSort(c);
    StableSortSorts(c);
    forall q
      ensures q in s <==> q in ps && IsCandidate(q, tried, now)
    {
      CandidatesAre(ps, tried, now, q);
      assert q in s <==> multiset(s)[q] > 0;
      assert q in ps <==> multiset(ps)[q] > 0;
    }
    if s != [] {
      WithPriorityIs(s, s[0].priority, p);
      WithPriorityIs(s, s[0].priority, s[0]);
      forall q | q in s
        ensures q.priority <= s[0].priority
      {
        SortedPutsBestFirst(s, q);
      }
      assert s[0] in s;
    }
  }

  predicate DistinctIds(ps: seq<Provider>) {
    forall p, q :: p in ps && q in ps && ToLower(p.id) == ToLower(q.id) ==> p == q
  }

  lemma SameLast(a: seq<Provider>, b: seq<Provider>)
    requires Sorted(a) && Sorted(b) && multiset(a) == multiset(b) && DistinctIds(a) && a != [] && b != []
    ensures a[|a| - 1] == b[|b| - 1]
  {
    var x, y := a[|a| - 1], b[|b| - 1];
    assert x in multiset(b) && y in multiset(a);
    var i :| 0 <= i < |a| && a[i] == y;
    var j :| 0 <= j < |b| && b[j] == x;
    BeforeIsStrictOrder(x, y, y);
    BeforeIsStrictOrder(x, x, x);
    assert i < |a| - 1 ==> !Before(x, y);
    assert j < |b| - 1 ==> !Before(y, x);
  }

  lemma {:induction false} SortedIsUnique(a: seq<Provider>, b: seq<Provider>)
    requires Sorted(a) && Sorted(b) && multiset(a) == multiset(b) && DistinctIds(a)
    ensures a == b
    decreases |a|
  {
    assert |a| == |multiset(a)| == |multiset(b)| == |b|;
    if a != [] {
      SameLast(a, b);
      DropLast(a);
      DropLast(b);
      SortedIsUnique(a[..|a| - 1], b[..|b| - 1]);
    }
  }

  lemma DropLast(s: seq<Provider>)
    requires s != []
    ensures var init := s[..|s| - 1];
            && s == init + [s[|s| - 1]] && multiset(init) == multiset(s) - multiset{s[|s| - 1]}
            && (Sorted(s) ==> Sorted(init)) && (DistinctIds(s) ==> DistinctIds(init))
  {
    assert s == s[..|s| - 1] + [s[|s| - 1]];
    assert forall p :: p in s[..|s| - 1] ==> p in s;
  }

  /** The input order plays no part. */
  lemma CollectIgnoresOrder(ps: seq<Provider>, qs: seq<Provider>, tried: set<string>, now: Time)
    requires multiset(ps) == multiset(qs) && DistinctIds(ps)
    ensures Collect(ps, tried, now) == Collect(qs, tried, now)
  {
    var a, b := Candidates(ps, tried, now), Candidates(qs, tried, now);
    forall p
      ensures multiset(a)[p] == multiset(b)[p]
    {
      CandidatesAre(ps, tried, now, p);
      CandidatesAre(qs, tried, now, p);
    }
    assert multiset(a) == multiset(b);
    StableSortSorts(a);
    StableSortSorts(b);
    forall p | p in StableSort(a)
      ensures p in ps
    {
      assert p in multiset(StableSort(a)) && p in multiset(a);
      CandidatesAre(ps, tried, now, p);
      assert p in multiset(ps);
    }
    SortedIsUnique(StableSort(a), StableSort(b));
  }

  lemma {:induction false} AllCandidates(ps: seq<Provider>, tried: set<string>, now: Time)
    requires forall p :: p in ps ==> IsCandidate(p, tried, now)
    ensures Candidates(ps, tried, now) == ps
  {
    if ps != [] {
      AllCandidates(ps[..|ps| - 1], tried, now);
      assert ps == ps[..|ps| - 1] + [ps[|ps| - 1]];
    }
  }

  lemma {:induction false} AllSamePriority(s: seq<Provider>, priority: int)
    requires forall p :: p in s ==> p.priority == priority
    ensures WithPriority(s, priority) == s
  {
    if s != [] {
      AllSamePriority(s[..|s| - 1], priority);
      assert s == s[..|s| - 1] + [s[|s| - 1]];
    }
  }

  /** Collecting a ready list again, at any later time and with nothing tried, returns it. */
  lemma CollectAgain(ps: seq<Provider>, tried: set<string>, now: Time, later: Time)
    requires now <= later
    ensures var ready := Collect(ps, tried, now); Collect(ready, {}, later) == ready
  {
    var ready := Collect(ps, tried, now);
    forall p | p in ready
      ensures IsCandidate(p, {}, later) && (ready != [] ==> p.priority == ready[0].priority)
    {
      CollectIsTopTier(ps, tried, now, p);
      CollectIsTopTier(ps, tried, now, ready[0]);
      ReadyStaysReady(p, now, later);
    }
    AllCandidates(ready, {}, later);
    if ready != [] {
      CollectIsTopTier(ps, tried, now, ready[0]);
      SortedIsFixed(ready);
      AllSamePriority(ready, ready[0].priority);
    }
  }

  /** Of two ready providers the one that comes first has been connected for longer, or as long
      with the smaller ID; both have the same priority. */
  lemma OlderComesFirst(ps: seq<Provider>, tried: set<string>, now: Time, i: nat, j: nat)
    requires i < j < |Collect(ps, tried, now)|
    ensures var a, b := Collect(ps, tried, now)[i], Collect(ps, tried, now)[j];
            && a.priority == b.priority && a.connectedAt <= b.connectedAt
            && (a.connectedAt == b.connectedAt ==> !LexLess(ToLower(b.id), ToLower(a.id)))
  {
    var ready := Collect(ps, tried, now);
    CollectIsTopTier(ps, tried, now, ready[i]);
    CollectIsTopTier(ps, tried, now, ready[j]);
    assert ready[i] in ready && ready[j] in ready;
  }

  // ---- Retry-After ----

  const SECOND: nat := 1_000_000_000

  /** The header value the middleware writes for a positive delay. */
  function HeaderSeconds(retryAfter: nat): nat {
    var seconds := retryAfter / SECOND;
    var rounded := if retryAfter % SECOND != 0 then seconds + 1 else seconds;
    if rounded == 0 then 1 else rounded
  }

  predicate IsCooling(p: Provider, now: Time) {
    EffectiveState(p, now).CoolingUntil?
  }

  predicate Waiting(p: Provider, tried: set<string>, now: Time) {
    !IsTried(tried, p.id) && IsCooling(p, now)
  }

  lemma {:induction false} SummaryCounts(ps: seq<Provider>, tried: set<string>, now: Time)
    ensures var s := Summarize(ps, tried, now);
            && s.cooling <= s.total
            && (s.total > 0 <==> exists p :: p in ps && !IsTried(tried, p.id))
            && (s.cooling == s.total <==> forall p :: p in ps && !IsTried(tried, p.id) ==> IsCooling(p, now))
  {
    if ps != [] {
      var init, last := ps[..|ps| - 1], ps[|ps| - 1];
      SummaryCounts(init, tried, now);
      assert forall p :: p in ps <==> p in init || p == last;
      assert last in ps;
      if p :| p in init && !IsTried(tried, p.id) {
        assert p in ps;
      }
    }
  }

  lemma {:induction false} SummaryEarliest(ps: seq<Provider>, tried: set<string>, now: Time)
    ensures var s := Summarize(ps, tried, now);
            && (forall p :: p in ps && Waiting(p, tried, now) ==> now < s.earliest <= p.cooldownUntil)
            && (if s.cooling == 0 then s.earliest == ZERO_TIME
                else exists p :: p in ps && Waiting(p, tried, now) && s.earliest == p.cooldownUntil)
  {
    if ps != [] {
      var init, last := ps[..|ps| - 1], ps[|ps| - 1];
      SummaryEarliest(init, tried, now);
      var before, s := Summarize(init, tried, now), Summarize(ps, tried, now);
      assert ps == init + [last];
      if Waiting(last, tried, now) {
        assert last in ps;
        assert s.earliest == last.cooldownUntil || s.earliest == before.earliest;
      }
      if before.cooling > 0 {
        var p :| p in init && Waiting(p, tried, now) && before.earliest == p.cooldownUntil;
        assert p in ps;
      }
    }
  }

  /** The error is a cooldown exactly when something is left to try and all of it is
      cooling, and then it names a positive delay. */
  lemma CooldownErrorMeans(ps: seq<Provider>, tried: set<string>, now: Time)
    ensures var e := SelectionError(Summarize(ps, tried, now), now);
            && (e.CooldownError? <==>
                  (exists p :: p in ps && !IsTried(tried, p.id)) &&
                  (forall p :: p in ps && !IsTried(tried, p.id) ==> IsCooling(p, now)))
            && (e.CooldownError? ==> e.retryAfter > 0)
  {
    SummaryCounts(ps, tried, now);
    SummaryEarliest(ps, tried, now);
  }

  /** After a cooldown error, selection over the same providers succeeds at exactly the
      times the delay has passed, and so from the rounded-up header value on. */
  lemma RetryAfterIsExact(ps: seq<Provider>, tried: set<string>, now: Time, t: Time)
    requires SelectionError(Summarize(ps, tried, now), now).CooldownError? && now <= t
    ensures var e := SelectionError(Summarize(ps, tried, now), now);
            && (Collect(ps, tried, t) != [] <==> t >= now + e.retryAfter)
            && (t >= now + HeaderSeconds(e.retryAfter) * SECOND ==> Collect(ps, tried, t) != [])
  {
    CooldownErrorMeans(ps, tried, now);
    SummaryCounts(ps, tried, now);
    SummaryEarliest(ps, tried, now);
    var s := Summarize(ps, tried, now);
    var e := SelectionError(s, now);
    var first :| first in ps && Waiting(first, tried, now) && s.earliest == first.cooldownUntil;
    CollectIsTopTier(ps, tried, t, first);
    assert now + e.retryAfter == s.earliest;
    if t >= s.earliest {
      assert IsCandidate(first, tried, t);
    } else {
      forall q | q in ps
        ensures !IsCandidate(q, tried, t)
      {
        assert IsTried(tried, q.id) || Waiting(q, tried, now);
      }
    }
    HeaderCovers(e.retryAfter);
  }

  /** The header never promises too early, nor a whole second too late. */
  lemma HeaderCovers(retryAfter: nat)
    requires retryAfter > 0
    ensures retryAfter <= HeaderSeconds(retryAfter) * SECOND < retryAfter + SECOND
  {
  }
}
