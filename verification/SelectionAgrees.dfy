/** What a selector sees of a registry, with and without its cooldown timers
    (internal/provider/registry/registry.go, internal/provider/selector/helpers.go). */
module SelectionAgrees {
  import opened Prelude
  import opened Providers
  import opened Registry
  import opened Selector

  /** A provider as a selector sees it at `t`: not when it was last seen, and not a cooldown
      that is over. */
  function Seen(p: Provider, t: Time): Provider {
    p.(lastSeenAt := ZERO_TIME,
       state := match EffectiveState(p, t)
                case Ready => Active
                case CoolingUntil(_) => Cooling
                case Unavailable => Disabled,
       cooldownUntil := match EffectiveState(p, t) case CoolingUntil(until) => until case _ => ZERO_TIME)
  }

  function SeenAll(ps: seq<Provider>, t: Time): (r: seq<Provider>)
    ensures |r| == |ps|
  {
    if ps == [] then [] else SeenAll(ps[..|ps| - 1], t) + [Seen(ps[|ps| - 1], t)]
  }

  lemma SeenKeeps(p: Provider, t: Time)
    ensures EffectiveState(Seen(p, t), t) == EffectiveState(p, t)
    ensures Seen(p, t).id == p.id && Seen(p, t).priority == p.priority && Seen(p, t).connectedAt == p.connectedAt
  {
  }

  lemma {:induction false} SeenAt(ps: seq<Provider>, t: Time, i: nat)
    requires i < |ps|
    ensures SeenAll(ps, t)[i] == Seen(ps[i], t)
  {
    if i < |ps| - 1 {
      SeenAt(ps[..|ps| - 1], t, i);
    }
  }

  lemma SeenNext(ps: seq<Provider>, p: Provider, t: Time)
    ensures SeenAll(ps + [p], t) == SeenAll(ps, t) + [Seen(p, t)]
  {
    assert (ps + [p])[..|ps|] == ps;
  }

  // ---- A selector looks at nothing else ----

  lemma {:induction false} CandidatesSeen(ps: seq<Provider>, tried: set<string>, t: Time)
    ensures Candidates(SeenAll(ps, t), tried, t) == SeenAll(Candidates(ps, tried, t), t)
  {
    if ps != [] {
      var init, last := ps[..|ps| - 1], ps[|ps| - 1];
      CandidatesSeen(init, tried, t);
      SeenKeeps(last, t);
      var c := Candidates(init, tried, t);
      SeenNext(c, last, t);
      assert c + [] == c && SeenAll(c, t) + [] == SeenAll(c, t);
      assert SeenAll(ps, t)[..|init|] == SeenAll(init, t);
    }
  }

  lemma {:induction false} InsertSeen(s: seq<Provider>, x: Provider, t: Time)
    ensures InsertStable(SeenAll(s, t), Seen(x, t)) == SeenAll(InsertStable(s, x), t)
  {
    if s == [] || !Before(x, s[|s| - 1]) {
      SeenNext(s, x, t);
    } else {
      var init, last := s[..|s| - 1], s[|s| - 1];
      InsertSeen(init, x, t);
      SeenNext(InsertStable(init, x), last, t);
      assert SeenAll(s, t)[..|init|] == SeenAll(init, t);
    }
  }

  lemma {:induction false} SortSeen(s: seq<Provider>, t: Time)
    ensures StableSort(SeenAll(s, t)) == SeenAll(StableSort(s), t)
  {
    if s != [] {
      var init, last := s[..|s| - 1], s[|s| - 1];
      SortSeen(init, t);
      InsertSeen(StableSort(init), last, t);
      assert SeenAll(s, t)[..|init|] == SeenAll(init, t);
    }
  }

  lemma {:induction false} TierSeen(s: seq<Provider>, priority: int, t: Time)
    ensures WithPriority(SeenAll(s, t), priority) == SeenAll(WithPriority(s, priority), t)
  {
    if s != [] {
      var init, last := s[..|s| - 1], s[|s| - 1];
      TierSeen(init, priority, t);
      var tier := WithPriority(init, priority);
      SeenNext(tier, last, t);
      assert tier + [] == tier && SeenAll(tier, t) + [] == SeenAll(tier, t);
      assert SeenAll(s, t)[..|init|] == SeenAll(init, t);
    }
  }

  lemma CollectSeen(ps: seq<Provider>, tried: set<string>, t: Time)
    ensures Collect(SeenAll(ps, t), tried, t) == SeenAll(Collect(ps, tried, t), t)
  {
    var c := Candidates(ps, tried, t);
    CandidatesSeen(ps, tried, t);
    SortSeen(c, t);
    var s := StableSort(c);
    if s != [] {
      SeenAt(s, t, 0);
      TierSeen(s, s[0].priority, t);
    }
  }

  lemma {:induction false} SummarySeen(ps: seq<Provider>, tried: set<string>, t: Time)
    ensures Summarize(SeenAll(ps, t), tried, t) == Summarize(ps, tried, t)
  {
    if ps != [] {
      var init, last := ps[..|ps| - 1], ps[|ps| - 1];
      SummarySeen(init, tried, t);
      SeenKeeps(last, t);
      assert SeenAll(ps, t)[..|init|] == SeenAll(init, t);
    }
  }

  // ---- A registry's list ----

  function KeysOf(ps: seq<Provider>): set<string> {
    if ps == [] then {} else KeysOf(ps[..|ps| - 1]) + {MapKey(ps[|ps| - 1].id)}
  }

  lemma {:induction false} KeysAre(ps: seq<Provider>, key: string)
    ensures |KeysOf(ps)| <= |ps|
    ensures key in KeysOf(ps) <==> exists p :: p in ps && MapKey(p.id) == key
  {
    if ps != [] {
      var init, last := ps[..|ps| - 1], ps[|ps| - 1];
      KeysAre(init, key);
      assert ps == init + [last];
      assert last in ps;
    }
  }

  predicate DistinctKeys(ps: seq<Provider>) {
    forall i, j :: 0 <= i < j < |ps| ==> MapKey(ps[i].id) != MapKey(ps[j].id)
  }

  /** As many keys as elements: no key twice. */
  lemma {:induction false} AllKeysCounted(ps: seq<Provider>)
    requires |KeysOf(ps)| == |ps|
    ensures DistinctKeys(ps)
  {
    if ps != [] {
      var init, last := ps[..|ps| - 1], ps[|ps| - 1];
      KeysAre(init, MapKey(last.id));
      AllKeysCounted(init);
      forall i | 0 <= i < |init|
        ensures MapKey(ps[i].id) != MapKey(last.id)
      {
        assert init[i] in init;
      }
    }
  }

  predicate UnderKeys(t: Table) {
    forall k :: k in t ==> MapKey(t[k].id) == k && ValidProviderId(t[k].id)
  }

  lemma ListedKeys(ps: seq<Provider>, t: Table)
    requires Lists(ps, t) && UnderKeys(t)
    ensures DistinctKeys(ps) && forall p :: p in ps ==> MapKey(p.id) in t && t[MapKey(p.id)] == p
  {
    forall p | p in ps
      ensures MapKey(p.id) in t && t[MapKey(p.id)] == p
    {
      var k :| k in t && t[k] == p;
    }
    forall k
      ensures k in KeysOf(ps) <==> k in t.Keys
    {
      KeysAre(ps, k);
    }
    assert KeysOf(ps) == t.Keys;
    AllKeysCounted(ps);
  }

  /** A registry's list names no provider twice, whatever the case of its ID. */
  lemma ListHasDistinctIds(ps: seq<Provider>, t: Table)
    requires Lists(ps, t) && UnderKeys(t)
    ensures DistinctIds(ps)
  {
    ListedKeys(ps, t);
    forall p, q | p in ps && q in ps && ToLower(p.id) == ToLower(q.id)
      ensures p == q
    {
      ValidIdIsTrimmed(p.id);
      ValidIdIsTrimmed(q.id);
    }
  }

  lemma ValidIdIsTrimmed(id: string)
    requires ValidProviderId(id)
    ensures MapKey(id) == ToLower(id)
  {
    assert IdChar(id[0], true) && IdChar(id[|id| - 1], |id| == 1);
    TrimOfTrimmed(id, IsSpace);
  }

  /** The same elements in their order, each once, are the same list. */
  lemma {:induction false} OrderIsUnique(a: seq<Provider>, b: seq<Provider>)
    requires Ordered(a) && Ordered(b) && DistinctIds(a) && DistinctKeys(a) && DistinctKeys(b)
    requires |a| == |b| && forall p :: p in a <==> p in b
    ensures a == b
    decreases |a|
  {
    if a != [] {
      assert a[|a| - 1] in a;
      SameLastListed(a, b);
      ListInit(a);
      ListInit(b);
      OrderIsUnique(a[..|a| - 1], b[..|b| - 1]);
      assert a == a[..|a| - 1] + [a[|a| - 1]] && b == b[..|b| - 1] + [b[|b| - 1]];
    }
  }

  lemma SameLastListed(a: seq<Provider>, b: seq<Provider>)
    requires Ordered(a) && Ordered(b) && DistinctIds(a) && a != [] && b != []
    requires forall p :: p in a <==> p in b
    ensures a[|a| - 1] == b[|b| - 1]
  {
    var x, y := a[|a| - 1], b[|b| - 1];
    assert x in a && y in b;
    var i :| 0 <= i < |a| && a[i] == y;
    var j :| 0 <= j < |b| && b[j] == x;
    LexLessIsOrder(ToLower(x.id), ToLower(y.id), ToLower(x.id));
    assert i < |a| - 1 ==> !ListsBefore(x, y);
    assert j < |b| - 1 ==> !ListsBefore(y, x);
  }

  lemma ListInit(a: seq<Provider>)
    requires a != [] && DistinctKeys(a)
    ensures var init, last := a[..|a| - 1], a[|a| - 1];
            && DistinctKeys(init) && (Ordered(a) ==> Ordered(init)) && (DistinctIds(a) ==> DistinctIds(init))
            && forall p :: p in init <==> p in a && p != last
  {
    var init, last := a[..|a| - 1], a[|a| - 1];
    assert a == init + [last];
  }

  // ---- Timers do not change a selection ----

  ghost predicate SameSeen(s: Table, u: Table, t: Time) {
    s.Keys == u.Keys && forall k :: k in s ==> Seen(s[k], t) == Seen(u[k], t)
  }

  lemma SeenMembers(ps: seq<Provider>, s: Table, t: Time, p: Provider)
    requires Lists(ps, s) && UnderKeys(s)
    ensures p in SeenAll(ps, t) <==> exists k :: k in s && Seen(s[k], t) == p
  {
    if p in SeenAll(ps, t) {
      var i :| 0 <= i < |ps| && SeenAll(ps, t)[i] == p;
      SeenAt(ps, t, i);
      ListedKeys(ps, s);
      assert ps[i] in ps;
    }
    if k :| k in s && Seen(s[k], t) == p {
      var i :| 0 <= i < |ps| && ps[i] == s[k];
      SeenAt(ps, t, i);
    }
  }

  lemma SeenStaysOrdered(ps: seq<Provider>, t: Time)
    ensures Ordered(ps) ==> Ordered(SeenAll(ps, t))
    ensures DistinctKeys(ps) ==> DistinctKeys(SeenAll(ps, t))
  {
    forall i | 0 <= i < |ps|
      ensures SeenAll(ps, t)[i].id == ps[i].id && SeenAll(ps, t)[i].priority == ps[i].priority
    {
      SeenAt(ps, t, i);
    }
  }

  lemma SeenStaysDistinct(ps: seq<Provider>, t: Time)
    requires DistinctIds(ps)
    ensures DistinctIds(SeenAll(ps, t))
  {
    var seen := SeenAll(ps, t);
    forall p, q | p in seen && q in seen && ToLower(p.id) == ToLower(q.id)
      ensures p == q
    {
      var i :| 0 <= i < |seen| && seen[i] == p;
      var j :| 0 <= j < |seen| && seen[j] == q;
      SeenAt(ps, t, i);
      SeenAt(ps, t, j);
      assert ps[i] in ps && ps[j] in ps;
    }
  }

  lemma SeenListIsProper(ps: seq<Provider>, s: Table, t: Time)
    requires Lists(ps, s) && UnderKeys(s) && Ordered(ps)
    ensures Ordered(SeenAll(ps, t)) && DistinctKeys(SeenAll(ps, t)) && DistinctIds(SeenAll(ps, t))
  {
    ListedKeys(ps, s);
    ListHasDistinctIds(ps, s);
    SeenStaysOrdered(ps, t);
    SeenStaysDistinct(ps, t);
  }

  lemma SameSeenLists(ps: seq<Provider>, s: Table, qs: seq<Provider>, u: Table, t: Time)
    requires Lists(ps, s) && UnderKeys(s) && Ordered(ps) && Lists(qs, u) && UnderKeys(u) && Ordered(qs)
    requires SameSeen(s, u, t)
    ensures SeenAll(ps, t) == SeenAll(qs, t)
  {
    SeenListIsProper(ps, s, t);
    SeenListIsProper(qs, u, t);
    forall p
      ensures p in SeenAll(ps, t) <==> p in SeenAll(qs, t)
    {
      SeenMembers(ps, s, t, p);
      SeenMembers(qs, u, t, p);
    }
    assert |s| == |s.Keys| == |u.Keys| == |u|;
    OrderIsUnique(SeenAll(ps, t), SeenAll(qs, t));
  }

  lemma ReachableKeys(h: seq<Event>)
    ensures UnderKeys(Run(h).providers)
  {
    TimersAlwaysMatch(h);
    forall k | k in Run(h).providers
      ensures MapKey(Run(h).providers[k].id) == k && ValidProviderId(Run(h).providers[k].id)
    {
      assert KeyMatches(Run(h), k);
    }
  }

  lemma TimedLooksFree(h: seq<Event>, t: Time, later: Time)
    requires Clocked(h, t) && t <= later
    ensures SameSeen(Run(h).providers, RunFree(h), later) && UnderKeys(RunFree(h))
  {
    ReachableKeys(h);
    forall k
      ensures k in Run(h).providers <==> k in RunFree(h)
      ensures k in RunFree(h) ==>
                && Seen(Run(h).providers[k], later) == Seen(RunFree(h)[k], later)
                && Run(h).providers[k].id == RunFree(h)[k].id
    {
      TimersAreInvisible(h, t, later, k);
    }
  }

  /** The list of any registry that can be reached names no provider twice. */
  lemma RegistryListsDistinctIds(h: seq<Event>, ps: seq<Provider>)
    requires Lists(ps, Run(h).providers)
    ensures DistinctIds(ps)
  {
    ReachableKeys(h);
    ListHasDistinctIds(ps, Run(h).providers);
  }

  /** Whatever its timers did, selecting from a registry's list is selecting from the list of a
      registry without timers: the same providers in the same order, or the same error. */
  lemma TimersDoNotChangeSelection(
      h: seq<Event>, t: Time, later: Time, timed: seq<Provider>, free: seq<Provider>, tried: set<string>)
    requires Clocked(h, t) && t <= later
    requires Lists(timed, Run(h).providers) && Ordered(timed) && Lists(free, RunFree(h)) && Ordered(free)
    ensures var a, b := Collect(timed, tried, later), Collect(free, tried, later);
            |a| == |b| && forall i :: 0 <= i < |a| ==> a[i].id == b[i].id && a[i].connectionId == b[i].connectionId
    ensures SelectionError(Summarize(timed, tried, later), later) ==
            SelectionError(Summarize(free, tried, later), later)
  {
    ReachableKeys(h);
    TimedLooksFree(h, t, later);
    SameSeenLists(timed, Run(h).providers, free, RunFree(h), later);
    CollectSeen(timed, tried, later);
    CollectSeen(free, tried, later);
    SummarySeen(timed, tried, later);
    SummarySeen(free, tried, later);
    var a, b := Collect(timed, tried, later), Collect(free, tried, later);
    forall i | 0 <= i < |a|
      ensures a[i].id == b[i].id && a[i].connectionId == b[i].connectionId
    {
      SeenAt(a, later, i);
      SeenAt(b, later, i);
    }
  }
}
