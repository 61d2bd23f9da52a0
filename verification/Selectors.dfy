/** The built-in selectors: round robin, fill first and session affinity
    (internal/provider/selector/types.go). */
module Selectors {
  import opened Prelude
  import opened Providers
  import opened Selector
  import SessionCache

  type Selection = Result<Provider, SelectError>

  /** A selector may only answer with an untried ready provider of the top tier, and may
      only refuse when there is none. */
  ghost predicate Selects(r: Selection, providers: seq<Provider>, tried: set<string>, now: Time) {
    var ready := Collect(providers, tried, now);
    if ready == [] then r == Err(SelectionError(Summarize(providers, tried, now), now))
    else r.Ok? && r.value in ready
  }

  function CursorKey(model: string): string {
    var m := Canonical(model);
    if m == "" then "*" else m
  }

  // ---- Round robin ----

  const CURSOR_WRAP: nat := 2_147_483_640

  type Cursors = map<string, nat>

  function CursorAt(c: Cursors, key: string): nat {
    if key in c then c[key] else 0
  }

  /** The cursor map is thrown away when a new key would exceed its limit. */
  predicate Resets(c: Cursors, maxKeys: nat, key: string) {
    key !in c && |c| >= maxKeys
  }

  /** The index a selection uses. */
  function PickIndex(c: Cursors, maxKeys: nat, key: string): nat {
    var index := if Resets(c, maxKeys, key) then 0 else CursorAt(c, key);
    if index >= CURSOR_WRAP then 0 else index
  }

  function AdvanceCursor(c: Cursors, maxKeys: nat, key: string): Cursors {
    (if Resets(c, maxKeys, key) then map[] else c)[key := PickIndex(c, maxKeys, key) + 1]
  }

  predicate CursorsBounded(c: Cursors, maxKeys: nat) {
    |c| <= maxKeys && forall k :: k in c ==> c[k] <= CURSOR_WRAP
  }

  class RoundRobinSelector {
    const maxKeys: nat
    var cursors: Cursors

    ghost predicate Valid()
      reads this
    {
      maxKeys > 0 && CursorsBounded(cursors, maxKeys)
    }

    constructor (cursorLimit: int)
      ensures Valid() && cursors == map[] && maxKeys == if cursorLimit <= 0 then 4096 else cursorLimit
    {
      maxKeys := if cursorLimit <= 0 then 4096 else cursorLimit;
      cursors := map[];
    }

    method Select(model: string, providers: seq<Provider>, tried: set<string>, now: Time) returns (r: Selection)
      requires Valid()
      modifies this
      ensures Valid()
      ensures Selects(r, providers, tried, now)
      ensures var ready := Collect(providers, tried, now);
              var key := CursorKey(model);
              if ready == [] then cursors == old(cursors)
              else r == Ok(ready[PickIndex(old(cursors), maxKeys, key) % |ready|]) &&
                   cursors == AdvanceCursor(old(cursors), maxKeys, key)
    {
      var ready, summary := CollectReadyProviders(providers, tried, now);
      if |ready| == 0 {
        return Err(SelectionError(summary, now));
      }
      var key := CursorKey(model);
      var index := Advance(key);
      return Ok(ready[index % |ready|]);
    }

    /** The locked section: takes the cursor of a key and moves it on. */
    method Advance(key: string) returns (index: nat)
      requires Valid()
      modifies this
      ensures Valid()
      ensures index == PickIndex(old(cursors), maxKeys, key) && cursors == AdvanceCursor(old(cursors), maxKeys, key)
    {
      AdvanceKeepsBounds(cursors, maxKeys, key);
      if key !in cursors && |cursors| >= maxKeys {
        cursors := map[];
      }
      index := if key in cursors then cursors[key] else 0;
      if index >= CURSOR_WRAP {
        index := 0;
      }
      cursors := cursors[key := index + 1];
    }
  }

  /** The cursor map stays within its limits. */
  lemma AdvanceKeepsBounds(c: Cursors, maxKeys: nat, key: string)
    requires maxKeys > 0 && CursorsBounded(c, maxKeys)
    ensures CursorsBounded(AdvanceCursor(c, maxKeys, key), maxKeys)
  {
    var next := AdvanceCursor(c, maxKeys, key);
    if Resets(c, maxKeys, key) {
      assert next.Keys == {key};
    } else if key in c {
      assert next.Keys == c.Keys;
    } else {
      assert next.Keys == c.Keys + {key};
    }
  }

  /** A run of selections by key; `picks` are the indices used for `key`. */
  function RunCursors(c: Cursors, maxKeys: nat, keys: seq<string>): Cursors {
    if keys == [] then c else AdvanceCursor(RunCursors(c, maxKeys, keys[..|keys| - 1]), maxKeys, keys[|keys| - 1])
  }

  function Picks(c: Cursors, maxKeys: nat, keys: seq<string>, key: string): seq<nat> {
    if keys == [] then []
    else
      var init, last := keys[..|keys| - 1], keys[|keys| - 1];
      Picks(c, maxKeys, init, key) +
      if last == key then [PickIndex(RunCursors(c, maxKeys, init), maxKeys, key)] else []
  }

  /** In every state the selector can reach, the map and its cursors are bounded. */
  lemma {:induction false} CursorsStayBounded(c: Cursors, maxKeys: nat, keys: seq<string>)
    requires maxKeys > 0 && CursorsBounded(c, maxKeys)
    ensures CursorsBounded(RunCursors(c, maxKeys, keys), maxKeys)
  {
    if keys != [] {
      CursorsStayBounded(c, maxKeys, keys[..|keys| - 1]);
      AdvanceKeepsBounds(RunCursors(c, maxKeys, keys[..|keys| - 1]), maxKeys, keys[|keys| - 1]);
    }
  }

  /** No selection of the window resets the map, and none for `key` wraps its cursor. */
  predicate QuietWindow(c: Cursors, maxKeys: nat, keys: seq<string>, key: string) {
    keys == [] ||
    (var init, last := keys[..|keys| - 1], keys[|keys| - 1];
     var before := RunCursors(c, maxKeys, init);
     QuietWindow(c, maxKeys, init, key) && !Resets(before, maxKeys, last) &&
     (last == key ==> CursorAt(before, key) < CURSOR_WRAP))
  }

  function Consecutive(start: nat, n: nat): seq<nat> {
    if n == 0 then [] else Consecutive(start, n - 1) + [start + n - 1]
  }

  /** Within such a window the indices for one key count up by one, whatever is selected
      for other keys in between. */
  lemma {:induction false} PicksAreConsecutive(c: Cursors, maxKeys: nat, keys: seq<string>, key: string)
    requires QuietWindow(c, maxKeys, keys, key)
    ensures var picks := Picks(c, maxKeys, keys, key);
            && picks == Consecutive(CursorAt(c, key), |picks|)
            && CursorAt(RunCursors(c, maxKeys, keys), key) == CursorAt(c, key) + |picks|
  {
    if keys != [] {
      PicksAreConsecutive(c, maxKeys, keys[..|keys| - 1], key);
    }
  }

  /** How often index `i` of a ready list of length `n` is chosen. */
  function Chosen(picks: seq<nat>, n: nat, i: nat): nat
    requires n > 0
  {
    if picks == [] then 0
    else Chosen(picks[..|picks| - 1], n, i) + if picks[|picks| - 1] % n == i then 1 else 0
  }

  /** One more than `m`, modulo `n`. */
  lemma ModSuccessor(m: nat, n: nat)
    requires n > 0
    ensures (m + 1) % n == if m % n == n - 1 then 0 else m % n + 1
  {
    var q, r, a, b := m / n, m % n, (m + 1) / n, (m + 1) % n;
    assert n * q + r == m && n * a + b == m + 1;
    var d := a - q;
    assert n * d == r + 1 - b by {
      assert n * a - n * q == n * (a - q);
    }
    MultipleOf(n, d);
  }

  lemma MultipleOf(n: nat, d: int)
    ensures d >= 2 ==> n * d >= 2 * n
    ensures d <= -1 ==> n * d + n <= 0
  {
    if d >= 2 {
      assert n * (d - 2) >= 0;
    }
    if d <= -1 {
      assert n * (-1 - d) >= 0;
    }
  }

  /** Position `i` has been passed in the current round and position `j` not yet. */
  function Between(m: nat, n: nat, i: nat, j: nat): int
    requires n > 0
  {
    if i < m % n <= j then 1 else 0
  }

  /** The lead of `i` over `j` depends only on where in a round the window begins and ends. */
  lemma {:induction false} LeadOverWindow(start: nat, k: nat, n: nat, i: nat, j: nat)
    requires i < j < n
    ensures var picks := Consecutive(start, k);
            Chosen(picks, n, i) - Chosen(picks, n, j) == Between(start + k, n, i, j) - Between(start, n, i, j)
  {
    if k > 0 {
      LeadOverWindow(start, k - 1, n, i, j);
      var p := Consecutive(start, k - 1);
      assert (p + [start + k - 1])[..|p|] == p;
      ModSuccessor(start + k - 1, n);
    }
  }

  /** Over any quiet window with an unchanged ready list, two providers' pick counts differ
      by at most one. */
  lemma RoundRobinIsFair(c: Cursors, maxKeys: nat, keys: seq<string>, key: string, n: nat, i: nat, j: nat)
    requires QuietWindow(c, maxKeys, keys, key) && i < j < n
    ensures var picks := Picks(c, maxKeys, keys, key);
            -1 <= Chosen(picks, n, i) - Chosen(picks, n, j) <= 1
  {
    PicksAreConsecutive(c, maxKeys, keys, key);
    LeadOverWindow(CursorAt(c, key), |Picks(c, maxKeys, keys, key)|, n, i, j);
  }

  // ---- Fill first ----

  method FillFirstSelect(providers: seq<Provider>, tried: set<string>, now: Time) returns (r: Selection)
    ensures Selects(r, providers, tried, now)
    ensures r.Ok? ==> forall q :: q in Collect(providers, tried, now) ==> !Before(q, r.value)
  {
    var ready, summary := CollectReadyProviders(providers, tried, now);
    if |ready| == 0 {
      return Err(SelectionError(summary, now));
    }
    CollectIsTopTier(providers, tried, now, ready[0]);
    BeforeIsStrictOrder(ready[0], ready[0], ready[0]);
    return Ok(ready[0]);
  }

  // ---- Session affinity ----

  function BindingKey(model: string, sessionId: string): string {
    var m, s := Canonical(model), TrimSpace(sessionId);
    if s == "" then "" else (if m == "" then "*" else m) + "::" + s
  }

  /** A binding key has no blank ends and ignores blank ends of the session ID. */
  lemma BindingKeyFacts(model: string, session: string)
    requires TrimSpace(session) != ""
    ensures var key := BindingKey(model, session);
            key != "" && TrimSpace(key) == key && BindingKey(model, TrimSpace(session)) == key
  {
    TrimIsTrimmed(session, IsSpace);
    TrimOfTrimmed(TrimSpace(session), IsSpace);
    TrimIsTrimmed(model, IsSpace);
    var m := Canonical(model);
    assert m != "" ==> !IsSpace(m[0]);
    var key := BindingKey(model, session);
    assert key[|key| - 1] == TrimSpace(session)[|TrimSpace(session)| - 1];
    TrimOfTrimmed(key, IsSpace);
  }

  /** The clock as one call reads it: to collect, to look its binding up, for the fallback to
      collect again, and to bind. */
  datatype Readings = Readings(collected: Time, lookedUp: Time, fellBack: Time, bound: Time)

  type Clock = r: Readings | r.collected <= r.lookedUp <= r.fellBack <= r.bound witness Readings(0, 0, 0, 0)

  /** What other calls do to the cache while one call selects. */
  datatype Others = Others(beforeDrop: SessionCache.History, beforeSet: SessionCache.History)

  predicate BoundIsReady(bound: Option<string>, ready: seq<Provider>) {
    bound.Some? && exists p :: p in ready && EqualFold(p.id, bound.value)
  }

  /** The cache once a binding to no ready provider is gone. */
  function AfterDrop(e: SessionCache.Entries, ttl: Time, key: string, others: Others, clock: Clock)
    : SessionCache.Entries
  {
    var seen := SessionCache.Refresh(e, ttl, clock.lookedUp, key);
    if SessionCache.Found(e, clock.lookedUp, key).None? then seen
    else SessionCache.Remove(SessionCache.RunFrom(seen, ttl, others.beforeDrop), key)
  }

  /** The cache a call leaves behind: a ready bound provider is only refreshed, any other
      binding is dropped, and what the fallback chose is bound. */
  function AfterSelect(e: SessionCache.Entries, ttl: Time, key: string, ready: seq<Provider>, chosen: string,
                       others: Others, clock: Clock): SessionCache.Entries {
    var bound := SessionCache.Found(e, clock.lookedUp, key);
    if BoundIsReady(bound, ready) then SessionCache.Refresh(e, ttl, clock.lookedUp, key)
    else
      var dropped := AfterDrop(e, ttl, key, others, clock);
      SessionCache.Put(SessionCache.RunFrom(dropped, ttl, others.beforeSet), ttl, clock.bound, key, chosen)
  }

  datatype EventType = ConnectedEvent | ReplacedEvent | DisconnectedEvent | StateChangedEvent

  class SessionAffinitySelector {
    const cache: SessionCache.Cache
    const fallback: RoundRobinSelector

    ghost predicate Valid()
      reads fallback
    {
      fallback.Valid()
    }

    constructor (cursorLimit: int, ttl: int)
      ensures Valid() && fresh(cache) && fresh(fallback)
    {
      var f := new RoundRobinSelector(cursorLimit);
      var c := new SessionCache.Cache(ttl);
      cache, fallback := c, f;
    }

    method FindBound(ready: seq<Provider>, providerId: string) returns (found: Option<Provider>)
      ensures found.Some? <==> exists p :: p in ready && EqualFold(p.id, providerId)
      ensures found.Some? ==> found.value in ready && EqualFold(found.value.id, providerId)
    {
      for i := 0 to |ready|
        invariant forall j :: 0 <= j < i ==> !EqualFold(ready[j].id, providerId)
      {
        if EqualFold(ready[i].id, providerId) {
          return Some(ready[i]);
        }
      }
      return None;
    }

    /** The bound provider if it is ready; a binding to any other is dropped. */
    method TakeBound(key: string, ready: seq<Provider>, others: Others, clock: Clock) returns (found: Option<Provider>)
      modifies cache
      ensures var bound := SessionCache.Found(old(cache.entries), clock.lookedUp, key);
              && (found.Some? <==> BoundIsReady(bound, ready))
              && (found.Some? ==> found.value in ready && EqualFold(found.value.id, bound.value))
      ensures cache.entries ==
              if found.Some? then SessionCache.Refresh(old(cache.entries), cache.ttl, clock.lookedUp, key)
              else AfterDrop(old(cache.entries), cache.ttl, key, others, clock)
    {
      found := None;
      var bound := cache.GetAndRefresh(key, clock.lookedUp);
      if bound.Some? {
        found := FindBound(ready, bound.value);
        if found.Some? {
          return;
        }
        cache.PerformAll(others.beforeDrop);
        cache.Invalidate(key);
      }
    }

    method FallBack(model: string, ready: seq<Provider>, later: Time) returns (r: Provider)
      requires Valid() && ready != [] && Collect(ready, {}, later) == ready
      modifies fallback
      ensures Valid() && r in ready
    {
      var chosen := fallback.Select(model, ready, {}, later);
      return chosen.value;
    }

    /** The cache's part of a call, for a key that is not blank: the bound provider if it is
        ready, otherwise the fallback's choice, which is then bound. */
    method SelectCached(model: string, key: string, ready: seq<Provider>, others: Others, clock: Clock)
      returns (r: Provider)
      requires Valid() && ready != [] && Collect(ready, {}, clock.fellBack) == ready
      modifies cache, fallback
      ensures Valid() && r in ready
      ensures var bound := SessionCache.Found(old(cache.entries), clock.lookedUp, key);
              BoundIsReady(bound, ready) ==> EqualFold(r.id, bound.value)
      ensures cache.entries ==
              AfterSelect(old(cache.entries), cache.ttl, key, ready, r.id, others, clock)
    {
      var found := TakeBound(key, ready, others, clock);
      if found.Some? {
        return found.value;
      }
      cache.PerformAll(others.beforeSet);
      r := FallBack(model, ready, clock.fellBack);
      cache.Set(key, r.id, clock.bound);
    }

    /** Other calls may use the cache before the stale binding is dropped and before the new
        one is set. */
    method Select(model: string, session: string, providers: seq<Provider>, tried: set<string>, others: Others,
                  clock: Clock)
      returns (r: Selection)
      requires Valid()
      modifies cache, fallback
      ensures Valid()
      ensures Selects(r, providers, tried, clock.collected)
      ensures var key := BindingKey(model, session);
              var bound := SessionCache.Found(old(cache.entries), clock.lookedUp, key);
              TrimSpace(session) != "" && r.Ok? ==>
                && (BoundIsReady(bound, Collect(providers, tried, clock.collected)) ==>
                      EqualFold(r.value.id, bound.value))
                && (TrimSpace(r.value.id) != "" && !(bound.Some? && EqualFold(r.value.id, bound.value)) ==>
                      SessionCache.Found(cache.entries, clock.bound, key) == Some(TrimSpace(r.value.id)))
      ensures TrimSpace(session) == "" || r.Err? ==> cache.entries == old(cache.entries)
      ensures TrimSpace(session) != "" && r.Ok? ==>
                cache.entries == AfterSelect(old(cache.entries), cache.ttl, BindingKey(model, session),
                                             Collect(providers, tried, clock.collected), r.value.id, others, clock)
    {
      var sessionId := TrimSpace(session);
      if sessionId == "" {
        r := fallback.Select(model, providers, tried, clock.collected);
        return;
      }
      var ready, summary := CollectReadyProviders(providers, tried, clock.collected);
      if |ready| == 0 {
        return Err(SelectionError(summary, clock.collected));
      }
      BindingKeyFacts(model, session);
      var key := BindingKey(model, sessionId);
      CollectAgain(providers, tried, clock.collected, clock.fellBack);
      var chosen := SelectCached(model, key, ready, others, clock);
      return Ok(chosen);
    }

    /** Bindings to a provider that was replaced, left or stopped being active are dropped;
        any other event leaves the cache alone. */
    method HandleProviderEvent(kind: EventType, provider: Provider)
      modifies cache
      ensures var gone := kind.DisconnectedEvent? || kind.ReplacedEvent? ||
                (kind.StateChangedEvent? &&
                 (provider.state.Cooling? || provider.state.Disabled? || provider.state.Disconnected?));
              cache.entries == if gone then SessionCache.RemoveProvider(old(cache.entries), provider.id)
                               else old(cache.entries)
    {
      var needInvalidate := false;
      match kind {
        case DisconnectedEvent => needInvalidate := true;
        case ReplacedEvent => needInvalidate := true;
        case StateChangedEvent =>
          if provider.state.Cooling? || provider.state.Disabled? || provider.state.Disconnected? {
            needInvalidate := true;
          }
        case ConnectedEvent =>
      }
      if !needInvalidate {
        return;
      }
      cache.InvalidateProvider(provider.id);
    }
  }

  // ---- The configured selector ----

  /** The implementations of the `Selector` interface. */
  datatype Strategy =
    | RoundRobin(roundRobin: RoundRobinSelector)
    | FillFirst
    | SessionAffinity(affinity: SessionAffinitySelector)
  {
    ghost function Objects(): set<object> {
      match this
      case RoundRobin(r) => {r}
      case FillFirst => {}
      case SessionAffinity(a) => {a.cache, a.fallback}
    }

    ghost predicate Valid()
      reads Objects()
    {
      match this
      case RoundRobin(r) => r.Valid()
      case FillFirst => true
      case SessionAffinity(a) => a.Valid()
    }

    /** Whatever the strategy, the answer is a ready provider of the top tier, or the error
        when there is none. */
    method Select(model: string, session: string, providers: seq<Provider>, tried: set<string>, others: Others,
                  clock: Clock)
      returns (r: Selection)
      requires Valid()
      modifies Objects()
      ensures Valid() && Selects(r, providers, tried, clock.collected)
    {
      match this {
        case RoundRobin(rr) => r := rr.Select(model, providers, tried, clock.collected);
        case FillFirst => r := FillFirstSelect(providers, tried, clock.collected);
        case SessionAffinity(a) => r := a.Select(model, session, providers, tried, others, clock);
      }
    }
  }

  /** The strategy a name stands for; an unknown name is round robin. */
  method NewSelector(strategy: string, cursorLimit: int, ttl: int) returns (s: Strategy)
    ensures s.Valid() && fresh(s.Objects())
    ensures s.FillFirst? <==> Canonical(strategy) == "fill_first"
    ensures s.SessionAffinity? <==> Canonical(strategy) == "session_affinity"
  {
    match Canonical(strategy) {
      case "fill_first" => s := FillFirst;
      case "session_affinity" =>
        var a := new SessionAffinitySelector(cursorLimit, ttl);
        s := SessionAffinity(a);
      case _ =>
        var r := new RoundRobinSelector(cursorLimit);
        s := RoundRobin(r);
    }
  }
}
