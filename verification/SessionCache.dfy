/** The session-affinity TTL cache (internal/provider/session/cache.go). */
module SessionCache {
  import opened Prelude
  import opened Providers

  datatype Entry = Entry(providerId: string, expiresAt: Time)

  type Entries = map<string, Entry>

  const HOUR: Time := 3_600_000_000_000

  // ---- The operations on values ----

  function Put(e: Entries, ttl: Time, now: Time, rawKey: string, rawProvider: string): Entries {
    var key, provider := TrimSpace(rawKey), TrimSpace(rawProvider);
    if key == "" || provider == "" then e else e[key := Entry(provider, now + ttl)]
  }

  /** The binding found, if it has not expired. */
  function Found(e: Entries, now: Time, rawKey: string): Option<string> {
    var key := TrimSpace(rawKey);
    if key != "" && key in e && now <= e[key].expiresAt then Some(e[key].providerId) else None
  }

  /** A hit renews the entry, an expired one is dropped. */
  function Refresh(e: Entries, ttl: Time, now: Time, rawKey: string): Entries {
    var key := TrimSpace(rawKey);
    if key == "" || key !in e then e
    else if now <= e[key].expiresAt then e[key := Entry(e[key].providerId, now + ttl)]
    else e - {key}
  }

  function Remove(e: Entries, rawKey: string): Entries {
    if TrimSpace(rawKey) == "" then e else e - {TrimSpace(rawKey)}
  }

  function RemoveProvider(e: Entries, rawProvider: string): Entries {
    var provider := TrimSpace(rawProvider);
    if provider == "" then e else map k | k in e && !EqualFold(e[k].providerId, provider) :: e[k]
  }

  /** The entries that have not expired. */
  function Live(e: Entries, now: Time): Entries {
    map k | k in e && now <= e[k].expiresAt :: e[k]
  }

  datatype Op =
    | OpSet(key: string, provider: string)
    | OpLookup(key: string)
    | OpInvalidate(key: string)
    | OpInvalidateProvider(provider: string)
    | OpCleanup

  datatype Event = Event(at: Time, op: Op)

  type History = seq<Event>

  function Apply(e: Entries, ttl: Time, ev: Event): Entries {
    match ev.op
    case OpSet(key, provider) => Put(e, ttl, ev.at, key, provider)
    case OpLookup(key) => Refresh(e, ttl, ev.at, key)
    case OpInvalidate(key) => Remove(e, key)
    case OpInvalidateProvider(provider) => RemoveProvider(e, provider)
    case OpCleanup => Live(e, ev.at)
  }

  function RunFrom(e: Entries, ttl: Time, h: History): Entries {
    if h == [] then e else Apply(RunFrom(e, ttl, h[..|h| - 1]), ttl, h[|h| - 1])
  }

  function Run(ttl: Time, h: History): Entries {
    RunFrom(map[], ttl, h)
  }

  class Cache {
    var entries: Entries
    const ttl: Time

    constructor (ttl: int)
      ensures entries == map[] && this.ttl == if ttl <= 0 then HOUR else ttl
    {
      entries := map[];
      this.ttl := if ttl <= 0 then HOUR else ttl;
    }

    method Set(key: string, providerId: string, now: Time)
      modifies this
      ensures entries == Put(old(entries), ttl, now, key, providerId)
    {
      var k, p := TrimSpace(key), TrimSpace(providerId);
      if k == "" || p == "" {
        return;
      }
      entries := entries[k := Entry(p, now + ttl)];
    }

    method GetAndRefresh(key: string, now: Time) returns (provider: Option<string>)
      modifies this
      ensures provider == Found(old(entries), now, key)
      ensures entries == Refresh(old(entries), ttl, now, key)
    {
      var k := TrimSpace(key);
      if k == "" || k !in entries {
        return None;
      }
      var item := entries[k];
      if now > item.expiresAt {
        entries := entries - {k};
        return None;
      }
      entries := entries[k := item.(expiresAt := now + ttl)];
      return Some(item.providerId);
    }

    method Invalidate(key: string)
      modifies this
      ensures entries == Remove(old(entries), key)
    {
      var k := TrimSpace(key);
      if k == "" {
        return;
      }
      entries := entries - {k};
    }

    method InvalidateProvider(providerId: string)
      modifies this
      ensures entries == RemoveProvider(old(entries), providerId)
    {
      var p := TrimSpace(providerId);
      if p == "" {
        return;
      }
      var todo := entries.Keys;
      while todo != {}
        invariant todo <= entries.Keys
        invariant forall k :: k in entries ==> k in old(entries) && entries[k] == old(entries)[k]
        invariant forall k :: k in old(entries) && k !in todo ==>
                                (k in entries <==> !EqualFold(old(entries)[k].providerId, p))
        decreases |todo|
      {
        var k :| k in todo;
        if EqualFold(entries[k].providerId, p) {
          entries := entries - {k};
        }
        todo := todo - {k};
      }
    }

    method Cleanup(now: Time)
      modifies this
      ensures entries == Live(old(entries), now)
    {
      var todo := entries.Keys;
      while todo != {}
        invariant todo <= entries.Keys
        invariant forall k :: k in entries ==> k in old(entries) && entries[k] == old(entries)[k]
        invariant forall k :: k in old(entries) && k !in todo ==> (k in entries <==> now <= old(entries)[k].expiresAt)
        decreases |todo|
      {
        var k :| k in todo;
        if now > entries[k].expiresAt {
          entries := entries - {k};
        }
        todo := todo - {k};
      }
    }

    method Perform(ev: Event)
      modifies this
      ensures entries == Apply(old(entries), ttl, ev)
    {
      match ev.op {
        case OpSet(key, provider) => Set(key, provider, ev.at);
        case OpLookup(key) => var _ := GetAndRefresh(key, ev.at);
        case OpInvalidate(key) => Invalidate(key);
        case OpInvalidateProvider(provider) => InvalidateProvider(provider);
        case OpCleanup => Cleanup(ev.at);
      }
    }

    method PerformAll(h: History)
      modifies this
      ensures entries == RunFrom(old(entries), ttl, h)
    {
      assert h[..0] == [];
      for i := 0 to |h|
        invariant entries == RunFrom(old(entries), ttl, h[..i])
      {
        assert h[..i + 1][..i] == h[..i];
        Perform(h[i]);
      }
      assert h[..|h|] == h;
    }
  }

  // ---- Histories ----

  /** The clock does not run backwards, and `t` is not before the last event. */
  predicate Clocked(h: History, t: Time) {
    h == [] || (h[|h| - 1].at <= t && Clocked(h[..|h| - 1], h[|h| - 1].at))
  }

  function WithoutCleanups(h: History): History {
    if h == [] then []
    else WithoutCleanups(h[..|h| - 1]) + if h[|h| - 1].op.OpCleanup? then [] else [h[|h| - 1]]
  }

  // ---- Cleanup is invisible ----

  /** An operation cannot tell an expired entry from a missing one. */
  lemma ApplySeesLive(e: Entries, ttl: Time, ev: Event, t: Time)
    requires ev.at <= t
    ensures Live(Apply(e, ttl, ev), t) == Live(Apply(Live(e, ev.at), ttl, ev), t)
  {
    var live := Live(e, ev.at);
    var a, b := Live(Apply(e, ttl, ev), t), Live(Apply(live, ttl, ev), t);
    forall k
      ensures (k in a <==> k in b) && (k in a ==> a[k] == b[k])
    {
    }
  }

  lemma LiveOfLive(e: Entries, now: Time, t: Time)
    requires now <= t
    ensures Live(Live(e, now), t) == Live(e, t)
  {
  }

  lemma FoundIsLive(e: Entries, now: Time, key: string)
    ensures Found(e, now, key) == Found(Live(e, now), now, key)
  {
  }

  lemma {:induction false} CleanupsLeaveLive(ttl: Time, h: History, t: Time)
    requires Clocked(h, t)
    ensures Live(Run(ttl, h), t) == Live(Run(ttl, WithoutCleanups(h)), t)
  {
    if h != [] {
      var init, ev := h[..|h| - 1], h[|h| - 1];
      var e, f := Run(ttl, init), Run(ttl, WithoutCleanups(init));
      CleanupsLeaveLive(ttl, init, ev.at);
      if ev.op.OpCleanup? {
        LiveOfLive(e, ev.at, t);
        LiveOfLive(f, ev.at, t);
        assert WithoutCleanups(h) == WithoutCleanups(init) + [] == WithoutCleanups(init);
      } else {
        ApplySeesLive(e, ttl, ev, t);
        ApplySeesLive(f, ttl, ev, t);
        var g := WithoutCleanups(init);
        assert (g + [ev])[..|g|] == g;
      }
    }
  }

  /** Two histories that differ only in cleanup steps answer every later lookup alike. */
  lemma CleanupIsInvisible(ttl: Time, g: History, h: History, t: Time, key: string)
    requires Clocked(g, t) && Clocked(h, t) && WithoutCleanups(g) == WithoutCleanups(h)
    ensures Found(Run(ttl, g), t, key) == Found(Run(ttl, h), t, key)
  {
    CleanupsLeaveLive(ttl, g, t);
    CleanupsLeaveLive(ttl, h, t);
    FoundIsLive(Run(ttl, g), t, key);
    FoundIsLive(Run(ttl, h), t, key);
  }

  // ---- What a lookup returns ----

  predicate Sets(ev: Event, key: string) {
    ev.op.OpSet? && TrimSpace(ev.op.key) == key && TrimSpace(ev.op.provider) != ""
  }

  predicate LooksUp(ev: Event, key: string) {
    ev.op.OpLookup? && TrimSpace(ev.op.key) == key
  }

  /** An event that ends the binding of `key` to `provider`. */
  predicate Ends(ev: Event, key: string, provider: string) {
    || Sets(ev, key)
    || (ev.op.OpInvalidate? && TrimSpace(ev.op.key) == key)
    || (ev.op.OpInvalidateProvider? && TrimSpace(ev.op.provider) != "" &&
        EqualFold(provider, TrimSpace(ev.op.provider)))
  }

  /** When the binding set at `i` was last set or looked up. */
  function LastTouch(h: History, key: string, i: nat): Time
    requires i < |h|
  {
    var ev := h[|h| - 1];
    if |h| == i + 1 || LooksUp(ev, key) then ev.at else LastTouch(h[..|h| - 1], key, i)
  }

  /** The binding set at `i` is good at `t`: nothing ended it since, and every lookup of
      it, this one included, came within the TTL of the touch before. */
  ghost predicate Binds(h: History, ttl: Time, key: string, i: nat, t: Time) {
    && i < |h| && Sets(h[i], key)
    && (forall j :: i < j < |h| ==> !Ends(h[j], key, TrimSpace(h[i].op.provider)))
    && (forall j :: i < j < |h| && LooksUp(h[j], key) ==> h[j].at <= LastTouch(h[..j], key, i) + ttl)
    && t <= LastTouch(h, key, i) + ttl
  }

  lemma BindsGrows(h: History, ev: Event, ttl: Time, key: string, i: nat, t: Time)
    requires i < |h| && Sets(h[i], key)
    ensures var g := h + [ev];
            Binds(g, ttl, key, i, t) <==>
            !Ends(ev, key, TrimSpace(h[i].op.provider)) &&
            if LooksUp(ev, key) then Binds(h, ttl, key, i, ev.at) && t <= ev.at + ttl else Binds(h, ttl, key, i, t)
  {
    var g := h + [ev];
    assert g[..|h|] == h;
    assert forall j :: i < j <= |h| ==> g[..j] == h[..j];
    assert h[..|h|] == h;
    assert forall j :: 0 <= j < |h| ==> g[j] == h[j];
    if Binds(g, ttl, key, i, t) {
      assert !Ends(g[|h|], key, TrimSpace(h[i].op.provider));
      forall j | i < j < |h|
        ensures !Ends(h[j], key, TrimSpace(h[i].op.provider))
      {
        assert !Ends(g[j], key, TrimSpace(g[i].op.provider));
      }
      forall j | i < j < |h| && LooksUp(h[j], key)
        ensures h[j].at <= LastTouch(h[..j], key, i) + ttl
      {
        assert LooksUp(g[j], key);
      }
      if LooksUp(ev, key) {
        assert LooksUp(g[|h|], key);
      }
    }
  }

  /** An entry is there, with this provider and expiry. */
  predicate Bound(e: Entries, key: string, provider: string, expiresAt: Time) {
    key in e && e[key] == Entry(provider, expiresAt)
  }

  /** A binding that holds is in the map, until its last touch plus the TTL. */
  lemma {:induction false} BindingIsEntry(ttl: Time, h: History, t: Time, key: string, i: nat)
    requires Clocked(h, t) && key != "" && Binds(h, ttl, key, i, t)
    ensures Bound(Run(ttl, h), key, TrimSpace(h[i].op.provider), LastTouch(h, key, i) + ttl)
    decreases |h|
  {
    var init, ev := h[..|h| - 1], h[|h| - 1];
    assert h == init + [ev];
    if i < |init| {
      BindsGrows(init, ev, ttl, key, i, t);
      BindingIsEntry(ttl, init, if LooksUp(ev, key) then ev.at else t, key, i);
    }
  }

  /** An entry that has not expired is a binding that holds. */
  lemma {:induction false} EntryIsBinding(ttl: Time, h: History, t: Time, key: string) returns (i: nat)
    requires Clocked(h, t) && key != "" && key in Run(ttl, h) && t <= Run(ttl, h)[key].expiresAt
    ensures Binds(h, ttl, key, i, t)
    ensures Bound(Run(ttl, h), key, TrimSpace(h[i].op.provider), LastTouch(h, key, i) + ttl)
    decreases |h|
  {
    var init, ev := h[..|h| - 1], h[|h| - 1];
    assert h == init + [ev];
    if Sets(ev, key) {
      i := |init|;
    } else {
      i := EntryIsBinding(ttl, init, if LooksUp(ev, key) then ev.at else t, key);
      BindsGrows(init, ev, ttl, key, i, t);
    }
  }

  /** A lookup returns exactly the binding that was set or refreshed within the TTL and not
      ended since. */
  lemma LookupReturnsBinding(ttl: Time, h: History, t: Time, rawKey: string, provider: string)
    requires Clocked(h, t)
    ensures var key := TrimSpace(rawKey);
            Found(Run(ttl, h), t, rawKey) == Some(provider) <==>
            key != "" && exists i: nat :: Binds(h, ttl, key, i, t) && TrimSpace(h[i].op.provider) == provider
  {
    var key := TrimSpace(rawKey);
    if Found(Run(ttl, h), t, rawKey) == Some(provider) {
      var i := EntryIsBinding(ttl, h, t, key);
    }
    if key != "" {
      if i: nat :| Binds(h, ttl, key, i, t) && TrimSpace(h[i].op.provider) == provider {
        BindingIsEntry(ttl, h, t, key, i);
      }
    }
  }
}
