/** The provider registry with its cooldown timers (internal/provider/registry/registry.go). */
module Registry {
  import opened Prelude
  import opened Providers

  type Table = map<string, Provider>

  /** An armed `time.AfterFunc`: what its callback will be called with. */
  datatype Timer = Timer(providerId: string, until: Time)

  datatype RegState = RegState(providers: Table, timers: map<string, Timer>)

  // ---- Accepting a provider ----

  predicate IdChar(c: char, first: bool) {
    || 'A' <= c <= 'Z' || 'a' <= c <= 'z' || '0' <= c <= '9'
    || (!first && c in {'.', '_', ':', '-'})
  }

  predicate ValidProviderId(id: string) {
    1 <= |id| <= 128 && forall i :: 0 <= i < |id| ==> IdChar(id[i], i == 0)
  }

  const MAX_LABEL := 256

  /** `normalizeProvider`: `None` for an identity that is refused. */
  function Normalize(p: Provider, now: Time): Option<Provider> {
    var id, conn := TrimSpace(p.id), TrimSpace(p.connectionId);
    var text := if TrimSpace(p.labelText) == "" then id else TrimSpace(p.labelText);
    if !ValidProviderId(id) || conn == "" || ByteLength(text) > MAX_LABEL then None
    else
      var valid := if p.state.Unset? || p.state.Invalid? then Active else p.state;
      var over := valid.Cooling? && (p.cooldownUntil == ZERO_TIME || p.cooldownUntil <= now);
      Some(p.(id := id, labelText := text, connectionId := conn,
              state := if over then Active else valid,
              cooldownUntil := if over then ZERO_TIME else p.cooldownUntil,
              connectedAt := if p.connectedAt == ZERO_TIME then now else p.connectedAt,
              lastSeenAt := if p.lastSeenAt == ZERO_TIME then now else p.lastSeenAt))
  }

  // ---- The operations on the provider table ----

  /** A registration of the same connection keeps its age; any other replaces the entry. */
  function RegisterIn(t: Table, p: Provider): Table {
    var key := MapKey(p.id);
    if key in t && t[key].connectionId == p.connectionId then
      t[key := p.(connectedAt := t[key].connectedAt,
                  lastSeenAt := if p.lastSeenAt < t[key].lastSeenAt then t[key].lastSeenAt else p.lastSeenAt)]
    else t[key := p]
  }

  /** The entry a call names by ID and, unless empty, by connection. */
  predicate Names(t: Table, id: string, conn: string) {
    && TrimSpace(id) != "" && MapKey(id) in t
    && (TrimSpace(conn) == "" || EqualFold(t[MapKey(id)].connectionId, TrimSpace(conn)))
  }

  function DisconnectIn(t: Table, id: string, conn: string): Table {
    if Names(t, id, conn) then t - {MapKey(id)} else t
  }

  function TouchIn(t: Table, id: string, conn: string, at: Time, now: Time): Table {
    if Names(t, id, conn) then t[MapKey(id) := t[MapKey(id)].(lastSeenAt := if at == ZERO_TIME then now else at)] else t
  }

  predicate CanSetState(t: Table, id: string, state: ProviderState) {
    TrimSpace(id) != "" && (state.Active? || state.Disabled? || state.Disconnected?) && MapKey(id) in t
  }

  function SetStateIn(t: Table, id: string, state: ProviderState, now: Time): Table {
    if CanSetState(t, id, state) then
      t[MapKey(id) := t[MapKey(id)].(state := if state.Disconnected? then Disabled else state,
                                     cooldownUntil := ZERO_TIME, lastSeenAt := now)]
    else t
  }

  function SetCooldownIn(t: Table, id: string, until: Time, now: Time): Table {
    if TrimSpace(id) == "" || MapKey(id) !in t then t
    else if until == ZERO_TIME || until <= now then
      t[MapKey(id) := t[MapKey(id)].(state := Active, cooldownUntil := ZERO_TIME, lastSeenAt := now)]
    else
      t[MapKey(id) := t[MapKey(id)].(state := Cooling, cooldownUntil := until, lastSeenAt := now)]
  }

  /** The timer callback acts on the cooldown it was armed for, once that is over. */
  predicate Expires(t: Table, id: string, expected: Time, now: Time) {
    var key := MapKey(id);
    key in t && t[key].state.Cooling? && t[key].cooldownUntil == expected && t[key].cooldownUntil <= now
  }

  function ExpireIn(t: Table, id: string, expected: Time, now: Time): Table {
    if Expires(t, id, expected, now) then
      t[MapKey(id) := t[MapKey(id)].(state := Active, cooldownUntil := ZERO_TIME, lastSeenAt := now)]
    else t
  }

  // ---- The operations on the whole state ----

  function StopTimer(s: RegState, key: string): RegState {
    s.(timers := s.timers - {key})
  }

  function ReplaceTimer(s: RegState, key: string, id: string, until: Time): RegState {
    s.(timers := if until == ZERO_TIME then s.timers - {key} else s.timers[key := Timer(id, until)])
  }

  function SyncTimer(s: RegState, key: string, p: Provider): RegState {
    if !p.state.Cooling? then StopTimer(s, key)
    else if p.cooldownUntil == ZERO_TIME then
      StopTimer(if key in s.providers
                then s.(providers := s.providers[key := s.providers[key].(state := Active, cooldownUntil := ZERO_TIME)])
                else s, key)
    else ReplaceTimer(s, key, p.id, p.cooldownUntil)
  }

  datatype Op =
    | OpRegister(p: Provider)
    | OpDisconnect(id: string, conn: string)
    | OpTouch(id: string, conn: string, seen: Time)
    | OpSetState(id: string, state: ProviderState)
    | OpSetCooldown(id: string, until: Time)
    | OpTimer(id: string, until: Time)

  datatype Event = Event(at: Time, op: Op)

  function Apply(s: RegState, ev: Event): RegState {
    match ev.op
    case OpRegister(p) =>
      (match Normalize(p, ev.at)
       case None => s
       case Some(n) => SyncTimer(s.(providers := RegisterIn(s.providers, n)), MapKey(n.id), n))
    case OpDisconnect(id, conn) =>
      if Names(s.providers, id, conn) then
        StopTimer(s.(providers := DisconnectIn(s.providers, id, conn)), MapKey(id))
      else s
    case OpTouch(id, conn, seen) => s.(providers := TouchIn(s.providers, id, conn, seen, ev.at))
    case OpSetState(id, state) =>
      if CanSetState(s.providers, id, state) then
        StopTimer(s.(providers := SetStateIn(s.providers, id, state, ev.at)), MapKey(id))
      else s
    case OpSetCooldown(id, until) =>
      var t := SetCooldownIn(s.providers, id, until, ev.at);
      if TrimSpace(id) == "" || MapKey(id) !in s.providers then s
      else if until == ZERO_TIME || until <= ev.at then StopTimer(s.(providers := t), MapKey(id))
      else ReplaceTimer(s.(providers := t), MapKey(id), TrimSpace(id), until)
    case OpTimer(id, until) =>
      if Expires(s.providers, id, until, ev.at) then
        StopTimer(s.(providers := ExpireIn(s.providers, id, until, ev.at)), MapKey(id))
      else s
  }

  /** Every provider of the table, each once. */
  predicate Lists(ps: seq<Provider>, t: Table) {
    |ps| == |t| && (forall k :: k in t ==> t[k] in ps) && (forall p :: p in ps ==> p in t.Values)
  }

  /** `sortProviders`: higher priority first, then the ID. */
  predicate ListsBefore(a: Provider, b: Provider) {
    if a.priority != b.priority then a.priority > b.priority else LexLess(ToLower(a.id), ToLower(b.id))
  }

  predicate Ordered(s: seq<Provider>) {
    forall i, j :: 0 <= i < j < |s| ==> !ListsBefore(s[j], s[i])
  }

  function InsertProvider(s: seq<Provider>, p: Provider): seq<Provider> {
    if s == [] || !ListsBefore(p, s[|s| - 1]) then s + [p]
    else InsertProvider(s[..|s| - 1], p) + [s[|s| - 1]]
  }

  function SortProviders(s: seq<Provider>): seq<Provider> {
    if s == [] then [] else InsertProvider(SortProviders(s[..|s| - 1]), s[|s| - 1])
  }

  lemma ListsBeforeIsOrder(a: Provider, b: Provider, c: Provider)
    ensures !(ListsBefore(a, b) && ListsBefore(b, a))
    ensures !ListsBefore(b, a) && !ListsBefore(c, b) ==> !ListsBefore(c, a)
  {
    LexLessIsOrder(ToLower(a.id), ToLower(b.id), ToLower(c.id));
  }

  lemma {:induction false} InsertKeepsOrder(s: seq<Provider>, p: Provider)
    requires Ordered(s)
    ensures var r := InsertProvider(s, p);
            Ordered(r) && |r| == |s| + 1 && forall e :: e in r <==> e in s || e == p
  {
    if s != [] {
      var init, last := s[..|s| - 1], s[|s| - 1];
      assert s == init + [last];
      if ListsBefore(p, last) {
        InsertKeepsOrder(init, p);
        forall e | e in InsertProvider(init, p)
          ensures !ListsBefore(last, e)
        {
          ListsBeforeIsOrder(p, last, last);
        }
      } else {
        forall e | e in s
          ensures !ListsBefore(p, e)
        {
          ListsBeforeIsOrder(e, last, p);
        }
      }
    }
  }

  lemma {:induction false} SortOrders(s: seq<Provider>)
    ensures var r := SortProviders(s); Ordered(r) && |r| == |s| && forall e :: e in r <==> e in s
  {
    if s != [] {
      var init, last := s[..|s| - 1], s[|s| - 1];
      SortOrders(init);
      InsertKeepsOrder(SortProviders(init), last);
      assert s == init + [last];
    }
  }

  class Registry {
    var providers: Table
    var cooldownTimers: map<string, Timer>

    ghost function State(): RegState
      reads this
    {
      RegState(providers, cooldownTimers)
    }

    constructor ()
      ensures State() == EMPTY
    {
      providers, cooldownTimers := map[], map[];
    }

    method StopCooldownTimer(key: string)
      modifies this`cooldownTimers
      ensures State() == StopTimer(old(State()), key)
    {
      if key in cooldownTimers {
        cooldownTimers := cooldownTimers - {key};
      }
    }

    method ReplaceCooldownTimer(key: string, id: string, until: Time)
      modifies this`cooldownTimers
      ensures State() == ReplaceTimer(old(State()), key, id, until)
    {
      StopCooldownTimer(key);
      if until == ZERO_TIME {
        return;
      }
      cooldownTimers := cooldownTimers[key := Timer(id, until)];
    }

    method SyncCooldownTimer(key: string, p: Provider)
      modifies this
      ensures State() == SyncTimer(old(State()), key, p)
    {
      if p.state.Cooling? {
        if p.cooldownUntil == ZERO_TIME {
          if key in providers {
            providers := providers[key := providers[key].(state := Active, cooldownUntil := ZERO_TIME)];
          }
          StopCooldownTimer(key);
          return;
        }
        ReplaceCooldownTimer(key, p.id, p.cooldownUntil);
      } else {
        StopCooldownTimer(key);
      }
    }

    method Register(p: Provider, now: Time) returns (ok: bool)
      modifies this
      ensures State() == Apply(old(State()), Event(now, OpRegister(p)))
      ensures ok == Normalize(p, now).Some?
    {
      var result := Normalize(p, now);
      if result.None? {
        return false;
      }
      var normalized := result.value;
      var key := MapKey(normalized.id);
      if key !in providers {
        providers := providers[key := normalized];
        SyncCooldownTimer(key, normalized);
      } else if providers[key].connectionId != normalized.connectionId {
        StopCooldownTimer(key);
        providers := providers[key := normalized];
        SyncCooldownTimer(key, normalized);
      } else {
        var existing := providers[key];
        var kept := normalized.(connectedAt := existing.connectedAt);
        if kept.lastSeenAt < existing.lastSeenAt {
          kept := kept.(lastSeenAt := existing.lastSeenAt);
        }
        providers := providers[key := kept];
        SyncCooldownTimer(key, normalized);
      }
      return true;
    }

    method Disconnect(id: string, conn: string, now: Time) returns (removed: bool)
      modifies this
      ensures State() == Apply(old(State()), Event(now, OpDisconnect(id, conn)))
      ensures removed == Names(old(providers), id, conn)
    {
      if TrimSpace(id) == "" {
        return false;
      }
      var key := MapKey(id);
      if key in providers {
        if TrimSpace(conn) == "" || EqualFold(providers[key].connectionId, TrimSpace(conn)) {
          providers := providers - {key};
          StopCooldownTimer(key);
          return true;
        }
      }
      return false;
    }

    method Touch(id: string, conn: string, at: Time, now: Time) returns (touched: bool)
      modifies this
      ensures State() == Apply(old(State()), Event(now, OpTouch(id, conn, at)))
      ensures touched == Names(old(providers), id, conn)
    {
      if TrimSpace(id) == "" {
        return false;
      }
      var seen := if at == ZERO_TIME then now else at;
      var key := MapKey(id);
      if key in providers {
        if TrimSpace(conn) == "" || EqualFold(providers[key].connectionId, TrimSpace(conn)) {
          providers := providers[key := providers[key].(lastSeenAt := seen)];
          return true;
        }
      }
      return false;
    }

    method SetState(id: string, state: ProviderState, now: Time) returns (ok: bool)
      modifies this
      ensures State() == Apply(old(State()), Event(now, OpSetState(id, state)))
      ensures ok == CanSetState(old(providers), id, state)
    {
      if TrimSpace(id) == "" || state.Unset? || state.Invalid? || state.Cooling? {
        return false;
      }
      var target := if state.Disconnected? then Disabled else state;
      var key := MapKey(id);
      if key !in providers {
        return false;
      }
      providers := providers[key := providers[key].(state := target, cooldownUntil := ZERO_TIME, lastSeenAt := now)];
      StopCooldownTimer(key);
      return true;
    }

    method SetCooldown(id: string, until: Time, now: Time) returns (ok: bool)
      modifies this
      ensures State() == Apply(old(State()), Event(now, OpSetCooldown(id, until)))
      ensures ok == (TrimSpace(id) != "" && MapKey(id) in old(providers))
    {
      if TrimSpace(id) == "" {
        return false;
      }
      var key := MapKey(id);
      if key !in providers {
        return false;
      }
      var current := providers[key];
      if until == ZERO_TIME || until <= now {
        current := current.(state := Active, cooldownUntil := ZERO_TIME);
        StopCooldownTimer(key);
      } else {
        current := current.(state := Cooling, cooldownUntil := until);
        ReplaceCooldownTimer(key, TrimSpace(id), until);
      }
      providers := providers[key := current.(lastSeenAt := now)];
      return true;
    }

    method HandleCooldownTimer(id: string, expected: Time, now: Time)
      modifies this
      ensures State() == Apply(old(State()), Event(now, OpTimer(id, expected)))
    {
      var key := MapKey(id);
      if key !in providers {
        return;
      }
      var current := providers[key];
      if !current.state.Cooling? || current.cooldownUntil != expected {
        return;
      }
      if current.cooldownUntil > now {
        return;
      }
      providers := providers[key := current.(state := Active, cooldownUntil := ZERO_TIME, lastSeenAt := now)];
      cooldownTimers := cooldownTimers - {key};
    }

    /** Snapshots of all providers, in their order. */
    method List() returns (out: seq<Provider>)
      ensures Lists(out, providers) && Ordered(out)
    {
      out := [];
      var rest := providers.Keys;
      while rest != {}
        invariant rest <= providers.Keys && |out| + |rest| == |providers|
        invariant forall k :: k in providers && k !in rest ==> providers[k] in out
        invariant forall p :: p in out ==> p in providers.Values
        decreases rest
      {
        var key :| key in rest;
        assert key in providers;
        out := out + [providers[key]];
        rest := rest - {key};
      }
      SortOrders(out);
      out := SortProviders(out);
    }

    method Perform(ev: Event)
      modifies this
      ensures State() == Apply(old(State()), ev)
    {
      match ev.op {
        case OpRegister(p) => var _ := Register(p, ev.at);
        case OpDisconnect(id, conn) => var _ := Disconnect(id, conn, ev.at);
        case OpTouch(id, conn, seen) => var _ := Touch(id, conn, seen, ev.at);
        case OpSetState(id, state) => var _ := SetState(id, state, ev.at);
        case OpSetCooldown(id, until) => var _ := SetCooldown(id, until, ev.at);
        case OpTimer(id, until) => HandleCooldownTimer(id, until, ev.at);
      }
    }

    method PerformAll(events: seq<Event>)
      modifies this
      ensures State() == RunFrom(old(State()), events)
    {
      assert events[..0] == [];
      for i := 0 to |events|
        invariant State() == RunFrom(old(State()), events[..i])
      {
        assert events[..i + 1][..i] == events[..i];
        Perform(events[i]);
      }
      assert events[..|events|] == events;
    }
  }

  // ---- Armed timers ----

  /** At one key: a timer is armed exactly while the provider is cooling, carries its deadline
      and will call back for this key; and the provider has a valid ID and sits under its key. */
  predicate KeyMatches(s: RegState, key: string) {
    && (key in s.timers <==> key in s.providers && s.providers[key].state.Cooling?)
    && (key in s.timers ==>
          && s.timers[key].until == s.providers[key].cooldownUntil != ZERO_TIME
          && MapKey(s.timers[key].providerId) == key)
    && (key in s.providers ==> MapKey(s.providers[key].id) == key && ValidProviderId(s.providers[key].id))
  }

  ghost predicate TimersMatch(s: RegState) {
    forall key :: KeyMatches(s, key)
  }

  /** Nothing but the entry and the timer at `key` differs. */
  ghost predicate OnlyAt(s: RegState, r: RegState, key: string) {
    && s.providers - {key} == r.providers - {key}
    && s.timers - {key} == r.timers - {key}
  }

  lemma OneKeyKeepsTimers(s: RegState, r: RegState, key: string)
    requires TimersMatch(s) && OnlyAt(s, r, key) && KeyMatches(r, key)
    ensures TimersMatch(r)
  {
    forall k ensures KeyMatches(r, k) {
      if k != key {
        assert KeyMatches(s, k);
        assert k in s.providers <==> k in s.providers - {key};
        assert k in r.providers <==> k in r.providers - {key};
        assert k in s.timers <==> k in s.timers - {key};
        assert k in r.timers <==> k in r.timers - {key};
        assert k in r.providers ==> (r.providers - {key})[k] == r.providers[k];
        assert k in r.timers ==> (r.timers - {key})[k] == r.timers[k];
      }
    }
  }

  /** The key a step works on. */
  function KeyOf(op: Op): string {
    match op
    case OpRegister(p) => MapKey(TrimSpace(p.id))
    case _ => MapKey(op.id)
  }

  lemma StepIsLocal(s: RegState, ev: Event)
    ensures OnlyAt(s, Apply(s, ev), KeyOf(ev.op))
  {
  }

  lemma StepMatchesAtKey(s: RegState, ev: Event)
    requires KeyMatches(s, KeyOf(ev.op))
    ensures KeyMatches(Apply(s, ev), KeyOf(ev.op))
  {
    match ev.op
    case OpRegister(p) => TrimTwice(TrimSpace(p.id));
    case OpSetCooldown(id, _) => TrimTwice(id);
    case _ =>
  }

  lemma TrimTwice(s: string)
    ensures TrimSpace(TrimSpace(s)) == TrimSpace(s) && MapKey(TrimSpace(s)) == MapKey(s)
  {
    TrimIsTrimmed(s, IsSpace);
    TrimOfTrimmed(TrimSpace(s), IsSpace);
  }

  lemma ApplyKeepsTimers(s: RegState, ev: Event)
    requires TimersMatch(s)
    ensures TimersMatch(Apply(s, ev))
  {
    StepIsLocal(s, ev);
    StepMatchesAtKey(s, ev);
    OneKeyKeepsTimers(s, Apply(s, ev), KeyOf(ev.op));
  }

  const EMPTY := RegState(map[], map[])

  function RunFrom(s: RegState, h: seq<Event>): RegState {
    if h == [] then s else Apply(RunFrom(s, h[..|h| - 1]), h[|h| - 1])
  }

  function Run(h: seq<Event>): RegState {
    RunFrom(EMPTY, h)
  }

  lemma {:induction false} RunKeepsTimers(s: RegState, h: seq<Event>)
    requires TimersMatch(s)
    ensures TimersMatch(RunFrom(s, h))
  {
    if h != [] {
      RunKeepsTimers(s, h[..|h| - 1]);
      ApplyKeepsTimers(RunFrom(s, h[..|h| - 1]), h[|h| - 1]);
    }
  }

  /** In every state a registry can reach. */
  lemma TimersAlwaysMatch(h: seq<Event>)
    ensures TimersMatch(Run(h))
  {
    RunKeepsTimers(EMPTY, h);
  }

  // ---- Timers are invisible ----

  predicate Clocked(h: seq<Event>, t: Time) {
    h == [] || (h[|h| - 1].at <= t && Clocked(h[..|h| - 1], h[|h| - 1].at))
  }

  /** The same operations on a registry that has no timers at all. */
  function ApplyFree(t: Table, ev: Event): Table {
    match ev.op
    case OpRegister(p) => (match Normalize(p, ev.at) case None => t case Some(n) => RegisterIn(t, n))
    case OpDisconnect(id, conn) => DisconnectIn(t, id, conn)
    case OpTouch(id, conn, seen) => TouchIn(t, id, conn, seen, ev.at)
    case OpSetState(id, state) => SetStateIn(t, id, state, ev.at)
    case OpSetCooldown(id, until) => SetCooldownIn(t, id, until, ev.at)
    case OpTimer(_, _) => t
  }

  function RunFree(h: seq<Event>): Table {
    if h == [] then map[] else ApplyFree(RunFree(h[..|h| - 1]), h[|h| - 1])
  }

  /** Equal but for when it was last seen, or for a cooldown already over by `now`. */
  predicate Alike(timed: Provider, free: Provider, now: Time) {
    || timed.(lastSeenAt := free.lastSeenAt) == free
    || (timed.state.Active? && timed.cooldownUntil == ZERO_TIME && free.state.Cooling? && free.cooldownUntil <= now &&
        timed.(lastSeenAt := free.lastSeenAt, state := Cooling, cooldownUntil := free.cooldownUntil) == free)
  }

  predicate AlikeAt(timed: Table, free: Table, now: Time, key: string) {
    && (key in timed <==> key in free)
    && (key in timed ==> Alike(timed[key], free[key], now))
  }

  ghost predicate AllAlike(timed: Table, free: Table, now: Time) {
    forall key :: AlikeAt(timed, free, now, key)
  }

  /** The table after a timed step, timers aside. */
  lemma ApplyTable(s: RegState, ev: Event)
    requires TimersMatch(s)
    ensures Apply(s, ev).providers ==
            match ev.op
            case OpTimer(id, until) => ExpireIn(s.providers, id, until, ev.at)
            case _ => ApplyFree(s.providers, ev)
  {
  }

  lemma FreeStepKeepsAlikeAt(timed: Table, free: Table, ev: Event, key: string)
    requires AlikeAt(timed, free, ev.at, key) && AlikeAt(timed, free, ev.at, KeyOf(ev.op)) && !ev.op.OpTimer?
    ensures AlikeAt(ApplyFree(timed, ev), ApplyFree(free, ev), ev.at, key)
  {
    match ev.op
    case OpRegister(p) => TrimTwice(p.id);
    case _ =>
  }

  lemma FreeStepKeepsAlike(timed: Table, free: Table, ev: Event)
    requires AllAlike(timed, free, ev.at) && !ev.op.OpTimer?
    ensures AllAlike(ApplyFree(timed, ev), ApplyFree(free, ev), ev.at)
  {
    forall key ensures AlikeAt(ApplyFree(timed, ev), ApplyFree(free, ev), ev.at, key) {
      assert AlikeAt(timed, free, ev.at, key) && AlikeAt(timed, free, ev.at, KeyOf(ev.op));
      FreeStepKeepsAlikeAt(timed, free, ev, key);
    }
  }

  /** A timer that fires makes a cooling entry active whose time is up anyway. */
  lemma TimerStepKeepsAlike(timed: Table, free: Table, id: string, until: Time, now: Time)
    requires AllAlike(timed, free, now)
    ensures AllAlike(ExpireIn(timed, id, until, now), free, now)
  {
    forall key ensures AlikeAt(ExpireIn(timed, id, until, now), free, now, key) {
      assert AlikeAt(timed, free, now, key);
    }
  }

  lemma LaterAlike(timed: Table, free: Table, now: Time, later: Time)
    requires AllAlike(timed, free, now) && now <= later
    ensures AllAlike(timed, free, later)
  {
    forall key ensures AlikeAt(timed, free, later, key) {
      assert AlikeAt(timed, free, now, key);
    }
  }

  lemma {:induction false} RunsAreAlike(h: seq<Event>, t: Time)
    requires Clocked(h, t)
    ensures AllAlike(Run(h).providers, RunFree(h), t)
  {
    if h != [] {
      var init, ev := h[..|h| - 1], h[|h| - 1];
      RunsAreAlike(init, ev.at);
      TimersAlwaysMatch(init);
      ApplyTable(Run(init), ev);
      if ev.op.OpTimer? {
        TimerStepKeepsAlike(Run(init).providers, RunFree(init), ev.op.id, ev.op.until, ev.at);
      } else {
        FreeStepKeepsAlike(Run(init).providers, RunFree(init), ev);
      }
      LaterAlike(Run(h).providers, RunFree(h), ev.at, t);
    }
  }

  /** Timers firing late, stale, twice or never cannot be seen by selection: every provider
      has the identity, priority, age and effective state it would have without timers, at
      this instant and every later one. */
  lemma TimersAreInvisible(h: seq<Event>, t: Time, later: Time, key: string)
    requires Clocked(h, t) && t <= later
    ensures key in Run(h).providers <==> key in RunFree(h)
    ensures key in RunFree(h) ==>
              var p, q := Run(h).providers[key], RunFree(h)[key];
              && p.id == q.id && p.labelText == q.labelText && p.connectionId == q.connectionId
              && p.priority == q.priority
              && p.connectedAt == q.connectedAt && EffectiveState(p, later) == EffectiveState(q, later)
  {
    RunsAreAlike(h, t);
    assert AlikeAt(Run(h).providers, RunFree(h), t, key);
  }

  // ---- Recent events ----

  const MAX_RECENT_EVENTS := 64

  function Newest<T>(s: seq<T>, n: nat): seq<T> {
    if |s| <= n then s else s[|s| - n..]
  }

  class EventRingBuffer<T> {
    var events: seq<T>
    ghost var all: seq<T> // every event ever recorded

    ghost predicate Valid()
      reads this
    {
      events == Newest(all, MAX_RECENT_EVENTS)
    }

    constructor ()
      ensures Valid() && all == []
    {
      events, all := [], [];
    }

    method Add(event: T)
      requires Valid()
      modifies this
      ensures Valid() && all == old(all) + [event]
    {
      events, all := events + [event], all + [event];
      if |events| > MAX_RECENT_EVENTS {
        events := events[|events| - MAX_RECENT_EVENTS..];
      }
    }

    /** The newest events first; a limit that is not positive, or too large, means all kept. */
    method Recent(n: int) returns (out: seq<T>)
      requires Valid()
      ensures |out| <= |all| && |out| == (if 0 < n <= |events| then n else |events|)
      ensures |events| == if |all| <= MAX_RECENT_EVENTS then |all| else MAX_RECENT_EVENTS
      ensures forall i :: 0 <= i < |out| ==> out[i] == all[|all| - 1 - i]
    {
      var total := |events|;
      var count := if n <= 0 || n > total then total else n;
      out := [];
      for i := 0 to count
        invariant |out| == i
        invariant forall j :: 0 <= j < i ==> out[j] == all[|all| - 1 - j]
      {
        out := out + [events[total - 1 - i]];
      }
    }
  }
}
