/** The attempt loop of the pipeline (internal/pipeline/pipeline.go): the one
    `executeNonStreamWithRetry` and `Stream` share. */
module RetryLoop {
  import opened Prelude
  import opened Providers
  import opened Registry
  import opened Selector
  import opened Selectors

  /** A `GatewayError`, as far as the loop looks at it. */
  datatype Failure = Failure(retryable: bool, cooldown: bool, retryAfter: int)

  /** `Fatal` is an error that is no `GatewayError`, or a client gone during bootstrap. */
  datatype Outcome = Success | Failed(failure: Failure) | Fatal

  const DEFAULT_COOLDOWN := 300 * SECOND

  function CooldownFor(providerCooldown: int, retryAfter: int): (r: nat)
    ensures r > 0 && r >= retryAfter && r >= providerCooldown
    ensures r == retryAfter || r == providerCooldown ||
            (retryAfter <= 0 && providerCooldown <= 0 && r == 300_000_000_000)
  {
    var longer := if retryAfter > providerCooldown then retryAfter else providerCooldown;
    if longer <= 0 then DEFAULT_COOLDOWN else longer
  }

  function MaxAttempts(count: nat): nat {
    if count == 0 then 1 else count
  }

  // ---- Runs of the loop ----

  /** One attempt: what others did to the registry since the last, the list the selector saw,
      its choice, what others did while the provider was at work, and how that went. */
  datatype Turn = Turn(
    changes: seq<Event>,
    listed: seq<Provider>,
    now: Time,
    provider: Provider,
    during: seq<Event>,
    outcome: Outcome,
    failedAt: Time,
    setAt: Time,
    live: bool)

  predicate CoolsDown(o: Outcome) {
    o.Failed? && o.failure.cooldown
  }

  predicate Retries(turn: Turn, attempt: nat, limit: nat) {
    attempt < limit - 1 && turn.live && turn.outcome.Failed? && turn.outcome.failure.retryable
  }

  function CooldownEvent(turn: Turn, providerCooldown: int): Event
    requires turn.outcome.Failed?
  {
    Event(turn.setAt,
          OpSetCooldown(turn.provider.id,
                        turn.failedAt + CooldownFor(providerCooldown, turn.outcome.failure.retryAfter)))
  }

  function AfterTurn(s: RegState, turn: Turn, providerCooldown: int): RegState {
    var seen := RunFrom(RunFrom(s, turn.changes), turn.during);
    if CoolsDown(turn.outcome) then Apply(seen, CooldownEvent(turn, providerCooldown)) else seen
  }

  function AfterTrail(s: RegState, trail: seq<Turn>, providerCooldown: int): RegState {
    if trail == [] then s
    else AfterTurn(AfterTrail(s, trail[..|trail| - 1], providerCooldown), trail[|trail| - 1], providerCooldown)
  }

  function TriedBy(trail: seq<Turn>): set<string> {
    if trail == [] then {} else TriedBy(trail[..|trail| - 1]) + {MapKey(trail[|trail| - 1].provider.id)}
  }

  /** The loop reaches its next attempt after `trail`. */
  predicate Continues(trail: seq<Turn>, limit: nat) {
    |trail| < limit && (trail != [] ==> Retries(trail[|trail| - 1], |trail| - 1, limit))
  }

  ghost predicate Chosen(s: RegState, tried: set<string>, turn: Turn) {
    && Lists(turn.listed, RunFrom(s, turn.changes).providers) && turn.listed != []
    && Selects(Ok(turn.provider), turn.listed, tried, turn.now)
  }

  /** `trail` is what the loop can do from registry `s` with at most `limit` attempts. */
  ghost predicate IsTrail(s: RegState, limit: nat, trail: seq<Turn>, providerCooldown: int) {
    trail == [] ||
    (var init := trail[..|trail| - 1];
     && IsTrail(s, limit, init, providerCooldown) && Continues(init, limit)
     && Chosen(AfterTrail(s, init, providerCooldown), TriedBy(init), trail[|trail| - 1]))
  }

  /** `Refused`: the last listing had nothing to select. */
  datatype End = Answered | Stopped | Refused(changes: seq<Event>, listed: seq<Provider>, now: Time)

  ghost predicate EndsWith(s: RegState, limit: nat, trail: seq<Turn>, providerCooldown: int, end: End) {
    match end
    case Answered => trail != [] && trail[|trail| - 1].outcome.Success?
    case Stopped =>
      && trail != [] && !trail[|trail| - 1].outcome.Success?
      && !Retries(trail[|trail| - 1], |trail| - 1, limit)
    case Refused(changes, listed, now) =>
      && Continues(trail, limit)
      && Lists(listed, RunFrom(AfterTrail(s, trail, providerCooldown), changes).providers)
      && Collect(listed, TriedBy(trail), now) == []
  }

  // ---- The loop itself ----

  /** What the loop does not decide: other actors, clocks, upstream, and the context. */
  datatype World = World(
    changes: nat -> seq<Event>,
    clock: nat -> Clock,
    others: nat -> Others,
    during: nat -> seq<Event>,
    outcome: (nat, Provider) -> Outcome,
    failedAt: nat -> Time,
    setAt: nat -> Time,
    live: nat -> bool)

  /** The registry a call leaves behind. */
  function FinalState(s: RegState, trail: seq<Turn>, providerCooldown: int, end: End): RegState {
    var after := AfterTrail(s, trail, providerCooldown);
    if end.Refused? then RunFrom(after, end.changes) else after
  }

  /** The last upstream error wins over a selection error. */
  datatype Reply =
    | Response(from: Provider)
    | UpstreamError(from: Provider, outcome: Outcome)
    | NotSelected(error: SelectError)
    | NoProviders

  function ReplyFor(trail: seq<Turn>, end: End): Reply
    requires trail == [] ==> end.Refused?
  {
    if trail == [] then NotSelected(SelectionError(Summarize(end.listed, {}, end.now), end.now))
    else
      var last := trail[|trail| - 1];
      if end.Answered? then Response(last.provider) else UpstreamError(last.provider, last.outcome)
  }

  method ApplyProviderCooldown(registry: Registry, turn: Turn, providerCooldown: int)
    requires turn.outcome.Failed?
    modifies registry
    ensures registry.State() ==
            if CoolsDown(turn.outcome) then Apply(old(registry.State()), CooldownEvent(turn, providerCooldown))
            else old(registry.State())
  {
    if !turn.outcome.failure.cooldown {
      return;
    }
    var cooldown := providerCooldown;
    if turn.outcome.failure.retryAfter > cooldown {
      cooldown := turn.outcome.failure.retryAfter;
    }
    if cooldown <= 0 {
      cooldown := DEFAULT_COOLDOWN;
    }
    var _ := registry.SetCooldown(turn.provider.id, turn.failedAt + cooldown, turn.setAt);
  }

  /** While the provider is at work others change the registry; then its failure cools it. */
  method FinishAttempt(registry: Registry, turn: Turn, providerCooldown: int)
    modifies registry
    ensures var worked := RunFrom(old(registry.State()), turn.during);
            registry.State() ==
            if CoolsDown(turn.outcome) then Apply(worked, CooldownEvent(turn, providerCooldown)) else worked
  {
    registry.PerformAll(turn.during);
    if turn.outcome.Failed? {
      ApplyProviderCooldown(registry, turn, providerCooldown);
    }
  }

  /** An empty registry is refused before the selector is asked. */
  method SelectProvider(registry: Registry, selector: Strategy, model: string, session: string, tried: set<string>,
                        others: Others, clock: Clock)
    returns (listed: seq<Provider>, selection: Selection)
    requires selector.Valid()
    modifies selector.Objects()
    ensures selector.Valid() && Lists(listed, registry.providers) && registry.State() == old(registry.State())
    ensures Selects(selection, listed, tried, clock.collected) && (listed == [] ==> selection.Err?)
  {
    var now := clock.collected;
    listed := registry.List();
    if |listed| == 0 {
      assert Collect(listed, tried, now) == [] && Summarize(listed, tried, now) == Summary(0, 0, ZERO_TIME);
      return listed, Err(UnavailableError(0, 0));
    }
    selection := selector.Select(model, session, listed, tried, others, clock);
  }

  /** What happens before an attempt, and the selection for it. */
  method Prepare(registry: Registry, selector: Strategy, model: string, session: string, tried: set<string>,
                 changes: seq<Event>, others: Others, clock: Clock)
    returns (listed: seq<Provider>, selection: Selection)
    requires selector.Valid()
    modifies registry, selector.Objects()
    ensures selector.Valid() && registry.State() == RunFrom(old(registry.State()), changes)
    ensures Lists(listed, registry.State().providers)
    ensures Selects(selection, listed, tried, clock.collected) && (listed == [] ==> selection.Err?)
  {
    registry.PerformAll(changes);
    listed, selection := SelectProvider(registry, selector, model, session, tried, others, clock);
  }

  lemma ExtendTrail(s: RegState, limit: nat, trail: seq<Turn>, turn: Turn, providerCooldown: int)
    requires IsTrail(s, limit, trail, providerCooldown) && Continues(trail, limit)
    requires Chosen(AfterTrail(s, trail, providerCooldown), TriedBy(trail), turn)
    ensures var longer := trail + [turn];
            && IsTrail(s, limit, longer, providerCooldown)
            && AfterTrail(s, longer, providerCooldown) ==
               AfterTurn(AfterTrail(s, trail, providerCooldown), turn, providerCooldown)
            && TriedBy(longer) == TriedBy(trail) + {MapKey(turn.provider.id)}
  {
    assert (trail + [turn])[..|trail|] == trail;
  }

  /** One attempt at the chosen provider. */
  method Attempt(registry: Registry, world: World, attempt: nat, listed: seq<Provider>, now: Time, provider: Provider,
                 providerCooldown: int, ghost s: RegState, ghost limit: nat, ghost trail: seq<Turn>)
    returns (turn: Turn)
    requires IsTrail(s, limit, trail, providerCooldown) && Continues(trail, limit)
    requires registry.State() == RunFrom(AfterTrail(s, trail, providerCooldown), world.changes(attempt))
    requires Lists(listed, registry.State().providers) && listed != []
    requires Selects(Ok(provider), listed, TriedBy(trail), now)
    modifies registry
    ensures turn.provider == provider && IsTrail(s, limit, trail + [turn], providerCooldown)
    ensures registry.State() == AfterTrail(s, trail + [turn], providerCooldown)
    ensures TriedBy(trail + [turn]) == TriedBy(trail) + {MapKey(provider.id)}
  {
    turn := Turn(world.changes(attempt), listed, now, provider, world.during(attempt),
                 world.outcome(attempt, provider), world.failedAt(attempt), world.setAt(attempt), world.live(attempt));
    ExtendTrail(s, limit, trail, turn, providerCooldown);
    FinishAttempt(registry, turn, providerCooldown);
  }

  /** One turn of the loop: an attempt, or the refusal that ends it. */
  method TryOnce(registry: Registry, selector: Strategy, model: string, session: string, world: World, attempt: nat,
                 tried: set<string>, providerCooldown: int, ghost s: RegState, ghost limit: nat, ghost trail: seq<Turn>)
    returns (result: Result<Turn, SelectError>, ghost refusal: End)
    requires selector.Valid() && IsTrail(s, limit, trail, providerCooldown) && Continues(trail, limit)
    requires registry.State() == AfterTrail(s, trail, providerCooldown) && tried == TriedBy(trail)
    modifies registry, selector.Objects()
    ensures selector.Valid()
    ensures result.Ok? ==>
              var turn := result.value;
              && IsTrail(s, limit, trail + [turn], providerCooldown)
              && registry.State() == AfterTrail(s, trail + [turn], providerCooldown)
              && TriedBy(trail + [turn]) == tried + {MapKey(turn.provider.id)}
    ensures result.Err? ==>
              && refusal.Refused? && EndsWith(s, limit, trail, providerCooldown, refusal)
              && result.error == SelectionError(Summarize(refusal.listed, tried, refusal.now), refusal.now)
              && registry.State() == FinalState(s, trail, providerCooldown, refusal)
  {
    var clock := world.clock(attempt);
    var listed, selection := Prepare(registry, selector, model, session, tried, world.changes(attempt),
                                     world.others(attempt), clock);
    refusal := Refused(world.changes(attempt), listed, clock.collected);
    if selection.Err? {
      return Err(selection.error), refusal;
    }
    var turn := Attempt(registry, world, attempt, listed, clock.collected, selection.value, providerCooldown,
                        s, limit, trail);
    return Ok(turn), refusal;
  }

  /** What a call comes to when `end` ends its trail. */
  ghost predicate Concludes(s: RegState, limit: nat, trail: seq<Turn>, providerCooldown: int, end: End, reply: Reply,
                            final: RegState) {
    && IsTrail(s, limit, trail, providerCooldown)
    && EndsWith(s, limit, trail, providerCooldown, end)
    && (trail == [] ==> end.Refused?) && reply == ReplyFor(trail, end)
    && final == FinalState(s, trail, providerCooldown, end)
  }

  lemma LastTurnConcludes(s: RegState, limit: nat, trail: seq<Turn>, providerCooldown: int)
    requires IsTrail(s, limit, trail, providerCooldown) && trail != []
    ensures var last, final := trail[|trail| - 1], AfterTrail(s, trail, providerCooldown);
            && (last.outcome.Success? ==>
                  Concludes(s, limit, trail, providerCooldown, Answered, Response(last.provider), final))
            && (!last.outcome.Success? && !Retries(last, |trail| - 1, limit) ==>
                  Concludes(s, limit, trail, providerCooldown, Stopped, UpstreamError(last.provider, last.outcome),
                            final))
  {
  }

  method ExecuteWithRetry(registry: Registry, selector: Strategy, model: string, session: string, world: World,
                          providerCooldown: int)
    returns (reply: Reply, ghost trail: seq<Turn>, ghost end: End)
    requires selector.Valid()
    modifies registry, selector.Objects()
    ensures selector.Valid()
    ensures reply.NoProviders? <==> |old(registry.providers)| == 0
    ensures reply.NoProviders? ==> registry.State() == old(registry.State())
    ensures !reply.NoProviders? ==>
              Concludes(old(registry.State()), MaxAttempts(|old(registry.providers)|), trail, providerCooldown, end,
                        reply, registry.State())
  {
    trail, end := [], Stopped;
    var candidates := registry.List();
    if |candidates| == 0 {
      return NoProviders, trail, end;
    }
    var maxAttempts := MaxAttempts(|candidates|);
    var tried: set<string> := {};
    var lastErr: Option<Reply> := None;
    ghost var start := registry.State();
    var attempt := 0;
    while attempt < maxAttempts
      invariant selector.Valid() && attempt == |trail| && attempt < maxAttempts
      invariant IsTrail(start, maxAttempts, trail, providerCooldown) && Continues(trail, maxAttempts)
      invariant registry.State() == AfterTrail(start, trail, providerCooldown) && tried == TriedBy(trail)
      invariant lastErr == if trail == [] then None else Some(ReplyFor(trail, Stopped))
    {
      ghost var refusal;
      var result;
      result, refusal := TryOnce(registry, selector, model, session, world, attempt, tried, providerCooldown,
                                 start, maxAttempts, trail);
      if result.Err? {
        return if lastErr.Some? then lastErr.value else NotSelected(result.error), trail, refusal;
      }
      var turn := result.value;
      var provider := turn.provider;
      tried := tried + {MapKey(provider.id)};
      trail := trail + [turn];
      LastTurnConcludes(start, maxAttempts, trail, providerCooldown);
      if turn.outcome.Success? {
        end := Answered;
        return Response(provider), trail, end;
      }
      lastErr := Some(UpstreamError(provider, turn.outcome));
      if !Retries(turn, attempt, maxAttempts) {
        return UpstreamError(provider, turn.outcome), trail, Stopped;
      }
      attempt := attempt + 1;
    }
    assert false;
  }

  // ---- When the loop goes on ----

  /** The turn failed in a way that may be retried, and its client is still there. */
  predicate MayRetry(turn: Turn) {
    turn.outcome.Failed? && turn.outcome.failure.retryable && turn.live
  }

  /** Only such a turn is followed by another one. */
  lemma OnlyRetryableTurnsGoOn(
      s: RegState, limit: nat, trail: seq<Turn>, providerCooldown: int, i: nat)
    requires IsTrail(s, limit, trail, providerCooldown) && i + 1 < |trail|
    ensures MayRetry(trail[i])
  {
    ContinuedBefore(s, limit, trail, providerCooldown, i + 1);
    ContinuedTurn(trail[..i + 1], limit);
  }

  lemma {:induction false} ContinuedBefore(
      s: RegState, limit: nat, trail: seq<Turn>, providerCooldown: int, n: nat)
    requires IsTrail(s, limit, trail, providerCooldown) && n < |trail|
    ensures Continues(trail[..n], limit)
  {
    var init := trail[..|trail| - 1];
    if n < |init| {
      ContinuedBefore(s, limit, init, providerCooldown, n);
      assert init[..n] == trail[..n];
    }
  }

  lemma ContinuedTurn(trail: seq<Turn>, limit: nat)
    requires Continues(trail, limit) && trail != []
    ensures MayRetry(trail[|trail| - 1])
  {
  }

  /** And while attempts are left it always is, unless nothing can be selected any more. */
  lemma RetryableTurnsGoOn(s: RegState, limit: nat, trail: seq<Turn>, providerCooldown: int, end: End)
    requires EndsWith(s, limit, trail, providerCooldown, end)
    requires trail != [] && MayRetry(trail[|trail| - 1]) && |trail| < limit
    ensures end.Refused?
  {
  }

  /** Any other last turn ends the call with what it came to: an answer if it succeeded. */
  lemma OtherTurnsEnd(s: RegState, limit: nat, trail: seq<Turn>, providerCooldown: int, end: End)
    requires EndsWith(s, limit, trail, providerCooldown, end)
    requires trail != [] && !MayRetry(trail[|trail| - 1])
    ensures end == if trail[|trail| - 1].outcome.Success? then Answered else Stopped
  {
  }

  // ---- Each provider at most once ----

  lemma ValidIdHasKey(id: string)
    requires ValidProviderId(id)
    ensures MapKey(id) != ""
  {
    assert IdChar(id[0], true) && IdChar(id[|id| - 1], |id| == 1);
    TrimOfTrimmed(id, IsSpace);
  }

  /** The selector reads the loop's own set the way the loop writes it. */
  lemma TriedIsRead(trail: seq<Turn>, key: string)
    requires key != ""
    ensures key in NormalizeTried(TriedBy(trail)) <==> key in TriedBy(trail)
    ensures key in TriedBy(trail) <==> exists i :: 0 <= i < |trail| && MapKey(trail[i].provider.id) == key
  {
    TriedKeys(trail, key);
    forall k | k in TriedBy(trail)
      ensures MapKey(k) == k
    {
      TriedKeys(trail, k);
      var i :| 0 <= i < |trail| && MapKey(trail[i].provider.id) == k;
      CanonicalTwice(trail[i].provider.id);
    }
  }

  lemma {:induction false} TriedKeys(trail: seq<Turn>, key: string)
    ensures key in TriedBy(trail) <==> exists i :: 0 <= i < |trail| && MapKey(trail[i].provider.id) == key
  {
    if trail != [] {
      var init, last := trail[..|trail| - 1], trail[|trail| - 1];
      TriedKeys(init, key);
      if key in TriedBy(init) {
        var i :| 0 <= i < |init| && MapKey(init[i].provider.id) == key;
        assert trail[i] == init[i];
      }
      if MapKey(last.provider.id) == key {
        assert trail[|trail| - 1] == last;
      }
      forall i | 0 <= i < |trail| && MapKey(trail[i].provider.id) == key
        ensures key in TriedBy(trail)
      {
        assert i < |init| ==> init[i] == trail[i];
      }
    }
  }

  lemma TurnKeepsTimers(s: RegState, turn: Turn, providerCooldown: int)
    requires TimersMatch(s)
    ensures TimersMatch(AfterTurn(s, turn, providerCooldown))
  {
    RunKeepsTimers(s, turn.changes);
    RunKeepsTimers(RunFrom(s, turn.changes), turn.during);
    if CoolsDown(turn.outcome) {
      ApplyKeepsTimers(RunFrom(RunFrom(s, turn.changes), turn.during), CooldownEvent(turn, providerCooldown));
    }
  }

  lemma {:induction false} TrailKeepsTimers(s: RegState, trail: seq<Turn>, providerCooldown: int)
    requires TimersMatch(s)
    ensures TimersMatch(AfterTrail(s, trail, providerCooldown))
  {
    if trail != [] {
      var init, last := trail[..|trail| - 1], trail[|trail| - 1];
      TrailKeepsTimers(s, init, providerCooldown);
      TurnKeepsTimers(AfterTrail(s, init, providerCooldown), last, providerCooldown);
    }
  }

  /** A chosen provider is registered and was not tried before. */
  lemma ChosenIsNew(s: RegState, trail: seq<Turn>, turn: Turn)
    requires TimersMatch(s) && Chosen(s, TriedBy(trail), turn)
    ensures MapKey(turn.provider.id) !in TriedBy(trail)
    ensures MapKey(turn.provider.id) in RunFrom(s, turn.changes).providers
  {
    RunKeepsTimers(s, turn.changes);
    var t := RunFrom(s, turn.changes);
    CollectIsTopTier(turn.listed, TriedBy(trail), turn.now, turn.provider);
    var key :| key in t.providers && t.providers[key] == turn.provider;
    assert KeyMatches(t, key);
    ValidIdHasKey(turn.provider.id);
    TriedIsRead(trail, key);
  }

  lemma LastIsNew(s: RegState, limit: nat, trail: seq<Turn>, providerCooldown: int)
    requires TimersMatch(s) && IsTrail(s, limit, trail, providerCooldown) && trail != []
    ensures MapKey(trail[|trail| - 1].provider.id) !in TriedBy(trail[..|trail| - 1])
  {
    var init := trail[..|trail| - 1];
    TrailKeepsTimers(s, init, providerCooldown);
    ChosenIsNew(AfterTrail(s, init, providerCooldown), init, trail[|trail| - 1]);
  }

  /** Whatever happens to the registry between attempts, a run makes no more attempts than
      there were candidates at the start, each at a provider of its own. */
  lemma {:induction false} AttemptsAreBounded(s: RegState, limit: nat, trail: seq<Turn>, providerCooldown: int)
    requires TimersMatch(s) && IsTrail(s, limit, trail, providerCooldown)
    ensures |trail| <= limit && |TriedBy(trail)| == |trail|
  {
    if trail != [] {
      AttemptsAreBounded(s, limit, trail[..|trail| - 1], providerCooldown);
      LastIsNew(s, limit, trail, providerCooldown);
    }
  }

  lemma TriedHas(trail: seq<Turn>, i: nat)
    requires i < |trail|
    ensures MapKey(trail[i].provider.id) in TriedBy(trail)
  {
    TriedKeys(trail, MapKey(trail[i].provider.id));
  }

  /** No two attempts of a run go to the same provider. */
  lemma {:induction false} TriesEachOnce(s: RegState, limit: nat, trail: seq<Turn>, providerCooldown: int,
                                         i: nat, j: nat)
    requires TimersMatch(s) && IsTrail(s, limit, trail, providerCooldown) && i < j < |trail|
    ensures MapKey(trail[i].provider.id) != MapKey(trail[j].provider.id)
  {
    var init := trail[..|trail| - 1];
    if j == |init| {
      LastIsNew(s, limit, trail, providerCooldown);
      assert init[i] == trail[i];
      TriedHas(init, i);
    } else {
      TriesEachOnce(s, limit, init, providerCooldown, i, j);
    }
  }

  // ---- A failed call has tried everyone ----

  predicate OnlyTimers(events: seq<Event>) {
    forall i :: 0 <= i < |events| ==> events[i].op.OpTimer?
  }

  predicate ReadyEntry(t: Table, key: string, now: Time) {
    key in t && EffectiveState(t[key], now).Ready?
  }

  lemma {:induction false} TimersKeepReady(s: RegState, events: seq<Event>, key: string, now: Time)
    requires OnlyTimers(events)
    ensures RunFrom(s, events).providers.Keys == s.providers.Keys
    ensures ReadyEntry(s.providers, key, now) ==> ReadyEntry(RunFrom(s, events).providers, key, now)
  {
    if events != [] {
      var init := events[..|events| - 1];
      assert OnlyTimers(init);
      TimersKeepReady(s, init, key, now);
      TimerStepKeepsReady(RunFrom(s, init), events[|events| - 1], key, now);
    }
  }

  lemma TimerStepKeepsReady(s: RegState, ev: Event, key: string, now: Time)
    requires ev.op.OpTimer?
    ensures Apply(s, ev).providers.Keys == s.providers.Keys
    ensures ReadyEntry(s.providers, key, now) ==> ReadyEntry(Apply(s, ev).providers, key, now)
  {
  }

  lemma CooldownKeepsOthers(s: RegState, turn: Turn, providerCooldown: int, key: string)
    requires turn.outcome.Failed?
    ensures Apply(s, CooldownEvent(turn, providerCooldown)).providers.Keys == s.providers.Keys
    ensures key in s.providers && key != MapKey(turn.provider.id) ==>
              Apply(s, CooldownEvent(turn, providerCooldown)).providers[key] == s.providers[key]
  {
  }

  predicate Undisturbed(trail: seq<Turn>) {
    forall i :: 0 <= i < |trail| ==> OnlyTimers(trail[i].changes) && OnlyTimers(trail[i].during)
  }

  lemma TurnKeepsReady(s: RegState, turn: Turn, providerCooldown: int, key: string, now: Time)
    requires OnlyTimers(turn.changes) && OnlyTimers(turn.during)
    ensures AfterTurn(s, turn, providerCooldown).providers.Keys == s.providers.Keys
    ensures key != MapKey(turn.provider.id) && ReadyEntry(s.providers, key, now) ==>
              ReadyEntry(AfterTurn(s, turn, providerCooldown).providers, key, now)
  {
    TimersKeepReady(s, turn.changes, key, now);
    TimersKeepReady(RunFrom(s, turn.changes), turn.during, key, now);
    if CoolsDown(turn.outcome) {
      CooldownKeepsOthers(RunFrom(RunFrom(s, turn.changes), turn.during), turn, providerCooldown, key);
    }
  }

  lemma {:induction false} TrailKeepsReady(s: RegState, trail: seq<Turn>, providerCooldown: int, key: string, now: Time)
    requires Undisturbed(trail)
    ensures AfterTrail(s, trail, providerCooldown).providers.Keys == s.providers.Keys
    ensures key !in TriedBy(trail) && ReadyEntry(s.providers, key, now) ==>
              ReadyEntry(AfterTrail(s, trail, providerCooldown).providers, key, now)
  {
    if trail != [] {
      var init, last := trail[..|trail| - 1], trail[|trail| - 1];
      assert OnlyTimers(last.changes) && OnlyTimers(last.during);
      TrailKeepsReady(s, init, providerCooldown, key, now);
      TurnKeepsReady(AfterTrail(s, init, providerCooldown), last, providerCooldown, key, now);
    }
  }

  lemma {:induction false} TriedAreRegistered(s: RegState, limit: nat, trail: seq<Turn>, providerCooldown: int)
    requires TimersMatch(s) && IsTrail(s, limit, trail, providerCooldown) && Undisturbed(trail)
    ensures TriedBy(trail) <= s.providers.Keys
  {
    if trail != [] {
      var init, last := trail[..|trail| - 1], trail[|trail| - 1];
      TriedAreRegistered(s, limit, init, providerCooldown);
      TrailKeepsTimers(s, init, providerCooldown);
      ChosenIsNew(AfterTrail(s, init, providerCooldown), init, last);
      TrailKeepsReady(s, init, providerCooldown, MapKey(last.provider.id), last.now);
      assert OnlyTimers(last.changes);
      TimersKeepReady(AfterTrail(s, init, providerCooldown), last.changes, MapKey(last.provider.id), last.now);
    }
  }

  /** Every failure is retryable and the context stayed live. */
  predicate AllRetryable(trail: seq<Turn>) {
    forall i :: 0 <= i < |trail| ==>
      trail[i].live && (trail[i].outcome.Success? || (trail[i].outcome.Failed? && trail[i].outcome.failure.retryable))
  }

  /** When nothing was left to select, a provider ready since `from` must have been tried. */
  lemma RefusedTriedAllReady(s: RegState, trail: seq<Turn>, providerCooldown: int, end: End, key: string, from: Time)
    requires TimersMatch(s) && Undisturbed(trail) && end.Refused? && OnlyTimers(end.changes) && from <= end.now
    requires Lists(end.listed, RunFrom(AfterTrail(s, trail, providerCooldown), end.changes).providers)
    requires Collect(end.listed, TriedBy(trail), end.now) == []
    requires ReadyEntry(s.providers, key, from)
    ensures key in TriedBy(trail)
  {
    ReadyStaysReady(s.providers[key], from, end.now);
    TrailKeepsReady(s, trail, providerCooldown, key, end.now);
    var t := AfterTrail(s, trail, providerCooldown);
    TimersKeepReady(t, end.changes, key, end.now);
    TrailKeepsTimers(s, trail, providerCooldown);
    RunKeepsTimers(t, end.changes);
    var r := RunFrom(t, end.changes);
    assert KeyMatches(r, key);
    ValidIdHasKey(r.providers[key].id);
    CollectIsTopTier(end.listed, TriedBy(trail), end.now, r.providers[key]);
    TriedIsRead(trail, key);
  }

  /** With the registry changed by this loop and its timers only, all failures retryable and
      the context live, a call that fails has tried every provider ready at the start. */
  lemma FailedCallTriedAllReady(s: RegState, trail: seq<Turn>, providerCooldown: int, end: End, key: string, from: Time)
    requires TimersMatch(s) && s.providers != map[]
    requires IsTrail(s, MaxAttempts(|s.providers|), trail, providerCooldown)
    requires EndsWith(s, MaxAttempts(|s.providers|), trail, providerCooldown, end) && !end.Answered?
    requires AllRetryable(trail) && Undisturbed(trail)
    requires end.Refused? ==> OnlyTimers(end.changes) && from <= end.now
    requires ReadyEntry(s.providers, key, from)
    ensures exists i :: 0 <= i < |trail| && MapKey(trail[i].provider.id) == key
  {
    TriedKeys(trail, key);
    if end.Refused? {
      RefusedTriedAllReady(s, trail, providerCooldown, end, key, from);
    } else {
      assert |trail| == |s.providers|;
      AttemptsAreBounded(s, MaxAttempts(|s.providers|), trail, providerCooldown);
      TriedAreRegistered(s, MaxAttempts(|s.providers|), trail, providerCooldown);
      SubsetOfSameSize(TriedBy(trail), s.providers.Keys);
    }
  }

  lemma SubsetOfSameSize<T>(a: set<T>, b: set<T>)
    requires a <= b && |a| == |b|
    ensures a == b
  {
    assert b == a + (b - a);
  }

  // ---- Cooldowns are honoured ----

  /** A provider cooled down by the loop is selectable again exactly from its deadline on,
      which is never before the time its upstream asked for. */
  lemma CooldownIsHonoured(s: RegState, turn: Turn, providerCooldown: int, t: Time)
    requires CoolsDown(turn.outcome) && TrimSpace(turn.provider.id) != "" && MapKey(turn.provider.id) in s.providers
    requires turn.setAt <= t
    ensures var key := MapKey(turn.provider.id);
            var after := Apply(s, CooldownEvent(turn, providerCooldown)).providers;
            var until := turn.failedAt + CooldownFor(providerCooldown, turn.outcome.failure.retryAfter);
            && key in after
            && (EffectiveState(after[key], t).Ready? <==> t >= until)
            && until >= turn.failedAt + turn.outcome.failure.retryAfter
  {
  }

  predicate CoolingUntilThen(t: Table, key: string, until: Time) {
    key in t && t[key].state.Cooling? && t[key].cooldownUntil == until
  }

  predicate TimersBefore(events: seq<Event>, until: Time) {
    OnlyTimers(events) && forall i :: 0 <= i < |events| ==> events[i].at < until
  }

  lemma {:induction false} EarlyTimersKeepCooling(s: RegState, events: seq<Event>, key: string, until: Time)
    requires TimersBefore(events, until) && CoolingUntilThen(s.providers, key, until)
    ensures CoolingUntilThen(RunFrom(s, events).providers, key, until)
  {
    if events != [] {
      EarlyTimersKeepCooling(s, events[..|events| - 1], key, until);
    }
  }

  function Deadline(turn: Turn, providerCooldown: int): Time
    requires turn.outcome.Failed?
  {
    turn.failedAt + CooldownFor(providerCooldown, turn.outcome.failure.retryAfter)
  }

  lemma OtherTurnKeepsCooling(s: RegState, turn: Turn, providerCooldown: int, key: string, until: Time)
    requires TimersBefore(turn.changes, until) && TimersBefore(turn.during, until)
    requires key != MapKey(turn.provider.id) && CoolingUntilThen(s.providers, key, until)
    ensures CoolingUntilThen(AfterTurn(s, turn, providerCooldown).providers, key, until)
  {
    EarlyTimersKeepCooling(s, turn.changes, key, until);
    var seen := RunFrom(s, turn.changes);
    EarlyTimersKeepCooling(seen, turn.during, key, until);
    if CoolsDown(turn.outcome) {
      CooldownKeepsOthers(RunFrom(seen, turn.during), turn, providerCooldown, key);
    }
  }

  lemma OwnTurnCools(s: RegState, trail: seq<Turn>, turn: Turn, providerCooldown: int)
    requires TimersMatch(s) && Chosen(s, TriedBy(trail), turn) && OnlyTimers(turn.during)
    requires CoolsDown(turn.outcome) && turn.setAt < Deadline(turn, providerCooldown)
    ensures CoolingUntilThen(AfterTurn(s, turn, providerCooldown).providers, MapKey(turn.provider.id),
                             Deadline(turn, providerCooldown))
  {
    ChosenIsNew(s, trail, turn);
    var key := MapKey(turn.provider.id);
    var seen := RunFrom(s, turn.changes);
    TimersKeepReady(seen, turn.during, key, turn.now);
    ChosenHasId(s, trail, turn);
  }

  lemma ChosenHasId(s: RegState, trail: seq<Turn>, turn: Turn)
    requires TimersMatch(s) && Chosen(s, TriedBy(trail), turn)
    ensures TrimSpace(turn.provider.id) != ""
  {
    RunKeepsTimers(s, turn.changes);
    var t := RunFrom(s, turn.changes);
    CollectIsTopTier(turn.listed, TriedBy(trail), turn.now, turn.provider);
    var key :| key in t.providers && t.providers[key] == turn.provider;
    assert KeyMatches(t, key);
    ValidIdHasKey(turn.provider.id);
  }

  predicate QuietUntil(trail: seq<Turn>, until: Time) {
    forall i :: 0 <= i < |trail| ==> TimersBefore(trail[i].changes, until) && TimersBefore(trail[i].during, until)
  }

  /** Every provider whose failure asked for a cooldown is left cooling until its own deadline,
      whatever attempts come after it, as long as no one else touches the registry and the
      deadline has not come. */
  lemma {:induction false} FailedAttemptsStayCooling(
      s: RegState, limit: nat, trail: seq<Turn>, providerCooldown: int, i: nat)
    requires TimersMatch(s) && IsTrail(s, limit, trail, providerCooldown) && i < |trail|
    requires CoolsDown(trail[i].outcome) && trail[i].setAt < Deadline(trail[i], providerCooldown)
    requires QuietUntil(trail, Deadline(trail[i], providerCooldown))
    ensures CoolingUntilThen(AfterTrail(s, trail, providerCooldown).providers, MapKey(trail[i].provider.id),
                             Deadline(trail[i], providerCooldown))
  {
    var init, last := trail[..|trail| - 1], trail[|trail| - 1];
    var before := AfterTrail(s, init, providerCooldown);
    assert TimersBefore(last.changes, Deadline(trail[i], providerCooldown));
    if i == |init| {
      TrailKeepsTimers(s, init, providerCooldown);
      OwnTurnCools(before, init, last, providerCooldown);
    } else {
      assert init[i] == trail[i];
      assert forall k :: 0 <= k < |init| ==> init[k] == trail[k];
      FailedAttemptsStayCooling(s, limit, init, providerCooldown, i);
      TriesEachOnce(s, limit, trail, providerCooldown, i, |init|);
      OtherTurnKeepsCooling(before, last, providerCooldown, MapKey(trail[i].provider.id),
                            Deadline(trail[i], providerCooldown));
    }
  }
}
