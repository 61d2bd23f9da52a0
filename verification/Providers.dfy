/** Runtime providers and time (service/types.go, internal/provider/selector/helpers.go). */
module Providers {
  import opened Prelude

  /** Nanoseconds; 0 is Go's zero time. */
  type Time = nat
  const ZERO_TIME: Time := 0

  datatype ProviderState = Active | Cooling | Disabled | Disconnected | Unset | Invalid

  datatype Provider = Provider(
    id: string,
    labelText: string,
    connectionId: string,
    state: ProviderState,
    priority: int,
    connectedAt: Time,
    lastSeenAt: Time,
    cooldownUntil: Time)

  /** `providerMapKey`, and the pipeline's `normalizeID`. */
  function MapKey(id: string): string {
    Canonical(id)
  }

  datatype Effective = Ready | CoolingUntil(until: Time) | Unavailable

  /** `effectiveProviderState`: a cooldown that has run out counts as active. */
  function EffectiveState(p: Provider, now: Time): Effective {
    match p.state
    case Unset => Ready
    case Active => Ready
    case Cooling =>
      if p.cooldownUntil == ZERO_TIME || p.cooldownUntil <= now then Ready else CoolingUntil(p.cooldownUntil)
    case _ => Unavailable
  }

  /** Readiness never lapses by itself. */
  lemma ReadyStaysReady(p: Provider, now: Time, later: Time)
    requires now <= later && EffectiveState(p, now).Ready?
    ensures EffectiveState(p, later).Ready?
  {
  }
}
