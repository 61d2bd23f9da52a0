# A verified model of the AI Studio Gemini gateway

The gateway takes Gemini HTTP calls and relays them over WebSocket to providers running in
browsers. This project models the parts of it that carry protocols, state machines and
transformations, and proves what they promise. `dafny verify dfyconfig.toml` checks all of it.

| module | component |
|---|---|
| `Origin` | the origin allow-list and its greedy wildcard matcher |
| `RelaySession`, `RelayProgress` | one WebSocket session: pending requests, read loop, cancellation, cleanup; and that its work ends |
| `RelayManager`, `RelayAgreement` | the handshake's identity and the session map; its agreement with the provider registry |
| `Registry` | the provider registry, its cooldown timers and its event buffer |
| `Selector`, `Selectors` | the ready list, selection errors, round robin, fill first, session affinity |
| `SelectionAgrees` | what a selector sees of the registry, with and without its timers |
| `SessionCache`, `BindingKeys` | the TTL cache of session bindings, and which sessions share one |
| `RetryLoop` | the attempt loop shared by streaming and non-streaming calls |
| `Sse`, `SseTail`, `SseCodec`, `SseAdapter`, `SseRoundTrip`, `SseLaws` | the server-sent-event decoder, stream adapter and writer |
| `StreamOutput`, `SseDelivery` | the goroutine that turns upstream events into response chunks; what whole streams deliver |
| `Thinking`, `ThinkingApply` | validation of thinking configurations, reading and writing them |
| `ThinkingOutcome`, `ThinkingReading` | what every request for thinking comes to, and how it is read |
| `Normalize`, `NormalizeProofs`, `NormalizeLaws` | request normalisation |
| `Prelude`, `Json`, `Providers` | text, JSON trees, time and provider records |

How it is built. Objects that the source updates in place are classes; each method is proved against
a function of the old state, and the results below are lemmas about those functions, over all
histories, runs or inputs. The session, the manager with the registry, and the retry loop are
transition systems whose steps use the same functions as the class methods, one step per critical
section, other actors' steps in between. Time is a natural number of nanoseconds with 0 as the zero
time; strings are trimmed over ASCII white space and folded over ASCII letters; JSON is a tree with
unique keys. Other actors, clocks, upstream outcomes, send failures and map order are parameters.

## What the code does not promise

These came out of the proofs; the model follows the code.

- The wildcard loop decides every pattern correctly for exactly the origins with no `*` before their
  last character (`Origin.OriginsDecidedByLoop`). Any other origin is refused by some pattern that
  matches it, but never wrongly admitted.
- Chunking of an event stream is invisible exactly when no cut falls between CR and LF: each such cut
  adds a line feed (`Sse.CleanSplitIsExact`, `Sse.ChunkingIsInvisible`).
- A list of payloads survives writing and decoding, under any chunking, exactly when each is plain:
  non-empty, trimmed, without line breaks, not `[DONE]`, not starting like an event
  (`SseRoundTrip.ListRoundTripExactly`).
- The adapter drops blank chunks before the decoder sees them. On a stream whose chunks open like
  events it makes what the decoder makes exactly if no chunk is blank
  (`SseAdapter.EventStreamsFollowExactly`; for all streams `SseAdapter.AdapterIsDecoderExactly`). A
  chunk that is only an event's closing blank line merges it with the next event
  (`SseAdapter.BlankChunkMergesEvents`), and one that is a blank inside a payload is lost from the
  text: `data: a`, a space, `b` and a blank line reach the client as `ab`
  (`SseAdapter.BlankChunkCorruptsText`).
- Any message, the cleanup error included, is dropped when a request's 16-slot buffer is full, and
  the sender is not told; without drops delivery is faithful, with them what is left is still in order
  (`RelaySession.DeliveryIsFaithful`, `RelaySession.DeliveryIsInOrder`). At most one terminal message
  enters a channel. One more message, not terminal, may follow it, and only if the terminal one is
  cleanup's error: the read loop looked the request up before
  (`RelaySession.OneMessageMayFollow`, and a run that does it, `RelaySession.ChunkAfterError`).
- A handshake swaps the session map first and tells the registry later. The two agree on a provider
  after its last announcement exactly when that one is timely: the announced session is still the
  map's, or the map has none and the session's own Disconnect is still to come
  (`RelayAgreement.AnnouncementDecides`). Two handshakes of one provider whose announcements cross
  leave the registry with the wrong connection, and a session closed before it is announced leaves an
  entry for a provider that is gone; neither entry goes away before the provider's next handshake
  (`RelayAgreement.CrossedHandshakesDisagree`, `RelayAgreement.ClosedBeforeAnnounced`,
  `RelayAgreement.StrayStays`). A session closed before the swap enters the map and cannot be closed
  again (`RelayAgreement.OnlyLateSwapsBringDead`, `RelayAgreement.DeadStays`).
- An identity the registry refuses would leave a live session it does not know
  (`RelayAgreement.HandshakeNeedsAcceptance`). The gateway as wired has no such identity: whatever its
  extractor lets through is accepted (`RelayManager.ExtractedIsAccepted`). Another provider factory
  can answer with one (`RelayAgreement.ForeignIdentityIsRefused`).
- An accepted thinking config obeys the model's limits except for exactly these requests: "auto" at a
  level-only model without dynamic thinking and without `medium`, which is accepted as `medium`
  (`Thinking.AutoBecomesMedium`), a budget or level at a model that
  declares no capability, and whatever ends as a budget where a minimum is configured with the maximum
  left at 0 (`Thinking.AcceptedConfigsRespectModel`, `Thinking.NoCapabilityChecksNothing`). In that
  last case a budget comes out as the minimum or as 0 (`Thinking.EmptyRangeBudget`).
- Applying thinking twice differs from once exactly when, without a model suffix, what was written is
  not read back to the same effect (`ThinkingApply.ApplyTwice`). With official levels and a range that
  is not degenerate this cannot happen (`ThinkingApply.ApplySettles`). `xhigh` and `max` are sent as
  HIGH and read back as `high`; whether HIGH is sent again is settled by the list of levels, and in
  strict mode a model without `high` refuses its own output (`ThinkingApply.TopLevelAgain`): the request
  for such a level alone does it (`ThinkingApply.TopLevelRefusesItself`).
- Two models can share a session's binding, for some two session IDs, exactly if one model's name goes
  on after the other with what can be read as the separator of the key: `a` and `a::b`, for instance
  (`BindingKeys.ModelsShareKeysExactly`).
- The decoder's second try at JSON when it is flushed never applies (`SseLaws.FlushReadsLastFrame`).
- "auto" is the middle of the model's range only while its bounds add up within 64 bits
  (`ThinkingOutcome.AutoOverflows`).

## Model

| member | source | states |
|---|---|---|
| Prelude.TrimIsTrimmed | internal/wsrelay/manager.go:463-465 | Trimming yields a slice of its input with no blank at either end |
| Prelude.CanonicalTwice | internal/wsrelay/manager.go:463-465 | The lower-cased trimmed key of a key is that key, so IDs, levels and modes can be looked up by either |
| Origin.MatchGreedy | internal/wsrelay/origin.go:115-143 | The loop terminates by (pattern length minus star, origin length minus match index, origin length minus position) and decides `Greedy` |
| Origin.GreedyIsSound | internal/wsrelay/origin.go:119-143 | From any loop state acceptance means that the rest of the pattern, or the pattern from the last star, matches the rest of the origin |
| Origin.GreedyDecidesMatches | internal/wsrelay/origin.go:115-143 | Whatever is accepted matches; an origin without `*` before its end is accepted exactly when the pattern, each star standing for any string, matches the whole of it |
| Origin.OriginsDecidedByLoop | internal/wsrelay/origin.go:115-143 | The origins on which the loop agrees with every pattern's meaning are exactly those with no `*` before their last character |
| Origin.StarInsideOriginDefeatsLoop | internal/wsrelay/origin.go:119-137 | For all u and non-empty v, the pattern u* matches the origin u*v and the loop refuses it |
| Origin.MatchOriginPattern | internal/wsrelay/origin.go:104-144 | After normalising both sides: true only if both are non-empty and match; exactly then for an origin with no star before its end |
| Origin.NormalizeKeepsStarAtEnd | internal/wsrelay/origin.go:147-151 | Normalising brings no star before the end of an origin that has none there |
| Origin.SameOrigin | internal/wsrelay/origin.go:147-151 | Two origins are the same exactly if they differ in surrounding blanks, case and one slash at the end only |
| Origin.OriginValidator.constructor | internal/wsrelay/origin.go:23-47 | The exact set, the pattern list and the allow-any flag hold exactly the configured entries, blank ones dropped; a blank mode means allow-missing |
| Origin.OriginValidator.AddEntry | internal/wsrelay/origin.go:33-47 | One more entry extends exactly the table it belongs to |
| Origin.OriginValidator.IsOriginAllowed | internal/wsrelay/origin.go:83-98 | Admits only a non-empty origin that is listed or that some pattern allows, and every one of these with no star before its end |
| Origin.OriginValidator.Check | internal/wsrelay/origin.go:49-79 | A handshake is let in only if the policy over the configured entries allows it, and every origin it allows is let in unless a star stands before its end; a missing request passes unless strict |
| Origin.TablesMeanEntries | internal/wsrelay/origin.go:33-47 | Looking up the tables is asking each configured entry |
| RelaySession.PendingRequest.TrySend | internal/wsrelay/session.go:22-38 | False exactly for a closed request, which is never sent on; otherwise true, and the message goes in unless 16 are waiting, when it is dropped without telling the sender |
| RelaySession.PendingRequest.Close | internal/wsrelay/session.go:41-51 | The channel is closed at most once |
| RelaySession.Session.Register | internal/wsrelay/session.go:230-236 | An ID in use is refused, otherwise exactly this entry is added |
| RelaySession.Session.Unlist | internal/wsrelay/session.go:239-243 | An entry is removed only while it still is this request; the result is the token to close it |
| RelaySession.Session.Lookup | internal/wsrelay/session.go:127-133 | Finds the request; an http_response, a stream_end or an error takes it out, any other kind leaves it in |
| RelaySession.Session.Harvest | internal/wsrelay/session.go:287-292 | Takes every entry and leaves none |
| RelaySession.Session.Cleanup | internal/wsrelay/session.go:274-313 | Once only: flags the session closed, empties the map, and sends every harvested request the error before closing it; a second call changes nothing |
| RelaySession.NotifyAll | internal/wsrelay/session.go:294-305 | Each harvested request gets one error under its own ID and is closed |
| RelaySession.StepKeeps | internal/wsrelay/session.go:109-313 | Every interleaved step of request, dispatch, watcher and cleanup keeps the invariant |
| RelaySession.RunsKeepInv | internal/wsrelay/session.go:109-313 | The invariant holds after every run |
| RelaySession.NoOrphans | internal/wsrelay/session.go:127-141 | In every run an open channel is in `pending` or owned by an actor about to close it, a pending one is open, and at most one holds the token |
| RelaySession.CleanupLeavesNothingOpen | internal/wsrelay/session.go:278-305 | Once cleanup is over and no step is in flight, `pending` is empty and every channel closed |
| RelayProgress.InFlightStepsAreEnabled | internal/wsrelay/session.go:109-313 | Until no call, dispatch, watcher or cleanup is in flight, some actor's own next step is enabled and uses up work, so no run is stuck |
| RelayProgress.OwnStepsUseWork | internal/wsrelay/session.go:109-313 | Every step an actor takes by itself lowers the measure |
| RelayProgress.InFlightWorkEnds | internal/wsrelay/session.go:109-313 | From any run the actors' own steps alone bring the session to rest, within a bound known at the start |
| RelayProgress.OwnRunsAreBounded | internal/wsrelay/session.go:109-313 | Whichever own steps are taken, there are never more of them than that bound |
| RelaySession.OneTerminalAndNoPanic | internal/wsrelay/session.go:22-51 | Over any run at most one terminal message enters a channel and none is sent on or closed again after closing |
| RelaySession.EndingMessagesEndRequests | internal/wsrelay/message.go:27-33 | In any run, once the read loop has looked up an http_response, stream_end or error its request is no longer pending, and whenever the loop is idle again its channel is closed |
| RelaySession.OtherMessagesKeepRequests | internal/wsrelay/session.go:127-141 | Any other message, looked up and sent, leaves the map and every channel's flags as they were |
| RelaySession.DeliveryIsFaithful | internal/wsrelay/session.go:286-304 | With nothing dropped, the channel up to its first terminal message is a prefix of that ID's arrivals, possibly followed by exactly the error of the cleanup that harvested it; before cleanup has a cause it is a prefix alone |
| RelaySession.DeliveryIsInOrder | internal/wsrelay/session.go:22-38 | Whatever was dropped, the channel up to its first terminal message is a subsequence of that ID's arrivals, possibly followed by cleanup's error; before cleanup has a cause a subsequence alone |
| RelaySession.OneMessageMayFollow | internal/wsrelay/session.go:127-141 | In any run at most one message follows the first terminal one, it is not terminal, and then the terminal one is cleanup's error |
| RelaySession.HeldMessageFollowsError | internal/wsrelay/session.go:127-141 | Whenever the read loop holds an ordinary message for a listed request with room for two, the run can go on so that cleanup's error goes in before it |
| RelaySession.ChunkAfterError | internal/wsrelay/session.go:127-141 | For any ID, text and cause some run leaves cleanup's error and then an ordinary chunk in a channel |
| Registry.Registry.constructor | internal/provider/registry/registry.go:135-153 | No provider and no timer |
| Registry.Registry.Register | internal/provider/registry/registry.go:187-258 | Refuses exactly the identities normalisation refuses (an invalid ID, no connection, a label over 256 bytes); the same connection keeps its age and its later last-seen time, any other replaces the entry, and the timer follows the new state |
| Registry.Registry.Disconnect | internal/provider/registry/registry.go:262-313 | Removes the entry and its timer exactly when ID and, unless blank, connection match |
| Registry.Registry.Touch | internal/provider/registry/registry.go:316-342 | Under the same match sets only the last-seen time |
| Registry.Registry.SetState | internal/provider/registry/registry.go:346-414 | Cooling and invalid states are refused, disconnected means disabled, and the cooldown and its timer go |
| Registry.Registry.SetCooldown | internal/provider/registry/registry.go:418-483 | A deadline that is zero or not in the future activates; a later one cools and re-arms the timer for it |
| Registry.Registry.HandleCooldownTimer | internal/provider/registry/registry.go:655-703 | Acts only on a cooling entry with the expected deadline that has passed |
| Registry.Registry.SyncCooldownTimer | internal/provider/registry/registry.go:707-723 | A cooling state without a deadline becomes active; otherwise the timer matches the state |
| Registry.Registry.ReplaceCooldownTimer | internal/provider/registry/registry.go:727-744 | At most one timer per key, for the given deadline |
| Registry.Registry.StopCooldownTimer | internal/provider/registry/registry.go:748-753 | The key has no timer and nothing else changes |
| Registry.Registry.List | internal/provider/registry/registry.go:513-528 | Every registered provider exactly once, higher priority first and then by ID |
| Registry.StepIsLocal | internal/provider/registry/registry.go:187-753 | An operation touches only the entry and timer of its own key |
| Registry.ApplyKeepsTimers | internal/provider/registry/registry.go:187-753 | Every operation keeps: a timer is armed exactly for the cooling providers, with their deadline, and every entry sits under its key with a valid ID |
| Registry.TimersAlwaysMatch | internal/provider/registry/registry.go:655-753 | That holds in every state a registry can reach |
| Registry.TimersAreInvisible | internal/provider/registry/registry.go:655-703 | With a clock that does not go back and timers firing late, stale, twice or never, every provider has, now and at every later instant, the identity, label, priority, age and effective state of a registry without timers |
| SelectionAgrees.TimersDoNotChangeSelection | internal/provider/selector/helpers.go:22-96 | Selecting from a registry's list and from that of a registry without timers, now or at any later instant, gives the same providers and connections in the same order, or the same error |
| SelectionAgrees.RegistryListsDistinctIds | internal/provider/registry/registry.go:513-528 | The list of any reachable registry names no provider twice, whatever the case of its ID |
| SelectionAgrees.OrderIsUnique | internal/provider/registry/registry.go:809-827 | Providers with distinct IDs have only one order the list can be in |
| Registry.EventRingBuffer.Add | internal/provider/registry/registry.go:63-85 | What is kept is always the newest 64 of all events ever added |
| Registry.EventRingBuffer.Recent | internal/provider/registry/registry.go:88-113 | The newest events first, counted back from the last one ever added |
| RelayManager.Manager.Install | internal/wsrelay/manager.go:389-394 | The new session replaces exactly the entry under its key, which is handed back |
| RelayManager.Manager.HandleSessionClosed | internal/wsrelay/manager.go:417-452 | Only the session the map points at is removed and reported |
| RelayManager.Manager.HandleWebsocket | internal/wsrelay/manager.go:319-403 | A refused identity changes nothing; otherwise the map holds the new session and the registry has registered the completed provider, and closing the displaced session reports nothing |
| RelayManager.Manager.Stop | internal/wsrelay/manager.go:145-164 | Every session is closed and reported exactly once, and none is left |
| RelayManager.ExtractedIsAccepted | internal/provider/registry/identity.go:75-163 | Every identity the extractor lets through, with the manager's defaults and generated IDs, is accepted by the registry's normalisation and stored as it is |
| RelayManager.GeneratedIdIsValid | internal/common/id.go:13-39 | A generated provider ID is a valid one, without blanks around it |
| RelayAgreement.StepIsSound | internal/wsrelay/manager.go:319-452 | Every interleaved step of handshakes, closures and callbacks keeps connections apart, every registry entry owned by a past session, and no session in the map reported closed |
| RelayAgreement.NamesItsOwn | internal/provider/registry/registry.go:276-294 | A callback matches a registry entry only if it comes from that entry's own session |
| RelayAgreement.StepKeepsAgreement | internal/wsrelay/manager.go:383-452 | A step of any kind keeps relay and registry in agreement on every provider without a handshake under way, exactly unless it is a last announcement out of time |
| RelayAgreement.AnnouncementDecides | internal/wsrelay/manager.go:385-403 | Whatever came before, an announcement leaves its provider agreed on exactly when it is timely |
| RelayAgreement.UndividedIsInTime | internal/wsrelay/manager.go:385-403 | Handshakes that nothing comes between are always timely |
| RelayAgreement.RelayAndRegistryAgree | internal/wsrelay/manager.go:385-403 | In every state of a run with timely announcements, for a provider without a handshake under way: a live session's connection is the registry's, and a registry entry has a live session exactly when its own Disconnect is not still on its way |
| RelayAgreement.QuietMeansEqual | internal/wsrelay/manager.go:417-452 | After such a run, with every announcement and callback delivered, both know the same providers and connections |
| RelayAgreement.LateCallbacksChangeNothing | internal/provider/registry/registry.go:276-339 | After such a run, with no handshake of the provider under way, Disconnect and Touch callbacks of any session that is not the map's and whose Disconnect is not the one on its way leave the registry as it is, however late and whatever became of its replacement |
| RelayAgreement.HandshakeNeedsAcceptance | internal/wsrelay/manager.go:401-403 | Whatever the provider factory answers, an undivided handshake leaves its provider agreed on exactly when the registry accepts the answer |
| RelayAgreement.ForeignIdentityIsRefused | internal/provider/registry/identity.go:119-123 | An ID with a blank in it, which the extractor refuses, leaves a session in the map that the registry does not know |
| RelayAgreement.UntimelyLeavesStray | internal/wsrelay/manager.go:385-403 | An untimely announcement leaves an entry without a live session or a Disconnect to come, or, if that Disconnect is to come, takes the entry of the live session |
| RelayAgreement.StrayStays | internal/provider/registry/registry.go:262-342 | No closing, callback or registry operation removes such an entry before the provider's next handshake |
| RelayAgreement.CrossedHandshakesDisagree | internal/wsrelay/manager.go:389-403 | For any two handshakes of one provider under way, swapped in one order and announced in the other, the map ends with the second session and the registry with the first one's connection |
| RelayAgreement.TwoHandshakesCanMeet | internal/wsrelay/manager.go:383 | Any two accepted identities with different connection IDs can be under way at once |
| RelayAgreement.ClosedBeforeAnnounced | internal/wsrelay/manager.go:417-452 | Any session closed and reported between its swap and its announcement is registered although it is gone |
| RelayAgreement.OnlyLateSwapsBringDead | internal/wsrelay/session.go:71-89 | A closed session gets into the map exactly by a swap after its closing |
| RelayAgreement.DeadStays | internal/wsrelay/session.go:274-278 | It stays there until the provider's next handshake, since a session is cleaned up only once |
| Selector.CollectReadyProviders | internal/provider/selector/helpers.go:22-72 | One pass, sort and compaction give the ready list and the summary of what was passed over |
| Selector.CompactTopTier | internal/provider/selector/helpers.go:64-71 | Compacting into the front of the same array keeps exactly the best priority, in order |
| Selector.BeforeIsStrictOrder | internal/provider/selector/helpers.go:136-157 | The comparison is a strict weak order |
| Selector.StableSortSorts | internal/provider/selector/helpers.go:136-157 | The result is sorted and a permutation |
| Selector.StableSortKeepsTies | internal/provider/selector/helpers.go:136-157 | Equal elements keep their order |
| Selector.CollectIsTopTier | internal/provider/selector/helpers.go:22-72 | The ready list is sorted and holds exactly the untried, effectively active providers that none of these outranks; it is empty only if there is none |
| Selector.CollectIgnoresOrder | internal/provider/selector/helpers.go:22-72 | With case-insensitively distinct IDs the input order plays no part |
| Selector.CollectAgain | internal/provider/selector/types.go:238 | Collecting a ready list again at any later time with nothing tried returns it unchanged |
| Selector.OlderComesFirst | internal/provider/selector/helpers.go:136-157 | Of two ready providers the first has been connected for longer, or as long with an ID that is not greater |
| Selector.CooldownErrorMeans | internal/provider/selector/helpers.go:75-96 | Selection reports a cooldown exactly when something is untried and all of it is cooling, and then a positive delay |
| Selector.RetryAfterIsExact | internal/provider/selector/helpers.go:75-96 | Selecting again over the same providers succeeds at exactly the times the delay has passed, hence from the rounded-up header value on |
| Selector.HeaderCovers | internal/httpapi/middleware/middleware.go:271-283 | The header covers the delay and exceeds it by less than a second |
| Providers.ReadyStaysReady | internal/provider/selector/helpers.go:114-134 | An effectively active provider stays so as time passes |
| Selectors.RoundRobinSelector.constructor | internal/provider/selector/types.go:75-89 | A limit that is not positive means 4096 |
| Selectors.RoundRobinSelector.Select | internal/provider/selector/types.go:97-130 | Picks from the ready list at the key's cursor modulo its length and advances only that cursor; refuses only an empty list, with its error |
| Selectors.RoundRobinSelector.Advance | internal/provider/selector/types.go:109-120 | Uses and moves the key's cursor, wrapping at 2147483640 and discarding the map when a new key exceeds its limit |
| Selectors.CursorsStayBounded | internal/provider/selector/types.go:109-120 | In every reachable state at most maxKeys cursors, none above 2147483640 |
| Selectors.PicksAreConsecutive | internal/provider/selector/types.go:116-122 | In a window without reset or wrap the indices for a key count up by one, whatever other keys do |
| Selectors.RoundRobinIsFair | internal/provider/selector/types.go:97-130 | Over such a window with an unchanged ready list two providers' pick counts differ by at most one |
| Selectors.FillFirstSelect | internal/provider/selector/types.go:152-167 | Answers with a ready provider that no other comes before |
| Selectors.BindingKeyFacts | internal/provider/session/cache.go:196-209 | A binding key is trimmed, not empty, and ignores blanks around the session ID |
| BindingKeys.SessionsAreSeparate | internal/provider/session/cache.go:196-209 | Under one model two sessions share a key only if they are the same but for blanks |
| BindingKeys.ModelsAreSeparate | internal/provider/session/cache.go:196-209 | One session has a key of its own for every model, in any case |
| BindingKeys.ModelsShareKeysExactly | internal/provider/session/cache.go:196-209 | Which different models can share a key for some two sessions |
| Selectors.SessionAffinitySelector.Select | internal/provider/selector/types.go:206-253 | With the clock read anew at each step and other calls using the cache in between: never answers with an unready provider and never fails while one is ready, whatever the cache holds; a ready bound provider wins and is refreshed, any other binding is dropped and the answer bound, and nothing else in the cache changes |
| Selectors.SessionAffinitySelector.HandleProviderEvent | internal/provider/selector/types.go:257-284 | Exactly the events for a provider that left, was replaced or stopped being active drop its bindings |
| Selectors.Strategy.Select | internal/provider/selector/types.go:36-39 | Every implementation of the interface answers with a ready provider of the top tier, or with the selection error when there is none |
| Selectors.NewSelector | internal/provider/selector/types.go:51-64 | The trimmed, lower-cased name picks fill first or session affinity, anything else round robin |
| SessionCache.Cache.Set | internal/provider/session/cache.go:97-110 | Binds the trimmed key for one TTL; a blank key or provider changes nothing |
| SessionCache.Cache.GetAndRefresh | internal/provider/session/cache.go:71-94 | Finds a binding not past its expiry and extends it, otherwise deletes it |
| SessionCache.Cache.Invalidate | internal/provider/session/cache.go:113-121 | Removes exactly that key |
| SessionCache.Cache.InvalidateProvider | internal/provider/session/cache.go:124-137 | Removes exactly the bindings to that provider, ignoring case |
| SessionCache.Cache.Cleanup | internal/provider/session/cache.go:183-192 | Keeps exactly the entries not past their expiry |
| SessionCache.CleanupIsInvisible | internal/provider/session/cache.go:183-192 | Two histories that differ only in cleanup steps answer every later lookup alike |
| SessionCache.LookupReturnsBinding | internal/provider/session/cache.go:71-137 | A lookup returns a provider exactly when the last binding to it was set or refreshed within the TTL and not ended since |
| RetryLoop.ExecuteWithRetry | internal/pipeline/pipeline.go:600-667 | With any of the strategies and whatever others do to the registry between and during attempts, the loop follows an admissible trail of attempts to one of its ends; the reply is the answer, the last upstream error, or a selection error if nothing was attempted, and every failed attempt's cooldown is in the registry left behind |
| RetryLoop.Prepare | internal/pipeline/pipeline.go:1018-1032 | With any of the strategies, the selector sees the registry as others have left it by then |
| RetryLoop.SelectProvider | internal/pipeline/pipeline.go:1018-1032 | An empty registry refuses; otherwise the contract every strategy meets, over the registry's providers |
| RetryLoop.ApplyProviderCooldown | internal/pipeline/pipeline.go:1277-1307 | Only an error that asks for it cools the provider, for the longer of the configured time and Retry-After, five minutes if neither is positive |
| RetryLoop.AttemptsAreBounded | internal/pipeline/pipeline.go:1309-1326 | Whatever happens to the registry between and during attempts, a call makes no more of them than there were candidates at the start, each at a provider of its own |
| RetryLoop.OnlyRetryableTurnsGoOn | internal/pipeline/pipeline.go:1262-1275 | Every attempt that another follows failed, was retryable and had a live client |
| RetryLoop.RetryableTurnsGoOn | internal/pipeline/pipeline.go:1262-1275 | A last attempt that failed so, with attempts left, ends only in a refused selection |
| RetryLoop.OtherTurnsEnd | internal/pipeline/pipeline.go:631-666 | Any other last attempt ends the call, as answered if it succeeded |
| RetryLoop.FailedAttemptsStayCooling | internal/pipeline/pipeline.go:1277-1307 | Every provider whose failure asked for a cooldown is left cooling until its own deadline, whatever attempts follow, while no one else touches the registry |
| RetryLoop.TriesEachOnce | internal/pipeline/pipeline.go:616-634 | No two attempts of a call go to the same provider |
| RetryLoop.FailedCallTriedAllReady | internal/pipeline/pipeline.go:239-358 | With the registry changed only by this loop and its timers, all failures retryable and the context live, a failed call has tried every provider ready at the start |
| RetryLoop.CooldownIsHonoured | internal/pipeline/pipeline.go:1298-1306 | A cooled provider is selectable again exactly from a deadline that is never before the time its upstream asked for |
| Sse.NormalizeAppend | internal/pipeline/stream_adapter.go:229-236 | Normalising in two pieces is normalising the whole, but for one extra line feed where a CR LF pair is cut |
| Sse.DrainRebuilds | internal/pipeline/stream_adapter.go:119-134 | Cutting into frames loses nothing: frames rejoined with blank lines plus the leftover are the input |
| Sse.DrainResumes | internal/pipeline/stream_adapter.go:119-134 | Cutting can stop and resume anywhere, with the leftover as its only memory |
| Sse.CleanSplitIsExact | internal/pipeline/stream_adapter.go:229-236 | Chunkwise normalisation equals normalising the whole exactly for splits that never fall inside CR LF |
| Sse.FeedAllIsDrain | internal/pipeline/stream_adapter.go:111-134 | From any point of a stream, feeding chunk by chunk is cutting the whole stream so far |
| Sse.ChunkingIsInvisible | internal/pipeline/stream_adapter.go:111-134 | Frames and leftover are those of the undivided stream exactly for such splits, and then rebuild the newline-normalised input |
| SseCodec.ParseSseFrame | internal/pipeline/stream_adapter.go:165-216 | The loop over a frame's lines yields its data lines joined, a tolerated JSON line, or nothing |
| SseLaws.FrameSays | internal/pipeline/stream_adapter.go:165-216 | A frame that looks like an event says what its data lines carry, joined by line feeds; a [DONE] before makes it say nothing, and a JSON line before any data is all it says |
| SseLaws.LinesComeBack | internal/pipeline/stream_adapter.go:196-215 | Splitting a text into lines and joining them loses nothing |
| SseCodec.ParseFrameIsTrimmed | internal/pipeline/stream_adapter.go:165-216 | A parsed payload is trimmed and never empty |
| SseCodec.SseEventDecoder.Feed | internal/pipeline/stream_adapter.go:111-134 | Emits the payloads of exactly the frames completed so far and keeps the rest |
| SseCodec.SseEventDecoder.Flush | internal/pipeline/stream_adapter.go:137-158 | Takes the leftover as one last frame, falling back to raw JSON, and empties the buffer |
| SseLaws.FlushReadsLastFrame | internal/pipeline/stream_adapter.go:137-158 | What is left is read exactly as one more frame; the second try at JSON never applies |
| SseCodec.GeminiStreamAdapter.WrapAll | internal/pipeline/stream_adapter.go:77-93 | Frames trimmed, blank ones left out |
| SseCodec.GeminiStreamAdapter.Adapt | internal/pipeline/stream_adapter.go:34-64 | Passes through in raw mode, feeds the decoder when something is buffered or the payload looks like an event, otherwise is one payload |
| SseCodec.GeminiStreamAdapter.Flush | internal/pipeline/stream_adapter.go:70-75 | Empties the decoder and wraps what it flushed |
| SseLaws.RawStreamPasses | internal/pipeline/stream_adapter.go:34-44 | In raw mode every chunk but the empty ones passes unchanged and nothing is held back |
| SseLaws.JsonChunksPass | internal/pipeline/stream_adapter.go:46-64 | Chunks that are whole JSON texts pass one by one, with nothing held back |
| SseCodec.AdaptAgreesWithFeed | internal/pipeline/stream_adapter.go:34-64 | If no chunk is blank and one arriving on a blank buffer looks like an event, the adapter's output and buffer are the decoder's |
| SseAdapter.BlankChunkMovesBuffer | internal/pipeline/stream_adapter.go:46-49 | On an open event a blank chunk always changes the decoder's buffer, so dropping it is always seen |
| SseAdapter.EventStreamsFollowExactly | internal/pipeline/stream_adapter.go:34-64 | On a stream whose chunks open like events, the adapter's output and buffer are the decoder's after every chunk exactly if no non-empty chunk is blank |
| SseAdapter.AdapterIsDecoderExactly | internal/pipeline/stream_adapter.go:34-64 | On any stream, exactly if every chunk is harmless: empty, not blank inside an open event, and at a start either looking like an event or one whole event, its normalised bytes ending with whole blank lines followed by the buffer's own text |
| SseTail.BufferComesBack | internal/pipeline/stream_adapter.go:111-134 | A chunk leaves the decoder's buffer as it was exactly if the text ends with an even, positive number of line feeds followed by what the buffer held |
| SseTail.RestComesBack | internal/pipeline/stream_adapter.go:119-134 | For any text, cutting leaves exactly a given tail without blank lines if and only if what comes before it is empty or ends with an even, positive number of line feeds |
| SseAdapter.BlankChunkCorruptsText | internal/pipeline/stream_adapter.go:46-49 | For all such a and b, the chunks `data: a`, a space, `b` and a blank line are `a b` to the decoder and `ab` from the adapter |
| SseCodec.ResponseWriter.WriteSsePayload | internal/httpapi/gemini/handler.go:439-472 | An event is passed on with the blank line it lacks, anything else wrapped in one data line, blanks dropped |
| SseLaws.WrittenIsWholeEvent | internal/httpapi/gemini/handler.go:439-472 | Whatever is not blank is written whole and ends in a blank line, which is not repeated if it is there |
| SseRoundTrip.PlainListRoundTrip | internal/httpapi/gemini/handler.go:439-472 | Any list of plain payloads, written, cut into arbitrary chunks and fed to the decoder, comes back as that list with nothing left |
| SseRoundTrip.ListRoundTripExactly | internal/httpapi/gemini/handler.go:439-472 | A list comes back from its frames, under any chunking, exactly when every payload of it is plain |
| SseRoundTrip.RoundTripExactlyPlain | internal/httpapi/gemini/handler.go:439-472 | A single payload survives exactly when it is plain |
| SseRoundTrip.DecodedIsClean | internal/pipeline/stream_adapter.go:165-216 | Whatever is read from any wire text is trimmed, not empty and free of CR |
| SseAdapter.BlankChunkMergesEvents | internal/pipeline/stream_adapter.go:46-49 | For all plain a and b, a lone blank-line chunk between them keeps them apart in the decoder and merges them in the adapter |
| StreamOutput.StreamPump.SendChunk | internal/pipeline/pipeline.go:764-771 | A chunk is sent or lost, and the result says which |
| StreamOutput.StreamPump.ForwardAdapted | internal/pipeline/pipeline.go:800-823 | Sends in order up to and including the first terminal payload, or a prefix of that when a send is lost |
| StreamOutput.StreamPump.ForwardPayload | internal/pipeline/pipeline.go:825-827 | Goes on only if everything was sent and nothing was terminal |
| StreamOutput.StreamPump.Close | internal/pipeline/pipeline.go:878-886 | The flush is sent first and the error after it |
| StreamOutput.StreamPump.ProcessResponse | internal/pipeline/pipeline.go:909-923 | The body, then the flush unless the body was terminal |
| StreamOutput.StreamPump.Process | internal/pipeline/pipeline.go:874-950 | One event sends what the specification of the whole remaining stream puts first |
| StreamOutput.StreamPump.Run | internal/pipeline/pipeline.go:953-1003 | The whole goroutine sends the specified output, or a truncation of it; at most one error chunk is sent and it is last |
| StreamOutput.AnyRunEndsWithItsError | internal/pipeline/pipeline.go:874-1003 | However sends are lost, an error chunk comes at most once and last |
| StreamOutput.StreamEndDeliversCutOutput | internal/pipeline/pipeline.go:925-928 | If stream_end is the first event that closes the stream, whatever follows it, the output is every Adapt followed by Flush, cut just after the first logically terminal payload |
| StreamOutput.ResponseDeliversCutOutput | internal/pipeline/pipeline.go:909-923 | If a one-shot response is the first event that closes the stream, the output is every Adapt, the response's own, and Flush, cut just after the first logically terminal payload |
| StreamOutput.BrokenStreamDeliversError | internal/pipeline/pipeline.go:874-992 | If the stream breaks off before a terminal payload, everything adapted and the flush are delivered, cut as ever, and then the error: a failed event of any kind as transport error, an error message as the upstream's, an idle timeout as such, a cancelled context as none |
| StreamOutput.ClosedChannelDeliversAll | internal/pipeline/pipeline.go:962-966 | A closed channel delivers the adapted payloads and the flush, cut as ever, and no error |
| StreamOutput.OpenEventsDeliver | internal/pipeline/pipeline.go:874-950 | Events that keep the stream open deliver the adapter's output up to the first terminal payload, and without one whatever the rest of the stream delivers comes next |
| StreamOutput.TerminalPayloadEndsOutput | internal/pipeline/pipeline.go:800-827 | With a terminal payload before any closing event the output is cut just after it, whatever comes next |
| SseDelivery.EventStreamReachesClient | internal/pipeline/pipeline.go:953-1003 | Plain payloads written as events, cut into any chunks of which none is blank and each after a complete event opens as one, are sent to the client as they were up to the first terminal one, even if the last event lacks its blank line |
| SseDelivery.ClientReadsWhatProviderWrote | internal/httpapi/gemini/handler.go:439-472 | Written as events again, under any chunking, they are what the client reads |
| SseDelivery.RawStreamReachesClient | internal/pipeline/pipeline.go:953-1003 | In raw mode the client is sent every non-empty chunk up to the first terminal one |
| StreamOutput.AdaptedNeverEmpty | internal/pipeline/pipeline.go:802-804 | No empty payload reaches the sender |
| Thinking.LevelBudgetLevel | internal/thinking/thinking.go:471-497 | A level's budget stands for that level again, except that max becomes xhigh |
| Thinking.ClampLevel | internal/thinking/thinking.go:808-837 | The best-so-far loop computes the stand-in level |
| Thinking.ClampedIsNearest | internal/thinking/thinking.go:808-837 | It is the nearest listed standard level, the lower of two as near, and listed exactly when some standard level is |
| Thinking.ValidateConfig | internal/thinking/thinking.go:349-464 | The stepwise rewriting of the local config is the composition of its stages, with the same refusals |
| Thinking.AcceptedConfigsRespectModel | internal/thinking/thinking.go:349-464 | For every model configuration accepts, an accepted budget lies in [Min, Max], a level is listed, auto needs dynamic thinking, and none has budget 0 or Min, for exactly the requests outside three named families |
| Thinking.AutoBecomesMedium | internal/thinking/thinking.go:349-464 | For every level-only model without dynamic thinking and medium, auto is accepted, strict or not, as the unlisted medium |
| Thinking.NoCapabilityChecksNothing | internal/thinking/thinking.go:715-737 | A model with neither budgets nor levels accepts everything, a budget or level unchanged, and exactly these two break its limits |
| Thinking.EmptyRangeBudget | internal/thinking/thinking.go:349-464 | With a minimum and the maximum left at 0 every budget is refused in strict mode, otherwise raised to the minimum from below and turned into 0 from above |
| ThinkingOutcome.BudgetOutcome | internal/thinking/thinking.go:775-805 | A budget outside the range is refused by a strict check and otherwise becomes the nearest one in the range |
| ThinkingOutcome.LevelAtBudgetModel | internal/thinking/thinking.go:349-464 | At a model with budgets only a level becomes the nearest budget to the one it stands for, and is never refused; an unknown word is |
| ThinkingOutcome.LevelOutcome | internal/thinking/thinking.go:349-464 | A listed level is granted; another is refused by a strict check and otherwise becomes the nearest listed one |
| ThinkingOutcome.BudgetAtLevelModel | internal/thinking/thinking.go:477-497 | At a model with levels only a budget becomes the listed level nearest to the least one that covers it |
| ThinkingOutcome.OffOutcome | internal/thinking/thinking.go:349-464 | Off is budget 0 or the minimum, with the first listed level |
| ThinkingOutcome.AutoOutcome | internal/thinking/thinking.go:349-464 | Automatic stays where allowed and is otherwise medium, the middle of the range, the minimum or off |
| ThinkingOutcome.AutoOverflows | internal/thinking/thinking.go:349-464 | Where the bounds add up beyond 64 bits it is off or the minimum instead |
| ThinkingOutcome.UnsupportedOutcome | internal/thinking/thinking.go:349-360 | Without any support only off is accepted |
| ThinkingApply.ConfigIsExtracted | internal/thinking/thinking.go:200-242 | Suffix and body extraction yield only the shapes validation expects |
| ThinkingReading.SuffixIsSplit | internal/thinking/thinking.go:125-144 | What stands in the last brackets at the end of a model's name is its suffix |
| ThinkingReading.NoSuffixWithoutBrackets | internal/thinking/thinking.go:125-137 | A name that does not end in brackets has no suffix |
| ThinkingReading.WordSuffix | internal/thinking/thinking.go:160-190 | A suffix names a level, off or automatic in any case |
| ThinkingReading.NumberSuffix | internal/thinking/thinking.go:146-158 | A suffix that is a decimal number is a budget, 0 is off, and a number beyond 64 bits counts for nothing |
| ThinkingReading.SuffixWins | internal/thinking/thinking.go:200-242 | With a suffix the body plays no part |
| ThinkingReading.LevelIsRead | internal/thinking/thinking.go:200-242 | A level in the body wins over a budget, and its own name over the snake-case one |
| ThinkingReading.BudgetIsRead | internal/thinking/thinking.go:200-242 | Without a level a budget is read, 0 as off and -1 as automatic; without either there is no request |
| ThinkingReading.DecimalIsRead | internal/thinking/thinking.go:200-242 | A number is read the same from JSON and from a string |
| ThinkingApply.OfficialRoundTrip | internal/thinking/thinking.go:87-106 | The API spelling of an official level is one of the four and is read back as that level |
| ThinkingApply.ValidatedWrites | internal/thinking/thinking.go:349-464 | What is written is listed or in range, and the budget of an enabled model with a non-empty range is 0 exactly for a negative budget raised to Min 0 or the middle of [0, 1] |
| ThinkingApply.WrittenIs | internal/thinking/thinking.go:517-599 | The deletions and settings of either format amount to one rewriting of thinkingConfig and change nothing else |
| ThinkingApply.ApplyReachesNormalForm | internal/thinking/thinking.go:274-337 | A successful Apply that writes leaves exactly one of thinkingLevel and thinkingBudget, a boolean includeThoughts, no snake-case member, and the rest of the body untouched |
| ThinkingApply.FittingBudgetIsWritten | internal/thinking/thinking.go:274-337 | A requested budget within the model's range is written unchanged |
| ThinkingOutcome.RequestedBudgetIsWritten | internal/thinking/thinking.go:274-337 | Whatever budget is asked for, in body or suffix, the nearest allowed one is written as thinkingBudget, unless a strict check refuses it |
| ThinkingOutcome.WrittenMembers | internal/thinking/thinking.go:517-599 | A level is written under its API name, a budget as its number, and every other member of thinkingConfig is unchanged |
| ThinkingOutcome.WrittenThoughts | internal/thinking/thinking.go:517-599 | Thoughts are hidden when off, otherwise as the body asks, otherwise shown unless the budget is 0 |
| ThinkingApply.ApplyTwice | internal/thinking/thinking.go:274-337 | Applying again with the same model changes nothing exactly if there is a suffix or what was written reads back to the same effect: a listed level, HIGH sent as HIGH again, a budget within the maximum, dynamic, or off where nothing asks for thoughts |
| ThinkingApply.ApplySettles | internal/thinking/thinking.go:274-337 | With official levels, a proper range and a budget of at least -1 asked for, a second Apply never changes anything |
| ThinkingApply.TopLevelAgain | internal/thinking/thinking.go:87-106 | After xhigh or max the second Apply changes nothing exactly if the list sends HIGH as HIGH again, and in strict mode without high it is refused |
| ThinkingApply.TopLevelRefusesItself | internal/thinking/thinking.go:274-337 | For every model that lists xhigh or max but not high, in strict mode the request for that level is accepted and what it became is refused |
| ThinkingApply.UnwrittenStays | internal/thinking/thinking.go:276-321 | Where nothing is written, off, no config or stripped, a second Apply changes nothing |
| Normalize.NormalizeToolDeclarations | internal/normalize/gemini/normalize.go:111-139 | The nested loops rename declarations and their parameters in every tool and touch nothing else |
| Normalize.NormalizeDeclarations | internal/normalize/gemini/normalize.go:125-136 | The inner loop renames the parameters of every declaration |
| Normalize.NormalizeContentRoles | internal/normalize/gemini/normalize.go:143-178 | The iteration with its running role gives every message its role |
| Normalize.NormalizeThoughtSignatures | internal/normalize/gemini/normalize.go:183-202 | Exactly the parts of model messages with a call or a signature get the skip value |
| Normalize.BackfillEmptyFunctionResponseNames | internal/normalize/gemini/normalize.go:207-264 | The iteration with its pending names fills each message from the model message right before it |
| Normalize.FillResponses | internal/normalize/gemini/normalize.go:244-258 | The k-th response of a message takes the k-th pending name if its own is blank |
| Normalize.CollectCallNames | internal/normalize/gemini/normalize.go:219-229 | The non-blank call names in order |
| Normalize.NormalizeRequest | internal/normalize/gemini/normalize.go:45-81 | Blank and malformed payloads and contents that are no array are refused, everything else goes through all passes |
| NormalizeProofs.FilledRolesAlternate | internal/normalize/gemini/normalize.go:143-178 | Every message gets a valid role; a valid one is kept, a filled one is user at the start and otherwise differs from its predecessor's |
| NormalizeProofs.OnlyBlankNamesAreFilled | internal/normalize/gemini/normalize.go:207-264 | A function response changes only by filling a blank name, with the call name of its position; other members of a part but its signature stay |
| NormalizeProofs.OtherMembersStay | internal/normalize/gemini/normalize.go:143-264 | Of a message only role and parts change |
| NormalizeProofs.ContentsFixedTwice | internal/normalize/gemini/normalize.go:143-264 | The three message passes together are idempotent |
| NormalizeProofs.NormalizedMembers | internal/normalize/gemini/normalize.go:45-105 | Only tools, generationConfig, contents and missing safetySettings change |
| NormalizeProofs.NormalizeTwice | internal/normalize/gemini/normalize.go:45-81 | Normalising a normalised request changes nothing |
| NormalizeProofs.RefusedExactly | internal/normalize/gemini/normalize.go:60-75 | A JSON body is refused exactly when it has contents that are no array |
| NormalizeLaws.ToolsKeepDeclarations | internal/normalize/gemini/normalize.go:111-139 | Every tool keeps its declarations, as many in the same order, under `function_declarations`, each with its schema as `parametersJsonSchema`; the old names are gone and all else is unchanged |
| NormalizeLaws.SchemaIsKept | internal/normalize/gemini/normalize.go:60-75 | The response schema stands under `responseJsonSchema`, and the rest of the configuration is unchanged |
| NormalizeLaws.SafetyIsAttached | internal/normalize/gemini/normalize.go:83-105 | A request without safety settings gets the configured ones in order, the five defaults without any, and none in mode off; its own are kept |
| NormalizeLaws.SignaturesAreSkipped | internal/normalize/gemini/normalize.go:183-202 | In a model message exactly the parts with a call or a signature carry the skip value; everywhere else a part keeps what it had |
| NormalizeLaws.ResponsesAreNamed | internal/normalize/gemini/normalize.go:207-264 | After a model message of calls, each response without a name gets that of the call at its place |

## Left out

- RetryLoop.FailedCallTriedAllReady: other actors changing the registry are excluded by premise; with them a provider can become unready before its turn.
- SseCodec.AdaptAgreesWithFeed: states a sufficient condition, for any buffer; `SseAdapter.AdapterIsDecoderExactly` has the exact one for buffers without CR and without a blank line, which is what the decoder leaves.
- ThinkingApply.ApplyReachesNormalForm: assumes what configuration accepts (the six levels, no negative bound, no minimum above a maximum), a declared capability, and no array in place of an object on the path to thinkingConfig.
- NormalizeProofs.NormalizeTwice: assumes that no message and no function response is itself an array; inside an array the JSON library fails to set a member and returns an empty body, which is not modelled.
- Json: numbers are integers, or fractions with their text and integer readings; the text of arrays and objects, key order, white space and duplicate keys are not modelled. `parts` given as an object instead of an array counts as no parts.
- ThinkingApply.ApplyTwice: budgets are unbounded integers, in the configuration and in the request body; the gateway's are 64 bits wide, where a larger number wraps.
- Text: Unicode white space and case folding beyond ASCII, and strings that are not valid UTF-8.
- A last-seen time that a heartbeat moves between a session's swap and its announcement.
- Nil providers, sessions, requests and registries, and the nil checks on them.
- Provider tags, capabilities and metadata; diagnostics, subscribers and event publication, which may drop and reorder events across goroutines.
- The cache's `Get`, which checks expiry outside the lock before deleting, and its cleanup ticker.
- Heartbeats, read and write deadlines, the WebSocket upgrade and the message format: their outcomes are the steps and failures of the session model.
- The stream's status code, headers and metadata, the timing of the idle timer, and the cooldown set on an idle timeout.
- Classification of upstream errors and the detection of terminal payloads: parameters of the retry loop and the stream output.
- Model registry and aliases, access keys, configuration, image preview, dashboard, logging: thin or library-bound, with easy members.
- `applyCompatible`, which `Apply` cannot reach.
