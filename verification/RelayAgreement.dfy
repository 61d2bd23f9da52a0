/** The relay's session map against the provider registry, with handshakes, closures and
    callbacks interleaved (internal/wsrelay/manager.go, internal/provider/registry/registry.go). */
module RelayAgreement {
  import opened Prelude
  import opened Providers
  import opened Registry
  import opened RelayManager

  /** `upgraded`: sessions not in the map yet. `announcing`: providers put into the map whose
      OnConnected is still to come. `owed`: Disconnect callbacks still on their way. `closed`
      and `past`: every session cleaned up, and every session, so far. */
  datatype State = State(
    sessions: Sessions,
    reg: RegState,
    upgraded: set<Provider>,
    announcing: set<Provider>,
    owed: set<Sess>,
    closed: set<Sess>,
    past: set<Sess>)

  datatype Step =
    | Open(hello: Hello)
    | Swap(p: Provider)
    | Announce(p: Provider, now: Time)
    | Close(sess: Sess)
    | Deliver(sess: Sess, now: Time)
    | Touch(sess: Sess, seen: Time, now: Time)
    | Manage(op: Op, now: Time)

  const INIT := State(map[], RegState(map[], map[]), {}, {}, {}, {}, {})

  /** Generated connection IDs do not repeat. */
  predicate Unseen(s: State, conn: string) {
    forall other :: other in s.past ==> !EqualFold(other.conn, conn)
  }

  function Identified(hello: Hello): Option<Provider> {
    match Extract(hello.ids, hello.labels, hello.priority)
    case None => None
    case Some(p) => Some(Complete(p, hello))
  }

  predicate Enabled(s: State, step: Step) {
    match step
    case Open(hello) => Generated(hello) && Identified(hello).Some? && Unseen(s, ConnectionOf(hello))
    case Swap(p) => p in s.upgraded
    case Announce(p, _) => p in s.announcing
    case Close(sess) => sess in s.past && sess !in s.closed
    case Deliver(sess, _) => sess in s.owed
    case Touch(sess, _, _) => sess in s.past
    case Manage(op, _) => op.OpSetState? || op.OpSetCooldown? || op.OpTimer?
  }

  function Take(s: State, step: Step): State {
    match step
    case Open(hello) =>
      (match Identified(hello)
       case None => s
       case Some(p) => s.(upgraded := s.upgraded + {p}, past := s.past + {SessionOf(p)}))
    case Swap(p) =>
      s.(sessions := s.sessions[MapKey(p.id) := SessionOf(p)],
         upgraded := s.upgraded - {p}, announcing := s.announcing + {p})
    case Announce(p, now) =>
      s.(reg := Apply(s.reg, Event(now, OpRegister(p))), announcing := s.announcing - {p})
    case Close(sess) =>
      s.(sessions := CloseIn(s.sessions, sess),
         owed := if IsCurrent(s.sessions, sess) then s.owed + {sess} else s.owed,
         closed := s.closed + {sess})
    case Deliver(sess, now) =>
      s.(reg := Apply(s.reg, Event(now, OpDisconnect(sess.id, sess.conn))), owed := s.owed - {sess})
    case Touch(sess, seen, now) => s.(reg := Apply(s.reg, Event(now, OpTouch(sess.id, sess.conn, seen))))
    case Manage(op, now) => s.(reg := Apply(s.reg, Event(now, op)))
  }

  predicate IsRun(s: State, run: seq<Step>)
    decreases |run|
  {
    run == [] || (Enabled(s, run[0]) && IsRun(Take(s, run[0]), run[1..]))
  }

  function After(s: State, run: seq<Step>): State
    requires IsRun(s, run)
    decreases |run|
  {
    if run == [] then s else After(Take(s, run[0]), run[1..])
  }

  // ---- What holds in every run ----

  /** A provider on its way through a handshake: the registry will accept it. */
  predicate OnItsWay(s: State, p: Provider) {
    && SessionOf(p) in s.past && Normalize(p, ZERO_TIME).Some?
    && TrimSpace(p.connectionId) == p.connectionId && TrimSpace(p.id) == p.id
  }

  predicate GoodPast(s: State) {
    && s.owed <= s.past
    && (forall a :: a in s.past ==> a.conn != "" && TrimSpace(a.conn) == a.conn && TrimSpace(a.id) != "")
    && (forall a, b :: a in s.past && b in s.past && EqualFold(a.conn, b.conn) ==> a == b)
  }

  function InFlight(s: State): set<Provider> {
    s.upgraded + s.announcing
  }

  predicate DistinctConnections(ps: set<Provider>) {
    forall p, q :: p in ps && q in ps && p.connectionId == q.connectionId ==> p == q
  }

  /** A session yet to enter the map: not in it, and not reported closed. */
  predicate IsOutside(s: State, p: Provider) {
    SessionOf(p) !in s.owed && !IsCurrent(s.sessions, SessionOf(p))
  }

  predicate GoodHandshakes(s: State) {
    && s.upgraded !! s.announcing && DistinctConnections(InFlight(s))
    && (forall p :: p in InFlight(s) ==> OnItsWay(s, p))
    && (forall p :: p in s.upgraded ==> IsOutside(s, p))
  }

  /** A registry entry belongs to a past session under the same key. */
  predicate HasOwner(s: State, key: string)
    requires key in s.reg.providers
  {
    exists sess :: sess in s.past && MapKey(sess.id) == key && sess.conn == s.reg.providers[key].connectionId
  }

  predicate GoodAt(s: State, key: string) {
    && (key in s.sessions ==>
          s.sessions[key] in s.past && s.sessions[key] !in s.owed && MapKey(s.sessions[key].id) == key)
    && (key in s.reg.providers ==> HasOwner(s, key))
  }

  ghost predicate Sound(s: State) {
    GoodPast(s) && GoodHandshakes(s) && forall key :: GoodAt(s, key)
  }

  lemma OpenedIsGood(hello: Hello)
    requires Generated(hello) && Identified(hello).Some?
    ensures var p := Identified(hello).value;
            && Normalize(p, ZERO_TIME).Some? && TrimSpace(p.id) == p.id && TrimSpace(p.id) != ""
            && p.connectionId == ConnectionOf(hello) && TrimSpace(p.connectionId) == p.connectionId != ""
  {
    ExtractedIsAccepted(hello, ZERO_TIME);
    ConnectionIsTrimmed(hello);
  }

  lemma OpenKeepsPast(s: State, hello: Hello)
    requires GoodPast(s) && Enabled(s, Open(hello))
    ensures GoodPast(Take(s, Open(hello))) && SessionOf(Identified(hello).value) !in s.past
  {
    OpenedIsGood(hello);
    var sess := SessionOf(Identified(hello).value);
    assert EqualFold(sess.conn, sess.conn);
  }

  lemma NewHandshake(s: State, r: State, p: Provider)
    requires r == s.(upgraded := s.upgraded + {p}, past := s.past + {SessionOf(p)})
    requires GoodPast(s) && GoodHandshakes(s) && OnItsWay(r, p)
    requires SessionOf(p) !in s.past && Unseen(s, p.connectionId) && !IsCurrent(s.sessions, SessionOf(p))
    ensures GoodHandshakes(r)
  {
    assert InFlight(r) == InFlight(s) + {p};
    forall q | q in InFlight(s)
      ensures OnItsWay(r, q) && q.connectionId != p.connectionId
    {
      assert OnItsWay(s, q);
      assert !EqualFold(SessionOf(q).conn, p.connectionId);
    }
    forall q | q in r.upgraded
      ensures IsOutside(r, q)
    {
      assert q != p ==> IsOutside(s, q);
    }
    assert p !in InFlight(s);
  }

  lemma OpenIsSound(s: State, hello: Hello)
    requires Sound(s) && Enabled(s, Open(hello))
    ensures Sound(Take(s, Open(hello)))
  {
    OpenKeepsPast(s, hello);
    var r, sess := Take(s, Open(hello)), SessionOf(Identified(hello).value);
    assert GoodAt(s, MapKey(sess.id));
    OpenedIsGood(hello);
    NewHandshake(s, r, Identified(hello).value);
    forall key ensures GoodAt(r, key) {
      assert GoodAt(s, key);
    }
  }

  lemma SwapKeepsHandshakes(s: State, p: Provider)
    requires GoodHandshakes(s) && Enabled(s, Swap(p))
    ensures GoodHandshakes(Take(s, Swap(p)))
  {
    var r := Take(s, Swap(p));
    assert InFlight(r) == InFlight(s);
    forall q | q in r.upgraded
      ensures IsOutside(r, q)
    {
      assert IsOutside(s, q) && q in InFlight(s) && p in InFlight(s);
      assert q.connectionId != p.connectionId;
    }
  }

  lemma SwapIsSound(s: State, p: Provider)
    requires Sound(s) && Enabled(s, Swap(p))
    ensures Sound(Take(s, Swap(p)))
  {
    var r := Take(s, Swap(p));
    assert OnItsWay(s, p) && IsOutside(s, p);
    SwapKeepsHandshakes(s, p);
    forall key ensures GoodAt(r, key) {
      assert GoodAt(s, key);
    }
  }

  /** Registering changes the entry under the provider's key to its own. */
  lemma Registered(s: State, p: Provider, now: Time)
    requires OnItsWay(s, p)
    ensures var was, r := s.reg.providers, Take(s, Announce(p, now)).reg.providers;
            && MapKey(p.id) in r && r[MapKey(p.id)].connectionId == p.connectionId
            && forall key :: key != MapKey(p.id) ==>
                 (key in r <==> key in was) && (key in r ==> r[key] == was[key])
  {
    assert Normalize(p, now).Some?;
    StepIsLocal(s.reg, Event(now, OpRegister(p)));
    SameBut(s.reg.providers, Take(s, Announce(p, now)).reg.providers, MapKey(p.id));
  }

  lemma SameBut(was: Table, r: Table, k: string)
    requires was - {k} == r - {k}
    ensures forall key :: key != k ==> (key in r <==> key in was) && (key in r ==> r[key] == was[key])
  {
    forall key | key != k
      ensures (key in r <==> key in was) && (key in r ==> r[key] == was[key])
    {
      assert key in was <==> key in was - {k};
      assert key in r <==> key in r - {k};
      if key in r {
        assert r[key] == (r - {k})[key] == (was - {k})[key];
      }
    }
  }

  lemma AnnounceIsSound(s: State, p: Provider, now: Time)
    requires Sound(s) && Enabled(s, Announce(p, now))
    ensures Sound(Take(s, Announce(p, now)))
  {
    var r := Take(s, Announce(p, now));
    assert OnItsWay(s, p);
    Registered(s, p, now);
    forall key ensures GoodAt(r, key) {
      assert GoodAt(s, key);
      if key == MapKey(p.id) {
        assert SessionOf(p) in r.past;
      }
    }
  }

  lemma CloseIsSound(s: State, sess: Sess)
    requires Sound(s) && Enabled(s, Close(sess))
    ensures Sound(Take(s, Close(sess)))
  {
    var r := Take(s, Close(sess));
    forall key ensures GoodAt(r, key) {
      assert GoodAt(s, key);
    }
  }

  /** Everything but registering and disconnecting leaves IDs and connections alone. */
  lemma KeepsConnections(s: RegState, ev: Event)
    requires !ev.op.OpRegister? && !ev.op.OpDisconnect?
    ensures Apply(s, ev).providers.Keys == s.providers.Keys
    ensures forall k :: k in s.providers ==>
              Apply(s, ev).providers[k].connectionId == s.providers[k].connectionId
  {
  }

  lemma RegistryStepIsSound(s: State, ev: Event)
    requires Sound(s) && !ev.op.OpRegister? && !ev.op.OpDisconnect?
    ensures Sound(s.(reg := Apply(s.reg, ev)))
  {
    var r := s.(reg := Apply(s.reg, ev));
    KeepsConnections(s.reg, ev);
    forall key ensures GoodAt(r, key) {
      assert GoodAt(s, key);
      assert key in r.reg.providers <==> key in s.reg.providers;
      if key in r.reg.providers {
        assert HasOwner(s, key);
      }
    }
  }

  /** A callback names an entry only if it comes from that entry's own session. */
  lemma NamesItsOwn(s: State, sess: Sess)
    requires GoodPast(s) && GoodAt(s, MapKey(sess.id)) && sess in s.past
    ensures Names(s.reg.providers, sess.id, sess.conn) <==>
            MapKey(sess.id) in s.reg.providers && s.reg.providers[MapKey(sess.id)].connectionId == sess.conn
  {
  }

  lemma DeliverIsSound(s: State, sess: Sess, now: Time)
    requires Sound(s) && Enabled(s, Deliver(sess, now))
    ensures Sound(Take(s, Deliver(sess, now)))
  {
    var r := Take(s, Deliver(sess, now));
    forall key ensures GoodAt(r, key) {
      assert GoodAt(s, key);
      if key in r.reg.providers {
        assert key in s.reg.providers && r.reg.providers[key] == s.reg.providers[key];
        assert HasOwner(s, key);
      }
    }
  }

  lemma StepIsSound(s: State, step: Step)
    requires Sound(s) && Enabled(s, step)
    ensures Sound(Take(s, step))
  {
    match step
    case Open(hello) => OpenIsSound(s, hello);
    case Swap(p) => SwapIsSound(s, p);
    case Announce(p, now) => AnnounceIsSound(s, p, now);
    case Close(sess) => CloseIsSound(s, sess);
    case Deliver(sess, now) => DeliverIsSound(s, sess, now);
    case Touch(sess, seen, now) => RegistryStepIsSound(s, Event(now, OpTouch(sess.id, sess.conn, seen)));
    case Manage(op, now) => RegistryStepIsSound(s, Event(now, op));
  }

  // ---- When relay and registry agree ----

  /** No handshake for this key is between its swap and its announcement. */
  predicate Settled(s: State, key: string) {
    forall p :: p in s.announcing ==> MapKey(p.id) != key
  }

  /** The registry's entry at `key` still awaits the Disconnect of its own connection. */
  predicate Owed(s: State, key: string) {
    && key in s.reg.providers
    && exists sess :: sess in s.owed && MapKey(sess.id) == key && sess.conn == s.reg.providers[key].connectionId
  }

  /** A live session is registered under its connection; an entry without a live session
      awaits its own Disconnect. */
  predicate AgreeAt(s: State, key: string) {
    && (key in s.sessions ==>
          key in s.reg.providers && s.reg.providers[key].connectionId == s.sessions[key].conn)
    && (key in s.reg.providers && key !in s.sessions ==> Owed(s, key))
  }

  ghost predicate Agree(s: State) {
    forall key :: Settled(s, key) ==> AgreeAt(s, key)
  }

  /** The announced session is still the map's; or the map has none for its key, and its own
      Disconnect is still to come. */
  predicate Timely(s: State, p: Provider) {
    if MapKey(p.id) in s.sessions then s.sessions[MapKey(p.id)] == SessionOf(p) else SessionOf(p) in s.owed
  }

  /** This announcement is the last one on its way for its key. */
  predicate Settles(s: State, p: Provider) {
    Settled(s.(announcing := s.announcing - {p}), MapKey(p.id))
  }

  /** Whatever came before, the last announcement on its way for a provider leaves relay and
      registry agreeing on it exactly when it is timely. */
  lemma AnnouncementDecides(s: State, p: Provider, now: Time)
    requires Sound(s) && Enabled(s, Announce(p, now))
    ensures AgreeAt(Take(s, Announce(p, now)), MapKey(p.id)) <==> Timely(s, p)
  {
    var key, r := MapKey(p.id), Take(s, Announce(p, now));
    assert OnItsWay(s, p) && GoodAt(s, key);
    Registered(s, p, now);
    assert EqualFold(p.connectionId, p.connectionId);
    if key in s.sessions {
      assert s.sessions[key].conn == p.connectionId ==> s.sessions[key] == SessionOf(p);
    } else if Owed(r, key) {
      var sess :| sess in s.owed && MapKey(sess.id) == key && sess.conn == p.connectionId;
      assert sess == SessionOf(p);
    }
  }

  /** Announcing one provider leaves the others as they are. */
  lemma AnnouncementIsLocal(s: State, p: Provider, now: Time, key: string)
    requires Sound(s) && Enabled(s, Announce(p, now)) && key != MapKey(p.id)
    ensures AgreeAt(Take(s, Announce(p, now)), key) <==> AgreeAt(s, key)
    ensures Settled(Take(s, Announce(p, now)), key) <==> Settled(s, key)
  {
    assert OnItsWay(s, p);
    Registered(s, p, now);
  }

  lemma CloseKeepsAgreement(s: State, sess: Sess, key: string)
    requires Sound(s) && Enabled(s, Close(sess)) && AgreeAt(s, key)
    ensures AgreeAt(Take(s, Close(sess)), key)
  {
    assert GoodAt(s, key);
    var r := Take(s, Close(sess));
    if key in r.reg.providers && key !in r.sessions {
      if key in s.sessions {
        assert s.sessions[key] == sess && sess in r.owed;
      } else {
        var owner :| owner in s.owed && MapKey(owner.id) == key && owner.conn == s.reg.providers[key].connectionId;
        assert owner in r.owed;
      }
    }
  }

  lemma DeliverKeepsAgreement(s: State, sess: Sess, now: Time, key: string)
    requires Sound(s) && Enabled(s, Deliver(sess, now)) && AgreeAt(s, key)
    ensures AgreeAt(Take(s, Deliver(sess, now)), key)
  {
    var r := Take(s, Deliver(sess, now));
    assert GoodAt(s, key) && GoodAt(s, MapKey(sess.id));
    NamesItsOwn(s, sess);
    assert EqualFold(sess.conn, sess.conn);
    if key in s.sessions && key == MapKey(sess.id) {
      assert s.sessions[key].conn != sess.conn;
    }
    if key in r.reg.providers && key !in r.sessions {
      var owner :| owner in s.owed && MapKey(owner.id) == key && owner.conn == s.reg.providers[key].connectionId;
      assert owner != sess;
    }
  }

  lemma RegistryStepKeepsAgreement(s: State, ev: Event, key: string)
    requires !ev.op.OpRegister? && !ev.op.OpDisconnect? && AgreeAt(s, key)
    ensures AgreeAt(s.(reg := Apply(s.reg, ev)), key)
  {
    KeepsConnections(s.reg, ev);
    var r := s.(reg := Apply(s.reg, ev));
    assert key in r.reg.providers <==> key in s.reg.providers;
    if key in r.reg.providers && key !in r.sessions {
      assert Owed(s, key);
    }
  }

  lemma OtherStepsKeepAgreement(s: State, step: Step, key: string)
    requires Sound(s) && Enabled(s, step) && !step.Announce? && Settled(Take(s, step), key) && AgreeAt(s, key)
    ensures AgreeAt(Take(s, step), key)
  {
    match step
    case Open(_) =>
    case Swap(p) => assert p in Take(s, step).announcing;
    case Announce(_, _) => assert false;
    case Close(sess) => CloseKeepsAgreement(s, sess, key);
    case Deliver(sess, now) => DeliverKeepsAgreement(s, sess, now, key);
    case Touch(sess, seen, now) => RegistryStepKeepsAgreement(s, Event(now, OpTouch(sess.id, sess.conn, seen)), key);
    case Manage(op, now) => RegistryStepKeepsAgreement(s, Event(now, op), key);
  }

  /** Only an announcement can settle a key. */
  lemma SettledBefore(s: State, step: Step, key: string)
    requires Enabled(s, step) && !step.Announce? && Settled(Take(s, step), key)
    ensures Settled(s, key)
  {
    match step
    case Swap(q) =>
      assert forall p :: p in s.announcing ==> p in Take(s, step).announcing;
    case _ =>
  }

  /** One step keeps the agreement exactly unless it is a last announcement out of time. */
  lemma StepKeepsAgreement(s: State, step: Step)
    requires Sound(s) && Agree(s) && Enabled(s, step)
    ensures Agree(Take(s, step)) <==> !(step.Announce? && Settles(s, step.p) && !Timely(s, step.p))
  {
    var r := Take(s, step);
    if step.Announce? {
      var mine := MapKey(step.p.id);
      AnnouncementDecides(s, step.p, step.now);
      assert Settled(r, mine) <==> Settles(s, step.p);
      forall key | key != mine && Settled(r, key)
        ensures AgreeAt(r, key)
      {
        AnnouncementIsLocal(s, step.p, step.now, key);
      }
    } else {
      forall key | Settled(r, key)
        ensures AgreeAt(r, key)
      {
        SettledBefore(s, step, key);
        OtherStepsKeepAgreement(s, step, key);
      }
    }
  }

  /** Every announcement of the run that settles its key is timely. */
  predicate InTime(s: State, run: seq<Step>)
    requires IsRun(s, run)
    decreases |run|
  {
    run == [] ||
    (var step := run[0];
     && (step.Announce? && Settles(s, step.p) ==> Timely(s, step.p))
     && InTime(Take(s, step), run[1..]))
  }

  lemma {:induction false} RunsAreSound(s: State, run: seq<Step>)
    requires Sound(s) && IsRun(s, run)
    ensures Sound(After(s, run))
    decreases |run|
  {
    if run != [] {
      StepIsSound(s, run[0]);
      RunsAreSound(Take(s, run[0]), run[1..]);
    }
  }

  lemma {:induction false} RunsKeepAgreement(s: State, run: seq<Step>)
    requires Sound(s) && Agree(s) && IsRun(s, run) && InTime(s, run)
    ensures Agree(After(s, run))
    decreases |run|
  {
    if run != [] {
      StepIsSound(s, run[0]);
      StepKeepsAgreement(s, run[0]);
      RunsKeepAgreement(Take(s, run[0]), run[1..]);
    }
  }

  // ---- What it means ----

  lemma InTimeRunsAgree(run: seq<Step>)
    requires IsRun(INIT, run)
    ensures Sound(After(INIT, run)) && (InTime(INIT, run) ==> Agree(After(INIT, run)))
  {
    RunsAreSound(INIT, run);
    if InTime(INIT, run) {
      RunsKeepAgreement(INIT, run);
    }
  }

  /** With every announcement in time and none on its way for this provider, a live session's
      connection is the registry's, and a registry entry has a live session exactly when its
      own Disconnect is not still on its way. */
  lemma RelayAndRegistryAgree(run: seq<Step>, key: string)
    requires IsRun(INIT, run) && InTime(INIT, run) && Settled(After(INIT, run), key)
    ensures var s := After(INIT, run);
            && (key in s.sessions ==>
                  key in s.reg.providers && s.reg.providers[key].connectionId == s.sessions[key].conn)
            && (key in s.reg.providers ==> (key in s.sessions <==> !Owed(s, key)))
  {
    InTimeRunsAgree(run);
    var s := After(INIT, run);
    assert AgreeAt(s, key) && GoodAt(s, key);
    if key in s.sessions && Owed(s, key) {
      var sess :| sess in s.owed && MapKey(sess.id) == key && sess.conn == s.reg.providers[key].connectionId;
      assert EqualFold(sess.conn, s.sessions[key].conn);
      assert false;
    }
  }

  /** Once every callback is delivered, relay and registry know the same connections. */
  lemma QuietMeansEqual(run: seq<Step>)
    requires IsRun(INIT, run) && InTime(INIT, run)
    requires After(INIT, run).owed == {} && After(INIT, run).announcing == {}
    ensures var s := After(INIT, run);
            && s.sessions.Keys == s.reg.providers.Keys
            && forall key :: key in s.sessions ==> s.reg.providers[key].connectionId == s.sessions[key].conn
  {
    var s := After(INIT, run);
    forall key ensures key in s.sessions <==> key in s.reg.providers {
      RelayAndRegistryAgree(run, key);
    }
    forall key | key in s.sessions ensures s.reg.providers[key].connectionId == s.sessions[key].conn {
      RelayAndRegistryAgree(run, key);
    }
  }

  /** Disconnect and Touch callbacks of a session that was replaced, or whose Disconnect was
      delivered, change nothing, however late and whatever became of its replacement. */
  lemma LateCallbacksChangeNothing(run: seq<Step>, sess: Sess, seen: Time, now: Time)
    requires IsRun(INIT, run) && InTime(INIT, run) && Settled(After(INIT, run), MapKey(sess.id))
    requires var s := After(INIT, run);
             sess in s.past && !IsCurrent(s.sessions, sess) && sess !in s.owed
    ensures var s := After(INIT, run);
            && Apply(s.reg, Event(now, OpDisconnect(sess.id, sess.conn))) == s.reg
            && Apply(s.reg, Event(now, OpTouch(sess.id, sess.conn, seen))) == s.reg
  {
    InTimeRunsAgree(run);
    var s := After(INIT, run);
    assert AgreeAt(s, MapKey(sess.id)) && GoodAt(s, MapKey(sess.id));
    NamesItsOwn(s, sess);
    assert !Names(s.reg.providers, sess.id, sess.conn);
  }

  /** Every swap is followed by its own announcement before anything else happens. */
  predicate Undivided(run: seq<Step>)
    decreases |run|
  {
    run == [] ||
    (if run[0].Swap? then |run| > 1 && run[1].Announce? && run[1].p == run[0].p && Undivided(run[2..])
     else !run[0].Announce? && Undivided(run[1..]))
  }

  /** Handshakes that no other step divides are always in time. */
  lemma {:induction false} UndividedIsInTime(s: State, run: seq<Step>)
    requires IsRun(s, run) && Undivided(run)
    ensures InTime(s, run)
    decreases |run|
  {
    if run != [] {
      if run[0].Swap? {
        var mid, rest := Take(s, run[0]), run[1..];
        assert rest[0] == run[1] && rest[1..] == run[2..];
        assert Timely(mid, run[1].p);
        UndividedIsInTime(Take(mid, rest[0]), rest[1..]);
      } else {
        UndividedIsInTime(Take(s, run[0]), run[1..]);
      }
    }
  }

  // ---- What untimely announcements leave behind ----

  /** A registry entry whose session is not in the map and will not be reported closed. */
  predicate Stray(s: State, key: string) {
    && key in s.reg.providers && !Owed(s, key)
    && (key in s.sessions ==> s.sessions[key].conn != s.reg.providers[key].connectionId)
  }

  /** An announcement out of time leaves a stray entry, unless the session's Disconnect is
      still to come; then the live session that took its place loses its entry. */
  lemma UntimelyLeavesStray(s: State, p: Provider, now: Time)
    requires Sound(s) && Enabled(s, Announce(p, now)) && !Timely(s, p)
    ensures var r := Take(s, Announce(p, now));
            if SessionOf(p) in s.owed then MapKey(p.id) in r.sessions && Owed(r, MapKey(p.id))
            else Stray(r, MapKey(p.id))
  {
    var key, r := MapKey(p.id), Take(s, Announce(p, now));
    assert OnItsWay(s, p) && GoodAt(s, key);
    Registered(s, p, now);
    assert EqualFold(p.connectionId, p.connectionId);
    if SessionOf(p) in s.owed {
      assert SessionOf(p) in r.owed && SessionOf(p).conn == r.reg.providers[key].connectionId;
    }
  }

  /** No closing, callback or registry operation ever removes a stray entry: it stays
      until the next handshake of its provider. */
  lemma StrayStays(s: State, step: Step, key: string)
    requires Sound(s) && Enabled(s, step) && Stray(s, key)
    requires (step.Swap? || step.Announce?) ==> MapKey(step.p.id) != key
    ensures Stray(Take(s, step), key)
    ensures Take(s, step).reg.providers[key].connectionId == s.reg.providers[key].connectionId
  {
    var r := Take(s, step);
    assert GoodAt(s, key);
    match step
    case Open(_) =>
    case Swap(_) =>
    case Announce(p, now) =>
      assert OnItsWay(s, p);
      Registered(s, p, now);
    case Close(sess) => CloseKeepsStray(s, sess, key);
    case Deliver(sess, now) => DeliverKeepsStray(s, sess, now, key);
    case Touch(sess, seen, now) => KeepsConnections(s.reg, Event(now, OpTouch(sess.id, sess.conn, seen)));
    case Manage(op, now) => KeepsConnections(s.reg, Event(now, op));
  }

  lemma CloseKeepsStray(s: State, sess: Sess, key: string)
    requires Sound(s) && Enabled(s, Close(sess)) && Stray(s, key)
    ensures Stray(Take(s, Close(sess)), key)
  {
    assert GoodAt(s, key);
  }

  lemma DeliverKeepsStray(s: State, sess: Sess, now: Time, key: string)
    requires Sound(s) && Enabled(s, Deliver(sess, now)) && Stray(s, key)
    ensures var r := Take(s, Deliver(sess, now));
            Stray(r, key) && r.reg.providers[key].connectionId == s.reg.providers[key].connectionId
  {
    assert GoodAt(s, key) && GoodAt(s, MapKey(sess.id));
    NamesItsOwn(s, sess);
  }

  lemma {:induction false} OneMoreStep(s: State, run: seq<Step>, step: Step)
    requires IsRun(s, run) && Enabled(After(s, run), step)
    ensures IsRun(s, run + [step]) && After(s, run + [step]) == Take(After(s, run), step)
    decreases |run|
  {
    if run == [] {
      assert [step][1..] == [];
    } else {
      OneMoreStep(Take(s, run[0]), run[1..], step);
      assert (run + [step])[1..] == run[1..] + [step];
    }
  }

  lemma TwoSteps(s: State, a: Step, b: Step)
    requires Enabled(s, a) && Enabled(Take(s, a), b)
    ensures IsRun(s, [a, b]) && After(s, [a, b]) == Take(Take(s, a), b)
  {
    OneMoreStep(Take(s, a), [], b);
    assert [] + [b] == [b] == [a, b][1..];
  }

  lemma ThreeSteps(s: State, a: Step, b: Step, c: Step)
    requires Enabled(s, a) && Enabled(Take(s, a), b) && Enabled(Take(Take(s, a), b), c)
    ensures IsRun(s, [a, b, c]) && After(s, [a, b, c]) == Take(Take(Take(s, a), b), c)
  {
    TwoSteps(Take(s, a), b, c);
    assert [a, b, c][1..] == [b, c];
  }

  /** Both sessions swapped in, the second announced. */
  lemma CrossedHalfway(s: State, p: Provider, q: Provider, t: Time) returns (r: State)
    requires Sound(s) && p in s.upgraded && q in s.upgraded && p != q && MapKey(p.id) == MapKey(q.id)
    ensures IsRun(s, [Swap(p), Swap(q), Announce(q, t)])
    ensures r == After(s, [Swap(p), Swap(q), Announce(q, t)]) && Sound(r) && p in r.announcing
    ensures r.sessions == s.sessions[MapKey(p.id) := SessionOf(q)]
    ensures SessionOf(p) !in r.owed && SessionOf(p) != SessionOf(q)
  {
    assert IsOutside(s, p) && p in InFlight(s) && q in InFlight(s);
    ThreeSteps(s, Swap(p), Swap(q), Announce(q, t));
    RunsAreSound(s, [Swap(p), Swap(q), Announce(q, t)]);
    r := After(s, [Swap(p), Swap(q), Announce(q, t)]);
  }

  /** Two handshakes of one provider whose announcements come in the other order: the map
      ends up with the second session, the registry with the first one's connection. */
  lemma CrossedHandshakesDisagree(s: State, p: Provider, q: Provider, t: Time, u: Time)
    requires Sound(s) && p in s.upgraded && q in s.upgraded && p != q && MapKey(p.id) == MapKey(q.id)
    ensures var run := [Swap(p), Swap(q), Announce(q, t)] + [Announce(p, u)];
            && IsRun(s, run) && Stray(After(s, run), MapKey(p.id))
            && After(s, run).sessions == s.sessions[MapKey(p.id) := SessionOf(q)]
  {
    var mid := CrossedHalfway(s, p, q, t);
    UntimelyLeavesStray(mid, p, u);
    OneMoreStep(s, [Swap(p), Swap(q), Announce(q, t)], Announce(p, u));
  }

  /** Two such handshakes can be under way: any two of the same identity. */
  lemma TwoHandshakesCanMeet(a: Hello, b: Hello)
    requires Generated(a) && Generated(b) && !EqualFold(ConnectionOf(a), ConnectionOf(b))
    requires Identified(a).Some? && Identified(b).Some?
    ensures IsRun(INIT, [Open(a), Open(b)]) && Sound(After(INIT, [Open(a), Open(b)]))
    ensures After(INIT, [Open(a), Open(b)]).upgraded == {Identified(a).value, Identified(b).value}
  {
    OpenAfterOpen(INIT, a, b);
    TwoSteps(INIT, Open(a), Open(b));
    RunsAreSound(INIT, [Open(a), Open(b)]);
  }

  lemma OpenAfterOpen(s: State, a: Hello, b: Hello)
    requires Enabled(s, Open(a)) && Enabled(s, Open(b)) && !EqualFold(ConnectionOf(a), ConnectionOf(b))
    ensures Enabled(Take(s, Open(a)), Open(b))
    ensures Take(Take(s, Open(a)), Open(b)).upgraded ==
            s.upgraded + {Identified(a).value} + {Identified(b).value}
  {
    CanOpen(s, a);
    CanOpen(Take(s, Open(a)), b);
  }

  /** A new session is one more upgraded one, and takes no other's connection ID. */
  lemma CanOpen(s: State, hello: Hello)
    requires Enabled(s, Open(hello))
    ensures Take(s, Open(hello)).upgraded == s.upgraded + {Identified(hello).value}
    ensures forall conn :: Unseen(s, conn) && !EqualFold(ConnectionOf(hello), conn) ==>
              Unseen(Take(s, Open(hello)), conn)
  {
    OpenedIsGood(hello);
  }

  /** A session closed, and its Disconnect delivered, between its swap and its announcement
      is registered although it is gone. */
  lemma ClosedBeforeAnnounced(s: State, p: Provider, t: Time, u: Time)
    requires Sound(s) && p in s.upgraded && SessionOf(p) !in s.closed
    ensures var run := [Swap(p), Close(SessionOf(p)), Deliver(SessionOf(p), t)] + [Announce(p, u)];
            && IsRun(s, run) && Stray(After(s, run), MapKey(p.id)) && MapKey(p.id) !in After(s, run).sessions
  {
    var sess := SessionOf(p);
    assert p in InFlight(s) && OnItsWay(s, p);
    ThreeSteps(s, Swap(p), Close(sess), Deliver(sess, t));
    RunsAreSound(s, [Swap(p), Close(sess), Deliver(sess, t)]);
    var mid := After(s, [Swap(p), Close(sess), Deliver(sess, t)]);
    UntimelyLeavesStray(mid, p, u);
    OneMoreStep(s, [Swap(p), Close(sess), Deliver(sess, t)], Announce(p, u));
  }

  // ---- Sessions closed before they enter the map ----

  /** Every session in the map is one that can still be closed, and so removed. */
  predicate NoneDead(s: State) {
    forall key :: key in s.sessions ==> s.sessions[key] !in s.closed
  }

  /** A closed session gets into the map in one way only: it was closed (its heartbeat failed)
      between the upgrade and the swap. */
  lemma OnlyLateSwapsBringDead(s: State, step: Step)
    requires Sound(s) && Enabled(s, step) && NoneDead(s)
    ensures NoneDead(Take(s, step)) <==> !(step.Swap? && SessionOf(step.p) in s.closed)
  {
    var r := Take(s, step);
    if step.Swap? {
      assert r.sessions[MapKey(step.p.id)] == SessionOf(step.p);
    } else {
      forall key | key in r.sessions
        ensures r.sessions[key] !in r.closed
      {
        assert key in s.sessions && r.sessions[key] == s.sessions[key] && GoodAt(s, key);
      }
    }
  }

  /** Such a session stays there until the next handshake of its provider. */
  lemma DeadStays(s: State, step: Step, key: string)
    requires Enabled(s, step) && key in s.sessions && s.sessions[key] in s.closed
    requires step.Swap? ==> MapKey(step.p.id) != key
    ensures var r := Take(s, step);
            key in r.sessions && r.sessions[key] == s.sessions[key] && r.sessions[key] in r.closed
  {
  }

  // ---- Other provider factories ----

  /** The upgrade of a handshake, for whatever the factory answered. */
  function Upgraded(s: State, p: Provider): State {
    s.(upgraded := s.upgraded + {p}, past := s.past + {SessionOf(p)})
  }

  /** A whole handshake, undivided. */
  function Shake(s: State, p: Provider, now: Time): State {
    Take(Take(Upgraded(s, p), Swap(p)), Announce(p, now))
  }

  /** With a factory other than the extractor, a handshake leaves relay and registry agreeing
      exactly when the registry accepts the answer: refused, it leaves a live session the
      registry does not know. */
  lemma HandshakeNeedsAcceptance(s: State, p: Provider, now: Time)
    requires Sound(s) && TrimSpace(p.id) != "" && TrimSpace(p.connectionId) == p.connectionId
    requires Unseen(s, p.connectionId)
    ensures Enabled(Upgraded(s, p), Swap(p)) && Enabled(Take(Upgraded(s, p), Swap(p)), Announce(p, now))
    ensures AgreeAt(Shake(s, p, now), MapKey(p.id)) <==> Normalize(p, now).Some?
  {
    var key, r := MapKey(p.id), Shake(s, p, now);
    assert GoodAt(s, key) && r.sessions[key] == SessionOf(p);
    TrimTwice(p.id);
    if Normalize(p, now).None? && key in s.reg.providers {
      var owner :| owner in s.past && MapKey(owner.id) == key && owner.conn == s.reg.providers[key].connectionId;
      assert owner.conn != p.connectionId;
    }
  }

  /** Such an answer: an ID with a blank in it, which the extractor refuses. */
  lemma ForeignIdentityIsRefused(hello: Hello, now: Time)
    requires Generated(hello)
    ensures var p := Complete(Provider("a b", "", "", Active, 0, ZERO_TIME, ZERO_TIME, ZERO_TIME), hello);
            MapKey("a b") in Shake(INIT, p, now).sessions && !AgreeAt(Shake(INIT, p, now), MapKey("a b"))
    ensures Extract(["a b"], hello.labels, hello.priority).None?
  {
    var p := Complete(Provider("a b", "", "", Active, 0, ZERO_TIME, ZERO_TIME, ZERO_TIME), hello);
    TrimOfTrimmed("a b", IsSpace);
    assert !IdChar("a b"[1], false) && FirstValue(["a b"]) == "a b";
    ConnectionIsTrimmed(hello);
    HandshakeNeedsAcceptance(INIT, p, now);
  }
}
