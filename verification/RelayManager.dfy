/** The relay manager's session map against the provider registry
    (internal/wsrelay/manager.go, internal/provider/registry/identity.go and registry.go). */
module RelayManager {
  import opened Prelude
  import opened Providers
  import opened Registry

  /** A WebSocket session. Its connection ID is generated afresh at every handshake and
      stands for the object's identity. */
  datatype Sess = Sess(id: string, conn: string)

  type Sessions = map<string, Sess>

  function SessionOf(p: Provider): Sess {
    Sess(p.id, p.connectionId)
  }

  predicate KeysMatch(m: Sessions) {
    forall k :: k in m ==> MapKey(m[k].id) == k
  }

  /** The map still points at this very session. */
  predicate IsCurrent(m: Sessions, sess: Sess) {
    MapKey(sess.id) in m && m[MapKey(sess.id)] == sess
  }

  function CloseIn(m: Sessions, sess: Sess): Sessions {
    if IsCurrent(m, sess) then m - {MapKey(sess.id)} else m
  }

  // ---- Who a handshake is from ----

  /** `firstIdentityValue`: the first value that is not blank, of all headers, queries and
      cookies in turn. */
  function FirstValue(values: seq<string>): string {
    if values == [] then ""
    else if TrimSpace(values[0]) != "" then TrimSpace(values[0])
    else FirstValue(values[1..])
  }

  lemma {:induction false} FirstValueIsTrimmed(values: seq<string>)
    ensures IsTrimmed(FirstValue(values), IsSpace) && TrimSpace(FirstValue(values)) == FirstValue(values)
  {
    if values != [] {
      FirstValueIsTrimmed(values[1..]);
      TrimIsTrimmed(values[0], IsSpace);
    }
    TrimOfTrimmed(FirstValue(values), IsSpace);
  }

  /** `Extract`: refuses an ID that is given and invalid, a long label and a priority that is
      no number. It leaves a missing ID, and then a missing label, to the manager. */
  function Extract(ids: seq<string>, labels: seq<string>, priority: Option<int>): Option<Provider> {
    var id, text := FirstValue(ids), FirstValue(labels);
    if priority.None? || (id != "" && !ValidProviderId(id)) || ByteLength(text) > MAX_LABEL then None
    else
      var labelText := if text == "" then id else text;
      Some(Provider(id, labelText, "", Active, priority.value, ZERO_TIME, ZERO_TIME, ZERO_TIME))
  }

  /** What a handshake brings: the identity it states, the random text of the IDs generated
      for it, and the time. */
  datatype Hello = Hello(
    ids: seq<string>,
    labels: seq<string>,
    priority: Option<int>,
    providerHex: string,
    connectionHex: string,
    at: Time)

  /** Eight random bytes in hexadecimal, or the time when there are no random bytes. */
  predicate IsHex(s: string) {
    1 <= |s| <= 16 && forall i :: 0 <= i < |s| ==> '0' <= s[i] <= '9' || 'a' <= s[i] <= 'f'
  }

  predicate Generated(hello: Hello) {
    IsHex(hello.providerHex) && IsHex(hello.connectionHex)
  }

  function ConnectionOf(hello: Hello): string {
    "conn_" + hello.connectionHex
  }

  /** The defaults `handleWebsocket` fills in, whatever the factory answered. */
  function Complete(p: Provider, hello: Hello): Provider {
    var id := if TrimSpace(p.id) == "" then "aistudio-" + hello.providerHex else p.id;
    p.(id := id,
       labelText := if TrimSpace(p.labelText) == "" then id else p.labelText,
       state := if p.state.Unset? || p.state.Invalid? then Active else p.state,
       connectionId := ConnectionOf(hello), connectedAt := hello.at, lastSeenAt := hello.at)
  }

  lemma ConnectionIsTrimmed(hello: Hello)
    requires Generated(hello)
    ensures ConnectionOf(hello) != "" && IsTrimmed(ConnectionOf(hello), IsSpace)
    ensures TrimSpace(ConnectionOf(hello)) == ConnectionOf(hello)
  {
    var conn := ConnectionOf(hello);
    assert conn[|conn| - 1] == hello.connectionHex[|hello.connectionHex| - 1];
    TrimOfTrimmed(conn, IsSpace);
  }

  lemma ValidIdFitsLabel(id: string)
    requires ValidProviderId(id)
    ensures ByteLength(id) <= MAX_LABEL
  {
    assert forall i :: 0 <= i < |id| ==> IdChar(id[i], i == 0);
    AsciiLength(id);
  }

  lemma GeneratedIdIsValid(hex: string)
    requires IsHex(hex)
    ensures ValidProviderId("aistudio-" + hex) && TrimSpace("aistudio-" + hex) == "aistudio-" + hex
  {
    var id := "aistudio-" + hex;
    forall i | 0 <= i < |id|
      ensures IdChar(id[i], i == 0)
    {
      assert i >= 9 ==> id[i] == hex[i - 9];
    }
    assert id[|id| - 1] == hex[|hex| - 1];
    TrimOfTrimmed(id, IsSpace);
  }

  /** Every identity the extractor lets through, completed by the manager, is accepted by the
      registry and stored under the ID, label and connection the session has. */
  lemma ExtractedIsAccepted(hello: Hello, now: Time)
    requires Generated(hello) && Extract(hello.ids, hello.labels, hello.priority).Some?
    ensures var p := Complete(Extract(hello.ids, hello.labels, hello.priority).value, hello);
            && Normalize(p, now).Some? && TrimSpace(p.id) == p.id && p.connectionId == ConnectionOf(hello)
            && Normalize(p, now).value == p.(connectedAt := if hello.at == ZERO_TIME then now else hello.at,
                                             lastSeenAt := if hello.at == ZERO_TIME then now else hello.at)
  {
    FirstValueIsTrimmed(hello.ids);
    FirstValueIsTrimmed(hello.labels);
    ConnectionIsTrimmed(hello);
    GeneratedIdIsValid(hello.providerHex);
    ValidIdFitsLabel(if FirstValue(hello.ids) == "" then "aistudio-" + hello.providerHex else FirstValue(hello.ids));
  }

  class Manager {
    var sessions: Sessions

    /** Every session sits under its own key. */
    ghost predicate Valid()
      reads this
    {
      KeysMatch(sessions)
    }

    constructor ()
      ensures Valid() && sessions == map[]
    {
      sessions := map[];
    }

    /** The swap under the lock: returns the session it displaces. */
    method Install(sess: Sess) returns (replaced: Option<Sess>)
      requires Valid()
      modifies this
      ensures Valid() && sessions == old(sessions)[MapKey(sess.id) := sess]
      ensures replaced == if MapKey(sess.id) in old(sessions) then Some(old(sessions)[MapKey(sess.id)]) else None
    {
      var key := MapKey(sess.id);
      replaced := None;
      if key in sessions {
        replaced := Some(sessions[key]);
      }
      sessions := sessions[key := sess];
    }

    /** Reports whether OnDisconnected must be told. */
    method HandleSessionClosed(sess: Sess) returns (notify: bool)
      requires Valid()
      modifies this
      ensures Valid() && notify == IsCurrent(old(sessions), sess)
      ensures sessions == CloseIn(old(sessions), sess)
    {
      var key := MapKey(sess.id);
      notify := false;
      if key in sessions && sessions[key] == sess {
        sessions := sessions - {key};
        notify := true;
      }
    }

    /** A handshake: an identity that is refused changes nothing. Otherwise swap, close the
        displaced session, announce the new one. Closing the displaced session never removes
        the new one and never reports a disconnection. */
    method HandleWebsocket(registry: Registry, hello: Hello, now: Time) returns (accepted: bool, notified: bool)
      requires Valid() && forall k :: k in sessions ==> sessions[k].conn != ConnectionOf(hello)
      modifies this, registry
      ensures Valid() && accepted == Extract(hello.ids, hello.labels, hello.priority).Some? && !notified
      ensures !accepted ==> sessions == old(sessions) && registry.State() == old(registry.State())
      ensures accepted ==>
                var p := Complete(Extract(hello.ids, hello.labels, hello.priority).value, hello);
                && sessions == old(sessions)[MapKey(p.id) := SessionOf(p)]
                && registry.State() == Apply(old(registry.State()), Event(now, OpRegister(p)))
    {
      var identity := Extract(hello.ids, hello.labels, hello.priority);
      if identity.None? {
        return false, false;
      }
      var p := Complete(identity.value, hello);
      var replaced := Install(SessionOf(p));
      accepted, notified := true, false;
      if replaced.Some? {
        notified := HandleSessionClosed(replaced.value);
      }
      var _ := registry.Register(p, now);
    }

    /** Closes every session of a snapshot; each is reported exactly once. */
    method Stop() returns (notified: seq<Sess>)
      requires Valid()
      modifies this
      ensures Valid() && sessions == map[]
      ensures forall sess :: sess in notified <==> sess in old(sessions).Values
      ensures forall i, j :: 0 <= i < j < |notified| ==> notified[i] != notified[j]
    {
      var snapshot := sessions.Values;
      notified := [];
      while snapshot != {}
        invariant Valid() && snapshot == sessions.Values
        invariant sessions.Keys <= old(sessions).Keys && forall k :: k in sessions ==> sessions[k] == old(sessions)[k]
        invariant forall sess :: sess in notified <==> sess in old(sessions).Values && sess !in snapshot
        invariant forall i, j :: 0 <= i < j < |notified| ==> notified[i] != notified[j]
        decreases snapshot
      {
        var sess :| sess in snapshot;
        ghost var before := sessions;
        var told := HandleSessionClosed(sess);
        if told {
          notified := notified + [sess];
        }
        snapshot := snapshot - {sess};
        ClosedValues(before, sess);
      }
    }
  }

  lemma ClosedValues(m: Sessions, sess: Sess)
    requires KeysMatch(m)
    requires sess in m.Values
    ensures IsCurrent(m, sess) && CloseIn(m, sess).Values == m.Values - {sess}
  {
    var r := CloseIn(m, sess);
    forall v ensures v in r.Values <==> v in m.Values - {sess} {
      if v in r.Values {
        var k :| k in r && r[k] == v;
        assert m[k] == v && MapKey(v.id) == k;
      }
      if v in m.Values - {sess} {
        var k :| k in m && m[k] == v;
        assert k in r && r[k] == v;
      }
    }
  }
}
