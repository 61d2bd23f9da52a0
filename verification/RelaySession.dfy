/** One provider connection and its pending requests (internal/wsrelay/session.go):
    the response slot, the critical sections of a session, and every interleaving of
    request, dispatch, context watcher and cleanup. */
module RelaySession {
  import opened Prelude

  datatype Kind = HttpRequest | HttpResponse | StreamStart | StreamChunk | StreamEnd | Error | Ping | Pong | Unknown

  predicate Terminal(k: Kind) {
    k.HttpResponse? || k.StreamEnd? || k.Error?
  }

  datatype Message = Message(id: string, kind: Kind, text: string)

  const CAPACITY: nat := 16

  // ---- The response slot ----

  /** A `pendingRequest`: everything ever put into its channel, how much the caller has
      taken out, its flags, and the two accidents a Go channel can have. */
  datatype Slot = Slot(log: seq<Message>, taken: nat, closed: bool, onceDone: bool,
                       chanClosed: bool, dropped: bool, panicked: bool)

  const FRESH_SLOT := Slot([], 0, false, false, false, false, false)

  /** A non-blocking channel send: panics on a closed channel, drops on a full one. */
  function RawSend(s: Slot, msg: Message): Slot {
    if s.chanClosed then s.(panicked := true)
    else if |s.log| - s.taken >= CAPACITY then s.(dropped := true)
    else s.(log := s.log + [msg])
  }

  function SlotSend(s: Slot, msg: Message): Slot {
    if s.closed then s else RawSend(s, msg)
  }

  function SlotClose(s: Slot): Slot {
    if s.onceDone then s
    else s.(onceDone := true, closed := true, panicked := s.panicked || s.chanClosed, chanClosed := true)
  }

  function SlotReceive(s: Slot): Slot {
    if s.taken < |s.log| then s.(taken := s.taken + 1) else s
  }

  class PendingRequest {
    var log: seq<Message>
    var taken: nat
    var closed: bool
    var onceDone: bool
    var chanClosed: bool
    ghost var dropped: bool
    ghost var panicked: bool

    ghost function Value(): Slot
      reads this
    {
      Slot(log, taken, closed, onceDone, chanClosed, dropped, panicked)
    }

    constructor ()
      ensures Value() == FRESH_SLOT
    {
      log, taken, closed, onceDone, chanClosed := [], 0, false, false, false;
      dropped, panicked := false, false;
    }

    method TrySend(msg: Message) returns (ok: bool)
      modifies this
      ensures Value() == SlotSend(old(Value()), msg) && ok == !old(closed)
    {
      if closed {
        return false;
      }
      if chanClosed {
        panicked := true;
      } else if |log| < taken + CAPACITY {
        log := log + [msg];
      } else {
        dropped := true;
      }
      return true;
    }

    method Close()
      modifies this
      ensures Value() == SlotClose(old(Value()))
    {
      if !onceDone {
        onceDone := true;
        closed := true;
        if chanClosed {
          panicked := true;
        }
        chanClosed := true;
      }
    }
  }

  // ---- The pending map ----

  function RemoveIf<T(==)>(pending: map<string, T>, id: string, req: T): map<string, T> {
    if id in pending && pending[id] == req then pending - {id} else pending
  }

  /** What a dispatched message leaves pending: a terminal one takes its request out. */
  function AfterLookup<T>(pending: map<string, T>, msg: Message): map<string, T> {
    if msg.id in pending && Terminal(msg.kind) then pending - {msg.id} else pending
  }

  /** The shared state of a session; each method is one critical section. */
  class Session {
    var closed: bool
    var cleaned: bool
    var pending: map<string, PendingRequest>

    constructor ()
      ensures !closed && !cleaned && pending == map[]
    {
      closed, cleaned, pending := false, false, map[];
    }

    method Register(id: string, req: PendingRequest) returns (ok: bool)
      modifies this`pending
      ensures ok == (id !in old(pending))
      ensures pending == if ok then old(pending)[id := req] else old(pending)
    {
      if id in pending {
        return false;
      }
      pending := pending[id := req];
      return true;
    }

    method Unlist(id: string, req: PendingRequest) returns (removed: bool)
      modifies this`pending
      ensures pending == RemoveIf(old(pending), id, req)
      ensures removed <==> id in old(pending) && old(pending)[id] == req
    {
      if id in pending && pending[id] == req {
        pending := pending - {id};
        return true;
      }
      return false;
    }

    method Lookup(msg: Message) returns (req: PendingRequest?)
      modifies this`pending
      ensures pending == AfterLookup(old(pending), msg)
      ensures msg.kind in {HttpResponse, StreamEnd, Error} ==> pending == old(pending) - {msg.id}
      ensures msg.kind !in {HttpResponse, StreamEnd, Error} ==> pending == old(pending)
      ensures if msg.id in old(pending) then req == old(pending)[msg.id] else req == null
    {
      if msg.id !in pending {
        return null;
      }
      req := pending[msg.id];
      if Terminal(msg.kind) {
        pending := pending - {msg.id};
      }
    }

    method Harvest() returns (harvested: map<string, PendingRequest>)
      modifies this`pending
      ensures harvested == old(pending) && pending == map[]
    {
      harvested := pending;
      pending := map[];
    }

    /** `cleanup`: once only, every harvested request is sent the error and closed. */
    method Cleanup(cause: string)
      requires forall i, j :: i in pending && j in pending && pending[i] == pending[j] ==> i == j
      modifies this, pending.Values
      ensures cleaned
      ensures old(cleaned) ==> closed == old(closed) && pending == old(pending)
      ensures old(cleaned) ==> forall id :: id in pending ==> pending[id].Value() == old(pending[id].Value())
      ensures !old(cleaned) ==> closed && pending == map[]
      ensures !old(cleaned) ==> forall id :: id in old(pending) ==>
                old(pending)[id].Value() == SlotClose(SlotSend(old(pending[id].Value()), Message(id, Error, cause)))
    {
      if cleaned {
        return;
      }
      cleaned := true;
      closed := true;
      var harvested := Harvest();
      NotifyAll(harvested, cause);
    }
  }

  /** Sends every harvested request the error and closes it, in any order. */
  method NotifyAll(harvested: map<string, PendingRequest>, cause: string)
    requires forall i, j :: i in harvested && j in harvested && harvested[i] == harvested[j] ==> i == j
    modifies harvested.Values
    ensures forall id :: id in harvested ==>
              harvested[id].Value() == SlotClose(SlotSend(old(harvested[id].Value()), Message(id, Error, cause)))
  {
    var todo := harvested.Keys;
    while todo != {}
      invariant todo <= harvested.Keys
      invariant forall id :: id in todo ==> harvested[id].Value() == old(harvested[id].Value())
      invariant forall id :: id in harvested.Keys - todo ==>
                  harvested[id].Value() == SlotClose(SlotSend(old(harvested[id].Value()), Message(id, Error, cause)))
      decreases |todo|
    {
      var id :| id in todo;
      var req := harvested[id];
      var sent := req.TrySend(Message(id, Error, cause));
      req.Close();
      todo := todo - {id};
    }
  }

  // ---- Interleavings ----

  type Rid = nat

  /** Where a `request` call and its context watcher are. */
  datatype Call =
    | Registered            // in the map, before the closed check of send
    | Writing               // passed the check, writing to the socket
    | Failed                // send failed, slot not yet taken out of the map
    | Unlisted              // slot taken out, about to close it
    | Watching              // channel handed to the caller, watcher waiting
    | Cancelled             // watcher took the slot out, about to close it
    | Ended

  /** Where the read loop is inside `dispatch`. */
  datatype Reader = Idle | Holding(req: Rid, msg: Message) | Closing(req: Rid)

  /** Where `cleanup` is, and for what cause; `current` is the request whose error is sent,
      slot not yet closed. */
  datatype Cleaner =
    | NotStarted
    | Flagged(cause: string)
    | Draining(cause: string, todo: map<string, Rid>, current: Option<string>)
    | Finished(cause: string)

  /** One `request` call: its ID, its slot, and the messages with that ID that arrived
      since it registered. */
  datatype Req = Req(id: string, slot: Slot, call: Call, arrivals: seq<Message>)

  datatype State = State(closed: bool, pending: map<string, Rid>, reqs: map<Rid, Req>, reader: Reader, cleaner: Cleaner)

  const INIT := State(false, map[], map[], Idle, NotStarted)

  datatype Step =
    | DoRegister(r: Rid, id: string)
    | DoCheck(r: Rid, ctxDone: bool)
    | DoWrite(r: Rid, ok: bool)
    | DoUnlist(r: Rid)
    | DoCloseFailed(r: Rid)
    | DoWatchClosed(r: Rid)
    | DoWatchCancel(r: Rid)
    | DoCloseCancelled(r: Rid)
    | DoLookup(msg: Message)
    | DoDeliver
    | DoCloseDelivered
    | DoReceive(r: Rid)
    | DoFlag(cause: string)
    | DoHarvest
    | DoSendError(id: string)
    | DoCloseHarvested
    | DoFinish

  predicate At(s: State, r: Rid, c: Call) {
    r in s.reqs && s.reqs[r].call == c
  }

  predicate Enabled(s: State, step: Step) {
    match step
    case DoRegister(r, id) => r !in s.reqs && id != ""
    case DoCheck(r, _) => At(s, r, Registered)
    case DoWrite(r, _) => At(s, r, Writing)
    case DoUnlist(r) => At(s, r, Failed)
    case DoCloseFailed(r) => At(s, r, Unlisted)
    case DoWatchClosed(r) => At(s, r, Watching) && s.closed
    case DoWatchCancel(r) => At(s, r, Watching)
    case DoCloseCancelled(r) => At(s, r, Cancelled)
    case DoLookup(msg) => s.reader.Idle? && !msg.kind.Ping? && !msg.kind.Pong?
    case DoDeliver => s.reader.Holding? && s.reader.req in s.reqs
    case DoCloseDelivered => s.reader.Closing? && s.reader.req in s.reqs
    case DoReceive(r) => r in s.reqs
    case DoFlag(_) => s.cleaner.NotStarted?
    case DoHarvest => s.cleaner.Flagged?
    case DoSendError(id) =>
      s.cleaner.Draining? && s.cleaner.current.None? && id in s.cleaner.todo && s.cleaner.todo[id] in s.reqs
    case DoCloseHarvested =>
      s.cleaner.Draining? && s.cleaner.current.Some? && s.cleaner.current.value in s.cleaner.todo &&
      s.cleaner.todo[s.cleaner.current.value] in s.reqs
    case DoFinish => s.cleaner.Draining? && s.cleaner.current.None? && s.cleaner.todo == map[]
  }

  function SetCall(s: State, r: Rid, c: Call): State
    requires r in s.reqs
  {
    s.(reqs := s.reqs[r := s.reqs[r].(call := c)])
  }

  function SetSlot(s: State, r: Rid, slot: Slot): State
    requires r in s.reqs
  {
    s.(reqs := s.reqs[r := s.reqs[r].(slot := slot)])
  }

  function TakeOut(s: State, r: Rid): State
    requires r in s.reqs
  {
    s.(pending := RemoveIf(s.pending, s.reqs[r].id, r))
  }

  function RecordArrival(reqs: map<Rid, Req>, msg: Message): map<Rid, Req> {
    map r | r in reqs :: if reqs[r].id == msg.id then reqs[r].(arrivals := reqs[r].arrivals + [msg]) else reqs[r]
  }

  /** One atomic step of one actor. */
  function Apply(s: State, step: Step): State
    requires Enabled(s, step)
  {
    match step
    case DoRegister(r, id) =>
      if id in s.pending then s
      else s.(pending := s.pending[id := r], reqs := s.reqs[r := Req(id, FRESH_SLOT, Registered, [])])
    case DoCheck(r, ctxDone) => SetCall(s, r, if s.closed || ctxDone then Failed else Writing)
    case DoWrite(r, ok) => SetCall(s, r, if ok then Watching else Failed)
    case DoUnlist(r) => SetCall(TakeOut(s, r), r, Unlisted)
    case DoCloseFailed(r) => CloseAndEnd(s, r)
    case DoWatchClosed(r) => SetCall(s, r, Ended)
    case DoWatchCancel(r) => if IsPending(s, r) then SetCall(TakeOut(s, r), r, Cancelled) else SetCall(s, r, Ended)
    case DoCloseCancelled(r) => CloseAndEnd(s, r)
    case DoLookup(msg) =>
      s.(pending := AfterLookup(s.pending, msg), reqs := RecordArrival(s.reqs, msg),
         reader := if msg.id in s.pending then Holding(s.pending[msg.id], msg) else Idle)
    case DoDeliver =>
      var r, msg := s.reader.req, s.reader.msg;
      SetSlot(s, r, SlotSend(s.reqs[r].slot, msg)).(reader := if Terminal(msg.kind) then Closing(r) else Idle)
    case DoCloseDelivered =>
      SetSlot(s, s.reader.req, SlotClose(s.reqs[s.reader.req].slot)).(reader := Idle)
    case DoReceive(r) => SetSlot(s, r, SlotReceive(s.reqs[r].slot))
    case DoFlag(cause) => s.(closed := true, cleaner := Flagged(cause))
    case DoHarvest => s.(pending := map[], cleaner := Draining(s.cleaner.cause, s.pending, None))
    case DoSendError(id) =>
      var r := s.cleaner.todo[id];
      SetSlot(s, r, SlotSend(s.reqs[r].slot, Message(id, Error, s.cleaner.cause)))
      .(cleaner := s.cleaner.(current := Some(id)))
    case DoCloseHarvested =>
      var id := s.cleaner.current.value;
      var r := s.cleaner.todo[id];
      SetSlot(s, r, SlotClose(s.reqs[r].slot)).(cleaner := s.cleaner.(todo := s.cleaner.todo - {id}, current := None))
    case DoFinish => s.(cleaner := Finished(s.cleaner.cause))
  }

  function CloseAndEnd(s: State, r: Rid): State
    requires r in s.reqs
  {
    SetSlot(SetCall(s, r, Ended), r, SlotClose(s.reqs[r].slot))
  }

  predicate IsPending(s: State, r: Rid)
    requires r in s.reqs
  {
    s.reqs[r].id in s.pending && s.pending[s.reqs[r].id] == r
  }

  /** A run: any list of enabled steps. */
  ghost predicate IsRun(steps: seq<Step>)
    decreases |steps|, 0
  {
    steps == [] || (IsRun(steps[..|steps| - 1]) && Enabled(After(steps[..|steps| - 1]), steps[|steps| - 1]))
  }

  ghost function After(steps: seq<Step>): State
    requires IsRun(steps)
    decreases |steps|, 1
  {
    if steps == [] then INIT else Apply(After(steps[..|steps| - 1]), steps[|steps| - 1])
  }

  // ---- What one request sees of the state ----

  /** The part of the state that concerns one request. */
  datatype View = View(
    slot: Slot,
    call: Call,
    arrivals: seq<Message>,
    id: string,
    pending: bool,                 // in the pending map
    holding: Option<Message>,      // looked up by the read loop, not yet sent
    closing: bool,                 // sent a terminal message, about to be closed
    harvested: bool,               // on cleanup's list
    erred: bool,                   // sent cleanup's error, about to be closed
    connClosed: bool,
    cause: Option<string>)         // cleanup's, once it has harvested

  function ViewOf(s: State, r: Rid): View
    requires r in s.reqs
  {
    var q := s.reqs[r];
    var listed := s.cleaner.Draining? && q.id in s.cleaner.todo && s.cleaner.todo[q.id] == r;
    View(q.slot, q.call, q.arrivals, q.id,
         IsPending(s, r),
         if s.reader.Holding? && s.reader.req == r then Some(s.reader.msg) else None,
         s.reader == Closing(r),
         listed,
         listed && s.cleaner.current == Some(q.id),
         s.closed,
         CauseOf(s.cleaner))
  }

  function CauseOf(c: Cleaner): Option<string> {
    if c.Draining? || c.Finished? then Some(c.cause) else None
  }

  predicate NoTerminal(log: seq<Message>) {
    forall m :: m in log ==> !Terminal(m.kind)
  }

  function TerminalCount(log: seq<Message>): nat {
    if log == [] then 0
    else TerminalCount(log[..|log| - 1]) + if Terminal(log[|log| - 1].kind) then 1 else 0
  }

  /** The log up to and including its first terminal message. */
  function UpToTerminal(log: seq<Message>): seq<Message> {
    if log == [] then []
    else if Terminal(log[0].kind) then [log[0]]
    else [log[0]] + UpToTerminal(log[1..])
  }

  /** The right to send the terminal message: whoever took the request out of the map. */
  function Tokens(v: View): nat {
    (if v.pending then 1 else 0) +
    (if v.holding.Some? && Terminal(v.holding.value.kind) then 1 else 0) +
    (if v.closing then 1 else 0) +
    (if v.harvested then 1 else 0) +
    (if v.call == Cancelled then 1 else 0)
  }

  /** `log` ends with cleanup's error for this request. */
  predicate EndsInCleanupError(log: seq<Message>, id: string, cause: Option<string>) {
    cause.Some? && log != [] && log[|log| - 1] == Message(id, Error, cause.value)
  }

  /** Arrivals in order, possibly followed by the cleanup error. */
  predicate Faithful(log: seq<Message>, arrivals: seq<Message>, id: string, cause: Option<string>) {
    var cut := UpToTerminal(log);
    cut <= arrivals || (EndsInCleanupError(cut, id, cause) && cut[..|cut| - 1] <= arrivals)
  }

  /** The messages of `a` are among those of `b`, in the same order. */
  predicate Subsequence<T(==)>(a: seq<T>, b: seq<T>) {
    a == [] ||
    (b != [] &&
     (Subsequence(a, b[..|b| - 1]) ||
      (a[|a| - 1] == b[|b| - 1] && Subsequence(a[..|a| - 1], b[..|b| - 1]))))
  }

  /** Some of the arrivals in order, possibly followed by the cleanup error. */
  predicate InOrder(log: seq<Message>, arrivals: seq<Message>, id: string, cause: Option<string>) {
    var cut := UpToTerminal(log);
    Subsequence(cut, arrivals) || (EndsInCleanupError(cut, id, cause) && Subsequence(cut[..|cut| - 1], arrivals))
  }

  /** After its first terminal message a log grows by at most the one message that the read
      loop held when cleanup sent its error. */
  predicate TailInv(v: View) {
    var cut := UpToTerminal(v.slot.log);
    && |v.slot.log| <= |cut| + 1
    && (|v.slot.log| > |cut| ==> v.holding.None? && !v.pending && EndsInCleanupError(cut, v.id, v.cause))
    && (v.holding.Some? && !NoTerminal(v.slot.log) ==> EndsInCleanupError(v.slot.log, v.id, v.cause))
  }

  predicate SafetyInv(v: View) {
    // The channel is never misused, and its three flags move together.
    && !v.slot.panicked && v.slot.closed == v.slot.onceDone == v.slot.chanClosed
    && v.slot.taken <= |v.slot.log|
    // The token is exclusive, and no one else sends a terminal message.
    && Tokens(v) <= 1 && TerminalCount(v.slot.log) <= 1
    && (v.pending || (v.holding.Some? && Terminal(v.holding.value.kind)) || (v.harvested && !v.erred) ==>
          NoTerminal(v.slot.log))
    && (v.erred ==> v.harvested) && (v.holding.Some? ==> !v.closing)
    // No orphan: an open channel is in the map or has an owner about to close it.
    && (v.pending ==> !v.slot.closed && (v.call.Registered? || v.call.Writing? || v.call.Failed? || v.call.Watching? ||
                                         (v.call.Ended? && v.connClosed)))
    && (!v.slot.closed ==> Tokens(v) == 1 || v.call.Failed? || v.call.Unlisted?)
    && (v.cause.Some? ==> v.connClosed) && (v.harvested ==> v.cause.Some?)
    && (v.cause.Some? && v.pending ==> v.call.Registered? || v.call.Failed?)
  }

  /** Delivery, as long as nothing was dropped. */
  predicate DeliveryInv(v: View) {
    !v.slot.dropped ==>
      && (NoTerminal(v.slot.log) ==> v.slot.log <= v.arrivals)
      && (NoTerminal(v.slot.log) && v.holding.Some? ==> v.slot.log + [v.holding.value] <= v.arrivals)
      && (v.pending ==> v.arrivals == v.slot.log + (if v.holding.Some? then [v.holding.value] else []))
      && Faithful(v.slot.log, v.arrivals, v.id, v.cause)
  }

  /** Order, whatever was dropped. */
  predicate OrderInv(v: View) {
    && (NoTerminal(v.slot.log) ==> Subsequence(v.slot.log, v.arrivals))
    && (NoTerminal(v.slot.log) && v.holding.Some? ==> Subsequence(v.slot.log + [v.holding.value], v.arrivals))
    && InOrder(v.slot.log, v.arrivals, v.id, v.cause)
  }

  predicate ViewInv(v: View) {
    SafetyInv(v) && TailInv(v) && DeliveryInv(v) && OrderInv(v)
  }

  /** The tables of the state fit together. */
  ghost predicate Shape(s: State) {
    && (forall id :: id in s.pending ==> s.pending[id] in s.reqs && s.reqs[s.pending[id]].id == id)
    && (s.reader.Holding? || s.reader.Closing? ==> s.reader.req in s.reqs)
    && (s.reader.Holding? ==> s.reqs[s.reader.req].id == s.reader.msg.id)
    && (s.cleaner.Draining? ==>
          && (forall id :: id in s.cleaner.todo ==> s.cleaner.todo[id] in s.reqs && s.reqs[s.cleaner.todo[id]].id == id)
          && (s.cleaner.current.Some? ==> s.cleaner.current.value in s.cleaner.todo))
    && (s.closed <==> !s.cleaner.NotStarted?)
  }

  /** The invariant of a session. */
  ghost predicate Inv(s: State) {
    Shape(s) && forall r :: r in s.reqs ==> ViewInv(ViewOf(s, r))
  }

  /** Only `r` sees a difference between two states. */
  ghost predicate OnlyFor(s: State, t: State, r: Rid)
    requires Shape(s)
  {
    && Shape(t) && r in t.reqs && t.reqs.Keys == s.reqs.Keys + {r}
    && forall q :: q in s.reqs && q != r ==> ViewOf(t, q) == ViewOf(s, q)
  }

  lemma OnlyForKeeps(s: State, t: State, r: Rid)
    requires Inv(s) && OnlyFor(s, t, r) && ViewInv(ViewOf(t, r))
    ensures Inv(t)
  {
  }

  // ---- Appending to a log ----

  lemma {:induction false} UpToTerminalAppend(log: seq<Message>, m: Message)
    ensures UpToTerminal(log + [m]) == if NoTerminal(log) then log + [m] else UpToTerminal(log)
    ensures NoTerminal(log) ==> UpToTerminal(log) == log
  {
    if log != [] {
      UpToTerminalAppend(log[1..], m);
      assert (log + [m])[1..] == log[1..] + [m];
      assert forall x :: x in log <==> x == log[0] || x in log[1..];
    }
  }

  lemma {:induction false} CutIsPrefix(log: seq<Message>)
    ensures UpToTerminal(log) <= log
  {
    if log != [] && !Terminal(log[0].kind) {
      CutIsPrefix(log[1..]);
      assert log == [log[0]] + log[1..];
    }
  }

  lemma {:induction false} TerminalCountFacts(log: seq<Message>, m: Message)
    ensures TerminalCount(log + [m]) == TerminalCount(log) + if Terminal(m.kind) then 1 else 0
    ensures TerminalCount(log) == 0 <==> NoTerminal(log)
  {
    assert (log + [m])[..|log|] == log;
    if log != [] {
      TerminalCountFacts(log[..|log| - 1], m);
      assert log == log[..|log| - 1] + [log[|log| - 1]];
    }
  }

  lemma FaithfulGrows(log: seq<Message>, arrivals: seq<Message>, more: seq<Message>, id: string, cause: Option<string>)
    requires Faithful(log, arrivals, id, cause)
    ensures Faithful(log, arrivals + more, id, cause)
  {
  }

  lemma SubsequenceGrows<T>(a: seq<T>, b: seq<T>, x: T)
    requires Subsequence(a, b)
    ensures Subsequence(a, b + [x]) && Subsequence(a + [x], b + [x])
  {
    assert (b + [x])[..|b|] == b && (a + [x])[..|a|] == a;
  }

  // ---- What each kind of step does to a view ----

  /** The read loop lets go of a message that could not be sent. */
  lemma LetGoKeeps(v: View, dropped: bool)
    requires ViewInv(v) && v.holding.Some? && (dropped || v.slot.closed)
    ensures ViewInv(v.(slot := v.slot.(dropped := v.slot.dropped || dropped), holding := None,
                       closing := Terminal(v.holding.value.kind)))
  {
  }

  function Put(v: View): View
    requires v.holding.Some?
  {
    v.(slot := v.slot.(log := v.slot.log + [v.holding.value]),
       holding := None, closing := Terminal(v.holding.value.kind))
  }

  lemma PutIsSafe(v: View)
    requires SafetyInv(v) && v.holding.Some? && !v.slot.closed
    ensures SafetyInv(Put(v))
  {
    LogAppend(v.slot.log, v.holding.value);
  }

  lemma PutKeepsTail(v: View)
    requires SafetyInv(v) && TailInv(v) && v.holding.Some?
    ensures TailInv(Put(v))
  {
    UpToTerminalAppend(v.slot.log, v.holding.value);
    CutIsPrefix(v.slot.log);
  }

  lemma PutKeepsDelivery(v: View)
    requires SafetyInv(v) && DeliveryInv(v) && v.holding.Some?
    ensures DeliveryInv(Put(v))
  {
    LogAppend(v.slot.log, v.holding.value);
    if !v.slot.dropped {
      FaithfulAppend(v.slot.log, v.holding.value, v.arrivals, v.id, v.cause);
    }
  }

  lemma PutKeepsOrder(v: View)
    requires OrderInv(v) && v.holding.Some?
    ensures OrderInv(Put(v))
  {
    UpToTerminalAppend(v.slot.log, v.holding.value);
    LogAppend(v.slot.log, v.holding.value);
  }

  /** The read loop sends what it looked up. */
  lemma DeliverKeeps(v: View)
    requires ViewInv(v) && v.holding.Some?
    ensures var m := v.holding.value;
            ViewInv(v.(slot := SlotSend(v.slot, m), holding := None, closing := Terminal(m.kind)))
  {
    if v.slot.closed {
      LetGoKeeps(v, false);
    } else if |v.slot.log| - v.slot.taken >= CAPACITY {
      LetGoKeeps(v, true);
    } else {
      PutIsSafe(v);
      PutKeepsTail(v);
      PutKeepsDelivery(v);
      PutKeepsOrder(v);
    }
  }

  lemma LogAppend(log: seq<Message>, m: Message)
    ensures NoTerminal(log + [m]) <==> NoTerminal(log) && !Terminal(m.kind)
    ensures TerminalCount(log + [m]) == TerminalCount(log) + if Terminal(m.kind) then 1 else 0
    ensures TerminalCount(log) == 0 <==> NoTerminal(log)
  {
    TerminalCountFacts(log, m);
    TerminalCountFacts(log + [m], m);
  }

  /** One more message, in order if it is the first terminal or comes before any. */
  lemma FaithfulAppend(log: seq<Message>, m: Message, arrivals: seq<Message>, id: string, cause: Option<string>)
    requires Faithful(log, arrivals, id, cause)
    requires NoTerminal(log) ==> log + [m] <= arrivals
    ensures Faithful(log + [m], arrivals, id, cause)
  {
    UpToTerminalAppend(log, m);
  }

  lemma ErrorIsFaithful(log: seq<Message>, arrivals: seq<Message>, m: Message)
    requires NoTerminal(log) && log <= arrivals && m.kind == Error
    ensures Faithful(log + [m], arrivals, m.id, Some(m.text))
  {
    UpToTerminalAppend(log, m);
    assert (log + [m])[..|log|] == log;
  }

  lemma ErrorIsInOrder(log: seq<Message>, arrivals: seq<Message>, m: Message)
    requires NoTerminal(log) && Subsequence(log, arrivals) && m.kind == Error
    ensures InOrder(log + [m], arrivals, m.id, Some(m.text))
  {
    UpToTerminalAppend(log, m);
    assert (log + [m])[..|log|] == log;
  }

  lemma ErrorEndsLog(log: seq<Message>, m: Message)
    requires NoTerminal(log) && m.kind == Error
    ensures !NoTerminal(log + [m]) && TerminalCount(log + [m]) == 1 && UpToTerminal(log + [m]) == log + [m]
  {
    UpToTerminalAppend(log, m);
    TerminalCountFacts(log, m);
    assert m in log + [m];
  }

  lemma ErrorIsSafe(v: View, log: seq<Message>)
    requires SafetyInv(v) && v.harvested && !v.erred
    requires log == v.slot.log || (!NoTerminal(log) && TerminalCount(log) == 1 && |log| == |v.slot.log| + 1)
    ensures SafetyInv(v.(slot := v.slot.(log := log), erred := true))
  {
  }

  /** Cleanup sends its error. */
  lemma ErrorKeeps(v: View)
    requires ViewInv(v) && v.harvested && !v.erred
    ensures ViewInv(v.(slot := SlotSend(v.slot, Message(v.id, Error, v.cause.value)), erred := true))
  {
    var m := Message(v.id, Error, v.cause.value);
    var slot := SlotSend(v.slot, m);
    ErrorEndsLog(v.slot.log, m);
    ErrorIsSafe(v, slot.log);
    assert TailInv(v.(slot := slot, erred := true));
    ErrorIsInOrder(v.slot.log, v.arrivals, m);
    if !v.slot.dropped {
      ErrorIsFaithful(v.slot.log, v.arrivals, m);
    }
  }

  /** An owner closes the channel and lets go. */
  lemma CloseKeeps(v: View, w: View)
    requires ViewInv(v)
    requires w.slot == SlotClose(v.slot) && w.(slot := v.slot, closing := v.closing, harvested := v.harvested,
                                               erred := v.erred, call := v.call) == v
    requires !v.pending
    requires || (v.closing && !w.closing && w.call == v.call && w.harvested == v.harvested && w.erred == v.erred)
             || (v.erred && !w.harvested && !w.erred && w.closing == v.closing && w.call == v.call)
             || ((v.call.Cancelled? || v.call.Unlisted?) && w.call.Ended? && w.closing == v.closing &&
                 w.harvested == v.harvested && w.erred == v.erred)
    ensures ViewInv(w)
  {
  }

  /** A message with the request's ID is looked up. */
  lemma ArriveKeeps(v: View, m: Message)
    requires ViewInv(v) && v.holding.None? && !v.closing && m.id == v.id
    ensures ViewInv(v.(arrivals := v.arrivals + [m], pending := v.pending && !Terminal(m.kind),
                       holding := if v.pending then Some(m) else None))
  {
    if !v.slot.dropped {
      FaithfulGrows(v.slot.log, v.arrivals, [m], v.id, v.cause);
    }
    ArriveKeepsOrder(v, m);
  }

  lemma ArriveKeepsOrder(v: View, m: Message)
    requires OrderInv(v)
    ensures OrderInv(v.(arrivals := v.arrivals + [m], pending := v.pending && !Terminal(m.kind),
                        holding := if v.pending then Some(m) else None))
  {
    var cut := UpToTerminal(v.slot.log);
    if NoTerminal(v.slot.log) {
      SubsequenceGrows(v.slot.log, v.arrivals, m);
    }
    if Subsequence(cut, v.arrivals) {
      SubsequenceGrows(cut, v.arrivals, m);
    } else {
      SubsequenceGrows(cut[..|cut| - 1], v.arrivals, m);
    }
  }

  /** A call or its watcher moves on without touching the channel. */
  lemma CallKeeps(v: View, c: Call)
    requires ViewInv(v)
    requires || (v.call.Registered? && c.Failed?)
             || (v.call.Registered? && c.Writing? && !v.connClosed)
             || (v.call.Writing? && c.Failed?)
             || (v.call.Writing? && c.Watching?)
             || (v.call.Watching? && c.Ended? && (!v.pending || v.connClosed))
    ensures ViewInv(v.(call := c))
  {
  }

  // ---- What each step changes, and for whom ----

  /** Rewriting a request's record, its ID kept. */
  lemma RecordShape(s: State, r: Rid, q: Req)
    requires Shape(s) && r in s.reqs && q.id == s.reqs[r].id
    ensures Shape(s.(reqs := s.reqs[r := q]))
  {
    var t := s.(reqs := s.reqs[r := q]);
    assert forall x :: x in s.reqs ==> x in t.reqs && t.reqs[x].id == s.reqs[x].id;
  }

  lemma RecordChanges(s: State, r: Rid, q: Req)
    requires Shape(s) && r in s.reqs && q.id == s.reqs[r].id
    ensures var t := s.(reqs := s.reqs[r := q]);
            && OnlyFor(s, t, r)
            && ViewOf(t, r) == ViewOf(s, r).(slot := q.slot, call := q.call, arrivals := q.arrivals)
  {
    RecordShape(s, r, q);
    var t := s.(reqs := s.reqs[r := q]);
    forall x | x in s.reqs && x != r
      ensures ViewOf(t, x) == ViewOf(s, x)
    {
      assert t.reqs[x] == s.reqs[x];
    }
  }

  lemma CallChanges(s: State, r: Rid, c: Call)
    requires Shape(s) && r in s.reqs
    ensures OnlyFor(s, SetCall(s, r, c), r) && ViewOf(SetCall(s, r, c), r) == ViewOf(s, r).(call := c)
  {
    RecordChanges(s, r, s.reqs[r].(call := c));
  }

  lemma SlotChanges(s: State, r: Rid, slot: Slot)
    requires Shape(s) && r in s.reqs
    ensures OnlyFor(s, SetSlot(s, r, slot), r) && ViewOf(SetSlot(s, r, slot), r) == ViewOf(s, r).(slot := slot)
  {
    RecordChanges(s, r, s.reqs[r].(slot := slot));
  }

  lemma RegisterShape(s: State, r: Rid, id: string)
    requires Shape(s) && Enabled(s, DoRegister(r, id)) && id !in s.pending
    ensures Shape(Apply(s, DoRegister(r, id)))
  {
    var t := Apply(s, DoRegister(r, id));
    assert forall x :: x in s.reqs ==> x in t.reqs && t.reqs[x] == s.reqs[x];
    assert forall k :: k in t.pending ==> k == id || (k in s.pending && t.pending[k] == s.pending[k]);
  }

  lemma RegisterChanges(s: State, r: Rid, id: string)
    requires Shape(s) && Enabled(s, DoRegister(r, id)) && id !in s.pending
    ensures var t := Apply(s, DoRegister(r, id));
            && OnlyFor(s, t, r)
            && ViewOf(t, r) == View(FRESH_SLOT, Registered, [], id, true, None, false, false, false, s.closed,
                                    CauseOf(s.cleaner))
  {
    RegisterShape(s, r, id);
    var t := Apply(s, DoRegister(r, id));
    forall x | x in s.reqs && x != r
      ensures ViewOf(t, x) == ViewOf(s, x)
    {
      assert t.reqs[x] == s.reqs[x];
    }
  }

  lemma TakeOutShape(s: State, r: Rid)
    requires Shape(s) && r in s.reqs
    ensures Shape(TakeOut(s, r))
  {
    assert forall k :: k in TakeOut(s, r).pending ==> k in s.pending && TakeOut(s, r).pending[k] == s.pending[k];
  }

  lemma TakeOutChanges(s: State, r: Rid)
    requires Shape(s) && r in s.reqs
    ensures OnlyFor(s, TakeOut(s, r), r) && ViewOf(TakeOut(s, r), r) == ViewOf(s, r).(pending := false)
  {
    var t := TakeOut(s, r);
    TakeOutShape(s, r);
    forall x | x in s.reqs && x != r
      ensures ViewOf(t, x) == ViewOf(s, x)
    {
      assert IsPending(t, x) == IsPending(s, x);
    }
  }

  lemma ReaderChanges(s: State, reader: Reader)
    requires Shape(s) && (s.reader.Holding? || s.reader.Closing?) && (reader.Idle? || reader == Closing(s.reader.req))
    ensures var t := s.(reader := reader);
            && OnlyFor(s, t, s.reader.req)
            && ViewOf(t, s.reader.req) == ViewOf(s, s.reader.req).(holding := None, closing := reader.Closing?)
  {
    var t := s.(reader := reader);
    assert t.reqs == s.reqs && t.pending == s.pending && t.cleaner == s.cleaner;
  }

  lemma OnlyForChains(s: State, t: State, u: State, r: Rid)
    requires Shape(s) && OnlyFor(s, t, r) && OnlyFor(t, u, r)
    ensures OnlyFor(s, u, r)
  {
  }

  lemma LookupChanges(s: State, msg: Message, q: Rid)
    requires Shape(s) && Enabled(s, DoLookup(msg)) && q in s.reqs
    ensures var t := Apply(s, DoLookup(msg));
            var v := ViewOf(s, q);
            && Shape(t) && t.reqs.Keys == s.reqs.Keys
            && ViewOf(t, q) == (if v.id != msg.id then v else
                                  v.(arrivals := v.arrivals + [msg], pending := v.pending && !Terminal(msg.kind),
                                     holding := if v.pending then Some(msg) else None))
            && v.holding.None? && !v.closing
  {
  }

  lemma FlagChanges(s: State, cause: string, q: Rid)
    requires Shape(s) && s.cleaner.NotStarted? && q in s.reqs
    ensures var t := Apply(s, DoFlag(cause));
            Shape(t) && t.reqs.Keys == s.reqs.Keys && ViewOf(t, q) == ViewOf(s, q).(connClosed := true)
  {
  }

  lemma HarvestChanges(s: State, q: Rid)
    requires Shape(s) && Enabled(s, DoHarvest) && q in s.reqs
    ensures var t := Apply(s, DoHarvest);
            var v := ViewOf(s, q);
            && Shape(t) && t.reqs.Keys == s.reqs.Keys
            && ViewOf(t, q) == v.(pending := false, harvested := v.pending, cause := Some(s.cleaner.cause))
            && !v.harvested && !v.erred && v.cause.None? && v.connClosed
  {
  }

  lemma FinishChanges(s: State, q: Rid)
    requires Shape(s) && Enabled(s, DoFinish) && q in s.reqs
    ensures var t := Apply(s, DoFinish);
            Shape(t) && t.reqs.Keys == s.reqs.Keys && ViewOf(t, q) == ViewOf(s, q)
  {
  }

  lemma ErringChanges(s: State, id: string)
    requires Shape(s) && s.cleaner.Draining? && s.cleaner.current.None? && id in s.cleaner.todo
    ensures var t := s.(cleaner := s.cleaner.(current := Some(id)));
            var r := s.cleaner.todo[id];
            && OnlyFor(s, t, r) && ViewOf(t, r) == ViewOf(s, r).(erred := true)
            && ViewOf(s, r).harvested && !ViewOf(s, r).erred && ViewOf(s, r).id == id
            && ViewOf(s, r).cause == Some(s.cleaner.cause)
  {
  }

  function Drained(s: State): State
    requires s.cleaner.Draining? && s.cleaner.current.Some?
  {
    s.(cleaner := s.cleaner.(todo := s.cleaner.todo - {s.cleaner.current.value}, current := None))
  }

  lemma DrainedShape(s: State)
    requires Shape(s) && s.cleaner.Draining? && s.cleaner.current.Some?
    ensures Shape(Drained(s))
  {
    var todo := s.cleaner.todo;
    assert forall k :: k in Drained(s).cleaner.todo ==> k in todo && Drained(s).cleaner.todo[k] == todo[k];
  }

  lemma DrainedView(s: State, q: Rid)
    requires Shape(s) && s.cleaner.Draining? && s.cleaner.current.Some? && q in s.reqs
    ensures ViewOf(Drained(s), q) ==
            if q == s.cleaner.todo[s.cleaner.current.value] then ViewOf(s, q).(harvested := false, erred := false)
            else ViewOf(s, q)
  {
  }

  lemma DrainedChanges(s: State)
    requires Shape(s) && s.cleaner.Draining? && s.cleaner.current.Some?
    ensures var r := s.cleaner.todo[s.cleaner.current.value];
            && OnlyFor(s, Drained(s), r)
            && ViewOf(Drained(s), r) == ViewOf(s, r).(harvested := false, erred := false)
            && ViewOf(s, r).erred
  {
    DrainedShape(s);
    forall q | q in s.reqs {
      DrainedView(s, q);
    }
  }

  // ---- Every step keeps the invariant ----

  lemma RegisterKeeps(s: State, r: Rid, id: string)
    requires Inv(s) && Enabled(s, DoRegister(r, id))
    ensures Inv(Apply(s, DoRegister(r, id)))
  {
    if id !in s.pending {
      RegisterChanges(s, r, id);
      OnlyForKeeps(s, Apply(s, DoRegister(r, id)), r);
    }
  }

  lemma CallStepKeeps(s: State, r: Rid, c: Call)
    requires Inv(s) && r in s.reqs
    requires var v := ViewOf(s, r);
             || (v.call.Registered? && (c.Failed? || (c.Writing? && !v.connClosed)))
             || (v.call.Writing? && (c.Failed? || c.Watching?))
             || (v.call.Watching? && c.Ended? && (!v.pending || v.connClosed))
    ensures Inv(SetCall(s, r, c))
  {
    CallChanges(s, r, c);
    CallKeeps(ViewOf(s, r), c);
    OnlyForKeeps(s, SetCall(s, r, c), r);
  }

  /** Taking a request out of the map on its own behalf. */
  lemma TakeOutKeeps(s: State, r: Rid, c: Call)
    requires Inv(s) && r in s.reqs
    requires var v := ViewOf(s, r);
             (v.call.Failed? && c.Unlisted?) || (v.call.Watching? && c.Cancelled? && v.pending)
    ensures Inv(SetCall(TakeOut(s, r), r, c))
  {
    var t := TakeOut(s, r);
    var v := ViewOf(s, r);
    TakeOutChanges(s, r);
    CallChanges(t, r, c);
    OnlyForChains(s, t, SetCall(t, r, c), r);
    TakenViewKeeps(v, c);
    OnlyForKeeps(s, SetCall(t, r, c), r);
  }

  lemma TakenViewKeeps(v: View, c: Call)
    requires ViewInv(v) && ((v.call.Failed? && c.Unlisted?) || (v.call.Watching? && c.Cancelled? && v.pending))
    ensures ViewInv(v.(pending := false, call := c))
  {
  }

  lemma CloseOwnKeeps(s: State, r: Rid)
    requires Inv(s) && r in s.reqs && (ViewOf(s, r).call.Unlisted? || ViewOf(s, r).call.Cancelled?)
    ensures Inv(CloseAndEnd(s, r))
  {
    var t := SetCall(s, r, Ended);
    var slot := SlotClose(s.reqs[r].slot);
    var u := SetSlot(t, r, slot);
    CallChanges(s, r, Ended);
    SlotChanges(t, r, slot);
    OnlyForChains(s, t, u, r);
    CloseKeeps(ViewOf(s, r), ViewOf(u, r));
    OnlyForKeeps(s, u, r);
  }

  predicate IsCallStep(step: Step) {
    step.DoCheck? || step.DoWrite? || step.DoUnlist? || step.DoCloseFailed?
  }

  lemma CallStepsKeep(s: State, step: Step)
    requires Inv(s) && Enabled(s, step) && IsCallStep(step)
    ensures Inv(Apply(s, step))
  {
    match step
    case DoCheck(r, ctxDone) => CallStepKeeps(s, r, if s.closed || ctxDone then Failed else Writing);
    case DoWrite(r, ok) => CallStepKeeps(s, r, if ok then Watching else Failed);
    case DoUnlist(r) => TakeOutKeeps(s, r, Unlisted);
    case DoCloseFailed(r) => CloseOwnKeeps(s, r);
  }

  predicate IsWatcherStep(step: Step) {
    step.DoWatchClosed? || step.DoWatchCancel? || step.DoCloseCancelled?
  }

  lemma WatcherStepsKeep(s: State, step: Step)
    requires Inv(s) && Enabled(s, step) && IsWatcherStep(step)
    ensures Inv(Apply(s, step))
  {
    match step
    case DoWatchClosed(r) => CallStepKeeps(s, r, Ended);
    case DoWatchCancel(r) => WatchCancelKeeps(s, r);
    case DoCloseCancelled(r) => CloseOwnKeeps(s, r);
  }

  lemma WatchCancelKeeps(s: State, r: Rid)
    requires Inv(s) && Enabled(s, DoWatchCancel(r))
    ensures Inv(Apply(s, DoWatchCancel(r)))
  {
    if IsPending(s, r) {
      TakeOutKeeps(s, r, Cancelled);
    } else {
      CallStepKeeps(s, r, Ended);
    }
  }

  lemma LookupKeeps(s: State, msg: Message)
    requires Inv(s) && Enabled(s, DoLookup(msg))
    ensures Inv(Apply(s, DoLookup(msg)))
  {
    var t := Apply(s, DoLookup(msg));
    LookupShape(s, msg);
    forall q | q in t.reqs
      ensures ViewInv(ViewOf(t, q))
    {
      LookupChanges(s, msg, q);
      if s.reqs[q].id == msg.id {
        ArriveKeeps(ViewOf(s, q), msg);
      }
    }
  }

  lemma LookupShape(s: State, msg: Message)
    requires Shape(s) && Enabled(s, DoLookup(msg))
    ensures Shape(Apply(s, DoLookup(msg))) && Apply(s, DoLookup(msg)).reqs.Keys == s.reqs.Keys
  {
  }

  lemma DeliverStepKeeps(s: State)
    requires Inv(s) && Enabled(s, DoDeliver)
    ensures Inv(Apply(s, DoDeliver))
  {
    var r, m := s.reader.req, s.reader.msg;
    var t := SetSlot(s, r, SlotSend(s.reqs[r].slot, m));
    var u := t.(reader := if Terminal(m.kind) then Closing(r) else Idle);
    SlotChanges(s, r, SlotSend(s.reqs[r].slot, m));
    ReaderChanges(t, u.reader);
    OnlyForChains(s, t, u, r);
    DeliverKeeps(ViewOf(s, r));
    OnlyForKeeps(s, u, r);
  }

  lemma CloseDeliveredKeeps(s: State)
    requires Inv(s) && Enabled(s, DoCloseDelivered)
    ensures Inv(Apply(s, DoCloseDelivered))
  {
    var r := s.reader.req;
    var t := SetSlot(s, r, SlotClose(s.reqs[r].slot));
    var u := t.(reader := Idle);
    SlotChanges(s, r, SlotClose(s.reqs[r].slot));
    ReaderChanges(t, Idle);
    OnlyForChains(s, t, u, r);
    CloseKeeps(ViewOf(s, r), ViewOf(u, r));
    OnlyForKeeps(s, u, r);
  }

  lemma ReceiveKeeps(s: State, r: Rid)
    requires Inv(s) && Enabled(s, DoReceive(r))
    ensures Inv(Apply(s, DoReceive(r)))
  {
    SlotChanges(s, r, SlotReceive(s.reqs[r].slot));
    OnlyForKeeps(s, Apply(s, DoReceive(r)), r);
  }

  lemma FlagKeeps(s: State, cause: string)
    requires Inv(s) && Enabled(s, DoFlag(cause))
    ensures Inv(Apply(s, DoFlag(cause)))
  {
    var t := Apply(s, DoFlag(cause));
    forall q | q in t.reqs
      ensures ViewInv(ViewOf(t, q))
    {
      FlagChanges(s, cause, q);
    }
  }

  /** The harvest moves every pending request to cleanup's list. */
  lemma HarvestKeeps(s: State)
    requires Inv(s) && Enabled(s, DoHarvest)
    ensures Inv(Apply(s, DoHarvest))
  {
    var t := Apply(s, DoHarvest);
    forall q | q in t.reqs
      ensures ViewInv(ViewOf(t, q))
    {
      HarvestChanges(s, q);
    }
  }

  lemma SendErrorKeeps(s: State, id: string)
    requires Inv(s) && Enabled(s, DoSendError(id))
    ensures Inv(Apply(s, DoSendError(id)))
  {
    var r := s.cleaner.todo[id];
    var slot := SlotSend(s.reqs[r].slot, Message(id, Error, s.cleaner.cause));
    var t := SetSlot(s, r, slot);
    var u := t.(cleaner := t.cleaner.(current := Some(id)));
    SlotChanges(s, r, slot);
    ErringChanges(s, id);
    ErringChanges(t, id);
    OnlyForChains(s, t, u, r);
    ErrorKeeps(ViewOf(s, r));
    OnlyForKeeps(s, u, r);
  }

  lemma CloseHarvestedKeeps(s: State)
    requires Inv(s) && Enabled(s, DoCloseHarvested)
    ensures Inv(Apply(s, DoCloseHarvested))
  {
    var id := s.cleaner.current.value;
    var r := s.cleaner.todo[id];
    var t := SetSlot(s, r, SlotClose(s.reqs[r].slot));
    var u := Drained(t);
    SlotChanges(s, r, SlotClose(s.reqs[r].slot));
    DrainedChanges(s);
    DrainedChanges(t);
    OnlyForChains(s, t, u, r);
    CloseKeeps(ViewOf(s, r), ViewOf(u, r));
    OnlyForKeeps(s, u, r);
  }

  lemma FinishKeeps(s: State)
    requires Inv(s) && Enabled(s, DoFinish)
    ensures Inv(Apply(s, DoFinish))
  {
    var t := Apply(s, DoFinish);
    forall q | q in t.reqs
      ensures ViewInv(ViewOf(t, q))
    {
      FinishChanges(s, q);
    }
  }

  predicate IsReaderStep(step: Step) {
    step.DoLookup? || step.DoDeliver? || step.DoCloseDelivered?
  }

  lemma ReaderStepsKeep(s: State, step: Step)
    requires Inv(s) && Enabled(s, step) && IsReaderStep(step)
    ensures Inv(Apply(s, step))
  {
    match step
    case DoLookup(msg) => LookupKeeps(s, msg);
    case DoDeliver => DeliverStepKeeps(s);
    case DoCloseDelivered => CloseDeliveredKeeps(s);
  }

  predicate IsCleanerStep(step: Step) {
    step.DoFlag? || step.DoHarvest? || step.DoSendError? || step.DoCloseHarvested? || step.DoFinish?
  }

  lemma CleanerStepsKeep(s: State, step: Step)
    requires Inv(s) && Enabled(s, step) && IsCleanerStep(step)
    ensures Inv(Apply(s, step))
  {
    match step
    case DoFlag(cause) => FlagKeeps(s, cause);
    case DoHarvest => HarvestKeeps(s);
    case DoSendError(id) => SendErrorKeeps(s, id);
    case DoCloseHarvested => CloseHarvestedKeeps(s);
    case DoFinish => FinishKeeps(s);
  }

  lemma StepKeeps(s: State, step: Step)
    requires Inv(s) && Enabled(s, step)
    ensures Inv(Apply(s, step))
  {
    if IsCallStep(step) {
      CallStepsKeep(s, step);
    } else if IsWatcherStep(step) {
      WatcherStepsKeep(s, step);
    } else if IsReaderStep(step) {
      ReaderStepsKeep(s, step);
    } else if IsCleanerStep(step) {
      CleanerStepsKeep(s, step);
    } else if step.DoRegister? {
      RegisterKeeps(s, step.r, step.id);
    } else {
      ReceiveKeeps(s, step.r);
    }
  }

  lemma InitHolds()
    ensures Inv(INIT)
  {
  }

  /** The invariant holds after every run. */
  lemma {:induction false} RunsKeepInv(steps: seq<Step>)
    requires IsRun(steps)
    ensures Inv(After(steps))
    decreases |steps|
  {
    if steps == [] {
      InitHolds();
    } else {
      var before := steps[..|steps| - 1];
      RunsKeepInv(before);
      StepKeeps(After(before), steps[|steps| - 1]);
    }
  }

  // ---- What every run guarantees ----

  /** Whoever still owes the channel a close. */
  predicate HasOwner(s: State, r: Rid)
    requires r in s.reqs
  {
    var v := ViewOf(s, r);
    || v.call.Failed? || v.call.Unlisted? || v.call.Cancelled?
    || (v.holding.Some? && Terminal(v.holding.value.kind)) || v.closing
    || v.harvested
  }

  /** No request is orphaned: an open channel is in the map or has an owner, never both a
      map entry and a reader, watcher or cleanup that took it. */
  lemma NoOrphans(steps: seq<Step>, r: Rid)
    requires IsRun(steps) && r in After(steps).reqs
    ensures var s := After(steps);
            && (!s.reqs[r].slot.closed ==> ViewOf(s, r).pending || HasOwner(s, r))
            && (ViewOf(s, r).pending ==> !s.reqs[r].slot.closed)
            && Tokens(ViewOf(s, r)) <= 1
  {
    RunsKeepInv(steps);
    var v := ViewOf(After(steps), r);
    assert ViewInv(v);
  }

  /** Nobody is between two of its critical sections. */
  ghost predicate Quiescent(s: State) {
    && s.reader.Idle?
    && forall r :: r in s.reqs ==> s.reqs[r].call.Watching? || s.reqs[r].call.Ended?
  }

  lemma PendingIsInFlight(s: State, id: string)
    requires Inv(s) && id in s.pending && s.cleaner.Finished?
    ensures s.reqs[s.pending[id]].call.Registered? || s.reqs[s.pending[id]].call.Failed?
  {
    assert ViewInv(ViewOf(s, s.pending[id]));
  }

  /** Once cleanup has run and in-flight steps are over, nothing is pending and every
      channel is closed. */
  lemma CleanupLeavesNothingOpen(steps: seq<Step>)
    requires IsRun(steps) && After(steps).cleaner.Finished? && Quiescent(After(steps))
    ensures After(steps).pending == map[]
    ensures forall r :: r in After(steps).reqs ==> After(steps).reqs[r].slot.closed
  {
    RunsKeepInv(steps);
    var s := After(steps);
    assert forall id :: id !in s.pending by {
      if id :| id in s.pending {
        PendingIsInFlight(s, id);
        assert false;
      }
    }
    assert s.pending == map[];
    forall r | r in s.reqs
      ensures s.reqs[r].slot.closed
    {
      assert ViewInv(ViewOf(s, r));
    }
  }

  /** At most one terminal message ever enters a channel, and no channel is sent on or
      closed again after it was closed. */
  lemma OneTerminalAndNoPanic(steps: seq<Step>, r: Rid)
    requires IsRun(steps) && r in After(steps).reqs
    ensures !After(steps).reqs[r].slot.panicked && TerminalCount(After(steps).reqs[r].slot.log) <= 1
  {
    RunsKeepInv(steps);
    assert ViewInv(ViewOf(After(steps), r));
  }

  /** If nothing was dropped, the channel up to its first terminal message is a prefix of that
      ID's arrivals, possibly followed by cleanup's error; before the harvest, a prefix alone. */
  lemma DeliveryIsFaithful(steps: seq<Step>, r: Rid)
    requires IsRun(steps) && r in After(steps).reqs && !After(steps).reqs[r].slot.dropped
    ensures var s := After(steps);
            var q := s.reqs[r];
            && Faithful(q.slot.log, q.arrivals, q.id, CauseOf(s.cleaner))
            && (CauseOf(s.cleaner).None? ==> UpToTerminal(q.slot.log) <= q.arrivals)
  {
    RunsKeepInv(steps);
    assert ViewInv(ViewOf(After(steps), r));
  }

  /** Whatever was dropped, the channel up to its first terminal message is a subsequence of that
      ID's arrivals, possibly followed by cleanup's error; before the harvest, a subsequence alone. */
  lemma DeliveryIsInOrder(steps: seq<Step>, r: Rid)
    requires IsRun(steps) && r in After(steps).reqs
    ensures var s := After(steps);
            var q := s.reqs[r];
            && InOrder(q.slot.log, q.arrivals, q.id, CauseOf(s.cleaner))
            && (CauseOf(s.cleaner).None? ==> Subsequence(UpToTerminal(q.slot.log), q.arrivals))
  {
    RunsKeepInv(steps);
    assert ViewInv(ViewOf(After(steps), r));
  }

  /** At most one message ever follows the first terminal one, it is not terminal, and then
      the terminal one is cleanup's error. */
  lemma OneMessageMayFollow(steps: seq<Step>, r: Rid)
    requires IsRun(steps) && r in After(steps).reqs
    ensures var s := After(steps);
            var log, cut := s.reqs[r].slot.log, UpToTerminal(s.reqs[r].slot.log);
            && cut <= log && |log| <= |cut| + 1
            && (|log| > |cut| ==>
                  EndsInCleanupError(cut, s.reqs[r].id, CauseOf(s.cleaner)) && !Terminal(log[|log| - 1].kind))
  {
    RunsKeepInv(steps);
    var s := After(steps);
    var log := s.reqs[r].slot.log;
    assert ViewInv(ViewOf(s, r));
    CutIsPrefix(log);
    if |log| > |UpToTerminal(log)| {
      OneTerminalThenOther(UpToTerminal(log), log);
    }
  }

  lemma OneTerminalThenOther(cut: seq<Message>, log: seq<Message>)
    requires cut <= log && |log| == |cut| + 1 && TerminalCount(log) <= 1
    requires cut != [] && Terminal(cut[|cut| - 1].kind)
    ensures !Terminal(log[|log| - 1].kind)
  {
    var last := log[|log| - 1];
    assert log == cut + [last];
    TerminalCountFacts(cut, last);
    assert cut[|cut| - 1] in cut;
  }

  // ---- Which messages end a request ----

  /** The read loop has taken `msg` out for `r`, or has it closed already. */
  predicate EndsRequest(s: State, r: Rid, msg: Message) {
    && r in s.reqs
    && (s.reader == Holding(r, msg) || s.reader == Closing(r) || s.reqs[r].slot.closed)
  }

  lemma ClosedStays(s: State, step: Step, r: Rid)
    requires Enabled(s, step) && r in s.reqs
    ensures r in Apply(s, step).reqs && (s.reqs[r].slot.closed ==> Apply(s, step).reqs[r].slot.closed)
    ensures IsReaderStep(step) || Apply(s, step).reader == s.reader
  {
  }

  lemma EndingGoesOn(s: State, step: Step, r: Rid, msg: Message)
    requires Enabled(s, step) && EndsRequest(s, r, msg) && (s.reqs[r].slot.onceDone ==> s.reqs[r].slot.closed)
    requires msg.kind in {HttpResponse, StreamEnd, Error}
    ensures EndsRequest(Apply(s, step), r, msg)
  {
    ClosedStays(s, step, r);
    if IsReaderStep(step) && !s.reqs[r].slot.closed {
      match step
      case DoLookup(_) =>
      case DoDeliver => assert Apply(s, step).reader == Closing(r);
      case DoCloseDelivered => assert Apply(s, step).reqs[r].slot.closed;
    }
  }

  /** A looked-up http_response, stream_end or error takes its request out of the map at once, and
      once the read loop is idle again, whatever else happened, the request's channel is closed. */
  lemma {:induction false} EndingMessagesEndRequests(steps: seq<Step>, msg: Message, more: seq<Step>)
    requires IsRun(steps + [DoLookup(msg)] + more) && IsRun(steps) && msg.id in After(steps).pending
    requires IsRun(steps + [DoLookup(msg)])
    requires msg.kind in {HttpResponse, StreamEnd, Error}
    ensures msg.id !in After(steps + [DoLookup(msg)]).pending
    ensures var r := After(steps).pending[msg.id];
            var t := After(steps + [DoLookup(msg)] + more);
            EndsRequest(t, r, msg) && (t.reader.Idle? ==> t.reqs[r].slot.closed)
    decreases |more|
  {
    var first := steps + [DoLookup(msg)];
    RunsKeepInv(steps);
    assert first[..|first| - 1] == steps;
    if more == [] {
      assert first + more == first;
    } else {
      var init := more[..|more| - 1];
      var run := first + more;
      assert run[..|run| - 1] == first + init && run[|run| - 1] == more[|more| - 1];
      EndingMessagesEndRequests(steps, msg, init);
      var r := After(steps).pending[msg.id];
      FlagsAgree(first + init, r);
      EndingGoesOn(After(first + init), more[|more| - 1], r, msg);
    }
  }

  lemma FlagsAgree(steps: seq<Step>, r: Rid)
    requires IsRun(steps) && r in After(steps).reqs
    ensures After(steps).reqs[r].slot.onceDone ==> After(steps).reqs[r].slot.closed
  {
    RunsKeepInv(steps);
    assert ViewInv(ViewOf(After(steps), r));
  }

  predicate SameFlags(a: Slot, b: Slot) {
    a.closed == b.closed && a.onceDone == b.onceDone && a.chanClosed == b.chanClosed
  }

  lemma OtherMessageIsLookedUp(s: State, msg: Message)
    requires Shape(s) && Enabled(s, DoLookup(msg)) && msg.id in s.pending
    requires msg.kind !in {HttpResponse, StreamEnd, Error}
    ensures var t := Apply(s, DoLookup(msg));
            && t.pending == s.pending && t.reader == Holding(s.pending[msg.id], msg) && Enabled(t, DoDeliver)
            && t.reqs.Keys == s.reqs.Keys && forall r :: r in s.reqs ==> t.reqs[r].slot == s.reqs[r].slot
  {
  }

  lemma OtherMessageIsSent(s: State)
    requires Enabled(s, DoDeliver) && s.reader.msg.kind !in {HttpResponse, StreamEnd, Error}
    ensures var t := Apply(s, DoDeliver);
            && t.pending == s.pending && t.reader.Idle? && t.reqs.Keys == s.reqs.Keys
            && forall r :: r in s.reqs ==> SameFlags(t.reqs[r].slot, s.reqs[r].slot)
  {
  }

  /** The map and every channel's flags as in `s`, and the read loop idle. */
  ghost predicate PassesBy(s: State, t: State) {
    && t.pending == s.pending && t.reader.Idle? && t.reqs.Keys == s.reqs.Keys
    && forall r :: r in s.reqs ==> SameFlags(t.reqs[r].slot, s.reqs[r].slot)
  }

  lemma OtherMessagePasses(s: State, msg: Message)
    requires Shape(s) && Enabled(s, DoLookup(msg)) && msg.id in s.pending
    requires msg.kind !in {HttpResponse, StreamEnd, Error}
    ensures var t := Apply(s, DoLookup(msg)); Enabled(t, DoDeliver) && PassesBy(s, Apply(t, DoDeliver))
  {
    OtherMessageIsLookedUp(s, msg);
    OtherMessageIsSent(Apply(s, DoLookup(msg)));
  }

  lemma ExtendTwo(steps: seq<Step>, a: Step, b: Step)
    requires IsRun(steps) && Enabled(After(steps), a) && Enabled(Apply(After(steps), a), b)
    ensures IsRun(steps + [a, b]) && After(steps + [a, b]) == Apply(Apply(After(steps), a), b)
  {
    Extend(steps, a);
    Extend(steps + [a], b);
    assert steps + [a] + [b] == steps + [a, b];
  }

  /** Any other message leaves the map and every channel's flags as they were, and the read loop
      idle once it is sent. */
  lemma OtherMessagesKeepRequests(steps: seq<Step>, msg: Message)
    requires IsRun(steps) && Enabled(After(steps), DoLookup(msg)) && msg.id in After(steps).pending
    requires msg.kind !in {HttpResponse, StreamEnd, Error}
    ensures var run := steps + [DoLookup(msg), DoDeliver];
            IsRun(run) && PassesBy(After(steps), After(run))
  {
    RunsKeepInv(steps);
    OtherMessagePasses(After(steps), msg);
    ExtendTwo(steps, DoLookup(msg), DoDeliver);
  }

  lemma Extend(steps: seq<Step>, step: Step)
    requires IsRun(steps) && Enabled(After(steps), step)
    ensures IsRun(steps + [step]) && After(steps + [step]) == Apply(After(steps), step)
  {
    assert (steps + [step])[..|steps|] == steps;
  }

  lemma ExtendFour(steps: seq<Step>, a: Step, b: Step, c: Step, d: Step)
    requires IsRun(steps) && Enabled(After(steps), a) && Enabled(Apply(After(steps), a), b)
    requires Enabled(Apply(Apply(After(steps), a), b), c) && Enabled(Apply(Apply(Apply(After(steps), a), b), c), d)
    ensures IsRun(steps + [a, b, c, d])
    ensures After(steps + [a, b, c, d]) == Apply(Apply(Apply(Apply(After(steps), a), b), c), d)
  {
    var two := steps + [a] + [b];
    Extend(steps, a);
    Extend(steps + [a], b);
    Extend(two, c);
    Extend(two + [c], d);
    assert steps + [a, b, c, d] == two + [c] + [d];
  }

  lemma HeldAfterError(s: State, cause: string)
    requires s.reader.Holding? && s.cleaner.NotStarted? && s.reader.req in s.reqs && IsPending(s, s.reader.req)
    requires var slot := s.reqs[s.reader.req].slot;
             !slot.closed && !slot.chanClosed && |slot.log| + 1 - slot.taken < CAPACITY
    ensures var q := s.reqs[s.reader.req];
            var t := Apply(Apply(s, DoFlag(cause)), DoHarvest);
            && Enabled(t, DoSendError(q.id)) && Enabled(Apply(t, DoSendError(q.id)), DoDeliver)
            && s.reader.req in Apply(Apply(t, DoSendError(q.id)), DoDeliver).reqs
            && Apply(Apply(t, DoSendError(q.id)), DoDeliver).reqs[s.reader.req].slot.log ==
               q.slot.log + [Message(q.id, Error, cause), s.reader.msg]
  {
    var q := s.reqs[s.reader.req];
    var error := Message(q.id, Error, cause);
    assert q.slot.log + [error] + [s.reader.msg] == q.slot.log + [error, s.reader.msg];
  }

  /** And it happens: a held message sent between cleanup's error and its close follows it.
      From any run in which the read loop holds an ordinary message for a request that is still
      listed and has room for two, cleanup not begun, such a run goes on to. */
  lemma HeldMessageFollowsError(steps: seq<Step>, cause: string) returns (more: seq<Step>)
    requires IsRun(steps) && After(steps).reader.Holding? && After(steps).cleaner.NotStarted?
    requires var s := After(steps);
             && s.reader.req in s.reqs && IsPending(s, s.reader.req) && !Terminal(s.reader.msg.kind)
             && |s.reqs[s.reader.req].slot.log| + 1 - s.reqs[s.reader.req].slot.taken < CAPACITY
    ensures IsRun(steps + more)
    ensures var s := After(steps);
            var q := s.reqs[s.reader.req];
            var t := After(steps + more);
            s.reader.req in t.reqs &&
            t.reqs[s.reader.req].slot.log == q.slot.log + [Message(q.id, Error, cause), s.reader.msg]
  {
    RunsKeepInv(steps);
    var s := After(steps);
    var id := s.reqs[s.reader.req].id;
    assert ViewInv(ViewOf(s, s.reader.req));
    HeldAfterError(s, cause);
    ExtendFour(steps, DoFlag(cause), DoHarvest, DoSendError(id), DoDeliver);
    more := [DoFlag(cause), DoHarvest, DoSendError(id), DoDeliver];
  }

  lemma FirstMessageIsHeld(id: string, text: string) returns (steps: seq<Step>)
    requires id != ""
    ensures IsRun(steps)
    ensures var s := After(steps);
            && s.reader == Holding(0, Message(id, StreamChunk, text)) && s.cleaner.NotStarted?
            && 0 in s.reqs && s.reqs[0].id == id && s.reqs[0].slot == FRESH_SLOT && IsPending(s, 0)
  {
    var m := Message(id, StreamChunk, text);
    assert IsRun([]) && After([]) == INIT;
    ExtendFour([], DoRegister(0, id), DoCheck(0, false), DoWrite(0, true), DoLookup(m));
    steps := [] + [DoRegister(0, id), DoCheck(0, false), DoWrite(0, true), DoLookup(m)];
  }

  /** For instance, for any ID, text and cause there is a run that leaves exactly cleanup's error
      and then an ordinary chunk in a channel. */
  lemma ChunkAfterError(id: string, text: string, cause: string) returns (steps: seq<Step>)
    requires id != ""
    ensures IsRun(steps) && 0 in After(steps).reqs
    ensures After(steps).reqs[0].slot.log == [Message(id, Error, cause), Message(id, StreamChunk, text)]
  {
    var first := FirstMessageIsHeld(id, text);
    var more := HeldMessageFollowsError(first, cause);
    steps := first + more;
  }
}
