/** In-flight work of a session comes to an end (internal/wsrelay/session.go). */
module RelayProgress {
  import opened Prelude
  import opened RelaySession

  /** Steps that finish work at hand, as opposed to a new request, an arriving message, a
      caller's receive or the start of cleanup. */
  predicate Own(step: Step) {
    !step.DoRegister? && !step.DoLookup? && !step.DoReceive? && !step.DoFlag?
  }

  /** Nobody is between two of its critical sections, cleanup included. */
  ghost predicate AtRest(s: State) {
    Quiescent(s) && (s.cleaner.NotStarted? || s.cleaner.Finished?)
  }

  function CallWork(c: Call): nat {
    match c
    case Registered => 5
    case Writing => 4
    case Failed => 3
    case Unlisted => 1
    case Watching => 2
    case Cancelled => 1
    case Ended => 0
  }

  ghost function CallsWork(reqs: map<Rid, Req>): nat
    decreases |reqs|
  {
    if reqs == map[] then 0
    else
      var r :| r in reqs;
      CallWork(reqs[r].call) + CallsWork(reqs - {r})
  }

  function ReaderWork(reader: Reader): nat {
    match reader
    case Idle => 0
    case Holding(_, _) => 2
    case Closing(_) => 1
  }

  function CleanerWork(s: State): nat {
    match s.cleaner
    case Flagged(_) => 2 * |s.pending| + 2
    case Draining(_, todo, current) => 2 * |todo| + if current.None? then 1 else 0
    case _ => 0
  }

  /** How many own steps can still be taken. */
  ghost function Work(s: State): nat {
    CallsWork(s.reqs) + ReaderWork(s.reader) + CleanerWork(s)
  }

  lemma {:induction false} CallsWorkAt(reqs: map<Rid, Req>, r: Rid)
    requires r in reqs
    ensures CallsWork(reqs) == CallWork(reqs[r].call) + CallsWork(reqs - {r})
    decreases |reqs|
  {
    var x :| x in reqs && CallsWork(reqs) == CallWork(reqs[x].call) + CallsWork(reqs - {x});
    if x != r {
      CallsWorkAt(reqs - {x}, r);
      CallsWorkAt(reqs - {r}, x);
      assert reqs - {x} - {r} == reqs - {r} - {x};
    }
  }

  lemma CallsWorkSet(reqs: map<Rid, Req>, r: Rid, q: Req)
    requires r in reqs
    ensures CallsWork(reqs[r := q]) + CallWork(reqs[r].call) == CallsWork(reqs) + CallWork(q.call)
  {
    CallsWorkAt(reqs, r);
    CallsWorkAt(reqs[r := q], r);
    assert reqs[r := q] - {r} == reqs - {r};
  }

  lemma RemoveIfShrinks(m: map<string, Rid>, id: string, r: Rid)
    ensures |RemoveIf(m, id, r)| <= |m|
  {
    if RemoveIf(m, id, r) != m {
      assert RemoveIf(m, id, r).Keys == m.Keys - {id};
    }
  }

  lemma CallUsesWork(s: State, r: Rid, c: Call)
    requires r in s.reqs && CallWork(c) < CallWork(s.reqs[r].call)
    ensures Work(SetCall(s, r, c)) < Work(s) && Work(SetCall(TakeOut(s, r), r, c)) < Work(s)
  {
    CallsWorkSet(s.reqs, r, s.reqs[r].(call := c));
    RemoveIfShrinks(s.pending, s.reqs[r].id, r);
  }

  lemma SlotKeepsWork(s: State, r: Rid, slot: Slot)
    requires r in s.reqs
    ensures Work(SetSlot(s, r, slot)) == Work(s)
  {
    CallsWorkSet(s.reqs, r, s.reqs[r].(slot := slot));
  }

  /** The steps of a call and its watcher. */
  lemma CallStepsUseWork(s: State, step: Step)
    requires Enabled(s, step)
    requires step.DoCheck? || step.DoWrite? || step.DoUnlist? || step.DoWatchClosed? || step.DoWatchCancel?
    ensures Work(Apply(s, step)) < Work(s)
  {
    match step
    case DoCheck(r, ctxDone) => CallUsesWork(s, r, if s.closed || ctxDone then Failed else Writing);
    case DoWrite(r, ok) => CallUsesWork(s, r, if ok then Watching else Failed);
    case DoUnlist(r) => CallUsesWork(s, r, Unlisted);
    case DoWatchCancel(r) => CallUsesWork(s, r, if IsPending(s, r) then Cancelled else Ended);
    case DoWatchClosed(r) => CallUsesWork(s, r, Ended);
  }

  lemma ReaderStepsUseWork(s: State, step: Step)
    requires Enabled(s, step) && (step.DoDeliver? || step.DoCloseDelivered?)
    ensures Work(Apply(s, step)) < Work(s)
  {
    var slot := s.reqs[s.reader.req].slot;
    SlotKeepsWork(s, s.reader.req, if step.DoDeliver? then SlotSend(slot, s.reader.msg) else SlotClose(slot));
  }

  lemma SendErrorUsesWork(s: State, id: string)
    requires Enabled(s, DoSendError(id))
    ensures Work(Apply(s, DoSendError(id))) < Work(s)
  {
    var r := s.cleaner.todo[id];
    SlotKeepsWork(s, r, SlotSend(s.reqs[r].slot, Message(id, Error, s.cleaner.cause)));
  }

  /** Every own step uses up work. */
  lemma OwnStepsUseWork(s: State, step: Step)
    requires Enabled(s, step) && Own(step)
    ensures Work(Apply(s, step)) < Work(s)
  {
    match step
    case DoCloseFailed(r) => CloseUsesWork(s, r);
    case DoCloseCancelled(r) => CloseUsesWork(s, r);
    case DoDeliver => ReaderStepsUseWork(s, step);
    case DoCloseDelivered => ReaderStepsUseWork(s, step);
    case DoHarvest =>
    case DoSendError(id) => SendErrorUsesWork(s, id);
    case DoCloseHarvested => HarvestedUsesWork(s);
    case DoFinish =>
    case _ => CallStepsUseWork(s, step);
  }

  lemma CloseUsesWork(s: State, r: Rid)
    requires r in s.reqs && (s.reqs[r].call.Unlisted? || s.reqs[r].call.Cancelled?)
    ensures Work(CloseAndEnd(s, r)) < Work(s)
  {
    CallUsesWork(s, r, Ended);
    SlotKeepsWork(SetCall(s, r, Ended), r, SlotClose(s.reqs[r].slot));
  }

  lemma HarvestedUsesWork(s: State)
    requires Enabled(s, DoCloseHarvested)
    ensures Work(Apply(s, DoCloseHarvested)) < Work(s)
  {
    var id := s.cleaner.current.value;
    var r := s.cleaner.todo[id];
    SlotKeepsWork(s, r, SlotClose(s.reqs[r].slot));
    assert (s.cleaner.todo - {id}).Keys == s.cleaner.todo.Keys - {id};
  }

  /** Until the session is at rest, some actor's own next step is enabled. */
  lemma InFlightStepsAreEnabled(steps: seq<Step>) returns (next: Step)
    requires IsRun(steps) && !AtRest(After(steps))
    ensures IsRun(steps + [next]) && Own(next) && Work(After(steps + [next])) < Work(After(steps))
  {
    RunsKeepInv(steps);
    next := OwnNextStep(After(steps));
    Extend(steps, next);
    OwnStepsUseWork(After(steps), next);
  }

  lemma OwnNextStep(s: State) returns (next: Step)
    requires Shape(s) && !AtRest(s)
    ensures Enabled(s, next) && Own(next)
  {
    if s.reader.Holding? {
      next := DoDeliver;
    } else if s.reader.Closing? {
      next := DoCloseDelivered;
    } else if s.cleaner.Flagged? {
      next := DoHarvest;
    } else if s.cleaner.Draining? {
      next := CleanerNextStep(s);
    } else {
      var r :| r in s.reqs && !s.reqs[r].call.Watching? && !s.reqs[r].call.Ended?;
      next := match s.reqs[r].call
        case Registered => DoCheck(r, false)
        case Writing => DoWrite(r, true)
        case Failed => DoUnlist(r)
        case Unlisted => DoCloseFailed(r)
        case _ => DoCloseCancelled(r);
    }
  }

  lemma CleanerNextStep(s: State) returns (next: Step)
    requires Shape(s) && s.cleaner.Draining?
    ensures Enabled(s, next) && Own(next)
  {
    if s.cleaner.current.Some? {
      next := DoCloseHarvested;
    } else if s.cleaner.todo == map[] {
      next := DoFinish;
    } else {
      var id :| id in s.cleaner.todo;
      next := DoSendError(id);
    }
  }

  lemma Regroup(steps: seq<Step>, next: Step, later: seq<Step>)
    ensures steps + ([next] + later) == (steps + [next]) + later
  {
  }

  /** In-flight work ends: from any run, own steps alone bring the session to rest, and there
      are never more of them than its work. */
  lemma {:induction false} InFlightWorkEnds(steps: seq<Step>) returns (more: seq<Step>)
    requires IsRun(steps)
    ensures IsRun(steps + more) && AtRest(After(steps + more))
    ensures |more| <= Work(After(steps)) && forall step :: step in more ==> Own(step)
    decreases Work(After(steps))
  {
    if AtRest(After(steps)) {
      more := [];
      assert steps + [] == steps;
    } else {
      var next := InFlightStepsAreEnabled(steps);
      var later := InFlightWorkEnds(steps + [next]);
      more := [next] + later;
      Regroup(steps, next, later);
    }
  }

  /** No run of own steps is longer, whichever are taken. */
  lemma {:induction false} OwnRunsAreBounded(steps: seq<Step>, more: seq<Step>)
    requires IsRun(steps + more) && forall step :: step in more ==> Own(step)
    ensures IsRun(steps) && |more| + Work(After(steps + more)) <= Work(After(steps))
    decreases |more|
  {
    if more == [] {
      assert steps + more == steps;
    } else {
      var init, last := more[..|more| - 1], more[|more| - 1];
      assert (steps + more)[..|steps + more| - 1] == steps + init;
      OwnRunsAreBounded(steps, init);
      OwnStepsUseWork(After(steps + init), last);
    }
  }
}
