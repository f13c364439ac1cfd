/**
 * The Logs view: which calls are shown starting and ending, and the two
 * orderings of events under which the two do not pair.
 */
module RelayLogs {
  import opened Common
  import opened RelayModel
  import opened RelaySafety
  import opened RelayTheorems
  import RelayFaults

  /**
   * Pairing of log lines, over every run. Once a caller is answered or has left,
   * the call it was shown starting has been shown ending, except exactly when the
   * caller was answered by a failed wake, or was already gone when its call was
   * sent. Nothing ends that did not start, and nothing starts or ends twice.
   */
  lemma LogLinesPair(steps: seq<Step>, s: SocketId)
    requires s in Run(steps).att && Done(Run(steps), s)
    ensures
      var n := TallyOf(Run(steps).wire, s);
      && n.ends <= n.starts <= 1
      && (n.ends == n.starts <==> n.starts == 0 || (n.wakes == 0 && n.late == 0))
  {
    RunKeeps(steps);
    assert Fine(Run(steps), s);
  }

  predicate Done(st: State, s: SocketId)
    requires s in st.att
  {
    s !in st.sockets || !st.att[s].Open()
  }

  /** While its caller is attached and unanswered, a call is running exactly when it was shown starting. */
  lemma OpenCallsAreRunning(steps: seq<Step>, s: SocketId)
    requires s in Run(steps).sockets && s in Run(steps).att && Run(steps).att[s].Caller? && Run(steps).att[s].Open()
    ensures TallyOf(Run(steps).wire, s).ends == 0
    ensures TallyOf(Run(steps).wire, s).starts == 1 <==> Run(steps).att[s].log.Some?
  {
    RunKeeps(steps);
    assert Fine(Run(steps), s);
  }

  lemma {:induction false} RunningIs(st: State, list: seq<SocketId>, watching: Target, s: SocketId)
    ensures s in Running(st, list, watching) <==>
      s in list && s in st.att && st.att[s].Caller? && st.att[s].role == Tool && !st.att[s].settled && st.att[s].log == Some(watching)
    decreases |list|
  {
    if list != [] {
      RunningIs(st, list[1..], watching, s);
      assert list == [list[0]] + list[1..];
    }
  }

  // ------------------------------------------------- callers that start once

  /** How many start frames a socket sent. */
  function StartsOf(steps: seq<Step>, s: SocketId): nat {
    if steps == [] then 0
    else StartsOf(steps[..|steps| - 1], s)
         + (if steps[|steps| - 1].StartFrame? && steps[|steps| - 1].s == s then 1 else 0)
  }

  /** How many of them still wait for the machine. */
  function WaitingOf(waiting: seq<Waiting>, s: SocketId): nat {
    if waiting == [] then 0
    else WaitingOf(waiting[..|waiting| - 1], s) + (if waiting[|waiting| - 1].socket == s then 1 else 0)
  }

  lemma {:induction false} WaitingWithout(waiting: seq<Waiting>, i: nat, s: SocketId)
    requires i < |waiting|
    ensures WaitingOf(RemoveAt(waiting, i), s) + (if waiting[i].socket == s then 1 else 0) == WaitingOf(waiting, s)
    decreases |waiting|
  {
    var last := |waiting| - 1;
    if i == last {
      assert RemoveAt(waiting, i) == waiting[..last];
    } else {
      WaitingWithout(waiting[..last], i, s);
      assert RemoveAt(waiting, i) == RemoveAt(waiting[..last], i) + [waiting[last]];
      assert RemoveAt(waiting, i)[..last - 1] == RemoveAt(waiting[..last], i);
    }
  }

  predicate WakeFailure(e: Event, s: SocketId) {
    e.Answered? && e.to == s && e.response.Fault? && e.response.reason == WakeFailed
  }

  /** Without a call for it and without a failed wake a socket's counts of both stay. */
  lemma {:induction false} CountsStay(wire: seq<Event>, more: seq<Event>, s: SocketId)
    requires wire <= more
    ensures (forall i :: |wire| <= i < |more| ==> !(more[i].Called? && more[i].caller == s)) ==> TallyOf(more, s).calls == TallyOf(wire, s).calls
    ensures (forall i :: |wire| <= i < |more| ==> !WakeFailure(more[i], s)) ==> TallyOf(more, s).wakes == TallyOf(wire, s).wakes
    decreases |more|
  {
    if |more| > |wire| {
      var before := more[..|more| - 1];
      CountsStay(wire, before, s);
      assert forall i :: |wire| <= i < |before| ==> more[i] == before[i];
    } else {
      assert more == wire;
    }
  }

  predicate ResumedStart(st: State, step: Step, s: SocketId) {
    step.Resume? && step.index < |st.waiting| && st.waiting[step.index].socket == s
  }

  lemma CalledFor(st: State, step: Step, e: Event, s: SocketId)
    requires Justified(st, step, e) && e.Called? && e.caller == s
    ensures ResumedStart(st, step, s) && step.wake.Awake?
  {
  }

  lemma FailedFor(st: State, step: Step, e: Event, s: SocketId)
    requires RelayFaults.Accounted(st, step, e) && WakeFailure(e, s)
    ensures ResumedStart(st, step, s) && !step.wake.Awake?
  {
  }

  lemma CountsOf(st: State, step: Step, wire: seq<Event>, s: SocketId)
    requires st.wire <= wire
    requires forall i :: |st.wire| <= i < |wire| ==> Justified(st, step, wire[i]) && RelayFaults.Accounted(st, step, wire[i])
    ensures !(ResumedStart(st, step, s) && step.wake.Awake?) ==> TallyOf(wire, s).calls == TallyOf(st.wire, s).calls
    ensures !(ResumedStart(st, step, s) && !step.wake.Awake?) ==> TallyOf(wire, s).wakes == TallyOf(st.wire, s).wakes
  {
    forall i | |st.wire| <= i < |wire| && wire[i].Called? && wire[i].caller == s ensures ResumedStart(st, step, s) && step.wake.Awake? {
      CalledFor(st, step, wire[i], s);
    }
    forall i | |st.wire| <= i < |wire| && WakeFailure(wire[i], s) ensures ResumedStart(st, step, s) && !step.wake.Awake? {
      FailedFor(st, step, wire[i], s);
    }
    CountsStay(st.wire, wire, s);
  }

  /** A step other than the resumption of one of a socket's own starts neither sends its call nor fails its wake. */
  lemma OthersCount(st: State, step: Step, s: SocketId)
    ensures !(ResumedStart(st, step, s) && step.wake.Awake?) ==> TallyOf(Next(st, step).wire, s).calls == TallyOf(st.wire, s).calls
    ensures !(ResumedStart(st, step, s) && !step.wake.Awake?) ==> TallyOf(Next(st, step).wire, s).wakes == TallyOf(st.wire, s).wakes
  {
    var wire := StepJustified(st, step);
    CountsOf(st, step, wire, s);
  }

  lemma StepJustified(st: State, step: Step) returns (wire: seq<Event>)
    ensures wire == Next(st, step).wire && st.wire <= wire
    ensures forall i :: |st.wire| <= i < |wire| ==> Justified(st, step, wire[i]) && RelayFaults.Accounted(st, step, wire[i])
  {
    wire := Next(st, step).wire;
    NextLater(st, step);
    forall i | |st.wire| <= i < |wire|
      ensures Justified(st, step, wire[i]) && RelayFaults.Accounted(st, step, wire[i])
    {
      StepOutput(st, step, i);
      RelayFaults.StepAccounts(st, step, i);
    }
  }

  lemma WaitingAfter(st: State, step: Step, s: SocketId)
    ensures
      var resumed := step.Resume? && step.index < |st.waiting| && st.waiting[step.index].socket == s;
      WaitingOf(Next(st, step).waiting, s) + (if resumed then 1 else 0)
      <= WaitingOf(st.waiting, s) + (if step.StartFrame? && step.s == s then 1 else 0)
  {
    match step
    case Resume(i, wake, now, delivers) => if i < |st.waiting| { WaitingWithout(st.waiting, i, s); ResumedWaits(st, step); }
    case StartFrame(c, m) => assert (st.waiting + [Waiting(c, m)])[..|st.waiting|] == st.waiting;
    case _ => OthersWait(st, step);
  }

  lemma ResumedWaits(st: State, step: Step)
    requires step.Resume? && step.index < |st.waiting|
    ensures Next(st, step).waiting == RemoveAt(st.waiting, step.index)
  {
  }

  /** Nothing but a start waits, and only its resumption ends the wait. */
  lemma OthersWait(st: State, step: Step)
    requires !step.Resume? && !step.StartFrame?
    ensures Next(st, step).waiting == st.waiting
  {
    match step
    case Hello(s, _, _, _) => ReplaceWaits(st, s);
    case DropDone(i) =>
      if i < |st.drops| { CallersWait(st.(drops := RemoveAt(st.drops, i)), true, DropReason(st.drops[i])); }
    case Revoke =>
      CloseWaits(st, st.sockets);
      CallersWait(CloseAll(st, st.sockets), false, Revoked);
      CloseWaits(FailCallers(CloseAll(st, st.sockets), false, Revoked), st.sockets);
    case _ =>
  }

  lemma {:induction false} EachWaits(st: State, list: seq<SocketId>, role: Role, only: bool, reason: Reason)
    ensures FailEach(st, list, role, only, reason).waiting == st.waiting && FailEach(st, list, role, only, reason).drops == st.drops
    ensures FailApprovals(st, list, only).waiting == st.waiting && FailApprovals(st, list, only).drops == st.drops
    decreases |list|
  {
    if list != [] {
      var s := list[0];
      EachWaits(Settle(st, s, Fault(LocalExecutorOffline, reason), true), list[1..], role, only, reason);
      EachWaits(st, list[1..], role, only, reason);
      if s in st.att && st.att[s].Approval? {
        EachWaits(ResolveApproval(Settle(st, s, ApprovalResult(Unanswered), false), st.att[s].id), list[1..], role, only, reason);
      }
    }
  }

  lemma CallersWait(st: State, only: bool, reason: Reason)
    ensures FailCallers(st, only, reason).waiting == st.waiting && FailCallers(st, only, reason).drops == st.drops
  {
    var tools := FailEach(st, st.sockets, Tool, only, reason);
    EachWaits(st, st.sockets, Tool, only, reason);
    EachWaits(tools, st.sockets, Workspace, only, reason);
    EachWaits(FailEach(tools, st.sockets, Workspace, only, reason), st.sockets, Tool, only, reason);
  }

  lemma {:induction false} RetireWaits(st: State, list: seq<SocketId>, current: SocketId)
    ensures Retire(st, list, current).waiting == st.waiting && Retire(st, list, current).drops == st.drops
    decreases |list|
  {
    if list != [] {
      var s := list[0];
      var next :=
        if s != current && s in st.att && st.att[s].Executor?
        then Emit(Emit(Put(st, s, st.att[s].(active := Some(false))), ShutDown(s)), Closed(s)) else st;
      RetireWaits(next, list[1..], current);
    }
  }

  lemma ReplaceWaits(st: State, current: SocketId)
    ensures ReplaceOthers(st, current).waiting == st.waiting && ReplaceOthers(st, current).drops == st.drops
  {
    var retired := Retire(st, st.sockets, current);
    RetireWaits(st, st.sockets, current);
    EachWaits(retired, st.sockets, Tool, true, Reconnected);
    EachWaits(FailEach(retired, st.sockets, Tool, true, Reconnected), st.sockets, Workspace, true, Reconnected);
  }

  lemma {:induction false} CloseWaits(st: State, list: seq<SocketId>)
    ensures CloseAll(st, list).waiting == st.waiting && CloseLogs(st, list).waiting == st.waiting
    ensures CloseAll(st, list).drops == st.drops && CloseLogs(st, list).drops == st.drops
    decreases |list|
  {
    if list != [] {
      var s := list[0];
      CloseWaits(if IsExecutor(st, s) then Emit(Emit(st, ShutDown(s)), Closed(s)) else st, list[1..]);
      CloseWaits(if s in st.att && st.att[s].Logs? then Emit(st, Closed(s)) else st, list[1..]);
    }
  }

  /** Every start waits, is sent, fails with its wake, or is refused: it is never two of these. */
  lemma {:induction false} StartsAreSpent(steps: seq<Step>, s: SocketId)
    ensures
      var st := Run(steps);
      WaitingOf(st.waiting, s) + TallyOf(st.wire, s).calls + TallyOf(st.wire, s).wakes <= StartsOf(steps, s)
    decreases |steps|
  {
    if steps != [] {
      var before, step := steps[..|steps| - 1], steps[|steps| - 1];
      var st := Run(before);
      StartsAreSpent(before, s);
      OthersCount(st, step, s);
      WaitingAfter(st, step, s);
      RunKeeps(before);
      RunKeeps(steps);
      assert Fine(st, s) && Fine(Run(steps), s);
    }
  }

  /**
   * A caller that sends one start, as the gateway's own do: once it is answered or
   * has left, what it was shown starting was shown ending, once; the one exception
   * is a call that was only sent after its caller had gone.
   */
  lemma OneStartPairs(steps: seq<Step>, s: SocketId)
    requires StartsOf(steps, s) <= 1 && s in Run(steps).att && Done(Run(steps), s)
    ensures
      var n := TallyOf(Run(steps).wire, s);
      && n.ends <= n.starts <= 1
      && (n.ends == n.starts <==> n.starts == 0 || n.late == 0)
  {
    StartsAreSpent(steps, s);
    LogLinesPair(steps, s);
    RunKeeps(steps);
    assert Fine(Run(steps), s);
  }

  // -------------------------------------------------- what a new tab is told

  lemma DispatchLogs(st: State, s: SocketId, m: Start, now: int, delivers: bool, c: SocketId)
    requires s in st.att && st.att[s].Caller? && st.att[s].Open() && c in st.att && (st.att[c].Caller? ==> st.att[c].log.None?)
    ensures
      var after := Dispatch(st, s, m, now, delivers);
      && st.wire <= after.wire
      && (c in after.att && after.att[c].Caller? && after.att[c].log.Some? ==> LogStarted(c, after.att[c].log.value) in after.wire)
  {
    if Sendable(st, s, m, now) && delivers {
      SentLater(st, s, m, now);
      var after := Dispatch(st, s, m, now, delivers);
      if m.kind != WorkspaceStart { assert after.wire[|after.wire| - 1] == LogStarted(s, Logged(m.target)); }
    }
  }

  predicate Unlogged(st: State, c: SocketId) {
    c in st.att && st.att[c].Caller? ==> st.att[c].log.None?
  }

  lemma OthersLog(st: State, step: Step, c: SocketId)
    requires Unlogged(st, c) && !step.Resume?
    ensures Unlogged(Next(st, step), c)
  {
    match step
    case Hello(_, _, _, _) => LoopsLog(st, step, c);
    case DropDone(_) => LoopsLog(st, step, c);
    case Revoke => LoopsLog(st, step, c);
    case Decide(id, approved, now) => DecideLogs(st, id, if approved then Approved else Declined, now, c);
    case ResultFrame(_, role, id, v) => AnswerLogs(st, role, id, if role == Tool then ToolResult(v) else WorkspaceResult(v), c);
    case UnreadableFrame(_, role, id) => AnswerLogs(st, role, id, Fault(InternalError, Unreadable), c);
    case _ =>
  }

  lemma LoopsLog(st: State, step: Step, c: SocketId)
    requires Unlogged(st, c) && (step.Hello? || step.DropDone? || step.Revoke?)
    ensures Unlogged(Next(st, step), c)
  {
    match step
    case Hello(s, _, _, _) => RelayFaults.ReplaceFails(st, s);
    case DropDone(i) =>
      if i < |st.drops| { RelayFaults.FailCallersFails(st.(drops := RemoveAt(st.drops, i)), true, DropReason(st.drops[i])); }
    case Revoke => RelayFaults.RevokeFails(st);
  }

  lemma AnswerLogs(st: State, role: Role, id: string, response: Response, c: SocketId)
    requires Unlogged(st, c)
    ensures Unlogged(AnswerCaller(st, role, id, response), c)
  {
  }

  lemma DecideLogs(st: State, id: string, decision: Decision, now: int, c: SocketId)
    requires Unlogged(st, c)
    ensures Unlogged(SettleApproval(st, id, decision, now), c)
  {
  }

  /** A call only comes to be logged by being shown starting. */
  lemma LogsBegin(st: State, step: Step, c: SocketId)
    requires Unlogged(st, c)
    ensures
      var after := Next(st, step);
      c in after.att && after.att[c].Caller? && after.att[c].log.Some? ==> LogStarted(c, after.att[c].log.value) in after.wire
  {
    if !step.Resume? {
      OthersLog(st, step, c);
    } else if step.index < |st.waiting| {
      ResumeLogs(st, step.index, step.wake, step.now, step.delivers, c);
    }
  }

  lemma ResumeLogs(st: State, index: nat, wake: Wake, now: int, delivers: bool, c: SocketId)
    requires Unlogged(st, c) && index < |st.waiting|
    ensures
      var after := Next(st, Resume(index, wake, now, delivers));
      c in after.att && after.att[c].Caller? && after.att[c].log.Some? ==> LogStarted(c, after.att[c].log.value) in after.wire
  {
    var w := st.waiting[index];
    var st1 := st.(waiting := RemoveAt(st.waiting, index));
    if w.socket in st.att && st.att[w.socket].Caller? && st.att[w.socket].Open() && c in st.att {
      DispatchLogs(st1, w.socket, w.message, now, delivers, c);
    }
  }

  /** What a caller is logged under is what it was shown starting under, and nothing else was. */
  lemma {:induction false} LogsAreShown(steps: seq<Step>, s: SocketId, target: Target)
    ensures
      var st := Run(steps);
      LogStarted(s, target) in st.wire <==> s in st.att && st.att[s].Caller? && st.att[s].log == Some(target)
    decreases |steps|
  {
    if steps != [] {
      var before, step := steps[..|steps| - 1], steps[|steps| - 1];
      var st, after := Run(before), Run(steps);
      LogsAreShown(before, s, target);
      NextLater(st, step);
      RunKeeps(before);
      assert Fine(st, s);
      if s !in st.att || !st.att[s].Caller? || st.att[s].log.None? {
        LogsBegin(st, step, s);
        ShownAnew(st, step, s, target);
      } else {
        ShownBefore(st, step, s, target);
      }
    }
  }

  /** A line that a step shows starting is that of the caller it has just logged. */
  lemma ShownAnew(st: State, step: Step, s: SocketId, target: Target)
    requires LogStarted(s, target) !in st.wire
    ensures
      var after := Next(st, step);
      LogStarted(s, target) in after.wire ==> s in after.att && after.att[s].Caller? && after.att[s].log == Some(target)
  {
    var after := Next(st, step);
    NextLater(st, step);
    if LogStarted(s, target) in after.wire {
      var i :| 0 <= i < |after.wire| && after.wire[i] == LogStarted(s, target);
      assert st.wire == after.wire[..|st.wire|];
      assert |st.wire| <= i;
      StepOutput(st, step, i);
      StartedIsHeld(st, step, i);
    }
  }

  lemma StartedIsHeld(st: State, step: Step, i: nat)
    requires step.Resume? && step.index < |st.waiting| && step.wake.Awake?
    requires |st.wire| <= i < |Next(st, step).wire| && Next(st, step).wire[i].LogStarted?
    ensures
      var after := Next(st, step);
      var e := after.wire[i];
      e.caller in after.att && after.att[e.caller].Caller? && after.att[e.caller].log == Some(e.target)
  {
    var w := st.waiting[step.index];
    var st1 := st.(waiting := RemoveAt(st.waiting, step.index));
    if w.socket in st.att && st.att[w.socket].Caller? && st.att[w.socket].Open() {
      DispatchOutput(st1, w.socket, w.message, step.now, step.delivers);
      if Sendable(st1, w.socket, w.message, step.now) && step.delivers {
        SentHeldAs(st1, w.socket, w.message, step.now);
      }
    } else {
      OtherwiseHushed(st1, w.socket, w.message, step.wake, step.now, step.delivers, i);
    }
  }

  lemma SentHeldAs(st: State, s: SocketId, m: Start, now: int)
    requires Sendable(st, s, m, now) && m.kind != WorkspaceStart
    ensures
      var after := Dispatch(st, s, m, now, true);
      s in after.att && after.att[s].Caller? && after.att[s].log == Some(Logged(m.target))
  {
  }

  /** A call that is logged is not shown starting again. */
  lemma ShownBefore(st: State, step: Step, s: SocketId, target: Target)
    requires s in st.att && st.att[s].Caller? && st.att[s].log.Some? && st.att[s].Dispatched()
    requires LogStarted(s, target) in st.wire <==> st.att[s].log == Some(target)
    ensures
      var after := Next(st, step);
      && (LogStarted(s, target) in after.wire <==> st.att[s].log == Some(target))
      && s in after.att && after.att[s].Caller? && after.att[s].log == st.att[s].log
  {
    var after := Next(st, step);
    NextLater(st, step);
    if LogStarted(s, target) in after.wire && LogStarted(s, target) !in st.wire {
      ShownAnew(st, step, s, target);
    }
  }

  /**
   * The list a new tab is given, by the wire alone: exactly the callers still
   * attached that were shown starting on its target and not yet ending; the one
   * exception is, again, a caller answered by a failed wake.
   */
  lemma SyncListsWhatRuns(steps: seq<Step>, watching: Target, s: SocketId)
    requires s in Run(steps).sockets
    ensures
      var st := Run(steps);
      var n := TallyOf(st.wire, s);
      s in Running(st, st.sockets, watching) <==>
        LogStarted(s, watching) in st.wire && n.ends == 0 && n.wakes == 0
  {
    RunKeeps(steps);
    var st := Run(steps);
    assert Fine(st, s);
    RunningIs(st, st.sockets, watching, s);
    OpenAnsweredNot(st, s);
    LogsAreShown(steps, s, watching);
  }

  lemma OpenAnsweredNot(st: State, s: SocketId)
    requires Inv(st) && s in st.sockets
    ensures s in st.att
    ensures
      var n, a := TallyOf(st.wire, s), st.att[s];
      a.Caller? && n.starts == 1 && n.ends == 0 && n.wakes == 0 ==> a.Open()
    ensures st.att[s].Open() ==> TallyOf(st.wire, s).wakes == 0
  {
    assert Fine(st, s);
  }

  // ------------------------------------------------------------ three corners

  const There := Target("p", None)
  const Call := Start(ToolStart, "a", There, "", 0, 100)

  function Begin(): State {
    State([1, 2], map[1 := Executor("d", Some(true), None), 2 := Caller(Tool, "a", false, None, None)], [], [], [Greeted(1)])
  }

  lemma Beginning()
    ensures Run([Connect(1, Executor("d", None, None)), Hello(1, 1, "d", None), Connect(2, Caller(Tool, "a", false, None, None))]) == Begin()
  {
    var c1, h, c2 := Connect(1, Executor("d", None, None)), Hello(1, 1, "d", None), Connect(2, Caller(Tool, "a", false, None, None));
    assert [c1, h, c2][..2] == [c1, h] && [c1, h][..1] == [c1] && [c1][..0] == [];
    var st1 := Next(Init, c1);
    assert Run([c1]) == st1 && st1.sockets == [1];
    var one := st1.sockets;
    assert one[1..] == [];
    assert Retire(st1, one, 1) == st1;
    assert !OtherExecutor(st1, 1);
    assert ReplaceOthers(st1, 1) == st1;
    var st2 := Next(st1, h);
    assert Run([c1, h]) == st2;
    assert st2.wire == [Greeted(1)];
    assert Next(st2, c2) == Begin();
  }

  lemma RouteOfBegin(st: State)
    requires st.sockets == [1, 2] || st.sockets == [1]
    requires 1 in st.att && st.att[1] == Executor("d", Some(true), None)
    ensures Route(st) == Some(1)
  {
    assert st.sockets[0] == 1;
  }

  lemma RunSnoc(steps: seq<Step>, step: Step)
    ensures Run(steps + [step]) == Next(Run(steps), step)
  {
    assert (steps + [step])[..|steps|] == steps;
  }

  /** The caller's attachment once its call went down. */
  const Sent := Caller(Tool, "a", false, Some(0), Some(There))

  lemma SendFromBegin(st: State, listening: bool)
    requires st.att == Begin().att && |st.waiting| > 0 && st.waiting[0] == Waiting(2, Call)
    requires st.sockets == if listening then [1, 2] else [1]
    ensures Next(st, Resume(0, Awake, 1, true)) ==
      State(st.sockets, st.att[2 := Sent], st.waiting[1..], st.drops,
            st.wire + [Called(1, 2, listening, 1, 100)] + [LogStarted(2, There)])
  {
    var st1 := st.(waiting := RemoveAt(st.waiting, 0));
    assert st1.waiting == st.waiting[1..];
    RouteOfBegin(st1);
    assert 2 in st.sockets <==> listening;
  }

  /** A second start on a sleeping machine whose wake fails answers a logged call and shows it ending nowhere. */
  lemma WakeCanLoseALine() returns (steps: seq<Step>)
    ensures
      var n := TallyOf(Run(steps).wire, 2);
      2 in Run(steps).att && Done(Run(steps), 2) && n.starts == 1 && n.ends == 0 && n.wakes == 1
  {
    var f, r1, r2 := StartFrame(2, Call), Resume(0, Awake, 1, true), Resume(0, StillWaking, 2, true);
    var begin := [Connect(1, Executor("d", None, None)), Hello(1, 1, "d", None), Connect(2, Caller(Tool, "a", false, None, None))];
    steps := begin + [f] + [f] + [r1] + [r2];
    Beginning();
    RunSnoc(begin, f);
    RunSnoc(begin + [f], f);
    RunSnoc(begin + [f] + [f], r1);
    RunSnoc(begin + [f] + [f] + [r1], r2);
    var w := Waiting(2, Call);
    assert Run(begin + [f] + [f]).waiting == [w, w];
    SendFromBegin(Run(begin + [f] + [f]), true);
    var st3 := Run(begin + [f] + [f] + [r1]);
    LoseFrom(st3);
  }

  lemma LoseFrom(st: State)
    requires st.sockets == [1, 2] && st.att == Begin().att[2 := Sent] && st.waiting == [Waiting(2, Call)]
    requires st.wire == [Greeted(1)] + [Called(1, 2, true, 1, 100)] + [LogStarted(2, There)]
    ensures
      var after := Next(st, Resume(0, StillWaking, 2, true));
      var n := TallyOf(after.wire, 2);
      2 in after.att && Done(after, 2) && n.starts == 1 && n.ends == 0 && n.wakes == 1
  {
    var after := Next(st, Resume(0, StillWaking, 2, true));
    assert 2 == st.sockets[1];
    assert after.wire == st.wire + [Answered(2, Fault(ExecutorWaking, WakeFailed))] + [Closed(2)];
    TallyOf5(after.wire);
  }

  /** A caller that leaves while its start waits on the wake is still sent down, listening to nothing. */
  lemma WakeCanSendForNobody() returns (steps: seq<Step>)
    ensures
      var n := TallyOf(Run(steps).wire, 2);
      2 in Run(steps).att && Done(Run(steps), 2) && n.late == 1 && n.starts == 1 && n.ends == 0
  {
    var f, l, r := StartFrame(2, Call), Leave(2, false), Resume(0, Awake, 1, true);
    var begin := [Connect(1, Executor("d", None, None)), Hello(1, 1, "d", None), Connect(2, Caller(Tool, "a", false, None, None))];
    steps := begin + [f] + [l] + [r];
    Beginning();
    RunSnoc(begin, f);
    RunSnoc(begin + [f], l);
    RunSnoc(begin + [f] + [l], r);
    var st1 := Run(begin + [f]);
    LeaveFrom(st1);
    SendToNobody(Run(begin + [f] + [l]));
  }

  lemma SendToNobody(st: State)
    requires st.sockets == [1] && st.att == Begin().att && st.waiting == [Waiting(2, Call)]
    requires st.wire == [Greeted(1)] + [CancelSent(1, "a")]
    ensures
      var after := Next(st, Resume(0, Awake, 1, true));
      var n := TallyOf(after.wire, 2);
      2 in after.att && Done(after, 2) && n.late == 1 && n.starts == 1 && n.ends == 0
  {
    SendFromBegin(st, false);
    TallyOf5(Next(st, Resume(0, Awake, 1, true)).wire);
  }

  lemma LeaveFrom(st: State)
    requires st.sockets == [1, 2] && st.att == Begin().att && st.wire == [Greeted(1)] && st.waiting == [Waiting(2, Call)]
    ensures Next(st, Leave(2, false)) == State([1], st.att, st.waiting, st.drops, [Greeted(1)] + [CancelSent(1, "a")])
  {
    RouteOfBegin(st);
    assert Without([2], 2) == [];
    assert [1, 2][1..] == [2];
    assert Without([1, 2], 2) == [1];
  }

  /** Unrolls the count of a short wire. */
  lemma TallyOf5(wire: seq<Event>)
    requires 4 <= |wire| <= 5
    ensures TallyOf(wire, 2) ==
      var n := Bump(Bump(Bump(Bump(Tally(0, 0, 0, 0, 0, 0), wire[0], 2), wire[1], 2), wire[2], 2), wire[3], 2);
      if |wire| == 5 then Bump(n, wire[4], 2) else n
  {
    assert wire[..4][..3] == wire[..3] && wire[..3][..2] == wire[..2] && wire[..2][..1] == wire[..1] && wire[..1][..0] == [];
    assert TallyOf(wire[..1], 2) == Bump(Tally(0, 0, 0, 0, 0, 0), wire[0], 2);
    assert TallyOf(wire[..2], 2) == Bump(TallyOf(wire[..1], 2), wire[1], 2);
    assert TallyOf(wire[..3], 2) == Bump(TallyOf(wire[..2], 2), wire[2], 2);
    assert TallyOf(wire[..4], 2) == Bump(TallyOf(wire[..3], 2), wire[3], 2);
    if |wire| == 4 { assert wire[..4] == wire; }
  }
}
