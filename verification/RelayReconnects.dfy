/**
 * Which executor the relay routes to, and what a reconnect does to the calls
 * that were in flight.
 */
module RelayReconnects {
  import opened Common
  import opened RelayModel
  import opened RelaySafety
  import opened RelayTheorems

  // ----------------------------------------------------- the active executor

  /** The executor whose valid hello arrived last. */
  function LastGreeted(wire: seq<Event>): Option<SocketId> {
    if wire == [] then None
    else if wire[|wire| - 1].Greeted? then Some(wire[|wire| - 1].executor)
    else LastGreeted(wire[..|wire| - 1])
  }

  lemma {:induction false} NobodyGreeted(wire: seq<Event>, more: seq<Event>)
    requires wire <= more
    requires forall i :: |wire| <= i < |more| ==> !more[i].Greeted?
    ensures LastGreeted(more) == LastGreeted(wire)
    decreases |more|
  {
    if |more| == |wire| {
      assert more == wire;
    } else {
      NobodyGreeted(wire, more[..|more| - 1]);
    }
  }

  predicate Active(st: State, s: SocketId) {
    IsExecutor(st, s) && st.att[s].active == Some(true)
  }

  /** Every attached executor marked active is the one that said hello last. */
  ghost predicate OneActive(st: State) {
    forall s :: s in st.sockets && Active(st, s) ==> LastGreeted(st.wire) == Some(s)
  }

  /** A step that greets nobody activates nobody. */
  lemma NoHelloNoChange(st: State, step: Step)
    requires OneActive(st) && !step.Hello?
    ensures OneActive(Next(st, step))
  {
    var after := Next(st, step);
    NextLater(st, step);
    forall i | |st.wire| <= i < |after.wire| ensures !after.wire[i].Greeted? {
      StepOutput(st, step, i);
    }
    NobodyGreeted(st.wire, after.wire);
    forall s | s in after.sockets && Active(after, s)
      ensures LastGreeted(after.wire) == Some(s)
    {
      ActivatesNobody(st, step, s);
    }
  }

  lemma ActivatesNobody(st: State, step: Step, s: SocketId)
    requires !step.Hello?
    requires var after := Next(st, step); s in after.sockets && Active(after, s)
    ensures s in st.sockets && Active(st, s)
  {
    match step
    case Resume(i, wake, now, delivers) =>
      if i < |st.waiting| {
        var w := st.waiting[i];
        var st1 := st.(waiting := RemoveAt(st.waiting, i));
        if wake.Awake? && w.socket in st.att && st.att[w.socket].Open() {
          if st.att[w.socket].Caller? { DispatchSpares(st1, w.socket, w.message, now, delivers, s); }
          else { AskSpares(st1, w.socket, w.message, now, delivers, s); }
        }
      }
    case CancelFrame(c) => if c in st.att && st.att[c].Open() { CancelFrameTally(st, c, c); }
    case Leave(c, failed) => if c in st.att { LeaveTally(st, c, failed, c); }
    case Decide(id, approved, now) => DecideSpares(st, id, if approved then Approved else Declined, now, s);
    case DropDone(i) =>
      if i < |st.drops| {
        var st1 := st.(drops := RemoveAt(st.drops, i));
        FailCallersQuiet(st1, true, DropReason(st.drops[i]));
        SocketsStay(st1, true, DropReason(st.drops[i]));
      }
    case Revoke =>
      RevokeQuiet(st);
      RevokeSockets(st);
    case _ =>
  }

  lemma AskSpares(st: State, s: SocketId, m: Start, now: int, delivers: bool, x: SocketId)
    requires s in st.att && st.att[s].Approval?
    ensures var after := AskApproval(st, s, m, now, delivers);
      && after.sockets == st.sockets
      && after.att.Keys == st.att.Keys && (x in st.att && x != s ==> after.att[x] == st.att[x]) && after.att[s].Approval?
  {
  }

  lemma DecideSpares(st: State, id: string, decision: Decision, now: int, x: SocketId)
    ensures var after := SettleApproval(st, id, decision, now);
      && after.sockets == st.sockets
      && after.att.Keys == st.att.Keys && (IsExecutor(after, x) ==> after.att[x] == st.att[x])
  {
  }

  lemma DispatchSpares(st: State, s: SocketId, m: Start, now: int, delivers: bool, x: SocketId)
    requires s in st.att && st.att[s].Caller?
    ensures var after := Dispatch(st, s, m, now, delivers);
      && after.sockets == st.sockets
      && after.att.Keys == st.att.Keys && (x in st.att && x != s ==> after.att[x] == st.att[x]) && after.att[s].Caller?
  {
    var c, route := st.att[s], Route(st);
    if m.requestId != c.id || c.issuedAt.Some? {
    } else if m.expiresAt <= now {
      SettleSpares(st, s, Fault(ToolTimeout, Expired), x);
    } else if route.None? || !IsExecutor(st, route.value) {
      SettleSpares(st, s, Fault(LocalExecutorOffline, NotConnected), x);
    } else if !Announced(m, st.att[route.value]) {
      SettleSpares(st, s, Fault(Forbidden, NeedsUpdate), x);
    } else if Named(m.target.workspaceId) && !Routes(st.att[route.value]) {
      SettleSpares(st, s, Fault(WorkspaceUnavailable, NoRouting), x);
    } else if !delivers {
      SettleSpares(Put(st, s, c.(issuedAt := Some(m.issuedAt))), s, Fault(LocalExecutorOffline, SendFailed), x);
    }
  }

  lemma SettleSpares(st: State, s: SocketId, response: Response, x: SocketId)
    requires s in st.att && st.att[s].Caller?
    ensures var after := Settle(st, s, response, false);
      && after.sockets == st.sockets
      && after.att.Keys == st.att.Keys && (x in st.att && x != s ==> after.att[x] == st.att[x]) && after.att[s].Caller?
  {
  }

  lemma {:induction false} FailEachSockets(st: State, list: seq<SocketId>, role: Role, only: bool, reason: Reason)
    ensures FailEach(st, list, role, only, reason).sockets == st.sockets
    decreases |list|
  {
    if list != [] {
      var s := list[0];
      var next := if s in st.att && st.att[s].Caller? && st.att[s].role == role && (only ==> st.att[s].issuedAt.Some?)
        then Settle(st, s, Fault(LocalExecutorOffline, reason), true) else st;
      FailEachSockets(next, list[1..], role, only, reason);
    }
  }

  lemma {:induction false} FailApprovalsSockets(st: State, list: seq<SocketId>, only: bool)
    ensures FailApprovals(st, list, only).sockets == st.sockets
    decreases |list|
  {
    if list != [] {
      var s := list[0];
      var next := if s in st.att && st.att[s].Approval? && (only ==> st.att[s].expiresAt.Some?)
        then ResolveApproval(Settle(st, s, ApprovalResult(Unanswered), false), st.att[s].id) else st;
      FailApprovalsSockets(next, list[1..], only);
    }
  }

  lemma SocketsStay(st: State, only: bool, reason: Reason)
    ensures FailCallers(st, only, reason).sockets == st.sockets
  {
    var tools := FailEach(st, st.sockets, Tool, only, reason);
    FailEachSockets(st, st.sockets, Tool, only, reason);
    FailEachSockets(tools, st.sockets, Workspace, only, reason);
    FailApprovalsSockets(FailEach(tools, st.sockets, Workspace, only, reason), st.sockets, only);
  }

  lemma {:induction false} CloseSockets(st: State, list: seq<SocketId>)
    ensures CloseAll(st, list).sockets == st.sockets
    ensures CloseLogs(st, list).sockets == st.sockets
    decreases |list|
  {
    if list != [] {
      var s := list[0];
      CloseSockets(if IsExecutor(st, s) then Emit(Emit(st, ShutDown(s)), Closed(s)) else st, list[1..]);
      CloseSockets(if s in st.att && st.att[s].Logs? then Emit(st, Closed(s)) else st, list[1..]);
    }
  }

  lemma RevokeSockets(st: State)
    ensures RevokeDevice(st).sockets == st.sockets
  {
    CloseSockets(st, st.sockets);
    SocketsStay(CloseAll(st, st.sockets), false, Revoked);
    CloseSockets(FailCallers(CloseAll(st, st.sockets), false, Revoked), st.sockets);
  }

  lemma {:induction false} RetireSockets(st: State, list: seq<SocketId>, current: SocketId)
    ensures Retire(st, list, current).sockets == st.sockets
    decreases |list|
  {
    if list != [] {
      var s := list[0];
      var next := if s != current && s in st.att && st.att[s].Executor?
        then Emit(Emit(Put(st, s, st.att[s].(active := Some(false))), ShutDown(s)), Closed(s)) else st;
      RetireSockets(next, list[1..], current);
    }
  }

  lemma ReplaceSockets(st: State, current: SocketId)
    ensures ReplaceOthers(st, current).sockets == st.sockets
  {
    RetireSockets(st, st.sockets, current);
    var retired := Retire(st, st.sockets, current);
    FailEachSockets(retired, st.sockets, Tool, true, Reconnected);
    FailEachSockets(FailEach(retired, st.sockets, Tool, true, Reconnected), st.sockets, Workspace, true, Reconnected);
  }

  /** A valid hello leaves its socket the only routable executor attached. */
  lemma HelloTakesOver(st: State, s: SocketId, protocol: int, deviceId: string, caps: Option<Capabilities>)
    requires AttachedExecutor(st, s) && MIN_PROTOCOL <= protocol <= MAX_PROTOCOL
    requires forall t :: t in st.sockets ==> t in st.att
    ensures var after := SayHello(st, s, protocol, deviceId, caps);
      && LastGreeted(after.wire) == Some(s)
      && Route(after) == Some(s)
      && forall t :: t in after.sockets && IsExecutor(after, t) ==> (IsExecutor(st, t) && (after.att[t].Routable() <==> t == s))
  {
    var after := SayHello(st, s, protocol, deviceId, caps);
    var replaced := ReplaceOthers(st, s);
    ReplaceQuiet(st, s);
    ReplaceSockets(st, s);
    assert after.wire[..|after.wire| - 1] == replaced.wire;
    forall t | t in after.sockets && IsExecutor(after, t)
      ensures IsExecutor(st, t) && (after.att[t].Routable() <==> t == s)
    {
      if t != s {
        assert Evolves(st.att[t], replaced.att[t]);
        ReplaceMarks(st, s, t);
      }
    }
    var x := Route(after);
    assert after.att[s].active == Some(true);
    assert IsExecutor(after, s);
  }

  lemma {:induction false} RunOneActive(steps: seq<Step>)
    ensures OneActive(Run(steps))
    decreases |steps|
  {
    if steps != [] {
      var before, step := Run(steps[..|steps| - 1]), steps[|steps| - 1];
      RunOneActive(steps[..|steps| - 1]);
      RunKeeps(steps[..|steps| - 1]);
      if step.Hello? && AttachedExecutor(before, step.s) {
        if MIN_PROTOCOL <= step.protocol <= MAX_PROTOCOL {
          HelloTakesOver(before, step.s, step.protocol, step.deviceId, step.capabilities);
        } else {
          NobodyGreeted(before.wire, Next(before, step).wire);
        }
      } else if !step.Hello? {
        NoHelloNoChange(before, step);
      }
    }
  }

  /**
   * Over every run: at most one attached executor is active, it is the one that
   * said hello last, and calls go to it while it is attached.
   */
  lemma RoutesToTheLastHello(steps: seq<Step>)
    ensures
      var st := Run(steps);
      && (forall s, t :: s in st.sockets && t in st.sockets && Active(st, s) && Active(st, t) ==> s == t)
      && (forall s :: s in st.sockets && Active(st, s) ==>
            Route(st) == Some(s) && LastGreeted(st.wire) == Some(s))
      && (Route(st).Some? ==> st.att[Route(st).value].Routable())
  {
    RunOneActive(steps);
  }

  /** An executor that gave way to another one. */
  predicate Replaced(st: State, s: SocketId) {
    IsExecutor(st, s) && st.att[s].active == Some(false)
  }

  /** The one way back: its own hello, while it is attached. */
  predicate SaysHello(step: Step, s: SocketId) {
    step.Hello? && step.s == s && MIN_PROTOCOL <= step.protocol <= MAX_PROTOCOL
  }

  lemma OthersHello(st: State, step: Step, s: SocketId)
    requires Replaced(st, s) && step.Hello? && !SaysHello(step, s)
    ensures Replaced(Next(st, step), s)
  {
    ReplaceQuiet(st, step.s);
  }

  /** Nothing but its own hello brings a replaced executor back. */
  lemma ReplacedStays(st: State, step: Step, s: SocketId)
    requires Replaced(st, s) && !SaysHello(step, s)
    ensures Replaced(Next(st, step), s)
  {
    if step.Hello? {
      OthersHello(st, step, s);
    } else if step.Resume? {
      ResumeSparesReplaced(st, step, s);
    } else if step.DropDone? || step.Revoke? {
      LoopsSpareReplaced(st, step, s);
    } else {
      FramesSpareReplaced(st, step, s);
    }
  }

  lemma ResumeSparesReplaced(st: State, step: Step, s: SocketId)
    requires Replaced(st, s) && step.Resume?
    ensures Replaced(Next(st, step), s)
  {
    if step.index < |st.waiting| {
      var w := st.waiting[step.index];
      var st1 := st.(waiting := RemoveAt(st.waiting, step.index));
      if step.wake.Awake? && w.socket in st.att && st.att[w.socket].Open() {
        if st.att[w.socket].Caller? { DispatchSpares(st1, w.socket, w.message, step.now, step.delivers, s); }
        else { AskSpares(st1, w.socket, w.message, step.now, step.delivers, s); }
      }
    }
  }

  lemma LoopsSpareReplaced(st: State, step: Step, s: SocketId)
    requires Replaced(st, s) && (step.DropDone? || step.Revoke?)
    ensures Replaced(Next(st, step), s)
  {
    if step.Revoke? {
      RevokeQuiet(st);
    } else if step.index < |st.drops| {
      FailCallersQuiet(st.(drops := RemoveAt(st.drops, step.index)), true, DropReason(st.drops[step.index]));
    }
  }

  lemma FramesSpareReplaced(st: State, step: Step, s: SocketId)
    requires Replaced(st, s) && !step.Hello? && !step.Resume? && !step.DropDone? && !step.Revoke?
    ensures Replaced(Next(st, step), s)
  {
    match step
    case CancelFrame(c) => if c in st.att && st.att[c].Open() { CancelFrameTally(st, c, c); }
    case Leave(c, failed) => if c in st.att { LeaveTally(st, c, failed, c); }
    case Decide(id, approved, now) => DecideReplaced(st, id, if approved then Approved else Declined, now, s);
    case _ =>
  }

  lemma DecideReplaced(st: State, id: string, decision: Decision, now: int, s: SocketId)
    requires Replaced(st, s)
    ensures Replaced(SettleApproval(st, id, decision, now), s)
  {
  }

  lemma {:induction false} StaysReplaced(steps: seq<Step>, k: nat, s: SocketId)
    requires k <= |steps| && Replaced(Run(steps[..k]), s)
    requires forall m :: k <= m < |steps| ==> !SaysHello(steps[m], s)
    ensures Replaced(Run(steps), s)
    decreases |steps|
  {
    if k == |steps| {
      assert steps[..k] == steps;
    } else {
      var before := steps[..|steps| - 1];
      assert before[..k] == steps[..k];
      StaysReplaced(before, k, s);
      ReplacedStays(Run(before), steps[|steps| - 1], s);
    }
  }

  lemma WireBefore(steps: seq<Step>, m: nat, k: nat)
    requires m <= k <= |steps|
    ensures |Run(steps[..m]).wire| <= |Run(steps[..k]).wire|
  {
    RunLater(steps[..k], m);
    assert steps[..k][..m] == steps[..m];
  }

  /**
   * Over every run: from the moment an executor is replaced until it says hello
   * again itself, calls are not routed to it, and none is sent to it.
   */
  lemma ReplacedIsNotRoutedTo(steps: seq<Step>, k: nat, s: SocketId)
    requires k <= |steps| && Replaced(Run(steps[..k]), s)
    requires forall m :: k <= m < |steps| ==> !SaysHello(steps[m], s)
    ensures Replaced(Run(steps), s) && Route(Run(steps)) != Some(s)
    ensures forall i :: |Run(steps[..k]).wire| <= i < |Run(steps).wire| ==>
      !(Run(steps).wire[i].Called? && Run(steps).wire[i].executor == s)
  {
    StaysReplaced(steps, k, s);
    forall i | |Run(steps[..k]).wire| <= i < |Run(steps).wire| && Run(steps).wire[i].Called? && Run(steps).wire[i].executor == s
      ensures false
    {
      var m := EveryEventJustified(steps, i);
      if m < k { WireBefore(steps, m + 1, k); }
      assert steps[..m][..k] == steps[..k];
      StaysReplaced(steps[..m], k, s);
    }
  }

  // ---------------------------------------------------------- stranded calls

  /** What failing the callers of one role does to any socket. */
  lemma {:induction false} FailEachDoes(st: State, list: seq<SocketId>, role: Role, only: bool, reason: Reason, x: SocketId)
    requires x in st.att
    ensures
      var after := FailEach(st, list, role, only, reason);
      && x in after.att
      && after.att[x] ==
        if x in list && st.att[x].Caller? && st.att[x].role == role && (only ==> st.att[x].issuedAt.Some?)
        then st.att[x].Mark() else st.att[x]
    decreases |list|
  {
    if list != [] {
      var s := list[0];
      var next := if s in st.att && st.att[s].Caller? && st.att[s].role == role && (only ==> st.att[s].issuedAt.Some?)
        then Settle(st, s, Fault(LocalExecutorOffline, reason), true) else st;
      FailEachDoes(next, list[1..], role, only, reason, x);
    }
  }

  lemma {:induction false} FailApprovalsDoes(st: State, list: seq<SocketId>, only: bool, x: SocketId)
    requires x in st.att
    ensures
      var after := FailApprovals(st, list, only);
      && x in after.att
      && after.att[x] ==
        if x in list && st.att[x].Approval? && (only ==> st.att[x].expiresAt.Some?)
        then st.att[x].Mark() else st.att[x]
    decreases |list|
  {
    if list != [] {
      var s := list[0];
      var next := if s in st.att && st.att[s].Approval? && (only ==> st.att[s].expiresAt.Some?)
        then ResolveApproval(Settle(st, s, ApprovalResult(Unanswered), false), st.att[s].id) else st;
      FailApprovalsDoes(next, list[1..], only, x);
    }
  }

  /** `failCallers`, seen from each attached socket. */
  lemma FailCallersDoes(st: State, only: bool, reason: Reason, x: SocketId)
    requires x in st.att && x in st.sockets
    ensures
      var after := FailCallers(st, only, reason);
      && x in after.att
      && after.att[x] ==
        (if st.att[x].Caller? && (only ==> st.att[x].issuedAt.Some?) then st.att[x].Mark()
         else if st.att[x].Approval? && (only ==> st.att[x].expiresAt.Some?) then st.att[x].Mark()
         else st.att[x])
  {
    var tools := FailEach(st, st.sockets, Tool, only, reason);
    var calls := FailEach(tools, st.sockets, Workspace, only, reason);
    FailEachDoes(st, st.sockets, Tool, only, reason, x);
    FailEachDoes(tools, st.sockets, Workspace, only, reason, x);
    FailApprovalsDoes(calls, st.sockets, only, x);
  }

  /**
   * A hello that replaced another executor strands nobody: every attached call
   * already sent down is settled, and every other caller is exactly as it was. A
   * hello that found nobody to replace settles nobody at all.
   */
  lemma HelloStrandsNobody(st: State, s: SocketId, protocol: int, deviceId: string, caps: Option<Capabilities>, c: SocketId)
    requires AttachedExecutor(st, s) && MIN_PROTOCOL <= protocol <= MAX_PROTOCOL
    requires c in st.sockets && c in st.att && st.att[c].Caller?
    ensures
      var after := SayHello(st, s, protocol, deviceId, caps);
      c in after.att && after.att[c] == if OtherExecutor(st, s) && st.att[c].Dispatched() then st.att[c].Mark() else st.att[c]
  {
    var retired := Retire(st, st.sockets, s);
    RetireMarks(st, st.sockets, s, c);
    FailEachDoes(retired, st.sockets, Tool, true, Reconnected, c);
    FailEachDoes(FailEach(retired, st.sockets, Tool, true, Reconnected), st.sockets, Workspace, true, Reconnected, c);
  }

  /**
   * Once a drop is carried out, no attached call that went down is left open and
   * every caller not yet dispatched is untouched; a drop is scheduled exactly when
   * the leaving executor had no other routable one beside it.
   */
  lemma DropStrandsNobody(st: State, i: nat, c: SocketId)
    requires i < |st.drops| && c in st.sockets && c in st.att && st.att[c].Caller?
    ensures
      var after := Next(st, DropDone(i));
      c in after.att && after.att[c] == if st.att[c].Dispatched() then st.att[c].Mark() else st.att[c]
  {
    FailCallersDoes(st.(drops := RemoveAt(st.drops, i)), true, DropReason(st.drops[i]), c);
  }

  lemma DropIsScheduled(st: State, s: SocketId, failed: bool)
    requires AttachedExecutor(st, s)
    ensures Next(st, Leave(s, failed)).drops == if HasOther(st, s) then st.drops else st.drops + [failed]
  {
  }

  /** A revoked device leaves no attached caller and no attached approval open. */
  lemma RevokeSettlesAll(st: State, c: SocketId)
    requires c in st.sockets && c in st.att
    ensures c in Next(st, Revoke).att && !Next(st, Revoke).att[c].Open()
  {
    var closed := CloseAll(st, st.sockets);
    CloseAllAtt(st, st.sockets);
    CloseSockets(st, st.sockets);
    FailCallersDoes(closed, false, Revoked, c);
    CloseAllAtt(FailCallers(closed, false, Revoked), st.sockets);
  }

  lemma {:induction false} CloseAllAtt(st: State, list: seq<SocketId>)
    ensures CloseAll(st, list).att == st.att
    ensures CloseLogs(st, list).att == st.att
    decreases |list|
  {
    if list != [] {
      var s := list[0];
      CloseAllAtt(if IsExecutor(st, s) then Emit(Emit(st, ShutDown(s)), Closed(s)) else st, list[1..]);
      CloseAllAtt(if s in st.att && st.att[s].Logs? then Emit(st, Closed(s)) else st, list[1..]);
    }
  }
}
