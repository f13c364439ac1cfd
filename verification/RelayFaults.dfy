/**
 * What a caller is told when it is not told what it asked: every error the relay
 * gives of its own accord, and every question that is called unanswered, has the
 * code and the cause that go with it. And what a caller that starts once is owed.
 */
module RelayFaults {
  import opened Common
  import opened RelayModel
  import opened RelaySafety
  import RelayTheorems

  /** The start that is resumed is this socket's, and the socket still listens. */
  predicate ResumedFor(st: State, step: Step, s: SocketId) {
    && step.Resume? && step.index < |st.waiting| && st.waiting[step.index].socket == s
    && s in st.sockets && s in st.att && st.att[s].Open()
  }

  /** The causes a start is refused for, in the order they are looked at. */
  predicate Refused(st: State, step: Step, s: SocketId, code: Code, reason: Reason)
    requires ResumedFor(st, step, s)
  {
    var m, x := st.waiting[step.index].message, Route(st);
    if !step.wake.Awake? then
      reason == WakeFailed && code == if step.wake.StillWaking? then ExecutorWaking else LocalExecutorOffline
    else
      && !st.att[s].Dispatched()
      && match reason
         case Expired => code == ToolTimeout && st.att[s].Caller? && m.expiresAt <= step.now
         case NotConnected => code == LocalExecutorOffline && step.now < m.expiresAt && x.None?
         case NeedsUpdate =>
           code == Forbidden && step.now < m.expiresAt && x.Some? && IsExecutor(st, x.value) && !Announced(m, st.att[x.value])
         case NoRouting =>
           code == WorkspaceUnavailable && step.now < m.expiresAt && x.Some? && IsExecutor(st, x.value)
           && Announced(m, st.att[x.value]) && Named(m.target.workspaceId) && !Routes(st.att[x.value])
         case SendFailed => code == LocalExecutorOffline && !step.delivers && Sendable(st, s, m, step.now)
         case _ => false
  }

  /** The causes an open call is failed for whatever it is: its executor went, was replaced, or gave an unreadable result. */
  predicate Failed(st: State, step: Step, s: SocketId, code: Code, reason: Reason)
    requires s in st.att && st.att[s].Caller?
  {
    match reason
    case Unreadable =>
      && code == InternalError && step.UnreadableFrame? && AttachedExecutor(st, step.s)
      && st.att[s].role == step.role && st.att[s].id == step.requestId
    case Reconnected =>
      && code == LocalExecutorOffline && step.Hello? && AttachedExecutor(st, step.s) && OtherExecutor(st, step.s)
      && st.att[s].Dispatched()
    case Disconnected => DroppedBy(st, step, s, code, false)
    case ConnectionFailed => DroppedBy(st, step, s, code, true)
    case Revoked => code == LocalExecutorOffline && step.Revoke?
    case _ => false
  }

  predicate DroppedBy(st: State, step: Step, s: SocketId, code: Code, failed: bool)
    requires s in st.att && st.att[s].Caller?
  {
    code == LocalExecutorOffline && step.DropDone? && step.index < |st.drops| && st.drops[step.index] == failed && st.att[s].Dispatched()
  }

  /** When a question counts as unanswered. */
  predicate Lapsed(st: State, step: Step, s: SocketId)
    requires s in st.att && st.att[s].Approval?
  {
    match step
    case Resume(index, wake, now, _) =>
      index < |st.waiting| && st.waiting[index].socket == s && wake.Awake? && st.waiting[index].message.expiresAt <= now
    case Decide(id, _, now) => st.att[s].id == id && st.att[s].expiresAt.Some? && st.att[s].expiresAt.value <= now
    case DropDone(_) => st.att[s].expiresAt.Some?
    case Revoke => true
    case _ => false
  }

  /** An answer nobody gave has its cause in the step that let it out; a call is shown ending where it was shown starting. */
  predicate Accounted(st: State, step: Step, e: Event) {
    && (e.Answered? && RelayTheorems.Own(e.response) ==>
          && e.to in st.sockets && e.to in st.att && st.att[e.to].Open()
          && match e.response
             case Fault(code, reason) =>
               || (ResumedFor(st, step, e.to) && Refused(st, step, e.to, code, reason))
               || (st.att[e.to].Caller? && Failed(st, step, e.to, code, reason))
             case ApprovalResult(_) => st.att[e.to].Approval? && Lapsed(st, step, e.to)
             case _ => false)
    && (e.LogEnded? ==> EndsItsLine(st, e))
  }

  predicate EndsItsLine(st: State, e: Event)
    requires e.LogEnded?
  {
    e.caller in st.att && st.att[e.caller].Caller? && st.att[e.caller].Open() && st.att[e.caller].log == Some(e.target)
  }

  // ------------------------------------------------------ what a loop answers

  predicate Given(st: State, e: Event, reason: Reason, only: bool) {
    && (e.Answered? ==>
          && e.to in st.sockets && e.to in st.att && st.att[e.to].Open()
          && if st.att[e.to].Caller?
             then e.response == Fault(LocalExecutorOffline, reason) && (only ==> st.att[e.to].Dispatched())
             else e.response == ApprovalResult(Unanswered) && (only ==> st.att[e.to].expiresAt.Some?))
    && (e.LogEnded? ==> EndsItsLine(st, e))
  }

  /** A change that only marks sockets and gives one kind of answer to some that were open. */
  ghost predicate Failing(st: State, after: State, reason: Reason, only: bool) {
    && st.wire <= after.wire && after.sockets == st.sockets && after.att.Keys == st.att.Keys
    && (forall s :: s in st.att ==>
          after.att[s] == st.att[s] || after.att[s] == st.att[s].Mark() || (st.att[s].Executor? && after.att[s].Executor?))
    && (forall i :: |st.wire| <= i < |after.wire| ==> Given(st, after.wire[i], reason, only))
  }

  /** Whatever is answered is answered with an error. */
  ghost predicate NoneLapse(st: State, after: State) {
    && st.wire <= after.wire
    && forall i :: |st.wire| <= i < |after.wire| && after.wire[i].Answered? ==> after.wire[i].response.Fault?
  }

  lemma FailingThen(a: State, b: State, c: State, reason: Reason, only: bool)
    requires Failing(a, b, reason, only) && Failing(b, c, reason, only)
    ensures Failing(a, c, reason, only)
  {
    forall i | |a.wire| <= i < |c.wire| ensures Given(a, c.wire[i], reason, only) {
      if i < |b.wire| { assert c.wire[i] == b.wire[i]; }
    }
  }

  lemma SettleFails(st: State, s: SocketId, reason: Reason, only: bool)
    requires s in st.att && st.att[s].Caller? && (only ==> st.att[s].Dispatched())
    ensures Failing(st, Settle(st, s, Fault(LocalExecutorOffline, reason), true), reason, only)
  {
  }

  lemma {:induction false} FailEachFails(st: State, list: seq<SocketId>, role: Role, only: bool, reason: Reason)
    ensures Failing(st, FailEach(st, list, role, only, reason), reason, only)
    ensures NoneLapse(st, FailEach(st, list, role, only, reason))
    decreases |list|
  {
    if list != [] {
      var s := list[0];
      if s in st.att && st.att[s].Caller? && st.att[s].role == role && (only ==> st.att[s].issuedAt.Some?) {
        var next := Settle(st, s, Fault(LocalExecutorOffline, reason), true);
        SettleFails(st, s, reason, only);
        assert NoneLapse(st, next);
        FailEachFails(next, list[1..], role, only, reason);
        FailingThen(st, next, FailEach(next, list[1..], role, only, reason), reason, only);
      } else {
        FailEachFails(st, list[1..], role, only, reason);
      }
    }
  }

  lemma ApprovalFails(st: State, s: SocketId, reason: Reason, only: bool)
    requires s in st.att && st.att[s].Approval? && (only ==> st.att[s].expiresAt.Some?)
    ensures Failing(st, ResolveApproval(Settle(st, s, ApprovalResult(Unanswered), false), st.att[s].id), reason, only)
  {
  }

  lemma {:induction false} FailApprovalsFails(st: State, list: seq<SocketId>, only: bool, reason: Reason)
    ensures Failing(st, FailApprovals(st, list, only), reason, only)
    decreases |list|
  {
    if list != [] {
      var s := list[0];
      if s in st.att && st.att[s].Approval? && (only ==> st.att[s].expiresAt.Some?) {
        var next := ResolveApproval(Settle(st, s, ApprovalResult(Unanswered), false), st.att[s].id);
        ApprovalFails(st, s, reason, only);
        FailApprovalsFails(next, list[1..], only, reason);
        FailingThen(st, next, FailApprovals(next, list[1..], only), reason, only);
      } else {
        FailApprovalsFails(st, list[1..], only, reason);
      }
    }
  }

  lemma FailCallersFails(st: State, only: bool, reason: Reason)
    ensures Failing(st, FailCallers(st, only, reason), reason, only)
  {
    var tools := FailEach(st, st.sockets, Tool, only, reason);
    var calls := FailEach(tools, st.sockets, Workspace, only, reason);
    FailEachFails(st, st.sockets, Tool, only, reason);
    FailEachFails(tools, st.sockets, Workspace, only, reason);
    FailApprovalsFails(calls, st.sockets, only, reason);
    FailingThen(st, tools, calls, reason, only);
    FailingThen(st, calls, FailCallers(st, only, reason), reason, only);
  }

  lemma {:induction false} RetireFails(st: State, list: seq<SocketId>, current: SocketId, reason: Reason)
    ensures Failing(st, Retire(st, list, current), reason, true)
    decreases |list|
  {
    if list != [] {
      var s := list[0];
      if s != current && s in st.att && st.att[s].Executor? {
        var next := Emit(Emit(Put(st, s, st.att[s].(active := Some(false))), ShutDown(s)), Closed(s));
        assert Failing(st, next, reason, true);
        RetireFails(next, list[1..], current, reason);
        FailingThen(st, next, Retire(next, list[1..], current), reason, true);
      } else {
        RetireFails(st, list[1..], current, reason);
      }
    }
  }

  /** A replacement answers nobody unless there was somebody to replace. */
  lemma ReplaceFails(st: State, current: SocketId)
    ensures Failing(st, ReplaceOthers(st, current), Reconnected, true) && NoneLapse(st, ReplaceOthers(st, current))
    ensures !OtherExecutor(st, current) ==>
      forall i :: |st.wire| <= i < |ReplaceOthers(st, current).wire| ==> !ReplaceOthers(st, current).wire[i].Answered?
  {
    var retired := Retire(st, st.sockets, current);
    RetireFails(st, st.sockets, current, Reconnected);
    RetireSilent(st, st.sockets, current);
    if OtherExecutor(st, current) {
      var tools := FailEach(retired, st.sockets, Tool, true, Reconnected);
      FailEachFails(retired, st.sockets, Tool, true, Reconnected);
      FailEachFails(tools, st.sockets, Workspace, true, Reconnected);
      FailingThen(st, retired, tools, Reconnected, true);
      FailingThen(st, tools, ReplaceOthers(st, current), Reconnected, true);
    }
  }

  lemma {:induction false} RetireSilent(st: State, list: seq<SocketId>, current: SocketId)
    ensures st.wire <= Retire(st, list, current).wire
    ensures forall i :: |st.wire| <= i < |Retire(st, list, current).wire| ==> !Retire(st, list, current).wire[i].Answered?
    decreases |list|
  {
    if list != [] {
      var s := list[0];
      var next :=
        if s != current && s in st.att && st.att[s].Executor?
        then Emit(Emit(Put(st, s, st.att[s].(active := Some(false))), ShutDown(s)), Closed(s)) else st;
      RetireSilent(next, list[1..], current);
    }
  }

  lemma {:induction false} CloseFails(st: State, list: seq<SocketId>, reason: Reason)
    ensures Failing(st, CloseAll(st, list), reason, false) && Failing(st, CloseLogs(st, list), reason, false)
    decreases |list|
  {
    if list != [] {
      var s := list[0];
      var executors := if IsExecutor(st, s) then Emit(Emit(st, ShutDown(s)), Closed(s)) else st;
      var logs := if s in st.att && st.att[s].Logs? then Emit(st, Closed(s)) else st;
      assert Failing(st, executors, reason, false) && Failing(st, logs, reason, false);
      CloseFails(executors, list[1..], reason);
      CloseFails(logs, list[1..], reason);
      FailingThen(st, executors, CloseAll(executors, list[1..]), reason, false);
      FailingThen(st, logs, CloseLogs(logs, list[1..]), reason, false);
    }
  }

  lemma RevokeFails(st: State)
    ensures Failing(st, RevokeDevice(st), Revoked, false)
  {
    var closed := CloseAll(st, st.sockets);
    var failed := FailCallers(closed, false, Revoked);
    CloseFails(st, st.sockets, Revoked);
    FailCallersFails(closed, false, Revoked);
    CloseFails(failed, st.sockets, Revoked);
    FailingThen(st, closed, failed, Revoked, false);
    FailingThen(st, failed, RevokeDevice(st), Revoked, false);
  }

  // ---------------------------------------------------------- step by step

  lemma HelloAccounts(st: State, s: SocketId, protocol: int, deviceId: string, caps: Option<Capabilities>, i: nat)
    requires AttachedExecutor(st, s) && |st.wire| <= i < |SayHello(st, s, protocol, deviceId, caps).wire|
    ensures Accounted(st, Hello(s, protocol, deviceId, caps), SayHello(st, s, protocol, deviceId, caps).wire[i])
  {
    var replaced := ReplaceOthers(st, s);
    ReplaceFails(st, s);
    if MIN_PROTOCOL <= protocol <= MAX_PROTOCOL && i < |replaced.wire| {
      assert Given(st, replaced.wire[i], Reconnected, true) && (replaced.wire[i].Answered? ==> replaced.wire[i].response.Fault?);
    }
  }

  /** A refusal is the one answer there is. */
  lemma RefusalIs(st: State, s: SocketId, response: Response, i: nat)
    requires s in st.att && st.att[s].Open() && |st.wire| <= i < |Settle(st, s, response, false).wire|
    ensures
      var e := Settle(st, s, response, false).wire[i];
      !e.LogEnded? && (e.Answered? ==> e == Answered(s, response) && s in st.sockets)
  {
  }

  /** What a start that reached an awake machine is refused with. */
  function Refusal(st: State, s: SocketId, m: Start, now: int): Option<Response>
    requires s in st.att && st.att[s].Caller?
  {
    var x := Route(st);
    if m.requestId != st.att[s].id || st.att[s].issuedAt.Some? then None
    else if m.expiresAt <= now then Some(Fault(ToolTimeout, Expired))
    else if x.None? || !IsExecutor(st, x.value) then Some(Fault(LocalExecutorOffline, NotConnected))
    else if !Announced(m, st.att[x.value]) then Some(Fault(Forbidden, NeedsUpdate))
    else if Named(m.target.workspaceId) && !Routes(st.att[x.value]) then Some(Fault(WorkspaceUnavailable, NoRouting))
    else Some(Fault(LocalExecutorOffline, SendFailed))
  }

  lemma DispatchAccounts(st: State, s: SocketId, m: Start, now: int, delivers: bool, i: nat)
    requires s in st.att && st.att[s].Caller? && st.att[s].Open()
    requires |st.wire| <= i < |Dispatch(st, s, m, now, delivers).wire|
    ensures
      var e := Dispatch(st, s, m, now, delivers).wire[i];
      !e.LogEnded? && (e.Answered? ==>
        && Refusal(st, s, m, now) == Some(e.response) && e.to == s && s in st.sockets
        && (Sendable(st, s, m, now) ==> !delivers))
  {
    if Sendable(st, s, m, now) {
      if delivers {
        RelayTheorems.SentLater(st, s, m, now);
      } else {
        RefusalIs(Put(st, s, st.att[s].(issuedAt := Some(m.issuedAt))), s, Fault(LocalExecutorOffline, SendFailed), i);
      }
    } else {
      RefusalIs(st, s, Refusal(st, s, m, now).value, i);
    }
  }

  lemma AskAccounts(st: State, s: SocketId, m: Start, now: int, delivers: bool, i: nat)
    requires s in st.att && st.att[s].Approval? && st.att[s].Open()
    requires |st.wire| <= i < |AskApproval(st, s, m, now, delivers).wire|
    ensures !AskApproval(st, s, m, now, delivers).wire[i].LogEnded?
    ensures
      var e := AskApproval(st, s, m, now, delivers).wire[i];
      e.Answered? ==>
        && e.to == s && s in st.sockets
        && if m.expiresAt <= now then e.response == ApprovalResult(Unanswered)
           else e.response == Fault(LocalExecutorOffline, NotConnected) && Route(st).None?
  {
  }

  lemma ResumeAccounts(st: State, index: nat, wake: Wake, now: int, delivers: bool, i: nat)
    requires index < |st.waiting|
    requires |st.wire| <= i < |Next(st, Resume(index, wake, now, delivers)).wire|
    ensures Accounted(st, Resume(index, wake, now, delivers), Next(st, Resume(index, wake, now, delivers)).wire[i])
  {
    var w := st.waiting[index];
    var st1 := st.(waiting := RemoveAt(st.waiting, index));
    assert Route(st1) == Route(st);
    if wake.Awake? && w.socket in st.att && st.att[w.socket].Open() {
      if st.att[w.socket].Caller? {
        var runs := st.att[w.socket].role == Workspace <==> w.message.kind == WorkspaceStart;
        if runs && w.message.kind != ApprovalStart { DispatchAccounts(st1, w.socket, w.message, now, delivers, i); }
      } else if w.message.kind == ApprovalStart {
        AskAccounts(st1, w.socket, w.message, now, delivers, i);
      }
    }
  }

  lemma FrameAccounts(st: State, step: Step, i: nat)
    requires (step.ResultFrame? || step.UnreadableFrame?) && |st.wire| <= i < |Next(st, step).wire|
    ensures Accounted(st, step, Next(st, step).wire[i])
  {
    var response :=
      if step.UnreadableFrame? then Fault(InternalError, Unreadable)
      else if step.role == Tool then ToolResult(step.value) else WorkspaceResult(step.value);
    RelayTheorems.ResultOutput(st, step.role, step.requestId, response, i);
  }

  lemma DecideAccounts(st: State, id: string, approved: bool, now: int, i: nat)
    requires |st.wire| <= i < |Next(st, Decide(id, approved, now)).wire|
    ensures Accounted(st, Decide(id, approved, now), Next(st, Decide(id, approved, now)).wire[i])
  {
    var c := ApprovalOf(st, id);
    if c.Some? && st.att[c.value].expiresAt.Some? {
      var given := if st.att[c.value].expiresAt.value <= now then Unanswered else if approved then Approved else Declined;
      var settled := Settle(st, c.value, ApprovalResult(given), false);
      if i < |settled.wire| { RefusalIs(st, c.value, ApprovalResult(given), i); }
    }
  }

  lemma GoingAccounts(st: State, step: Step, i: nat)
    requires (step.Connect? || step.CancelFrame? || step.Leave? || step.StartFrame?) && |st.wire| <= i < |Next(st, step).wire|
    ensures !Next(st, step).wire[i].Answered? && Accounted(st, step, Next(st, step).wire[i])
  {
  }

  /** No answer of the relay's own leaves it without its cause. */
  lemma StepAccounts(st: State, step: Step, i: nat)
    requires |st.wire| <= i < |Next(st, step).wire|
    ensures Accounted(st, step, Next(st, step).wire[i])
  {
    match step
    case Hello(s, protocol, deviceId, caps) =>
      if AttachedExecutor(st, s) { HelloAccounts(st, s, protocol, deviceId, caps, i); }
    case Resume(k, wake, now, delivers) => if k < |st.waiting| { ResumeAccounts(st, k, wake, now, delivers, i); }
    case Decide(id, approved, now) => DecideAccounts(st, id, approved, now, i);
    case DropDone(k) =>
      if k < |st.drops| {
        var st1 := st.(drops := RemoveAt(st.drops, k));
        FailCallersFails(st1, true, DropReason(st.drops[k]));
        assert Given(st1, Next(st, step).wire[i], DropReason(st.drops[k]), true);
      }
    case Revoke =>
      RevokeFails(st);
      assert Given(st, Next(st, step).wire[i], Revoked, false);
    case ResultFrame(_, _, _, _) => FrameAccounts(st, step, i);
    case UnreadableFrame(_, _, _) => FrameAccounts(st, step, i);
    case _ => GoingAccounts(st, step, i);
  }

  /** Over every run, every error and every lapsed question has the code and the cause that belong together. */
  lemma EveryFaultHasItsCause(steps: seq<Step>, i: nat) returns (k: nat)
    requires i < |Run(steps).wire|
    ensures k < |steps| && Accounted(Run(steps[..k]), steps[k], Run(steps).wire[i])
  {
    k := RelayTheorems.EveryEventJustified(steps, i);
    var before := steps[..k + 1];
    assert before[..k] == steps[..k] && before[k] == steps[k];
    RelayTheorems.RunLater(steps, k + 1);
    assert Run(before) == Next(Run(steps[..k]), steps[k]);
    StepAccounts(Run(steps[..k]), steps[k], i);
  }
}
