/**
 * The relay object itself: handlers that rewrite attachments and send frames,
 * each proved to perform one step of `RelayModel`.
 */
module DeviceRelays {
  import opened Common
  import opened RelayModel

  class DeviceRelay {
    var sockets: seq<SocketId>
    var att: map<SocketId, Attachment>
    var waiting: seq<Waiting>
    var drops: seq<bool>
    var wire: seq<Event>

    ghost function St(): State
      reads this
    {
      State(sockets, att, waiting, drops, wire)
    }

    constructor ()
      ensures St() == Init
    {
      sockets, att, waiting, drops, wire := [], map[], [], [], [];
    }

    method Send(e: Event)
      modifies `wire
      ensures St() == Emit(old(St()), e)
    {
      wire := wire + [e];
    }

    /** `executorSocket`: two passes over the attached sockets. */
    method ExecutorSocket() returns (x: Option<SocketId>)
      ensures x == Route(St())
    {
      x := AttachedWith(sockets, att, (a: Attachment) => a.Executor? && a.active == Some(true));
      if x.None? {
        x := AttachedWith(sockets, att, (a: Attachment) => a.Routable());
      }
    }

    method Connect(s: SocketId, a: Attachment)
      requires s !in att && Newborn(a)
      modifies this
      ensures St() == Next(old(St()), Step.Connect(s, a))
    {
      var before := sockets;
      ghost var st := St();
      sockets := sockets + [s];
      att := att[s := a];
      if a.Logs? {
        var running := [];
        var i := |before|;
        while i > 0
          invariant 0 <= i <= |before|
          invariant running == Running(st, before[i..], a.watching)
          invariant sockets == st.sockets + [s] && att == st.att[s := a] && wire == st.wire && s !in st.att
          invariant waiting == st.waiting && drops == st.drops
        {
          i := i - 1;
          var c := before[i];
          assert before[i..][1..] == before[i + 1..];
          if c != s && c in att && att[c].Caller? && att[c].role == Tool && !att[c].settled && att[c].log == Some(a.watching) {
            running := [c] + running;
          }
        }
        Send(LogSynced(s, running));
      }
    }

    method SettleCaller(s: SocketId, response: Response, logging: bool)
      modifies this
      ensures St() == Settle(old(St()), s, response, logging)
    {
      if s !in att || !att[s].Open() {
        return;
      }
      var a := att[s];
      att := att[s := a.Mark()];
      if logging && a.Caller? && a.role == Tool && a.log.Some? {
        Send(LogEnded(s, a.log.value));
      }
      if s in sockets {
        Send(Answered(s, response));
        Send(Closed(s));
      }
    }

    method FailRole(role: Role, dispatchedOnly: bool, reason: Reason)
      modifies this
      ensures St() == FailEach(old(St()), old(sockets), role, dispatchedOnly, reason)
      ensures sockets == old(sockets)
    {
      var list := sockets;
      assert list[0..] == list;
      for i := 0 to |list|
        invariant sockets == list
        invariant FailEach(St(), list[i..], role, dispatchedOnly, reason) == FailEach(old(St()), list, role, dispatchedOnly, reason)
      {
        var s := list[i];
        assert list[i..][1..] == list[i + 1..];
        if s in att && att[s].Caller? && att[s].role == role && (dispatchedOnly ==> att[s].issuedAt.Some?) {
          SettleCaller(s, Fault(LocalExecutorOffline, reason), true);
        }
      }
    }

    method ResolveTerminalApproval(id: string)
      modifies `wire
      ensures St() == ResolveApproval(old(St()), id)
    {
      var x := ExecutorSocket();
      if x.Some? { Send(ApprovalResolved(x.value, id)); }
    }

    method FailEveryCaller(dispatchedOnly: bool, reason: Reason)
      modifies this
      ensures St() == FailCallers(old(St()), dispatchedOnly, reason)
      ensures sockets == old(sockets)
    {
      FailRole(Tool, dispatchedOnly, reason);
      FailRole(Workspace, dispatchedOnly, reason);
      var list := sockets;
      ghost var st := St();
      assert list[0..] == list;
      for i := 0 to |list|
        invariant sockets == list
        invariant FailApprovals(St(), list[i..], dispatchedOnly) == FailApprovals(st, list, dispatchedOnly)
      {
        var s := list[i];
        assert list[i..][1..] == list[i + 1..];
        if s in att && att[s].Approval? && (dispatchedOnly ==> att[s].expiresAt.Some?) {
          var id := att[s].id;
          SettleCaller(s, ApprovalResult(Unanswered), false);
          ResolveTerminalApproval(id);
        }
      }
    }

    /** Marks and closes every executor but the current one, then settles what went down them. */
    method ReplaceOtherExecutors(current: SocketId)
      modifies this
      ensures St() == ReplaceOthers(old(St()), current)
      ensures sockets == old(sockets)
    {
      var list := sockets;
      var replaced := false;
      ghost var st := St();
      assert list[0..] == list;
      for i := 0 to |list|
        invariant sockets == list
        invariant Retire(St(), list[i..], current) == Retire(st, list, current)
        invariant replaced <==> exists k :: 0 <= k < i && list[k] != current && IsExecutor(st, list[k])
        invariant att.Keys == st.att.Keys
        invariant forall s :: s in att ==> (att[s].Executor? <==> st.att[s].Executor?)
      {
        var s := list[i];
        assert list[i..][1..] == list[i + 1..];
        if s != current && s in att && att[s].Executor? {
          replaced := true;
          att := att[s := att[s].(active := Some(false))];
          Send(ShutDown(s));
          Send(Closed(s));
        }
      }
      assert replaced <==> OtherExecutor(st, current);
      if !replaced {
        return;
      }
      FailRole(Tool, true, Reconnected);
      FailRole(Workspace, true, Reconnected);
    }

    method HandleHello(s: SocketId, protocol: int, deviceId: string, capabilities: Option<Capabilities>)
      requires AttachedExecutor(St(), s)
      modifies this
      ensures St() == Next(old(St()), Hello(s, protocol, deviceId, capabilities))
    {
      if protocol < MIN_PROTOCOL || MAX_PROTOCOL < protocol {
        Send(ShutDown(s));
        Send(Closed(s));
        return;
      }
      var own := att[s].deviceId;
      ReplaceOtherExecutors(s);
      att := att[s := Executor(if own != "" then own else deviceId, Some(true), capabilities)];
      Send(Greeted(s));
    }

    method CancelCall(s: SocketId, a: Attachment)
      requires a.Caller?
      modifies `wire
      ensures St() == CancelCaller(old(St()), s, a)
    {
      var x := ExecutorSocket();
      if x.Some? { Send(CancelSent(x.value, a.id)); }
      if a.log.Some? { Send(LogEnded(s, a.log.value)); }
    }

    /** The first half of `handleCallerMessage`: a cancel is done now, a start waits for the machine. */
    method CallerFrame(s: SocketId, start: Option<Start>)
      requires s in sockets && s in att
      modifies this
      ensures St() == Next(old(St()), if start.Some? then StartFrame(s, start.value) else CancelFrame(s))
    {
      var a := att[s];
      if !a.Open() {
        return;
      }
      if start.Some? {
        waiting := waiting + [Waiting(s, start.value)];
        return;
      }
      att := att[s := a.Mark()];
      if a.Caller? { CancelCall(s, a); } else { ResolveTerminalApproval(a.id); }
      Send(Closed(s));
    }

    /** The tool, MCP and workspace start handlers. */
    method DispatchCall(s: SocketId, m: Start, now: int, delivers: bool)
      requires s in att && att[s].Caller?
      modifies this
      ensures St() == Dispatch(old(St()), s, m, now, delivers)
    {
      var c := att[s];
      if m.requestId != c.id || c.issuedAt.Some? {
        return;
      }
      if m.expiresAt <= now {
        SettleCaller(s, Fault(ToolTimeout, Expired), false);
        return;
      }
      var x := ExecutorSocket();
      if x.None? || x.value !in att || !att[x.value].Executor? {
        SettleCaller(s, Fault(LocalExecutorOffline, NotConnected), false);
        return;
      }
      var executor := att[x.value];
      if !Announced(m, executor) {
        SettleCaller(s, Fault(Forbidden, NeedsUpdate), false);
        return;
      }
      if Named(m.target.workspaceId) && !Routes(executor) {
        SettleCaller(s, Fault(WorkspaceUnavailable, NoRouting), false);
        return;
      }
      att := att[s := c.(issuedAt := Some(m.issuedAt))];
      if !delivers {
        SettleCaller(s, Fault(LocalExecutorOffline, SendFailed), false);
        return;
      }
      Send(Called(x.value, s, s in sockets, now, m.expiresAt));
      if m.kind != WorkspaceStart {
        var target := Target(m.target.projectId, if Named(m.target.workspaceId) then m.target.workspaceId else None);
        att := att[s := c.(issuedAt := Some(m.issuedAt), log := Some(target))];
        Send(LogStarted(s, target));
      }
    }

    method AskPerson(s: SocketId, m: Start, now: int, delivers: bool)
      requires s in att && att[s].Approval?
      modifies this
      ensures St() == AskApproval(old(St()), s, m, now, delivers)
    {
      var c := att[s];
      if m.requestId != c.id || c.expiresAt.Some? {
        return;
      }
      if m.expiresAt <= now {
        SettleCaller(s, ApprovalResult(Unanswered), false);
        return;
      }
      var x := ExecutorSocket();
      if x.None? || x.value !in att || !att[x.value].Executor? {
        SettleCaller(s, Fault(LocalExecutorOffline, NotConnected), false);
        return;
      }
      var capabilities := att[x.value].capabilities;
      att := att[s := c.(expiresAt := Some(m.expiresAt))];
      if capabilities.Some? && capabilities.value.prompt && delivers {
        Send(Asked(x.value, s));
      }
    }

    /** The second half of `handleCallerMessage`, after the wake: the attachment is read again. */
    method ResumeCaller(i: nat, wake: Wake, now: int, delivers: bool)
      requires i < |waiting|
      modifies this
      ensures St() == Next(old(St()), Resume(i, wake, now, delivers))
    {
      var s, m := waiting[i].socket, waiting[i].message;
      waiting := RemoveAt(waiting, i);
      if !wake.Awake? {
        SettleCaller(s, Fault(if wake.StillWaking? then ExecutorWaking else LocalExecutorOffline, WakeFailed), false);
        return;
      }
      if s !in att || !att[s].Open() {
        return;
      }
      var held := att[s];
      if held.Approval? && m.kind == ApprovalStart {
        AskPerson(s, m, now, delivers);
      } else if held.Caller? && held.role == Workspace && m.kind == WorkspaceStart {
        DispatchCall(s, m, now, delivers);
      } else if held.Caller? && held.role == Tool && (m.kind == ToolStart || m.kind == McpStart) {
        DispatchCall(s, m, now, delivers);
      }
    }

    /** A result from an executor, readable or not. */
    method ExecutorResult(s: SocketId, role: Role, requestId: string, value: Option<int>)
      requires AttachedExecutor(St(), s)
      modifies this
      ensures St() == Next(old(St()),
        if value.Some? then ResultFrame(s, role, requestId, value.value) else UnreadableFrame(s, role, requestId))
    {
      var caller := AttachedWith(sockets, att, (a: Attachment) => a.Caller? && a.role == role && a.id == requestId && !a.settled);
      if caller.None? {
        return;
      }
      if value.None? {
        SettleCaller(caller.value, Fault(InternalError, Unreadable), true);
      } else if role == Tool {
        SettleCaller(caller.value, ToolResult(value.value), true);
      } else {
        SettleCaller(caller.value, WorkspaceResult(value.value), false);
      }
    }

    /** Returns whether there was something to answer, as the dashboard is told. */
    method AnswerApproval(id: string, approved: bool, now: int) returns (answered: bool)
      modifies this
      ensures St() == Next(old(St()), Decide(id, approved, now))
      ensures answered <==>
        var c := ApprovalOf(old(St()), id);
        c.Some? && old(att)[c.value].expiresAt.Some? && now < old(att)[c.value].expiresAt.value
    {
      answered := false;
      var caller := AttachedWith(sockets, att, (a: Attachment) => a.Approval? && a.id == id && !a.settled);
      if caller.None? || att[caller.value].expiresAt.None? {
        return;
      }
      var expired := att[caller.value].expiresAt.value <= now;
      SettleCaller(caller.value, ApprovalResult(if expired then Unanswered else if approved then Approved else Declined), false);
      ResolveTerminalApproval(id);
      answered := !expired;
    }

    /** A socket's close or error event. */
    method WebSocketGone(s: SocketId, failed: bool)
      requires s in sockets && s in att
      modifies this
      ensures St() == Next(old(St()), Leave(s, failed))
    {
      var a := att[s];
      if a.Executor? {
        var i, other := 0, false;
        while i < |sockets| && !other
          invariant 0 <= i <= |sockets|
          invariant other ==> HasOther(St(), s)
          invariant !other ==> forall k :: 0 <= k < i ==> !(sockets[k] != s && sockets[k] in att && att[sockets[k]].Routable())
        {
          other := sockets[i] != s && sockets[i] in att && att[sockets[i]].Routable();
          i := i + 1;
        }
        if !other { drops := drops + [failed]; }
      } else if a.Caller? && !a.settled {
        CancelCall(s, a);
      } else if a.Approval? && !a.settled {
        ResolveTerminalApproval(a.id);
      }
      sockets := Without(sockets, s);
    }

    /** The rest of `dropExecutor`, once presence was written. */
    method FinishDrop(i: nat)
      requires i < |drops|
      modifies this
      ensures St() == Next(old(St()), DropDone(i))
    {
      var failed := drops[i];
      drops := RemoveAt(drops, i);
      FailEveryCaller(true, DropReason(failed));
    }

    method RevokeThisDevice()
      modifies this
      ensures St() == Next(old(St()), Revoke)
    {
      var list := sockets;
      assert list[0..] == list;
      for i := 0 to |list|
        invariant sockets == list
        invariant CloseAll(St(), list[i..]) == CloseAll(old(St()), list)
      {
        assert list[i..][1..] == list[i + 1..];
        if list[i] in att && att[list[i]].Executor? {
          Send(ShutDown(list[i]));
          Send(Closed(list[i]));
        }
      }
      FailEveryCaller(false, Revoked);
      ghost var st := St();
      for i := 0 to |list|
        invariant CloseLogs(St(), list[i..]) == CloseLogs(st, list)
      {
        assert list[i..][1..] == list[i + 1..];
        if list[i] in att && att[list[i]].Logs? { Send(Closed(list[i])); }
      }
    }
  }
}
