/**
 * What every run of the relay keeps, whatever frames arrive in whatever order:
 * calls go down at most once, callers hear at most one answer, at most one
 * executor is active, and every call the Logs view shows starting is shown
 * ending, except in two families of runs that are characterised exactly.
 */
module RelaySafety {
  import opened Common
  import opened RelayModel

  /** What the wire holds for one caller socket, counted. */
  datatype Tally = Tally(calls: nat, late: nat, answers: nat, wakes: nat, starts: nat, ends: nat)

  /** One more event: `late` counts calls sent down for a caller that had left, `wakes` answers of a failed wake. */
  function Bump(n: Tally, e: Event, s: SocketId): Tally {
    match e
    case Called(_, caller, listening, _, _) =>
      if caller != s then n
      else if listening then n.(calls := n.calls + 1) else n.(calls := n.calls + 1, late := n.late + 1)
    case Answered(to, response) =>
      if to != s then n
      else if response.Fault? && response.reason == WakeFailed
      then n.(answers := n.answers + 1, wakes := n.wakes + 1) else n.(answers := n.answers + 1)
    case LogStarted(caller, _) => if caller == s then n.(starts := n.starts + 1) else n
    case LogEnded(caller, _) => if caller == s then n.(ends := n.ends + 1) else n
    case _ => n
  }

  function TallyOf(wire: seq<Event>, s: SocketId): Tally {
    if wire == [] then Tally(0, 0, 0, 0, 0, 0)
    else Bump(TallyOf(wire[..|wire| - 1], s), wire[|wire| - 1], s)
  }

  lemma Snoc(wire: seq<Event>, e: Event, s: SocketId)
    ensures TallyOf(wire + [e], s) == Bump(TallyOf(wire, s), e, s)
  {
    assert (wire + [e])[..|wire|] == wire;
  }

  function Held(st: State, s: SocketId): Option<Attachment> {
    if s in st.att then Some(st.att[s]) else None
  }

  /** How a socket's counts relate to its attachment and to whether it is attached. */
  predicate Books(n: Tally, held: Option<Attachment>, attached: bool) {
    && n.late <= n.calls <= 1
    && n.wakes <= n.answers <= 1
    && n.ends <= n.starts <= n.calls
    && match held
       case None => n.calls == 0 && n.answers == 0 && !attached
       case Some(a) =>
         && (a.Open() ==> n.answers == 0)
         && (!a.Dispatched() ==> n.calls == 0)
         && (a.Caller? ==> (a.log.Some? <==> n.starts == 1) && (a.log.Some? ==> a.role == Tool && a.Dispatched()))
         && (attached ==> n.late == 0)
         && (attached && a.Open() ==> n.ends == 0)
         && ((!attached || !a.Open()) && n.starts == 1 ==> (n.ends == 0 <==> n.wakes + n.late > 0))
  }

  ghost predicate Fine(st: State, s: SocketId) {
    Books(TallyOf(st.wire, s), Held(st, s), s in st.sockets)
  }

  ghost predicate Inv(st: State) {
    && Distinct(st.sockets)
    && (forall s :: s in st.sockets ==> s in st.att)
    && (forall s :: Fine(st, s))
  }

  // -------------------------------------------------------- effects keep Inv

  predicate Silent(e: Event) {
    !e.Called? && !e.Answered? && !e.LogStarted? && !e.LogEnded?
  }

  lemma EmitSilent(st: State, e: Event)
    requires Inv(st) && Silent(e)
    ensures Inv(Emit(st, e))
  {
    forall s ensures Fine(Emit(st, e), s) {
      assert Fine(st, s);
      Snoc(st.wire, e, s);
    }
  }

  lemma ResolveKeeps(st: State, id: string)
    requires Inv(st)
    ensures Inv(ResolveApproval(st, id))
  {
    var x := Route(st);
    if x.Some? { EmitSilent(st, ApprovalResolved(x.value, id)); }
  }

  /** Marking an executor leaves every caller as it was. */
  lemma MarkExecutor(st: State, s: SocketId, a: Attachment)
    requires Inv(st) && IsExecutor(st, s) && a.Executor?
    ensures Inv(Put(st, s, a))
  {
    forall t ensures Fine(Put(st, s, a), t) { assert Fine(st, t); }
  }

  lemma SettleTally(st: State, s: SocketId, response: Response, logging: bool, t: SocketId)
    requires s in st.att && st.att[s].Open()
    ensures
      var a, n := st.att[s], TallyOf(st.wire, t);
      var ended := logging && a.Caller? && a.role == Tool && a.log.Some?;
      var n1 := if ended then Bump(n, LogEnded(s, a.log.value), t) else n;
      TallyOf(Settle(st, s, response, logging).wire, t) == if s in st.sockets then Bump(n1, Answered(s, response), t) else n1
  {
    var a := st.att[s];
    var ended := logging && a.Caller? && a.role == Tool && a.log.Some?;
    if ended { Snoc(st.wire, LogEnded(s, a.log.value), t); }
    var w1 := if ended then st.wire + [LogEnded(s, a.log.value)] else st.wire;
    if s in st.sockets {
      Snoc(w1, Answered(s, response), t);
      Snoc(w1 + [Answered(s, response)], Closed(s), t);
    }
  }

  /**
   * Settling keeps the books, provided the line a logged call is owed is written
   * now (`logging`), was never owed, or is lost to a failed wake.
   */
  lemma SettleKeeps(st: State, s: SocketId, response: Response, logging: bool)
    requires Inv(st)
    requires s in st.sockets || !logging
    requires !logging && s in st.sockets && s in st.att && st.att[s].Caller? && st.att[s].log.Some?
      ==> response.Fault? && response.reason == WakeFailed
    requires logging ==> !(response.Fault? && response.reason == WakeFailed)
    ensures Inv(Settle(st, s, response, logging))
    ensures Settle(st, s, response, logging).sockets == st.sockets
  {
    if s in st.att && st.att[s].Open() {
      forall t ensures Fine(Settle(st, s, response, logging), t) {
        assert Fine(st, t);
        SettleFine(st, s, response, logging, t);
      }
    }
  }

  lemma SettleFine(st: State, s: SocketId, response: Response, logging: bool, t: SocketId)
    requires Fine(st, t) && s in st.att && st.att[s].Open()
    requires s in st.sockets || !logging
    requires !logging && s in st.sockets && st.att[s].Caller? && st.att[s].log.Some?
      ==> response.Fault? && response.reason == WakeFailed
    requires logging ==> !(response.Fault? && response.reason == WakeFailed)
    ensures Fine(Settle(st, s, response, logging), t)
  {
    SettleTally(st, s, response, logging, t);
    SettleHolds(st, s, response, logging, t);
    if t == s { SettledBooks(TallyOf(st.wire, s), st.att[s], s, s in st.sockets, response, logging); }
  }

  lemma SettleHolds(st: State, s: SocketId, response: Response, logging: bool, t: SocketId)
    requires s in st.att && st.att[s].Open()
    ensures Held(Settle(st, s, response, logging), t) == if t == s then Some(st.att[s].Mark()) else Held(st, t)
    ensures Settle(st, s, response, logging).sockets == st.sockets
  {
  }

  /** One answer, and the end line when it is owed and written. */
  lemma SettledBooks(n: Tally, a: Attachment, s: SocketId, attached: bool, response: Response, logging: bool)
    requires Books(n, Some(a), attached) && a.Open() && (attached || !logging)
    requires !logging && attached && a.Caller? && a.log.Some? ==> response.Fault? && response.reason == WakeFailed
    requires logging ==> !(response.Fault? && response.reason == WakeFailed)
    ensures
      var n1 := if logging && a.Caller? && a.role == Tool && a.log.Some? then Bump(n, LogEnded(s, a.log.value), s) else n;
      Books(if attached then Bump(n1, Answered(s, response), s) else n1, Some(a.Mark()), attached)
  {
  }

  /** Telling the machine to stop says nothing to any caller. */
  lemma CancelTally(st: State, s: SocketId, a: Attachment, t: SocketId)
    requires a.Caller?
    ensures
      var n := TallyOf(st.wire, t);
      TallyOf(CancelCaller(st, s, a).wire, t) == if a.log.Some? then Bump(n, LogEnded(s, a.log.value), t) else n
    ensures CancelCaller(st, s, a).att == st.att && CancelCaller(st, s, a).sockets == st.sockets
  {
    var x := Route(st);
    if x.Some? { Snoc(st.wire, CancelSent(x.value, a.id), t); }
    if a.log.Some? { Snoc(SendCancel(st, a.id).wire, LogEnded(s, a.log.value), t); }
  }

  lemma ResolveTally(st: State, id: string, t: SocketId)
    ensures TallyOf(ResolveApproval(st, id).wire, t) == TallyOf(st.wire, t)
  {
    var x := Route(st);
    if x.Some? { Snoc(st.wire, ApprovalResolved(x.value, id), t); }
  }

  /** The one line a caller that goes away, by frame or by close, can add to its own count. */
  function Ending(n: Tally, a: Attachment, s: SocketId, t: SocketId): Tally {
    if a.Caller? && a.Open() && a.log.Some? then Bump(n, LogEnded(s, a.log.value), t) else n
  }

  lemma CancelFrameTally(st: State, s: SocketId, t: SocketId)
    requires s in st.att && st.att[s].Open()
    ensures TallyOf(Cancel(st, s).wire, t) == Ending(TallyOf(st.wire, t), st.att[s], s, t)
    ensures Cancel(st, s).att == st.att[s := st.att[s].Mark()] && Cancel(st, s).sockets == st.sockets
  {
    var a := st.att[s];
    var marked := Put(st, s, a.Mark());
    if a.Caller? {
      CancelTally(marked, s, a, t);
      Snoc(CancelCaller(marked, s, a).wire, Closed(s), t);
    } else {
      ResolveTally(marked, a.id, t);
      Snoc(ResolveApproval(marked, a.id).wire, Closed(s), t);
    }
  }

  lemma CancelKeeps(st: State, s: SocketId)
    requires Inv(st) && s in st.sockets && st.att[s].Open()
    ensures Inv(Cancel(st, s))
  {
    CancelFrameTally(st, s, s);
    forall t ensures Fine(Cancel(st, s), t) {
      assert Fine(st, t);
      CancelFine(st, s, t);
    }
  }

  lemma CancelFine(st: State, s: SocketId, t: SocketId)
    requires Fine(st, t) && Distinct(st.sockets) && s in st.sockets && s in st.att && st.att[s].Open()
    ensures Fine(Cancel(st, s), t)
  {
    CancelFrameTally(st, s, t);
    EndingOthers(TallyOf(st.wire, t), st.att[s], s, t);
    if t == s {
      EndingBooks(TallyOf(st.wire, s), st.att[s], s);
    } else {
      assert Held(Cancel(st, s), t) == Held(st, t);
    }
  }

  lemma EndingOthers(n: Tally, a: Attachment, s: SocketId, t: SocketId)
    ensures t != s ==> Ending(n, a, s, t) == n
  {
  }

  /** A caller that goes away is owed no answer, and its end line is written. */
  lemma EndingBooks(n: Tally, a: Attachment, s: SocketId)
    requires Books(n, Some(a), true) && a.Open()
    ensures Books(Ending(n, a, s, s), Some(a.Mark()), true)
  {
  }

  lemma LeaveTally(st: State, s: SocketId, failed: bool, t: SocketId)
    requires s in st.att
    ensures TallyOf(LeaveSocket(st, s, failed).wire, t) == Ending(TallyOf(st.wire, t), st.att[s], s, t)
    ensures LeaveSocket(st, s, failed).att == st.att && LeaveSocket(st, s, failed).sockets == Without(st.sockets, s)
  {
    var a := st.att[s];
    if a.Caller? { CancelTally(st, s, a, t); }
    if a.Approval? { ResolveTally(st, a.id, t); }
  }

  lemma LeaveKeeps(st: State, s: SocketId, failed: bool)
    requires Inv(st) && s in st.sockets && s in st.att
    ensures Inv(LeaveSocket(st, s, failed))
  {
    WithoutDistinct(st.sockets, s);
    LeaveTally(st, s, failed, s);
    forall t ensures Fine(LeaveSocket(st, s, failed), t) {
      assert Fine(st, t);
      LeaveFine(st, s, failed, t);
    }
  }

  lemma LeaveFine(st: State, s: SocketId, failed: bool, t: SocketId)
    requires Fine(st, t) && s in st.sockets && s in st.att
    ensures Fine(LeaveSocket(st, s, failed), t)
  {
    LeaveTally(st, s, failed, t);
    EndingOthers(TallyOf(st.wire, t), st.att[s], s, t);
    if t == s {
      LeftBooks(TallyOf(st.wire, s), st.att[s], s);
    } else {
      assert t in LeaveSocket(st, s, failed).sockets <==> t in st.sockets;
    }
  }

  lemma LeftBooks(n: Tally, a: Attachment, s: SocketId)
    requires Books(n, Some(a), true)
    ensures Books(Ending(n, a, s, s), Some(a), false)
  {
  }

  /** A start that passed every guard, with an executor that can serve it. */
  predicate Sendable(st: State, s: SocketId, m: Start, now: int) {
    && s in st.att && st.att[s].Caller?
    && st.att[s].issuedAt.None? && m.requestId == st.att[s].id && now < m.expiresAt
    && Route(st).Some? && IsExecutor(st, Route(st).value)
    && Announced(m, st.att[Route(st).value])
    && (Named(m.target.workspaceId) ==> Routes(st.att[Route(st).value]))
  }

  /** What a start that is sent puts on the wire. */
  lemma SentWire(st: State, s: SocketId, m: Start, now: int)
    requires Sendable(st, s, m, now)
    ensures
      var called := st.wire + [Called(Route(st).value, s, s in st.sockets, now, m.expiresAt)];
      var target := Target(m.target.projectId, if Named(m.target.workspaceId) then m.target.workspaceId else None);
      Dispatch(st, s, m, now, true).wire == if m.kind == WorkspaceStart then called else called + [LogStarted(s, target)]
  {
  }

  lemma SentTally(st: State, s: SocketId, m: Start, now: int, t: SocketId)
    requires Sendable(st, s, m, now)
    ensures
      var n := Bump(TallyOf(st.wire, t), Called(Route(st).value, s, s in st.sockets, now, m.expiresAt), t);
      TallyOf(Dispatch(st, s, m, now, true).wire, t) ==
        if m.kind == WorkspaceStart then n else Bump(n, LogStarted(s, m.target), t)
  {
    var called := Called(Route(st).value, s, s in st.sockets, now, m.expiresAt);
    var target := Target(m.target.projectId, if Named(m.target.workspaceId) then m.target.workspaceId else None);
    SentWire(st, s, m, now);
    Snoc(st.wire, called, t);
    Snoc(st.wire + [called], LogStarted(s, target), t);
  }

  lemma SentHeld(st: State, s: SocketId, m: Start, now: int)
    requires Sendable(st, s, m, now)
    ensures
      var after := Dispatch(st, s, m, now, true);
      && after.sockets == st.sockets
      && after.att.Keys == st.att.Keys
      && (forall t :: t in st.att && t != s ==> after.att[t] == st.att[t])
      && after.att[s].Caller? && after.att[s].issuedAt.Some? && after.att[s].settled == st.att[s].settled
      && after.att[s].role == st.att[s].role
      && after.att[s].log.Some? == (st.att[s].log.Some? || m.kind != WorkspaceStart)
  {
  }

  lemma SentKeeps(st: State, s: SocketId, m: Start, now: int)
    requires Inv(st) && Sendable(st, s, m, now) && st.att[s].Open()
    requires m.kind == WorkspaceStart <==> st.att[s].role == Workspace
    ensures Inv(Dispatch(st, s, m, now, true))
  {
    SentHeld(st, s, m, now);
    assert Fine(st, s);
    forall t ensures Fine(Dispatch(st, s, m, now, true), t) {
      assert Fine(st, t);
      SentFine(st, s, m, now, t);
    }
  }

  lemma SentFine(st: State, s: SocketId, m: Start, now: int, t: SocketId)
    requires Fine(st, t) && Sendable(st, s, m, now) && st.att[s].Open()
    requires m.kind == WorkspaceStart <==> st.att[s].role == Workspace
    ensures Fine(Dispatch(st, s, m, now, true), t)
  {
    SentHeld(st, s, m, now);
    SentTally(st, s, m, now, t);
  }

  lemma DispatchKeeps(st: State, s: SocketId, m: Start, now: int, delivers: bool)
    requires Inv(st) && s in st.att && st.att[s].Caller? && st.att[s].Open()
    requires m.kind == WorkspaceStart <==> st.att[s].role == Workspace
    ensures Inv(Dispatch(st, s, m, now, delivers))
  {
    var c := st.att[s];
    var x := Route(st);
    assert Fine(st, s);
    if m.requestId != c.id || c.issuedAt.Some? {
    } else if m.expiresAt <= now {
      SettleKeeps(st, s, Fault(ToolTimeout, Expired), false);
    } else if x.None? || !IsExecutor(st, x.value) {
      SettleKeeps(st, s, Fault(LocalExecutorOffline, NotConnected), false);
    } else if !Announced(m, st.att[x.value]) {
      SettleKeeps(st, s, Fault(Forbidden, NeedsUpdate), false);
    } else if Named(m.target.workspaceId) && !Routes(st.att[x.value]) {
      SettleKeeps(st, s, Fault(WorkspaceUnavailable, NoRouting), false);
    } else if !delivers {
      var issued := Put(st, s, c.(issuedAt := Some(m.issuedAt)));
      forall t ensures Fine(issued, t) { assert Fine(st, t); }
      SettleKeeps(issued, s, Fault(LocalExecutorOffline, SendFailed), false);
    } else {
      SentKeeps(st, s, m, now);
    }
  }

  lemma ResumeKeeps(st: State, s: SocketId, m: Start, wake: Wake, now: int, delivers: bool)
    requires Inv(st)
    ensures Inv(ResumeStart(st, s, m, wake, now, delivers))
  {
    if !wake.Awake? {
      SettleKeeps(st, s, Fault(if wake.StillWaking? then ExecutorWaking else LocalExecutorOffline, WakeFailed), false);
    } else if s in st.att && st.att[s].Open() {
      var held := st.att[s];
      if held.Approval? && m.kind == ApprovalStart {
        AskKeeps(st, s, m, now, delivers);
      } else if held.Caller? && (held.role == Workspace <==> m.kind == WorkspaceStart) && m.kind != ApprovalStart {
        DispatchKeeps(st, s, m, now, delivers);
      }
    }
  }

  lemma AskKeeps(st: State, s: SocketId, m: Start, now: int, delivers: bool)
    requires Inv(st) && s in st.att && st.att[s].Approval? && st.att[s].Open()
    ensures Inv(AskApproval(st, s, m, now, delivers))
  {
    var c := st.att[s];
    var x := Route(st);
    if m.requestId != c.id || c.expiresAt.Some? {
    } else if m.expiresAt <= now {
      SettleKeeps(st, s, ApprovalResult(Unanswered), false);
    } else if x.None? || !IsExecutor(st, x.value) {
      SettleKeeps(st, s, Fault(LocalExecutorOffline, NotConnected), false);
    } else {
      var shown := Put(st, s, c.(expiresAt := Some(m.expiresAt)));
      forall t ensures Fine(shown, t) { assert Fine(st, t); }
      EmitSilent(shown, Asked(x.value, s));
    }
  }

  // ---------------------------------------------------------- loops keep Inv

  predicate Within(list: seq<SocketId>, all: seq<SocketId>) {
    forall s :: s in list ==> s in all
  }

  lemma {:induction false} FailEachKeeps(st: State, list: seq<SocketId>, role: Role, only: bool, reason: Reason)
    requires Inv(st) && Within(list, st.sockets) && reason != WakeFailed
    ensures Inv(FailEach(st, list, role, only, reason))
    ensures FailEach(st, list, role, only, reason).sockets == st.sockets
    decreases |list|
  {
    if list != [] {
      var s := list[0];
      if st.att[s].Caller? && st.att[s].role == role && (only ==> st.att[s].issuedAt.Some?) {
        SettleKeeps(st, s, Fault(LocalExecutorOffline, reason), true);
        FailEachKeeps(Settle(st, s, Fault(LocalExecutorOffline, reason), true), list[1..], role, only, reason);
      } else {
        FailEachKeeps(st, list[1..], role, only, reason);
      }
    }
  }

  lemma {:induction false} FailApprovalsKeeps(st: State, list: seq<SocketId>, only: bool)
    requires Inv(st) && Within(list, st.sockets)
    ensures Inv(FailApprovals(st, list, only))
    ensures FailApprovals(st, list, only).sockets == st.sockets
    decreases |list|
  {
    if list != [] {
      var s := list[0];
      if st.att[s].Approval? && (only ==> st.att[s].expiresAt.Some?) {
        SettleKeeps(st, s, ApprovalResult(Unanswered), false);
        var settled := Settle(st, s, ApprovalResult(Unanswered), false);
        ResolveKeeps(settled, st.att[s].id);
        FailApprovalsKeeps(ResolveApproval(settled, st.att[s].id), list[1..], only);
      } else {
        FailApprovalsKeeps(st, list[1..], only);
      }
    }
  }

  lemma FailCallersKeeps(st: State, only: bool, reason: Reason)
    requires Inv(st) && reason != WakeFailed
    ensures Inv(FailCallers(st, only, reason))
    ensures FailCallers(st, only, reason).sockets == st.sockets
  {
    FailEachKeeps(st, st.sockets, Tool, only, reason);
    var tools := FailEach(st, st.sockets, Tool, only, reason);
    FailEachKeeps(tools, st.sockets, Workspace, only, reason);
    FailApprovalsKeeps(FailEach(tools, st.sockets, Workspace, only, reason), st.sockets, only);
  }

  lemma {:induction false} RetireKeeps(st: State, list: seq<SocketId>, current: SocketId)
    requires Inv(st)
    ensures Inv(Retire(st, list, current))
    ensures Retire(st, list, current).sockets == st.sockets
    decreases |list|
  {
    if list != [] {
      var s := list[0];
      if s != current && IsExecutor(st, s) {
        var marked := Put(st, s, st.att[s].(active := Some(false)));
        MarkExecutor(st, s, st.att[s].(active := Some(false)));
        EmitSilent(marked, ShutDown(s));
        EmitSilent(Emit(marked, ShutDown(s)), Closed(s));
        RetireKeeps(Emit(Emit(marked, ShutDown(s)), Closed(s)), list[1..], current);
      } else {
        RetireKeeps(st, list[1..], current);
      }
    }
  }

  lemma {:induction false} CloseAllKeeps(st: State, list: seq<SocketId>)
    requires Inv(st)
    ensures Inv(CloseAll(st, list)) && CloseAll(st, list).sockets == st.sockets
    decreases |list|
  {
    if list != [] {
      if IsExecutor(st, list[0]) {
        EmitSilent(st, ShutDown(list[0]));
        EmitSilent(Emit(st, ShutDown(list[0])), Closed(list[0]));
        CloseAllKeeps(Emit(Emit(st, ShutDown(list[0])), Closed(list[0])), list[1..]);
      } else {
        CloseAllKeeps(st, list[1..]);
      }
    }
  }

  lemma {:induction false} CloseLogsKeeps(st: State, list: seq<SocketId>)
    requires Inv(st)
    ensures Inv(CloseLogs(st, list))
    decreases |list|
  {
    if list != [] {
      if list[0] in st.att && st.att[list[0]].Logs? {
        EmitSilent(st, Closed(list[0]));
        CloseLogsKeeps(Emit(st, Closed(list[0])), list[1..]);
      } else {
        CloseLogsKeeps(st, list[1..]);
      }
    }
  }

  // ------------------------------------------------------------- every step

  lemma ReplaceKeeps(st: State, s: SocketId)
    requires Inv(st)
    ensures Inv(ReplaceOthers(st, s)) && ReplaceOthers(st, s).sockets == st.sockets
  {
    RetireKeeps(st, st.sockets, s);
    if OtherExecutor(st, s) {
      var retired := Retire(st, st.sockets, s);
      FailEachKeeps(retired, st.sockets, Tool, true, Reconnected);
      FailEachKeeps(FailEach(retired, st.sockets, Tool, true, Reconnected), st.sockets, Workspace, true, Reconnected);
    }
  }

  /** No loop ever turns an executor into something else. */
  lemma {:induction false} FailEachSpares(st: State, list: seq<SocketId>, role: Role, only: bool, reason: Reason, x: SocketId)
    requires x in st.att && !st.att[x].Caller?
    ensures var after := FailEach(st, list, role, only, reason); x in after.att && after.att[x] == st.att[x]
    decreases |list|
  {
    if list != [] {
      var s := list[0];
      if s in st.att && st.att[s].Caller? && st.att[s].role == role && (only ==> st.att[s].issuedAt.Some?) {
        FailEachSpares(Settle(st, s, Fault(LocalExecutorOffline, reason), true), list[1..], role, only, reason, x);
      } else {
        FailEachSpares(st, list[1..], role, only, reason, x);
      }
    }
  }

  /** What replacement does to the executors themselves. */
  lemma {:induction false} RetireMarks(st: State, list: seq<SocketId>, current: SocketId, x: SocketId)
    requires x in st.att
    ensures var after := Retire(st, list, current);
      && x in after.att
      && (!st.att[x].Executor? || x == current ==> after.att[x] == st.att[x])
      && (st.att[x].Executor? && x != current && x in list ==> after.att[x] == st.att[x].(active := Some(false)))
      && (st.att[x].Executor? && x !in list ==> after.att[x] == st.att[x])
      && (st.att[x].Executor? ==> after.att[x].Executor?)
    decreases |list|
  {
    if list != [] {
      var s := list[0];
      if s != current && IsExecutor(st, s) {
        var marked := Put(st, s, st.att[s].(active := Some(false)));
        RetireMarks(Emit(Emit(marked, ShutDown(s)), Closed(s)), list[1..], current, x);
      } else {
        RetireMarks(st, list[1..], current, x);
      }
    }
  }

  lemma ReplaceMarks(st: State, current: SocketId, x: SocketId)
    requires IsExecutor(st, x)
    ensures var after := ReplaceOthers(st, current);
      && IsExecutor(after, x)
      && (x != current && x in st.sockets ==> after.att[x].active == Some(false))
      && (x == current ==> after.att[x] == st.att[x])
  {
    RetireMarks(st, st.sockets, current, x);
    var retired := Retire(st, st.sockets, current);
    FailEachSpares(retired, st.sockets, Tool, true, Reconnected, x);
    FailEachSpares(FailEach(retired, st.sockets, Tool, true, Reconnected), st.sockets, Workspace, true, Reconnected, x);
  }

  lemma HelloKeeps(st: State, s: SocketId, protocol: int, deviceId: string, caps: Option<Capabilities>)
    requires Inv(st) && AttachedExecutor(st, s)
    ensures Inv(SayHello(st, s, protocol, deviceId, caps))
  {
    if protocol < MIN_PROTOCOL || MAX_PROTOCOL < protocol {
      EmitSilent(st, ShutDown(s));
      EmitSilent(Emit(st, ShutDown(s)), Closed(s));
    } else {
      var own := st.att[s].deviceId;
      var a := Executor(if own != "" then own else deviceId, Some(true), caps);
      ReplaceKeeps(st, s);
      ReplaceMarks(st, s, s);
      MarkExecutor(ReplaceOthers(st, s), s, a);
      EmitSilent(Put(ReplaceOthers(st, s), s, a), Greeted(s));
    }
  }

  lemma AnswerKeeps(st: State, role: Role, id: string, response: Response)
    requires Inv(st) && !(response.Fault? && response.reason == WakeFailed)
    ensures Inv(AnswerCaller(st, role, id, response))
  {
    var c := CallerOf(st, role, id);
    if c.Some? {
      assert Fine(st, c.value);
      SettleKeeps(st, c.value, response, role == Tool || response.Fault?);
    }
  }

  lemma DecideKeeps(st: State, id: string, decision: Decision, now: int)
    requires Inv(st)
    ensures Inv(SettleApproval(st, id, decision, now))
  {
    var c := ApprovalOf(st, id);
    if c.Some? && c.value in st.att && st.att[c.value].Approval? && st.att[c.value].expiresAt.Some? {
      var given := if st.att[c.value].expiresAt.value <= now then Unanswered else decision;
      SettleKeeps(st, c.value, ApprovalResult(given), false);
      ResolveKeeps(Settle(st, c.value, ApprovalResult(given), false), id);
    }
  }

  lemma RevokeKeeps(st: State)
    requires Inv(st)
    ensures Inv(RevokeDevice(st))
  {
    CloseAllKeeps(st, st.sockets);
    FailCallersKeeps(CloseAll(st, st.sockets), false, Revoked);
    CloseLogsKeeps(FailCallers(CloseAll(st, st.sockets), false, Revoked), st.sockets);
  }

  lemma ConnectKeeps(st: State, s: SocketId, a: Attachment)
    requires Inv(st) && s !in st.att && Newborn(a)
    ensures Inv(Accept(st, s, a))
  {
    var attached := Put(st.(sockets := st.sockets + [s]), s, a);
    assert Inv(attached) by {
      forall t ensures Fine(attached, t) { assert Fine(st, t); }
    }
    if a.Logs? { EmitSilent(attached, LogSynced(s, Running(st, st.sockets, a.watching))); }
  }

  /** Forgetting a suspended continuation touches neither sockets nor wire. */
  lemma Unsuspend(st: State, waiting: seq<Waiting>, drops: seq<bool>)
    requires Inv(st)
    ensures Inv(st.(waiting := waiting, drops := drops))
  {
    forall t ensures Fine(st.(waiting := waiting, drops := drops), t) { assert Fine(st, t); }
  }

  lemma NextKeeps(st: State, step: Step)
    requires Inv(st)
    ensures Inv(Next(st, step))
  {
    match step
    case Connect(s, a) => if s !in st.att && Newborn(a) { ConnectKeeps(st, s, a); }
    case Hello(s, protocol, deviceId, caps) =>
      if AttachedExecutor(st, s) { HelloKeeps(st, s, protocol, deviceId, caps); }
    case StartFrame(s, m) => Unsuspend(st, st.waiting + [Waiting(s, m)], st.drops);
    case Resume(i, wake, now, delivers) =>
      if i < |st.waiting| {
        Unsuspend(st, RemoveAt(st.waiting, i), st.drops);
        var w := st.waiting[i];
        ResumeKeeps(st.(waiting := RemoveAt(st.waiting, i)), w.socket, w.message, wake, now, delivers);
      }
    case CancelFrame(s) => if s in st.sockets && st.att[s].Open() { CancelKeeps(st, s); }
    case ResultFrame(s, role, id, v) => AnswerKeeps(st, role, id, if role == Tool then ToolResult(v) else WorkspaceResult(v));
    case UnreadableFrame(s, role, id) => AnswerKeeps(st, role, id, Fault(InternalError, Unreadable));
    case Decide(id, approved, now) => DecideKeeps(st, id, if approved then Approved else Declined, now);
    case Leave(s, failed) => if s in st.sockets { LeaveKeeps(st, s, failed); }
    case DropDone(i) =>
      if i < |st.drops| {
        Unsuspend(st, st.waiting, RemoveAt(st.drops, i));
        FailCallersKeeps(st.(drops := RemoveAt(st.drops, i)), true, DropReason(st.drops[i]));
      }
    case Revoke => RevokeKeeps(st);
  }
}
