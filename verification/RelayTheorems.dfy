/**
 * The relay's guarantees over whole runs, built on the bookkeeping invariant of
 * `RelaySafety` and on what a single step can put on the wire.
 */
module RelayTheorems {
  import opened Common
  import opened RelayModel
  import opened RelaySafety

  // ------------------------------------------------------ how a step evolves

  /** What may become of an attachment: a settled caller never changes again. */
  predicate Evolves(a: Attachment, b: Attachment) {
    match a
    case Executor(_, _, _) => b.Executor?
    case Logs(_) => a == b
    case Approval(id, settled, expiresAt) =>
      && b.Approval? && b.id == id
      && (settled ==> a == b)
      && (expiresAt.Some? ==> b.expiresAt == expiresAt)
    case Caller(role, id, settled, issuedAt, log) =>
      && b.Caller? && b.role == role && b.id == id
      && (settled ==> a == b)
      && (issuedAt.Some? ==> b.issuedAt == issuedAt && (log.Some? ==> b.log == log))
  }

  /** Everything remembered stays, and evolves. */
  ghost predicate Later(st: State, after: State) {
    && st.wire <= after.wire
    && forall s :: s in st.att ==> s in after.att && Evolves(st.att[s], after.att[s])
  }

  /** An answer that no executor and no person gave. */
  predicate Own(response: Response) {
    response.Fault? || response == ApprovalResult(Unanswered)
  }

  predicate Hushed(e: Event) {
    && !e.Called? && !e.Greeted? && !e.LogSynced? && !e.LogStarted?
    && (e.Answered? ==> Own(e.response))
  }

  /** A change that sends no call, greets nobody, and passes no one's answer on. */
  ghost predicate Quiet(st: State, after: State) {
    && Later(st, after)
    && after.att.Keys == st.att.Keys
    && (forall s :: s in st.att && st.att[s].Executor? ==>
          after.att[s] == st.att[s] || after.att[s] == st.att[s].(active := Some(false)))
    && (forall i :: |st.wire| <= i < |after.wire| ==> Hushed(after.wire[i]))
  }

  lemma QuietThen(a: State, b: State, c: State)
    requires Quiet(a, b) && Quiet(b, c)
    ensures Quiet(a, c)
  {
    assert a.wire <= c.wire;
    forall i | |a.wire| <= i < |c.wire| ensures Hushed(c.wire[i]) {
      if i < |b.wire| { assert c.wire[i] == b.wire[i]; }
    }
  }

  lemma SettleQuiet(st: State, s: SocketId, response: Response, logging: bool)
    requires Own(response)
    ensures Quiet(st, Settle(st, s, response, logging))
  {
  }

  lemma {:induction false} FailEachQuiet(st: State, list: seq<SocketId>, role: Role, only: bool, reason: Reason)
    ensures Quiet(st, FailEach(st, list, role, only, reason))
    decreases |list|
  {
    if list != [] {
      var s := list[0];
      var next := if s in st.att && st.att[s].Caller? && st.att[s].role == role && (only ==> st.att[s].issuedAt.Some?)
        then Settle(st, s, Fault(LocalExecutorOffline, reason), true) else st;
      SettleQuiet(st, s, Fault(LocalExecutorOffline, reason), true);
      FailEachQuiet(next, list[1..], role, only, reason);
      QuietThen(st, next, FailEach(next, list[1..], role, only, reason));
    }
  }

  lemma {:induction false} FailApprovalsQuiet(st: State, list: seq<SocketId>, only: bool)
    ensures Quiet(st, FailApprovals(st, list, only))
    decreases |list|
  {
    if list != [] {
      var s := list[0];
      if s in st.att && st.att[s].Approval? && (only ==> st.att[s].expiresAt.Some?) {
        var settled := Settle(st, s, ApprovalResult(Unanswered), false);
        SettleQuiet(st, s, ApprovalResult(Unanswered), false);
        var next := ResolveApproval(settled, st.att[s].id);
        QuietThen(st, settled, next);
        FailApprovalsQuiet(next, list[1..], only);
        QuietThen(st, next, FailApprovals(next, list[1..], only));
      } else {
        FailApprovalsQuiet(st, list[1..], only);
      }
    }
  }

  lemma FailCallersQuiet(st: State, only: bool, reason: Reason)
    ensures Quiet(st, FailCallers(st, only, reason))
  {
    var tools := FailEach(st, st.sockets, Tool, only, reason);
    var calls := FailEach(tools, st.sockets, Workspace, only, reason);
    FailEachQuiet(st, st.sockets, Tool, only, reason);
    FailEachQuiet(tools, st.sockets, Workspace, only, reason);
    FailApprovalsQuiet(calls, st.sockets, only);
    QuietThen(st, tools, calls);
    QuietThen(st, calls, FailCallers(st, only, reason));
  }

  lemma {:induction false} RetireQuiet(st: State, list: seq<SocketId>, current: SocketId)
    ensures Quiet(st, Retire(st, list, current))
    decreases |list|
  {
    if list != [] {
      var s := list[0];
      if s != current && s in st.att && st.att[s].Executor? {
        var marked := Put(st, s, st.att[s].(active := Some(false)));
        var next := Emit(Emit(marked, ShutDown(s)), Closed(s));
        assert Quiet(st, next);
        RetireQuiet(next, list[1..], current);
        QuietThen(st, next, Retire(next, list[1..], current));
      } else {
        RetireQuiet(st, list[1..], current);
      }
    }
  }

  lemma ReplaceQuiet(st: State, current: SocketId)
    ensures Quiet(st, ReplaceOthers(st, current))
  {
    var retired := Retire(st, st.sockets, current);
    RetireQuiet(st, st.sockets, current);
    if OtherExecutor(st, current) {
      var tools := FailEach(retired, st.sockets, Tool, true, Reconnected);
      FailEachQuiet(retired, st.sockets, Tool, true, Reconnected);
      FailEachQuiet(tools, st.sockets, Workspace, true, Reconnected);
      QuietThen(st, retired, tools);
      QuietThen(st, tools, ReplaceOthers(st, current));
    }
  }

  lemma {:induction false} CloseAllQuiet(st: State, list: seq<SocketId>)
    ensures Quiet(st, CloseAll(st, list))
    decreases |list|
  {
    if list != [] {
      var s := list[0];
      var next := if IsExecutor(st, s) then Emit(Emit(st, ShutDown(s)), Closed(s)) else st;
      CloseAllQuiet(next, list[1..]);
      QuietThen(st, next, CloseAll(next, list[1..]));
    }
  }

  lemma {:induction false} CloseLogsQuiet(st: State, list: seq<SocketId>)
    ensures Quiet(st, CloseLogs(st, list))
    decreases |list|
  {
    if list != [] {
      var s := list[0];
      var next := if s in st.att && st.att[s].Logs? then Emit(st, Closed(s)) else st;
      CloseLogsQuiet(next, list[1..]);
      QuietThen(st, next, CloseLogs(next, list[1..]));
    }
  }

  lemma RevokeQuiet(st: State)
    ensures Quiet(st, RevokeDevice(st))
  {
    var closed := CloseAll(st, st.sockets);
    var failed := FailCallers(closed, false, Revoked);
    CloseAllQuiet(st, st.sockets);
    FailCallersQuiet(closed, false, Revoked);
    CloseLogsQuiet(failed, st.sockets);
    QuietThen(st, closed, failed);
    QuietThen(st, failed, RevokeDevice(st));
  }

  // -------------------------------------------------- what a step may let out

  /**
   * Why an event is on the wire. A call goes down only when a start resumes on an
   * awake machine, before its deadline, for a caller that is neither settled nor
   * cancelled nor dispatched already, to the routable executor of that moment. A
   * result answers only the caller with its own id and role. A person's decision
   * answers only the approval it names, before it expires.
   */
  ghost predicate Justified(st: State, step: Step, e: Event) {
    match e
    case Called(x, s, listening, at, expiresAt) =>
      && step.Resume? && step.wake.Awake? && step.index < |st.waiting|
      && st.waiting[step.index].socket == s
      && st.waiting[step.index].message.expiresAt == expiresAt
      && at == step.now < expiresAt
      && s in st.att && st.att[s].Caller? && st.att[s].Open() && !st.att[s].Dispatched()
      && st.waiting[step.index].message.requestId == st.att[s].id
      && listening == (s in st.sockets)
      && Route(st) == Some(x) && x in st.sockets && IsExecutor(st, x) && st.att[x].Routable()
    case Answered(s, response) =>
      && (!Own(response) ==> s in st.sockets && s in st.att && st.att[s].Open())
      && (match response
          case ToolResult(v) =>
            step.ResultFrame? && AttachedExecutor(st, step.s) && st.att[s].Caller?
            && step.role == Tool == st.att[s].role && step.requestId == st.att[s].id && v == step.value
          case WorkspaceResult(v) =>
            step.ResultFrame? && AttachedExecutor(st, step.s) && st.att[s].Caller?
            && step.role == Workspace == st.att[s].role && step.requestId == st.att[s].id && v == step.value
          case ApprovalResult(d) =>
            d != Unanswered ==>
              step.Decide? && st.att[s].Approval? && step.id == st.att[s].id
              && st.att[s].expiresAt.Some? && step.now < st.att[s].expiresAt.value && step.approved == (d == Approved)
          case Fault(_, _) => true)
    case Greeted(x) =>
      step.Hello? && step.s == x && AttachedExecutor(st, x) && MIN_PROTOCOL <= step.protocol <= MAX_PROTOCOL
    case LogSynced(tab, running) =>
      step.Connect? && step.attachment.Logs? && running == Running(st, st.sockets, step.attachment.watching)
    case LogStarted(s, target) =>
      && step.Resume? && step.wake.Awake? && step.index < |st.waiting| && st.waiting[step.index].socket == s
      && st.waiting[step.index].message.kind != WorkspaceStart && target == Logged(st.waiting[step.index].message.target)
    case _ => true
  }

  /** The target a call is logged under: an empty workspace id is none. */
  function Logged(target: Target): Target {
    Target(target.projectId, if Named(target.workspaceId) then target.workspaceId else None)
  }

  lemma ResultOutput(st: State, role: Role, id: string, response: Response, i: nat)
    requires var after := AnswerCaller(st, role, id, response); |st.wire| <= i < |after.wire|
    ensures
      var after := AnswerCaller(st, role, id, response);
      var e := after.wire[i];
      && Later(st, after)
      && !e.Called? && !e.Greeted? && !e.LogSynced? && !e.LogStarted?
      && (e.Answered? ==>
          && e.response == response && e.to in st.sockets && e.to in st.att && st.att[e.to].Open()
          && st.att[e.to].Caller? && st.att[e.to].role == role && st.att[e.to].id == id)
  {
  }

  lemma DecideOutput(st: State, id: string, approved: bool, now: int, i: nat)
    requires var after := Next(st, Decide(id, approved, now)); |st.wire| <= i < |after.wire|
    ensures Later(st, Next(st, Decide(id, approved, now)))
    ensures Justified(st, Decide(id, approved, now), Next(st, Decide(id, approved, now)).wire[i])
  {
    var c := ApprovalOf(st, id);
    if c.Some? && st.att[c.value].expiresAt.Some? {
      var given := if st.att[c.value].expiresAt.value <= now then Unanswered else if approved then Approved else Declined;
      DecidedWire(st, c.value, given, id);
      var after := Next(st, Decide(id, approved, now));
      if i == |st.wire| {
        assert after.wire[i] == Answered(c.value, ApprovalResult(given));
      } else {
        HushedIsJustified(st, Decide(id, approved, now), after.wire[i]);
      }
    }
  }

  lemma DecidedWire(st: State, s: SocketId, given: Decision, id: string)
    requires s in st.sockets && s in st.att && st.att[s].Approval? && st.att[s].Open()
    ensures
      var after := ResolveApproval(Settle(st, s, ApprovalResult(given), false), id);
      && Later(st, after) && |after.wire| > |st.wire| && after.wire[|st.wire|] == Answered(s, ApprovalResult(given))
      && forall i :: |st.wire| < i < |after.wire| ==> Hushed(after.wire[i])
  {
    var settled := Settle(st, s, ApprovalResult(given), false);
    assert settled.wire == st.wire + [Answered(s, ApprovalResult(given))] + [Closed(s)];
  }

  lemma ResumeOutput(st: State, index: nat, wake: Wake, now: int, delivers: bool, i: nat)
    requires index < |st.waiting|
    requires var after := Next(st, Resume(index, wake, now, delivers)); |st.wire| <= i < |after.wire|
    ensures Justified(st, Resume(index, wake, now, delivers), Next(st, Resume(index, wake, now, delivers)).wire[i])
  {
    var w := st.waiting[index];
    var st1 := st.(waiting := RemoveAt(st.waiting, index));
    assert Route(st1) == Route(st);
    var after := Next(st, Resume(index, wake, now, delivers));
    if wake.Awake? && w.socket in st.att && st.att[w.socket].Caller? && st.att[w.socket].Open() {
      DispatchOutput(st1, w.socket, w.message, now, delivers);
      if Sendable(st1, w.socket, w.message, now) && delivers {
        if i == |st.wire| + 1 { assert after.wire[i].LogStarted?; }
      } else {
        HushedIsJustified(st, Resume(index, wake, now, delivers), after.wire[i]);
      }
    } else {
      OtherwiseHushed(st1, w.socket, w.message, wake, now, delivers, i);
      HushedIsJustified(st, Resume(index, wake, now, delivers), after.wire[i]);
    }
  }

  /** Nothing but a caller's own start sends a call. */
  lemma OtherwiseHushed(st: State, s: SocketId, m: Start, wake: Wake, now: int, delivers: bool, i: nat)
    requires !(wake.Awake? && s in st.att && st.att[s].Caller? && st.att[s].Open())
    requires |st.wire| <= i < |ResumeStart(st, s, m, wake, now, delivers).wire|
    ensures Hushed(ResumeStart(st, s, m, wake, now, delivers).wire[i])
  {
  }

  lemma SentLater(st: State, s: SocketId, m: Start, now: int)
    requires Sendable(st, s, m, now) && st.att[s].Open()
    ensures
      var after := Dispatch(st, s, m, now, true);
      && Later(st, after)
      && |st.wire| < |after.wire| <= |st.wire| + 2
      && after.wire[|st.wire|] == Called(Route(st).value, s, s in st.sockets, now, m.expiresAt)
      && (|after.wire| == |st.wire| + 2 ==>
            m.kind != WorkspaceStart && after.wire[|st.wire| + 1] == LogStarted(s, Logged(m.target)))
  {
  }

  /** A dispatch either puts exactly one call on the wire, for good reasons, or is quiet. */
  lemma DispatchOutput(st: State, s: SocketId, m: Start, now: int, delivers: bool)
    requires s in st.att && st.att[s].Caller? && st.att[s].Open()
    ensures
      var after := Dispatch(st, s, m, now, delivers);
      if Sendable(st, s, m, now) && delivers then
        && Later(st, after)
        && |st.wire| < |after.wire| <= |st.wire| + 2
        && after.wire[|st.wire|] == Called(Route(st).value, s, s in st.sockets, now, m.expiresAt)
        && (|after.wire| == |st.wire| + 2 ==>
              m.kind != WorkspaceStart && after.wire[|st.wire| + 1] == LogStarted(s, Logged(m.target)))
      else Quiet(st, after)
  {
    var c, x := st.att[s], Route(st);
    if m.requestId != c.id || c.issuedAt.Some? {
    } else if m.expiresAt <= now {
      SettleQuiet(st, s, Fault(ToolTimeout, Expired), false);
    } else if x.None? || !IsExecutor(st, x.value) {
      SettleQuiet(st, s, Fault(LocalExecutorOffline, NotConnected), false);
    } else if !Announced(m, st.att[x.value]) {
      SettleQuiet(st, s, Fault(Forbidden, NeedsUpdate), false);
    } else if Named(m.target.workspaceId) && !Routes(st.att[x.value]) {
      SettleQuiet(st, s, Fault(WorkspaceUnavailable, NoRouting), false);
    } else if delivers {
      SentLater(st, s, m, now);
    } else {
      var issued := Put(st, s, st.att[s].(issuedAt := Some(m.issuedAt)));
      assert Quiet(st, issued);
      SettleQuiet(issued, s, Fault(LocalExecutorOffline, SendFailed), false);
      QuietThen(st, issued, Dispatch(st, s, m, now, delivers));
    }
  }

  lemma ResumeLater(st: State, index: nat, wake: Wake, now: int, delivers: bool)
    requires index < |st.waiting|
    ensures Later(st, Next(st, Resume(index, wake, now, delivers)))
  {
    var w := st.waiting[index];
    var st1 := st.(waiting := RemoveAt(st.waiting, index));
    ResumedLater(st1, w.socket, w.message, wake, now, delivers);
  }

  lemma ResumedLater(st: State, s: SocketId, m: Start, wake: Wake, now: int, delivers: bool)
    ensures Later(st, ResumeStart(st, s, m, wake, now, delivers))
  {
    if wake.Awake? && s in st.att && st.att[s].Open() {
      if st.att[s].Caller? { DispatchOutput(st, s, m, now, delivers); } else { AskLater(st, s, m, now, delivers); }
    }
  }

  lemma AskLater(st: State, s: SocketId, m: Start, now: int, delivers: bool)
    requires s in st.att && st.att[s].Approval? && st.att[s].Open()
    ensures Later(st, AskApproval(st, s, m, now, delivers))
  {
  }

  lemma HelloOutput(st: State, s: SocketId, protocol: int, deviceId: string, caps: Option<Capabilities>, i: nat)
    requires AttachedExecutor(st, s)
    requires var after := SayHello(st, s, protocol, deviceId, caps); |st.wire| <= i < |after.wire|
    ensures Later(st, SayHello(st, s, protocol, deviceId, caps))
    ensures Justified(st, Hello(s, protocol, deviceId, caps), SayHello(st, s, protocol, deviceId, caps).wire[i])
  {
    ReplaceQuiet(st, s);
    var replaced := ReplaceOthers(st, s);
    if MIN_PROTOCOL <= protocol <= MAX_PROTOCOL && i < |replaced.wire| {
      assert Hushed(replaced.wire[i]);
    }
  }

  lemma CancelLater(st: State, s: SocketId)
    requires s in st.att && st.att[s].Open()
    ensures Later(st, Cancel(st, s))
  {
  }

  lemma LeaveLater(st: State, s: SocketId, failed: bool)
    requires s in st.att
    ensures Later(st, LeaveSocket(st, s, failed))
  {
  }

  lemma DecideLater(st: State, id: string, decision: Decision, now: int)
    ensures Later(st, SettleApproval(st, id, decision, now))
  {
  }

  /** Every step only adds to the wire and only lets attachments evolve. */
  lemma NextLater(st: State, step: Step)
    ensures Later(st, Next(st, step))
  {
    match step
    case Hello(s, protocol, deviceId, caps) => ReplaceQuiet(st, s);
    case CancelFrame(s) => if s in st.att && st.att[s].Open() { CancelLater(st, s); }
    case Leave(s, failed) => if s in st.att { LeaveLater(st, s, failed); }
    case Decide(id, approved, now) => DecideLater(st, id, if approved then Approved else Declined, now);
    case Resume(i, wake, now, delivers) => if i < |st.waiting| { ResumeLater(st, i, wake, now, delivers); }
    case ResultFrame(s, role, id, v) => AnswerLater(st, role, id, if role == Tool then ToolResult(v) else WorkspaceResult(v));
    case UnreadableFrame(s, role, id) => AnswerLater(st, role, id, Fault(InternalError, Unreadable));
    case DropDone(i) =>
      if i < |st.drops| { FailCallersQuiet(st.(drops := RemoveAt(st.drops, i)), true, DropReason(st.drops[i])); }
    case Revoke => RevokeQuiet(st);
    case _ =>
  }

  lemma AnswerLater(st: State, role: Role, id: string, response: Response)
    ensures Later(st, AnswerCaller(st, role, id, response))
  {
    if |AnswerCaller(st, role, id, response).wire| > |st.wire| { ResultOutput(st, role, id, response, |st.wire|); }
  }

  /** Nothing leaves the relay without its reason. */
  lemma StepOutput(st: State, step: Step, i: nat)
    requires |st.wire| <= i < |Next(st, step).wire|
    ensures Justified(st, step, Next(st, step).wire[i])
  {
    match step
    case Hello(s, protocol, deviceId, caps) =>
      if AttachedExecutor(st, s) { HelloOutput(st, s, protocol, deviceId, caps, i); }
    case Resume(k, wake, now, delivers) => if k < |st.waiting| { ResumeOutput(st, k, wake, now, delivers, i); }
    case Decide(id, approved, now) => DecideOutput(st, id, approved, now, i);
    case Connect(s, a) => ConnectOutput(st, s, a, i);
    case ResultFrame(_, _, _, _) => FrameOutput(st, step, i);
    case UnreadableFrame(_, _, _) => FrameOutput(st, step, i);
    case CancelFrame(s) => CancelOutput(st, s, i);
    case Leave(s, failed) => LeaveOutput(st, s, failed, i);
    case DropDone(k) => DropOutput(st, k, i);
    case Revoke => RevokeQuiet(st); HushedIsJustified(st, step, Next(st, step).wire[i]);
    case StartFrame(_, _) =>
  }

  lemma HushedIsJustified(st: State, step: Step, e: Event)
    requires Hushed(e)
    ensures Justified(st, step, e)
  {
  }

  lemma ConnectOutput(st: State, s: SocketId, a: Attachment, i: nat)
    requires |st.wire| <= i < |Next(st, Connect(s, a)).wire|
    ensures Justified(st, Connect(s, a), Next(st, Connect(s, a)).wire[i])
  {
  }

  lemma FrameOutput(st: State, step: Step, i: nat)
    requires (step.ResultFrame? || step.UnreadableFrame?) && |st.wire| <= i < |Next(st, step).wire|
    ensures Justified(st, step, Next(st, step).wire[i])
  {
    var response :=
      if step.UnreadableFrame? then Fault(InternalError, Unreadable)
      else if step.role == Tool then ToolResult(step.value) else WorkspaceResult(step.value);
    ResultOutput(st, step.role, step.requestId, response, i);
  }

  lemma CancelOutput(st: State, s: SocketId, i: nat)
    requires |st.wire| <= i < |Next(st, CancelFrame(s)).wire|
    ensures Justified(st, CancelFrame(s), Next(st, CancelFrame(s)).wire[i])
  {
  }

  lemma LeaveOutput(st: State, s: SocketId, failed: bool, i: nat)
    requires |st.wire| <= i < |Next(st, Leave(s, failed)).wire|
    ensures Justified(st, Leave(s, failed), Next(st, Leave(s, failed)).wire[i])
  {
  }

  lemma DropOutput(st: State, k: nat, i: nat)
    requires |st.wire| <= i < |Next(st, DropDone(k)).wire|
    ensures Justified(st, DropDone(k), Next(st, DropDone(k)).wire[i])
  {
    var st1 := st.(drops := RemoveAt(st.drops, k));
    FailCallersQuiet(st1, true, DropReason(st.drops[k]));
    HushedIsJustified(st, DropDone(k), Next(st, DropDone(k)).wire[i]);
  }

  // -------------------------------------------------------------- whole runs

  lemma {:induction false} RunKeeps(steps: seq<Step>)
    ensures Inv(Run(steps))
    decreases |steps|
  {
    if steps != [] {
      RunKeeps(steps[..|steps| - 1]);
      NextKeeps(Run(steps[..|steps| - 1]), steps[|steps| - 1]);
    }
  }

  /** A later state of the same run remembers and has sent everything an earlier one did. */
  lemma {:induction false} RunLater(steps: seq<Step>, k: nat)
    requires k <= |steps|
    ensures Later(Run(steps[..k]), Run(steps))
    decreases |steps|
  {
    if k == |steps| {
      assert steps[..k] == steps;
    } else {
      var before := steps[..|steps| - 1];
      RunLater(before, k);
      assert before[..k] == steps[..k];
      NextLater(Run(before), steps[|steps| - 1]);
    }
  }

  /**
   * At most once, over every run: a caller's request goes down to one executor at
   * most once, and the caller is given at most one answer.
   */
  lemma AtMostOnce(steps: seq<Step>, s: SocketId)
    ensures TallyOf(Run(steps).wire, s).calls <= 1
    ensures TallyOf(Run(steps).wire, s).answers <= 1
    ensures forall i, j :: 0 <= i < j < |Run(steps).wire| ==>
      !(Run(steps).wire[i].Called? && Run(steps).wire[j].Called? && Run(steps).wire[i].caller == s == Run(steps).wire[j].caller)
  {
    RunKeeps(steps);
    assert Fine(Run(steps), s);
    var wire := Run(steps).wire;
    forall i, j | 0 <= i < j < |wire| && wire[i].Called? && wire[j].Called? && wire[i].caller == s == wire[j].caller
      ensures false
    {
      TallySeesTwo(wire, s, i, j);
    }
  }

  lemma {:induction false} TallySees(wire: seq<Event>, s: SocketId, i: nat)
    requires i < |wire| && wire[i].Called? && wire[i].caller == s
    ensures TallyOf(wire, s).calls >= 1
    decreases |wire|
  {
    if i < |wire| - 1 { TallySees(wire[..|wire| - 1], s, i); }
  }

  lemma {:induction false} TallySeesTwo(wire: seq<Event>, s: SocketId, i: nat, j: nat)
    requires i < j < |wire| && wire[i].Called? && wire[j].Called? && wire[i].caller == s == wire[j].caller
    ensures TallyOf(wire, s).calls >= 2
    decreases |wire|
  {
    if j < |wire| - 1 { TallySeesTwo(wire[..|wire| - 1], s, i, j); }
    else { TallySees(wire[..|wire| - 1], s, i); }
  }

  /** A settled caller stays settled, with everything it holds, for the rest of the run. */
  lemma SettledForever(steps: seq<Step>, k: nat, s: SocketId)
    requires k <= |steps|
    requires s in Run(steps[..k]).att && (Run(steps[..k]).att[s].Caller? || Run(steps[..k]).att[s].Approval?)
    requires !Run(steps[..k]).att[s].Open()
    ensures s in Run(steps).att && Run(steps).att[s] == Run(steps[..k]).att[s]
  {
    RunLater(steps, k);
  }

  /** Every event of every run has its reason in the step that let it out. */
  lemma {:induction false} EveryEventJustified(steps: seq<Step>, i: nat) returns (k: nat)
    requires i < |Run(steps).wire|
    ensures k < |steps|
    ensures |Run(steps[..k]).wire| <= i < |Run(steps[..k + 1]).wire|
    ensures Justified(Run(steps[..k]), steps[k], Run(steps).wire[i])
    decreases |steps|
  {
    var last := |steps| - 1;
    var before := steps[..last];
    if i < |Run(before).wire| {
      k := EveryEventJustified(before, i);
      assert before[..k] == steps[..k] && before[..k + 1] == steps[..k + 1];
      NextLater(Run(before), steps[last]);
    } else {
      k := last;
      assert steps[..k + 1] == steps;
      StepOutput(Run(before), steps[last], i);
    }
  }
}
