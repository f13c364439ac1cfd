/**
 * The device relay as a transition system: what its sockets remember, what goes
 * out on them, and what each event does to both. `DeviceRelay` implements these
 * steps over mutable fields and `RelaySafety` proves what every run keeps.
 */
module RelayModel {
  import opened Common

  type SocketId = nat

  /** The two kinds of caller whose request is sent down to the machine. */
  datatype Role = Tool | Workspace

  datatype Capabilities = Capabilities(prompt: bool, workspaceRouting: bool, features: set<string>)

  /** Where a call runs; what the Logs view files it under. */
  datatype Target = Target(projectId: string, workspaceId: Option<string>)

  datatype Decision = Approved | Declined | Unanswered

  datatype Code =
    | ToolTimeout | WorkspaceUnavailable | LocalExecutorOffline | ExecutorWaking | Forbidden | InternalError

  /** Which of the relay's own messages an error carries. */
  datatype Reason =
    | Expired | NotConnected | NeedsUpdate | NoRouting | SendFailed | Unreadable
    | Reconnected | Disconnected | ConnectionFailed | Revoked | WakeFailed

  datatype Response =
    | ToolResult(value: int)
    | WorkspaceResult(value: int)
    | ApprovalResult(decision: Decision)
    | Fault(code: Code, reason: Reason)

  /** What a socket carries across hibernation. */
  datatype Attachment =
    | Executor(deviceId: string, active: Option<bool>, capabilities: Option<Capabilities>)
    | Caller(role: Role, id: string, settled: bool, issuedAt: Option<int>, log: Option<Target>)
    | Approval(id: string, settled: bool, expiresAt: Option<int>)
    | Logs(watching: Target)
  {
    /** True of a caller or an approval that still waits for its answer. */
    predicate Open() {
      (Caller? || Approval?) && !settled
    }

    /** The same socket, answered. */
    function Mark(): Attachment {
      match this
      case Caller(role, id, _, issuedAt, log) => Caller(role, id, true, issuedAt, log)
      case Approval(id, _, expiresAt) => Approval(id, true, expiresAt)
      case _ => this
    }

    predicate Routable() {
      Executor? && active != Some(false)
    }

    predicate Dispatched() {
      Caller? && issuedAt.Some?
    }
  }

  /** Everything the relay lets out, in order. */
  datatype Event =
    | Called(executor: SocketId, caller: SocketId, listening: bool, at: int, expiresAt: int)
    | Asked(executor: SocketId, approval: SocketId)
    | Answered(to: SocketId, response: Response)
    | CancelSent(executor: SocketId, id: string)
    | ApprovalResolved(executor: SocketId, id: string)
    | Greeted(executor: SocketId)
    | ShutDown(executor: SocketId)
    | Closed(socket: SocketId)
    | LogStarted(caller: SocketId, target: Target)
    | LogEnded(caller: SocketId, target: Target)
    | LogSynced(tab: SocketId, running: seq<SocketId>)

  datatype StartKind = ToolStart | McpStart | WorkspaceStart | ApprovalStart

  datatype Start = Start(
    kind: StartKind,
    requestId: string,
    target: Target,
    feature: string,
    issuedAt: int,
    expiresAt: int)

  /** How waiting for a sleeping machine ended. */
  datatype Wake = Awake | StillWaking | Unwakeable

  datatype Waiting = Waiting(socket: SocketId, message: Start)

  datatype State = State(
    sockets: seq<SocketId>,                // attached, in the order the runtime lists them
    att: map<SocketId, Attachment>,        // attachments, kept readable after a socket left
    waiting: seq<Waiting>,                 // starts suspended on the wake
    drops: seq<bool>,                      // executor drops suspended on the presence write: did the socket fail?
    wire: seq<Event>)

  const Init := State([], map[], [], [], [])

  const MIN_PROTOCOL := 1
  const MAX_PROTOCOL := 1

  // ----------------------------------------------------------------- lookups

  function AttachedWith(sockets: seq<SocketId>, att: map<SocketId, Attachment>, p: Attachment -> bool): (r: Option<SocketId>)
    ensures r.Some? ==> r.value in sockets && r.value in att && p(att[r.value])
    ensures r.None? ==> forall s :: s in sockets && s in att ==> !p(att[s])
  {
    Find(sockets, (s: SocketId) => s in att && p(att[s]))
  }

  /** `executorSocket`: the one that said hello last, else one that has not yet. */
  function Route(st: State): (r: Option<SocketId>) {
    var greeted := AttachedWith(st.sockets, st.att, (a: Attachment) => a.Executor? && a.active == Some(true));
    if greeted.Some? then greeted else AttachedWith(st.sockets, st.att, (a: Attachment) => a.Routable())
  }

  /** `hasOtherExecutor`: whether a routable executor besides this one is attached. */
  predicate HasOther(st: State, closing: SocketId) {
    exists s :: s in st.sockets && s != closing && s in st.att && st.att[s].Routable()
  }

  /** `callerSocket` for a tool or workspace call. */
  function CallerOf(st: State, role: Role, id: string): Option<SocketId> {
    AttachedWith(st.sockets, st.att, (a: Attachment) => a.Caller? && a.role == role && a.id == id && !a.settled)
  }

  function ApprovalOf(st: State, id: string): Option<SocketId> {
    AttachedWith(st.sockets, st.att, (a: Attachment) => a.Approval? && a.id == id && !a.settled)
  }

  // ----------------------------------------------------------- small effects

  function Emit(st: State, e: Event): State {
    st.(wire := st.wire + [e])
  }

  function Put(st: State, s: SocketId, a: Attachment): State {
    st.(att := st.att[s := a])
  }

  /** Answers a caller once; `logging` is the source's optional `ctx` argument. */
  function Settle(st: State, s: SocketId, response: Response, logging: bool): State {
    if s !in st.att || !st.att[s].Open() then st
    else
      var a := st.att[s];
      var marked := Put(st, s, a.Mark());
      var logged :=
        if logging && a.Caller? && a.role == Tool && a.log.Some?
        then Emit(marked, LogEnded(s, a.log.value)) else marked;
      if s in st.sockets then Emit(Emit(logged, Answered(s, response)), Closed(s)) else logged
  }

  function SendCancel(st: State, id: string): State {
    var x := Route(st);
    if x.Some? then Emit(st, CancelSent(x.value, id)) else st
  }

  function ResolveApproval(st: State, id: string): State {
    var x := Route(st);
    if x.Some? then Emit(st, ApprovalResolved(x.value, id)) else st
  }

  /** A caller that stopped listening. */
  function CancelCaller(st: State, s: SocketId, a: Attachment): State
    requires a.Caller?
  {
    var told := SendCancel(st, a.id);
    if a.log.Some? then Emit(told, LogEnded(s, a.log.value)) else told
  }

  // ------------------------------------------------------------------- loops

  /** Settles the callers of one role on this list, or only the dispatched ones. */
  function FailEach(st: State, list: seq<SocketId>, role: Role, dispatchedOnly: bool, reason: Reason): State
    decreases |list|
  {
    if list == [] then st
    else
      var s := list[0];
      var next :=
        if s in st.att && st.att[s].Caller? && st.att[s].role == role
           && (dispatchedOnly ==> st.att[s].issuedAt.Some?)
        then Settle(st, s, Fault(LocalExecutorOffline, reason), true) else st;
      FailEach(next, list[1..], role, dispatchedOnly, reason)
  }

  function FailApprovals(st: State, list: seq<SocketId>, dispatchedOnly: bool): State
    decreases |list|
  {
    if list == [] then st
    else
      var s := list[0];
      var next :=
        if s in st.att && st.att[s].Approval? && (dispatchedOnly ==> st.att[s].expiresAt.Some?)
        then ResolveApproval(Settle(st, s, ApprovalResult(Unanswered), false), st.att[s].id) else st;
      FailApprovals(next, list[1..], dispatchedOnly)
  }

  function FailCallers(st: State, dispatchedOnly: bool, reason: Reason): State {
    var tools := FailEach(st, st.sockets, Tool, dispatchedOnly, reason);
    var calls := FailEach(tools, st.sockets, Workspace, dispatchedOnly, reason);
    FailApprovals(calls, st.sockets, dispatchedOnly)
  }

  /** Marks every executor but one as replaced, and closes it. */
  function Retire(st: State, list: seq<SocketId>, current: SocketId): State
    decreases |list|
  {
    if list == [] then st
    else
      var s := list[0];
      var next :=
        if s != current && s in st.att && st.att[s].Executor?
        then Emit(Emit(Put(st, s, st.att[s].(active := Some(false))), ShutDown(s)), Closed(s)) else st;
      Retire(next, list[1..], current)
  }

  predicate OtherExecutor(st: State, current: SocketId) {
    exists s :: s in st.sockets && s != current && s in st.att && st.att[s].Executor?
  }

  function ReplaceOthers(st: State, current: SocketId): State {
    var retired := Retire(st, st.sockets, current);
    if !OtherExecutor(st, current) then retired
    else
      var tools := FailEach(retired, st.sockets, Tool, true, Reconnected);
      FailEach(tools, st.sockets, Workspace, true, Reconnected)
  }

  // ---------------------------------------------------------------- dispatch

  predicate Named(id: Option<string>) {
    id.Some? && id.value != ""
  }

  /** The feature a start needs, when its kind needs one. */
  predicate Announced(m: Start, executor: Attachment)
    requires executor.Executor?
  {
    m.kind == ToolStart
    || (executor.capabilities.Some? && m.feature in executor.capabilities.value.features)
  }

  predicate Routes(executor: Attachment)
    requires executor.Executor?
  {
    executor.capabilities.Some? && executor.capabilities.value.workspaceRouting
  }

  predicate IsExecutor(st: State, x: SocketId) {
    x in st.att && st.att[x].Executor?
  }

  /** The three dispatching start handlers. */
  function Dispatch(st: State, s: SocketId, m: Start, now: int, delivers: bool): State
    requires s in st.att && st.att[s].Caller?
  {
    var c := st.att[s];
    var x := Route(st);
    if m.requestId != c.id || c.issuedAt.Some? then st
    else if m.expiresAt <= now then Settle(st, s, Fault(ToolTimeout, Expired), false)
    else if x.None? || !IsExecutor(st, x.value) then Settle(st, s, Fault(LocalExecutorOffline, NotConnected), false)
    else if !Announced(m, st.att[x.value]) then Settle(st, s, Fault(Forbidden, NeedsUpdate), false)
    else if Named(m.target.workspaceId) && !Routes(st.att[x.value])
    then Settle(st, s, Fault(WorkspaceUnavailable, NoRouting), false)
    else
      var issued := Put(st, s, c.(issuedAt := Some(m.issuedAt)));
      if !delivers then Settle(issued, s, Fault(LocalExecutorOffline, SendFailed), false)
      else
        var sent := Emit(issued, Called(x.value, s, s in st.sockets, now, m.expiresAt));
        if m.kind == WorkspaceStart then sent
        else
          var target := Target(m.target.projectId, if Named(m.target.workspaceId) then m.target.workspaceId else None);
          Emit(Put(sent, s, c.(issuedAt := Some(m.issuedAt), log := Some(target))), LogStarted(s, target))
  }

  function AskApproval(st: State, s: SocketId, m: Start, now: int, delivers: bool): State
    requires s in st.att && st.att[s].Approval?
  {
    var c := st.att[s];
    var x := Route(st);
    if m.requestId != c.id || c.expiresAt.Some? then st
    else if m.expiresAt <= now then Settle(st, s, ApprovalResult(Unanswered), false)
    else if x.None? || !IsExecutor(st, x.value) then Settle(st, s, Fault(LocalExecutorOffline, NotConnected), false)
    else
      var shown := Put(st, s, c.(expiresAt := Some(m.expiresAt)));
      var caps := st.att[x.value].capabilities;
      if caps.Some? && caps.value.prompt && delivers then Emit(shown, Asked(x.value, s)) else shown
  }

  /** The second half of `handleCallerMessage`, once the wait for the wake is over. */
  function ResumeStart(st: State, s: SocketId, m: Start, wake: Wake, now: int, delivers: bool): State {
    if !wake.Awake? then
      Settle(st, s, Fault(if wake.StillWaking? then ExecutorWaking else LocalExecutorOffline, WakeFailed), false)
    else if s !in st.att || !st.att[s].Open() then st
    else
      var held := st.att[s];
      if held.Approval? && m.kind == ApprovalStart then AskApproval(st, s, m, now, delivers)
      else if held.Caller? && held.role == Workspace && m.kind == WorkspaceStart then Dispatch(st, s, m, now, delivers)
      else if held.Caller? && held.role == Tool && (m.kind == ToolStart || m.kind == McpStart)
      then Dispatch(st, s, m, now, delivers)
      else st
  }

  // ------------------------------------------------------------------- steps

  datatype Step =
    | Connect(s: SocketId, attachment: Attachment)
    | Hello(s: SocketId, protocol: int, deviceId: string, capabilities: Option<Capabilities>)
    | StartFrame(s: SocketId, message: Start)
    | Resume(index: nat, wake: Wake, now: int, delivers: bool)
    | CancelFrame(s: SocketId)
    | ResultFrame(s: SocketId, role: Role, requestId: string, value: int)
    | UnreadableFrame(s: SocketId, role: Role, requestId: string)
    | Decide(id: string, approved: bool, now: int)
    | Leave(s: SocketId, failed: bool)
    | DropDone(index: nat)
    | Revoke

  /** What a socket's attachment is when it is accepted. */
  predicate Newborn(a: Attachment) {
    match a
    case Executor(_, active, caps) => active.None? && caps.None?
    case Caller(_, _, settled, issuedAt, log) => !settled && issuedAt.None? && log.None?
    case Approval(_, settled, expiresAt) => !settled && expiresAt.None?
    case Logs(_) => true
  }

  predicate AttachedExecutor(st: State, s: SocketId) {
    s in st.sockets && IsExecutor(st, s)
  }

  function SayHello(st: State, s: SocketId, protocol: int, deviceId: string, caps: Option<Capabilities>): State
    requires IsExecutor(st, s)
  {
    if protocol < MIN_PROTOCOL || MAX_PROTOCOL < protocol then Emit(Emit(st, ShutDown(s)), Closed(s))
    else
      var own := st.att[s].deviceId;
      var replaced := ReplaceOthers(st, s);
      Emit(Put(replaced, s, Executor(if own != "" then own else deviceId, Some(true), caps)), Greeted(s))
  }

  function Cancel(st: State, s: SocketId): State
    requires s in st.att && st.att[s].Open()
  {
    var a := st.att[s];
    var marked := Put(st, s, a.Mark());
    var told := if a.Caller? then CancelCaller(marked, s, a) else ResolveApproval(marked, a.id);
    Emit(told, Closed(s))
  }

  function AnswerCaller(st: State, role: Role, id: string, response: Response): State {
    var c := CallerOf(st, role, id);
    if c.Some? then Settle(st, c.value, response, role == Tool || response.Fault?) else st
  }

  function SettleApproval(st: State, id: string, decision: Decision, now: int): State {
    var c := ApprovalOf(st, id);
    if c.None? || c.value !in st.att || !st.att[c.value].Approval? || st.att[c.value].expiresAt.None? then st
    else
      var given := if st.att[c.value].expiresAt.value <= now then Unanswered else decision;
      ResolveApproval(Settle(st, c.value, ApprovalResult(given), false), id)
  }

  function DropReason(failed: bool): Reason {
    if failed then ConnectionFailed else Disconnected
  }

  /** A socket's terminal event: it leaves the set, and what depended on it hears so. */
  function LeaveSocket(st: State, s: SocketId, failed: bool): State
    requires s in st.att
  {
    var a := st.att[s];
    var after :=
      match a
      case Executor(_, _, _) =>
        if HasOther(st, s) then st else st.(drops := st.drops + [failed])
      case Caller(_, _, settled, _, _) => if settled then st else CancelCaller(st, s, a)
      case Approval(id, settled, _) => if settled then st else ResolveApproval(st, id)
      case Logs(_) => st;
    after.(sockets := Without(st.sockets, s))
  }

  function CloseAll(st: State, list: seq<SocketId>): State
    decreases |list|
  {
    if list == [] then st
    else
      var s := list[0];
      var next := if IsExecutor(st, s) then Emit(Emit(st, ShutDown(s)), Closed(s)) else st;
      CloseAll(next, list[1..])
  }

  function CloseLogs(st: State, list: seq<SocketId>): State
    decreases |list|
  {
    if list == [] then st
    else
      var s := list[0];
      var next := if s in st.att && st.att[s].Logs? then Emit(st, Closed(s)) else st;
      CloseLogs(next, list[1..])
  }

  function RevokeDevice(st: State): State {
    var closed := CloseAll(st, st.sockets);
    CloseLogs(FailCallers(closed, false, Revoked), st.sockets)
  }

  function RemoveAt<T>(items: seq<T>, i: nat): seq<T>
    requires i < |items|
  {
    items[..i] + items[i + 1..]
  }

  /** The calls a new tab is told are running where it watches. */
  function Running(st: State, list: seq<SocketId>, watching: Target): (r: seq<SocketId>)
    ensures forall s :: s in r ==> s in list
    decreases |list|
  {
    if list == [] then []
    else
      var rest := Running(st, list[1..], watching);
      var s := list[0];
      if s in st.att && st.att[s].Caller? && st.att[s].role == Tool && !st.att[s].settled
         && st.att[s].log == Some(watching)
      then [s] + rest else rest
  }

  function Accept(st: State, s: SocketId, a: Attachment): State {
    var attached := Put(st.(sockets := st.sockets + [s]), s, a);
    if a.Logs? then Emit(attached, LogSynced(s, Running(st, st.sockets, a.watching))) else attached
  }

  /** One step; an event that cannot occur in this state changes nothing. */
  function Next(st: State, step: Step): State {
    match step
    case Connect(s, a) =>
      if s in st.att || !Newborn(a) then st
      else Accept(st, s, a)
    case Hello(s, protocol, deviceId, caps) =>
      if AttachedExecutor(st, s) then SayHello(st, s, protocol, deviceId, caps) else st
    case StartFrame(s, m) =>
      if s in st.sockets && s in st.att && st.att[s].Open() then st.(waiting := st.waiting + [Waiting(s, m)]) else st
    case Resume(i, wake, now, delivers) =>
      if i < |st.waiting| then
        var w := st.waiting[i];
        ResumeStart(st.(waiting := RemoveAt(st.waiting, i)), w.socket, w.message, wake, now, delivers)
      else st
    case CancelFrame(s) =>
      if s in st.sockets && s in st.att && st.att[s].Open() then Cancel(st, s) else st
    case ResultFrame(s, role, id, v) =>
      if AttachedExecutor(st, s)
      then AnswerCaller(st, role, id, if role == Tool then ToolResult(v) else WorkspaceResult(v)) else st
    case UnreadableFrame(s, role, id) =>
      if AttachedExecutor(st, s) then AnswerCaller(st, role, id, Fault(InternalError, Unreadable)) else st
    case Decide(id, approved, now) => SettleApproval(st, id, if approved then Approved else Declined, now)
    case Leave(s, failed) => if s in st.sockets && s in st.att then LeaveSocket(st, s, failed) else st
    case DropDone(i) =>
      if i < |st.drops| then FailCallers(st.(drops := RemoveAt(st.drops, i)), true, DropReason(st.drops[i])) else st
    case Revoke => RevokeDevice(st)
  }

  /** The state after a run of steps from an empty relay. */
  function Run(steps: seq<Step>): State {
    if steps == [] then Init else Next(Run(steps[..|steps| - 1]), steps[|steps| - 1])
  }
}
