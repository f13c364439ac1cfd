/**
 * What the relay does when nothing stands in the way: an answer reaches its caller, a
 * start that meets every guard is sent down, a cancellation reaches the machine, and
 * whoever is settled was told so. Each is said of what a run's next step adds to the
 * wire and to the attachments.
 */
module RelayDelivers {
  import opened Common
  import opened RelayModel
  import opened RelaySafety
  import opened RelayTheorems
  import RelayLogs
  import RelayReconnects

  // -------------------------------------------------------------- who is meant

  /** The earliest attached socket with such an attachment. */
  ghost predicate FirstWith(st: State, s: SocketId, p: Attachment -> bool) {
    exists k :: 0 <= k < |st.sockets| && FirstAt(st, k, s, p)
  }

  ghost predicate FirstAt(st: State, k: nat, s: SocketId, p: Attachment -> bool) {
    && k < |st.sockets| && st.sockets[k] == s && s in st.att && p(st.att[s])
    && forall j :: 0 <= j < k ==> !(st.sockets[j] in st.att && p(st.att[st.sockets[j]]))
  }

  ghost predicate Nobody(st: State, p: Attachment -> bool) {
    forall s :: s in st.sockets && s in st.att ==> !p(st.att[s])
  }

  lemma {:induction false} FindIsFirst<T>(items: seq<T>, p: T -> bool, k: nat)
    requires k < |items| && p(items[k]) && forall j :: 0 <= j < k ==> !p(items[j])
    ensures Find(items, p) == Some(items[k])
    decreases |items|
  {
    if k > 0 {
      assert forall j :: 0 <= j < k - 1 ==> items[1..][j] == items[j + 1];
      FindIsFirst(items[1..], p, k - 1);
    }
  }

  lemma FirstIsFound(st: State, s: SocketId, p: Attachment -> bool)
    requires FirstWith(st, s, p)
    ensures AttachedWith(st.sockets, st.att, p) == Some(s)
  {
    var k :| 0 <= k < |st.sockets| && FirstAt(st, k, s, p);
    FindIsFirst(st.sockets, (x: SocketId) => x in st.att && p(st.att[x]), k);
  }

  /** A call goes to the executor that is active, or, where none is, to the first that was not replaced. */
  ghost predicate RoutedTo(st: State, x: SocketId) {
    var active := (a: Attachment) => a.Executor? && a.active == Some(true);
    FirstWith(st, x, active) || (Nobody(st, active) && FirstWith(st, x, (a: Attachment) => a.Executor? && a.active != Some(false)))
  }

  ghost predicate Unrouted(st: State) {
    Nobody(st, (a: Attachment) => a.Executor? && a.active != Some(false))
  }

  lemma RouteIs(st: State, x: SocketId)
    requires RoutedTo(st, x)
    ensures Route(st) == Some(x) && x in st.sockets && IsExecutor(st, x)
  {
    var active := (a: Attachment) => a.Executor? && a.active == Some(true);
    var routable := (a: Attachment) => a.Executor? && a.active != Some(false);
    var greeted := AttachedWith(st.sockets, st.att, (a: Attachment) => a.Executor? && a.active == Some(true));
    if FirstWith(st, x, active) {
      var k :| 0 <= k < |st.sockets| && FirstAt(st, k, x, active);
      assert FirstAt(st, k, x, (a: Attachment) => a.Executor? && a.active == Some(true));
      FirstIsFound(st, x, (a: Attachment) => a.Executor? && a.active == Some(true));
    } else {
      var k :| 0 <= k < |st.sockets| && FirstAt(st, k, x, routable);
      assert greeted.None?;
      assert FirstAt(st, k, x, (a: Attachment) => a.Routable());
      FirstIsFound(st, x, (a: Attachment) => a.Routable());
    }
  }

  lemma RouteIsNone(st: State)
    requires Unrouted(st)
    ensures Route(st).None?
  {
  }

  /** A relay either has somewhere to send calls or has not. */
  lemma SomeRoute(st: State) returns (x: Option<SocketId>)
    requires forall s :: s in st.sockets ==> s in st.att
    ensures if x.Some? then RoutedTo(st, x.value) else Unrouted(st)
  {
    var active := (a: Attachment) => a.Executor? && a.active == Some(true);
    var routable := (a: Attachment) => a.Executor? && a.active != Some(false);
    if !Nobody(st, active) {
      var s := EarliestWith(st, active);
      x := Some(s);
    } else if !Nobody(st, routable) {
      var s := EarliestWith(st, routable);
      x := Some(s);
    } else {
      x := None;
    }
  }

  lemma EarliestWith(st: State, p: Attachment -> bool) returns (s: SocketId)
    requires !Nobody(st, p)
    ensures FirstWith(st, s, p)
  {
    var y :| y in st.sockets && y in st.att && p(st.att[y]);
    var n :| 0 <= n < |st.sockets| && st.sockets[n] == y;
    var k := 0;
    while !(st.sockets[k] in st.att && p(st.att[st.sockets[k]]))
      invariant 0 <= k <= n
      invariant forall j :: 0 <= j < k ==> !(st.sockets[j] in st.att && p(st.att[st.sockets[j]]))
      decreases n - k
    {
      k := k + 1;
    }
    s := st.sockets[k];
    assert FirstAt(st, k, s, p);
  }

  /** What an option of a route says: to whom a call goes, or that there is nobody. */
  ghost predicate Routes(st: State, x: Option<SocketId>) {
    if x.Some? then RoutedTo(st, x.value) else Unrouted(st)
  }

  lemma RoutesIs(st: State, x: Option<SocketId>)
    requires Routes(st, x)
    ensures Route(st) == x && (x.Some? ==> x.value in st.sockets && IsExecutor(st, x.value))
  {
    if x.Some? { RouteIs(st, x.value); } else { RouteIsNone(st); }
  }

  /** Changing what is not an executor changes nothing of the route. */
  lemma RouteKept(st: State, after: State)
    requires after.sockets == st.sockets
    requires forall s :: s in st.sockets ==> (s in st.att <==> s in after.att)
    requires forall s :: s in st.sockets && s in st.att ==>
      (st.att[s].Executor? || after.att[s].Executor? ==> after.att[s] == st.att[s])
    ensures Route(after) == Route(st)
  {
    var active := (a: Attachment) => a.Executor? && a.active == Some(true);
    SameFirst(st.sockets, st.att, after.att, active);
    SameFirst(st.sockets, st.att, after.att, (a: Attachment) => a.Routable());
    SameFirst(st.sockets, st.att, after.att, (a: Attachment) => a.Executor? && a.active == Some(true));
  }

  lemma {:induction false} SameFirst(sockets: seq<SocketId>, a: map<SocketId, Attachment>, b: map<SocketId, Attachment>, p: Attachment -> bool)
    requires forall s :: s in sockets ==> ((s in a && p(a[s])) <==> (s in b && p(b[s])))
    ensures AttachedWith(sockets, a, p) == AttachedWith(sockets, b, p)
  {
    SameFind(sockets, (s: SocketId) => s in a && p(a[s]), (s: SocketId) => s in b && p(b[s]));
  }

  lemma {:induction false} SameFind<T>(items: seq<T>, p: T -> bool, q: T -> bool)
    requires forall x :: x in items ==> p(x) == q(x)
    ensures Find(items, p) == Find(items, q)
  {
    if items != [] { SameFind(items[1..], p, q); }
  }

  // --------------------------------------------------------------------- answers

  /** An open call of this role and id. */
  predicate Waits(a: Attachment, role: Role, id: string) {
    a.Caller? && a.role == role && a.id == id && !a.settled
  }

  predicate Asks(a: Attachment, id: string) {
    a.Approval? && a.id == id && !a.settled
  }

  /** The line that ends a logged tool call. */
  function EndLine(s: SocketId, a: Attachment): seq<Event>
    requires a.Caller?
  {
    if a.role == Tool && a.log.Some? then [LogEnded(s, a.log.value)] else []
  }

  lemma WaiterIs(st: State, s: SocketId, role: Role, id: string)
    requires FirstWith(st, s, (a: Attachment) => Waits(a, role, id))
    ensures CallerOf(st, role, id) == Some(s) && s in st.sockets && s in st.att && Waits(st.att[s], role, id)
  {
    var k :| 0 <= k < |st.sockets| && FirstAt(st, k, s, (a: Attachment) => Waits(a, role, id));
    assert FirstAt(st, k, s, (a: Attachment) => a.Caller? && a.role == role && a.id == id && !a.settled);
    FirstIsFound(st, s, (a: Attachment) => a.Caller? && a.role == role && a.id == id && !a.settled);
  }

  lemma AskerIs(st: State, s: SocketId, id: string)
    requires FirstWith(st, s, (a: Attachment) => Asks(a, id))
    ensures ApprovalOf(st, id) == Some(s) && s in st.sockets && s in st.att && Asks(st.att[s], id)
  {
    var k :| 0 <= k < |st.sockets| && FirstAt(st, k, s, (a: Attachment) => Asks(a, id));
    assert FirstAt(st, k, s, (a: Attachment) => a.Approval? && a.id == id && !a.settled);
    FirstIsFound(st, s, (a: Attachment) => a.Approval? && a.id == id && !a.settled);
  }

  /**
   * Over every run: the next result of an attached executor is the answer of the first
   * attached open caller of its role and id, which is settled with it and closed, its
   * log line ended; nothing else changes.
   */
  lemma ResultReachesItsCaller(steps: seq<Step>, x: SocketId, s: SocketId, role: Role, id: string, v: int)
    requires x in Run(steps).sockets && x in Run(steps).att && Run(steps).att[x].Executor?
    requires FirstWith(Run(steps), s, (a: Attachment) => Waits(a, role, id))
    ensures
      var st := Run(steps);
      && s in st.att && st.att[s].Caller?
      && Run(steps + [ResultFrame(x, role, id, v)]) == st.(
           att := st.att[s := Caller(role, id, true, st.att[s].issuedAt, st.att[s].log)],
           wire := st.wire + EndLine(s, st.att[s]) + [Answered(s, if role == Tool then ToolResult(v) else WorkspaceResult(v)), Closed(s)])
  {
    var st := Run(steps);
    RelayLogs.RunSnoc(steps, ResultFrame(x, role, id, v));
    WaiterIs(st, s, role, id);
    SettleWrites(st, s, if role == Tool then ToolResult(v) else WorkspaceResult(v));
  }

  lemma SettleWrites(st: State, s: SocketId, response: Response)
    requires s in st.sockets && s in st.att && st.att[s].Caller? && !st.att[s].settled
    ensures
      var a := st.att[s];
      Settle(st, s, response, a.role == Tool || response.Fault?) == st.(
        att := st.att[s := Caller(a.role, a.id, true, a.issuedAt, a.log)],
        wire := st.wire + EndLine(s, a) + [Answered(s, response), Closed(s)])
  {
    var wire := st.wire + EndLine(s, st.att[s]);
    assert wire + [Answered(s, response)] + [Closed(s)] == wire + [Answered(s, response), Closed(s)];
  }

  /** And what the executor said that could not be read is reported to the same caller. */
  lemma UnreadableReachesItsCaller(steps: seq<Step>, x: SocketId, s: SocketId, role: Role, id: string)
    requires x in Run(steps).sockets && x in Run(steps).att && Run(steps).att[x].Executor?
    requires FirstWith(Run(steps), s, (a: Attachment) => Waits(a, role, id))
    ensures
      var st := Run(steps);
      && s in st.att && st.att[s].Caller?
      && Run(steps + [UnreadableFrame(x, role, id)]) == st.(
           att := st.att[s := Caller(role, id, true, st.att[s].issuedAt, st.att[s].log)],
           wire := st.wire + EndLine(s, st.att[s]) + [Answered(s, Fault(InternalError, Unreadable)), Closed(s)])
  {
    RelayLogs.RunSnoc(steps, UnreadableFrame(x, role, id));
    WaiterIs(Run(steps), s, role, id);
    SettleWrites(Run(steps), s, Fault(InternalError, Unreadable));
  }

  /** A result nobody waits for, or from a socket that is no attached executor, changes nothing. */
  lemma StrayResults(steps: seq<Step>, x: SocketId, role: Role, id: string, v: int)
    requires
      || Nobody(Run(steps), (a: Attachment) => Waits(a, role, id))
      || !(x in Run(steps).sockets && x in Run(steps).att && Run(steps).att[x].Executor?)
    ensures Run(steps + [ResultFrame(x, role, id, v)]) == Run(steps)
  {
    RelayLogs.RunSnoc(steps, ResultFrame(x, role, id, v));
  }

  /** What the machine is told of a question that is over. */
  function Resolved(x: Option<SocketId>, id: string): seq<Event> {
    if x.Some? then [ApprovalResolved(x.value, id)] else []
  }

  lemma DecisionSettles(st: State, s: SocketId, id: string, given: Decision, x: Option<SocketId>)
    requires s in st.sockets && s in st.att && st.att[s].Approval? && !st.att[s].settled && Route(st) == x
    ensures
      ResolveApproval(Settle(st, s, ApprovalResult(given), false), id) == st.(
        att := st.att[s := Approval(st.att[s].id, true, st.att[s].expiresAt)],
        wire := st.wire + [Answered(s, ApprovalResult(given)), Closed(s)] + Resolved(x, id))
  {
    var settled := Settle(st, s, ApprovalResult(given), false);
    assert settled.wire == st.wire + [Answered(s, ApprovalResult(given)), Closed(s)];
    RouteKept(st, settled);
  }

  /**
   * Over every run: a person's decision is the answer of the first attached open
   * approval it names, if that was shown, in time; after its time the answer is that
   * there was none. Either way the approval is settled and closed, and the machine is
   * told that the question is over.
   */
  lemma DecisionReachesItsApproval(steps: seq<Step>, s: SocketId, id: string, approved: bool, now: int, x: Option<SocketId>)
    requires FirstWith(Run(steps), s, (a: Attachment) => Asks(a, id)) && Routes(Run(steps), x)
    requires s in Run(steps).att && Run(steps).att[s].Approval? && Run(steps).att[s].expiresAt.Some?
    ensures
      var st := Run(steps);
      var until := st.att[s].expiresAt;
      var given := if now < until.value then (if approved then Approved else Declined) else Unanswered;
      Run(steps + [Decide(id, approved, now)]) == st.(
        att := st.att[s := Approval(id, true, until)],
        wire := st.wire + [Answered(s, ApprovalResult(given)), Closed(s)] + Resolved(x, id))
  {
    RelayLogs.RunSnoc(steps, Decide(id, approved, now));
    AskerIs(Run(steps), s, id);
    RoutesIs(Run(steps), x);
    DecideWrites(Run(steps), s, id, approved, now, x);
  }

  lemma DecideWrites(st: State, s: SocketId, id: string, approved: bool, now: int, x: Option<SocketId>)
    requires ApprovalOf(st, id) == Some(s) && s in st.sockets && s in st.att && Asks(st.att[s], id)
    requires st.att[s].expiresAt.Some? && Route(st) == x
    ensures
      var given := if now < st.att[s].expiresAt.value then (if approved then Approved else Declined) else Unanswered;
      Next(st, Decide(id, approved, now)) == st.(
        att := st.att[s := Approval(id, true, st.att[s].expiresAt)],
        wire := st.wire + [Answered(s, ApprovalResult(given)), Closed(s)] + Resolved(x, id))
  {
    DecisionSettles(st, s, id, if now < st.att[s].expiresAt.value then (if approved then Approved else Declined) else Unanswered, x);
  }

  /** A decision on a question nobody asks any more, or that was not shown yet, changes nothing. */
  lemma StrayDecisions(steps: seq<Step>, id: string, approved: bool, now: int)
    requires
      var st := Run(steps);
      || Nobody(st, (a: Attachment) => Asks(a, id))
      || forall s :: s in st.sockets && s in st.att && Asks(st.att[s], id) ==> st.att[s].expiresAt.None?
    ensures Run(steps + [Decide(id, approved, now)]) == Run(steps)
  {
    RelayLogs.RunSnoc(steps, Decide(id, approved, now));
  }

  // ---------------------------------------------------------------------- starts

  /** A start frame of an attached open caller or approval waits for the machine. */
  lemma StartIsQueued(steps: seq<Step>, s: SocketId, m: Start)
    requires s in Run(steps).sockets && s in Run(steps).att && Run(steps).att[s].Open()
    ensures Run(steps + [StartFrame(s, m)]) == Run(steps).(waiting := Run(steps).waiting + [Waiting(s, m)])
  {
    RelayLogs.RunSnoc(steps, StartFrame(s, m));
  }

  /** A start is for a caller of its kind that was not sent down before. */
  predicate Meant(a: Attachment, m: Start) {
    && a.Caller? && !a.settled && a.issuedAt.None? && a.id == m.requestId
    && (if a.role == Workspace then m.kind == WorkspaceStart else m.kind == ToolStart || m.kind == McpStart)
  }

  predicate InWorkspace(m: Start) {
    m.target.workspaceId.Some? && m.target.workspaceId.value != ""
  }

  /** What an executor must have announced to be given a start. */
  predicate CanServe(executor: Attachment, m: Start) {
    && executor.Executor?
    && (m.kind != ToolStart ==> executor.capabilities.Some? && m.feature in executor.capabilities.value.features)
  }

  predicate CanRoute(executor: Attachment, m: Start) {
    executor.Executor? && (InWorkspace(m) ==> executor.capabilities.Some? && executor.capabilities.value.workspaceRouting)
  }

  /** Why a start is refused, first reason first; none if it is sent. */
  function Refusal(executor: Option<Attachment>, m: Start, now: int, delivers: bool): Option<Response> {
    if m.expiresAt <= now then Some(Fault(ToolTimeout, Expired))
    else if executor.None? then Some(Fault(LocalExecutorOffline, NotConnected))
    else if !CanServe(executor.value, m) then Some(Fault(Forbidden, NeedsUpdate))
    else if !CanRoute(executor.value, m) then Some(Fault(WorkspaceUnavailable, NoRouting))
    else if !delivers then Some(Fault(LocalExecutorOffline, SendFailed))
    else None
  }

  function Shown(m: Start): Target {
    Target(m.target.projectId, if InWorkspace(m) then m.target.workspaceId else None)
  }

  /** The call goes down, and a tool call is shown starting. */
  function SentDown(x: SocketId, s: SocketId, listening: bool, m: Start, now: int): seq<Event> {
    [Called(x, s, listening, now, m.expiresAt)] + if m.kind == WorkspaceStart then [] else [LogStarted(s, Shown(m))]
  }

  function Told(attached: bool, s: SocketId, response: Response): seq<Event> {
    if attached then [Answered(s, response), Closed(s)] else []
  }

  /**
   * Over every run: a waiting start whose machine is awake, meant for its caller, is
   * sent down to the executor calls go to, and its caller remembers when it was issued
   * and where it is logged, exactly if nothing refuses it; otherwise the caller is
   * settled with the first reason and, if it is still there, told so.
   */
  lemma StartIsDecided(steps: seq<Step>, i: nat, now: int, delivers: bool, x: Option<SocketId>)
    requires i < |Run(steps).waiting| && Routes(Run(steps), x)
    requires Run(steps).waiting[i].socket in Run(steps).att && Meant(Run(steps).att[Run(steps).waiting[i].socket], Run(steps).waiting[i].message)
    ensures
      var st, s, m := Run(steps), Run(steps).waiting[i].socket, Run(steps).waiting[i].message;
      var after, a := Run(steps + [Resume(i, Awake, now, delivers)]), st.att[s];
      var refusal := Refusal(if x.Some? && x.value in st.att then Some(st.att[x.value]) else None, m, now, delivers);
      && after.sockets == st.sockets && after.drops == st.drops && after.waiting == st.waiting[..i] + st.waiting[i + 1..]
      && (refusal.None? ==>
            && x.Some?
            && after.wire == st.wire + SentDown(x.value, s, s in st.sockets, m, now)
            && after.att == st.att[s := Caller(a.role, a.id, false, Some(m.issuedAt), if a.role == Workspace then a.log else Some(Shown(m)))])
      && (refusal.Some? ==>
            && after.wire == st.wire + Told(s in st.sockets, s, refusal.value)
            && s in after.att && after.att == st.att[s := after.att[s]]
            && after.att[s].Caller? && after.att[s].settled && after.att[s].id == a.id && after.att[s].role == a.role)
  {
    var st, s, m := Run(steps), Run(steps).waiting[i].socket, Run(steps).waiting[i].message;
    RelayLogs.RunSnoc(steps, Resume(i, Awake, now, delivers));
    RoutesIs(st, x);
    var resumed := st.(waiting := RemoveAt(st.waiting, i));
    assert Route(resumed) == Route(st);
    if Refusal(if x.Some? then Some(st.att[x.value]) else None, m, now, delivers).Some? {
      DispatchRefuses(resumed, s, m, now, delivers, x);
    } else {
      DispatchSends(resumed, s, m, now, x.value);
    }
  }

  lemma DispatchSends(st: State, s: SocketId, m: Start, now: int, x: SocketId)
    requires s in st.att && Meant(st.att[s], m) && Route(st) == Some(x) && IsExecutor(st, x)
    requires Refusal(Some(st.att[x]), m, now, true).None?
    ensures
      var after, a := Dispatch(st, s, m, now, true), st.att[s];
      after == st.(
        wire := st.wire + SentDown(x, s, s in st.sockets, m, now),
        att := st.att[s := Caller(a.role, a.id, false, Some(m.issuedAt), if a.role == Workspace then a.log else Some(Shown(m)))])
  {
  }

  lemma DispatchRefuses(st: State, s: SocketId, m: Start, now: int, delivers: bool, x: Option<SocketId>)
    requires s in st.att && Meant(st.att[s], m) && Route(st) == x && (x.Some? ==> IsExecutor(st, x.value))
    requires Refusal(if x.Some? then Some(st.att[x.value]) else None, m, now, delivers).Some?
    ensures
      var after, a := Dispatch(st, s, m, now, delivers), st.att[s];
      var refusal := Refusal(if x.Some? then Some(st.att[x.value]) else None, m, now, delivers);
      && after == st.(att := after.att, wire := st.wire + Told(s in st.sockets, s, refusal.value))
      && s in after.att && after.att == st.att[s := after.att[s]]
      && after.att[s].Caller? && after.att[s].settled && after.att[s].id == a.id && after.att[s].role == a.role
  {
    var refusal := Refusal(if x.Some? then Some(st.att[x.value]) else None, m, now, delivers);
    if refusal == Some(Fault(LocalExecutorOffline, SendFailed)) {
      TellsRefused(Put(st, s, st.att[s].(issuedAt := Some(m.issuedAt))), s, refusal.value);
    } else {
      TellsRefused(st, s, refusal.value);
    }
  }

  lemma TellsRefused(st: State, s: SocketId, response: Response)
    requires s in st.att && st.att[s].Caller? && !st.att[s].settled
    ensures Settle(st, s, response, false) == st.(att := st.att[s := st.att[s].Mark()], wire := st.wire + Told(s in st.sockets, s, response))
  {
    assert s in st.sockets ==> st.wire + [Answered(s, response)] + [Closed(s)] == st.wire + [Answered(s, response), Closed(s)];
  }

  /** A start whose machine could not be woken settles its caller with that. */
  lemma FailedWakeIsTold(steps: seq<Step>, i: nat, wake: Wake, now: int, delivers: bool)
    requires i < |Run(steps).waiting| && !wake.Awake?
    requires Run(steps).waiting[i].socket in Run(steps).att && Run(steps).att[Run(steps).waiting[i].socket].Open()
    ensures
      var st, s := Run(steps), Run(steps).waiting[i].socket;
      var after := Run(steps + [Resume(i, wake, now, delivers)]);
      && after.wire == st.wire + Told(s in st.sockets, s, Fault(if wake == StillWaking then ExecutorWaking else LocalExecutorOffline, WakeFailed))
      && s in after.att && !after.att[s].Open() && after.att == st.att[s := after.att[s]]
      && after.waiting == st.waiting[..i] + st.waiting[i + 1..]
  {
    RelayLogs.RunSnoc(steps, Resume(i, wake, now, delivers));
  }

  /** A question that is asked in time of an executor is shown until its deadline, and put to a machine that can ask it. */
  lemma QuestionIsAsked(steps: seq<Step>, i: nat, now: int, delivers: bool, x: SocketId)
    requires i < |Run(steps).waiting| && RoutedTo(Run(steps), x)
    requires
      var st, s, m := Run(steps), Run(steps).waiting[i].socket, Run(steps).waiting[i].message;
      && m.kind == ApprovalStart && now < m.expiresAt
      && s in st.att && st.att[s].Approval? && !st.att[s].settled && st.att[s].expiresAt.None? && st.att[s].id == m.requestId
    ensures
      var st, s, m := Run(steps), Run(steps).waiting[i].socket, Run(steps).waiting[i].message;
      var after := Run(steps + [Resume(i, Awake, now, delivers)]);
      && x in st.att && st.att[x].Executor?
      && after.att == st.att[s := Approval(m.requestId, false, Some(m.expiresAt))]
      && after.wire == st.wire +
           if st.att[x].capabilities.Some? && st.att[x].capabilities.value.prompt && delivers then [Asked(x, s)] else []
  {
    var st := Run(steps);
    RelayLogs.RunSnoc(steps, Resume(i, Awake, now, delivers));
    RouteIs(st, x);
    assert Route(st.(waiting := RemoveAt(st.waiting, i))) == Route(st);
  }

  // ------------------------------------------------------------- giving up a call

  /** What the machine and the log are told of a call its caller gives up. */
  function GivenUp(x: Option<SocketId>, s: SocketId, a: Attachment): seq<Event>
    requires a.Caller?
  {
    (if x.Some? then [CancelSent(x.value, a.id)] else []) + if a.log.Some? then [LogEnded(s, a.log.value)] else []
  }

  /** A caller's cancellation reaches the executor calls go to under the caller's own id; it is settled and closed. */
  lemma CancelReachesTheMachine(steps: seq<Step>, s: SocketId, x: Option<SocketId>)
    requires Routes(Run(steps), x)
    requires s in Run(steps).sockets && s in Run(steps).att && Run(steps).att[s].Caller? && !Run(steps).att[s].settled
    ensures
      var st := Run(steps);
      var a := st.att[s];
      Run(steps + [CancelFrame(s)]) == st.(
        att := st.att[s := Caller(a.role, a.id, true, a.issuedAt, a.log)], wire := st.wire + GivenUp(x, s, a) + [Closed(s)])
  {
    var st := Run(steps);
    RelayLogs.RunSnoc(steps, CancelFrame(s));
    RoutesIs(st, x);
    RouteKept(st, Put(st, s, st.att[s].Mark()));
  }

  /** And so does its leaving. */
  lemma LeavingReachesTheMachine(steps: seq<Step>, s: SocketId, failed: bool, x: Option<SocketId>)
    requires Routes(Run(steps), x)
    requires s in Run(steps).sockets && s in Run(steps).att && Run(steps).att[s].Caller? && !Run(steps).att[s].settled
    ensures
      var st, after := Run(steps), Run(steps + [Leave(s, failed)]);
      && after.wire == st.wire + GivenUp(x, s, st.att[s]) && after.att == st.att
      && s !in after.sockets && forall t :: t in st.sockets && t != s ==> t in after.sockets
  {
    RelayLogs.RunSnoc(steps, Leave(s, failed));
    RoutesIs(Run(steps), x);
  }

  /** A question that is withdrawn is over for the machine too. */
  lemma WithdrawnIsResolved(steps: seq<Step>, s: SocketId, failed: bool, x: Option<SocketId>)
    requires Routes(Run(steps), x)
    requires s in Run(steps).sockets && s in Run(steps).att && Run(steps).att[s].Approval? && !Run(steps).att[s].settled
    ensures
      var st := Run(steps);
      var a := st.att[s];
      && Run(steps + [CancelFrame(s)]) == st.(
           att := st.att[s := Approval(a.id, true, a.expiresAt)], wire := st.wire + Resolved(x, a.id) + [Closed(s)])
      && Run(steps + [Leave(s, failed)]).wire == st.wire + Resolved(x, a.id)
  {
    var st := Run(steps);
    RelayLogs.RunSnoc(steps, CancelFrame(s));
    RelayLogs.RunSnoc(steps, Leave(s, failed));
    RoutesIs(st, x);
    RouteKept(st, Put(st, s, st.att[s].Mark()));
  }

  // ------------------------------------------------------------ nobody is forgotten

  predicate Done(a: Attachment) {
    (a.Caller? || a.Approval?) && a.settled
  }

  ghost predicate WasTold(wire: seq<Event>, s: SocketId) {
    exists i :: 0 <= i < |wire| && wire[i].Answered? && wire[i].to == s
  }

  /** Whoever was settled in between and is still attached was answered in between. */
  ghost predicate Honest(st: State, after: State) {
    && st.wire <= after.wire && (forall s :: s in after.sockets ==> s in st.sockets)
    && forall s :: s in after.sockets && s in after.att && Done(after.att[s]) ==>
         (s in st.att && Done(st.att[s])) || WasTold(after.wire, s)
  }

  lemma ToldLater(a: seq<Event>, b: seq<Event>, s: SocketId)
    requires WasTold(a, s) && a <= b
    ensures WasTold(b, s)
  {
    var i :| 0 <= i < |a| && a[i].Answered? && a[i].to == s;
    assert b[i] == a[i];
  }

  lemma HonestTwice(a: State, b: State, c: State)
    requires Honest(a, b) && Honest(b, c)
    ensures Honest(a, c)
  {
    forall s | s in c.sockets && s in c.att && Done(c.att[s]) ensures (s in a.att && Done(a.att[s])) || WasTold(c.wire, s) {
      if s in b.att && Done(b.att[s]) && WasTold(b.wire, s) { ToldLater(b.wire, c.wire, s); }
    }
  }

  lemma SettleHonest(st: State, s: SocketId, response: Response, logging: bool)
    ensures Honest(st, Settle(st, s, response, logging))
  {
    var after := Settle(st, s, response, logging);
    if s in st.sockets && s in st.att && st.att[s].Open() {
      assert after.wire[|after.wire| - 2] == Answered(s, response);
    }
  }

  lemma ResolveHonest(st: State, id: string)
    ensures Honest(st, ResolveApproval(st, id))
  {
  }

  lemma {:induction false} FailEachHonest(st: State, list: seq<SocketId>, role: Role, only: bool, reason: Reason)
    ensures Honest(st, FailEach(st, list, role, only, reason))
    decreases |list|
  {
    if list != [] {
      var s := list[0];
      var next := if s in st.att && st.att[s].Caller? && st.att[s].role == role && (only ==> st.att[s].issuedAt.Some?)
        then Settle(st, s, Fault(LocalExecutorOffline, reason), true) else st;
      SettleHonest(st, s, Fault(LocalExecutorOffline, reason), true);
      FailEachHonest(next, list[1..], role, only, reason);
      HonestTwice(st, next, FailEach(next, list[1..], role, only, reason));
    }
  }

  lemma {:induction false} FailApprovalsHonest(st: State, list: seq<SocketId>, only: bool)
    ensures Honest(st, FailApprovals(st, list, only))
    decreases |list|
  {
    if list != [] {
      var s := list[0];
      if s in st.att && st.att[s].Approval? && (only ==> st.att[s].expiresAt.Some?) {
        var settled := Settle(st, s, ApprovalResult(Unanswered), false);
        var next := ResolveApproval(settled, st.att[s].id);
        SettleHonest(st, s, ApprovalResult(Unanswered), false);
        ResolveHonest(settled, st.att[s].id);
        HonestTwice(st, settled, next);
        FailApprovalsHonest(next, list[1..], only);
        HonestTwice(st, next, FailApprovals(next, list[1..], only));
      } else {
        FailApprovalsHonest(st, list[1..], only);
      }
    }
  }

  lemma FailCallersHonest(st: State, only: bool, reason: Reason)
    ensures Honest(st, FailCallers(st, only, reason))
  {
    var tools := FailEach(st, st.sockets, Tool, only, reason);
    var calls := FailEach(tools, st.sockets, Workspace, only, reason);
    FailEachHonest(st, st.sockets, Tool, only, reason);
    FailEachHonest(tools, st.sockets, Workspace, only, reason);
    FailApprovalsHonest(calls, st.sockets, only);
    HonestTwice(st, tools, calls);
    HonestTwice(st, calls, FailCallers(st, only, reason));
  }

  lemma {:induction false} RetireHonest(st: State, list: seq<SocketId>, current: SocketId)
    ensures Honest(st, Retire(st, list, current))
    decreases |list|
  {
    if list != [] {
      var s := list[0];
      var next := if s != current && s in st.att && st.att[s].Executor?
        then Emit(Emit(Put(st, s, st.att[s].(active := Some(false))), ShutDown(s)), Closed(s)) else st;
      assert Honest(st, next);
      RetireHonest(next, list[1..], current);
      HonestTwice(st, next, Retire(next, list[1..], current));
    }
  }

  lemma HelloHonest(st: State, s: SocketId, protocol: int, deviceId: string, caps: Option<Capabilities>)
    requires IsExecutor(st, s)
    ensures Honest(st, SayHello(st, s, protocol, deviceId, caps))
  {
    if MIN_PROTOCOL <= protocol <= MAX_PROTOCOL {
      var retired := Retire(st, st.sockets, s);
      var replaced := ReplaceOthers(st, s);
      RetireHonest(st, st.sockets, s);
      if OtherExecutor(st, s) {
        var tools := FailEach(retired, st.sockets, Tool, true, Reconnected);
        FailEachHonest(retired, st.sockets, Tool, true, Reconnected);
        FailEachHonest(tools, st.sockets, Workspace, true, Reconnected);
        HonestTwice(st, retired, tools);
        HonestTwice(st, tools, replaced);
      }
      HonestTwice(st, replaced, SayHello(st, s, protocol, deviceId, caps));
    }
  }

  lemma {:induction false} ClosingHonest(st: State, list: seq<SocketId>)
    ensures Honest(st, CloseAll(st, list)) && CloseAll(st, list).att == st.att
    ensures Honest(st, CloseLogs(st, list)) && CloseLogs(st, list).att == st.att
    decreases |list|
  {
    if list != [] {
      var s := list[0];
      var a := if IsExecutor(st, s) then Emit(Emit(st, ShutDown(s)), Closed(s)) else st;
      var b := if s in st.att && st.att[s].Logs? then Emit(st, Closed(s)) else st;
      ClosingHonest(a, list[1..]);
      ClosingHonest(b, list[1..]);
      HonestTwice(st, a, CloseAll(a, list[1..]));
      HonestTwice(st, b, CloseLogs(b, list[1..]));
    }
  }

  lemma RevokeHonest(st: State)
    ensures Honest(st, RevokeDevice(st))
  {
    var closed := CloseAll(st, st.sockets);
    var failed := FailCallers(closed, false, Revoked);
    ClosingHonest(st, st.sockets);
    FailCallersHonest(closed, false, Revoked);
    ClosingHonest(failed, st.sockets);
    HonestTwice(st, closed, failed);
    HonestTwice(st, failed, RevokeDevice(st));
  }

  lemma ResumeHonest(st: State, s: SocketId, m: Start, wake: Wake, now: int, delivers: bool)
    ensures Honest(st, ResumeStart(st, s, m, wake, now, delivers))
  {
    if !wake.Awake? {
      SettleHonest(st, s, Fault(if wake.StillWaking? then ExecutorWaking else LocalExecutorOffline, WakeFailed), false);
    } else if s in st.att && st.att[s].Open() {
      if st.att[s].Approval? {
        SettleHonest(st, s, ApprovalResult(Unanswered), false);
        SettleHonest(st, s, Fault(LocalExecutorOffline, NotConnected), false);
      } else if st.att[s].Caller? {
        DispatchHonest(st, s, m, now, delivers);
      }
    }
  }

  lemma DispatchHonest(st: State, s: SocketId, m: Start, now: int, delivers: bool)
    requires s in st.att && st.att[s].Caller? && st.att[s].Open()
    ensures Honest(st, Dispatch(st, s, m, now, delivers))
  {
    var issued := Put(st, s, st.att[s].(issuedAt := Some(m.issuedAt)));
    SettleHonest(st, s, Fault(ToolTimeout, Expired), false);
    SettleHonest(st, s, Fault(LocalExecutorOffline, NotConnected), false);
    SettleHonest(st, s, Fault(Forbidden, NeedsUpdate), false);
    SettleHonest(st, s, Fault(WorkspaceUnavailable, NoRouting), false);
    SettleHonest(issued, s, Fault(LocalExecutorOffline, SendFailed), false);
    assert Honest(st, issued);
    HonestTwice(st, issued, Settle(issued, s, Fault(LocalExecutorOffline, SendFailed), false));
    var x := Route(st);
    if x.Some? { SendingHonest(st, s, m, now, x.value); }
  }

  lemma SendingHonest(st: State, s: SocketId, m: Start, now: int, x: SocketId)
    requires s in st.att && st.att[s].Caller? && st.att[s].Open()
    ensures
      var issued := Put(st, s, st.att[s].(issuedAt := Some(m.issuedAt)));
      var sent := Emit(issued, Called(x, s, s in st.sockets, now, m.expiresAt));
      var target := Logged(m.target);
      && Honest(st, sent)
      && Honest(st, Emit(Put(sent, s, st.att[s].(issuedAt := Some(m.issuedAt), log := Some(target))), LogStarted(s, target)))
  {
  }

  lemma DecideHonest(st: State, id: string, decision: Decision, now: int)
    ensures Honest(st, SettleApproval(st, id, decision, now))
  {
    var c := ApprovalOf(st, id);
    if c.Some? && c.value in st.att && st.att[c.value].Approval? && st.att[c.value].expiresAt.Some? {
      var given := if st.att[c.value].expiresAt.value <= now then Unanswered else decision;
      var settled := Settle(st, c.value, ApprovalResult(given), false);
      SettleHonest(st, c.value, ApprovalResult(given), false);
      ResolveHonest(settled, id);
      HonestTwice(st, settled, ResolveApproval(settled, id));
    }
  }

  lemma AnswerHonest(st: State, role: Role, id: string, response: Response)
    ensures Honest(st, AnswerCaller(st, role, id, response))
  {
    var c := CallerOf(st, role, id);
    if c.Some? { SettleHonest(st, c.value, response, role == Tool || response.Fault?); }
  }

  /** Every step but a newcomer's and a caller's own cancellation answers whom it settles. */
  lemma StepHonest(st: State, step: Step)
    requires !step.Connect? && !step.CancelFrame?
    ensures Honest(st, Next(st, step))
  {
    match step
    case Hello(s, protocol, deviceId, caps) => if AttachedExecutor(st, s) { HelloHonest(st, s, protocol, deviceId, caps); }
    case Resume(i, wake, now, delivers) =>
      if i < |st.waiting| {
        ResumeHonest(st.(waiting := RemoveAt(st.waiting, i)), st.waiting[i].socket, st.waiting[i].message, wake, now, delivers);
      }
    case ResultFrame(s, role, id, v) => AnswerHonest(st, role, id, if role == Tool then ToolResult(v) else WorkspaceResult(v));
    case UnreadableFrame(s, role, id) => AnswerHonest(st, role, id, Fault(InternalError, Unreadable));
    case Decide(id, approved, now) => DecideHonest(st, id, if approved then Approved else Declined, now);
    case DropDone(i) =>
      if i < |st.drops| { FailCallersHonest(st.(drops := RemoveAt(st.drops, i)), true, DropReason(st.drops[i])); }
    case Revoke => RevokeHonest(st);
    case _ => PlainHonest(st, step);
  }

  lemma PlainHonest(st: State, step: Step)
    requires step.StartFrame? || step.Leave?
    ensures Honest(st, Next(st, step))
  {
  }

  /**
   * Over every run, whoever is settled and still attached was answered, or cancelled
   * itself: nobody is left waiting on a socket that nothing will come down any more.
   */
  lemma {:induction false} SettledWasTold(steps: seq<Step>, s: SocketId)
    requires s in Run(steps).sockets && s in Run(steps).att && Done(Run(steps).att[s])
    ensures WasTold(Run(steps).wire, s) || CancelFrame(s) in steps
    decreases |steps|
  {
    assert steps != [];
    var before, step := steps[..|steps| - 1], steps[|steps| - 1];
    var st := Run(before);
    assert steps == before + [step];
    RelayLogs.RunSnoc(before, step);
    NextLater(st, step);
    if step.Connect? || step.CancelFrame? {
      if step != CancelFrame(s) {
        assert s in st.sockets && s in st.att && Done(st.att[s]);
        SettledWasTold(before, s);
        if WasTold(st.wire, s) { ToldLater(st.wire, Run(steps).wire, s); }
      }
    } else {
      StepHonest(st, step);
      if s in st.att && Done(st.att[s]) {
        SettledWasTold(before, s);
        if WasTold(st.wire, s) { ToldLater(st.wire, Run(steps).wire, s); }
      }
    }
  }

  // ------------------------------------------------------------------ shutting down

  ghost predicate Gained(a: seq<Event>, b: seq<Event>, e: Event) {
    a <= b && exists i :: |a| <= i < |b| && b[i] == e
  }

  lemma GainedLater(a: seq<Event>, b: seq<Event>, c: seq<Event>, e: Event)
    requires Gained(a, b, e) && b <= c
    ensures Gained(a, c, e)
  {
    var i :| |a| <= i < |b| && b[i] == e;
    assert c[i] == e;
  }

  lemma {:induction false} CloseAllShuts(st: State, list: seq<SocketId>, x: SocketId)
    requires x in list && IsExecutor(st, x)
    ensures Gained(st.wire, CloseAll(st, list).wire, ShutDown(x))
    decreases |list|
  {
    var s := list[0];
    var next := if IsExecutor(st, s) then Emit(Emit(st, ShutDown(s)), Closed(s)) else st;
    CloseAllQuiet(next, list[1..]);
    if s == x {
      assert CloseAll(st, list).wire[|st.wire|] == ShutDown(x);
    } else {
      CloseAllShuts(next, list[1..], x);
    }
  }

  /** A revocation shuts every attached executor down. */
  lemma RevokeShutsDown(steps: seq<Step>, x: SocketId)
    requires x in Run(steps).sockets && x in Run(steps).att && Run(steps).att[x].Executor?
    ensures Gained(Run(steps).wire, Run(steps + [Revoke]).wire, ShutDown(x))
  {
    var st := Run(steps);
    RelayLogs.RunSnoc(steps, Revoke);
    CloseAllShuts(st, st.sockets, x);
    var closed := CloseAll(st, st.sockets);
    var failed := FailCallers(closed, false, Revoked);
    FailCallersQuiet(closed, false, Revoked);
    CloseLogsQuiet(failed, st.sockets);
    GainedLater(st.wire, closed.wire, RevokeDevice(st).wire, ShutDown(x));
  }

  lemma {:induction false} CloseLogsCloses(st: State, list: seq<SocketId>, tab: SocketId)
    requires tab in list && tab in st.att && st.att[tab].Logs?
    ensures Gained(st.wire, CloseLogs(st, list).wire, Closed(tab))
    decreases |list|
  {
    var s := list[0];
    var next := if s in st.att && st.att[s].Logs? then Emit(st, Closed(s)) else st;
    CloseLogsQuiet(next, list[1..]);
    if s == tab {
      assert CloseLogs(st, list).wire[|st.wire|] == Closed(tab);
    } else {
      CloseLogsCloses(next, list[1..], tab);
    }
  }

  lemma {:induction false} FailApprovalsResolves(st: State, list: seq<SocketId>, x: SocketId, s: SocketId)
    requires Route(st) == Some(x) && s in list && s in st.att && st.att[s].Approval?
    ensures Gained(st.wire, FailApprovals(st, list, false).wire, ApprovalResolved(x, st.att[s].id))
    decreases |list|
  {
    var t := list[0];
    var next := if t in st.att && st.att[t].Approval?
      then ResolveApproval(Settle(st, t, ApprovalResult(Unanswered), false), st.att[t].id) else st;
    FailApprovalsQuiet(next, list[1..], false);
    SettlingKeepsRoute(st, t, ApprovalResult(Unanswered));
    if t == s {
      assert next.wire[|next.wire| - 1] == ApprovalResolved(x, st.att[s].id);
      assert FailApprovals(st, list, false).wire[|next.wire| - 1] == ApprovalResolved(x, st.att[s].id);
    } else {
      FailApprovalsResolves(next, list[1..], x, s);
    }
  }

  lemma SettlingKeepsRoute(st: State, s: SocketId, response: Response)
    ensures Route(Settle(st, s, response, true)) == Route(st) && Route(Settle(st, s, response, false)) == Route(st)
    ensures st.wire <= Settle(st, s, response, false).wire
  {
    RouteKept(st, Settle(st, s, response, true));
    RouteKept(st, Settle(st, s, response, false));
  }

  lemma {:induction false} FailEachKeepsRoute(st: State, list: seq<SocketId>, role: Role, only: bool, reason: Reason)
    ensures Route(FailEach(st, list, role, only, reason)) == Route(st)
    decreases |list|
  {
    if list != [] {
      var s := list[0];
      SettlingKeepsRoute(st, s, Fault(LocalExecutorOffline, reason));
      FailEachKeepsRoute(
        if s in st.att && st.att[s].Caller? && st.att[s].role == role && (only ==> st.att[s].issuedAt.Some?)
        then Settle(st, s, Fault(LocalExecutorOffline, reason), true) else st, list[1..], role, only, reason);
    }
  }

  lemma RevokeGrows(st: State)
    ensures st.wire <= CloseAll(st, st.sockets).wire <= FailCallers(CloseAll(st, st.sockets), false, Revoked).wire <= RevokeDevice(st).wire
    ensures CloseAll(st, st.sockets).att == st.att && CloseAll(st, st.sockets).sockets == st.sockets
  {
    var closed := CloseAll(st, st.sockets);
    CloseAllQuiet(st, st.sockets);
    FailCallersQuiet(closed, false, Revoked);
    CloseLogsQuiet(FailCallers(closed, false, Revoked), st.sockets);
    RelayReconnects.CloseAllAtt(st, st.sockets);
    RelayReconnects.CloseSockets(st, st.sockets);
  }

  lemma RevokeClosesTab(st: State, tab: SocketId)
    requires tab in st.sockets && tab in st.att && st.att[tab].Logs?
    ensures Gained(st.wire, RevokeDevice(st).wire, Closed(tab))
  {
    var closed := CloseAll(st, st.sockets);
    var failed := FailCallers(closed, false, Revoked);
    RevokeGrows(st);
    RelayReconnects.FailCallersDoes(closed, false, Revoked, tab);
    CloseLogsCloses(failed, st.sockets, tab);
    GainedBefore(st.wire, failed.wire, RevokeDevice(st).wire, Closed(tab));
  }

  lemma RevokeResolves(st: State, s: SocketId, x: SocketId)
    requires s in st.sockets && s in st.att && st.att[s].Approval? && Route(st) == Some(x)
    ensures Gained(st.wire, RevokeDevice(st).wire, ApprovalResolved(x, st.att[s].id))
  {
    var closed := CloseAll(st, st.sockets);
    var failed := FailCallers(closed, false, Revoked);
    RevokeGrows(st);
    RouteKept(st, closed);
    FailCallersResolves(closed, s, x);
    GainedBefore(st.wire, closed.wire, failed.wire, ApprovalResolved(x, st.att[s].id));
    GainedLater(st.wire, failed.wire, RevokeDevice(st).wire, ApprovalResolved(x, st.att[s].id));
  }

  /** And it closes every log that is watched, and tells the machine that every question asked there is over. */
  lemma RevokeEndsTheRest(steps: seq<Step>, s: SocketId, x: SocketId)
    requires s in Run(steps).sockets && s in Run(steps).att
    ensures Run(steps).att[s].Logs? ==> Gained(Run(steps).wire, Run(steps + [Revoke]).wire, Closed(s))
    ensures Run(steps).att[s].Approval? && RoutedTo(Run(steps), x) ==>
      Gained(Run(steps).wire, Run(steps + [Revoke]).wire, ApprovalResolved(x, Run(steps).att[s].id))
  {
    var st := Run(steps);
    RelayLogs.RunSnoc(steps, Revoke);
    if st.att[s].Logs? { RevokeClosesTab(st, s); }
    if st.att[s].Approval? && RoutedTo(st, x) {
      RouteIs(st, x);
      RevokeResolves(st, s, x);
    }
  }

  lemma {:induction false} FailEachSparesApprovals(st: State, list: seq<SocketId>, role: Role, only: bool, reason: Reason)
    ensures forall s :: s in st.att && st.att[s].Approval? ==>
      s in FailEach(st, list, role, only, reason).att && FailEach(st, list, role, only, reason).att[s] == st.att[s]
    decreases |list|
  {
    if list != [] {
      var s := list[0];
      FailEachSparesApprovals(
        if s in st.att && st.att[s].Caller? && st.att[s].role == role && (only ==> st.att[s].issuedAt.Some?)
        then Settle(st, s, Fault(LocalExecutorOffline, reason), true) else st, list[1..], role, only, reason);
    }
  }

  lemma GainedBefore(a: seq<Event>, b: seq<Event>, c: seq<Event>, e: Event)
    requires a <= b && Gained(b, c, e)
    ensures Gained(a, c, e)
  {
    var i :| |b| <= i < |c| && c[i] == e;
  }

  lemma FailCallersResolves(st: State, s: SocketId, x: SocketId)
    requires Route(st) == Some(x) && s in st.sockets && s in st.att && st.att[s].Approval?
    ensures Gained(st.wire, FailCallers(st, false, Revoked).wire, ApprovalResolved(x, st.att[s].id))
  {
    var tools := FailEach(st, st.sockets, Tool, false, Revoked);
    var calls := FailEach(tools, st.sockets, Workspace, false, Revoked);
    FailEachKeepsRoute(st, st.sockets, Tool, false, Revoked);
    FailEachKeepsRoute(tools, st.sockets, Workspace, false, Revoked);
    FailEachSparesApprovals(st, st.sockets, Tool, false, Revoked);
    FailEachSparesApprovals(tools, st.sockets, Workspace, false, Revoked);
    FailEachQuiet(st, st.sockets, Tool, false, Revoked);
    FailEachQuiet(tools, st.sockets, Workspace, false, Revoked);
    FailApprovalsResolves(calls, st.sockets, x, s);
    GainedBefore(st.wire, calls.wire, FailCallers(st, false, Revoked).wire, ApprovalResolved(x, st.att[s].id));
  }

  /** An executor of a protocol the relay does not speak is sent away, and nothing else changes. */
  lemma UnsupportedIsSentAway(steps: seq<Step>, x: SocketId, protocol: int, deviceId: string, caps: Option<Capabilities>)
    requires x in Run(steps).sockets && x in Run(steps).att && Run(steps).att[x].Executor? && protocol != 1
    ensures Run(steps + [Hello(x, protocol, deviceId, caps)]) == Run(steps).(wire := Run(steps).wire + [ShutDown(x), Closed(x)])
  {
    var st := Run(steps);
    RelayLogs.RunSnoc(steps, Hello(x, protocol, deviceId, caps));
    assert st.wire + [ShutDown(x)] + [Closed(x)] == st.wire + [ShutDown(x), Closed(x)];
  }

  lemma {:induction false} RetireShuts(st: State, list: seq<SocketId>, current: SocketId, x: SocketId)
    requires x in list && x != current && IsExecutor(st, x)
    ensures Gained(st.wire, Retire(st, list, current).wire, ShutDown(x))
    decreases |list|
  {
    var s := list[0];
    var next := if s != current && s in st.att && st.att[s].Executor?
      then Emit(Emit(Put(st, s, st.att[s].(active := Some(false))), ShutDown(s)), Closed(s)) else st;
    RetireQuiet(next, list[1..], current);
    if s == x {
      assert Retire(st, list, current).wire[|st.wire|] == ShutDown(x);
    } else {
      RetireShuts(next, list[1..], current, x);
    }
  }

  /** A hello the relay understands is remembered with what it announced, is greeted, and shuts every other executor down. */
  lemma HelloIsRemembered(steps: seq<Step>, x: SocketId, deviceId: string, caps: Option<Capabilities>)
    requires x in Run(steps).sockets && x in Run(steps).att && Run(steps).att[x].Executor?
    ensures
      var st, after := Run(steps), Run(steps + [Hello(x, 1, deviceId, caps)]);
      && x in after.att
      && after.att[x] == Executor(if st.att[x].deviceId != "" then st.att[x].deviceId else deviceId, Some(true), caps)
      && |after.wire| > 0 && after.wire[|after.wire| - 1] == Greeted(x)
      && forall y :: y in st.sockets && y in st.att && st.att[y].Executor? && y != x ==> Gained(st.wire, after.wire, ShutDown(y))
  {
    var st := Run(steps);
    RelayLogs.RunSnoc(steps, Hello(x, 1, deviceId, caps));
    forall y | y in st.sockets && y in st.att && st.att[y].Executor? && y != x
      ensures Gained(st.wire, Retire(st, st.sockets, x).wire, ShutDown(y))
    {
      RetireShuts(st, st.sockets, x, y);
    }
    var retired := Retire(st, st.sockets, x);
    var tools := FailEach(retired, st.sockets, Tool, true, Reconnected);
    FailEachQuiet(retired, st.sockets, Tool, true, Reconnected);
    FailEachQuiet(tools, st.sockets, Workspace, true, Reconnected);
    var after := Run(steps + [Hello(x, 1, deviceId, caps)]);
    assert retired.wire <= ReplaceOthers(st, x).wire <= after.wire;
    forall y | Gained(st.wire, retired.wire, ShutDown(y)) ensures Gained(st.wire, after.wire, ShutDown(y)) {
      GainedLater(st.wire, retired.wire, after.wire, ShutDown(y));
    }
  }
}
