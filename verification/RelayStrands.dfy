/**
 * Calls whose executor has gone: what is left to settle them, and the one order
 * of events in which nothing is.
 */
module RelayStrands {
  import opened Common
  import opened RelayModel
  import opened RelaySafety
  import opened RelayTheorems
  import opened RelayReconnects
  import RelayFaults
  import RelayLogs

  /** A step that settles whatever was sent down: a drop that is carried out, or a hello that replaces another executor. */
  predicate Settles(st: State, step: Step) {
    || (step.DropDone? && step.index < |st.drops|)
    || (step.Hello? && SaysHello(step, step.s) && AttachedExecutor(st, step.s) && OtherExecutor(st, step.s))
  }

  /** An attached caller whose call went down and is not answered. */
  predicate InFlight(st: State, c: SocketId) {
    c in st.sockets && c in st.att && st.att[c].Caller? && st.att[c].Open() && st.att[c].Dispatched()
  }

  predicate SentTo(wire: seq<Event>, x: SocketId, c: SocketId) {
    exists i :: 0 <= i < |wire| && wire[i].Called? && wire[i].executor == x && wire[i].caller == c
  }

  lemma SettlesAll(st: State, step: Step, c: SocketId)
    requires Settles(st, step) && InFlight(st, c)
    ensures !InFlight(Next(st, step), c)
  {
    if step.DropDone? {
      DropStrandsNobody(st, step.index, c);
    } else {
      HelloStrandsNobody(st, step.s, step.protocol, step.deviceId, step.capabilities, c);
    }
  }

  // ------------------------------------------------------------ pending drops

  lemma ResumeDrops(st: State, step: Step)
    requires step.Resume?
    ensures Next(st, step).drops == st.drops
  {
  }

  /** Only a drop that is carried out is not pending any more. */
  lemma DropsStay(st: State, step: Step)
    requires !step.DropDone?
    ensures |Next(st, step).drops| >= |st.drops|
  {
    match step
    case Hello(s, _, _, _) => RelayLogs.ReplaceWaits(st, s);
    case Resume(_, _, _, _) => ResumeDrops(st, step);
    case Revoke =>
      RelayLogs.CloseWaits(st, st.sockets);
      RelayLogs.CallersWait(CloseAll(st, st.sockets), false, Revoked);
      RelayLogs.CloseWaits(FailCallers(CloseAll(st, st.sockets), false, Revoked), st.sockets);
    case _ => PlainDrops(st, step);
  }

  lemma PlainDrops(st: State, step: Step)
    requires !step.DropDone? && !step.Hello? && !step.Resume? && !step.Revoke?
    ensures |Next(st, step).drops| >= |st.drops|
  {
  }

  // ----------------------------------------------------- how a call got there

  predicate Unsent(st: State, c: SocketId) {
    c in st.att && st.att[c].Caller? ==> !st.att[c].Dispatched()
  }

  /** A dispatch that leaves its caller waiting has sent its call to the executor of that moment. */
  lemma DispatchSends(st: State, s: SocketId, m: Start, now: int, delivers: bool, c: SocketId)
    requires s in st.att && st.att[s].Caller? && st.att[s].Open() && Unsent(st, c)
    ensures
      var after := Dispatch(st, s, m, now, delivers);
      InFlight(after, c) && c in st.att ==>
        Route(st).Some? && Route(st).value in after.sockets && SentTo(after.wire, Route(st).value, c)
  {
    if Sendable(st, s, m, now) && delivers {
      SentLater(st, s, m, now);
      DispatchSpares(st, s, m, now, delivers, c);
      var after := Dispatch(st, s, m, now, delivers);
      if c == s { assert after.wire[|st.wire|].Called?; }
    } else if c in st.att {
      NotSent(st, s, m, now, delivers, c);
    }
  }

  lemma NotSent(st: State, s: SocketId, m: Start, now: int, delivers: bool, c: SocketId)
    requires s in st.att && st.att[s].Caller? && st.att[s].Open() && Unsent(st, c) && c in st.att
    requires !(Sendable(st, s, m, now) && delivers)
    ensures !InFlight(Dispatch(st, s, m, now, delivers), c)
  {
    DispatchSpares(st, s, m, now, delivers, c);
  }

  lemma ResumeSends(st: State, step: Step, c: SocketId)
    requires step.Resume? && Unsent(st, c) && InFlight(Next(st, step), c)
    ensures exists x :: x in Next(st, step).sockets && SentTo(Next(st, step).wire, x, c)
  {
    assert step.index < |st.waiting|;
    var w := st.waiting[step.index];
    var st1 := st.(waiting := RemoveAt(st.waiting, step.index));
    if step.wake.Awake? && w.socket in st.att && st.att[w.socket].Caller? && st.att[w.socket].Open() {
      DispatchSends(st1, w.socket, w.message, step.now, step.delivers, c);
    } else {
      AskSends(st1, w.socket, w.message, step.wake, step.now, step.delivers, c);
    }
  }

  lemma AskSends(st: State, s: SocketId, m: Start, wake: Wake, now: int, delivers: bool, c: SocketId)
    requires !(wake.Awake? && s in st.att && st.att[s].Caller? && st.att[s].Open()) && Unsent(st, c)
    ensures Unsent(ResumeStart(st, s, m, wake, now, delivers), c)
  {
  }

  lemma OthersSend(st: State, step: Step, c: SocketId)
    requires !step.Resume? && Unsent(st, c)
    ensures Unsent(Next(st, step), c)
  {
    match step
    case Hello(s, _, _, _) => RelayFaults.ReplaceFails(st, s);
    case DropDone(i) =>
      if i < |st.drops| { RelayFaults.FailCallersFails(st.(drops := RemoveAt(st.drops, i)), true, DropReason(st.drops[i])); }
    case Revoke => RelayFaults.RevokeFails(st);
    case _ => PlainSends(st, step, c);
  }

  lemma PlainSends(st: State, step: Step, c: SocketId)
    requires !step.Resume? && !step.Hello? && !step.DropDone? && !step.Revoke? && Unsent(st, c)
    ensures Unsent(Next(st, step), c)
  {
    match step
    case Decide(id, approved, now) => DecideSends(st, id, if approved then Approved else Declined, now, c);
    case ResultFrame(_, role, id, v) => AnswerSends(st, role, id, if role == Tool then ToolResult(v) else WorkspaceResult(v), c);
    case UnreadableFrame(_, role, id) => AnswerSends(st, role, id, Fault(InternalError, Unreadable), c);
    case _ =>
  }

  lemma DecideSends(st: State, id: string, decision: Decision, now: int, c: SocketId)
    requires Unsent(st, c)
    ensures Unsent(SettleApproval(st, id, decision, now), c)
  {
  }

  lemma AnswerSends(st: State, role: Role, id: string, response: Response, c: SocketId)
    requires Unsent(st, c)
    ensures Unsent(AnswerCaller(st, role, id, response), c)
  {
  }

  // -------------------------------------------------------------- over a run

  lemma SocketsMove(st: State, step: Step, x: SocketId)
    ensures x in Next(st, step).sockets ==> x in st.sockets || (step.Connect? && step.s == x && x !in st.att)
    ensures x in st.sockets && x !in Next(st, step).sockets ==> step.Leave? && step.s == x
  {
    match step
    case Hello(s, _, _, _) => ReplaceSockets(st, s);
    case DropDone(i) => if i < |st.drops| { SocketsStay(st.(drops := RemoveAt(st.drops, i)), true, DropReason(st.drops[i])); }
    case Revoke => RevokeSockets(st);
    case Resume(_, _, _, _) => ResumeSockets(st, step);
    case _ => PlainSockets(st, step, x);
  }

  lemma ResumeSockets(st: State, step: Step)
    requires step.Resume?
    ensures Next(st, step).sockets == st.sockets
  {
  }

  lemma PlainSockets(st: State, step: Step, x: SocketId)
    requires !step.Hello? && !step.DropDone? && !step.Revoke? && !step.Resume?
    ensures x in Next(st, step).sockets ==> x in st.sockets || (step.Connect? && step.s == x && x !in st.att)
    ensures x in st.sockets && x !in Next(st, step).sockets ==> step.Leave? && step.s == x
  {
  }

  /** Where a call in flight stands: its executor is attached, or left, with nothing since that would have settled the call. */
  ghost predicate Accounted(steps: seq<Step>, c: SocketId, x: SocketId, k: nat) {
    && SentTo(Run(steps).wire, x, c)
    && (x !in Run(steps).sockets ==>
          && k < |steps| && steps[k].Leave? && steps[k].s == x && x in Run(steps[..k]).sockets
          && (forall m :: k < m < |steps| ==> !Settles(Run(steps[..m]), steps[m]))
          && (|Run(steps).drops| > 0 || HasOther(Run(steps[..k]), x)))
  }

  lemma Earlier(steps: seq<Step>, step: Step, m: nat)
    requires m <= |steps|
    ensures Run((steps + [step])[..m]) == Run(steps[..m])
  {
    assert (steps + [step])[..m] == steps[..m];
  }

  lemma AccountedOn(before: seq<Step>, step: Step, c: SocketId, x: SocketId, k: nat) returns (k1: nat)
    requires Accounted(before, c, x, k) && InFlight(Run(before), c) && InFlight(Next(Run(before), step), c)
    requires IsExecutor(Run(before), x)
    ensures Accounted(before + [step], c, x, k1)
  {
    var st, after := Run(before), Next(Run(before), step);
    var steps := before + [step];
    RelayLogs.RunSnoc(before, step);
    NextLater(st, step);
    SocketsMove(st, step, x);
    assert SentTo(after.wire, x, c) by {
      var i :| 0 <= i < |st.wire| && st.wire[i].Called? && st.wire[i].executor == x && st.wire[i].caller == c;
      assert after.wire[i] == st.wire[i];
    }
    if Settles(st, step) {
      SettlesAll(st, step, c);
    }
    if x in st.sockets {
      k1 := |before|;
      if x !in after.sockets {
        assert steps[..k1] == before;
        LeavingDrops(st, step);
      }
    } else {
      k1 := k;
      forall m | k1 < m < |steps| ensures !Settles(Run(steps[..m]), steps[m]) {
        Earlier(before, step, m);
        if m == |before| { assert before[..m] == before; } else { assert steps[m] == before[m]; }
      }
      Earlier(before, step, k1);
      if !step.DropDone? { DropsStay(st, step); }
    }
  }

  lemma LeavingDrops(st: State, step: Step)
    requires step.Leave? && step.s in st.sockets && IsExecutor(st, step.s)
    ensures |Next(st, step).drops| > 0 || HasOther(st, step.s)
  {
  }

  lemma SenderIsExecutor(steps: seq<Step>, x: SocketId, c: SocketId)
    requires SentTo(Run(steps).wire, x, c)
    ensures IsExecutor(Run(steps), x)
  {
    var i :| 0 <= i < |Run(steps).wire| && Run(steps).wire[i].Called? && Run(steps).wire[i].executor == x && Run(steps).wire[i].caller == c;
    var k := EveryEventJustified(steps, i);
    RunLater(steps, k);
  }

  /**
   * Over every run, a call in flight was sent to an executor that is still there,
   * or that executor has left, nothing that settles calls has happened since, and
   * a drop that will is pending, unless it left another routable executor behind.
   */
  lemma {:induction false} CallsInFlight(steps: seq<Step>, c: SocketId) returns (x: SocketId, k: nat)
    requires InFlight(Run(steps), c)
    ensures Accounted(steps, c, x, k)
    decreases |steps|
  {
    assert steps != [];
    var before, step := steps[..|steps| - 1], steps[|steps| - 1];
    var st := Run(before);
    assert steps == before + [step];
    RunKeeps(before);
    SocketsMove(st, step, c);
    NextLater(st, step);
    if InFlight(st, c) {
      x, k := CallsInFlight(before, c);
      SenderIsExecutor(before, x, c);
      k := AccountedOn(before, step, c, x, k);
    } else {
      if !step.Resume? { OthersSend(st, step, c); }
      ResumeSends(st, step, c);
      k := 0;
      x :| x in Run(steps).sockets && SentTo(Run(steps).wire, x, c);
    }
  }

  /** A call in flight whose executor has gone, with no drop pending: nothing is left that would settle it but its own end. */
  predicate Stranded(st: State, c: SocketId, x: SocketId) {
    InFlight(st, c) && SentTo(st.wire, x, c) && x !in st.sockets && st.drops == []
  }

  /** A step at which an executor leaves another routable one behind. */
  ghost predicate Swaps(steps: seq<Step>, k: nat, x: SocketId)
    requires k < |steps|
  {
    steps[k].Leave? && steps[k].s == x && x in Run(steps[..k]).sockets && HasOther(Run(steps[..k]), x)
  }

  /** A call is stranded only by an executor that left another routable one behind, which was neither dropped nor has replaced it since. */
  lemma StrandedBySwap(steps: seq<Step>, c: SocketId, x: SocketId) returns (k: nat)
    requires Stranded(Run(steps), c, x)
    ensures k < |steps| && Swaps(steps, k, x)
    ensures forall m :: k < m < |steps| ==> !Settles(Run(steps[..m]), steps[m])
  {
    var y, k0 := CallsInFlight(steps, c);
    OneSender(steps, x, y, c);
    k := k0;
  }

  /** A socket that left does not come back. */
  lemma {:induction false} GoneStays(steps: seq<Step>, k: nat, x: SocketId)
    requires k < |steps| && steps[k].Leave? && steps[k].s == x && x in Run(steps[..k]).sockets
    ensures x in Run(steps).att && x !in Run(steps).sockets
    decreases |steps|
  {
    var before, step := steps[..|steps| - 1], steps[|steps| - 1];
    var st := Run(before);
    RunKeeps(before);
    NextLater(st, step);
    if k == |before| {
      LeavingGoes(st, step);
    } else {
      assert before[..k] == steps[..k];
      GoneStays(before, k, x);
      SocketsMove(st, step, x);
    }
  }

  lemma LeavingGoes(st: State, step: Step)
    requires step.Leave? && step.s in st.sockets && step.s in st.att
    ensures step.s !in Next(st, step).sockets
  {
  }

  /**
   * Over every run, a call in flight for which no drop is pending is stranded exactly
   * when the executor it was sent to left, at a step that left another routable one
   * behind.
   */
  lemma StrandedExactly(steps: seq<Step>, c: SocketId, x: SocketId)
    requires InFlight(Run(steps), c) && SentTo(Run(steps).wire, x, c) && Run(steps).drops == []
    ensures Stranded(Run(steps), c, x) <==> exists k :: 0 <= k < |steps| && Swaps(steps, k, x)
  {
    if Stranded(Run(steps), c, x) {
      var k := StrandedBySwap(steps, c, x);
      assert Swaps(steps, k, x);
    }
    if k :| 0 <= k < |steps| && Swaps(steps, k, x) { GoneStays(steps, k, x); }
  }

  /** A caller's call went to one executor. */
  lemma OneSender(steps: seq<Step>, x: SocketId, y: SocketId, c: SocketId)
    requires SentTo(Run(steps).wire, x, c) && SentTo(Run(steps).wire, y, c)
    ensures x == y
  {
    var wire := Run(steps).wire;
    var i :| 0 <= i < |wire| && wire[i].Called? && wire[i].executor == x && wire[i].caller == c;
    var j :| 0 <= j < |wire| && wire[j].Called? && wire[j].executor == y && wire[j].caller == c;
    AtMostOnce(steps, c);
  }

  // ----------------------------------------------------------------- the run

  lemma SwapStrands(st: State, x: SocketId, c: SocketId, y: SocketId)
    requires st.sockets == [x, c, y] && x != y && y != c && x != c && {x, y, c} <= st.att.Keys
    requires IsExecutor(st, x) && IsExecutor(st, y) && st.att[y].active.None?
    requires InFlight(st, c)
    ensures
      var gone := Next(st, Leave(x, false));
      var after := Next(gone, Hello(y, 1, "", None));
      && gone.drops == st.drops && after.drops == st.drops && st.wire <= after.wire
      && after.sockets == [c, y] && c in after.att && after.att[c] == st.att[c]
      && y in after.att && after.att[y].active == Some(true)
  {
    var gone := Next(st, Leave(x, false));
    assert y in st.sockets && st.att[y].Routable();
    assert HasOther(st, x);
    var rest := st.sockets[1..];
    assert rest == [c, y] && rest[1..] == [y] && [y][1..] == [];
    assert Without(st.sockets, x) == Without(rest, x);
    assert Without(rest, x) == [c] + Without([y], x);
    assert Without([y], x) == [y];
    assert gone.sockets == [c, y];
    assert gone.sockets[1..] == [y];
    assert !OtherExecutor(gone, y);
    assert Retire(gone, [y], y) == gone by { assert [y][1..] == []; }
    assert Retire(gone, gone.sockets, y) == gone;
  }

  const Newcomer := Executor("d", None, None)

  /** A call goes down to the one socket of a machine. */
  function Sending(): seq<Step> {
    [Connect(1, Newcomer), Hello(1, 1, "d", None), Connect(2, Caller(Tool, "a", false, None, None))]
    + [StartFrame(2, RelayLogs.Call)] + [Resume(0, Awake, 1, true)]
  }

  /** Then another socket of the machine connects, the first one leaves, and the other says hello. */
  function Swapping(): seq<Step> {
    Sending() + [Connect(3, Newcomer)] + [Leave(1, false)] + [Hello(3, 1, "", None)]
  }

  lemma SendingSends()
    ensures
      var st := Run(Sending());
      && st.sockets == [1, 2] && st.att == RelayLogs.Begin().att[2 := RelayLogs.Sent] && st.drops == []
      && |st.wire| == 3 && st.wire[1] == Called(1, 2, true, 1, 100)
  {
    var s3 := [Connect(1, Newcomer), Hello(1, 1, "d", None), Connect(2, Caller(Tool, "a", false, None, None))];
    var s4 := s3 + [StartFrame(2, RelayLogs.Call)];
    RelayLogs.Beginning();
    RelayLogs.RunSnoc(s3, StartFrame(2, RelayLogs.Call));
    assert Run(s4) == RelayLogs.Begin().(waiting := [Waiting(2, RelayLogs.Call)]);
    RelayLogs.RunSnoc(s4, Resume(0, Awake, 1, true));
    RelayLogs.SendFromBegin(Run(s4), true);
  }

  lemma SwapFrom(st: State)
    requires st.sockets == [1, 2] && st.att == RelayLogs.Begin().att[2 := RelayLogs.Sent] && st.drops == []
    requires |st.wire| == 3 && st.wire[1] == Called(1, 2, true, 1, 100)
    ensures Stranded(Next(Next(Next(st, Connect(3, Newcomer)), Leave(1, false)), Hello(3, 1, "", None)), 2, 1)
  {
    ThreeSockets(st);
    var three := Next(st, Connect(3, Newcomer));
    SwapStrands(three, 1, 2, 3);
    var after := Next(Next(three, Leave(1, false)), Hello(3, 1, "", None));
    assert after.sockets[0] == 2;
    assert after.wire[1] == three.wire[1];
  }

  /** A run that strands a call: nothing is failed when its executor leaves, and the newcomer's hello finds nobody to replace. */
  lemma SwapCanStrand()
    ensures Stranded(Run(Swapping()), 2, 1)
  {
    SendingSends();
    SwapFrom(Run(Sending()));
    RelayLogs.RunSnoc(Sending(), Connect(3, Newcomer));
    RelayLogs.RunSnoc(Sending() + [Connect(3, Newcomer)], Leave(1, false));
    RelayLogs.RunSnoc(Sending() + [Connect(3, Newcomer)] + [Leave(1, false)], Hello(3, 1, "", None));
  }

  lemma ThreeSockets(st: State)
    requires st.sockets == [1, 2] && st.att == RelayLogs.Begin().att[2 := RelayLogs.Sent] && st.drops == []
    requires |st.wire| == 3 && st.wire[1] == Called(1, 2, true, 1, 100)
    ensures
      var after := Next(st, Connect(3, Newcomer));
      && after.sockets == [1, 2, 3] && after.att == st.att[3 := Newcomer] && after.drops == [] && after.wire == st.wire
      && InFlight(after, 2) && SentTo(after.wire, 1, 2)
  {
    var after := Next(st, Connect(3, Newcomer));
    assert after.sockets[1] == 2;
    assert after.wire[1] == Called(1, 2, true, 1, 100);
  }
}
