/**
 * What a panel relay does when asked: a reply in time is the answer, a command that
 * nothing refuses is sent, a cancellation calls it off, a socket that goes fails what
 * waits for it, and a ticket in time lets in. Each is said of what a step of a run adds.
 */
module PanelDelivers {
  import opened Common
  import opened PanelModel
  import opened PanelSafety
  import opened PanelTheorems

  // -------------------------------------------------------------------- one entry

  /** The list without its k-th entry. */
  function Less(pending: seq<Entry>, k: nat): seq<Entry>
    requires k < |pending|
  {
    pending[..k] + pending[k + 1..]
  }

  lemma FirstIsUnique(pending: seq<Entry>)
    requires UniqueIds(pending) && pending != []
    ensures !Has(pending[1..], pending[0].id) && UniqueIds(pending[1..])
  {
    forall e | e in pending[1..] ensures e.id != pending[0].id {
      var j :| 0 <= j < |pending[1..]| && pending[1..][j] == e;
      assert pending[j + 1] == e;
    }
  }

  lemma {:induction false} DropIsLess(pending: seq<Entry>, k: nat)
    requires UniqueIds(pending) && k < |pending|
    ensures Drop(pending, pending[k].id) == Less(pending, k)
  {
    FirstIsUnique(pending);
    if k == 0 {
      DropNothing(pending[1..], pending[0].id);
    } else {
      assert pending[k].id != pending[0].id;
      DropIsLess(pending[1..], k - 1);
      assert Less(pending, k) == [pending[0]] + Less(pending[1..], k - 1);
    }
  }

  lemma FinishTakes(st: State, k: nat, outcome: Outcome, cancel: bool)
    requires UniqueIds(st.pending) && k < |st.pending|
    ensures
      var e := st.pending[k];
      Finish(st, e.id, outcome, cancel) == st.(
        pending := Less(st.pending, k), answers := st.answers + [Answer(e.call, outcome)],
        sent := if cancel then st.sent + [CancelFrame(e)] else st.sent)
  {
    GetIs(st.pending, st.pending[k]);
    DropIsLess(st.pending, k);
  }

  /**
   * Over every run: the panel's reply to a pending command is its answer, and nothing
   * more is sent, if it comes before the deadline; at the deadline or after it the
   * command timed out, and the panel is told to give it up.
   */
  lemma ReplyIsTheAnswer(ws: seq<World>, steps: seq<Step>, times: seq<int>, i: nat, k: nat, result: string)
    requires Behavior(ws, steps, times) && i < |steps| && k < |ws[i].st.pending|
    requires var e := ws[i].st.pending[k]; steps[i] == Reply(e.socket, e.id, e.generation, result)
    ensures
      var st := ws[i].st;
      var e := st.pending[k];
      var late := times[i] >= e.deadline;
      ws[i + 1].st == st.(
        pending := Less(st.pending, k),
        answers := st.answers + [Answer(e.call, if late then Failed(TimedOut) else Result(result))],
        sent := st.sent + if late then [CancelFrame(e)] else [])
  {
    var st := ws[i].st;
    var e := st.pending[k];
    BehaviorKeeps(ws, steps, times, i);
    PendingBelongsToTheActive(ws, steps, times, i);
    assert Moves(ws[i], steps[i], times[i], ws[i + 1]);
    assert e in st.pending;
    GetIs(st.pending, e);
    FinishTakes(st, k, Result(result), false);
    FinishTakes(st, k, Failed(TimedOut), true);
  }

  /** A reply to nothing that is pending on its socket under its id and generation changes nothing. */
  lemma StrayReplies(ws: seq<World>, steps: seq<Step>, times: seq<int>, i: nat)
    requires Behavior(ws, steps, times) && i < |steps| && steps[i].Reply?
    requires forall e :: e in ws[i].st.pending ==>
      !(e.id == steps[i].id && e.socket == steps[i].socket && e.generation == steps[i].generation)
    ensures ws[i + 1].st == ws[i].st
  {
    assert Moves(ws[i], steps[i], times[i], ws[i + 1]);
  }

  /** A pending command's timer gives it up from its deadline on, and does nothing before. */
  lemma TimersGiveUp(ws: seq<World>, steps: seq<Step>, times: seq<int>, i: nat, k: nat)
    requires Behavior(ws, steps, times) && i < |steps| && k < |ws[i].st.pending| && steps[i] == Timer(ws[i].st.pending[k].id)
    ensures
      var st := ws[i].st;
      var e := st.pending[k];
      ws[i + 1].st == if times[i] < e.deadline then st else st.(
        pending := Less(st.pending, k), answers := st.answers + [Answer(e.call, Failed(TimedOut))], sent := st.sent + [CancelFrame(e)])
  {
    BehaviorKeeps(ws, steps, times, i);
    assert Moves(ws[i], steps[i], times[i], ws[i + 1]);
    GetIs(ws[i].st.pending, ws[i].st.pending[k]);
    FinishTakes(ws[i].st, k, Failed(TimedOut), true);
  }

  // -------------------------------------------------------------------- commanding

  /** Whose panel it is at a moment. */
  predicate Owns(st: State, principal: Principal, now: int) {
    st.registration.Some? && st.registration.value.principal == principal && now < st.registration.value.expiresAt
  }

  predicate IsReady(st: State, s: Socket) {
    s in st.sockets && s in st.conns && st.conns[s].ready && st.active == Some(st.conns[s].generation)
  }

  /** Why a command is refused, first reason first; none if it is sent. */
  ghost function Refusal(st: State, principal: Principal, valid: bool, id: Id, now: int): Option<Failure> {
    if !Owns(st, principal, now) then Some(Forbidden)
    else if id in st.cancelled && now < st.cancelled[id] then Some(Cancelled)
    else if !valid then Some(Invalid)
    else if forall s :: !IsReady(st, s) then Some(Unavailable)
    else if |st.pending| >= 8 || exists e :: e in st.pending && e.id == id then Some(Busy)
    else None
  }

  lemma TargetIsReady(st: State)
    ensures Target(st).None? <==> forall s :: !IsReady(st, s)
    ensures Target(st).Some? ==> IsReady(st, Target(st).value)
  {
    if Target(st).Some? {
      assert IsReady(st, Target(st).value);
    } else {
      assert forall s :: s in st.sockets ==> !(OnActive(st, s) && st.conns[s].ready);
      assert forall s :: IsReady(st, s) ==> s in st.sockets && OnActive(st, s) && st.conns[s].ready;
    }
  }

  /** A refused command is answered, and nothing is sent. */
  ghost predicate Refuses(st: State, after: State, call: Call, failure: Failure) {
    && after == st.(cancelled := after.cancelled, answers := after.answers)
    && after.answers == st.answers + [Answer(call, Failed(failure))]
  }

  /** One that is not waits for its answer, or is given up where the socket throws. */
  ghost predicate Sends(st: State, after: State, e: Entry, throws: bool) {
    && IsReady(st, e.socket) && e.generation == st.conns[e.socket].generation
    && after == st.(cancelled := after.cancelled, pending := after.pending, answers := after.answers, sent := after.sent)
    && if throws
       then after.pending == st.pending && after.sent == st.sent + [CancelFrame(e)]
            && after.answers == st.answers + [Answer(e.call, Failed(Unavailable))]
       else after.pending == st.pending + [e] && after.sent == st.sent + [CommandFrame(e)] && after.answers == st.answers
  }

  ghost predicate Decided(st: State, after: State, call: Call, principal: Principal, valid: bool, id: Id, throws: bool, now: int) {
    var refusal := Refusal(st, principal, valid, id, now);
    && (refusal.Some? ==> Refuses(st, after, call, refusal.value))
    && (refusal.None? ==>
          exists s :: IsReady(st, s) && Sends(st, after, Entry(id, s, st.conns[s].generation, now + 12_000, call), throws))
  }

  /**
   * Over every run: a command that nothing refuses is sent to the panel's ready socket
   * and waits twelve seconds for its answer, or, if the socket throws, is answered and
   * called off at once; one that is refused is answered with the first reason, and
   * nothing is sent.
   */
  lemma CommandIsDecided(ws: seq<World>, steps: seq<Step>, times: seq<int>, i: nat)
    requires Behavior(ws, steps, times) && i < |steps| && steps[i].Command?
    ensures Decided(ws[i].st, ws[i + 1].st, steps[i].call, steps[i].principal, steps[i].valid, steps[i].id, steps[i].throws, times[i])
  {
    BehaviorKeeps(ws, steps, times, i);
    assert Moves(ws[i], steps[i], times[i], ws[i + 1]);
    CommandDecides(ws[i].st, steps[i].call, steps[i].principal, steps[i].valid, steps[i].id, steps[i].throws, times[i]);
  }

  lemma CommandDecides(st: State, call: Call, principal: Principal, valid: bool, id: Id, throws: bool, now: int)
    requires UniqueIds(st.pending)
    ensures Decided(st, RunCommand(st, call, principal, valid, id, throws, now), call, principal, valid, id, throws, now)
  {
    if Refusal(st, principal, valid, id, now).Some? {
      CommandRefuses(st, call, principal, valid, id, throws, now);
    } else {
      var s := CommandSends(st, call, principal, valid, id, throws, now);
    }
  }

  lemma PrunedIsReady(st: State, now: int)
    ensures
      var pruned := st.(cancelled := Pruned(st.cancelled, now));
      && (Target(pruned).None? <==> forall s :: !IsReady(st, s))
      && (Target(pruned).Some? ==> IsReady(st, Target(pruned).value))
  {
    var pruned := st.(cancelled := Pruned(st.cancelled, now));
    TargetIsReady(pruned);
    assert forall s :: IsReady(pruned, s) <==> IsReady(st, s);
  }

  lemma CommandRefuses(st: State, call: Call, principal: Principal, valid: bool, id: Id, throws: bool, now: int)
    requires Refusal(st, principal, valid, id, now).Some?
    ensures Refuses(st, RunCommand(st, call, principal, valid, id, throws, now), call, Refusal(st, principal, valid, id, now).value)
  {
    PrunedIsReady(st, now);
  }

  lemma CommandSends(st: State, call: Call, principal: Principal, valid: bool, id: Id, throws: bool, now: int) returns (s: Socket)
    requires Refusal(st, principal, valid, id, now).None? && UniqueIds(st.pending)
    ensures IsReady(st, s)
    ensures Sends(st, RunCommand(st, call, principal, valid, id, throws, now), Entry(id, s, st.conns[s].generation, now + 12_000, call), throws)
  {
    var pruned := st.(cancelled := Pruned(st.cancelled, now));
    PrunedIsReady(st, now);
    s := Target(pruned).value;
    DispatchSends(pruned, call, id, s, throws, now);
  }

  lemma DispatchSends(st: State, call: Call, id: Id, s: Socket, throws: bool, now: int)
    requires s in st.conns && UniqueIds(st.pending) && !Has(st.pending, id)
    ensures
      var e := Entry(id, s, st.conns[s].generation, now + 12_000, call);
      Dispatch(st, call, id, s, throws, now) ==
      if throws then st.(sent := st.sent + [CancelFrame(e)], answers := st.answers + [Answer(call, Failed(Unavailable))])
      else st.(pending := st.pending + [e], sent := st.sent + [CommandFrame(e)])
  {
    var e := Entry(id, s, st.conns[s].generation, now + COMMAND_TIMEOUT, call);
    var queued := st.(pending := st.pending + [e]);
    assert UniqueIds(queued.pending) by { assert forall f :: f in st.pending ==> f.id != id; }
    FinishTakes(queued, |st.pending|, Failed(Unavailable), true);
    assert Less(queued.pending, |st.pending|) == st.pending;
  }

  /** The owner's cancellation of a pending command is its answer, and the panel is told; anybody else's changes nothing. */
  lemma CancelCallsOff(ws: seq<World>, steps: seq<Step>, times: seq<int>, i: nat, k: nat)
    requires Behavior(ws, steps, times) && i < |steps| && k < |ws[i].st.pending|
    requires steps[i].Cancel? && steps[i].id == ws[i].st.pending[k].id
    ensures
      var st, after := ws[i].st, ws[i + 1].st;
      var e := st.pending[k];
      if Owns(st, steps[i].principal, times[i])
      then after == st.(cancelled := after.cancelled, pending := Less(st.pending, k),
                        answers := st.answers + [Answer(e.call, Failed(Cancelled))], sent := st.sent + [CancelFrame(e)])
      else after == st
  {
    var st, now := ws[i].st, times[i];
    BehaviorKeeps(ws, steps, times, i);
    assert Moves(ws[i], steps[i], times[i], ws[i + 1]);
    var noted := if |st.cancelled| < MAX_CANCELLED then st.(cancelled := st.cancelled[steps[i].id := now + COMMAND_TIMEOUT]) else st;
    FinishTakes(noted, k, Failed(Cancelled), true);
  }

  // -------------------------------------------------------------- sockets that go

  function AllFailed(pending: seq<Entry>, failure: Failure): seq<Answer> {
    seq(|pending|, i requires 0 <= i < |pending| => Answer(pending[i].call, Failed(failure)))
  }

  function AllCalledOff(pending: seq<Entry>): seq<Frame> {
    seq(|pending|, i requires 0 <= i < |pending| => CancelFrame(pending[i]))
  }

  lemma AllFailedFrom(answers: seq<Answer>, sent: seq<Frame>, pending: seq<Entry>, failure: Failure)
    requires pending != []
    ensures answers + AllFailed(pending, failure) == answers + [Answer(pending[0].call, Failed(failure))] + AllFailed(pending[1..], failure)
    ensures sent + AllCalledOff(pending) == sent + [CancelFrame(pending[0])] + AllCalledOff(pending[1..])
  {
  }

  lemma FailOne(st: State, s: Socket, failure: Failure)
    requires UniqueIds(st.pending) && st.pending != [] && st.pending[0].socket == s
    ensures
      var e := st.pending[0];
      var next := st.(pending := st.pending[1..], answers := st.answers + [Answer(e.call, Failed(failure))], sent := st.sent + [CancelFrame(e)]);
      FailEntries(st, st.pending, s, failure) == FailEntries(next, next.pending, s, failure) && UniqueIds(next.pending)
  {
    FinishTakes(st, 0, Failed(failure), true);
    assert Less(st.pending, 0) == st.pending[1..];
  }

  lemma {:induction false} FailEntriesFailsAll(st: State, s: Socket, failure: Failure)
    requires UniqueIds(st.pending) && forall e :: e in st.pending ==> e.socket == s
    ensures
      FailEntries(st, st.pending, s, failure) == st.(
        pending := [], answers := st.answers + AllFailed(st.pending, failure), sent := st.sent + AllCalledOff(st.pending))
    decreases |st.pending|
  {
    if st.pending == [] {
      assert AllFailed(st.pending, failure) == [] && AllCalledOff(st.pending) == [];
    } else {
      var e := st.pending[0];
      FailOne(st, s, failure);
      FailEntriesFailsAll(
        st.(pending := st.pending[1..], answers := st.answers + [Answer(e.call, Failed(failure))], sent := st.sent + [CancelFrame(e)]), s, failure);
      AllFailedFrom(st.answers, st.sent, st.pending, failure);
    }
  }

  lemma {:induction false} FailEntriesSpares(st: State, entries: seq<Entry>, s: Socket, failure: Failure)
    requires forall e :: e in entries ==> e.socket != s
    ensures FailEntries(st, entries, s, failure) == st
    decreases |entries|
  {
    if entries != [] { FailEntriesSpares(st, entries[1..], s, failure); }
  }

  /** The reason a step gives for failing what waits on a socket, if it does. */
  ghost function GivesUpOn(st: State, step: Step, s: Socket): Option<Failure> {
    var active := s in st.conns && st.active == Some(st.conns[s].generation);
    match step
    case Close(t) => if t == s && s in st.sockets then Some(Unavailable) else None
    case Error(t) => if t == s && s in st.sockets then Some(BadProtocol) else None
    case Garbage(t) => if t == s && s in st.conns then Some(BadProtocol) else None
    case Malformed(t) => if t == s && active then Some(BadProtocol) else None
    case Ready(t, supported) => if t == s && active && !supported then Some(BadProtocol) else None
    case _ => None
  }

  /**
   * Over every run: a socket that closes, fails or breaks the protocol fails everything
   * that waits on it, in order and with that reason, and calls each of it off; what waits
   * on another socket keeps waiting.
   */
  lemma LosingASocketFailsItsCommands(ws: seq<World>, steps: seq<Step>, times: seq<int>, i: nat, s: Socket)
    requires Behavior(ws, steps, times) && i < |steps| && GivesUpOn(ws[i].st, steps[i], s).Some?
    ensures
      var st, after := ws[i].st, ws[i + 1].st;
      var failure := GivesUpOn(st, steps[i], s).value;
      if exists e :: e in st.pending && e.socket == s
      then after.pending == [] && after.answers == st.answers + AllFailed(st.pending, failure)
           && after.sent == st.sent + AllCalledOff(st.pending)
      else after.pending == st.pending && after.answers == st.answers && after.sent == st.sent
  {
    BehaviorKeeps(ws, steps, times, i);
    PendingBelongsToTheActive(ws, steps, times, i);
    assert Moves(ws[i], steps[i], times[i], ws[i + 1]);
    GivesUpNext(ws[i].st, steps[i], times[i], s);
    FailingFails(ws[i].st, s, GivesUpOn(ws[i].st, steps[i], s).value);
  }

  lemma {:induction false} FailEntriesAside(st: State, entries: seq<Entry>, s: Socket, failure: Failure)
    ensures FailEntries(st, entries, s, failure).conns == st.conns && FailEntries(st, entries, s, failure).sockets == st.sockets
    decreases |entries|
  {
    if entries != [] {
      FailEntriesAside(if entries[0].socket == s then Finish(st, entries[0].id, Failed(failure), true) else st, entries[1..], s, failure);
    }
  }

  /** A socket that is gone, or is not ready any more; no other one changes. */
  ghost predicate Out(st: State, after: State, s: Socket, left: bool) {
    && (forall t :: t in after.sockets <==> t in st.sockets && !(left && t == s))
    && (forall t :: t in after.conns <==> t in st.conns && !(left && t == s))
    && forall t :: t in after.conns ==> after.conns[t] == Connection(st.conns[t].generation, t != s && st.conns[t].ready)
  }

  lemma GivenUpIsOut(st: State, step: Step, now: int, s: Socket)
    requires GivesUpOn(st, step, s).Some?
    ensures Out(st, Next(st, step, now), s, step.Close? || step.Error?)
  {
    var failure := GivesUpOn(st, step, s).value;
    FailEntriesAside(Unready(st, s), Unready(st, s).pending, s, failure);
    assert Out(st, FailSocket(Unready(st, s), s, failure), s, false);
  }

  /** Such a socket is gone, when it closed or failed, and else it is not ready any more; no other socket changes. */
  lemma TheLostAreOut(ws: seq<World>, steps: seq<Step>, times: seq<int>, i: nat, s: Socket)
    requires Behavior(ws, steps, times) && i < |steps| && GivesUpOn(ws[i].st, steps[i], s).Some?
    ensures Out(ws[i].st, ws[i + 1].st, s, steps[i].Close? || steps[i].Error?)
  {
    assert Moves(ws[i], steps[i], times[i], ws[i + 1]);
    GivenUpIsOut(ws[i].st, steps[i], times[i], s);
  }

  predicate SameBooks(a: State, b: State) {
    a.pending == b.pending && a.answers == b.answers && a.sent == b.sent
  }

  lemma GivesUpNext(st: State, step: Step, now: int, s: Socket)
    requires GivesUpOn(st, step, s).Some?
    ensures SameBooks(Next(st, step, now), FailSocket(Unready(st, s), s, GivesUpOn(st, step, s).value))
  {
  }

  /** A socket's commands are failed, or there are none. */
  lemma FailingFails(st: State, s: Socket, failure: Failure)
    requires UniqueIds(st.pending) && forall e, f :: e in st.pending && f in st.pending ==> e.socket == f.socket
    ensures
      var after := FailSocket(Unready(st, s), s, failure);
      if exists e :: e in st.pending && e.socket == s
      then after.pending == [] && after.answers == st.answers + AllFailed(st.pending, failure)
           && after.sent == st.sent + AllCalledOff(st.pending)
      else after.pending == st.pending && after.answers == st.answers && after.sent == st.sent
  {
    if exists e :: e in st.pending && e.socket == s {
      FailEntriesFailsAll(Unready(st, s), s, failure);
    } else {
      FailEntriesSpares(Unready(st, s), st.pending, s, failure);
    }
  }

  /** Everything that waits is failed with one reason and called off. */
  ghost predicate AllGivenUp(st: State, after: State, failure: Failure) {
    after.pending == [] && after.answers == st.answers + AllFailed(st.pending, failure) && after.sent == st.sent + AllCalledOff(st.pending)
  }

  /** Nothing waits any more: nothing more is failed. */
  lemma {:induction false} NothingWaits(st: State, sockets: seq<Socket>)
    requires st.pending == []
    ensures SameBooks(ReplaceAll(st, sockets), st) && SameBooks(FailAll(st, sockets), st)
    decreases |sockets|
  {
    if sockets != [] {
      FailEntriesSpares(Unready(st, sockets[0]), [], sockets[0], Reconnected);
      NothingWaits(FailSocket(Unready(st, sockets[0]), sockets[0], Reconnected), sockets[1..]);
      NothingWaits(FailSocket(st, sockets[0], Unavailable), sockets[1..]);
    }
  }

  lemma {:induction false} ReplaceAllGivesUp(st: State, sockets: seq<Socket>)
    requires UniqueIds(st.pending) && (forall e, f :: e in st.pending && f in st.pending ==> e.socket == f.socket)
    requires forall e :: e in st.pending ==> e.socket in sockets
    ensures AllGivenUp(st, ReplaceAll(st, sockets), Reconnected)
    decreases |sockets|
  {
    if st.pending == [] {
      NothingWaits(st, sockets);
    } else {
      assert st.pending[0] in st.pending;
      var s := sockets[0];
      var next := FailSocket(Unready(st, s), s, Reconnected);
      FailingFails(st, s, Reconnected);
      if st.pending[0].socket == s {
        NothingWaits(next, sockets[1..]);
      } else {
        ReplaceAllGivesUp(next, sockets[1..]);
      }
    }
  }

  lemma {:induction false} FailAllGivesUp(st: State, sockets: seq<Socket>)
    requires UniqueIds(st.pending) && (forall e, f :: e in st.pending && f in st.pending ==> e.socket == f.socket)
    requires forall e :: e in st.pending ==> e.socket in sockets
    ensures AllGivenUp(st, FailAll(st, sockets), Unavailable)
    decreases |sockets|
  {
    if st.pending == [] {
      NothingWaits(st, sockets);
    } else {
      assert st.pending[0] in st.pending;
      var s := sockets[0];
      if st.pending[0].socket == s {
        FailEntriesFailsAll(st, s, Unavailable);
        NothingWaits(FailSocket(st, s, Unavailable), sockets[1..]);
      } else {
        FailEntriesSpares(st, st.pending, s, Unavailable);
        FailAllGivesUp(st, sockets[1..]);
      }
    }
  }

  lemma {:induction false} LoseAllLoses(st: State, entries: seq<Entry>)
    ensures LoseAll(st, entries) == st.(answers := st.answers + AllFailed(entries, Lost))
    decreases |entries|
  {
    if entries == [] {
      assert AllFailed(entries, Lost) == [];
    } else {
      LoseAllLoses(Resolve(st, entries[0].call, Failed(Lost)), entries[1..]);
      AllFailedFrom(st.answers, [], entries, Lost);
    }
  }

  /**
   * Over every run: a panel that lets a new socket in, or whose registration an alarm
   * finds over, gives up everything that waits, calling it off; a restart loses it, and
   * there is nobody left to be told.
   */
  lemma EverythingIsGivenUp(ws: seq<World>, steps: seq<Step>, times: seq<int>, i: nat)
    requires Behavior(ws, steps, times) && i < |steps|
    ensures
      var st, after, now := ws[i].st, ws[i + 1].st, times[i];
      var registered := st.registration.Some? && now < st.registration.value.expiresAt;
      && (steps[i].Open? && registered && Fresh(st.tickets, steps[i].token, steps[i].origin, SocketTicket, now) ==>
            AllGivenUp(st, after, Reconnected))
      && (steps[i].Alarm? && !registered ==> AllGivenUp(st, after, Unavailable))
      && (steps[i].Restart? ==>
            after.pending == [] && after.answers == st.answers + AllFailed(st.pending, Lost) && after.sent == st.sent
            && after.active == st.stored)
  {
    var st := ws[i].st;
    BehaviorKeeps(ws, steps, times, i);
    PendingBelongsToTheActive(ws, steps, times, i);
    assert Moves(ws[i], steps[i], times[i], ws[i + 1]);
    if steps[i].Open? { ReplaceAllGivesUp(Consume(st, steps[i].token), st.sockets); }
    if steps[i].Alarm? { FailAllGivesUp(st, st.sockets); }
    if steps[i].Restart? { LoseAllLoses(st, st.pending); }
  }

  /** A panel that says it is ready is; until it does, no command is sent to it. */
  lemma ReadyIsNoted(ws: seq<World>, steps: seq<Step>, times: seq<int>, i: nat, s: Socket)
    requires Behavior(ws, steps, times) && i < |steps| && steps[i] == Ready(s, true)
    requires s in ws[i].st.conns && ws[i].st.active == Some(ws[i].st.conns[s].generation)
    ensures
      var st, after := ws[i].st, ws[i + 1].st;
      after == st.(conns := st.conns[s := Connection(st.conns[s].generation, true)])
  {
    assert Moves(ws[i], steps[i], times[i], ws[i + 1]);
  }

  // ----------------------------------------------------------------------- letting in

  predicate Fresh(tickets: map<Token, Ticket>, token: Token, origin: string, kind: Kind, now: int) {
    token in tickets && now < tickets[token].expiresAt && tickets[token].origin == origin && tickets[token].kind == kind
  }

  ghost function Standing(tickets: map<Token, Ticket>, now: int): map<Token, Ticket> {
    map k | k in tickets && now < tickets[k].expiresAt :: tickets[k]
  }

  /** The owner gets a ticket that is good for a minute, unless sixteen are out; those that ran out are dropped. */
  lemma TicketsAreGiven(ws: seq<World>, steps: seq<Step>, times: seq<int>, i: nat)
    requires Behavior(ws, steps, times) && i < |steps| && steps[i].IssueTicket?
    ensures
      var st, after, now := ws[i].st, ws[i + 1].st, times[i];
      var IssueTicket(principal, token, origin, kind) := steps[i];
      var out := Standing(st.tickets, now);
      if !Owns(st, principal, now) then after == st
      else if |out| >= 16 then after == st.(tickets := out)
      else after.tickets == out[token := Ticket(origin, now + 60_000, kind)]
  {
    assert Moves(ws[i], steps[i], times[i], ws[i + 1]);
    assert Unexpired(ws[i].st.tickets, times[i]) == Standing(ws[i].st.tickets, times[i]);
  }

  /** A pairing ticket in time is exchanged for a socket ticket; either way it is spent. */
  lemma PairingIsExchanged(ws: seq<World>, steps: seq<Step>, times: seq<int>, i: nat)
    requires Behavior(ws, steps, times) && i < |steps| && steps[i].ExchangePairing?
    ensures
      var st, after, now := ws[i].st, ws[i + 1].st, times[i];
      var ExchangePairing(userId, token, origin, minted) := steps[i];
      var out := Standing(st.tickets - {token}, now);
      if st.registration.None? || st.registration.value.expiresAt <= now || st.registration.value.principal.userId != userId then after == st
      else if !Fresh(st.tickets, token, origin, PairingTicket, now) then after == st.(tickets := st.tickets - {token})
      else if |out| >= 16 then after == st.(tickets := out)
      else after.tickets == out[minted := Ticket(origin, now + 60_000, SocketTicket)]
  {
    assert Moves(ws[i], steps[i], times[i], ws[i + 1]);
    assert Unexpired(ws[i].st.tickets - {steps[i].token}, times[i]) == Standing(ws[i].st.tickets - {steps[i].token}, times[i]);
  }

  /** Sending everybody away leaves the rest of the relay as it is. */
  lemma {:induction false} ReplaceAllLeaves(st: State, previous: seq<Socket>)
    requires UniqueIds(st.pending)
    ensures
      var after := ReplaceAll(st, previous);
      && after == st.(conns := after.conns, pending := after.pending, answers := after.answers, sent := after.sent)
      && after.conns.Keys == st.conns.Keys
      && forall t :: t in st.conns ==> after.conns[t] == if t in previous then st.conns[t].(ready := false) else st.conns[t]
    decreases |previous|
  {
    if previous != [] {
      var unready := Unready(st, previous[0]);
      FailSocketEases(unready, previous[0], Reconnected);
      FailEntriesAside(unready, unready.pending, previous[0], Reconnected);
      ReplaceAllLeaves(FailSocket(unready, previous[0], Reconnected), previous[1..]);
    }
  }

  /** A socket ticket in time makes its generation the panel's; any other lets nobody in. Either way it is spent. */
  lemma TicketsLetIn(ws: seq<World>, steps: seq<Step>, times: seq<int>, i: nat)
    requires Behavior(ws, steps, times) && i < |steps| && steps[i].Open?
    ensures
      var st, after, now := ws[i].st, ws[i + 1].st, times[i];
      var Open(token, origin, generation) := steps[i];
      if st.registration.None? || st.registration.value.expiresAt <= now then after == st
      else if !Fresh(st.tickets, token, origin, SocketTicket, now) then after == st.(tickets := st.tickets - {token})
      else after.active == Some(generation) && after.stored == Some(generation) && after.opening == st.opening + {generation}
           && after.tickets == st.tickets - {token} && after.sockets == st.sockets && after.registration == st.registration
           && forall s :: s in st.sockets && s in st.conns ==> s in after.conns && after.conns[s] == Connection(st.conns[s].generation, false)
  {
    BehaviorKeeps(ws, steps, times, i);
    assert Moves(ws[i], steps[i], times[i], ws[i + 1]);
    ReplaceAllLeaves(Consume(ws[i].st, steps[i].token), ws[i].st.sockets);
  }

  /** The socket that was let in is attached with its generation, and not ready. */
  lemma TheLetInAreSeated(ws: seq<World>, steps: seq<Step>, times: seq<int>, i: nat)
    requires Behavior(ws, steps, times) && i < |steps| && steps[i].Seat?
    requires steps[i].generation in ws[i].st.opening && steps[i].socket !in ws[i].st.sockets
    ensures
      var st, s := ws[i].st, steps[i].socket;
      ws[i + 1].st == st.(sockets := st.sockets + [s], conns := st.conns[s := Connection(steps[i].generation, false)],
                          opening := st.opening - {steps[i].generation})
  {
    assert Moves(ws[i], steps[i], times[i], ws[i + 1]);
  }

  /** The first to register owns the panel for a day; nobody after it does until then. */
  lemma TheFirstOwns(ws: seq<World>, steps: seq<Step>, times: seq<int>, i: nat)
    requires Behavior(ws, steps, times) && i < |steps| && steps[i].Register?
    ensures
      var st, after := ws[i].st, ws[i + 1].st;
      if st.registration.Some? then after == st
      else after.registration == Some(Registration(steps[i].principal, times[i] + 24 * 60 * 60 * 1000))
  {
    assert Moves(ws[i], steps[i], times[i], ws[i + 1]);
  }

  /** The alarm is at the first end of what is left: the registration's or a ticket's. */
  ghost predicate EndsNext(st: State)
    requires st.registration.Some?
  {
    && st.alarm.Some? && st.alarm.value <= st.registration.value.expiresAt
    && (forall k :: k in st.tickets ==> st.alarm.value <= st.tickets[k].expiresAt)
    && (st.alarm.value == st.registration.value.expiresAt || exists k :: k in st.tickets && st.alarm.value == st.tickets[k].expiresAt)
  }

  /** An alarm within the registration drops exactly the tickets that ran out and sets the next; after it, the registration and every ticket go. */
  lemma AlarmsTidy(ws: seq<World>, steps: seq<Step>, times: seq<int>, i: nat)
    requires Behavior(ws, steps, times) && i < |steps| && steps[i].Alarm?
    ensures
      var st, after, now := ws[i].st, ws[i + 1].st, times[i];
      if st.registration.Some? && now < st.registration.value.expiresAt
      then after == st.(tickets := Standing(st.tickets, now), alarm := after.alarm) && EndsNext(after)
      else after.registration.None? && after.tickets == map[] && after.stored.None?
  {
    assert Moves(ws[i], steps[i], times[i], ws[i + 1]);
    assert Unexpired(ws[i].st.tickets, times[i]) == Standing(ws[i].st.tickets, times[i]);
  }
}
