/**
 * What holds of a panel relay in every reachable state: who is connected, what
 * is pending and for whom, and how many answers each call was given.
 */
module PanelSafety {
  import opened Common
  import opened PanelModel

  /** The state, the calls that were made, and the generations that were drawn. */
  datatype World = World(st: State, asked: set<Call>, drawn: set<Generation>)

  const Start := World(Init, {}, {})

  /** Calls and generations are fresh. */
  ghost predicate Allowed(w: World, step: Step) {
    && (step.Command? ==> step.call !in w.asked)
    && (step.Open? ==> step.generation !in w.drawn)
  }

  ghost predicate Moves(w: World, step: Step, now: int, after: World) {
    && Allowed(w, step)
    && after.st == Next(w.st, step, now)
    && after.asked == (if step.Command? then w.asked + {step.call} else w.asked)
    && after.drawn == (if step.Open? then w.drawn + {step.generation} else w.drawn)
  }

  // ------------------------------------------------------------------ counting

  function Outstanding(pending: seq<Entry>, call: Call): nat {
    if pending == [] then 0 else (if pending[0].call == call then 1 else 0) + Outstanding(pending[1..], call)
  }

  function Answered(answers: seq<Answer>, call: Call): nat {
    if answers == [] then 0
    else Answered(answers[..|answers| - 1], call) + (if answers[|answers| - 1].call == call then 1 else 0)
  }

  /** How often a call is waited for or was answered. */
  function Held(st: State, call: Call): nat {
    Outstanding(st.pending, call) + Answered(st.answers, call)
  }

  lemma AnsweredSnoc(answers: seq<Answer>, a: Answer, call: Call)
    ensures Answered(answers + [a], call) == Answered(answers, call) + (if a.call == call then 1 else 0)
  {
    assert (answers + [a])[..|answers|] == answers;
  }

  lemma {:induction false} OutstandingSnoc(pending: seq<Entry>, e: Entry, call: Call)
    ensures Outstanding(pending + [e], call) == Outstanding(pending, call) + (if e.call == call then 1 else 0)
  {
    if pending == [] {
      assert pending + [e] == [e] && [e][1..] == [];
    } else {
      OutstandingSnoc(pending[1..], e, call);
      assert (pending + [e])[1..] == pending[1..] + [e];
    }
  }

  ghost predicate UniqueIds(pending: seq<Entry>) {
    forall i, j :: 0 <= i < j < |pending| ==> pending[i].id != pending[j].id
  }

  lemma {:induction false} DropUnique(pending: seq<Entry>, id: Id)
    requires UniqueIds(pending)
    ensures UniqueIds(Drop(pending, id))
  {
    if pending != [] {
      assert UniqueIds(pending[1..]);
      DropUnique(pending[1..], id);
      var rest := Drop(pending[1..], id);
      if pending[0].id != id {
        forall j | 0 <= j < |rest| ensures rest[j].id != pending[0].id {
          assert rest[j] in pending[1..];
        }
      }
    }
  }

  lemma {:induction false} DropNothing(pending: seq<Entry>, id: Id)
    requires !Has(pending, id)
    ensures Drop(pending, id) == pending
  {
    if pending != [] {
      assert pending[0] in pending;
      assert forall e :: e in pending[1..] ==> e in pending;
      DropNothing(pending[1..], id);
    }
  }

  lemma {:induction false} DropCounts(pending: seq<Entry>, id: Id, call: Call)
    requires UniqueIds(pending) && Has(pending, id)
    ensures Outstanding(pending, call) == Outstanding(Drop(pending, id), call) + (if Get(pending, id).call == call then 1 else 0)
  {
    assert UniqueIds(pending[1..]);
    if pending[0].id == id {
      forall e | e in pending[1..] ensures e.id != id {
        var j :| 0 <= j < |pending[1..]| && pending[1..][j] == e;
        assert pending[j + 1] == e;
      }
      DropNothing(pending[1..], id);
    } else {
      var e :| e in pending && e.id == id;
      assert e in pending[1..];
      DropCounts(pending[1..], id, call);
    }
  }

  lemma GetIs(pending: seq<Entry>, e: Entry)
    requires UniqueIds(pending) && e in pending
    ensures Has(pending, e.id) && Get(pending, e.id) == e
  {
    var g := Get(pending, e.id);
    var i, j :| 0 <= i < |pending| && 0 <= j < |pending| && pending[i] == e && pending[j] == g;
  }

  // ------------------------------------------------------- giving commands up

  /**
   * From `a` to `b` some pending commands were given up, each answered with a
   * failure and called off on its socket; nothing else changed but readiness.
   */
  ghost predicate Eases(a: State, b: State) {
    && b == a.(conns := b.conns, pending := b.pending, answers := b.answers, sent := b.sent)
    && b.conns.Keys == a.conns.Keys
    && (forall s :: s in a.conns ==> b.conns[s].generation == a.conns[s].generation)
    && UniqueIds(b.pending) && |b.pending| <= |a.pending|
    && (forall e :: e in b.pending ==> e in a.pending)
    && (forall e :: e in a.pending && e !in b.pending ==> CancelFrame(e) in b.sent)
    && a.sent <= b.sent && a.answers <= b.answers
    && (forall k :: |a.sent| <= k < |b.sent| ==> b.sent[k].CancelFrame?)
    && (forall k :: |a.answers| <= k < |b.answers| ==> b.answers[k].outcome.Failed?)
    && (forall call :: Held(b, call) == Held(a, call))
  }

  lemma EasesTwice(a: State, b: State, c: State)
    requires Eases(a, b) && Eases(b, c)
    ensures Eases(a, c)
  {
  }

  lemma EasesSelf(a: State)
    requires UniqueIds(a.pending)
    ensures Eases(a, a)
  {
  }

  lemma FinishHeld(st: State, id: Id, outcome: Outcome, cancel: bool, call: Call)
    requires UniqueIds(st.pending)
    ensures Held(Finish(st, id, outcome, cancel), call) == Held(st, call)
  {
    if Has(st.pending, id) {
      DropCounts(st.pending, id, call);
      AnsweredSnoc(st.answers, Answer(Get(st.pending, id).call, outcome), call);
    }
  }

  lemma FinishEases(st: State, id: Id, failure: Failure)
    requires UniqueIds(st.pending)
    ensures Eases(st, Finish(st, id, Failed(failure), true))
    ensures forall e :: e in Finish(st, id, Failed(failure), true).pending ==> e.id != id
  {
    var after := Finish(st, id, Failed(failure), true);
    forall call ensures Held(after, call) == Held(st, call) { FinishHeld(st, id, Failed(failure), true, call); }
    DropUnique(st.pending, id);
    if Has(st.pending, id) {
      forall e | e in st.pending && e !in after.pending ensures CancelFrame(e) in after.sent {
        GetIs(st.pending, e);
      }
    }
  }

  lemma {:induction false} FailEntriesEases(st: State, entries: seq<Entry>, s: Socket, failure: Failure)
    requires UniqueIds(st.pending)
    ensures Eases(st, FailEntries(st, entries, s, failure))
    ensures forall e :: e in entries && e.socket == s ==> forall x :: x in FailEntries(st, entries, s, failure).pending ==> x.id != e.id
    decreases |entries|
  {
    if entries == [] {
      EasesSelf(st);
    } else {
      var e := entries[0];
      FinishEases(st, e.id, failure);
      EasesSelf(st);
      var mid := if e.socket == s then Finish(st, e.id, Failed(failure), true) else st;
      FailEntriesEases(mid, entries[1..], s, failure);
      EasesTwice(st, mid, FailEntries(mid, entries[1..], s, failure));
      assert entries == [entries[0]] + entries[1..];
    }
  }

  lemma FailSocketEases(st: State, s: Socket, failure: Failure)
    requires UniqueIds(st.pending)
    ensures Eases(st, FailSocket(st, s, failure))
    ensures forall e :: e in FailSocket(st, s, failure).pending ==> e.socket != s
  {
    FailEntriesEases(st, st.pending, s, failure);
  }

  lemma UnreadyEases(st: State, s: Socket)
    requires UniqueIds(st.pending)
    ensures Eases(st, Unready(st, s)) && Unready(st, s).pending == st.pending
  {
  }

  lemma {:induction false} ReplaceAllEases(st: State, previous: seq<Socket>)
    requires UniqueIds(st.pending)
    ensures Eases(st, ReplaceAll(st, previous))
    ensures forall e :: e in ReplaceAll(st, previous).pending ==> e.socket !in previous
    decreases |previous|
  {
    if previous == [] {
      EasesSelf(st);
    } else {
      var s := previous[0];
      var unready := Unready(st, s);
      var mid := FailSocket(unready, s, Reconnected);
      UnreadyEases(st, s);
      FailSocketEases(unready, s, Reconnected);
      EasesTwice(st, unready, mid);
      ReplaceAllEases(mid, previous[1..]);
      EasesTwice(st, mid, ReplaceAll(st, previous));
      assert previous == [s] + previous[1..];
    }
  }

  lemma {:induction false} FailAllEases(st: State, attached: seq<Socket>)
    requires UniqueIds(st.pending)
    ensures Eases(st, FailAll(st, attached))
    ensures forall e :: e in FailAll(st, attached).pending ==> e.socket !in attached
    decreases |attached|
  {
    if attached == [] {
      EasesSelf(st);
    } else {
      var mid := FailSocket(st, attached[0], Unavailable);
      FailSocketEases(st, attached[0], Unavailable);
      FailAllEases(mid, attached[1..]);
      EasesTwice(st, mid, FailAll(st, attached));
      assert attached == [attached[0]] + attached[1..];
    }
  }

  lemma RejectEases(st: State, s: Socket)
    requires UniqueIds(st.pending)
    ensures Eases(st, Reject(st, s))
    ensures forall e :: e in Reject(st, s).pending ==> e.socket != s
  {
    UnreadyEases(st, s);
    FailSocketEases(Unready(st, s), s, BadProtocol);
    EasesTwice(st, Unready(st, s), Reject(st, s));
  }

  // --------------------------------------------------------------- invariant

  /** No two attached sockets share a generation, and none carries one still waiting for its socket. */
  ghost predicate Seated(st: State, drawn: set<Generation>) {
    && Distinct(st.sockets)
    && (forall s :: s in st.sockets <==> s in st.conns)
    && (forall s, u :: s in st.conns && u in st.conns && st.conns[s].generation == st.conns[u].generation ==> s == u)
    && (forall s :: s in st.conns ==> st.conns[s].generation in drawn && st.conns[s].generation !in st.opening)
    && st.opening <= drawn
    && (st.active.Some? ==> st.active.value in drawn)
    && (st.stored.Some? ==> st.stored.value in drawn)
  }

  /** Everything pending was sent to the one socket of the active generation, and there are at most eight. */
  ghost predicate Bound(st: State) {
    && UniqueIds(st.pending) && |st.pending| <= MAX_PENDING
    && forall e :: e in st.pending ==> OnActive(st, e.socket) && st.conns[e.socket].generation == e.generation && CommandFrame(e) in st.sent
  }

  /** A command that is not pending any more was answered by the panel, lost with the object, or called off. */
  ghost predicate CalledOff(st: State) {
    forall e :: CommandFrame(e) in st.sent ==>
      || e in st.pending || CancelFrame(e) in st.sent || Answer(e.call, Failed(Lost)) in st.answers
      || exists r :: Answer(e.call, Result(r)) in st.answers
  }

  ghost predicate Balanced(w: World) {
    forall call :: Held(w.st, call) == if call in w.asked then 1 else 0
  }

  ghost predicate Inv(w: World) {
    Seated(w.st, w.drawn) && Bound(w.st) && CalledOff(w.st) && Balanced(w) && |w.st.tickets| <= MAX_TICKETS
  }

  // -------------------------------------------------------------- step by step

  lemma CallsStayOff(a: State, b: State)
    requires CalledOff(a) && a.sent <= b.sent && a.answers <= b.answers
    requires forall e :: CommandFrame(e) in b.sent ==> CommandFrame(e) in a.sent || e in b.pending
    requires forall e :: e in a.pending && e !in b.pending ==>
      (CancelFrame(e) in b.sent || Answer(e.call, Failed(Lost)) in b.answers || exists r :: Answer(e.call, Result(r)) in b.answers)
    ensures CalledOff(b)
  {
  }

  lemma EasesKeeps(w: World, after: State)
    requires Inv(w) && Eases(w.st, after)
    ensures Inv(w.(st := after))
  {
    forall e | CommandFrame(e) in after.sent ensures CommandFrame(e) in w.st.sent {
      var k :| 0 <= k < |after.sent| && after.sent[k] == CommandFrame(e);
      assert k < |w.st.sent|;
    }
    CallsStayOff(w.st, after);
  }

  lemma UnexpiredFits(tickets: map<Token, Ticket>, now: int)
    requires |tickets| <= MAX_TICKETS
    ensures |Unexpired(tickets, now)| <= MAX_TICKETS
  {
    FewerKeys(Unexpired(tickets, now), tickets);
  }

  lemma FewerKeys(a: map<Token, Ticket>, b: map<Token, Ticket>)
    requires a.Keys <= b.Keys
    ensures |a| <= |b|
  {
    FewerOrAsMany(a.Keys, b.Keys);
    assert |a| == |a.Keys| && |b| == |b.Keys|;
  }

  /** A change to tickets, registration, alarm or the cancel table only. */
  lemma AsideKeeps(w: World, after: State)
    requires Inv(w) && |after.tickets| <= MAX_TICKETS
    requires after == w.st.(tickets := after.tickets, registration := after.registration, alarm := after.alarm, cancelled := after.cancelled)
    ensures Inv(w.(st := after))
  {
    assert forall call :: Held(after, call) == Held(w.st, call);
  }

  lemma MintKeeps(w: World, token: Token, origin: string, kind: Kind, now: int)
    requires Inv(w)
    ensures Inv(w.(st := Mint(w.st, token, origin, kind, now)))
  {
    UnexpiredFits(w.st.tickets, now);
    AsideKeeps(w, Mint(w.st, token, origin, kind, now));
  }

  lemma ConsumeKeeps(w: World, token: Token)
    requires Inv(w)
    ensures Inv(w.(st := Consume(w.st, token)))
  {
    FewerKeys(w.st.tickets - {token}, w.st.tickets);
    AsideKeeps(w, Consume(w.st, token));
  }

  lemma OpenKeeps(w: World, generation: Generation)
    requires Inv(w) && generation !in w.drawn
    ensures
      var after := ReplaceAll(w.st, w.st.sockets)
                     .(active := Some(generation), stored := Some(generation), opening := w.st.opening + {generation});
      after.pending == [] && Inv(World(after, w.asked, w.drawn + {generation}))
  {
    var replaced := ReplaceAll(w.st, w.st.sockets);
    ReplaceAllEases(w.st, w.st.sockets);
    EasesKeeps(w, replaced);
    NothingPending(replaced);
    var after := replaced.(active := Some(generation), stored := Some(generation), opening := w.st.opening + {generation});
    assert forall call :: Held(after, call) == Held(replaced, call);
  }

  lemma NothingPending(st: State)
    requires Bound(st) && (forall s :: s in st.conns ==> s in st.sockets)
    requires forall e :: e in st.pending ==> e.socket !in st.sockets
    ensures st.pending == []
  {
    FirstIsSomeones(st);
  }

  lemma FirstIsSomeones(st: State)
    requires Bound(st) && (forall s :: s in st.conns ==> s in st.sockets)
    ensures st.pending != [] ==> exists e :: e in st.pending && e.socket in st.sockets
  {
    if st.pending != [] { assert st.pending[0] in st.pending; }
  }

  lemma SeatKeeps(w: World, generation: Generation, s: Socket)
    requires Inv(w) && generation in w.st.opening && s !in w.st.sockets
    ensures Inv(w.(st := Next(w.st, Seat(generation, s), 0)))
  {
    var after := Next(w.st, Seat(generation, s), 0);
    assert forall call :: Held(after, call) == Held(w.st, call);
  }

  lemma LeaveKeeps(w: World, s: Socket)
    requires Inv(w) && forall e :: e in w.st.pending ==> e.socket != s
    ensures Inv(w.(st := Leave(w.st, s)))
  {
    var after := Leave(w.st, s);
    LeaveSeated(w.st, w.drawn, s);
    assert forall call :: Held(after, call) == Held(w.st, call);
  }

  lemma LeaveSeated(st: State, drawn: set<Generation>, s: Socket)
    requires Seated(st, drawn)
    ensures Seated(Leave(st, s), drawn)
  {
    WithoutDistinct(st.sockets, s);
  }

  lemma ResolveKeeps(w: World, call: Call, failure: Failure)
    requires Inv(w) && call !in w.asked
    ensures Inv(World(Resolve(w.st, call, Failed(failure)), w.asked + {call}, w.drawn))
  {
    var after := Resolve(w.st, call, Failed(failure));
    forall c ensures Held(after, c) == if c in w.asked + {call} then 1 else 0 {
      AnsweredSnoc(w.st.answers, Answer(call, Failed(failure)), c);
    }
    CallsStayOff(w.st, after);
  }

  lemma QueueHeld(st: State, e: Entry, call: Call)
    ensures Held(st.(pending := st.pending + [e], sent := st.sent + [CommandFrame(e)]), call)
         == Held(st, call) + (if e.call == call then 1 else 0)
  {
    OutstandingSnoc(st.pending, e, call);
  }

  lemma QueueKeeps(w: World, e: Entry)
    requires Inv(w) && e.call !in w.asked && !Has(w.st.pending, e.id) && |w.st.pending| < MAX_PENDING
    requires OnActive(w.st, e.socket) && w.st.conns[e.socket].generation == e.generation
    ensures Inv(World(w.st.(pending := w.st.pending + [e], sent := w.st.sent + [CommandFrame(e)]), w.asked + {e.call}, w.drawn))
  {
    var after := w.st.(pending := w.st.pending + [e], sent := w.st.sent + [CommandFrame(e)]);
    forall c ensures Held(after, c) == if c in w.asked + {e.call} then 1 else 0 { QueueHeld(w.st, e, c); }
    assert forall x :: x in after.pending ==> x in w.st.pending || x == e;
    assert e in after.pending by { assert after.pending[|w.st.pending|] == e; }
    CallsStayOff(w.st, after);
  }

  /** A send that throws ends the call at once, as if it had never been queued. */
  lemma ThrowIs(st: State, e: Entry)
    requires !Has(st.pending, e.id)
    ensures Finish(st.(pending := st.pending + [e]), e.id, Failed(Unavailable), true)
         == Resolve(st.(sent := st.sent + [CancelFrame(e)]), e.call, Failed(Unavailable))
  {
    var queued := st.pending + [e];
    assert queued[|st.pending|] == e;
    DropLast(st.pending, e);
  }

  lemma {:induction false} DropLast(pending: seq<Entry>, e: Entry)
    requires !Has(pending, e.id)
    ensures Has(pending + [e], e.id) && Get(pending + [e], e.id) == e && Drop(pending + [e], e.id) == pending
  {
    assert (pending + [e])[|pending|] == e;
    if pending != [] {
      assert pending[0] in pending;
      assert (pending + [e])[1..] == pending[1..] + [e];
      assert !Has(pending[1..], e.id);
      DropLast(pending[1..], e);
    } else {
      assert (pending + [e])[1..] == [];
    }
  }

  lemma CancelFrameKeeps(w: World, e: Entry)
    requires Inv(w)
    ensures Inv(w.(st := w.st.(sent := w.st.sent + [CancelFrame(e)])))
  {
    var after := w.st.(sent := w.st.sent + [CancelFrame(e)]);
    assert forall call :: Held(after, call) == Held(w.st, call);
    CallsStayOff(w.st, after);
  }

  lemma DispatchKeeps(w: World, call: Call, id: Id, s: Socket, throws: bool, now: int)
    requires Inv(w) && call !in w.asked && !Has(w.st.pending, id) && |w.st.pending| < MAX_PENDING && OnActive(w.st, s)
    ensures Inv(World(Dispatch(w.st, call, id, s, throws, now), w.asked + {call}, w.drawn))
  {
    var e := Entry(id, s, w.st.conns[s].generation, now + COMMAND_TIMEOUT, call);
    if throws {
      ThrowIs(w.st, e);
      CancelFrameKeeps(w, e);
      ResolveKeeps(w.(st := w.st.(sent := w.st.sent + [CancelFrame(e)])), call, Unavailable);
    } else {
      QueueKeeps(w, e);
    }
  }

  lemma CommandKeeps(w: World, call: Call, principal: Principal, valid: bool, id: Id, throws: bool, now: int)
    requires Inv(w) && call !in w.asked
    ensures Inv(World(RunCommand(w.st, call, principal, valid, id, throws, now), w.asked + {call}, w.drawn))
  {
    if !Authorized(w.st, principal, now) {
      ResolveKeeps(w, call, Forbidden);
    } else {
      var pruned := w.st.(cancelled := Pruned(w.st.cancelled, now));
      var w1 := w.(st := pruned);
      AsideKeeps(w, pruned);
      if id in pruned.cancelled { ResolveKeeps(w1, call, Cancelled); }
      else if !valid { ResolveKeeps(w1, call, Invalid); }
      else if Target(pruned).None? { ResolveKeeps(w1, call, Unavailable); }
      else if |pruned.pending| >= MAX_PENDING || Has(pruned.pending, id) { ResolveKeeps(w1, call, Busy); }
      else { DispatchKeeps(w1, call, id, Target(pruned).value, throws, now); }
    }
  }

  lemma ResultKeeps(w: World, id: Id, result: string)
    requires Inv(w) && Has(w.st.pending, id)
    ensures Inv(w.(st := Finish(w.st, id, Result(result), false)))
  {
    var e := Get(w.st.pending, id);
    var after := Finish(w.st, id, Result(result), false);
    forall c ensures Held(after, c) == Held(w.st, c) { FinishHeld(w.st, id, Result(result), false, c); }
    DropUnique(w.st.pending, id);
    assert after.answers[|w.st.answers|] == Answer(e.call, Result(result));
    forall x | x in w.st.pending && x !in after.pending ensures x == e { GetIs(w.st.pending, x); }
    CallsStayOff(w.st, after);
  }

  lemma CancelKeeps(w: World, principal: Principal, id: Id, now: int)
    requires Inv(w)
    ensures Inv(w.(st := RunCancel(w.st, principal, id, now)))
  {
    var noted := if |w.st.cancelled| < MAX_CANCELLED
                 then w.st.(cancelled := w.st.cancelled[id := now + COMMAND_TIMEOUT]) else w.st;
    AsideKeeps(w, noted);
    FinishEases(noted, id, PanelModel.Cancelled);
    EasesKeeps(w.(st := noted), Finish(noted, id, Failed(PanelModel.Cancelled), true));
  }

  lemma ReplyKeeps(w: World, s: Socket, id: Id, generation: Generation, result: string, now: int)
    requires Inv(w)
    ensures Inv(w.(st := RunReply(w.st, s, id, generation, result, now)))
  {
    if OnActive(w.st, s) && Has(w.st.pending, id) {
      ResultKeeps(w, id, result);
      FinishEases(w.st, id, TimedOut);
      EasesKeeps(w, Finish(w.st, id, Failed(TimedOut), true));
    }
  }

  lemma AlarmKeeps(w: World, now: int)
    requires Inv(w)
    ensures Inv(w.(st := RunAlarm(w.st, now)))
  {
    if Registered(w.st, now) {
      UnexpiredFits(w.st.tickets, now);
      AsideKeeps(w, RunAlarm(w.st, now));
    } else {
      var failed := FailAll(w.st, w.st.sockets);
      FailAllEases(w.st, w.st.sockets);
      EasesKeeps(w, failed);
      NothingPending(failed);
      var after := failed.(stored := None, tickets := map[], registration := None, alarm := None);
      assert forall call :: Held(after, call) == Held(failed, call);
    }
  }

  lemma {:induction false} LoseAllHeld(st: State, entries: seq<Entry>, call: Call)
    ensures Answered(LoseAll(st, entries).answers, call) == Answered(st.answers, call) + Outstanding(entries, call)
    decreases |entries|
  {
    if entries != [] {
      AnsweredSnoc(st.answers, Answer(entries[0].call, Failed(Lost)), call);
      LoseAllHeld(Resolve(st, entries[0].call, Failed(Lost)), entries[1..], call);
    }
  }

  lemma {:induction false} LoseAllAnswers(st: State, entries: seq<Entry>)
    ensures LoseAll(st, entries) == st.(answers := LoseAll(st, entries).answers)
    ensures st.answers <= LoseAll(st, entries).answers
    ensures forall e :: e in entries ==> Answer(e.call, Failed(Lost)) in LoseAll(st, entries).answers
    ensures forall k :: |st.answers| <= k < |LoseAll(st, entries).answers| ==> LoseAll(st, entries).answers[k].outcome.Failed?
    decreases |entries|
  {
    if entries != [] {
      var mid := Resolve(st, entries[0].call, Failed(Lost));
      LoseAllAnswers(mid, entries[1..]);
      assert mid.answers[|st.answers|] in LoseAll(st, entries).answers;
      assert entries == [entries[0]] + entries[1..];
    }
  }

  lemma RestartKeeps(w: World)
    requires Inv(w)
    ensures Inv(w.(st := RunRestart(w.st)))
  {
    var after := RunRestart(w.st);
    LoseAllAnswers(w.st, w.st.pending);
    forall c ensures Held(after, c) == Held(w.st, c) { LoseAllHeld(w.st, w.st.pending, c); }
    CallsStayOff(w.st, after);
  }

  lemma MoveKeeps(w: World, step: Step, now: int, after: World)
    requires Inv(w) && Moves(w, step, now, after)
    ensures Inv(after)
  {
    match step
    case Open(token, origin, generation) => OpeningKeeps(w, token, origin, generation, now);
    case Command(call, principal, valid, id, throws) => CommandKeeps(w, call, principal, valid, id, throws, now);
    case _ => OwnerMoveKeeps(w, step, now); PanelMoveKeeps(w, step, now);
  }

  /** What the panel's owner asks for, other than commands. */
  lemma OwnerMoveKeeps(w: World, step: Step, now: int)
    requires Inv(w)
    ensures step.Register? || step.IssueTicket? || step.ExchangePairing? || step.Seat? || step.Cancel? ==>
      Inv(w.(st := Next(w.st, step, now)))
  {
    if step.Seat? {
      if step.generation in w.st.opening && step.socket !in w.st.sockets { SeatKeeps(w, step.generation, step.socket); }
    } else if step.Cancel? {
      CancelKeeps(w, step.principal, step.id, now);
    } else {
      TicketMoveKeeps(w, step, now);
    }
  }

  lemma TicketMoveKeeps(w: World, step: Step, now: int)
    requires Inv(w)
    ensures step.Register? || step.IssueTicket? || step.ExchangePairing? ==> Inv(w.(st := Next(w.st, step, now)))
  {
    if step.Register? {
      AsideKeeps(w, Next(w.st, step, now));
    } else if step.IssueTicket? {
      MintKeeps(w, step.token, step.origin, step.kind, now);
    } else if step.ExchangePairing? {
      PairingKeeps(w, step.userId, step.token, step.origin, step.minted, now);
    }
  }

  lemma PairingKeeps(w: World, userId: string, token: Token, origin: string, minted: Token, now: int)
    requires Inv(w)
    ensures Inv(w.(st := Next(w.st, ExchangePairing(userId, token, origin, minted), now)))
  {
    ConsumeKeeps(w, token);
    MintKeeps(w.(st := Consume(w.st, token)), minted, origin, SocketTicket, now);
  }

  lemma OpeningKeeps(w: World, token: Token, origin: string, generation: Generation, now: int)
    requires Inv(w) && generation !in w.drawn
    ensures Inv(World(Next(w.st, Open(token, origin, generation), now), w.asked, w.drawn + {generation}))
  {
    if !Registered(w.st, now) {
      DrawKeeps(w, generation);
    } else {
      ConsumeKeeps(w, token);
      var consumed := w.(st := Consume(w.st, token));
      if Granted(w.st, token, origin, SocketTicket, now) { OpenKeeps(consumed, generation); } else { DrawKeeps(consumed, generation); }
    }
  }

  /** What a socket did. */
  predicate FromPanel(step: Step) {
    step.Ready? || step.Reply? || step.Malformed? || step.Garbage? || step.Close? || step.Error?
  }

  /** What comes from sockets, clocks and the platform. */
  lemma PanelMoveKeeps(w: World, step: Step, now: int)
    requires Inv(w)
    ensures FromPanel(step) || step.Timer? || step.Alarm? || step.Restart? ==> Inv(w.(st := Next(w.st, step, now)))
  {
    match step
    case Close(s) => if s in w.st.sockets { CloseKeeps(w, s); }
    case Error(s) => if s in w.st.sockets { ErrorKeeps(w, s); }
    case Timer(id) => TimerKeeps(w, id, now);
    case Alarm => AlarmKeeps(w, now);
    case Restart => RestartKeeps(w);
    case _ => FrameKeeps(w, step, now);
  }

  lemma FrameKeeps(w: World, step: Step, now: int)
    requires Inv(w)
    ensures step.Ready? || step.Reply? || step.Malformed? || step.Garbage? ==> Inv(w.(st := Next(w.st, step, now)))
  {
    match step
    case Ready(s, supported) => ReadyKeeps(w, s, supported);
    case Reply(s, id, generation, result) => ReplyKeeps(w, s, id, generation, result, now);
    case Malformed(s) => RejectKeeps(w, s);
    case Garbage(s) => RejectKeeps(w, s);
    case _ =>
  }

  lemma TimerKeeps(w: World, id: Id, now: int)
    requires Inv(w)
    ensures Inv(w.(st := Next(w.st, Timer(id), now)))
  {
    FinishEases(w.st, id, TimedOut);
    EasesKeeps(w, Finish(w.st, id, Failed(TimedOut), true));
  }

  lemma DrawKeeps(w: World, generation: Generation)
    requires Inv(w)
    ensures Inv(w.(drawn := w.drawn + {generation}))
  {
  }

  lemma RejectKeeps(w: World, s: Socket)
    requires Inv(w)
    ensures Inv(w.(st := Reject(w.st, s)))
  {
    RejectEases(w.st, s);
    EasesKeeps(w, Reject(w.st, s));
  }

  lemma ReadyKeeps(w: World, s: Socket, supported: bool)
    requires Inv(w)
    ensures Inv(w.(st := Next(w.st, Ready(s, supported), 0)))
  {
    var after := Next(w.st, Ready(s, supported), 0);
    if OnActive(w.st, s) && supported {
      EasesSelf(w.st);
      assert forall call :: Held(after, call) == Held(w.st, call);
      EasesKeeps(w, after);
    } else {
      RejectKeeps(w, s);
    }
  }

  lemma CloseKeeps(w: World, s: Socket)
    requires Inv(w) && s in w.st.sockets
    ensures Inv(w.(st := Next(w.st, Close(s), 0)))
  {
    UnseatKeeps(w, s);
    LeaveKeeps(w.(st := FailSocket(Unready(w.st, s), s, Unavailable)), s);
  }

  lemma UnseatKeeps(w: World, s: Socket)
    requires Inv(w)
    ensures Inv(w.(st := FailSocket(Unready(w.st, s), s, Unavailable)))
    ensures forall e :: e in FailSocket(Unready(w.st, s), s, Unavailable).pending ==> e.socket != s
  {
    var failed := FailSocket(Unready(w.st, s), s, Unavailable);
    UnreadyEases(w.st, s);
    FailSocketEases(Unready(w.st, s), s, Unavailable);
    EasesTwice(w.st, Unready(w.st, s), failed);
    EasesKeeps(w, failed);
  }

  lemma ErrorKeeps(w: World, s: Socket)
    requires Inv(w) && s in w.st.sockets
    ensures Inv(w.(st := Next(w.st, Error(s), 0)))
  {
    RejectEases(w.st, s);
    EasesKeeps(w, Reject(w.st, s));
    LeaveKeeps(w.(st := Reject(w.st, s)), s);
  }
}
