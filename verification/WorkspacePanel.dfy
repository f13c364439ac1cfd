/**
 * The panel relay as the source has it: an object whose fields and stored rows
 * every handler updates, each handler being one move of the model.
 */
module WorkspacePanel {
  import opened Common
  import opened PanelModel
  import opened PanelSafety

  class WorkspacePanelRelay {
    var sockets: seq<Socket>
    var conns: map<Socket, Connection>
    /** The map of pending commands, in insertion order. */
    var pending: seq<Entry>
    var cancelled: map<Id, int>
    var activeGeneration: Option<Generation>
    var opening: set<Generation>
    var generation: Option<Generation>
    var tickets: map<Token, Ticket>
    var registration: Option<Registration>
    var alarm: Option<int>
    var answers: seq<Answer>
    var sent: seq<Frame>
    ghost var world: World

    function St(): State
      reads this
    {
      State(sockets, conns, pending, cancelled, activeGeneration, opening, generation, tickets, registration, alarm, answers, sent)
    }

    ghost predicate Valid()
      reads this
    {
      world.st == St() && Inv(world)
    }

    constructor ()
      ensures Valid() && world == Start
    {
      sockets, conns, pending, cancelled := [], map[], [], map[];
      activeGeneration, opening, generation := None, {}, None;
      tickets, registration, alarm, answers, sent := map[], None, None, [], [];
      world := Start;
    }

    /** The fields have made a move; the record of the world follows. */
    ghost method Record(step: Step, now: int)
      requires Inv(world) && Allowed(world, step) && St() == Next(world.st, step, now)
      modifies `world
      ensures Valid() && Moves(old(world), step, now, world)
    {
      var after := World(St(), if step.Command? then world.asked + {step.call} else world.asked,
                         if step.Open? then world.drawn + {step.generation} else world.drawn);
      MoveKeeps(world, step, now, after);
      world := after;
    }

    // -------------------------------------------------------------- settling

    method Finish(requestId: Id, value: Outcome, cancel: bool)
      modifies `pending, `sent, `answers
      ensures St() == PanelModel.Finish(old(St()), requestId, value, cancel)
    {
      if !Has(pending, requestId) { return; }
      var entry := Get(pending, requestId);
      pending := Drop(pending, requestId);
      if cancel { sent := sent + [CancelFrame(entry)]; }
      answers := answers + [Answer(entry.call, value)];
    }

    method FailSocket(socket: Socket, failure: Failure)
      modifies `pending, `sent, `answers
      ensures St() == PanelModel.FailSocket(old(St()), socket, failure)
    {
      var entries := pending;
      assert entries[0..] == entries;
      for i := 0 to |entries|
        invariant FailEntries(St(), entries[i..], socket, failure) == PanelModel.FailSocket(old(St()), socket, failure)
        invariant unchanged(`sockets, `conns, `cancelled, `activeGeneration, `opening, `generation, `tickets, `registration, `alarm)
      {
        assert entries[i..][1..] == entries[i + 1..];
        if entries[i].socket == socket { Finish(entries[i].id, Failed(failure), true); }
      }
    }

    method MarkUnready(socket: Socket)
      modifies `conns
      ensures St() == Unready(old(St()), socket)
    {
      if socket in conns { conns := conns[socket := conns[socket].(ready := false)]; }
    }

    // --------------------------------------------------------------- tickets

    /** The loop of `mint`: expired tickets are deleted, the others counted. */
    method SweepTickets(now: int) returns (count: nat)
      modifies `tickets
      ensures tickets == Unexpired(old(tickets), now) && count == |tickets|
    {
      ghost var before := tickets;
      var todo := tickets.Keys;
      count := 0;
      while todo != {}
        invariant todo <= before.Keys && Swept(before, tickets, todo, now)
        invariant count + |todo| == |tickets.Keys|
        decreases |todo|
      {
        var key :| key in todo;
        SweepOne(before, tickets, todo, key, now);
        todo := todo - {key};
        if tickets[key].expiresAt <= now {
          assert (tickets - {key}).Keys == tickets.Keys - {key};
          tickets := tickets - {key};
        } else {
          count := count + 1;
        }
      }
      SweptAll(before, tickets, now);
      assert |tickets| == |tickets.Keys|;
    }

    /** The loop of `alarm`: expired tickets are deleted, the first of the others found. */
    method SweepToNext(bound: int, now: int) returns (next: int)
      modifies `tickets
      ensures tickets == Unexpired(old(tickets), now) && next == Earliest(tickets, bound)
    {
      ghost var before := tickets;
      var todo := tickets.Keys;
      next := bound;
      while todo != {}
        invariant todo <= before.Keys && Swept(before, tickets, todo, now)
        invariant IsEarliest(tickets - todo, bound, next)
        decreases |todo|
      {
        var key :| key in todo;
        SweepOne(before, tickets, todo, key, now);
        if tickets[key].expiresAt <= now {
          assert (tickets - {key}) - (todo - {key}) == tickets - todo;
          tickets := tickets - {key};
        } else {
          EarliestOneMore(tickets, todo, bound, next, key);
          next := Min(next, tickets[key].expiresAt);
        }
        todo := todo - {key};
      }
      assert tickets - {} == tickets;
      SweptAll(before, tickets, now);
      OneEarliest(tickets, bound, next);
    }

    /** `mint`: whether a ticket was issued. */
    method MintTicket(token: Token, origin: string, kind: Kind, now: int) returns (issued: bool)
      modifies `tickets, `alarm
      ensures St() == Mint(old(St()), token, origin, kind, now)
      ensures issued <==> |Unexpired(old(tickets), now)| < MAX_TICKETS
    {
      var count := SweepTickets(now);
      issued := count < MAX_TICKETS;
      if issued {
        tickets := tickets[token := Ticket(origin, now + TICKET_LIFETIME, kind)];
        alarm := Some(now + TICKET_LIFETIME);
      }
    }

    method ConsumeTicket(token: Token, origin: string, kind: Kind, now: int) returns (granted: bool)
      modifies `tickets
      ensures St() == Consume(old(St()), token)
      ensures granted == Granted(old(St()), token, origin, kind, now)
    {
      granted := token in tickets && tickets[token].expiresAt > now && tickets[token].origin == origin && tickets[token].kind == kind;
      tickets := tickets - {token};
    }

    method IssueTicketFor(principal: Principal, token: Token, origin: string, kind: Kind, now: int)
      requires Valid()
      modifies this
      ensures Valid() && Moves(old(world), IssueTicket(principal, token, origin, kind), now, world)
    {
      if Authorized(St(), principal, now) {
        var _ := MintTicket(token, origin, kind, now);
      }
      Record(IssueTicket(principal, token, origin, kind), now);
    }

    method ExchangePairingTicket(userId: string, token: Token, origin: string, minted: Token, now: int)
      requires Valid()
      modifies this
      ensures Valid() && Moves(old(world), ExchangePairing(userId, token, origin, minted), now, world)
    {
      if Registered(St(), now) && registration.value.principal.userId == userId {
        var granted := ConsumeTicket(token, origin, PairingTicket, now);
        if granted { var _ := MintTicket(minted, origin, SocketTicket, now); }
      }
      Record(ExchangePairing(userId, token, origin, minted), now);
    }

    method RegisterPanel(principal: Principal, now: int) returns (registered: bool)
      requires Valid()
      modifies this
      ensures Valid() && Moves(old(world), Register(principal), now, world)
      ensures registered <==> old(registration).None?
    {
      registered := registration.None?;
      if registered {
        registration := Some(Registration(principal, now + PANEL_LIFETIME));
        alarm := Some(now + PANEL_LIFETIME);
      }
      Record(Register(principal), now);
    }

    // ------------------------------------------------------------ connecting

    /** `fetch` up to its storage write: the ticket is spent and every earlier socket is replaced. */
    method BeginFetch(token: Token, origin: string, drawn: Generation, now: int) returns (admitted: bool)
      requires Valid() && drawn !in world.drawn
      modifies this
      ensures Valid() && Moves(old(world), Open(token, origin, drawn), now, world)
      ensures admitted <==> Registered(old(St()), now) && Granted(old(St()), token, origin, SocketTicket, now)
      ensures admitted ==> pending == [] && activeGeneration == Some(drawn)
    {
      AdmittedIsEmpty(world, token);
      admitted := false;
      if Registered(St(), now) {
        admitted := ConsumeTicket(token, origin, SocketTicket, now);
        if admitted { Admit(drawn); }
      }
      Record(Open(token, origin, drawn), now);
    }

    method Admit(drawn: Generation)
      modifies `conns, `pending, `sent, `answers, `activeGeneration, `generation, `opening
      ensures St() == ReplaceAll(old(St()), old(sockets))
                        .(active := Some(drawn), stored := Some(drawn), opening := old(opening) + {drawn})
    {
      ReplaceSockets();
      activeGeneration := Some(drawn);
      generation := Some(drawn);
      opening := opening + {drawn};
    }

    /** Every socket that was there is not ready any more, and its commands are failed. */
    method ReplaceSockets()
      modifies `conns, `pending, `sent, `answers
      ensures St() == ReplaceAll(old(St()), old(sockets))
    {
      var previous := sockets;
      assert previous[0..] == previous;
      for i := 0 to |previous|
        invariant ReplaceAll(St(), previous[i..]) == ReplaceAll(old(St()), old(sockets))
        invariant unchanged(`sockets, `cancelled, `activeGeneration, `opening, `generation, `tickets, `registration, `alarm)
      {
        assert previous[i..][1..] == previous[i + 1..];
        MarkUnready(previous[i]);
        FailSocket(previous[i], Reconnected);
      }
    }

    /** `fetch` after its storage write: the socket is accepted under the generation that was drawn for it. */
    method FinishFetch(drawn: Generation, socket: Socket, now: int)
      requires Valid()
      modifies this
      ensures Valid() && Moves(old(world), Seat(drawn, socket), now, world)
    {
      if drawn in opening && socket !in sockets {
        conns := conns[socket := Connection(drawn, false)];
        sockets := sockets + [socket];
        opening := opening - {drawn};
      }
      Record(Seat(drawn, socket), now);
    }

    // -------------------------------------------------------------- commands

    /** The first ready socket of the active generation, which is the only one. */
    method FindTarget(ghost drawn: set<Generation>) returns (target: Option<Socket>)
      requires Seated(St(), drawn)
      ensures target == Target(St())
    {
      target := None;
      for i := 0 to |sockets|
        invariant forall k :: 0 <= k < i ==> !(OnActive(St(), sockets[k]) && conns[sockets[k]].ready)
      {
        var s := sockets[i];
        if OnActive(St(), s) && conns[s].ready {
          target := Some(s);
          ReadyIsTarget(St(), drawn, s);
          return;
        }
      }
    }

    method PruneCancelled(now: int)
      modifies `cancelled
      ensures cancelled == Pruned(old(cancelled), now)
    {
      ghost var before := cancelled;
      var todo := cancelled.Keys;
      while todo != {}
        invariant todo <= before.Keys
        invariant cancelled == map id | id in before && (id in todo || before[id] > now) :: before[id]
        decreases |todo|
      {
        var id :| id in todo;
        todo := todo - {id};
        if cancelled[id] <= now { cancelled := cancelled - {id}; }
      }
    }

    /** `command`: refused with an answer, or queued and sent to the panel. */
    method RunCommandFor(call: Call, principal: Principal, valid: bool, requestId: Id, throws: bool, now: int)
      requires Valid() && call !in world.asked
      modifies this
      ensures Valid() && Moves(old(world), Command(call, principal, valid, requestId, throws), now, world)
    {
      Answering(call, principal, valid, requestId, throws, now);
      Record(Command(call, principal, valid, requestId, throws), now);
    }

    method Answering(call: Call, principal: Principal, valid: bool, requestId: Id, throws: bool, now: int)
      requires Seated(St(), world.drawn)
      modifies `cancelled, `pending, `sent, `answers
      ensures St() == RunCommand(old(St()), call, principal, valid, requestId, throws, now)
    {
      var refusal := Some(Forbidden);
      if Authorized(St(), principal, now) {
        PruneCancelled(now);
        var target := FindTarget(world.drawn);
        refusal :=
          if requestId in cancelled then Some(Cancelled) else if !valid then Some(Invalid) else if target.None? then Some(Unavailable)
          else if |pending| >= MAX_PENDING || Has(pending, requestId) then Some(Busy) else None;
        if refusal.None? { SendCommand(call, requestId, target.value, throws, now); }
      }
      if refusal.Some? { answers := answers + [Answer(call, Failed(refusal.value))]; }
    }

    method SendCommand(call: Call, requestId: Id, target: Socket, throws: bool, now: int)
      requires target in conns
      modifies `pending, `sent, `answers
      ensures St() == Dispatch(old(St()), call, requestId, target, throws, now)
    {
      var entry := Entry(requestId, target, conns[target].generation, now + COMMAND_TIMEOUT, call);
      pending := pending + [entry];
      if throws { Finish(requestId, Failed(Unavailable), true); } else { sent := sent + [CommandFrame(entry)]; }
    }

    method CancelCommand(principal: Principal, requestId: Id, now: int)
      requires Valid()
      modifies this
      ensures Valid() && Moves(old(world), Cancel(principal, requestId), now, world)
    {
      if Authorized(St(), principal, now) {
        if |cancelled| < MAX_CANCELLED { cancelled := cancelled[requestId := now + COMMAND_TIMEOUT]; }
        Finish(requestId, Failed(Cancelled), true);
      }
      Record(Cancel(principal, requestId), now);
    }

    // ---------------------------------------------------------------- frames

    method RejectSocket(socket: Socket)
      modifies `conns, `pending, `sent, `answers
      ensures St() == Reject(old(St()), socket)
    {
      MarkUnready(socket);
      FailSocket(socket, BadProtocol);
    }

    method SocketReady(socket: Socket, supported: bool, now: int)
      requires Valid()
      modifies this
      ensures Valid() && Moves(old(world), Ready(socket, supported), now, world)
    {
      if OnActive(St(), socket) {
        if supported { conns := conns[socket := conns[socket].(ready := true)]; } else { RejectSocket(socket); }
      }
      Record(Ready(socket, supported), now);
    }

    method SocketReply(socket: Socket, requestId: Id, claimed: Generation, result: string, now: int)
      requires Valid()
      modifies this
      ensures Valid() && Moves(old(world), Reply(socket, requestId, claimed, result), now, world)
    {
      if OnActive(St(), socket) && Has(pending, requestId) {
        var entry := Get(pending, requestId);
        if entry.socket == socket && entry.generation == claimed && conns[socket].generation == claimed {
          if entry.deadline <= now { Finish(requestId, Failed(TimedOut), true); }
          else { Finish(requestId, Result(result), false); }
        }
      }
      Record(Reply(socket, requestId, claimed, result), now);
    }

    method SocketSentGarbage(socket: Socket, now: int)
      requires Valid()
      modifies this
      ensures Valid() && Moves(old(world), Garbage(socket), now, world)
    {
      if socket in conns { RejectSocket(socket); }
      Record(Garbage(socket), now);
    }

    method SocketSentMalformed(socket: Socket, now: int)
      requires Valid()
      modifies this
      ensures Valid() && Moves(old(world), Malformed(socket), now, world)
    {
      if OnActive(St(), socket) { RejectSocket(socket); }
      Record(Malformed(socket), now);
    }

    method SocketClosed(socket: Socket, failed: bool, now: int)
      requires Valid()
      modifies this
      ensures Valid() && Moves(old(world), if failed then Error(socket) else Close(socket), now, world)
    {
      if socket in sockets { DropSocket(socket, failed); }
      Record(if failed then Error(socket) else Close(socket), now);
    }

    method DropSocket(socket: Socket, failed: bool)
      modifies `sockets, `conns, `pending, `sent, `answers
      ensures St() == Leave(if failed then Reject(old(St()), socket) else PanelModel.FailSocket(Unready(old(St()), socket), socket, Unavailable), socket)
    {
      if failed { RejectSocket(socket); } else { MarkUnready(socket); FailSocket(socket, Unavailable); }
      sockets := Without(sockets, socket);
      conns := conns - {socket};
    }

    // ----------------------------------------------------------------- clock

    method TimerFired(requestId: Id, now: int)
      requires Valid()
      modifies this
      ensures Valid() && Moves(old(world), Timer(requestId), now, world)
    {
      if Has(pending, requestId) && Get(pending, requestId).deadline <= now { Finish(requestId, Failed(TimedOut), true); }
      Record(Timer(requestId), now);
    }

    method FailEverySocket()
      modifies `pending, `sent, `answers
      ensures St() == FailAll(old(St()), old(sockets))
    {
      var attached := sockets;
      assert attached[0..] == attached;
      for i := 0 to |attached|
        invariant FailAll(St(), attached[i..]) == FailAll(old(St()), old(sockets))
        invariant unchanged(`sockets, `conns, `cancelled, `activeGeneration, `opening, `generation, `tickets, `registration, `alarm)
      {
        assert attached[i..][1..] == attached[i + 1..];
        FailSocket(attached[i], Unavailable);
      }
    }

    method AlarmFired(now: int)
      requires Valid()
      modifies this
      ensures Valid() && Moves(old(world), Alarm, now, world)
    {
      if !Registered(St(), now) {
        FailEverySocket();
        generation, tickets, registration, alarm := None, map[], None, None;
      } else {
        var next := SweepToNext(registration.value.expiresAt, now);
        alarm := Some(next);
      }
      Record(Alarm, now);
    }
  }

  lemma AdmittedIsEmpty(w: World, token: Token)
    requires Inv(w)
    ensures ReplaceAll(Consume(w.st, token), w.st.sockets).pending == []
  {
    ConsumeKeeps(w, token);
    var consumed := Consume(w.st, token);
    ReplaceAllEases(consumed, w.st.sockets);
    EasesKeeps(w.(st := consumed), ReplaceAll(consumed, w.st.sockets));
    NothingPending(ReplaceAll(consumed, w.st.sockets));
  }

  lemma ReadyIsTarget(st: State, drawn: set<Generation>, s: Socket)
    requires Seated(st, drawn) && s in st.sockets && OnActive(st, s) && st.conns[s].ready
    ensures Target(st) == Some(s)
  {
    var t := Target(st);
  }

  /** Part of the tickets looked at: the expired ones among them are gone. */
  ghost predicate Swept(before: map<Token, Ticket>, tickets: map<Token, Ticket>, todo: set<Token>, now: int) {
    && (forall k :: k in tickets <==> k in before && (k in todo || before[k].expiresAt > now))
    && (forall k :: k in tickets ==> tickets[k] == before[k])
  }

  lemma SweepOne(before: map<Token, Ticket>, tickets: map<Token, Ticket>, todo: set<Token>, key: Token, now: int)
    requires Swept(before, tickets, todo, now) && key in todo && todo <= before.Keys
    ensures key in tickets
    ensures Swept(before, if tickets[key].expiresAt <= now then tickets - {key} else tickets, todo - {key}, now)
  {
  }

  lemma SweptAll(before: map<Token, Ticket>, tickets: map<Token, Ticket>, now: int)
    requires Swept(before, tickets, {}, now)
    ensures tickets == Unexpired(before, now)
  {
  }

  lemma EarliestOneMore(tickets: map<Token, Ticket>, todo: set<Token>, bound: int, least: int, key: Token)
    requires IsEarliest(tickets - todo, bound, least) && key in tickets && key in todo
    ensures IsEarliest(tickets - (todo - {key}), bound, Min(least, tickets[key].expiresAt))
  {
    var after := tickets - (todo - {key});
    assert key in after && after[key] == tickets[key];
    forall k | k in after ensures Min(least, tickets[key].expiresAt) <= after[k].expiresAt {
      if k != key { assert k in tickets - todo; }
    }
    if least < tickets[key].expiresAt && least != bound {
      var k :| k in tickets - todo && least == (tickets - todo)[k].expiresAt;
      assert k in after;
    }
  }

  lemma OneEarliest(tickets: map<Token, Ticket>, bound: int, least: int)
    requires IsEarliest(tickets, bound, least)
    ensures least == Earliest(tickets, bound)
  {
  }
}
