/** The panel relay's guarantees over whole runs. */
module PanelTheorems {
  import opened Common
  import opened PanelModel
  import opened PanelSafety

  /** A run: worlds, the steps between them, and when each happened. */
  ghost predicate Behavior(ws: seq<World>, steps: seq<Step>, times: seq<int>) {
    && |ws| == |steps| + 1 && |times| == |steps|
    && ws[0] == Start
    && (forall i :: 0 <= i < |steps| ==> Moves(ws[i], steps[i], times[i], ws[i + 1]))
    && (forall i, j :: 0 <= i < j < |times| ==> times[i] <= times[j])
  }

  lemma StartHolds()
    ensures Inv(Start)
  {
  }

  lemma {:induction false} BehaviorKeeps(ws: seq<World>, steps: seq<Step>, times: seq<int>, i: nat)
    requires Behavior(ws, steps, times) && i < |ws|
    ensures Inv(ws[i])
  {
    if i == 0 {
      StartHolds();
    } else {
      BehaviorKeeps(ws, steps, times, i - 1);
      MoveKeeps(ws[i - 1], steps[i - 1], times[i - 1], ws[i]);
    }
  }

  /** However connects interleave, at most one attached socket carries the active generation. */
  lemma OneSocketIsActive(ws: seq<World>, steps: seq<Step>, times: seq<int>, i: nat, s: Socket, u: Socket)
    requires Behavior(ws, steps, times) && i < |ws|
    requires OnActive(ws[i].st, s) && OnActive(ws[i].st, u)
    ensures s == u && s in ws[i].st.sockets
  {
    BehaviorKeeps(ws, steps, times, i);
  }

  /** Everything pending belongs to that socket and its generation, and there are never more than eight. */
  lemma PendingBelongsToTheActive(ws: seq<World>, steps: seq<Step>, times: seq<int>, i: nat)
    requires Behavior(ws, steps, times) && i < |ws|
    ensures |ws[i].st.pending| <= MAX_PENDING
    ensures forall e :: e in ws[i].st.pending ==> OnActive(ws[i].st, e.socket) && ws[i].st.active == Some(e.generation)
    ensures forall e, f :: e in ws[i].st.pending && f in ws[i].st.pending ==> e.socket == f.socket
  {
    BehaviorKeeps(ws, steps, times, i);
    forall e, f | e in ws[i].st.pending && f in ws[i].st.pending ensures e.socket == f.socket {
      OneSocketIsActive(ws, steps, times, i, e.socket, f.socket);
    }
  }

  /** At every moment a call that was made has one answer or is waited for once, never both; any other has neither. */
  lemma ResolvesExactlyOnce(ws: seq<World>, steps: seq<Step>, times: seq<int>, i: nat, call: Call)
    requires Behavior(ws, steps, times) && i < |ws|
    ensures Answered(ws[i].st.answers, call) + Outstanding(ws[i].st.pending, call) == if call in ws[i].asked then 1 else 0
  {
    BehaviorKeeps(ws, steps, times, i);
    assert Held(ws[i].st, call) == if call in ws[i].asked then 1 else 0;
  }

  // ------------------------------------------------------------------ results

  /** A step adds answers at the end, and only the owner's reply adds a result. */
  ghost predicate AnswersGrow(a: State, step: Step, now: int, b: State) {
    && a.answers <= b.answers
    && forall k :: |a.answers| <= k < |b.answers| && b.answers[k].outcome.Result? ==>
      && step.Reply? && b.answers[k].outcome.result == step.result && Has(a.pending, step.id)
      && var e := Get(a.pending, step.id);
         b.answers[k].call == e.call && e.socket == step.socket && e.generation == step.generation && now < e.deadline
  }

  ghost predicate Failures(a: State, b: State) {
    a.answers <= b.answers && forall k :: |a.answers| <= k < |b.answers| ==> b.answers[k].outcome.Failed?
  }

  lemma AnswersOfMove(w: World, step: Step, now: int)
    requires Inv(w) && Allowed(w, step)
    ensures AnswersGrow(w.st, step, now, Next(w.st, step, now))
  {
    if step.Reply? {
      ReplyAnswers(w.st, step.socket, step.id, step.generation, step.result, now);
    } else if FromPanel(step) || step.Timer? {
      PanelAnswers(w.st, step, now);
    } else {
      OwnerAnswers(w.st, step, now);
    }
  }

  lemma ReplyAnswers(st: State, s: Socket, id: Id, generation: Generation, result: string, now: int)
    ensures AnswersGrow(st, Reply(s, id, generation, result), now, RunReply(st, s, id, generation, result, now))
  {
  }

  lemma PanelAnswers(st: State, step: Step, now: int)
    requires UniqueIds(st.pending) && (FromPanel(step) || step.Timer?) && !step.Reply?
    ensures Failures(st, Next(st, step, now))
  {
    match step
    case Ready(s, _) => RejectEases(st, s);
    case Malformed(s) => RejectEases(st, s);
    case Garbage(s) => RejectEases(st, s);
    case Close(s) => CloseAnswers(st, s);
    case Error(s) => RejectEases(st, s);
    case Timer(id) => FinishEases(st, id, TimedOut);
  }

  lemma OwnerAnswers(st: State, step: Step, now: int)
    requires UniqueIds(st.pending) && !FromPanel(step) && !step.Timer?
    ensures Failures(st, Next(st, step, now))
  {
    match step
    case Open(token, _, _) => ReplaceAllEases(Consume(st, token), st.sockets);
    case Command(call, principal, valid, id, throws) => CommandAnswers(st, call, principal, valid, id, throws, now);
    case Cancel(principal, id) => CancelAnswers(st, principal, id, now);
    case Alarm => FailAllEases(st, st.sockets);
    case Restart => LoseAllAnswers(st, st.pending);
    case _ =>
  }

  lemma DispatchAnswers(st: State, call: Call, id: Id, s: Socket, throws: bool, now: int)
    requires s in st.conns
    ensures Failures(st, Dispatch(st, call, id, s, throws, now))
  {
  }

  lemma CommandAnswers(st: State, call: Call, principal: Principal, valid: bool, id: Id, throws: bool, now: int)
    ensures Failures(st, RunCommand(st, call, principal, valid, id, throws, now))
  {
    var pruned := st.(cancelled := Pruned(st.cancelled, now));
    if Target(pruned).Some? { DispatchAnswers(pruned, call, id, Target(pruned).value, throws, now); }
  }

  lemma CancelAnswers(st: State, principal: Principal, id: Id, now: int)
    ensures Failures(st, RunCancel(st, principal, id, now))
  {
  }

  lemma CloseAnswers(st: State, s: Socket)
    requires UniqueIds(st.pending)
    ensures Eases(st, FailSocket(Unready(st, s), s, Unavailable))
  {
    UnreadyEases(st, s);
    FailSocketEases(Unready(st, s), s, Unavailable);
    EasesTwice(st, Unready(st, s), FailSocket(Unready(st, s), s, Unavailable));
  }

  // ------------------------------------------------------- what is left alone

  /** Neither the generation nor what is stored, nor the cancel table, is touched. */
  ghost predicate Aside(a: State, b: State) {
    && b.active == a.active && b.stored == a.stored && b.opening == a.opening && b.cancelled == a.cancelled
    && b.tickets == a.tickets && b.registration == a.registration && b.alarm == a.alarm
  }

  lemma {:induction false} FailEntriesAside(st: State, entries: seq<Entry>, s: Socket, failure: Failure)
    ensures Aside(st, FailEntries(st, entries, s, failure))
    decreases |entries|
  {
    if entries != [] {
      var e := entries[0];
      FailEntriesAside(if e.socket == s then Finish(st, e.id, Failed(failure), true) else st, entries[1..], s, failure);
    }
  }

  lemma RejectAside(st: State, s: Socket)
    ensures Aside(st, Reject(st, s)) && Aside(st, FailSocket(Unready(st, s), s, Unavailable))
  {
    FailEntriesAside(Unready(st, s), Unready(st, s).pending, s, BadProtocol);
    FailEntriesAside(Unready(st, s), Unready(st, s).pending, s, Unavailable);
  }

  lemma {:induction false} ReplaceAllAside(st: State, previous: seq<Socket>)
    ensures Aside(st, ReplaceAll(st, previous))
    decreases |previous|
  {
    if previous != [] {
      var unready := Unready(st, previous[0]);
      FailEntriesAside(unready, unready.pending, previous[0], Reconnected);
      ReplaceAllAside(FailSocket(unready, previous[0], Reconnected), previous[1..]);
    }
  }

  lemma {:induction false} FailAllAside(st: State, attached: seq<Socket>)
    ensures Aside(st, FailAll(st, attached))
    decreases |attached|
  {
    if attached != [] {
      FailEntriesAside(st, st.pending, attached[0], Unavailable);
      FailAllAside(FailSocket(st, attached[0], Unavailable), attached[1..]);
    }
  }

  lemma PanelAside(st: State, step: Step, now: int)
    requires FromPanel(step) || step.Timer?
    ensures Aside(st, Next(st, step, now))
  {
    if step.Reply? || step.Timer? {
      SettlingAside(st, step, now);
    } else {
      RejectAside(st, step.socket);
    }
  }

  lemma SettlingAside(st: State, step: Step, now: int)
    requires step.Reply? || step.Timer?
    ensures Aside(st, Next(st, step, now))
  {
  }

  /** The reply that gave call its result: from the socket the command went to, under its generation and id, in time. */
  ghost predicate OwnReply(w: World, step: Step, now: int, answer: Answer) {
    && step.Reply? && answer.outcome == Result(step.result)
    && exists e :: e in w.st.pending && e.call == answer.call && CommandFrame(e) in w.st.sent
                   && e.id == step.id && e.socket == step.socket && e.generation == step.generation && now < e.deadline
  }

  /** A result only ever comes from the panel the command was sent to; no other socket or generation can give one. */
  lemma {:induction false} ResultsAreOwnReplies(ws: seq<World>, steps: seq<Step>, times: seq<int>, i: nat, k: nat)
    requires Behavior(ws, steps, times) && i < |ws| && k < |ws[i].st.answers| && ws[i].st.answers[k].outcome.Result?
    ensures exists j :: 0 <= j < i && OwnReply(ws[j], steps[j], times[j], ws[i].st.answers[k])
  {
    if i > 0 {
      BehaviorKeeps(ws, steps, times, i - 1);
      AnswersOfMove(ws[i - 1], steps[i - 1], times[i - 1]);
      assert AnswersGrow(ws[i - 1].st, steps[i - 1], times[i - 1], ws[i].st);
      if k < |ws[i - 1].st.answers| {
        ResultsAreOwnReplies(ws, steps, times, i - 1, k);
      } else {
        var e := Get(ws[i - 1].st.pending, steps[i - 1].id);
        assert OwnReply(ws[i - 1], steps[i - 1], times[i - 1], ws[i].st.answers[k]);
      }
    }
  }

  /** A command that was sent is pending, answered by the panel, lost with the object, or called off on its socket. */
  lemma NothingIsLeftRunning(ws: seq<World>, steps: seq<Step>, times: seq<int>, i: nat, e: Entry)
    requires Behavior(ws, steps, times) && i < |ws| && CommandFrame(e) in ws[i].st.sent
    ensures
      || e in ws[i].st.pending || CancelFrame(e) in ws[i].st.sent || Answer(e.call, Failed(Lost)) in ws[i].st.answers
      || exists r :: Answer(e.call, Result(r)) in ws[i].st.answers
  {
    BehaviorKeeps(ws, steps, times, i);
  }

  // ------------------------------------------------------------ other sockets

  lemma FinishSpares(st: State, id: Id, outcome: Outcome, cancel: bool, e: Entry)
    requires e in st.pending && e.id != id
    ensures e in Finish(st, id, outcome, cancel).pending
  {
  }

  lemma {:induction false} FailEntriesSpares(st: State, entries: seq<Entry>, s: Socket, failure: Failure, e: Entry)
    requires e in st.pending && e.socket != s && forall x :: x in entries && x.id == e.id ==> x == e
    ensures e in FailEntries(st, entries, s, failure).pending
    decreases |entries|
  {
    if entries != [] {
      assert entries[0] in entries;
      var mid := if entries[0].socket == s then Finish(st, entries[0].id, Failed(failure), true) else st;
      if entries[0].socket == s { FinishSpares(st, entries[0].id, Failed(failure), true, e); }
      FailEntriesSpares(mid, entries[1..], s, failure, e);
    }
  }

  lemma FailSocketSpares(st: State, s: Socket, failure: Failure, e: Entry)
    requires UniqueIds(st.pending) && e in st.pending && e.socket != s
    ensures e in FailSocket(st, s, failure).pending
  {
    forall x | x in st.pending && x.id == e.id ensures x == e { GetIs(st.pending, x); GetIs(st.pending, e); }
    FailEntriesSpares(st, st.pending, s, failure, e);
  }

  function SocketOf(step: Step): Socket
    requires FromPanel(step)
  {
    step.socket
  }

  /** Whatever a socket sends, and however it goes, the commands of another socket stay pending. */
  lemma OthersCannotSettle(ws: seq<World>, steps: seq<Step>, times: seq<int>, i: nat, e: Entry)
    requires Behavior(ws, steps, times) && i < |steps| && FromPanel(steps[i])
    requires e in ws[i].st.pending && e.socket != SocketOf(steps[i])
    ensures e in ws[i + 1].st.pending
  {
    BehaviorKeeps(ws, steps, times, i);
    FrameSpares(ws[i].st, steps[i], times[i], e);
  }

  lemma FrameSpares(st: State, step: Step, now: int, e: Entry)
    requires UniqueIds(st.pending) && FromPanel(step) && e in st.pending && e.socket != SocketOf(step)
    ensures e in Next(st, step, now).pending
  {
    var s := SocketOf(step);
    FailSocketSpares(Unready(st, s), s, BadProtocol, e);
    FailSocketSpares(Unready(st, s), s, Unavailable, e);
    if step.Reply? && Has(st.pending, step.id) { GetIs(st.pending, e); }
  }

  /** A generation that was drawn and is neither active nor stored any more never is again. */
  lemma {:induction false} ReplacedForGood(ws: seq<World>, steps: seq<Step>, times: seq<int>, i: nat, j: nat, g: Generation)
    requires Behavior(ws, steps, times) && i <= j < |ws| && g in ws[i].drawn && ws[i].st.active != Some(g) && ws[i].st.stored != Some(g)
    ensures ws[j].st.active != Some(g) && ws[j].st.stored != Some(g) && g in ws[j].drawn
    decreases j - i
  {
    if i < j {
      ReplacedForGood(ws, steps, times, i, j - 1, g);
      BehaviorKeeps(ws, steps, times, j - 1);
      ActiveMoves(ws[j - 1].st, steps[j - 1], times[j - 1]);
    }
  }

  lemma ActiveMoves(st: State, step: Step, now: int)
    ensures
      var after := Next(st, step, now);
      && (after.active == st.active || after.active == st.stored || (step.Open? && after.active == Some(step.generation)))
      && (after.stored == st.stored || after.stored == None || (step.Open? && after.stored == Some(step.generation)))
  {
    if FromPanel(step) || step.Timer? {
      PanelAside(st, step, now);
    } else if step.Open? {
      ReplaceAllAside(Consume(st, step.token), st.sockets);
    } else if step.Alarm? {
      FailAllAside(st, st.sockets);
    } else if step.Restart? {
      LoseAllAnswers(st, st.pending);
    } else {
      OwnerGenerations(st, step, now);
    }
  }

  lemma OwnerGenerations(st: State, step: Step, now: int)
    requires step.Register? || step.IssueTicket? || step.ExchangePairing? || step.Seat? || step.Command? || step.Cancel?
    ensures Next(st, step, now).active == st.active && Next(st, step, now).stored == st.stored
  {
    if step.Command? { CommandGenerations(st, step, now); }
  }

  lemma CommandGenerations(st: State, step: Step, now: int)
    requires step.Command?
    ensures Next(st, step, now).active == st.active && Next(st, step, now).stored == st.stored
  {
  }

  // ------------------------------------------------------------------ tickets

  /** Never more than sixteen tickets, spent or not, are kept. */
  lemma TicketsAreFew(ws: seq<World>, steps: seq<Step>, times: seq<int>, i: nat)
    requires Behavior(ws, steps, times) && i < |ws|
    ensures |ws[i].st.tickets| <= MAX_TICKETS
  {
    BehaviorKeeps(ws, steps, times, i);
  }

  /** The steps that may mint a given ticket. */
  predicate Mints(step: Step, token: Token) {
    (step.IssueTicket? && step.token == token) || (step.ExchangePairing? && step.minted == token)
  }

  /** Where a minted ticket came from: who asked, for which origin and kind, and when. */
  predicate MintedAs(step: Step, now: int, token: Token, ticket: Ticket) {
    && Mints(step, token) && ticket.expiresAt == now + TICKET_LIFETIME
    && match step
       case IssueTicket(_, _, origin, kind) => ticket.origin == origin && ticket.kind == kind
       case ExchangePairing(_, _, origin, _) => ticket.origin == origin && ticket.kind == SocketTicket
       case _ => false
  }

  lemma TicketsOfMove(st: State, step: Step, now: int, token: Token)
    requires token in Next(st, step, now).tickets
    ensures
      var ticket := Next(st, step, now).tickets[token];
      (token in st.tickets && ticket == st.tickets[token]) || MintedAs(step, now, token, ticket)
  {
    if FromPanel(step) || step.Timer? {
      PanelAside(st, step, now);
    } else if step.Command? {
      CommandTickets(st, step, now);
    } else {
      match step
      case Open(t, _, _) => ReplaceAllAside(Consume(st, t), st.sockets);
      case Alarm => FailAllAside(st, st.sockets);
      case Restart => LoseAllAnswers(st, st.pending);
      case _ => MintTickets(st, step, now, token);
    }
  }

  lemma CommandTickets(st: State, step: Step, now: int)
    requires step.Command?
    ensures Next(st, step, now).tickets == st.tickets
  {
  }

  lemma MintTickets(st: State, step: Step, now: int, token: Token)
    requires (step.Register? || step.IssueTicket? || step.ExchangePairing? || step.Seat? || step.Cancel?) && token in Next(st, step, now).tickets
    ensures
      var ticket := Next(st, step, now).tickets[token];
      (token in st.tickets && ticket == st.tickets[token]) || MintedAs(step, now, token, ticket)
  {
    if step.Register? || step.Seat? || step.Cancel? { UntouchedTickets(st, step, now); }
  }

  lemma UntouchedTickets(st: State, step: Step, now: int)
    requires step.Register? || step.Seat? || step.Cancel?
    ensures Next(st, step, now).tickets == st.tickets
  {
  }

  /** Every ticket that is kept was minted at a step of the run, with what it says. */
  lemma {:induction false} TicketsAreMinted(ws: seq<World>, steps: seq<Step>, times: seq<int>, i: nat, token: Token)
    requires Behavior(ws, steps, times) && i < |ws| && token in ws[i].st.tickets
    ensures exists j :: 0 <= j < i && MintedAs(steps[j], times[j], token, ws[i].st.tickets[token])
  {
    if i > 0 {
      TicketsOfMove(ws[i - 1].st, steps[i - 1], times[i - 1], token);
      if token in ws[i - 1].st.tickets && ws[i].st.tickets[token] == ws[i - 1].st.tickets[token] {
        TicketsAreMinted(ws, steps, times, i - 1, token);
      } else {
        assert MintedAs(steps[i - 1], times[i - 1], token, ws[i].st.tickets[token]);
      }
    }
  }

  /** A step that was let in by a ticket. */
  predicate Spends(st: State, step: Step, now: int, token: Token) {
    match step
    case Open(t, origin, _) => t == token && Registered(st, now) && Granted(st, token, origin, SocketTicket, now)
    case ExchangePairing(userId, t, origin, _) =>
      && t == token && Registered(st, now) && st.registration.value.principal.userId == userId
      && Granted(st, token, origin, PairingTicket, now)
    case _ => false
  }

  lemma {:induction false} TicketsDoNotReturn(ws: seq<World>, steps: seq<Step>, times: seq<int>, i: nat, j: nat, token: Token)
    requires Behavior(ws, steps, times) && i <= j < |ws| && token !in ws[i].st.tickets
    requires forall k :: i <= k < j ==> !Mints(steps[k], token)
    ensures token !in ws[j].st.tickets
    decreases j - i
  {
    if i < j {
      TicketsDoNotReturn(ws, steps, times, i, j - 1, token);
      if token in ws[j].st.tickets { TicketsOfMove(ws[j - 1].st, steps[j - 1], times[j - 1], token); }
    }
  }

  lemma SpentIsGone(w: World, step: Step, now: int, token: Token)
    requires Inv(w) && Spends(w.st, step, now, token) && !Mints(step, token)
    ensures token !in Next(w.st, step, now).tickets
  {
    if step.Open? { ReplaceAllEases(Consume(w.st, token), w.st.sockets); }
  }

  /**
   * A ticket lets one connect or one pairing in: it was minted within the last
   * minute for that origin and that use, and before it can let anything in again
   * it must be minted again.
   */
  lemma TicketsAreSpentOnce(ws: seq<World>, steps: seq<Step>, times: seq<int>, i: nat, j: nat, token: Token)
    requires Behavior(ws, steps, times) && i < j < |steps|
    requires Spends(ws[i].st, steps[i], times[i], token) && Spends(ws[j].st, steps[j], times[j], token)
    ensures exists k :: i <= k < j && Mints(steps[k], token)
    ensures exists k :: 0 <= k < i && MintedAs(steps[k], times[k], token, ws[i].st.tickets[token]) && times[i] < times[k] + TICKET_LIFETIME
  {
    TicketsAreMinted(ws, steps, times, i, token);
    BehaviorKeeps(ws, steps, times, i);
    if forall k :: i <= k < j ==> !Mints(steps[k], token) {
      SpentIsGone(ws[i], steps[i], times[i], token);
      TicketsDoNotReturn(ws, steps, times, i + 1, j, token);
    }
  }

  // ------------------------------------------------------------- cancellation

  /** A step does not forget a cancellation before its time, unless memory goes. */
  lemma CancelledIsKept(st: State, step: Step, now: int, id: Id)
    requires id in st.cancelled && now < st.cancelled[id] && !step.Restart?
    ensures
      var after := Next(st, step, now);
      id in after.cancelled && (after.cancelled[id] == st.cancelled[id] || after.cancelled[id] == now + COMMAND_TIMEOUT)
  {
    if FromPanel(step) || step.Timer? {
      PanelAside(st, step, now);
    } else {
      match step
      case Open(t, _, _) => ReplaceAllAside(Consume(st, t), st.sockets);
      case Alarm => FailAllAside(st, st.sockets);
      case _ =>
    }
  }

  /**
   * A cancellation that is written down holds for twelve seconds: whatever happens
   * in between, as long as the object lives, a command under that id is refused
   * and nothing is sent.
   */
  lemma CancelledCommandsAreNotSent(ws: seq<World>, steps: seq<Step>, times: seq<int>, i: nat, j: nat)
    requires Behavior(ws, steps, times) && i < j < |steps|
    requires steps[i].Cancel? && Authorized(ws[i].st, steps[i].principal, times[i]) && |ws[i].st.cancelled| < MAX_CANCELLED
    requires steps[j].Command? && steps[j].id == steps[i].id && times[j] < times[i] + COMMAND_TIMEOUT
    requires forall k :: i < k < j ==> !steps[k].Restart?
    ensures ws[j + 1].st.sent == ws[j].st.sent
    ensures ws[j + 1].st.answers == ws[j].st.answers
      + [Answer(steps[j].call, Failed(if Authorized(ws[j].st, steps[j].principal, times[j]) then PanelModel.Cancelled else Forbidden))]
  {
    StillCancelled(ws, steps, times, i, j);
  }

  lemma {:induction false} StillCancelled(ws: seq<World>, steps: seq<Step>, times: seq<int>, i: nat, j: nat)
    requires Behavior(ws, steps, times) && i < j < |ws|
    requires steps[i].Cancel? && Authorized(ws[i].st, steps[i].principal, times[i]) && |ws[i].st.cancelled| < MAX_CANCELLED
    requires forall k :: i < k < j ==> !steps[k].Restart? && times[k] < times[i] + COMMAND_TIMEOUT
    ensures steps[i].id in ws[j].st.cancelled && ws[j].st.cancelled[steps[i].id] >= times[i] + COMMAND_TIMEOUT
    decreases j - i
  {
    if i + 1 < j {
      StillCancelled(ws, steps, times, i, j - 1);
      CancelledIsKept(ws[j - 1].st, steps[j - 1], times[j - 1], steps[i].id);
    }
  }

  /** What a step other than a cancellation under an id does to its entry: it stays as it is, or goes when it has expired. */
  lemma EntryOfMove(st: State, step: Step, now: int, id: Id)
    requires !step.Restart? && !(step.Cancel? && step.id == id)
    ensures
      var after := Next(st, step, now).cancelled;
      && (id in after ==> id in st.cancelled && after[id] == st.cancelled[id])
      && (id in st.cancelled && id !in after ==> st.cancelled[id] <= now)
  {
    if FromPanel(step) || step.Timer? {
      PanelAside(st, step, now);
    } else if step.Command? {
      CommandPrunes(st, step, now);
    } else {
      OwnerEntries(st, step, now);
    }
  }

  lemma CommandPrunes(st: State, step: Step, now: int)
    requires step.Command?
    ensures Next(st, step, now).cancelled in {st.cancelled, Pruned(st.cancelled, now)}
  {
  }

  lemma OwnerEntries(st: State, step: Step, now: int)
    requires !FromPanel(step) && !step.Timer? && !step.Command? && !step.Restart?
    ensures
      var after := Next(st, step, now).cancelled;
      after == st.cancelled || (step.Cancel? && after == st.cancelled[step.id := now + COMMAND_TIMEOUT])
  {
    if step.Open? || step.Alarm? { LoopEntries(st, step, now); }
  }

  lemma LoopEntries(st: State, step: Step, now: int)
    requires step.Open? || step.Alarm?
    ensures Next(st, step, now).cancelled == st.cancelled
  {
    if step.Open? { ReplaceAllAside(Consume(st, step.token), st.sockets); } else { FailAllAside(st, st.sockets); }
  }

  /** Between two moments without a cancellation under an id, and without a restart. */
  ghost predicate Undisturbed(steps: seq<Step>, i: nat, j: nat, id: Id) {
    i <= j <= |steps| && forall k :: i <= k < j ==> !steps[k].Restart? && !(steps[k].Cancel? && steps[k].id == id)
  }

  lemma {:induction false} EntryFollows(ws: seq<World>, steps: seq<Step>, times: seq<int>, i: nat, j: nat, id: Id)
    requires Behavior(ws, steps, times) && i <= j < |ws| && Undisturbed(steps, i, j, id)
    ensures id in ws[j].st.cancelled ==> id in ws[i].st.cancelled && ws[j].st.cancelled[id] == ws[i].st.cancelled[id]
    ensures id in ws[i].st.cancelled && id !in ws[j].st.cancelled ==> j > i && ws[i].st.cancelled[id] <= times[j - 1]
    decreases j - i
  {
    if i < j {
      EntryFollows(ws, steps, times, i, j - 1, id);
      EntryOfMove(ws[j - 1].st, steps[j - 1], times[j - 1], id);
    }
  }

  /** A command that is answered as cancelled, and not sent. */
  ghost predicate RefusedAsCancelled(a: State, step: Step, b: State)
    requires step.Command?
  {
    b.sent == a.sent && b.answers == a.answers + [Answer(step.call, Failed(PanelModel.Cancelled))]
  }

  lemma RefusalOfCommand(st: State, step: Step, now: int)
    requires step.Command? && Authorized(st, step.principal, now)
    ensures RefusedAsCancelled(st, step, Next(st, step, now)) <==> step.id in st.cancelled && now < st.cancelled[step.id]
  {
    if !(step.id in st.cancelled && now < st.cancelled[step.id]) { OtherRefusals(st, step, now); }
  }

  lemma OtherRefusals(st: State, step: Step, now: int)
    requires step.Command? && Authorized(st, step.principal, now) && !(step.id in st.cancelled && now < st.cancelled[step.id])
    ensures
      var answers := Next(st, step, now).answers;
      |answers| == |st.answers| || (|answers| == |st.answers| + 1 && answers[|st.answers|].outcome != Failed(PanelModel.Cancelled))
  {
  }

  /**
   * Exactly when a cancellation holds: a command that follows it within twelve
   * seconds, under its id and with no other cancellation under it in between, is
   * refused as cancelled if and only if the table had room for the cancellation, or
   * already held an entry for the id that has not expired by then.
   */
  lemma CancellationHoldsExactly(ws: seq<World>, steps: seq<Step>, times: seq<int>, i: nat, j: nat)
    requires Behavior(ws, steps, times) && i < j < |steps|
    requires steps[i].Cancel? && Authorized(ws[i].st, steps[i].principal, times[i])
    requires steps[j].Command? && steps[j].id == steps[i].id && times[j] < times[i] + COMMAND_TIMEOUT
    requires Authorized(ws[j].st, steps[j].principal, times[j]) && Undisturbed(steps, i + 1, j, steps[i].id)
    ensures
      var held := ws[i].st.cancelled;
      RefusedAsCancelled(ws[j].st, steps[j], ws[j + 1].st)
      <==> |held| < MAX_CANCELLED || (steps[i].id in held && times[j] < held[steps[i].id])
  {
    var id := steps[i].id;
    RefusalOfCommand(ws[j].st, steps[j], times[j]);
    if |ws[i].st.cancelled| < MAX_CANCELLED {
      StillCancelled(ws, steps, times, i, j);
    } else {
      assert ws[i + 1].st.cancelled == ws[i].st.cancelled;
      EntryFollows(ws, steps, times, i + 1, j, id);
    }
  }

  // --------------------------------------------------------- a table that is full

  const Owner := Principal("u", "c", "e")

  /** Five steps to a panel that is connected and ready. */
  const Setup: seq<Step> := [Register(Owner), IssueTicket(Owner, "t", "o", SocketTicket), Step.Open("t", "o", 1), Seat(1, 0), Step.Ready(0, true)]

  function ReadyState(): State {
    State([0], map[0 := Connection(1, true)], [], map[], Some(1), {}, Some(1), map[],
          Some(Registration(Owner, PANEL_LIFETIME)), Some(TICKET_LIFETIME), [], [])
  }

  /** The worlds these steps lead through. */
  function SetupWorld(i: nat): World {
    match i
    case 0 => Start
    case 1 => World(Init.(registration := Some(Registration(Owner, PANEL_LIFETIME)), alarm := Some(PANEL_LIFETIME)), {}, {})
    case 2 =>
      World(Init.(registration := Some(Registration(Owner, PANEL_LIFETIME)), alarm := Some(TICKET_LIFETIME),
                  tickets := map["t" := Ticket("o", TICKET_LIFETIME, SocketTicket)]), {}, {})
    case 3 => World(ReadyState().(sockets := [], conns := map[], opening := {1}), {}, {1})
    case 4 => World(ReadyState().(conns := map[0 := Connection(1, false)]), {}, {1})
    case _ => World(ReadyState(), {}, {1})
  }

  lemma SetupMoves(i: nat)
    requires i < 5
    ensures Moves(SetupWorld(i), Setup[i], 0, SetupWorld(i + 1))
  {
    if i == 1 { TicketMove(); } else if i == 2 { OpenMove(); }
  }

  lemma TicketMove()
    ensures Moves(SetupWorld(1), Setup[1], 0, SetupWorld(2))
  {
    assert Unexpired(map[], 0) == map[];
  }

  lemma OpenMove()
    ensures Moves(SetupWorld(2), Setup[2], 0, SetupWorld(3))
  {
    assert map["t" := Ticket("o", TICKET_LIFETIME, SocketTicket)] - {"t"} == map[];
  }

  function Name(n: nat): Id {
    seq(n, _ => 'x')
  }

  /** The setup and then one cancellation after another. */
  function CancelAll(n: nat): State {
    if n == 0 then ReadyState() else RunCancel(CancelAll(n - 1), Owner, Name(n - 1), 0)
  }

  /** Nothing is pending, and the table holds one entry for each of the first names, as far as it goes. */
  ghost predicate Filled(st: State, n: nat) {
    && st == ReadyState().(cancelled := st.cancelled)
    && |st.cancelled| == (if n < MAX_CANCELLED then n else MAX_CANCELLED)
    && forall m :: m >= n || m >= MAX_CANCELLED ==> Name(m) !in st.cancelled
  }

  lemma OneCancel(st: State, n: nat)
    requires Filled(st, n)
    ensures Filled(RunCancel(st, Owner, Name(n), 0), n + 1)
  {
    forall m: nat | m != n ensures Name(m) != Name(n) {
      assert |Name(m)| == m && |Name(n)| == n;
    }
    assert Name(n) !in st.cancelled;
  }

  /** Every cancellation takes a place of the table, as long as there is one. */
  lemma {:induction false} CancelsFill(n: nat)
    ensures Filled(CancelAll(n), n)
  {
    if n > 0 {
      CancelsFill(n - 1);
      OneCancel(CancelAll(n - 1), n - 1);
    }
  }

  const Last := Command(0, Owner, true, Name(32), false)

  /** Thirty-three cancellations and a command under the last one's id. */
  function Flood(): (r: seq<Step>)
    ensures |r| == 39 && (forall i :: 0 <= i < 5 ==> r[i] == Setup[i])
    ensures (forall i :: 5 <= i < 38 ==> r[i] == Step.Cancel(Owner, Name(i - 5))) && r[38] == Last
  {
    Setup + seq(33, i requires 0 <= i < 33 => Step.Cancel(Owner, Name(i))) + [Last]
  }

  ghost function FloodWorld(i: nat): World {
    if i < 5 then SetupWorld(i)
    else if i <= 38 then World(CancelAll(i - 5), {}, {1})
    else World(RunCommand(CancelAll(33), 0, Owner, true, Name(32), false, 0), {0}, {1})
  }

  lemma FloodMoves(i: nat)
    requires i < 39
    ensures Moves(FloodWorld(i), Flood()[i], 0, FloodWorld(i + 1))
  {
    if i < 5 { SetupMoves(i); }
  }

  lemma FloodIsARun() returns (ws: seq<World>, times: seq<int>)
    ensures Behavior(ws, Flood(), times) && (forall i :: 0 <= i < 40 ==> ws[i] == FloodWorld(i)) && forall i :: 0 <= i < 39 ==> times[i] == 0
  {
    ws := seq(40, i requires 0 <= i < 40 => FloodWorld(i));
    times := seq(39, _ => 0);
    forall i | 0 <= i < 39 ensures Moves(ws[i], Flood()[i], times[i], ws[i + 1]) {
      FloodMoves(i);
      assert ws[i] == FloodWorld(i) && ws[i + 1] == FloodWorld(i + 1) && times[i] == 0;
    }
    assert ws[0] == Start;
  }

  /** A run of thirty-three cancellations and a command under the last one's id, which is sent. */
  lemma FullTableForgets() returns (ws: seq<World>, times: seq<int>)
    ensures Behavior(ws, Flood(), times)
    ensures Flood()[37] == Step.Cancel(Owner, Name(32)) && Authorized(ws[37].st, Owner, times[37])
    ensures Flood()[38].Command? && Flood()[38].id == Name(32) && times[38] == times[37]
    ensures |ws[39].st.sent| == 1 && ws[39].st.sent[0].CommandFrame? && ws[39].st.sent[0].entry.id == Name(32)
  {
    ws, times := FloodIsARun();
    CancelsFill(32);
    CancelsFill(33);
    assert ws[37] == World(CancelAll(32), {}, {1});
    FullSends(CancelAll(33));
    assert ws[39].st == RunCommand(CancelAll(33), 0, Owner, true, Name(32), false, 0);
  }

  lemma FullSends(st: State)
    requires st == ReadyState().(cancelled := st.cancelled) && Name(32) !in st.cancelled
    ensures
      var after := RunCommand(st, 0, Owner, true, Name(32), false, 0);
      |after.sent| == 1 && after.sent[0].CommandFrame? && after.sent[0].entry.id == Name(32)
  {
    var pruned := st.(cancelled := Pruned(st.cancelled, 0));
    assert OnActive(pruned, 0) && pruned.conns[0].ready && pruned.sockets == [0];
    assert 0 in pruned.sockets;
    assert Target(pruned).Some?;
  }

  // -------------------------------------------------------------------- alarm

  /** While a panel is registered an alarm is pending, at most a ticket's life after the registration ends. */
  lemma {:induction false} ExpiryIsScheduled(ws: seq<World>, steps: seq<Step>, times: seq<int>, i: nat)
    requires Behavior(ws, steps, times) && i < |ws| && ws[i].st.registration.Some?
    ensures ws[i].st.alarm.Some? && ws[i].st.alarm.value <= ws[i].st.registration.value.expiresAt + TICKET_LIFETIME
  {
    if i > 0 {
      if ws[i - 1].st.registration.Some? { ExpiryIsScheduled(ws, steps, times, i - 1); }
      AlarmOfMove(ws[i - 1].st, steps[i - 1], times[i - 1]);
    }
  }

  ghost predicate Guarded(st: State) {
    st.registration.Some? ==> st.alarm.Some? && st.alarm.value <= st.registration.value.expiresAt + TICKET_LIFETIME
  }

  lemma AlarmOfMove(st: State, step: Step, now: int)
    requires Guarded(st)
    ensures Guarded(Next(st, step, now))
  {
    if FromPanel(step) || step.Timer? {
      PanelAside(st, step, now);
    } else if step.Open? {
      ReplaceAllAside(Consume(st, step.token), st.sockets);
    } else if step.Restart? {
      LoseAllAnswers(st, st.pending);
    } else if step.Command? {
      CommandGuarded(st, step, now);
    } else {
      OwnerGuarded(st, step, now);
    }
  }

  lemma CommandGuarded(st: State, step: Step, now: int)
    requires Guarded(st) && step.Command?
    ensures Guarded(Next(st, step, now))
  {
  }

  lemma OwnerGuarded(st: State, step: Step, now: int)
    requires Guarded(st) && (step.Register? || step.IssueTicket? || step.ExchangePairing? || step.Seat? || step.Cancel? || step.Alarm?)
    ensures Guarded(Next(st, step, now))
  {
  }
}
