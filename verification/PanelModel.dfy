/**
 * The relay of one workspace panel: a panel is a browser that connects with a
 * one-use ticket, gets a generation, and answers commands until it is replaced.
 */
module PanelModel {
  import opened Common

  type Socket = nat
  type Generation = nat
  type Id = string
  type Token = string
  /** One invocation of `command`; a request id may come back, an invocation does not. */
  type Call = nat

  const PANEL_LIFETIME := 24 * 60 * 60_000
  const TICKET_LIFETIME := 60_000
  const COMMAND_TIMEOUT := 12_000
  const MAX_TICKETS := 16
  const MAX_PENDING := 8
  const MAX_CANCELLED := 32

  datatype Principal = Principal(userId: string, clientId: string, endpoint: string)
  datatype Registration = Registration(principal: Principal, expiresAt: int)
  datatype Kind = SocketTicket | PairingTicket
  datatype Ticket = Ticket(origin: string, expiresAt: int, kind: Kind)
  datatype Connection = Connection(generation: Generation, ready: bool)
  datatype Failure = Unavailable | Reconnected | Forbidden | Cancelled | Invalid | Busy | TimedOut | BadProtocol | Lost
  datatype Outcome = Result(result: string) | Failed(failure: Failure)
  datatype Answer = Answer(call: Call, outcome: Outcome)

  /** A command that was sent and not answered; the list is in the order the map was filled. */
  datatype Entry = Entry(id: Id, socket: Socket, generation: Generation, deadline: int, call: Call)

  datatype Frame =
    | CommandFrame(entry: Entry)
    | CancelFrame(entry: Entry)           // tells the panel to give the command up

  datatype State = State(
    sockets: seq<Socket>,
    conns: map<Socket, Connection>,
    pending: seq<Entry>,
    cancelled: map<Id, int>,
    active: Option<Generation>,
    opening: set<Generation>,             // connects between their ticket and their socket
    stored: Option<Generation>,
    tickets: map<Token, Ticket>,
    registration: Option<Registration>,
    alarm: Option<int>,
    answers: seq<Answer>,                 // every promise resolved, in order
    sent: seq<Frame>)                     // every frame handed to a socket, in order

  const Init := State([], map[], [], map[], None, {}, None, map[], None, None, [], [])

  datatype Step =
    | Register(principal: Principal)
    | IssueTicket(principal: Principal, token: Token, origin: string, kind: Kind)
    | ExchangePairing(userId: string, token: Token, origin: string, minted: Token)
    | Open(token: Token, origin: string, generation: Generation)
    | Seat(generation: Generation, socket: Socket)
    | Command(call: Call, principal: Principal, valid: bool, id: Id, throws: bool)
    | Cancel(principal: Principal, id: Id)
    | Ready(socket: Socket, supported: bool)
    | Reply(socket: Socket, id: Id, generation: Generation, result: string)
    | Malformed(socket: Socket)
    | Garbage(socket: Socket)
    | Close(socket: Socket)
    | Error(socket: Socket)
    | Timer(id: Id)
    | Alarm
    | Restart

  // ----------------------------------------------------------------- lookups

  predicate Registered(st: State, now: int) {
    st.registration.Some? && st.registration.value.expiresAt > now
  }

  predicate Authorized(st: State, principal: Principal, now: int) {
    Registered(st, now) && st.registration.value.principal == principal
  }

  predicate Has(pending: seq<Entry>, id: Id) {
    exists e :: e in pending && e.id == id
  }

  function Get(pending: seq<Entry>, id: Id): (e: Entry)
    requires Has(pending, id)
    ensures e in pending && e.id == id
  {
    if pending[0].id == id then pending[0] else Get(pending[1..], id)
  }

  function Drop(pending: seq<Entry>, id: Id): (rest: seq<Entry>)
    ensures forall e :: e in rest ==> e in pending && e.id != id
    ensures forall e :: e in pending && e.id != id ==> e in rest
    ensures |rest| <= |pending|
  {
    if pending == [] then []
    else if pending[0].id == id then Drop(pending[1..], id)
    else [pending[0]] + Drop(pending[1..], id)
  }

  predicate OnActive(st: State, s: Socket) {
    s in st.conns && st.active == Some(st.conns[s].generation)
  }

  /** The first attached socket that said it is ready and carries the active generation. */
  function Target(st: State): (r: Option<Socket>)
    ensures r.Some? ==> r.value in st.sockets && OnActive(st, r.value) && st.conns[r.value].ready
  {
    Find(st.sockets, (s: Socket) => OnActive(st, s) && st.conns[s].ready)
  }

  // ------------------------------------------------------------ small effects

  function Resolve(st: State, call: Call, outcome: Outcome): State {
    st.(answers := st.answers + [Answer(call, outcome)])
  }

  /** `finish`. */
  function Finish(st: State, id: Id, outcome: Outcome, cancel: bool): State {
    if !Has(st.pending, id) then st
    else
      var e := Get(st.pending, id);
      Resolve(st.(pending := Drop(st.pending, id),
                  sent := if cancel then st.sent + [CancelFrame(e)] else st.sent),
              e.call, outcome)
  }

  /** `failSocket`, over the entries there were. */
  function FailEntries(st: State, entries: seq<Entry>, s: Socket, failure: Failure): State
    decreases |entries|
  {
    if entries == [] then st
    else
      var e := entries[0];
      FailEntries(if e.socket == s then Finish(st, e.id, Failed(failure), true) else st, entries[1..], s, failure)
  }

  function FailSocket(st: State, s: Socket, failure: Failure): State {
    FailEntries(st, st.pending, s, failure)
  }

  function Unready(st: State, s: Socket): State {
    if s in st.conns then st.(conns := st.conns[s := st.conns[s].(ready := false)]) else st
  }

  /** What a connect does to every socket that was there. */
  function ReplaceAll(st: State, previous: seq<Socket>): State
    decreases |previous|
  {
    if previous == [] then st
    else ReplaceAll(FailSocket(Unready(st, previous[0]), previous[0], Reconnected), previous[1..])
  }

  function FailAll(st: State, attached: seq<Socket>): State
    decreases |attached|
  {
    if attached == [] then st
    else FailAll(FailSocket(st, attached[0], Unavailable), attached[1..])
  }

  function Unexpired(tickets: map<Token, Ticket>, now: int): map<Token, Ticket> {
    map k | k in tickets && tickets[k].expiresAt > now :: tickets[k]
  }

  /** `mint`: expired tickets go, and a seventeenth fresh one is refused. */
  function Mint(st: State, token: Token, origin: string, kind: Kind, now: int): State {
    var live := Unexpired(st.tickets, now);
    if |live| >= MAX_TICKETS then st.(tickets := live)
    else st.(tickets := live[token := Ticket(origin, now + TICKET_LIFETIME, kind)], alarm := Some(now + TICKET_LIFETIME))
  }

  /** What `consume` answers; the ticket is deleted whatever the answer. */
  predicate Granted(st: State, token: Token, origin: string, kind: Kind, now: int) {
    && token in st.tickets && st.tickets[token].expiresAt > now
    && st.tickets[token].origin == origin && st.tickets[token].kind == kind
  }

  function Consume(st: State, token: Token): State {
    st.(tickets := st.tickets - {token})
  }

  function Leave(st: State, s: Socket): State {
    st.(sockets := Without(st.sockets, s), conns := st.conns - {s})
  }

  /** `webSocketError`, as a handler. */
  function Reject(st: State, s: Socket): State {
    FailSocket(Unready(st, s), s, BadProtocol)
  }

  function Dispatch(st: State, call: Call, id: Id, s: Socket, throws: bool, now: int): State
    requires s in st.conns
  {
    var e := Entry(id, s, st.conns[s].generation, now + COMMAND_TIMEOUT, call);
    var queued := st.(pending := st.pending + [e]);
    if throws then Finish(queued, id, Failed(Unavailable), true) else queued.(sent := queued.sent + [CommandFrame(e)])
  }

  function Pruned(cancelled: map<Id, int>, now: int): map<Id, int> {
    map id | id in cancelled && cancelled[id] > now :: cancelled[id]
  }

  /** `command`. */
  function RunCommand(st: State, call: Call, principal: Principal, valid: bool, id: Id, throws: bool, now: int): State {
    if !Authorized(st, principal, now) then Resolve(st, call, Failed(Forbidden))
    else
      var pruned := st.(cancelled := Pruned(st.cancelled, now));
      if id in pruned.cancelled then Resolve(pruned, call, Failed(Cancelled))
      else if !valid then Resolve(pruned, call, Failed(Invalid))
      else if Target(pruned).None? then Resolve(pruned, call, Failed(Unavailable))
      else if |pruned.pending| >= MAX_PENDING || Has(pruned.pending, id) then Resolve(pruned, call, Failed(Busy))
      else Dispatch(pruned, call, id, Target(pruned).value, throws, now)
  }

  function RunCancel(st: State, principal: Principal, id: Id, now: int): State {
    if !Authorized(st, principal, now) then st
    else
      var noted := if |st.cancelled| < MAX_CANCELLED
                   then st.(cancelled := st.cancelled[id := now + COMMAND_TIMEOUT]) else st;
      Finish(noted, id, Failed(Cancelled), true)
  }

  function RunReply(st: State, s: Socket, id: Id, generation: Generation, result: string, now: int): State {
    if !OnActive(st, s) || !Has(st.pending, id) then st
    else
      var e := Get(st.pending, id);
      if e.socket != s || e.generation != generation || st.conns[s].generation != generation then st
      else if e.deadline <= now then Finish(st, id, Failed(TimedOut), true)
      else Finish(st, id, Result(result), false)
  }

  /** `alarm`. */
  ghost function RunAlarm(st: State, now: int): State {
    if !Registered(st, now) then
      FailAll(st, st.sockets).(stored := None, tickets := map[], registration := None, alarm := None)
    else
      var live := Unexpired(st.tickets, now);
      st.(tickets := live, alarm := Some(Earliest(live, st.registration.value.expiresAt)))
  }

  /** The registration's end, or the first ticket's. */
  ghost predicate IsEarliest(tickets: map<Token, Ticket>, bound: int, least: int) {
    && least <= bound && (forall k :: k in tickets ==> least <= tickets[k].expiresAt)
    && (least == bound || exists k :: k in tickets && least == tickets[k].expiresAt)
  }

  lemma {:induction false} EarliestExists(tickets: map<Token, Ticket>, bound: int)
    ensures exists least :: IsEarliest(tickets, bound, least)
    decreases |tickets|
  {
    if tickets == map[] {
      assert IsEarliest(tickets, bound, bound);
    } else {
      var k :| k in tickets;
      EarliestExists(tickets - {k}, bound);
      var rest :| IsEarliest(tickets - {k}, bound, rest);
      assert forall x :: x in tickets && x != k ==> x in tickets - {k};
      assert IsEarliest(tickets, bound, Min(rest, tickets[k].expiresAt));
    }
  }

  ghost function Earliest(tickets: map<Token, Ticket>, bound: int): (least: int)
    ensures IsEarliest(tickets, bound, least)
  {
    EarliestExists(tickets, bound);
    var least :| IsEarliest(tickets, bound, least);
    least
  }

  /** A deploy or an eviction: memory goes, and the callers that were waiting get an error. */
  function LoseAll(st: State, entries: seq<Entry>): State
    decreases |entries|
  {
    if entries == [] then st
    else LoseAll(Resolve(st, entries[0].call, Failed(Lost)), entries[1..])
  }

  function RunRestart(st: State): State {
    LoseAll(st, st.pending).(pending := [], cancelled := map[], active := st.stored, opening := {})
  }

  /** One step at a moment. */
  ghost function Next(st: State, step: Step, now: int): State {
    match step
    case Register(principal) =>
      if st.registration.Some? then st
      else st.(registration := Some(Registration(principal, now + PANEL_LIFETIME)), alarm := Some(now + PANEL_LIFETIME))
    case IssueTicket(principal, token, origin, kind) =>
      if Authorized(st, principal, now) then Mint(st, token, origin, kind, now) else st
    case ExchangePairing(userId, token, origin, minted) =>
      if !Registered(st, now) || st.registration.value.principal.userId != userId then st
      else if !Granted(st, token, origin, PairingTicket, now) then Consume(st, token)
      else Mint(Consume(st, token), minted, origin, SocketTicket, now)
    case Open(token, origin, generation) =>
      if !Registered(st, now) then st
      else if !Granted(st, token, origin, SocketTicket, now) then Consume(st, token)
      else
        ReplaceAll(Consume(st, token), st.sockets)
          .(active := Some(generation), stored := Some(generation), opening := st.opening + {generation})
    case Seat(generation, s) =>
      if generation !in st.opening || s in st.sockets then st
      else st.(sockets := st.sockets + [s], conns := st.conns[s := Connection(generation, false)], opening := st.opening - {generation})
    case Command(call, principal, valid, id, throws) => RunCommand(st, call, principal, valid, id, throws, now)
    case Cancel(principal, id) => RunCancel(st, principal, id, now)
    case Ready(s, supported) =>
      if !OnActive(st, s) then st
      else if !supported then Reject(st, s)
      else st.(conns := st.conns[s := st.conns[s].(ready := true)])
    case Reply(s, id, generation, result) => RunReply(st, s, id, generation, result, now)
    case Malformed(s) => if OnActive(st, s) then Reject(st, s) else st
    case Garbage(s) => if s in st.conns then Reject(st, s) else st
    case Close(s) => if s in st.sockets then Leave(FailSocket(Unready(st, s), s, Unavailable), s) else st
    case Error(s) => if s in st.sockets then Leave(Reject(st, s), s) else st
    case Timer(id) =>
      if Has(st.pending, id) && Get(st.pending, id).deadline <= now then Finish(st, id, Failed(TimedOut), true) else st
    case Alarm => RunAlarm(st, now)
    case Restart => RunRestart(st)
  }
}
