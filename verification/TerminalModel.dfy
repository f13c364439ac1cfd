/**
 * Dashboard terminals on one device relay. A terminal's output lives in up to
 * three places: the buffer beside a viewer's socket, the queue of output that
 * arrived while nobody watched, and the stored row. The first two are memory
 * and go with hibernation.
 */
module TerminalModel {
  import opened Common
  import opened TerminalReplay

  type SocketId = nat
  type SessionId = nat
  type Target = nat
  type Token = nat

  const IDLE := 30 * 60_000
  const LIFETIME := 8 * 60 * 60_000
  const TICKET := 30_000
  const TOUCH := 5_000
  const EMPTY := Buffer([], 0)

  datatype Viewer = Viewer(id: SessionId, target: Target, settled: bool, startedAt: int, lastActivityAt: int)
  datatype Memory = Memory(buffer: Buffer, seeded: bool)
  datatype Session = Session(id: SessionId, target: Target, startedAt: int, lastActivityAt: int, buffer: Buffer)

  /** `scope` stands for the project, workspace, origin and kind a ticket was issued for. */
  datatype Ticket = Ticket(scope: string, expiresAt: int)

  datatype State = State(
    sockets: seq<SocketId>,
    viewers: map<SocketId, Viewer>,
    memory: map<SocketId, Memory>,        // in memory, beside each socket
    pending: map<SessionId, Session>,     // in memory, output nobody has watched yet
    touched: map<SessionId, int>,         // in memory, when a session was last written
    rows: map<Target, Session>,
    tickets: map<Token, Ticket>,
    alarm: Option<int>)

  const Init := State([], map[], map[], map[], map[], map[], map[], None)

  // ----------------------------------------------------------------- lookups

  /** An attached viewer that still shows its terminal. */
  predicate Live(st: State, s: SocketId) {
    s in st.sockets && s in st.viewers && !st.viewers[s].settled
  }

  /** `liveTerminalForSession`. */
  ghost function LiveSession(st: State, id: SessionId): (r: Option<SocketId>)
    ensures r.Some? ==> Live(st, r.value) && st.viewers[r.value].id == id
    ensures r.None? ==> forall s :: Live(st, s) ==> st.viewers[s].id != id
  {
    if s :| Live(st, s) && st.viewers[s].id == id then Some(s) else None
  }

  /** `liveTerminalForTarget`. */
  ghost function LiveTarget(st: State, target: Target): (r: Option<SocketId>)
    ensures r.Some? ==> Live(st, r.value) && st.viewers[r.value].target == target
    ensures r.None? ==> forall s :: Live(st, s) ==> st.viewers[s].target != target
  {
    if s :| Live(st, s) && st.viewers[s].target == target then Some(s) else None
  }

  ghost predicate HasRow(st: State, id: SessionId) {
    exists t :: t in st.rows && st.rows[t].id == id
  }

  /** `storedTerminalById`. */
  ghost function Row(st: State, id: SessionId): (t: Target)
    requires HasRow(st, id)
    ensures t in st.rows && st.rows[t].id == id
  {
    var t :| t in st.rows && st.rows[t].id == id;
    t
  }

  ghost function LastActivity(st: State, row: Session): int {
    var live := LiveSession(st, row.id);
    if live.Some? then Max(row.lastActivityAt, st.viewers[live.value].lastActivityAt) else row.lastActivityAt
  }

  function TouchedAt(st: State, id: SessionId): int {
    if id in st.touched then st.touched[id] else 0
  }

  // ---------------------------------------------------------------- deadlines

  /** Everything `scheduleWorkspaceAlarm` collects. */
  ghost predicate Due(st: State, d: int) {
    || (exists s :: Live(st, s)
                    && (d == st.viewers[s].lastActivityAt + IDLE || d == st.viewers[s].startedAt + LIFETIME))
    || (exists t :: t in st.rows && (d == LastActivity(st, st.rows[t]) + IDLE || d == st.rows[t].startedAt + LIFETIME))
    || (exists id :: id in st.pending && d == TouchedAt(st, id) + TOUCH)
    || (exists k :: k in st.tickets && d == st.tickets[k].expiresAt)
  }

  /** The alarm a schedule sets: at the earliest deadline, but not within the next second. */
  ghost predicate Scheduled(st: State, alarm: Option<int>, now: int) {
    match alarm
    case None => forall d :: !Due(st, d)
    case Some(a) => exists d :: Due(st, d) && a == Max(now + 1_000, d) && forall e :: Due(st, e) ==> d <= e
  }

  // ----------------------------------------------------------- small effects

  function PutRow(st: State, row: Session): State {
    st.(rows := st.rows[row.target := row])
  }

  ghost function Forget(st: State, id: SessionId): State {
    st.(touched := st.touched - {id}, pending := st.pending - {id},
        rows := if HasRow(st, id) then st.rows - {Row(st, id)} else st.rows)
  }

  function ForgetAll(st: State): State {
    st.(touched := map[], pending := map[], rows := map[])
  }

  function SettleViewer(st: State, s: SocketId): State
    requires s in st.viewers
  {
    st.(viewers := st.viewers[s := st.viewers[s].(settled := true)])
  }

  function FailViewers(st: State): State {
    st.(viewers := map s | s in st.viewers :: if s in st.sockets then st.viewers[s].(settled := true) else st.viewers[s])
  }

  /** `persistDetachedTerminal`, without its schedule. */
  ghost function Persist(st: State, s: SocketId, v: Viewer): State {
    var row := if HasRow(st, v.id) then st.rows[Row(st, v.id)]
               else Session(v.id, v.target, v.startedAt, v.lastActivityAt, EMPTY);
    var buffer :=
      if s !in st.memory then row.buffer
      else if st.memory[s].seeded then st.memory[s].buffer
      else AppendAll(row.buffer, st.memory[s].buffer.replay);
    PutRow(st.(pending := st.pending - {v.id}),
           row.(lastActivityAt := Max(row.lastActivityAt, v.lastActivityAt), buffer := buffer))
  }

  /** `flushDetachedSession`. */
  function Flush(st: State, id: SessionId, now: int): State {
    if id !in st.pending then st
    else PutRow(st.(pending := st.pending - {id}, touched := st.touched[id := now]), st.pending[id])
  }

  /** A session with one more chunk; an empty one only counts as activity. */
  function Grown(held: Session, chunk: string, now: int): Session {
    held.(lastActivityAt := now, buffer := if chunk == "" then held.buffer else Append(held.buffer, chunk))
  }

  /** What `touchDetachedSession` does before any alarm: queue the chunk, or write it through. */
  ghost function Touch(st: State, id: SessionId, chunk: string, now: int): State {
    if id !in st.pending && !HasRow(st, id) then st
    else
      var held := if id in st.pending then st.pending[id] else st.rows[Row(st, id)];
      var queued := st.(pending := st.pending[id := Grown(held, chunk, now)]);
      if now - TouchedAt(st, id) >= TOUCH then Flush(queued, id, now) else queued
  }

  /** Everything queued, written to the rows it belongs to. */
  function FlushAll(st: State, now: int): State {
    st.(pending := map[],
        touched := map id | id in st.touched.Keys + st.pending.Keys :: if id in st.pending then now else st.touched[id],
        rows := map t | t in st.rows :: if st.rows[t].id in st.pending then st.pending[st.rows[t].id] else st.rows[t])
  }

  ghost predicate Expired(st: State, row: Session, now: int) {
    now - LastActivity(st, row) >= IDLE || now - row.startedAt >= LIFETIME
  }

  ghost function ExpiredIds(st: State, now: int): set<SessionId> {
    set t | t in st.rows && Expired(st, st.rows[t], now) :: st.rows[t].id
  }

  /** `expireWorkspaceSessions`, without its schedule. */
  ghost function Expire(st: State, now: int): State {
    DropExpired(FlushAll(st, now), now)
  }

  ghost function DropExpired(flushed: State, now: int): State {
    var gone := ExpiredIds(flushed, now);
    flushed.(
      tickets := map k | k in flushed.tickets && flushed.tickets[k].expiresAt >= now :: flushed.tickets[k],
      viewers := map s | s in flushed.viewers ::
        if s in flushed.sockets && flushed.viewers[s].id in gone then flushed.viewers[s].(settled := true) else flushed.viewers[s],
      touched := flushed.touched - gone,
      pending := flushed.pending - gone,
      rows := map t | t in flushed.rows && !Expired(flushed, flushed.rows[t], now) :: flushed.rows[t])
  }

  /** `detachViewer`: whoever watches a target is sent away and its output is put away. */
  ghost function Detached(st: State, target: Target): State {
    var previous := LiveTarget(st, target);
    if previous.None? then st
    else Persist(SettleViewer(st, previous.value), previous.value, st.viewers[previous.value])
  }

  /** A viewer takes its place at a target nobody watches any more. */
  function Joined(detached: State, s: SocketId, target: Target, requested: SessionId, now: int): State {
    var flushed := if target in detached.rows then Flush(detached, detached.rows[target].id, now) else detached;
    var row := if target in flushed.rows then flushed.rows[target].(lastActivityAt := now)
               else Session(requested, target, now, now, EMPTY);
    PutRow(flushed.(sockets := flushed.sockets + [s],
                    viewers := flushed.viewers[s := Viewer(row.id, target, false, row.startedAt, now)],
                    memory := flushed.memory[s := Memory(row.buffer, true)]), row)
  }

  /** `acceptTerminalSocket`: the newest viewer of a target wins. */
  ghost function Attach(st: State, s: SocketId, target: Target, requested: SessionId, now: int): State {
    Joined(Detached(st, target), s, target, requested, now)
  }

  /** The output frames a viewer is sent when it attaches to a terminal that was already there. */
  ghost function Replayed(st: State, s: SocketId, target: Target, requested: SessionId, now: int): seq<string> {
    Attach(st, s, target, requested, now).memory[s].buffer.replay
  }

  function Record(memory: map<SocketId, Memory>, s: SocketId, chunk: string): map<SocketId, Memory> {
    var held := if s in memory then memory[s] else Memory(EMPTY, false);
    memory[s := held.(buffer := Append(held.buffer, chunk))]
  }

  /** Output for a viewer goes to its buffer; output for nobody is queued. */
  ghost function Output(st: State, id: SessionId, chunk: string, now: int): State {
    var live := LiveSession(st, id);
    if live.Some? then
      st.(viewers := st.viewers[live.value := st.viewers[live.value].(lastActivityAt := now)],
          memory := Record(st.memory, live.value, chunk))
    else Touch(st, id, chunk, now)
  }

  /** `terminal.exit` and `terminal.error`: the shell is gone. */
  ghost function Exit(st: State, id: SessionId): State {
    var live := LiveSession(st, id);
    Forget(if live.Some? then SettleViewer(st, live.value) else st, id)
  }

  ghost function Gone(st: State, s: SocketId): State
    requires s in st.viewers
  {
    var v := st.viewers[s];
    var left := st.(sockets := Without(st.sockets, s));
    if v.settled then left else Persist(left, s, v)
  }

  ghost function CloseTarget(st: State, target: Target): State {
    var live := LiveTarget(st, target);
    var settled := if live.Some? then SettleViewer(st, live.value) else st;
    if target in settled.rows then Forget(settled, settled.rows[target].id)
    else if live.Some? then Forget(settled, st.viewers[live.value].id)
    else settled
  }

  // ------------------------------------------------------------------- steps

  datatype Step =
    | Attaching(s: SocketId, target: Target, requested: SessionId)
    | Emitted(id: SessionId, chunk: string)
    | Exited(id: SessionId)
    | Typed(s: SocketId)
    | Closing(s: SocketId)
    | Leaving(s: SocketId, failed: bool)
    | Issue(token: Token, scope: string)
    | Consume(token: Token, scope: string)
    | Alarm
    | CloseAt(target: Target)
    | NewExecutor
    | LostExecutor
    | Hibernate

  /** Memory does not outlive hibernation; sockets, attachments and storage do. */
  function Forgetful(st: State): State {
    st.(memory := map[], pending := map[], touched := map[])
  }

  predicate AttachedViewer(st: State, s: SocketId) {
    s in st.sockets && s in st.viewers
  }

  /** What a step does to everything but the alarm. */
  ghost function Effect(st: State, step: Step, now: int): State {
    match step
    case Attaching(s, target, requested) => if s in st.viewers then st else Attach(st, s, target, requested, now)
    case Emitted(id, chunk) => Output(st, id, chunk, now)
    case Exited(id) => Exit(st, id)
    case Typed(s) =>
      if AttachedViewer(st, s) && !st.viewers[s].settled
      then st.(viewers := st.viewers[s := st.viewers[s].(lastActivityAt := now)]) else st
    case Closing(s) =>
      if AttachedViewer(st, s) && !st.viewers[s].settled
      then Forget(SettleViewer(st, s), st.viewers[s].id) else st
    case Leaving(s, _) => if AttachedViewer(st, s) then Gone(st, s) else st
    case Issue(token, scope) =>
      if token in st.tickets then st else st.(tickets := st.tickets[token := Ticket(scope, now + TICKET)])
    case Consume(token, _) => st.(tickets := st.tickets - {token})
    case Alarm => Expire(st, now)
    case CloseAt(target) => CloseTarget(st, target)
    case NewExecutor => ForgetAll(FailViewers(st))
    case LostExecutor => ForgetAll(FailViewers(st))
    case Hibernate => Forgetful(st)
  }

  /** The steps that end by scheduling the alarm anew. */
  predicate Schedules(st: State, step: Step, now: int) {
    match step
    case Attaching(s, _, _) => s !in st.viewers
    case Leaving(s, failed) => AttachedViewer(st, s) && (!st.viewers[s].settled || !failed)
    case Issue(token, _) => token !in st.tickets
    case Consume(_, _) => true
    case Alarm => true
    case CloseAt(_) => true
    case NewExecutor => true
    case _ => false
  }

  /** Output queued for the first time inside a touch window arms the end of the window. */
  ghost predicate ArmsWindow(st: State, step: Step, now: int) {
    && step.Emitted? && LiveSession(st, step.id).None?
    && step.id !in st.pending && HasRow(st, step.id)
    && now - TouchedAt(st, step.id) < TOUCH
  }

  /** Output written through schedules. */
  ghost predicate WritesThrough(st: State, step: Step, now: int) {
    && step.Emitted? && LiveSession(st, step.id).None?
    && (step.id in st.pending || HasRow(st, step.id))
    && now - TouchedAt(st, step.id) >= TOUCH
  }

  ghost predicate AlarmAfter(st: State, step: Step, now: int, after: State) {
    var effect := Effect(st, step, now);
    if Schedules(st, step, now) || WritesThrough(st, step, now) then Scheduled(effect, after.alarm, now)
    else if ArmsWindow(st, step, now) then
      var due := TouchedAt(st, step.id) + TOUCH;
      after.alarm == if st.alarm.None? || st.alarm.value > due then Some(due) else st.alarm
    else after.alarm == st.alarm
  }

  /** One step at a moment. */
  ghost predicate Next(st: State, step: Step, now: int, after: State) {
    && after == Effect(st, step, now).(alarm := after.alarm)
    && AlarmAfter(st, step, now, after)
  }
}
