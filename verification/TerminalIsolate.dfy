/**
 * Relays that share an isolate share one queue of unwatched output, because it is
 * module-level. This is one relay with any number of others beside it: what a step of
 * any of them does, and which of this relay's sessions it loses something of, or spoils.
 */
module TerminalIsolate {
  import opened Common
  import opened TerminalReplay
  import opened TerminalModel
  import opened TerminalSafety

  // ------------------------------------------------------- many relays, one queue

  /** `flushAllDetached`: one entry after another in the order the queue was filled, each to the target it names. */
  function FlushEach(st: State, order: seq<SessionId>, now: int): State
    decreases |order|
  {
    if order == [] then st else FlushEach(Flush(st, order[0], now), order[1..], now)
  }

  ghost predicate Listing(st: State, order: seq<SessionId>) {
    Distinct(order) && forall id :: id in order <==> id in st.pending
  }

  /** What a step writes, before an alarm drops what is overdue. Sleeping drops the buffers beside the sockets; the queue is the isolate's. */
  ghost function Written(st: State, step: Step, order: seq<SessionId>, now: int): State {
    match step
    case Alarm => FlushEach(st, order, now)
    case Hibernate => st.(memory := map[])
    case _ => Effect(st, step, now)
  }

  ghost function Act(st: State, step: Step, order: seq<SessionId>, now: int): State {
    if step.Alarm? then DropExpired(Written(st, step, order, now), now) else Written(st, step, order, now)
  }

  /** One relay finds the two maps as another one left them. */
  function Sharing(st: State, from: State): State {
    st.(pending := from.pending, touched := from.touched)
  }

  type RelayId = nat

  /**
   * `here` is the relay that is looked at, and holds the queue for all; `others` are
   * the ones beside it, as far as they ever did anything. `homes` has every session
   * id a viewer of any of them came with, and for which target; `hist` what the
   * sessions of here emitted, `lost` those of them that something was lost of, and
   * `spoiled` those that something of another session's was put in the place of.
   */
  datatype Isolate = Isolate(
    here: State,
    others: map<RelayId, State>,
    homes: map<SessionId, Target>,
    hist: map<SessionId, seq<string>>,
    lost: set<SessionId>,
    spoiled: set<SessionId>)

  const Fresh := Isolate(Init, map[], map[], map[], {}, {})

  /** Another relay as it is when its next event comes. */
  function Other(w: Isolate, r: RelayId): State {
    Sharing(if r in w.others then w.others[r] else Init, w.here)
  }

  /** `order` is the order the queue was filled in, for a step that drains it. */
  datatype Move =
    | Here(step: Step, order: seq<SessionId>)
    | There(r: RelayId, step: Step, order: seq<SessionId>)
    | Evict

  predicate Joins(st: State, step: Step) {
    step.Attaching? && step.s !in st.viewers
  }

  function HomesAfter(homes: map<SessionId, Target>, st: State, step: Step): map<SessionId, Target> {
    if Joins(st, step) then homes[step.requested := step.target] else homes
  }

  /** Session ids are fresh, and an alarm drains the whole queue. An executor may speak of any session. */
  ghost predicate Possible(w: Isolate, m: Move) {
    match m
    case Here(step, order) => (Joins(w.here, step) ==> step.requested !in w.homes) && (step.Alarm? ==> Listing(w.here, order))
    case There(r, step, order) => (Joins(Other(w, r), step) ==> step.requested !in w.homes) && (step.Alarm? ==> Listing(w.here, order))
    case Evict => true
  }

  /** The sessions of here whose entry another relay's move took out of the queue, or whose buffer in memory was dropped. */
  ghost function Loss(w: Isolate, m: Move, now: int): set<SessionId> {
    match m
    case Here(step, _) => if step.Hibernate? then set id | id in w.hist && LiveSession(w.here, id).Some? else {}
    case There(r, step, order) => set id | id in w.hist && id in w.here.pending && id !in Act(Other(w, r), step, order, now).pending
    case Evict => set id | id in w.hist && InMemory(w.here, id)
  }

  /** A session's row is written over with another one's. */
  ghost predicate Overwritten(a: map<Target, Session>, b: map<Target, Session>, id: SessionId) {
    exists t :: t in a && a[t].id == id && t in b && b[t].id != id
  }

  /** A session's entry was put into the queue, or its output changed there. */
  predicate Altered(a: map<SessionId, Session>, b: map<SessionId, Session>, id: SessionId) {
    id in b && (id in a ==> b[id].buffer != a[id].buffer)
  }

  /** The sessions of here that a move of here writes another session over, or a move of another relay puts output into. */
  ghost function Spoils(w: Isolate, m: Move, now: int): set<SessionId> {
    match m
    case Here(step, order) => set id | id in w.hist && Overwritten(w.here.rows, Written(w.here, step, order, now).rows, id)
    case There(r, step, order) => set id | id in w.hist && Altered(w.here.pending, Act(Other(w, r), step, order, now).pending, id)
    case Evict => {}
  }

  ghost function After(w: Isolate, m: Move, now: int): Isolate {
    var marked := w.(lost := w.lost + Loss(w, m, now), spoiled := w.spoiled + Spoils(w, m, now));
    match m
    case Here(step, order) =>
      marked.(here := Act(w.here, step, order, now), homes := HomesAfter(w.homes, w.here, step),
              hist := HistAfter(World(w.here, w.hist, w.lost), step))
    case There(r, step, order) =>
      var there := Act(Other(w, r), step, order, now);
      marked.(here := Sharing(w.here, there), others := w.others[r := there], homes := HomesAfter(w.homes, Other(w, r), step))
    case Evict => marked.(here := Forgetful(w.here), others := map r | r in w.others :: Forgetful(w.others[r]))
  }

  ghost predicate Moves(w: Isolate, m: Move, now: int, after: Isolate) {
    Possible(w, m) && after == After(w, m, now)
  }

  ghost predicate Run(ws: seq<Isolate>, moves: seq<Move>, times: seq<int>) {
    && |ws| == |moves| + 1 && |times| == |moves| && ws[0] == Fresh
    && forall i :: 0 <= i < |moves| ==> Moves(ws[i], moves[i], times[i], ws[i + 1])
  }

  // --------------------------------------- what another relay does to the queue

  lemma {:induction false} FlushEachTakes(st: State, order: seq<SessionId>, now: int)
    ensures forall id :: id in FlushEach(st, order, now).pending <==> id in st.pending && id !in order
    ensures forall id :: id in FlushEach(st, order, now).pending ==> FlushEach(st, order, now).pending[id] == st.pending[id]
    decreases |order|
  {
    if order != [] { FlushEachTakes(Flush(st, order[0], now), order[1..], now); }
  }

  /** Entries are only taken out. */
  ghost predicate TakesFrom(a: map<SessionId, Session>, b: map<SessionId, Session>) {
    forall id :: id in b ==> id in a && b[id] == a[id]
  }

  lemma AttachTakes(st: State, s: SocketId, t: Target, requested: SessionId, now: int)
    ensures TakesFrom(st.pending, Attach(st, s, t, requested, now).pending)
  {
    DetachTakes(st, t);
    JoinTakes(Detached(st, t), s, t, requested, now);
  }

  lemma DetachTakes(st: State, t: Target)
    ensures TakesFrom(st.pending, Detached(st, t).pending)
  {
  }

  lemma JoinTakes(st: State, s: SocketId, t: Target, requested: SessionId, now: int)
    ensures TakesFrom(st.pending, Joined(st, s, t, requested, now).pending)
  {
  }

  /** A step takes entries out of the queue, and puts in or changes only that of the session that emitted. */
  lemma ActTakes(st: State, step: Step, order: seq<SessionId>, now: int, id: SessionId)
    requires !(step.Emitted? && step.id == id) && id in Act(st, step, order, now).pending
    ensures id in st.pending && Act(st, step, order, now).pending[id] == st.pending[id]
  {
    if step.Attaching? {
      if step.s !in st.viewers { AttachTakes(st, step.s, step.target, step.requested, now); }
    } else if step.Alarm? {
      FlushEachTakes(st, order, now);
    } else if step.Emitted? {
      OutputTakes(st, step.id, step.chunk, now, id);
    } else {
      PlainTakes(st, step, order, now);
    }
  }

  lemma PlainTakes(st: State, step: Step, order: seq<SessionId>, now: int)
    requires !step.Attaching? && !step.Alarm? && !step.Emitted?
    ensures TakesFrom(st.pending, Act(st, step, order, now).pending)
  {
    if step.Exited? || step.Closing? || step.CloseAt? { EndTakes(st, step, order, now); }
  }

  lemma EndTakes(st: State, step: Step, order: seq<SessionId>, now: int)
    requires step.Exited? || step.Closing? || step.CloseAt?
    ensures TakesFrom(st.pending, Act(st, step, order, now).pending)
  {
  }

  lemma OutputTakes(st: State, other: SessionId, chunk: string, now: int, id: SessionId)
    requires other != id && id in Output(st, other, chunk, now).pending
    ensures id in st.pending && Output(st, other, chunk, now).pending[id] == st.pending[id]
  {
  }

  // --------------------------------------------------------- what a drain leaves

  /** The session whose entry for this target is drained last. */
  function LastFor(pending: map<SessionId, Session>, order: seq<SessionId>, t: Target): (r: Option<SessionId>)
    ensures r.Some? ==> r.value in order && r.value in pending && pending[r.value].target == t
    ensures r.None? ==> forall id :: id in order && id in pending ==> pending[id].target != t
    decreases |order|
  {
    if order == [] then None
    else
      var later := LastFor(pending, order[1..], t);
      if later.Some? then later
      else if order[0] in pending && pending[order[0]].target == t then Some(order[0])
      else None
  }

  lemma {:induction false} LastForAlike(a: map<SessionId, Session>, b: map<SessionId, Session>, order: seq<SessionId>, t: Target)
    requires forall id :: id in order ==> (id in a <==> id in b) && (id in a ==> a[id] == b[id])
    ensures LastFor(a, order, t) == LastFor(b, order, t)
    decreases |order|
  {
    if order != [] {
      assert order[0] in order;
      LastForAlike(a, b, order[1..], t);
    }
  }

  predicate SameAt(a: map<Target, Session>, b: map<Target, Session>, t: Target) {
    (t in a <==> t in b) && (t in a ==> a[t] == b[t])
  }

  lemma SameEverywhere(a: map<Target, Session>, b: map<Target, Session>)
    requires forall t :: SameAt(a, b, t)
    ensures a == b
  {
    assert forall t :: t in a ==> SameAt(a, b, t);
    assert forall t :: t in b ==> SameAt(a, b, t);
  }

  /** An alarm leaves at a target the entry for it that was drained last, whoever it is of, and the row as it was where there is none. */
  lemma {:induction false} LastEntryIsStored(st: State, order: seq<SessionId>, now: int, t: Target)
    requires Distinct(order)
    ensures
      var last := LastFor(st.pending, order, t);
      SameAt(FlushEach(st, order, now).rows, if last.Some? then st.rows[t := st.pending[last.value]] else st.rows, t)
    decreases |order|
  {
    if order != [] {
      var next, rest := Flush(st, order[0], now), order[1..];
      assert order[0] !in rest;
      LastEntryIsStored(next, rest, now, t);
      LastForAlike(st.pending, next.pending, rest, t);
    }
  }

  lemma {:induction false} FlushEachRest(st: State, order: seq<SessionId>, now: int)
    ensures var after := FlushEach(st, order, now); after == st.(pending := after.pending, touched := after.touched, rows := after.rows)
    decreases |order|
  {
    if order != [] { FlushEachRest(Flush(st, order[0], now), order[1..], now); }
  }

  // ------------------------------------------------------- who is known to whom

  /** Every row, viewer and entry is of a session that was opened, at the target it was opened for. */
  ghost predicate Stored(st: State, homes: map<SessionId, Target>) {
    && (forall t :: t in st.rows ==> st.rows[t].target == t && st.rows[t].id in homes && homes[st.rows[t].id] == t)
    && (forall s :: s in st.viewers ==> st.viewers[s].id in homes && homes[st.viewers[s].id] == st.viewers[s].target)
  }

  predicate AtHome(homes: map<SessionId, Target>, id: SessionId, entry: Session) {
    entry.id == id && id in homes && homes[id] == entry.target
  }

  ghost predicate Known(st: State, homes: map<SessionId, Target>) {
    Stored(st, homes) && forall id :: id in st.pending ==> AtHome(homes, id, st.pending[id])
  }

  lemma {:induction false} FlushEachKnown(st: State, order: seq<SessionId>, now: int, homes: map<SessionId, Target>)
    requires Known(st, homes)
    ensures Known(FlushEach(st, order, now), homes)
    decreases |order|
  {
    if order != [] {
      FlushKnown(st, order[0], now, homes);
      FlushEachKnown(Flush(st, order[0], now), order[1..], now, homes);
    }
  }

  lemma FlushKnown(st: State, id: SessionId, now: int, homes: map<SessionId, Target>)
    requires Known(st, homes)
    ensures Known(Flush(st, id, now), homes)
  {
    if id in st.pending { assert AtHome(homes, id, st.pending[id]); }
  }

  lemma PersistKnown(st: State, s: SocketId, v: Viewer, homes: map<SessionId, Target>)
    requires Known(st, homes) && v.id in homes && homes[v.id] == v.target
    ensures Known(Persist(st, s, v), homes)
  {
  }

  lemma AttachKnown(st: State, s: SocketId, t: Target, requested: SessionId, now: int, homes: map<SessionId, Target>)
    requires Known(st, homes) && requested !in homes
    ensures Known(Attach(st, s, t, requested, now), homes[requested := t])
  {
    var previous := LiveTarget(st, t);
    if previous.Some? { PersistKnown(SettleViewer(st, previous.value), previous.value, st.viewers[previous.value], homes); }
    JoinKnown(Detached(st, t), s, t, requested, now, homes);
  }

  lemma JoinKnown(st: State, s: SocketId, t: Target, requested: SessionId, now: int, homes: map<SessionId, Target>)
    requires Known(st, homes) && requested !in homes
    ensures Known(Joined(st, s, t, requested, now), homes[requested := t])
  {
    if t in st.rows { FlushKnown(st, st.rows[t].id, now, homes); }
    var flushed := if t in st.rows then Flush(st, st.rows[t].id, now) else st;
    KnownMore(flushed, homes, requested, t);
  }

  lemma KnownMore(st: State, homes: map<SessionId, Target>, requested: SessionId, t: Target)
    requires Known(st, homes) && requested !in homes
    ensures Known(st, homes[requested := t])
  {
    forall id | id in st.pending ensures AtHome(homes[requested := t], id, st.pending[id]) {
      assert AtHome(homes, id, st.pending[id]);
    }
  }

  lemma OutputKnown(st: State, id: SessionId, chunk: string, now: int, homes: map<SessionId, Target>)
    requires Known(st, homes)
    ensures Known(Output(st, id, chunk, now), homes)
  {
    if LiveSession(st, id).None? && (id in st.pending || HasRow(st, id)) { TouchKnown(st, id, chunk, now, homes); }
  }

  lemma TouchKnown(st: State, id: SessionId, chunk: string, now: int, homes: map<SessionId, Target>)
    requires Known(st, homes) && (id in st.pending || HasRow(st, id))
    ensures Known(Touch(st, id, chunk, now), homes)
  {
    var held := if id in st.pending then st.pending[id] else st.rows[Row(st, id)];
    assert AtHome(homes, id, held);
    var queued := st.(pending := st.pending[id := Grown(held, chunk, now)]);
    assert Known(queued, homes);
    FlushKnown(queued, id, now, homes);
  }

  lemma ForgetKnown(st: State, id: SessionId, homes: map<SessionId, Target>)
    requires Known(st, homes)
    ensures Known(Forget(st, id), homes)
  {
  }

  lemma ActKnown(st: State, step: Step, order: seq<SessionId>, now: int, homes: map<SessionId, Target>)
    requires Known(st, homes) && (Joins(st, step) ==> step.requested !in homes)
    ensures Known(Act(st, step, order, now), HomesAfter(homes, st, step))
  {
    if step.Attaching? {
      if step.s !in st.viewers { AttachKnown(st, step.s, step.target, step.requested, now, homes); }
    } else if step.Emitted? {
      OutputKnown(st, step.id, step.chunk, now, homes);
    } else if step.Alarm? {
      FlushEachKnown(st, order, now, homes);
      ExpireKnown(FlushEach(st, order, now), now, homes);
    } else if step.CloseAt? {
      CloseKnown(st, step.target, homes);
    } else if step.Exited? || step.Closing? || step.Leaving? {
      GoingKnown(st, step, order, now, homes);
    } else {
      PlainKnown(st, step, order, now, homes);
    }
  }

  lemma ExpireKnown(st: State, now: int, homes: map<SessionId, Target>)
    requires Known(st, homes)
    ensures Known(DropExpired(st, now), homes)
  {
  }

  lemma PlainKnown(st: State, step: Step, order: seq<SessionId>, now: int, homes: map<SessionId, Target>)
    requires Known(st, homes) && !step.Attaching? && !step.Emitted? && !step.Alarm? && !step.CloseAt?
    requires !step.Exited? && !step.Closing? && !step.Leaving?
    ensures Known(Act(st, step, order, now), homes)
  {
  }

  lemma GoingKnown(st: State, step: Step, order: seq<SessionId>, now: int, homes: map<SessionId, Target>)
    requires Known(st, homes) && (step.Exited? || step.Closing? || step.Leaving?)
    ensures Known(Act(st, step, order, now), homes)
  {
    match step
    case Exited(id) =>
      var live := LiveSession(st, id);
      ForgetKnown(if live.Some? then SettleViewer(st, live.value) else st, id, homes);
    case Closing(s) => if AttachedViewer(st, s) { ForgetKnown(SettleViewer(st, s), st.viewers[s].id, homes); }
    case Leaving(s, _) =>
      if AttachedViewer(st, s) { PersistKnown(st.(sockets := Without(st.sockets, s)), s, st.viewers[s], homes); }
  }

  lemma CloseKnown(st: State, t: Target, homes: map<SessionId, Target>)
    requires Known(st, homes)
    ensures Known(CloseTarget(st, t), homes)
  {
    var live := LiveTarget(st, t);
    var settled := if live.Some? then SettleViewer(st, live.value) else st;
    if t in settled.rows { ForgetKnown(settled, settled.rows[t].id, homes); }
    else if live.Some? { ForgetKnown(settled, st.viewers[live.value].id, homes); }
  }

  // ------------------------------------------------- one viewer to a target here

  ghost predicate OneEach(st: State) {
    && (forall s :: s in st.sockets ==> s in st.viewers)
    && (forall s, u, t :: LiveAt(st, s, t) && LiveAt(st, u, t) ==> s == u)
  }

  /** A viewer is of the same session for good. */
  ghost predicate SameViewers(st: State, after: State) {
    forall s :: s in st.viewers ==> s in after.viewers && after.viewers[s].id == st.viewers[s].id
  }

  /** Nobody sits down. */
  ghost predicate NobodyNew(st: State, after: State) {
    && (forall s :: s in after.sockets ==> s in st.sockets) && SameViewers(st, after) && after.viewers.Keys == st.viewers.Keys
    && (forall s, t :: LiveAt(after, s, t) ==> LiveAt(st, s, t))
  }

  lemma OnlyAttachingSeats(st: State, step: Step, order: seq<SessionId>, now: int)
    requires !Joins(st, step)
    ensures NobodyNew(st, Act(st, step, order, now))
  {
    if step.Alarm? {
      FlushEachRest(st, order, now);
      ExpirySeatsNobody(FlushEach(st, order, now), now);
    } else if step.Emitted? {
      OutputSeatsNobody(st, step.id, step.chunk, now);
    } else if step.Leaving? || step.Closing? || step.CloseAt? || step.Exited? {
      EndSeatsNobody(st, step, now);
    } else {
      PlainSeatsNobody(st, step, order, now);
    }
  }

  lemma ExpirySeatsNobody(st: State, now: int)
    ensures NobodyNew(st, DropExpired(st, now))
  {
  }

  lemma OutputSeatsNobody(st: State, id: SessionId, chunk: string, now: int)
    ensures NobodyNew(st, Output(st, id, chunk, now))
  {
    if LiveSession(st, id).None? {
      assert Touch(st, id, chunk, now).viewers == st.viewers && Touch(st, id, chunk, now).sockets == st.sockets;
    }
  }

  lemma EndSeatsNobody(st: State, step: Step, now: int)
    requires step.Leaving? || step.Closing? || step.CloseAt? || step.Exited?
    ensures NobodyNew(st, Effect(st, step, now))
  {
    if step.Leaving? {
      if AttachedViewer(st, step.s) { GoneSeatsNobody(st, step.s); }
    } else if step.Closing? {
      if AttachedViewer(st, step.s) { ForgettingSeatsNobody(st, Some(step.s), st.viewers[step.s].id); }
    } else if step.Exited? {
      ForgettingSeatsNobody(st, LiveSession(st, step.id), step.id);
    } else {
      var live := LiveTarget(st, step.target);
      if step.target in st.rows { ForgettingSeatsNobody(st, live, st.rows[step.target].id); }
      else if live.Some? { ForgettingSeatsNobody(st, live, st.viewers[live.value].id); }
    }
  }

  lemma GoneSeatsNobody(st: State, s: SocketId)
    requires AttachedViewer(st, s)
    ensures NobodyNew(st, Gone(st, s))
  {
    assert Gone(st, s).viewers == st.viewers && Gone(st, s).sockets == Without(st.sockets, s);
  }

  lemma ForgettingSeatsNobody(st: State, s: Option<SocketId>, id: SessionId)
    requires s.Some? ==> s.value in st.viewers
    ensures NobodyNew(st, Forget(if s.Some? then SettleViewer(st, s.value) else st, id))
  {
  }

  lemma PlainSeatsNobody(st: State, step: Step, order: seq<SessionId>, now: int)
    requires !Joins(st, step) && !step.Alarm? && !step.Emitted? && !step.Leaving? && !step.Closing? && !step.CloseAt? && !step.Exited?
    ensures NobodyNew(st, Act(st, step, order, now))
  {
  }

  lemma ActOneEach(st: State, step: Step, order: seq<SessionId>, now: int)
    requires OneEach(st)
    ensures OneEach(Act(st, step, order, now))
  {
    if Joins(st, step) {
      AttachSeats(st, step.s, step.target, step.requested, now);
    } else {
      OnlyAttachingSeats(st, step, order, now);
    }
  }

  lemma DetachSeats(st: State, t: Target)
    requires OneEach(st)
    ensures forall u, x :: LiveAt(Detached(st, t), u, x) <==> LiveAt(st, u, x) && x != t
    ensures Detached(st, t).viewers.Keys == st.viewers.Keys && Detached(st, t).sockets == st.sockets && SameViewers(st, Detached(st, t))
  {
    var previous := LiveTarget(st, t);
    if previous.Some? {
      assert LiveAt(st, previous.value, t);
      var settled := SettleViewer(st, previous.value);
      assert Detached(st, t).viewers == settled.viewers && Detached(st, t).sockets == settled.sockets;
      assert forall u, x :: LiveAt(settled, u, x) <==> LiveAt(st, u, x) && u != previous.value;
    }
  }

  lemma AttachSeats(st: State, s: SocketId, t: Target, requested: SessionId, now: int)
    requires OneEach(st) && s !in st.viewers
    ensures forall u, x :: LiveAt(Attach(st, s, t, requested, now), u, x) <==> (u == s && x == t) || (LiveAt(st, u, x) && x != t)
    ensures forall u :: u in Attach(st, s, t, requested, now).sockets ==> u in Attach(st, s, t, requested, now).viewers
  {
    DetachSeats(st, t);
    JoinSeats(Detached(st, t), s, t, requested, now);
  }

  lemma JoinSeats(st: State, s: SocketId, t: Target, requested: SessionId, now: int)
    requires s !in st.viewers && forall u :: u in st.sockets ==> u in st.viewers
    ensures forall u :: u in Joined(st, s, t, requested, now).sockets ==> u in Joined(st, s, t, requested, now).viewers
    ensures SameViewers(st, Joined(st, s, t, requested, now))
    ensures Joined(st, s, t, requested, now).viewers.Keys == st.viewers.Keys + {s}
    ensures forall u, x :: LiveAt(Joined(st, s, t, requested, now), u, x) <==> (u == s && x == t) || LiveAt(st, u, x)
  {
    var after := Joined(st, s, t, requested, now);
    assert after.sockets == st.sockets + [s] && after.viewers == st.viewers[s := after.viewers[s]];
  }

  lemma AttachViewers(st: State, s: SocketId, t: Target, requested: SessionId, now: int)
    requires s !in st.viewers
    ensures SameViewers(st, Attach(st, s, t, requested, now))
    ensures Attach(st, s, t, requested, now).viewers.Keys == st.viewers.Keys + {s}
  {
    var detached := Detached(st, t);
    assert SameViewers(st, detached) && detached.viewers.Keys == st.viewers.Keys;
    assert Attach(st, s, t, requested, now).viewers == detached.viewers[s := Attach(st, s, t, requested, now).viewers[s]];
  }
}
