/**
 * A relay as it would be if some of its sessions were all there is. What a step does
 * to those is what it would do to them alone, unless it writes another session over
 * one of theirs.
 */
module TerminalIsolateViews {
  import opened Common
  import opened TerminalReplay
  import opened TerminalModel
  import opened TerminalSafety
  import opened TerminalIsolate

  // -------------------------------------------------------------------- the view

  function Kept(sockets: seq<SocketId>, seats: set<SocketId>): (r: seq<SocketId>)
    ensures forall s :: s in r <==> s in sockets && s in seats
  {
    if sockets == [] then []
    else if sockets[0] in seats then [sockets[0]] + Kept(sockets[1..], seats)
    else Kept(sockets[1..], seats)
  }

  lemma {:induction false} KeptWithout(sockets: seq<SocketId>, seats: set<SocketId>, s: SocketId)
    ensures Kept(Without(sockets, s), seats) == if s in seats then Without(Kept(sockets, seats), s) else Kept(sockets, seats)
  {
    if sockets != [] {
      KeptWithout(sockets[1..], seats, s);
      var kept := Kept(sockets[1..], seats);
      assert ([sockets[0]] + kept)[1..] == kept;
      assert ([sockets[0]] + Without(sockets[1..], s))[1..] == Without(sockets[1..], s);
    }
  }

  lemma {:induction false} KeptSnoc(sockets: seq<SocketId>, seats: set<SocketId>, s: SocketId)
    ensures Kept(sockets + [s], seats) == if s in seats then Kept(sockets, seats) + [s] else Kept(sockets, seats)
  {
    if sockets == [] {
      assert sockets + [s] == [s] && [s][1..] == [];
    } else {
      KeptSnoc(sockets[1..], seats, s);
      assert (sockets + [s])[1..] == sockets[1..] + [s];
    }
  }

  lemma {:induction false} KeptAlike(sockets: seq<SocketId>, a: set<SocketId>, b: set<SocketId>)
    requires forall s :: s in sockets ==> (s in a <==> s in b)
    ensures Kept(sockets, a) == Kept(sockets, b)
  {
    if sockets != [] { KeptAlike(sockets[1..], a, b); }
  }

  function Seats(viewers: map<SocketId, Viewer>, own: set<SessionId>): set<SocketId> {
    set s | s in viewers && viewers[s].id in own
  }

  function OwnViewers(viewers: map<SocketId, Viewer>, own: set<SessionId>): map<SocketId, Viewer> {
    map s | s in viewers && viewers[s].id in own :: viewers[s]
  }

  function OwnMemory(memory: map<SocketId, Memory>, seats: set<SocketId>): map<SocketId, Memory> {
    map s | s in memory && s in seats :: memory[s]
  }

  function OwnQueue(pending: map<SessionId, Session>, own: set<SessionId>): map<SessionId, Session> {
    map id | id in pending && id in own :: pending[id]
  }

  function OwnRows(rows: map<Target, Session>, own: set<SessionId>): map<Target, Session> {
    map t | t in rows && rows[t].id in own :: rows[t]
  }

  function View(st: State, own: set<SessionId>): State {
    var seats := Seats(st.viewers, own);
    State(Kept(st.sockets, seats), OwnViewers(st.viewers, own), OwnMemory(st.memory, seats),
          OwnQueue(st.pending, own), st.touched, OwnRows(st.rows, own), st.tickets, st.alarm)
  }

  /** The same but for when sessions were last written, which no replay depends on. */
  predicate Like(a: State, b: State) {
    a == b.(touched := a.touched)
  }

  predicate OwnRow(st: State, own: set<SessionId>, t: Target) {
    t in st.rows && st.rows[t].id in own
  }

  ghost predicate Fits(st: State, own: set<SessionId>, homes: map<SessionId, Target>) {
    Known(st, homes) && OneEach(st) && Shape(View(st, own), own)
  }

  /** A step that writes no other session over one of these. */
  ghost predicate Spared(st: State, own: set<SessionId>, written: State) {
    forall id :: id in own ==> !Overwritten(st.rows, written.rows, id)
  }

  lemma SparedAt(st: State, own: set<SessionId>, written: State, t: Target)
    requires Spared(st, own, written) && OwnRow(st, own, t) && t in written.rows
    ensures written.rows[t].id == st.rows[t].id
  {
    if written.rows[t].id != st.rows[t].id { assert Overwritten(st.rows, written.rows, st.rows[t].id); }
  }

  // -------------------------------------------------------------------- looking up

  lemma SeenLive(st: State, own: set<SessionId>)
    ensures forall s :: Live(View(st, own), s) <==> Live(st, s) && st.viewers[s].id in own
    ensures forall s, t :: LiveAt(View(st, own), s, t) <==> LiveAt(st, s, t) && st.viewers[s].id in own
  {
  }

  lemma FindTarget(st: State, own: set<SessionId>, t: Target)
    requires OneEach(st)
    ensures
      var live := LiveTarget(st, t);
      LiveTarget(View(st, own), t) == if live.Some? && st.viewers[live.value].id in own then live else None
  {
    SeenLive(st, own);
    var a, b := LiveTarget(st, t), LiveTarget(View(st, own), t);
    if a.Some? { assert LiveAt(st, a.value, t); }
    if b.Some? { assert LiveAt(View(st, own), b.value, t); }
  }

  lemma FindSession(st: State, own: set<SessionId>, homes: map<SessionId, Target>, id: SessionId)
    requires Known(st, homes) && OneEach(st)
    ensures LiveSession(View(st, own), id) == if id in own then LiveSession(st, id) else None
  {
    SeenLive(st, own);
    var a, b := LiveSession(st, id), LiveSession(View(st, own), id);
    if a.Some? { assert LiveAt(st, a.value, homes[id]); }
    if b.Some? { assert LiveAt(st, b.value, homes[id]); }
  }

  lemma RowIsHome(st: State, homes: map<SessionId, Target>, id: SessionId)
    requires Known(st, homes)
    ensures HasRow(st, id) <==> id in homes && homes[id] in st.rows && st.rows[homes[id]].id == id
    ensures HasRow(st, id) ==> Row(st, id) == homes[id]
  {
  }

  lemma FindRow(st: State, own: set<SessionId>, homes: map<SessionId, Target>, id: SessionId)
    requires Known(st, homes)
    ensures HasRow(View(st, own), id) <==> id in own && HasRow(st, id)
    ensures HasRow(View(st, own), id) ==> Row(View(st, own), id) == Row(st, id) && OwnRow(st, own, Row(st, id))
  {
    var view := View(st, own);
    if HasRow(st, id) && id in own { assert Row(st, id) in view.rows; }
    if HasRow(view, id) { assert Row(view, id) in st.rows; RowIsHome(st, homes, id); }
  }

  // ------------------------------------------------------------- part by part

  lemma ViewSettle(st: State, own: set<SessionId>, s: SocketId)
    requires s in st.viewers
    ensures View(SettleViewer(st, s), own) == if st.viewers[s].id in own then SettleViewer(View(st, own), s) else View(st, own)
  {
    var after := SettleViewer(st, s);
    assert Seats(after.viewers, own) == Seats(st.viewers, own);
    assert OwnViewers(after.viewers, own) ==
      if st.viewers[s].id in own then OwnViewers(st.viewers, own)[s := after.viewers[s]] else OwnViewers(st.viewers, own);
  }

  lemma ViewStand(st: State, own: set<SessionId>, s: SocketId)
    requires s in st.viewers
    ensures
      var view := View(st, own);
      View(st.(sockets := Without(st.sockets, s)), own) ==
      if st.viewers[s].id in own then view.(sockets := Without(view.sockets, s)) else view
  {
    KeptWithout(st.sockets, Seats(st.viewers, own), s);
  }

  lemma ViewPut(st: State, own: set<SessionId>, row: Session)
    requires row.id in own
    ensures View(PutRow(st, row), own) == PutRow(View(st, own), row)
  {
    assert OwnRows(st.rows[row.target := row], own) == OwnRows(st.rows, own)[row.target := row];
  }

  lemma ViewPutTheirs(st: State, own: set<SessionId>, row: Session)
    requires row.id !in own && !OwnRow(st, own, row.target)
    ensures View(PutRow(st, row), own) == View(st, own)
  {
    assert OwnRows(st.rows[row.target := row], own) == OwnRows(st.rows, own);
  }

  lemma ViewDrop(st: State, own: set<SessionId>, ids: set<SessionId>)
    ensures View(st.(pending := st.pending - ids), own) == View(st, own).(pending := View(st, own).pending - ids)
  {
    assert OwnQueue(st.pending - ids, own) == OwnQueue(st.pending, own) - ids;
  }

  lemma ViewFlush(st: State, own: set<SessionId>, id: SessionId, now: int)
    requires id in own && (id in st.pending ==> st.pending[id].id == id)
    ensures View(Flush(st, id, now), own) == Flush(View(st, own), id, now)
  {
    if id in st.pending {
      ViewDrop(st.(touched := st.touched[id := now]), own, {id});
      ViewPut(st.(pending := st.pending - {id}, touched := st.touched[id := now]), own, st.pending[id]);
    }
  }

  lemma ViewFlushTheirs(st: State, own: set<SessionId>, id: SessionId, now: int)
    requires id !in own && (id in st.pending ==> st.pending[id].id == id && !OwnRow(st, own, st.pending[id].target))
    ensures Like(View(Flush(st, id, now), own), View(st, own))
  {
    if id in st.pending {
      var dropped := st.(pending := st.pending - {id}, touched := st.touched[id := now]);
      ViewPutTheirs(dropped, own, st.pending[id]);
      assert OwnQueue(st.pending - {id}, own) == OwnQueue(st.pending, own);
    }
  }

  /** What `Persist` puts. */
  ghost function PersistedRow(st: State, s: SocketId, v: Viewer): Session {
    var row := if HasRow(st, v.id) then st.rows[Row(st, v.id)] else Session(v.id, v.target, v.startedAt, v.lastActivityAt, EMPTY);
    row.(lastActivityAt := Max(row.lastActivityAt, v.lastActivityAt), buffer :=
      if s !in st.memory then row.buffer
      else if st.memory[s].seeded then st.memory[s].buffer
      else AppendAll(row.buffer, st.memory[s].buffer.replay))
  }

  lemma PersistPuts(st: State, s: SocketId, v: Viewer)
    ensures Persist(st, s, v) == PutRow(st.(pending := st.pending - {v.id}), PersistedRow(st, s, v))
  {
  }

  lemma ViewPersist(st: State, own: set<SessionId>, homes: map<SessionId, Target>, s: SocketId, v: Viewer)
    requires Known(st, homes) && v.id in own && s in st.viewers && st.viewers[s].id == v.id
    ensures View(Persist(st, s, v), own) == Persist(View(st, own), s, v)
  {
    FindRow(st, own, homes, v.id);
    ViewDrop(st, own, {v.id});
    var row := PersistedRow(st, s, v);
    assert PersistedRow(View(st, own), s, v) == row;
    PersistPuts(st, s, v);
    PersistPuts(View(st, own), s, v);
    ViewPut(st.(pending := st.pending - {v.id}), own, row);
  }

  lemma PersistIsHome(st: State, homes: map<SessionId, Target>, s: SocketId, v: Viewer)
    requires Known(st, homes) && v.id in homes && homes[v.id] == v.target
    ensures PersistedRow(st, s, v).id == v.id && PersistedRow(st, s, v).target == v.target
  {
    RowIsHome(st, homes, v.id);
  }

  lemma ViewPersistTheirs(st: State, own: set<SessionId>, homes: map<SessionId, Target>, s: SocketId, v: Viewer)
    requires Known(st, homes) && v.id !in own && v.id in homes && homes[v.id] == v.target && !OwnRow(st, own, v.target)
    ensures View(Persist(st, s, v), own) == View(st, own)
  {
    PersistIsHome(st, homes, s, v);
    PersistPuts(st, s, v);
    var dropped := st.(pending := st.pending - {v.id});
    ViewPutTheirs(dropped, own, PersistedRow(st, s, v));
    assert OwnQueue(st.pending - {v.id}, own) == OwnQueue(st.pending, own);
  }

  lemma ViewForget(st: State, own: set<SessionId>, homes: map<SessionId, Target>, id: SessionId)
    requires Known(st, homes) && id in own
    ensures View(Forget(st, id), own) == Forget(View(st, own), id)
  {
    FindRow(st, own, homes, id);
    assert View(Forget(st, id), own).rows == Forget(View(st, own), id).rows;
    assert View(Forget(st, id), own).pending == Forget(View(st, own), id).pending;
  }

  /** Forgetting another session changes nothing of these. */
  lemma ViewForgetTheirs(st: State, own: set<SessionId>, id: SessionId)
    requires id !in own
    ensures Like(View(Forget(st, id), own), View(st, own))
  {
    assert View(Forget(st, id), own).rows == View(st, own).rows;
    assert View(Forget(st, id), own).pending == View(st, own).pending;
  }

  /** A name that is nowhere may as well be one's own. */
  lemma ViewMore(st: State, own: set<SessionId>, homes: map<SessionId, Target>, requested: SessionId)
    requires Known(st, homes) && requested !in homes
    ensures View(st, own + {requested}) == View(st, own)
  {
    assert Seats(st.viewers, own + {requested}) == Seats(st.viewers, own);
    assert OwnViewers(st.viewers, own + {requested}) == OwnViewers(st.viewers, own);
    assert OwnQueue(st.pending, own + {requested}) == OwnQueue(st.pending, own) by {
      assert forall id :: id in st.pending ==> AtHome(homes, id, st.pending[id]);
    }
    assert OwnRows(st.rows, own + {requested}) == OwnRows(st.rows, own);
  }

  // --------------------------------------------------------------------- attaching

  lemma AttachRows(st: State, homes: map<SessionId, Target>, s: SocketId, t: Target, requested: SessionId, now: int)
    requires Known(st, homes) && requested !in homes
    ensures
      var detached, rows := Detached(st, t), Attach(st, s, t, requested, now).rows;
      t in rows && rows[t].id == if t in detached.rows then detached.rows[t].id else requested
  {
  }

  lemma ViewDetach(st: State, own: set<SessionId>, homes: map<SessionId, Target>, t: Target)
    requires Fits(st, own, homes)
    requires OwnRow(st, own, t) ==> t in Detached(st, t).rows && Detached(st, t).rows[t].id == st.rows[t].id
    ensures View(Detached(st, t), own) == Detached(View(st, own), t)
  {
    FindTarget(st, own, t);
    var previous := LiveTarget(st, t);
    if previous.Some? {
      var s, v := previous.value, st.viewers[previous.value];
      var settled := SettleViewer(st, s);
      ViewSettle(st, own, s);
      if v.id in own {
        ViewPersist(settled, own, homes, s, v);
      } else {
        PersistIsHome(settled, homes, s, v);
        PersistPuts(settled, s, v);
        ViewPersistTheirs(settled, own, homes, s, v);
      }
    }
  }

  /** Who came last to a target that holds one of these sessions is of that session. */
  lemma DetachedOwn(st: State, own: set<SessionId>, homes: map<SessionId, Target>, t: Target)
    requires Fits(st, own, homes) && (OwnRow(st, own, t) ==> Detached(st, t).rows[t].id == st.rows[t].id)
    requires !OwnRow(Detached(st, t), own, t)
    ensures Detached(View(st, own), t) == View(st, own)
  {
    FindTarget(st, own, t);
    SeenLive(st, own);
    var live := LiveTarget(View(st, own), t);
    if live.Some? {
      assert LiveAt(View(st, own), live.value, t);
      assert OwnRow(st, own, t);
    }
  }

  lemma SeatedViewers(viewers: map<SocketId, Viewer>, own: set<SessionId>, s: SocketId, v: Viewer)
    requires s !in viewers && v.id in own
    ensures Seats(viewers[s := v], own) == Seats(viewers, own) + {s}
    ensures OwnViewers(viewers[s := v], own) == OwnViewers(viewers, own)[s := v]
  {
  }

  lemma SeatedMemory(memory: map<SocketId, Memory>, seats: set<SocketId>, s: SocketId, m: Memory)
    ensures OwnMemory(memory[s := m], seats + {s}) == OwnMemory(memory, seats)[s := m]
  {
  }

  lemma ViewSeat(st: State, own: set<SessionId>, s: SocketId, v: Viewer, m: Memory)
    requires s !in st.viewers && v.id in own && s !in st.sockets
    ensures
      var view := View(st, own);
      View(st.(sockets := st.sockets + [s], viewers := st.viewers[s := v], memory := st.memory[s := m]), own) ==
      view.(sockets := view.sockets + [s], viewers := view.viewers[s := v], memory := view.memory[s := m])
  {
    var seats := Seats(st.viewers, own);
    SeatedViewers(st.viewers, own, s, v);
    SeatedMemory(st.memory, seats, s, m);
    KeptAlike(st.sockets, seats, seats + {s});
    KeptSnoc(st.sockets, seats + {s}, s);
  }

  lemma ViewSeatTheirs(st: State, own: set<SessionId>, s: SocketId, v: Viewer, m: Memory)
    requires s !in st.viewers && v.id !in own && s !in st.sockets
    ensures View(st.(sockets := st.sockets + [s], viewers := st.viewers[s := v], memory := st.memory[s := m]), own) == View(st, own)
  {
    var seats := Seats(st.viewers, own);
    assert Seats(st.viewers[s := v], own) == seats;
    KeptSnoc(st.sockets, seats, s);
    assert OwnViewers(st.viewers[s := v], own) == OwnViewers(st.viewers, own);
    assert OwnMemory(st.memory[s := m], seats) == OwnMemory(st.memory, seats);
  }

  ghost function FlushedAt(st: State, t: Target, now: int): State {
    if t in st.rows then Flush(st, st.rows[t].id, now) else st
  }

  lemma FlushedAtHome(st: State, homes: map<SessionId, Target>, t: Target, now: int)
    requires Known(st, homes)
    ensures Known(FlushedAt(st, t, now), homes)
    ensures t in FlushedAt(st, t, now).rows <==> t in st.rows
    ensures t in st.rows ==> FlushedAt(st, t, now).rows[t].id == st.rows[t].id
  {
    if t in st.rows {
      FlushKnown(st, st.rows[t].id, now, homes);
      if st.rows[t].id in st.pending { assert AtHome(homes, st.rows[t].id, st.pending[st.rows[t].id]); }
    }
  }

  /** A viewer that lands on one of these sessions, or opens one. */
  lemma ViewJoin(st: State, own: set<SessionId>, homes: map<SessionId, Target>, s: SocketId, t: Target, requested: SessionId, now: int)
    requires Known(st, homes) && OneEach(st) && s !in st.viewers && requested !in homes && (t in st.rows ==> st.rows[t].id in own)
    ensures View(Joined(st, s, t, requested, now), own + {requested}) == Joined(View(st, own), s, t, requested, now)
  {
    var flushed := FlushedAt(st, t, now);
    FlushedAtHome(st, homes, t, now);
    if t in st.rows {
      if st.rows[t].id in st.pending { assert AtHome(homes, st.rows[t].id, st.pending[st.rows[t].id]); }
      ViewFlush(st, own, st.rows[t].id, now);
    }
    var row := if t in flushed.rows then flushed.rows[t].(lastActivityAt := now) else Session(requested, t, now, now, EMPTY);
    ViewMore(flushed, own, homes, requested);
    var v, m := Viewer(row.id, t, false, row.startedAt, now), Memory(row.buffer, true);
    ViewSeat(flushed, own + {requested}, s, v, m);
    ViewPut(flushed.(sockets := flushed.sockets + [s], viewers := flushed.viewers[s := v], memory := flushed.memory[s := m]), own + {requested}, row);
    assert t in flushed.rows <==> t in View(flushed, own).rows;
  }

  /** A viewer that lands on another session. */
  lemma ViewJoinTheirs(st: State, own: set<SessionId>, homes: map<SessionId, Target>, s: SocketId, t: Target, requested: SessionId, now: int)
    requires Known(st, homes) && OneEach(st) && s !in st.viewers && requested !in homes && t in st.rows && st.rows[t].id !in own
    ensures Like(View(Joined(st, s, t, requested, now), own + {requested}), View(st, own))
  {
    var id, flushed := st.rows[t].id, FlushedAt(st, t, now);
    FlushedAtHome(st, homes, t, now);
    if id in st.pending { assert AtHome(homes, id, st.pending[id]); }
    ViewFlushTheirs(st, own, id, now);
    var row := flushed.rows[t].(lastActivityAt := now);
    ViewMore(flushed, own, homes, requested);
    var v, m := Viewer(row.id, t, false, row.startedAt, now), Memory(row.buffer, true);
    ViewSeatTheirs(flushed, own + {requested}, s, v, m);
    ViewPutTheirs(flushed.(sockets := flushed.sockets + [s], viewers := flushed.viewers[s := v], memory := flushed.memory[s := m]), own + {requested}, row);
  }

  /** An attach is one of these sessions', or changes nothing of them. */
  lemma ViewAttach(st: State, own: set<SessionId>, homes: map<SessionId, Target>, s: SocketId, t: Target, requested: SessionId, now: int)
    requires Fits(st, own, homes) && s !in st.viewers && requested !in homes
    requires Spared(st, own, Attach(st, s, t, requested, now))
    ensures
      var after := View(Attach(st, s, t, requested, now), own + {requested});
      after == Attach(View(st, own), s, t, requested, now) || Like(after, View(st, own))
  {
    var detached := Detached(st, t);
    AttachRows(st, homes, s, t, requested, now);
    DetachedStays(st, homes, t);
    if OwnRow(st, own, t) { SparedAt(st, own, Attach(st, s, t, requested, now), t); }
    ViewDetach(st, own, homes, t);
    DetachedKnown(st, homes, t);
    DetachSeats(st, t);
    assert OneEach(detached);
    if t in detached.rows && detached.rows[t].id !in own {
      DetachedOwn(st, own, homes, t);
      ViewJoinTheirs(detached, own, homes, s, t, requested, now);
    } else {
      ViewJoin(detached, own, homes, s, t, requested, now);
    }
  }

  lemma DetachedStays(st: State, homes: map<SessionId, Target>, t: Target)
    requires Known(st, homes)
    ensures t in st.rows ==> t in Detached(st, t).rows
  {
  }

  lemma DetachedKnown(st: State, homes: map<SessionId, Target>, t: Target)
    requires Known(st, homes)
    ensures Known(Detached(st, t), homes)
  {
    var previous := LiveTarget(st, t);
    if previous.Some? { PersistKnown(SettleViewer(st, previous.value), previous.value, st.viewers[previous.value], homes); }
  }

  // ------------------------------------------------------------------------ output

  lemma RecordSeats(viewers: map<SocketId, Viewer>, own: set<SessionId>, s: SocketId, v: Viewer)
    requires s in viewers && v.id == viewers[s].id
    ensures Seats(viewers[s := v], own) == Seats(viewers, own)
    ensures OwnViewers(viewers[s := v], own) == if v.id in own then OwnViewers(viewers, own)[s := v] else OwnViewers(viewers, own)
  {
  }

  lemma RecordMemory(memory: map<SocketId, Memory>, seats: set<SocketId>, s: SocketId, chunk: string)
    ensures OwnMemory(Record(memory, s, chunk), seats) ==
      if s in seats then Record(OwnMemory(memory, seats), s, chunk) else OwnMemory(memory, seats)
  {
  }

  lemma ViewRecord(st: State, own: set<SessionId>, s: SocketId, chunk: string, now: int)
    requires s in st.viewers
    ensures
      var view := View(st, own);
      View(st.(viewers := st.viewers[s := st.viewers[s].(lastActivityAt := now)], memory := Record(st.memory, s, chunk)), own) ==
      if st.viewers[s].id !in own then view
      else view.(viewers := view.viewers[s := view.viewers[s].(lastActivityAt := now)], memory := Record(view.memory, s, chunk))
  {
    RecordSeats(st.viewers, own, s, st.viewers[s].(lastActivityAt := now));
    RecordMemory(st.memory, Seats(st.viewers, own), s, chunk);
  }

  lemma ViewQueue(st: State, own: set<SessionId>, id: SessionId, entry: Session)
    ensures
      View(st.(pending := st.pending[id := entry]), own) ==
      if id in own then View(st, own).(pending := View(st, own).pending[id := entry]) else View(st, own)
  {
    assert OwnQueue(st.pending[id := entry], own) == if id in own then OwnQueue(st.pending, own)[id := entry] else OwnQueue(st.pending, own);
  }

  lemma ViewTouch(st: State, own: set<SessionId>, homes: map<SessionId, Target>, id: SessionId, chunk: string, now: int)
    requires Known(st, homes) && id in own
    ensures View(Touch(st, id, chunk, now), own) == Touch(View(st, own), id, chunk, now)
  {
    FindRow(st, own, homes, id);
    if id in st.pending || HasRow(st, id) {
      if id in st.pending { assert AtHome(homes, id, st.pending[id]); }
      var held := if id in st.pending then st.pending[id] else st.rows[Row(st, id)];
      var queued := st.(pending := st.pending[id := Grown(held, chunk, now)]);
      ViewQueue(st, own, id, Grown(held, chunk, now));
      ViewFlush(queued, own, id, now);
    }
  }

  lemma ViewTouchTheirs(st: State, own: set<SessionId>, homes: map<SessionId, Target>, id: SessionId, chunk: string, now: int)
    requires Known(st, homes) && id !in own && Spared(st, own, Touch(st, id, chunk, now))
    ensures Like(View(Touch(st, id, chunk, now), own), View(st, own))
  {
    if id in st.pending || HasRow(st, id) {
      if id in st.pending { assert AtHome(homes, id, st.pending[id]); }
      var held := if id in st.pending then st.pending[id] else st.rows[Row(st, id)];
      var queued := st.(pending := st.pending[id := Grown(held, chunk, now)]);
      ViewQueue(st, own, id, Grown(held, chunk, now));
      if now - TouchedAt(st, id) >= TOUCH {
        if OwnRow(st, own, held.target) { SparedAt(st, own, Touch(st, id, chunk, now), held.target); }
        ViewFlushTheirs(queued, own, id, now);
      }
    }
  }

  lemma NothingToTouch(st: State, own: set<SessionId>, homes: map<SessionId, Target>, id: SessionId, chunk: string, now: int)
    requires Known(st, homes) && id !in own
    ensures Touch(View(st, own), id, chunk, now) == View(st, own)
  {
    FindRow(st, own, homes, id);
  }

  lemma ViewOutput(st: State, own: set<SessionId>, homes: map<SessionId, Target>, id: SessionId, chunk: string, now: int)
    requires Fits(st, own, homes) && Spared(st, own, Output(st, id, chunk, now))
    ensures Like(View(Output(st, id, chunk, now), own), Output(View(st, own), id, chunk, now))
  {
    FindSession(st, own, homes, id);
    var live := LiveSession(st, id);
    if live.Some? {
      ViewRecord(st, own, live.value, chunk, now);
      if id !in own { NothingToTouch(st, own, homes, id, chunk, now); }
    } else if id in own {
      ViewTouch(st, own, homes, id, chunk, now);
    } else {
      ViewTouchTheirs(st, own, homes, id, chunk, now);
      NothingToTouch(st, own, homes, id, chunk, now);
    }
  }

  // ------------------------------------------------------------------------- ends

  lemma NothingToForget(st: State, own: set<SessionId>, homes: map<SessionId, Target>, id: SessionId)
    requires Known(st, homes) && id !in own
    ensures Like(View(st, own), Forget(View(st, own), id))
  {
    FindRow(st, own, homes, id);
    assert View(st, own).pending - {id} == View(st, own).pending;
  }

  /** A viewer, if any, is sent away and a session forgotten. */
  lemma ViewEnd(st: State, own: set<SessionId>, homes: map<SessionId, Target>, s: Option<SocketId>, id: SessionId)
    requires Known(st, homes) && (s.Some? ==> s.value in st.viewers)
    ensures
      var settled := if s.Some? && st.viewers[s.value].id in own then SettleViewer(View(st, own), s.value) else View(st, own);
      Like(View(Forget(if s.Some? then SettleViewer(st, s.value) else st, id), own), if id in own then Forget(settled, id) else settled)
  {
    var settled := if s.Some? then SettleViewer(st, s.value) else st;
    if s.Some? { ViewSettle(st, own, s.value); }
    if id in own { ViewForget(settled, own, homes, id); } else { ViewForgetTheirs(settled, own, id); }
  }

  lemma ViewExit(st: State, own: set<SessionId>, homes: map<SessionId, Target>, id: SessionId)
    requires Fits(st, own, homes)
    ensures Like(View(Exit(st, id), own), Exit(View(st, own), id))
  {
    FindSession(st, own, homes, id);
    ViewEnd(st, own, homes, LiveSession(st, id), id);
    if id !in own { NothingToForget(st, own, homes, id); }
  }

  lemma ViewClosing(st: State, own: set<SessionId>, homes: map<SessionId, Target>, s: SocketId)
    requires Fits(st, own, homes)
    ensures Like(View(Effect(st, Closing(s), 0), own), Effect(View(st, own), Closing(s), 0))
  {
    if AttachedViewer(st, s) && !st.viewers[s].settled { ViewEnd(st, own, homes, Some(s), st.viewers[s].id); }
  }

  lemma ViewLeaving(st: State, own: set<SessionId>, homes: map<SessionId, Target>, s: SocketId, failed: bool)
    requires Fits(st, own, homes) && Spared(st, own, Effect(st, Leaving(s, failed), 0))
    ensures View(Effect(st, Leaving(s, failed), 0), own) == Effect(View(st, own), Leaving(s, failed), 0)
  {
    if AttachedViewer(st, s) {
      var v, left := st.viewers[s], st.(sockets := Without(st.sockets, s));
      ViewStand(st, own, s);
      if !v.settled {
        PersistIsHome(left, homes, s, v);
        PersistPuts(left, s, v);
        if v.id in own {
          ViewPersist(left, own, homes, s, v);
        } else {
          if OwnRow(st, own, v.target) { SparedAt(st, own, Gone(st, s), v.target); }
          ViewPersistTheirs(left, own, homes, s, v);
        }
      }
    }
  }

  lemma ViewClose(st: State, own: set<SessionId>, homes: map<SessionId, Target>, t: Target)
    requires Fits(st, own, homes)
    ensures Like(View(CloseTarget(st, t), own), CloseTarget(View(st, own), t))
  {
    FindTarget(st, own, t);
    SeenLive(st, own);
    var live := LiveTarget(st, t);
    if live.Some? && st.viewers[live.value].id in own { assert LiveAt(View(st, own), live.value, t); }
    if t in st.rows { ViewEnd(st, own, homes, live, st.rows[t].id); }
    else if live.Some? { ViewEnd(st, own, homes, live, st.viewers[live.value].id); }
  }

  lemma ViewFail(st: State, own: set<SessionId>)
    ensures View(ForgetAll(FailViewers(st)), own) == ForgetAll(FailViewers(View(st, own)))
  {
    var failed := FailViewers(st);
    assert Seats(failed.viewers, own) == Seats(st.viewers, own);
    assert OwnViewers(failed.viewers, own) == FailViewers(View(st, own)).viewers;
  }

  lemma ViewPlain(st: State, own: set<SessionId>, step: Step, now: int)
    requires step.Typed? || step.Issue? || step.Consume?
    ensures View(Effect(st, step, now), own) == Effect(View(st, own), step, now)
  {
    if step.Typed? && step.s in st.viewers {
      RecordSeats(st.viewers, own, step.s, st.viewers[step.s].(lastActivityAt := now));
    }
  }

  // ---------------------------------------------------------------------- the alarm

  lemma OwnEntry(st: State, own: set<SessionId>, id: SessionId)
    requires Shape(View(st, own), own) && id in own && id in st.pending
    ensures st.pending[id].id == id && OwnRow(st, own, st.pending[id].target) && st.rows[st.pending[id].target].id == id
  {
    assert id in View(st, own).pending;
  }

  lemma OwnRowAlone(st: State, own: set<SessionId>, t: Target, u: Target)
    requires Shape(View(st, own), own) && OwnRow(st, own, t) && OwnRow(st, own, u) && st.rows[t].id == st.rows[u].id
    ensures t == u
  {
    assert t in View(st, own).rows && u in View(st, own).rows;
  }

  /** If no other session's entry comes last for a row of these, what comes last there is the row's own. */
  lemma OwnIsLast(st: State, own: set<SessionId>, order: seq<SessionId>, now: int, t: Target)
    requires Shape(View(st, own), own) && Listing(st, order) && OwnRow(st, own, t) && (forall id :: id in st.pending ==> st.pending[id].id == id)
    requires Spared(st, own, FlushEach(st, order, now))
    ensures LastFor(st.pending, order, t) == if st.rows[t].id in st.pending then Some(st.rows[t].id) else None
  {
    var id, last := st.rows[t].id, LastFor(st.pending, order, t);
    LastEntryIsStored(st, order, now, t);
    SparedAt(st, own, FlushEach(st, order, now), t);
    if id in st.pending {
      OwnEntry(st, own, id);
      OwnRowAlone(st, own, st.pending[id].target, t);
    }
  }

  /** Only a session's own entry is for its row. */
  lemma TheirsStayTheirs(st: State, own: set<SessionId>, order: seq<SessionId>, t: Target)
    requires Shape(View(st, own), own) && !OwnRow(st, own, t)
    ensures LastFor(st.pending, order, t).Some? ==> LastFor(st.pending, order, t).value !in own
  {
    forall id | id in own && id in st.pending ensures st.pending[id].target != t { OwnEntry(st, own, id); }
  }

  lemma RowsAgree(st: State, own: set<SessionId>, order: seq<SessionId>, now: int, t: Target)
    requires Shape(View(st, own), own) && Listing(st, order) && (forall id :: id in st.pending ==> st.pending[id].id == id)
    requires Spared(st, own, FlushEach(st, order, now))
    ensures SameAt(View(FlushEach(st, order, now), own).rows, FlushAll(View(st, own), now).rows, t)
  {
    LastEntryIsStored(st, order, now, t);
    if OwnRow(st, own, t) { OwnIsLast(st, own, order, now, t); } else { TheirsStayTheirs(st, own, order, t); }
  }

  /** Drained entry by entry, others in between, these have the rows they would have with their own entries drained. */
  lemma ViewDrained(st: State, own: set<SessionId>, order: seq<SessionId>, now: int)
    requires Shape(View(st, own), own) && Listing(st, order) && (forall id :: id in st.pending ==> st.pending[id].id == id)
    requires Spared(st, own, FlushEach(st, order, now))
    ensures Like(View(FlushEach(st, order, now), own), FlushAll(View(st, own), now))
  {
    var after, all := View(FlushEach(st, order, now), own).rows, FlushAll(View(st, own), now).rows;
    forall t ensures SameAt(after, all, t) { RowsAgree(st, own, order, now, t); }
    SameEverywhere(after, all);
    FlushEachRest(st, order, now);
    FlushEachTakes(st, order, now);
    assert View(FlushEach(st, order, now), own).pending == map[];
  }

  lemma ExpiredAlike(st: State, own: set<SessionId>, homes: map<SessionId, Target>, row: Session, now: int)
    requires Known(st, homes) && OneEach(st) && row.id in own
    ensures Expired(st, row, now) <==> Expired(View(st, own), row, now)
  {
    FindSession(st, own, homes, row.id);
  }

  lemma ExpiredAlikeIds(st: State, own: set<SessionId>, homes: map<SessionId, Target>, now: int, id: SessionId)
    requires Known(st, homes) && OneEach(st) && id in own
    ensures id in ExpiredIds(st, now) <==> id in ExpiredIds(View(st, own), now)
  {
    var view := View(st, own);
    if id in ExpiredIds(st, now) {
      var t :| t in st.rows && Expired(st, st.rows[t], now) && st.rows[t].id == id;
      ExpiredAlike(st, own, homes, st.rows[t], now);
      assert t in view.rows && view.rows[t].id == id;
    }
    if id in ExpiredIds(view, now) {
      var t :| t in view.rows && Expired(view, view.rows[t], now) && view.rows[t].id == id;
      ExpiredAlike(st, own, homes, st.rows[t], now);
    }
  }

  lemma ViewExpire(st: State, own: set<SessionId>, homes: map<SessionId, Target>, now: int)
    requires Known(st, homes) && OneEach(st)
    ensures Like(View(DropExpired(st, now), own), DropExpired(View(st, own), now))
  {
    forall id | id in own ensures id in ExpiredIds(st, now) <==> id in ExpiredIds(View(st, own), now) {
      ExpiredAlikeIds(st, own, homes, now, id);
    }
    ExpiredRows(st, own, homes, now);
    ExpiredQueue(st, own, now);
    ExpiredViewers(st, own, now);
  }

  lemma ExpiredRows(st: State, own: set<SessionId>, homes: map<SessionId, Target>, now: int)
    requires Known(st, homes) && OneEach(st)
    ensures View(DropExpired(st, now), own).rows == DropExpired(View(st, own), now).rows
  {
    forall t | OwnRow(st, own, t) ensures Expired(st, st.rows[t], now) <==> Expired(View(st, own), st.rows[t], now) {
      ExpiredAlike(st, own, homes, st.rows[t], now);
    }
  }

  lemma ExpiredQueue(st: State, own: set<SessionId>, now: int)
    requires forall id :: id in own ==> (id in ExpiredIds(st, now) <==> id in ExpiredIds(View(st, own), now))
    ensures View(DropExpired(st, now), own).pending == DropExpired(View(st, own), now).pending
  {
  }

  lemma ExpiredViewers(st: State, own: set<SessionId>, now: int)
    requires forall id :: id in own ==> (id in ExpiredIds(st, now) <==> id in ExpiredIds(View(st, own), now))
    ensures Seats(DropExpired(st, now).viewers, own) == Seats(st.viewers, own)
    ensures OwnViewers(DropExpired(st, now).viewers, own) == DropExpired(View(st, own), now).viewers
  {
  }

  lemma NamedAlike(st: State, homes: map<SessionId, Target>)
    requires Known(st, homes)
    ensures forall id :: id in st.pending ==> st.pending[id].id == id
  {
    assert forall id :: id in st.pending ==> AtHome(homes, id, st.pending[id]);
  }

  lemma DrainSeats(st: State, order: seq<SessionId>, now: int)
    requires OneEach(st)
    ensures OneEach(FlushEach(st, order, now))
  {
    FlushEachRest(st, order, now);
    assert forall s, t :: LiveAt(FlushEach(st, order, now), s, t) <==> LiveAt(st, s, t);
  }

  lemma ViewAlarm(st: State, own: set<SessionId>, homes: map<SessionId, Target>, order: seq<SessionId>, now: int)
    requires Fits(st, own, homes) && Listing(st, order) && Spared(st, own, FlushEach(st, order, now))
    ensures Like(View(DropExpired(FlushEach(st, order, now), now), own), Expire(View(st, own), now))
  {
    var view, flushed := View(st, own), FlushEach(st, order, now);
    NamedAlike(st, homes);
    ViewDrained(st, own, order, now);
    FlushEachKnown(st, order, now, homes);
    DrainSeats(st, order, now);
    ViewExpire(flushed, own, homes, now);
    FlushAllShape(view, own, now);
    LikeExpire(View(flushed, own), FlushAll(view, now), own, now);
  }

  lemma LikeExpire(a: State, b: State, ids: set<SessionId>, now: int)
    requires Like(a, b) && Shape(b, ids)
    ensures Like(DropExpired(a, now), DropExpired(b, now))
  {
    forall row ensures Expired(a, row, now) <==> Expired(b, row, now) {
      LikeSession(a, b, ids, row.id);
    }
    assert ExpiredIds(a, now) == ExpiredIds(b, now);
  }

  lemma LikeSession(a: State, b: State, ids: set<SessionId>, id: SessionId)
    requires Like(a, b) && Shape(b, ids)
    ensures LiveSession(a, id) == LiveSession(b, id)
  {
    assert forall s :: Live(a, s) <==> Live(b, s);
    var x, y := LiveSession(a, id), LiveSession(b, id);
    if x.Some? {
      assert LiveAt(b, x.value, b.viewers[x.value].target) && LiveAt(b, y.value, b.viewers[y.value].target);
    }
  }

  // -------------------------------------------------------------------- every step

  /** What a step does to these sessions is what it does to them alone; an attach may not concern them at all. */
  lemma ViewAct(st: State, own: set<SessionId>, homes: map<SessionId, Target>, step: Step, order: seq<SessionId>, now: int)
    requires Fits(st, own, homes) && Spared(st, own, Written(st, step, order, now)) && !step.Hibernate?
    requires (Joins(st, step) ==> step.requested !in homes) && (step.Alarm? ==> Listing(st, order))
    ensures
      var after := View(Act(st, step, order, now), if Joins(st, step) then own + {step.requested} else own);
      Like(after, Effect(View(st, own), step, now)) || (step.Attaching? && Like(after, View(st, own)))
  {
    match step
    case Attaching(s, t, requested) => if s !in st.viewers { ViewAttach(st, own, homes, s, t, requested, now); }
    case Emitted(id, chunk) => ViewOutput(st, own, homes, id, chunk, now);
    case Exited(id) => ViewExit(st, own, homes, id);
    case Closing(s) => ViewClosing(st, own, homes, s);
    case Leaving(s, failed) => ViewLeaving(st, own, homes, s, failed);
    case CloseAt(t) => ViewClose(st, own, homes, t);
    case Alarm => ViewAlarm(st, own, homes, order, now);
    case NewExecutor => ViewFail(st, own);
    case LostExecutor => ViewFail(st, own);
    case _ => ViewPlain(st, own, step, now);
  }
}
