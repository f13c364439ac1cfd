/**
 * How long a terminal lasts: what counts as using it, that nothing else moves its last
 * use, and that an alarm ends exactly the sessions nobody used for half an hour or that
 * are eight hours old.
 */
module TerminalLifetimes {
  import opened Common
  import opened TerminalReplay
  import opened TerminalModel
  import opened TerminalSafety
  import opened TerminalTheorems

  // ------------------------------------------------------------------ the last use

  /** A viewer that shows a target's terminal. */
  predicate Shows(st: State, s: SocketId, t: Target) {
    s in st.sockets && s in st.viewers && !st.viewers[s].settled && st.viewers[s].target == t
  }

  /** When a session was last used, as its row, its queued entry or its viewer knows: whichever is latest. */
  ghost predicate LastUsed(st: State, t: Target, at: int)
    requires t in st.rows
  {
    var row := st.rows[t];
    && row.lastActivityAt <= at && (row.id in st.pending ==> st.pending[row.id].lastActivityAt <= at)
    && (forall s :: Shows(st, s, t) ==> st.viewers[s].lastActivityAt <= at)
    && (|| row.lastActivityAt == at
        || (row.id in st.pending && st.pending[row.id].lastActivityAt == at)
        || exists s :: Shows(st, s, t) && st.viewers[s].lastActivityAt == at)
  }

  /** What is queued is of the session's row, no older than it, and began when it did; so did whoever watches. */
  ghost predicate Timed(st: State) {
    && (forall id :: id in st.pending ==>
          var t := st.pending[id].target;
          t in st.rows && st.rows[t].id == id
          && st.rows[t].startedAt == st.pending[id].startedAt && st.rows[t].lastActivityAt <= st.pending[id].lastActivityAt)
    && (forall s, t :: Shows(st, s, t) ==> t in st.rows && st.viewers[s].startedAt == st.rows[t].startedAt)
  }

  lemma ShowsIsLive(st: State)
    ensures forall s, t :: Shows(st, s, t) <==> LiveAt(st, s, t)
  {
  }

  /** A target nothing happened at. */
  ghost predicate Untouched(st: State, after: State, t: Target) {
    && (t in after.rows ==> t in st.rows && after.rows[t] == st.rows[t] && Queued(after, st.rows[t].id) == Queued(st, st.rows[t].id))
    && (forall s :: Shows(after, s, t) ==> Shows(st, s, t) && after.viewers[s] == st.viewers[s])
    && (t in after.rows ==> forall s :: Shows(st, s, t) ==> Shows(after, s, t))
  }

  lemma UntouchedStays(st: State, after: State, t: Target, at: int)
    requires Untouched(st, after, t) && t in after.rows
    ensures LastUsed(after, t, at) <==> LastUsed(st, t, at)
  {
  }

  // --------------------------------------------------------------- what steps do

  /** What a step may do at a target: it is used at this moment, or its last use is what it was. */
  ghost predicate Kept(st: State, after: State, t: Target, used: bool, now: int) {
    t in after.rows && t in st.rows
    && after.rows[t].startedAt == st.rows[t].startedAt && after.rows[t].id == st.rows[t].id
    && forall at :: LastUsed(st, t, at) ==> LastUsed(after, t, if used then now else at)
  }

  lemma EndsKeep(w: World, after: State, gone: set<SessionId>, t: Target)
    requires Inv(w) && Timed(w.st) && Ends(w.st, after, gone) && t in after.rows
    ensures Untouched(w.st, after, t)
  {
    EndSeats(w.st, w.hist.Keys, after, gone);
    ShowsIsLive(w.st);
    ShowsIsLive(after);
    assert forall s :: LiveAt(w.st, s, t) ==> w.st.viewers[s].id == w.st.rows[t].id;
  }

  lemma EndsTimed(w: World, after: State, gone: set<SessionId>)
    requires Inv(w) && Timed(w.st) && Ends(w.st, after, gone)
    ensures Timed(after)
  {
    EndSeats(w.st, w.hist.Keys, after, gone);
    ShowsIsLive(w.st);
    ShowsIsLive(after);
  }

  /** Nobody but one viewer left, and put its last use into the row. */
  ghost predicate Departs(st: State, after: State, s: SocketId, t: Target) {
    && Shows(st, s, t) && t in st.rows && after.rows.Keys == st.rows.Keys && after.pending == st.pending - {st.rows[t].id}
    && (forall x :: x in st.rows && x != t ==> after.rows[x] == st.rows[x] && after.rows[x].id != st.rows[t].id)
    && after.rows[t].id == st.rows[t].id && after.rows[t].startedAt == st.rows[t].startedAt
    && after.rows[t].lastActivityAt == Max(st.rows[t].lastActivityAt, st.viewers[s].lastActivityAt)
    && (forall u, x :: Shows(after, u, x) <==> Shows(st, u, x) && u != s)
    && (forall u, x :: Shows(after, u, x) ==> after.viewers[u] == st.viewers[u])
    && st.rows[t].id !in st.pending && (forall u :: Shows(st, u, t) ==> u == s)
  }

  lemma DepartsKeeps(st: State, after: State, s: SocketId, t: Target)
    requires Departs(st, after, s, t) && Timed(st)
    ensures Kept(st, after, t, false, 0) && Timed(after)
  {
  }

  lemma DepartsElsewhere(st: State, after: State, s: SocketId, t: Target, x: Target)
    requires Departs(st, after, s, t) && x != t
    ensures Untouched(st, after, x)
  {
  }

  /** A viewer that leaves its target puts its own last use into the row. */
  lemma PersistDeparts(w: World, s: SocketId, t: Target, left: State)
    requires Inv(w) && LiveAt(w.st, s, t)
    requires left == SettleViewer(w.st, s) || left == w.st.(sockets := Without(w.st.sockets, s))
    ensures Departs(w.st, Persist(left, s, w.st.viewers[s]), s, t)
  {
    var after := Persist(left, s, w.st.viewers[s]);
    LeftSeat(w.st, s, left, after);
    PersistRow(w.st, w.hist.Keys, s, t, left);
    PersistTimes(w.st, w.hist.Keys, s, t, left);
    WatchedHasNoEntry(w.st, w.hist.Keys, s, t);
    forall u, x ensures Shows(after, u, x) <==> Shows(w.st, u, x) && u != s {
      assert Live(after, u) <==> Live(w.st, u) && u != s;
    }
  }

  lemma PersistTimes(st: State, ids: set<SessionId>, s: SocketId, t: Target, left: State)
    requires Shape(st, ids) && LiveAt(st, s, t) && left.rows == st.rows
    ensures
      var after := Persist(left, s, st.viewers[s]);
      && after.rows[t].startedAt == st.rows[t].startedAt
      && after.rows[t].lastActivityAt == Max(st.rows[t].lastActivityAt, st.viewers[s].lastActivityAt)
  {
    var id := st.viewers[s].id;
    assert HasRow(left, id) by { assert left.rows[t].id == id; }
    assert st.rows[Row(left, id)].id == st.rows[t].id;
  }

  lemma WatchedHasNoEntry(st: State, ids: set<SessionId>, s: SocketId, t: Target)
    requires Shape(st, ids) && LiveAt(st, s, t)
    ensures st.rows[t].id !in st.pending
    ensures forall u :: Shows(st, u, t) ==> u == s
  {
    if st.rows[t].id in st.pending {
      var u := st.pending[st.rows[t].id].target;
      assert st.rows[u].id == st.rows[t].id;
      assert Watched(st, u);
    }
    forall u | Shows(st, u, t) ensures u == s { assert LiveAt(st, u, t); }
  }

  /** A step that leaves every target alone but one. */
  ghost predicate OnlyHere(st: State, after: State, t: Target) {
    forall x :: x != t ==> Untouched(st, after, x)
  }

  lemma UntouchedKept(st: State, after: State, t: Target)
    requires Untouched(st, after, t) && t in after.rows
    ensures Kept(st, after, t, false, 0)
  {
    forall at | LastUsed(st, t, at) ensures LastUsed(after, t, at) { UntouchedStays(st, after, t, at); }
  }

  /** The entry of a target becomes its row. */
  ghost predicate Drained(st: State, after: State, t: Target) {
    && t in st.rows && st.rows[t].id in st.pending
    && after.sockets == st.sockets && after.viewers == st.viewers
    && after.rows == st.rows[t := st.pending[st.rows[t].id]] && after.pending == st.pending - {st.rows[t].id}
    && after.rows[t].id == st.rows[t].id
    && forall x :: x in st.rows && x != t ==> st.rows[x].id != st.rows[t].id
  }

  lemma DrainedKeeps(st: State, after: State, t: Target)
    requires Drained(st, after, t) && Timed(st)
    ensures Kept(st, after, t, false, 0) && Timed(after)
  {
    var entry := st.pending[st.rows[t].id];
    assert st.rows[entry.target].id == st.rows[t].id;
    assert forall s, x :: Shows(after, s, x) <==> Shows(st, s, x);
  }

  lemma DrainedElsewhere(st: State, after: State, t: Target)
    requires Drained(st, after, t)
    ensures OnlyHere(st, after, t)
  {
    assert forall s, x :: Shows(after, s, x) <==> Shows(st, s, x);
  }

  lemma FlushDrains(w: World, t: Target, now: int)
    requires Inv(w) && t in w.st.rows && w.st.rows[t].id in w.st.pending
    ensures Drained(w.st, Flush(w.st, w.st.rows[t].id, now), t)
  {
    assert w.st.rows[w.st.pending[w.st.rows[t].id].target].id == w.st.rows[t].id;
  }

  /** One viewer more, at a target nobody watched, on a row as old as now. */
  ghost predicate Takes(st: State, after: State, s: SocketId, t: Target, now: int) {
    && (forall u :: !Shows(st, u, t)) && after.pending == st.pending
    && t in after.rows && after.rows == st.rows[t := after.rows[t]] && after.rows[t].lastActivityAt == now
    && after.rows[t].id !in st.pending && (forall id :: id in st.pending ==> st.pending[id].target != t)
    && (forall u, x :: Shows(after, u, x) <==> Shows(st, u, x) || (u == s && x == t))
    && (forall u, x :: Shows(st, u, x) ==> u in after.viewers && after.viewers[u] == st.viewers[u])
    && s in after.viewers && after.viewers[s].lastActivityAt == now && after.viewers[s].startedAt == after.rows[t].startedAt
  }

  lemma TakesUses(st: State, after: State, s: SocketId, t: Target, now: int)
    requires Takes(st, after, s, t, now) && Timed(st)
    ensures LastUsed(after, t, now) && Timed(after)
  {
    assert Shows(after, s, t);
  }

  lemma TakesElsewhere(st: State, after: State, s: SocketId, t: Target, now: int)
    requires Takes(st, after, s, t, now)
    ensures OnlyHere(st, after, t)
  {
  }

  lemma SeatTakes(w: World, s: SocketId, t: Target, row: Session, now: int)
    requires Inv(w) && s !in w.st.viewers && !Watched(w.st, t) && row.target == t && row.lastActivityAt == now
    requires t in w.st.rows ==> w.st.rows[t].id == row.id && row.id !in w.st.pending
    requires t !in w.st.rows ==> row.id !in w.hist
    ensures Takes(w.st, Seat(w.st, s, t, row), s, t, now)
  {
    var st := w.st;
    NobodyShows(st, t);
    SeatShows(st, s, t, row);
    forall id | id in st.pending ensures st.pending[id].target != t && id != row.id {
      assert st.rows[st.pending[id].target].id == id;
    }
  }

  lemma NobodyShows(st: State, t: Target)
    requires !Watched(st, t)
    ensures forall u :: !Shows(st, u, t)
  {
    forall u ensures !Shows(st, u, t) { assert Shows(st, u, t) ==> LiveAt(st, u, t); }
  }

  lemma SeatShows(st: State, s: SocketId, t: Target, row: Session)
    requires s !in st.viewers
    ensures forall u, x :: Shows(Seat(st, s, t, row), u, x) <==> Shows(st, u, x) || (u == s && x == t)
    ensures forall u, x :: Shows(st, u, x) ==> u != s
  {
  }

  // -------------------------------------------------------------------- attaching

  lemma OnlyHereTwice(a: State, b: State, c: State, t: Target)
    requires OnlyHere(a, b, t) && OnlyHere(b, c, t)
    ensures OnlyHere(a, c, t)
  {
    forall x | x != t ensures Untouched(a, c, x) {
      assert Untouched(a, b, x) && Untouched(b, c, x);
    }
  }

  /** What an attach finds once it sent the previous viewer away. */
  lemma DetachKeeps(w: World, t: Target)
    requires Inv(w) && Timed(w.st)
    ensures
      var after := Detached(w.st, t);
      && Inv(w.(st := after)) && Timed(after) && OnlyHere(w.st, after, t) && !Watched(after, t)
      && after.viewers.Keys == w.st.viewers.Keys && (t in after.rows <==> t in w.st.rows)
      && (t in w.st.rows ==> after.rows[t].id == w.st.rows[t].id && after.rows[t].startedAt == w.st.rows[t].startedAt)
  {
    var previous := LiveTarget(w.st, t);
    NobodyAt(w.st, t);
    if previous.Some? {
      var s := previous.value;
      var left := SettleViewer(w.st, s);
      var after := Persist(left, s, w.st.viewers[s]);
      assert LiveAt(w.st, s, t);
      PersistShape(w.st, w.hist.Keys, s, t, left);
      PersistKeeps(w, s, t, left);
      PersistDeparts(w, s, t, left);
      DepartsKeeps(w.st, after, s, t);
      forall x | x != t { DepartsElsewhere(w.st, after, s, t, x); }
    }
  }

  /** Then it takes the queued entry, if any, into the row. */
  lemma FlushKeepsUse(w: World, t: Target, now: int)
    requires Inv(w) && Timed(w.st) && !Watched(w.st, t)
    ensures
      var after := if t in w.st.rows then Flush(w.st, w.st.rows[t].id, now) else w.st;
      && Inv(w.(st := after)) && Timed(after) && OnlyHere(w.st, after, t) && !Watched(after, t)
      && after.viewers == w.st.viewers && (t in after.rows <==> t in w.st.rows)
      && (t in w.st.rows ==> after.rows[t].id == w.st.rows[t].id && after.rows[t].startedAt == w.st.rows[t].startedAt
                             && after.rows[t].target == t && after.rows[t].id !in after.pending)
  {
    if t in w.st.rows {
      FlushShape(w.st, w.hist.Keys, t, now);
      FlushKeeps(w, t, now);
      var after := Flush(w.st, w.st.rows[t].id, now);
      if w.st.rows[t].id in w.st.pending {
        FlushDrains(w, t, now);
        DrainedKeeps(w.st, after, t);
        DrainedElsewhere(w.st, after, t);
      }
    }
  }

  /** An attach uses its target at that moment: a session that was there began when it did, one that was not begins now. */
  lemma AttachUses(w: World, s: SocketId, t: Target, requested: SessionId, now: int)
    requires Inv(w) && Timed(w.st) && s !in w.st.viewers && requested !in w.hist
    ensures
      var after := Attach(w.st, s, t, requested, now);
      && Timed(after) && OnlyHere(w.st, after, t) && t in after.rows && LastUsed(after, t, now)
      && (if t in w.st.rows then after.rows[t].startedAt == w.st.rows[t].startedAt && after.rows[t].id == w.st.rows[t].id
          else after.rows[t].startedAt == now)
  {
    var detached := Detached(w.st, t);
    DetachKeeps(w, t);
    var flushed := if t in detached.rows then Flush(detached, detached.rows[t].id, now) else detached;
    FlushKeepsUse(w.(st := detached), t, now);
    var row := if t in flushed.rows then flushed.rows[t].(lastActivityAt := now) else Session(requested, t, now, now, EMPTY);
    var after := Seat(flushed, s, t, row);
    SeatTakes(w.(st := flushed), s, t, row, now);
    TakesUses(flushed, after, s, t, now);
    TakesElsewhere(flushed, after, s, t, now);
    OnlyHereTwice(w.st, detached, flushed, t);
    OnlyHereTwice(w.st, flushed, after, t);
  }

  // ----------------------------------------------------------------------- output

  /** One viewer is used at this moment. */
  ghost predicate Hears(st: State, after: State, s: SocketId, t: Target, now: int) {
    && Shows(st, s, t) && after.sockets == st.sockets && after.rows == st.rows && after.pending == st.pending
    && after.viewers == st.viewers[s := st.viewers[s].(lastActivityAt := now)]
  }

  lemma HearsUses(w: World, after: State, s: SocketId, t: Target, now: int)
    requires Inv(w) && Timed(w.st) && Past(w.st, now) && Hears(w.st, after, s, t, now)
    ensures Timed(after) && OnlyHere(w.st, after, t) && Kept(w.st, after, t, true, now)
  {
    assert LiveAt(w.st, s, t);
    WatchedHasNoEntry(w.st, w.hist.Keys, s, t);
    assert forall u, x :: Shows(after, u, x) <==> Shows(w.st, u, x);
    assert Shows(after, s, t) && after.viewers[s].lastActivityAt == now;
  }

  /** A session nobody watches is used: its entry, or its row, says so. */
  ghost predicate Notes(st: State, after: State, t: Target, now: int) {
    && t in st.rows && t in after.rows && after.sockets == st.sockets && after.viewers == st.viewers
    && (forall s :: !Shows(st, s, t))
    && after.rows == st.rows[t := after.rows[t]] && after.rows[t].id == st.rows[t].id && after.rows[t].startedAt == st.rows[t].startedAt
    && (forall id :: id != st.rows[t].id ==> Queued(after, id) == Queued(st, id) && (id in st.pending ==> st.pending[id].target != t))
    && (forall x :: x in st.rows && x != t ==> st.rows[x].id != st.rows[t].id)
    && (if st.rows[t].id in after.pending
        then var e := after.pending[st.rows[t].id];
             e.lastActivityAt == now && after.rows[t].lastActivityAt <= now && e.target == t && e.startedAt == st.rows[t].startedAt
        else after.rows[t].lastActivityAt == now)
  }

  lemma NotesUses(st: State, after: State, t: Target, now: int)
    requires Notes(st, after, t, now) && Timed(st)
    ensures Timed(after) && Kept(st, after, t, true, now)
  {
    assert forall s, x :: Shows(after, s, x) <==> Shows(st, s, x);
    forall id | id in after.pending && id != st.rows[t].id
      ensures id in st.pending && after.pending[id] == st.pending[id]
    {
      assert Queued(after, id) == Queued(st, id);
    }
  }

  lemma NotesElsewhere(st: State, after: State, t: Target, now: int)
    requires Notes(st, after, t, now)
    ensures OnlyHere(st, after, t)
  {
    assert forall s, x :: Shows(after, s, x) <==> Shows(st, s, x);
  }

  /** Nobody shows the target, and no other session's entry or row is for it. */
  ghost predicate Quiet(st: State, t: Target) {
    && t in st.rows && (forall s :: !Shows(st, s, t))
    && (forall id :: id in st.pending && id != st.rows[t].id ==> st.pending[id].target != t)
    && (forall x :: x in st.rows && x != t ==> st.rows[x].id != st.rows[t].id)
    && (st.rows[t].id in st.pending ==> st.pending[st.rows[t].id].target == t && st.pending[st.rows[t].id].id == st.rows[t].id)
  }

  lemma UnwatchedIsQuiet(w: World, t: Target)
    requires Inv(w) && t in w.st.rows && !Watched(w.st, t)
    ensures Quiet(w.st, t)
  {
    var st := w.st;
    forall s ensures !Shows(st, s, t) { assert Shows(st, s, t) ==> LiveAt(st, s, t); }
    forall x | x in st.pending ensures st.rows[st.pending[x].target].id == x && st.pending[x].id == x { }
  }

  lemma QueuedNotes(st: State, t: Target, entry: Session, now: int)
    requires Quiet(st, t) && entry.lastActivityAt == now && st.rows[t].lastActivityAt <= now
    requires entry.target == t && entry.startedAt == st.rows[t].startedAt
    ensures Notes(st, st.(pending := st.pending[st.rows[t].id := entry]), t, now)
  {
  }

  lemma WrittenNotes(st: State, t: Target, entry: Session, now: int)
    requires Quiet(st, t) && entry.lastActivityAt == now
    requires entry.target == t && entry.id == st.rows[t].id && entry.startedAt == st.rows[t].startedAt
    ensures Notes(st, Flush(st.(pending := st.pending[entry.id := entry]), entry.id, now), t, now)
  {
  }

  lemma TouchNotes(w: World, id: SessionId, t: Target, chunk: string, now: int)
    requires Inv(w) && Timed(w.st) && Past(w.st, now) && t in w.st.rows && w.st.rows[t].id == id && !Watched(w.st, t)
    ensures Notes(w.st, Touch(w.st, id, chunk, now), t, now)
  {
    var st := w.st;
    UnwatchedIsQuiet(w, t);
    assert HasRow(st, id) && Row(st, id) == t;
    var entry := Grown(if id in st.pending then st.pending[id] else st.rows[t], chunk, now);
    assert st.rows[t].target == t;
    QueuedNotes(st, t, entry, now);
    WrittenNotes(st, t, entry, now);
  }

  lemma KeptAll(st: State, after: State, t: Target, id: SessionId, now: int)
    requires OnlyHere(st, after, t) && Kept(st, after, t, true, now) && st.rows[t].id == id
    requires forall x :: x in st.rows && x != t ==> st.rows[x].id != id
    ensures forall x :: x in after.rows ==> x in st.rows && Kept(st, after, x, st.rows[x].id == id, now)
  {
    forall x | x in after.rows ensures x in st.rows && Kept(st, after, x, st.rows[x].id == id, now) {
      if x != t { UntouchedKept(st, after, x); }
    }
  }

  /** What a step leaves stored was stored, and was used at this moment or not. */
  ghost predicate AllKept(st: State, after: State, used: set<Target>, now: int) {
    forall t :: t in after.rows ==> Kept(st, after, t, t in used, now)
  }

  ghost function At(st: State, id: SessionId): set<Target> {
    set t | t in st.rows && st.rows[t].id == id
  }

  lemma NothingKept(st: State)
    ensures AllKept(st, st, {}, 0)
  {
    forall t | t in st.rows { UntouchedKept(st, st, t); }
  }

  lemma TouchedUses(w: World, id: SessionId, t: Target, chunk: string, now: int)
    requires Inv(w) && Timed(w.st) && Past(w.st, now) && t in w.st.rows && w.st.rows[t].id == id && !Watched(w.st, t)
    ensures
      var after := Touch(w.st, id, chunk, now);
      Timed(after) && Kept(w.st, after, t, true, now) && OnlyHere(w.st, after, t)
  {
    TouchNotes(w, id, t, chunk, now);
    NotesUses(w.st, Touch(w.st, id, chunk, now), t, now);
    NotesElsewhere(w.st, Touch(w.st, id, chunk, now), t, now);
  }

  lemma OneTarget(w: World, id: SessionId)
    requires Inv(w) && HasRow(w.st, id)
    ensures At(w.st, id) == {Row(w.st, id)}
  {
    var t := Row(w.st, id);
    forall x | x in At(w.st, id) ensures x == t { assert w.st.rows[x].id == w.st.rows[t].id; }
  }

  lemma EmittedUses(w: World, id: SessionId, chunk: string, now: int)
    requires Inv(w) && Timed(w.st) && Past(w.st, now)
    ensures
      var after := Output(w.st, id, chunk, now);
      Timed(after) && AllKept(w.st, after, At(w.st, id), now)
  {
    var st, after := w.st, Output(w.st, id, chunk, now);
    if HasRow(st, id) {
      var t, live := Row(st, id), LiveSession(st, id);
      LiveIsThere(w, id);
      OneTarget(w, id);
      if live.Some? { HearsUses(w, after, live.value, t, now); } else { TouchedUses(w, id, t, chunk, now); }
      KeptAll(st, after, t, id, now);
    } else {
      NoRowNobody(w, id);
      NothingKept(st);
    }
  }

  // ------------------------------------------------------------------------- ends

  lemma EndsAllKept(w: World, after: State, gone: set<SessionId>)
    requires Inv(w) && Timed(w.st) && Ends(w.st, after, gone)
    ensures Timed(after) && AllKept(w.st, after, {}, 0)
  {
    EndsTimed(w, after, gone);
    forall t | t in after.rows ensures Kept(w.st, after, t, false, 0) {
      EndsKeep(w, after, gone, t);
      UntouchedKept(w.st, after, t);
    }
  }

  lemma CloseTargetEnds(w: World, t: Target) returns (gone: set<SessionId>)
    requires Inv(w)
    ensures Ends(w.st, CloseTarget(w.st, t), gone)
  {
    var live := LiveTarget(w.st, t);
    if live.Some? {
      assert LiveAt(w.st, live.value, t);
      OneViewer(w, live.value);
    }
    if t in w.st.rows {
      var id := w.st.rows[t].id;
      assert HasRow(w.st, id);
      LiveIsThere(w, id);
      NobodyAt(w.st, t);
      ForgetEnds(w, id);
      gone := {id};
    } else {
      gone := {};
      assert w.st.rows == map x | x in w.st.rows && w.st.rows[x].id !in gone :: w.st.rows[x];
    }
  }

  lemma ClosingEnds(w: World, s: SocketId)
    requires Inv(w) && AttachedViewer(w.st, s) && !w.st.viewers[s].settled
    ensures Ends(w.st, Effect(w.st, Closing(s), 0), {w.st.viewers[s].id})
  {
    OneViewer(w, s);
    ForgetEnds(w, w.st.viewers[s].id);
  }

  lemma EndingUses(w: World, step: Step, now: int)
    requires Inv(w) && Timed(w.st) && (step.Exited? || step.Closing? || step.CloseAt?)
    ensures Timed(Effect(w.st, step, now)) && AllKept(w.st, Effect(w.st, step, now), {}, 0)
  {
    if step.Exited? {
      ForgetEnds(w, step.id);
      EndsAllKept(w, Effect(w.st, step, now), {step.id});
    } else if step.Closing? {
      if AttachedViewer(w.st, step.s) && !w.st.viewers[step.s].settled {
        ClosingEnds(w, step.s);
        EndsAllKept(w, Effect(w.st, step, now), {w.st.viewers[step.s].id});
      } else {
        NothingKept(w.st);
      }
    } else {
      var gone := CloseTargetEnds(w, step.target);
      EndsAllKept(w, Effect(w.st, step, now), gone);
    }
  }

  // -------------------------------------------------------------------- the alarm

  /** Everything queued becomes the row it is of. */
  lemma FlushAllKept(w: World, now: int, t: Target)
    requires Inv(w) && Timed(w.st) && t in w.st.rows
    ensures Kept(w.st, FlushAll(w.st, now), t, false, 0)
  {
    var st, after := w.st, FlushAll(w.st, now);
    var id := st.rows[t].id;
    assert forall s, x :: Shows(after, s, x) <==> Shows(st, s, x);
    if id in st.pending { assert st.rows[st.pending[id].target].id == id; }
  }

  lemma FlushAllTimed(w: World, now: int)
    requires Inv(w) && Timed(w.st)
    ensures Timed(FlushAll(w.st, now)) && FlushAll(w.st, now).rows.Keys == w.st.rows.Keys
  {
    var st, after := w.st, FlushAll(w.st, now);
    forall s, x | Shows(after, s, x) ensures x in after.rows && after.viewers[s].startedAt == after.rows[x].startedAt {
      assert Shows(st, s, x);
      FlushAllKept(w, now, x);
    }
  }

  lemma KeptTwice(a: State, b: State, c: State, t: Target)
    requires Kept(a, b, t, false, 0) && Kept(b, c, t, false, 0)
    ensures Kept(a, c, t, false, 0)
  {
  }

  lemma AlarmKeepsUse(w: World, now: int)
    requires Inv(w) && Timed(w.st)
    ensures Timed(Expire(w.st, now)) && AllKept(w.st, Expire(w.st, now), {}, 0)
  {
    var flushed := FlushAll(w.st, now);
    var f := w.(st := flushed);
    FlushAllKeeps(w, now);
    FlushAllTimed(w, now);
    ExpireEnds(flushed, w.hist.Keys, now);
    EndsAllKept(f, Expire(w.st, now), ExpiredIds(flushed, now));
    forall t | t in Expire(w.st, now).rows ensures Kept(w.st, Expire(w.st, now), t, false, 0) {
      FlushAllKept(w, now, t);
      KeptTwice(w.st, flushed, Expire(w.st, now), t);
    }
  }

  // ------------------------------------------------------------------- every step

  /** Who shows a target types there. */
  lemma TypingUses(w: World, s: SocketId, now: int)
    requires Inv(w) && Timed(w.st) && Past(w.st, now) && Live(w.st, s)
    ensures
      var after := Effect(w.st, Typed(s), now);
      Timed(after) && AllKept(w.st, after, {w.st.viewers[s].target}, now)
  {
    var after, t := Effect(w.st, Typed(s), now), w.st.viewers[s].target;
    assert LiveAt(w.st, s, t);
    HearsUses(w, after, s, t, now);
    AllKeptButOne(w.st, after, t, true, now);
  }

  lemma AllKeptButOne(st: State, after: State, t: Target, used: bool, now: int)
    requires OnlyHere(st, after, t) && (t in after.rows ==> Kept(st, after, t, used, now))
    ensures AllKept(st, after, if used then {t} else {}, now)
  {
    forall x | x in after.rows && x != t { UntouchedKept(st, after, x); }
  }

  lemma GoneUses(w: World, s: SocketId)
    requires Inv(w) && Timed(w.st) && Live(w.st, s)
    ensures Timed(Gone(w.st, s)) && AllKept(w.st, Gone(w.st, s), {}, 0)
  {
    var st, after, t := w.st, Gone(w.st, s), w.st.viewers[s].target;
    assert LiveAt(st, s, t);
    PersistDeparts(w, s, t, st.(sockets := Without(st.sockets, s)));
    DepartsKeeps(st, after, s, t);
    forall x | x != t { DepartsElsewhere(st, after, s, t, x); }
    AllKeptButOne(st, after, t, false, 0);
  }

  lemma SettledGoes(st: State, s: SocketId)
    requires Timed(st) && s in st.viewers && st.viewers[s].settled
    ensures Timed(Gone(st, s)) && AllKept(st, Gone(st, s), {}, 0)
  {
    var after := Gone(st, s);
    assert forall u, x :: Shows(after, u, x) <==> Shows(st, u, x);
    forall x | x in after.rows { UntouchedKept(st, after, x); }
  }

  lemma LeavingUses(w: World, s: SocketId, failed: bool, now: int)
    requires Inv(w) && Timed(w.st)
    ensures
      var after := Effect(w.st, Leaving(s, failed), now);
      Timed(after) && AllKept(w.st, after, {}, 0)
  {
    var after := Effect(w.st, Leaving(s, failed), now);
    if !AttachedViewer(w.st, s) {
      NothingKept(w.st);
    } else {
      assert after == Gone(w.st, s);
      if w.st.viewers[s].settled { SettledGoes(w.st, s); } else { GoneUses(w, s); }
    }
  }

  /** The targets a step uses: where its viewer sits down or types, or whose session printed something. */
  ghost function UsedBy(st: State, step: Step): set<Target> {
    match step
    case Attaching(s, t, _) => if s in st.viewers then {} else {t}
    case Emitted(id, _) => At(st, id)
    case Typed(s) => if Live(st, s) then {st.viewers[s].target} else {}
    case _ => {}
  }

  /** What a step does to when the sessions that are stored after it began and were last used. */
  ghost predicate Uses(st: State, step: Step, now: int, after: State) {
    forall t :: t in after.rows ==>
      if t in st.rows then Kept(st, after, t, t in UsedBy(st, step), now)
      else t in UsedBy(st, step) && after.rows[t].startedAt == now && LastUsed(after, t, now)
  }

  lemma PlainUses(w: World, step: Step, now: int)
    requires Inv(w) && Timed(w.st) && (step.Issue? || step.Consume? || step.NewExecutor? || step.LostExecutor?)
    ensures Timed(Effect(w.st, step, now)) && AllKept(w.st, Effect(w.st, step, now), {}, 0)
  {
    if step.Issue? || step.Consume? {
      var after := Effect(w.st, step, now);
      assert forall u, x :: Shows(after, u, x) <==> Shows(w.st, u, x);
      forall x | x in after.rows { UntouchedKept(w.st, after, x); }
    } else {
      assert forall u, x :: !Shows(Effect(w.st, step, now), u, x);
    }
  }

  lemma StepUses(w: World, step: Step, now: int)
    requires Inv(w) && Timed(w.st) && Past(w.st, now) && !step.Hibernate? && Allowed(w, step)
    ensures Timed(Effect(w.st, step, now)) && Uses(w.st, step, now, Effect(w.st, step, now))
  {
    match step
    case Attaching(s, t, requested) =>
      if s in w.st.viewers { NothingKept(w.st); } else { AttachUsesAll(w, s, t, requested, now); }
    case Emitted(id, chunk) => EmittedUses(w, id, chunk, now);
    case Typed(s) => if Live(w.st, s) { TypingUses(w, s, now); } else { NothingKept(w.st); }
    case Leaving(s, failed) => LeavingUses(w, s, failed, now);
    case Alarm => AlarmKeepsUse(w, now);
    case Exited(_) => EndingUses(w, step, now);
    case Closing(_) => EndingUses(w, step, now);
    case CloseAt(_) => EndingUses(w, step, now);
    case _ => PlainUses(w, step, now);
  }

  lemma AttachUsesAll(w: World, s: SocketId, t: Target, requested: SessionId, now: int)
    requires Inv(w) && Timed(w.st) && s !in w.st.viewers && requested !in w.hist
    ensures
      var after := Attach(w.st, s, t, requested, now);
      Timed(after) && Uses(w.st, Attaching(s, t, requested), now, after)
  {
    var after := Attach(w.st, s, t, requested, now);
    AttachUses(w, s, t, requested, now);
    UsesHere(w.st, after, s, t, requested, now);
  }

  lemma UsesHere(st: State, after: State, s: SocketId, t: Target, requested: SessionId, now: int)
    requires OnlyHere(st, after, t) && t in after.rows && LastUsed(after, t, now) && s !in st.viewers
    requires if t in st.rows then after.rows[t].startedAt == st.rows[t].startedAt && after.rows[t].id == st.rows[t].id
             else after.rows[t].startedAt == now
    ensures Uses(st, Attaching(s, t, requested), now, after)
  {
    forall x | x in after.rows && x != t ensures x in st.rows && Kept(st, after, x, false, now) { UntouchedKept(st, after, x); }
  }

  // --------------------------------------------------------------------- over runs

  lemma AlarmAside(st: State, alarm: Option<int>)
    ensures forall s, t :: Shows(st.(alarm := alarm), s, t) <==> Shows(st, s, t)
    ensures forall t, at :: t in st.rows ==> (LastUsed(st.(alarm := alarm), t, at) <==> LastUsed(st, t, at))
  {
    assert forall s, t :: Shows(st.(alarm := alarm), s, t) <==> Shows(st, s, t);
  }

  lemma AlarmTimed(st: State, after: State)
    requires Timed(st) && after == st.(alarm := after.alarm)
    ensures Timed(after)
  {
    assert forall s, t :: Shows(after, s, t) <==> Shows(st, s, t);
  }

  lemma EffectTimed(w: World, step: Step, now: int)
    requires Inv(w) && Timed(w.st) && Past(w.st, now) && Allowed(w, step)
    ensures Timed(Effect(w.st, step, now))
  {
    if step.Hibernate? { SleepTimed(w.st); } else { StepUses(w, step, now); }
  }

  lemma {:induction false} AlwaysTimed(ws: seq<World>, steps: seq<Step>, times: seq<int>, i: nat)
    requires Behavior(ws, steps, times) && i < |ws|
    ensures Timed(ws[i].st)
  {
    if i > 0 {
      AlwaysTimed(ws, steps, times, i - 1);
      StaysTimed(ws, steps, times, i - 1);
    }
  }

  lemma StaysTimed(ws: seq<World>, steps: seq<Step>, times: seq<int>, i: nat)
    requires Behavior(ws, steps, times) && i < |steps| && Timed(ws[i].st)
    ensures Timed(ws[i + 1].st)
  {
    BehaviorKeeps(ws, steps, times, i);
    NothingInTheFuture(ws, steps, times, i, i);
    MoveTimed(ws[i], steps[i], times[i], ws[i + 1]);
  }

  lemma MoveTimed(w: World, step: Step, now: int, after: World)
    requires Inv(w) && Timed(w.st) && Past(w.st, now) && Moves(w, step, now, after)
    ensures Timed(after.st)
  {
    EffectTimed(w, step, now);
    AlarmTimed(Effect(w.st, step, now), after.st);
  }

  lemma SleepTimed(st: State)
    requires Timed(st)
    ensures Timed(Forgetful(st))
  {
    assert forall s, t :: Shows(Forgetful(st), s, t) <==> Shows(st, s, t);
  }

  /**
   * Over every run, a session begins when the viewer that opens it sits down, and is used
   * when a viewer sits down or types at its target or its shell prints something; no
   * other step but a hibernation moves its last use.
   */
  lemma OnlyUseCounts(ws: seq<World>, steps: seq<Step>, times: seq<int>, i: nat, t: Target)
    requires Behavior(ws, steps, times) && i < |steps| && !steps[i].Hibernate? && t in ws[i + 1].st.rows
    ensures
      var st, after, now := ws[i].st, ws[i + 1].st, times[i];
      if t in st.rows then
        && after.rows[t].id == st.rows[t].id && after.rows[t].startedAt == st.rows[t].startedAt
        && forall at :: LastUsed(st, t, at) ==> LastUsed(after, t, if t in UsedBy(st, steps[i]) then now else at)
      else
        t in UsedBy(st, steps[i]) && after.rows[t].startedAt == now && LastUsed(after, t, now)
  {
    var w, step, now := ws[i], steps[i], times[i];
    AlwaysTimed(ws, steps, times, i);
    BehaviorKeeps(ws, steps, times, i);
    NothingInTheFuture(ws, steps, times, i, i);
    assert Moves(w, step, now, ws[i + 1]);
    StepUses(w, step, now);
    AlarmAside(Effect(w.st, step, now), ws[i + 1].st.alarm);
  }

  lemma SomeLastUse(st: State, t: Target) returns (at: int)
    requires t in st.rows && forall s, u :: Shows(st, s, t) && Shows(st, u, t) ==> s == u
    ensures LastUsed(st, t, at)
  {
    var row := st.rows[t];
    at := if row.id in st.pending then Max(row.lastActivityAt, st.pending[row.id].lastActivityAt) else row.lastActivityAt;
    if s :| Shows(st, s, t) { at := Max(at, st.viewers[s].lastActivityAt); }
  }

  /** Every stored session of a run was last used at some moment. */
  lemma UsedOnce(ws: seq<World>, steps: seq<Step>, times: seq<int>, i: nat, t: Target) returns (at: int)
    requires Behavior(ws, steps, times) && i < |ws| && t in ws[i].st.rows
    ensures LastUsed(ws[i].st, t, at)
  {
    BehaviorKeeps(ws, steps, times, i);
    ShowsIsLive(ws[i].st);
    at := SomeLastUse(ws[i].st, t);
  }

  /** What the newest of row and viewer says is the last use, where nothing is queued. */
  lemma LatestIsUse(st: State, ids: set<SessionId>, t: Target, used: int)
    requires Shape(st, ids) && t in st.rows && st.pending == map[] && LastUsed(st, t, used)
    ensures LastActivity(st, st.rows[t]) == used
  {
    SessionIsTarget(st, ids, t);
    var live := LiveTarget(st, t);
    if live.Some? { assert Shows(st, live.value, t); }
    forall s: SocketId | Shows(st, s, t) ensures live == Some(s) {
      assert LiveAt(st, s, t);
      FoundAt(st, s, t, ids);
    }
  }

  lemma FlushedUse(w: World, now: int, t: Target, used: int)
    requires Inv(w) && Timed(w.st) && t in w.st.rows && LastUsed(w.st, t, used)
    ensures
      var flushed := FlushAll(w.st, now);
      && t in flushed.rows && flushed.rows[t].id == w.st.rows[t].id && flushed.rows[t].startedAt == w.st.rows[t].startedAt
      && LastActivity(flushed, flushed.rows[t]) == used
  {
    FlushAllKept(w, now, t);
    FlushAllShape(w.st, w.hist.Keys, now);
    LatestIsUse(FlushAll(w.st, now), w.hist.Keys, t, used);
  }

  /**
   * Over every run, an alarm leaves a session stored, and its viewer live, exactly when
   * it was used less than thirty minutes ago and began less than eight hours ago.
   */
  lemma AlarmSparesExactly(ws: seq<World>, steps: seq<Step>, times: seq<int>, i: nat, t: Target, used: int)
    requires Behavior(ws, steps, times) && i < |steps| && steps[i].Alarm? && t in ws[i].st.rows && LastUsed(ws[i].st, t, used)
    ensures
      var st, after, now := ws[i].st, ws[i + 1].st, times[i];
      var spared := now - used < 30 * 60 * 1000 && now - st.rows[t].startedAt < 8 * 60 * 60 * 1000;
      && (t in after.rows <==> spared)
      && (spared ==> after.rows[t].id == st.rows[t].id)
      && forall s :: Shows(st, s, t) ==> (Shows(after, s, t) <==> spared)
  {
    var w, now := ws[i], times[i];
    AlwaysTimed(ws, steps, times, i);
    BehaviorKeeps(ws, steps, times, i);
    AlarmMoves(w, now, ws[i + 1]);
    var flushed := FlushAll(w.st, now);
    FlushedUse(w, now, t, used);
    FlushAllShape(w.st, w.hist.Keys, now);
    ExpireEnds(flushed, w.hist.Keys, now);
    GoneIs(flushed, w.hist.Keys, now, t);
    EndSeats(flushed, w.hist.Keys, Expire(w.st, now), ExpiredIds(flushed, now));
    AlarmAside(Expire(w.st, now), ws[i + 1].st.alarm);
    forall s | Shows(w.st, s, t)
      ensures Shows(Expire(w.st, now), s, t) <==> flushed.rows[t].id !in ExpiredIds(flushed, now)
    {
      assert LiveAt(flushed, s, t);
      assert LiveAt(Expire(w.st, now), s, t) <==> LiveAt(flushed, s, t) && flushed.viewers[s].id !in ExpiredIds(flushed, now);
    }
  }

  // ------------------------------------------------------------ where output goes

  /** The session at a target as it is once its shell printed something. */
  function Printed(held: Session, chunk: string, now: int): Session {
    Session(held.id, held.target, held.startedAt, now, if chunk == "" then held.buffer else Append(held.buffer, chunk))
  }

  /** What output does: to the buffer of whoever watches; else to the row, when that was not written within five seconds; else to the queue. */
  ghost predicate Goes(st: State, after: State, t: Target, chunk: string, now: int)
    requires t in st.rows
  {
    var id := st.rows[t].id;
    var printed := Printed(if id in st.pending then st.pending[id] else st.rows[t], chunk, now);
    if exists s :: Shows(st, s, t) then
      && after.rows == st.rows && after.pending == st.pending
      && forall s :: Shows(st, s, t) ==>
           s in after.memory && after.memory[s].buffer == Append(if s in st.memory then st.memory[s].buffer else Buffer([], 0), chunk)
    else if now >= 5_000 + (if id in st.touched then st.touched[id] else 0) then
      after.rows == st.rows[t := printed] && id !in after.pending && id in after.touched && after.touched[id] == now && after.memory == st.memory
    else
      after.rows == st.rows && after.pending == st.pending[id := printed] && after.touched == st.touched && after.memory == st.memory
  }

  lemma HeardGoes(w: World, t: Target, s: SocketId, chunk: string, now: int)
    requires Inv(w) && t in w.st.rows && LiveSession(w.st, w.st.rows[t].id) == Some(s) && LiveAt(w.st, s, t)
    ensures Goes(w.st, Output(w.st, w.st.rows[t].id, chunk, now), t, chunk, now)
  {
    ShowsIsLive(w.st);
    assert Shows(w.st, s, t);
  }

  lemma QueuedGoes(w: World, t: Target, chunk: string, now: int)
    requires Inv(w) && t in w.st.rows && LiveSession(w.st, w.st.rows[t].id).None? && !Watched(w.st, t)
    requires HasRow(w.st, w.st.rows[t].id) && Row(w.st, w.st.rows[t].id) == t
    ensures Goes(w.st, Output(w.st, w.st.rows[t].id, chunk, now), t, chunk, now)
  {
    ShowsIsLive(w.st);
    TouchDoes(w.st, w.hist.Keys, t, chunk, now);
  }

  lemma OutputGoes(w: World, t: Target, chunk: string, now: int)
    requires Inv(w) && t in w.st.rows
    ensures Goes(w.st, Output(w.st, w.st.rows[t].id, chunk, now), t, chunk, now)
  {
    var id := w.st.rows[t].id;
    assert HasRow(w.st, id) && Row(w.st, id) == t;
    LiveIsThere(w, id);
    if LiveSession(w.st, id).Some? { HeardGoes(w, t, LiveSession(w.st, id).value, chunk, now); } else { QueuedGoes(w, t, chunk, now); }
  }

  lemma GoesAside(st: State, after: State, alarm: Option<int>, t: Target, chunk: string, now: int)
    requires t in st.rows && Goes(st, after, t, chunk, now)
    ensures Goes(st, after.(alarm := alarm), t, chunk, now)
  {
  }

  /** Over every run, output of a stored session goes there. */
  lemma OutputIsKept(ws: seq<World>, steps: seq<Step>, times: seq<int>, i: nat, t: Target)
    requires Behavior(ws, steps, times) && i < |steps| && steps[i].Emitted? && t in ws[i].st.rows && ws[i].st.rows[t].id == steps[i].id
    ensures Goes(ws[i].st, ws[i + 1].st, t, steps[i].chunk, times[i])
  {
    BehaviorKeeps(ws, steps, times, i);
    OutputGoes(ws[i], t, steps[i].chunk, times[i]);
    GoesAside(ws[i].st, Output(ws[i].st, steps[i].id, steps[i].chunk, times[i]), ws[i + 1].st.alarm, t, steps[i].chunk, times[i]);
    assert Moves(ws[i], steps[i], times[i], ws[i + 1]);
  }

  /** And output of any other session goes nowhere. */
  lemma StrayOutput(ws: seq<World>, steps: seq<Step>, times: seq<int>, i: nat)
    requires Behavior(ws, steps, times) && i < |steps| && steps[i].Emitted? && forall t :: t in ws[i].st.rows ==> ws[i].st.rows[t].id != steps[i].id
    ensures ws[i + 1].st == ws[i].st.(alarm := ws[i + 1].st.alarm)
  {
    BehaviorKeeps(ws, steps, times, i);
    NoRowNobody(ws[i], steps[i].id);
    assert Moves(ws[i], steps[i], times[i], ws[i + 1]);
  }

  // ---------------------------------------------------------------------- tickets

  /** An alarm drops exactly the tickets whose time is over. */
  lemma AlarmSparesTickets(ws: seq<World>, steps: seq<Step>, times: seq<int>, i: nat, token: Token)
    requires Behavior(ws, steps, times) && i < |steps| && steps[i].Alarm?
    ensures
      var before, after := ws[i].st.tickets, ws[i + 1].st.tickets;
      && (token in after <==> token in before && before[token].expiresAt >= times[i])
      && (token in after ==> after[token] == before[token])
  {
    AlarmMoves(ws[i], times[i], ws[i + 1]);
  }

  lemma TicketStays(ws: seq<World>, steps: seq<Step>, times: seq<int>, i: nat, token: Token)
    requires Behavior(ws, steps, times) && i < |steps| && token in ws[i].st.tickets
    requires !(steps[i].Consume? && steps[i].token == token) && times[i] <= ws[i].st.tickets[token].expiresAt
    ensures token in ws[i + 1].st.tickets && ws[i + 1].st.tickets[token] == ws[i].st.tickets[token]
  {
    assert Moves(ws[i], steps[i], times[i], ws[i + 1]);
    if steps[i].Alarm? {
      AlarmSparesTickets(ws, steps, times, i, token);
    } else if !steps[i].Issue? && !steps[i].Consume? {
      EffectClock(ws[i].st, steps[i], times[i]);
    }
  }

  lemma {:induction false} TicketWaits(ws: seq<World>, steps: seq<Step>, times: seq<int>, i: nat, j: nat, token: Token, scope: string)
    requires Behavior(ws, steps, times) && i < j < |ws| && steps[i] == Issue(token, scope) && token !in ws[i].st.tickets
    requires forall k :: i < k < j ==> !(steps[k].Consume? && steps[k].token == token) && times[k] <= times[i] + 30_000
    ensures token in ws[j].st.tickets && ws[j].st.tickets[token] == Ticket(scope, times[i] + 30_000)
    decreases j
  {
    if j == i + 1 {
      assert Moves(ws[i], steps[i], times[i], ws[i + 1]);
    } else {
      TicketWaits(ws, steps, times, i, j - 1, token, scope);
      TicketStays(ws, steps, times, j - 1, token);
    }
  }

  /**
   * Over every run, a ticket that was issued and not asked for since is granted exactly
   * for the scope it was issued for, within thirty seconds.
   */
  lemma TicketsAreGood(ws: seq<World>, steps: seq<Step>, times: seq<int>, i: nat, j: nat, token: Token, scope: string)
    requires Behavior(ws, steps, times) && i < j < |steps| && steps[i] == Issue(token, scope) && token !in ws[i].st.tickets
    requires steps[j].Consume? && steps[j].token == token
    requires forall k :: i < k < j ==> !(steps[k].Consume? && steps[k].token == token) && !(steps[k].Issue? && steps[k].token == token)
    ensures Granted(ws[j].st, token, steps[j].scope, times[j]) <==> steps[j].scope == scope && times[j] - times[i] <= 30_000
  {
    if times[j] <= times[i] + 30_000 {
      TicketWaits(ws, steps, times, i, j, token, scope);
    } else {
      LateTicket(ws, steps, times, i, j, token, scope);
    }
  }

  /** Once its time is over a ticket is gone or still says so. */
  lemma {:induction false} LateTicket(ws: seq<World>, steps: seq<Step>, times: seq<int>, i: nat, j: nat, token: Token, scope: string)
    requires Behavior(ws, steps, times) && i < j < |ws| && steps[i] == Issue(token, scope) && token !in ws[i].st.tickets
    requires forall k :: i < k < j ==> !(steps[k].Issue? && steps[k].token == token)
    ensures token in ws[j].st.tickets ==> ws[j].st.tickets[token] == Ticket(scope, times[i] + 30_000)
    decreases j
  {
    assert Moves(ws[j - 1], steps[j - 1], times[j - 1], ws[j - 1 + 1]);
    if j > i + 1 {
      LateTicket(ws, steps, times, i, j - 1, token, scope);
      if !steps[j - 1].Issue? && !steps[j - 1].Consume? && !steps[j - 1].Alarm? { EffectClock(ws[j - 1].st, steps[j - 1], times[j - 1]); }
    }
  }

  // -------------------------------------------------------------------- deadlines

  ghost predicate ArmedBy(st: State, armedAt: int, deadline: int) {
    st.alarm.Some? && (st.alarm.value <= deadline || st.alarm.value <= armedAt + 1000)
  }

  /**
   * Over every run an alarm is pending by half an hour after the last use and by eight
   * hours after the beginning of every stored session, by five seconds after the last
   * write of whatever is queued, and by the end of every ticket, or within a second of
   * when it was set.
   */
  lemma AlarmIsInTime(ws: seq<World>, steps: seq<Step>, times: seq<int>, i: nat)
    requires Behavior(ws, steps, times) && i < |ws|
    ensures
      var st, armedAt := ws[i].st, ArmedAt(ws, steps, times, i);
      && (forall t, used :: t in st.rows && LastUsed(st, t, used) ==>
            ArmedBy(st, armedAt, used + 30 * 60 * 1000) && ArmedBy(st, armedAt, st.rows[t].startedAt + 8 * 60 * 60 * 1000))
      && (forall id :: id in st.pending ==> ArmedBy(st, armedAt, (if id in st.touched then st.touched[id] else 0) + 5000))
      && (forall token :: token in st.tickets ==> ArmedBy(st, armedAt, st.tickets[token].expiresAt))
  {
    var st, armedAt := ws[i].st, ArmedAt(ws, steps, times, i);
    DeadlinesAreCovered(ws, steps, times, i);
    AlwaysTimed(ws, steps, times, i);
    BehaviorKeeps(ws, steps, times, i);
    forall t, used | t in st.rows && LastUsed(st, t, used)
      ensures ArmedBy(st, armedAt, used + 30 * 60 * 1000) && ArmedBy(st, armedAt, st.rows[t].startedAt + 8 * 60 * 60 * 1000)
    {
      assert Due(st, st.rows[t].startedAt + LIFETIME);
      var known := LastActivity(st, st.rows[t]);
      SessionIsTarget(st, ws[i].hist.Keys, t);
      assert Due(st, known + IDLE);
      assert known <= used by {
        var live := LiveTarget(st, t);
        if live.Some? { assert Shows(st, live.value, t); }
      }
    }
    forall id | id in st.pending ensures Due(st, TouchedAt(st, id) + TOUCH) { }
    forall token | token in st.tickets ensures Due(st, st.tickets[token].expiresAt) { }
  }
}
