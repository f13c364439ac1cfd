/**
 * What a terminal's viewers are replayed, over every interleaving of viewers
 * coming and going, output with and without a viewer, flushes, expiry, executors
 * replaced, and the object sleeping in between.
 */
module TerminalSafety {
  import opened Common
  import opened TerminalReplay
  import opened TerminalModel

  /** The state, the output each session emitted since it was opened, and the sessions that memory lost something of. */
  datatype World = World(st: State, hist: map<SessionId, seq<string>>, slept: set<SessionId>)

  const Start := World(Init, map[], {})

  /** A session is opened when a viewer attaches where none is stored. */
  ghost predicate Opens(w: World, step: Step) {
    step.Attaching? && step.s !in w.st.viewers
  }

  /** An empty chunk prints nothing; it is kept only while someone watches. */
  ghost function HistAfter(w: World, step: Step): map<SessionId, seq<string>> {
    if Opens(w, step) && step.requested !in w.hist then w.hist[step.requested := []]
    else if step.Emitted? && step.id in w.hist && (step.chunk != "" || LiveSession(w.st, step.id).Some?)
    then w.hist[step.id := w.hist[step.id] + [step.chunk]]
    else w.hist
  }

  /** A session that memory holds something of: the buffer of its viewer, or an entry of the queue. */
  ghost predicate InMemory(st: State, id: SessionId) {
    LiveSession(st, id).Some? || id in st.pending
  }

  ghost function SleptAfter(w: World, step: Step): set<SessionId> {
    if step.Hibernate? then w.slept + set id | id in w.hist && InMemory(w.st, id) else w.slept
  }

  /** Session ids are fresh: a viewer never asks for one that was used before. */
  ghost predicate Allowed(w: World, step: Step) {
    Opens(w, step) ==> step.requested !in w.hist
  }

  ghost predicate Moves(w: World, step: Step, now: int, after: World) {
    && Allowed(w, step)
    && Next(w.st, step, now, after.st)
    && after.hist == HistAfter(w, step)
    && after.slept == SleptAfter(w, step)
  }

  // --------------------------------------------------------------- invariant

  predicate LiveAt(st: State, s: SocketId, t: Target) {
    Live(st, s) && st.viewers[s].target == t
  }

  ghost predicate Watched(st: State, t: Target) {
    exists s :: LiveAt(st, s, t)
  }

  function MemoryOf(st: State, s: SocketId): Option<Memory> {
    if s in st.memory then Some(st.memory[s]) else None
  }

  function Queued(st: State, id: SessionId): Option<Session> {
    if id in st.pending then Some(st.pending[id]) else None
  }

  function TailBuffer(h: seq<string>): Buffer {
    Buffer(Tail(h), Sum(Tail(h)))
  }

  predicate Sound(b: Buffer) {
    Honest(b) && Bounded(b)
  }

  /** What the row and a viewer's buffer hold of the session's output `h`. */
  predicate WatchedBooks(row: Buffer, memory: Option<Memory>, h: seq<string>, slept: bool) {
    && Sound(row) && Subsequence(row.replay, h)
    && match memory
       case None => slept
       case Some(m) =>
         && Sound(m.buffer)
         && (m.seeded ==> Subsequence(m.buffer.replay, h))
         && (!m.seeded ==> slept && Subsequence(row.replay + m.buffer.replay, h))
         && (!slept ==> m.buffer == TailBuffer(h))
  }

  /** What the row and the queue hold of it while nobody watches. */
  predicate QueuedBooks(row: Buffer, queued: Option<Session>, h: seq<string>, slept: bool) {
    && Sound(row) && Subsequence(row.replay, h)
    && match queued
       case None => !slept ==> row == TailBuffer(h)
       case Some(q) =>
         && Sound(q.buffer) && Subsequence(q.buffer.replay, h)
         && (!slept ==> q.buffer == TailBuffer(h))
  }

  /** Sockets, rows and queue name the same sessions. */
  ghost predicate Shape(st: State, ids: set<SessionId>) {
    && (forall s :: s in st.sockets ==> s in st.viewers)
    && (forall s, t :: LiveAt(st, s, t) ==> t in st.rows && st.rows[t].id == st.viewers[s].id)
    && (forall s, u, t :: LiveAt(st, s, t) && LiveAt(st, u, t) ==> s == u)
    && (forall t :: t in st.rows ==> st.rows[t].target == t && st.rows[t].id in ids)
    && (forall t, u :: t in st.rows && u in st.rows && st.rows[t].id == st.rows[u].id ==> t == u)
    && (forall id :: id in st.pending ==>
          var t := st.pending[id].target;
          st.pending[id].id == id && t in st.rows && st.rows[t].id == id && !Watched(st, t))
  }

  /** Where the output of the session at one target is held. */
  datatype Seen = Seen(row: Buffer, watcher: Option<Option<Memory>>, queued: Option<Session>)

  ghost function See(st: State, t: Target): Seen
    requires t in st.rows
  {
    var live := LiveTarget(st, t);
    Seen(st.rows[t].buffer, if live.Some? then Some(MemoryOf(st, live.value)) else None, Queued(st, st.rows[t].id))
  }

  predicate Books(seen: Seen, h: seq<string>, slept: bool) {
    if seen.watcher.Some? then WatchedBooks(seen.row, seen.watcher.value, h, slept)
    else QueuedBooks(seen.row, seen.queued, h, slept)
  }

  ghost predicate BooksAt(w: World, t: Target) {
    t in w.st.rows && w.st.rows[t].id in w.hist && Books(See(w.st, t), w.hist[w.st.rows[t].id], w.st.rows[t].id in w.slept)
  }

  ghost predicate Replays(w: World) {
    forall t :: t in w.st.rows ==> BooksAt(w, t)
  }

  ghost predicate Inv(w: World) {
    Shape(w.st, w.hist.Keys) && Replays(w)
  }

  // ----------------------------------------------------- books, one at a time

  lemma AppendSubsequence(b: Buffer, h: seq<string>, chunk: string)
    requires Honest(b) && Subsequence(b.replay, h)
    ensures Subsequence(Append(b, chunk).replay, h + [chunk])
  {
    AppendStaysBounded(b, chunk);
    SubsequenceSnoc(b.replay, h, chunk);
    SubsequenceSuffix(b.replay + [chunk], Append(b, chunk).replay, h + [chunk]);
  }

  lemma AppendTail(b: Buffer, h: seq<string>, chunk: string)
    requires b == TailBuffer(h)
    ensures Append(b, chunk) == TailBuffer(h + [chunk])
  {
    AppendIsTail(b, h, chunk);
  }

  /** A viewer whose buffer continues the row's hears a chunk. */
  lemma HearSeeded(b: Buffer, h: seq<string>, slept: bool, chunk: string)
    requires Sound(b) && Subsequence(b.replay, h) && (!slept ==> b == TailBuffer(h))
    ensures Sound(Append(b, chunk)) && Subsequence(Append(b, chunk).replay, h + [chunk])
    ensures !slept ==> Append(b, chunk) == TailBuffer(h + [chunk])
  {
    AppendStaysBounded(b, chunk);
    AppendSubsequence(b, h, chunk);
    if !slept { AppendTail(b, h, chunk); }
  }

  /** A viewer whose buffer was lost hears a chunk: it comes after the row's. */
  lemma HearUnseeded(row: seq<string>, b: Buffer, h: seq<string>, chunk: string)
    requires Sound(b) && Subsequence(row + b.replay, h)
    ensures var grown := Append(b, chunk);
      Sound(grown) && Subsequence(row + grown.replay, h + [chunk])
  {
    AppendStaysBounded(b, chunk);
    SubsequenceSnoc(row + b.replay, h, chunk);
    assert row + b.replay + [chunk] == row + (b.replay + [chunk]);
    KeepHeadDropMiddle(row, b.replay + [chunk], Append(b, chunk).replay, h + [chunk]);
  }

  lemma HearBooks(row: Buffer, m: Option<Memory>, h: seq<string>, slept: bool, chunk: string)
    requires WatchedBooks(row, m, h, slept)
    ensures
      var held := if m.Some? then m.value else Memory(EMPTY, false);
      WatchedBooks(row, Some(held.(buffer := Append(held.buffer, chunk))), h + [chunk], slept)
  {
    SubsequenceSnoc(row.replay, h, chunk);
    if m.Some? && m.value.seeded {
      HearSeeded(m.value.buffer, h, slept, chunk);
    } else {
      var held := if m.Some? then m.value else Memory(EMPTY, false);
      assert row.replay + [] == row.replay;
      HearUnseeded(row.replay, held.buffer, h, chunk);
    }
  }

  /** Dropping a middle part of a subsequence leaves a subsequence. */
  lemma {:induction false} KeepHeadDropMiddle(head: seq<string>, tail: seq<string>, suffix: seq<string>, b: seq<string>)
    requires Subsequence(head + tail, b) && SuffixOf(suffix, tail)
    ensures Subsequence(head + suffix, b)
    decreases |b|
  {
    if head == [] {
      assert head + tail == tail && head + suffix == suffix;
      SubsequenceSuffix(tail, suffix, b);
    } else {
      assert (head + tail)[1..] == head[1..] + tail && (head + suffix)[1..] == head[1..] + suffix;
      if (head + tail)[0] == b[0] && Subsequence((head + tail)[1..], b[1..]) {
        KeepHeadDropMiddle(head[1..], tail, suffix, b[1..]);
      } else {
        KeepHeadDropMiddle(head, tail, suffix, b[1..]);
      }
    }
  }

  /** A viewer goes, and its buffer becomes the row. */
  lemma PersistBooks(row: Buffer, m: Option<Memory>, h: seq<string>, slept: bool)
    requires WatchedBooks(row, m, h, slept)
    ensures
      var kept := if m.None? then row else if m.value.seeded then m.value.buffer else AppendAll(row, m.value.buffer.replay);
      QueuedBooks(kept, None, h, slept)
  {
    if m.Some? && !m.value.seeded {
      AppendAllSuffix(row, m.value.buffer.replay);
      SubsequenceSuffix(row.replay + m.value.buffer.replay, AppendAll(row, m.value.buffer.replay).replay, h);
    }
  }

  /** A chunk nobody watches is queued on what was queued, or on the row. */
  lemma QueueBooks(row: Buffer, q: Option<Session>, session: Session, h: seq<string>, slept: bool, chunk: string, now: int)
    requires QueuedBooks(row, q, h, slept)
    requires session.buffer == if q.Some? then q.value.buffer else row
    ensures
      var h' := if chunk == "" then h else h + [chunk];
      var grown := Grown(session, chunk, now);
      && QueuedBooks(row, Some(grown), h', slept)
      && QueuedBooks(grown.buffer, None, h', slept)
  {
    if chunk != "" {
      SubsequenceSnoc(row.replay, h, chunk);
      HearSeeded(session.buffer, h, slept, chunk);
    }
  }

  // -------------------------------------------------- effects keep invariant

  /** The viewer found by session is the one live at its target. */
  lemma LiveIsThere(w: World, id: SessionId)
    requires Shape(w.st, w.hist.Keys) && HasRow(w.st, id)
    ensures
      var t := Row(w.st, id);
      var live := LiveSession(w.st, id);
      && (live.Some? ==> LiveAt(w.st, live.value, t))
      && (live.None? ==> !Watched(w.st, t))
  {
    var t := Row(w.st, id);
    var live := LiveSession(w.st, id);
    if live.Some? {
      assert LiveAt(w.st, live.value, w.st.viewers[live.value].target);
    }
  }

  lemma NoRowNobody(w: World, id: SessionId)
    requires Shape(w.st, w.hist.Keys) && !HasRow(w.st, id)
    ensures LiveSession(w.st, id).None? && id !in w.st.pending
  {
    var live := LiveSession(w.st, id);
    if live.Some? {
      assert LiveAt(w.st, live.value, w.st.viewers[live.value].target);
    }
  }

  /** Who is live where decides who is found there. */
  lemma SameLive(a: State, b: State, t: Target, ids: set<SessionId>)
    requires Shape(a, ids)
    requires forall s :: LiveAt(a, s, t) <==> LiveAt(b, s, t)
    ensures LiveTarget(a, t) == LiveTarget(b, t)
  {
    var la, lb := LiveTarget(a, t), LiveTarget(b, t);
    if la.Some? { assert LiveAt(a, la.value, t) && LiveAt(b, la.value, t); }
    if lb.Some? { assert LiveAt(b, lb.value, t) && LiveAt(a, lb.value, t); }
  }

  lemma FoundAt(st: State, s: SocketId, t: Target, ids: set<SessionId>)
    requires Shape(st, ids) && LiveAt(st, s, t)
    ensures LiveTarget(st, t) == Some(s)
  {
    var l := LiveTarget(st, t);
    assert l.Some? ==> LiveAt(st, l.value, t);
  }

  lemma NobodyAt(st: State, t: Target)
    ensures LiveTarget(st, t).None? <==> !Watched(st, t)
  {
    var l := LiveTarget(st, t);
    if l.Some? { assert LiveAt(st, l.value, t); }
  }

  /** The same people are live in the same places. */
  ghost predicate SameSeats(a: State, b: State) {
    forall s, t :: LiveAt(a, s, t) <==> LiveAt(b, s, t)
  }

  lemma SeatsWatch(a: State, b: State)
    requires SameSeats(a, b)
    ensures forall t :: Watched(a, t) <==> Watched(b, t)
  {
    forall t ensures Watched(a, t) <==> Watched(b, t) {
      if Watched(a, t) { var s :| LiveAt(a, s, t); assert LiveAt(b, s, t); }
      if Watched(b, t) { var s :| LiveAt(b, s, t); assert LiveAt(a, s, t); }
    }
  }

  /** A shape survives when seats, row names and the queue's names do. */
  lemma SameShape(a: State, b: State, ids: set<SessionId>, more: set<SessionId>)
    requires Shape(a, ids) && SameSeats(a, b) && ids <= more
    requires forall s :: s in b.sockets ==> s in b.viewers
    requires b.rows.Keys == a.rows.Keys
    requires forall t :: t in a.rows ==> b.rows[t].id == a.rows[t].id && b.rows[t].target == t
    requires forall s :: s in a.sockets && s in a.viewers && !a.viewers[s].settled ==> s in b.viewers && b.viewers[s].id == a.viewers[s].id
    requires forall id :: id in b.pending ==>
      var t := b.pending[id].target;
      b.pending[id].id == id && t in a.rows && a.rows[t].id == id && !Watched(a, t)
    ensures Shape(b, more)
  {
    SeatsWatch(a, b);
  }

  // ------------------------------- every effect, seen from each target it leaves

  /** A change that is about one target: the others keep their sessions and all that is held of them. */
  ghost predicate OnlyAt(a: State, b: State, t: Target) {
    forall x :: x != t ==>
      && (x in a.rows <==> x in b.rows)
      && (x in a.rows ==> b.rows[x].id == a.rows[x].id && See(b, x) == See(a, x))
  }

  /** A change to one session's row and queue that moves nobody is about its target only. */
  lemma RowOnly(a: State, b: State, t: Target, ids: set<SessionId>)
    requires Shape(a, ids) && SameSeats(a, b) && t in a.rows && !Watched(a, t)
    requires b.sockets == a.sockets && b.viewers == a.viewers && b.memory == a.memory
    requires b.rows.Keys == a.rows.Keys && (forall x :: x in a.rows && x != t ==> b.rows[x] == a.rows[x])
    requires b.rows[t].id == a.rows[t].id && b.rows[t].target == t
    requires forall id :: id != a.rows[t].id ==> Queued(b, id) == Queued(a, id)
    requires a.rows[t].id in b.pending ==> b.pending[a.rows[t].id].id == a.rows[t].id && b.pending[a.rows[t].id].target == t
    ensures Shape(b, ids) && OnlyAt(a, b, t) && !Watched(b, t)
    ensures See(a, t) == Seen(a.rows[t].buffer, None, Queued(a, a.rows[t].id))
    ensures See(b, t) == Seen(b.rows[t].buffer, None, Queued(b, a.rows[t].id))
  {
    SeatsWatch(a, b);
    forall id | id in b.pending
      ensures var u := b.pending[id].target; b.pending[id].id == id && u in a.rows && a.rows[u].id == id && !Watched(a, u)
    {
      if id != a.rows[t].id { assert Queued(b, id) == Queued(a, id); }
    }
    SameShape(a, b, ids, ids);
    NobodyAt(a, t);
    forall x ensures LiveTarget(b, x) == LiveTarget(a, x) {
      SameLive(a, b, x, ids);
    }
  }

  lemma BooksElsewhere(w: World, after: World, t: Target)
    requires Replays(w) && OnlyAt(w.st, after.st, t) && after.slept == w.slept
    requires forall id :: id in w.hist && !(t in w.st.rows && w.st.rows[t].id == id) ==> id in after.hist && after.hist[id] == w.hist[id]
    requires forall x :: x in w.st.rows && t in w.st.rows && x != t ==> w.st.rows[x].id != w.st.rows[t].id
    requires t in after.st.rows ==> BooksAt(after, t)
    ensures Replays(after)
  {
    forall x | x in after.st.rows ensures BooksAt(after, x) {
      if x != t { assert BooksAt(w, x); }
    }
  }

  lemma HearShape(st: State, ids: set<SessionId>, t: Target, s: SocketId, chunk: string, now: int)
    requires Shape(st, ids) && LiveAt(st, s, t) && LiveSession(st, st.rows[t].id) == Some(s)
    ensures
      var after := Output(st, st.rows[t].id, chunk, now);
      && Shape(after, ids) && OnlyAt(st, after, t)
      && after.rows == st.rows
      && See(st, t).watcher == Some(MemoryOf(st, s))
      && See(after, t) == See(st, t).(watcher := Some(Some(Record(st.memory, s, chunk)[s])))
  {
    var after := Output(st, st.rows[t].id, chunk, now);
    assert SameSeats(st, after);
    SameShape(st, after, ids, ids);
    FoundAt(st, s, t, ids);
    forall x ensures LiveTarget(after, x) == LiveTarget(st, x) && (x != t ==> LiveTarget(st, x) != Some(s)) {
      SameLive(st, after, x, ids);
      var l := LiveTarget(st, x);
      assert l.Some? ==> LiveAt(st, l.value, x);
    }
  }

  lemma OutputKeeps(w: World, id: SessionId, chunk: string, now: int)
    requires Inv(w)
    ensures Inv(World(Output(w.st, id, chunk, now), HistAfter(w, Emitted(id, chunk)), w.slept))
  {
    var after := World(Output(w.st, id, chunk, now), HistAfter(w, Emitted(id, chunk)), w.slept);
    if !HasRow(w.st, id) {
      NoRowNobody(w, id);
      assert after.st == w.st && after.hist.Keys == w.hist.Keys;
      forall t | t in w.st.rows ensures BooksAt(after, t) {
        assert w.st.rows[t].id != id;
        assert BooksAt(w, t);
      }
    } else {
      var t := Row(w.st, id);
      LiveIsThere(w, id);
      if LiveSession(w.st, id).Some? { HearKeeps(w, t, LiveSession(w.st, id).value, chunk, now); }
      else { TouchKeeps(w, t, chunk, now); }
    }
  }

  lemma HearKeeps(w: World, t: Target, s: SocketId, chunk: string, now: int)
    requires Inv(w) && LiveAt(w.st, s, t) && LiveSession(w.st, w.st.rows[t].id) == Some(s)
    ensures Inv(World(Output(w.st, w.st.rows[t].id, chunk, now), HistAfter(w, Emitted(w.st.rows[t].id, chunk)), w.slept))
  {
    var id := w.st.rows[t].id;
    var after := World(Output(w.st, id, chunk, now), HistAfter(w, Emitted(id, chunk)), w.slept);
    assert BooksAt(w, t);
    assert after.hist.Keys == w.hist.Keys;
    HearShape(w.st, w.hist.Keys, t, s, chunk, now);
    HearBooks(w.st.rows[t].buffer, MemoryOf(w.st, s), w.hist[id], id in w.slept, chunk);
    BooksElsewhere(w, after, t);
  }

  lemma TouchKeeps(w: World, t: Target, chunk: string, now: int)
    requires Inv(w) && t in w.st.rows && !Watched(w.st, t) && LiveSession(w.st, w.st.rows[t].id).None?
    requires HasRow(w.st, w.st.rows[t].id) && Row(w.st, w.st.rows[t].id) == t
    ensures Inv(World(Touch(w.st, w.st.rows[t].id, chunk, now), HistAfter(w, Emitted(w.st.rows[t].id, chunk)), w.slept))
  {
    var id := w.st.rows[t].id;
    var after := World(Touch(w.st, id, chunk, now), HistAfter(w, Emitted(id, chunk)), w.slept);
    assert BooksAt(w, t);
    assert after.hist.Keys == w.hist.Keys;
    TouchShape(w.st, w.hist.Keys, t, chunk, now);
    var held := if id in w.st.pending then w.st.pending[id] else w.st.rows[t];
    QueueBooks(w.st.rows[t].buffer, Queued(w.st, id), held, w.hist[id], id in w.slept, chunk, now);
    BooksElsewhere(w, after, t);
  }

  lemma TouchShape(st: State, ids: set<SessionId>, t: Target, chunk: string, now: int)
    requires Shape(st, ids) && t in st.rows && !Watched(st, t)
    requires HasRow(st, st.rows[t].id) && Row(st, st.rows[t].id) == t
    ensures
      var id := st.rows[t].id;
      var after := Touch(st, id, chunk, now);
      var held := if id in st.pending then st.pending[id] else st.rows[t];
      var grown := Grown(held, chunk, now);
      && Shape(after, ids) && OnlyAt(st, after, t)
      && t in after.rows && after.rows[t].id == id
      && See(st, t) == Seen(st.rows[t].buffer, None, Queued(st, id))
      && See(after, t) ==
        (if now - TouchedAt(st, id) >= TOUCH then Seen(grown.buffer, None, None) else Seen(st.rows[t].buffer, None, Some(grown)))
  {
    var id := st.rows[t].id;
    var after := Touch(st, id, chunk, now);
    TouchDoes(st, ids, t, chunk, now);
    assert SameSeats(st, after);
    RowOnly(st, after, t, ids);
  }

  lemma TouchDoes(st: State, ids: set<SessionId>, t: Target, chunk: string, now: int)
    requires Shape(st, ids) && t in st.rows
    requires HasRow(st, st.rows[t].id) && Row(st, st.rows[t].id) == t
    ensures
      var id := st.rows[t].id;
      var after := Touch(st, id, chunk, now);
      var held := if id in st.pending then st.pending[id] else st.rows[t];
      var grown := Grown(held, chunk, now);
      && grown.id == id && grown.target == t
      && after.sockets == st.sockets && after.viewers == st.viewers && after.memory == st.memory
      && (if now - TouchedAt(st, id) >= TOUCH
          then after.rows == st.rows[t := grown] && after.pending == st.pending - {id}
          else after.rows == st.rows && after.pending == st.pending[id := grown])
  {
    var id := st.rows[t].id;
    var held := if id in st.pending then st.pending[id] else st.rows[t];
    assert held.target == t && held.id == id;
    assert st.pending[id := Grown(held, chunk, now)] - {id} == st.pending - {id};
  }

  /** Settling viewers and dropping rows together, as every ending does. */
  ghost predicate Ends(st: State, after: State, gone: set<SessionId>) {
    && after.sockets == st.sockets && after.memory == st.memory && after.viewers.Keys == st.viewers.Keys
    && (forall s :: s in st.viewers ==> after.viewers[s] == st.viewers[s] || after.viewers[s] == st.viewers[s].(settled := true))
    && (forall s :: AttachedViewer(st, s) && !st.viewers[s].settled ==> (after.viewers[s].settled <==> st.viewers[s].id in gone))
    && after.rows == (map t | t in st.rows && st.rows[t].id !in gone :: st.rows[t])
    && after.pending == st.pending - gone
  }

  lemma EndShape(st: State, ids: set<SessionId>, after: State, gone: set<SessionId>)
    requires Shape(st, ids) && Ends(st, after, gone)
    ensures Shape(after, ids)
    ensures forall x :: x in after.rows ==> x in st.rows && after.rows[x].id == st.rows[x].id && See(after, x) == See(st, x)
  {
    EndStaysInShape(st, ids, after, gone);
    forall x | x in after.rows ensures x in st.rows && after.rows[x].id == st.rows[x].id && See(after, x) == See(st, x) {
      EndElsewhere(st, ids, after, gone, x);
    }
  }

  lemma EndStaysInShape(st: State, ids: set<SessionId>, after: State, gone: set<SessionId>)
    requires Shape(st, ids) && Ends(st, after, gone)
    ensures Shape(after, ids)
  {
    EndSeats(st, ids, after, gone);
    forall v | v in after.rows ensures Watched(after, v) <==> Watched(st, v) {
      EndElsewhere(st, ids, after, gone, v);
    }
  }

  lemma EndSeats(st: State, ids: set<SessionId>, after: State, gone: set<SessionId>)
    requires Shape(st, ids) && Ends(st, after, gone)
    ensures forall u, v :: LiveAt(after, u, v) <==> LiveAt(st, u, v) && st.viewers[u].id !in gone
  {
  }

  lemma EndElsewhere(st: State, ids: set<SessionId>, after: State, gone: set<SessionId>, v: Target)
    requires Shape(st, ids) && Ends(st, after, gone) && v in after.rows
    ensures LiveTarget(after, v) == LiveTarget(st, v) && (Watched(after, v) <==> Watched(st, v))
  {
    EndSeats(st, ids, after, gone);
    assert forall u :: LiveAt(after, u, v) <==> LiveAt(st, u, v);
    SameLive(st, after, v, ids);
    NobodyAt(st, v);
    NobodyAt(after, v);
  }

  lemma EndKeeps(w: World, after: State, gone: set<SessionId>)
    requires Inv(w) && Ends(w.st, after, gone)
    ensures Inv(w.(st := after))
  {
    EndShape(w.st, w.hist.Keys, after, gone);
    forall v | v in after.rows ensures BooksAt(w.(st := after), v) {
      assert BooksAt(w, v);
    }
  }

  lemma OneViewer(w: World, s: SocketId)
    requires Shape(w.st, w.hist.Keys) && AttachedViewer(w.st, s) && !w.st.viewers[s].settled
    ensures LiveSession(w.st, w.st.viewers[s].id) == Some(s)
    ensures LiveAt(w.st, s, w.st.viewers[s].target) && HasRow(w.st, w.st.viewers[s].id)
  {
    var v := w.st.viewers[s];
    assert LiveAt(w.st, s, v.target);
    assert HasRow(w.st, v.id);
    LiveIsThere(w, v.id);
  }

  lemma ForgetsRow(w: World, settled: State, id: SessionId)
    requires Shape(w.st, w.hist.Keys) && settled.rows == w.st.rows && settled.pending == w.st.pending
    ensures Forget(settled, id).rows == map t | t in w.st.rows && w.st.rows[t].id !in {id} :: w.st.rows[t]
    ensures Forget(settled, id).pending == w.st.pending - {id}
  {
    if HasRow(w.st, id) {
      var t := Row(w.st, id);
      assert HasRow(settled, id);
      var u := Row(settled, id);
      assert w.st.rows[u].id == w.st.rows[t].id;
    } else {
      assert !HasRow(settled, id);
    }
  }

  lemma ForgetKeeps(w: World, id: SessionId)
    requires Inv(w)
    ensures
      var live := LiveSession(w.st, id);
      Inv(w.(st := Forget(if live.Some? then SettleViewer(w.st, live.value) else w.st, id)))
  {
    var live := LiveSession(w.st, id);
    var settled := if live.Some? then SettleViewer(w.st, live.value) else w.st;
    ForgetEnds(w, id);
    EndKeeps(w, Forget(settled, id), {id});
  }

  lemma ForgetEnds(w: World, id: SessionId)
    requires Shape(w.st, w.hist.Keys)
    ensures
      var live := LiveSession(w.st, id);
      Ends(w.st, Forget(if live.Some? then SettleViewer(w.st, live.value) else w.st, id), {id})
  {
    var live := LiveSession(w.st, id);
    var settled := if live.Some? then SettleViewer(w.st, live.value) else w.st;
    var after := Forget(settled, id);
    ForgetsRow(w, settled, id);
    forall s | AttachedViewer(w.st, s) && !w.st.viewers[s].settled
      ensures after.viewers[s].settled <==> w.st.viewers[s].id in {id}
    {
      OneViewer(w, s);
    }
  }

  lemma FailAllKeeps(w: World)
    requires Inv(w)
    ensures Inv(w.(st := ForgetAll(FailViewers(w.st))))
  {
    var after := ForgetAll(FailViewers(w.st));
    assert forall u, v :: !LiveAt(after, u, v);
  }

  /** Losing what memory held leaves the row, which is still in order. */
  lemma SleepBooks(seen: Seen, h: seq<string>, slept: bool)
    requires Books(seen, h, slept)
    ensures Books(Seen(seen.row, if seen.watcher.Some? then Some(None) else None, None), h, true)
  {
  }

  lemma BooksWeaken(seen: Seen, h: seq<string>, slept: bool)
    requires Books(seen, h, slept)
    ensures Books(seen, h, true)
  {
  }

  predicate SameOutput(a: Session, b: Session) {
    a.id == b.id && a.target == b.target && a.buffer == b.buffer
  }

  /** A loss: the buffers beside the sockets, some of the queue, or both; whoever held more than its row is known to have lost. */
  ghost predicate Loses(w: World, after: World) {
    && after.hist == w.hist && w.slept <= after.slept
    && after.st == w.st.(memory := after.st.memory, pending := after.st.pending, touched := after.st.touched)
    && (after.st.memory == w.st.memory || after.st.memory == map[])
    && (forall id :: id in after.st.pending ==> id in w.st.pending && SameOutput(after.st.pending[id], w.st.pending[id]))
    && (after.st.memory != w.st.memory ==> forall s :: Live(w.st, s) ==> w.st.viewers[s].id in after.slept)
    && (forall id :: id in w.st.pending && id !in after.st.pending ==> id in after.slept)
  }

  lemma LossShape(w: World, after: World)
    requires Inv(w) && Loses(w, after)
    ensures Shape(after.st, w.hist.Keys)
    ensures forall t :: t in w.st.rows ==> LiveTarget(after.st, t) == LiveTarget(w.st, t)
  {
    assert SameSeats(w.st, after.st);
    SameShape(w.st, after.st, w.hist.Keys, w.hist.Keys);
    forall t | t in w.st.rows ensures LiveTarget(after.st, t) == LiveTarget(w.st, t) {
      SameLive(w.st, after.st, t, w.hist.Keys);
    }
  }

  lemma LossKeeps(w: World, after: World)
    requires Inv(w) && Loses(w, after)
    ensures Inv(after)
  {
    LossShape(w, after);
    forall t | t in w.st.rows ensures BooksAt(after, t) {
      LossBooks(w, after, t);
    }
  }

  lemma LossBooks(w: World, after: World, t: Target)
    requires Inv(w) && Loses(w, after) && t in w.st.rows && LiveTarget(after.st, t) == LiveTarget(w.st, t)
    ensures BooksAt(after, t)
  {
    assert BooksAt(w, t);
    var id := w.st.rows[t].id;
    var seen, now := See(w.st, t), See(after.st, t);
    SleepBooks(seen, w.hist[id], id in w.slept);
    if id in after.slept { BooksWeaken(seen, w.hist[id], id in w.slept); }
    var live := LiveTarget(w.st, t);
    if live.Some? {
      assert LiveAt(w.st, live.value, t);
      NotQueued(w, t);
    }
  }

  lemma NotQueued(w: World, t: Target)
    requires Inv(w) && t in w.st.rows && Watched(w.st, t)
    ensures w.st.rows[t].id !in w.st.pending
  {
    assert forall id :: id in w.st.pending && w.st.pending[id].target == t ==> !Watched(w.st, t);
  }

  lemma HibernateKeeps(w: World)
    requires Inv(w)
    ensures Inv(World(Forgetful(w.st), w.hist, SleptAfter(w, Hibernate)))
  {
    forall s | Live(w.st, s) ensures w.st.viewers[s].id in SleptAfter(w, Hibernate) {
      assert LiveAt(w.st, s, w.st.viewers[s].target);
    }
    LossKeeps(w, World(Forgetful(w.st), w.hist, SleptAfter(w, Hibernate)));
  }

  lemma FlushAllShape(st: State, ids: set<SessionId>, now: int)
    requires Shape(st, ids)
    ensures Shape(FlushAll(st, now), ids) && FlushAll(st, now).rows.Keys == st.rows.Keys
    ensures forall t :: t in st.rows ==>
      && FlushAll(st, now).rows[t].id == st.rows[t].id
      && See(FlushAll(st, now), t) ==
        (if st.rows[t].id in st.pending then Seen(st.pending[st.rows[t].id].buffer, None, None) else See(st, t))
  {
    var after := FlushAll(st, now);
    assert SameSeats(st, after);
    FlushedRows(st, ids, now);
    SameShape(st, after, ids, ids);
    forall t | t in st.rows
      ensures See(after, t) == if st.rows[t].id in st.pending then Seen(st.pending[st.rows[t].id].buffer, None, None) else See(st, t)
    {
      FlushedSeen(st, ids, now, t);
    }
  }

  lemma FlushedRows(st: State, ids: set<SessionId>, now: int)
    requires Shape(st, ids)
    ensures FlushAll(st, now).rows.Keys == st.rows.Keys
    ensures forall t :: t in st.rows ==> FlushAll(st, now).rows[t].id == st.rows[t].id && FlushAll(st, now).rows[t].target == t
  {
    forall t | t in st.rows ensures FlushAll(st, now).rows[t].id == st.rows[t].id && FlushAll(st, now).rows[t].target == t {
      if st.rows[t].id in st.pending { assert st.pending[st.rows[t].id].target == t; }
    }
  }

  lemma FlushedSeen(st: State, ids: set<SessionId>, now: int, t: Target)
    requires Shape(st, ids) && t in st.rows
    ensures t in FlushAll(st, now).rows
    ensures See(FlushAll(st, now), t) == if st.rows[t].id in st.pending then Seen(st.pending[st.rows[t].id].buffer, None, None) else See(st, t)
  {
    var after := FlushAll(st, now);
    FlushedRows(st, ids, now);
    SameLive(st, after, t, ids);
    if st.rows[t].id in st.pending {
      assert st.pending[st.rows[t].id].target == t;
      NobodyAt(st, t);
    }
  }

  lemma FlushBooks(seen: Seen, h: seq<string>, slept: bool)
    requires Books(seen, h, slept) && seen.watcher.None? && seen.queued.Some?
    ensures Books(Seen(seen.queued.value.buffer, None, None), h, slept)
  {
  }

  lemma FlushAllKeeps(w: World, now: int)
    requires Inv(w)
    ensures Inv(w.(st := FlushAll(w.st, now)))
  {
    FlushAllShape(w.st, w.hist.Keys, now);
    forall t | t in w.st.rows ensures BooksAt(w.(st := FlushAll(w.st, now)), t) {
      assert BooksAt(w, t);
      var id := w.st.rows[t].id;
      if id in w.st.pending {
        assert w.st.pending[id].target == t;
        NobodyAt(w.st, t);
        FlushBooks(See(w.st, t), w.hist[id], id in w.slept);
      }
    }
  }

  lemma ExpireEnds(flushed: State, ids: set<SessionId>, now: int)
    requires Shape(flushed, ids)
    ensures Ends(flushed, DropExpired(flushed, now), ExpiredIds(flushed, now))
  {
    var gone := ExpiredIds(flushed, now);
    forall t | t in flushed.rows ensures flushed.rows[t].id in gone <==> Expired(flushed, flushed.rows[t], now) {
      GoneIs(flushed, ids, now, t);
    }
    assert DropExpired(flushed, now).rows == map t | t in flushed.rows && flushed.rows[t].id !in gone :: flushed.rows[t];
  }

  lemma GoneIs(flushed: State, ids: set<SessionId>, now: int, t: Target)
    requires Shape(flushed, ids) && t in flushed.rows
    ensures flushed.rows[t].id in ExpiredIds(flushed, now) <==> Expired(flushed, flushed.rows[t], now)
  {
    if flushed.rows[t].id in ExpiredIds(flushed, now) {
      var u :| u in flushed.rows && Expired(flushed, flushed.rows[u], now) && flushed.rows[u].id == flushed.rows[t].id;
      assert u == t;
    }
  }

  lemma ExpireKeeps(w: World, now: int)
    requires Inv(w)
    ensures Inv(w.(st := Expire(w.st, now)))
  {
    FlushAllKeeps(w, now);
    var flushed := FlushAll(w.st, now);
    ExpireEnds(flushed, w.hist.Keys, now);
    EndKeeps(w.(st := flushed), Expire(w.st, now), ExpiredIds(flushed, now));
  }

  /** A viewer leaves its target, which then has nobody. */
  lemma PersistShape(st: State, ids: set<SessionId>, s: SocketId, t: Target, left: State)
    requires Shape(st, ids) && LiveAt(st, s, t)
    requires left == SettleViewer(st, s) || left == st.(sockets := Without(st.sockets, s))
    ensures
      var after := Persist(left, s, st.viewers[s]);
      var row, m := st.rows[t].buffer, MemoryOf(st, s);
      && Shape(after, ids) && OnlyAt(st, after, t)
      && t in after.rows && after.rows[t].id == st.rows[t].id && !Watched(after, t)
      && st.rows[t].id !in after.pending
      && See(st, t).watcher == Some(m)
      && See(after, t) ==
        Seen(if m.None? then row else if m.value.seeded then m.value.buffer else AppendAll(row, m.value.buffer.replay), None, None)
  {
    var after := Persist(left, s, st.viewers[s]);
    PersistRow(st, ids, s, t, left);
    LeftSeat(st, s, left, after);
    StandUp(st, ids, s, t, after);
    PersistSeen(st, ids, s, t, after);
  }

  /** Settled or gone, the viewer is not live any more, and nobody else changed. */
  lemma LeftSeat(st: State, s: SocketId, left: State, after: State)
    requires s in st.viewers && (left == SettleViewer(st, s) || left == st.(sockets := Without(st.sockets, s)))
    requires after.sockets == left.sockets && after.viewers == left.viewers
    requires forall u :: u in st.sockets ==> u in st.viewers
    ensures forall u :: Live(after, u) <==> Live(st, u) && u != s
    ensures forall u :: Live(st, u) && u != s ==> u in after.viewers && after.viewers[u] == st.viewers[u]
    ensures forall u :: u in after.sockets ==> u in after.viewers
  {
  }

  lemma PersistSeen(st: State, ids: set<SessionId>, s: SocketId, t: Target, after: State)
    requires Shape(st, ids) && LiveAt(st, s, t) && after.rows.Keys == st.rows.Keys && after.memory == st.memory
    requires (forall x :: x in st.rows && x != t ==> after.rows[x] == st.rows[x]) && after.rows[t].id == st.rows[t].id
    requires after.pending == st.pending - {st.rows[t].id} && !Watched(after, t)
    requires forall x :: x != t ==> LiveTarget(after, x) == LiveTarget(st, x)
    ensures OnlyAt(st, after, t) && See(st, t).watcher == Some(MemoryOf(st, s)) && See(after, t) == Seen(after.rows[t].buffer, None, None)
  {
    FoundAt(st, s, t, ids);
    NobodyAt(after, t);
    assert forall id :: id != st.rows[t].id ==> Queued(after, id) == Queued(st, id);
  }

  /** One viewer gone from its seat, everyone else where they were. */
  lemma StandUp(st: State, ids: set<SessionId>, s: SocketId, t: Target, after: State)
    requires Shape(st, ids) && LiveAt(st, s, t)
    requires forall u :: Live(after, u) <==> Live(st, u) && u != s
    requires forall u :: Live(st, u) && u != s ==> u in after.viewers && after.viewers[u] == st.viewers[u]
    requires forall u :: u in after.sockets ==> u in after.viewers
    requires after.rows.Keys == st.rows.Keys
    requires forall x :: x in st.rows ==> after.rows[x].id == st.rows[x].id && after.rows[x].target == x
    requires after.pending == st.pending - {st.rows[t].id}
    ensures Shape(after, ids) && !Watched(after, t)
    ensures forall x :: x != t ==> LiveTarget(after, x) == LiveTarget(st, x)
  {
    assert forall u, x :: LiveAt(after, u, x) <==> LiveAt(st, u, x) && u != s;
    forall x | x != t ensures LiveTarget(after, x) == LiveTarget(st, x) && (Watched(after, x) <==> Watched(st, x)) {
      SameLive(st, after, x, ids);
      NobodyAt(st, x);
      NobodyAt(after, x);
    }
  }

  lemma PersistRow(st: State, ids: set<SessionId>, s: SocketId, t: Target, left: State)
    requires Shape(st, ids) && LiveAt(st, s, t) && left.rows == st.rows && left.memory == st.memory
    ensures
      var after := Persist(left, s, st.viewers[s]);
      var row, m := st.rows[t].buffer, MemoryOf(st, s);
      && after.rows.Keys == st.rows.Keys
      && (forall x :: x in st.rows && x != t ==> after.rows[x] == st.rows[x])
      && after.rows[t].id == st.rows[t].id && after.rows[t].target == t
      && after.rows[t].buffer ==
        (if m.None? then row else if m.value.seeded then m.value.buffer else AppendAll(row, m.value.buffer.replay))
      && after.pending == left.pending - {st.viewers[s].id}
      && after.sockets == left.sockets && after.viewers == left.viewers && after.memory == left.memory
  {
    var id := st.viewers[s].id;
    assert HasRow(left, id) by { assert left.rows[t].id == id; }
    var u := Row(left, id);
    assert st.rows[u].id == st.rows[t].id;
  }

  lemma PersistKeeps(w: World, s: SocketId, t: Target, left: State)
    requires Inv(w) && LiveAt(w.st, s, t)
    requires left == SettleViewer(w.st, s) || left == w.st.(sockets := Without(w.st.sockets, s))
    ensures Inv(w.(st := Persist(left, s, w.st.viewers[s])))
  {
    PersistShape(w.st, w.hist.Keys, s, t, left);
    assert BooksAt(w, t);
    PersistBooks(w.st.rows[t].buffer, MemoryOf(w.st, s), w.hist[w.st.rows[t].id], w.st.rows[t].id in w.slept);
    BooksElsewhere(w, w.(st := Persist(left, s, w.st.viewers[s])), t);
  }

  lemma FlushShape(st: State, ids: set<SessionId>, t: Target, now: int)
    requires Shape(st, ids) && t in st.rows && !Watched(st, t)
    ensures
      var id := st.rows[t].id;
      var after := Flush(st, id, now);
      && Shape(after, ids) && OnlyAt(st, after, t)
      && after.rows.Keys == st.rows.Keys && after.rows[t].id == id && id !in after.pending && !Watched(after, t)
      && See(st, t) == Seen(st.rows[t].buffer, None, Queued(st, id))
      && See(after, t) == Seen(if id in st.pending then st.pending[id].buffer else st.rows[t].buffer, None, None)
  {
    var id := st.rows[t].id;
    if id in st.pending { assert st.pending[id].target == t && st.pending[id].id == id; }
    assert SameSeats(st, Flush(st, id, now));
    RowOnly(st, Flush(st, id, now), t, ids);
  }

  lemma FlushKeeps(w: World, t: Target, now: int)
    requires Inv(w) && t in w.st.rows && !Watched(w.st, t)
    ensures Inv(w.(st := Flush(w.st, w.st.rows[t].id, now)))
  {
    FlushShape(w.st, w.hist.Keys, t, now);
    assert BooksAt(w, t);
    if w.st.rows[t].id in w.st.pending { FlushBooks(See(w.st, t), w.hist[w.st.rows[t].id], w.st.rows[t].id in w.slept); }
    BooksElsewhere(w, w.(st := Flush(w.st, w.st.rows[t].id, now)), t);
  }

  function Seat(st: State, s: SocketId, t: Target, row: Session): State {
    PutRow(st.(sockets := st.sockets + [s],
               viewers := st.viewers[s := Viewer(row.id, t, false, row.startedAt, row.lastActivityAt)],
               memory := st.memory[s := Memory(row.buffer, true)]), row)
  }

  /** A viewer takes a target nobody watches and nothing is queued for. */
  lemma SeatShape(st: State, ids: set<SessionId>, s: SocketId, t: Target, row: Session)
    requires Shape(st, ids) && s !in st.viewers && !Watched(st, t) && row.target == t && row.id !in st.pending
    requires if t in st.rows then row.id == st.rows[t].id else row.id !in ids
    ensures
      var after := Seat(st, s, t, row);
      && Shape(after, ids + {row.id}) && OnlyAt(st, after, t)
      && See(after, t) == Seen(row.buffer, Some(Some(Memory(row.buffer, true))), None)
  {
    var after := Seat(st, s, t, row);
    SeatStaysInShape(st, ids, s, t, row);
    forall x | x != t ensures LiveTarget(after, x) == LiveTarget(st, x) && LiveTarget(st, x) != Some(s) {
      SeatElsewhere(st, ids, s, t, row, x);
    }
    assert LiveAt(after, s, t);
    FoundAt(after, s, t, ids + {row.id});
  }

  lemma SeatStaysInShape(st: State, ids: set<SessionId>, s: SocketId, t: Target, row: Session)
    requires Shape(st, ids) && s !in st.viewers && !Watched(st, t) && row.target == t && row.id !in st.pending
    requires if t in st.rows then row.id == st.rows[t].id else row.id !in ids
    ensures Shape(Seat(st, s, t, row), ids + {row.id})
  {
    var after := Seat(st, s, t, row);
    assert forall u, x :: LiveAt(after, u, x) <==> LiveAt(st, u, x) || (u == s && x == t);
    forall x | x != t ensures Watched(after, x) <==> Watched(st, x) {
      SeatElsewhere(st, ids, s, t, row, x);
    }
    forall u | LiveAt(after, u, t) ensures u == s {
      assert u != s ==> LiveAt(st, u, t);
    }
  }

  lemma SeatElsewhere(st: State, ids: set<SessionId>, s: SocketId, t: Target, row: Session, x: Target)
    requires Shape(st, ids) && s !in st.viewers && x != t
    ensures
      var after := Seat(st, s, t, row);
      LiveTarget(after, x) == LiveTarget(st, x) && (Watched(after, x) <==> Watched(st, x)) && LiveTarget(st, x) != Some(s)
  {
    var after := Seat(st, s, t, row);
    assert forall u :: LiveAt(after, u, x) <==> LiveAt(st, u, x);
    SameLive(st, after, x, ids);
    NobodyAt(st, x);
    NobodyAt(after, x);
  }

  /** Whoever takes a seat is handed what the row holds. */
  lemma SeatBooks(row: Buffer, h: seq<string>, slept: bool)
    requires QueuedBooks(row, None, h, slept)
    ensures Books(Seen(row, Some(Some(Memory(row, true))), None), h, slept)
  {
  }

  lemma OpenBooks(slept: bool)
    ensures QueuedBooks(EMPTY, None, [], slept)
  {
    assert Tail([]) == [];
  }

  lemma SeatKeeps(w: World, s: SocketId, t: Target, row: Session, hist: map<SessionId, seq<string>>)
    requires Inv(w) && s !in w.st.viewers && !Watched(w.st, t) && row.target == t && row.id !in w.st.pending
    requires row.id in hist && w.hist.Keys <= hist.Keys && (forall id :: id in w.hist ==> hist[id] == w.hist[id])
    requires if t in w.st.rows
      then row.id == w.st.rows[t].id && row.buffer == w.st.rows[t].buffer
      else row.id !in w.hist && row.buffer == EMPTY && hist[row.id] == []
    ensures Inv(World(Seat(w.st, s, t, row), hist, w.slept))
  {
    var after := World(Seat(w.st, s, t, row), hist, w.slept);
    SeatShape(w.st, w.hist.Keys, s, t, row);
    assert Shape(after.st, hist.Keys);
    if t in w.st.rows {
      assert BooksAt(w, t);
      NobodyAt(w.st, t);
      assert See(w.st, t) == Seen(row.buffer, None, None);
    } else {
      OpenBooks(row.id in w.slept);
    }
    SeatBooks(row.buffer, hist[row.id], row.id in w.slept);
    assert BooksAt(after, t);
    forall x | x in after.st.rows ensures BooksAt(after, x) {
      if x != t { assert BooksAt(w, x); }
    }
  }

  lemma AttachKeeps(w: World, s: SocketId, t: Target, requested: SessionId, now: int)
    requires Inv(w) && s !in w.st.viewers && requested !in w.hist
    ensures Inv(World(Attach(w.st, s, t, requested, now), w.hist[requested := []], w.slept))
  {
    var previous := LiveTarget(w.st, t);
    var w1 := w;
    NobodyAt(w.st, t);
    if previous.Some? {
      assert LiveAt(w.st, previous.value, t);
      PersistShape(w.st, w.hist.Keys, previous.value, t, SettleViewer(w.st, previous.value));
      PersistKeeps(w, previous.value, t, SettleViewer(w.st, previous.value));
      w1 := w.(st := Persist(SettleViewer(w.st, previous.value), previous.value, w.st.viewers[previous.value]));
    }
    SettleInto(w1, s, t, requested, now, w.hist[requested := []]);
  }

  /** The rest of an attach, once nobody watches. */
  lemma SettleInto(w: World, s: SocketId, t: Target, requested: SessionId, now: int, hist: map<SessionId, seq<string>>)
    requires Inv(w) && s !in w.st.viewers && requested !in w.hist && !Watched(w.st, t) && hist == w.hist[requested := []]
    ensures
      var flushed := if t in w.st.rows then Flush(w.st, w.st.rows[t].id, now) else w.st;
      var row := if t in flushed.rows then flushed.rows[t].(lastActivityAt := now) else Session(requested, t, now, now, EMPTY);
      Inv(World(Seat(flushed, s, t, row), hist, w.slept))
  {
    var w2 := w;
    if t in w.st.rows {
      FlushShape(w.st, w.hist.Keys, t, now);
      FlushKeeps(w, t, now);
      w2 := w.(st := Flush(w.st, w.st.rows[t].id, now));
    }
    var row := if t in w2.st.rows then w2.st.rows[t].(lastActivityAt := now) else Session(requested, t, now, now, EMPTY);
    SeatKeeps(w2, s, t, row, hist);
  }

  lemma CloseTargetKeeps(w: World, t: Target)
    requires Inv(w)
    ensures Inv(w.(st := CloseTarget(w.st, t)))
  {
    var live := LiveTarget(w.st, t);
    if live.Some? {
      assert LiveAt(w.st, live.value, t);
      OneViewer(w, live.value);
    }
    if t in w.st.rows {
      var id := w.st.rows[t].id;
      assert HasRow(w.st, id);
      LiveIsThere(w, id);
      NobodyAt(w.st, t);
      assert live == LiveSession(w.st, id);
      ForgetKeeps(w, id);
    }
  }

  /** A change that moves nobody and touches no row, buffer or queue. */
  lemma SeatedKeeps(w: World, after: World)
    requires Inv(w) && SameSeats(w.st, after.st) && after.hist == w.hist && after.slept == w.slept
    requires after.st.rows == w.st.rows && after.st.pending == w.st.pending && after.st.memory == w.st.memory
    requires forall s :: s in after.st.sockets ==> s in after.st.viewers
    requires forall s :: AttachedViewer(w.st, s) && !w.st.viewers[s].settled ==>
      s in after.st.viewers && after.st.viewers[s].id == w.st.viewers[s].id
    ensures Inv(after)
  {
    SameShape(w.st, after.st, w.hist.Keys, w.hist.Keys);
    forall t | t in after.st.rows ensures BooksAt(after, t) {
      SameLive(w.st, after.st, t, w.hist.Keys);
      assert BooksAt(w, t);
      assert See(after.st, t) == See(w.st, t);
    }
  }

  lemma TypedKeeps(w: World, s: SocketId, now: int)
    requires Inv(w)
    ensures Inv(w.(st := Effect(w.st, Typed(s), now)))
  {
    if Live(w.st, s) {
      var after := w.(st := w.st.(viewers := w.st.viewers[s := w.st.viewers[s].(lastActivityAt := now)]));
      TypedSeats(w.st, s, now);
      SeatedKeeps(w, after);
    }
  }

  lemma TypedSeats(st: State, s: SocketId, now: int)
    requires Live(st, s)
    ensures SameSeats(st, st.(viewers := st.viewers[s := st.viewers[s].(lastActivityAt := now)]))
  {
  }

  lemma TicketsKeep(w: World, tickets: map<Token, Ticket>)
    requires Inv(w)
    ensures Inv(w.(st := w.st.(tickets := tickets)))
  {
    assert SameSeats(w.st, w.st.(tickets := tickets));
    SeatedKeeps(w, w.(st := w.st.(tickets := tickets)));
  }

  lemma AlarmKeeps(w: World, alarm: Option<int>)
    requires Inv(w)
    ensures Inv(w.(st := w.st.(alarm := alarm)))
  {
    assert SameSeats(w.st, w.st.(alarm := alarm));
    SeatedKeeps(w, w.(st := w.st.(alarm := alarm)));
  }

  lemma ClosingKeeps(w: World, s: SocketId)
    requires Inv(w) && AttachedViewer(w.st, s) && !w.st.viewers[s].settled
    ensures Inv(w.(st := Forget(SettleViewer(w.st, s), w.st.viewers[s].id)))
  {
    OneViewer(w, s);
    ForgetKeeps(w, w.st.viewers[s].id);
  }

  lemma GoneKeeps(w: World, s: SocketId)
    requires Inv(w) && AttachedViewer(w.st, s)
    ensures Inv(w.(st := Gone(w.st, s)))
  {
    var v := w.st.viewers[s];
    var left := w.st.(sockets := Without(w.st.sockets, s));
    if v.settled {
      assert SameSeats(w.st, left);
      SeatedKeeps(w, w.(st := left));
    } else {
      assert LiveAt(w.st, s, v.target);
      PersistKeeps(w, s, v.target, left);
    }
  }

  lemma EffectKeeps(w: World, step: Step, now: int)
    requires Inv(w) && Allowed(w, step)
    ensures Inv(World(Effect(w.st, step, now), HistAfter(w, step), SleptAfter(w, step)))
  {
    match step
    case Attaching(s, t, requested) => if s !in w.st.viewers { AttachKeeps(w, s, t, requested, now); }
    case Emitted(id, chunk) => OutputKeeps(w, id, chunk, now);
    case Exited(id) => ForgetKeeps(w, id);
    case Typed(s) => TypedKeeps(w, s, now);
    case Closing(s) => if AttachedViewer(w.st, s) && !w.st.viewers[s].settled { ClosingKeeps(w, s); }
    case Leaving(s, failed) => if AttachedViewer(w.st, s) { GoneKeeps(w, s); }
    case Issue(token, scope) => if token !in w.st.tickets { TicketsKeep(w, w.st.tickets[token := Ticket(scope, now + TICKET)]); }
    case Consume(token, scope) => TicketsKeep(w, w.st.tickets - {token});
    case Alarm => ExpireKeeps(w, now);
    case CloseAt(t) => CloseTargetKeeps(w, t);
    case NewExecutor => FailAllKeeps(w);
    case LostExecutor => FailAllKeeps(w);
    case Hibernate => HibernateKeeps(w);
  }
}
