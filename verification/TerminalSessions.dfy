/**
 * The terminals as the relay changes them: attachments, the two in-memory maps
 * and the stored rows are fields, and every handler is one move of the model.
 */
module TerminalSessions {
  import opened Common
  import opened TerminalReplay
  import opened TerminalModel
  import opened TerminalSafety
  import opened TerminalTheorems

  class Sessions {
    var sockets: seq<SocketId>
    var viewers: map<SocketId, Viewer>
    var memory: map<SocketId, Memory>
    var pendingDetached: map<SessionId, Session>
    var lastDetachedTouch: map<SessionId, int>
    var rows: map<Target, Session>
    var tickets: map<Token, Ticket>
    var alarm: Option<int>
    /** The state together with what every session ever printed. */
    ghost var world: World

    function St(): State
      reads this
    {
      State(sockets, viewers, memory, pendingDetached, lastDetachedTouch, rows, tickets, alarm)
    }

    ghost predicate Valid()
      reads this
    {
      world.st == St() && Inv(world)
    }

    constructor ()
      ensures Valid() && world == Start
    {
      sockets, viewers, memory, pendingDetached := [], map[], map[], map[];
      lastDetachedTouch, rows, tickets, alarm := map[], map[], map[], None;
      world := Start;
    }

    // --------------------------------------------------------------- lookups

    /** `liveTerminalForSession`: the first attached, unsettled viewer of a session is the only one. */
    method LiveTerminalForSession(id: SessionId, ghost ids: set<SessionId>) returns (found: Option<SocketId>)
      requires Shape(St(), ids)
      ensures found == LiveSession(St(), id)
    {
      found := None;
      for i := 0 to |sockets|
        invariant found.Some? ==> Live(St(), found.value) && viewers[found.value].id == id
        invariant found.None? ==> forall k :: 0 <= k < i ==> !(Live(St(), sockets[k]) && viewers[sockets[k]].id == id)
      {
        var s := sockets[i];
        if found.None? && !viewers[s].settled && viewers[s].id == id { found := Some(s); }
      }
      OneForSession(St(), ids, id, found);
    }

    /** `liveTerminalForTarget`. */
    method LiveTerminalForTarget(target: Target, ghost ids: set<SessionId>) returns (found: Option<SocketId>)
      requires Shape(St(), ids)
      ensures found == LiveTarget(St(), target)
    {
      found := None;
      for i := 0 to |sockets|
        invariant found.Some? ==> LiveAt(St(), found.value, target)
        invariant found.None? ==> forall k :: 0 <= k < i ==> !LiveAt(St(), sockets[k], target)
      {
        var s := sockets[i];
        if found.None? && !viewers[s].settled && viewers[s].target == target { found := Some(s); }
      }
      var live := LiveTarget(St(), target);
      assert live.Some? ==> LiveAt(St(), live.value, target);
    }

    /** `storedTerminalById`. */
    method StoredTerminalById(id: SessionId) returns (found: Option<Target>)
      requires OneRowEach(St())
      ensures found.Some? <==> HasRow(St(), id)
      ensures found.Some? ==> found.value == Row(St(), id)
    {
      var todo := rows.Keys;
      found := None;
      while todo != {}
        invariant todo <= rows.Keys
        invariant found.Some? ==> found.value in rows && rows[found.value].id == id
        invariant found.None? ==> forall t :: t in rows.Keys - todo ==> rows[t].id != id
        decreases |todo|
      {
        var t :| t in todo;
        if rows[t].id == id { found := Some(t); }
        todo := todo - {t};
      }
      if found.Some? {
        assert HasRow(St(), id);
        assert rows[Row(St(), id)].id == rows[found.value].id;
      }
    }

    // -------------------------------------------------------------- schedule

    method ViewerDeadlines() returns (deadlines: seq<int>)
      ensures forall d :: d in deadlines <==> ViewerDue(St(), d)
    {
      deadlines := [];
      for i := 0 to |sockets|
        invariant forall d :: d in deadlines <==> ViewerDueAmong(St(), sockets[..i], d)
      {
        var s := sockets[i];
        assert sockets[..i + 1] == sockets[..i] + [s];
        ViewerDueOneMore(St(), sockets[..i], s);
        if s in viewers && !viewers[s].settled {
          deadlines := deadlines + [viewers[s].lastActivityAt + IDLE, viewers[s].startedAt + LIFETIME];
        }
      }
      assert sockets[..|sockets|] == sockets;
    }

    method RowDeadlines(ghost ids: set<SessionId>) returns (deadlines: seq<int>)
      requires Shape(St(), ids)
      ensures forall d :: d in deadlines <==> RowDue(St(), d)
    {
      var todo := rows.Keys;
      ghost var done: set<Target> := {};
      deadlines := [];
      while todo != {}
        invariant todo + done == rows.Keys
        invariant forall d :: d in deadlines <==> RowDueAmong(St(), done, d)
        decreases |todo|
      {
        var t :| t in todo;
        var more := DeadlinesOf(t, done, ids);
        deadlines := deadlines + more;
        todo := todo - {t};
        done := done + {t};
      }
      AllRowsDue(St(), done);
    }

    method DeadlinesOf(t: Target, ghost done: set<Target>, ghost ids: set<SessionId>) returns (deadlines: seq<int>)
      requires Shape(St(), ids) && t in rows
      ensures forall d :: RowDueAmong(St(), done + {t}, d) <==> RowDueAmong(St(), done, d) || d in deadlines
    {
      RowDueOneMore(St(), done, t);
      var last := LastTerminalActivity(rows[t], ids);
      deadlines := [last + IDLE, rows[t].startedAt + LIFETIME];
    }

    /** `lastTerminalActivity`. */
    method LastTerminalActivity(session: Session, ghost ids: set<SessionId>) returns (last: int)
      requires Shape(St(), ids)
      ensures last == LastActivity(St(), session)
    {
      var live := LiveTerminalForSession(session.id, ids);
      last := if live.Some? then Max(session.lastActivityAt, viewers[live.value].lastActivityAt) else session.lastActivityAt;
    }

    method QueueDeadlines() returns (deadlines: seq<int>)
      ensures forall d :: d in deadlines <==> QueueDue(St(), d)
    {
      var todo := pendingDetached.Keys;
      deadlines := [];
      while todo != {}
        invariant todo <= pendingDetached.Keys
        invariant forall d :: d in deadlines ==> QueueDue(St(), d)
        invariant forall id :: id in pendingDetached.Keys - todo ==> TouchedAt(St(), id) + TOUCH in deadlines
        decreases |todo|
      {
        var id :| id in todo;
        deadlines := deadlines + [TouchedAt(St(), id) + TOUCH];
        todo := todo - {id};
      }
    }

    method TicketDeadlines() returns (deadlines: seq<int>)
      ensures forall d :: d in deadlines <==> TicketDue(St(), d)
    {
      var todo := tickets.Keys;
      deadlines := [];
      while todo != {}
        invariant todo <= tickets.Keys
        invariant forall d :: d in deadlines ==> TicketDue(St(), d)
        invariant forall k :: k in tickets.Keys - todo ==> tickets[k].expiresAt in deadlines
        decreases |todo|
      {
        var k :| k in todo;
        deadlines := deadlines + [tickets[k].expiresAt];
        todo := todo - {k};
      }
    }

    /** `scheduleWorkspaceAlarm`. */
    method ScheduleWorkspaceAlarm(now: int, ghost ids: set<SessionId>)
      requires Shape(St(), ids)
      modifies `alarm
      ensures Scheduled(old(St()), alarm, now)
    {
      var viewing := ViewerDeadlines();
      var stored := RowDeadlines(ids);
      var queued := QueueDeadlines();
      var waiting := TicketDeadlines();
      var deadlines := viewing + stored + queued + waiting;
      ghost var st := St();
      assert forall d :: d in deadlines <==> Due(st, d) by {
        forall d ensures Due(st, d) <==> ViewerDue(st, d) || RowDue(st, d) || QueueDue(st, d) || TicketDue(st, d) { DueParts(st, d); }
      }
      if |deadlines| == 0 {
        alarm := None;
      } else {
        var least := deadlines[0];
        for i := 1 to |deadlines|
          invariant least in deadlines && forall k :: 0 <= k < i ==> least <= deadlines[k]
        {
          if deadlines[i] < least { least := deadlines[i]; }
        }
        alarm := Some(Max(now + 1_000, least));
        assert Due(st, least) && forall e :: Due(st, e) ==> least <= e;
      }
    }

    // ----------------------------------------------------------------- queue

    /** `flushDetachedSession`. */
    method FlushDetachedSession(id: SessionId, now: int)
      modifies `pendingDetached, `lastDetachedTouch, `rows
      ensures St() == Flush(old(St()), id, now)
    {
      if id in pendingDetached {
        var pending := pendingDetached[id];
        pendingDetached := pendingDetached - {id};
        lastDetachedTouch := lastDetachedTouch[id := now];
        rows := rows[pending.target := pending];
      }
    }

    /** `flushAllDetached`: flushing one by one writes every queued session to its own row. */
    method FlushAllDetached(now: int)
      requires QueueFits(St())
      modifies `pendingDetached, `lastDetachedTouch, `rows
      ensures St() == FlushAll(old(St()), now)
    {
      ghost var st := St();
      var todo := pendingDetached.Keys;
      StartFlushing(st, now);
      while todo != {}
        invariant todo <= st.pending.Keys
        invariant Flushing(st, St(), todo, now)
        decreases |todo|
      {
        var id :| id in todo;
        FlushNext(st, todo, id, now);
        todo := todo - {id};
      }
      FlushedAll(st, St(), now);
    }

    method FlushNext(ghost st: State, ghost todo: set<SessionId>, id: SessionId, now: int)
      requires QueueFits(st) && id in todo && todo <= st.pending.Keys && Flushing(st, St(), todo, now)
      modifies `pendingDetached, `lastDetachedTouch, `rows
      ensures Flushing(st, St(), todo - {id}, now)
    {
      ghost var done := st.pending.Keys - todo;
      FlushOneMore(st, done, id, now);
      FlushDetachedSession(id, now);
      assert done + {id} == st.pending.Keys - (todo - {id});
    }

    /** A session with one more chunk. */
    method Grow(stored: Session, chunk: string, now: int) returns (grown: Session)
      ensures grown == Grown(stored, chunk, now)
    {
      var buffer := new ReplayBuffer(stored.buffer);
      if chunk != "" { buffer.AppendReplay(chunk); }
      grown := stored.(lastActivityAt := now, buffer := buffer.View());
    }

    /** `touchDetachedSession`: the chunk is queued, or written through when the window has passed. */
    method TouchDetachedSession(id: SessionId, chunk: string, now: int)
      requires Valid() && LiveSession(St(), id).None?
      modifies this
      ensures Valid() && Moves(old(world), Emitted(id, chunk), now, world)
    {
      EffectKeeps(world, Emitted(id, chunk), now);
      assert HistAfter(world, Emitted(id, chunk)).Keys == world.hist.Keys;
      QueueOrWrite(id, chunk, now, world.hist.Keys);
      Record(now, Emitted(id, chunk));
    }

    method QueueOrWrite(id: SessionId, chunk: string, now: int, ghost ids: set<SessionId>)
      requires OneRowEach(St()) && LiveSession(St(), id).None? && Shape(Touch(St(), id, chunk, now), ids)
      modifies `pendingDetached, `lastDetachedTouch, `rows, `alarm
      ensures Next(old(St()), Emitted(id, chunk), now, St())
    {
      ghost var before := St();
      var row := StoredTerminalById(id);
      if id !in pendingDetached && row.None? {
        NothingStored(before, id, chunk, now);
        return;
      }
      var stored := if id in pendingDetached then pendingDetached[id] else rows[row.value];
      var queued := id in pendingDetached;
      var previous := TouchedAt(St(), id);
      QueueChunk(id, stored, chunk, now);
      if now - previous >= TOUCH {
        ScheduleWorkspaceAlarm(now, ids);
        WroteThrough(before, id, chunk, now, alarm);
      } else {
        if !queued {
          var due := previous + TOUCH;
          if alarm.None? || alarm.value > due { alarm := Some(due); }
        }
        OnlyQueued(before, id, chunk, now, alarm);
      }
    }

    method QueueChunk(id: SessionId, stored: Session, chunk: string, now: int)
      requires id in pendingDetached || HasRow(St(), id)
      requires stored == if id in pendingDetached then pendingDetached[id] else rows[Row(St(), id)]
      modifies `pendingDetached, `lastDetachedTouch, `rows
      ensures St() == Touch(old(St()), id, chunk, now)
    {
      var previous := TouchedAt(St(), id);
      var grown := Grow(stored, chunk, now);
      pendingDetached := pendingDetached[id := grown];
      if now - previous >= TOUCH { FlushDetachedSession(id, now); }
    }

    /** Everything is in place but the record of it: the move is what the fields now say. */
    ghost method Record(now: int, step: Step)
      requires Inv(world) && Allowed(world, step) && Next(world.st, step, now, St())
      modifies `world
      ensures Valid() && Moves(old(world), step, now, world)
    {
      var after := World(St(), HistAfter(world, step), SleptAfter(world, step));
      MoveKeeps(world, step, now, after);
      world := after;
    }

    /** What a viewer's buffer leaves in the row: the buffer itself when it continues the row, else its chunks one by one. */
    method PutAway(s: SocketId, row: Buffer) returns (kept: Buffer)
      ensures kept ==
        if s !in memory then row else if memory[s].seeded then memory[s].buffer else AppendAll(row, memory[s].buffer.replay)
    {
      kept := row;
      if s in memory && memory[s].seeded {
        kept := memory[s].buffer;
      } else if s in memory {
        var buffer := new ReplayBuffer(row);
        var chunks := memory[s].buffer.replay;
        assert chunks[0..] == chunks;
        for i := 0 to |chunks|
          invariant AppendAll(buffer.View(), chunks[i..]) == AppendAll(row, chunks)
          invariant unchanged(this)
        {
          assert chunks[i..][1..] == chunks[i + 1..];
          buffer.AppendReplay(chunks[i]);
        }
        kept := buffer.View();
      }
    }

    /** A handler that ends by scheduling the alarm: the fields have taken the step's effect. */
    method ScheduleAndRecord(ghost step: Step, now: int)
      requires Inv(world) && Allowed(world, step) && Schedules(world.st, step, now) && St() == Effect(world.st, step, now)
      modifies `alarm, `world
      ensures Valid() && Moves(old(world), step, now, world)
    {
      ghost var ids := HistAfter(world, step).Keys;
      EffectShape(world, step, now);
      ScheduleWorkspaceAlarm(now, ids);
      ScheduledMove(world.st, step, now, Effect(world.st, step, now), alarm);
      Record(now, step);
    }

    /** `persistDetachedTerminal`, before its schedule. */
    method PersistDetachedTerminal(s: SocketId, state: Viewer)
      requires OneRowEach(St())
      modifies `pendingDetached, `rows
      ensures St() == Persist(old(St()), s, state)
    {
      var found := StoredTerminalById(state.id);
      var stored := if found.Some? then rows[found.value]
                    else Session(state.id, state.target, state.startedAt, state.lastActivityAt, EMPTY);
      var kept := PutAway(s, stored.buffer);
      pendingDetached := pendingDetached - {state.id};
      stored := stored.(lastActivityAt := Max(stored.lastActivityAt, state.lastActivityAt), buffer := kept);
      rows := rows[stored.target := stored];
    }

    // -------------------------------------------------------------- handlers

    /** `detachViewer`. */
    method DetachViewer(target: Target)
      requires Valid()
      modifies `viewers, `pendingDetached, `rows
      ensures St() == Detached(old(St()), target)
    {
      ghost var before := St();
      var previous := LiveTerminalForTarget(target, world.hist.Keys);
      if previous.Some? {
        var state := viewers[previous.value];
        viewers := viewers[previous.value := state.(settled := true)];
        PersistDetachedTerminal(previous.value, state);
        assert St() == Persist(SettleViewer(before, previous.value), previous.value, state);
      }
    }

    method JoinTarget(s: SocketId, target: Target, requested: SessionId, now: int) returns (stored: bool, session: Session)
      modifies `sockets, `viewers, `memory, `pendingDetached, `lastDetachedTouch, `rows
      ensures St() == Joined(old(St()), s, target, requested, now)
      ensures stored ==> s in memory && session.buffer == memory[s].buffer
      ensures stored <==> target in old(rows)
    {
      stored := target in rows;
      if stored { FlushDetachedSession(rows[target].id, now); }
      session := if stored then rows[target].(lastActivityAt := now) else Session(requested, target, now, now, EMPTY);
      sockets := sockets + [s];
      viewers := viewers[s := Viewer(session.id, target, false, session.startedAt, now)];
      rows := rows[session.target := session];
      memory := memory[s := Memory(session.buffer, true)];
    }

    /** `acceptTerminalSocket`, for a request an executor can serve; session ids are fresh. */
    method AcceptTerminalSocket(s: SocketId, target: Target, requested: SessionId, now: int) returns (sent: seq<string>)
      requires Valid() && s !in viewers && requested !in world.hist
      modifies this
      ensures Valid() && Moves(old(world), Attaching(s, target, requested), now, world)
      ensures sent == if target in old(rows) then Replayed(old(St()), s, target, requested, now) else []
    {
      DetachedRows(world, target);
      DetachViewer(target);
      var stored, session := JoinTarget(s, target, requested, now);
      sent := if stored then session.buffer.replay else [];
      ScheduleAndRecord(Attaching(s, target, requested), now);
    }

    /** `forwardTerminalMessage` for output. */
    method ForwardOutput(id: SessionId, chunk: string, now: int)
      requires Valid()
      modifies this
      ensures Valid() && Moves(old(world), Emitted(id, chunk), now, world)
    {
      var caller := LiveTerminalForSession(id, world.hist.Keys);
      if caller.Some? {
        var s := caller.value;
        viewers := viewers[s := viewers[s].(lastActivityAt := now)];
        var held := if s in memory then memory[s] else Memory(EMPTY, false);
        var buffer := new ReplayBuffer(held.buffer);
        buffer.AppendReplay(chunk);
        memory := memory[s := held.(buffer := buffer.View())];
        Record(now, Emitted(id, chunk));
      } else {
        TouchDetachedSession(id, chunk, now);
      }
    }

    /** `forgetStoredTerminal`. */
    method ForgetStoredTerminal(id: SessionId)
      requires OneRowEach(St())
      modifies `pendingDetached, `lastDetachedTouch, `rows
      ensures St() == Forget(old(St()), id)
    {
      var session := StoredTerminalById(id);
      lastDetachedTouch := lastDetachedTouch - {id};
      pendingDetached := pendingDetached - {id};
      if session.Some? { rows := rows - {session.value}; }
    }

    /** `forwardTerminalMessage` for an exit or an error: the shell is gone. */
    method ForwardExit(id: SessionId, now: int)
      requires Valid()
      modifies this
      ensures Valid() && Moves(old(world), Exited(id), now, world)
    {
      var caller := LiveTerminalForSession(id, world.hist.Keys);
      if caller.Some? { viewers := viewers[caller.value := viewers[caller.value].(settled := true)]; }
      ForgetStoredTerminal(id);
      Record(now, Exited(id));
    }

    /** `webSocketClose` and `webSocketError` for a viewer. */
    method ViewerGone(s: SocketId, failed: bool, now: int)
      requires Valid() && AttachedViewer(St(), s)
      modifies this
      ensures Valid() && Moves(old(world), Leaving(s, failed), now, world)
    {
      var state := viewers[s];
      sockets := Without(sockets, s);
      if !state.settled { PersistDetachedTerminal(s, state); }
      if !state.settled || !failed { ScheduleAndRecord(Leaving(s, failed), now); } else { Record(now, Leaving(s, failed)); }
    }

    /** `issueTerminalTicket`. */
    method IssueTicket(token: Token, scope: string, now: int)
      requires Valid() && token !in tickets
      modifies this
      ensures Valid() && Moves(old(world), Issue(token, scope), now, world)
    {
      tickets := tickets[token := Ticket(scope, now + TICKET)];
      ScheduleAndRecord(Issue(token, scope), now);
    }

    /** `consumeTerminalTicket`: whatever the answer, the ticket is gone. */
    method ConsumeTicket(token: Token, scope: string, now: int) returns (granted: bool)
      requires Valid()
      modifies this
      ensures Valid() && Moves(old(world), Consume(token, scope), now, world)
      ensures granted == Granted(old(St()), token, scope, now) && token !in tickets
    {
      granted := token in tickets && tickets[token].scope == scope && tickets[token].expiresAt >= now;
      tickets := tickets - {token};
      ScheduleAndRecord(Consume(token, scope), now);
    }

    /** `closeTerminalTarget`: whether there was a shell to close. */
    method CloseTerminalTarget(target: Target, now: int) returns (closed: bool)
      requires Valid()
      modifies this
      ensures Valid() && Moves(old(world), CloseAt(target), now, world)
      ensures closed <==> target in old(rows)
      ensures target !in rows
    {
      closed := CloseShell(target);
      ScheduleAndRecord(CloseAt(target), now);
    }

    method CloseShell(target: Target) returns (closed: bool)
      requires Valid()
      modifies `viewers, `pendingDetached, `lastDetachedTouch, `rows
      ensures St() == CloseTarget(old(St()), target)
      ensures (closed <==> target in old(rows)) && target !in rows
    {
      ghost var before, ids := St(), world.hist.Keys;
      var live := LiveTerminalForTarget(target, ids);
      if live.Some? { assert LiveAt(before, live.value, target); }
      var state := if live.Some? then Some(viewers[live.value]) else None;
      if live.Some? { viewers := viewers[live.value := state.value.(settled := true)]; }
      var id := if target in rows then Some(rows[target].id) else match state case Some(v) => Some(v.id) case None => None;
      if id.Some? {
        OnlyRow(St(), target);
        ForgetStoredTerminal(id.value);
      }
      closed := id.Some?;
    }

    /** `handleTerminalCallerMessage` for a frame the executor can be sent; a close ends the shell. */
    method ViewerFrame(s: SocketId, closes: bool, now: int)
      requires Valid() && AttachedViewer(St(), s)
      modifies this
      ensures Valid() && Moves(old(world), if closes then Closing(s) else Typed(s), now, world)
    {
      var state := viewers[s];
      if !state.settled && closes {
        viewers := viewers[s := state.(settled := true)];
        ForgetStoredTerminal(state.id);
      } else if !state.settled {
        viewers := viewers[s := state.(lastActivityAt := now)];
      }
      Record(now, if closes then Closing(s) else Typed(s));
    }

    /** `expireWorkspaceSessions`: one by one, whatever has been idle or open too long is ended. */
    method ExpireWorkspaceSessions(now: int)
      requires Valid()
      modifies this
      ensures Valid() && Moves(old(world), Alarm, now, world)
    {
      ExpiryShapes(world, now);
      ExpireQueuedAndStored(now, world.hist.Keys);
      ScheduleAndRecord(Alarm, now);
    }

    method ExpireQueuedAndStored(now: int, ghost ids: set<SessionId>)
      requires QueueFits(St()) && Shape(FlushAll(St(), now), ids)
      modifies `viewers, `pendingDetached, `lastDetachedTouch, `rows, `tickets
      ensures St() == Expire(old(St()), now)
    {
      FlushAllDetached(now);
      ExpireStored(now, ids);
    }

    method ExpireStored(now: int, ghost ids: set<SessionId>)
      requires Shape(St(), ids)
      modifies `viewers, `pendingDetached, `lastDetachedTouch, `rows, `tickets
      ensures St() == DropExpired(old(St()), now)
    {
      ghost var flushed := St();
      tickets := map k | k in tickets && tickets[k].expiresAt >= now :: tickets[k];
      StartDropping(flushed, now);
      DropOverdue(flushed, now, ids);
    }

    method DropOverdue(ghost flushed: State, now: int, ghost ids: set<SessionId>)
      requires Shape(flushed, ids) && Dropping(flushed, St(), flushed.rows.Keys, {}, now) && rows.Keys == flushed.rows.Keys
      modifies `viewers, `pendingDetached, `lastDetachedTouch, `rows
      ensures St() == DropExpired(flushed, now)
    {
      var todo := rows.Keys;
      ghost var gone: set<SessionId> := {};
      while todo != {}
        invariant todo <= flushed.rows.Keys && Dropping(flushed, St(), todo, gone, now)
        decreases |todo|
      {
        var t :| t in todo;
        gone := ExpireOne(flushed, ids, todo, gone, t, now);
        todo := todo - {t};
      }
      DroppedAll(flushed, ids, St(), gone, now);
    }

    method ExpireOne(ghost flushed: State, ghost ids: set<SessionId>, ghost todo: set<Target>, ghost gone: set<SessionId>, t: Target, now: int)
      returns (ghost more: set<SessionId>)
      requires Shape(flushed, ids) && t in todo && todo <= flushed.rows.Keys && Dropping(flushed, St(), todo, gone, now)
      modifies `viewers, `pendingDetached, `lastDetachedTouch, `rows
      ensures Dropping(flushed, St(), todo - {t}, more, now)
    {
      DropShape(flushed, ids, gone, now);
      StillThere(flushed, ids, St(), todo, gone, t, now);
      var overdue, live := Overdue(flushed, ids, gone, t, now);
      more := gone;
      if overdue {
        DropOneMore(flushed, ids, gone, t, now);
        more := gone + {rows[t].id};
        EndSession(rows[t].id, live);
      }
    }

    /** Whether a stored session has been idle or open too long, and who watches it. */
    method Overdue(ghost flushed: State, ghost ids: set<SessionId>, ghost gone: set<SessionId>, t: Target, now: int)
      returns (overdue: bool, live: Option<SocketId>)
      requires Shape(flushed, ids) && t in flushed.rows && flushed.rows[t].id !in gone && St() == DropGone(flushed, gone, now) && Shape(St(), ids)
      requires t in rows && rows[t] == flushed.rows[t]
      ensures overdue <==> Expired(flushed, flushed.rows[t], now)
      ensures live == LiveSession(St(), rows[t].id)
    {
      var session := rows[t];
      live := LiveTerminalForSession(session.id, ids);
      var last := LastTerminalActivity(session, ids);
      DropKeepsActivity(flushed, ids, gone, t, now);
      overdue := now - last >= IDLE || now - session.startedAt >= LIFETIME;
    }

    method EndSession(id: SessionId, live: Option<SocketId>)
      requires OneRowEach(St()) && live == LiveSession(St(), id)
      modifies `viewers, `pendingDetached, `lastDetachedTouch, `rows
      ensures St() == Forget(if live.Some? then SettleViewer(old(St()), live.value) else old(St()), id)
    {
      if live.Some? { viewers := viewers[live.value := viewers[live.value].(settled := true)]; }
      ForgetStoredTerminal(id);
    }

    /** `resetExecutorTerminals` when another executor says hello. */
    method ResetExecutorTerminals(now: int)
      requires Valid()
      modifies this
      ensures Valid() && Moves(old(world), NewExecutor, now, world)
    {
      viewers := map s | s in viewers :: if s in sockets then viewers[s].(settled := true) else viewers[s];
      lastDetachedTouch, pendingDetached, rows := map[], map[], map[];
      ScheduleAndRecord(NewExecutor, now);
    }
  }

  /** No session is stored under two targets. */
  ghost predicate OneRowEach(st: State) {
    forall t, u :: t in st.rows && u in st.rows && st.rows[t].id == st.rows[u].id ==> t == u
  }

  // ------------------------------------------------------- the four deadlines

  ghost predicate ViewerDue(st: State, d: int) {
    exists s :: Live(st, s) && (d == st.viewers[s].lastActivityAt + IDLE || d == st.viewers[s].startedAt + LIFETIME)
  }

  ghost predicate ViewerDueAmong(st: State, some: seq<SocketId>, d: int) {
    exists s :: s in some && Live(st, s) && (d == st.viewers[s].lastActivityAt + IDLE || d == st.viewers[s].startedAt + LIFETIME)
  }

  lemma ViewerDueOneMore(st: State, some: seq<SocketId>, s: SocketId)
    requires s in st.sockets
    ensures forall d :: ViewerDueAmong(st, some + [s], d) <==>
      ViewerDueAmong(st, some, d) || (Live(st, s) && (d == st.viewers[s].lastActivityAt + IDLE || d == st.viewers[s].startedAt + LIFETIME))
  {
    assert s in some + [s];
    assert forall x :: x in some ==> x in some + [s];
  }

  ghost predicate RowDue(st: State, d: int) {
    exists t :: t in st.rows && (d == LastActivity(st, st.rows[t]) + IDLE || d == st.rows[t].startedAt + LIFETIME)
  }

  ghost predicate RowDueAmong(st: State, some: set<Target>, d: int) {
    exists t :: t in some && t in st.rows && (d == LastActivity(st, st.rows[t]) + IDLE || d == st.rows[t].startedAt + LIFETIME)
  }

  lemma AllRowsDue(st: State, done: set<Target>)
    requires done == st.rows.Keys
    ensures forall d :: RowDueAmong(st, done, d) <==> RowDue(st, d)
  {
  }

  lemma RowDueOneMore(st: State, some: set<Target>, t: Target)
    requires t in st.rows
    ensures forall d :: RowDueAmong(st, some + {t}, d) <==>
      RowDueAmong(st, some, d) || d == LastActivity(st, st.rows[t]) + IDLE || d == st.rows[t].startedAt + LIFETIME
  {
    assert t in some + {t};
    assert forall x :: x in some ==> x in some + {t};
  }

  ghost predicate QueueDue(st: State, d: int) {
    exists id :: id in st.pending && d == TouchedAt(st, id) + TOUCH
  }

  ghost predicate TicketDue(st: State, d: int) {
    exists k :: k in st.tickets && d == st.tickets[k].expiresAt
  }

  lemma DueParts(st: State, d: int)
    ensures Due(st, d) <==> ViewerDue(st, d) || RowDue(st, d) || QueueDue(st, d) || TicketDue(st, d)
  {
  }

  lemma OneForSession(st: State, ids: set<SessionId>, id: SessionId, found: Option<SocketId>)
    requires Shape(st, ids)
    requires found.Some? ==> Live(st, found.value) && st.viewers[found.value].id == id
    requires found.None? ==> forall k :: 0 <= k < |st.sockets| ==> !(Live(st, st.sockets[k]) && st.viewers[st.sockets[k]].id == id)
    ensures found == LiveSession(st, id)
  {
    var live := LiveSession(st, id);
    if live.Some? { assert LiveAt(st, live.value, st.viewers[live.value].target); }
    if found.Some? { assert LiveAt(st, found.value, st.viewers[found.value].target); }
  }

  // ------------------------------------------------------- flushing one by one

  function RowsSome(rows: map<Target, Session>, pending: map<SessionId, Session>, done: set<SessionId>): map<Target, Session> {
    map t | t in rows :: if rows[t].id in pending && rows[t].id in done then pending[rows[t].id] else rows[t]
  }

  /** Some of the queue written out. */
  function FlushSome(st: State, done: set<SessionId>, now: int): State {
    st.(pending := st.pending - done,
        touched := map id | id in st.touched.Keys + (st.pending.Keys * done) ::
          if id in st.pending && id in done then now else st.touched[id],
        rows := RowsSome(st.rows, st.pending, done))
  }

  /** What is queued belongs to a session that is stored, under one target. */
  ghost predicate QueueFits(st: State) {
    && OneRowEach(st)
    && forall id :: id in st.pending ==> st.pending[id].target in st.rows && st.rows[st.pending[id].target].id == id
  }

  lemma FlushOneMore(st: State, done: set<SessionId>, id: SessionId, now: int)
    requires QueueFits(st) && id in st.pending && id !in done
    ensures Flush(FlushSome(st, done, now), id, now) == FlushSome(st, done + {id}, now)
  {
    assert id in FlushSome(st, done, now).pending;
    var t := st.pending[id].target;
    assert forall u :: u in st.rows && u != t ==> st.rows[u].id != id;
    RowsOneMore(st.rows, st.pending, done, id);
    FlushOneTouch(st, done, id, now);
    assert (st.pending - done) - {id} == st.pending - (done + {id});
  }

  lemma RowsOneMore(rows: map<Target, Session>, pending: map<SessionId, Session>, done: set<SessionId>, id: SessionId)
    requires id in pending && pending[id].target in rows && rows[pending[id].target].id == id
    requires forall u :: u in rows && u != pending[id].target ==> rows[u].id != id
    ensures RowsSome(rows, pending, done)[pending[id].target := pending[id]] == RowsSome(rows, pending, done + {id})
  {
    var a, b := RowsSome(rows, pending, done)[pending[id].target := pending[id]], RowsSome(rows, pending, done + {id});
    assert a.Keys == b.Keys;
    forall t | t in a ensures a[t] == b[t] { }
  }

  lemma FlushOneTouch(st: State, done: set<SessionId>, id: SessionId, now: int)
    requires id in st.pending
    ensures FlushSome(st, done, now).touched[id := now] == FlushSome(st, done + {id}, now).touched
  {
  }

  /** On the way from `st`, with `todo` still queued. */
  ghost predicate Flushing(st: State, cur: State, todo: set<SessionId>, now: int) {
    cur == FlushSome(st, st.pending.Keys - todo, now)
  }

  lemma StartFlushing(st: State, now: int)
    ensures Flushing(st, st, st.pending.Keys, now)
  {
    assert st.pending.Keys - st.pending.Keys == {};
    assert st.pending - {} == st.pending;
    assert FlushSome(st, {}, now).touched == st.touched;
    assert FlushSome(st, {}, now).rows == st.rows;
  }

  lemma FlushedAll(st: State, cur: State, now: int)
    requires Flushing(st, cur, {}, now)
    ensures cur == FlushAll(st, now)
  {
    assert st.pending.Keys - {} == st.pending.Keys;
    assert st.pending - st.pending.Keys == map[];
    assert FlushSome(st, st.pending.Keys, now).touched == FlushAll(st, now).touched;
    assert FlushSome(st, st.pending.Keys, now).rows == FlushAll(st, now).rows;
  }

  lemma ExpiryShapes(w: World, now: int)
    requires Inv(w)
    ensures QueueFits(w.st) && Shape(FlushAll(w.st, now), w.hist.Keys)
  {
    FlushAllShape(w.st, w.hist.Keys, now);
  }

  lemma EffectShape(w: World, step: Step, now: int)
    requires Inv(w) && Allowed(w, step)
    ensures Shape(Effect(w.st, step, now), HistAfter(w, step).Keys)
  {
    EffectKeeps(w, step, now);
  }

  lemma ScheduledMove(st: State, step: Step, now: int, effect: State, alarm: Option<int>)
    requires effect == Effect(st, step, now) && Schedules(st, step, now) && Scheduled(effect, alarm, now)
    ensures Next(st, step, now, effect.(alarm := alarm))
  {
    var after := effect.(alarm := alarm);
    assert after.alarm == alarm;
  }

  // ------------------------------------------------------- expiring one by one

  /** What is left once some sessions and every stale ticket are gone. */
  ghost function DropGone(flushed: State, gone: set<SessionId>, now: int): State {
    flushed.(
      tickets := map k | k in flushed.tickets && flushed.tickets[k].expiresAt >= now :: flushed.tickets[k],
      viewers := map s | s in flushed.viewers ::
        if s in flushed.sockets && flushed.viewers[s].id in gone then flushed.viewers[s].(settled := true) else flushed.viewers[s],
      touched := flushed.touched - gone,
      pending := flushed.pending - gone,
      rows := map t | t in flushed.rows && flushed.rows[t].id !in gone :: flushed.rows[t])
  }

  /** On the way, with the rows of `todo` not looked at yet. */
  ghost predicate Dropping(flushed: State, cur: State, todo: set<Target>, gone: set<SessionId>, now: int) {
    && cur == DropGone(flushed, gone, now)
    && forall id :: id in gone <==> exists t :: t in flushed.rows && t !in todo && flushed.rows[t].id == id && Expired(flushed, flushed.rows[t], now)
  }

  lemma StartDropping(flushed: State, now: int)
    ensures Dropping(flushed, flushed.(tickets := map k | k in flushed.tickets && flushed.tickets[k].expiresAt >= now :: flushed.tickets[k]),
                     flushed.rows.Keys, {}, now)
  {
    assert flushed.touched - {} == flushed.touched && flushed.pending - {} == flushed.pending;
    assert DropGone(flushed, {}, now).rows == flushed.rows;
    assert DropGone(flushed, {}, now).viewers == flushed.viewers;
  }

  lemma DropShape(flushed: State, ids: set<SessionId>, gone: set<SessionId>, now: int)
    requires Shape(flushed, ids)
    ensures Shape(DropGone(flushed, gone, now), ids)
    ensures Ends(flushed, DropGone(flushed, gone, now), gone)
  {
    EndShape(flushed, ids, DropGone(flushed, gone, now), gone);
  }

  /** A row that was not looked at is still there: no other row holds its session. */
  lemma StillThere(flushed: State, ids: set<SessionId>, cur: State, todo: set<Target>, gone: set<SessionId>, t: Target, now: int)
    requires Shape(flushed, ids) && Dropping(flushed, cur, todo, gone, now) && t in todo && t in flushed.rows
    ensures t in cur.rows && cur.rows[t] == flushed.rows[t] && flushed.rows[t].id !in gone
  {
  }

  lemma DropKeepsActivity(flushed: State, ids: set<SessionId>, gone: set<SessionId>, t: Target, now: int)
    requires Shape(flushed, ids) && t in flushed.rows && flushed.rows[t].id !in gone
    ensures LastActivity(DropGone(flushed, gone, now), flushed.rows[t]) == LastActivity(flushed, flushed.rows[t])
  {
    var dropped := DropGone(flushed, gone, now);
    DropShape(flushed, ids, gone, now);
    SessionIsTarget(flushed, ids, t);
    SessionIsTarget(dropped, ids, t);
    forall s ensures LiveAt(flushed, s, t) <==> LiveAt(dropped, s, t) {
    }
    SameLive(flushed, dropped, t, ids);
  }

  /** Ending one session more is dropping it too. */
  lemma DropOneMore(flushed: State, ids: set<SessionId>, gone: set<SessionId>, t: Target, now: int)
    requires Shape(flushed, ids) && t in flushed.rows && flushed.rows[t].id !in gone
    ensures
      var cur, id := DropGone(flushed, gone, now), flushed.rows[t].id;
      var live := LiveSession(cur, id);
      Forget(if live.Some? then SettleViewer(cur, live.value) else cur, id) == DropGone(flushed, gone + {id}, now)
  {
    var cur, id := DropGone(flushed, gone, now), flushed.rows[t].id;
    var live := LiveSession(cur, id);
    var settled := if live.Some? then SettleViewer(cur, live.value) else cur;
    DropShape(flushed, ids, gone, now);
    ForgetIs(settled, t);
    DropOneViewer(flushed, ids, gone, t, now);
    DropRest(flushed, gone, t, settled, now);
  }

  lemma ForgetIs(st: State, t: Target)
    requires OneRowEach(st) && t in st.rows
    ensures
      var id := st.rows[t].id;
      Forget(st, id) == st.(touched := st.touched - {id}, pending := st.pending - {id}, rows := st.rows - {t})
  {
    OnlyRow(st, t);
  }

  lemma DropRest(flushed: State, gone: set<SessionId>, t: Target, settled: State, now: int)
    requires OneRowEach(flushed) && t in flushed.rows && flushed.rows[t].id !in gone
    requires settled == DropGone(flushed, gone, now).(viewers := DropGone(flushed, gone + {flushed.rows[t].id}, now).viewers)
    ensures
      var id := flushed.rows[t].id;
      settled.(touched := settled.touched - {id}, pending := settled.pending - {id}, rows := settled.rows - {t})
      == DropGone(flushed, gone + {id}, now)
  {
    var id := flushed.rows[t].id;
    DropOneRow(flushed.rows, gone, t);
    assert (flushed.touched - gone) - {id} == flushed.touched - (gone + {id});
    assert (flushed.pending - gone) - {id} == flushed.pending - (gone + {id});
  }

  lemma OnlyRow(st: State, t: Target)
    requires OneRowEach(st) && t in st.rows
    ensures HasRow(st, st.rows[t].id) && Row(st, st.rows[t].id) == t
  {
    assert HasRow(st, st.rows[t].id);
  }

  lemma DropOneRow(rows: map<Target, Session>, gone: set<SessionId>, t: Target)
    requires t in rows && rows[t].id !in gone
    requires forall u :: u in rows && rows[u].id == rows[t].id ==> u == t
    ensures (map u | u in rows && rows[u].id !in gone :: rows[u]) - {t} == map u | u in rows && rows[u].id !in gone + {rows[t].id} :: rows[u]
  {
  }

  lemma DropOneViewer(flushed: State, ids: set<SessionId>, gone: set<SessionId>, t: Target, now: int)
    requires Shape(flushed, ids) && t in flushed.rows && flushed.rows[t].id !in gone
    ensures
      var cur, id := DropGone(flushed, gone, now), flushed.rows[t].id;
      var live := LiveSession(cur, id);
      (if live.Some? then SettleViewer(cur, live.value) else cur).viewers == DropGone(flushed, gone + {id}, now).viewers
  {
    var cur, id := DropGone(flushed, gone, now), flushed.rows[t].id;
    var live := LiveSession(cur, id);
    DropShape(flushed, ids, gone, now);
    forall s | Live(cur, s) && cur.viewers[s].id == id ensures live == Some(s) {
      assert LiveAt(cur, s, cur.viewers[s].target) && LiveAt(cur, live.value, cur.viewers[live.value].target);
    }
    DropThatViewer(flushed, gone, id, live, now);
  }

  lemma DropThatViewer(flushed: State, gone: set<SessionId>, id: SessionId, live: Option<SocketId>, now: int)
    requires id !in gone
    requires live.Some? ==> Live(DropGone(flushed, gone, now), live.value) && flushed.viewers[live.value].id == id
    requires forall s :: Live(DropGone(flushed, gone, now), s) && flushed.viewers[s].id == id ==> live == Some(s)
    ensures
      var cur := DropGone(flushed, gone, now);
      (if live.Some? then SettleViewer(cur, live.value) else cur).viewers == DropGone(flushed, gone + {id}, now).viewers
  {
    var cur := DropGone(flushed, gone, now);
    var a := (if live.Some? then SettleViewer(cur, live.value) else cur).viewers;
    var b := DropGone(flushed, gone + {id}, now).viewers;
    assert a.Keys == b.Keys == flushed.viewers.Keys;
    forall s | s in flushed.viewers ensures a[s] == b[s] {
      if s in flushed.sockets && flushed.viewers[s].id == id && !flushed.viewers[s].settled { assert Live(cur, s); }
    }
  }

  lemma DroppedAll(flushed: State, ids: set<SessionId>, cur: State, gone: set<SessionId>, now: int)
    requires Shape(flushed, ids) && Dropping(flushed, cur, {}, gone, now)
    ensures cur == DropExpired(flushed, now)
  {
    assert gone == ExpiredIds(flushed, now);
    forall t | t in flushed.rows ensures flushed.rows[t].id in gone <==> Expired(flushed, flushed.rows[t], now) {
      GoneIs(flushed, ids, now, t);
    }
    assert cur.rows == DropExpired(flushed, now).rows;
  }

  /** Sending the last viewer away keeps which targets are stored. */
  lemma DetachedRows(w: World, target: Target)
    requires Inv(w)
    ensures target in Detached(w.st, target).rows <==> target in w.st.rows
  {
    var previous := LiveTarget(w.st, target);
    if previous.Some? {
      assert LiveAt(w.st, previous.value, target);
      PersistShape(w.st, w.hist.Keys, previous.value, target, SettleViewer(w.st, previous.value));
    }
  }

  // -------------------------------------------------- what queueing schedules

  lemma WroteThrough(st: State, id: SessionId, chunk: string, now: int, alarm: Option<int>)
    requires LiveSession(st, id).None? && (id in st.pending || HasRow(st, id)) && now - TouchedAt(st, id) >= TOUCH
    requires Scheduled(Touch(st, id, chunk, now), alarm, now)
    ensures Next(st, Emitted(id, chunk), now, Touch(st, id, chunk, now).(alarm := alarm))
  {
  }

  lemma OnlyQueued(st: State, id: SessionId, chunk: string, now: int, alarm: Option<int>)
    requires LiveSession(st, id).None? && (id in st.pending || HasRow(st, id)) && now - TouchedAt(st, id) < TOUCH
    requires
      var due := TouchedAt(st, id) + TOUCH;
      alarm == if id !in st.pending && (st.alarm.None? || st.alarm.value > due) then Some(due) else st.alarm
    ensures Next(st, Emitted(id, chunk), now, Touch(st, id, chunk, now).(alarm := alarm))
  {
  }

  lemma NothingStored(st: State, id: SessionId, chunk: string, now: int)
    requires LiveSession(st, id).None? && id !in st.pending && !HasRow(st, id)
    ensures Next(st, Emitted(id, chunk), now, st)
  {
  }
}
