/**
 * Four runs of relays that share a queue: a relay loses output to another, is shown
 * another's session in place of its own or where it had none, and is shown another's
 * output as its own session's.
 */
module TerminalIsolateRuns {
  import opened Common
  import opened TerminalReplay
  import opened TerminalModel
  import opened TerminalSafety
  import opened TerminalIsolate
  import opened TerminalIsolateTheorems

  const T0 := 10_000

  function Shell(id: SessionId, at: int, chunks: seq<string>, bytes: int): Session {
    Session(id, 0, T0, at, Buffer(chunks, bytes))
  }

  /** A relay whose one viewer is there, on a session just opened or joined. */
  function Seated(s: SocketId, row: Session, touched: map<SessionId, int>): State {
    State([s], map[s := Viewer(row.id, 0, false, T0, row.lastActivityAt)], map[s := Memory(row.buffer, true)], map[], touched, map[0 := row], map[], None)
  }

  /** A relay whose one viewer has come and gone. */
  function Left(s: SocketId, seen: Session, row: Session, touched: map<SessionId, int>): State {
    State([], map[s := Viewer(seen.id, 0, false, T0, seen.lastActivityAt)], map[s := Memory(seen.buffer, true)], map[], touched, map[0 := row], map[], None)
  }

  // -------------------------------------------------------- steps of one relay

  lemma NobodyLive(st: State, id: SessionId, t: Target)
    requires st.sockets == []
    ensures LiveSession(st, id).None? && LiveTarget(st, t).None? && !Watched(st, t)
  {
  }

  lemma OnlyRowIs(st: State, row: Session)
    requires st.rows == map[0 := row]
    ensures HasRow(st, row.id) && Row(st, row.id) == 0
  {
    assert 0 in st.rows && st.rows[0].id == row.id;
  }

  lemma GoneFrom(s: SocketId)
    ensures Without([s], s) == []
  {
    assert [s][1..] == [];
  }

  lemma Opens(s: SocketId, id: SessionId, touched: map<SessionId, int>)
    ensures Effect(Init.(touched := touched), Attaching(s, 0, id), T0) == Seated(s, Shell(id, T0, [], 0), touched)
  {
    NobodyLive(Init.(touched := touched), id, 0);
  }

  lemma Joins(s: SocketId, requested: SessionId, row: Session, touched: map<SessionId, int>, now: int)
    requires row.target == 0 && row.startedAt == T0
    ensures
      Effect(Init.(touched := touched, rows := map[0 := row]), Attaching(s, 0, requested), now)
      == Seated(s, row.(lastActivityAt := now), touched)
  {
    var st := Init.(touched := touched, rows := map[0 := row]);
    NobodyLive(st, row.id, 0);
    assert Detached(st, 0) == st;
  }

  lemma Leaves(s: SocketId, row: Session, touched: map<SessionId, int>, now: int)
    requires row.target == 0 && row.startedAt == T0
    ensures Effect(Seated(s, row, touched), Leaving(s, false), now) == Left(s, row, row, touched)
  {
    var left := Seated(s, row, touched).(sockets := []);
    GoneFrom(s);
    OnlyRowIs(left, row);
    assert left.pending - {row.id} == map[];
  }

  /** Output for nobody, soon after the last: it is queued. */
  lemma Queues(st: State, held: Session, chunk: string, now: int)
    requires st.sockets == [] && held.buffer.bytes + |chunk| <= MAX_REPLAY && chunk != "" && now - TouchedAt(st, held.id) < TOUCH
    requires if held.id in st.pending then held == st.pending[held.id] else st.rows == map[0 := held]
    ensures
      Effect(st, Emitted(held.id, chunk), now) ==
      st.(pending := st.pending[held.id := held.(lastActivityAt := now, buffer := Buffer(held.buffer.replay + [chunk], held.buffer.bytes + |chunk|))])
  {
    NobodyLive(st, held.id, 0);
    if held.id !in st.pending { OnlyRowIs(st, held); }
  }

  /** The first output of a session for nobody: it is written. */
  lemma Writes(s: SocketId, id: SessionId, touched: map<SessionId, int>, chunk: string)
    requires id !in touched && 0 < |chunk| <= 10
    ensures
      var row := Shell(id, T0, [], 0);
      Effect(Left(s, row, row, touched), Emitted(id, chunk), T0) == Left(s, row, Shell(id, T0, [chunk], |chunk|), touched[id := T0])
  {
    var row := Shell(id, T0, [], 0);
    var st := Left(s, row, row, touched);
    NobodyLive(st, id, 0);
    OnlyRowIs(st, row);
    assert [] + [chunk] == [chunk];
    assert Grown(row, chunk, T0) == Shell(id, T0, [chunk], |chunk|);
    assert st.pending[id := Grown(row, chunk, T0)] - {id} == map[];
  }

  lemma NothingExpires(st: State, row: Session, now: int)
    requires st.sockets == [] && st.rows == map[0 := row] && st.tickets == map[]
    requires now - row.lastActivityAt < IDLE && now - row.startedAt < LIFETIME
    ensures DropExpired(st, now) == st
  {
    NobodyLive(st, row.id, 0);
    assert !Expired(st, row, now);
    assert ExpiredIds(st, now) == {};
    assert DropExpired(st, now).rows == st.rows;
    assert DropExpired(st, now).tickets == st.tickets;
    assert DropExpired(st, now).viewers == st.viewers;
  }

  /** An alarm stores the one entry of the queue, whoever it is of. */
  lemma AlarmStores(st: State, entry: Session, now: int)
    requires st.sockets == [] && st.rows.Keys <= {0} && st.tickets == map[] && entry.target == 0 && st.pending == map[entry.id := entry]
    requires now - entry.lastActivityAt < IDLE && now - entry.startedAt < LIFETIME
    ensures Written(st, Alarm, [entry.id], now) == st.(pending := map[], touched := st.touched[entry.id := now], rows := map[0 := entry])
    ensures Act(st, Alarm, [entry.id], now) == Written(st, Alarm, [entry.id], now)
  {
    var flushed := Flush(st, entry.id, now);
    assert [entry.id][1..] == [];
    assert FlushEach(st, [entry.id], now) == FlushEach(flushed, [entry.id][1..], now) == flushed;
    assert flushed.rows == map[0 := entry];
    assert flushed.pending == map[];
    NothingExpires(flushed, entry, now);
  }

  /** A newcomer is replayed the row, or the entry that is flushed to it. */
  lemma NewcomerSees(st: State, s: SocketId, requested: SessionId, row: Session, now: int)
    requires st.sockets == [] && st.rows == map[0 := row] && (row.id in st.pending ==> st.pending[row.id].target == 0)
    ensures Replayed(st, s, 0, requested, now) == Held(st, row.id, 0).replay
  {
    NobodyLive(st, row.id, 0);
    assert Detached(st, 0) == st;
  }

  // ------------------------------------------------------------ moves, from steps

  /** A step of this relay that writes over no session. */
  lemma GoesHere(w: Isolate, step: Step, now: int, here: State)
    requires !step.Alarm? && !step.Hibernate? && Effect(w.here, step, now) == here
    requires TerminalIsolate.Joins(w.here, step) ==> step.requested !in w.homes
    requires forall t :: t in w.here.rows && t in here.rows ==> here.rows[t].id == w.here.rows[t].id
    ensures
      TerminalIsolate.Moves(w, Here(step, []), now,
        w.(here := here, homes := HomesAfter(w.homes, w.here, step), hist := HistAfter(World(w.here, w.hist, w.lost), step)))
  {
    assert Spoils(w, Here(step, []), now) == {};
  }

  /** A step of the other relay that puts nothing into a session of this one, and takes nothing. */
  lemma GoesThere(w: Isolate, step: Step, now: int, there: State)
    requires !step.Alarm? && !step.Hibernate? && Effect(Other(w, 1), step, now) == there
    requires TerminalIsolate.Joins(Other(w, 1), step) ==> step.requested !in w.homes
    requires forall id :: id in w.hist ==> id !in w.here.pending && id !in there.pending
    ensures
      TerminalIsolate.Moves(w, There(1, step, []), now,
        w.(here := Sharing(w.here, there), others := w.others[1 := there], homes := HomesAfter(w.homes, Other(w, 1), step)))
  {
    assert Loss(w, There(1, step, []), now) == {};
    assert Spoils(w, There(1, step, []), now) == {};
  }

  // ---------------------------------------------- one session, opened and left

  const Opening: seq<Move> := [Here(Attaching(1, 0, 10), []), Here(Leaving(1, false), []), Here(Emitted(10, "x"), [])]

  const NEW := Shell(10, T0, [], 0)
  const STORED := Shell(10, T0, ["x"], 1)

  function Open(i: nat): Isolate {
    if i == 0 then Fresh
    else if i == 1 then Isolate(Seated(1, NEW, map[]), map[], map[10 := 0], map[10 := []], {}, {})
    else if i == 2 then Isolate(Left(1, NEW, NEW, map[]), map[], map[10 := 0], map[10 := []], {}, {})
    else Isolate(Left(1, NEW, STORED, map[10 := T0]), map[], map[10 := 0], map[10 := ["x"]], {}, {})
  }

  lemma OpensHere()
    ensures TerminalIsolate.Moves(Open(0), Here(Attaching(1, 0, 10), []), T0, Open(1))
  {
    Opens(1, 10, map[]);
    GoesHere(Fresh, Attaching(1, 0, 10), T0, Seated(1, NEW, map[]));
  }

  lemma LeavesHere()
    ensures TerminalIsolate.Moves(Open(1), Here(Leaving(1, false), []), T0, Open(2))
  {
    Leaves(1, NEW, map[], T0);
    GoesHere(Open(1), Leaving(1, false), T0, Left(1, NEW, NEW, map[]));
  }

  lemma WritesHere()
    ensures TerminalIsolate.Moves(Open(2), Here(Emitted(10, "x"), []), T0, Open(3))
  {
    Writes(1, 10, map[], "x");
    GoesHere(Open(2), Emitted(10, "x"), T0, Left(1, NEW, STORED, map[10 := T0]));
    assert [] + ["x"] == ["x"];
    assert map[10 := []][10 := ["x"]] == map[10 := ["x"]];
  }

  lemma OpeningGoes(i: nat)
    requires i < 3
    ensures TerminalIsolate.Moves(Open(i), Opening[i], T0, Open(i + 1))
  {
    if i == 0 { OpensHere(); } else if i == 1 { LeavesHere(); } else { WritesHere(); }
  }

  // ------------------------------------- the other relay's alarm takes an entry

  const Taking: seq<Move> := Opening + [Here(Emitted(10, "y"), []), There(1, Alarm, [10])]
  const TakingTimes: seq<int> := [T0, T0, T0, T0 + 1, T0 + 2]

  const QUEUED := Shell(10, T0 + 1, ["x", "y"], 2)

  function Taken(i: nat): Isolate {
    if i <= 3 then Open(i)
    else if i == 4 then
      Isolate(Left(1, NEW, STORED, map[10 := T0]).(pending := map[10 := QUEUED]), map[], map[10 := 0], map[10 := ["x", "y"]], {}, {})
    else
      Isolate(Left(1, NEW, STORED, map[10 := T0 + 2]), map[1 := Init.(touched := map[10 := T0 + 2], rows := map[0 := QUEUED])],
              map[10 := 0], map[10 := ["x", "y"]], {10}, {})
  }

  lemma QueuesHere()
    ensures TerminalIsolate.Moves(Taken(3), Here(Emitted(10, "y"), []), T0 + 1, Taken(4))
  {
    var w := Taken(3);
    Queues(w.here, STORED, "y", T0 + 1);
    assert ["x"] + ["y"] == ["x", "y"];
    GoesHere(w, Emitted(10, "y"), T0 + 1, Taken(4).here);
    assert map[10 := ["x"]][10 := ["x", "y"]] == map[10 := ["x", "y"]];
  }

  lemma StoredElsewhere()
    ensures Act(Other(Taken(4), 1), Alarm, [10], T0 + 2) == Taken(5).others[1]
    ensures Loss(Taken(4), There(1, Alarm, [10]), T0 + 2) == {10} && Spoils(Taken(4), There(1, Alarm, [10]), T0 + 2) == {}
  {
    AlarmStores(Other(Taken(4), 1), QUEUED, T0 + 2);
    assert map[10 := T0][10 := T0 + 2] == map[10 := T0 + 2];
  }

  lemma TakenThere()
    ensures TerminalIsolate.Moves(Taken(4), There(1, Alarm, [10]), T0 + 2, Taken(5))
  {
    StoredElsewhere();
    assert Listing(Taken(4).here, [10]);
  }

  lemma TakingGoes(i: nat)
    requires i < 5
    ensures TerminalIsolate.Moves(Taken(i), Taking[i], TakingTimes[i], Taken(i + 1))
  {
    if i < 3 { OpeningGoes(i); } else if i == 3 { QueuesHere(); } else { TakenThere(); }
  }

  lemma TakingIsARun() returns (ws: seq<Isolate>)
    ensures Run(ws, Taking, TakingTimes) && ws[4] == Taken(4) && ws[5] == Taken(5)
  {
    ws := seq(6, i requires 0 <= i < 6 => Taken(i));
    forall i | 0 <= i < 5 ensures TerminalIsolate.Moves(ws[i], Taking[i], TakingTimes[i], ws[i + 1]) { TakingGoes(i); }
  }

  /** A run in which another relay's alarm stores this relay's queued chunk as its own, and the next viewer here is not replayed it. */
  lemma OthersAlarmTakesOutput() returns (ws: seq<Isolate>)
    ensures Run(ws, Taking, TakingTimes) && ws[5].spoiled == {} && 10 in Loss(ws[4], Taking[4], TakingTimes[4])
    ensures ws[5].hist == map[10 := ["x", "y"]] && 1 in ws[5].others && ws[5].others[1].rows == map[0 := QUEUED]
    ensures Replayed(ws[5].here, 2, 0, 11, T0 + 3) == ["x"]
  {
    ws := TakingIsARun();
    StoredElsewhere();
    NewcomerSees(Taken(5).here, 2, 11, STORED, T0 + 3);
  }

  // --------------------------------------- the other relay's shell speaks as this one

  const Beside: seq<Move> := [
    There(1, Attaching(3, 0, 20), []), There(1, Leaving(3, false), []), There(1, Emitted(10, "b"), []), Here(Emitted(10, "z"), [])]
  const Speaking: seq<Move> := Taking + Beside
  const SpeakingTimes: seq<int> := TakingTimes + [T0 + 3, T0 + 3, T0 + 4, T0 + 5]

  const JOINED := Shell(10, T0 + 3, ["x", "y"], 2)
  const HEARD := Shell(10, T0 + 4, ["x", "y", "b"], 3)
  const MIXED := Shell(10, T0 + 5, ["x", "y", "b", "z"], 4)

  function Spoken(i: nat): Isolate {
    if i <= 5 then Taken(i)
    else
      var late := map[10 := T0 + 2];
      var base := Taken(5).(homes := map[10 := 0, 20 := 0]);
      if i == 6 then base.(others := map[1 := Seated(3, JOINED, late)])
      else if i == 7 then base.(others := map[1 := Left(3, JOINED, JOINED, late)])
      else
        var there := Left(3, JOINED, JOINED, late).(pending := map[10 := HEARD]);
        if i == 8 then base.(here := base.here.(pending := map[10 := HEARD]), others := map[1 := there], spoiled := {10})
        else base.(here := base.here.(pending := map[10 := MIXED]), others := map[1 := there], hist := map[10 := ["x", "y", "z"]], spoiled := {10})
  }

  lemma JoinsThere()
    ensures TerminalIsolate.Moves(Spoken(5), There(1, Attaching(3, 0, 20), []), T0 + 3, Spoken(6))
  {
    Joins(3, 20, QUEUED, map[10 := T0 + 2], T0 + 3);
    GoesThere(Spoken(5), Attaching(3, 0, 20), T0 + 3, Seated(3, JOINED, map[10 := T0 + 2]));
    assert map[10 := 0][20 := 0] == map[10 := 0, 20 := 0];
    assert Spoken(5).others[1 := Seated(3, JOINED, map[10 := T0 + 2])] == Spoken(6).others;
  }

  lemma LeavesThere()
    ensures TerminalIsolate.Moves(Spoken(6), There(1, Leaving(3, false), []), T0 + 3, Spoken(7))
  {
    Leaves(3, JOINED, map[10 := T0 + 2], T0 + 3);
    GoesThere(Spoken(6), Leaving(3, false), T0 + 3, Left(3, JOINED, JOINED, map[10 := T0 + 2]));
    assert Spoken(6).others[1 := Left(3, JOINED, JOINED, map[10 := T0 + 2])] == Spoken(7).others;
  }

  lemma SpokenElsewhere()
    ensures Act(Other(Spoken(7), 1), Emitted(10, "b"), [], T0 + 4) == Spoken(8).others[1]
    ensures Loss(Spoken(7), There(1, Emitted(10, "b"), []), T0 + 4) == {} && Spoils(Spoken(7), There(1, Emitted(10, "b"), []), T0 + 4) == {10}
  {
    Queues(Other(Spoken(7), 1), JOINED, "b", T0 + 4);
    assert ["x", "y"] + ["b"] == ["x", "y", "b"];
  }

  lemma SpeaksThere()
    ensures TerminalIsolate.Moves(Spoken(7), There(1, Emitted(10, "b"), []), T0 + 4, Spoken(8))
    ensures Informed(Spoken(7), There(1, Emitted(10, "b"), []))
  {
    var w := Spoken(7);
    SpokenElsewhere();
    assert w.others[1 := Spoken(8).others[1]] == Spoken(8).others;
    assert 3 in Other(w, 1).viewers && Other(w, 1).viewers[3].id == 10;
  }

  lemma SpeaksHere()
    ensures TerminalIsolate.Moves(Spoken(8), Here(Emitted(10, "z"), []), T0 + 5, Spoken(9))
  {
    var w := Spoken(8);
    Queues(w.here, HEARD, "z", T0 + 5);
    assert ["x", "y", "b"] + ["z"] == ["x", "y", "b", "z"] && ["x", "y"] + ["z"] == ["x", "y", "z"];
    GoesHere(w, Emitted(10, "z"), T0 + 5, Spoken(9).here);
    assert map[10 := ["x", "y"]][10 := ["x", "y", "z"]] == map[10 := ["x", "y", "z"]];
  }

  lemma BesideGoes(i: nat)
    requires 5 <= i < 9
    ensures TerminalIsolate.Moves(Spoken(i), Beside[i - 5], SpeakingTimes[i], Spoken(i + 1))
  {
    if i == 5 { JoinsThere(); } else if i == 6 { LeavesThere(); } else if i == 7 { SpeaksThere(); } else { SpeaksHere(); }
  }

  lemma SpeakingIsARun() returns (ws: seq<Isolate>)
    ensures Run(ws, Speaking, SpeakingTimes) && ws[7] == Spoken(7) && ws[9] == Spoken(9)
  {
    ws := seq(10, i requires 0 <= i < 10 => Spoken(i));
    forall i | 0 <= i < 9 ensures TerminalIsolate.Moves(ws[i], Speaking[i], SpeakingTimes[i], ws[i + 1]) {
      if i < 5 { TakingGoes(i); } else { BesideGoes(i); }
    }
  }

  /**
   * A run in which the other relay, once it has taken the session, seats a viewer at it;
   * its executor then speaks of the session it was told of, and the next viewer here is
   * shown that output in the middle of its own.
   */
  lemma OthersShellSpeaksHere() returns (ws: seq<Isolate>)
    ensures Run(ws, Speaking, SpeakingTimes) && Informed(ws[7], Speaking[7]) && 10 in Spoils(ws[7], Speaking[7], SpeakingTimes[7])
    ensures ws[9].hist == map[10 := ["x", "y", "z"]]
    ensures Replayed(ws[9].here, 2, 0, 11, T0 + 6) == ["x", "y", "b", "z"]
  {
    ws := SpeakingIsARun();
    SpeaksThere();
    SpokenElsewhere();
    NewcomerSees(Spoken(9).here, 2, 11, STORED, T0 + 6);
  }

  // ------------------------------------------ another session where there was none

  const Arriving: seq<Move> := [
    There(1, Attaching(3, 0, 20), []), There(1, Leaving(3, false), []), There(1, Emitted(20, "u"), []), There(1, Emitted(20, "v"), [])]
  const ArrivingTimes: seq<int> := [T0, T0, T0, T0 + 1]

  const THEIRS := Shell(20, T0 + 1, ["u", "v"], 2)
  const ROW := Shell(20, T0, ["u"], 1)
  const THEIR_NEW := Shell(20, T0, [], 0)

  /** The other relay with a session of its own whose second chunk is queued. */
  function Beyond(i: nat, touched: map<SessionId, int>): State {
    if i == 0 then Init.(touched := touched)
    else if i == 1 then Seated(3, THEIR_NEW, touched)
    else if i == 2 then Left(3, THEIR_NEW, THEIR_NEW, touched)
    else if i == 3 then Left(3, THEIR_NEW, ROW, touched[20 := T0])
    else Left(3, THEIR_NEW, ROW, touched[20 := T0]).(pending := map[20 := THEIRS])
  }

  lemma StepsThere(i: nat, touched: map<SessionId, int>)
    requires i < 4 && 20 !in touched
    ensures Effect(Beyond(i, touched), Arriving[i].step, ArrivingTimes[i]) == Beyond(i + 1, touched)
  {
    if i == 0 { Opens(3, 20, touched); }
    else if i == 1 { Leaves(3, THEIR_NEW, touched, T0); }
    else if i == 2 { Writes(3, 20, touched, "u"); }
    else {
      Queues(Beyond(3, touched), ROW, "v", T0 + 1);
      assert ["u"] + ["v"] == ["u", "v"];
    }
  }

  /** That relay beside an isolate in which nothing of it was known. */
  function Arrived(base: Isolate, i: nat): Isolate {
    if i == 0 then base
    else
      var there := Beyond(i, base.here.touched);
      base.(here := Sharing(base.here, there), others := map[1 := there], homes := base.homes[20 := 0])
  }

  ghost predicate Unknown(base: Isolate) {
    base.others == map[] && base.here.pending == map[] && 20 !in base.here.touched && 20 !in base.homes && 20 !in base.hist
  }

  lemma ArrivesThere(base: Isolate)
    requires Unknown(base)
    ensures TerminalIsolate.Moves(base, Arriving[0], T0, Arrived(base, 1))
  {
    StepsThere(0, base.here.touched);
    assert Other(base, 1) == Beyond(0, base.here.touched);
    GoesThere(base, Attaching(3, 0, 20), T0, Beyond(1, base.here.touched));
    assert base.others[1 := Beyond(1, base.here.touched)] == map[1 := Beyond(1, base.here.touched)];
  }

  lemma WritesThere(base: Isolate, i: nat)
    requires 0 < i < 4 && Unknown(base)
    ensures TerminalIsolate.Moves(Arrived(base, i), Arriving[i], ArrivingTimes[i], Arrived(base, i + 1))
  {
    var w, there := Arrived(base, i), Beyond(i + 1, base.here.touched);
    StepsThere(i, base.here.touched);
    assert Other(w, 1) == Beyond(i, base.here.touched);
    assert there.pending.Keys <= {20} && w.here.pending == map[];
    GoesThere(w, Arriving[i].step, ArrivingTimes[i], there);
    assert w.others[1 := there] == map[1 := there];
  }

  lemma ArrivingGoes(base: Isolate, i: nat)
    requires i < 4 && Unknown(base)
    ensures TerminalIsolate.Moves(Arrived(base, i), Arriving[i], ArrivingTimes[i], Arrived(base, i + 1))
  {
    if i == 0 { ArrivesThere(base); } else { WritesThere(base, i); }
  }

  /** And what is here once an alarm drained its entry. */
  function Drained(base: Isolate): Isolate {
    var w := Arrived(base, 4);
    w.(here := w.here.(pending := map[], touched := w.here.touched[20 := T0 + 2], rows := map[0 := THEIRS]),
       spoiled := base.spoiled + if base.here.rows == map[] then {} else {10})
  }

  lemma DrainedHere(base: Isolate)
    requires base == Fresh || base == Open(3)
    ensures
      var w := Arrived(base, 4);
      && Written(w.here, Alarm, [20], T0 + 2) == Act(w.here, Alarm, [20], T0 + 2) == Drained(base).here
      && Listing(w.here, [20])
  {
    AlarmStores(Arrived(base, 4).here, THEIRS, T0 + 2);
  }

  lemma DrainSpoils(base: Isolate)
    requires base == Fresh || base == Open(3)
    ensures Spoils(Arrived(base, 4), Here(Alarm, [20]), T0 + 2) == if base.here.rows == map[] then {} else {10}
  {
    DrainedHere(base);
    var a, b := Arrived(base, 4).here.rows, Drained(base).here.rows;
    if base == Open(3) { assert 0 in a && a[0].id == 10 && 0 in b && b[0].id == 20; }
  }

  lemma DrainsHere(base: Isolate)
    requires base == Fresh || base == Open(3)
    ensures TerminalIsolate.Moves(Arrived(base, 4), Here(Alarm, [20]), T0 + 2, Drained(base))
  {
    DrainedHere(base);
    DrainSpoils(base);
  }

  const Seating: seq<Move> := Arriving + [Here(Alarm, [20])]
  const SeatingTimes: seq<int> := ArrivingTimes + [T0 + 2]

  /**
   * A run in which this relay's alarm stores another relay's entry at a target where it
   * has nothing: nothing of its own was lost or spoiled, and the next viewer here is
   * seated at the other session and shown its output.
   */
  lemma AFlushCanTakeATarget() returns (ws: seq<Isolate>)
    ensures Run(ws, Seating, SeatingTimes) && ws[4].here.rows == map[] && ws[5].lost == {} && ws[5].spoiled == {}
    ensures 20 !in ws[5].hist && ws[5].here.rows == map[0 := THEIRS]
    ensures Replayed(ws[5].here, 2, 0, 11, T0 + 3) == ["u", "v"]
  {
    ws := seq(6, i requires 0 <= i < 6 => if i < 5 then Arrived(Fresh, i) else Drained(Fresh));
    forall i | 0 <= i < 5 ensures TerminalIsolate.Moves(ws[i], Seating[i], SeatingTimes[i], ws[i + 1]) {
      if i < 4 { ArrivingGoes(Fresh, i); } else { DrainsHere(Fresh); }
    }
    NewcomerSees(Drained(Fresh).here, 2, 11, THEIRS, T0 + 3);
  }

  const Replacing: seq<Move> := Opening + Seating
  const ReplacingTimes: seq<int> := [T0, T0, T0] + SeatingTimes

  function Replaced(i: nat): Isolate {
    if i < 3 then Open(i) else if i < 8 then Arrived(Open(3), i - 3) else Drained(Open(3))
  }

  lemma ReplacingIsARun() returns (ws: seq<Isolate>)
    ensures Run(ws, Replacing, ReplacingTimes) && ws[7] == Replaced(7) && ws[8] == Replaced(8)
  {
    ws := seq(9, i requires 0 <= i < 9 => Replaced(i));
    forall i | 0 <= i < 8 ensures TerminalIsolate.Moves(ws[i], Replacing[i], ReplacingTimes[i], ws[i + 1]) {
      if i < 3 { OpeningGoes(i); } else if i < 7 { ArrivingGoes(Open(3), i - 3); } else { DrainsHere(Open(3)); }
    }
  }

  /**
   * A run in which this relay's alarm stores another relay's entry over its own row:
   * nothing of its session was lost, and the next viewer here is replayed the other
   * session's output instead.
   */
  lemma AFlushCanReplaceARow() returns (ws: seq<Isolate>)
    ensures Run(ws, Replacing, ReplacingTimes) && ws[8].lost == {}
    ensures ws[7].here.rows == map[0 := STORED] && ws[8].hist == map[10 := ["x"]] && ws[8].here.rows == map[0 := THEIRS]
    ensures Replayed(ws[8].here, 2, 0, 11, T0 + 3) == ["u", "v"]
  {
    ws := ReplacingIsARun();
    NewcomerSees(Replaced(8).here, 2, 11, THEIRS, T0 + 3);
  }
}
