/**
 * The durable record of every call: a stream that acknowledges what it took, and
 * an outbox of rows that are delivered under leases until it does.
 */
module AuditOutbox {
  import opened Common
  import opened LeasePages

  type Id = nat
  type Token = nat

  const LEASE := 60_000
  const BATCH := 25
  const STALE := 15 * 60_000
  const GRACE := 24 * 60 * 60_000
  const FIRST_RETRY := 2_000

  /** What a record says of a call: nothing yet, or how it ended. */
  datatype Outcome = Incomplete | Ended(ok: bool, code: string)
  datatype Event = Event(id: Id, outcome: Outcome)

  datatype Row = Row(
    outcome: Option<Outcome>,
    createdAt: int,
    readyAt: int,
    nextAttemptAt: int,
    attempts: nat,
    lease: Option<Token>,
    leaseUntil: int,
    acceptedAt: Option<int>)

  /** A batch on its way: the events as they were read, and whether the stream acknowledged them. */
  datatype Flight = Flight(events: map<Id, Outcome>, acked: bool)

  /** How a send went. The stream may take events and the acknowledgement be lost. */
  datatype Sent = Acked | Unheard | NotTaken

  datatype Handle = Handle(startedAt: int, streamed: bool)

  datatype World = World(
    rows: map<Id, Row>,
    ingested: set<Event>,                 // what the stream holds
    acked: set<Id>,                       // what it acknowledged, by call
    flights: map<Token, Flight>,
    begun: map<Id, Handle>)               // the calls that may be dispatched

  const Start := World(map[], {}, {}, map[], map[])

  function NewRow(outcome: Option<Outcome>, createdAt: int, readyAt: int, due: int): Row {
    Row(outcome, createdAt, readyAt, due, 0, None, 0, None)
  }

  predicate Deliverable(r: Row, now: int) {
    r.outcome.Some? && r.acceptedAt.None? && r.nextAttemptAt <= now && (r.lease.None? || r.leaseUntil <= now)
  }

  function Waiting(rows: map<Id, Row>, now: int): map<Id, int> {
    map id | id in rows && Deliverable(rows[id], now) :: rows[id].readyAt
  }

  /** `2 ** min(attempts, 10)` seconds, an hour at most. */
  function RetryDelay(attempts: nat): int {
    var n := if attempts < 10 then attempts else 10;
    Min(60 * 60_000, Power(n) * 1000)
  }

  function Power(n: nat): nat {
    if n == 0 then 1 else 2 * Power(n - 1)
  }

  datatype Step =
    | Begin(id: Id, sent: Sent, stored: bool)
    | FinishStream(id: Id, outcome: Outcome, sent: Sent, stored: bool)
    | FinishOutbox(id: Id, outcome: Outcome)
    | TakeBatch(token: Token, page: set<Id>)
    | SendBatch(token: Token, sent: Sent)
    | Accept(token: Token)
    | GiveUp(token: Token, attempts: nat)
    | Recover
    | Purge(since: int)

  function Taken(w: World, events: set<Event>, ids: set<Id>, sent: Sent): World {
    w.(ingested := if sent == NotTaken then w.ingested else w.ingested + events,
       acked := if sent == Acked then w.acked + ids else w.acked)
  }

  /** A record is kept in the outbox unless there is one already. */
  function Stored(rows: map<Id, Row>, id: Id, row: Row): map<Id, Row> {
    if id in rows then rows else rows[id := row]
  }

  ghost predicate Allowed(w: World, step: Step, now: int) {
    match step
    case Begin(id, _, _) => id !in w.begun && id !in w.rows && id !in w.acked
    case FinishStream(id, _, _, _) => id in w.begun && w.begun[id].streamed
    case FinishOutbox(id, _) => id in w.begun && !w.begun[id].streamed
    case TakeBatch(token, page) => token !in w.flights && IsFirst(Waiting(w.rows, now), page, BATCH)
    case SendBatch(token, _) => token in w.flights
    case Accept(token) => token in w.flights && w.flights[token].acked
    case GiveUp(token, _) => token in w.flights
    case Recover => true
    case Purge(since) => since <= now
  }

  function Next(w: World, step: Step, now: int): World {
    match step
    case Begin(id, sent, stored) =>
      var sentOff := Taken(w, {Event(id, Incomplete)}, {id}, sent);
      if sent == Acked then sentOff.(begun := w.begun[id := Handle(now, true)])
      else if stored then sentOff.(rows := Stored(w.rows, id, NewRow(None, now, 0, now)), begun := w.begun[id := Handle(now, false)])
      else sentOff
    case FinishStream(id, outcome, sent, stored) =>
      var sentOff := Taken(w, {Event(id, outcome)}, {id}, sent);
      if sent != Acked && stored
      then sentOff.(rows := Stored(w.rows, id, NewRow(Some(outcome), if id in w.begun then w.begun[id].startedAt else now, now, now + FIRST_RETRY)))
      else sentOff
    case FinishOutbox(id, outcome) =>
      if id in w.rows && w.rows[id].acceptedAt.None?
      then w.(rows := w.rows[id := w.rows[id].(outcome := Some(outcome), readyAt := now, nextAttemptAt := now)]) else w
    case TakeBatch(token, page) =>
      w.(rows := map id | id in w.rows ::
           if id in page then w.rows[id].(lease := Some(token), leaseUntil := now + LEASE, attempts := w.rows[id].attempts + 1) else w.rows[id],
         flights := w.flights[token := Flight(map id | id in page && id in w.rows && w.rows[id].outcome.Some? :: w.rows[id].outcome.value, false)])
    case SendBatch(token, sent) =>
      if token !in w.flights then w
      else
        var events := w.flights[token].events;
        Taken(w, set id | id in events :: Event(id, events[id]), events.Keys, sent)
          .(flights := if sent == Acked then w.flights[token := w.flights[token].(acked := true)] else w.flights)
    case Accept(token) =>
      w.(rows := map id | id in w.rows ::
           if w.rows[id].lease == Some(token) then w.rows[id].(acceptedAt := Some(now), lease := None) else w.rows[id])
    case GiveUp(token, attempts) =>
      w.(rows := map id | id in w.rows ::
           if w.rows[id].lease == Some(token) then w.rows[id].(nextAttemptAt := now + RetryDelay(attempts), lease := None) else w.rows[id])
    case Recover =>
      w.(rows := map id | id in w.rows ::
           if w.rows[id].outcome.None? && w.rows[id].createdAt <= now - STALE
           then w.rows[id].(outcome := Some(Incomplete), readyAt := now, nextAttemptAt := now) else w.rows[id])
    case Purge(since) =>
      w.(rows := map id | id in w.rows && !(w.rows[id].acceptedAt.Some? && w.rows[id].acceptedAt.value < since - GRACE) :: w.rows[id])
  }

  ghost predicate Run(ws: seq<World>, steps: seq<Step>, times: seq<int>) {
    && |ws| == |steps| + 1 && |times| == |steps| && ws[0] == Start
    && (forall i :: 0 <= i < |steps| ==> Allowed(ws[i], steps[i], times[i]) && ws[i + 1] == Next(ws[i], steps[i], times[i]))
    && (forall i, j :: 0 <= i < j < |times| ==> times[i] <= times[j])
  }

  // --------------------------------------------------------------- invariant

  predicate Recorded(w: World, id: Id) {
    exists e :: e in w.ingested && e.id == id
  }

  ghost predicate RowHolds(w: World, id: Id)
    requires id in w.rows
  {
    var r := w.rows[id];
    && (r.acceptedAt.Some? ==> r.lease.None? && r.outcome.Some? && id in w.acked)
    && (r.lease.Some? ==> r.outcome.Some? && r.lease.value in w.flights && id in w.flights[r.lease.value].events)
  }

  ghost predicate Inv(w: World) {
    && (forall id :: id in w.rows ==> RowHolds(w, id))
    && (forall id :: id in w.acked ==> Recorded(w, id))
    && (forall t :: t in w.flights && w.flights[t].acked ==> w.flights[t].events.Keys <= w.acked)
    && (forall id :: id in w.begun ==> id in w.rows || Recorded(w, id))
  }

  lemma RowsKeep(w: World, rows: map<Id, Row>)
    requires Inv(w) && w.rows.Keys <= rows.Keys && forall id :: id in rows ==> RowHolds(w.(rows := rows), id)
    ensures Inv(w.(rows := rows))
  {
    var after := w.(rows := rows);
    assert forall id :: Recorded(w, id) ==> Recorded(after, id);
  }

  lemma TakenKeeps(w: World, events: set<Event>, ids: set<Id>, sent: Sent)
    requires Inv(w) && forall id :: id in ids ==> exists e :: e in events && e.id == id
    ensures Inv(Taken(w, events, ids, sent))
    ensures sent == Acked ==> forall id :: id in ids ==> Recorded(Taken(w, events, ids, sent), id)
  {
    var after := Taken(w, events, ids, sent);
    forall id | Recorded(w, id) ensures Recorded(after, id) {
      var e :| e in w.ingested && e.id == id;
      assert e in after.ingested;
    }
    forall id | id in ids && sent == Acked ensures Recorded(after, id) {
      var e :| e in events && e.id == id;
      assert e in after.ingested;
    }
    forall id | id in after.rows ensures RowHolds(after, id) {
      assert RowHolds(w, id);
    }
  }

  lemma BeginKeeps(w: World, id: Id, sent: Sent, stored: bool, now: int)
    requires Inv(w) && Allowed(w, Begin(id, sent, stored), now)
    ensures Inv(Next(w, Begin(id, sent, stored), now))
  {
    var e := Event(id, Incomplete);
    assert e in {e} && e.id == id;
    TakenKeeps(w, {e}, {id}, sent);
    var sentOff := Taken(w, {e}, {id}, sent);
    var after := Next(w, Begin(id, sent, stored), now);
    assert forall x :: Recorded(sentOff, x) ==> Recorded(after, x);
    forall x | x in after.rows ensures RowHolds(after, x) {
      if x in w.rows { assert RowHolds(sentOff, x); }
    }
  }

  lemma FinishStreamKeeps(w: World, id: Id, outcome: Outcome, sent: Sent, stored: bool, now: int)
    requires Inv(w)
    ensures Inv(Next(w, FinishStream(id, outcome, sent, stored), now))
  {
    var e := Event(id, outcome);
    assert e in {e} && e.id == id;
    TakenKeeps(w, {e}, {id}, sent);
    var sentOff := Taken(w, {e}, {id}, sent);
    var after := Next(w, FinishStream(id, outcome, sent, stored), now);
    if after.rows != sentOff.rows {
      forall x | x in after.rows ensures RowHolds(after, x) {
        if x in w.rows { assert RowHolds(sentOff, x); }
      }
      RowsKeep(sentOff, after.rows);
    }
  }

  lemma TakeKeeps(w: World, token: Token, page: set<Id>, now: int)
    requires Inv(w) && Allowed(w, TakeBatch(token, page), now)
    ensures Inv(Next(w, TakeBatch(token, page), now))
  {
    var after := Next(w, TakeBatch(token, page), now);
    assert forall x :: Recorded(w, x) ==> Recorded(after, x);
    forall x | x in after.rows ensures RowHolds(after, x) {
      assert RowHolds(w, x);
      if x in page { assert x in Waiting(w.rows, now); }
    }
  }

  lemma SendKeeps(w: World, token: Token, sent: Sent, now: int)
    requires Inv(w) && token in w.flights
    ensures Inv(Next(w, SendBatch(token, sent), now))
  {
    var events := w.flights[token].events;
    var all := set id | id in events :: Event(id, events[id]);
    forall id | id in events ensures exists e :: e in all && e.id == id {
      assert Event(id, events[id]) in all;
    }
    TakenKeeps(w, all, events.Keys, sent);
    var sentOff := Taken(w, all, events.Keys, sent);
    var after := Next(w, SendBatch(token, sent), now);
    assert forall x :: Recorded(sentOff, x) ==> Recorded(after, x);
    forall x | x in after.rows ensures RowHolds(after, x) {
      assert RowHolds(sentOff, x);
    }
  }

  lemma AcceptKeeps(w: World, token: Token, now: int)
    requires Inv(w) && Allowed(w, Accept(token), now)
    ensures Inv(Next(w, Accept(token), now))
  {
    var after := Next(w, Accept(token), now);
    assert forall x :: Recorded(w, x) ==> Recorded(after, x);
    forall x | x in after.rows ensures RowHolds(after, x) {
      assert RowHolds(w, x);
    }
  }

  lemma PurgeKeeps(w: World, since: int, now: int)
    requires Inv(w)
    ensures Inv(Next(w, Purge(since), now))
  {
    var after := Next(w, Purge(since), now);
    assert forall x :: Recorded(w, x) ==> Recorded(after, x);
    forall x | x in w.begun ensures x in after.rows || Recorded(after, x) {
      if x in w.rows { assert RowHolds(w, x); }
    }
    forall x | x in after.rows ensures RowHolds(after, x) {
      assert RowHolds(w, x);
    }
  }

  lemma StepKeeps(w: World, step: Step, now: int)
    requires Inv(w) && Allowed(w, step, now)
    ensures Inv(Next(w, step, now))
  {
    match step
    case Begin(id, sent, stored) => BeginKeeps(w, id, sent, stored, now);
    case FinishStream(id, outcome, sent, stored) => FinishStreamKeeps(w, id, outcome, sent, stored, now);
    case TakeBatch(token, page) => TakeKeeps(w, token, page, now);
    case SendBatch(token, sent) => SendKeeps(w, token, sent, now);
    case Accept(token) => AcceptKeeps(w, token, now);
    case Purge(since) => PurgeKeeps(w, since, now);
    case _ => RowStepKeeps(w, step, now);
  }

  lemma RowStepKeeps(w: World, step: Step, now: int)
    requires Inv(w)
    ensures step.FinishOutbox? || step.GiveUp? || step.Recover? ==> Inv(Next(w, step, now))
  {
    if step.FinishOutbox? || step.GiveUp? || step.Recover? {
      var after := Next(w, step, now);
      forall x | x in after.rows ensures RowHolds(after, x) {
        assert RowHolds(w, x);
      }
      RowsKeep(w, after.rows);
    }
  }

  lemma {:induction false} RunKeeps(ws: seq<World>, steps: seq<Step>, times: seq<int>, i: nat)
    requires Run(ws, steps, times) && i < |ws|
    ensures Inv(ws[i])
  {
    if i > 0 {
      RunKeeps(ws, steps, times, i - 1);
      StepKeeps(ws[i - 1], steps[i - 1], times[i - 1]);
    }
  }

  // ---------------------------------------------------------------- theorems

  /** A call is dispatched only once it is on record, and it stays on record: in the stream, or in the outbox. */
  lemma BegunCallsAreOnRecord(ws: seq<World>, steps: seq<Step>, times: seq<int>, i: nat, id: Id)
    requires Run(ws, steps, times) && i < |ws| && id in ws[i].begun
    ensures id in ws[i].rows || Recorded(ws[i], id)
  {
    RunKeeps(ws, steps, times, i);
  }

  /** When neither store takes the record the call is not begun. */
  lemma NothingKeptNothingBegun(w: World, id: Id, sent: Sent, stored: bool, now: int)
    requires Allowed(w, Begin(id, sent, stored), now)
    ensures id in Next(w, Begin(id, sent, stored), now).begun <==> sent == Acked || stored
  {
  }

  /** A row is marked accepted only after the stream acknowledged an event of its call. */
  lemma AcceptedWasAcknowledged(ws: seq<World>, steps: seq<Step>, times: seq<int>, i: nat, id: Id)
    requires Run(ws, steps, times) && i < |ws| && id in ws[i].rows && ws[i].rows[id].acceptedAt.Some?
    ensures id in ws[i].acked && Recorded(ws[i], id)
  {
    RunKeeps(ws, steps, times, i);
    assert RowHolds(ws[i], id);
  }

  /** A row only goes when it was accepted, and not within a day of that. */
  lemma RowsGoADayAfterAcceptance(ws: seq<World>, steps: seq<Step>, times: seq<int>, i: nat, id: Id)
    requires Run(ws, steps, times) && i < |steps| && id in ws[i].rows && id !in ws[i + 1].rows
    ensures ws[i].rows[id].acceptedAt.Some? && times[i] > ws[i].rows[id].acceptedAt.value + GRACE
    ensures id in ws[i].acked
  {
    RunKeeps(ws, steps, times, i);
    assert RowHolds(ws[i], id);
    assert ws[i + 1] == Next(ws[i], steps[i], times[i]);
  }

  /** A flusher that fails only touches the rows it still leases, and those become due after a bounded wait. */
  lemma GivingUpTouchesOnlyItsOwn(w: World, token: Token, attempts: nat, now: int, id: Id)
    requires id in w.rows
    ensures
      var after := Next(w, GiveUp(token, attempts), now);
      && id in after.rows
      && (w.rows[id].lease != Some(token) ==> after.rows[id] == w.rows[id])
      && (w.rows[id].lease == Some(token) ==>
            after.rows[id].lease.None? && now < after.rows[id].nextAttemptAt <= now + 1_024_000
            && after.rows[id].outcome == w.rows[id].outcome)
  {
    PowerBounds(if attempts < 10 then attempts else 10);
  }

  lemma {:induction false} PowerBounds(n: nat)
    requires n <= 10
    ensures 1 <= Power(n) <= 1024
  {
    PowerUpTo(n, 10);
    assert Power(2) == 4 && Power(4) == 16;
    assert Power(6) == 64 && Power(8) == 256 && Power(10) == 1024;
  }

  lemma {:induction false} PowerUpTo(n: nat, m: nat)
    requires n <= m
    ensures 1 <= Power(n) <= Power(m)
    decreases m
  {
    if n < m { PowerUpTo(n, m - 1); } else if n > 0 { PowerUpTo(n - 1, n - 1); }
  }

  // ------------------------------------------------------------ what is delivered

  /** A row's outcome is on its way unchanged: in the outbox, in the batch that carries it, or in the stream. */
  ghost predicate Kept(w: World, id: Id, outcome: Outcome) {
    || Event(id, outcome) in w.ingested
    || (id in w.rows && w.rows[id].outcome == Some(outcome) && w.rows[id].acceptedAt.None?
        && (w.rows[id].lease.Some? ==>
              && w.rows[id].lease.value in w.flights && id in w.flights[w.rows[id].lease.value].events
              && w.flights[w.rows[id].lease.value].events[id] == outcome))
  }

  ghost predicate FlightsHold(w: World) {
    forall t, id :: t in w.flights && w.flights[t].acked && id in w.flights[t].events ==> Event(id, w.flights[t].events[id]) in w.ingested
  }

  lemma FlightsKeep(w: World, step: Step, now: int)
    requires FlightsHold(w) && Allowed(w, step, now)
    ensures FlightsHold(Next(w, step, now))
  {
  }

  lemma KeptKeeps(w: World, step: Step, now: int, id: Id, outcome: Outcome)
    requires Inv(w) && FlightsHold(w) && Allowed(w, step, now) && Kept(w, id, outcome)
    requires !(step.FinishOutbox? && step.id == id)
    ensures Kept(Next(w, step, now), id, outcome)
  {
    if Event(id, outcome) !in w.ingested {
      assert RowHolds(w, id);
      match step
      case TakeBatch(token, page) => if id in page { assert id in Waiting(w.rows, now); }
      case _ =>
    }
  }

  /**
   * An outcome that was written to the outbox while no batch carried the row
   * reaches the stream: whatever sends fail, acknowledgements are lost, leases
   * expire or flushers overlap, it is either still to be delivered or delivered
   * as it was.
   */
  lemma {:induction false} OutcomesAreDelivered(ws: seq<World>, steps: seq<Step>, times: seq<int>, i: nat, j: nat, id: Id, outcome: Outcome)
    requires Run(ws, steps, times) && i < j < |ws|
    requires steps[i] == FinishOutbox(id, outcome) && id in ws[i].rows && ws[i].rows[id].acceptedAt.None? && ws[i].rows[id].lease.None?
    requires forall k :: i < k < j ==> !(steps[k].FinishOutbox? && steps[k].id == id)
    ensures Kept(ws[j], id, outcome)
    decreases j
  {
    if i + 1 < j {
      OutcomesAreDelivered(ws, steps, times, i, j - 1, id, outcome);
      RunKeeps(ws, steps, times, j - 1);
      RunFlights(ws, steps, times, j - 1);
      KeptKeeps(ws[j - 1], steps[j - 1], times[j - 1], id, outcome);
    }
  }

  lemma {:induction false} RunFlights(ws: seq<World>, steps: seq<Step>, times: seq<int>, i: nat)
    requires Run(ws, steps, times) && i < |ws|
    ensures FlightsHold(ws[i])
  {
    if i > 0 {
      RunFlights(ws, steps, times, i - 1);
      FlightsKeep(ws[i - 1], steps[i - 1], times[i - 1]);
    }
  }

  /** The outcome of a streamed call: taken by the stream, or kept in the outbox until it is. */
  lemma StreamedOutcomesAreKept(ws: seq<World>, steps: seq<Step>, times: seq<int>, i: nat)
    requires Run(ws, steps, times) && i < |steps| && steps[i].FinishStream? && (steps[i].sent == Acked || steps[i].stored)
    requires steps[i].id !in ws[i].rows
    ensures Kept(ws[i + 1], steps[i].id, steps[i].outcome)
  {
  }

  function OneRow(row: Row): map<Id, Row> {
    map[7 := row]
  }

  /** The call's intent reaches the outbox, is taken for interrupted, and is put in a batch. */
  lemma TakenForInterrupted()
    ensures
      var w1 := World(OneRow(NewRow(None, 0, 0, 0)), {}, {}, map[], map[7 := Handle(0, false)]);
      var swept := NewRow(Some(Incomplete), 0, STALE, STALE);
      var w2 := w1.(rows := OneRow(swept));
      var leased := swept.(lease := Some(1), leaseUntil := STALE + LEASE, attempts := 1);
      var w3 := w2.(rows := OneRow(leased), flights := map[1 := Flight(map[7 := Incomplete], false)]);
      && Next(Start, Begin(7, NotTaken, true), 0) == w1
      && Next(w1, Recover, STALE) == w2
      && Allowed(w2, TakeBatch(1, {7}), STALE) && Next(w2, TakeBatch(1, {7}), STALE) == w3
  {
    var w1 := World(OneRow(NewRow(None, 0, 0, 0)), {}, {}, map[], map[7 := Handle(0, false)]);
    var swept := NewRow(Some(Incomplete), 0, STALE, STALE);
    var w2 := w1.(rows := OneRow(swept));
    assert Next(Start, Begin(7, NotTaken, true), 0).rows == w1.rows;
    assert Next(w1, Recover, STALE).rows == w2.rows;
    assert Waiting(w2.rows, STALE) == map[7 := STALE];
    assert Waiting(w2.rows, STALE).Keys == {7} && |{7 as nat}| == 1;
    var leased := swept.(lease := Some(1), leaseUntil := STALE + LEASE, attempts := 1);
    assert Next(w2, TakeBatch(1, {7}), STALE).rows == OneRow(leased);
    assert Next(w2, TakeBatch(1, {7}), STALE).flights[1].events == map[7 := Incomplete];
    assert Next(w2, TakeBatch(1, {7}), STALE).flights == map[1 := Flight(map[7 := Incomplete], false)];
  }

  /**
   * An outcome that comes while a batch already carries the row as incomplete can
   * be lost: the batch is acknowledged, the row is marked accepted with the new
   * outcome in it, and the stream never hears of that outcome.
   */
  lemma ALateOutcomeCanBeLost()
    ensures
      var leased := NewRow(Some(Incomplete), 0, STALE, STALE).(lease := Some(1), leaseUntil := STALE + LEASE, attempts := 1);
      var w3 := World(OneRow(leased), {}, {}, map[1 := Flight(map[7 := Incomplete], false)], map[7 := Handle(0, false)]);
      var w4 := Next(w3, FinishOutbox(7, Ended(true, "")), STALE);
      var w5 := Next(w4, SendBatch(1, Acked), STALE);
      var w6 := Next(w5, Accept(1), STALE);
      && w3 == Next(Next(Next(Start, Begin(7, NotTaken, true), 0), Recover, STALE), TakeBatch(1, {7}), STALE)
      && Allowed(w3, FinishOutbox(7, Ended(true, "")), STALE) && Allowed(w4, SendBatch(1, Acked), STALE) && Allowed(w5, Accept(1), STALE)
      && 7 in w6.rows && w6.rows[7].acceptedAt.Some? && w6.rows[7].outcome == Some(Ended(true, ""))
      && Event(7, Ended(true, "")) !in w6.ingested
  {
    TakenForInterrupted();
  }

  /** What may follow a world. */
  ghost predicate Continues(w: World, ws: seq<World>, steps: seq<Step>, times: seq<int>) {
    && |ws| == |steps| + 1 && |times| == |steps| && ws[0] == w
    && (forall i :: 0 <= i < |steps| ==> Allowed(ws[i], steps[i], times[i]) && ws[i + 1] == Next(ws[i], steps[i], times[i]))
    && (forall i, j :: 0 <= i < j < |times| ==> times[i] <= times[j])
  }

  /** Delivered as it was, or still to be delivered. */
  predicate Owed(w: World, id: Id, outcome: Outcome) {
    Event(id, outcome) in w.ingested || (id in w.rows && w.rows[id].outcome == Some(outcome) && w.rows[id].acceptedAt.None?)
  }

  /** Whatever follows, short of the call being finished again. */
  ghost predicate NeverLost(w: World, id: Id, outcome: Outcome) {
    forall ws: seq<World>, steps: seq<Step>, times: seq<int> ::
      Continues(w, ws, steps, times) && (forall k :: 0 <= k < |steps| ==> !(steps[k].FinishOutbox? && steps[k].id == id))
      ==> Owed(ws[|steps|], id, outcome)
  }

  /** The row is there, is not settled, and no batch carries it with another outcome. */
  predicate Writable(w: World, id: Id, outcome: Outcome) {
    && id in w.rows && w.rows[id].acceptedAt.None?
    && (w.rows[id].lease.Some? ==>
          && w.rows[id].lease.value in w.flights && id in w.flights[w.rows[id].lease.value].events
          && w.flights[w.rows[id].lease.value].events[id] == outcome)
  }

  lemma {:induction false} KeptAlong(w: World, ws: seq<World>, steps: seq<Step>, times: seq<int>, i: nat, id: Id, outcome: Outcome)
    requires Continues(w, ws, steps, times) && i < |ws| && Inv(w) && FlightsHold(w) && Kept(w, id, outcome)
    requires forall k :: 0 <= k < i ==> !(steps[k].FinishOutbox? && steps[k].id == id)
    ensures Inv(ws[i]) && FlightsHold(ws[i]) && Kept(ws[i], id, outcome)
  {
    if i > 0 {
      KeptAlong(w, ws, steps, times, i - 1, id, outcome);
      StepKeeps(ws[i - 1], steps[i - 1], times[i - 1]);
      FlightsKeep(ws[i - 1], steps[i - 1], times[i - 1]);
      KeptKeeps(ws[i - 1], steps[i - 1], times[i - 1], id, outcome);
    }
  }

  /** A batch that carries the row with another outcome settles it with that one. */
  lemma CarriedOff(w: World, id: Id, outcome: Outcome, now: int)
    requires Inv(w) && id in w.rows && w.rows[id].acceptedAt.None? && w.rows[id].outcome == Some(outcome) && w.rows[id].lease.Some?
    requires w.flights[w.rows[id].lease.value].events[id] != outcome && Event(id, outcome) !in w.ingested
    ensures !NeverLost(w, id, outcome)
  {
    var token := w.rows[id].lease.value;
    var w1 := Next(w, SendBatch(token, Acked), now);
    var w2 := Next(w1, Accept(token), now);
    assert Continues(w, [w, w1, w2], [SendBatch(token, Acked), Accept(token)], [now, now]);
    assert !Owed(w2, id, outcome);
  }

  /**
   * Exactly when an outcome that is written to the outbox can get lost: unless the
   * stream has it already, the row must still be there and unsettled, and no batch
   * may be carrying it as something else.
   */
  lemma OutcomesAreLostExactly(w: World, id: Id, outcome: Outcome, now: int)
    requires Inv(w) && FlightsHold(w) && Allowed(w, FinishOutbox(id, outcome), now)
    ensures NeverLost(Next(w, FinishOutbox(id, outcome), now), id, outcome)
      <==> Event(id, outcome) in w.ingested || Writable(w, id, outcome)
  {
    var after := Next(w, FinishOutbox(id, outcome), now);
    StepKeeps(w, FinishOutbox(id, outcome), now);
    FlightsKeep(w, FinishOutbox(id, outcome), now);
    if Event(id, outcome) in w.ingested || Writable(w, id, outcome) {
      forall ws: seq<World>, steps: seq<Step>, times: seq<int> | Continues(after, ws, steps, times)
          && (forall k :: 0 <= k < |steps| ==> !(steps[k].FinishOutbox? && steps[k].id == id))
        ensures Owed(ws[|steps|], id, outcome)
      {
        KeptAlong(after, ws, steps, times, |steps|, id, outcome);
      }
    } else if id in w.rows && w.rows[id].acceptedAt.None? {
      CarriedOff(after, id, outcome, now);
    } else {
      var none: seq<Step> := [];
      assert Continues(after, [after], none, []);
      assert !Owed([after][|none|], id, outcome);
    }
  }

  // ---------------------------------------------- how a row makes its way out

  /** Which page a claim takes, column by column: rows with an outcome, unsettled, due and unleased, the first ready first, 25 at most. */
  lemma PageMeans(rows: map<Id, Row>, page: set<Id>, now: int)
    ensures IsFirst(Waiting(rows, now), page, BATCH) <==>
      && |page| <= 25
      && (forall id :: id in page ==>
            && id in rows && rows[id].outcome.Some? && rows[id].acceptedAt.None? && rows[id].nextAttemptAt <= now
            && (rows[id].lease.None? || rows[id].leaseUntil <= now))
      && (forall id ::
            (id in rows && id !in page && rows[id].outcome.Some? && rows[id].acceptedAt.None? && rows[id].nextAttemptAt <= now
             && (rows[id].lease.None? || rows[id].leaseUntil <= now)) ==>
            && |page| == 25
            && forall taken :: taken in page ==>
                 rows[taken].readyAt < rows[id].readyAt || (rows[taken].readyAt == rows[id].readyAt && taken < id))
  {
    var waiting := Waiting(rows, now);
    assert forall id :: id in waiting <==>
      (id in rows && rows[id].outcome.Some? && rows[id].acceptedAt.None? && rows[id].nextAttemptAt <= now
       && (rows[id].lease.None? || rows[id].leaseUntil <= now));
    if page <= waiting.Keys && page != waiting.Keys {
      var left :| left in waiting && left !in page;
    }
  }

  /** What can touch an unsettled row that has an outcome: a claim of it, its call's end, and the one that holds its lease. */
  ghost predicate Touches(step: Step, id: Id, lease: Option<Token>) {
    || (step.TakeBatch? && id in step.page)
    || (step.FinishOutbox? && step.id == id)
    || ((step.Accept? || step.GiveUp?) && lease == Some(step.token))
  }

  lemma {:induction false} RowStays(ws: seq<World>, steps: seq<Step>, times: seq<int>, i: nat, j: nat, id: Id)
    requires Run(ws, steps, times) && i <= j < |ws| && id in ws[i].rows && ws[i].rows[id].outcome.Some? && ws[i].rows[id].acceptedAt.None?
    requires forall k :: i <= k < j ==> !Touches(steps[k], id, ws[i].rows[id].lease)
    ensures id in ws[j].rows && ws[j].rows[id] == ws[i].rows[id]
    decreases j - i
  {
    if i < j {
      RowStays(ws, steps, times, i, j - 1, id);
      assert ws[j] == Next(ws[j - 1], steps[j - 1], times[j - 1]);
    }
  }

  /** Whether a claim takes a row that is due at a moment: not before, and from then on unless 25 that were ready no later fill the batch. */
  ghost predicate TakenFrom(w: World, page: set<Id>, now: int, id: Id, due: int) {
    && (now < due ==> id !in page)
    && (now >= due && id !in page ==>
          |page| == 25 && id in w.rows && forall taken :: taken in page ==> taken in w.rows && w.rows[taken].readyAt <= w.rows[id].readyAt)
  }

  /** How a claim marks the rows it takes: leased for a minute, one attempt more, and its batch carries what they say. */
  lemma TakenIsLeased(ws: seq<World>, steps: seq<Step>, times: seq<int>, i: nat, id: Id)
    requires Run(ws, steps, times) && i < |steps| && steps[i].TakeBatch? && id in ws[i].rows
    ensures id in ws[i + 1].rows && steps[i].token in ws[i + 1].flights
    ensures
      var before, after, events := ws[i].rows[id], ws[i + 1].rows[id], ws[i + 1].flights[steps[i].token].events;
      if id !in steps[i].page then after == before && id !in events
      else
        && after == before.(lease := Some(steps[i].token), leaseUntil := times[i] + 60_000, attempts := before.attempts + 1)
        && id in events && before.outcome == Some(events[id])
  {
    assert ws[i + 1] == Next(ws[i], steps[i], times[i]);
    if id in steps[i].page { PageMeans(ws[i].rows, steps[i].page, times[i]); }
  }

  /** An outcome that is written to an unsettled row nobody holds is in the next claim's batch. */
  lemma FinishedIsTaken(ws: seq<World>, steps: seq<Step>, times: seq<int>, i: nat, j: nat, id: Id, outcome: Outcome)
    requires Run(ws, steps, times) && i < j < |steps| && steps[i] == FinishOutbox(id, outcome) && steps[j].TakeBatch?
    requires id in ws[i].rows && ws[i].rows[id].acceptedAt.None? && ws[i].rows[id].lease.None?
    requires forall k :: i < k < j ==> !Touches(steps[k], id, None)
    ensures TakenFrom(ws[j], steps[j].page, times[j], id, times[i])
    ensures id in steps[j].page ==> id in ws[j + 1].flights[steps[j].token].events && ws[j + 1].flights[steps[j].token].events[id] == outcome
  {
    assert ws[i + 1] == Next(ws[i], steps[i], times[i]);
    RowStays(ws, steps, times, i + 1, j, id);
    PageMeans(ws[j].rows, steps[j].page, times[j]);
    TakenIsLeased(ws, steps, times, j, id);
  }

  /** The wait after a failed batch: a second for no attempt, twice as long for each one more, 1024 seconds from the tenth on. */
  lemma RetryDoubles(attempts: nat)
    ensures RetryDelay(0) == 1000
    ensures attempts < 10 ==> RetryDelay(attempts + 1) == 2 * RetryDelay(attempts)
    ensures attempts >= 10 ==> RetryDelay(attempts) == 1_024_000
  {
    PowerBounds(if attempts < 10 then attempts else 10);
    if attempts < 10 { PowerBounds(attempts + 1); }
    assert Power(6) == 64 && Power(8) == 256 && Power(10) == 1024;
  }

  /** A row whose batch failed while it was held is taken again once its wait is over, and not before. */
  lemma FailedIsTakenAgain(ws: seq<World>, steps: seq<Step>, times: seq<int>, i: nat, j: nat, id: Id)
    requires Run(ws, steps, times) && i < j < |steps| && steps[i].GiveUp? && steps[j].TakeBatch?
    requires id in ws[i].rows && ws[i].rows[id].lease == Some(steps[i].token)
    requires forall k :: i < k < j ==> !Touches(steps[k], id, None)
    ensures TakenFrom(ws[j], steps[j].page, times[j], id, times[i] + RetryDelay(steps[i].attempts))
  {
    RunKeeps(ws, steps, times, i);
    assert RowHolds(ws[i], id);
    assert ws[i + 1] == Next(ws[i], steps[i], times[i]);
    RowStays(ws, steps, times, i + 1, j, id);
    PageMeans(ws[j].rows, steps[j].page, times[j]);
  }

  lemma SettledStays(w: World, step: Step, now: int, id: Id, at: int)
    requires Allowed(w, step, now) && id in w.acked && !(step.FinishStream? && step.id == id)
    requires id in w.rows ==> w.rows[id].acceptedAt == Some(at) && w.rows[id].lease.None? && w.rows[id].outcome.Some?
    ensures
      var after := Next(w, step, now);
      && id in after.acked
      && (id in after.rows <==> id in w.rows && !(step.Purge? && step.since > at + 86_400_000))
      && (id in after.rows ==> after.rows[id] == w.rows[id])
  {
    if step.TakeBatch? { PageMeans(w.rows, step.page, now); }
  }

  /**
   * A row whose batch was acknowledged while it was held is marked accepted and
   * its lease is given up; it is never sent again, and it is deleted by the first
   * purge that reaches more than a day past its acceptance.
   */
  lemma {:induction false} AcceptedIsSettled(ws: seq<World>, steps: seq<Step>, times: seq<int>, i: nat, j: nat, id: Id)
    requires Run(ws, steps, times) && i < j < |ws| && steps[i].Accept? && id in ws[i].rows && ws[i].rows[id].lease == Some(steps[i].token)
    requires forall k :: i < k < j ==> !(steps[k].FinishStream? && steps[k].id == id)
    ensures id in ws[j].rows <==> forall k :: i < k < j && steps[k].Purge? ==> steps[k].since <= times[i] + 86_400_000
    ensures id in ws[j].rows ==> ws[j].rows[id] == ws[i].rows[id].(acceptedAt := Some(times[i]), lease := None)
    ensures id in ws[j].acked && (j < |steps| && steps[j].TakeBatch? ==> id !in steps[j].page)
    decreases j
  {
    RunKeeps(ws, steps, times, i);
    assert RowHolds(ws[i], id);
    if i + 1 < j {
      AcceptedIsSettled(ws, steps, times, i, j - 1, id);
      SettledStays(ws[j - 1], steps[j - 1], times[j - 1], id, times[i]);
    }
    assert ws[j] == Next(ws[j - 1], steps[j - 1], times[j - 1]);
    if j < |steps| && steps[j].TakeBatch? { PageMeans(ws[j].rows, steps[j].page, times[j]); }
  }

  /** A call that said nothing for fifteen minutes is closed as incomplete when the outbox is looked through, and only such a call is. */
  lemma SilentIsClosed(ws: seq<World>, steps: seq<Step>, times: seq<int>, i: nat, id: Id)
    requires Run(ws, steps, times) && i < |steps| && steps[i].Recover? && id in ws[i].rows
    ensures id in ws[i + 1].rows
    ensures
      var before, after := ws[i].rows[id], ws[i + 1].rows[id];
      if before.outcome.None? && before.createdAt + 900_000 <= times[i]
      then after == before.(outcome := Some(Incomplete), readyAt := times[i], nextAttemptAt := times[i]) && before.lease.None?
      else after == before
  {
    RunKeeps(ws, steps, times, i);
    assert RowHolds(ws[i], id);
    assert ws[i + 1] == Next(ws[i], steps[i], times[i]);
  }

  /** The outcome of a streamed call that the stream did not acknowledge is in the first batch from two seconds on. */
  lemma StreamedIsTaken(ws: seq<World>, steps: seq<Step>, times: seq<int>, i: nat, j: nat, id: Id)
    requires Run(ws, steps, times) && i < j < |steps| && steps[i].FinishStream? && steps[i].id == id && steps[j].TakeBatch?
    requires steps[i].sent != Acked && steps[i].stored && id !in ws[i].rows
    requires forall k :: i < k < j ==> !Touches(steps[k], id, None)
    ensures TakenFrom(ws[j], steps[j].page, times[j], id, times[i] + 2_000)
    ensures id in steps[j].page ==>
      id in ws[j + 1].flights[steps[j].token].events && ws[j + 1].flights[steps[j].token].events[id] == steps[i].outcome
    ensures id in ws[i].begun && id in ws[i + 1].rows && ws[i + 1].rows[id].createdAt == ws[i].begun[id].startedAt
  {
    assert Allowed(ws[i], steps[i], times[i]);
    assert ws[i + 1] == Next(ws[i], steps[i], times[i]);
    RowStays(ws, steps, times, i + 1, j, id);
    PageMeans(ws[j].rows, steps[j].page, times[j]);
    TakenIsLeased(ws, steps, times, j, id);
  }

  lemma {:induction false} IntentStays(ws: seq<World>, steps: seq<Step>, times: seq<int>, i: nat, j: nat, id: Id)
    requires Run(ws, steps, times) && i < j < |ws| && steps[i].Begin? && steps[i].id == id && steps[i].sent != Acked && steps[i].stored
    requires forall k :: i < k < j ==> !(steps[k].FinishOutbox? && steps[k].id == id) && (steps[k].Recover? ==> times[k] < times[i] + 900_000)
    ensures id in ws[j].rows && ws[j].rows[id] == Row(None, times[i], 0, times[i], 0, None, 0, None)
    decreases j
  {
    assert Allowed(ws[j - 1], steps[j - 1], times[j - 1]) && ws[j] == Next(ws[j - 1], steps[j - 1], times[j - 1]);
    if i + 1 < j {
      IntentStays(ws, steps, times, i, j - 1, id);
      if steps[j - 1].TakeBatch? { PageMeans(ws[j - 1].rows, steps[j - 1].page, times[j - 1]); }
    }
  }

  /** An intent that no outcome followed is closed as incomplete by the first look at it from fifteen minutes on, and not before. */
  lemma IntentIsClosed(ws: seq<World>, steps: seq<Step>, times: seq<int>, i: nat, j: nat, id: Id)
    requires Run(ws, steps, times) && i < j < |steps| && steps[i].Begin? && steps[i].id == id && steps[i].sent != Acked && steps[i].stored
    requires forall k :: i < k < j ==> !(steps[k].FinishOutbox? && steps[k].id == id) && (steps[k].Recover? ==> times[k] < times[i] + 900_000)
    requires steps[j].Recover?
    ensures id in ws[j + 1].rows && ws[j + 1].rows[id].outcome == if times[i] + 900_000 <= times[j] then Some(Incomplete) else None
  {
    IntentStays(ws, steps, times, i, j, id);
    SilentIsClosed(ws, steps, times, j, id);
  }

  // ------------------------------------------------------------------ the code

  class Outbox {
    var rows: map<Id, Row>
    var ingested: set<Event>
    var acked: set<Id>
    var flights: map<Token, Flight>
    var begun: map<Id, Handle>

    function View(): World
      reads this
    {
      World(rows, ingested, acked, flights, begun)
    }

    ghost predicate Valid()
      reads this
    {
      Inv(View()) && FlightsHold(View())
    }

    constructor ()
      ensures Valid() && View() == Start
    {
      rows, ingested, acked, flights, begun := map[], {}, {}, map[], map[];
    }

    /** The stream takes events or not, and its acknowledgement arrives or not. */
    method Send(events: map<Id, Outcome>, sent: Sent) returns (heard: bool)
      modifies `ingested, `acked
      ensures View() == Taken(old(View()), set id | id in events :: Event(id, events[id]), events.Keys, sent)
      ensures heard <==> sent == Acked
    {
      if sent != NotTaken { ingested := ingested + set id | id in events :: Event(id, events[id]); }
      heard := sent == Acked;
      if heard { acked := acked + events.Keys; }
    }

    /** `beginAudit`: the stream first, the outbox when it does not answer, and no call when neither keeps the intent. */
    method BeginAudit(id: Id, sent: Sent, stored: bool, now: int) returns (begins: bool)
      requires Valid() && Allowed(View(), Begin(id, sent, stored), now)
      modifies this
      ensures Valid() && View() == Next(old(View()), Begin(id, sent, stored), now)
      ensures begins <==> id in begun
    {
      BeginKeeps(View(), id, sent, stored, now);
      FlightsKeep(View(), Begin(id, sent, stored), now);
      OneEvent(id, Incomplete);
      var heard := Send(map[id := Incomplete], sent);
      if heard {
        begun := begun[id := Handle(now, true)];
      } else if stored {
        if id !in rows { rows := rows[id := NewRow(None, now, 0, now)]; }
        begun := begun[id := Handle(now, false)];
      }
      begins := heard || stored;
    }

    /** `finishAudit` for a call whose intent the stream took. */
    method FinishStreamIntent(id: Id, outcome: Outcome, sent: Sent, stored: bool, now: int)
      requires Valid() && Allowed(View(), FinishStream(id, outcome, sent, stored), now)
      modifies this
      ensures Valid() && View() == Next(old(View()), FinishStream(id, outcome, sent, stored), now)
    {
      FinishStreamKeeps(View(), id, outcome, sent, stored, now);
      FlightsKeep(View(), FinishStream(id, outcome, sent, stored), now);
      OneEvent(id, outcome);
      var heard := Send(map[id := outcome], sent);
      if !heard && stored && id !in rows {
        rows := rows[id := NewRow(Some(outcome), begun[id].startedAt, now, now + FIRST_RETRY)];
      }
    }

    /** `finishAudit` for a call whose intent is in the outbox. */
    method FinishRow(id: Id, outcome: Outcome, now: int)
      requires Valid() && Allowed(View(), FinishOutbox(id, outcome), now)
      modifies this
      ensures Valid() && View() == Next(old(View()), FinishOutbox(id, outcome), now)
    {
      StepKeeps(View(), FinishOutbox(id, outcome), now);
      FlightsKeep(View(), FinishOutbox(id, outcome), now);
      if id in rows && rows[id].acceptedAt.None? {
        rows := rows[id := rows[id].(outcome := Some(outcome), readyAt := now, nextAttemptAt := now)];
      }
    }

    /** The claim of `flushAuditOutbox`: the rows that were ready first, under a token of their own. */
    method ClaimBatch(token: Token, now: int) returns (page: set<Id>)
      requires Valid() && token !in flights
      modifies this
      ensures IsFirst(Waiting(old(rows), now), page, BATCH)
      ensures Valid() && View() == Next(old(View()), TakeBatch(token, page), now)
    {
      page := SelectFirst(Waiting(rows, now), BATCH);
      TakeKeeps(View(), token, page, now);
      FlightsKeep(View(), TakeBatch(token, page), now);
      var events := map id | id in page && id in rows && rows[id].outcome.Some? :: rows[id].outcome.value;
      rows := map id | id in rows ::
        if id in page then rows[id].(lease := Some(token), leaseUntil := now + LEASE, attempts := rows[id].attempts + 1) else rows[id];
      flights := flights[token := Flight(events, false)];
    }

    /** The send of `flushAuditOutbox`. */
    method SendClaimed(token: Token, sent: Sent, now: int) returns (delivered: bool)
      requires Valid() && token in flights
      modifies this
      ensures Valid() && View() == Next(old(View()), SendBatch(token, sent), now)
      ensures (delivered <==> sent == Acked) && token in flights && (delivered ==> flights[token].acked)
    {
      SendKeeps(View(), token, sent, now);
      FlightsKeep(View(), SendBatch(token, sent), now);
      delivered := Send(flights[token].events, sent);
      if delivered { flights := flights[token := flights[token].(acked := true)]; }
    }

    method AcceptClaimed(token: Token, now: int)
      requires Valid() && Allowed(View(), Accept(token), now)
      modifies this
      ensures Valid() && View() == Next(old(View()), Accept(token), now)
    {
      AcceptKeeps(View(), token, now);
      FlightsKeep(View(), Accept(token), now);
      rows := map id | id in rows ::
        if rows[id].lease == Some(token) then rows[id].(acceptedAt := Some(now), lease := None) else rows[id];
    }

    method Reschedule(token: Token, attempts: nat, now: int)
      requires Valid() && token in flights
      modifies this
      ensures Valid() && View() == Next(old(View()), GiveUp(token, attempts), now)
    {
      StepKeeps(View(), GiveUp(token, attempts), now);
      FlightsKeep(View(), GiveUp(token, attempts), now);
      rows := map id | id in rows ::
        if rows[id].lease == Some(token) then rows[id].(nextAttemptAt := now + RetryDelay(attempts), lease := None) else rows[id];
    }

    /** The rest of `flushAuditOutbox` after its claim: acceptance once the batch is acknowledged, else a later attempt. */
    method Deliver(token: Token, sent: Sent, attempts: nat, now: int, later: int) returns (delivered: bool)
      requires Valid() && token in flights && now <= later
      modifies this
      ensures Valid() && (delivered <==> sent == Acked)
      ensures View() ==
        Next(Next(old(View()), SendBatch(token, sent), now), if sent == Acked then Accept(token) else GiveUp(token, attempts), later)
    {
      delivered := SendClaimed(token, sent, now);
      if delivered { AcceptClaimed(token, later); } else { Reschedule(token, attempts, later); }
    }

    /** `reconcileAuditOutbox` around its flush: rows whose Worker ended are closed as incomplete. */
    method RecoverStale(now: int)
      requires Valid()
      modifies this
      ensures Valid() && View() == Next(old(View()), Recover, now)
    {
      StepKeeps(View(), Recover, now);
      FlightsKeep(View(), Recover, now);
      rows := map id | id in rows ::
        if rows[id].outcome.None? && rows[id].createdAt <= now - STALE
        then rows[id].(outcome := Some(Incomplete), readyAt := now, nextAttemptAt := now) else rows[id];
    }

    method PurgeAccepted(since: int, now: int)
      requires Valid() && since <= now
      modifies this
      ensures Valid() && View() == Next(old(View()), Purge(since), now)
    {
      PurgeKeeps(View(), since, now);
      FlightsKeep(View(), Purge(since), now);
      rows := map id | id in rows && !(rows[id].acceptedAt.Some? && rows[id].acceptedAt.value < since - GRACE) :: rows[id];
    }
  }

  lemma OneEvent(id: Id, outcome: Outcome)
    ensures (set x | x in map[id := outcome] :: Event(x, map[id := outcome][x])) == {Event(id, outcome)}
    ensures map[id := outcome].Keys == {id}
  {
    var events := map[id := outcome];
    assert id in events;
  }
}
