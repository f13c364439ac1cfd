/**
 * The terminal guarantees over whole runs: what a viewer is replayed, who is
 * watching, when the next alarm fires, and how often a ticket can be spent.
 */
module TerminalTheorems {
  import opened Common
  import opened TerminalReplay
  import opened TerminalModel
  import opened TerminalSafety

  /** A run: worlds, the steps between them, and when each step happened; clocks do not run backwards. */
  ghost predicate Behavior(ws: seq<World>, steps: seq<Step>, times: seq<int>) {
    && |ws| == |steps| + 1 && |times| == |steps|
    && ws[0] == Start
    && (forall i :: 0 <= i < |steps| ==> Moves(ws[i], steps[i], times[i], ws[i + 1]))
    && (forall i :: 0 <= i < |times| ==> times[i] >= 0)
    && (forall i, j :: 0 <= i < j < |times| ==> times[i] <= times[j])
  }

  lemma MoveKeeps(w: World, step: Step, now: int, after: World)
    requires Inv(w) && Moves(w, step, now, after)
    ensures Inv(after)
  {
    EffectKeeps(w, step, now);
    AlarmKeeps(World(Effect(w.st, step, now), HistAfter(w, step), SleptAfter(w, step)), after.st.alarm);
  }

  lemma {:induction false} BehaviorKeeps(ws: seq<World>, steps: seq<Step>, times: seq<int>, i: nat)
    requires Behavior(ws, steps, times) && i < |ws|
    ensures Inv(ws[i])
  {
    if i > 0 {
      BehaviorKeeps(ws, steps, times, i - 1);
      MoveKeeps(ws[i - 1], steps[i - 1], times[i - 1], ws[i]);
    }
  }

  /** Memory has lost something of a session exactly when the object slept while it held some. */
  lemma {:induction false} SleptExactly(ws: seq<World>, steps: seq<Step>, times: seq<int>, i: nat, id: SessionId)
    requires Behavior(ws, steps, times) && i < |ws|
    ensures id in ws[i].slept <==> exists k :: 0 <= k < i && steps[k].Hibernate? && id in ws[k].hist && InMemory(ws[k].st, id)
  {
    if i > 0 {
      SleptExactly(ws, steps, times, i - 1, id);
      var k := i - 1;
      assert ws[i].slept == SleptAfter(ws[k], steps[k]);
    }
  }

  /** Where a viewer lands, and what it is handed there. */
  lemma AttachLands(st: State, s: SocketId, t: Target, requested: SessionId, now: int)
    requires s !in st.viewers
    ensures
      var after := Attach(st, s, t, requested, now);
      && LiveAt(after, s, t) && t in after.rows && after.viewers[s].id == after.rows[t].id
      && after.memory[s] == Memory(after.rows[t].buffer, true)
      && Replayed(st, s, t, requested, now) == after.rows[t].buffer.replay
  {
  }

  lemma MoveLands(w: World, step: Step, now: int, after: World)
    requires Moves(w, step, now, after) && step.Attaching? && step.s !in w.st.viewers
    ensures LiveAt(after.st, step.s, step.target) && step.target in after.st.rows && step.s in after.st.memory
    ensures after.st.memory[step.s] == Memory(after.st.rows[step.target].buffer, true)
    ensures Replayed(w.st, step.s, step.target, step.requested, now) == after.st.memory[step.s].buffer.replay
  {
    AttachLands(w.st, step.s, step.target, step.requested, now);
    var attached := Attach(w.st, step.s, step.target, step.requested, now);
    assert after.st == attached.(alarm := after.st.alarm);
    assert LiveAt(attached, step.s, step.target);
  }

  /**
   * What a viewer is replayed when it attaches, over every run: exactly the tail of
   * everything its shell emitted since the session was opened, however often viewers
   * came and went in between, provided the object never slept while memory held
   * something of that very session. It is a contiguous suffix of the output, the
   * longest one of whole chunks that fits in 32 KiB, and never empty unless nothing
   * was emitted.
   */
  lemma ReattachSeesTheTail(ws: seq<World>, steps: seq<Step>, times: seq<int>, i: nat, id: SessionId)
    requires Behavior(ws, steps, times) && i < |steps|
    requires steps[i].Attaching? && steps[i].s !in ws[i].st.viewers
    requires steps[i].target in ws[i + 1].st.rows ==> id == ws[i + 1].st.rows[steps[i].target].id
    requires forall k :: 0 <= k < i && steps[k].Hibernate? && id in ws[k].hist ==> !InMemory(ws[k].st, id)
    ensures TailReplayed(ws[i], steps[i], times[i], ws[i + 1])
  {
    BehaviorKeeps(ws, steps, times, i + 1);
    SleptExactly(ws, steps, times, i + 1, id);
    MoveLands(ws[i], steps[i], times[i], ws[i + 1]);
    AwakeViewersSeeTheTail(ws[i], steps[i], times[i], ws[i + 1]);
  }

  /** What a viewer is replayed is the tail of its session's output. */
  ghost predicate TailReplayed(w: World, step: Step, now: int, after: World)
    requires step.Attaching?
  {
    var replayed := Replayed(w.st, step.s, step.target, step.requested, now);
    && step.target in after.st.rows && after.st.rows[step.target].id in after.hist
    && var output := after.hist[after.st.rows[step.target].id];
       && replayed == Tail(output) && SuffixOf(replayed, output)
       && (output != [] ==> replayed != [])
       && (Sum(replayed) <= MAX_REPLAY || |replayed| == 1)
  }

  lemma AwakeViewersSeeTheTail(w: World, step: Step, now: int, after: World)
    requires Moves(w, step, now, after) && step.Attaching? && step.s !in w.st.viewers && Inv(after)
    requires step.target in after.st.rows ==> after.st.rows[step.target].id !in after.slept
    ensures TailReplayed(w, step, now, after)
  {
    MoveLands(w, step, now, after);
    WatchedHasTail(after, step.s, step.target);
  }

  /** While nothing of its session was lost, a viewer's buffer is the tail of the output. */
  lemma WatchedHasTail(w: World, s: SocketId, t: Target)
    requires Inv(w) && LiveAt(w.st, s, t) && s in w.st.memory && (t in w.st.rows ==> w.st.rows[t].id !in w.slept)
    ensures t in w.st.rows && w.st.rows[t].id in w.hist
    ensures
      var output, replayed := w.hist[w.st.rows[t].id], w.st.memory[s].buffer.replay;
      && replayed == Tail(output) && SuffixOf(replayed, output)
      && (output != [] ==> replayed != [])
      && (Sum(replayed) <= MAX_REPLAY || |replayed| == 1)
  {
    assert BooksAt(w, t);
    FoundAt(w.st, s, t, w.hist.Keys);
    TailIsASuffix(w.hist[w.st.rows[t].id]);
  }

  /**
   * Whatever sleeps intervene, what a viewer is replayed is in order, within
   * bounds, and made only of chunks its shell emitted.
   */
  lemma ReattachSeesNothingOutOfOrder(ws: seq<World>, steps: seq<Step>, times: seq<int>, i: nat)
    requires Behavior(ws, steps, times) && i < |steps|
    requires steps[i].Attaching? && steps[i].s !in ws[i].st.viewers
    ensures InOrderReplayed(ws[i], steps[i], times[i], ws[i + 1])
  {
    BehaviorKeeps(ws, steps, times, i + 1);
    ViewersSeeInOrder(ws[i], steps[i], times[i], ws[i + 1]);
  }

  /** What a viewer is replayed is some of its session's output, in order and within bounds. */
  ghost predicate InOrderReplayed(w: World, step: Step, now: int, after: World)
    requires step.Attaching?
  {
    var replayed := Replayed(w.st, step.s, step.target, step.requested, now);
    && step.target in after.st.rows && after.st.rows[step.target].id in after.hist
    && Subsequence(replayed, after.hist[after.st.rows[step.target].id])
    && (Sum(replayed) <= MAX_REPLAY || |replayed| <= 1)
  }

  lemma ViewersSeeInOrder(w: World, step: Step, now: int, after: World)
    requires Moves(w, step, now, after) && step.Attaching? && step.s !in w.st.viewers && Inv(after)
    ensures InOrderReplayed(w, step, now, after)
  {
    MoveLands(w, step, now, after);
    WatchedInOrder(after, step.s, step.target);
  }

  lemma WatchedInOrder(w: World, s: SocketId, t: Target)
    requires Inv(w) && LiveAt(w.st, s, t) && s in w.st.memory && w.st.memory[s].seeded
    ensures t in w.st.rows && w.st.rows[t].id in w.hist
    ensures Subsequence(w.st.memory[s].buffer.replay, w.hist[w.st.rows[t].id]) && Sound(w.st.memory[s].buffer)
  {
    assert BooksAt(w, t);
    FoundAt(w.st, s, t, w.hist.Keys);
  }

  /** The session at a target that is already stored is the one a newcomer joins; only an empty target opens its own. */
  lemma AttachJoinsOrOpens(ws: seq<World>, steps: seq<Step>, times: seq<int>, i: nat)
    requires Behavior(ws, steps, times) && i < |steps|
    requires steps[i].Attaching? && steps[i].s !in ws[i].st.viewers
    ensures
      var Attaching(s, t, requested) := steps[i];
      && t in ws[i + 1].st.rows
      && ws[i + 1].st.rows[t].id == if t in ws[i].st.rows then ws[i].st.rows[t].id else requested
  {
    var Attaching(s, t, requested) := steps[i];
    var w := ws[i];
    BehaviorKeeps(ws, steps, times, i);
    NobodyAt(w.st, t);
    var previous := LiveTarget(w.st, t);
    if previous.Some? {
      PersistShape(w.st, w.hist.Keys, previous.value, t, SettleViewer(w.st, previous.value));
      var w1 := Persist(SettleViewer(w.st, previous.value), previous.value, w.st.viewers[previous.value]);
      FlushShape(w1, w.hist.Keys, t, times[i]);
    } else if t in w.st.rows {
      FlushShape(w.st, w.hist.Keys, t, times[i]);
    }
  }

  /** At every moment a target has at most one live viewer, and a live viewer shows the session stored there. */
  lemma NewestViewerWins(ws: seq<World>, steps: seq<Step>, times: seq<int>, i: nat, s: SocketId, u: SocketId)
    requires Behavior(ws, steps, times) && i < |ws|
    requires Live(ws[i].st, s) && Live(ws[i].st, u) && ws[i].st.viewers[s].target == ws[i].st.viewers[u].target
    ensures s == u
    ensures
      var v := ws[i].st.viewers[s];
      v.target in ws[i].st.rows && ws[i].st.rows[v.target].id == v.id
  {
    BehaviorKeeps(ws, steps, times, i);
    assert LiveAt(ws[i].st, s, ws[i].st.viewers[s].target) && LiveAt(ws[i].st, u, ws[i].st.viewers[s].target);
  }

  // ------------------------------------------------------------------ alarms

  /** Activity is never in the future. */
  ghost predicate Past(st: State, now: int) {
    && (forall s :: Live(st, s) ==> st.viewers[s].lastActivityAt <= now)
    && (forall t :: t in st.rows ==> st.rows[t].lastActivityAt <= now)
    && (forall id :: id in st.pending ==> st.pending[id].lastActivityAt <= now)
    && (forall id :: id in st.touched ==> st.touched[id] <= now)
  }

  /** The alarm covers every deadline: it fires by then, or within a second of when it was set. */
  ghost predicate Covered(st: State, armedAt: int) {
    forall d :: Due(st, d) ==> st.alarm.Some? && (st.alarm.value <= d || st.alarm.value <= armedAt + 1_000)
  }

  /** Under one session there is one viewer, and it sits at the session's target. */
  lemma SessionIsTarget(st: State, ids: set<SessionId>, t: Target)
    requires Shape(st, ids) && t in st.rows
    ensures LiveSession(st, st.rows[t].id) == LiveTarget(st, t)
  {
    var byId, byTarget := LiveSession(st, st.rows[t].id), LiveTarget(st, t);
    if byId.Some? { assert LiveAt(st, byId.value, st.viewers[byId.value].target); }
    if byTarget.Some? { assert LiveAt(st, byTarget.value, t); }
  }

  /** Whoever is live in the later state was, and nobody is thought less recently active. */
  ghost predicate Ages(a: State, b: State) {
    && (forall s :: Live(b, s) ==>
          Live(a, s) && b.viewers[s].id == a.viewers[s].id && b.viewers[s].target == a.viewers[s].target
          && b.viewers[s].startedAt == a.viewers[s].startedAt && a.viewers[s].lastActivityAt <= b.viewers[s].lastActivityAt)
    && (forall t :: t in b.rows ==>
          t in a.rows && b.rows[t].id == a.rows[t].id && b.rows[t].startedAt == a.rows[t].startedAt
          && a.rows[t].lastActivityAt <= b.rows[t].lastActivityAt)
    && (forall s :: Live(a, s) && a.viewers[s].target in b.rows ==> Live(b, s))
    && (forall k :: k in b.tickets ==> k in a.tickets && a.tickets[k] == b.tickets[k])
  }

  lemma RowAges(a: State, b: State, ids: set<SessionId>, t: Target)
    requires Shape(a, ids) && Shape(b, ids) && Ages(a, b) && t in b.rows
    ensures t in a.rows && LastActivity(a, a.rows[t]) <= LastActivity(b, b.rows[t])
  {
    SessionIsTarget(a, ids, t);
    SessionIsTarget(b, ids, t);
    var l := LiveTarget(a, t);
    if l.Some? {
      assert Live(b, l.value);
      assert LiveAt(b, l.value, t);
      FoundAt(b, l.value, t, ids);
    }
  }

  /** Deadlines other than the queue's only move later or go away. */
  lemma DueAges(a: State, b: State, ids: set<SessionId>, d: int)
    requires Shape(a, ids) && Shape(b, ids) && Ages(a, b) && Due(b, d)
    requires forall id :: id in b.pending ==> d != TouchedAt(b, id) + TOUCH || (id in a.pending && TouchedAt(a, id) == TouchedAt(b, id))
    ensures exists e :: Due(a, e) && e <= d
  {
    if s :| Live(b, s) && (d == b.viewers[s].lastActivityAt + IDLE || d == b.viewers[s].startedAt + LIFETIME) {
      var e := if d == b.viewers[s].startedAt + LIFETIME then d else a.viewers[s].lastActivityAt + IDLE;
      assert Live(a, s) && (e == a.viewers[s].lastActivityAt + IDLE || e == a.viewers[s].startedAt + LIFETIME);
      assert Due(a, e);
    } else if t :| t in b.rows && (d == LastActivity(b, b.rows[t]) + IDLE || d == b.rows[t].startedAt + LIFETIME) {
      RowAges(a, b, ids, t);
      var e := if d == b.rows[t].startedAt + LIFETIME then d else LastActivity(a, a.rows[t]) + IDLE;
      assert t in a.rows && (e == LastActivity(a, a.rows[t]) + IDLE || e == a.rows[t].startedAt + LIFETIME);
      assert Due(a, e);
    } else if id :| id in b.pending && d == TouchedAt(b, id) + TOUCH {
      assert id in a.pending && d == TouchedAt(a, id) + TOUCH;
      assert Due(a, d);
    } else {
      var k :| k in b.tickets && d == b.tickets[k].expiresAt;
      assert k in a.tickets && d == a.tickets[k].expiresAt;
      assert Due(a, d);
    }
  }

  lemma DueIgnoresAlarm(st: State, ids: set<SessionId>, alarm: Option<int>, d: int)
    requires Shape(st, ids)
    ensures Due(st.(alarm := alarm), d) <==> Due(st, d)
  {
    var after := st.(alarm := alarm);
    assert forall s :: Live(after, s) <==> Live(st, s);
    forall t | t in st.rows ensures LastActivity(after, st.rows[t]) == LastActivity(st, st.rows[t]) {
      AlarmActivity(st, ids, alarm, t);
    }
  }

  lemma ScheduleCovers(st: State, ids: set<SessionId>, alarm: Option<int>, now: int)
    requires Shape(st, ids) && Scheduled(st, alarm, now)
    ensures Covered(st.(alarm := alarm), now)
  {
    forall d | Due(st.(alarm := alarm), d) ensures alarm.Some? && (alarm.value <= d || alarm.value <= now + 1_000) {
      DueIgnoresAlarm(st, ids, alarm, d);
    }
  }

  /** Without a new deadline the old alarm still covers. */
  lemma AgesCovers(a: State, b: State, ids: set<SessionId>, armedAt: int)
    requires Shape(a, ids) && Shape(b, ids) && Ages(a, b) && Covered(a, armedAt) && b.alarm == a.alarm
    requires forall id :: id in b.pending ==> id in a.pending && TouchedAt(a, id) == TouchedAt(b, id)
    ensures Covered(b, armedAt)
  {
    forall d | Due(b, d) ensures b.alarm.Some? && (b.alarm.value <= d || b.alarm.value <= armedAt + 1_000) {
      DueAges(a, b, ids, d);
      var e :| Due(a, e) && e <= d;
    }
  }

  /** Whether a step sets the alarm, rather than leaving the one that is pending. */
  ghost predicate Arms(st: State, step: Step, now: int, after: State) {
    Schedules(st, step, now) || WritesThrough(st, step, now) || (ArmsWindow(st, step, now) && after.alarm != st.alarm)
  }

  lemma ForgetAges(w: World, id: SessionId)
    requires Inv(w)
    ensures
      var live := LiveSession(w.st, id);
      Calm(w.st, Forget(if live.Some? then SettleViewer(w.st, live.value) else w.st, id))
  {
    ForgetEnds(w, id);
    var live := LiveSession(w.st, id);
    var settled := if live.Some? then SettleViewer(w.st, live.value) else w.st;
    ForgetClock(settled, id);
    EndsAge(w.st, w.hist.Keys, Forget(settled, id), {id});
  }

  lemma EndsAge(st: State, ids: set<SessionId>, after: State, gone: set<SessionId>)
    requires Shape(st, ids) && Ends(st, after, gone) && after.tickets == st.tickets && after.touched == st.touched - gone
    ensures Calm(st, after)
  {
    forall s | Live(st, s) && st.viewers[s].target in after.rows ensures Live(after, s) {
      assert LiveAt(st, s, st.viewers[s].target);
    }
  }

  /** Nothing is younger than it was, and nothing new is queued. */
  ghost predicate Calm(a: State, b: State) {
    && Ages(a, b)
    && forall k :: k in b.pending ==> k in a.pending && TouchedAt(a, k) == TouchedAt(b, k)
  }

  lemma HeardCalm(st: State, s: SocketId, memory: map<SocketId, Memory>, now: int)
    requires Live(st, s) && Past(st, now)
    ensures Calm(st, st.(viewers := st.viewers[s := st.viewers[s].(lastActivityAt := now)], memory := memory))
  {
  }

  lemma LeftCalm(st: State, s: SocketId)
    requires AttachedViewer(st, s) && st.viewers[s].settled
    ensures Calm(st, st.(sockets := Without(st.sockets, s)))
  {
  }

  lemma LostCalm(st: State)
    requires forall s :: s in st.sockets ==> s in st.viewers
    ensures Calm(st, ForgetAll(FailViewers(st)))
  {
  }

  lemma SleepCalm(st: State)
    ensures Calm(st, Forgetful(st))
  {
  }

  lemma QueuedCalm(w: World, id: SessionId, chunk: string, now: int)
    requires Inv(w) && Past(w.st, now) && id in w.st.pending && now - TouchedAt(w.st, id) < TOUCH
    ensures Calm(w.st, Touch(w.st, id, chunk, now))
  {
  }

  /** The quiet steps: none of them brings a deadline nearer. */
  lemma QuietStepAges(w: World, step: Step, now: int)
    requires Inv(w) && Past(w.st, now)
    requires !Schedules(w.st, step, now) && !WritesThrough(w.st, step, now) && !ArmsWindow(w.st, step, now)
    ensures Calm(w.st, Effect(w.st, step, now))
  {
    match step
    case Exited(id) => ForgetAges(w, id);
    case Closing(s) => if Live(w.st, s) { OneViewer(w, s); ForgetAges(w, w.st.viewers[s].id); }
    case Emitted(id, chunk) => EmittedCalm(w, id, chunk, now);
    case Typed(s) => if Live(w.st, s) { HeardCalm(w.st, s, w.st.memory, now); }
    case Leaving(s, _) => if AttachedViewer(w.st, s) { LeftCalm(w.st, s); }
    case LostExecutor => LostCalm(w.st);
    case Hibernate => SleepCalm(w.st);
    case Attaching(_, _, _) =>
    case Issue(_, _) =>
  }

  lemma EmittedCalm(w: World, id: SessionId, chunk: string, now: int)
    requires Inv(w) && Past(w.st, now)
    requires !WritesThrough(w.st, Emitted(id, chunk), now) && !ArmsWindow(w.st, Emitted(id, chunk), now)
    ensures Calm(w.st, Output(w.st, id, chunk, now))
  {
    var live := LiveSession(w.st, id);
    if live.Some? {
      HeardCalm(w.st, live.value, Record(w.st.memory, live.value, chunk), now);
    } else if id in w.st.pending {
      QueuedCalm(w, id, chunk, now);
    }
  }

  lemma WindowCovers(w: World, step: Step, now: int, after: State, armedAt: int)
    requires Inv(w) && Past(w.st, now) && Covered(w.st, armedAt) && armedAt <= now
    requires ArmsWindow(w.st, step, now) && Next(w.st, step, now, after) && Shape(after, w.hist.Keys)
    ensures Covered(after, if after.alarm != w.st.alarm then now else armedAt)
  {
    var id := step.id;
    var t := Row(w.st, id);
    LiveIsThere(w, id);
    TouchDoes(w.st, w.hist.Keys, t, step.chunk, now);
    var due := TouchedAt(w.st, id) + TOUCH;
    WindowAges(w, id, t, step.chunk, now);
    forall d | Due(after, d)
      ensures after.alarm.Some? && (after.alarm.value <= d || after.alarm.value <= (if after.alarm != w.st.alarm then now else armedAt) + 1_000)
    {
      if d != due {
        DueIgnoresAlarm(after, w.hist.Keys, w.st.alarm, d);
        WindowDue(w, id, t, step.chunk, now, d);
        var e :| Due(w.st, e) && e <= d;
      }
    }
  }

  /** Queueing for the first time adds one deadline only, the end of the window. */
  lemma WindowDue(w: World, id: SessionId, t: Target, chunk: string, now: int, d: int)
    requires Inv(w) && Past(w.st, now) && LiveSession(w.st, id).None? && id !in w.st.pending && HasRow(w.st, id) && t == Row(w.st, id)
    requires now - TouchedAt(w.st, id) < TOUCH && d != TouchedAt(w.st, id) + TOUCH && Due(Touch(w.st, id, chunk, now), d)
    ensures exists e :: Due(w.st, e) && e <= d
  {
    LiveIsThere(w, id);
    TouchShape(w.st, w.hist.Keys, t, chunk, now);
    WindowAges(w, id, t, chunk, now);
    DueAges(w.st, Touch(w.st, id, chunk, now), w.hist.Keys, d);
  }

  lemma WindowAges(w: World, id: SessionId, t: Target, chunk: string, now: int)
    requires Inv(w) && id !in w.st.pending && HasRow(w.st, id) && t == Row(w.st, id) && now - TouchedAt(w.st, id) < TOUCH
    ensures
      var after := Touch(w.st, id, chunk, now);
      && Ages(w.st, after) && after.touched == w.st.touched && after.pending.Keys == w.st.pending.Keys + {id}
      && after.viewers == w.st.viewers && after.sockets == w.st.sockets
  {
  }

  lemma MoveCovers(w: World, step: Step, now: int, after: World, armedAt: int)
    requires Inv(w) && Moves(w, step, now, after) && Past(w.st, now) && Covered(w.st, armedAt) && armedAt <= now
    ensures Covered(after.st, if Arms(w.st, step, now, after.st) then now else armedAt)
  {
    EffectKeeps(w, step, now);
    MoveKeeps(w, step, now, after);
    var effect := Effect(w.st, step, now);
    if Schedules(w.st, step, now) || WritesThrough(w.st, step, now) {
      ScheduleCovers(effect, after.hist.Keys, after.st.alarm, now);
      assert after.st == effect.(alarm := after.st.alarm);
    } else if ArmsWindow(w.st, step, now) {
      assert after.hist.Keys == w.hist.Keys;
      WindowCovers(w, step, now, after.st, armedAt);
    } else {
      QuietStepAges(w, step, now);
      assert after.st.alarm == w.st.alarm && effect == after.st by { EffectLeavesAlarm(w.st, step, now); }
      QuietShape(w, step, now, after);
      AgesCovers(w.st, after.st, w.hist.Keys + after.hist.Keys, armedAt);
    }
  }

  /** Neither the alarm nor a ticket is touched. */
  predicate SameClock(a: State, b: State) {
    b.alarm == a.alarm && b.tickets == a.tickets
  }

  lemma PersistClock(st: State, s: SocketId, v: Viewer)
    ensures SameClock(st, Persist(st, s, v))
  {
  }

  lemma TouchClock(st: State, id: SessionId, chunk: string, now: int)
    ensures SameClock(st, Touch(st, id, chunk, now))
  {
  }

  lemma ForgetClock(st: State, id: SessionId)
    ensures SameClock(st, Forget(st, id))
  {
  }

  lemma AttachClock(st: State, s: SocketId, target: Target, requested: SessionId, now: int)
    ensures SameClock(st, Attach(st, s, target, requested, now))
  {
    var previous := LiveTarget(st, target);
    if previous.Some? { PersistClock(SettleViewer(st, previous.value), previous.value, st.viewers[previous.value]); }
    assert SameClock(st, Detached(st, target));
  }

  lemma ExitClock(st: State, id: SessionId)
    ensures SameClock(st, Exit(st, id))
  {
    var live := LiveSession(st, id);
    ForgetClock(if live.Some? then SettleViewer(st, live.value) else st, id);
  }

  lemma CloseClock(st: State, target: Target)
    ensures SameClock(st, CloseTarget(st, target))
  {
    var live := LiveTarget(st, target);
    var settled := if live.Some? then SettleViewer(st, live.value) else st;
    if target in settled.rows { ForgetClock(settled, settled.rows[target].id); }
    if live.Some? { ForgetClock(settled, st.viewers[live.value].id); }
  }

  lemma EffectClock(st: State, step: Step, now: int)
    requires !step.Issue? && !step.Consume? && !step.Alarm?
    ensures SameClock(st, Effect(st, step, now))
  {
    match step
    case Attaching(s, target, requested) => AttachClock(st, s, target, requested, now);
    case Emitted(id, chunk) => TouchClock(st, id, chunk, now);
    case Exited(id) => ExitClock(st, id);
    case Closing(s) => if Live(st, s) { ForgetClock(SettleViewer(st, s), st.viewers[s].id); }
    case Leaving(s, _) =>
      if AttachedViewer(st, s) { PersistClock(st.(sockets := Without(st.sockets, s)), s, st.viewers[s]); }
    case CloseAt(target) => CloseClock(st, target);
    case _ =>
  }

  lemma EffectLeavesAlarm(st: State, step: Step, now: int)
    ensures Effect(st, step, now).alarm == st.alarm
  {
    if !step.Issue? && !step.Consume? && !step.Alarm? { EffectClock(st, step, now); }
  }

  lemma QuietShape(w: World, step: Step, now: int, after: World)
    requires Inv(w) && Inv(after)
    ensures Shape(w.st, w.hist.Keys + after.hist.Keys) && Shape(after.st, w.hist.Keys + after.hist.Keys)
  {
  }

  lemma PersistPast(st: State, s: SocketId, v: Viewer, now: int)
    requires Past(st, now) && v.lastActivityAt <= now
    ensures Past(Persist(st, s, v), now)
  {
    var after := Persist(st, s, v);
    assert after.sockets == st.sockets && after.viewers == st.viewers;
    assert forall s :: Live(after, s) ==> Live(st, s);
    if HasRow(st, v.id) { assert st.rows[Row(st, v.id)].lastActivityAt <= now; }
  }

  lemma FlushPast(st: State, id: SessionId, now: int)
    requires Past(st, now)
    ensures Past(Flush(st, id, now), now)
  {
    assert forall s :: Live(Flush(st, id, now), s) ==> Live(st, s);
  }

  lemma TouchPast(st: State, id: SessionId, chunk: string, now: int)
    requires Past(st, now)
    ensures Past(Touch(st, id, chunk, now), now)
  {
    if id in st.pending || HasRow(st, id) {
      var held := if id in st.pending then st.pending[id] else st.rows[Row(st, id)];
      var queued := st.(pending := st.pending[id := Grown(held, chunk, now)]);
      assert forall s :: Live(queued, s) ==> Live(st, s);
      FlushPast(queued, id, now);
    }
  }

  lemma ForgetPast(st: State, id: SessionId, now: int)
    requires Past(st, now)
    ensures Past(Forget(st, id), now)
  {
    assert forall s :: Live(Forget(st, id), s) ==> Live(st, s);
  }

  lemma SettlePast(st: State, s: SocketId, now: int)
    requires Past(st, now) && s in st.viewers
    ensures Past(SettleViewer(st, s), now)
  {
  }

  lemma SeatPast(st: State, s: SocketId, t: Target, row: Session, now: int)
    requires Past(st, now) && row.lastActivityAt <= now
    ensures Past(Seat(st, s, t, row), now)
  {
    assert forall u :: Live(Seat(st, s, t, row), u) && u != s ==> Live(st, u);
  }

  lemma DetachPast(st: State, target: Target, now: int)
    requires Past(st, now)
    ensures
      var previous := LiveTarget(st, target);
      Past(if previous.None? then st
           else Persist(SettleViewer(st, previous.value), previous.value, st.viewers[previous.value]), now)
  {
    var previous := LiveTarget(st, target);
    if previous.Some? {
      SettlePast(st, previous.value, now);
      PersistPast(SettleViewer(st, previous.value), previous.value, st.viewers[previous.value], now);
    }
  }

  lemma AttachPast(st: State, s: SocketId, target: Target, requested: SessionId, now: int)
    requires Past(st, now)
    ensures Past(Attach(st, s, target, requested, now), now)
  {
    DetachPast(st, target, now);
    var previous := LiveTarget(st, target);
    var detached := if previous.None? then st
                    else Persist(SettleViewer(st, previous.value), previous.value, st.viewers[previous.value]);
    SeatedPast(detached, s, target, requested, now);
  }

  lemma SeatedPast(detached: State, s: SocketId, target: Target, requested: SessionId, now: int)
    requires Past(detached, now)
    ensures
      var flushed := if target in detached.rows then Flush(detached, detached.rows[target].id, now) else detached;
      var row := if target in flushed.rows then flushed.rows[target].(lastActivityAt := now)
                 else Session(requested, target, now, now, EMPTY);
      Past(Seat(flushed, s, target, row), now)
  {
    if target in detached.rows { FlushPast(detached, detached.rows[target].id, now); }
    var flushed := if target in detached.rows then Flush(detached, detached.rows[target].id, now) else detached;
    var row := if target in flushed.rows then flushed.rows[target].(lastActivityAt := now)
               else Session(requested, target, now, now, EMPTY);
    SeatPast(flushed, s, target, row, now);
  }

  lemma FlushAllPast(st: State, now: int)
    requires Past(st, now)
    ensures Past(FlushAll(st, now), now)
  {
    assert forall s :: Live(FlushAll(st, now), s) ==> Live(st, s);
  }

  lemma DropPast(st: State, now: int)
    requires Past(st, now)
    ensures Past(DropExpired(st, now), now)
  {
    assert forall s :: Live(DropExpired(st, now), s) ==> Live(st, s);
  }

  lemma ExitPast(st: State, id: SessionId, now: int)
    requires Past(st, now)
    ensures Past(Exit(st, id), now)
  {
    var live := LiveSession(st, id);
    if live.Some? { SettlePast(st, live.value, now); }
    ForgetPast(if live.Some? then SettleViewer(st, live.value) else st, id, now);
  }

  lemma CloseTargetPast(st: State, target: Target, now: int)
    requires Past(st, now)
    ensures Past(CloseTarget(st, target), now)
  {
    var live := LiveTarget(st, target);
    var settled := if live.Some? then SettleViewer(st, live.value) else st;
    if live.Some? { SettlePast(st, live.value, now); ForgetPast(settled, st.viewers[live.value].id, now); }
    if target in settled.rows { ForgetPast(settled, settled.rows[target].id, now); }
  }

  lemma GonePast(st: State, s: SocketId, now: int)
    requires Past(st, now) && AttachedViewer(st, s)
    ensures Past(Gone(st, s), now)
  {
    var left := st.(sockets := Without(st.sockets, s));
    assert forall u :: Live(left, u) ==> Live(st, u);
    assert Past(left, now);
    if !st.viewers[s].settled { PersistPast(left, s, st.viewers[s], now); }
  }

  lemma FailPast(st: State, now: int)
    ensures Past(ForgetAll(FailViewers(st)), now)
  {
  }

  lemma OutputPast(st: State, id: SessionId, chunk: string, now: int)
    requires Past(st, now)
    ensures Past(Output(st, id, chunk, now), now)
  {
    if LiveSession(st, id).None? { TouchPast(st, id, chunk, now); }
  }

  lemma EffectPast(st: State, step: Step, now: int)
    requires Past(st, now)
    ensures Past(Effect(st, step, now), now)
  {
    match step
    case Attaching(s, target, requested) => if s !in st.viewers { AttachPast(st, s, target, requested, now); }
    case Emitted(id, chunk) => OutputPast(st, id, chunk, now);
    case Exited(id) => ExitPast(st, id, now);
    case Typed(s) =>
    case Closing(s) => if Live(st, s) { SettlePast(st, s, now); ForgetPast(SettleViewer(st, s), st.viewers[s].id, now); }
    case Leaving(s, _) => if AttachedViewer(st, s) { GonePast(st, s, now); }
    case Alarm => FlushAllPast(st, now); DropPast(FlushAll(st, now), now);
    case CloseAt(target) => CloseTargetPast(st, target, now);
    case NewExecutor => FailPast(st, now);
    case LostExecutor => FailPast(st, now);
    case Issue(_, _) =>
    case Consume(_, _) =>
    case Hibernate =>
  }

  lemma MovePast(w: World, step: Step, now: int, after: World)
    requires Moves(w, step, now, after) && Past(w.st, now)
    ensures Past(after.st, now)
  {
    EffectPast(w.st, step, now);
    AlarmPast(Effect(w.st, step, now), after.st.alarm, now);
  }

  lemma AlarmPast(st: State, alarm: Option<int>, now: int)
    requires Past(st, now)
    ensures Past(st.(alarm := alarm), now)
  {
    assert forall s :: Live(st.(alarm := alarm), s) ==> Live(st, s);
  }

  lemma NothingDueAtStart()
    ensures Covered(Init, 0)
  {
    assert forall d :: !Due(Init, d);
  }

  /** When the alarm that is pending at a moment of a run was set. */
  ghost function ArmedAt(ws: seq<World>, steps: seq<Step>, times: seq<int>, i: nat): int
    requires Behavior(ws, steps, times) && i < |ws|
  {
    if i == 0 then 0
    else if Arms(ws[i - 1].st, steps[i - 1], times[i - 1], ws[i].st) then times[i - 1]
    else ArmedAt(ws, steps, times, i - 1)
  }

  lemma {:induction false} ArmedBefore(ws: seq<World>, steps: seq<Step>, times: seq<int>, i: nat, k: nat)
    requires Behavior(ws, steps, times) && i < |ws| && i <= k < |times|
    ensures ArmedAt(ws, steps, times, i) <= times[k]
  {
    if i > 0 {
      ArmedBefore(ws, steps, times, i - 1, k);
      assert times[i - 1] <= times[k];
    }
  }

  lemma {:induction false} NothingInTheFuture(ws: seq<World>, steps: seq<Step>, times: seq<int>, i: nat, k: nat)
    requires Behavior(ws, steps, times) && i < |ws| && i <= k < |times|
    ensures Past(ws[i].st, times[k])
  {
    if i > 0 {
      NothingInTheFuture(ws, steps, times, i - 1, i - 1);
      MovePast(ws[i - 1], steps[i - 1], times[i - 1], ws[i]);
      LaterPast(ws[i].st, times[i - 1], times[k]);
    }
  }

  lemma LaterPast(st: State, now: int, later: int)
    requires Past(st, now) && now <= later
    ensures Past(st, later)
  {
  }

  /**
   * After every step an alarm is pending no later than the earliest deadline of a
   * viewer, a session, queued output or a ticket, or one second after it was set.
   */
  lemma {:induction false} DeadlinesAreCovered(ws: seq<World>, steps: seq<Step>, times: seq<int>, i: nat)
    requires Behavior(ws, steps, times) && i < |ws|
    ensures Covered(ws[i].st, ArmedAt(ws, steps, times, i))
  {
    if i == 0 {
      NothingDueAtStart();
    } else {
      DeadlinesAreCovered(ws, steps, times, i - 1);
      StillCovered(ws, steps, times, i - 1, ArmedAt(ws, steps, times, i - 1));
    }
  }

  lemma StillCovered(ws: seq<World>, steps: seq<Step>, times: seq<int>, i: nat, armedAt: int)
    requires Behavior(ws, steps, times) && i < |steps| && armedAt == ArmedAt(ws, steps, times, i) && Covered(ws[i].st, armedAt)
    ensures Covered(ws[i + 1].st, if Arms(ws[i].st, steps[i], times[i], ws[i + 1].st) then times[i] else armedAt)
  {
    BehaviorKeeps(ws, steps, times, i);
    ArmedBefore(ws, steps, times, i, i);
    NothingInTheFuture(ws, steps, times, i, i);
    MoveCovers(ws[i], steps[i], times[i], ws[i + 1], armedAt);
  }

  /** Right after an alarm nothing stored is past its idle or its total lifetime, and no ticket is past its time. */
  lemma AlarmLeavesNothingOverdue(ws: seq<World>, steps: seq<Step>, times: seq<int>, i: nat, t: Target)
    requires Behavior(ws, steps, times) && i < |steps| && steps[i].Alarm?
    requires t in ws[i + 1].st.rows
    ensures
      var st := ws[i + 1].st;
      && times[i] - LastActivity(st, st.rows[t]) < IDLE
      && times[i] - st.rows[t].startedAt < LIFETIME
      && forall k :: k in st.tickets ==> st.tickets[k].expiresAt >= times[i]
  {
    BehaviorKeeps(ws, steps, times, i);
    AlarmMoves(ws[i], times[i], ws[i + 1]);
    ExpiryLeaves(ws[i], times[i], ws[i + 1].st.alarm, t);
  }

  lemma AlarmMoves(w: World, now: int, after: World)
    requires Moves(w, Alarm, now, after)
    ensures after.st == Expire(w.st, now).(alarm := after.st.alarm)
  {
  }

  lemma ExpiryLeaves(w: World, now: int, alarm: Option<int>, t: Target)
    requires Inv(w) && t in Expire(w.st, now).rows
    ensures
      var st := Expire(w.st, now).(alarm := alarm);
      && now - LastActivity(st, st.rows[t]) < IDLE && now - st.rows[t].startedAt < LIFETIME
      && forall k :: k in st.tickets ==> st.tickets[k].expiresAt >= now
  {
    var flushed := FlushAll(w.st, now);
    var dropped := DropExpired(flushed, now);
    FlushAllShape(w.st, w.hist.Keys, now);
    ExpireEnds(flushed, w.hist.Keys, now);
    EndShape(flushed, w.hist.Keys, dropped, ExpiredIds(flushed, now));
    SurvivorActivity(flushed, w.hist.Keys, now, t);
    AlarmActivity(dropped, w.hist.Keys, alarm, t);
    assert forall k :: k in dropped.tickets ==> dropped.tickets[k].expiresAt >= now;
  }

  lemma SurvivorActivity(flushed: State, ids: set<SessionId>, now: int, t: Target)
    requires Shape(flushed, ids) && t in DropExpired(flushed, now).rows
    ensures t in flushed.rows && !Expired(flushed, flushed.rows[t], now)
    ensures DropExpired(flushed, now).rows[t] == flushed.rows[t]
    ensures LastActivity(DropExpired(flushed, now), flushed.rows[t]) == LastActivity(flushed, flushed.rows[t])
  {
    var dropped := DropExpired(flushed, now);
    ExpireEnds(flushed, ids, now);
    EndShape(flushed, ids, dropped, ExpiredIds(flushed, now));
    SessionIsTarget(flushed, ids, t);
    SessionIsTarget(dropped, ids, t);
    GoneIs(flushed, ids, now, t);
    forall s ensures LiveAt(flushed, s, t) <==> LiveAt(dropped, s, t) {
    }
    SameLive(flushed, dropped, t, ids);
  }

  lemma AlarmActivity(st: State, ids: set<SessionId>, alarm: Option<int>, t: Target)
    requires Shape(st, ids) && t in st.rows
    ensures LastActivity(st.(alarm := alarm), st.rows[t]) == LastActivity(st, st.rows[t])
  {
    var after := st.(alarm := alarm);
    assert SameSeats(st, after);
    SameShape(st, after, ids, ids);
    SessionIsTarget(st, ids, t);
    SessionIsTarget(after, ids, t);
    SameLive(st, after, t, ids);
  }

  // ----------------------------------------------------------------- tickets

  /** What `consumeTerminalTicket` answers. */
  predicate Granted(st: State, token: Token, scope: string, now: int) {
    token in st.tickets && st.tickets[token].scope == scope && st.tickets[token].expiresAt >= now
  }

  /** A token that is not there only comes back by being issued. */
  lemma {:induction false} TicketsDoNotReturn(ws: seq<World>, steps: seq<Step>, times: seq<int>, i: nat, j: nat, token: Token)
    requires Behavior(ws, steps, times) && i <= j < |ws| && token !in ws[i].st.tickets
    requires forall k, scope :: i <= k < j ==> steps[k] != Issue(token, scope)
    ensures token !in ws[j].st.tickets
    decreases j - i
  {
    if i < j {
      TicketsDoNotReturn(ws, steps, times, i, j - 1, token);
      if token in ws[j].st.tickets { OnlyIssueAdds(ws[j - 1].st, steps[j - 1], times[j - 1], token); }
    }
  }

  lemma OnlyIssueAdds(st: State, step: Step, now: int, token: Token)
    requires token !in st.tickets && token in Effect(st, step, now).tickets
    ensures step.Issue? && step.token == token
  {
    if !step.Issue? && !step.Consume? && !step.Alarm? { EffectClock(st, step, now); }
  }

  /**
   * A ticket is spent once: asking removes it whether or not it is granted, so two
   * grants of one token have an issue of that token between them, and each grant
   * was for the scope it was issued for, within thirty seconds.
   */
  lemma TicketsAreSpentOnce(ws: seq<World>, steps: seq<Step>, times: seq<int>, i: nat, j: nat, token: Token)
    requires Behavior(ws, steps, times) && i < j < |steps|
    requires steps[i].Consume? && steps[j].Consume? && steps[i].token == token == steps[j].token
    requires Granted(ws[j].st, token, steps[j].scope, times[j])
    ensures exists k, scope :: i < k < j && steps[k] == Issue(token, scope)
  {
    if forall k, scope :: i < k < j ==> steps[k] != Issue(token, scope) {
      TicketsDoNotReturn(ws, steps, times, i + 1, j, token);
    }
  }

  // --------------------------------------------------------- one relay's queue

  /** On a relay alone in its isolate whatever is queued is stored there, so a flush stores no session anew. */
  lemma FlushesStayHome(ws: seq<World>, steps: seq<Step>, times: seq<int>, i: nat, id: SessionId, now: int)
    requires Behavior(ws, steps, times) && i < |ws|
    ensures Flush(ws[i].st, id, now).rows.Keys == ws[i].st.rows.Keys
  {
    BehaviorKeeps(ws, steps, times, i);
  }
}
