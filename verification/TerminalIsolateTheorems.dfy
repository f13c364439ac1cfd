/**
 * What a relay's viewers are replayed when others share its queue: the exact output of
 * their session as long as nothing of it was lost and no other session was put in its
 * place, and when exactly that happens.
 */
module TerminalIsolateTheorems {
  import opened Common
  import opened TerminalReplay
  import opened TerminalModel
  import opened TerminalSafety
  import opened TerminalTheorems
  import opened TerminalIsolate
  import opened TerminalIsolateViews

  // ------------------------------------------------------------------ invariant

  function Mine(w: Isolate): set<SessionId> {
    set id | id in w.hist && id !in w.spoiled
  }

  function Part(hist: map<SessionId, seq<string>>, own: set<SessionId>): map<SessionId, seq<string>> {
    map id | id in hist && id in own :: hist[id]
  }

  ghost function OwnPart(w: Isolate, own: set<SessionId>): World {
    World(View(w.here, own), Part(w.hist, own), w.lost)
  }

  ghost function Own(w: Isolate): World {
    OwnPart(w, Mine(w))
  }

  /** No relay knows a session but those that were opened, each at its target. */
  ghost predicate Acquainted(w: Isolate) {
    && w.hist.Keys <= w.homes.Keys && w.spoiled <= w.hist.Keys
    && Known(w.here, w.homes) && OneEach(w.here)
    && forall r :: r in w.others ==> Stored(w.others[r], w.homes)
  }

  /** Whoever watches a session of this relay is a viewer of that session. */
  ghost predicate RightSeats(st: State, own: set<SessionId>) {
    forall s, t :: LiveAt(st, s, t) && OwnRow(st, own, t) ==> st.viewers[s].id == st.rows[t].id
  }

  /** And this relay's unspoiled sessions are in order. */
  ghost predicate Holds(w: Isolate) {
    Acquainted(w) && RightSeats(w.here, Mine(w)) && Inv(Own(w))
  }

  // -------------------------------------------------------- fewer sessions, or more

  lemma NarrowLive(st: State, own: set<SessionId>, less: set<SessionId>, t: Target)
    requires Shape(View(st, own), own) && less <= own && OwnRow(st, less, t)
    ensures LiveTarget(View(st, less), t) == LiveTarget(View(st, own), t)
    ensures forall s :: LiveAt(View(st, less), s, t) <==> LiveAt(View(st, own), s, t)
  {
    var a, b := View(st, own), View(st, less);
    SeenLive(st, own);
    SeenLive(st, less);
    assert forall s :: LiveAt(a, s, t) ==> a.rows[t].id == st.viewers[s].id;
    var la, lb := LiveTarget(a, t), LiveTarget(b, t);
    if la.Some? { assert LiveAt(a, la.value, t); assert LiveAt(b, la.value, t); }
    if lb.Some? { assert LiveAt(b, lb.value, t); }
  }

  lemma NarrowQueue(st: State, own: set<SessionId>, less: set<SessionId>, id: SessionId)
    requires Shape(View(st, own), own) && less <= own && id in less && id in st.pending
    ensures
      var t := st.pending[id].target;
      st.pending[id].id == id && t in View(st, less).rows && View(st, less).rows[t].id == id && !Watched(View(st, less), t)
  {
    var a, b, t := View(st, own), View(st, less), st.pending[id].target;
    assert id in a.pending && a.rows[t].id == id;
    SeenLive(st, own);
    SeenLive(st, less);
    assert forall s :: LiveAt(b, s, t) ==> LiveAt(a, s, t);
  }

  lemma NarrowShape(st: State, own: set<SessionId>, less: set<SessionId>)
    requires Shape(View(st, own), own) && less <= own
    ensures Shape(View(st, less), less)
  {
    var a, b := View(st, own), View(st, less);
    SeenLive(st, own);
    SeenLive(st, less);
    forall s, t | LiveAt(b, s, t) ensures t in b.rows && b.rows[t].id == b.viewers[s].id { assert LiveAt(a, s, t); }
    forall s, u, t | LiveAt(b, s, t) && LiveAt(b, u, t) ensures s == u { assert LiveAt(a, s, t) && LiveAt(a, u, t); }
    forall id | id in b.pending { NarrowQueue(st, own, less, id); }
    assert forall t :: t in b.rows ==> t in a.rows && b.rows[t] == a.rows[t];
  }

  lemma NarrowKeeps(st: State, own: set<SessionId>, less: set<SessionId>, hist: map<SessionId, seq<string>>, lost: set<SessionId>)
    requires Inv(World(View(st, own), Part(hist, own), lost)) && less <= own <= hist.Keys
    ensures Inv(World(View(st, less), Part(hist, less), lost))
  {
    var w, after := World(View(st, own), Part(hist, own), lost), World(View(st, less), Part(hist, less), lost);
    assert w.hist.Keys == own && after.hist.Keys == less;
    NarrowShape(st, own, less);
    forall t | t in after.st.rows ensures BooksAt(after, t) {
      assert BooksAt(w, t);
      NarrowLive(st, own, less, t);
      var live := LiveTarget(w.st, t);
      if live.Some? { assert LiveAt(after.st, live.value, t); }
      assert See(after.st, t) == See(w.st, t);
    }
  }

  lemma MoreKeeps(w: World, requested: SessionId)
    requires Inv(w) && requested !in w.hist
    ensures Inv(w.(hist := w.hist[requested := []]))
  {
    var after := w.(hist := w.hist[requested := []]);
    forall t | t in after.st.rows ensures BooksAt(after, t) { assert BooksAt(w, t); }
  }

  lemma TouchedIgnored(w: World, st: State)
    requires Inv(w) && Like(st, w.st)
    ensures Inv(w.(st := st))
  {
    LossKeeps(w, w.(st := st));
  }

  // -------------------------------------------------------------- moves of this relay

  lemma SparedMine(w: Isolate, step: Step, order: seq<SessionId>, now: int)
    ensures Spared(w.here, Mine(w) - Spoils(w, Here(step, order), now), Written(w.here, step, order, now))
  {
  }

  lemma HereMine(w: Isolate, step: Step, order: seq<SessionId>, now: int)
    requires Acquainted(w) && Possible(w, Here(step, order))
    ensures
      var own := Mine(w) - Spoils(w, Here(step, order), now);
      Mine(After(w, Here(step, order), now)) == if Joins(w.here, step) then own + {step.requested} else own
  {
  }

  lemma HereHist(w: Isolate, own: set<SessionId>, step: Step)
    requires Acquainted(w) && own <= w.hist.Keys && !step.Attaching?
    ensures Part(HistAfter(World(w.here, w.hist, w.lost), step), own) == HistAfter(OwnPart(w, own), step)
  {
    if step.Emitted? { FindSession(w.here, own, w.homes, step.id); }
  }

  lemma JoinHist(w: Isolate, own: set<SessionId>, step: Step)
    requires Acquainted(w) && own <= w.hist.Keys && Joins(w.here, step) && step.requested !in w.homes
    ensures Part(HistAfter(World(w.here, w.hist, w.lost), step), own + {step.requested}) == Part(w.hist, own)[step.requested := []]
  {
  }

  lemma NarrowOwn(w: Isolate, own: set<SessionId>)
    requires Holds(w) && own <= Mine(w)
    ensures Inv(OwnPart(w, own)) && Fits(w.here, own, w.homes) && Part(w.hist, own).Keys == own
  {
    assert Part(w.hist, Mine(w)).Keys == Mine(w);
    NarrowKeeps(w.here, Mine(w), own, w.hist, w.lost);
  }

  /** What a step does to sessions alone keeps them in order. */
  lemma AloneKeeps(w: World, step: Step, now: int, after: World)
    requires Inv(w) && Allowed(w, step) && !step.Hibernate? && after.slept == w.slept
    requires Like(after.st, Effect(w.st, step, now)) && after.hist == HistAfter(w, step)
    ensures Inv(after)
  {
    EffectKeeps(w, step, now);
    TouchedIgnored(World(Effect(w.st, step, now), after.hist, w.slept), after.st);
  }

  lemma AsideKeeps(w: World, requested: SessionId, after: World)
    requires Inv(w) && requested !in w.hist && after.slept == w.slept
    requires Like(after.st, w.st) && after.hist == w.hist[requested := []]
    ensures Inv(after)
  {
    MoreKeeps(w, requested);
    TouchedIgnored(w.(hist := after.hist), after.st);
  }

  ghost function OwnNext(w: Isolate, own: set<SessionId>, step: Step, order: seq<SessionId>, now: int): World {
    var more := if Joins(w.here, step) then own + {step.requested} else own;
    World(View(Act(w.here, step, order, now), more), Part(HistAfter(World(w.here, w.hist, w.lost), step), more), w.lost)
  }

  lemma HereOwn(w: Isolate, step: Step, order: seq<SessionId>, now: int)
    requires Acquainted(w) && Possible(w, Here(step, order)) && !step.Hibernate?
    ensures Own(After(w, Here(step, order), now)) == OwnNext(w, Mine(w) - Spoils(w, Here(step, order), now), step, order, now)
  {
    HereMine(w, step, order, now);
    assert w.lost + Loss(w, Here(step, order), now) == w.lost;
  }

  lemma HereViewed(w: Isolate, own: set<SessionId>, step: Step, order: seq<SessionId>, now: int)
    requires Holds(w) && Possible(w, Here(step, order)) && !step.Hibernate?
    requires own <= Mine(w) && Spared(w.here, own, Written(w.here, step, order, now))
    ensures
      var narrow, after := OwnPart(w, own), OwnNext(w, own, step, order, now);
      && Inv(narrow) && narrow.hist.Keys == own
      && (Like(after.st, Effect(narrow.st, step, now)) || (step.Attaching? && Like(after.st, narrow.st)))
  {
    NarrowOwn(w, own);
    ViewAct(w.here, own, w.homes, step, order, now);
  }

  lemma JoinKeeps(w: Isolate, own: set<SessionId>, step: Step, order: seq<SessionId>, now: int)
    requires Holds(w) && Possible(w, Here(step, order)) && Joins(w.here, step)
    requires own <= Mine(w) && Spared(w.here, own, Written(w.here, step, order, now))
    ensures Inv(OwnNext(w, own, step, order, now))
  {
    var narrow, after := OwnPart(w, own), OwnNext(w, own, step, order, now);
    HereViewed(w, own, step, order, now);
    JoinHist(w, own, step);
    if Like(after.st, narrow.st) {
      AsideKeeps(narrow, step.requested, after);
    } else {
      AloneKeeps(narrow, step, now, after);
    }
  }

  lemma StepKeeps(w: Isolate, own: set<SessionId>, step: Step, order: seq<SessionId>, now: int)
    requires Holds(w) && Possible(w, Here(step, order)) && !step.Attaching? && !step.Hibernate?
    requires own <= Mine(w) && Spared(w.here, own, Written(w.here, step, order, now))
    ensures Inv(OwnNext(w, own, step, order, now))
  {
    HereViewed(w, own, step, order, now);
    HereHist(w, own, step);
    AloneKeeps(OwnPart(w, own), step, now, OwnNext(w, own, step, order, now));
  }

  lemma StaysKeeps(w: Isolate, own: set<SessionId>, step: Step, order: seq<SessionId>, now: int)
    requires Holds(w) && step.Attaching? && !Joins(w.here, step) && own <= Mine(w)
    ensures Inv(OwnNext(w, own, step, order, now))
  {
    NarrowOwn(w, own);
    assert OwnNext(w, own, step, order, now) == OwnPart(w, own);
  }

  lemma HereKeepsOwn(w: Isolate, step: Step, order: seq<SessionId>, now: int)
    requires Holds(w) && Possible(w, Here(step, order)) && !step.Hibernate?
    ensures Inv(Own(After(w, Here(step, order), now)))
  {
    var own := Mine(w) - Spoils(w, Here(step, order), now);
    SparedMine(w, step, order, now);
    HereOwn(w, step, order, now);
    if Joins(w.here, step) { JoinKeeps(w, own, step, order, now); }
    else if step.Attaching? { StaysKeeps(w, own, step, order, now); }
    else { StepKeeps(w, own, step, order, now); }
  }

  lemma HibernateKeepsOwn(w: Isolate, order: seq<SessionId>, now: int)
    requires Holds(w)
    ensures Inv(Own(After(w, Here(Hibernate, order), now)))
  {
    var after := After(w, Here(Hibernate, order), now);
    SeenLive(w.here, Mine(w));
    assert Mine(after) == Mine(w);
    forall s | Live(Own(w).st, s) ensures w.here.viewers[s].id in after.lost {
      assert LiveSession(w.here, w.here.viewers[s].id).Some?;
    }
    assert OwnMemory(map[], Seats(w.here.viewers, Mine(w))) == map[];
    LossKeeps(Own(w), Own(after));
  }

  lemma HereKeepsNames(w: Isolate, step: Step, order: seq<SessionId>, now: int)
    requires Acquainted(w) && Possible(w, Here(step, order))
    ensures Acquainted(After(w, Here(step, order), now))
  {
    ActKnown(w.here, step, order, now, w.homes);
    ActOneEach(w.here, step, order, now);
  }

  // ------------------------------------------------------------------ right seats

  predicate SameOwners(a: map<Target, Session>, b: map<Target, Session>) {
    forall t :: t in b ==> t in a && b[t].id == a[t].id
  }

  lemma ForgetStaysOwned(st: State, s: Option<SocketId>, id: SessionId)
    requires s.Some? ==> s.value in st.viewers
    ensures SameOwners(st.rows, Forget(if s.Some? then SettleViewer(st, s.value) else st, id).rows)
  {
  }

  lemma EndsStayOwned(st: State, step: Step, now: int)
    requires step.Exited? || step.Closing? || step.CloseAt?
    ensures SameOwners(st.rows, Effect(st, step, now).rows)
  {
    if step.Closing? {
      if AttachedViewer(st, step.s) { ForgetStaysOwned(st, Some(step.s), st.viewers[step.s].id); }
    } else if step.Exited? {
      ForgetStaysOwned(st, LiveSession(st, step.id), step.id);
    } else {
      var live := LiveTarget(st, step.target);
      if step.target in st.rows { ForgetStaysOwned(st, live, st.rows[step.target].id); }
      else if live.Some? { ForgetStaysOwned(st, live, st.viewers[live.value].id); }
    }
  }

  lemma PlainStaysOwned(st: State, step: Step, now: int)
    requires step.Typed? || step.Issue? || step.Consume? || step.NewExecutor? || step.LostExecutor? || step.Hibernate?
    ensures SameOwners(st.rows, Effect(st, step, now).rows)
  {
  }

  lemma ExpiryStaysOwned(st: State, now: int)
    ensures SameOwners(st.rows, DropExpired(st, now).rows)
  {
  }

  /** Without a newcomer, sessions alone get no row they did not have. */
  lemma RowsStayOwned(st: State, ids: set<SessionId>, step: Step, now: int)
    requires Shape(st, ids) && !step.Attaching?
    ensures SameOwners(st.rows, Effect(st, step, now).rows)
  {
    if step.Leaving? {
      if AttachedViewer(st, step.s) && !st.viewers[step.s].settled { LeavingStaysOwned(st, ids, step.s); }
    } else if step.Emitted? {
      if LiveSession(st, step.id).None? { TouchStaysOwned(st, ids, step.id, step.chunk, now); }
    } else if step.Alarm? {
      FlushAllShape(st, ids, now);
      ExpiryStaysOwned(FlushAll(st, now), now);
    } else if step.Exited? || step.Closing? || step.CloseAt? {
      EndsStayOwned(st, step, now);
    } else {
      PlainStaysOwned(st, step, now);
    }
  }

  lemma LeavingStaysOwned(st: State, ids: set<SessionId>, s: SocketId)
    requires Shape(st, ids) && Live(st, s)
    ensures SameOwners(st.rows, Gone(st, s).rows)
  {
    assert LiveAt(st, s, st.viewers[s].target);
    PersistPuts(st.(sockets := Without(st.sockets, s)), s, st.viewers[s]);
  }

  lemma TouchStaysOwned(st: State, ids: set<SessionId>, id: SessionId, chunk: string, now: int)
    requires Shape(st, ids)
    ensures SameOwners(st.rows, Touch(st, id, chunk, now).rows)
  {
  }

  lemma HereKeepsSeats(w: Isolate, step: Step, order: seq<SessionId>, now: int)
    requires Holds(w) && Possible(w, Here(step, order))
    ensures RightSeats(After(w, Here(step, order), now).here, Mine(After(w, Here(step, order), now)))
  {
    if Joins(w.here, step) {
      JoinKeepsSeats(w, step, order, now);
    } else if step.Attaching? || step.Hibernate? {
      assert NobodyNew(w.here, Act(w.here, step, order, now));
      assert Act(w.here, step, order, now).rows == w.here.rows;
    } else {
      StepKeepsSeats(w, step, order, now);
    }
  }

  lemma StepKeepsSeats(w: Isolate, step: Step, order: seq<SessionId>, now: int)
    requires Holds(w) && Possible(w, Here(step, order)) && !step.Attaching? && !step.Hibernate?
    ensures RightSeats(After(w, Here(step, order), now).here, Mine(After(w, Here(step, order), now)))
  {
    var own, act := Mine(w) - Spoils(w, Here(step, order), now), Act(w.here, step, order, now);
    SparedMine(w, step, order, now);
    HereViewed(w, own, step, order, now);
    HereMine(w, step, order, now);
    OnlyAttachingSeats(w.here, step, order, now);
    RowsStayOwned(View(w.here, own), own, step, now);
    forall s, t | LiveAt(act, s, t) && OwnRow(act, own, t) ensures act.viewers[s].id == act.rows[t].id {
      assert t in View(act, own).rows;
      assert OwnRow(w.here, Mine(w), t) && w.here.rows[t].id == act.rows[t].id;
      assert LiveAt(w.here, s, t);
    }
  }

  lemma JoinKeepsSeats(w: Isolate, step: Step, order: seq<SessionId>, now: int)
    requires Holds(w) && Possible(w, Here(step, order)) && Joins(w.here, step)
    ensures RightSeats(After(w, Here(step, order), now).here, Mine(After(w, Here(step, order), now)))
  {
    HereMine(w, step, order, now);
    AttachRightSeats(w.here, Mine(w), w.homes, step.s, step.target, step.requested, now);
  }

  lemma AttachRightSeats(st: State, own: set<SessionId>, homes: map<SessionId, Target>, s: SocketId, t: Target, requested: SessionId, now: int)
    requires RightSeats(st, own) && Known(st, homes) && OneEach(st) && s !in st.viewers && requested !in homes
    ensures RightSeats(Attach(st, s, t, requested, now), own + {requested})
  {
    var after := Attach(st, s, t, requested, now);
    AttachSeats(st, s, t, requested, now);
    AttachViewers(st, s, t, requested, now);
    AttachLands(st, s, t, requested, now);
    AttachElsewhere(st, homes, s, t, requested, now);
    forall u, x | LiveAt(after, u, x) && OwnRow(after, own + {requested}, x) ensures after.viewers[u].id == after.rows[x].id {
      if x != t {
        assert SameAt(after.rows, st.rows, x);
        assert LiveAt(st, u, x) && OwnRow(st, own, x);
      }
    }
  }

  /** An attach writes at its target only. */
  lemma AttachElsewhere(st: State, homes: map<SessionId, Target>, s: SocketId, t: Target, requested: SessionId, now: int)
    requires Known(st, homes) && requested !in homes
    ensures forall x :: x != t ==> SameAt(Attach(st, s, t, requested, now).rows, st.rows, x)
  {
    DetachedElsewhere(st, homes, t);
    DetachedKnown(st, homes, t);
    JoinedElsewhere(Detached(st, t), homes, s, t, requested, now);
  }

  lemma DetachedElsewhere(st: State, homes: map<SessionId, Target>, t: Target)
    requires Known(st, homes)
    ensures forall x :: x != t ==> SameAt(Detached(st, t).rows, st.rows, x)
  {
    var previous := LiveTarget(st, t);
    if previous.Some? {
      var settled := SettleViewer(st, previous.value);
      PersistIsHome(settled, homes, previous.value, st.viewers[previous.value]);
      PersistPuts(settled, previous.value, st.viewers[previous.value]);
    }
  }

  lemma JoinedElsewhere(st: State, homes: map<SessionId, Target>, s: SocketId, t: Target, requested: SessionId, now: int)
    requires Known(st, homes)
    ensures forall x :: x != t ==> SameAt(Joined(st, s, t, requested, now).rows, st.rows, x)
  {
    if t in st.rows && st.rows[t].id in st.pending { assert AtHome(homes, st.rows[t].id, st.pending[st.rows[t].id]); }
  }

  // --------------------------------------------------- moves of the others, and all

  lemma OtherKnown(w: Isolate, r: RelayId)
    requires Acquainted(w)
    ensures Known(Other(w, r), w.homes)
  {
  }

  lemma StoredMore(st: State, homes: map<SessionId, Target>, id: SessionId, t: Target)
    requires Stored(st, homes) && id !in homes
    ensures Stored(st, homes[id := t])
  {
  }

  lemma ThereKeepsOthers(w: Isolate, r: RelayId, step: Step, order: seq<SessionId>, now: int)
    requires Acquainted(w) && Possible(w, There(r, step, order))
    ensures
      var after := After(w, There(r, step, order), now);
      forall q :: q in after.others ==> Stored(after.others[q], after.homes)
  {
    var after := After(w, There(r, step, order), now);
    OtherKnown(w, r);
    ActKnown(Other(w, r), step, order, now, w.homes);
    forall q | q in after.others ensures Stored(after.others[q], after.homes) {
      if q != r && Joins(Other(w, r), step) { StoredMore(w.others[q], w.homes, step.requested, step.target); }
    }
  }

  lemma SharedKnown(st: State, from: State, more: map<SessionId, Target>)
    requires Stored(st, more) && Known(from, more)
    ensures Known(Sharing(st, from), more)
  {
    assert forall id :: id in from.pending ==> AtHome(more, id, from.pending[id]);
  }

  lemma SameOneEach(st: State, after: State)
    requires OneEach(st) && after.sockets == st.sockets && after.viewers == st.viewers
    ensures OneEach(after)
  {
    assert forall s, t :: LiveAt(after, s, t) <==> LiveAt(st, s, t);
  }

  lemma ThereKeepsNames(w: Isolate, r: RelayId, step: Step, order: seq<SessionId>, now: int)
    requires Acquainted(w) && Possible(w, There(r, step, order))
    ensures Acquainted(After(w, There(r, step, order), now))
  {
    var after := After(w, There(r, step, order), now);
    ThereKeepsOthers(w, r, step, order, now);
    OtherKnown(w, r);
    ActKnown(Other(w, r), step, order, now, w.homes);
    if Joins(Other(w, r), step) { StoredMore(w.here, w.homes, step.requested, step.target); }
    SharedKnown(w.here, Act(Other(w, r), step, order, now), after.homes);
    SameOneEach(w.here, after.here);
  }

  /** Of sessions that no output is put into, another relay's move leaves or takes the entry. */
  lemma QueueKept(w: Isolate, r: RelayId, step: Step, order: seq<SessionId>, now: int, id: SessionId)
    requires Acquainted(w) && Possible(w, There(r, step, order))
    requires id in w.hist && id !in Spoils(w, There(r, step, order), now)
    ensures
      var b := Act(Other(w, r), step, order, now).pending;
      id in b ==> id in w.here.pending && SameOutput(b[id], w.here.pending[id])
  {
    OtherKnown(w, r);
    ActKnown(Other(w, r), step, order, now, w.homes);
    var b := Act(Other(w, r), step, order, now).pending;
    if id in b && id in w.here.pending {
      assert AtHome(w.homes, id, w.here.pending[id]);
      assert AtHome(HomesAfter(w.homes, Other(w, r), step), id, b[id]);
    }
  }

  lemma ThereKeepsOwn(w: Isolate, r: RelayId, step: Step, order: seq<SessionId>, now: int)
    requires Holds(w) && Possible(w, There(r, step, order))
    ensures Inv(Own(After(w, There(r, step, order), now)))
  {
    var m, after := There(r, step, order), After(w, There(r, step, order), now);
    var own := Mine(w) - Spoils(w, m, now);
    assert Mine(after) == own;
    NarrowOwn(w, own);
    forall id | id in own { QueueKept(w, r, step, order, now, id); }
    LossKeeps(OwnPart(w, own), Own(after));
  }

  lemma EvictKeepsOwn(w: Isolate, now: int)
    requires Holds(w)
    ensures Inv(Own(After(w, Evict, now)))
  {
    var after := After(w, Evict, now);
    SeenLive(w.here, Mine(w));
    assert Mine(after) == Mine(w);
    forall s | Live(Own(w).st, s) ensures w.here.viewers[s].id in after.lost {
      assert LiveSession(w.here, w.here.viewers[s].id).Some?;
    }
    assert OwnMemory(map[], Seats(w.here.viewers, Mine(w))) == map[];
    assert OwnQueue(map[], Mine(w)) == map[];
    LossKeeps(Own(w), Own(after));
  }

  lemma EvictKeepsNames(w: Isolate, now: int)
    requires Acquainted(w)
    ensures Acquainted(After(w, Evict, now))
  {
    SameOneEach(w.here, After(w, Evict, now).here);
  }

  lemma SameSeatsKeep(w: Isolate, after: Isolate)
    requires RightSeats(w.here, Mine(w)) && Mine(after) <= Mine(w) && after.here.rows == w.here.rows
    requires after.here.viewers == w.here.viewers && after.here.sockets == w.here.sockets
    ensures RightSeats(after.here, Mine(after))
  {
    assert forall s, t :: LiveAt(after.here, s, t) ==> LiveAt(w.here, s, t);
  }

  /** Every move of any relay keeps this relay's sessions in order, but those it says it spoils. */
  lemma MoveKeepsIsolate(w: Isolate, m: Move, now: int)
    requires Holds(w) && Possible(w, m)
    ensures Holds(After(w, m, now))
  {
    match m
    case Here(step, order) =>
      HereKeepsNames(w, step, order, now);
      HereKeepsSeats(w, step, order, now);
      if step.Hibernate? { HibernateKeepsOwn(w, order, now); } else { HereKeepsOwn(w, step, order, now); }
    case There(r, step, order) =>
      ThereKeepsNames(w, r, step, order, now);
      ThereKeepsOwn(w, r, step, order, now);
      SameSeatsKeep(w, After(w, m, now));
    case Evict =>
      EvictKeepsNames(w, now);
      EvictKeepsOwn(w, now);
      SameSeatsKeep(w, After(w, m, now));
  }

  lemma FreshHolds()
    ensures Holds(Fresh)
  {
    assert Own(Fresh).st.sockets == [] && Own(Fresh).st.rows == map[] && Own(Fresh).st.pending == map[];
  }

  lemma {:induction false} RunHolds(ws: seq<Isolate>, moves: seq<Move>, times: seq<int>, i: nat)
    requires Run(ws, moves, times) && i < |ws|
    ensures Holds(ws[i])
  {
    if i > 0 {
      RunHolds(ws, moves, times, i - 1);
      assert TerminalIsolate.Moves(ws[i - 1], moves[i - 1], times[i - 1], ws[i - 1 + 1]);
      MoveKeepsIsolate(ws[i - 1], moves[i - 1], times[i - 1]);
    } else {
      FreshHolds();
    }
  }

  // -------------------------------------------------- what is lost, what is spoiled

  /** Something of a session is lost exactly when some move took it. */
  lemma {:induction false} LostExactly(ws: seq<Isolate>, moves: seq<Move>, times: seq<int>, i: nat, id: SessionId)
    requires Run(ws, moves, times) && i < |ws|
    ensures id in ws[i].lost <==> exists k :: 0 <= k < i && id in Loss(ws[k], moves[k], times[k])
  {
    if i > 0 {
      LostExactly(ws, moves, times, i - 1, id);
      assert TerminalIsolate.Moves(ws[i - 1], moves[i - 1], times[i - 1], ws[i - 1 + 1]);
    }
  }

  /** And it is spoiled exactly when some move spoiled it. */
  lemma {:induction false} SpoiledExactly(ws: seq<Isolate>, moves: seq<Move>, times: seq<int>, i: nat, id: SessionId)
    requires Run(ws, moves, times) && i < |ws|
    ensures id in ws[i].spoiled <==> exists k :: 0 <= k < i && id in Spoils(ws[k], moves[k], times[k])
  {
    if i > 0 {
      SpoiledExactly(ws, moves, times, i - 1, id);
      assert TerminalIsolate.Moves(ws[i - 1], moves[i - 1], times[i - 1], ws[i - 1 + 1]);
    }
  }

  /** The session whose entry a step drains to a target, the last one if there are several. */
  ghost function Drains(st: State, step: Step, order: seq<SessionId>, now: int, t: Target): Option<SessionId> {
    match step
    case Alarm => LastFor(st.pending, order, t)
    case Emitted(id, _) =>
      if LiveSession(st, id).None? && id in st.pending && st.pending[id].target == t && now - TouchedAt(st, id) >= TOUCH
      then Some(id) else None
    case _ => None
  }

  lemma OneRowOf(st: State, homes: map<SessionId, Target>, after: State, t: Target)
    requires Known(st, homes) && t in st.rows
    ensures Overwritten(st.rows, after.rows, st.rows[t].id) <==> t in after.rows && after.rows[t].id != st.rows[t].id
  {
  }

  /** Output for nobody, written through, goes to its session's target. */
  lemma EmissionDrains(st: State, homes: map<SessionId, Target>, id: SessionId, chunk: string, now: int, t: Target)
    requires Known(st, homes) && t in st.rows
    ensures
      var drained := Drains(st, Emitted(id, chunk), [], now, t);
      t in Output(st, id, chunk, now).rows &&
      (Output(st, id, chunk, now).rows[t].id != st.rows[t].id <==> drained.Some? && drained.value != st.rows[t].id)
  {
    if id in st.pending { assert AtHome(homes, id, st.pending[id]); }
  }

  lemma AlarmDrains(st: State, homes: map<SessionId, Target>, order: seq<SessionId>, now: int, t: Target)
    requires Known(st, homes) && Listing(st, order) && t in st.rows
    ensures
      var drained := Drains(st, Alarm, order, now, t);
      t in FlushEach(st, order, now).rows &&
      (FlushEach(st, order, now).rows[t].id != st.rows[t].id <==> drained.Some? && drained.value != st.rows[t].id)
  {
    LastEntryIsStored(st, order, now, t);
    var drained := LastFor(st.pending, order, t);
    if drained.Some? { assert AtHome(homes, drained.value, st.pending[drained.value]); }
  }

  lemma LeavingDrainsNothing(w: Isolate, s: SocketId, t: Target)
    requires Holds(w) && Live(w.here, s) && OwnRow(w.here, Mine(w), t)
    ensures t in Gone(w.here, s).rows && Gone(w.here, s).rows[t].id == w.here.rows[t].id
  {
    var st := w.here;
    assert LiveAt(st, s, st.viewers[s].target);
    var left := st.(sockets := Without(st.sockets, s));
    PersistIsHome(left, w.homes, s, st.viewers[s]);
    PersistPuts(left, s, st.viewers[s]);
  }

  /** No other step writes one session over another that its own viewers alone watch. */
  lemma OthersDrainNothing(w: Isolate, step: Step, order: seq<SessionId>, now: int, t: Target)
    requires Holds(w) && Possible(w, Here(step, order)) && !step.Alarm? && !step.Emitted? && OwnRow(w.here, Mine(w), t)
    ensures
      var rows := Written(w.here, step, order, now).rows;
      t in rows ==> rows[t].id == w.here.rows[t].id
  {
    if step.Leaving? {
      if AttachedViewer(w.here, step.s) && !w.here.viewers[step.s].settled { LeavingDrainsNothing(w, step.s, t); }
    } else if Joins(w.here, step) {
      AttachDrainsNothing(w.here, Mine(w), w.homes, step.s, step.target, step.requested, now, t);
    } else if step.Exited? || step.Closing? || step.CloseAt? {
      EndsStayOwned(w.here, step, now);
    } else if !step.Attaching? {
      PlainStaysOwned(w.here, step, now);
    }
  }

  lemma AttachDrainsNothing(st: State, own: set<SessionId>, homes: map<SessionId, Target>, s: SocketId, t: Target, requested: SessionId, now: int, x: Target)
    requires Known(st, homes) && RightSeats(st, own) && requested !in homes && OwnRow(st, own, x)
    ensures
      var rows := Attach(st, s, t, requested, now).rows;
      x in rows && rows[x].id == st.rows[x].id
  {
    AttachElsewhere(st, homes, s, t, requested, now);
    if x == t {
      AttachRows(st, homes, s, t, requested, now);
      var previous := LiveTarget(st, t);
      if previous.Some? {
        assert LiveAt(st, previous.value, t);
        var settled := SettleViewer(st, previous.value);
        PersistIsHome(settled, homes, previous.value, st.viewers[previous.value]);
        PersistPuts(settled, previous.value, st.viewers[previous.value]);
      }
    } else {
      assert SameAt(Attach(st, s, t, requested, now).rows, st.rows, x);
    }
  }

  /** A session of this relay is written over exactly when its target is drained to last from another one's entry. */
  lemma OverwrittenExactly(w: Isolate, step: Step, order: seq<SessionId>, now: int, t: Target)
    requires Holds(w) && Possible(w, Here(step, order)) && OwnRow(w.here, Mine(w), t)
    ensures
      var id, drained := w.here.rows[t].id, Drains(w.here, step, order, now, t);
      id in Spoils(w, Here(step, order), now) <==> drained.Some? && drained.value != id
  {
    OneRowOf(w.here, w.homes, Written(w.here, step, order, now), t);
    if step.Alarm? { AlarmDrains(w.here, w.homes, order, now, t); }
    else if step.Emitted? { EmissionDrains(w.here, w.homes, step.id, step.chunk, now, t); }
    else { OthersDrainNothing(w, step, order, now, t); }
  }

  /** An alarm leaves another relay's session at a target that held none exactly when such an entry is the last drained to it. */
  lemma StrangersAreSeatedExactly(w: Isolate, order: seq<SessionId>, now: int, t: Target)
    requires Acquainted(w) && Possible(w, Here(Alarm, order)) && t !in w.here.rows
    ensures
      var rows, last := FlushEach(w.here, order, now).rows, LastFor(w.here.pending, order, t);
      t in rows && rows[t].id !in w.hist <==> last.Some? && last.value !in w.hist
  {
    LastEntryIsStored(w.here, order, now, t);
    var last := LastFor(w.here.pending, order, t);
    if last.Some? { assert AtHome(w.homes, last.value, w.here.pending[last.value]); }
  }

  /** Another relay's executor puts output into a session's entry: it speaks of that session, its relay holds it unwatched, and the output stays queued. */
  ghost predicate SpokenFor(w: Isolate, r: RelayId, step: Step, now: int, id: SessionId) {
    var st := Other(w, r);
    && step.Emitted? && step.id == id && LiveSession(st, id).None?
    && now - TouchedAt(st, id) < TOUCH
    && if id in st.pending then Grown(st.pending[id], step.chunk, now).buffer != st.pending[id].buffer else HasRow(st, id)
  }

  lemma SpokenForExactly(w: Isolate, r: RelayId, step: Step, order: seq<SessionId>, now: int, id: SessionId)
    requires id in w.hist
    ensures id in Spoils(w, There(r, step, order), now) <==> SpokenFor(w, r, step, now, id)
  {
    var st := Other(w, r);
    if step.Emitted? && step.id == id {
      OutputAlters(st, id, step.chunk, now);
    } else if id in Act(st, step, order, now).pending {
      ActTakes(st, step, order, now, id);
    }
  }

  lemma OutputAlters(st: State, id: SessionId, chunk: string, now: int)
    ensures Altered(st.pending, Output(st, id, chunk, now).pending, id) <==>
      && LiveSession(st, id).None? && now - TouchedAt(st, id) < TOUCH
      && if id in st.pending then Grown(st.pending[id], chunk, now).buffer != st.pending[id].buffer else HasRow(st, id)
  {
  }

  // ------------------------------------------------------------------- theorems

  /** A viewer of this relay that lands on one of its sessions. */
  ghost predicate LandsOn(w: Isolate, m: Move, now: int, id: SessionId) {
    && m.Here? && Joins(w.here, m.step) && m.step.target in After(w, m, now).here.rows
    && After(w, m, now).here.rows[m.step.target].id == id && id in After(w, m, now).hist
  }

  lemma LandsHere(w: Isolate, m: Move, now: int, id: SessionId)
    requires LandsOn(w, m, now, id) && Holds(After(w, m, now)) && id !in After(w, m, now).spoiled
    ensures
      var own, s, t := Own(After(w, m, now)), m.step.s, m.step.target;
      && LiveAt(own.st, s, t) && s in own.st.memory && own.st.memory[s].seeded
      && t in own.st.rows && own.st.rows[t].id == id && own.hist[id] == After(w, m, now).hist[id]
      && Replayed(w.here, s, t, m.step.requested, now) == own.st.memory[s].buffer.replay
  {
    AttachLands(w.here, m.step.s, m.step.target, m.step.requested, now);
    SeenLive(After(w, m, now).here, Mine(After(w, m, now)));
  }

  /**
   * Over every run of relays that share a queue: a viewer that lands on one of its
   * relay's sessions is replayed exactly the tail of what that session emitted,
   * provided nothing of it was lost and no other session was put in its place.
   */
  lemma SharedQueueKeepsTheTail(ws: seq<Isolate>, moves: seq<Move>, times: seq<int>, i: nat, id: SessionId)
    requires Run(ws, moves, times) && i < |moves| && LandsOn(ws[i], moves[i], times[i], id)
    requires forall k :: 0 <= k < i ==> id !in Loss(ws[k], moves[k], times[k])
    requires forall k :: 0 <= k < i ==> id !in Spoils(ws[k], moves[k], times[k])
    ensures Replayed(ws[i].here, moves[i].step.s, moves[i].step.target, moves[i].step.requested, times[i]) == Tail(ws[i + 1].hist[id])
  {
    assert TerminalIsolate.Moves(ws[i], moves[i], times[i], ws[i + 1]);
    RunHolds(ws, moves, times, i);
    RunHolds(ws, moves, times, i + 1);
    LandingSpares(ws[i], moves[i], times[i], id);
    LostExactly(ws, moves, times, i, id);
    SpoiledExactly(ws, moves, times, i, id);
    LandsHere(ws[i], moves[i], times[i], id);
    WatchedHasTail(Own(ws[i + 1]), moves[i].step.s, moves[i].step.target);
  }

  lemma LandingSpares(w: Isolate, m: Move, now: int, id: SessionId)
    requires LandsOn(w, m, now, id) && Possible(w, m) && Acquainted(w)
    ensures id !in Spoils(w, m, now) && id !in Loss(w, m, now)
  {
    var rows := Act(w.here, m.step, m.order, now).rows;
    ActKnown(w.here, m.step, m.order, now, w.homes);
    forall t | t in w.here.rows && w.here.rows[t].id == id && t in rows ensures rows[t].id == id {
      assert w.homes[id] == t;
    }
  }

  /** Whatever was lost of it, what is replayed is in order, within bounds, and of that session. */
  lemma SharedQueueKeepsTheOrder(ws: seq<Isolate>, moves: seq<Move>, times: seq<int>, i: nat, id: SessionId)
    requires Run(ws, moves, times) && i < |moves| && LandsOn(ws[i], moves[i], times[i], id)
    requires forall k :: 0 <= k < i ==> id !in Spoils(ws[k], moves[k], times[k])
    ensures
      var replayed := Replayed(ws[i].here, moves[i].step.s, moves[i].step.target, moves[i].step.requested, times[i]);
      && Subsequence(replayed, ws[i + 1].hist[id])
      && (Sum(replayed) <= MAX_REPLAY || |replayed| <= 1)
  {
    assert TerminalIsolate.Moves(ws[i], moves[i], times[i], ws[i + 1]);
    RunHolds(ws, moves, times, i);
    RunHolds(ws, moves, times, i + 1);
    LandingSpares(ws[i], moves[i], times[i], id);
    SpoiledExactly(ws, moves, times, i, id);
    LandsHere(ws[i], moves[i], times[i], id);
    WatchedInOrder(Own(ws[i + 1]), moves[i].step.s, moves[i].step.target);
  }

  // -------------------------------------------------------- what the next one sees

  /** Where the output of an unwatched session is, newest first: its entry, or its row. */
  function Held(st: State, id: SessionId, t: Target): Buffer
    requires t in st.rows
  {
    if id in st.pending then st.pending[id].buffer else st.rows[t].buffer
  }

  lemma HeldIsTheTail(w: Isolate, id: SessionId, t: Target)
    requires Holds(w) && OwnRow(w.here, Mine(w), t) && w.here.rows[t].id == id && id !in w.lost && !Watched(w.here, t)
    ensures Held(w.here, id, t).replay == Tail(w.hist[id])
  {
    var own := Own(w);
    assert BooksAt(own, t);
    SeenLive(w.here, Mine(w));
    NobodyAt(w.here, t);
    NobodyAt(own.st, t);
    assert !Watched(own.st, t) by { assert forall s :: LiveAt(own.st, s, t) ==> LiveAt(w.here, s, t); }
    assert own.hist[id] == w.hist[id];
  }

  /** A newcomer nobody sits in front of is replayed what is held. */
  lemma NewcomerSeesHeld(st: State, homes: map<SessionId, Target>, s: SocketId, t: Target, requested: SessionId, now: int)
    requires Known(st, homes) && t in st.rows && !Watched(st, t)
    ensures Replayed(st, s, t, requested, now) == Held(st, st.rows[t].id, t).replay
  {
    NobodyAt(st, t);
    if st.rows[t].id in st.pending { assert AtHome(homes, st.rows[t].id, st.pending[st.rows[t].id]); }
  }

  /**
   * When another relay takes a session's entry, the next viewer here is replayed the
   * row without it: that is the tail exactly when the entry held no more than the row.
   */
  lemma TakenIsMissed(ws: seq<Isolate>, moves: seq<Move>, times: seq<int>, k: nat, id: SessionId, s: SocketId, requested: SessionId, now: int)
    requires Run(ws, moves, times) && k < |moves| && moves[k].There? && id in Loss(ws[k], moves[k], times[k])
    requires forall m :: 0 <= m < k ==> id !in Loss(ws[m], moves[m], times[m]) && id !in Spoils(ws[m], moves[m], times[m])
    ensures
      var entry := ws[k].here.pending[id];
      var replayed := Replayed(ws[k + 1].here, s, entry.target, requested, now);
      && entry.target in ws[k].here.rows
      && replayed == ws[k].here.rows[entry.target].buffer.replay
      && (replayed == Tail(ws[k + 1].hist[id]) <==> entry.buffer.replay == ws[k].here.rows[entry.target].buffer.replay)
  {
    assert TerminalIsolate.Moves(ws[k], moves[k], times[k], ws[k + 1]);
    RunHolds(ws, moves, times, k);
    RunHolds(ws, moves, times, k + 1);
    LostExactly(ws, moves, times, k, id);
    SpoiledExactly(ws, moves, times, k, id);
    var t := ws[k].here.pending[id].target;
    QueuedIsUnwatched(ws[k], id);
    HeldIsTheTail(ws[k], id, t);
    SameWatch(ws[k].here, ws[k + 1].here, t);
    NewcomerSeesHeld(ws[k + 1].here, ws[k + 1].homes, s, t, requested, now);
  }

  lemma QueuedIsUnwatched(w: Isolate, id: SessionId)
    requires Holds(w) && id in Mine(w) && id in w.here.pending
    ensures
      var t := w.here.pending[id].target;
      t in w.here.rows && w.here.rows[t].id == id && !Watched(w.here, t)
  {
    var own, t := Own(w), w.here.pending[id].target;
    assert id in own.st.pending && t in own.st.rows && own.st.rows[t].id == id;
    SeenLive(w.here, Mine(w));
    assert forall s :: LiveAt(w.here, s, t) ==> LiveAt(own.st, s, t);
  }

  lemma SameWatch(st: State, after: State, t: Target)
    requires after.sockets == st.sockets && after.viewers == st.viewers
    ensures Watched(after, t) <==> Watched(st, t)
  {
    assert forall s :: LiveAt(after, s, t) <==> LiveAt(st, s, t);
  }

  /**
   * When another relay's executor puts output into a session's entry while nobody
   * watches it here, the next viewer here is replayed that entry: the tail exactly when
   * the entry is no different for it.
   */
  lemma WhatWasPutInIsShown(ws: seq<Isolate>, moves: seq<Move>, times: seq<int>, k: nat, id: SessionId, t: Target, s: SocketId, requested: SessionId, now: int)
    requires Run(ws, moves, times) && k < |moves| && moves[k].There? && id in Spoils(ws[k], moves[k], times[k])
    requires forall m :: 0 <= m < k ==> id !in Loss(ws[m], moves[m], times[m]) && id !in Spoils(ws[m], moves[m], times[m])
    requires t in ws[k].here.rows && ws[k].here.rows[t].id == id && !Watched(ws[k].here, t)
    ensures
      var replayed := Replayed(ws[k + 1].here, s, t, requested, now);
      && id in ws[k + 1].here.pending && replayed == ws[k + 1].here.pending[id].buffer.replay
      && (replayed == Tail(ws[k + 1].hist[id]) <==> replayed == Held(ws[k].here, id, t).replay)
  {
    assert TerminalIsolate.Moves(ws[k], moves[k], times[k], ws[k + 1]);
    RunHolds(ws, moves, times, k);
    RunHolds(ws, moves, times, k + 1);
    LostExactly(ws, moves, times, k, id);
    SpoiledExactly(ws, moves, times, k, id);
    HeldIsTheTail(ws[k], id, t);
    SameWatch(ws[k].here, ws[k + 1].here, t);
    NewcomerSeesHeld(ws[k + 1].here, ws[k + 1].homes, s, t, requested, now);
  }

  /** What was missed may not matter for ever: a chunk too long for any other beside it is the tail, whatever came before. */
  lemma ALongChunkHeals(b: Buffer, output: seq<string>, chunk: string)
    requires Honest(b) && |chunk| > MAX_REPLAY
    ensures Append(b, chunk).replay == [chunk] == Tail(output + [chunk])
  {
    LongTail(b.replay, chunk);
    LongTail(output, chunk);
    SumConcat(b.replay, [chunk]);
    TrimIsTail(Buffer(b.replay + [chunk], b.bytes + |chunk|));
  }

  lemma {:induction false} LongTail(output: seq<string>, chunk: string)
    requires |chunk| > MAX_REPLAY
    ensures Tail(output + [chunk]) == [chunk]
  {
    if output == [] {
      assert output + [chunk] == [chunk];
    } else {
      SumConcat(output, [chunk]);
      assert Sum([chunk]) == |chunk|;
      assert (output + [chunk])[1..] == output[1..] + [chunk];
      LongTail(output[1..], chunk);
    }
  }

  // ------------------------------------------- executors that know what they were told

  /** A relay sends its executor the sessions its viewers came to. */
  ghost predicate Told(st: State, id: SessionId) {
    exists s :: s in st.viewers && st.viewers[s].id == id
  }

  /** Another relay seats a viewer at a session. */
  ghost predicate SeatsAt(w: Isolate, m: Move, now: int, r: RelayId, id: SessionId) {
    && m.There? && m.r == r && Joins(Other(w, r), m.step)
    && Act(Other(w, r), m.step, m.order, now).viewers[m.step.s].id == id
  }

  lemma {:induction false} ToldSince(ws: seq<Isolate>, moves: seq<Move>, times: seq<int>, i: nat, r: RelayId, id: SessionId) returns (k: nat)
    requires Run(ws, moves, times) && i < |ws| && Told(Other(ws[i], r), id)
    ensures k < i && SeatsAt(ws[k], moves[k], times[k], r, id)
  {
    assert i > 0;
    k := i - 1;
    assert TerminalIsolate.Moves(ws[k], moves[k], times[k], ws[k + 1]);
    ToldNext(ws[k], moves[k], times[k], r, id);
    if !SeatsAt(ws[k], moves[k], times[k], r, id) { k := ToldSince(ws, moves, times, k, r, id); }
  }

  lemma {:induction false} StaysTold(ws: seq<Isolate>, moves: seq<Move>, times: seq<int>, k: nat, i: nat, r: RelayId, id: SessionId)
    requires Run(ws, moves, times) && k < i < |ws| && SeatsAt(ws[k], moves[k], times[k], r, id)
    ensures Told(Other(ws[i], r), id)
    decreases i
  {
    var m := i - 1;
    if k < m { StaysTold(ws, moves, times, k, m, r, id); }
    assert TerminalIsolate.Moves(ws[m], moves[m], times[m], ws[m + 1]);
    ToldNext(ws[m], moves[m], times[m], r, id);
  }

  /** An executor was told of a session exactly when its relay seated a viewer at it. */
  lemma ToldExactly(ws: seq<Isolate>, moves: seq<Move>, times: seq<int>, i: nat, r: RelayId, id: SessionId)
    requires Run(ws, moves, times) && i < |ws|
    ensures Told(Other(ws[i], r), id) <==> exists k :: 0 <= k < i && SeatsAt(ws[k], moves[k], times[k], r, id)
  {
    if Told(Other(ws[i], r), id) { var k := ToldSince(ws, moves, times, i, r, id); }
    if k :| 0 <= k < i && SeatsAt(ws[k], moves[k], times[k], r, id) { StaysTold(ws, moves, times, k, i, r, id); }
  }

  lemma ToldNext(w: Isolate, m: Move, now: int, r: RelayId, id: SessionId)
    requires Possible(w, m)
    ensures Told(Other(After(w, m, now), r), id) <==> Told(Other(w, r), id) || SeatsAt(w, m, now, r, id)
  {
    if m.There? && m.r == r {
      ToldAct(Other(w, r), m.step, m.order, now, id);
    } else {
      assert Other(After(w, m, now), r).viewers == Other(w, r).viewers;
    }
  }

  lemma ToldAct(st: State, step: Step, order: seq<SessionId>, now: int, id: SessionId)
    ensures Told(Act(st, step, order, now), id) <==>
      Told(st, id) || (Joins(st, step) && Act(st, step, order, now).viewers[step.s].id == id)
  {
    var after := Act(st, step, order, now);
    if Joins(st, step) {
      AttachViewers(st, step.s, step.target, step.requested, now);
      assert forall s :: s in after.viewers ==> s == step.s || after.viewers[s].id == st.viewers[s].id;
    } else {
      OnlyAttachingSeats(st, step, order, now);
    }
    if Told(st, id) {
      var s :| s in st.viewers && st.viewers[s].id == id;
      assert s in after.viewers && after.viewers[s].id == id;
    }
  }

  /** Executors speak only of sessions they were told of. */
  ghost predicate Informed(w: Isolate, m: Move) {
    m.There? && m.step.Emitted? ==> Told(Other(w, m.r), m.step.id)
  }

  /**
   * If executors speak only of what they were told, a session is spoken for from
   * elsewhere only after another relay seated a viewer at a row it had taken.
   */
  lemma UnseatedIsUnspoken(ws: seq<Isolate>, moves: seq<Move>, times: seq<int>, i: nat, id: SessionId)
    requires Run(ws, moves, times) && i < |moves| && moves[i].There? && Informed(ws[i], moves[i])
    requires forall k, r :: 0 <= k < i ==> !SeatsAt(ws[k], moves[k], times[k], r, id)
    ensures id !in Spoils(ws[i], moves[i], times[i])
  {
    if id in Spoils(ws[i], moves[i], times[i]) {
      SpokenForExactly(ws[i], moves[i].r, moves[i].step, moves[i].order, times[i], id);
      ToldExactly(ws, moves, times, i, moves[i].r, id);
    }
  }
}
