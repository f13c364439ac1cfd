/**
 * Erasing a person or a project from the audit archive: a leased queue, and jobs
 * that delete from every table and then report back, however many run at once.
 */
module AuditDeletions {
  import opened Common
  import opened LeasePages

  type Id = nat
  type Token = nat
  type Table = string

  const LEASE := 10 * 60_000
  const RECHECK := 24 * 60 * 60_000
  const RETRY := 5 * 60_000
  const DRAIN_LIMIT := 100

  datatype Row = Row(
    target: string,                       // the scope and the id that are to be forgotten
    requestedAt: int,
    attempts: nat,
    nextAttemptAt: int,
    lease: Option<Token>,
    leaseUntil: int,
    passes: nat,
    completedAt: Option<int>)

  type Queue = map<Id, Row>

  /** A claim is a job for one target; its token is drawn for it. */
  datatype Claim = Claim(id: Id, token: Token)
  datatype Commit = Commit(claim: Claim, table: Table, at: int)
  datatype Pass = Pass(token: Token, at: int)

  // ------------------------------------------------------------------ queue

  predicate Claimable(r: Row, now: int) {
    r.completedAt.None? && r.nextAttemptAt <= now && (r.lease.None? || r.leaseUntil <= now)
  }

  /** What can be claimed, by when it was asked for. */
  function Waiting(q: Queue, now: int): map<Id, int> {
    map id | id in q && Claimable(q[id], now) :: q[id].requestedAt
  }

  /** The page a claim takes: the oldest claimable targets, a hundred at most. */
  ghost predicate IsPage(q: Queue, page: set<Id>, now: int) {
    IsFirst(Waiting(q, now), page, DRAIN_LIMIT)
  }

  function Leased(r: Row, token: Token, now: int): Row {
    r.(lease := Some(token), leaseUntil := now + LEASE, attempts := r.attempts + 1)
  }

  /** `claimAuditDeletions`. */
  function TakePage(q: Queue, page: set<Id>, token: Token, now: int): Queue {
    map id | id in q :: if id in page then Leased(q[id], token, now) else q[id]
  }

  predicate Settles(q: Queue, id: Id, token: Token) {
    id in q && q[id].completedAt.None? && q[id].lease == Some(token)
  }

  /** `settleAuditDeletion`: the first success is queued again for a day later, the second closes the target. */
  function Settled(r: Row, ok: bool, now: int): Row {
    if !ok then r.(nextAttemptAt := now + RETRY, lease := None)
    else if r.passes + 1 >= 2 then r.(completedAt := Some(now), passes := r.passes + 1, nextAttemptAt := now, lease := None)
    else r.(passes := r.passes + 1, nextAttemptAt := now + RECHECK, lease := None)
  }

  function Settle(q: Queue, id: Id, token: Token, ok: bool, now: int): Queue {
    if Settles(q, id, token) then q[id := Settled(q[id], ok, now)] else q
  }

  /** `auditDeletionStatement`: one row a target. */
  function Enqueue(q: Queue, id: Id, target: string, now: int): Queue {
    if id in q || (exists other :: other in q && q[other].target == target) then q
    else q[id := Row(target, now, 0, now, None, 0, 0, None)]
  }

  // ------------------------------------------------------------------ worlds

  /** The queue, what was claimed when, what was committed, and which passes counted. */
  datatype World = World(queue: Queue, claims: map<Claim, int>, commits: set<Commit>, first: map<Id, Pass>, second: map<Id, Pass>)

  const Start := World(map[], map[], {}, map[], map[])

  datatype Step =
    | Request(id: Id, target: string)
    | TakeWork(token: Token, page: set<Id>)
    | Erase(claim: Claim, table: Table)
    | ReportDone(claim: Claim)
    | ReportFailed(claim: Claim)

  /** A job reports a pass only when every table was committed. */
  ghost predicate Allowed(w: World, tables: set<Table>, step: Step, now: int) {
    match step
    case Request(_, _) => true
    case TakeWork(token, page) => IsPage(w.queue, page, now) && forall c :: c in w.claims ==> c.token != token
    case Erase(claim, table) => claim in w.claims && table in tables
    case ReportDone(claim) => claim in w.claims && forall t :: t in tables ==> exists at :: Commit(claim, t, at) in w.commits
    case ReportFailed(claim) => claim in w.claims
  }

  ghost function Next(w: World, step: Step, now: int): World {
    match step
    case Request(id, target) => w.(queue := Enqueue(w.queue, id, target, now))
    case TakeWork(token, page) =>
      w.(queue := TakePage(w.queue, page, token, now),
         claims := w.claims + map id | id in page :: Claim(id, token) := now)
    case Erase(claim, table) => w.(commits := w.commits + {Commit(claim, table, now)})
    case ReportDone(claim) =>
      var settled := w.(queue := Settle(w.queue, claim.id, claim.token, true, now));
      if !Settles(w.queue, claim.id, claim.token) then settled
      else if w.queue[claim.id].passes == 0 then settled.(first := w.first[claim.id := Pass(claim.token, now)])
      else settled.(second := w.second[claim.id := Pass(claim.token, now)])
    case ReportFailed(claim) => w.(queue := Settle(w.queue, claim.id, claim.token, false, now))
  }

  ghost predicate Run(ws: seq<World>, tables: set<Table>, steps: seq<Step>, times: seq<int>) {
    && |ws| == |steps| + 1 && |times| == |steps| && ws[0] == Start
    && (forall i :: 0 <= i < |steps| ==> Allowed(ws[i], tables, steps[i], times[i]) && ws[i + 1] == Next(ws[i], steps[i], times[i]))
    && (forall i, j :: 0 <= i < j < |times| ==> times[i] <= times[j])
  }

  // --------------------------------------------------------------- invariant

  /** Every table was committed under a claim, by a moment. */
  ghost predicate Passed(w: World, tables: set<Table>, claim: Claim, until: int) {
    forall t :: t in tables ==> exists at :: Commit(claim, t, at) in w.commits && at <= until
  }

  /** What is known of one target. */
  ghost predicate RowHolds(w: World, tables: set<Table>, id: Id, now: int)
    requires id in w.queue
  {
    var r := w.queue[id];
    && r.passes <= 2 && (r.completedAt.Some? <==> r.passes == 2)
    && (r.lease.Some? ==> Claim(id, r.lease.value) in w.claims)
    && (r.passes >= 1 ==> id in w.first && w.first[id].at <= now && Passed(w, tables, Claim(id, w.first[id].token), w.first[id].at))
    && (r.passes == 1 ==>
          r.nextAttemptAt >= w.first[id].at + RECHECK
          && (r.lease.Some? ==> w.claims[Claim(id, r.lease.value)] >= w.first[id].at + RECHECK))
    && (r.passes == 2 ==>
          && id in w.second && Claim(id, w.second[id].token) in w.claims
          && w.claims[Claim(id, w.second[id].token)] >= w.first[id].at + RECHECK
          && Passed(w, tables, Claim(id, w.second[id].token), w.second[id].at))
  }

  ghost predicate Inv(w: World, tables: set<Table>, now: int) {
    && (forall id :: id in w.queue ==> RowHolds(w, tables, id, now))
    && (forall c :: c in w.claims ==> c.id in w.queue && w.claims[c] <= now)
    && (forall c :: c in w.commits ==> c.claim in w.claims && w.claims[c.claim] <= c.at <= now)
  }

  lemma RequestKeeps(w: World, tables: set<Table>, id: Id, target: string, now: int)
    requires Inv(w, tables, now)
    ensures Inv(Next(w, Request(id, target), now), tables, now)
  {
    var after := Next(w, Request(id, target), now);
    forall x | x in after.queue ensures RowHolds(after, tables, x, now) {
      if x in w.queue { assert RowHolds(w, tables, x, now); }
    }
  }

  lemma LaterHolds(w: World, tables: set<Table>, now: int, later: int)
    requires Inv(w, tables, now) && now <= later
    ensures Inv(w, tables, later)
  {
    forall id | id in w.queue ensures RowHolds(w, tables, id, later) {
      assert RowHolds(w, tables, id, now);
    }
  }

  lemma TakeKeeps(w: World, tables: set<Table>, token: Token, page: set<Id>, now: int)
    requires Inv(w, tables, now) && Allowed(w, tables, TakeWork(token, page), now)
    ensures Inv(Next(w, TakeWork(token, page), now), tables, now)
  {
    var after := Next(w, TakeWork(token, page), now);
    forall id | id in after.queue ensures RowHolds(after, tables, id, now) {
      assert RowHolds(w, tables, id, now);
      if id in page { assert Claim(id, token) in after.claims && after.claims[Claim(id, token)] == now; }
    }
  }

  lemma EraseKeeps(w: World, tables: set<Table>, claim: Claim, table: Table, now: int)
    requires Inv(w, tables, now) && claim in w.claims
    ensures Inv(Next(w, Erase(claim, table), now), tables, now)
  {
    var after := Next(w, Erase(claim, table), now);
    forall id | id in after.queue ensures RowHolds(after, tables, id, now) {
      assert RowHolds(w, tables, id, now);
    }
  }

  lemma ReportKeeps(w: World, tables: set<Table>, claim: Claim, ok: bool, now: int)
    requires Inv(w, tables, now)
    requires Allowed(w, tables, if ok then ReportDone(claim) else ReportFailed(claim), now)
    ensures Inv(Next(w, if ok then ReportDone(claim) else ReportFailed(claim), now), tables, now)
  {
    var after := Next(w, if ok then ReportDone(claim) else ReportFailed(claim), now);
    if ok { PassedNow(w, tables, claim, now); }
    forall id | id in after.queue ensures RowHolds(after, tables, id, now) {
      ReportKeepsRow(w, tables, claim, ok, now, id);
    }
  }

  lemma ReportKeepsRow(w: World, tables: set<Table>, claim: Claim, ok: bool, now: int, id: Id)
    requires Inv(w, tables, now) && id in w.queue && claim in w.claims && (ok ==> Passed(w, tables, claim, now))
    ensures RowHolds(Next(w, if ok then ReportDone(claim) else ReportFailed(claim), now), tables, id, now)
  {
    assert RowHolds(w, tables, id, now);
  }

  lemma PassedNow(w: World, tables: set<Table>, claim: Claim, now: int)
    requires Inv(w, tables, now) && Allowed(w, tables, ReportDone(claim), now)
    ensures Passed(w, tables, claim, now)
  {
    forall t | t in tables ensures exists at :: Commit(claim, t, at) in w.commits && at <= now {
      var at :| Commit(claim, t, at) in w.commits;
    }
  }

  lemma StepKeeps(w: World, tables: set<Table>, step: Step, now: int)
    requires Inv(w, tables, now) && Allowed(w, tables, step, now)
    ensures Inv(Next(w, step, now), tables, now)
  {
    match step
    case Request(id, target) => RequestKeeps(w, tables, id, target, now);
    case TakeWork(token, page) => TakeKeeps(w, tables, token, page, now);
    case Erase(claim, table) => EraseKeeps(w, tables, claim, table, now);
    case ReportDone(claim) => ReportKeeps(w, tables, claim, true, now);
    case ReportFailed(claim) => ReportKeeps(w, tables, claim, false, now);
  }

  lemma {:induction false} RunKeeps(ws: seq<World>, tables: set<Table>, steps: seq<Step>, times: seq<int>, i: nat, now: int)
    requires Run(ws, tables, steps, times) && i < |ws| && forall k :: 0 <= k < i ==> times[k] <= now
    ensures Inv(ws[i], tables, now)
  {
    if i > 0 {
      RunKeeps(ws, tables, steps, times, i - 1, times[i - 1]);
      StepKeeps(ws[i - 1], tables, steps[i - 1], times[i - 1]);
      LaterHolds(ws[i], tables, times[i - 1], now);
    }
  }

  // ---------------------------------------------------------------- theorems

  /**
   * A target is closed only after two whole passes: under each of two claims every
   * table was committed, and no commit of the second came within a day of any
   * commit that counted for the first. No number of concurrent jobs, expired
   * leases, failures or stale reports changes that.
   */
  lemma CompletedAfterTwoPasses(ws: seq<World>, tables: set<Table>, steps: seq<Step>, times: seq<int>, i: nat, id: Id)
    requires Run(ws, tables, steps, times) && i < |ws| && id in ws[i].queue && ws[i].queue[id].completedAt.Some?
    ensures exists a: Token, b: Token, moment: int ::
      && Passed(ws[i], tables, Claim(id, a), moment)
      && (forall t :: t in tables ==> exists at :: Commit(Claim(id, b), t, at) in ws[i].commits)
      && forall t, at :: Commit(Claim(id, b), t, at) in ws[i].commits ==> at >= moment + RECHECK
  {
    var w := ws[i];
    var now := if i == 0 then 0 else times[i - 1];
    RunKeeps(ws, tables, steps, times, i, now);
    assert RowHolds(w, tables, id, now);
    var a, b, moment := w.first[id].token, w.second[id].token, w.first[id].at;
    forall t, at | Commit(Claim(id, b), t, at) in w.commits ensures at >= moment + RECHECK {
      assert Commit(Claim(id, b), t, at).claim in w.claims;
    }
    forall t | t in tables ensures exists at :: Commit(Claim(id, b), t, at) in w.commits {
      assert Passed(w, tables, Claim(id, b), w.second[id].at);
    }
    assert Passed(w, tables, Claim(id, a), moment);
  }

  /** A closed target stays closed, as it was. */
  lemma {:induction false} CompletionIsForGood(ws: seq<World>, tables: set<Table>, steps: seq<Step>, times: seq<int>, i: nat, j: nat, id: Id)
    requires Run(ws, tables, steps, times) && i <= j < |ws| && id in ws[i].queue && ws[i].queue[id].completedAt.Some?
    ensures id in ws[j].queue && ws[j].queue[id] == ws[i].queue[id]
    decreases j - i
  {
    if i < j {
      CompletionIsForGood(ws, tables, steps, times, i, j - 1, id);
      CompletedStays(ws[j - 1], steps[j - 1], times[j - 1], id);
    }
  }

  lemma CompletedStays(w: World, step: Step, now: int, id: Id)
    requires id in w.queue && w.queue[id].completedAt.Some? && (step.TakeWork? ==> IsPage(w.queue, step.page, now))
    ensures id in Next(w, step, now).queue && Next(w, step, now).queue[id] == w.queue[id]
  {
    if step.TakeWork? { assert id !in Waiting(w.queue, now); }
  }

  /** A report changes a target exactly when it is not closed and the reporter holds its latest lease. */
  lemma OnlyTheLatestLeaseSettles(q: Queue, id: Id, token: Token, ok: bool, now: int)
    ensures Settle(q, id, token, ok, now) != q <==> Settles(q, id, token)
    ensures forall other :: other in q && other != id ==> other in Settle(q, id, token, ok, now) && Settle(q, id, token, ok, now)[other] == q[other]
    ensures Settles(q, id, token) ==> !Settles(Settle(q, id, token, ok, now), id, token)
  {
    if Settles(q, id, token) { assert Settle(q, id, token, ok, now)[id].lease != q[id].lease; }
  }

  /** Between two claims of one target the first was reported, or its ten minutes had passed. */
  lemma LeasesDoNotOverlap(ws: seq<World>, tables: set<Table>, steps: seq<Step>, times: seq<int>, i: nat, j: nat, id: Id)
    requires Run(ws, tables, steps, times) && i < j < |steps|
    requires steps[i].TakeWork? && id in steps[i].page && steps[j].TakeWork? && id in steps[j].page
    requires times[j] < times[i] + LEASE
    ensures exists k :: i < k < j && (steps[k].ReportDone? || steps[k].ReportFailed?) && steps[k].claim == Claim(id, steps[i].token)
  {
    assert Allowed(ws[j], tables, steps[j], times[j]);
    assert id in Waiting(ws[j].queue, times[j]);
    if forall k :: i < k < j ==> !((steps[k].ReportDone? || steps[k].ReportFailed?) && steps[k].claim == Claim(id, steps[i].token)) {
      StillLeased(ws, tables, steps, times, i, j, id);
    }
  }

  lemma {:induction false} StillLeased(ws: seq<World>, tables: set<Table>, steps: seq<Step>, times: seq<int>, i: nat, j: nat, id: Id)
    requires Run(ws, tables, steps, times) && i < j < |ws| && steps[i].TakeWork? && id in steps[i].page
    requires forall k :: i < k < j ==> times[k] < times[i] + LEASE
    requires forall k :: i < k < j ==> !((steps[k].ReportDone? || steps[k].ReportFailed?) && steps[k].claim == Claim(id, steps[i].token))
    ensures id in ws[j].queue && ws[j].queue[id].lease == Some(steps[i].token) && ws[j].queue[id].leaseUntil == times[i] + LEASE
    decreases j
  {
    if i + 1 == j {
      ClaimLeases(ws[i], tables, steps[i], times[i], id);
    } else {
      StillLeased(ws, tables, steps, times, i, j - 1, id);
      LeaseKept(ws[j - 1], tables, steps[j - 1], times[j - 1], id, steps[i].token);
    }
  }

  lemma ClaimLeases(w: World, tables: set<Table>, step: Step, now: int, id: Id)
    requires step.TakeWork? && id in step.page && Allowed(w, tables, step, now)
    ensures
      var after := Next(w, step, now);
      id in after.queue && after.queue[id].lease == Some(step.token) && after.queue[id].leaseUntil == now + LEASE
  {
  }

  lemma LeaseKept(w: World, tables: set<Table>, step: Step, now: int, id: Id, token: Token)
    requires id in w.queue && w.queue[id].lease == Some(token) && now < w.queue[id].leaseUntil
    requires Allowed(w, tables, step, now) && !((step.ReportDone? || step.ReportFailed?) && step.claim == Claim(id, token))
    ensures
      var after := Next(w, step, now);
      id in after.queue && after.queue[id].lease == Some(token) && after.queue[id].leaseUntil == w.queue[id].leaseUntil
  {
  }

  // ------------------------------------------ what comes of a request and a report

  /** Which page a claim takes, column by column: open, due and unleased targets, the oldest request first, a hundred at most. */
  lemma PageMeans(q: Queue, page: set<Id>, now: int)
    ensures IsPage(q, page, now) <==>
      && |page| <= 100
      && (forall id :: id in page ==>
            id in q && q[id].completedAt.None? && q[id].nextAttemptAt <= now && (q[id].lease.None? || q[id].leaseUntil <= now))
      && (forall id ::
            (id in q && id !in page && q[id].completedAt.None? && q[id].nextAttemptAt <= now && (q[id].lease.None? || q[id].leaseUntil <= now)) ==>
            && |page| == 100
            && forall taken :: taken in page ==>
                 q[taken].requestedAt < q[id].requestedAt || (q[taken].requestedAt == q[id].requestedAt && taken < id))
  {
    var waiting := Waiting(q, now);
    assert forall id :: id in waiting <==>
      id in q && q[id].completedAt.None? && q[id].nextAttemptAt <= now && (q[id].lease.None? || q[id].leaseUntil <= now);
    if page <= waiting.Keys && page != waiting.Keys {
      var left :| left in waiting && left !in page;
    }
  }

  /** A claim leases its page for ten minutes and counts the attempt; nothing else in the queue changes. */
  lemma ClaimsAreExact(ws: seq<World>, tables: set<Table>, steps: seq<Step>, times: seq<int>, i: nat, id: Id)
    requires Run(ws, tables, steps, times) && i < |steps| && steps[i].TakeWork? && id in ws[i].queue
    ensures id in ws[i + 1].queue
    ensures
      var before, after := ws[i].queue[id], ws[i + 1].queue[id];
      if id in steps[i].page
      then after == before.(lease := Some(steps[i].token), leaseUntil := times[i] + 600_000, attempts := before.attempts + 1)
      else after == before
  {
    assert ws[i + 1] == Next(ws[i], steps[i], times[i]);
  }

  /**
   * What a report under the latest lease of an open target does to it: a failure
   * is due again in five minutes, the first success in a day, the second closes it.
   * Every other report leaves the queue as it is.
   */
  lemma ReportsAreExact(ws: seq<World>, tables: set<Table>, steps: seq<Step>, times: seq<int>, i: nat, id: Id)
    requires Run(ws, tables, steps, times) && i < |steps| && (steps[i].ReportDone? || steps[i].ReportFailed?) && id in ws[i].queue
    ensures id in ws[i + 1].queue
    ensures
      var before, after := ws[i].queue[id], ws[i + 1].queue[id];
      if id != steps[i].claim.id || before.completedAt.Some? || before.lease != Some(steps[i].claim.token) then after == before
      else if steps[i].ReportFailed? then after == before.(lease := None, nextAttemptAt := times[i] + 300_000)
      else if before.passes == 0 then after == before.(lease := None, passes := 1, nextAttemptAt := times[i] + 86_400_000)
      else after == before.(lease := None, passes := 2, nextAttemptAt := times[i], completedAt := Some(times[i]))
  {
    RunKeeps(ws, tables, steps, times, i, times[i]);
    assert RowHolds(ws[i], tables, id, times[i]);
    assert ws[i + 1] == Next(ws[i], steps[i], times[i]);
  }

  /** A target that was asked for is in the queue from then on, once, with the moment it was first asked for. */
  lemma {:induction false} RequestedIsKept(ws: seq<World>, tables: set<Table>, steps: seq<Step>, times: seq<int>, i: nat, j: nat)
    requires Run(ws, tables, steps, times) && i < j < |ws| && steps[i].Request?
    requires steps[i].id in ws[i].queue ==> ws[i].queue[steps[i].id].target == steps[i].target
    ensures exists id :: id in ws[j].queue && ws[j].queue[id].target == steps[i].target && ws[j].queue[id].requestedAt <= times[i]
    ensures forall a, b :: a in ws[j].queue && b in ws[j].queue && ws[j].queue[a].target == ws[j].queue[b].target ==> a == b
    decreases j
  {
    OneRowATarget(ws, tables, steps, times, j);
    if j == i + 1 {
      assert ws[j] == Next(ws[i], steps[i], times[i]);
      RequestsArePast(ws, tables, steps, times, i, times[i]);
      if steps[i].id in ws[i].queue {
        assert steps[i].id in ws[j].queue;
      } else if exists other :: other in ws[i].queue && ws[i].queue[other].target == steps[i].target {
        var other :| other in ws[i].queue && ws[i].queue[other].target == steps[i].target;
        assert other in ws[j].queue;
      } else {
        assert steps[i].id in ws[j].queue;
      }
    } else {
      RequestedIsKept(ws, tables, steps, times, i, j - 1);
      var id :| id in ws[j - 1].queue && ws[j - 1].queue[id].target == steps[i].target && ws[j - 1].queue[id].requestedAt <= times[i];
      RowsStay(ws[j - 1], steps[j - 1], times[j - 1], id);
      assert ws[j] == Next(ws[j - 1], steps[j - 1], times[j - 1]);
      assert id in ws[j].queue;
    }
  }

  lemma RowsStay(w: World, step: Step, now: int, id: Id)
    requires id in w.queue
    ensures id in Next(w, step, now).queue
    ensures Next(w, step, now).queue[id].target == w.queue[id].target && Next(w, step, now).queue[id].requestedAt == w.queue[id].requestedAt
  {
  }

  lemma {:induction false} RequestsArePast(ws: seq<World>, tables: set<Table>, steps: seq<Step>, times: seq<int>, i: nat, now: int)
    requires Run(ws, tables, steps, times) && i < |ws| && forall k :: 0 <= k < i ==> times[k] <= now
    ensures forall id :: id in ws[i].queue ==> ws[i].queue[id].requestedAt <= now
  {
    if i > 0 {
      RequestsArePast(ws, tables, steps, times, i - 1, now);
      assert ws[i] == Next(ws[i - 1], steps[i - 1], times[i - 1]);
    }
  }

  lemma {:induction false} OneRowATarget(ws: seq<World>, tables: set<Table>, steps: seq<Step>, times: seq<int>, i: nat)
    requires Run(ws, tables, steps, times) && i < |ws|
    ensures forall a, b :: a in ws[i].queue && b in ws[i].queue && ws[i].queue[a].target == ws[i].queue[b].target ==> a == b
  {
    if i > 0 {
      OneRowATarget(ws, tables, steps, times, i - 1);
      var before, after := ws[i - 1].queue, ws[i].queue;
      assert ws[i] == Next(ws[i - 1], steps[i - 1], times[i - 1]);
      forall id | id in before ensures id in after && after[id].target == before[id].target {
        RowsStay(ws[i - 1], steps[i - 1], times[i - 1], id);
      }
    }
  }

  /** A target nobody holds stays as it is until a claim takes it. */
  lemma {:induction false} WaitsUntilTaken(ws: seq<World>, tables: set<Table>, steps: seq<Step>, times: seq<int>, i: nat, j: nat, id: Id)
    requires Run(ws, tables, steps, times) && i <= j < |ws| && id in ws[i].queue && ws[i].queue[id].lease.None?
    requires forall k :: i <= k < j && steps[k].TakeWork? ==> id !in steps[k].page
    ensures id in ws[j].queue && ws[j].queue[id] == ws[i].queue[id]
    decreases j - i
  {
    if i < j {
      WaitsUntilTaken(ws, tables, steps, times, i, j - 1, id);
      assert ws[j] == Next(ws[j - 1], steps[j - 1], times[j - 1]);
    }
  }

  /** Whether a page takes a target that is due at a moment: not before, and from then on unless a hundred older ones fill it. */
  ghost predicate TakenFrom(q: Queue, page: set<Id>, now: int, id: Id, due: int) {
    && (now < due ==> id !in page)
    && (now >= due && id !in page ==>
          |page| == 100 && id in q && forall taken :: taken in page ==> taken in q && q[taken].requestedAt <= q[id].requestedAt)
  }

  /** A target just queued is taken by the next claim. */
  lemma RequestedIsTaken(ws: seq<World>, tables: set<Table>, steps: seq<Step>, times: seq<int>, i: nat, j: nat)
    requires Run(ws, tables, steps, times) && i < j < |steps| && steps[i].Request? && steps[j].TakeWork?
    requires steps[i].id !in ws[i].queue && forall id :: id in ws[i].queue ==> ws[i].queue[id].target != steps[i].target
    requires forall k :: i < k < j && steps[k].TakeWork? ==> steps[i].id !in steps[k].page
    ensures steps[i].id in ws[i + 1].queue && ws[i + 1].queue[steps[i].id] == Row(steps[i].target, times[i], 0, times[i], None, 0, 0, None)
    ensures TakenFrom(ws[j].queue, steps[j].page, times[j], steps[i].id, times[i])
  {
    assert ws[i + 1] == Next(ws[i], steps[i], times[i]);
    WaitsUntilTaken(ws, tables, steps, times, i + 1, j, steps[i].id);
    PageMeans(ws[j].queue, steps[j].page, times[j]);
  }

  /** After a report a target that is still open is taken again from five minutes on, or a day on, and a closed one never. */
  lemma ReportedIsTaken(ws: seq<World>, tables: set<Table>, steps: seq<Step>, times: seq<int>, i: nat, j: nat, id: Id)
    requires Run(ws, tables, steps, times) && i < j < |steps| && (steps[i].ReportDone? || steps[i].ReportFailed?) && steps[j].TakeWork?
    requires id == steps[i].claim.id && id in ws[i].queue && ws[i].queue[id].completedAt.None? && ws[i].queue[id].lease == Some(steps[i].claim.token)
    requires forall k :: i < k < j && steps[k].TakeWork? ==> id !in steps[k].page
    ensures steps[i].ReportFailed? ==> TakenFrom(ws[j].queue, steps[j].page, times[j], id, times[i] + 300_000)
    ensures steps[i].ReportDone? && ws[i].queue[id].passes == 0 ==> TakenFrom(ws[j].queue, steps[j].page, times[j], id, times[i] + 86_400_000)
    ensures steps[i].ReportDone? && ws[i].queue[id].passes != 0 ==> id !in steps[j].page
  {
    ReportsAreExact(ws, tables, steps, times, i, id);
    WaitsUntilTaken(ws, tables, steps, times, i + 1, j, id);
    PageMeans(ws[j].queue, steps[j].page, times[j]);
  }

  // ------------------------------------------------------------- the queue's code

  class DeletionQueue {
    var rows: Queue

    constructor ()
      ensures rows == map[]
    {
      rows := map[];
    }

    /** `claimAuditDeletions`: the oldest first, in one statement. */
    method ClaimPage(token: Token, now: int) returns (page: set<Id>)
      modifies this
      ensures IsPage(old(rows), page, now) && rows == TakePage(old(rows), page, token, now)
    {
      page := SelectFirst(Waiting(rows, now), DRAIN_LIMIT);
      rows := map id | id in rows :: if id in page then Leased(rows[id], token, now) else rows[id];
    }

    method SettleOne(id: Id, token: Token, ok: bool, now: int) returns (changed: bool)
      modifies this
      ensures rows == Settle(old(rows), id, token, ok, now) && (changed <==> rows != old(rows))
    {
      OnlyTheLatestLeaseSettles(rows, id, token, ok, now);
      changed := id in rows && rows[id].completedAt.None? && rows[id].lease == Some(token);
      if changed {
        var r := rows[id];
        if !ok {
          r := r.(nextAttemptAt := now + RETRY);
        } else {
          r := r.(completedAt := if r.passes + 1 >= 2 then Some(now) else None,
                  nextAttemptAt := if r.passes + 1 >= 2 then now else now + RECHECK, passes := r.passes + 1);
        }
        rows := rows[id := r.(lease := None)];
      }
    }
  }

  // --------------------------------------------------------------- the worker

  /** What a run has committed under a claim is what was erased under it, at those moments. */
  lemma {:induction false} CommitsAreErasures(ws: seq<World>, tables: set<Table>, steps: seq<Step>, times: seq<int>, i: nat, claim: Claim, t: Table, at: int)
    requires Run(ws, tables, steps, times) && i < |ws|
    ensures Commit(claim, t, at) in ws[i].commits <==> exists k :: 0 <= k < i && steps[k] == Erase(claim, t) && times[k] == at
  {
    if i > 0 {
      CommitsAreErasures(ws, tables, steps, times, i - 1, claim, t, at);
      assert ws[i] == Next(ws[i - 1], steps[i - 1], times[i - 1]);
    }
  }

  /** A job may report a claim done exactly when it has erased every table under it, whatever came in between. */
  lemma DoneMeansErased(ws: seq<World>, tables: set<Table>, steps: seq<Step>, times: seq<int>, i: nat, claim: Claim, now: int)
    requires Run(ws, tables, steps, times) && i < |ws| && claim in ws[i].claims
    ensures Allowed(ws[i], tables, ReportDone(claim), now)
      <==> forall t :: t in tables ==> exists k :: 0 <= k < i && steps[k] == Erase(claim, t)
  {
    if Allowed(ws[i], tables, ReportDone(claim), now) {
      forall t | t in tables ensures exists k :: 0 <= k < i && steps[k] == Erase(claim, t) {
        var at :| Commit(claim, t, at) in ws[i].commits;
        CommitsAreErasures(ws, tables, steps, times, i, claim, t, at);
      }
    }
    if forall t :: t in tables ==> exists k :: 0 <= k < i && steps[k] == Erase(claim, t) {
      forall t | t in tables ensures exists at :: Commit(claim, t, at) in ws[i].commits {
        var k :| 0 <= k < i && steps[k] == Erase(claim, t);
        CommitsAreErasures(ws, tables, steps, times, i, claim, t, times[k]);
      }
    }
  }

  /** The steps of a job for one claim: its erasures, then its report. */
  function JobSteps(claim: Claim, committed: seq<Table>, ok: bool): seq<Step> {
    seq(|committed|, i requires 0 <= i < |committed| => Erase(claim, committed[i])) + [if ok then ReportDone(claim) else ReportFailed(claim)]
  }

  /**
   * `erase` for one claimed target: table after table until one fails, then the
   * report. Success is reported exactly when every table was committed before it.
   */
  method EraseTarget(claim: Claim, tables: seq<Table>, fails: Table -> bool) returns (ok: bool, committed: seq<Table>, steps: seq<Step>)
    ensures committed <= tables
    ensures ok <==> forall t :: t in tables ==> !fails(t)
    ensures ok ==> committed == tables
    ensures forall t :: t in committed ==> !fails(t)
    ensures !ok ==> |committed| < |tables| && fails(tables[|committed|])
    ensures steps == JobSteps(claim, committed, ok)
    ensures ReportDone(claim) in steps <==> forall t :: t in tables ==> Erase(claim, t) in steps
  {
    committed, steps, ok := [], [], true;
    var i := 0;
    while ok && i < |tables|
      invariant 0 <= i <= |tables| && (ok ==> committed == tables[..i])
      invariant !ok ==> i < |tables| && committed == tables[..i] && fails(tables[i])
      invariant forall t :: t in committed ==> !fails(t)
      invariant |steps| == |committed| && forall k :: 0 <= k < |steps| ==> steps[k] == Erase(claim, committed[k])
      decreases |tables| - i, ok
    {
      if fails(tables[i]) {
        ok := false;
      } else {
        committed, steps := committed + [tables[i]], steps + [Erase(claim, tables[i])];
        i := i + 1;
      }
    }
    steps := steps + [if ok then ReportDone(claim) else ReportFailed(claim)];
    assert steps == JobSteps(claim, committed, ok);
    if ok {
      forall t | t in tables ensures Erase(claim, t) in steps {
        var k :| 0 <= k < |tables| && tables[k] == t;
        assert steps[k] == Erase(claim, t);
      }
      assert steps[|steps| - 1] == ReportDone(claim);
    } else {
      assert Erase(claim, tables[i]) !in steps;
    }
  }
}
