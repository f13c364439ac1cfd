/**
 * Counting a day's calls for good: days are read whole from the archive, in
 * order, and a checkpoint says up to where; what it covers may be pruned.
 * Days are numbered.
 */
module WarehouseUsage {
  import opened Common

  type Day = int
  type User = nat

  const REPLAY_DAYS := 3
  const MAX_CATCHUP := 31
  const MAX_PAGES := 100

  /** No user has the empty id. */
  const EMPTY_USER: User := 0

  datatype Count = Count(user: User, toolCalls: nat, errors: nat, lastActivityAt: nat)

  // ------------------------------------------------------------- which days

  ghost predicate Increasing(days: seq<Day>) {
    forall i, j :: 0 <= i < j < |days| ==> days[i] < days[j]
  }

  function CatchupStart(startDay: Day, checkpoint: Option<Day>): Day {
    if checkpoint.Some? then checkpoint.value + 1 else startDay
  }

  /** What `daysToProcess` has to answer: a gapless catch-up, a month at most, and once caught up the last three days again. */
  ghost predicate IsPlan(startDay: Day, checkpoint: Option<Day>, yesterday: Day, days: seq<Day>) {
    var from := CatchupStart(startDay, checkpoint);
    if startDay > yesterday then days == []
    else if yesterday >= from + MAX_CATCHUP then days == seq(MAX_CATCHUP, i requires i >= 0 => from + i)
    else Increasing(days) && forall d :: d in days <==> (from <= d <= yesterday) || (startDay <= d && yesterday - REPLAY_DAYS < d <= yesterday)
  }

  /** `daysToProcess`: catch up day by day; only then push the last days again, and sort. */
  method DaysToProcess(startDay: Day, checkpoint: Option<Day>, yesterday: Day) returns (days: seq<Day>)
    ensures IsPlan(startDay, checkpoint, yesterday, days)
  {
    if startDay > yesterday { return []; }
    days := [];
    var from := CatchupStart(startDay, checkpoint);
    var next := from;
    while next <= yesterday && |days| < MAX_CATCHUP
      invariant next == from + |days| && |days| <= MAX_CATCHUP && (days == [] || next <= yesterday + 1)
      invariant forall i :: 0 <= i < |days| ==> days[i] == from + i
      decreases MAX_CATCHUP - |days|
    {
      days := days + [next];
      next := next + 1;
    }
    if next <= yesterday {
      assert days == seq(MAX_CATCHUP, i requires i >= 0 => from + i);
      return;
    }
    ghost var caughtUp := days;
    assert forall d :: d in caughtUp <==> from <= d < next by {
      forall d | from <= d < next ensures d in caughtUp { assert caughtUp[d - from] == d; }
    }
    var offset := REPLAY_DAYS - 1;
    while offset >= 0
      invariant -1 <= offset < REPLAY_DAYS
      invariant forall d :: d in days <==> d in caughtUp || (startDay <= d && yesterday - REPLAY_DAYS < d < yesterday - offset)
      invariant forall i, j :: 0 <= i < j < |days| ==> days[i] != days[j]
      decreases offset
    {
      var day := yesterday - offset;
      if day >= startDay && day !in days { days := days + [day]; }
      offset := offset - 1;
    }
    days := Sort(days);
  }

  method Sort(days: seq<Day>) returns (sorted: seq<Day>)
    requires forall i, j :: 0 <= i < j < |days| ==> days[i] != days[j]
    ensures Increasing(sorted) && forall d :: d in sorted <==> d in days
  {
    sorted := [];
    for i := 0 to |days|
      invariant Increasing(sorted) && forall d :: d in sorted <==> d in days[..i]
    {
      assert days[i] !in days[..i];
      sorted := Insert(sorted, days[i]);
    }
    assert days[..|days|] == days;
  }

  method Insert(sorted: seq<Day>, day: Day) returns (more: seq<Day>)
    requires Increasing(sorted) && day !in sorted
    ensures Increasing(more) && forall d :: d in more <==> d in sorted || d == day
  {
    var k := 0;
    while k < |sorted| && sorted[k] < day
      invariant k <= |sorted| && forall i :: 0 <= i < k ==> sorted[i] < day
    {
      k := k + 1;
    }
    more := sorted[..k] + [day] + sorted[k..];
    assert sorted == sorted[..k] + sorted[k..];
  }

  /** Every day after `from` comes right behind another one of the list. */
  ghost predicate NoGap(days: seq<Day>, from: Day) {
    forall k :: 0 <= k < |days| ==> days[k] <= from || (k > 0 && days[k - 1] >= days[k] - 1)
  }

  /** A plan is in order, at most a month long, and skips nothing on its way from what was read. */
  lemma PlansSkipNothing(startDay: Day, checkpoint: Option<Day>, yesterday: Day, days: seq<Day>)
    requires IsPlan(startDay, checkpoint, yesterday, days)
    ensures Increasing(days) && |days| <= MAX_CATCHUP && NoGap(days, CatchupStart(startDay, checkpoint))
  {
    var from := CatchupStart(startDay, checkpoint);
    if startDay <= yesterday && yesterday < from + MAX_CATCHUP {
      forall i | 0 <= i < |days| ensures Min(from, yesterday - REPLAY_DAYS + 1) <= days[i] <= yesterday { assert days[i] in days; }
      InARange(days, Min(from, yesterday - REPLAY_DAYS + 1), yesterday);
      forall k | 0 <= k < |days| && days[k] > from ensures k > 0 && days[k - 1] >= days[k] - 1 {
        assert days[k] in days;
        assert days[k] - 1 in days;
        var i :| 0 <= i < |days| && days[i] == days[k] - 1;
        assert i < k;
      }
    }
  }

  /** Increasing numbers within bounds are no more than fit. */
  lemma {:induction false} InARange(days: seq<Day>, low: Day, high: Day)
    requires Increasing(days) && forall i :: 0 <= i < |days| ==> low <= days[i] <= high
    ensures |days| <= Max(0, high - low + 1)
    decreases |days|
  {
    if days != [] {
      var last := days[|days| - 1];
      InARange(days[..|days| - 1], low, last - 1);
    }
  }

  // ---------------------------------------------------------- reading one day

  ghost predicate ByUser(rows: seq<Count>) {
    forall i, j :: 0 <= i < j < |rows| ==> rows[i].user < rows[j].user
  }

  /** `WHERE user_id > after ... ORDER BY user_id LIMIT pageSize` over the day's grouped rows. */
  function QueryPage(all: seq<Count>, after: Option<User>, pageSize: nat): seq<Count> {
    var rest := if after.None? || after.value == EMPTY_USER then all else Above(all, after.value);
    if |rest| <= pageSize then rest else rest[..pageSize]
  }

  function Above(all: seq<Count>, user: User): seq<Count> {
    if all == [] then [] else if all[0].user > user then all else Above(all[1..], user)
  }

  lemma {:induction false} AboveIsRest(all: seq<Count>, k: nat)
    requires ByUser(all) && k < |all|
    ensures Above(all, all[k].user) == all[k + 1..]
  {
    if k > 0 {
      AboveIsRest(all[1..], k - 1);
      assert all[1..][k - 1] == all[k];
      assert all[1..][k..] == all[k + 1..];
    } else if |all| > 1 {
      assert all[1..][0].user > all[0].user;
    }
  }

  datatype Read = Rows(rows: seq<Count>) | Refused

  /** `queryDay`: page by page it reads the whole day, or it says that it could not. */
  method QueryDay(all: seq<Count>, pageSize: nat) returns (read: Read)
    requires ByUser(all) && pageSize > 0
    requires forall i :: 0 <= i < |all| ==> all[i].user != EMPTY_USER
    ensures read == if |all| < MAX_PAGES * pageSize then Rows(all) else Refused
  {
    var rows := [];
    var after: Option<User> := None;
    for page := 0 to MAX_PAGES
      invariant |rows| == page * pageSize <= |all| && rows == all[..|rows|]
      invariant after == if |rows| == 0 then None else Some(all[|rows| - 1].user)
    {
      PageIsNext(all, |rows|, after, pageSize);
      PageCount(page, pageSize);
      var pageRows := QueryPage(all, after, pageSize);
      rows := rows + pageRows;
      if |pageRows| < pageSize { return Rows(rows); }
      assert pageRows[|pageRows| - 1] == all[|rows| - 1];
      var cursor := pageRows[|pageRows| - 1].user;
      if cursor == EMPTY_USER { return Refused; }
      after := Some(cursor);
    }
    return Refused;
  }

  /** The page behind what was read is what follows it: as much as fits. */
  lemma PageIsNext(all: seq<Count>, k: nat, after: Option<User>, pageSize: nat)
    requires ByUser(all) && k <= |all| && pageSize > 0 && forall i :: 0 <= i < |all| ==> all[i].user != EMPTY_USER
    requires after == if k == 0 then None else Some(all[k - 1].user)
    ensures
      var page := QueryPage(all, after, pageSize);
      && |page| == (if |all| - k <= pageSize then |all| - k else pageSize)
      && all[..k] + page == all[..k + |page|]
      && forall i :: 0 <= i < |page| ==> page[i] == all[k + i]
  {
    if k > 0 { AboveIsRest(all, k - 1); }
    assert k == 0 ==> all[k..] == all;
  }

  lemma PageCount(page: nat, pageSize: nat)
    requires page < MAX_PAGES
    ensures page * pageSize + pageSize == (page + 1) * pageSize <= MAX_PAGES * pageSize
  {
  }

  // ------------------------------------------------------------------- rollups

  datatype Usage = Usage(toolCalls: nat, errors: nat, lastActivityAt: nat)

  /** One rollup that is under way: what it will read, how far it is, and the highest day it has seen. */
  datatype Job = Job(checkpoint: Option<Day>, days: seq<Day>, done: nat, highWater: Option<Day>)

  datatype World = World(
    checkpoint: Option<Day>,
    usage: map<(User, Day), Usage>,
    jobs: map<nat, Job>,
    read: set<Day>,                       // the days that were fully read and written down
    counts: set<(Day, Count)>)            // everything that was ever read and written down

  datatype Step =
    | StartRollup(job: nat, days: seq<Day>, yesterday: Day)
    | WriteDay(job: nat, counts: seq<Count>, users: set<User>)
    | Abandon(job: nat)

  /** One row of the upsert: the greater of what is there and what was read, for users that still exist. */
  function Put(usage: map<(User, Day), Usage>, day: Day, c: Count, users: set<User>): map<(User, Day), Usage> {
    if c.user !in users then usage
    else if (c.user, day) !in usage then usage[(c.user, day) := Of(c)]
    else usage[(c.user, day) := Greater(usage[(c.user, day)], Of(c))]
  }

  function Upsert(usage: map<(User, Day), Usage>, day: Day, counts: seq<Count>, users: set<User>): map<(User, Day), Usage>
    decreases |counts|
  {
    if counts == [] then usage else Upsert(Put(usage, day, counts[0], users), day, counts[1..], users)
  }

  function Of(c: Count): Usage {
    Usage(c.toolCalls, c.errors, c.lastActivityAt)
  }

  function Greater(a: Usage, b: Usage): Usage {
    Usage(MaxNat(a.toolCalls, b.toolCalls), MaxNat(a.errors, b.errors), MaxNat(a.lastActivityAt, b.lastActivityAt))
  }

  function MaxNat(a: nat, b: nat): nat {
    if a < b then b else a
  }

  function Highest(mark: Option<Day>, day: Day): Option<Day> {
    if mark.None? || day > mark.value then Some(day) else mark
  }

  ghost predicate Allowed(w: World, startDay: Day, step: Step) {
    match step
    case StartRollup(job, days, yesterday) =>
      job !in w.jobs && IsPlan(startDay, w.checkpoint, yesterday, days)
    case WriteDay(job, counts, users) => job in w.jobs && w.jobs[job].done < |w.jobs[job].days|
    case Abandon(job) => job in w.jobs
  }

  /** A rollup reads the checkpoint once; then each day's rows and the new checkpoint are one batch. */
  function Next(w: World, step: Step): World {
    match step
    case StartRollup(job, days, yesterday) => w.(jobs := w.jobs[job := Job(w.checkpoint, days, 0, w.checkpoint)])
    case WriteDay(job, counts, users) =>
      if job !in w.jobs || w.jobs[job].done >= |w.jobs[job].days| then w
      else
        var j := w.jobs[job];
        var day := j.days[j.done];
        var mark := Highest(j.highWater, day);
        World(mark, Upsert(w.usage, day, counts, users), w.jobs[job := j.(done := j.done + 1, highWater := mark)],
              w.read + {day}, w.counts + set c | c in counts && c.user in users :: (day, c))
    case Abandon(job) => w.(jobs := w.jobs - {job})
  }

  ghost predicate Run(ws: seq<World>, startDay: Day, steps: seq<Step>) {
    && |ws| == |steps| + 1 && ws[0] == World(None, map[], map[], {}, {})
    && forall i :: 0 <= i < |steps| ==> Allowed(ws[i], startDay, steps[i]) && ws[i + 1] == Next(ws[i], steps[i])
  }

  /** Every day from the start to a mark was fully read. */
  ghost predicate Covers(read: set<Day>, startDay: Day, mark: Option<Day>) {
    mark.Some? ==> forall d :: startDay <= d <= mark.value ==> d in read
  }

  /** Where a job is: everything up to its mark was read, and its next day leaves no gap behind the mark. */
  ghost predicate JobHolds(w: World, startDay: Day, j: Job) {
    && Covers(w.read, startDay, j.highWater)
    && j.done <= |j.days| && NoGap(j.days, CatchupStart(startDay, j.checkpoint))
    && (j.checkpoint.Some? ==> j.highWater.Some? && j.checkpoint.value <= j.highWater.value)
    && (j.done > 0 ==> j.highWater.Some? && j.days[j.done - 1] <= j.highWater.value)
  }

  ghost predicate Inv(w: World, startDay: Day) {
    Covers(w.read, startDay, w.checkpoint) && forall job :: job in w.jobs ==> JobHolds(w, startDay, w.jobs[job])
  }

  lemma StartKeeps(w: World, startDay: Day, job: nat, days: seq<Day>, yesterday: Day)
    requires Inv(w, startDay) && Allowed(w, startDay, StartRollup(job, days, yesterday))
    ensures Inv(Next(w, StartRollup(job, days, yesterday)), startDay)
  {
    PlansSkipNothing(startDay, w.checkpoint, yesterday, days);
  }

  /** The mark a job writes is one up to which everything was read, however far other jobs have come. */
  lemma MarkCovers(w: World, startDay: Day, j: Job)
    requires JobHolds(w, startDay, j) && j.done < |j.days|
    ensures Covers(w.read + {j.days[j.done]}, startDay, Highest(j.highWater, j.days[j.done]))
  {
    var k := j.done;
    assert j.days[k] <= CatchupStart(startDay, j.checkpoint) || (k > 0 && j.days[k - 1] >= j.days[k] - 1);
  }

  lemma WriteKeeps(w: World, startDay: Day, job: nat, counts: seq<Count>, users: set<User>)
    requires Inv(w, startDay) && Allowed(w, startDay, WriteDay(job, counts, users))
    ensures Inv(Next(w, WriteDay(job, counts, users)), startDay)
  {
    var after := Next(w, WriteDay(job, counts, users));
    MarkCovers(w, startDay, w.jobs[job]);
    forall x | x in after.jobs ensures JobHolds(after, startDay, after.jobs[x]) {
      assert JobHolds(w, startDay, w.jobs[x]);
    }
  }

  lemma StepKeeps(w: World, startDay: Day, step: Step)
    requires Inv(w, startDay) && Allowed(w, startDay, step)
    ensures Inv(Next(w, step), startDay)
  {
    match step
    case StartRollup(job, days, yesterday) => StartKeeps(w, startDay, job, days, yesterday);
    case WriteDay(job, counts, users) => WriteKeeps(w, startDay, job, counts, users);
    case Abandon(job) =>
      forall x | x in Next(w, step).jobs ensures JobHolds(Next(w, step), startDay, Next(w, step).jobs[x]) {
        assert JobHolds(w, startDay, w.jobs[x]);
      }
  }

  lemma {:induction false} RunKeeps(ws: seq<World>, startDay: Day, steps: seq<Step>, i: nat)
    requires Run(ws, startDay, steps) && i < |ws|
    ensures Inv(ws[i], startDay)
  {
    if i > 0 {
      RunKeeps(ws, startDay, steps, i - 1);
      StepKeeps(ws[i - 1], startDay, steps[i - 1]);
    }
  }

  /** Every day from the start to the checkpoint was fully read, whatever crashed, was capped, was replayed or overlapped. */
  lemma TheCheckpointHasNoGaps(ws: seq<World>, startDay: Day, steps: seq<Step>, i: nat, d: Day)
    requires Run(ws, startDay, steps) && i < |ws| && ws[i].checkpoint.Some? && startDay <= d <= ws[i].checkpoint.value
    ensures d in ws[i].read
  {
    RunKeeps(ws, startDay, steps, i);
  }

  // ---------------------------------------------------------------- retention

  predicate PruneAllowed(startDay: Day, checkpoint: Option<Day>, target: Day) {
    startDay > target || (checkpoint.Some? && checkpoint.value >= target)
  }

  function BacklogDays(startDay: Day, checkpoint: Option<Day>, target: Day): nat {
    var needed := CatchupStart(startDay, checkpoint);
    if needed > target then 0 else Max(0, target - needed) + 1
  }

  /** Retention may only start when no day up to yesterday is still unread. */
  lemma PruningLosesNothing(ws: seq<World>, startDay: Day, steps: seq<Step>, i: nat, target: Day)
    requires Run(ws, startDay, steps) && i < |ws| && PruneAllowed(startDay, ws[i].checkpoint, target)
    ensures forall d :: startDay <= d <= target ==> d in ws[i].read
  {
    RunKeeps(ws, startDay, steps, i);
  }

  /**
   * The backlog counts the days still to be caught up with. None is left exactly
   * when pruning is allowed, except where the start day was moved past the target
   * with an older checkpoint: there days are left, and pruning is allowed.
   */
  lemma BacklogIsWhatIsLeft(startDay: Day, checkpoint: Option<Day>, target: Day)
    ensures BacklogDays(startDay, checkpoint, target) == Max(0, target + 1 - CatchupStart(startDay, checkpoint))
    ensures BacklogDays(startDay, checkpoint, target) == 0 ==> PruneAllowed(startDay, checkpoint, target)
    ensures (BacklogDays(startDay, checkpoint, target) == 0 <==> PruneAllowed(startDay, checkpoint, target))
      <==> !(startDay > target && checkpoint.Some? && checkpoint.value < target)
  {
  }

  /** A start day moved to the tenth, a checkpoint of the fifth, and pruning on the ninth. */
  lemma AMovedStartHidesABacklog()
    ensures BacklogDays(10, Some(5), 9) == 4 && PruneAllowed(10, Some(5), 9)
  {
  }

  // ------------------------------------------------------------------- overlap

  /** Whether a step leaves the checkpoint on an earlier day. */
  predicate MovesBack(w: World, step: Step) {
    w.checkpoint.Some? && Next(w, step).checkpoint.Some? && Next(w, step).checkpoint.value < w.checkpoint.value
  }

  /** A job that is under way was started, at the last such step, and not abandoned since. */
  ghost predicate StartedAt(steps: seq<Step>, i: nat, job: nat, s: nat) {
    && s < i <= |steps| && steps[s].StartRollup? && steps[s].job == job
    && forall k :: s < k < i ==> !((steps[k].Abandon? || steps[k].StartRollup?) && steps[k].job == job)
  }

  /** The last day that was written before a step. */
  ghost predicate LastWrite(steps: seq<Step>, i: nat, k: nat) {
    k < i <= |steps| && steps[k].WriteDay? && forall m :: k < m < i ==> !steps[m].WriteDay?
  }

  /** Since a job started another one wrote, last of all. */
  ghost predicate Overtaken(steps: seq<Step>, i: nat, job: nat, s: nat, k: nat) {
    StartedAt(steps, i, job, s) && LastWrite(steps, i, k) && s < k && steps[k].job != job
  }

  lemma {:induction false} JobsStarted(ws: seq<World>, startDay: Day, steps: seq<Step>, i: nat, job: nat) returns (s: nat)
    requires Run(ws, startDay, steps) && i < |ws| && job in ws[i].jobs
    ensures StartedAt(steps, i, job, s)
  {
    if i == 0 {
      assert false;
    } else if steps[i - 1].StartRollup? && steps[i - 1].job == job {
      s := i - 1;
    } else {
      s := JobsStarted(ws, startDay, steps, i - 1, job);
    }
  }

  /** The checkpoint is a job's own mark, or another job wrote last since it started. */
  lemma {:induction false} OwnMarkOrOvertaken(ws: seq<World>, startDay: Day, steps: seq<Step>, i: nat, job: nat)
    requires Run(ws, startDay, steps) && i < |ws| && job in ws[i].jobs
    ensures ws[i].checkpoint == ws[i].jobs[job].highWater || exists s: nat, k: nat :: Overtaken(steps, i, job, s, k)
  {
    if i == 0 {
      assert false;
    } else {
      var step := steps[i - 1];
      var s := JobsStarted(ws, startDay, steps, i, job);
      if step.WriteDay? && step.job != job {
        assert Overtaken(steps, i, job, s, i - 1);
      } else if !(step.StartRollup? && step.job == job) && !step.WriteDay? {
        OwnMarkOrOvertaken(ws, startDay, steps, i - 1, job);
        if ws[i].checkpoint != ws[i].jobs[job].highWater {
          var s0: nat, k: nat :| Overtaken(steps, i - 1, job, s0, k);
          assert Overtaken(steps, i, job, s0, k);
        }
      }
    }
  }

  /** Only a write moves the checkpoint. */
  lemma {:induction false} SinceTheLastWrite(ws: seq<World>, startDay: Day, steps: seq<Step>, i: nat, k: nat)
    requires Run(ws, startDay, steps) && i < |ws| && LastWrite(steps, i, k)
    ensures ws[i].checkpoint == ws[k + 1].checkpoint
    decreases i
  {
    if k + 1 < i { SinceTheLastWrite(ws, startDay, steps, i - 1, k); }
  }

  /**
   * Exactly when a write moves the checkpoint back: another rollup wrote since this
   * one started, wrote last, and had come further than this one has with its day.
   */
  lemma MovesBackExactly(ws: seq<World>, startDay: Day, steps: seq<Step>, i: nat)
    requires Run(ws, startDay, steps) && i < |steps| && steps[i].WriteDay?
    ensures
      var j := ws[i].jobs[steps[i].job];
      MovesBack(ws[i], steps[i]) <==>
        exists s: nat, k: nat :: Overtaken(steps, i, steps[i].job, s, k) && Beyond(ws[k + 1].checkpoint, Highest(j.highWater, j.days[j.done]))
  {
    var job := steps[i].job;
    var j := ws[i].jobs[job];
    var mark := Highest(j.highWater, j.days[j.done]);
    assert Next(ws[i], steps[i]).checkpoint == mark;
    if MovesBack(ws[i], steps[i]) {
      OwnMarkOrOvertaken(ws, startDay, steps, i, job);
      var s: nat, k: nat :| Overtaken(steps, i, job, s, k);
      SinceTheLastWrite(ws, startDay, steps, i, k);
      assert Overtaken(steps, i, job, s, k) && Beyond(ws[k + 1].checkpoint, mark);
    }
    if s: nat, k: nat :| Overtaken(steps, i, job, s, k) && Beyond(ws[k + 1].checkpoint, mark) {
      SinceTheLastWrite(ws, startDay, steps, i, k);
    }
  }

  /** A checkpoint on a later day than a mark. */
  predicate Beyond(checkpoint: Option<Day>, mark: Option<Day>) {
    checkpoint.Some? && mark.Some? && checkpoint.value > mark.value
  }

  /** Two rollups of the same two days, the second from start to end within the first. */
  function Overlapping(): seq<Step> {
    [StartRollup(1, [0, 1], 1), StartRollup(2, [0, 1], 1), WriteDay(2, [], {}), WriteDay(2, [], {}), WriteDay(1, [], {})]
  }

  /** A run of two rollups that moves the checkpoint back, from day 1 to day 0. */
  lemma OverlapCanMoveTheCheckpointBack() returns (ws: seq<World>)
    ensures Run(ws, 0, Overlapping()) && ws[4].checkpoint == Some(1) && ws[5].checkpoint == Some(0)
  {
    var steps := Overlapping();
    assert IsPlan(0, None, 1, [0, 1]);
    var w0 := World(None, map[], map[], {}, {});
    var w1 := Next(w0, steps[0]);
    var w2 := Next(w1, steps[1]);
    assert w2.jobs[1] == Job(None, [0, 1], 0, None) && w2.jobs[2] == Job(None, [0, 1], 0, None);
    var w3 := Next(w2, steps[2]);
    assert w3.jobs[2] == Job(None, [0, 1], 1, Some(0)) && w3.jobs[1] == w2.jobs[1];
    var w4 := Next(w3, steps[3]);
    assert w4.jobs[1] == w2.jobs[1] && w4.checkpoint == Some(1);
    var w5 := Next(w4, steps[4]);
    ws := [w0, w1, w2, w3, w4, w5];
  }

  // ------------------------------------------------------------------ counters

  ghost predicate AtLeast(a: Usage, b: Usage) {
    a.toolCalls >= b.toolCalls && a.errors >= b.errors && a.lastActivityAt >= b.lastActivityAt
  }

  lemma {:induction false} UpsertGrows(usage: map<(User, Day), Usage>, day: Day, counts: seq<Count>, users: set<User>, key: (User, Day))
    ensures key in usage ==> key in Upsert(usage, day, counts, users) && AtLeast(Upsert(usage, day, counts, users)[key], usage[key])
    ensures forall c :: c in counts && c.user in users && key == (c.user, day) ==>
      key in Upsert(usage, day, counts, users) && AtLeast(Upsert(usage, day, counts, users)[key], Of(c))
    decreases |counts|
  {
    if counts != [] {
      UpsertGrows(Put(usage, day, counts[0], users), day, counts[1..], users, key);
    }
  }

  /** A counter never goes down, and is never below what was read of its user and day. */
  lemma CountersOnlyGrow(w: World, step: Step, key: (User, Day))
    ensures key in w.usage ==> key in Next(w, step).usage && AtLeast(Next(w, step).usage[key], w.usage[key])
  {
    if step.WriteDay? && step.job in w.jobs && w.jobs[step.job].done < |w.jobs[step.job].days| {
      UpsertGrows(w.usage, w.jobs[step.job].days[w.jobs[step.job].done], step.counts, step.users, key);
    }
  }

  lemma {:induction false} CountersHoldWhatWasRead(ws: seq<World>, startDay: Day, steps: seq<Step>, i: nat, day: Day, c: Count)
    requires Run(ws, startDay, steps) && i < |ws| && (day, c) in ws[i].counts
    ensures (c.user, day) in ws[i].usage && AtLeast(ws[i].usage[(c.user, day)], Of(c))
  {
    if i > 0 {
      CountersOnlyGrow(ws[i - 1], steps[i - 1], (c.user, day));
      if (day, c) in ws[i - 1].counts {
        CountersHoldWhatWasRead(ws, startDay, steps, i - 1, day, c);
      } else {
        var w, step := ws[i - 1], steps[i - 1];
        UpsertGrows(w.usage, w.jobs[step.job].days[w.jobs[step.job].done], step.counts, step.users, (c.user, day));
      }
    }
  }

  /** The day a write is of, of a job that is under way. */
  ghost predicate Writes(w: World, step: Step, day: Day) {
    step.WriteDay? && step.job in w.jobs && w.jobs[step.job].done < |w.jobs[step.job].days| && w.jobs[step.job].days[w.jobs[step.job].done] == day
  }

  /** What counts as read was written by some step: its day in full, and every count of it whose user still existed. */
  lemma {:induction false} ReadMeansWritten(ws: seq<World>, startDay: Day, steps: seq<Step>, i: nat, day: Day, c: Count)
    requires Run(ws, startDay, steps) && i < |ws|
    ensures day in ws[i].read <==> exists k :: 0 <= k < i && Writes(ws[k], steps[k], day)
    ensures (day, c) in ws[i].counts <==>
      exists k :: 0 <= k < i && Writes(ws[k], steps[k], day) && c in steps[k].counts && c.user in steps[k].users
  {
    if i > 0 {
      ReadMeansWritten(ws, startDay, steps, i - 1, day, c);
      WrittenNow(ws[i - 1], startDay, steps[i - 1], day, c);
      assert ws[i - 1 + 1] == Next(ws[i - 1], steps[i - 1]);
    }
  }

  lemma WrittenNow(w: World, startDay: Day, step: Step, day: Day, c: Count)
    requires Allowed(w, startDay, step)
    ensures day in Next(w, step).read <==> day in w.read || Writes(w, step, day)
    ensures (day, c) in Next(w, step).counts <==>
      (day, c) in w.counts || (Writes(w, step, day) && c in step.counts && c.user in step.users)
  {
  }

  /** One of the counts of a user and day has each field of what is stored of them. */
  ghost predicate FromCounts(counts: set<(Day, Count)>, key: (User, Day), u: Usage) {
    && (exists c :: (key.1, c) in counts && c.user == key.0 && c.toolCalls == u.toolCalls)
    && (exists c :: (key.1, c) in counts && c.user == key.0 && c.errors == u.errors)
    && (exists c :: (key.1, c) in counts && c.user == key.0 && c.lastActivityAt == u.lastActivityAt)
  }

  ghost predicate AllFromCounts(counts: set<(Day, Count)>, usage: map<(User, Day), Usage>) {
    forall key :: key in usage ==> FromCounts(counts, key, usage[key])
  }

  lemma FromMoreCounts(a: set<(Day, Count)>, b: set<(Day, Count)>, key: (User, Day), u: Usage)
    requires FromCounts(a, key, u) && a <= b
    ensures FromCounts(b, key, u)
  {
    var x :| (key.1, x) in a && x.user == key.0 && x.toolCalls == u.toolCalls;
    var y :| (key.1, y) in a && y.user == key.0 && y.errors == u.errors;
    var z :| (key.1, z) in a && z.user == key.0 && z.lastActivityAt == u.lastActivityAt;
    assert (key.1, x) in b && (key.1, y) in b && (key.1, z) in b;
  }

  lemma PutFromCounts(counts: set<(Day, Count)>, usage: map<(User, Day), Usage>, day: Day, c: Count, users: set<User>)
    requires AllFromCounts(counts, usage) && (c.user in users ==> (day, c) in counts)
    ensures AllFromCounts(counts, Put(usage, day, c, users))
  {
    var key := (c.user, day);
    if c.user in users {
      assert (key.1, c) in counts && c.user == key.0;
      var u := Put(usage, day, c, users)[key];
      if key in usage {
        assert FromCounts(counts, key, usage[key]);
        var x :| (key.1, x) in counts && x.user == key.0 && x.toolCalls == usage[key].toolCalls;
        var y :| (key.1, y) in counts && y.user == key.0 && y.errors == usage[key].errors;
        var z :| (key.1, z) in counts && z.user == key.0 && z.lastActivityAt == usage[key].lastActivityAt;
        assert u.toolCalls == x.toolCalls || u.toolCalls == c.toolCalls;
        assert u.errors == y.errors || u.errors == c.errors;
        assert u.lastActivityAt == z.lastActivityAt || u.lastActivityAt == c.lastActivityAt;
      }
      assert FromCounts(counts, key, u);
    }
  }

  lemma {:induction false} UpsertFromCounts(counts: set<(Day, Count)>, usage: map<(User, Day), Usage>, day: Day, read: seq<Count>, users: set<User>)
    requires AllFromCounts(counts, usage) && forall c :: c in read && c.user in users ==> (day, c) in counts
    ensures AllFromCounts(counts, Upsert(usage, day, read, users))
    decreases |read|
  {
    if read != [] {
      PutFromCounts(counts, usage, day, read[0], users);
      UpsertFromCounts(counts, Put(usage, day, read[0], users), day, read[1..], users);
    }
  }

  /**
   * Over every run, each counter of a user and day is that counter of something that was
   * read of them: with what every one of those is at most, it is their maximum, and a
   * day read again adds nothing.
   */
  lemma {:induction false} CountersWereRead(ws: seq<World>, startDay: Day, steps: seq<Step>, i: nat, key: (User, Day))
    requires Run(ws, startDay, steps) && i < |ws| && key in ws[i].usage
    ensures exists c :: (key.1, c) in ws[i].counts && c.user == key.0 && c.toolCalls == ws[i].usage[key].toolCalls
    ensures exists c :: (key.1, c) in ws[i].counts && c.user == key.0 && c.errors == ws[i].usage[key].errors
    ensures exists c :: (key.1, c) in ws[i].counts && c.user == key.0 && c.lastActivityAt == ws[i].usage[key].lastActivityAt
  {
    RunFromCounts(ws, startDay, steps, i);
    assert FromCounts(ws[i].counts, key, ws[i].usage[key]);
  }

  lemma {:induction false} RunFromCounts(ws: seq<World>, startDay: Day, steps: seq<Step>, i: nat)
    requires Run(ws, startDay, steps) && i < |ws|
    ensures AllFromCounts(ws[i].counts, ws[i].usage)
  {
    if i > 0 {
      RunFromCounts(ws, startDay, steps, i - 1);
      StepFromCounts(ws[i - 1], startDay, steps[i - 1]);
    }
  }

  lemma StepFromCounts(w: World, startDay: Day, step: Step)
    requires AllFromCounts(w.counts, w.usage) && Allowed(w, startDay, step)
    ensures AllFromCounts(Next(w, step).counts, Next(w, step).usage)
  {
    if step.WriteDay? {
      var after := Next(w, step);
      forall key | key in w.usage ensures FromCounts(after.counts, key, w.usage[key]) {
        FromMoreCounts(w.counts, after.counts, key, w.usage[key]);
      }
      UpsertFromCounts(after.counts, w.usage, w.jobs[step.job].days[w.jobs[step.job].done], step.counts, step.users);
    }
  }

  lemma {:induction false} UpsertKnown(usage: map<(User, Day), Usage>, day: Day, counts: seq<Count>, users: set<User>)
    requires forall c :: c in counts && c.user in users ==> (c.user, day) in usage && AtLeast(usage[(c.user, day)], Of(c))
    ensures Upsert(usage, day, counts, users) == usage
    decreases |counts|
  {
    if counts != [] {
      var c := counts[0];
      assert c in counts;
      if c.user in users { assert Greater(usage[(c.user, day)], Of(c)) == usage[(c.user, day)]; }
      assert Put(usage, day, c, users) == usage;
      UpsertKnown(usage, day, counts[1..], users);
    }
  }

  /** Over every run, writing counts of a day that were all written before leaves every counter as it is. */
  lemma WritingAgainAddsNothing(ws: seq<World>, startDay: Day, steps: seq<Step>, i: nat, day: Day)
    requires Run(ws, startDay, steps) && i < |steps| && Writes(ws[i], steps[i], day)
    requires forall c :: c in steps[i].counts && c.user in steps[i].users ==> (day, c) in ws[i].counts
    ensures ws[i + 1].usage == ws[i].usage
  {
    forall c | c in steps[i].counts && c.user in steps[i].users
      ensures (c.user, day) in ws[i].usage && AtLeast(ws[i].usage[(c.user, day)], Of(c))
    {
      CountersHoldWhatWasRead(ws, startDay, steps, i, day, c);
    }
    UpsertKnown(ws[i].usage, day, steps[i].counts, steps[i].users);
  }

  /** A write puts the later of its day and what its job had seen into the checkpoint, and its job moves on to the next day. */
  lemma AWriteMovesOn(ws: seq<World>, startDay: Day, steps: seq<Step>, i: nat, day: Day)
    requires Run(ws, startDay, steps) && i < |steps| && Writes(ws[i], steps[i], day)
    ensures
      var j, after := ws[i].jobs[steps[i].job], ws[i + 1];
      && after.checkpoint == Some(if j.highWater.Some? && j.highWater.value > day then j.highWater.value else day)
      && steps[i].job in after.jobs
      && after.jobs[steps[i].job] == Job(j.checkpoint, j.days, j.done + 1, after.checkpoint)
      && forall job :: job != steps[i].job ==> (job in after.jobs <==> job in ws[i].jobs) && (job in ws[i].jobs ==> after.jobs[job] == ws[i].jobs[job])
  {
    assert ws[i + 1] == Next(ws[i], steps[i]);
  }
}
