/**
 * Reading calls back from the archive: every call has several records, in any
 * order and any number, of which one row is shown, page by page.
 */
module WarehouseCalls {
  import opened Common

  type Id = nat
  /** Error codes, as numbers in the order of their text; none is first. */
  type Code = nat

  const NO_CODE: Code := 0
  const INCOMPLETE: Code := 1
  const STALE := 15 * 60_000
  const DAY := 86_400_000

  /** What all records of one call agree on. */
  datatype Identity = Identity(user: string, project: string, workspace: Option<string>, client: Option<string>, tool: string, createdAt: int)
  datatype Record = Record(id: Id, identity: Identity, ok: bool, duration: nat, code: Code)

  datatype Filter = Filter(
    user: string, project: Option<string>, workspace: Option<string>, client: Option<string>, ok: Option<bool>,
    startDay: int, retentionDays: nat, pageSize: nat)

  datatype Cursor = Cursor(createdAt: int, id: Id)
  datatype Page = Page(items: seq<Record>, last: Option<Record>)

  ghost predicate Coherent(records: seq<Record>) {
    forall a, b :: a in records && b in records && a.id == b.id ==> a.identity == b.identity
  }

  // ----------------------------------------------------------------- resolving

  predicate Finished(r: Record) {
    r.code != INCOMPLETE
  }

  /** The order a call's records are ranked in: finished first, then the longer, then the better, then the greater code. */
  predicate Beats(a: Record, b: Record) {
    if Finished(a) != Finished(b) then Finished(a)
    else if a.duration != b.duration then a.duration > b.duration
    else if a.ok != b.ok then a.ok
    else a.code > b.code
  }

  /** The record ranked first among those of one call. */
  function Best(records: seq<Record>, id: Id): Option<Record> {
    if records == [] then None
    else
      var rest := Best(records[1..], id);
      if records[0].id != id then rest
      else if rest.None? || Beats(records[0], rest.value) then Some(records[0])
      else rest
  }

  lemma {:induction false} BestIsBest(records: seq<Record>, id: Id)
    ensures Best(records, id).None? <==> forall r :: r in records ==> r.id != id
    ensures Best(records, id).Some? ==>
      var best := Best(records, id).value;
      best in records && best.id == id && forall r :: r in records && r.id == id ==> !Beats(r, best)
  {
    if records != [] {
      BestIsBest(records[1..], id);
    }
  }

  lemma OnlyOneBest(records: seq<Record>, a: Record, b: Record)
    requires Coherent(records) && a in records && b in records && a.id == b.id && !Beats(a, b) && !Beats(b, a)
    ensures a == b
  {
  }

  /** Which row is shown of a call does not depend on the order its records came in, nor on how often. */
  lemma ResolutionIgnoresOrder(xs: seq<Record>, ys: seq<Record>, id: Id)
    requires Coherent(xs) && (forall r :: r in xs <==> r in ys)
    ensures Best(xs, id) == Best(ys, id)
  {
    BestIsBest(xs, id);
    BestIsBest(ys, id);
    if Best(xs, id).Some? && Best(ys, id).Some? { OnlyOneBest(xs, Best(xs, id).value, Best(ys, id).value); }
  }

  /** A call that finished is shown as finished, whatever came after. */
  lemma FinishedWins(records: seq<Record>, r: Record)
    requires r in records && Finished(r)
    ensures Best(records, r.id).Some? && Finished(Best(records, r.id).value)
  {
    BestIsBest(records, r.id);
  }

  // ------------------------------------------------------------------ the query

  function WindowStart(f: Filter, now: int): int {
    Max(f.startDay, now - f.retentionDays * DAY)
  }

  /** The order rows are listed in: `a` comes after `b`. */
  predicate After(a: Record, b: Record) {
    a.identity.createdAt < b.identity.createdAt || (a.identity.createdAt == b.identity.createdAt && a.id < b.id)
  }

  predicate Past(r: Record, cursor: Option<Cursor>) {
    cursor.None? || r.identity.createdAt < cursor.value.createdAt
    || (r.identity.createdAt == cursor.value.createdAt && r.id < cursor.value.id)
  }

  /** What the scan is narrowed to: nothing here differs between the records of one call. */
  predicate Scanned(r: Record, f: Filter, cursor: Option<Cursor>, now: int) {
    && r.identity.user == f.user
    && (f.project.Some? ==> r.identity.project == f.project.value)
    && (f.workspace.Some? ==> r.identity.workspace == f.workspace)
    && (f.client.Some? ==> r.identity.client == f.client)
    && WindowStart(f, now) <= r.identity.createdAt <= now
    && Past(r, cursor)
  }

  /** What is asked of the row once it is resolved: not still running, and of the status asked for. */
  predicate Shown(r: Record, f: Filter, now: int) {
    && (Finished(r) || r.identity.createdAt <= now - STALE)
    && (f.ok.Some? ==> r.ok == f.ok.value)
  }

  function Scan(records: seq<Record>, f: Filter, cursor: Option<Cursor>, now: int): seq<Record> {
    if records == [] then []
    else if Scanned(records[0], f, cursor, now) then [records[0]] + Scan(records[1..], f, cursor, now)
    else Scan(records[1..], f, cursor, now)
  }

  /** The rows the query selects: scanned first, then resolved, then looked at. */
  function Selected(records: seq<Record>, f: Filter, cursor: Option<Cursor>, now: int): set<Record> {
    var scan := Scan(records, f, cursor, now);
    set r | r in scan && Best(scan, r.id) == Some(r) && Shown(r, f, now)
  }

  ghost predicate Listed(rows: seq<Record>) {
    forall i, j :: 0 <= i < j < |rows| ==> After(rows[j], rows[i])
  }

  /** The page of a listing that starts at its beginning. */
  function FirstPage(rows: seq<Record>, pageSize: nat): Page {
    if |rows| > pageSize
    then Page(rows[..pageSize], if pageSize == 0 then None else Some(rows[pageSize - 1]))
    else Page(rows, None)
  }

  /** `queryWarehouseCalls`. */
  ghost predicate Answers(records: seq<Record>, f: Filter, cursor: Option<Cursor>, now: int, page: Page) {
    if cursor.Some? && cursor.value.createdAt < WindowStart(f, now) then page == Page([], None)
    else exists rows :: Listed(rows) && (forall r :: r in rows <==> r in Selected(records, f, cursor, now)) && page == FirstPage(rows, f.pageSize)
  }

  // ------------------------------------------------------------------- what is meant

  /** Every call resolved from all its records, and only then chosen. */
  function Meant(records: seq<Record>, f: Filter, now: int): set<Record> {
    set r | r in records && Best(records, r.id) == Some(r) && Scanned(r, f, None, now) && Shown(r, f, now)
  }

  lemma {:induction false} ScanHas(records: seq<Record>, f: Filter, cursor: Option<Cursor>, now: int)
    ensures forall r :: r in Scan(records, f, cursor, now) <==> r in records && Scanned(r, f, cursor, now)
  {
    if records != [] {
      ScanHas(records[1..], f, cursor, now);
    }
  }

  /** Narrowing the scan before the records are ranked keeps every call's row as it is. */
  lemma ScanResolves(records: seq<Record>, f: Filter, cursor: Option<Cursor>, now: int, r: Record)
    requires Coherent(records) && r in records && Scanned(r, f, cursor, now)
    ensures Best(Scan(records, f, cursor, now), r.id) == Best(records, r.id)
  {
    var scan := Scan(records, f, cursor, now);
    ScanHas(records, f, cursor, now);
    BestIsBest(scan, r.id);
    BestIsBest(records, r.id);
    var a, b := Best(scan, r.id), Best(records, r.id);
    assert r in scan;
    assert Scanned(b.value, f, cursor, now);
    OnlyOneBest(records, a.value, b.value);
  }

  /** Narrowing before resolving comes to resolving before narrowing. */
  lemma PushdownIsSafe(records: seq<Record>, f: Filter, cursor: Option<Cursor>, now: int)
    requires Coherent(records)
    ensures Selected(records, f, cursor, now) == set r | r in Meant(records, f, now) && Past(r, cursor)
  {
    ScanHas(records, f, cursor, now);
    forall r | r in records && Scanned(r, f, cursor, now)
      ensures Best(Scan(records, f, cursor, now), r.id) == Best(records, r.id)
    {
      ScanResolves(records, f, cursor, now, r);
    }
  }

  /** A listing of the same rows is the same listing. */
  lemma {:induction false} OneListing(xs: seq<Record>, ys: seq<Record>)
    requires Listed(xs) && Listed(ys) && (forall r :: r in xs <==> r in ys)
    ensures xs == ys
  {
    if xs == [] {
      NotEmptyHasFirst(ys);
    } else {
      assert xs[0] in ys && ys != [];
      assert ys[0] in xs;
      var i :| 0 <= i < |ys| && ys[i] == xs[0];
      var j :| 0 <= j < |xs| && xs[j] == ys[0];
      assert xs[0] == ys[0];
      forall r ensures r in xs[1..] <==> r in ys[1..] {
        RestHas(xs, r);
        RestHas(ys, r);
      }
      OneListing(xs[1..], ys[1..]);
      assert xs == [xs[0]] + xs[1..] && ys == [ys[0]] + ys[1..];
    }
  }

  lemma NotEmptyHasFirst(rows: seq<Record>)
    ensures rows != [] ==> rows[0] in rows
  {
  }

  lemma RestHas(rows: seq<Record>, r: Record)
    requires rows != [] && Listed(rows)
    ensures r in rows[1..] <==> r in rows && r != rows[0]
  {
  }

  function CursorOf(r: Record): Cursor {
    Cursor(r.identity.createdAt, r.id)
  }

  /** The rows after the k-th of a listing are the rows past its cursor. */
  lemma TailIsPast(rows: seq<Record>, k: nat, r: Record)
    requires Listed(rows) && 0 < k <= |rows|
    ensures r in rows[k..] <==> r in rows && Past(r, Some(CursorOf(rows[k - 1])))
  {
    if r in rows && Past(r, Some(CursorOf(rows[k - 1]))) {
      var i :| 0 <= i < |rows| && rows[i] == r;
      assert i >= k;
      assert rows[k..][i - k] == r;
    }
  }

  /**
   * A page is a slice of everything that is meant: the first one starts at the
   * beginning, and the one behind a row's cursor right after that row. A row is
   * named as the last exactly when more follow.
   */
  lemma PagesAreSlices(records: seq<Record>, f: Filter, now: int, all: seq<Record>, k: nat, page: Page)
    requires Coherent(records) && Listed(all) && (forall r :: r in all <==> r in Meant(records, f, now)) && k <= |all|
    requires Answers(records, f, if k == 0 then None else Some(CursorOf(all[k - 1])), now, page)
    ensures page == FirstPage(all[k..], f.pageSize)
  {
    var cursor := if k == 0 then None else Some(CursorOf(all[k - 1]));
    if k > 0 { assert all[k - 1] in all; }
    PushdownIsSafe(records, f, cursor, now);
    var rows :| Listed(rows) && (forall r :: r in rows <==> r in Selected(records, f, cursor, now)) && page == FirstPage(rows, f.pageSize);
    forall r ensures r in rows <==> r in all[k..] {
      if k == 0 { assert all[k..] == all; } else { TailIsPast(all, k, r); }
    }
    OneListing(rows, all[k..]);
  }

  /** A cursor older than what may still be read leads to nothing, and there is nothing there to miss. */
  lemma OldCursorsReadNothing(records: seq<Record>, f: Filter, cursor: Cursor, now: int)
    requires cursor.createdAt < WindowStart(f, now)
    ensures Selected(records, f, Some(cursor), now) == {}
  {
    ScanHas(records, f, Some(cursor), now);
  }

  /** Pages read one after another, each behind the last row of the one before. */
  ghost predicate Walk(records: seq<Record>, f: Filter, now: int, cursor: Option<Cursor>, pages: seq<Page>)
    decreases |pages|
  {
    && pages != [] && Answers(records, f, cursor, now, pages[0])
    && if pages[0].last.None? then |pages| == 1
       else Walk(records, f, now, Some(CursorOf(pages[0].last.value)), pages[1..])
  }

  function Items(pages: seq<Page>): seq<Record> {
    if pages == [] then [] else pages[0].items + Items(pages[1..])
  }

  /** All pages together are the whole list, without a gap and without a repeat. */
  lemma {:induction false} PagesMakeTheWhole(records: seq<Record>, f: Filter, now: int, all: seq<Record>, k: nat, pages: seq<Page>)
    requires Coherent(records) && Listed(all) && (forall r :: r in all <==> r in Meant(records, f, now)) && k <= |all| && f.pageSize > 0
    requires Walk(records, f, now, if k == 0 then None else Some(CursorOf(all[k - 1])), pages)
    ensures Items(pages) == all[k..]
    decreases |pages|
  {
    PagesAreSlices(records, f, now, all, k, pages[0]);
    if pages[0].last.Some? {
      var next := k + f.pageSize;
      assert all[k..][f.pageSize - 1] == all[next - 1];
      PagesMakeTheWhole(records, f, now, all, next, pages[1..]);
      assert all[k..] == all[k..next] + all[next..];
    } else {
      assert pages[1..] == [];
    }
  }

  // ---------------------------------------- pages read at moments of their own

  /** What a request finds: the archive as it is by then, and the clock. */
  datatype Moment = Moment(records: seq<Record>, now: int)

  /** Pages read one after another, each at its own moment, behind the last row of the one before. */
  ghost predicate Visit(moments: seq<Moment>, f: Filter, cursor: Option<Cursor>, pages: seq<Page>)
    decreases |pages|
  {
    && pages != [] && |moments| == |pages| && Answers(moments[0].records, f, cursor, moments[0].now, pages[0])
    && if pages[0].last.None? then |pages| == 1
       else Visit(moments[1..], f, Some(CursorOf(pages[0].last.value)), pages[1..])
  }

  /** A page is listed, and all of it lies past its cursor. */
  lemma PageIsPast(moment: Moment, f: Filter, cursor: Option<Cursor>, page: Page)
    requires Answers(moment.records, f, cursor, moment.now, page)
    ensures Listed(page.items) && forall r :: r in page.items ==> Past(r, cursor)
    ensures page.last.Some? ==> page.items != [] && page.last.value == page.items[|page.items| - 1]
  {
    if !(cursor.Some? && cursor.value.createdAt < WindowStart(f, moment.now)) {
      var rows :| Listed(rows) && (forall r :: r in rows <==> r in Selected(moment.records, f, cursor, moment.now)) && page == FirstPage(rows, f.pageSize);
      ScanHas(moment.records, f, cursor, moment.now);
      forall r | r in page.items ensures Past(r, cursor) {
        assert r in rows;
      }
    }
  }

  /** Whatever the archive and the clock do in between, no row is read twice: all pages together are in strict order. */
  lemma {:induction false} PagesNeverRepeat(moments: seq<Moment>, f: Filter, cursor: Option<Cursor>, pages: seq<Page>)
    requires Visit(moments, f, cursor, pages)
    ensures Listed(Items(pages)) && forall r :: r in Items(pages) ==> Past(r, cursor)
    decreases |pages|
  {
    PageIsPast(moments[0], f, cursor, pages[0]);
    if pages[0].last.Some? {
      var last := pages[0].last.value;
      var first, rest := pages[0].items, Items(pages[1..]);
      PagesNeverRepeat(moments[1..], f, Some(CursorOf(last)), pages[1..]);
      forall r | r in rest ensures Past(r, cursor) {
        assert Past(r, Some(CursorOf(last))) && Past(last, cursor);
      }
      forall i, j | 0 <= i < j < |first + rest| ensures After((first + rest)[j], (first + rest)[i]) {
        if j >= |first| {
          assert (first + rest)[j] in rest;
          assert i < |first| - 1 ==> After(last, first[i]);
        }
      }
    } else {
      assert pages[1..] == [];
      assert Items(pages) == pages[0].items;
    }
  }

  /** A row that is meant whenever a page is read is on one of the pages. */
  lemma {:induction false} PagesMissNothing(moments: seq<Moment>, f: Filter, cursor: Option<Cursor>, pages: seq<Page>, r: Record)
    requires Visit(moments, f, cursor, pages) && f.pageSize > 0 && Past(r, cursor)
    requires forall k :: 0 <= k < |moments| ==> Coherent(moments[k].records) && r in Meant(moments[k].records, f, moments[k].now)
    ensures r in Items(pages)
    decreases |pages|
  {
    var moment := moments[0];
    PushdownIsSafe(moment.records, f, cursor, moment.now);
    assert !(cursor.Some? && cursor.value.createdAt < WindowStart(f, moment.now));
    var rows :| Listed(rows) && (forall x :: x in rows <==> x in Selected(moment.records, f, cursor, moment.now)) && pages[0] == FirstPage(rows, f.pageSize);
    assert r in rows;
    if pages[0].last.Some? && r !in pages[0].items {
      assert rows == rows[..f.pageSize] + rows[f.pageSize..];
      TailIsPast(rows, f.pageSize, r);
      PagesMissNothing(moments[1..], f, Some(CursorOf(pages[0].last.value)), pages[1..], r);
    }
  }

  // ------------------------------------------------------- what a reader is shown

  /** No record of the same call says more: finished, then the longer, then the good one, then the greater code. */
  ghost predicate SaysMost(records: seq<Record>, r: Record) {
    forall o :: o in records && o.id == r.id ==>
      && (r.code == 1 ==> o.code == 1)
      && ((o.code == 1 <==> r.code == 1) ==> o.duration <= r.duration)
      && ((o.code == 1 <==> r.code == 1) && o.duration == r.duration ==> (o.ok ==> r.ok))
      && ((o.code == 1 <==> r.code == 1) && o.duration == r.duration && o.ok == r.ok ==> o.code <= r.code)
  }

  /**
   * What is asked for, field by field: the asking user's rows of the project,
   * workspace, client and status named, since the start day and within the days
   * kept, behind the cursor, that finished or began fifteen minutes ago.
   */
  ghost predicate Asked(r: Record, f: Filter, cursor: Option<Cursor>, now: int) {
    && r.identity.user == f.user
    && (f.project == None || f.project == Some(r.identity.project))
    && (f.workspace == None || f.workspace == r.identity.workspace)
    && (f.client == None || f.client == r.identity.client)
    && (f.ok == None || f.ok == Some(r.ok))
    && f.startDay <= r.identity.createdAt && now - f.retentionDays * 86_400_000 <= r.identity.createdAt <= now
    && (r.code == 1 ==> r.identity.createdAt + 900_000 <= now)
    && (cursor.Some? ==>
          r.identity.createdAt < cursor.value.createdAt || (r.identity.createdAt == cursor.value.createdAt && r.id < cursor.value.id))
  }

  /** The query selects exactly the rows asked for, each the record of its call that says most. */
  lemma SelectedExactly(records: seq<Record>, f: Filter, cursor: Option<Cursor>, now: int, r: Record)
    requires Coherent(records)
    ensures r in Selected(records, f, cursor, now) <==> r in records && SaysMost(records, r) && Asked(r, f, cursor, now)
  {
    PushdownIsSafe(records, f, cursor, now);
    BestIsBest(records, r.id);
    if r in records && SaysMost(records, r) { OnlyOneBest(records, Best(records, r.id).value, r); }
  }

  /**
   * A page holds rows asked for and no others, newest first and no more than its
   * size; a row asked for is missing only from a full page of newer ones, and the
   * page names its last row exactly when one is missing.
   */
  lemma PagesAreExact(records: seq<Record>, f: Filter, cursor: Option<Cursor>, now: int, page: Page)
    requires Coherent(records) && Answers(records, f, cursor, now, page) && f.pageSize > 0
    ensures |page.items| <= f.pageSize
    ensures forall r :: r in page.items ==> r in records && SaysMost(records, r) && Asked(r, f, cursor, now)
    ensures forall i, j :: 0 <= i < j < |page.items| ==>
      var a, b := page.items[i], page.items[j];
      a.identity.createdAt > b.identity.createdAt || (a.identity.createdAt == b.identity.createdAt && a.id > b.id)
    ensures forall r :: r in records && SaysMost(records, r) && Asked(r, f, cursor, now) && r !in page.items ==>
      && |page.items| == f.pageSize && page.last == Some(page.items[f.pageSize - 1])
      && forall a :: a in page.items ==> a.identity.createdAt > r.identity.createdAt || (a.identity.createdAt == r.identity.createdAt && a.id > r.id)
    ensures page.last.Some? ==> exists r :: r in records && SaysMost(records, r) && Asked(r, f, cursor, now) && r !in page.items
  {
    forall r ensures r in Selected(records, f, cursor, now) <==> r in records && SaysMost(records, r) && Asked(r, f, cursor, now) {
      SelectedExactly(records, f, cursor, now, r);
    }
    if cursor.Some? && cursor.value.createdAt < WindowStart(f, now) {
      OldCursorsReadNothing(records, f, cursor.value, now);
    } else {
      var rows :| Listed(rows) && (forall r :: r in rows <==> r in Selected(records, f, cursor, now)) && page == FirstPage(rows, f.pageSize);
      PageOfListing(rows, f.pageSize);
    }
  }

  lemma PageOfListing(rows: seq<Record>, pageSize: nat)
    requires Listed(rows) && pageSize > 0
    ensures
      var page := FirstPage(rows, pageSize);
      && |page.items| <= pageSize && page.items <= rows
      && (forall r :: r in page.items ==> r in rows)
      && (forall r, a :: r in rows && r !in page.items && a in page.items ==> After(r, a))
      && (forall r :: r in rows && r !in page.items ==> |page.items| == pageSize && page.last == Some(page.items[pageSize - 1]))
      && (page.last.Some? ==> rows[pageSize] in rows && rows[pageSize] !in page.items)
  {
    var page := FirstPage(rows, pageSize);
    forall i | 0 <= i < |page.items| ensures rows[i] in page.items {
      assert page.items[i] == rows[i];
    }
    forall r, a | r in rows && r !in page.items && a in page.items ensures After(r, a) {
      var i :| 0 <= i < |rows| && rows[i] == r;
      var j :| 0 <= j < |page.items| && page.items[j] == a;
      assert i >= |page.items|;
    }
  }

  // ------------------------------------------------------------------ the code

  /** Ranks every call's records in one pass over the scan, in whatever order they come. */
  method Resolve(scan: seq<Record>) returns (best: map<Id, Record>)
    requires Coherent(scan)
    ensures forall id :: id in best <==> Best(scan, id).Some?
    ensures forall id :: id in best ==> Best(scan, id) == Some(best[id])
  {
    best := map[];
    for i := 0 to |scan|
      invariant forall id :: id in best <==> exists k :: 0 <= k < i && scan[k].id == id
      invariant forall id :: id in best ==> best[id] in scan && best[id].id == id
      invariant forall id, k :: id in best && 0 <= k < i && scan[k].id == id ==> !Beats(scan[k], best[id])
    {
      var r := scan[i];
      if r.id !in best || Beats(r, best[r.id]) { best := best[r.id := r]; }
    }
    forall id ensures id in best <==> Best(scan, id).Some? {
      BestIsBest(scan, id);
    }
    forall id | id in best ensures Best(scan, id) == Some(best[id]) {
      BestIsBest(scan, id);
      OnlyOneBest(scan, Best(scan, id).value, best[id]);
    }
  }

  /** `ORDER BY created_at DESC, id DESC` over rows of different calls. */
  method List(rows: set<Record>) returns (listed: seq<Record>)
    requires forall a, b :: a in rows && b in rows && a.id == b.id ==> a == b
    ensures Listed(listed) && forall r :: r in listed <==> r in rows
  {
    listed := [];
    var rest := rows;
    while rest != {}
      invariant rest <= rows && Listed(listed)
      invariant forall r :: r in listed <==> r in rows && r !in rest
      invariant forall i, r :: 0 <= i < |listed| && r in rest ==> After(r, listed[i])
      decreases rest
    {
      var first := FirstOf(rest);
      rest := rest - {first};
      listed := listed + [first];
    }
  }

  method FirstOf(rows: set<Record>) returns (first: Record)
    requires rows != {} && forall a, b :: a in rows && b in rows && a.id == b.id ==> a == b
    ensures first in rows && forall r :: r in rows && r != first ==> After(r, first)
  {
    first :| first in rows;
    var todo := rows - {first};
    while todo != {}
      invariant todo <= rows && first in rows && first !in todo
      invariant forall r :: r in rows && r !in todo && r != first ==> After(r, first)
      decreases todo
    {
      var r :| r in todo;
      todo := todo - {r};
      if After(first, r) { first := r; }
    }
  }

  /** `queryWarehouseCalls`: the scan, the ranking, the filters on the resolved rows, the order and the page. */
  method QueryCalls(records: seq<Record>, f: Filter, cursor: Option<Cursor>, now: int) returns (page: Page)
    requires Coherent(records)
    ensures Answers(records, f, cursor, now, page)
  {
    if cursor.Some? && cursor.value.createdAt < WindowStart(f, now) { return Page([], None); }
    var scan := Scan(records, f, cursor, now);
    ScanHas(records, f, cursor, now);
    var best := Resolve(scan);
    var rows := Chosen(best, f, now);
    RowsAreSelected(scan, best, f, now);
    var listed := List(rows);
    page := FirstPage(listed, f.pageSize);
    assert rows == Selected(records, f, cursor, now);
    assert Listed(listed) && (forall r :: r in listed <==> r in Selected(records, f, cursor, now)) && page == FirstPage(listed, f.pageSize);
  }

  function Chosen(best: map<Id, Record>, f: Filter, now: int): set<Record> {
    set id | id in best && Shown(best[id], f, now) :: best[id]
  }

  lemma RowsAreSelected(scan: seq<Record>, best: map<Id, Record>, f: Filter, now: int)
    requires forall id :: id in best <==> Best(scan, id).Some?
    requires forall id :: id in best ==> Best(scan, id) == Some(best[id])
    ensures forall r :: r in Chosen(best, f, now) <==> r in scan && Best(scan, r.id) == Some(r) && Shown(r, f, now)
    ensures forall a, b :: a in Chosen(best, f, now) && b in Chosen(best, f, now) && a.id == b.id ==> a == b
  {
    forall id | id in best ensures best[id] in scan && best[id].id == id { BestIsBest(scan, id); }
    forall r | r in scan && Best(scan, r.id) == Some(r) && Shown(r, f, now) ensures r in Chosen(best, f, now) {
      assert r.id in best && best[r.id] == r;
    }
  }
}
