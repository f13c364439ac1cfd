/** The slug a workspace gets: the one it asks for, or that one with its location behind it. */
module WorkspaceSlugs {
  import opened Common
  import opened PlaceNames

  type Id = nat
  type Machine = nat

  const LONGEST := 60

  /** A workspace of the project: its slug, and the machine that holds it, its own or the project's. */
  datatype Workspace = Workspace(id: Id, slug: string, machine: Machine)

  /** Who asks: what for, which machine holds it (none for one being made on Cloud), its machine's suffix, and itself when it exists. */
  datatype Request = Request(wanted: string, machine: Option<Machine>, suffix: string, own: Option<Id>)

  datatype Choice = Slug(slug: string) | Conflict

  predicate StartsWith(s: string, prefix: string) {
    |prefix| <= |s| && s[..|prefix|] == prefix
  }

  /** The rows the query reads: workspaces whose slug starts with the wanted one. */
  function Taken(rows: seq<Workspace>, wanted: string): seq<Workspace> {
    if rows == [] then []
    else if StartsWith(rows[0].slug, wanted) then [rows[0]] + Taken(rows[1..], wanted)
    else Taken(rows[1..], wanted)
  }

  function Others(rows: seq<Workspace>, own: Option<Id>): seq<Workspace> {
    if rows == [] then []
    else if own == Some(rows[0].id) then Others(rows[1..], own)
    else [rows[0]] + Others(rows[1..], own)
  }

  predicate Used(rows: seq<Workspace>, slug: string) {
    exists i :: 0 <= i < |rows| && rows[i].slug == slug
  }

  function Base(r: Request): string {
    Slice(r.wanted, 59 - |r.suffix|) + "-" + r.suffix
  }

  function Tail(n: nat): string {
    "-" + Decimal(n)
  }

  function Candidate(base: string, n: nat): string {
    Slice(base, LONGEST - |Tail(n)|) + Tail(n)
  }

  /** The first number from `n` on that is free. */
  function FirstFree(others: seq<Workspace>, base: string, n: nat): Choice
    decreases 100 - n
  {
    if n >= 100 then Conflict
    else if !Used(others, Candidate(base, n)) then Slug(Candidate(base, n))
    else FirstFree(others, base, n + 1)
  }

  /** The other workspaces the query saw. */
  function Rivals(rows: seq<Workspace>, r: Request): seq<Workspace> {
    Others(Taken(rows, r.wanted), r.own)
  }

  /** The workspace asking, when the query saw it. */
  function Own(rows: seq<Workspace>, r: Request): (own: Option<Workspace>)
    ensures own.Some? ==> own.value in Taken(rows, r.wanted) && r.own == Some(own.value.id)
    ensures own.None? ==> forall w :: w in Taken(rows, r.wanted) ==> r.own != Some(w.id)
  {
    Find(Taken(rows, r.wanted), (w: Workspace) => r.own == Some(w.id))
  }

  /** Who else has a slug. */
  function Holder(others: seq<Workspace>, slug: string): (holder: Option<Workspace>)
    ensures holder.Some? ==> holder.value in others && holder.value.slug == slug
    ensures holder.None? ==> forall w :: w in others ==> w.slug != slug
    ensures holder.None? <==> !Used(others, slug)
  {
    var holder := Find(others, (w: Workspace) => w.slug == slug);
    assert forall i :: 0 <= i < |others| ==> others[i] in others;
    holder
  }

  /** `chooseWorkspaceSlug`. */
  function Choose(rows: seq<Workspace>, r: Request): Choice {
    var own, others := Own(rows, r), Rivals(rows, r);
    var holder := Holder(others, r.wanted);
    if holder.None? then Slug(r.wanted)
    else if own.Some? && own.value.slug != r.wanted && StartsWith(own.value.slug, r.wanted + "-") then Slug(own.value.slug)
    else if r.machine == Some(holder.value.machine) then Conflict
    else Suffixed(others, r)
  }

  /** With the location behind it, or a number behind that. */
  function Suffixed(others: seq<Workspace>, r: Request): Choice {
    var base := Base(r);
    var sibling := Holder(others, base);
    if sibling.None? then Slug(base)
    else if r.machine == Some(sibling.value.machine) then Conflict
    else FirstFree(others, base, 2)
  }

  // ---------------------------------------------------------------- theorems

  lemma {:induction false} TakenIs(rows: seq<Workspace>, wanted: string)
    ensures forall w :: w in Taken(rows, wanted) <==> w in rows && StartsWith(w.slug, wanted)
  {
    if rows != [] { TakenIs(rows[1..], wanted); }
  }

  lemma {:induction false} OthersIs(rows: seq<Workspace>, own: Option<Id>)
    ensures forall w :: w in Others(rows, own) <==> w in rows && own != Some(w.id)
  {
    if rows != [] { OthersIs(rows[1..], own); }
  }

  ghost predicate HeldByAnother(rows: seq<Workspace>, own: Option<Id>, slug: string) {
    exists w :: w in rows && own != Some(w.id) && w.slug == slug
  }

  /** What the query sees of others is all there is to see of a slug that starts with the wanted one. */
  lemma UsedIsHeld(rows: seq<Workspace>, r: Request, slug: string)
    requires StartsWith(slug, r.wanted)
    ensures Used(Rivals(rows, r), slug) <==> HeldByAnother(rows, r.own, slug)
  {
    var others := Rivals(rows, r);
    TakenIs(rows, r.wanted);
    OthersIs(Taken(rows, r.wanted), r.own);
    if Used(others, slug) {
      var i :| 0 <= i < |others| && others[i].slug == slug;
      assert others[i] in others;
    }
    if HeldByAnother(rows, r.own, slug) {
      var w :| w in rows && r.own != Some(w.id) && w.slug == slug;
      assert w in others;
      var i :| 0 <= i < |others| && others[i] == w;
    }
  }

  /** Short enough for nothing to be cut off: the wanted slug and the suffix, and any number behind them. */
  predicate Fits(r: Request) {
    |r.wanted| + |r.suffix| <= 59 && |r.wanted| <= 57
  }

  lemma TailLength(n: nat)
    requires 2 <= n < 100
    ensures 2 <= |Tail(n)| <= 3
  {
    if n >= 10 { assert |Decimal(n / 10)| == 1; }
  }

  lemma BaseFits(r: Request)
    requires Fits(r)
    ensures Base(r) == r.wanted + "-" + r.suffix && |Base(r)| <= LONGEST && StartsWith(Base(r), r.wanted + "-")
  {
    assert (r.wanted + "-" + r.suffix)[..|r.wanted| + 1] == r.wanted + "-";
  }

  lemma CandidateFits(r: Request, n: nat)
    requires Fits(r) && 2 <= n < 100
    ensures |Candidate(Base(r), n)| <= LONGEST && StartsWith(Candidate(Base(r), n), r.wanted + "-")
  {
    BaseFits(r);
    TailLength(n);
    var base, candidate := Base(r), Candidate(Base(r), n);
    var kept := Slice(base, LONGEST - |Tail(n)|);
    assert candidate == kept + Tail(n);
    if |kept| > |r.wanted| {
      assert candidate[..|r.wanted| + 1] == base[..|r.wanted| + 1];
    } else {
      assert kept == r.wanted;
      assert candidate[..|r.wanted| + 1] == r.wanted + "-";
    }
  }

  lemma StartsWithout(s: string, prefix: string)
    requires StartsWith(s, prefix + "-")
    ensures StartsWith(s, prefix) && s != prefix
  {
    assert s[..|prefix|] == s[..|prefix| + 1][..|prefix|] == (prefix + "-")[..|prefix|] == prefix;
  }

  lemma {:induction false} FirstFreeIsFree(rows: seq<Workspace>, r: Request, n: nat)
    requires Fits(r) && 2 <= n
    ensures
      var choice := FirstFree(Rivals(rows, r), Base(r), n);
      choice.Slug? ==> |choice.slug| <= LONGEST && StartsWith(choice.slug, r.wanted + "-") && !HeldByAnother(rows, r.own, choice.slug)
    decreases 100 - n
  {
    if n < 100 {
      CandidateFits(r, n);
      StartsWithout(Candidate(Base(r), n), r.wanted);
      UsedIsHeld(rows, r, Candidate(Base(r), n));
      FirstFreeIsFree(rows, r, n + 1);
    }
  }

  /** No two workspaces of the project have the same slug, nor the same id. */
  ghost predicate Unique(rows: seq<Workspace>) {
    forall a, b :: a in rows && b in rows && (a.slug == b.slug || a.id == b.id) ==> a == b
  }

  /** A chosen slug is nobody else's, fits, and is the wanted one or the wanted one with something behind it. */
  lemma ChosenSlugsAreFree(rows: seq<Workspace>, r: Request)
    requires Unique(rows) && Fits(r) && (forall w :: w in rows ==> |w.slug| <= LONGEST) && Choose(rows, r).Slug?
    ensures
      var slug := Choose(rows, r).slug;
      && !HeldByAnother(rows, r.own, slug) && |slug| <= LONGEST
      && (slug == r.wanted || StartsWith(slug, r.wanted + "-"))
  {
    UsedIsHeld(rows, r, r.wanted);
    if Holder(Rivals(rows, r), r.wanted).Some? {
      OwnIsOwn(rows, r);
      SuffixedIsFree(rows, r);
    }
  }

  lemma OwnIsOwn(rows: seq<Workspace>, r: Request)
    requires Unique(rows)
    ensures Own(rows, r).Some? ==> Own(rows, r).value in rows && !HeldByAnother(rows, r.own, Own(rows, r).value.slug)
  {
    TakenIs(rows, r.wanted);
  }

  lemma SuffixedIsFree(rows: seq<Workspace>, r: Request)
    requires Fits(r)
    ensures
      var choice := Suffixed(Rivals(rows, r), r);
      choice.Slug? ==> |choice.slug| <= LONGEST && StartsWith(choice.slug, r.wanted + "-") && !HeldByAnother(rows, r.own, choice.slug)
  {
    BaseFits(r);
    StartsWithout(Base(r), r.wanted);
    UsedIsHeld(rows, r, Base(r));
    FirstFreeIsFree(rows, r, 2);
  }

  /** Once a workspace holds the slug that was chosen for it, asking for the same one again gives it the same. */
  lemma AskingAgainGivesTheSame(rows: seq<Workspace>, r: Request, after: seq<Workspace>)
    requires Unique(rows) && Fits(r) && (forall w :: w in rows ==> |w.slug| <= LONGEST) && Choose(rows, r).Slug? && r.own.Some?
    requires Unique(after) && forall w :: w in after && r.own != Some(w.id) <==> w in rows && r.own != Some(w.id)
    requires exists own :: own in after && r.own == Some(own.id) && own.slug == Choose(rows, r).slug
    ensures Choose(after, r) == Choose(rows, r)
  {
    var slug := Choose(rows, r).slug;
    var own :| own in after && r.own == Some(own.id) && own.slug == slug;
    SameRivals(rows, after, r);
    if Holder(Rivals(rows, r), r.wanted).Some? {
      ChosenIsLonger(rows, r);
      OwnIsFound(after, r, own);
    }
  }

  /** When the wanted slug is held, what is given has something behind it. */
  lemma ChosenIsLonger(rows: seq<Workspace>, r: Request)
    requires Fits(r) && Choose(rows, r).Slug? && Holder(Rivals(rows, r), r.wanted).Some?
    ensures StartsWith(Choose(rows, r).slug, r.wanted + "-")
  {
    SuffixedIsFree(rows, r);
  }

  lemma OwnIsFound(rows: seq<Workspace>, r: Request, own: Workspace)
    requires Unique(rows) && own in rows && r.own == Some(own.id) && StartsWith(own.slug, r.wanted + "-")
    ensures Own(rows, r) == Some(own) && own.slug != r.wanted
  {
    StartsWithout(own.slug, r.wanted);
    TakenIs(rows, r.wanted);
    assert own in Taken(rows, r.wanted);
  }

  lemma SameRivals(rows: seq<Workspace>, after: seq<Workspace>, r: Request)
    requires forall w :: w in after && r.own != Some(w.id) <==> w in rows && r.own != Some(w.id)
    ensures Holder(Rivals(rows, r), r.wanted).None? <==> Holder(Rivals(after, r), r.wanted).None?
  {
    TakenIs(rows, r.wanted);
    TakenIs(after, r.wanted);
    OthersIs(Taken(rows, r.wanted), r.own);
    OthersIs(Taken(after, r.wanted), r.own);
    assert forall w :: w in Rivals(rows, r) <==> w in Rivals(after, r);
  }

  // ------------------------------------------- exactly when the search is enough

  /** Whatever has to be cut to make room, the wanted slug is still in front, where the query looks for it. */
  ghost predicate InSight(r: Request) {
    && StartsWith(Base(r), r.wanted)
    && forall n :: 2 <= n < 100 ==> StartsWith(Candidate(Base(r), n), r.wanted)
  }

  ghost predicate NeverCollides(r: Request) {
    forall rows :: Unique(rows) && Choose(rows, r).Slug? ==> !HeldByAnother(rows, r.own, Choose(rows, r).slug)
  }

  /** A machine other than the one that asks, and ids other than the workspace that asks. */
  function Elsewhere(r: Request): Machine {
    if r.machine == Some(1) then 2 else 1
  }

  function IdOf(r: Request, n: nat): Id {
    (if r.own.Some? then r.own.value + 1 else 0) + n
  }

  /** A project with a workspace elsewhere under each of some slugs. */
  function ProjectWith(slugs: seq<string>, r: Request): seq<Workspace> {
    if slugs == [] then []
    else if slugs[0] in slugs[1..] then ProjectWith(slugs[1..], r)
    else [Workspace(IdOf(r, |slugs|), slugs[0], Elsewhere(r))] + ProjectWith(slugs[1..], r)
  }

  lemma {:induction false} ProjectHas(slugs: seq<string>, r: Request)
    ensures Unique(ProjectWith(slugs, r))
    ensures forall w :: w in ProjectWith(slugs, r) ==>
      w.slug in slugs && r.own != Some(w.id) && w.machine == Elsewhere(r) && IdOf(r, 0) < w.id <= IdOf(r, |slugs|)
    ensures forall slug :: slug in slugs ==> HeldByAnother(ProjectWith(slugs, r), r.own, slug)
  {
    if slugs != [] {
      var rest := ProjectWith(slugs[1..], r);
      ProjectHas(slugs[1..], r);
      if slugs[0] !in slugs[1..] {
        var first := Workspace(IdOf(r, |slugs|), slugs[0], Elsewhere(r));
        assert ProjectWith(slugs, r) == [first] + rest;
        assert forall w :: w in [first] + rest <==> w == first || w in rest;
        forall slug | slug in slugs ensures HeldByAnother([first] + rest, r.own, slug) {
          if slug == slugs[0] {
            assert first in [first] + rest;
          } else {
            assert HeldByAnother(rest, r.own, slug);
            var w :| w in rest && r.own != Some(w.id) && w.slug == slug;
            assert w in [first] + rest;
          }
        }
      }
    }
  }

  /** In such a project the workspace that asks is not there, and no machine is its own. */
  lemma ProjectHolds(slugs: seq<string>, r: Request, slug: string)
    requires StartsWith(slug, r.wanted)
    ensures
      var rows := ProjectWith(slugs, r);
      && Own(rows, r).None?
      && (Holder(Rivals(rows, r), slug).Some? <==> slug in slugs)
      && (Holder(Rivals(rows, r), slug).Some? ==> Some(Holder(Rivals(rows, r), slug).value.machine) != r.machine)
  {
    var rows := ProjectWith(slugs, r);
    ProjectHas(slugs, r);
    TakenIs(rows, r.wanted);
    OthersIs(Taken(rows, r.wanted), r.own);
    UsedIsHeld(rows, r, slug);
  }

  lemma OutOfSight(rows: seq<Workspace>, r: Request, slug: string)
    requires !StartsWith(slug, r.wanted)
    ensures !Used(Rivals(rows, r), slug)
  {
    var others := Rivals(rows, r);
    TakenIs(rows, r.wanted);
    OthersIs(Taken(rows, r.wanted), r.own);
    forall i | 0 <= i < |others| ensures others[i].slug != slug {
      assert others[i] in others;
    }
  }

  /** The slug behind which the query loses sight, and what comes before it. */
  function Numbers(r: Request, n: nat): seq<string> {
    if n <= 2 then [] else Numbers(r, n - 1) + [Candidate(Base(r), n - 1)]
  }

  lemma {:induction false} NumbersHas(r: Request, n: nat, k: nat)
    requires 2 <= k < n
    ensures Candidate(Base(r), k) in Numbers(r, n)
    decreases n
  {
    if k < n - 1 { NumbersHas(r, n - 1, k); }
    assert Numbers(r, n)[|Numbers(r, n)| - 1] == Candidate(Base(r), n - 1);
  }

  lemma {:induction false} SkipsTo(others: seq<Workspace>, base: string, k: nat, n: nat)
    requires k <= n < 100 && (forall m :: k <= m < n ==> Used(others, Candidate(base, m))) && !Used(others, Candidate(base, n))
    ensures FirstFree(others, base, k) == Slug(Candidate(base, n))
    decreases n - k
  {
    if k < n { SkipsTo(others, base, k + 1, n); }
  }

  /** A base that lost the wanted slug is given although another holds it. */
  lemma BaseCollides(r: Request)
    requires !StartsWith(Base(r), r.wanted)
    ensures !NeverCollides(r)
  {
    var slugs := [r.wanted, Base(r)];
    var rows := ProjectWith(slugs, r);
    ProjectHas(slugs, r);
    assert StartsWith(r.wanted, r.wanted);
    ProjectHolds(slugs, r, r.wanted);
    OutOfSight(rows, r, Base(r));
    assert slugs[1] in slugs && slugs[0] in slugs;
    assert Choose(rows, r) == Slug(Base(r));
  }

  /** So is the first numbered one that lost it. */
  lemma NumberCollides(r: Request, n: nat)
    requires StartsWith(Base(r), r.wanted) && 2 <= n < 100 && !StartsWith(Candidate(Base(r), n), r.wanted)
    requires forall k :: 2 <= k < n ==> StartsWith(Candidate(Base(r), k), r.wanted)
    ensures !NeverCollides(r)
  {
    var slugs := [r.wanted, Base(r), Candidate(Base(r), n)] + Numbers(r, n);
    var rows := ProjectWith(slugs, r);
    assert slugs[0] in slugs && slugs[1] in slugs && slugs[2] in slugs;
    ProjectHas(slugs, r);
    assert StartsWith(r.wanted, r.wanted);
    ProjectHolds(slugs, r, r.wanted);
    ProjectHolds(slugs, r, Base(r));
    forall k | 2 <= k < n ensures Used(Rivals(rows, r), Candidate(Base(r), k)) {
      NumbersHas(r, n, k);
      ProjectHolds(slugs, r, Candidate(Base(r), k));
    }
    OutOfSight(rows, r, Candidate(Base(r), n));
    SkipsTo(Rivals(rows, r), Base(r), 2, n);
    assert Choose(rows, r) == Slug(Candidate(Base(r), n));
  }

  lemma {:induction false} FirstOutOfSight(r: Request, n: nat) returns (first: nat)
    requires 2 <= n < 100 && !StartsWith(Candidate(Base(r), n), r.wanted)
    ensures 2 <= first <= n && !StartsWith(Candidate(Base(r), first), r.wanted)
    ensures forall k :: 2 <= k < first ==> StartsWith(Candidate(Base(r), k), r.wanted)
    decreases n
  {
    if k :| 2 <= k < n && !StartsWith(Candidate(Base(r), k), r.wanted) {
      first := FirstOutOfSight(r, k);
    } else {
      first := n;
    }
  }

  lemma {:induction false} SeenIsFree(rows: seq<Workspace>, r: Request, n: nat)
    requires InSight(r) && 2 <= n && FirstFree(Rivals(rows, r), Base(r), n).Slug?
    ensures !HeldByAnother(rows, r.own, FirstFree(Rivals(rows, r), Base(r), n).slug)
    decreases 100 - n
  {
    if n < 100 {
      UsedIsHeld(rows, r, Candidate(Base(r), n));
      if Used(Rivals(rows, r), Candidate(Base(r), n)) { SeenIsFree(rows, r, n + 1); }
    }
  }

  lemma ChosenInSight(rows: seq<Workspace>, r: Request)
    requires Unique(rows) && InSight(r) && Choose(rows, r).Slug?
    ensures !HeldByAnother(rows, r.own, Choose(rows, r).slug)
  {
    UsedIsHeld(rows, r, r.wanted);
    UsedIsHeld(rows, r, Base(r));
    OwnIsOwn(rows, r);
    if FirstFree(Rivals(rows, r), Base(r), 2).Slug? { SeenIsFree(rows, r, 2); }
  }

  /**
   * The search can be trusted exactly when cutting to length leaves the wanted
   * slug in front: otherwise there is a project in which the slug it gives belongs
   * to another workspace already.
   */
  lemma CollidesExactly(r: Request)
    ensures NeverCollides(r) <==> InSight(r)
  {
    if InSight(r) {
      forall rows | Unique(rows) && Choose(rows, r).Slug? ensures !HeldByAnother(rows, r.own, Choose(rows, r).slug) {
        ChosenInSight(rows, r);
      }
    } else if StartsWith(Base(r), r.wanted) {
      var n :| 2 <= n < 100 && !StartsWith(Candidate(Base(r), n), r.wanted);
      var first := FirstOutOfSight(r, n);
      NumberCollides(r, first);
    } else {
      BaseCollides(r);
    }
  }

  /** Short requests are always in sight. */
  lemma FittingIsInSight(r: Request)
    requires Fits(r)
    ensures InSight(r)
  {
    BaseFits(r);
    StartsWithout(Base(r), r.wanted);
    forall n | 2 <= n < 100 ensures StartsWith(Candidate(Base(r), n), r.wanted) {
      CandidateFits(r, n);
      StartsWithout(Candidate(Base(r), n), r.wanted);
    }
  }

  /** Requests that are not exist: sixty letters and the suffix of Cloud. */
  lemma LongSlugsAreCut()
    ensures
      var r := Request(seq(60, _ => 'a'), None, CLOUD, None);
      |r.wanted| <= LONGEST && !InSight(r)
  {
    var r := Request(seq(60, _ => 'a'), None, CLOUD, None);
    assert |Base(r)| == 60 && Base(r)[54] == '-' && r.wanted[54] == 'a';
    assert Base(r)[..60] == Base(r);
  }

  // ------------------------------------------------------- what is chosen, and when

  /** Another workspace on the machine that asks has a slug. */
  ghost predicate HeldHere(rows: seq<Workspace>, r: Request, slug: string) {
    exists w :: w in rows && r.own != Some(w.id) && w.slug == slug && r.machine == Some(w.machine)
  }

  /** Another workspace has a slug, and the query looks where that is. */
  ghost predicate Seen(rows: seq<Workspace>, r: Request, slug: string) {
    StartsWith(slug, r.wanted) && HeldByAnother(rows, r.own, slug)
  }

  /** The workspace that asks has the wanted slug with something behind it. */
  ghost predicate Keeps(rows: seq<Workspace>, r: Request, slug: string) {
    StartsWith(slug, r.wanted + "-") && exists w :: w in rows && r.own == Some(w.id) && w.slug == slug
  }

  /** The number from which on nothing is free, or the first free one. */
  ghost predicate FreeAt(rows: seq<Workspace>, r: Request, n: nat) {
    && 2 <= n <= 100 && (n < 100 ==> !Seen(rows, r, Candidate(Base(r), n)))
    && forall k :: 2 <= k < n ==> Seen(rows, r, Candidate(Base(r), k))
  }

  /**
   * What a request is answered: the wanted slug while nobody else has it; what the
   * workspace was given before; a conflict when it is held on the same machine; else
   * the suffixed one; a conflict when that is held on the same machine; else the
   * first free number behind it, or a conflict when there is none below a hundred.
   */
  ghost predicate Decided(rows: seq<Workspace>, r: Request, choice: Choice) {
    if !HeldByAnother(rows, r.own, r.wanted) then choice == Slug(r.wanted)
    else if exists slug :: Keeps(rows, r, slug) then exists slug :: Keeps(rows, r, slug) && choice == Slug(slug)
    else if HeldHere(rows, r, r.wanted) then choice == Conflict
    else if !Seen(rows, r, Base(r)) then choice == Slug(Base(r))
    else if HeldHere(rows, r, Base(r)) then choice == Conflict
    else exists n :: FreeAt(rows, r, n) && choice == if n < 100 then Slug(Candidate(Base(r), n)) else Conflict
  }

  lemma SeenIsUsed(rows: seq<Workspace>, r: Request, slug: string)
    ensures Used(Rivals(rows, r), slug) <==> Seen(rows, r, slug)
  {
    if StartsWith(slug, r.wanted) { UsedIsHeld(rows, r, slug); } else { OutOfSight(rows, r, slug); }
  }

  /** With slugs of their own, the holder the search finds is the one there is. */
  lemma HolderIs(rows: seq<Workspace>, r: Request, slug: string)
    requires Unique(rows) && Seen(rows, r, slug)
    ensures Holder(Rivals(rows, r), slug).Some?
    ensures r.machine == Some(Holder(Rivals(rows, r), slug).value.machine) <==> HeldHere(rows, r, slug)
  {
    SeenIsUsed(rows, r, slug);
    TakenIs(rows, r.wanted);
    OthersIs(Taken(rows, r.wanted), r.own);
  }

  lemma {:induction false} FreeFrom(rows: seq<Workspace>, r: Request, n: nat)
    requires 2 <= n <= 100 && forall k :: 2 <= k < n ==> Seen(rows, r, Candidate(Base(r), k))
    ensures exists m :: FreeAt(rows, r, m) && FirstFree(Rivals(rows, r), Base(r), n) == if m < 100 then Slug(Candidate(Base(r), m)) else Conflict
    decreases 100 - n
  {
    if n < 100 { SeenIsUsed(rows, r, Candidate(Base(r), n)); }
    if n == 100 || !Seen(rows, r, Candidate(Base(r), n)) {
      assert FreeAt(rows, r, n);
    } else {
      FreeFrom(rows, r, n + 1);
    }
  }

  /** Every request is answered so, whatever rows there are and in whatever order they are read. */
  lemma ChoicesAreDecided(rows: seq<Workspace>, r: Request)
    requires Unique(rows)
    ensures Decided(rows, r, Choose(rows, r))
  {
    assert StartsWith(r.wanted, r.wanted);
    SeenIsUsed(rows, r, r.wanted);
    SeenIsUsed(rows, r, Base(r));
    if Seen(rows, r, r.wanted) {
      HolderIs(rows, r, r.wanted);
      KeptIsOwn(rows, r);
      if Seen(rows, r, Base(r)) { HolderIs(rows, r, Base(r)); }
      FreeFrom(rows, r, 2);
    }
  }

  lemma KeptIsOwn(rows: seq<Workspace>, r: Request)
    requires Unique(rows)
    ensures var own := Own(rows, r); forall slug :: Keeps(rows, r, slug) <==> own.Some? && own.value.slug == slug && StartsWith(slug, r.wanted + "-")
  {
    TakenIs(rows, r.wanted);
    forall slug | Keeps(rows, r, slug) ensures Own(rows, r).Some? && Own(rows, r).value.slug == slug {
      var w :| w in rows && r.own == Some(w.id) && w.slug == slug;
      OwnIsFound(rows, r, w);
    }
  }

  // ------------------------------------------------------------------ the code

  method FindUsed(others: seq<Workspace>, slug: string) returns (used: bool)
    ensures used <==> Used(others, slug)
  {
    used := false;
    for i := 0 to |others|
      invariant used <==> Used(others[..i], slug)
    {
      assert others[..i + 1] == others[..i] + [others[i]];
      if others[i].slug == slug {
        used := true;
        assert others[..i + 1][i].slug == slug;
      }
    }
    assert others[..|others|] == others;
  }

  /** `chooseWorkspaceSlug`, with its counting loop. */
  method ChooseWorkspaceSlug(rows: seq<Workspace>, r: Request) returns (choice: Choice)
    ensures choice == Choose(rows, r)
    ensures Unique(rows) && Fits(r) && (forall w :: w in rows ==> |w.slug| <= LONGEST) && choice.Slug? ==>
      !HeldByAnother(rows, r.own, choice.slug) && |choice.slug| <= LONGEST
  {
    if Unique(rows) && Fits(r) && (forall w :: w in rows ==> |w.slug| <= LONGEST) && Choose(rows, r).Slug? { ChosenSlugsAreFree(rows, r); }
    var own, others := Own(rows, r), Rivals(rows, r);
    var holder := Holder(others, r.wanted);
    if holder.None? { return Slug(r.wanted); }
    if own.Some? && own.value.slug != r.wanted && StartsWith(own.value.slug, r.wanted + "-") { return Slug(own.value.slug); }
    if r.machine == Some(holder.value.machine) { return Conflict; }
    var base := Base(r);
    var used := FindUsed(others, base);
    if !used { return Slug(base); }
    var sibling := Holder(others, base);
    if r.machine == Some(sibling.value.machine) { return Conflict; }
    for n := 2 to 100
      invariant FirstFree(others, base, n) == FirstFree(others, base, 2)
      invariant Choose(rows, r) == FirstFree(others, base, 2)
    {
      var candidate := Candidate(base, n);
      used := FindUsed(others, candidate);
      if !used { return Slug(candidate); }
    }
    return Conflict;
  }
}
