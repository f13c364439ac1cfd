/**
 * What the places of a project and its workspaces are called: names that lead
 * back to what they name, and that nothing else has.
 */
module PlaceNames {
  import opened Common

  const CLOUD := "cloud"
  const MAIN := "main"

  predicate Alnum(c: char) {
    'a' <= c <= 'z' || '0' <= c <= '9'
  }

  predicate SlugChar(c: char) {
    Alnum(c) || c == '-'
  }

  /** A letter or digit, then letters, digits and hyphens. */
  predicate IsSlug(s: string) {
    s != "" && Alnum(s[0]) && forall i :: 0 <= i < |s| ==> SlugChar(s[i])
  }

  // ---------------------------------------------------------- a machine's slug

  /** Runs of anything but letters and digits become one hyphen. */
  function Hyphenate(name: string, inRun: bool): string {
    if name == "" then ""
    else if Alnum(name[0]) then [name[0]] + Hyphenate(name[1..], false)
    else if inRun then Hyphenate(name[1..], true)
    else "-" + Hyphenate(name[1..], true)
  }

  function DropLeading(s: string): string {
    if s != "" && s[0] == '-' then DropLeading(s[1..]) else s
  }

  function DropTrailing(s: string): string {
    if s != "" && s[|s| - 1] == '-' then DropTrailing(s[..|s| - 1]) else s
  }

  function Slice(s: string, n: int): string {
    if n <= 0 then "" else if |s| <= n then s else s[..n]
  }

  /** `locationSlug`, of a name that is folded to lower case and decomposed. */
  function LocationSlug(folded: string): string {
    var slug := Slice(DropTrailing(DropLeading(Hyphenate(folded, false))), 60);
    if slug == "" || slug == CLOUD || slug == MAIN then (if slug == "" then "machine" else slug) + "-machine" else slug
  }

  lemma {:induction false} HyphenateChars(name: string, inRun: bool)
    ensures forall i :: 0 <= i < |Hyphenate(name, inRun)| ==> SlugChar(Hyphenate(name, inRun)[i])
  {
    if name != "" {
      HyphenateChars(name[1..], false);
      HyphenateChars(name[1..], true);
    }
  }

  lemma {:induction false} DropLeadingIs(s: string)
    ensures DropLeading(s) != "" ==> DropLeading(s)[0] != '-'
    ensures (forall i :: 0 <= i < |s| ==> SlugChar(s[i])) ==> forall i :: 0 <= i < |DropLeading(s)| ==> SlugChar(DropLeading(s)[i])
  {
    if s != "" && s[0] == '-' { DropLeadingIs(s[1..]); }
  }

  lemma {:induction false} DropTrailingIs(s: string)
    ensures DropTrailing(s) <= s
    ensures s != "" && s[0] != '-' ==> DropTrailing(s) != ""
    decreases |s|
  {
    if s != "" && s[|s| - 1] == '-' { DropTrailingIs(s[..|s| - 1]); }
  }

  /** A machine's slug is a slug, and never means Cloud or the project root. */
  lemma LocationSlugIsASlug(folded: string)
    ensures IsSlug(LocationSlug(folded)) && LocationSlug(folded) != CLOUD && LocationSlug(folded) != MAIN
    ensures |LocationSlug(folded)| <= 60
  {
    HyphenateChars(folded, false);
    var a := Hyphenate(folded, false);
    DropLeadingIs(a);
    DropTrailingIs(DropLeading(a));
    var slug := Slice(DropTrailing(DropLeading(a)), 60);
    assert forall i :: 0 <= i < |slug| ==> slug[i] == DropLeading(a)[i];
  }

  // ------------------------------------------------------ what the slug spells

  /** The letters and digits a text begins with. */
  function Run(s: string): (run: string)
    ensures run <= s && (forall i :: 0 <= i < |run| ==> Alnum(run[i])) && (|run| < |s| ==> !Alnum(s[|run|]))
  {
    if s == "" || !Alnum(s[0]) then "" else [s[0]] + Run(s[1..])
  }

  /** A text's words: its unbroken runs of letters and digits. */
  function Words(s: string): (words: seq<string>)
    ensures forall w :: w in words ==> w != "" && forall i :: 0 <= i < |w| ==> Alnum(w[i])
    decreases |s|
  {
    if s == "" then [] else if !Alnum(s[0]) then Words(s[1..]) else [Run(s)] + Words(s[|Run(s)|..])
  }

  function Hyphenated(words: seq<string>): string {
    if words == [] then "" else if |words| == 1 then words[0] else words[0] + "-" + Hyphenated(words[1..])
  }

  lemma {:induction false} HyphenatedEnds(words: seq<string>)
    requires words != [] && forall w :: w in words ==> w != "" && forall i :: 0 <= i < |w| ==> Alnum(w[i])
    ensures var text := Hyphenated(words); text != "" && Alnum(text[0]) && Alnum(text[|text| - 1])
  {
    assert words[0] in words;
    if |words| > 1 { HyphenatedEnds(words[1..]); }
  }

  lemma {:induction false} RunIsKept(run: string, rest: string, inRun: bool)
    requires run != "" && forall i :: 0 <= i < |run| ==> Alnum(run[i])
    ensures Hyphenate(run + rest, inRun) == run + Hyphenate(rest, false)
  {
    assert (run + rest)[1..] == run[1..] + rest;
    if |run| > 1 { RunIsKept(run[1..], rest, false); } else { assert run[1..] + rest == rest; }
  }

  /** Hyphenating leaves the words with one hyphen between any two, and at most one at either end. */
  lemma {:induction false} HyphenateSpells(name: string, inRun: bool) returns (lead: string, trail: string)
    ensures Hyphenate(name, inRun) == lead + Hyphenated(Words(name)) + trail
    ensures lead == (if name != "" && !Alnum(name[0]) && !inRun then "-" else "")
    ensures trail in {"", "-"} && (Words(name) == [] ==> trail == "")
    decreases |name|
  {
    lead, trail := "", "";
    if name != "" && !Alnum(name[0]) {
      var none, end := HyphenateSpells(name[1..], true);
      lead, trail := if inRun then "" else "-", end;
      LeadOnly(lead, Hyphenated(Words(name[1..])), end);
    } else if name != "" {
      var run, rest := Run(name), name[|Run(name)|..];
      assert name == run + rest;
      RunIsKept(run, rest, inRun);
      var gap, end := HyphenateSpells(rest, false);
      trail := if Words(rest) == [] then gap else end;
      WordIsAdded(run, Words(rest), gap, end);
    }
  }

  lemma LeadOnly(lead: string, text: string, end: string)
    ensures lead + ("" + text + end) == lead + text + end
    ensures lead == "" ==> lead + text + end == "" + text + end
  {
  }

  lemma WordIsAdded(run: string, words: seq<string>, gap: string, end: string)
    requires words == [] ==> end == ""
    requires words != [] ==> gap == "-"
    ensures run + (gap + Hyphenated(words) + end) == "" + Hyphenated([run] + words) + (if words == [] then gap else end)
  {
    assert ([run] + words)[1..] == words;
  }

  lemma {:induction false} DropsHyphens(text: string, lead: string, trail: string)
    requires lead in {"", "-"} && trail in {"", "-"} && (text == "" ==> trail == "")
    requires text != "" ==> text[0] != '-' && text[|text| - 1] != '-'
    ensures DropTrailing(DropLeading(lead + text + trail)) == text
  {
    assert lead == "" ==> lead + text + trail == text + trail;
    assert lead == "-" ==> (lead + text + trail)[1..] == text + trail;
    assert DropLeading(lead + text + trail) == text + trail;
    if trail == "" { assert text + trail == text; } else { assert (text + trail)[..|text|] == text; }
  }

  /**
   * A machine's slug is the words of its name with hyphens between them, as far as
   * sixty characters go; a name without words, or that spells Cloud or the project
   * root, has `-machine` behind it.
   */
  lemma LocationSlugSpells(folded: string)
    ensures
      var text := Hyphenated(Words(folded));
      LocationSlug(folded) ==
        if text == "" then "machine" + "-machine"
        else if text == "cloud" || text == "main" then text + "-machine"
        else if |text| <= 60 then text else text[..60]
  {
    HyphenatedIsText(folded);
    var text := Hyphenated(Words(folded));
    var slug := Slice(text, 60);
    if |text| > 60 { assert |slug| == 60 && |CLOUD| == 5 && |MAIN| == 4; } else { assert slug == text; }
  }

  lemma HyphenatedIsText(folded: string)
    ensures DropTrailing(DropLeading(Hyphenate(folded, false))) == Hyphenated(Words(folded))
  {
    var lead, trail := HyphenateSpells(folded, false);
    if Words(folded) != [] { HyphenatedEnds(Words(folded)); }
    DropsHyphens(Hyphenated(Words(folded)), lead, trail);
  }

  // ------------------------------------------------------------------ numbering

  function Decimal(n: nat): string {
    if n < 10 then [('0' as int + n) as char] else Decimal(n / 10) + [('0' as int + n % 10) as char]
  }

  lemma {:induction false} DecimalDigits(n: nat)
    ensures Decimal(n) != "" && forall i :: 0 <= i < |Decimal(n)| ==> Alnum(Decimal(n)[i])
  {
    if n >= 10 { DecimalDigits(n / 10); }
  }

  lemma {:induction false} DecimalInjective(m: nat, n: nat)
    requires Decimal(m) == Decimal(n)
    ensures m == n
    decreases m + n
  {
    DecimalDigits(m / 10);
    DecimalDigits(n / 10);
    if m >= 10 && n >= 10 {
      var a, b := Decimal(m), Decimal(n);
      assert a[..|a| - 1] == Decimal(m / 10) && b[..|b| - 1] == Decimal(n / 10);
      assert a[|a| - 1] == b[|b| - 1];
      DecimalInjective(m / 10, n / 10);
    }
  }

  function Numbered(wanted: string, n: nat): string {
    wanted + "-" + Decimal(n)
  }

  lemma NumberedInjective(wanted: string, m: nat, n: nat)
    requires Numbered(wanted, m) == Numbered(wanted, n)
    ensures m == n
  {
    assert Decimal(m) == Numbered(wanted, m)[|wanted| + 1..] && Decimal(n) == Numbered(wanted, n)[|wanted| + 1..];
    DecimalInjective(m, n);
  }

  lemma NumberedIsASlug(wanted: string, n: nat)
    requires IsSlug(wanted)
    ensures IsSlug(Numbered(wanted, n)) && Numbered(wanted, n) != CLOUD && Numbered(wanted, n) != MAIN
  {
    DecimalDigits(n);
    assert Numbered(wanted, n)[|wanted|] == '-';
    assert forall i :: 0 <= i < |CLOUD| ==> CLOUD[i] != '-';
    assert forall i :: 0 <= i < |MAIN| ==> MAIN[i] != '-';
  }

  // ------------------------------------------------------- the slugs of a project

  /** A place as it is read: Cloud, or a machine with its folded name. */
  datatype Place = Place(cloud: bool, folded: string)

  function Wanted(place: Place): string {
    if place.cloud then CLOUD else LocationSlug(place.folded)
  }

  /** The wanted name when it is free, else it with the least number from two on that makes it so. */
  ghost predicate FirstFreeName(wanted: string, taken: seq<string>, slug: string) {
    if wanted !in taken then slug == wanted
    else exists n :: 2 <= n && slug == Numbered(wanted, n) && slug !in taken && forall m :: 2 <= m < n ==> Numbered(wanted, m) in taken
  }

  /**
   * The naming loop of `locationsOf`: every place gets the name it wants or the
   * first free number behind it. No name is given twice; Cloud is `cloud` and no
   * machine is, and none is `main`.
   */
  method NamePlaces(places: seq<Place>) returns (slugs: seq<string>)
    requires forall i, j :: 0 <= i < j < |places| ==> !(places[i].cloud && places[j].cloud)
    ensures |slugs| == |places|
    ensures forall i, j :: 0 <= i < j < |slugs| ==> slugs[i] != slugs[j]
    ensures forall i :: 0 <= i < |slugs| ==> IsSlug(slugs[i]) && slugs[i] != MAIN && (slugs[i] == CLOUD <==> places[i].cloud)
    ensures forall i :: 0 <= i < |slugs| ==> FirstFreeName(Wanted(places[i]), slugs[..i], slugs[i])
  {
    slugs := [];
    for i := 0 to |places|
      invariant |slugs| == i
      invariant forall j, k :: 0 <= j < k < i ==> slugs[j] != slugs[k]
      invariant forall j :: 0 <= j < i ==> IsSlug(slugs[j]) && slugs[j] != MAIN && (slugs[j] == CLOUD <==> places[j].cloud)
      invariant forall j :: 0 <= j < i ==> FirstFreeName(Wanted(places[j]), slugs[..j], slugs[j])
    {
      var slug := NamePlace(places[i], slugs);
      assert places[i].cloud ==> CLOUD !in slugs;
      slugs := slugs + [slug];
      assert forall j :: 0 <= j < i ==> slugs[..j] == slugs[..i][..j];
    }
  }

  method NamePlace(place: Place, taken: seq<string>) returns (slug: string)
    ensures slug !in taken && IsSlug(slug) && slug != MAIN
    ensures FirstFreeName(Wanted(place), taken, slug)
    ensures slug == CLOUD ==> place.cloud
  {
    var wanted := Wanted(place);
    assert IsSlug(wanted) && (wanted == CLOUD ==> place.cloud) && wanted != MAIN by {
      if !place.cloud { LocationSlugIsASlug(place.folded); }
    }
    slug := wanted;
    var suffix := 2;
    ghost var tried: set<string> := {};
    ghost var all := set s | s in taken;
    while slug in taken
      invariant suffix >= 2 && (suffix > 2 ==> wanted in taken)
      invariant slug == if suffix == 2 then wanted else Numbered(wanted, suffix - 1)
      invariant forall n :: 2 <= n < suffix - 1 ==> Numbered(wanted, n) in taken
      invariant tried <= all && forall s :: s in tried ==> exists n :: 2 <= n < suffix - 1 && s == Numbered(wanted, n)
      decreases all - tried, if suffix == 2 then 1 else 0
    {
      if suffix > 2 {
        if slug in tried {
          var n :| 2 <= n < suffix - 1 && slug == Numbered(wanted, n);
          NumberedInjective(wanted, suffix - 1, n);
        }
        tried := tried + {slug};
      }
      slug := Numbered(wanted, suffix);
      suffix := suffix + 1;
    }
    if suffix > 2 { NumberedIsASlug(wanted, suffix - 1); }
  }

  // -------------------------------------------------------- finding a place again

  datatype View = View(id: string, slug: string, name: string, device: Option<string>, cloud: bool, isDefault: bool)

  predicate Blank(c: char) {
    c == ' ' || '\t' <= c <= '\r'
  }

  function TrimLeft(s: string): string {
    if s != "" && Blank(s[0]) then TrimLeft(s[1..]) else s
  }

  function TrimRight(s: string): string {
    if s != "" && Blank(s[|s| - 1]) then TrimRight(s[..|s| - 1]) else s
  }

  function Lower(s: string): (r: string)
    ensures |r| == |s|
  {
    if s == "" then "" else [if 'A' <= s[0] <= 'Z' then (s[0] as int + 32) as char else s[0]] + Lower(s[1..])
  }

  function OrElse<T>(a: Option<T>, b: Option<T>): Option<T> {
    if a.Some? then a else b
  }

  /** `findLocation`. */
  function FindLocation(views: seq<View>, where: Option<string>): Option<View> {
    var wanted := if where.Some? then Lower(TrimRight(TrimLeft(where.value))) else "";
    if wanted == "" then Find(views, (v: View) => v.isDefault)
    else
      OrElse(Find(views, (v: View) => v.slug == wanted),
      OrElse(Find(views, (v: View) => Lower(v.name) == wanted),
      OrElse(Find(views, (v: View) => v.id == where.value || v.device == Some(where.value)),
      if wanted == "exeora-cloud" || wanted == "exeora cloud" then Find(views, (v: View) => v.cloud) else None)))
  }

  lemma {:induction false} LowerSlug(s: string)
    requires forall i :: 0 <= i < |s| ==> SlugChar(s[i])
    ensures Lower(s) == s
  {
    if s != "" { LowerSlug(s[1..]); }
  }

  lemma SlugIsTrim(s: string)
    requires IsSlug(s)
    ensures TrimRight(TrimLeft(s)) == s
  {
  }

  ghost predicate DistinctSlugs(views: seq<View>) {
    forall i, j :: 0 <= i < j < |views| ==> views[i].slug != views[j].slug
  }

  /** The name a place is published under leads back to that place. */
  lemma SlugsLeadBack(views: seq<View>, v: View)
    requires DistinctSlugs(views) && v in views && IsSlug(v.slug)
    ensures FindLocation(views, Some(v.slug)) == Some(v)
  {
    SlugIsTrim(v.slug);
    LowerSlug(v.slug);
    var found := Find(views, (w: View) => w.slug == v.slug);
    assert found.Some?;
    var i :| 0 <= i < |views| && views[i] == v;
    var j :| 0 <= j < |views| && views[j] == found.value;
  }

  /** One place of a list that is as wanted, and no other. */
  ghost predicate OnlyOne(views: seq<View>, v: View, p: View -> bool) {
    v in views && p(v) && forall w :: w in views && p(w) ==> w == v
  }

  /**
   * A place is found by its slug; where that is nobody's, by its name in any case;
   * where that is not either, by its id or its machine's; and where nothing else is
   * meant, Cloud by what it is called. Nothing said means the default.
   */
  lemma PlacesAreFound(views: seq<View>, v: View, where: string)
    ensures OnlyOne(views, v, (w: View) => w.isDefault) ==> FindLocation(views, None) == Some(v)
    ensures
      var said := Lower(TrimRight(TrimLeft(where)));
      var bySlug, byName, byId := (w: View) => w.slug == said, (w: View) => Lower(w.name) == said, (w: View) => w.id == where || w.device == Some(where);
      var noSlug := forall w :: w in views ==> !bySlug(w);
      var noName := noSlug && forall w :: w in views ==> !byName(w);
      var noId := noName && forall w :: w in views ==> !byId(w);
      && (said == "" && OnlyOne(views, v, (w: View) => w.isDefault) ==> FindLocation(views, Some(where)) == Some(v))
      && (said != "" && OnlyOne(views, v, bySlug) ==> FindLocation(views, Some(where)) == Some(v))
      && (said != "" && noSlug && OnlyOne(views, v, byName) ==> FindLocation(views, Some(where)) == Some(v))
      && (said != "" && noName && OnlyOne(views, v, byId) ==> FindLocation(views, Some(where)) == Some(v))
      && (noId && (said == "exeora-cloud" || said == "exeora cloud") && OnlyOne(views, v, (w: View) => w.cloud) ==>
            FindLocation(views, Some(where)) == Some(v))
      && (noId && said !in {"", "exeora-cloud", "exeora cloud"} ==> FindLocation(views, Some(where)) == None)
  {
  }

  // -------------------------------------------------------------- root selectors

  function RootSelector(location: string): string {
    MAIN + "@" + location
  }

  /** `rootLocation`: `main@` in any case, then a slug in any case. */
  function RootLocation(selector: Option<string>): Option<string> {
    if selector.None? || selector.value == "" then None
    else
      var text := Lower(TrimRight(TrimLeft(selector.value)));
      if |text| > 5 && text[..5] == MAIN + "@" && IsSlug(text[5..]) then Some(text[5..]) else None
  }

  /** The selector of a root names its location, and only selectors of it do. */
  lemma SelectorsRoundTrip(location: string, selector: string)
    requires IsSlug(location)
    ensures RootLocation(Some(RootSelector(location))) == Some(location)
    ensures RootLocation(Some(selector)) == Some(location) <==> Lower(TrimRight(TrimLeft(selector))) == RootSelector(location)
  {
    var text := RootSelector(location);
    assert text[..5] == MAIN + "@" && text[5..] == location;
    assert TrimRight(TrimLeft(text)) == text;
    LowerRoot(location);
    if selector == "" { assert TrimRight(TrimLeft(selector)) == ""; }
    var given := Lower(TrimRight(TrimLeft(selector)));
    if RootLocation(Some(selector)) == Some(location) { assert given == given[..5] + given[5..]; }
  }

  lemma LowerRoot(location: string)
    requires IsSlug(location)
    ensures Lower(RootSelector(location)) == RootSelector(location)
  {
    LowerSlug(location);
    LowerConcat(MAIN + "@", location);
    LowerSlug(MAIN);
    LowerConcat(MAIN, "@");
    assert Lower("@") == "@" by { assert "@"[1..] == ""; }
  }

  lemma {:induction false} LowerConcat(a: string, b: string)
    ensures Lower(a + b) == Lower(a) + Lower(b)
  {
    if a == "" {
      assert a + b == b;
    } else {
      LowerConcat(a[1..], b);
      assert (a + b)[1..] == a[1..] + b;
    }
  }
}
