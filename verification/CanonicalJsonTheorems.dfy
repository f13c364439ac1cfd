/** Two values print the same exactly when they are the same JSON value. */
module CanonicalJsonTheorems {
  import opened CanonicalJson

  // ------------------------------------------------------------------ escapes

  lemma HexInjective(u: Unit, v: Unit)
    requires UnicodeEscape(u) == UnicodeEscape(v)
    ensures u == v
  {
    var a, b := UnicodeEscape(u), UnicodeEscape(v);
    assert a[2] == b[2] && a[3] == b[3] && a[4] == b[4] && a[5] == b[5];
    HexDigits(u);
    HexDigits(v);
  }

  lemma HexDigits(u: Unit)
    ensures u == u / 4096 * 4096 + u / 256 % 16 * 256 + u / 16 % 16 * 16 + u % 16
  {
    assert u / 256 == u / 4096 * 16 + u / 256 % 16;
    assert u / 16 == u / 256 * 16 + u / 16 % 16;
  }

  lemma EscapeParses(u: Unit, v: Unit, x: Text, y: Text)
    requires Escape(u) + x == Escape(v) + y
    ensures u == v && x == y
  {
    var a, b := Escape(u) + x, Escape(v) + y;
    assert a[0] == b[0];
    if Escape(u)[0] == BACKSLASH {
      assert a[1] == b[1] && a[1] == Escape(u)[1] && b[1] == Escape(v)[1];
      if |Escape(u)| == 6 {
        assert |Escape(v)| == 6;
        assert a[..6] == UnicodeEscape(u) && b[..6] == UnicodeEscape(v);
        HexInjective(u, v);
      }
    }
    assert u == v;
    assert x == a[|Escape(u)|..] && y == b[|Escape(v)|..];
  }

  /** Texts of the same length in front of others are the same when the wholes are. */
  lemma SameFront(a: Text, x: Text, b: Text, y: Text)
    requires a + x == b + y && |a| == |b|
    ensures a == b && x == y
  {
    assert a == (a + x)[..|a|] && b == (b + y)[..|b|];
    assert x == (a + x)[|a|..] && y == (b + y)[|b|..];
  }

  lemma SameFirst(a: Text, x: Text, b: Text, y: Text)
    requires a + x == b + y && a != [] && b != []
    ensures a[0] == b[0]
  {
    assert (a + x)[0] == a[0] && (b + y)[0] == b[0];
  }

  /** How many units of a string are printed together. */
  function Width(t: Text): nat {
    if StartsPair(t) then 2 else 1
  }

  function Chunk(t: Text): Text
    requires t != []
  {
    if StartsPair(t) then t[..2] else Escape(t[0])
  }

  lemma EscapedSplit(t: Text, r: Text)
    requires t != []
    ensures Escaped(t) + r == Chunk(t) + (Escaped(t[Width(t)..]) + r)
  {
  }

  lemma ChunkStart(t: Text)
    requires t != []
    ensures Chunk(t) != [] && Chunk(t)[0] != QUOTE && (StartsPair(t) <==> High(Chunk(t)[0]))
  {
  }

  /** The closing quote is told from anything a string prints. */
  lemma EscapedFirst(t: Text, r: Text)
    ensures Escaped(t) + ([QUOTE] + r) != []
    ensures t == [] <==> (Escaped(t) + ([QUOTE] + r))[0] == QUOTE
  {
    if t != [] {
      EscapedSplit(t, [QUOTE] + r);
      ChunkStart(t);
    }
  }

  lemma ChunkParses(t: Text, u: Text, x: Text, y: Text)
    requires t != [] && u != [] && Chunk(t) + x == Chunk(u) + y
    ensures Width(t) == Width(u) && t[..Width(t)] == u[..Width(u)] && x == y
  {
    ChunkStart(t);
    ChunkStart(u);
    SameFirst(Chunk(t), x, Chunk(u), y);
    if StartsPair(t) {
      SameFront(Chunk(t), x, Chunk(u), y);
    } else {
      EscapeParses(t[0], u[0], x, y);
    }
  }

  /** A string's text can be read back from what follows the opening quote. */
  lemma {:induction false} EscapedParses(t: Text, u: Text, r: Text, s: Text)
    requires Escaped(t) + ([QUOTE] + r) == Escaped(u) + ([QUOTE] + s)
    ensures t == u && r == s
    decreases |t| + |u|
  {
    var p, q := [QUOTE] + r, [QUOTE] + s;
    EscapedFirst(t, r);
    EscapedFirst(u, s);
    if t == [] {
      assert p == Escaped(t) + p && q == Escaped(u) + q;
      SameFront([QUOTE], r, [QUOTE], s);
    } else {
      EscapedSplit(t, p);
      EscapedSplit(u, q);
      ChunkParses(t, u, Escaped(t[Width(t)..]) + p, Escaped(u[Width(u)..]) + q);
      EscapedParses(t[Width(t)..], u[Width(u)..], r, s);
      assert t == t[..Width(t)] + t[Width(t)..] && u == u[..Width(u)] + u[Width(u)..];
    }
  }

  lemma QuoteParses(t: Text, u: Text, r: Text, s: Text)
    requires Quote(t) + r == Quote(u) + s
    ensures t == u && r == s
  {
    var a, b := Quote(t) + r, Quote(u) + s;
    assert a[1..] == Escaped(t) + ([QUOTE] + r) && b[1..] == Escaped(u) + ([QUOTE] + s);
    EscapedParses(t, u, r, s);
  }

  // -------------------------------------------------------------- reading back

  /** What may follow a value. */
  predicate Ends(r: Text) {
    r == [] || r[0] == COMMA || r[0] == CLOSE || r[0] == END
  }

  predicate Printable(v: Json) {
    match v
    case Undefined => false
    case Num(decimal) => IsDecimal(decimal)
    case Arr(items) => forall i :: 0 <= i < |items| ==> Printable(items[i])
    case Obj(members) => forall i :: 0 <= i < |members| ==> Printable(members[i].value)
    case _ => true
  }

  /** The first unit tells what kind of value follows. */
  lemma FirstUnit(v: Json)
    requires Printable(v)
    ensures Print(v) != []
    ensures
      var u := Print(v)[0];
      && (v.Null? <==> u == 0x6E) && (v == Bool(true) <==> u == 0x74) && (v == Bool(false) <==> u == 0x66)
      && (v.Num? <==> 0x30 <= u <= 0x39 || u == 0x2D)
      && (v.Str? <==> u == QUOTE) && (v.Arr? <==> u == OPEN) && (v.Obj? <==> u == BEGIN)
      && u != CLOSE && u != END
  {
  }

  /** How far a number reaches. */
  function Munch(t: Text): nat {
    if t == [] || !Numeric(t[0]) then 0 else 1 + Munch(t[1..])
  }

  lemma {:induction false} MunchesIt(d: Text, r: Text)
    requires Ends(r) && forall i :: 0 <= i < |d| ==> Numeric(d[i])
    ensures Munch(d + r) == |d|
  {
    if d == [] {
      assert d + r == r;
    } else {
      MunchesIt(d[1..], r);
      assert (d + r)[1..] == d[1..] + r;
    }
  }

  lemma DecimalParses(d: Text, e: Text, r: Text, s: Text)
    requires IsDecimal(d) && IsDecimal(e) && Ends(r) && Ends(s) && d + r == e + s
    ensures d == e && r == s
  {
    MunchesIt(d, r);
    MunchesIt(e, s);
    SameFront(d, r, e, s);
  }

  /** A value is read back from any text that starts with it, whatever follows. */
  lemma {:induction false} PrintParses(a: Json, b: Json, r: Text, s: Text)
    requires Printable(a) && Printable(b) && Ends(r) && Ends(s) && Print(a) + r == Print(b) + s
    ensures a == b && r == s
    decreases a
  {
    FirstUnit(a);
    FirstUnit(b);
    SameFirst(Print(a), r, Print(b), s);
    match a
    case Num(d) => DecimalParses(d, b.decimal, r, s);
    case Str(t) => QuoteParses(t, b.text, r, s);
    case Arr(items) =>
      Unwrap(OPEN, PrintItems(items), r, PrintItems(b.items), s);
      ItemsParse(items, b.items, r, s);
    case Obj(members) =>
      Unwrap(BEGIN, PrintMembers(members), r, PrintMembers(b.members), s);
      MembersParse(members, b.members, r, s);
    case _ => SameFront(Print(a), r, Print(b), s);
  }

  lemma Unwrap(u: Unit, x: Text, r: Text, y: Text, s: Text)
    requires ([u] + x) + r == ([u] + y) + s
    ensures x + r == y + s
  {
    assert x + r == (([u] + x) + r)[1..] && y + s == (([u] + y) + s)[1..];
  }

  // What follows the first item or member, with `close` after the last one.

  function After(close: Unit, last: bool, rest: Text): Text {
    if last then [close] else [COMMA] + rest
  }

  lemma AfterParses(close: Unit, last1: bool, x: Text, r: Text, last2: bool, y: Text, s: Text)
    requires close != COMMA && After(close, last1, x) + r == After(close, last2, y) + s
    ensures last1 == last2 && if last1 then r == s else x + r == y + s
  {
    SameFirst(After(close, last1, x), r, After(close, last2, y), s);
    if last1 { SameFront([close], r, [close], s); } else { Unwrap(COMMA, x, r, y, s); }
  }

  lemma Regroup(a: Text, b: Text, c: Text)
    ensures (a + b) + c == a + (b + c)
  {
  }

  lemma ItemsSplit(items: seq<Json>, r: Text)
    requires items != []
    ensures PrintItems(items) + r == Print(items[0]) + (After(CLOSE, |items| == 1, PrintItems(items[1..])) + r)
  {
    var after := After(CLOSE, |items| == 1, PrintItems(items[1..]));
    if |items| > 1 { Regroup(Print(items[0]), [COMMA], PrintItems(items[1..])); }
    assert PrintItems(items) == Print(items[0]) + after;
    Regroup(Print(items[0]), after, r);
  }

  lemma ItemsStart(items: seq<Json>)
    requires forall i :: 0 <= i < |items| ==> Printable(items[i])
    ensures PrintItems(items) != [] && (items == [] <==> PrintItems(items)[0] == CLOSE)
  {
    if items != [] { FirstUnit(items[0]); }
  }

  lemma {:induction false} ItemsParse(xs: seq<Json>, ys: seq<Json>, r: Text, s: Text)
    requires (forall i :: 0 <= i < |xs| ==> Printable(xs[i])) && (forall i :: 0 <= i < |ys| ==> Printable(ys[i]))
    requires PrintItems(xs) + r == PrintItems(ys) + s
    ensures xs == ys && r == s
    decreases xs
  {
    ItemsStart(xs);
    ItemsStart(ys);
    SameFirst(PrintItems(xs), r, PrintItems(ys), s);
    if xs == [] {
      SameFront([CLOSE], r, [CLOSE], s);
    } else {
      ItemsSplit(xs, r);
      ItemsSplit(ys, s);
      var x, y := PrintItems(xs[1..]), PrintItems(ys[1..]);
      PrintParses(xs[0], ys[0], After(CLOSE, |xs| == 1, x) + r, After(CLOSE, |ys| == 1, y) + s);
      AfterParses(CLOSE, |xs| == 1, x, r, |ys| == 1, y, s);
      if |xs| > 1 { ItemsParse(xs[1..], ys[1..], r, s); }
      assert xs == [xs[0]] + xs[1..] && ys == [ys[0]] + ys[1..];
    }
  }

  lemma MembersSplit(members: seq<Member>, r: Text)
    requires members != []
    ensures PrintMembers(members) + r ==
      Quote(members[0].key) + ([COLON] + (Print(members[0].value) + (After(END, |members| == 1, PrintMembers(members[1..])) + r)))
  {
    var key, value := Quote(members[0].key), Print(members[0].value);
    var after := After(END, |members| == 1, PrintMembers(members[1..]));
    if |members| > 1 { Regroup(PrintMember(members[0]), [COMMA], PrintMembers(members[1..])); }
    assert PrintMembers(members) == PrintMember(members[0]) + after;
    Regroup(PrintMember(members[0]), after, r);
    Regroup(key + [COLON], value, after + r);
    Regroup(key, [COLON], value + (after + r));
  }

  lemma MembersStart(members: seq<Member>)
    ensures PrintMembers(members) != [] && (members == [] <==> PrintMembers(members)[0] == END)
  {
    if members != [] { MembersSplit(members, []); assert PrintMembers(members) + [] == PrintMembers(members); }
  }

  lemma {:induction false} MembersParse(xs: seq<Member>, ys: seq<Member>, r: Text, s: Text)
    requires (forall i :: 0 <= i < |xs| ==> Printable(xs[i].value)) && (forall i :: 0 <= i < |ys| ==> Printable(ys[i].value))
    requires PrintMembers(xs) + r == PrintMembers(ys) + s
    ensures xs == ys && r == s
    decreases xs
  {
    MembersStart(xs);
    MembersStart(ys);
    SameFirst(PrintMembers(xs), r, PrintMembers(ys), s);
    if xs == [] {
      SameFront([END], r, [END], s);
    } else {
      MembersSplit(xs, r);
      MembersSplit(ys, s);
      var x, y := PrintMembers(xs[1..]), PrintMembers(ys[1..]);
      var p, q := After(END, |xs| == 1, x) + r, After(END, |ys| == 1, y) + s;
      QuoteParses(xs[0].key, ys[0].key, [COLON] + (Print(xs[0].value) + p), [COLON] + (Print(ys[0].value) + q));
      SameFront([COLON], Print(xs[0].value) + p, [COLON], Print(ys[0].value) + q);
      PrintParses(xs[0].value, ys[0].value, p, q);
      AfterParses(END, |xs| == 1, x, r, |ys| == 1, y, s);
      if |xs| > 1 { MembersParse(xs[1..], ys[1..], r, s); }
      assert xs == [xs[0]] + xs[1..] && ys == [ys[0]] + ys[1..];
    }
  }

  // -------------------------------------------------------------- sorted members

  lemma {:induction false} BeforeTotal(a: Text, b: Text)
    ensures a == b || Before(a, b) || Before(b, a)
    ensures !(Before(a, b) && Before(b, a)) && !Before(a, a)
  {
    if a != [] && b != [] && a[0] == b[0] {
      BeforeTotal(a[1..], b[1..]);
      assert a == [a[0]] + a[1..] && b == [b[0]] + b[1..];
    }
    if a != [] { BeforeTotal(a[1..], a[1..]); }
  }

  lemma {:induction false} BeforeTransitive(a: Text, b: Text, c: Text)
    requires Before(a, b) && Before(b, c)
    ensures Before(a, c)
  {
    if a != [] && a[0] == b[0] && b[0] == c[0] { BeforeTransitive(a[1..], b[1..], c[1..]); }
  }

  predicate Sorted(members: seq<Member>) {
    forall i, j :: 0 <= i < j < |members| ==> Before(members[i].key, members[j].key)
  }

  lemma {:induction false} InsertSorted(m: Member, sorted: seq<Member>)
    requires Sorted(sorted) && forall i :: 0 <= i < |sorted| ==> sorted[i].key != m.key
    ensures Sorted(InsertMember(m, sorted))
    ensures forall x :: x in InsertMember(m, sorted) <==> x == m || x in sorted
  {
    if sorted != [] {
      if Before(m.key, sorted[0].key) {
        forall j | 0 < j < |sorted| ensures Before(m.key, sorted[j].key) {
          BeforeTransitive(m.key, sorted[0].key, sorted[j].key);
        }
      } else {
        BeforeTotal(m.key, sorted[0].key);
        InsertSorted(m, sorted[1..]);
        var rest := InsertMember(m, sorted[1..]);
        forall j | 0 <= j < |rest| ensures Before(sorted[0].key, rest[j].key) {
          assert rest[j] in rest;
        }
        assert sorted == [sorted[0]] + sorted[1..];
      }
    }
  }

  predicate DistinctKeys(members: seq<Member>) {
    forall i, j :: 0 <= i < j < |members| ==> members[i].key != members[j].key
  }

  /** A canonical object is sorted and holds the canonical values of what the object holds. */
  lemma {:induction false} CanonMembersHold(members: seq<Member>)
    requires DistinctKeys(members)
    ensures Sorted(CanonMembers(members))
    ensures forall m :: m in CanonMembers(members) ==> exists x :: Holds(members, m.key, x) && m.value == Canon(x)
    ensures forall key, x :: Holds(members, key, x) ==> Member(key, Canon(x)) in CanonMembers(members)
  {
    if members != [] {
      CanonMembersHold(members[1..]);
      var rest := CanonMembers(members[1..]);
      if !members[0].value.Undefined? {
        var m := Member(members[0].key, Canon(members[0].value));
        forall i | 0 <= i < |rest| ensures rest[i].key != m.key {
          assert rest[i] in rest;
          var x :| Holds(members[1..], rest[i].key, x) && rest[i].value == Canon(x);
          var j :| 0 <= j < |members[1..]| && members[1..][j] == Member(rest[i].key, x);
          assert members[j + 1].key == rest[i].key;
        }
        InsertSorted(m, rest);
        assert Holds(members, m.key, members[0].value);
      }
      forall c | c in CanonMembers(members) ensures exists x :: Holds(members, c.key, x) && c.value == Canon(x) {
        if c in rest {
          var x :| Holds(members[1..], c.key, x) && c.value == Canon(x);
          assert Holds(members, c.key, x);
        }
      }
      forall key, x | Holds(members, key, x) ensures Member(key, Canon(x)) in CanonMembers(members) {
        if Member(key, x) != members[0] { assert Holds(members[1..], key, x); }
      }
    }
  }

  lemma FirstIsIn(members: seq<Member>)
    ensures members != [] ==> members[0] in members
  {
  }

  /** Sorted lists of the same members are the same list. */
  lemma {:induction false} SortedUnique(xs: seq<Member>, ys: seq<Member>)
    requires Sorted(xs) && Sorted(ys)
    requires (forall m :: m in xs ==> m in ys) && (forall m :: m in ys ==> m in xs)
    ensures xs == ys
  {
    if xs == [] {
      FirstIsIn(ys);
    } else {
      assert xs[0] in ys;
      assert ys[0] in xs;
      var i :| 0 <= i < |ys| && ys[i] == xs[0];
      var j :| 0 <= j < |xs| && xs[j] == ys[0];
      if i > 0 && j > 0 { BeforeTotal(xs[0].key, ys[0].key); }
      assert xs[0] == ys[0];
      BeforeTotal(xs[0].key, xs[0].key);
      forall m | m in xs[1..] ensures m in ys[1..] {
        var k :| 1 <= k < |xs| && xs[k] == m;
        assert m.key != xs[0].key by { BeforeTotal(xs[0].key, m.key); }
        assert m in ys;
      }
      forall m | m in ys[1..] ensures m in xs[1..] {
        var k :| 1 <= k < |ys| && ys[k] == m;
        assert m.key != ys[0].key by { BeforeTotal(ys[0].key, m.key); }
        assert m in xs;
      }
      SortedUnique(xs[1..], ys[1..]);
      assert xs == [xs[0]] + xs[1..] && ys == [ys[0]] + ys[1..];
    }
  }

  // --------------------------------------------------- same value, same canon

  lemma {:induction false} SameCanon(a: Json, b: Json)
    requires WellFormed(a) && WellFormed(b) && Same(a, b)
    ensures Canon(a) == Canon(b)
    decreases a
  {
    match a
    case Arr(items) => SameCanonAll(items, b.items);
    case Obj(members) => SameCanonMembers(a, b);
    case _ =>
  }

  lemma {:induction false} SameCanonAll(xs: seq<Json>, ys: seq<Json>)
    requires |xs| == |ys|
    requires forall i :: 0 <= i < |xs| ==> WellFormed(xs[i]) && WellFormed(ys[i]) && Same(xs[i], ys[i])
    ensures CanonAll(xs) == CanonAll(ys)
    decreases xs
  {
    if xs != [] {
      SameCanon(xs[0], ys[0]);
      SameCanonAll(xs[1..], ys[1..]);
    }
  }

  lemma OneValue(members: seq<Member>, key: Text, x: Json, y: Json)
    requires DistinctKeys(members) && Holds(members, key, x) && Holds(members, key, y)
    ensures x == y
  {
    var i :| 0 <= i < |members| && members[i] == Member(key, x);
    var j :| 0 <= j < |members| && members[j] == Member(key, y);
  }

  lemma {:induction false} SameCanonMembers(a: Json, b: Json)
    requires a.Obj? && b.Obj? && WellFormed(a) && WellFormed(b) && Same(a, b)
    ensures CanonMembers(a.members) == CanonMembers(b.members)
    decreases a, 1
  {
    CanonMembersHold(a.members);
    CanonMembersHold(b.members);
    forall m | m in CanonMembers(a.members) ensures m in CanonMembers(b.members) {
      var x :| Holds(a.members, m.key, x) && m.value == Canon(x);
      var y := Partner(a, b, m.key, x);
    }
    forall m | m in CanonMembers(b.members) ensures m in CanonMembers(a.members) {
      var y :| Holds(b.members, m.key, y) && m.value == Canon(y);
      var x := PartnerBack(a, b, m.key, y);
    }
    SortedUnique(CanonMembers(a.members), CanonMembers(b.members));
  }

  /** And back: the value of the first object under a key of the other. */
  lemma {:induction false} PartnerBack(a: Json, b: Json, key: Text, y: Json) returns (x: Json)
    requires a.Obj? && b.Obj? && WellFormed(a) && WellFormed(b) && Same(a, b) && Holds(b.members, key, y)
    ensures Holds(a.members, key, x) && Canon(x) == Canon(y)
    decreases a, 0, 1
  {
    var i :| 0 <= i < |b.members| && b.members[i] == Member(key, y);
    x :| Holds(a.members, key, x);
    var z := Partner(a, b, key, x);
    OneValue(b.members, key, y, z);
  }

  /** The value the other object holds under the same key. */
  lemma {:induction false} Partner(a: Json, b: Json, key: Text, x: Json) returns (y: Json)
    requires a.Obj? && b.Obj? && WellFormed(a) && WellFormed(b) && Same(a, b) && Holds(a.members, key, x)
    ensures Holds(b.members, key, y) && Canon(x) == Canon(y)
    decreases a, 0, 0
  {
    var i :| 0 <= i < |a.members| && a.members[i] == Member(key, x);
    y :| Holds(b.members, a.members[i].key, y) && Same(a.members[i].value, y);
    var j :| 0 <= j < |b.members| && b.members[j] == Member(key, y);
    SameCanon(a.members[i].value, y);
  }

  lemma {:induction false} CanonSame(a: Json, b: Json)
    requires WellFormed(a) && WellFormed(b) && Canon(a) == Canon(b)
    ensures Same(a, b)
    decreases a
  {
    match a
    case Arr(items) => CanonSameAll(items, b.items);
    case Obj(members) =>
      CanonMembersHold(members);
      CanonMembersHold(b.members);
      forall i | 0 <= i < |members| && !members[i].value.Undefined?
        ensures exists y :: Holds(b.members, members[i].key, y) && Same(members[i].value, y)
      {
        assert Holds(members, members[i].key, members[i].value);
        var m := Member(members[i].key, Canon(members[i].value));
        assert m in CanonMembers(b.members);
        var y :| Holds(b.members, m.key, y) && m.value == Canon(y);
        var j :| 0 <= j < |b.members| && b.members[j] == Member(m.key, y);
        CanonSame(members[i].value, y);
      }
      forall key, y | Holds(b.members, key, y) ensures exists x :: Holds(members, key, x) {
        var m := Member(key, Canon(y));
        assert m in CanonMembers(members);
        var x :| Holds(members, m.key, x) && m.value == Canon(x);
      }
    case _ =>
  }

  lemma {:induction false} CanonSameAll(xs: seq<Json>, ys: seq<Json>)
    requires (forall i :: 0 <= i < |xs| ==> WellFormed(xs[i])) && (forall i :: 0 <= i < |ys| ==> WellFormed(ys[i]))
    requires CanonAll(xs) == CanonAll(ys)
    ensures |xs| == |ys| && forall i :: 0 <= i < |xs| ==> Same(xs[i], ys[i])
    decreases xs
  {
    assert |xs| == |CanonAll(xs)| == |CanonAll(ys)| == |ys|;
    if xs != [] {
      assert CanonAll(xs)[0] == Canon(xs[0]) && CanonAll(ys)[0] == Canon(ys[0]);
      assert CanonAll(xs)[1..] == CanonAll(xs[1..]) && CanonAll(ys)[1..] == CanonAll(ys[1..]);
      CanonSame(xs[0], ys[0]);
      CanonSameAll(xs[1..], ys[1..]);
      forall i | 0 <= i < |xs| ensures Same(xs[i], ys[i]) {
        if i > 0 { assert xs[i] == xs[1..][i - 1] && ys[i] == ys[1..][i - 1]; }
      }
    }
  }

  lemma {:induction false} CanonPrintable(v: Json)
    requires WellFormed(v)
    ensures Printable(Canon(v))
    decreases v
  {
    match v
    case Arr(items) => CanonAllPrintable(items);
    case Obj(members) => CanonMembersPrintable(members);
    case _ =>
  }

  lemma {:induction false} CanonAllPrintable(items: seq<Json>)
    requires forall i :: 0 <= i < |items| ==> WellFormed(items[i])
    ensures forall i :: 0 <= i < |items| ==> Printable(CanonAll(items)[i])
    decreases items
  {
    if items != [] {
      CanonPrintable(items[0]);
      CanonAllPrintable(items[1..]);
    }
  }

  lemma {:induction false} CanonMembersPrintable(members: seq<Member>)
    requires forall i :: 0 <= i < |members| ==> WellFormed(members[i].value)
    ensures forall m :: m in CanonMembers(members) ==> Printable(m.value)
    decreases members
  {
    if members != [] {
      CanonMembersPrintable(members[1..]);
      if !members[0].value.Undefined? {
        CanonPrintable(members[0].value);
        InsertIsIn(Member(members[0].key, Canon(members[0].value)), CanonMembers(members[1..]));
      }
    }
  }

  lemma {:induction false} InsertIsIn(m: Member, sorted: seq<Member>)
    ensures forall x :: x in InsertMember(m, sorted) ==> x == m || x in sorted
  {
    if sorted != [] && !Before(m.key, sorted[0].key) { InsertIsIn(m, sorted[1..]); }
  }

  /**
   * `stableStringify` is a canonical form: two values print the same exactly when
   * they are the same value, whatever the order their objects' keys came in.
   */
  lemma CanonicalForm(a: Json, b: Json)
    requires WellFormed(a) && WellFormed(b)
    ensures Stringify(a) == Stringify(b) <==> Same(a, b)
  {
    StringifyPrints(a);
    StringifyPrints(b);
    if Same(a, b) { SameCanon(a, b); }
    if Stringify(a) == Stringify(b) {
      CanonPrintable(a);
      CanonPrintable(b);
      assert Print(Canon(a)) + [] == Print(Canon(b)) + [];
      PrintParses(Canon(a), Canon(b), [], []);
      CanonSame(a, b);
    }
  }

  // ----------------------------------------------------------------- encoding

  /** Every surrogate is half of a pair, so encoding as UTF-8 loses nothing. */
  predicate Paired(t: Text) {
    if t == [] then true
    else if High(t[0]) then |t| > 1 && Low(t[1]) && Paired(t[2..])
    else !Low(t[0]) && Paired(t[1..])
  }

  lemma {:induction false} PairedConcat(a: Text, b: Text)
    requires Paired(a) && Paired(b)
    ensures Paired(a + b)
  {
    if a == [] {
      assert a + b == b;
    } else if High(a[0]) {
      PairedConcat(a[2..], b);
      assert (a + b)[2..] == a[2..] + b;
    } else {
      PairedConcat(a[1..], b);
      assert (a + b)[1..] == a[1..] + b;
    }
  }

  lemma {:induction false} PlainPaired(t: Text)
    requires forall i :: 0 <= i < |t| ==> !High(t[i]) && !Low(t[i])
    ensures Paired(t)
  {
    if t != [] { PlainPaired(t[1..]); }
  }

  lemma {:induction false} EscapedPaired(t: Text)
    ensures Paired(Escaped(t))
  {
    if t != [] {
      if StartsPair(t) {
        EscapedPaired(t[2..]);
        assert t[..2][2..] == [];
        PairedConcat(t[..2], Escaped(t[2..]));
      } else {
        EscapedPaired(t[1..]);
        PlainPaired(Escape(t[0]));
        PairedConcat(Escape(t[0]), Escaped(t[1..]));
      }
    }
  }

  lemma QuotePaired(t: Text)
    ensures Paired(Quote(t))
  {
    EscapedPaired(t);
    PlainPaired([QUOTE]);
    PairedConcat([QUOTE], Escaped(t));
    PairedConcat([QUOTE] + Escaped(t), [QUOTE]);
  }

  /** Whatever strings a value holds, lone surrogates and all, its text encodes without loss. */
  lemma {:induction false} PrintPaired(v: Json)
    requires Printable(v)
    ensures Paired(Print(v))
    decreases v
  {
    match v
    case Str(t) => QuotePaired(t);
    case Arr(items) => ItemsPaired(items); PlainPaired([OPEN]); PairedConcat([OPEN], PrintItems(items));
    case Obj(members) => MembersPaired(members); PlainPaired([BEGIN]); PairedConcat([BEGIN], PrintMembers(members));
    case _ => PlainPaired(Print(v));
  }

  lemma {:induction false} ItemsPaired(items: seq<Json>)
    requires forall i :: 0 <= i < |items| ==> Printable(items[i])
    ensures Paired(PrintItems(items))
    decreases items
  {
    PlainPaired([CLOSE]);
    PlainPaired([COMMA]);
    if items != [] {
      PrintPaired(items[0]);
      ItemsPaired(items[1..]);
      PairedConcat(Print(items[0]), [CLOSE]);
      PairedConcat(Print(items[0]), [COMMA]);
      PairedConcat(Print(items[0]) + [COMMA], PrintItems(items[1..]));
    }
  }

  lemma {:induction false} MembersPaired(members: seq<Member>)
    requires forall i :: 0 <= i < |members| ==> Printable(members[i].value)
    ensures Paired(PrintMembers(members))
    decreases members
  {
    PlainPaired([END]);
    PlainPaired([COMMA]);
    PlainPaired([COLON]);
    if members != [] {
      QuotePaired(members[0].key);
      PrintPaired(members[0].value);
      MembersPaired(members[1..]);
      PairedConcat(Quote(members[0].key), [COLON]);
      PairedConcat(Quote(members[0].key) + [COLON], Print(members[0].value));
      var one := PrintMember(members[0]);
      PairedConcat(one, [END]);
      PairedConcat(one, [COMMA]);
      PairedConcat(one + [COMMA], PrintMembers(members[1..]));
    }
  }

  lemma StringifyEncodes(v: Json)
    requires WellFormed(v)
    ensures Paired(Stringify(v))
  {
    StringifyPrints(v);
    CanonPrintable(v);
    PrintPaired(Canon(v));
  }
}
